/**
 * The app target's session coordinator (SpotRun/Core/SessionCoordinator.swift).
 * It debounces heart-rate samples with two run counters against the zone
 * range widened by 2 bpm, averages pace over a trailing window, applies the
 * pace gate, and asks the app audio engine to play or pause. The engine's
 * `onPlaybackChange` callback mirrors every reported playback state into
 * the live metrics and logs it to `analytics`. The current time is a
 * parameter; the HealthKit, motion and Spotify services are left out, and
 * the workout summary HealthKit returns on stop is a parameter too.
 */
module AppSessionCoordinator {
  import opened Wrappers
  import opened Arithmetic
  import opened Windows
  import opened AppModels
  import Engine = AppAudioPolicyEngine

  /** Coordinator tuning; the window is whole seconds. */
  datatype Configuration = Configuration(
    minimumPaceKmh: real,
    minimumStepsPerMinute: int,
    paceWindowSeconds: int,
    requireMinPace: bool)

  /** The analytics events this coordinator emits (service errors are left out). */
  datatype AnalyticsEvent = StateChange(from: PlaybackState, to: PlaybackState, reason: string)

  /** `consecutiveInZone` and `consecutiveOutOfZone`. */
  datatype Counters = Counters(inZone: nat, outOfZone: nat)

  /** Everything the coordinator and its audio engine hold. */
  datatype Session = Session(
    isRunning: bool,
    mode: WorkoutMode,
    metrics: LiveMetrics,
    counters: Counters,
    lastHeartRateDate: Option<int>,
    lastZoneState: ZoneState,
    paceSamples: seq<PaceSample>,
    lastPlaybackState: PlaybackState,
    analytics: seq<AnalyticsEvent>,
    engine: Engine.Machine)

  /** Music can be heard: the engine is fading in or playing. */
  predicate Audible(s: Engine.State)
  {
    s == Engine.FadingIn || s == Engine.Playing
  }

  /** What every step keeps, whether or not a session runs:
      - the engine is consistent,
      - at most one run counter is non-zero,
      - the live zone is the last zone decided,
      - the live playback state is what the engine last reported. */
  predicate Consistent(s: Session)
  {
    && Engine.Valid(s.engine)
    && (s.counters.inZone == 0 || s.counters.outOfZone == 0)
    && s.metrics.zoneState == s.lastZoneState
    && s.metrics.playbackState == s.lastPlaybackState == Engine.PlaybackOf(s.engine.state)
  }

  /** What holds between any two operations: the above, and a session is
      running exactly when the engine is not stopped. */
  predicate Inv(s: Session)
  {
    Consistent(s) && (s.isRunning <==> s.engine.state != Engine.Stopped)
  }

  /** A freshly initialised coordinator with a fresh engine. */
  function InitialSession(): (s: Session)
    ensures Inv(s) && !s.isRunning && s.mode == Outdoor
    ensures s.metrics == InitialMetrics() && s.counters == Counters(0, 0)
    ensures s.lastHeartRateDate == None && s.lastZoneState == Unknown
    ensures s.paceSamples == [] && s.lastPlaybackState == Stopped && s.analytics == []
    ensures s.engine == Engine.Initial()
  {
    Session(false, Outdoor, InitialMetrics(), Counters(0, 0), None, Unknown, [], Stopped, [], Engine.Initial())
  }

  // ---------------------------------------------------------------------
  // The playback callback
  // ---------------------------------------------------------------------

  /** Only the fields the playback callback writes differ between `s` and `r`. */
  predicate OnlyPlaybackChanged(s: Session, r: Session)
  {
    r == s.(metrics := s.metrics.(playbackState := r.metrics.playbackState),
            lastPlaybackState := r.lastPlaybackState,
            analytics := r.analytics)
  }

  /** One run of the `onPlaybackChange` closure for `state`. */
  function Observe(s: Session, state: PlaybackState): (r: Session)
    ensures OnlyPlaybackChanged(s, r)
    ensures r.metrics.playbackState == r.lastPlaybackState == state
    ensures r.analytics == s.analytics + [StateChange(s.lastPlaybackState, state, "engine")]
  {
    s.(metrics := s.metrics.(playbackState := state),
       analytics := s.analytics + [StateChange(s.lastPlaybackState, state, "engine")],
       lastPlaybackState := state)
  }

  /** The closure run once for each of `news`, in order. */
  function ObserveAll(s: Session, news: seq<PlaybackState>): (r: Session)
    ensures OnlyPlaybackChanged(s, r)
    ensures news == [] ==> r == s
    ensures news != [] ==> r.metrics.playbackState == r.lastPlaybackState == news[|news| - 1]
  {
    if news == [] then s else Observe(ObserveAll(s, news[..|news| - 1]), news[|news| - 1])
  }

  /** The log of state changes the callback writes for `news`, starting from
      the state `from` it last saw. */
  function Changes(from: PlaybackState, news: seq<PlaybackState>): (r: seq<AnalyticsEvent>)
    ensures |r| == |news|
    decreases |news|
  {
    if news == [] then [] else [StateChange(from, news[0], "engine")] + Changes(news[0], news[1..])
  }

  /** The logged changes form a chain: the i-th event goes to the i-th new
      state, from the state before it. */
  lemma {:induction false} ChangesChain(from: PlaybackState, news: seq<PlaybackState>)
    ensures forall i :: 0 <= i < |news| ==> Changes(from, news)[i].to == news[i]
    ensures forall i :: 0 <= i < |news| ==> Changes(from, news)[i].reason == "engine"
    ensures |news| > 0 ==> Changes(from, news)[0].from == from
    ensures forall i :: 0 < i < |news| ==> Changes(from, news)[i].from == news[i - 1]
    decreases |news|
  {
    if news != [] {
      ChangesChain(news[0], news[1..]);
      var tail := Changes(news[0], news[1..]);
      assert Changes(from, news) == [StateChange(from, news[0], "engine")] + tail;
      forall i | 0 < i < |news|
        ensures Changes(from, news)[i] == tail[i - 1] && news[1..][i - 1] == news[i]
      {
      }
    }
  }

  /** `Changes` with one more state at the end. */
  lemma {:induction false} ChangesAppend(from: PlaybackState, news: seq<PlaybackState>, state: PlaybackState)
    ensures Changes(from, news + [state])
         == Changes(from, news) + [StateChange(if news == [] then from else news[|news| - 1], state, "engine")]
    decreases |news|
  {
    if news != [] {
      assert (news + [state])[1..] == news[1..] + [state];
      ChangesAppend(news[0], news[1..], state);
    }
  }

  /** Running the callback over `news` logs exactly the chain of changes from
      the last state it saw through every new state. */
  lemma {:induction false} ObserveAllLogsChanges(s: Session, news: seq<PlaybackState>)
    ensures ObserveAll(s, news).analytics == s.analytics + Changes(s.lastPlaybackState, news)
    decreases |news|
  {
    if news != [] {
      var init, last := news[..|news| - 1], news[|news| - 1];
      var before := ObserveAll(s, init);
      ObserveAllLogsChanges(s, init);
      assert before.lastPlaybackState == if init == [] then s.lastPlaybackState else init[|init| - 1];
      ChangesAppend(s.lastPlaybackState, init, last);
      assert init + [last] == news;
      assert ObserveAll(s, news).analytics == before.analytics + [StateChange(before.lastPlaybackState, last, "engine")];
    }
  }

  /** The engine moves to `next`, and the callback sees every state it
      reported on the way. */
  function Delivered(s: Session, next: Engine.Machine): (r: Session)
    requires s.engine.notifications <= next.notifications
    ensures OnlyPlaybackChanged(s.(engine := next), r)
    ensures Engine.Reported(s.engine) && Engine.Reported(next)
            && s.metrics.playbackState == s.lastPlaybackState == Engine.PlaybackOf(s.engine.state)
            ==> r.metrics.playbackState == r.lastPlaybackState == Engine.PlaybackOf(next.state)
  {
    var news := next.notifications[|s.engine.notifications|..];
    assert news == [] ==> next.notifications == s.engine.notifications;
    ObserveAll(s.(engine := next), news)
  }

  /** `audioEngine.requestPlay()`, with the callback it fires. */
  function AfterPlayRequest(s: Session): (r: Session)
    requires Engine.Valid(s.engine)
  {
    Engine.NotificationsOnlyGrow(s.engine, Engine.User);
    Delivered(s, Engine.AfterPlay(s.engine))
  }

  /** `audioEngine.requestPause(reason:)`, with the callback it fires. */
  function AfterPauseRequest(s: Session, reason: Engine.PauseReason): (r: Session)
    requires Engine.Valid(s.engine)
  {
    Engine.NotificationsOnlyGrow(s.engine, reason);
    Delivered(s, Engine.AfterPause(s.engine, reason))
  }

  // ---------------------------------------------------------------------
  // Decisions
  // ---------------------------------------------------------------------

  /** The zone range widened by 2 bpm on each side, `(lower - 2)...(upper + 2)`. */
  predicate InWidenedRange(range: ZoneRange, bpm: int)
  {
    range.lower - 2 <= bpm <= range.upper + 2
  }

  /** One sample's effect on the run counters. */
  function Count(c: Counters, inRange: bool): (r: Counters)
    ensures r.inZone == 0 || r.outOfZone == 0
  {
    if inRange then Counters(c.inZone + 1, 0) else Counters(0, c.outOfZone + 1)
  }

  /** The counters after the heart rates `bpms`, from the given start. */
  function CountAll(range: ZoneRange, c: Counters, bpms: seq<int>): Counters
  {
    if bpms == [] then c
    else Count(CountAll(range, c, bpms[..|bpms| - 1]), InWidenedRange(range, bpms[|bpms| - 1]))
  }

  /** The number of samples at the end of `bpms` that are all inside
      (`inside`) or all outside the widened range. */
  function TrailingRun(range: ZoneRange, bpms: seq<int>, inside: bool): (n: nat)
    ensures n <= |bpms|
    ensures forall i :: |bpms| - n <= i < |bpms| ==> InWidenedRange(range, bpms[i]) == inside
    ensures n < |bpms| ==> InWidenedRange(range, bpms[|bpms| - n - 1]) != inside
  {
    if bpms == [] || InWidenedRange(range, bpms[|bpms| - 1]) != inside then 0
    else
      var init := bpms[..|bpms| - 1];
      var k := TrailingRun(range, init, inside);
      assert forall i :: 0 <= i < |init| ==> init[i] == bpms[i];
      k + 1
  }

  /** From zero, the counters are the lengths of the trailing runs of
      in-range and out-of-range samples. */
  lemma {:induction false} CountingTracksRuns(range: ZoneRange, bpms: seq<int>)
    ensures CountAll(range, Counters(0, 0), bpms)
         == Counters(TrailingRun(range, bpms, true), TrailingRun(range, bpms, false))
  {
    if bpms != [] {
      CountingTracksRuns(range, bpms[..|bpms| - 1]);
    }
  }

  /** From zero, the in-zone counter reaches 3 exactly when the last three
      samples were all in the widened range, and the out-of-zone counter
      exactly when they were all outside it. */
  lemma ThreeInARow(range: ZoneRange, bpms: seq<int>)
    ensures CountAll(range, Counters(0, 0), bpms).inZone >= 3 <==>
              |bpms| >= 3 && forall i :: |bpms| - 3 <= i < |bpms| ==> InWidenedRange(range, bpms[i])
    ensures CountAll(range, Counters(0, 0), bpms).outOfZone >= 3 <==>
              |bpms| >= 3 && forall i :: |bpms| - 3 <= i < |bpms| ==> !InWidenedRange(range, bpms[i])
  {
    CountingTracksRuns(range, bpms);
  }

  /** The pace gate: met when no minimum is required; otherwise outdoors the
      pace, and on a treadmill the cadence, must be known and reach the
      minimum. */
  function PaceRequirementMet(config: Configuration, mode: WorkoutMode, metrics: LiveMetrics): (met: bool)
    ensures !config.requireMinPace ==> met
    ensures config.requireMinPace && mode == Outdoor ==>
              (met <==> metrics.paceKmh.Some? && metrics.paceKmh.value >= config.minimumPaceKmh)
    ensures config.requireMinPace && mode == Treadmill ==>
              (met <==> metrics.stepsPerMinute.Some? && metrics.stepsPerMinute.value >= config.minimumStepsPerMinute)
  {
    if config.requireMinPace then
      match mode
      case Outdoor => metrics.paceKmh.Some? && metrics.paceKmh.value >= config.minimumPaceKmh
      case Treadmill => metrics.stepsPerMinute.Some? && metrics.stepsPerMinute.value >= config.minimumStepsPerMinute
    else true
  }

  datatype Request = PlayRequest | PauseRequest(reason: Engine.PauseReason)

  /** The verdict: play only in the zone with the gate met; otherwise a soft
      sensor pause while the zone is unknown, a pace pause when the gate
      failed, and a zone pause in every other case. */
  function RequestFor(config: Configuration, zone: ZoneState, met: bool): (q: Request)
    ensures q == PlayRequest <==> zone == InZone && met
    ensures zone == Unknown ==> q == PauseRequest(Engine.SensorSoft)
    ensures zone != Unknown && !(zone == InZone && met) ==>
              q == PauseRequest(if !met && config.requireMinPace then Engine.Pace else Engine.Zone)
  {
    if zone == InZone && met then PlayRequest
    else if zone == Unknown then PauseRequest(Engine.SensorSoft)
    else if !met && config.requireMinPace then PauseRequest(Engine.Pace)
    else PauseRequest(Engine.Zone)
  }

  /** The fields the sensor evaluation reads and never writes are the same
      in `s` and `r`. */
  predicate SameInputs(s: Session, r: Session)
  {
    && r.isRunning == s.isRunning && r.mode == s.mode && r.counters == s.counters
    && r.lastHeartRateDate == s.lastHeartRateDate && r.lastZoneState == s.lastZoneState
    && r.paceSamples == s.paceSamples
    && r.metrics.heartRateBpm == s.metrics.heartRateBpm && r.metrics.paceKmh == s.metrics.paceKmh
    && r.metrics.stepsPerMinute == s.metrics.stepsPerMinute && r.metrics.zoneState == s.metrics.zoneState
  }

  /** `evaluateSensors()`: records whether the gate is met and sends the
      verdict to the engine; it does not look at `isRunning`. Right after it,
      music is audible exactly when the zone is `inZone` and the gate is
      met. A running engine is never stopped by it, and a stopped engine is
      restarted exactly when the verdict is to play. */
  function AfterEvaluateSensors(config: Configuration, s: Session): (r: Session)
    requires Consistent(s)
    ensures Consistent(r) && SameInputs(s, r)
    ensures r.metrics.isPaceRequirementMet == PaceRequirementMet(config, s.mode, s.metrics)
    ensures Audible(r.engine.state) <==> r.metrics.zoneState == InZone && r.metrics.isPaceRequirementMet
    ensures s.engine.state != Engine.Stopped ==> r.engine.state != Engine.Stopped
    ensures s.engine.state == Engine.Stopped ==>
              (r.engine.state == Engine.Stopped <==> !(r.metrics.zoneState == InZone && r.metrics.isPaceRequirementMet))
    ensures Inv(s) && s.isRunning ==> Inv(r)
  {
    var met := PaceRequirementMet(config, s.mode, s.metrics);
    var s1 := s.(metrics := s.metrics.(isPaceRequirementMet := met));
    match RequestFor(config, s.metrics.zoneState, met)
    case PlayRequest =>
      Engine.RequestOutcomes(s1.engine, Engine.User);
      AfterPlayRequest(s1)
    case PauseRequest(reason) =>
      Engine.RequestOutcomes(s1.engine, reason);
      AfterPauseRequest(s1, reason)
  }

  /** `updateZoneState(_:)`: an unchanged zone does nothing at all; a new one
      is recorded and the sensors are evaluated again. */
  function AfterUpdateZone(config: Configuration, s: Session, z: ZoneState): (r: Session)
    requires Consistent(s)
    ensures Consistent(r) && r.isRunning == s.isRunning && r.lastZoneState == z
    ensures Inv(s) && s.isRunning ==> Inv(r)
    ensures r.counters == s.counters && r.paceSamples == s.paceSamples && r.mode == s.mode
    ensures r.lastHeartRateDate == s.lastHeartRateDate && r.metrics.heartRateBpm == s.metrics.heartRateBpm
    ensures z == s.lastZoneState ==> r == s
    ensures z != s.lastZoneState ==>
              (Audible(r.engine.state) <==> z == InZone && r.metrics.isPaceRequirementMet)
  {
    if z == s.lastZoneState then s
    else AfterEvaluateSensors(config, s.(lastZoneState := z, metrics := s.metrics.(zoneState := z)))
  }

  /** `evaluateZone(with:)`: counts the sample into one run and resets the
      other; the zone moves to `inZone` only on the third or later
      consecutive in-range sample and to `outOfZone` only on the third or
      later consecutive out-of-range sample. */
  function AfterEvaluateZone(config: Configuration, range: ZoneRange, s: Session, bpm: int): (r: Session)
    requires Consistent(s)
    ensures Consistent(r) && r.isRunning == s.isRunning
    ensures Inv(s) && s.isRunning ==> Inv(r)
    ensures r.counters == Count(s.counters, InWidenedRange(range, bpm))
    ensures r.counters.inZone == 0 || r.counters.outOfZone == 0
    ensures InWidenedRange(range, bpm) ==> r.counters.inZone == s.counters.inZone + 1 && r.counters.outOfZone == 0
    ensures !InWidenedRange(range, bpm) ==> r.counters.outOfZone == s.counters.outOfZone + 1 && r.counters.inZone == 0
    ensures r.lastZoneState != s.lastZoneState ==>
              || (InWidenedRange(range, bpm) && r.counters.inZone >= 3 && r.lastZoneState == InZone)
              || (!InWidenedRange(range, bpm) && r.counters.outOfZone >= 3 && r.lastZoneState == OutOfZone)
    ensures r.lastHeartRateDate == s.lastHeartRateDate && r.metrics.heartRateBpm == s.metrics.heartRateBpm
    ensures r.paceSamples == s.paceSamples && r.mode == s.mode
  {
    var inRange := InWidenedRange(range, bpm);
    var s1 := s.(counters := Count(s.counters, inRange));
    if inRange && s1.counters.inZone >= 3 then AfterUpdateZone(config, s1, InZone)
    else if !inRange && s1.counters.outOfZone >= 3 then AfterUpdateZone(config, s1, OutOfZone)
    else s1
  }

  /** `handleHeartRate(_:)` as written: records the sample, runs the
      debounce, then evaluates the sensors, whether or not a session runs. */
  function AfterHeartRate(config: Configuration, range: ZoneRange, s: Session, sample: HeartRateSample): (r: Session)
    requires Consistent(s)
    ensures Consistent(r) && r.isRunning == s.isRunning
    ensures Inv(s) && s.isRunning ==> Inv(r)
    ensures r.lastHeartRateDate == Some(sample.date) && r.metrics.heartRateBpm == Some(sample.bpm)
    ensures r.counters == Count(s.counters, InWidenedRange(range, sample.bpm))
    ensures Audible(r.engine.state) <==> r.metrics.zoneState == InZone && r.metrics.isPaceRequirementMet
  {
    var s1 := s.(lastHeartRateDate := Some(sample.date), metrics := s.metrics.(heartRateBpm := Some(sample.bpm)));
    AfterEvaluateSensors(config, AfterEvaluateZone(config, range, s1, sample.bpm))
  }

  function PaceDate(p: PaceSample): int { p.date }

  /** The speeds of `samples`, in order. */
  function Speeds(samples: seq<PaceSample>): (speeds: seq<real>)
    ensures |speeds| == |samples|
    ensures forall i :: 0 <= i < |samples| ==> speeds[i] == samples[i].speedMetersPerSecond
  {
    seq(|samples|, i requires 0 <= i < |samples| => samples[i].speedMetersPerSecond)
  }

  /** The first half of `handlePace(_:)` at time `now`: the window keeps the
      samples dated at or after `now - paceWindowSeconds`; a non-empty window
      sets the pace to 3.6 times its mean speed, an empty one keeps the
      previous pace. */
  function PaceRecorded(config: Configuration, s: Session, sample: PaceSample, now: int): (r: Session)
    ensures r.paceSamples == Recent(s.paceSamples + [sample], PaceDate, now - config.paceWindowSeconds)
    ensures r.paceSamples != [] ==> r.metrics.paceKmh == Some(MeanReal(Speeds(r.paceSamples)) * 3.6)
    ensures r.paceSamples == [] ==> r.metrics.paceKmh == s.metrics.paceKmh
    ensures r == s.(paceSamples := r.paceSamples, metrics := s.metrics.(paceKmh := r.metrics.paceKmh))
  {
    var window := Recent(s.paceSamples + [sample], PaceDate, now - config.paceWindowSeconds);
    var s1 := s.(paceSamples := window);
    if window != [] then s1.(metrics := s1.metrics.(paceKmh := Some(MeanReal(Speeds(window)) * 3.6))) else s1
  }

  /** `handlePace(_:)` at time `now` as written: the pace is recorded, then
      the sensors are evaluated again, whether or not a session runs. */
  function AfterPace(config: Configuration, s: Session, sample: PaceSample, now: int): (r: Session)
    requires Consistent(s)
    ensures Consistent(r) && r.isRunning == s.isRunning
    ensures Inv(s) && s.isRunning ==> Inv(r)
    ensures r.paceSamples == Recent(s.paceSamples + [sample], PaceDate, now - config.paceWindowSeconds)
    ensures r.paceSamples != [] ==> r.metrics.paceKmh == Some(MeanReal(Speeds(r.paceSamples)) * 3.6)
    ensures r.paceSamples == [] ==> r.metrics.paceKmh == s.metrics.paceKmh
    ensures r.counters == s.counters && r.lastZoneState == s.lastZoneState
    ensures Audible(r.engine.state) <==> r.metrics.zoneState == InZone && r.metrics.isPaceRequirementMet
  {
    AfterEvaluateSensors(config, PaceRecorded(config, s, sample, now))
  }

  /** A sample inside the window is kept, so it always yields a pace. */
  lemma FreshSampleSetsPace(config: Configuration, s: Session, sample: PaceSample, now: int)
    requires Consistent(s)
    requires sample.date >= now - config.paceWindowSeconds
    ensures sample in AfterPace(config, s, sample, now).paceSamples
    ensures AfterPace(config, s, sample, now).metrics.paceKmh.Some?
  {
    var xs := s.paceSamples + [sample];
    assert xs[|xs| - 1] == sample;
  }

  /** With every windowed speed within `[lo, hi]` m/s, the pace lies within
      `[3.6 lo, 3.6 hi]` km/h. */
  lemma PaceWithinSpeedBounds(config: Configuration, s: Session, sample: PaceSample, now: int, lo: real, hi: real)
    requires Consistent(s)
    requires forall p :: p in s.paceSamples + [sample] ==> lo <= p.speedMetersPerSecond <= hi
    requires sample.date >= now - config.paceWindowSeconds
    ensures AfterPace(config, s, sample, now).metrics.paceKmh.Some?
    ensures 3.6 * lo <= AfterPace(config, s, sample, now).metrics.paceKmh.value <= 3.6 * hi
  {
    FreshSampleSetsPace(config, s, sample, now);
    var window := AfterPace(config, s, sample, now).paceSamples;
    var speeds := Speeds(window);
    assert forall i :: 0 <= i < |speeds| ==> lo <= speeds[i] <= hi by {
      forall i | 0 <= i < |speeds|
        ensures lo <= speeds[i] <= hi
      {
        assert window[i] in window;
      }
    }
    MeanRealBounds(speeds, lo, hi);
  }

  /** The steps observer's task as written: the cadence is taken as
      reported and the sensors are evaluated again, whether or not a session
      runs. */
  function AfterSteps(config: Configuration, s: Session, sample: StepsSample): (r: Session)
    requires Consistent(s)
    ensures Consistent(r) && r.isRunning == s.isRunning
    ensures Inv(s) && s.isRunning ==> Inv(r)
    ensures r.metrics.stepsPerMinute == Some(sample.stepsPerMinute)
    ensures r.counters == s.counters && r.lastZoneState == s.lastZoneState && r.paceSamples == s.paceSamples
    ensures Audible(r.engine.state) <==> r.metrics.zoneState == InZone && r.metrics.isPaceRequirementMet
  {
    AfterEvaluateSensors(config, s.(metrics := s.metrics.(stepsPerMinute := Some(sample.stepsPerMinute))))
  }

  /** `startSession(mode:)`: a no-op while running; otherwise the session
      runs in `mode` and the engine waits for the zone, reported as paused. */
  function AfterStartSession(s: Session, mode: WorkoutMode): (r: Session)
    requires Inv(s)
    ensures Inv(r) && r.isRunning
    ensures s.isRunning ==> r == s
    ensures !s.isRunning ==> r.mode == mode && r.engine.state == Engine.WaitingForZone
    ensures !s.isRunning ==> r.metrics.playbackState == Paused
    ensures !s.isRunning ==> r.counters == s.counters && r.lastZoneState == s.lastZoneState
  {
    if s.isRunning then s
    else
      var s1 := s.(isRunning := true, mode := mode);
      Engine.NotificationsOnlyGrow(s1.engine, Engine.User);
      Delivered(s1, Engine.AfterStart(s1.engine))
  }

  /** `stopSession()`: a no-op while not running; otherwise the session ends
      and the engine is stopped, reported as stopped. */
  function AfterStopSession(s: Session): (r: Session)
    requires Inv(s)
    ensures Inv(r) && !r.isRunning
    ensures !s.isRunning ==> r == s
    ensures r.engine.state == Engine.Stopped && r.engine.fadeTask == None
    ensures r.metrics.playbackState == Stopped
    ensures r.mode == s.mode && r.lastZoneState == s.lastZoneState && r.counters == s.counters
    ensures r.metrics == s.metrics.(playbackState := Stopped)
  {
    if !s.isRunning then s
    else
      var s1 := s.(isRunning := false);
      Engine.NotificationsOnlyGrow(s1.engine, Engine.User);
      Delivered(s1, Engine.AfterStop(s1.engine))
  }

  /** One watchdog tick, `checkSensorTimeout()` at time `now`. Nothing
      happens when no session runs, no heart rate has arrived, or the last
      one is at most 10 s old. Older than that the zone becomes `unknown`
      and the music is not left audible. Up to 20 s the soft sensor reason
      only ducks: the engine waits for the zone or is fading out, and is
      never paused. Older than 20 s the engine is paused, or fading out
      towards a pause, for the hard sensor reason. */
  function AfterSensorTimeout(config: Configuration, s: Session, now: int): (r: Session)
    requires Inv(s)
    ensures Inv(r)
    ensures !s.isRunning || s.lastHeartRateDate.None? || now - s.lastHeartRateDate.value <= 10 ==> r == s
    ensures s.isRunning && s.lastHeartRateDate.Some? && now - s.lastHeartRateDate.value > 10 ==>
              r.metrics.zoneState == Unknown && !Audible(r.engine.state)
    ensures s.isRunning && s.lastHeartRateDate.Some? && now - s.lastHeartRateDate.value > 20 ==>
              r.engine.state == Engine.Paused || r.engine.state == Engine.FadingOut(Engine.SensorHard)
    ensures s.isRunning && s.lastHeartRateDate.Some? && 10 < now - s.lastHeartRateDate.value <= 20 ==>
              r.engine.state != Engine.Paused &&
              (r.engine.state == Engine.WaitingForZone || r.engine.state.FadingOut?)
  {
    if !s.isRunning then s
    else
      match s.lastHeartRateDate
      case None => s
      case Some(last) =>
        if now - last > 20 then
          var s1 := AfterUpdateZone(config, s, Unknown);
          Engine.RequestOutcomes(s1.engine, Engine.SensorHard);
          AfterPauseRequest(s1, Engine.SensorHard)
        else if now - last > 10 then
          var s1 := AfterUpdateZone(config, s, Unknown);
          Engine.RequestOutcomes(s1.engine, Engine.SensorSoft);
          AfterPauseRequest(s1, Engine.SensorSoft)
        else s
  }

  /** The engine's live fade task finishes, with the callback it fires. */
  function AfterFadeCompleted(s: Session): (r: Session)
    requires Inv(s)
    ensures Inv(r) && r.isRunning == s.isRunning
  {
    Engine.NotificationsOnlyGrow(s.engine, Engine.User);
    if s.engine.state == Engine.Stopped then Delivered(s, Engine.AfterFadeDone(s.engine))
    else
      Engine.RequestOutcomes(s.engine, Engine.User);
      Delivered(s, Engine.AfterFadeDone(s.engine))
  }

  /** The heart-rate handler with the guard that stopping the session
      evidently intends: a sample still queued once the session has stopped
      is dropped. */
  function HandledHeartRate(config: Configuration, range: ZoneRange, s: Session, sample: HeartRateSample): (r: Session)
    requires Inv(s)
    ensures Inv(r) && r.isRunning == s.isRunning
    ensures !s.isRunning ==> r == s
    ensures s.isRunning ==> r == AfterHeartRate(config, range, s, sample)
  {
    if s.isRunning then AfterHeartRate(config, range, s, sample) else s
  }

  /** The pace handler with the same guard. */
  function HandledPace(config: Configuration, s: Session, sample: PaceSample, now: int): (r: Session)
    requires Inv(s)
    ensures Inv(r) && r.isRunning == s.isRunning
    ensures !s.isRunning ==> r == s
    ensures s.isRunning ==> r == AfterPace(config, s, sample, now)
  {
    if s.isRunning then AfterPace(config, s, sample, now) else s
  }

  /** The steps handler with the same guard. */
  function HandledSteps(config: Configuration, s: Session, sample: StepsSample): (r: Session)
    requires Inv(s)
    ensures Inv(r) && r.isRunning == s.isRunning
    ensures !s.isRunning ==> r == s
    ensures s.isRunning ==> r == AfterSteps(config, s, sample)
  {
    if s.isRunning then AfterSteps(config, s, sample) else s
  }

  /** As written, a steps sample whose task was queued before `stopSession()`
      still runs `evaluateSensors()` afterwards. In the zone with the gate
      met, it asks the stopped engine to play: the engine fades in again
      while no session runs, and the invariant is broken. */
  lemma {:induction false} QueuedSampleRestartsStoppedEngine(config: Configuration, s: Session, sample: StepsSample)
    requires Inv(s) && s.isRunning && s.lastZoneState == InZone
    requires PaceRequirementMet(config, s.mode, s.metrics.(stepsPerMinute := Some(sample.stepsPerMinute)))
    ensures !AfterStopSession(s).isRunning && AfterStopSession(s).engine.state == Engine.Stopped
    ensures AfterSteps(config, AfterStopSession(s), sample).engine.state == Engine.FadingIn
    ensures !AfterSteps(config, AfterStopSession(s), sample).isRunning
    ensures !Inv(AfterSteps(config, AfterStopSession(s), sample))
  {
    var t := AfterStopSession(s);
    var t1 := t.(metrics := t.metrics.(stepsPerMinute := Some(sample.stepsPerMinute)));
    assert PaceRequirementMet(config, t1.mode, t1.metrics);
    Engine.PlayFromStopped(t1.engine);
  }

  /** With the guard, samples queued before `stopSession()` are dropped: the
      session stays exactly as stopping left it, with the engine stopped. */
  lemma QueuedSamplesAfterStopAreDropped(config: Configuration, range: ZoneRange, s: Session,
                                         heartRate: HeartRateSample, pace: PaceSample, now: int, steps: StepsSample)
    requires Inv(s)
    ensures AfterStopSession(s).engine.state == Engine.Stopped
    ensures HandledHeartRate(config, range, AfterStopSession(s), heartRate) == AfterStopSession(s)
    ensures HandledPace(config, AfterStopSession(s), pace, now) == AfterStopSession(s)
    ensures HandledSteps(config, AfterStopSession(s), steps) == AfterStopSession(s)
  {
  }

  class SessionCoordinator {
    const configuration: Configuration
    const zoneRange: ZoneRange
    const audioEngine: Engine.AudioPolicyEngine
    var liveMetrics: LiveMetrics
    var mode: WorkoutMode
    var consecutiveInZone: nat
    var consecutiveOutOfZone: nat
    var lastHeartRateDate: Option<int>
    var lastZoneState: ZoneState
    var paceSamples: seq<PaceSample>
    var isRunning: bool
    var lastPlaybackState: PlaybackState
    /** Every event handed to the analytics service, in order. */
    var analytics: seq<AnalyticsEvent>

    function Snapshot(): Session
      reads this, audioEngine
    {
      Session(isRunning, mode, liveMetrics, Counters(consecutiveInZone, consecutiveOutOfZone),
              lastHeartRateDate, lastZoneState, paceSamples, lastPlaybackState, analytics,
              audioEngine.Snapshot())
    }

    ghost predicate Valid()
      reads this, audioEngine
    {
      Inv(Snapshot())
    }

    constructor (configuration: Configuration, zoneRange: ZoneRange)
      ensures Valid() && fresh(audioEngine)
      ensures this.configuration == configuration && this.zoneRange == zoneRange
      ensures Snapshot() == InitialSession()
    {
      this.configuration := configuration;
      this.zoneRange := zoneRange;
      audioEngine := new Engine.AudioPolicyEngine();
      liveMetrics := InitialMetrics();
      mode := Outdoor;
      consecutiveInZone := 0;
      consecutiveOutOfZone := 0;
      lastHeartRateDate := None;
      lastZoneState := Unknown;
      paceSamples := [];
      isRunning := false;
      lastPlaybackState := Stopped;
      analytics := [];
    }

    /** The `onPlaybackChange` closure installed by `startSession`. */
    method OnPlaybackChange(state: PlaybackState)
      modifies this
      ensures Snapshot() == Observe(old(Snapshot()), state)
    {
      liveMetrics := liveMetrics.(playbackState := state);
      analytics := analytics + [StateChange(lastPlaybackState, state, "engine")];
      lastPlaybackState := state;
    }

    /** The engine invokes the callback once for each state it reported
        since its log had `seen` entries, in order. */
    method DeliverSince(seen: nat)
      requires seen <= |audioEngine.notifications|
      modifies this
      ensures Snapshot() == ObserveAll(old(Snapshot()), audioEngine.notifications[seen..])
    {
      var news := audioEngine.notifications[seen..];
      ghost var start := Snapshot();
      for i := 0 to |news|
        invariant Snapshot() == ObserveAll(start, news[..i])
      {
        assert news[..i + 1][..i] == news[..i];
        OnPlaybackChange(news[i]);
      }
      assert news[..|news|] == news;
    }

    /** `audioEngine.requestPlay()` and the callbacks it fires. */
    method RequestPlay()
      requires Engine.Valid(audioEngine.Snapshot())
      modifies this, audioEngine
      ensures Snapshot() == AfterPlayRequest(old(Snapshot()))
    {
      ghost var m := audioEngine.Snapshot();
      var seen := |audioEngine.notifications|;
      audioEngine.RequestPlay();
      Engine.NotificationsOnlyGrow(m, Engine.User);
      DeliverSince(seen);
    }

    /** `audioEngine.requestPause(reason:)` and the callbacks it fires. */
    method RequestPause(reason: Engine.PauseReason)
      requires Engine.Valid(audioEngine.Snapshot())
      modifies this, audioEngine
      ensures Snapshot() == AfterPauseRequest(old(Snapshot()), reason)
    {
      ghost var m := audioEngine.Snapshot();
      var seen := |audioEngine.notifications|;
      audioEngine.RequestPause(reason);
      Engine.NotificationsOnlyGrow(m, reason);
      DeliverSince(seen);
    }

    /** `evaluateSensors()`. */
    method EvaluateSensors()
      requires Valid() && isRunning
      modifies this, audioEngine
      ensures Snapshot() == AfterEvaluateSensors(configuration, old(Snapshot()))
    {
      var paceRequirementMet := PaceRequirementMet(configuration, mode, liveMetrics);
      liveMetrics := liveMetrics.(isPaceRequirementMet := paceRequirementMet);
      match RequestFor(configuration, liveMetrics.zoneState, paceRequirementMet) {
        case PlayRequest => RequestPlay();
        case PauseRequest(reason) => RequestPause(reason);
      }
    }

    /** `updateZoneState(_:)`. */
    method UpdateZoneState(newState: ZoneState)
      requires Valid() && isRunning
      modifies this, audioEngine
      ensures Snapshot() == AfterUpdateZone(configuration, old(Snapshot()), newState)
    {
      if newState == lastZoneState {
        return;
      }
      lastZoneState := newState;
      liveMetrics := liveMetrics.(zoneState := newState);
      EvaluateSensors();
    }

    /** `evaluateZone(with:)`. */
    method EvaluateZone(bpm: int)
      requires Valid() && isRunning
      modifies this, audioEngine
      ensures Snapshot() == AfterEvaluateZone(configuration, zoneRange, old(Snapshot()), bpm)
    {
      ghost var s0 := Snapshot();
      var inRange := zoneRange.lower - 2 <= bpm <= zoneRange.upper + 2;
      if inRange {
        consecutiveInZone := consecutiveInZone + 1;
        consecutiveOutOfZone := 0;
      } else {
        consecutiveOutOfZone := consecutiveOutOfZone + 1;
        consecutiveInZone := 0;
      }
      assert Snapshot() == s0.(counters := Count(s0.counters, InWidenedRange(zoneRange, bpm)));

      if inRange && consecutiveInZone >= 3 {
        UpdateZoneState(InZone);
      } else if !inRange && consecutiveOutOfZone >= 3 {
        UpdateZoneState(OutOfZone);
      }
    }

    /** The heart-rate observer's task running `handleHeartRate(_:)`,
        guarded so that a sample queued before `stopSession()` is dropped. */
    method HandleHeartRate(sample: HeartRateSample)
      requires Valid()
      modifies this, audioEngine
      ensures Snapshot() == HandledHeartRate(configuration, zoneRange, old(Snapshot()), sample)
    {
      if !isRunning {
        return;
      }
      lastHeartRateDate := Some(sample.date);
      liveMetrics := liveMetrics.(heartRateBpm := Some(sample.bpm));
      EvaluateZone(sample.bpm);
      EvaluateSensors();
    }

    /** The first half of `handlePace(_:)` at time `now`. */
    method RecordPace(sample: PaceSample, now: int)
      modifies this
      ensures Snapshot() == PaceRecorded(configuration, old(Snapshot()), sample, now)
    {
      ghost var s0 := Snapshot();
      var window := Recent(paceSamples + [sample], PaceDate, now - configuration.paceWindowSeconds);
      paceSamples := window;
      if window != [] {
        var average := MeanReal(Speeds(window));
        liveMetrics := liveMetrics.(paceKmh := Some(average * 3.6));
      }
      assert Snapshot() == s0.(paceSamples := window, metrics := liveMetrics);
    }

    /** The pace observer's task running `handlePace(_:)` at time `now`,
        with the same guard. */
    method HandlePace(sample: PaceSample, now: int)
      requires Valid()
      modifies this, audioEngine
      ensures Snapshot() == HandledPace(configuration, old(Snapshot()), sample, now)
    {
      if !isRunning {
        return;
      }
      RecordPace(sample, now);
      EvaluateSensors();
    }

    /** The steps observer's task, with the same guard. */
    method HandleSteps(sample: StepsSample)
      requires Valid()
      modifies this, audioEngine
      ensures Snapshot() == HandledSteps(configuration, old(Snapshot()), sample)
    {
      if !isRunning {
        return;
      }
      liveMetrics := liveMetrics.(stepsPerMinute := Some(sample.stepsPerMinute));
      EvaluateSensors();
    }

    /** `startSession(mode:)`, up to the service calls. */
    method StartSession(mode: WorkoutMode)
      requires Valid()
      modifies this, audioEngine
      ensures Snapshot() == AfterStartSession(old(Snapshot()), mode)
    {
      if isRunning {
        return;
      }
      isRunning := true;
      this.mode := mode;
      ghost var m := audioEngine.Snapshot();
      var seen := |audioEngine.notifications|;
      audioEngine.StartSession();
      Engine.NotificationsOnlyGrow(m, Engine.User);
      DeliverSince(seen);
    }

    /** `stopSession()`: `healthSummary` is what ending the HealthKit workout
        yields (`None` when it fails). Nothing is returned when no session
        runs. */
    method StopSession(healthSummary: Option<WorkoutSummary>) returns (summary: Option<WorkoutSummary>)
      requires Valid()
      modifies this, audioEngine
      ensures Snapshot() == AfterStopSession(old(Snapshot()))
      ensures summary == if old(isRunning) then healthSummary else None
    {
      if !isRunning {
        return None;
      }
      isRunning := false;
      ghost var m := audioEngine.Snapshot();
      var seen := |audioEngine.notifications|;
      audioEngine.StopSession();
      Engine.NotificationsOnlyGrow(m, Engine.User);
      DeliverSince(seen);
      summary := healthSummary;
    }

    /** `checkSensorTimeout()` at time `now`. */
    method CheckSensorTimeout(now: int)
      requires Valid()
      modifies this, audioEngine
      ensures Snapshot() == AfterSensorTimeout(configuration, old(Snapshot()), now)
    {
      if !isRunning {
        return;
      }
      match lastHeartRateDate {
        case None =>
        case Some(last) =>
          var delta := now - last;
          if delta > 20 {
            UpdateZoneState(Unknown);
            RequestPause(Engine.SensorHard);
          } else if delta > 10 {
            UpdateZoneState(Unknown);
            RequestPause(Engine.SensorSoft);
          }
      }
    }

    /** The engine's live fade task finishing. */
    method FadeCompleted()
      requires Valid()
      modifies this, audioEngine
      ensures Snapshot() == AfterFadeCompleted(old(Snapshot()))
    {
      ghost var m := audioEngine.Snapshot();
      var seen := |audioEngine.notifications|;
      audioEngine.CompleteFade();
      Engine.NotificationsOnlyGrow(m, Engine.User);
      DeliverSince(seen);
    }
  }
}
