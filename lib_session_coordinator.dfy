/**
 * The session coordinator of the SpotRunCore package
 * (Engines/SessionCoordinator.swift): it feeds heart-rate samples to the zone
 * engine, averages pace and cadence over a trailing time window, and turns
 * the zone state and the effort gate into a play or pause request on the
 * audio engine. The settings store is the field `storedSettings` (what
 * `loadSettings` returns; a failing load reads as `None`), the analytics sink
 * is the log `analytics`, and the current time is a parameter.
 */
module LibSessionCoordinator {
  import opened Wrappers
  import opened Arithmetic
  import opened Windows
  import opened LibModels
  import opened LibHRZone
  import opened LibUserSettings
  import Zones = LibZoneDecisionEngine
  import Audio = LibAudioPolicyEngine

  /** Coordinator tuning; the window is whole seconds. */
  datatype Configuration = Configuration(minimumPaceKmh: real, minimumStepsPerMinute: int, paceWindowSeconds: int)

  /** `Configuration()`: 2.5 km/h, 60 steps per minute, a 5 s window. */
  function DefaultConfiguration(): (c: Configuration)
    ensures c.minimumPaceKmh == 2.5 && c.minimumStepsPerMinute == 60 && c.paceWindowSeconds == 5
  {
    Configuration(2.5, 60, 5)
  }

  /** The analytics events this coordinator emits. */
  datatype AnalyticsEvent =
    | SessionStarted(mode: WorkoutMode)
    | StateChange(from: PlaybackState, to: PlaybackState, reason: string)

  /** The optional speed of each sample, in order. */
  function OptionalSpeeds(samples: seq<PaceSample>): (speeds: seq<Option<real>>)
    ensures |speeds| == |samples|
    ensures forall i :: 0 <= i < |samples| ==> speeds[i] == samples[i].speedMetersPerSecond
  {
    seq(|samples|, i requires 0 <= i < |samples| => samples[i].speedMetersPerSecond)
  }

  /** The present speeds of at least 0.5 m/s, in order. */
  function ValidSpeeds(samples: seq<PaceSample>): (speeds: seq<real>)
    ensures forall i :: 0 <= i < |speeds| ==> speeds[i] >= 0.5
    ensures forall i :: (0 <= i < |samples| && samples[i].speedMetersPerSecond.Some?
                         && samples[i].speedMetersPerSecond.value >= 0.5)
                        ==> samples[i].speedMetersPerSecond.value in speeds
    ensures forall v :: v in speeds ==> exists i :: 0 <= i < |samples| && samples[i].speedMetersPerSecond == Some(v)
  {
    if samples == [] then []
    else
      var init := ValidSpeeds(samples[..|samples| - 1]);
      var last := samples[|samples| - 1].speedMetersPerSecond;
      assert forall i :: 0 <= i < |samples| - 1 ==> samples[..|samples| - 1][i] == samples[i];
      if last.Some? && last.value >= 0.5 then init + [last.value] else init
  }

  /** Each speed of at least 0.5 m/s is kept exactly as often as the samples
      carry it, and no other speed is kept. */
  lemma {:induction false} ValidSpeedsCounts(samples: seq<PaceSample>)
    ensures forall v :: multiset(ValidSpeeds(samples))[v]
                        == if v >= 0.5 then multiset(OptionalSpeeds(samples))[Some(v)] else 0
  {
    if samples != [] {
      var init := samples[..|samples| - 1];
      ValidSpeedsCounts(init);
      assert OptionalSpeeds(samples) == OptionalSpeeds(init) + [samples[|samples| - 1].speedMetersPerSecond];
    }
  }

  /** The speed filter distributes over concatenation, so the kept speeds
      stay in arrival order. */
  lemma {:induction false} ValidSpeedsConcat(xs: seq<PaceSample>, ys: seq<PaceSample>)
    ensures ValidSpeeds(xs + ys) == ValidSpeeds(xs) + ValidSpeeds(ys)
    decreases |ys|
  {
    if ys == [] {
      assert xs + ys == xs;
    } else {
      var init, last := ys[..|ys| - 1], ys[|ys| - 1].speedMetersPerSecond;
      var tail := if last.Some? && last.value >= 0.5 then [last.value] else [];
      ValidSpeedsConcat(xs, init);
      assert (xs + ys)[..|xs + ys| - 1] == xs + init;
      assert (xs + ys)[|xs + ys| - 1] == ys[|ys| - 1];
      assert ValidSpeeds(xs + ys) == ValidSpeeds(xs + init) + tail;
      assert ValidSpeeds(ys) == ValidSpeeds(init) + tail;
    }
  }

  /** The window's pace in km/h: 3.6 times the mean valid speed, or nil. */
  function PaceKmh(speeds: seq<real>): (pace: Option<real>)
    ensures pace.None? <==> speeds == []
    ensures pace.Some? ==> pace.value * |speeds| as real == 3.6 * SumReal(speeds)
  {
    if speeds == [] then None else Some(MeanReal(speeds) * 3.6)
  }

  /** With the 0.5 m/s noise filter, any reported pace is at least 1.8 km/h. */
  lemma PaceAtLeastNoiseFloor(samples: seq<PaceSample>)
    ensures PaceKmh(ValidSpeeds(samples)).Some? ==> PaceKmh(ValidSpeeds(samples)).value >= 1.8
  {
    var speeds := ValidSpeeds(samples);
    if speeds != [] {
      MeanRealAtLeast(speeds, 0.5);
    }
  }

  function Cadences(samples: seq<StepsSample>): (c: seq<int>)
    ensures |c| == |samples|
    ensures forall i :: 0 <= i < |samples| ==> c[i] == samples[i].stepsPerMinute
  {
    seq(|samples|, i requires 0 <= i < |samples| => samples[i].stepsPerMinute)
  }

  /** The window's cadence: the truncated mean, or nil when empty. */
  function StepsAverage(samples: seq<StepsSample>): (steps: Option<int>)
    ensures steps.None? <==> samples == []
    ensures steps.Some? ==> var n := |samples|; var s := Sum(Cadences(samples));
              (s >= 0 ==> steps.value * n <= s < steps.value * n + n)
              && (s < 0 ==> steps.value * n - n < s <= steps.value * n)
  {
    if samples == [] then None else Some(TruncatedMean(Cadences(samples)))
  }

  /** The average cadence lies between any bounds of the windowed cadences. */
  lemma StepsAverageBounds(samples: seq<StepsSample>, lo: int, hi: int)
    requires samples != []
    requires forall i :: 0 <= i < |samples| ==> lo <= samples[i].stepsPerMinute <= hi
    ensures lo <= StepsAverage(samples).value <= hi
  {
    TruncatedMeanBounds(Cadences(samples), lo, hi);
  }

  /** The effort gate of `evaluatePlayback`: open when the pace requirement
      is off; otherwise a cadence (treadmill) or pace (outdoors) reading must
      exist and reach the configured minimum. */
  function EffortGate(settings: UserSettings, config: Configuration, metrics: LiveMetrics): (ok: bool)
    ensures !settings.minimumPaceEnabled ==> ok
    ensures settings.minimumPaceEnabled && settings.treadmillModeEnabled ==>
              (ok <==> metrics.stepsPerMinute.Some? && metrics.stepsPerMinute.value >= config.minimumStepsPerMinute)
    ensures settings.minimumPaceEnabled && !settings.treadmillModeEnabled ==>
              (ok <==> metrics.paceKmh.Some? && metrics.paceKmh.value >= config.minimumPaceKmh)
  {
    if settings.minimumPaceEnabled then
      if settings.treadmillModeEnabled then
        match metrics.stepsPerMinute
        case Some(steps) => steps >= config.minimumStepsPerMinute
        case None => false
      else
        match metrics.paceKmh
        case Some(pace) => pace >= config.minimumPaceKmh
        case None => false
    else true
  }

  datatype Request = PlayRequest | PauseRequest(reason: Audio.PauseReason)

  /** One row of the verdict table: the request, the playback state recorded
      in the metrics, and the analytics reason. */
  datatype Verdict = Verdict(request: Request, recorded: PlaybackState, reason: string)

  /** `switch (zoneEngine.state, isPaceSatisfied)`. */
  function VerdictFor(zone: ZoneState, paceSatisfied: bool): (v: Verdict)
    ensures v.request == PlayRequest <==> zone == InZone && paceSatisfied
    ensures v.recorded == (if v.request == PlayRequest then Playing else FadingOut)
    ensures zone == Unknown ==>
              v.request == PauseRequest(Audio.PauseReason(Audio.SensorLost, false, 0.2)) && v.reason == "sensor_lost"
    ensures zone == InZone && !paceSatisfied ==>
              v.request == PauseRequest(Audio.PauseReason(Audio.PaceRequirementFailed, true)) && v.reason == "pace_failed"
    ensures zone == OutOfZone ==>
              v.request == PauseRequest(Audio.PauseReason(Audio.OutOfZone, true)) && v.reason == "out_of_zone"
    ensures v.request.PauseRequest? ==> v.request.reason.volumeFloor == 0.0 || !v.request.reason.shouldPausePlayback
  {
    match (zone, paceSatisfied)
    case (InZone, true) => Verdict(PlayRequest, Playing, "in_zone")
    case (Unknown, _) => Verdict(PauseRequest(Audio.PauseReason(Audio.SensorLost, false, 0.2)), FadingOut, "sensor_lost")
    case (InZone, false) => Verdict(PauseRequest(Audio.PauseReason(Audio.PaceRequirementFailed, true)), FadingOut, "pace_failed")
    case _ => Verdict(PauseRequest(Audio.PauseReason(Audio.OutOfZone, true)), FadingOut, "out_of_zone")
  }

  /** The verdict `evaluatePlayback` reaches, or `None` when it returns early
      because the settings cannot be loaded or name no default zone. */
  function Evaluation(stored: Option<UserSettings>, config: Configuration, zone: ZoneState, metrics: LiveMetrics): (e: Option<Verdict>)
    ensures e.None? <==> stored.None? || !IsDefaultZoneId(stored.value.selectedZoneId)
    ensures e.Some? ==> e.value == VerdictFor(zone, EffortGate(stored.value, config, metrics))
  {
    match stored
    case None => None
    case Some(settings) =>
      if IsDefaultZoneId(settings.selectedZoneId) then Some(VerdictFor(zone, EffortGate(settings, config, metrics)))
      else None
  }

  /** The audio engine after the verdict's request. */
  function AfterRequest(m: Audio.Machine, request: Request): (r: Audio.Machine)
    ensures Audio.Valid(m) ==> Audio.Valid(r)
  {
    match request
    case PlayRequest => Audio.AfterPlay(m)
    case PauseRequest(reason) => Audio.AfterPause(m, reason)
  }

  /** What `evaluatePlayback` touches: the metrics, the analytics log and the
      audio engine. */
  datatype Effects = Effects(metrics: LiveMetrics, analytics: seq<AnalyticsEvent>, audio: Audio.Machine)

  /** `evaluatePlayback()` on values: with no verdict nothing changes;
      otherwise the metrics take the engine's zone state and the recorded
      playback state, the request goes to the audio engine, and a
      `stateChange` event is logged when the recorded state changed. */
  function Evaluate(stored: Option<UserSettings>, config: Configuration, zone: ZoneState, before: Effects): (after: Effects)
  {
    match Evaluation(stored, config, zone, before.metrics)
    case None => before
    case Some(v) =>
      var from := before.metrics.playbackState;
      Effects(
        before.metrics.(zoneState := zone, playbackState := v.recorded),
        before.analytics + (if from != v.recorded then [StateChange(from, v.recorded, v.reason)] else []),
        AfterRequest(before.audio, v.request))
  }

  /** The guard: without loadable settings naming a default zone,
      evaluation changes nothing. */
  lemma EvaluateGuard(stored: Option<UserSettings>, config: Configuration, zone: ZoneState, before: Effects)
    requires stored.None? || !(1 <= stored.value.selectedZoneId <= 5)
    ensures Evaluate(stored, config, zone, before) == before
  {
    if stored.Some? {
      DefaultZoneIds(stored.value.selectedZoneId);
    }
  }

  /** Analytics only on change: an evaluation appends at most one event, and
      appends one exactly when the recorded playback state changed; that
      event names the old and new states. */
  lemma EvaluateTracksOnlyChanges(stored: Option<UserSettings>, config: Configuration, zone: ZoneState, before: Effects)
    ensures var after := Evaluate(stored, config, zone, before);
      && (after.metrics.playbackState == before.metrics.playbackState <==> after.analytics == before.analytics)
      && (after.metrics.playbackState != before.metrics.playbackState ==>
            && |after.analytics| == |before.analytics| + 1
            && after.analytics[..|before.analytics|] == before.analytics
            && after.analytics[|before.analytics|].from == before.metrics.playbackState
            && after.analytics[|before.analytics|].to == after.metrics.playbackState)
  {
    var after := Evaluate(stored, config, zone, before);
    if after.analytics != before.analytics {
      assert |after.analytics| == |before.analytics| + 1;
    }
  }

  /** Whatever the inputs, an evaluation that acts records `playing` exactly
      when it requests play, and otherwise `fadingOut`; the audio engine's
      invariant is kept. */
  lemma EvaluateRecordsRequest(stored: Option<UserSettings>, config: Configuration, zone: ZoneState, before: Effects)
    requires Audio.Valid(before.audio)
    ensures Audio.Valid(Evaluate(stored, config, zone, before).audio)
    ensures Evaluation(stored, config, zone, before.metrics).Some? ==>
              var after := Evaluate(stored, config, zone, before);
              var request := Evaluation(stored, config, zone, before.metrics).value.request;
              && after.metrics.zoneState == zone
              && (after.metrics.playbackState == Playing <==> request == PlayRequest)
              && (after.metrics.playbackState == FadingOut <==> request.PauseRequest?)
  {
  }

  function PaceDate(sample: PaceSample): int { sample.date }

  function StepsDate(sample: StepsSample): int { sample.date }

  class SessionCoordinator {
    const configuration: Configuration
    const zoneEngine: Zones.ZoneDecisionEngine
    const audioEngine: Audio.AudioPolicyEngine
    var storedSettings: Option<UserSettings>
    var metrics: LiveMetrics
    var lastHeartRateSample: Option<HeartRateSample>
    var paceSamples: seq<PaceSample>
    var stepsSamples: seq<StepsSample>
    var analytics: seq<AnalyticsEvent>

    /** The metrics mirror the zone engine's state, which nothing but this
        coordinator drives. */
    ghost predicate Valid()
      reads this, zoneEngine
    {
      zoneEngine.Valid() && metrics.zoneState == zoneEngine.state
    }

    function Effected(): Effects
      reads this, audioEngine
    {
      Effects(metrics, analytics, audioEngine.Snapshot())
    }

    constructor (configuration: Configuration, zoneRange: ZoneRange, audioEngine: Audio.AudioPolicyEngine,
                 storedSettings: Option<UserSettings>)
      ensures Valid()
      ensures this.configuration == configuration && this.audioEngine == audioEngine
      ensures this.storedSettings == storedSettings
      ensures fresh(zoneEngine) && zoneEngine.zoneRange == zoneRange
      ensures zoneEngine.configuration == Zones.DefaultConfiguration()
      ensures zoneEngine.samples == [] && zoneEngine.notifications == []
      ensures metrics == InitialMetrics() && lastHeartRateSample == None
      ensures paceSamples == [] && stepsSamples == [] && analytics == []
    {
      this.configuration := configuration;
      this.audioEngine := audioEngine;
      this.storedSettings := storedSettings;
      zoneEngine := new Zones.ZoneDecisionEngine(zoneRange);
      metrics := InitialMetrics();
      lastHeartRateSample := None;
      paceSamples := [];
      stepsSamples := [];
      analytics := [];
    }

    /** `startSession(mode:)` up to the sensor and workout calls. */
    method StartSession(mode: WorkoutMode)
      modifies this, audioEngine
      ensures audioEngine.Snapshot() == Audio.AfterStart(old(audioEngine.Snapshot()))
      ensures analytics == old(analytics) + [SessionStarted(mode)]
      ensures metrics == old(metrics) && storedSettings == old(storedSettings)
      ensures paceSamples == old(paceSamples) && stepsSamples == old(stepsSamples)
      ensures lastHeartRateSample == old(lastHeartRateSample)
    {
      audioEngine.StartSession();
      analytics := analytics + [SessionStarted(mode)];
    }

    /** `stopSession()` up to the workout call: the audio engine is reset. */
    method StopSession()
      modifies audioEngine
      ensures audioEngine.Snapshot() == Audio.AfterReset(old(audioEngine.Snapshot()))
    {
      audioEngine.Reset();
    }

    /** `evaluatePlayback()`. */
    method EvaluatePlayback()
      requires Valid()
      modifies this, audioEngine
      ensures Valid()
      ensures Effected() == Evaluate(storedSettings, configuration, zoneEngine.state, old(Effected()))
      ensures storedSettings == old(storedSettings) && paceSamples == old(paceSamples)
      ensures stepsSamples == old(stepsSamples) && lastHeartRateSample == old(lastHeartRateSample)
    {
      if storedSettings.None? || !IsDefaultZoneId(storedSettings.value.selectedZoneId) {
        return;
      }
      var settings := storedSettings.value;
      var isPaceSatisfied := EffortGate(settings, configuration, metrics);
      var previousPlaybackState := metrics.playbackState;
      metrics := metrics.(zoneState := zoneEngine.state);
      var verdict := VerdictFor(zoneEngine.state, isPaceSatisfied);
      match verdict.request {
        case PlayRequest => audioEngine.RequestPlay();
        case PauseRequest(reason) => audioEngine.RequestPause(reason);
      }
      metrics := metrics.(playbackState := verdict.recorded);
      if previousPlaybackState != metrics.playbackState {
        analytics := analytics + [StateChange(previousPlaybackState, metrics.playbackState, verdict.reason)];
      }
    }

    /** The zone engine's delegate callback. */
    method ZoneDidUpdate(state: ZoneState)
      requires zoneEngine.Valid() && state == zoneEngine.state
      modifies this, audioEngine
      ensures Valid()
      ensures Effected() == Evaluate(storedSettings, configuration, state, old(Effected()).(metrics := old(metrics).(zoneState := state)))
      ensures storedSettings == old(storedSettings) && paceSamples == old(paceSamples)
      ensures stepsSamples == old(stepsSamples) && lastHeartRateSample == old(lastHeartRateSample)
    {
      metrics := metrics.(zoneState := state);
      EvaluatePlayback();
    }

    /** `handleHeartRate(_:)`: the zone engine takes the sample; playback is
        re-evaluated only through the engine's change callback. */
    method HandleHeartRate(sample: HeartRateSample)
      requires Valid()
      modifies this, zoneEngine, audioEngine
      ensures Valid()
      ensures zoneEngine.samples == Zones.Suffix(old(zoneEngine.samples) + [sample], zoneEngine.configuration.requiredConsecutiveSamples)
      ensures |zoneEngine.samples| < zoneEngine.configuration.requiredConsecutiveSamples ==>
                zoneEngine.state == old(zoneEngine.state)
      ensures |zoneEngine.samples| == zoneEngine.configuration.requiredConsecutiveSamples ==>
                zoneEngine.state == Zones.Classify(zoneEngine.samples, zoneEngine.Lower(), zoneEngine.Upper(), old(zoneEngine.state))
      ensures zoneEngine.state == old(zoneEngine.state) ==>
                analytics == old(analytics) && audioEngine.Snapshot() == old(audioEngine.Snapshot())
                && metrics == old(metrics).(heartRateBpm := Some(sample.bpm), lastSampleDate := Some(sample.date))
      ensures zoneEngine.state != old(zoneEngine.state) ==>
                var after := Evaluate(storedSettings, configuration, zoneEngine.state,
                                      old(Effected()).(metrics := old(metrics).(zoneState := zoneEngine.state)));
                && analytics == after.analytics && audioEngine.Snapshot() == after.audio
                && metrics == after.metrics.(heartRateBpm := Some(sample.bpm), lastSampleDate := Some(sample.date))
      ensures lastHeartRateSample == Some(sample) && storedSettings == old(storedSettings)
      ensures paceSamples == old(paceSamples) && stepsSamples == old(stepsSamples)
    {
      lastHeartRateSample := Some(sample);
      var before := zoneEngine.state;
      zoneEngine.Add(sample);
      if zoneEngine.state != before {
        ZoneDidUpdate(zoneEngine.state);
      }
      metrics := metrics.(heartRateBpm := Some(sample.bpm), lastSampleDate := Some(sample.date));
    }

    /** `handlePace(_:)` at time `now`: the buffer keeps the samples of the
        last `paceWindowSeconds`, the pace is recomputed from it, and playback
        is re-evaluated. */
    method HandlePace(sample: PaceSample, now: int)
      requires Valid()
      modifies this, audioEngine
      ensures Valid()
      ensures paceSamples == Recent(old(paceSamples) + [sample], PaceDate, now - configuration.paceWindowSeconds)
      ensures Effected() == Evaluate(storedSettings, configuration, zoneEngine.state,
                                     old(Effected()).(metrics := old(metrics).(paceKmh := PaceKmh(ValidSpeeds(paceSamples)))))
      ensures storedSettings == old(storedSettings) && stepsSamples == old(stepsSamples)
      ensures lastHeartRateSample == old(lastHeartRateSample)
    {
      paceSamples := Recent(paceSamples + [sample], PaceDate, now - configuration.paceWindowSeconds);
      var validSpeeds := ValidSpeeds(paceSamples);
      metrics := metrics.(paceKmh := PaceKmh(validSpeeds));
      EvaluatePlayback();
    }

    /** `handleSteps(_:)` at time `now`, the cadence counterpart of `HandlePace`. */
    method HandleSteps(sample: StepsSample, now: int)
      requires Valid()
      modifies this, audioEngine
      ensures Valid()
      ensures stepsSamples == Recent(old(stepsSamples) + [sample], StepsDate, now - configuration.paceWindowSeconds)
      ensures Effected() == Evaluate(storedSettings, configuration, zoneEngine.state,
                                     old(Effected()).(metrics := old(metrics).(stepsPerMinute := StepsAverage(stepsSamples))))
      ensures storedSettings == old(storedSettings) && paceSamples == old(paceSamples)
      ensures lastHeartRateSample == old(lastHeartRateSample)
    {
      stepsSamples := Recent(stepsSamples + [sample], StepsDate, now - configuration.paceWindowSeconds);
      metrics := metrics.(stepsPerMinute := StepsAverage(stepsSamples));
      EvaluatePlayback();
    }
  }

  /** The settings of the pace-gate scenario: maxHR 190, zone 2, the pace
      gate on at 2.5 km/h, outdoors, Auto-DJ off. */
  const ScenarioSettings := UserSettings(190, 2, true, 2.5, false, false, None)

  /** With those settings and range 114...133, three samples of 120 bpm enter
      the zone while no pace is known, so playback is held for the pace
      requirement and the audio engine, still stopped, ignores the pause. */
  method ZoneEnteredWithoutPace() returns (coordinator: SessionCoordinator)
    ensures fresh(coordinator) && fresh(coordinator.audioEngine)
    ensures coordinator.Valid() && coordinator.zoneEngine.state == InZone
    ensures coordinator.storedSettings == Some(ScenarioSettings)
    ensures coordinator.configuration == DefaultConfiguration()
    ensures coordinator.paceSamples == [] && coordinator.metrics.paceKmh == None
    ensures coordinator.metrics.playbackState == FadingOut
    ensures coordinator.analytics == [StateChange(Stopped, FadingOut, "pace_failed")]
    ensures coordinator.audioEngine.state == Audio.Stopped
  {
    var audio := new Audio.AudioPolicyEngine();
    coordinator := new SessionCoordinator(DefaultConfiguration(), ZoneRange(114, 133), audio, Some(ScenarioSettings));
    DefaultZoneIds(2);
    var h := HeartRateSample(120, 0);
    coordinator.HandleHeartRate(h);
    coordinator.HandleHeartRate(h);
    assert coordinator.zoneEngine.samples == [h, h];
    coordinator.HandleHeartRate(h);
    assert coordinator.zoneEngine.samples == [h, h, h];
    assert Zones.AllWithin([h, h, h], 112, 135);
  }

  /** A single fresh sample of 1.0 m/s gives a window of that sample and a
      pace of 3.6 km/h. */
  lemma OnePaceSample(p: PaceSample, now: int)
    requires p.speedMetersPerSecond == Some(1.0) && p.date == now
    ensures Recent([p], PaceDate, now - 5) == [p]
    ensures PaceKmh(ValidSpeeds([p])) == Some(3.6)
  {
    assert ValidSpeeds([p]) == [1.0];
    assert SumReal([1.0]) == 1.0 by { assert [1.0][..0] == []; }
  }

  /** In the zone with the scenario settings, a pace of 3.6 km/h opens the
      gate: play is requested and the change to `playing` is logged. */
  lemma PaceOpensGate(before: Effects)
    requires before.metrics.paceKmh == Some(3.6) && before.metrics.playbackState == FadingOut
    ensures Evaluate(Some(ScenarioSettings), DefaultConfiguration(), InZone, before).analytics
              == before.analytics + [StateChange(FadingOut, Playing, "in_zone")]
  {
    DefaultZoneIds(2);
  }

  /** A pace sample of 1.0 m/s at time 0, alone in its window, opens the
      gate in the zone with the scenario settings. */
  lemma PaceSampleOpensGate(before: Effects, p: PaceSample, window: seq<PaceSample>)
    requires p.speedMetersPerSecond == Some(1.0) && p.date == 0
    requires window == Recent([p], PaceDate, 0 - 5)
    requires before.metrics.playbackState == FadingOut
    ensures Evaluate(Some(ScenarioSettings), DefaultConfiguration(), InZone,
                     before.(metrics := before.metrics.(paceKmh := PaceKmh(ValidSpeeds(window))))).analytics
              == before.analytics + [StateChange(FadingOut, Playing, "in_zone")]
  {
    OnePaceSample(p, 0);
    PaceOpensGate(before.(metrics := before.metrics.(paceKmh := Some(3.6))));
  }

  /** After that, a pace sample of 1.0 m/s (3.6 km/h) opens the gate and a
      change to `playing` is logged. */
  method PaceGateScenario() returns (events: seq<AnalyticsEvent>)
    ensures exists i :: 0 <= i < |events| && events[i].StateChange? && events[i].to == Playing
    ensures events == [StateChange(Stopped, FadingOut, "pace_failed"), StateChange(FadingOut, Playing, "in_zone")]
  {
    var coordinator := ZoneEnteredWithoutPace();
    var p := PaceSample(Some(1.0), 0);
    ghost var before := coordinator.Effected();
    assert coordinator.paceSamples + [p] == [p];
    coordinator.HandlePace(p, 0);
    PaceSampleOpensGate(before, p, coordinator.paceSamples);
    events := coordinator.analytics;
    assert events[1].to == Playing;
  }
}
