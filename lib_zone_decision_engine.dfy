/**
 * The debounced heart-rate zone classifier of the SpotRunCore package
 * (Engines/ZoneDecisionEngine.swift). The delegate callback fired by the
 * `state` observer is recorded in `notifications`, the sequence of states the
 * delegate was handed.
 */
module LibZoneDecisionEngine {
  import opened LibModels
  import opened LibHRZone

  /** Engine tuning; timeouts are whole seconds. A negative window size would
      trap in `suffix`, hence `nat`. */
  datatype Configuration = Configuration(
    hysteresisBpm: int,
    requiredConsecutiveSamples: nat,
    heartRateGapTimeout: int,
    maxHeartRateGapTimeout: int)

  /** `Configuration()`: 2 bpm hysteresis, 3 samples, 10 s and 20 s gaps. */
  function DefaultConfiguration(): (c: Configuration)
    ensures c.hysteresisBpm == 2 && c.requiredConsecutiveSamples == 3
    ensures c.heartRateGapTimeout == 10 && c.maxHeartRateGapTimeout == 20
  {
    Configuration(2, 3, 10, 20)
  }

  /** `Array.suffix(n)`: the last `n` elements, or all of them when fewer. */
  function Suffix<T>(xs: seq<T>, n: nat): (r: seq<T>)
    ensures |r| == if |xs| <= n then |xs| else n
  {
    if |xs| <= n then xs else xs[|xs| - n..]
  }

  /** The suffix holds the most recent elements, in arrival order. */
  lemma SuffixIsMostRecent<T>(xs: seq<T>, n: nat)
    ensures forall i :: 0 <= i < |Suffix(xs, n)| ==> Suffix(xs, n)[i] == xs[|xs| - |Suffix(xs, n)| + i]
  {
  }

  /** Taking the suffix before appending changes nothing once the suffix is taken again. */
  lemma SuffixAppend<T>(xs: seq<T>, x: T, n: nat)
    ensures Suffix(Suffix(xs, n) + [x], n) == Suffix(xs + [x], n)
  {
  }

  predicate AllWithin(window: seq<HeartRateSample>, lo: int, hi: int)
  {
    forall i :: 0 <= i < |window| ==> lo <= window[i].bpm <= hi
  }

  predicate AllOutside(window: seq<HeartRateSample>, lo: int, hi: int)
  {
    forall i :: 0 <= i < |window| ==> window[i].bpm < lo || window[i].bpm > hi
  }

  /** The verdict on a full window against the widened band `[lo, hi]`: in when
      every sample is inside, out when every sample is outside, otherwise the
      current state holds. */
  function Classify(window: seq<HeartRateSample>, lo: int, hi: int, current: ZoneState): (z: ZoneState)
    ensures AllWithin(window, lo, hi) ==> z == InZone
    ensures !AllWithin(window, lo, hi) && AllOutside(window, lo, hi) ==> z == OutOfZone
    ensures !AllWithin(window, lo, hi) && !AllOutside(window, lo, hi) ==> z == current
  {
    if AllWithin(window, lo, hi) then InZone
    else if AllOutside(window, lo, hi) then OutOfZone
    else current
  }

  /** Classification never invents `unknown`: it can only keep it. */
  lemma ClassifyNeverUnknown(window: seq<HeartRateSample>, lo: int, hi: int, current: ZoneState)
    ensures Classify(window, lo, hi, current) == Unknown ==> current == Unknown
  {
  }

  /** The state reached by `handleSensorPause` for a gap of `gap` seconds. */
  function GapState(config: Configuration, gap: int, current: ZoneState): (z: ZoneState)
    ensures gap >= config.maxHeartRateGapTimeout ==> z == Unknown
    ensures gap < config.maxHeartRateGapTimeout && gap >= config.heartRateGapTimeout ==> z == OutOfZone
    ensures gap < config.maxHeartRateGapTimeout && gap < config.heartRateGapTimeout ==> z == current
  {
    if gap >= config.maxHeartRateGapTimeout then Unknown
    else if gap >= config.heartRateGapTimeout then OutOfZone
    else current
  }

  /** A log of delegate notifications is edge-triggered: each entry differs
      from the state before it (starting from `initial`) and the last entry
      is the current state. */
  ghost predicate EdgeTriggered(log: seq<ZoneState>, initial: ZoneState, current: ZoneState)
  {
    if log == [] then current == initial
    else log[0] != initial && EdgeTriggered(log[1..], log[0], current)
  }

  /** Setting the state and notifying on change keeps the log edge-triggered. */
  lemma {:induction false} NotifyKeepsEdgeTriggered(log: seq<ZoneState>, initial: ZoneState, current: ZoneState, next: ZoneState)
    requires EdgeTriggered(log, initial, current)
    ensures EdgeTriggered(log + (if next != current then [next] else []), initial, next)
  {
    if log != [] {
      NotifyKeepsEdgeTriggered(log[1..], log[0], current, next);
      assert (log + (if next != current then [next] else []))[1..] == log[1..] + (if next != current then [next] else []);
    }
  }

  class ZoneDecisionEngine {
    const zoneRange: ZoneRange
    const configuration: Configuration
    var samples: seq<HeartRateSample>
    var state: ZoneState
    /** Every state handed to the delegate, in order. */
    var notifications: seq<ZoneState>

    ghost predicate Valid()
      reads this
    {
      && |samples| <= configuration.requiredConsecutiveSamples
      && (|notifications| == 0 ==> state == Unknown)
      && (|notifications| > 0 ==> notifications[|notifications| - 1] == state)
      && EdgeTriggered(notifications, Unknown, state)
    }

    /** Lower edge of the widened band. */
    function Lower(): int
      reads this
    {
      zoneRange.lower - configuration.hysteresisBpm
    }

    /** Upper edge of the widened band. */
    function Upper(): int
      reads this
    {
      zoneRange.upper + configuration.hysteresisBpm
    }

    constructor (zoneRange: ZoneRange, configuration: Configuration := DefaultConfiguration())
      ensures Valid()
      ensures this.zoneRange == zoneRange && this.configuration == configuration
      ensures samples == [] && state == Unknown && notifications == []
    {
      this.zoneRange := zoneRange;
      this.configuration := configuration;
      samples := [];
      state := Unknown;
      notifications := [];
    }

    /** The `state` setter with its `didSet` observer. */
    method SetState(newState: ZoneState)
      modifies this
      ensures state == newState && samples == old(samples)
      ensures notifications == old(notifications) + (if newState != old(state) then [newState] else [])
    {
      var oldValue := state;
      state := newState;
      if oldValue != state {
        notifications := notifications + [state];
      }
    }

    /** `add(sample:)`: slides the window and reclassifies it once it is full. */
    method Add(sample: HeartRateSample)
      requires Valid()
      modifies this
      ensures Valid()
      ensures samples == Suffix(old(samples) + [sample], configuration.requiredConsecutiveSamples)
      ensures |samples| <= configuration.requiredConsecutiveSamples
      ensures |samples| < configuration.requiredConsecutiveSamples ==> state == old(state)
      ensures |samples| == configuration.requiredConsecutiveSamples ==>
                state == Classify(samples, Lower(), Upper(), old(state))
      ensures state == Unknown ==> old(state) == Unknown
      ensures notifications == old(notifications) + (if state != old(state) then [state] else [])
    {
      samples := samples + [sample];
      samples := Suffix(samples, configuration.requiredConsecutiveSamples);

      if |samples| < configuration.requiredConsecutiveSamples {
        return;
      }

      var lower := Lower();
      var upper := Upper();
      if AllWithin(samples, lower, upper) {
        NotifyKeepsEdgeTriggered(notifications, Unknown, state, InZone);
        SetState(InZone);
      } else if AllOutside(samples, lower, upper) {
        NotifyKeepsEdgeTriggered(notifications, Unknown, state, OutOfZone);
        SetState(OutOfZone);
      }
    }

    /** `handleSensorPause(lastSampleDate:now:)`: degrades the state on a gap. */
    method HandleSensorPause(lastSampleDate: int, now: int)
      requires Valid()
      modifies this
      ensures Valid()
      ensures samples == old(samples)
      ensures state == GapState(configuration, now - lastSampleDate, old(state))
      ensures notifications == old(notifications) + (if state != old(state) then [state] else [])
    {
      var gap := now - lastSampleDate;
      if gap >= configuration.maxHeartRateGapTimeout {
        NotifyKeepsEdgeTriggered(notifications, Unknown, state, Unknown);
        SetState(Unknown);
      } else if gap >= configuration.heartRateGapTimeout {
        NotifyKeepsEdgeTriggered(notifications, Unknown, state, OutOfZone);
        SetState(OutOfZone);
      }
    }
  }

  /** Sliding a full three-sample window by one sample. */
  lemma Slide(a: HeartRateSample, b: HeartRateSample, c: HeartRateSample, d: HeartRateSample)
    ensures Suffix([a, b, c] + [d], 3) == [b, c, d]
  {
  }

  /** With range 140...160 and the default configuration, 139, 141, 142, 143
      report `inZone`; then 170, 171, 172 leave `outOfZone` as the last report. */
  method HysteresisTrace() returns (states: seq<ZoneState>)
    ensures InZone in states
    ensures |states| > 0 && states[|states| - 1] == OutOfZone
    ensures states == [InZone, OutOfZone]
  {
    var engine := new ZoneDecisionEngine(ZoneRange(140, 160));
    var h139, h141, h142, h143 := HeartRateSample(139, 0), HeartRateSample(141, 0), HeartRateSample(142, 0), HeartRateSample(143, 0);
    var h170, h171, h172 := HeartRateSample(170, 0), HeartRateSample(171, 0), HeartRateSample(172, 0);
    engine.Add(h139);
    engine.Add(h141);
    assert engine.samples == [h139, h141];
    engine.Add(h142);
    assert engine.samples == [h139, h141, h142];
    assert AllWithin([h139, h141, h142], 138, 162);
    Slide(h139, h141, h142, h143);
    engine.Add(h143);
    assert AllWithin([h141, h142, h143], 138, 162);
    Slide(h141, h142, h143, h170);
    engine.Add(h170);
    assert !AllWithin([h142, h143, h170], 138, 162) by { assert [h142, h143, h170][2].bpm == 170; }
    assert !AllOutside([h142, h143, h170], 138, 162) by { assert [h142, h143, h170][0].bpm == 142; }
    Slide(h142, h143, h170, h171);
    engine.Add(h171);
    assert !AllWithin([h143, h170, h171], 138, 162) by { assert [h143, h170, h171][2].bpm == 171; }
    assert !AllOutside([h143, h170, h171], 138, 162) by { assert [h143, h170, h171][0].bpm == 143; }
    Slide(h143, h170, h171, h172);
    engine.Add(h172);
    assert !AllWithin([h170, h171, h172], 138, 162) by { assert [h170, h171, h172][0].bpm == 170; }
    assert AllOutside([h170, h171, h172], 138, 162);
    states := engine.notifications;
  }

  /** With the default timeouts and the last sample at t = 0, a check at
      t = 11 reports `outOfZone` and a check at t = 21 reports `unknown`. */
  method WatchdogTrace() returns (at11: ZoneState, at21: ZoneState)
    ensures at11 == OutOfZone && at21 == Unknown
  {
    var engine := new ZoneDecisionEngine(ZoneRange(140, 160));
    engine.HandleSensorPause(0, 11);
    at11 := engine.state;
    engine.HandleSensorPause(0, 21);
    at21 := engine.state;
  }
}
