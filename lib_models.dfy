/**
 * Value types of the SpotRunCore package: the sensor samples
 * (Services/HealthService.swift, Services/MotionService.swift) and the
 * coordinator's published snapshot (Models/LiveMetrics.swift).
 * Timestamps are whole seconds.
 */
module LibModels {
  import opened Wrappers

  datatype ZoneState = InZone | OutOfZone | Unknown

  datatype PlaybackState = Playing | Paused | FadingIn | FadingOut | Stopped

  datatype WorkoutMode = Outdoor | Treadmill

  datatype HeartRateSample = HeartRateSample(bpm: int, date: int)

  /** `speedMetersPerSecond` is absent when the motion sensor has no velocity lock. */
  datatype PaceSample = PaceSample(speedMetersPerSecond: Option<real>, date: int)

  datatype StepsSample = StepsSample(stepsPerMinute: int, date: int)

  datatype LiveMetrics = LiveMetrics(
    heartRateBpm: Option<int>,
    paceKmh: Option<real>,
    stepsPerMinute: Option<int>,
    zoneState: ZoneState,
    playbackState: PlaybackState,
    lastSampleDate: Option<int>)

  /** `LiveMetrics()` with every argument defaulted. */
  function InitialMetrics(): (m: LiveMetrics)
    ensures m.heartRateBpm.None? && m.paceKmh.None? && m.stepsPerMinute.None?
    ensures m.zoneState == Unknown && m.playbackState == Stopped && m.lastSampleDate.None?
  {
    LiveMetrics(None, None, None, Unknown, Stopped, None)
  }
}
