/**
 * The app target's own value types (SpotRun/Core/Models.swift). They mirror
 * the SpotRunCore package's types but are separate declarations with a few
 * differences: `bpmRange` clamps instead of trapping, pace samples always
 * carry a speed, and the live metrics record whether the pace gate is met.
 * Timestamps are whole seconds; zone percentages are whole percents.
 */
module AppModels {
  import opened Wrappers
  import opened Arithmetic

  datatype ZoneState = InZone | OutOfZone | Unknown

  datatype PlaybackState = Playing | Paused | FadingIn | FadingOut | Stopped

  datatype WorkoutMode = Outdoor | Treadmill

  datatype HeartRateSample = HeartRateSample(bpm: int, date: int)

  datatype PaceSample = PaceSample(speedMetersPerSecond: real, date: int)

  datatype StepsSample = StepsSample(stepsPerMinute: int, date: int)

  /** Durations are whole seconds; distance is abstracted away. */
  datatype WorkoutSummary = WorkoutSummary(
    duration: int,
    averageHeartRate: Option<int>,
    maxHeartRate: Option<int>,
    steps: Option<int>,
    timeInZoneSeconds: int)

  datatype HRZone = HRZone(id: int, name: string, lowerPercent: int, upperPercent: int)

  /** An inclusive integer range. */
  datatype ZoneRange = ZoneRange(lower: int, upper: int) {
    predicate Contains(bpm: int) { lower <= bpm <= upper }
  }

  /** `bpmRange(maxHR:)`: both bounds rounded from the percentages, the upper
      one raised to the lower one when the percentages are inverted, so the
      range always exists. */
  function BpmRange(zone: HRZone, maxHR: int): (r: ZoneRange)
    ensures r.lower <= r.upper
    ensures r.lower == RoundHundredths(maxHR * zone.lowerPercent)
    ensures r.lower <= RoundHundredths(maxHR * zone.upperPercent) ==>
              r.upper == RoundHundredths(maxHR * zone.upperPercent)
    ensures RoundHundredths(maxHR * zone.upperPercent) < r.lower ==> r.upper == r.lower
  {
    var lower := RoundHundredths(maxHR * zone.lowerPercent);
    var upper := RoundHundredths(maxHR * zone.upperPercent);
    ZoneRange(lower, if lower >= upper then lower else upper)
  }

  const DefaultZones: seq<HRZone> := [
    HRZone(1, "Zone 1", 50, 60),
    HRZone(2, "Zone 2", 60, 70),
    HRZone(3, "Zone 3", 70, 80),
    HRZone(4, "Zone 4", 80, 90),
    HRZone(5, "Zone 5", 90, 100)
  ]

  /** Five zones numbered 1 to 5 in order, each starting at the percentage
      where the previous one ends. */
  lemma DefaultZonesTable()
    ensures |DefaultZones| == 5
    ensures forall i :: 0 <= i < 5 ==> DefaultZones[i].id == i + 1
    ensures forall i :: 0 <= i < 4 ==> DefaultZones[i].upperPercent == DefaultZones[i + 1].lowerPercent
    ensures forall i :: 0 <= i < 5 ==> DefaultZones[i].lowerPercent < DefaultZones[i].upperPercent
  {
  }

  /** On the default zones and a non-negative maxHR the clamp never bites:
      the upper bound is the rounded upper percentage, and adjacent ranges
      share their boundary bpm. */
  lemma DefaultZonesUnclamped(maxHR: int, i: int)
    requires maxHR >= 0 && 0 <= i < |DefaultZones|
    ensures BpmRange(DefaultZones[i], maxHR).upper == RoundHundredths(maxHR * DefaultZones[i].upperPercent)
    ensures i < |DefaultZones| - 1 ==>
              BpmRange(DefaultZones[i], maxHR).upper == BpmRange(DefaultZones[i + 1], maxHR).lower
  {
    var z := DefaultZones[i];
    assert maxHR * z.upperPercent - maxHR * z.lowerPercent == maxHR * (z.upperPercent - z.lowerPercent);
    RoundHundredthsMonotonic(maxHR * z.lowerPercent, maxHR * z.upperPercent);
  }

  datatype UserSettings = UserSettings(
    maxHeartRate: int,
    selectedZoneId: int,
    minimumPaceEnabled: bool,
    minimumPaceKmh: real,
    treadmillModeEnabled: bool,
    autoDJEnabled: bool,
    preferredPlaylistId: Option<string>)

  /** `UserSettings.default(age:)`: maximum heart rate 220 - age but never
      below 150; zone 2, pace gate on at 2.5 km/h, outdoor, Auto-DJ on. */
  function DefaultSettings(age: int): (s: UserSettings)
    ensures s.maxHeartRate >= 150 && s.maxHeartRate >= 220 - age
    ensures s.maxHeartRate == 150 || s.maxHeartRate == 220 - age
    ensures s.maxHeartRate == 220 - age <==> age <= 70
    ensures s.selectedZoneId == 2
    ensures exists i :: 0 <= i < |DefaultZones| && DefaultZones[i].id == s.selectedZoneId
    ensures s.minimumPaceEnabled && s.minimumPaceKmh == 2.5
    ensures !s.treadmillModeEnabled && s.autoDJEnabled
    ensures s.preferredPlaylistId == None
  {
    assert DefaultZones[1].id == 2;
    UserSettings(if 150 >= 220 - age then 150 else 220 - age, 2, true, 2.5, false, true, None)
  }

  datatype LiveMetrics = LiveMetrics(
    heartRateBpm: Option<int>,
    paceKmh: Option<real>,
    stepsPerMinute: Option<int>,
    zoneState: ZoneState,
    playbackState: PlaybackState,
    isPaceRequirementMet: bool)

  /** `LiveMetrics()` with every field defaulted. */
  function InitialMetrics(): (m: LiveMetrics)
    ensures m.heartRateBpm.None? && m.paceKmh.None? && m.stepsPerMinute.None?
    ensures m.zoneState == Unknown && m.playbackState == Stopped && m.isPaceRequirementMet
  {
    LiveMetrics(None, None, None, Unknown, Stopped, true)
  }

  /** A `ClosedRange<Double>`. */
  datatype RealRange = RealRange(lower: real, upper: real)

  datatype AutoDJSettings = AutoDJSettings(targetEnergy: RealRange, targetTempo: RealRange)

  /** `AutoDJSettings.settings(for:)`: a fixed energy and tempo band per
      default zone id, and a middle-of-the-road band for any other id. */
  function AutoDJSettingsFor(zone: HRZone): (s: AutoDJSettings)
    ensures s.targetEnergy.lower <= s.targetEnergy.upper && s.targetTempo.lower <= s.targetTempo.upper
    ensures 0.0 <= s.targetEnergy.lower && s.targetEnergy.upper <= 1.0
    ensures !(1 <= zone.id <= 5) ==>
              s == AutoDJSettings(RealRange(0.30, 0.60), RealRange(100.0, 140.0))
  {
    match zone.id
    case 1 => AutoDJSettings(RealRange(0.15, 0.35), RealRange(90.0, 110.0))
    case 2 => AutoDJSettings(RealRange(0.30, 0.50), RealRange(100.0, 120.0))
    case 3 => AutoDJSettings(RealRange(0.45, 0.70), RealRange(120.0, 140.0))
    case 4 => AutoDJSettings(RealRange(0.65, 0.85), RealRange(140.0, 165.0))
    case 5 => AutoDJSettings(RealRange(0.80, 1.00), RealRange(160.0, 190.0))
    case _ => AutoDJSettings(RealRange(0.30, 0.60), RealRange(100.0, 140.0))
  }

  /** Moving one zone up raises both bands' lower bounds, while neighbouring
      bands still overlap or touch, so the music changes gradually. */
  lemma AutoDJBandsClimbAndOverlap(zone: HRZone, next: HRZone)
    requires 1 <= zone.id <= 4 && next.id == zone.id + 1
    ensures AutoDJSettingsFor(zone).targetEnergy.lower < AutoDJSettingsFor(next).targetEnergy.lower
    ensures AutoDJSettingsFor(zone).targetTempo.lower < AutoDJSettingsFor(next).targetTempo.lower
    ensures AutoDJSettingsFor(next).targetEnergy.lower <= AutoDJSettingsFor(zone).targetEnergy.upper
    ensures AutoDJSettingsFor(next).targetTempo.lower <= AutoDJSettingsFor(zone).targetTempo.upper
  {
  }
}
