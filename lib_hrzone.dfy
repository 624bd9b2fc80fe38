/**
 * Heart-rate zones of the SpotRunCore package (Models/HRZone.swift).
 * Percentages are whole percents (0.60 is 60); Swift's Double product and
 * `.rounded()` become an exact product rounded half away from zero, so
 * binary-fraction effects at exact halfway points are abstracted away.
 */
module LibHRZone {
  import opened Arithmetic

  datatype HRZone = HRZone(id: int, name: string, lowerPercent: int, upperPercent: int)

  /** Swift's `ClosedRange<Int>`: inclusive bounds. */
  datatype ZoneRange = ZoneRange(lower: int, upper: int) {
    predicate Contains(bpm: int) { lower <= bpm <= upper }
  }

  /** The bpm that a whole percentage of `maxHR` rounds to. */
  function PercentOf(maxHR: int, percent: int): (bpm: int)
    ensures 100 * bpm - 50 <= maxHR * percent <= 100 * bpm + 50
  {
    RoundHundredths(maxHR * percent)
  }

  /** Building `lower...upper` traps in Swift unless the bounds are ordered. */
  predicate FormsRange(zone: HRZone, maxHR: int)
  {
    PercentOf(maxHR, zone.lowerPercent) <= PercentOf(maxHR, zone.upperPercent)
  }

  /** `bpmRange(maxHR:)`: both bounds rounded from the percentages, with no clamping. */
  function BpmRange(zone: HRZone, maxHR: int): (r: ZoneRange)
    requires FormsRange(zone, maxHR)
    ensures r.lower <= r.upper
    ensures 100 * r.lower - 50 <= maxHR * zone.lowerPercent <= 100 * r.lower + 50
    ensures 100 * r.upper - 50 <= maxHR * zone.upperPercent <= 100 * r.upper + 50
  {
    ZoneRange(PercentOf(maxHR, zone.lowerPercent), PercentOf(maxHR, zone.upperPercent))
  }

  const DefaultZones: seq<HRZone> := [
    HRZone(1, "Zone 1", 50, 60),
    HRZone(2, "Zone 2", 60, 70),
    HRZone(3, "Zone 3", 70, 80),
    HRZone(4, "Zone 4", 80, 90),
    HRZone(5, "Zone 5", 90, 100)
  ]

  /** Some default zone carries this id: the lookup `evaluatePlayback` guards on. */
  predicate IsDefaultZoneId(id: int)
  {
    exists i :: 0 <= i < |DefaultZones| && DefaultZones[i].id == id
  }

  /** The table holds five zones numbered 1 to 5 in order, so a zone id is a
      default one exactly when it lies in 1..5. */
  lemma DefaultZoneIds(id: int)
    ensures |DefaultZones| == 5
    ensures forall i :: 0 <= i < 5 ==> DefaultZones[i].id == i + 1
    ensures IsDefaultZoneId(id) <==> 1 <= id <= 5
  {
    if 1 <= id <= 5 {
      assert DefaultZones[id - 1].id == id;
    }
  }

  /** Percentages multiplied by a non-negative maxHR keep their order. */
  lemma PercentOfMonotonic(maxHR: int, p: int, q: int)
    requires maxHR >= 0 && p <= q
    ensures PercentOf(maxHR, p) <= PercentOf(maxHR, q)
  {
    assert maxHR * q - maxHR * p == maxHR * (q - p);
    RoundHundredthsMonotonic(maxHR * p, maxHR * q);
  }

  /** Every default zone yields a valid range for every non-negative maxHR. */
  lemma DefaultZonesFormRanges(maxHR: int, i: int)
    requires maxHR >= 0 && 0 <= i < |DefaultZones|
    ensures FormsRange(DefaultZones[i], maxHR)
    ensures BpmRange(DefaultZones[i], maxHR).lower <= BpmRange(DefaultZones[i], maxHR).upper
  {
    PercentOfMonotonic(maxHR, DefaultZones[i].lowerPercent, DefaultZones[i].upperPercent);
  }

  /** Adjacent default zones share a percentage, hence a boundary bpm. */
  lemma AdjacentZonesShareBoundary(maxHR: int, i: int)
    requires maxHR >= 0 && 0 <= i < |DefaultZones| - 1
    ensures DefaultZones[i].upperPercent == DefaultZones[i + 1].lowerPercent
    ensures FormsRange(DefaultZones[i], maxHR) && FormsRange(DefaultZones[i + 1], maxHR)
    ensures BpmRange(DefaultZones[i], maxHR).upper == BpmRange(DefaultZones[i + 1], maxHR).lower
  {
    DefaultZonesFormRanges(maxHR, i);
    DefaultZonesFormRanges(maxHR, i + 1);
  }

  /** Zone 5 runs to 100 percent, so its upper bound is maxHR itself. */
  lemma TopZoneEndsAtMaxHR(maxHR: int)
    requires maxHR >= 0
    ensures FormsRange(DefaultZones[4], maxHR)
    ensures BpmRange(DefaultZones[4], maxHR).upper == maxHR
  {
    DefaultZonesFormRanges(maxHR, 4);
    RoundHundredthsExact(maxHR);
  }

  /** At maxHR 200, zone 1 is 100...120 and zone 5 is 180...200. */
  lemma RangesAtMaxHR200()
    ensures FormsRange(DefaultZones[0], 200) && FormsRange(DefaultZones[4], 200)
    ensures BpmRange(DefaultZones[0], 200) == ZoneRange(100, 120)
    ensures BpmRange(DefaultZones[4], 200) == ZoneRange(180, 200)
  {
  }
}
