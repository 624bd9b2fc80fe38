/** Stored user preferences of the SpotRunCore package (Models/UserSettings.swift). */
module LibUserSettings {
  import opened Wrappers
  import LibHRZone

  datatype UserSettings = UserSettings(
    maxHeartRate: int,
    selectedZoneId: int,
    minimumPaceEnabled: bool,
    minimumPaceKmh: real,
    treadmillModeEnabled: bool,
    autoDJEnabled: bool,
    preferredPlaylistId: Option<string>)

  /** The memberwise initializer; the playlist id is optional and defaults to nil. */
  function Init(
    maxHeartRate: int,
    selectedZoneId: int,
    minimumPaceEnabled: bool,
    minimumPaceKmh: real,
    treadmillModeEnabled: bool,
    autoDJEnabled: bool,
    preferredPlaylistId: Option<string> := None): (s: UserSettings)
    ensures s.maxHeartRate == maxHeartRate && s.selectedZoneId == selectedZoneId
    ensures s.minimumPaceEnabled == minimumPaceEnabled && s.minimumPaceKmh == minimumPaceKmh
    ensures s.treadmillModeEnabled == treadmillModeEnabled && s.autoDJEnabled == autoDJEnabled
    ensures s.preferredPlaylistId == preferredPlaylistId
  {
    UserSettings(maxHeartRate, selectedZoneId, minimumPaceEnabled, minimumPaceKmh,
                 treadmillModeEnabled, autoDJEnabled, preferredPlaylistId)
  }

  /** `UserSettings.default(age:)`: maximum heart rate estimated as 220 - age,
      but never below 150; zone 2, pace gate on at 2.5 km/h, outdoor, Auto-DJ on. */
  function Default(age: int): (s: UserSettings)
    ensures s.maxHeartRate >= 150 && s.maxHeartRate >= 220 - age
    ensures s.maxHeartRate == 150 || s.maxHeartRate == 220 - age
    ensures s.maxHeartRate == 220 - age <==> age <= 70
    ensures s.selectedZoneId == 2 && LibHRZone.IsDefaultZoneId(s.selectedZoneId)
    ensures s.minimumPaceEnabled && s.minimumPaceKmh == 2.5
    ensures !s.treadmillModeEnabled && s.autoDJEnabled
    ensures s.preferredPlaylistId == None
  {
    var estimatedMax := if 150 >= 220 - age then 150 else 220 - age;
    LibHRZone.DefaultZoneIds(2);
    Init(estimatedMax, 2, true, 2.5, false, true, None)
  }
}
