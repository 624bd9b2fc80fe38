# SpotRun decision core in Dafny

SpotRun plays music while a runner holds a target heart-rate zone. It pauses
the music when the runner leaves the zone, moves too slowly or loses the
heart-rate sensor. This project models the decision core that drives that
behaviour, in both copies the repository carries:

- **The SpotRunCore package** (`SpotRun/Sources/SpotRunCore`):
  - the debounced zone classifier `ZoneDecisionEngine`;
  - the audio state machine `AudioPolicyEngine`, whose fade completions are closures queued on the main queue;
  - the `SessionCoordinator`, which averages pace and cadence over a time window and applies an effort gate and a verdict table;
  - the value types `HRZone`, `UserSettings` and `LiveMetrics`.
- **The app target** (`SpotRun/Core`):
  - its own `AudioPolicyEngine`, with cancellable fade tasks and a playback callback;
  - its own `SessionCoordinator`, with run counters, a watchdog tick and a pace gate;
  - the value types in `Models.swift`.

Modules and files:

| module | file | models |
|---|---|---|
| `Wrappers` | wrappers.dfy | Swift optionals (`Option`) |
| `Arithmetic` | arithmetic.dfy | Swift rounding and truncation on whole-percent and integer values, sums and means |
| `Windows` | windows.dfy | the trailing time window over sensor samples |
| `LibModels`, `LibHRZone`, `LibUserSettings` | lib_models.dfy, lib_hrzone.dfy, lib_user_settings.dfy | the package's value types |
| `LibZoneDecisionEngine` | lib_zone_decision_engine.dfy | `ZoneDecisionEngine` as a class |
| `LibAudioPolicyEngine` | lib_audio_policy_engine.dfy | the package's `AudioPolicyEngine` as a class, plus its step functions on a `Machine` value |
| `LibSessionCoordinator` | lib_session_coordinator.dfy | the package's `SessionCoordinator` as a class over the two engines |
| `AppModels` | app_models.dfy | the app's value types |
| `AppAudioPolicyEngine` | app_audio_policy_engine.dfy | the app's `AudioPolicyEngine` as a class, plus step functions |
| `AppSessionCoordinator` | app_session_coordinator.dfy | the app's `SessionCoordinator` as a class, plus step functions |

Modelling conventions:

- **Stateful classes.** Every stateful class keeps the source's fields. It has
  a `Snapshot()` (or `Effected()`) function that reads those fields as a value.
  Each method's `ensures` equates the new snapshot with a pure step function of
  the old one, such as `AfterPlay` or `AfterPace`. The invariants and
  properties are proved about those step functions.
- **Delegate callbacks.** A delegate or callback is recorded as a log field:
  - `notifications` holds the states handed to the zone delegate or the
    playback callback;
  - `transitions` and `actions` hold the package audio engine's delegate calls;
  - `analytics` holds the events sent to the analytics service.
- **Time.** Time is whole seconds, passed as a parameter wherever the source
  reads `Date()`.
- **Deferred fades.**
  - In the package engine, a fade completion that `DispatchQueue.main.asyncAfter`
    would run later is a queued `Completion`. `FireNextCompletion` runs the
    oldest one.
  - In the app engine, a finishing fade task is the explicit event
    `CompleteFade`. The class cancels a task for good when it replaces it.
    The `Written` value models the code as written: cancelled tasks still run
    their transitions (see "Findings").
- **Queued samples.** The app coordinator's step functions `AfterHeartRate`,
  `AfterPace` and `AfterSteps` run the handlers as written, with or without
  a running session. The class runs the guarded `HandledHeartRate`,
  `HandledPace` and `HandledSteps`, which drop a sample that arrives after
  stop (see "Findings").
- **Numbers.** Zone percentages are whole percents. Swift's `Double`
  arithmetic becomes exact integer or `real` arithmetic, with rounding and
  truncation written out. `Double` representation errors are not modelled,
  and "Left out" lists where they change a result.

Where the code and the written design disagree, the model follows the code:

- The library zone engine widens the upper edge with `upper + hysteresis`,
  and it moves to `outOfZone` (not `unknown`) at a gap of 10 s or more.
- The library audio engine never cancels a scheduled fade completion.
- The library coordinator records `playing` in its metrics as soon as it
  requests play, while the engine is still fading in.

## Model

| member | source | states |
|---|---|---|
| Arithmetic.RoundHundredths | SpotRun/Sources/SpotRunCore/Models/HRZone.swift:17-18 | the rounded value is within half a unit of x/100, and halfway cases go away from zero |
| Arithmetic.RoundHundredthsMonotonic | SpotRun/Sources/SpotRunCore/Models/HRZone.swift:17-18 | rounding preserves order |
| Arithmetic.TruncDiv | SpotRun/Sources/SpotRunCore/Engines/SessionCoordinator.swift:119 | the quotient is truncated toward zero: for a non-negative dividend it is the largest r with r*n <= a, and for a negative one the smallest r with a <= r*n |
| Arithmetic.TruncatedMean | SpotRun/Sources/SpotRunCore/Engines/SessionCoordinator.swift:119 | the truncated mean brackets the sum between m*n and m*n+n (or m*n-n and m*n when the sum is negative) |
| Arithmetic.TruncatedMeanBounds | SpotRun/Sources/SpotRunCore/Engines/SessionCoordinator.swift:119 | the truncated mean lies within any integer bounds of the elements |
| Arithmetic.MeanRealBounds | SpotRun/Core/SessionCoordinator.swift:148 | the mean speed lies within any bounds of the speeds |
| Arithmetic.MeanRealAtLeast | SpotRun/Sources/SpotRunCore/Engines/SessionCoordinator.swift:108-109 | the mean is at least any lower bound of the elements |
| Windows.Recent | SpotRun/Sources/SpotRunCore/Engines/SessionCoordinator.swift:105-107 | the window keeps every sample dated at or after the window start, and only such samples, drawn from the input |
| Windows.RecentCounts | SpotRun/Sources/SpotRunCore/Engines/SessionCoordinator.swift:105-107 | each sample dated at or after the window start is kept exactly as often as it occurs, and every other sample not at all |
| Windows.RecentConcat | SpotRun/Sources/SpotRunCore/Engines/SessionCoordinator.swift:105-107 | filtering distributes over concatenation, so the window keeps the samples in their arrival order |
| Windows.RecentIdempotent | SpotRun/Sources/SpotRunCore/Engines/SessionCoordinator.swift:105-107 | filtering an already filtered window changes nothing |
| LibModels.InitialMetrics | SpotRun/Sources/SpotRunCore/Models/LiveMetrics.swift:11-25 | fresh metrics have no readings, zone `unknown`, playback `stopped` and no sample date |
| LibHRZone.PercentOf | SpotRun/Sources/SpotRunCore/Models/HRZone.swift:17-18 | the bpm is maxHR times the percentage, rounded to the nearest whole bpm |
| LibHRZone.BpmRange | SpotRun/Sources/SpotRunCore/Models/HRZone.swift:16-20 | both bounds are the rounded percentages, unclamped; it requires the bounds to be ordered, because building the range traps otherwise |
| LibHRZone.DefaultZoneIds | SpotRun/Sources/SpotRunCore/Models/HRZone.swift:24-30 | there are five default zones with ids 1..5 in order, so an id names a default zone exactly when it lies in 1..5 |
| LibHRZone.PercentOfMonotonic | SpotRun/Sources/SpotRunCore/Models/HRZone.swift:17-18 | for a non-negative maxHR a larger percentage never gives a smaller bpm |
| LibHRZone.DefaultZonesFormRanges | SpotRun/Sources/SpotRunCore/Models/HRZone.swift:16-30 | every default zone gives lower <= upper for every non-negative maxHR |
| LibHRZone.AdjacentZonesShareBoundary | SpotRun/Sources/SpotRunCore/Models/HRZone.swift:25-29 | each zone's upper percentage is the next zone's lower one, so adjacent ranges share their boundary bpm |
| LibHRZone.TopZoneEndsAtMaxHR | SpotRun/Sources/SpotRunCore/Models/HRZone.swift:16-30 | zone 5's upper bound is maxHR itself |
| LibHRZone.RangesAtMaxHR200 | SpotRun/Tests/SpotRunCoreTests/ZoneMathTests.swift:5-10 | at maxHR 200, zone 1 is 100...120 and zone 5 is 180...200 |
| LibUserSettings.Init | SpotRun/Sources/SpotRunCore/Models/UserSettings.swift:12-28 | every argument is stored unchanged, and the playlist id defaults to nil |
| LibUserSettings.Default | SpotRun/Sources/SpotRunCore/Models/UserSettings.swift:31-43 | maxHR is max(150, 220 - age), so it is at least 150 and equals 220 - age exactly when age <= 70; the zone is 2 (a default zone); the pace gate is on at 2.5 km/h, treadmill mode off, Auto-DJ on, and there is no playlist |
| LibZoneDecisionEngine.DefaultConfiguration | SpotRun/Sources/SpotRunCore/Engines/ZoneDecisionEngine.swift:14-24 | 2 bpm hysteresis, 3 samples, 10 s and 20 s gaps |
| LibZoneDecisionEngine.Suffix | SpotRun/Sources/SpotRunCore/Engines/ZoneDecisionEngine.swift:46 | the window has length min(count, n) |
| LibZoneDecisionEngine.SuffixIsMostRecent | SpotRun/Sources/SpotRunCore/Engines/ZoneDecisionEngine.swift:46 | the window holds the most recent samples, in arrival order |
| LibZoneDecisionEngine.SuffixAppend | SpotRun/Sources/SpotRunCore/Engines/ZoneDecisionEngine.swift:45-46 | truncating before appending gives the same window as truncating after |
| LibZoneDecisionEngine.Classify | SpotRun/Sources/SpotRunCore/Engines/ZoneDecisionEngine.swift:52-62 | all samples inside the widened band give `inZone`; otherwise all samples outside give `outOfZone`; otherwise the state holds |
| LibZoneDecisionEngine.ClassifyNeverUnknown | SpotRun/Sources/SpotRunCore/Engines/ZoneDecisionEngine.swift:52-62 | classification yields `unknown` only by keeping it |
| LibZoneDecisionEngine.GapState | SpotRun/Sources/SpotRunCore/Engines/ZoneDecisionEngine.swift:65-72 | a gap of 20 s or more gives `unknown`, a gap of 10 s or more gives `outOfZone`, and a shorter gap leaves the state alone |
| LibZoneDecisionEngine.NotifyKeepsEdgeTriggered | SpotRun/Sources/SpotRunCore/Engines/ZoneDecisionEngine.swift:30-35 | notifying only on change keeps the delegate log edge-triggered: every entry differs from the one before it, and the last entry is the current state |
| LibZoneDecisionEngine.ZoneDecisionEngine.constructor | SpotRun/Sources/SpotRunCore/Engines/ZoneDecisionEngine.swift:39-42 | an empty window, `unknown`, and nothing reported |
| LibZoneDecisionEngine.ZoneDecisionEngine.SetState | SpotRun/Sources/SpotRunCore/Engines/ZoneDecisionEngine.swift:30-35 | the delegate is told the new state exactly when it differs from the old one |
| LibZoneDecisionEngine.ZoneDecisionEngine.Add | SpotRun/Sources/SpotRunCore/Engines/ZoneDecisionEngine.swift:44-63 | the window is the suffix of the old window plus the sample; a short window keeps the state, and a full one is classified against the band widened by the hysteresis; the state never becomes `unknown`; the window bound is kept, and the delegate log stays edge-triggered, each entry differing from the one before |
| LibZoneDecisionEngine.ZoneDecisionEngine.HandleSensorPause | SpotRun/Sources/SpotRunCore/Engines/ZoneDecisionEngine.swift:65-72 | the state becomes `GapState` of the gap; samples are untouched |
| LibZoneDecisionEngine.HysteresisTrace | SpotRun/Tests/SpotRunCoreTests/ZoneMathTests.swift:12-40 | with range 140...160, the samples 139, 141, 142, 143 report `inZone`, and then 170, 171, 172 end on `outOfZone`; the whole log is [inZone, outOfZone] |
| LibZoneDecisionEngine.WatchdogTrace | SpotRun/Sources/SpotRunCore/Engines/ZoneDecisionEngine.swift:65-72 | with the last sample at t = 0, a check at 11 s gives `outOfZone` and one at 21 s gives `unknown` |
| LibAudioPolicyEngine.Initial | SpotRun/Sources/SpotRunCore/Engines/AudioPolicyEngine.swift:30-34 | a fresh engine is in the given state with nothing queued or reported |
| LibAudioPolicyEngine.AfterTransition | SpotRun/Sources/SpotRunCore/Engines/AudioPolicyEngine.swift:83-89 | transitions keep the delegate log a chain of real changes that ends in the current state |
| LibAudioPolicyEngine.AfterReset | SpotRun/Sources/SpotRunCore/Engines/AudioPolicyEngine.swift:36-38 | `reset` keeps the engine invariant |
| LibAudioPolicyEngine.AfterStart | SpotRun/Sources/SpotRunCore/Engines/AudioPolicyEngine.swift:40-42 | `startSession` keeps the engine invariant |
| LibAudioPolicyEngine.AfterPlay | SpotRun/Sources/SpotRunCore/Engines/AudioPolicyEngine.swift:44-60 | `requestPlay` keeps the engine invariant |
| LibAudioPolicyEngine.AfterPause | SpotRun/Sources/SpotRunCore/Engines/AudioPolicyEngine.swift:62-81 | `requestPause` keeps the engine invariant |
| LibAudioPolicyEngine.AfterCompletion | SpotRun/Sources/SpotRunCore/Engines/AudioPolicyEngine.swift:49-73 | a queued fade closure runs, removing exactly one entry from the queue and keeping the invariant |
| LibAudioPolicyEngine.AudioPolicyEngine.constructor | SpotRun/Sources/SpotRunCore/Engines/AudioPolicyEngine.swift:30-34 | the engine starts in the given state (stopped by default) with nothing queued or reported |
| LibAudioPolicyEngine.AudioPolicyEngine.Transition | SpotRun/Sources/SpotRunCore/Engines/AudioPolicyEngine.swift:83-89 | the engine's new state is `AfterTransition` of the old one: a real change is reported to the delegate once |
| LibAudioPolicyEngine.AudioPolicyEngine.Reset | SpotRun/Sources/SpotRunCore/Engines/AudioPolicyEngine.swift:36-38 | the engine's new state is `AfterReset` of the old one |
| LibAudioPolicyEngine.AudioPolicyEngine.StartSession | SpotRun/Sources/SpotRunCore/Engines/AudioPolicyEngine.swift:40-42 | the engine's new state is `AfterStart` of the old one |
| LibAudioPolicyEngine.AudioPolicyEngine.RequestPlay | SpotRun/Sources/SpotRunCore/Engines/AudioPolicyEngine.swift:44-60 | the engine's new state is `AfterPlay` of the old one; from `stopped` it starts the session and asks again |
| LibAudioPolicyEngine.AudioPolicyEngine.RequestPause | SpotRun/Sources/SpotRunCore/Engines/AudioPolicyEngine.swift:62-81 | the engine's new state is `AfterPause` of the old one |
| LibAudioPolicyEngine.AudioPolicyEngine.FireNextCompletion | SpotRun/Sources/SpotRunCore/Engines/AudioPolicyEngine.swift:49-73 | the oldest queued fade closure runs |
| LibAudioPolicyEngine.TransitionReportsChanges | SpotRun/Sources/SpotRunCore/Engines/AudioPolicyEngine.swift:83-89 | a transition to the current state changes nothing; any other target is reported once, with the old and new states |
| LibAudioPolicyEngine.ResetAndStart | SpotRun/Sources/SpotRunCore/Engines/AudioPolicyEngine.swift:36-42 | `reset` ends in `stopped` and `startSession` in `waitingForZone`; neither emits an action or touches the queue |
| LibAudioPolicyEngine.PlayWhilePlayingIsNoOp | SpotRun/Sources/SpotRunCore/Engines/AudioPolicyEngine.swift:45-47 | `requestPlay` while playing or fading in changes nothing |
| LibAudioPolicyEngine.PlayFadesInThenPlays | SpotRun/Sources/SpotRunCore/Engines/AudioPolicyEngine.swift:48-55 | from waiting, paused or fading out: one transition to `fadingIn` and `fadeTo(1.0)`; on completion, `playing` and `play` |
| LibAudioPolicyEngine.PlayFromStoppedPassesThroughWaiting | SpotRun/Sources/SpotRunCore/Engines/AudioPolicyEngine.swift:56-58 | from `stopped`: two transitions, through `waitingForZone` to `fadingIn`, and one fade-in queued |
| LibAudioPolicyEngine.PauseFadesOutThenPauses | SpotRun/Sources/SpotRunCore/Engines/AudioPolicyEngine.swift:64-73 | while playing or fading in: fade to the reason's volume floor; on completion, `paused`, with a `pause` action exactly when the reason asks for one |
| LibAudioPolicyEngine.PauseOutsidePlayback | SpotRun/Sources/SpotRunCore/Engines/AudioPolicyEngine.swift:74-79 | `requestPause` does nothing in paused, fading out or stopped; from waiting it goes straight to `paused` with no action |
| LibAudioPolicyEngine.StaleCompletionsStillFire | SpotRun/Sources/SpotRunCore/Engines/AudioPolicyEngine.swift:51-73 | completions are never invalidated: a fade-out queued before a fade-in still lands in `paused`, even after a reset, and a fade-in queued before a reset resumes playback |
| LibSessionCoordinator.DefaultConfiguration | SpotRun/Sources/SpotRunCore/Engines/SessionCoordinator.swift:15-19 | 2.5 km/h, 60 steps per minute, a 5 s window |
| LibSessionCoordinator.ValidSpeeds | SpotRun/Sources/SpotRunCore/Engines/SessionCoordinator.swift:108 | every speed kept is at least 0.5 m/s and present in some sample, and every present speed of at least 0.5 m/s is kept |
| LibSessionCoordinator.ValidSpeedsCounts | SpotRun/Sources/SpotRunCore/Engines/SessionCoordinator.swift:108 | each speed of at least 0.5 m/s is kept exactly as often as the samples carry it, and no other speed is kept |
| LibSessionCoordinator.ValidSpeedsConcat | SpotRun/Sources/SpotRunCore/Engines/SessionCoordinator.swift:108 | the speed filter distributes over concatenation, so the kept speeds are in sample order |
| LibSessionCoordinator.PaceKmh | SpotRun/Sources/SpotRunCore/Engines/SessionCoordinator.swift:109-110 | nil exactly when no speed qualifies; otherwise 3.6 times the mean speed |
| LibSessionCoordinator.PaceAtLeastNoiseFloor | SpotRun/Sources/SpotRunCore/Engines/SessionCoordinator.swift:108-110 | every reported pace is at least 1.8 km/h |
| LibSessionCoordinator.StepsAverage | SpotRun/Sources/SpotRunCore/Engines/SessionCoordinator.swift:119-120 | nil exactly when the window is empty; otherwise the truncated mean cadence |
| LibSessionCoordinator.StepsAverageBounds | SpotRun/Sources/SpotRunCore/Engines/SessionCoordinator.swift:119 | the average cadence lies within any bounds of the windowed cadences |
| LibSessionCoordinator.EffortGate | SpotRun/Sources/SpotRunCore/Engines/SessionCoordinator.swift:131-148 | open when the pace requirement is off; otherwise cadence (treadmill) or pace (outdoors) must be present and reach its minimum |
| LibSessionCoordinator.VerdictFor | SpotRun/Sources/SpotRunCore/Engines/SessionCoordinator.swift:153-171 | play exactly in the zone with the gate open; `unknown` gives a soft sensor pause; in the zone with the gate shut gives a pace pause; out of the zone gives a zone pause; each row has its recorded state and reason |
| LibSessionCoordinator.Evaluation | SpotRun/Sources/SpotRunCore/Engines/SessionCoordinator.swift:125-129 | there is no verdict exactly when the settings cannot be loaded or name no default zone |
| LibSessionCoordinator.AfterRequest | SpotRun/Sources/SpotRunCore/Engines/SessionCoordinator.swift:154-171 | sending the verdict's request keeps the audio engine's invariant |
| LibSessionCoordinator.EvaluateGuard | SpotRun/Sources/SpotRunCore/Engines/SessionCoordinator.swift:126-129 | without usable settings an evaluation changes nothing |
| LibSessionCoordinator.EvaluateTracksOnlyChanges | SpotRun/Sources/SpotRunCore/Engines/SessionCoordinator.swift:150-175 | an event is logged exactly when the recorded playback state changed, and it names the old and new states |
| LibSessionCoordinator.EvaluateRecordsRequest | SpotRun/Sources/SpotRunCore/Engines/SessionCoordinator.swift:150-171 | the metrics take the zone, record `playing` exactly when play was requested and `fadingOut` otherwise, and the engine invariant is kept |
| LibSessionCoordinator.SessionCoordinator.constructor | SpotRun/Sources/SpotRunCore/Engines/SessionCoordinator.swift:37-56 | a fresh zone engine over the range, default metrics, empty buffers and no events |
| LibSessionCoordinator.SessionCoordinator.StartSession | SpotRun/Sources/SpotRunCore/Engines/SessionCoordinator.swift:58-67 | the audio engine starts its session and `sessionStarted(mode)` is logged |
| LibSessionCoordinator.SessionCoordinator.StopSession | SpotRun/Sources/SpotRunCore/Engines/SessionCoordinator.swift:69-80 | the audio engine is reset |
| LibSessionCoordinator.SessionCoordinator.EvaluatePlayback | SpotRun/Sources/SpotRunCore/Engines/SessionCoordinator.swift:125-176 | metrics, analytics and engine become `Evaluate` of the old ones, with the zone engine's state |
| LibSessionCoordinator.SessionCoordinator.ZoneDidUpdate | SpotRun/Sources/SpotRunCore/Engines/SessionCoordinator.swift:183-188 | the zone is recorded and playback is evaluated again |
| LibSessionCoordinator.SessionCoordinator.HandleHeartRate | SpotRun/Sources/SpotRunCore/Engines/SessionCoordinator.swift:96-102 | the zone engine takes the sample; playback is evaluated again exactly when the zone state changed; the sample and its date are recorded |
| LibSessionCoordinator.SessionCoordinator.HandlePace | SpotRun/Sources/SpotRunCore/Engines/SessionCoordinator.swift:104-113 | the buffer becomes the window ending at `now`, the pace is recomputed from it (possibly nil), and playback is evaluated |
| LibSessionCoordinator.SessionCoordinator.HandleSteps | SpotRun/Sources/SpotRunCore/Engines/SessionCoordinator.swift:115-123 | the cadence counterpart of `HandlePace` |
| LibSessionCoordinator.ZoneEnteredWithoutPace | SpotRun/Tests/SpotRunCoreTests/ZoneMathTests.swift:42-72 | with the test's settings and range 114...133, three samples of 120 bpm enter the zone and log a pace-failed fade-out |
| LibSessionCoordinator.OnePaceSample | SpotRun/Sources/SpotRunCore/Engines/SessionCoordinator.swift:104-110 | one fresh sample of 1.0 m/s gives a window of that sample and a pace of 3.6 km/h |
| LibSessionCoordinator.PaceOpensGate | SpotRun/Sources/SpotRunCore/Engines/SessionCoordinator.swift:153-158 | in the zone with the test's settings, a pace of 3.6 km/h opens the gate and logs the change to `playing` |
| LibSessionCoordinator.PaceSampleOpensGate | SpotRun/Sources/SpotRunCore/Engines/SessionCoordinator.swift:104-158 | in the zone with the test's settings, a 1.0 m/s sample alone in its window opens the gate and logs the change to `playing` |
| LibSessionCoordinator.PaceGateScenario | SpotRun/Tests/SpotRunCoreTests/ZoneMathTests.swift:42-81 | after the pace sample, a `stateChange` to `playing` is logged; the whole log is fadingOut (pace_failed), then playing (in_zone) |
| AppModels.BpmRange | SpotRun/Core/Models.swift:9-13 | lower <= upper always; the lower bound is the rounded lower percentage; the upper bound is the rounded upper percentage, raised to the lower bound when it would fall below it |
| AppModels.DefaultZonesTable | SpotRun/Core/Models.swift:15-21 | five zones with ids 1..5 in order; adjacent percentages are shared |
| AppModels.DefaultZonesUnclamped | SpotRun/Core/Models.swift:9-21 | on the default zones with a non-negative maxHR the clamp never bites, and adjacent ranges share their boundary bpm |
| AppModels.DefaultSettings | SpotRun/Core/Models.swift:33-43 | maxHR is max(150, 220 - age); zone 2 is one of the default zones; pace gate on at 2.5 km/h, treadmill off, Auto-DJ on, no playlist |
| AppModels.InitialMetrics | SpotRun/Core/Models.swift:46-53 | fresh metrics have zone `unknown`, playback `stopped` and the pace requirement met |
| AppModels.AutoDJSettingsFor | SpotRun/Core/Models.swift:147-161 | every band is ordered and energy stays in [0, 1]; ids outside 1..5 get 0.30...0.60 and 100...140 |
| AppModels.AutoDJBandsClimbAndOverlap | SpotRun/Core/Models.swift:147-161 | one zone up raises both lower bounds, while neighbouring bands still overlap |
| AppAudioPolicyEngine.PlaybackOf | SpotRun/Core/AudioPolicyEngine.swift:116-133 | `waitingForZone` and `paused` are reported as paused, and every other state as its namesake |
| AppAudioPolicyEngine.Target | SpotRun/Core/AudioPolicyEngine.swift:89-109 | a fade-in lands in `playing`; a fade-out lands in `paused` when the reason asks to pause, else in `waitingForZone` |
| AppAudioPolicyEngine.Initial | SpotRun/Core/AudioPolicyEngine.swift:33-47 | a fresh engine is stopped, with no task and nothing reported |
| AppAudioPolicyEngine.AfterTransition | SpotRun/Core/AudioPolicyEngine.swift:33-39 | the state is set; the callback log keeps reporting the current state |
| AppAudioPolicyEngine.AfterFadeIn | SpotRun/Core/AudioPolicyEngine.swift:89-98 | a fade-in ends in `fadingIn` with its own live task, and the invariant holds again |
| AppAudioPolicyEngine.AfterFadeOut | SpotRun/Core/AudioPolicyEngine.swift:100-109 | a fade-out ends in `fadingOut` carrying the reason, with a live task for that reason, and the invariant holds again |
| AppAudioPolicyEngine.AfterStart | SpotRun/Core/AudioPolicyEngine.swift:49-51 | `startSession` ends in `waitingForZone`, keeping the invariant when no fade is in flight |
| AppAudioPolicyEngine.AfterStop | SpotRun/Core/AudioPolicyEngine.swift:53-57 | `stopSession` always ends in `stopped` with no live task |
| AppAudioPolicyEngine.AfterPlay | SpotRun/Core/AudioPolicyEngine.swift:59-69 | `requestPlay` keeps the invariant that a task is live exactly while fading |
| AppAudioPolicyEngine.AfterPause | SpotRun/Core/AudioPolicyEngine.swift:71-87 | `requestPause` keeps the invariant |
| AppAudioPolicyEngine.AfterFadeDone | SpotRun/Core/AudioPolicyEngine.swift:89-109 | the live task finishing leaves no live task and keeps the invariant |
| AppAudioPolicyEngine.AudioPolicyEngine.constructor | SpotRun/Core/AudioPolicyEngine.swift:33-47 | the snapshot is the initial engine |
| AppAudioPolicyEngine.AudioPolicyEngine.Transition | SpotRun/Core/AudioPolicyEngine.swift:111-114 | the new engine is `AfterTransition` of the old one |
| AppAudioPolicyEngine.AudioPolicyEngine.SetState | SpotRun/Core/AudioPolicyEngine.swift:33-39 | the callback fires exactly when the state changes |
| AppAudioPolicyEngine.AudioPolicyEngine.StartSession | SpotRun/Core/AudioPolicyEngine.swift:49-51 | the engine moves to `waitingForZone` |
| AppAudioPolicyEngine.AudioPolicyEngine.StopSession | SpotRun/Core/AudioPolicyEngine.swift:53-57 | the task is cancelled and the engine stops |
| AppAudioPolicyEngine.AudioPolicyEngine.BeginFadeIn | SpotRun/Core/AudioPolicyEngine.swift:89-98 | the engine fades in with a fresh fade-in task |
| AppAudioPolicyEngine.AudioPolicyEngine.BeginFadeOut | SpotRun/Core/AudioPolicyEngine.swift:100-109 | the engine fades out with a task carrying the reason |
| AppAudioPolicyEngine.AudioPolicyEngine.RequestPlay | SpotRun/Core/AudioPolicyEngine.swift:59-69 | the new engine is `AfterPlay` of the old one; `stopped` falls through `waitingForZone` |
| AppAudioPolicyEngine.AudioPolicyEngine.RequestPause | SpotRun/Core/AudioPolicyEngine.swift:71-87 | the new engine is `AfterPause` of the old one |
| AppAudioPolicyEngine.AudioPolicyEngine.CompleteFade | SpotRun/Core/AudioPolicyEngine.swift:89-109 | only the live task runs its transition: cancel-and-replace as intended |
| AppAudioPolicyEngine.PlayIsIdempotent | SpotRun/Core/AudioPolicyEngine.swift:59-63 | play while playing or fading in changes nothing, and a second play changes nothing |
| AppAudioPolicyEngine.PlayFromStopped | SpotRun/Core/AudioPolicyEngine.swift:59-69 | from `stopped`, play reports paused then fadingIn, and the fade lands in `playing` |
| AppAudioPolicyEngine.PlayThenFadeDone | SpotRun/Core/AudioPolicyEngine.swift:59-98 | from waiting, paused or fading out, play reports fadingIn and then playing |
| AppAudioPolicyEngine.PauseWhileWaiting | SpotRun/Core/AudioPolicyEngine.swift:77-80 | while waiting, a pausing reason goes straight to `paused` and a soft one does nothing |
| AppAudioPolicyEngine.SoftNeverOverridesHard | SpotRun/Core/AudioPolicyEngine.swift:81-85 | a soft pause never replaces a hard fade-out, and any other pause during a fade-out restarts it with the new reason |
| AppAudioPolicyEngine.PauseNoOpsAndFadeOuts | SpotRun/Core/AudioPolicyEngine.swift:71-87 | a hard pause while paused and any pause while stopped do nothing; playing, fading in, or a soft pause while paused start a fade-out |
| AppAudioPolicyEngine.FadeOutLandsByReason | SpotRun/Core/AudioPolicyEngine.swift:100-109 | a fade-out from playback lands in `paused` or `waitingForZone` according to the reason |
| AppAudioPolicyEngine.StopIsFinal | SpotRun/Core/AudioPolicyEngine.swift:53-57 | after `stopSession` no task remains, so no fade can move the engine out of `stopped` |
| AppAudioPolicyEngine.NotificationsTrackChanges | SpotRun/Core/AudioPolicyEngine.swift:33-39 | an operation that leaves the state unchanged leaves the callback log unchanged |
| AppAudioPolicyEngine.NotificationsOnlyGrow | SpotRun/Core/AudioPolicyEngine.swift:33-39 | every operation only appends to the callback log |
| AppAudioPolicyEngine.RequestOutcomes | SpotRun/Core/AudioPolicyEngine.swift:59-109 | play ends fading in or playing, even from `stopped`; pause never leaves music audible; outside `stopped` neither request nor a finishing fade stops the engine, and in `stopped` a pause leaves it stopped |
| AppAudioPolicyEngine.FadeOutReplacesFadeIn | SpotRun/Core/AudioPolicyEngine.swift:71-109 | a pause during a fade-in replaces the fade-in task; the callback hears `fadingOut` and then the landing state, never `playing` |
| AppAudioPolicyEngine.WrittenPlay | SpotRun/Core/AudioPolicyEngine.swift:59-98 | as written, the engine moves as in `AfterPlay`; when a fade-in begins, the live task joins the cancelled tasks that still run, otherwise nothing changes |
| AppAudioPolicyEngine.WrittenPause | SpotRun/Core/AudioPolicyEngine.swift:71-109 | as written, the engine moves as in `AfterPause`; when a fade-out begins, the live task joins the cancelled tasks that still run |
| AppAudioPolicyEngine.WrittenStop | SpotRun/Core/AudioPolicyEngine.swift:53-57 | as written, the engine stops as in `AfterStop` and the live task joins the cancelled tasks that still run |
| AppAudioPolicyEngine.WrittenCancelledRuns | SpotRun/Core/AudioPolicyEngine.swift:89-109 | the oldest cancelled task runs its transition to its target state, leaving the engine's own task as it is |
| AppAudioPolicyEngine.WrittenLiveRuns | SpotRun/Core/AudioPolicyEngine.swift:89-109 | the live task runs its transition and is gone; on a valid engine this is exactly `AfterFadeDone` |
| AppAudioPolicyEngine.StopWhileFadingIsUndone | SpotRun/Core/AudioPolicyEngine.swift:53-109 | as written, stopping during any fade leaves one cancelled task, which moves the engine out of `stopped` and reports the new state after `stopped` |
| AppAudioPolicyEngine.CancelledFadeInRevivesStoppedEngine | SpotRun/Core/AudioPolicyEngine.swift:53-98 | as written, play then stop on a fresh engine lets the cancelled fade-in report `playing` after `stopped`; with cancel-and-replace the engine stays stopped |
| AppAudioPolicyEngine.CancelledFadeInInterruptsFadeOut | SpotRun/Core/AudioPolicyEngine.swift:71-109 | as written, a pause during a fade-in lets the cancelled fade-in report `playing` between `fadingOut` and the fade-out's landing state, leaving the engine with a task that does not match its state |
| AppSessionCoordinator.InitialSession | SpotRun/Core/SessionCoordinator.swift:29-37 | a fresh coordinator: not running, outdoor, default metrics, zero counters, no samples, no events, fresh engine, and the invariant holds |
| AppSessionCoordinator.Observe | SpotRun/Core/SessionCoordinator.swift:61-67 | one callback run records the state in the metrics and as the last state, and logs one change from the previous state |
| AppSessionCoordinator.ObserveAll | SpotRun/Core/SessionCoordinator.swift:61-67 | after the callback runs for every new state, the metrics show the last one, and nothing else changes |
| AppSessionCoordinator.ChangesChain | SpotRun/Core/SessionCoordinator.swift:61-67 | the logged events form a chain: each goes from the state before it to the next reported state, with reason "engine" |
| AppSessionCoordinator.ObserveAllLogsChanges | SpotRun/Core/SessionCoordinator.swift:61-67 | the callback logs exactly that chain of changes |
| AppSessionCoordinator.Delivered | SpotRun/Core/SessionCoordinator.swift:61-67 | after an engine step, the live playback state is again what the engine reports for its state |
| AppSessionCoordinator.Count | SpotRun/Core/SessionCoordinator.swift:156-164 | after any sample at most one run counter is non-zero |
| AppSessionCoordinator.TrailingRun | SpotRun/Core/SessionCoordinator.swift:156-164 | the length of the final run of samples that are all inside, or all outside, the widened range |
| AppSessionCoordinator.CountingTracksRuns | SpotRun/Core/SessionCoordinator.swift:155-164 | from zero, the counters equal the lengths of the trailing in-range and out-of-range runs |
| AppSessionCoordinator.ThreeInARow | SpotRun/Core/SessionCoordinator.swift:155-170 | a counter reaches 3 exactly when the last three samples were all in range (or all out of range) |
| AppSessionCoordinator.PaceRequirementMet | SpotRun/Core/SessionCoordinator.swift:181-199 | the gate is met when no minimum is required; otherwise outdoors the pace, and on a treadmill the cadence, must be present and reach the minimum |
| AppSessionCoordinator.RequestFor | SpotRun/Core/SessionCoordinator.swift:202-216 | play exactly in the zone with the gate met; `unknown` gives a soft sensor pause; otherwise a failed required gate gives a pace pause, and anything else a zone pause |
| AppSessionCoordinator.AfterEvaluateSensors | SpotRun/Core/SessionCoordinator.swift:180-217 | whether or not a session runs: the gate result is recorded; right after, music is audible exactly when the zone is `inZone` and the gate is met; inputs are unchanged; a running engine is never stopped, and a stopped one restarts exactly when the verdict is to play; a running session keeps the invariant |
| AppSessionCoordinator.AfterUpdateZone | SpotRun/Core/SessionCoordinator.swift:173-178 | an unchanged zone changes nothing at all; a new zone is recorded and re-evaluated |
| AppSessionCoordinator.AfterEvaluateZone | SpotRun/Core/SessionCoordinator.swift:155-171 | in range: the in-counter grows and the out-counter resets, and vice versa; the zone changes only to `inZone` on an in-range sample with a count of at least 3, or to `outOfZone` on an out-of-range sample with a count of at least 3 |
| AppSessionCoordinator.AfterHeartRate | SpotRun/Core/SessionCoordinator.swift:135-141 | whether or not a session runs: the sample and its date are recorded, counted, and followed by an evaluation, after which music is audible exactly when allowed; a running session keeps the invariant |
| AppSessionCoordinator.PaceRecorded | SpotRun/Core/SessionCoordinator.swift:143-150 | the window keeps the samples at or after `now - window`; a non-empty window sets the pace to 3.6 times its mean speed, and an empty one keeps the old pace |
| AppSessionCoordinator.AfterPace | SpotRun/Core/SessionCoordinator.swift:143-153 | whether or not a session runs: the pace is recorded as above, then evaluated; music is audible exactly when allowed; a running session keeps the invariant |
| AppSessionCoordinator.FreshSampleSetsPace | SpotRun/Core/SessionCoordinator.swift:143-150 | a sample inside the window is kept, so a pace is always set |
| AppSessionCoordinator.PaceWithinSpeedBounds | SpotRun/Core/SessionCoordinator.swift:147-150 | speeds within [lo, hi] m/s give a pace within [3.6 lo, 3.6 hi] km/h |
| AppSessionCoordinator.AfterSteps | SpotRun/Core/SessionCoordinator.swift:98-104 | whether or not a session runs: the cadence is taken as reported and then evaluated; music is audible exactly when allowed; a running session keeps the invariant |
| AppSessionCoordinator.AfterStartSession | SpotRun/Core/SessionCoordinator.swift:57-69 | a no-op while running; otherwise the session runs in the mode, the engine waits for the zone, and the metrics show paused |
| AppSessionCoordinator.AfterStopSession | SpotRun/Core/SessionCoordinator.swift:110-118 | a no-op while not running; otherwise the engine stops with no live task and the metrics show stopped; the mode, zone, counters and sensor readings are kept |
| AppSessionCoordinator.AfterSensorTimeout | SpotRun/Core/SessionCoordinator.swift:230-243 | nothing happens when not running, with no sample, or with a gap of at most 10 s; a longer gap sets `unknown` and leaves nothing audible; a gap in (10, 20] s uses the soft sensor reason, so the engine waits for the zone or fades out and is never paused; past 20 s the engine is paused or fading out for the hard sensor reason |
| AppSessionCoordinator.AfterFadeCompleted | SpotRun/Core/AudioPolicyEngine.swift:92-97 | a finishing fade keeps the invariant, and whether a session runs |
| AppSessionCoordinator.HandledHeartRate | SpotRun/Core/SessionCoordinator.swift:84-89 | with the guard: a sample arriving after stop is dropped; otherwise `AfterHeartRate`; the invariant and whether a session runs are kept |
| AppSessionCoordinator.HandledPace | SpotRun/Core/SessionCoordinator.swift:91-96 | with the guard: a sample arriving after stop is dropped; otherwise `AfterPace`; the invariant and whether a session runs are kept |
| AppSessionCoordinator.HandledSteps | SpotRun/Core/SessionCoordinator.swift:98-104 | with the guard: a sample arriving after stop is dropped; otherwise `AfterSteps`; the invariant and whether a session runs are kept |
| AppSessionCoordinator.QueuedSampleRestartsStoppedEngine | SpotRun/Core/SessionCoordinator.swift:98-121 | as written, a steps sample queued before stop, in the zone with the gate met, makes the stopped engine fade in with no session running, breaking the invariant |
| AppSessionCoordinator.QueuedSamplesAfterStopAreDropped | SpotRun/Core/SessionCoordinator.swift:84-121 | with the guard, heart-rate, pace and steps samples queued before stop leave the stopped session exactly as stopping left it |
| AppSessionCoordinator.SessionCoordinator.constructor | SpotRun/Core/SessionCoordinator.swift:39-55 | the snapshot is the initial session |
| AppSessionCoordinator.SessionCoordinator.OnPlaybackChange | SpotRun/Core/SessionCoordinator.swift:61-67 | one run of the playback callback |
| AppSessionCoordinator.SessionCoordinator.DeliverSince | SpotRun/Core/SessionCoordinator.swift:61-67 | the callback runs once for each new engine report, in order |
| AppSessionCoordinator.SessionCoordinator.RequestPlay | SpotRun/Core/SessionCoordinator.swift:205 | the snapshot becomes `AfterPlayRequest`: the engine plays and the callback sees each state it reports |
| AppSessionCoordinator.SessionCoordinator.RequestPause | SpotRun/Core/SessionCoordinator.swift:207-215 | the snapshot becomes `AfterPauseRequest` for the reason |
| AppSessionCoordinator.SessionCoordinator.EvaluateSensors | SpotRun/Core/SessionCoordinator.swift:180-217 | the snapshot becomes `AfterEvaluateSensors` of the old one |
| AppSessionCoordinator.SessionCoordinator.UpdateZoneState | SpotRun/Core/SessionCoordinator.swift:173-178 | the snapshot becomes `AfterUpdateZone` |
| AppSessionCoordinator.SessionCoordinator.EvaluateZone | SpotRun/Core/SessionCoordinator.swift:155-171 | the snapshot becomes `AfterEvaluateZone` |
| AppSessionCoordinator.SessionCoordinator.HandleHeartRate | SpotRun/Core/SessionCoordinator.swift:135-141 | the snapshot becomes `HandledHeartRate`: nothing when stopped, `AfterHeartRate` when running |
| AppSessionCoordinator.SessionCoordinator.RecordPace | SpotRun/Core/SessionCoordinator.swift:144-150 | the snapshot becomes `PaceRecorded` |
| AppSessionCoordinator.SessionCoordinator.HandlePace | SpotRun/Core/SessionCoordinator.swift:143-153 | the snapshot becomes `HandledPace`: nothing when stopped, `AfterPace` when running |
| AppSessionCoordinator.SessionCoordinator.HandleSteps | SpotRun/Core/SessionCoordinator.swift:98-104 | the snapshot becomes `HandledSteps`: nothing when stopped, `AfterSteps` when running |
| AppSessionCoordinator.SessionCoordinator.StartSession | SpotRun/Core/SessionCoordinator.swift:57-69 | the snapshot becomes `AfterStartSession` |
| AppSessionCoordinator.SessionCoordinator.StopSession | SpotRun/Core/SessionCoordinator.swift:110-131 | the snapshot becomes `AfterStopSession`; the workout summary is returned only when a session was running |
| AppSessionCoordinator.SessionCoordinator.CheckSensorTimeout | SpotRun/Core/SessionCoordinator.swift:230-243 | the snapshot becomes `AfterSensorTimeout` |
| AppSessionCoordinator.SessionCoordinator.FadeCompleted | SpotRun/Core/AudioPolicyEngine.swift:92-97 | the snapshot becomes `AfterFadeCompleted` |

## Left out

- SwiftUI views, view models, the app entry point and `Package.swift`: presentation, routing and build configuration.
- The HealthKit, motion, Spotify, storage and analytics services: these are protocols, random-driven mocks and a print sink.
  - Their results are parameters: the package's stored settings are a field, and the app's workout summary is an argument of `StopSession`.
  - Their errors and the `error`, `sessionEnded` and Spotify-connection events are not modelled.
- The asynchronous parts of both coordinators: observer registration, the watchdog `Task` loop and `Task.sleep`. One watchdog tick is `CheckSensorTimeout(now)`.
- `pushMetricsUpdate` and `notifyMetrics`: the delegate receives the live metrics, which are fields of the model.
- `lastTransitionDate` in the package engine: written but never read.
- Fade durations and wall-clock time. Both engines use one fade duration, so queued fade completions fire in the order they were scheduled.
- Weak references: `weak self` and a nil delegate are not modelled. Every callback reaches its target.
- Floating point: the model computes with exact integers and reals where Swift uses IEEE-754 `Double`. Percentages are whole percents and speeds, paces and means are exact reals, so results that Swift rounds or compares after a representation error can differ.
- LibHRZone.PercentOf: rounds the exact product `maxHR × percent / 100`, while Swift rounds the `Double` product. For 70 % the two differ at maxHR 45, 85, 165, 175, 325, 335, …: `165 × 0.70` is `115.49999999999999` in `Double`, so Swift gives 115 where the model gives 116, and `175 × 0.70` gives 122 where the model gives 123. The zone 2 upper bound and the zone 3 lower bound of those maximum heart rates are one beat higher in the model.
- AppModels.BpmRange: the same exact rounding as `LibHRZone.PercentOf`, with the same one-beat difference at maxHR 45, 85, 165, 175, 325, 335, … for the 70 % bounds.
- LibSessionCoordinator.PaceKmh: the mean speed and the `× 3.6` conversion are exact, so a pace that lies within a rounding error of the minimum pace can pass the effort gate in the model and fail it in Swift, or the reverse.
- AppModels.WorkoutSummary: the optional `distance` field is not modelled; the coordinator only passes the summary it receives from the health service back to its caller and reads none of its fields.
- AppSessionCoordinator.SessionCoordinator.constructor: the app coordinator creates its own audio engine instead of receiving a shared one, so an engine driven by someone else is not modelled.
- `PauseReason` in the app target declares no `Equatable` conformance, yet the engine's state compares values that carry it. The model compares reasons structurally.
- LibZoneDecisionEngine.Suffix: its contract states only the length; which elements the window holds is stated by `SuffixIsMostRecent`.
- LibHRZone.BpmRange: it requires ordered bounds, because Swift traps when building a range whose bounds are inverted.
- LibZoneDecisionEngine.Configuration: `requiredConsecutiveSamples` is a `nat`, so the trap that `samples.suffix(n)` raises for a negative count is not modelled.

## Findings

| source | as written | input that shows it | evidently intended | confidence | as-written member | corrected member |
|---|---|---|---|---|---|---|
| SpotRun/Core/AudioPolicyEngine.swift:89-98 | `fadeTask?.cancel()` does not stop the fade task: the sleep's cancellation error is discarded by `try?`, and the task still runs its transition | `requestPlay()` on a fresh engine, then `stopSession()` before the fade ends: the cancelled fade-in moves the stopped engine to `playing` | a cancelled fade task never runs its transition, so a stopped engine stays stopped | not executed | AppAudioPolicyEngine.CancelledFadeInRevivesStoppedEngine | AppAudioPolicyEngine.StopIsFinal |
| SpotRun/Core/AudioPolicyEngine.swift:100-109 | `beginFadeOut` cancels the fade-in task, but the cancelled task still runs its transition to `playing` at once | `requestPlay()` from `waitingForZone`, then `requestPause(reason: .zone)` before the fade-in ends: the callback hears `fadingIn`, `fadingOut`, `playing`, `paused` | the fade-out replaces the fade-in, so the callback hears `fadingIn`, `fadingOut`, `paused` | not executed | AppAudioPolicyEngine.CancelledFadeInInterruptsFadeOut | AppAudioPolicyEngine.FadeOutReplacesFadeIn |
| SpotRun/Core/SessionCoordinator.swift:98-121 | the sample handlers' tasks do not check `isRunning`, and `stopSession()` stops the engine before it suspends at `await healthService.endWorkoutSession()` | a steps sample queued before `stopSession()`, with the zone `inZone` and no minimum pace required: `evaluateSensors()` asks the stopped engine to play and it fades in while `isRunning` is false | a sample arriving after stop is dropped, so the engine stays stopped | not executed | AppSessionCoordinator.QueuedSampleRestartsStoppedEngine | AppSessionCoordinator.QueuedSamplesAfterStopAreDropped |
