/**
 * The app target's playback state machine (SpotRun/Core/AudioPolicyEngine.swift).
 * Here `fadingOut` carries its pause reason, a softer request never replaces
 * a harder fade in flight, and each new fade cancels the previous fade task.
 * The `onPlaybackChange` callback is recorded in `notifications`. At most one
 * fade task is live at a time (`fadeTask`); `CompleteFade` is that task
 * finishing its sleep and running its transition.
 */
module AppAudioPolicyEngine {
  import opened Wrappers
  import AppModels

  datatype Cause = UserPaused | ZoneExit | SensorLoss | PaceGate

  datatype PauseReason = PauseReason(cause: Cause, shouldPausePlayback: bool, volumeFloor: real)

  /** The five named reasons. */
  const User := PauseReason(UserPaused, true, 0.0)
  const Zone := PauseReason(ZoneExit, true, 0.0)
  const SensorSoft := PauseReason(SensorLoss, false, 0.2)
  const SensorHard := PauseReason(SensorLoss, true, 0.0)
  const Pace := PauseReason(PaceGate, true, 0.0)

  datatype State = Stopped | WaitingForZone | FadingIn | Playing | FadingOut(reason: PauseReason) | Paused

  /** What a fade task does once its sleep is over. */
  datatype FadeTask = FadeInTask | FadeOutTask(reason: PauseReason)

  datatype Machine = Machine(state: State, fadeTask: Option<FadeTask>, notifications: seq<AppModels.PlaybackState>)

  /** `notifyPlaybackChange`: the state reported to the callback. Waiting for
      the zone is reported as paused. */
  function PlaybackOf(s: State): (p: AppModels.PlaybackState)
    ensures p == AppModels.Paused <==> s == WaitingForZone || s == Paused
    ensures p == AppModels.Stopped <==> s == Stopped
    ensures p == AppModels.Playing <==> s == Playing
    ensures p == AppModels.FadingIn <==> s == FadingIn
    ensures p == AppModels.FadingOut <==> s.FadingOut?
  {
    match s
    case Stopped => AppModels.Stopped
    case WaitingForZone => AppModels.Paused
    case FadingIn => AppModels.FadingIn
    case Playing => AppModels.Playing
    case FadingOut(_) => AppModels.FadingOut
    case Paused => AppModels.Paused
  }

  /** The state a fade task moves to when it finishes. */
  function Target(task: FadeTask): (s: State)
    ensures task.FadeInTask? ==> s == Playing
    ensures task.FadeOutTask? && task.reason.shouldPausePlayback ==> s == Paused
    ensures task.FadeOutTask? && !task.reason.shouldPausePlayback ==> s == WaitingForZone
  {
    match task
    case FadeInTask => Playing
    case FadeOutTask(reason) => if reason.shouldPausePlayback then Paused else WaitingForZone
  }

  /** The live fade task that belongs to each state: only the two fading
      states have one. */
  function TaskFor(s: State): Option<FadeTask>
  {
    match s
    case FadingIn => Some(FadeInTask)
    case FadingOut(reason) => Some(FadeOutTask(reason))
    case _ => None
  }

  /** A fade task is live exactly while fading, and it carries the reason of
      the fade-out in flight; the last notification reports the current
      state, and before any notification the engine is stopped. */
  predicate Valid(m: Machine)
  {
    m.fadeTask == TaskFor(m.state) && Reported(m)
  }

  predicate Reported(m: Machine)
  {
    && (|m.notifications| == 0 ==> m.state == Stopped)
    && (|m.notifications| > 0 ==> m.notifications[|m.notifications| - 1] == PlaybackOf(m.state))
  }

  function Initial(): (m: Machine)
    ensures Valid(m) && m.state == Stopped && m.fadeTask == None && m.notifications == []
  {
    Machine(Stopped, None, [])
  }

  /** `transition(to:)` together with the `didSet` observer. */
  function AfterTransition(m: Machine, to: State): (r: Machine)
    ensures r.state == to && r.fadeTask == m.fadeTask
    ensures Reported(m) ==> Reported(r)
  {
    if m.state == to then m
    else m.(state := to, notifications := m.notifications + [PlaybackOf(to)])
  }

  function AfterFadeIn(m: Machine): (r: Machine)
    ensures Reported(m) ==> Valid(r)
    ensures r.state == FadingIn
  {
    AfterTransition(m, FadingIn).(fadeTask := Some(FadeInTask))
  }

  function AfterFadeOut(m: Machine, reason: PauseReason): (r: Machine)
    ensures Reported(m) ==> Valid(r)
    ensures r.state == FadingOut(reason)
  {
    AfterTransition(m, FadingOut(reason)).(fadeTask := Some(FadeOutTask(reason)))
  }

  function AfterStart(m: Machine): (r: Machine)
    ensures Valid(m) && m.state != FadingIn && !m.state.FadingOut? ==> Valid(r)
    ensures r.state == WaitingForZone
  {
    AfterTransition(m, WaitingForZone)
  }

  function AfterStop(m: Machine): (r: Machine)
    ensures Reported(m) ==> Valid(r)
    ensures r.state == Stopped && r.fadeTask == None
  {
    AfterTransition(m.(fadeTask := None), Stopped)
  }

  /** `requestPlay()`; the `stopped` case falls through after moving to
      `waitingForZone`. */
  function AfterPlay(m: Machine): (r: Machine)
    requires Valid(m)
    ensures Valid(r)
  {
    match m.state
    case Playing | FadingIn => m
    case Stopped => AfterFadeIn(AfterTransition(m, WaitingForZone))
    case WaitingForZone | Paused | FadingOut(_) => AfterFadeIn(m)
  }

  /** `requestPause(reason:)`. */
  function AfterPause(m: Machine, reason: PauseReason): (r: Machine)
    requires Valid(m)
    ensures Valid(r)
  {
    match m.state
    case Paused => if reason.shouldPausePlayback then m else AfterFadeOut(m, reason)
    case Stopped => m
    case WaitingForZone => if reason.shouldPausePlayback then AfterTransition(m, Paused) else m
    case FadingOut(existing) =>
      if !reason.shouldPausePlayback && existing.shouldPausePlayback then m else AfterFadeOut(m, reason)
    case FadingIn | Playing => AfterFadeOut(m, reason)
  }

  /** The live fade task finishes and runs its transition; with no live task
      nothing happens. */
  function AfterFadeDone(m: Machine): (r: Machine)
    requires Valid(m)
    ensures Valid(r) && r.fadeTask == None
  {
    match m.fadeTask
    case None => m
    case Some(task) => AfterTransition(m.(fadeTask := None), Target(task))
  }

  class AudioPolicyEngine {
    var state: State
    var fadeTask: Option<FadeTask>
    var notifications: seq<AppModels.PlaybackState>

    function Snapshot(): Machine
      reads this
    {
      Machine(state, fadeTask, notifications)
    }

    constructor ()
      ensures Snapshot() == Initial()
    {
      state := Stopped;
      fadeTask := None;
      notifications := [];
    }

    /** Assigning `state`, whose `didSet` notifies on a real change. */
    method SetState(newState: State)
      modifies this
      ensures Snapshot() == AfterTransition(old(Snapshot()), newState)
    {
      var oldValue := state;
      state := newState;
      if state != oldValue {
        notifications := notifications + [PlaybackOf(state)];
      }
    }

    method Transition(newState: State)
      modifies this
      ensures Snapshot() == AfterTransition(old(Snapshot()), newState)
    {
      if state == newState {
        return;
      }
      SetState(newState);
    }

    method StartSession()
      modifies this
      ensures Snapshot() == AfterStart(old(Snapshot()))
    {
      Transition(WaitingForZone);
    }

    method StopSession()
      modifies this
      ensures Snapshot() == AfterStop(old(Snapshot()))
    {
      fadeTask := None;
      Transition(Stopped);
    }

    method BeginFadeIn()
      modifies this
      ensures Snapshot() == AfterFadeIn(old(Snapshot()))
    {
      fadeTask := None;
      Transition(FadingIn);
      fadeTask := Some(FadeInTask);
    }

    method BeginFadeOut(reason: PauseReason)
      modifies this
      ensures Snapshot() == AfterFadeOut(old(Snapshot()), reason)
    {
      fadeTask := None;
      Transition(FadingOut(reason));
      fadeTask := Some(FadeOutTask(reason));
    }

    method RequestPlay()
      requires Valid(Snapshot())
      modifies this
      ensures Snapshot() == AfterPlay(old(Snapshot()))
    {
      match state
      case Playing | FadingIn =>
      case Stopped =>
        Transition(WaitingForZone);
        BeginFadeIn();
      case WaitingForZone | Paused | FadingOut(_) =>
        BeginFadeIn();
    }

    method RequestPause(reason: PauseReason)
      requires Valid(Snapshot())
      modifies this
      ensures Snapshot() == AfterPause(old(Snapshot()), reason)
    {
      match state
      case Paused =>
        if !reason.shouldPausePlayback {
          BeginFadeOut(reason);
        }
      case Stopped =>
      case WaitingForZone =>
        if reason.shouldPausePlayback {
          Transition(Paused);
        }
      case FadingOut(existing) =>
        if !(!reason.shouldPausePlayback && existing.shouldPausePlayback) {
          BeginFadeOut(reason);
        }
      case FadingIn | Playing =>
        BeginFadeOut(reason);
    }

    /** The live fade task wakes up and runs its transition on the main actor. */
    method CompleteFade()
      requires Valid(Snapshot())
      modifies this
      ensures Snapshot() == AfterFadeDone(old(Snapshot()))
    {
      match fadeTask
      case None =>
      case Some(task) =>
        fadeTask := None;
        Transition(Target(task));
    }
  }

  /** `requestPlay` in `playing` or `fadingIn` is a no-op, so requesting play
      twice is the same as requesting it once. */
  lemma PlayIsIdempotent(m: Machine)
    requires Valid(m)
    ensures (m.state == Playing || m.state == FadingIn) ==> AfterPlay(m) == m
    ensures AfterPlay(AfterPlay(m)) == AfterPlay(m)
  {
  }

  /** From `stopped`, `requestPlay` passes through `waitingForZone` (reported
      as paused) and then `fadingIn`; the fade completion reaches `playing`. */
  lemma PlayFromStopped(m: Machine)
    requires Valid(m) && m.state == Stopped
    ensures AfterPlay(m).state == FadingIn
    ensures AfterPlay(m).notifications == m.notifications + [AppModels.Paused, AppModels.FadingIn]
    ensures AfterFadeDone(AfterPlay(m)).state == Playing
  {
  }

  /** From `waitingForZone`, `paused` or any `fadingOut`, `requestPlay` fades
      in, and the fade completion reaches `playing`. */
  lemma PlayThenFadeDone(m: Machine)
    requires Valid(m) && (m.state == WaitingForZone || m.state == Paused || m.state.FadingOut?)
    ensures AfterPlay(m).state == FadingIn
    ensures AfterPlay(m).notifications == m.notifications + [AppModels.FadingIn]
    ensures AfterFadeDone(AfterPlay(m)).state == Playing
    ensures AfterFadeDone(AfterPlay(m)).notifications
              == m.notifications + [AppModels.FadingIn, AppModels.Playing]
  {
  }

  /** While waiting for the zone, only a hard reason pauses; a soft one
      leaves everything unchanged. */
  lemma PauseWhileWaiting(m: Machine, reason: PauseReason)
    requires Valid(m) && m.state == WaitingForZone
    ensures reason.shouldPausePlayback ==> AfterPause(m, reason).state == Paused
    ensures reason.shouldPausePlayback ==> AfterPause(m, reason).fadeTask == None
    ensures !reason.shouldPausePlayback ==> AfterPause(m, reason) == m
  {
  }

  /** A soft request never replaces a hard fade-out in flight; any other
      request while fading out restarts the fade with the new reason. */
  lemma SoftNeverOverridesHard(m: Machine, reason: PauseReason)
    requires Valid(m) && m.state.FadingOut?
    ensures m.state.reason.shouldPausePlayback && !reason.shouldPausePlayback ==> AfterPause(m, reason) == m
    ensures !(m.state.reason.shouldPausePlayback && !reason.shouldPausePlayback) ==>
              AfterPause(m, reason).state == FadingOut(reason)
              && AfterPause(m, reason).fadeTask == Some(FadeOutTask(reason))
  {
  }

  /** A hard request while paused and any request while stopped do nothing;
      from `playing`, `fadingIn`, or `paused` with a soft reason, the
      fade-out starts carrying the new reason. */
  lemma PauseNoOpsAndFadeOuts(m: Machine, reason: PauseReason)
    requires Valid(m)
    ensures m.state == Paused && reason.shouldPausePlayback ==> AfterPause(m, reason) == m
    ensures m.state == Stopped ==> AfterPause(m, reason) == m
    ensures (m.state == Playing || m.state == FadingIn || (m.state == Paused && !reason.shouldPausePlayback)) ==>
              AfterPause(m, reason).state == FadingOut(reason)
              && AfterPause(m, reason).fadeTask == Some(FadeOutTask(reason))
  {
  }

  /** A fade-out completes in `paused` when its reason is hard and in
      `waitingForZone` when it is soft. */
  lemma FadeOutLandsByReason(m: Machine, reason: PauseReason)
    requires Valid(m) && (m.state == Playing || m.state == FadingIn)
    ensures AfterFadeDone(AfterPause(m, reason)).state
              == (if reason.shouldPausePlayback then Paused else WaitingForZone)
  {
  }

  /** `stopSession` always ends in `stopped`, and no fade can move the engine
      out of it afterwards. */
  lemma StopIsFinal(m: Machine)
    requires Valid(m)
    ensures AfterStop(m).state == Stopped
    ensures AfterFadeDone(AfterStop(m)) == AfterStop(m)
  {
  }

  /** The callback fires only on a real state change: every operation either
      leaves the log alone with the state unchanged, or appends exactly the
      new state's report. */
  lemma {:induction false} NotificationsTrackChanges(m: Machine, reason: PauseReason)
    requires Valid(m)
    ensures AfterPlay(m).state == m.state ==> AfterPlay(m).notifications == m.notifications
    ensures AfterPause(m, reason).state == m.state ==> AfterPause(m, reason).notifications == m.notifications
    ensures AfterFadeDone(m).state == m.state ==> AfterFadeDone(m).notifications == m.notifications
    ensures AfterStop(m).state == m.state ==> AfterStop(m).notifications == m.notifications
  {
  }

  /** The callback log only ever grows: every operation keeps the earlier
      reports as a prefix. */
  lemma NotificationsOnlyGrow(m: Machine, reason: PauseReason)
    requires Valid(m)
    ensures m.notifications <= AfterPlay(m).notifications
    ensures m.notifications <= AfterPause(m, reason).notifications
    ensures m.notifications <= AfterFadeDone(m).notifications
    ensures m.notifications <= AfterStart(m).notifications
    ensures m.notifications <= AfterStop(m).notifications
  {
  }

  /** A play request always ends fading in or playing, even from `stopped`,
      and a pause request never leaves the music audible. Outside `stopped`,
      neither request nor a finishing fade stops the engine; in `stopped`, a
      pause request leaves it stopped. */
  lemma RequestOutcomes(m: Machine, reason: PauseReason)
    requires Valid(m)
    ensures AfterPlay(m).state == FadingIn || AfterPlay(m).state == Playing
    ensures AfterPause(m, reason).state != FadingIn && AfterPause(m, reason).state != Playing
    ensures m.state != Stopped ==> AfterPause(m, reason).state != Stopped
    ensures m.state != Stopped ==> AfterFadeDone(m).state != Stopped
    ensures m.state == Stopped ==> AfterPause(m, reason).state == Stopped
  {
  }

  /** A fade-in that replaces a fade-in in flight never reaches the
      callback as `playing`: the engine reports the fade-out and then the
      state the fade-out lands in. */
  lemma FadeOutReplacesFadeIn(m: Machine, reason: PauseReason)
    requires Valid(m) && m.state == FadingIn
    ensures AfterPause(m, reason).fadeTask == Some(FadeOutTask(reason))
    ensures AfterFadeDone(AfterPause(m, reason)).notifications
              == m.notifications + [AppModels.FadingOut, PlaybackOf(Target(FadeOutTask(reason)))]
  {
  }

  /** The engine as written. `fadeTask?.cancel()` does not stop a task: the
      sleep in the task throws on cancellation, `try?` discards the error,
      and the task goes on to run its transition at once. `cancelled` holds
      those tasks, oldest first; `machine` is the engine itself, whose
      `fadeTask` is the task it last started and has not yet seen finish. */
  datatype Written = Written(machine: Machine, cancelled: seq<FadeTask>)

  /** The live task, as a sequence of at most one task. */
  function Live(m: Machine): seq<FadeTask>
  {
    match m.fadeTask
    case None => []
    case Some(task) => [task]
  }

  /** Whether `requestPlay()` reaches `beginFadeIn()`. */
  predicate PlayBeginsFade(s: State)
  {
    s != Playing && s != FadingIn
  }

  /** Whether `requestPause(reason:)` reaches `beginFadeOut(reason:)`. */
  predicate PauseBeginsFade(s: State, reason: PauseReason)
  {
    match s
    case Paused => !reason.shouldPausePlayback
    case Stopped | WaitingForZone => false
    case FadingOut(existing) => !(!reason.shouldPausePlayback && existing.shouldPausePlayback)
    case FadingIn | Playing => true
  }

  /** `requestPlay()` as written: when a fade-in begins, the live task is
      cancelled and so joins the tasks still to run. The engine itself
      moves exactly as in `AfterPlay`. */
  function WrittenPlay(w: Written): (r: Written)
    requires Valid(w.machine)
    ensures r.machine == AfterPlay(w.machine)
    ensures PlayBeginsFade(w.machine.state) ==> r.cancelled == w.cancelled + Live(w.machine)
    ensures !PlayBeginsFade(w.machine.state) ==> r == w
  {
    var m := w.machine;
    match m.state
    case Playing | FadingIn => w
    case Stopped => Written(AfterFadeIn(AfterTransition(m, WaitingForZone)), w.cancelled + Live(m))
    case WaitingForZone | Paused | FadingOut(_) => Written(AfterFadeIn(m), w.cancelled + Live(m))
  }

  /** `requestPause(reason:)` as written: when a fade-out begins, the live
      task joins the tasks still to run. The engine itself moves exactly as
      in `AfterPause`. */
  function WrittenPause(w: Written, reason: PauseReason): (r: Written)
    requires Valid(w.machine)
    ensures r.machine == AfterPause(w.machine, reason)
    ensures PauseBeginsFade(w.machine.state, reason) ==> r.cancelled == w.cancelled + Live(w.machine)
    ensures !PauseBeginsFade(w.machine.state, reason) ==> r.cancelled == w.cancelled
  {
    var m := w.machine;
    if PauseBeginsFade(m.state, reason) then Written(AfterFadeOut(m, reason), w.cancelled + Live(m))
    else Written(AfterPause(m, reason), w.cancelled)
  }

  /** `stopSession()` as written: the live task joins the tasks still to run. */
  function WrittenStop(w: Written): (r: Written)
    ensures r.machine == AfterStop(w.machine)
    ensures r.cancelled == w.cancelled + Live(w.machine)
  {
    Written(AfterStop(w.machine), w.cancelled + Live(w.machine))
  }

  /** The oldest cancelled task runs its transition. It is no longer the
      engine's task, so `fadeTask` is left as it is. */
  function WrittenCancelledRuns(w: Written): (r: Written)
    requires |w.cancelled| > 0
    ensures r.machine.state == Target(w.cancelled[0]) && r.machine.fadeTask == w.machine.fadeTask
    ensures r.cancelled == w.cancelled[1..]
  {
    Written(AfterTransition(w.machine, Target(w.cancelled[0])), w.cancelled[1..])
  }

  /** The live task finishes its sleep and runs its transition. On an engine
      whose task belongs to its state, this is `AfterFadeDone`. */
  function WrittenLiveRuns(w: Written): (r: Written)
    requires w.machine.fadeTask.Some?
    ensures r.machine.state == Target(w.machine.fadeTask.value) && r.machine.fadeTask == None
    ensures Valid(w.machine) ==> r.machine == AfterFadeDone(w.machine)
    ensures r.cancelled == w.cancelled
  {
    Written(AfterTransition(w.machine.(fadeTask := None), Target(w.machine.fadeTask.value)), w.cancelled)
  }

  /** As written, stopping the session while a fade is in flight never
      sticks: the cancelled fade task runs and moves the stopped engine to
      `playing`, `paused` or `waitingForZone`, and the callback hears of it
      after `stopped`. */
  lemma StopWhileFadingIsUndone(m: Machine)
    requires Valid(m) && (m.state == FadingIn || m.state.FadingOut?)
    ensures WrittenStop(Written(m, [])).machine.state == Stopped
    ensures WrittenStop(Written(m, [])).cancelled == [m.fadeTask.value]
    ensures WrittenCancelledRuns(WrittenStop(Written(m, []))).machine.state != Stopped
    ensures WrittenCancelledRuns(WrittenStop(Written(m, []))).cancelled == []
    ensures WrittenCancelledRuns(WrittenStop(Written(m, []))).machine.notifications
              == AfterStop(m).notifications + [PlaybackOf(Target(m.fadeTask.value))]
  {
  }

  /** Requesting play from a fresh engine and stopping the session: the
      cancelled fade-in task still runs and the stopped engine starts
      playing, while the intended cancel-and-replace keeps it stopped. */
  lemma CancelledFadeInRevivesStoppedEngine()
    ensures WrittenPlay(Written(Initial(), [])).machine.fadeTask == Some(FadeInTask)
    ensures WrittenStop(WrittenPlay(Written(Initial(), []))).machine.state == Stopped
    ensures WrittenStop(WrittenPlay(Written(Initial(), []))).cancelled == [FadeInTask]
    ensures WrittenCancelledRuns(WrittenStop(WrittenPlay(Written(Initial(), [])))).machine.state == Playing
    ensures WrittenCancelledRuns(WrittenStop(WrittenPlay(Written(Initial(), [])))).machine.notifications
              == [AppModels.Paused, AppModels.FadingIn, AppModels.Stopped, AppModels.Playing]
    ensures AfterFadeDone(AfterStop(AfterPlay(Initial()))).state == Stopped
  {
  }

  /** As written, a pause that interrupts a fade-in lets the music back in:
      the cancelled fade-in runs first and reports `playing` in the middle of
      the fade-out, and only the fade-out's own task then moves the engine
      on. The intended engine reports the fade-out and its landing state
      only (`FadeOutReplacesFadeIn`). */
  lemma CancelledFadeInInterruptsFadeOut(m: Machine, reason: PauseReason)
    requires Valid(m) && m.state == FadingIn
    ensures WrittenPause(Written(m, []), reason).cancelled == [FadeInTask]
    ensures WrittenPause(Written(m, []), reason).machine.fadeTask == Some(FadeOutTask(reason))
    ensures WrittenCancelledRuns(WrittenPause(Written(m, []), reason)).machine.state == Playing
    ensures !Valid(WrittenCancelledRuns(WrittenPause(Written(m, []), reason)).machine)
    ensures WrittenLiveRuns(WrittenCancelledRuns(WrittenPause(Written(m, []), reason))).machine.notifications
              == m.notifications + [AppModels.FadingOut, AppModels.Playing, PlaybackOf(Target(FadeOutTask(reason)))]
  {
    var w := WrittenPause(Written(m, []), reason);
    assert w == Written(AfterFadeOut(m, reason), [FadeInTask]);
    var c := WrittenCancelledRuns(w);
    assert c.machine == w.machine.(state := Playing, notifications := m.notifications + [AppModels.FadingOut, AppModels.Playing]);
  }
}
