/**
 * The playback state machine of the SpotRunCore package
 * (Engines/AudioPolicyEngine.swift). The delegate's two callbacks are
 * recorded in `actions` and `transitions`; each fade completion scheduled on
 * the main queue becomes an entry of `pending`, fired in scheduling order by
 * `FireNextCompletion`. Nothing ever removes a scheduled completion.
 */
module LibAudioPolicyEngine {

  datatype AudioAction = Play | Pause | FadeTo(level: real) | Stop

  datatype AudioEngineState = Stopped | WaitingForZone | Playing | FadingOut | FadingIn | Paused

  datatype Cause = OutOfZone | PaceRequirementFailed | SensorLost | UserPaused

  /** The floor defaults to silence. */
  datatype PauseReason = PauseReason(cause: Cause, shouldPausePlayback: bool, volumeFloor: real := 0.0)

  /** `didTransitionFrom:to:` as handed to the delegate. */
  datatype Transitioned = Transitioned(from: AudioEngineState, to: AudioEngineState)

  /** A fade completion waiting on the main queue. */
  datatype Completion = FadeInDone | FadeOutDone(reason: PauseReason)

  /** Everything the engine has done so far, as a value. */
  datatype Machine = Machine(
    state: AudioEngineState,
    pending: seq<Completion>,
    actions: seq<AudioAction>,
    transitions: seq<Transitioned>)

  /** The transition log is a chain of real changes ending in the current
      state, and `stop` is never emitted. */
  predicate Valid(m: Machine)
  {
    && (forall i :: 0 <= i < |m.transitions| ==> m.transitions[i].from != m.transitions[i].to)
    && (forall i :: 0 < i < |m.transitions| ==> m.transitions[i - 1].to == m.transitions[i].from)
    && (|m.transitions| > 0 ==> m.transitions[|m.transitions| - 1].to == m.state)
    && Stop !in m.actions
  }

  /** A fresh engine in `state` with nothing scheduled or reported. */
  function Initial(state: AudioEngineState): (m: Machine)
    ensures Valid(m) && m.state == state
    ensures m.pending == [] && m.actions == [] && m.transitions == []
  {
    Machine(state, [], [], [])
  }

  /** `transition(to:)`. */
  function AfterTransition(m: Machine, to: AudioEngineState): (r: Machine)
    ensures Valid(m) ==> Valid(r)
  {
    if m.state == to then m
    else m.(state := to, transitions := m.transitions + [Transitioned(m.state, to)])
  }

  function AfterReset(m: Machine): (r: Machine)
    ensures Valid(m) ==> Valid(r)
  {
    AfterTransition(m, Stopped)
  }

  function AfterStart(m: Machine): (r: Machine)
    ensures Valid(m) ==> Valid(r)
  {
    AfterTransition(m, WaitingForZone)
  }

  /** The shared body of `requestPlay` for the states that fade in. */
  function AfterFadeIn(m: Machine): (r: Machine)
    ensures Valid(m) ==> Valid(r)
  {
    var f := AfterTransition(m, FadingIn);
    f.(actions := f.actions + [FadeTo(1.0)], pending := f.pending + [FadeInDone])
  }

  /** `requestPlay()`. */
  function AfterPlay(m: Machine): (r: Machine)
    ensures Valid(m) ==> Valid(r)
  {
    match m.state
    case Playing | FadingIn => m
    case WaitingForZone | Paused | FadingOut => AfterFadeIn(m)
    case Stopped => AfterFadeIn(AfterStart(m))
  }

  /** `requestPause(reason:)`. */
  function AfterPause(m: Machine, reason: PauseReason): (r: Machine)
    ensures Valid(m) ==> Valid(r)
  {
    match m.state
    case Playing | FadingIn =>
      var f := AfterTransition(m, FadingOut);
      f.(actions := f.actions + [FadeTo(reason.volumeFloor)], pending := f.pending + [FadeOutDone(reason)])
    case Paused | FadingOut | Stopped => m
    case WaitingForZone => AfterTransition(m, Paused)
  }

  /** The oldest scheduled closure runs: it sets its target state whatever
      happened since it was scheduled, then emits its action. */
  function AfterCompletion(m: Machine): (r: Machine)
    requires |m.pending| > 0
    ensures Valid(m) ==> Valid(r)
    ensures |r.pending| == |m.pending| - 1
  {
    var rest := m.(pending := m.pending[1..]);
    match m.pending[0]
    case FadeInDone =>
      var f := AfterTransition(rest, Playing);
      f.(actions := f.actions + [Play])
    case FadeOutDone(reason) =>
      var f := AfterTransition(rest, Paused);
      f.(actions := f.actions + (if reason.shouldPausePlayback then [Pause] else []))
  }

  class AudioPolicyEngine {
    var state: AudioEngineState
    var pending: seq<Completion>
    var actions: seq<AudioAction>
    var transitions: seq<Transitioned>

    function Snapshot(): Machine
      reads this
    {
      Machine(state, pending, actions, transitions)
    }

    constructor (state: AudioEngineState := Stopped)
      ensures Snapshot() == Initial(state)
    {
      this.state := state;
      pending := [];
      actions := [];
      transitions := [];
    }

    method Transition(newState: AudioEngineState)
      modifies this
      ensures Snapshot() == AfterTransition(old(Snapshot()), newState)
    {
      if state == newState {
        return;
      }
      var oldState := state;
      state := newState;
      transitions := transitions + [Transitioned(oldState, newState)];
    }

    method Reset()
      modifies this
      ensures Snapshot() == AfterReset(old(Snapshot()))
    {
      Transition(Stopped);
    }

    method StartSession()
      modifies this
      ensures Snapshot() == AfterStart(old(Snapshot()))
    {
      Transition(WaitingForZone);
    }

    method RequestPlay()
      modifies this
      decreases if state == Stopped then 1 else 0
      ensures Snapshot() == AfterPlay(old(Snapshot()))
    {
      match state
      case Playing | FadingIn =>
      case WaitingForZone | Paused | FadingOut =>
        Transition(FadingIn);
        actions := actions + [FadeTo(1.0)];
        pending := pending + [FadeInDone];
      case Stopped =>
        StartSession();
        RequestPlay();
    }

    method RequestPause(reason: PauseReason)
      modifies this
      ensures Snapshot() == AfterPause(old(Snapshot()), reason)
    {
      match state
      case Playing | FadingIn =>
        Transition(FadingOut);
        actions := actions + [FadeTo(reason.volumeFloor)];
        pending := pending + [FadeOutDone(reason)];
      case Paused | FadingOut | Stopped =>
      case WaitingForZone =>
        Transition(Paused);
    }

    /** The main queue runs the oldest scheduled fade closure. */
    method FireNextCompletion()
      requires |pending| > 0
      modifies this
      ensures Snapshot() == AfterCompletion(old(Snapshot()))
    {
      var completion := pending[0];
      pending := pending[1..];
      match completion
      case FadeInDone =>
        Transition(Playing);
        actions := actions + [Play];
      case FadeOutDone(reason) =>
        Transition(Paused);
        if reason.shouldPausePlayback {
          actions := actions + [Pause];
        }
    }
  }

  /** Transitioning to the current state changes nothing; any other target
      is reported once, as a pair of distinct states. */
  lemma TransitionReportsChanges(m: Machine, to: AudioEngineState)
    ensures AfterTransition(m, to).state == to
    ensures m.state == to ==> AfterTransition(m, to) == m
    ensures m.state != to ==>
              AfterTransition(m, to).transitions == m.transitions + [Transitioned(m.state, to)]
              && m.state != to
  {
  }

  /** `reset` always ends in `stopped` and `startSession` in `waitingForZone`,
      with no action and no completion scheduled. */
  lemma ResetAndStart(m: Machine)
    ensures AfterReset(m).state == Stopped && AfterStart(m).state == WaitingForZone
    ensures AfterReset(m).actions == m.actions && AfterStart(m).actions == m.actions
    ensures AfterReset(m).pending == m.pending && AfterStart(m).pending == m.pending
  {
  }

  /** `requestPlay` while playing or fading in does nothing at all. */
  lemma PlayWhilePlayingIsNoOp(m: Machine)
    requires m.state == Playing || m.state == FadingIn
    ensures AfterPlay(m) == m
  {
  }

  /** From `waitingForZone`, `paused` or `fadingOut`, `requestPlay` reports one
      transition to `fadingIn`, emits `fadeTo(1.0)` once and schedules one
      completion; when that completion fires the engine is `playing` and
      `play` has been emitted once. */
  lemma PlayFadesInThenPlays(m: Machine)
    requires m.state in {WaitingForZone, Paused, FadingOut} && m.pending == []
    ensures AfterPlay(m).state == FadingIn
    ensures AfterPlay(m).transitions == m.transitions + [Transitioned(m.state, FadingIn)]
    ensures AfterPlay(m).actions == m.actions + [FadeTo(1.0)]
    ensures AfterPlay(m).pending == [FadeInDone]
    ensures AfterCompletion(AfterPlay(m)).state == Playing
    ensures AfterCompletion(AfterPlay(m)).actions == m.actions + [FadeTo(1.0), Play]
    ensures AfterCompletion(AfterPlay(m)).transitions
              == m.transitions + [Transitioned(m.state, FadingIn), Transitioned(FadingIn, Playing)]
  {
  }

  /** From `stopped`, `requestPlay` passes through `waitingForZone`: two
      transitions are reported. */
  lemma PlayFromStoppedPassesThroughWaiting(m: Machine)
    requires m.state == Stopped
    ensures AfterPlay(m).state == FadingIn
    ensures AfterPlay(m).transitions
              == m.transitions + [Transitioned(Stopped, WaitingForZone), Transitioned(WaitingForZone, FadingIn)]
    ensures AfterPlay(m).actions == m.actions + [FadeTo(1.0)]
    ensures AfterPlay(m).pending == m.pending + [FadeInDone]
  {
  }

  /** While playing or fading in, `requestPause(r)` fades to `r.volumeFloor`;
      its completion lands in `paused` and emits `pause` exactly when
      `r.shouldPausePlayback`. */
  lemma PauseFadesOutThenPauses(m: Machine, reason: PauseReason)
    requires (m.state == Playing || m.state == FadingIn) && m.pending == []
    ensures AfterPause(m, reason).state == FadingOut
    ensures AfterPause(m, reason).actions == m.actions + [FadeTo(reason.volumeFloor)]
    ensures AfterPause(m, reason).pending == [FadeOutDone(reason)]
    ensures AfterCompletion(AfterPause(m, reason)).state == Paused
    ensures reason.shouldPausePlayback ==>
              AfterCompletion(AfterPause(m, reason)).actions == m.actions + [FadeTo(reason.volumeFloor), Pause]
    ensures !reason.shouldPausePlayback ==>
              AfterCompletion(AfterPause(m, reason)).actions == m.actions + [FadeTo(reason.volumeFloor)]
  {
  }

  /** `requestPause` does nothing in `paused`, `fadingOut` or `stopped`; in
      `waitingForZone` it goes straight to `paused`, whatever the reason,
      emitting nothing and scheduling nothing. */
  lemma PauseOutsidePlayback(m: Machine, reason: PauseReason)
    requires m.state !in {Playing, FadingIn}
    ensures m.state != WaitingForZone ==> AfterPause(m, reason) == m
    ensures m.state == WaitingForZone ==>
              AfterPause(m, reason).state == Paused
              && AfterPause(m, reason).actions == m.actions
              && AfterPause(m, reason).pending == m.pending
              && AfterPause(m, reason).transitions == m.transitions + [Transitioned(WaitingForZone, Paused)]
  {
  }

  /** Completions are never invalidated: a fade-out scheduled before a later
      `requestPlay` still fires first and leaves the engine `paused`, and a
      fade-in scheduled before `reset` brings a stopped engine back to
      `playing`. */
  lemma StaleCompletionsStillFire(m: Machine, reason: PauseReason)
    requires m.state == Playing && m.pending == []
    ensures AfterPlay(AfterPause(m, reason)).pending == [FadeOutDone(reason), FadeInDone]
    ensures AfterCompletion(AfterPlay(AfterPause(m, reason))).state == Paused
    ensures AfterCompletion(AfterReset(AfterPlay(AfterPause(m, reason)))).state == Paused
    ensures AfterPlay(AfterReset(m)).pending == [FadeInDone]
    ensures AfterCompletion(AfterReset(AfterPlay(AfterReset(m)))).state == Playing
  {
  }
}
