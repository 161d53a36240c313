/**
  The playback state machine of `Player` (Recordings/Player.swift) on values.

  A `Session` is everything a Player object holds or observes: what it reads of
  the system audio player, its `state`, whether its repeating progress timer is
  live, and the sequence of states it has handed to its `update` callback. Each
  operation of the Player is a function from the old session to the new one;
  the class `AudioPlayer.Player` is proved to follow these functions, and the
  lemmas below state what the source promises about them.
*/
module Playback {
  import opened Optional

  /** Player.PlaybackState */
  datatype PlaybackState = Playing | Paused | Stopped

  /** Player.State. Times are TimeInterval values that the player only copies,
      so `real` stands for them. */
  datatype State = NotLoaded | Loaded(playback: PlaybackState, duration: real, progress: real)

  /** What the Player reads of the system audio player (AVAudioPlayer). */
  datatype Engine = Engine(duration: real, currentTime: real, isPlaying: bool)

  /** One Player: `engine` is None while `audioPlayer` is nil, `ticking` says
      that a scheduled progress timer is live, and `emitted` lists, in order,
      the arguments of every call of `update`. */
  datatype Session = Session(engine: Option<Engine>, state: State, ticking: bool, emitted: seq<State>)

  /** A state that a session with this engine can have reported. */
  predicate Consistent(engine: Option<Engine>, st: State)
  {
    match st
    case NotLoaded => engine.None?
    case Loaded(_, d, _) => engine.Some? && d == engine.value.duration
  }

  /** What holds of every session a Player can be in: loaded exactly when it
      has an engine, a live timer only while playing, the observer has last
      been told the current state, and every state ever reported carries the
      engine's fixed duration (and none is NotLoaded once an engine exists). */
  ghost predicate Inv(s: Session)
  {
    && (s.state.Loaded? <==> s.engine.Some?)
    && (s.ticking ==> s.state.Loaded? && s.state.playback == Playing)
    && s.emitted != []
    && s.emitted[|s.emitted| - 1] == s.state
    && (forall st :: st in s.emitted ==> Consistent(s.engine, st))
  }

  /** Player.notify: rebuild the state from the engine and hand it to `update`.
      The new state is the given phase, consistent with the engine, and it is
      the one state reported; engine and timer are untouched. */
  function Notify(s: Session, p: PlaybackState): (r: Session)
    requires s.engine.Some?
    ensures r.state.Loaded? && r.state.playback == p && Consistent(r.engine, r.state)
    ensures r.state.progress == s.engine.value.currentTime
    ensures r.engine == s.engine && r.ticking == s.ticking
    ensures r.emitted == s.emitted + [r.state]
  {
    var st := Loaded(p, s.engine.value.duration, s.engine.value.currentTime);
    s.(state := st, emitted := s.emitted + [st])
  }

  /** Player.init: `sessionActivated` is whether the audio session could be set
      up, `file` the audio player the file opened into (None on failure).
      Opening either fails into NotLoaded, or lands in Loaded(.stopped, …)
      with the engine's duration and position; either way `update` has been
      called exactly once, with the resulting state, and no timer exists. */
  function Open(sessionActivated: bool, file: Option<Engine>): (r: Session)
    ensures Inv(r) && !r.ticking && r.emitted == [r.state]
    ensures if sessionActivated && file.Some? then
        r.engine == file && r.state == Loaded(Stopped, file.value.duration, file.value.currentTime)
      else
        r.engine.None? && r.state == NotLoaded
  {
    if !sessionActivated || file.None? then
      Session(None, NotLoaded, false, [NotLoaded])
    else
      Notify(Session(file, NotLoaded, false, []), Stopped)
  }

  /** Player.togglePlay: branches on the engine, not on `state`. Pressing
      play on a playing engine pauses it, kills the timer and reports Paused
      at the position it stopped at; otherwise it starts the engine and the
      timer and reports Playing. */
  function TogglePlay(s: Session): (r: Session)
    requires s.engine.Some?
    ensures var e := s.engine.value;
      && r.emitted == s.emitted + [r.state]
      && r.engine.Some? && r.engine.value.isPlaying == !e.isPlaying
      && r.engine.value.duration == e.duration && r.engine.value.currentTime == e.currentTime
      && r.ticking == !e.isPlaying
      && r.state == Loaded(if e.isPlaying then Paused else Playing, e.duration, e.currentTime)
  {
    var e := s.engine.value;
    if e.isPlaying then
      Notify(s.(engine := Some(e.(isPlaying := false)), ticking := false), Paused)
    else
      Notify(s.(engine := Some(e.(isPlaying := true)), ticking := true), Playing)
  }

  /** Player.setProgress: the engine moves to `time`; a loaded session
      re-reports its phase there, an unloaded one reports nothing. */
  function SetProgress(s: Session, time: real): (r: Session)
    requires s.engine.Some?
    ensures r.engine == Some(s.engine.value.(currentTime := time)) && r.ticking == s.ticking
    ensures s.state.Loaded? ==>
      && r.state == Loaded(s.state.playback, s.engine.value.duration, time)
      && r.emitted == s.emitted + [r.state]
    ensures s.state.NotLoaded? ==> r.state == s.state && r.emitted == s.emitted
  {
    var moved := s.(engine := Some(s.engine.value.(currentTime := time)));
    if s.state.Loaded? then Notify(moved, s.state.playback) else moved
  }

  /** Player.audioPlayerDidFinishPlaying. The audio player calls its
      delegate only once it has stopped at the end of the item. */
  function DidFinishPlaying(s: Session): (r: Session)
    requires s.engine.Some? && !s.engine.value.isPlaying
    ensures r.state == Loaded(Stopped, s.engine.value.duration, s.engine.value.currentTime)
    ensures !r.ticking && r.engine == s.engine
    ensures r.emitted == s.emitted + [r.state]
  {
    Notify(s.(ticking := false), Stopped)
  }

  /** One firing of the live repeating timer: `notify(.playing)`. It reports
      Playing with the engine's position, or nothing when no timer is live,
      and changes neither the engine nor the timer. */
  function Tick(s: Session): (r: Session)
    requires s.ticking ==> s.engine.Some?
    ensures r.engine == s.engine && r.ticking == s.ticking
    ensures if s.ticking then
        r.emitted == s.emitted + [Loaded(Playing, s.engine.value.duration, s.engine.value.currentTime)]
      else
        r == s
  {
    if s.ticking then Notify(s, Playing) else s
  }

  /** Player.deinit: the timer is invalidated, nothing is reported. */
  function Deinit(s: Session): (r: Session)
    ensures !r.ticking
    ensures r.engine == s.engine && r.state == s.state && r.emitted == s.emitted
  {
    s.(ticking := false)
  }

  /** The operating system moves the audio player on its own: its position
      advances, and it stops at the end of the item or on an interruption. */
  function MoveEngine(s: Session, time: real, playing: bool): (r: Session)
    ensures r.state == s.state && r.ticking == s.ticking && r.emitted == s.emitted
    ensures r.engine.Some? <==> s.engine.Some?
    ensures s.engine.Some? ==> r.engine.value.duration == s.engine.value.duration
  {
    match s.engine
    case None => s
    case Some(e) => s.(engine := Some(e.(currentTime := time, isPlaying := playing)))
  }

  /** What can happen to a Player after it is created. */
  datatype Op =
    | PressPlay                              // togglePlay()
    | Seek(time: real)                       // setProgress(_:)
    | Finish                                 // the item ends: the audio player stops, then audioPlayerDidFinishPlaying
    | TimerFired                             // the live timer fires
    | Teardown                               // deinit
    | EngineMoved(time: real, playing: bool) // the system player changes by itself

  /** One operation; None when the Swift code would dereference the nil
      implicitly unwrapped `audioPlayer` (the finish callback cannot even
      arrive then, since the delegate is only set on a loaded player). */
  function Step(s: Session, op: Op): (r: Option<Session>)
  {
    match op
    case PressPlay => if s.engine.None? then None else Some(TogglePlay(s))
    case Seek(t) => if s.engine.None? then None else Some(SetProgress(s, t))
    case Finish =>
      if s.engine.None? then None
      else Some(DidFinishPlaying(MoveEngine(s, s.engine.value.currentTime, false)))
    case TimerFired => if s.ticking && s.engine.None? then None else Some(Tick(s))
    case Teardown => Some(Deinit(s))
    case EngineMoved(t, playing) => Some(MoveEngine(s, t, playing))
  }

  /** A sequence of operations, in order; None once one of them traps. */
  function Run(s: Session, ops: seq<Op>): (r: Option<Session>)
    decreases |ops|
  {
    if ops == [] then Some(s)
    else
      match Step(s, ops[0])
      case None => None
      case Some(s1) => Run(s1, ops[1..])
  }

  /** A session in which pressing play takes the play branch. */
  predicate StartsEngine(r: Option<Session>)
  {
    r.Some? && r.value.engine.Some? && !r.value.engine.value.isPlaying
  }

  /** Operations that leave the timer as it is. */
  predicate KeepsTimer(op: Op)
  {
    op.Seek? || op.TimerFired? || op.EngineMoved?
  }

  /** Operations that dereference the implicitly unwrapped `audioPlayer`. */
  predicate NeedsAudioPlayer(op: Op)
  {
    op.PressPlay? || op.Seek? || op.Finish?
  }

  /** Operations that can happen with nobody touching the controls. */
  predicate Unprompted(op: Op)
  {
    op.TimerFired? || op.EngineMoved?
  }


  // ---------------------------------------------------------------------
  // The invariant

  /** Every operation that completes keeps the invariant and reports at most
      one state, which is then the current one. */
  lemma StepPreservesInv(s: Session, op: Op)
    requires Inv(s) && Step(s, op).Some?
    ensures var s1 := Step(s, op).value;
      && Inv(s1)
      && (s1.emitted == s.emitted || s1.emitted == s.emitted + [s1.state])
      && (s.engine.Some? ==> s1.engine.Some? && s1.engine.value.duration == s.engine.value.duration)
      && (s.engine.None? ==> s1.engine.None?)
  {
  }


  lemma {:induction false} RunPreservesInv(s: Session, ops: seq<Op>)
    requires Inv(s) && Run(s, ops).Some?
    ensures Inv(Run(s, ops).value)
    decreases |ops|
  {
    if ops != [] {
      StepPreservesInv(s, ops[0]);
      RunPreservesInv(Step(s, ops[0]).value, ops[1..]);
    }
  }

  /** `update` is an append-only log: a run never rewrites what was reported
      and adds at most one state per operation. */
  lemma {:induction false} RunExtendsLog(s: Session, ops: seq<Op>)
    requires Inv(s) && Run(s, ops).Some?
    ensures s.emitted <= Run(s, ops).value.emitted
    ensures |Run(s, ops).value.emitted| <= |s.emitted| + |ops|
    decreases |ops|
  {
    if ops != [] {
      var s1 := Step(s, ops[0]).value;
      StepPreservesInv(s, ops[0]);
      RunExtendsLog(s1, ops[1..]);
      assert s.emitted <= s1.emitted;
    }
  }

  /** The duration in every loaded state ever reported is the duration of
      the audio player the session opened, whatever happens to it. */
  lemma {:induction false} DurationIsFixed(s: Session, ops: seq<Op>)
    requires Inv(s) && s.engine.Some? && Run(s, ops).Some?
    ensures var s' := Run(s, ops).value;
      && s'.engine.Some?
      && s'.engine.value.duration == s.engine.value.duration
      && forall st :: st in s'.emitted ==> st.Loaded? && st.duration == s.engine.value.duration
    decreases |ops|
  {
    RunPreservesInv(s, ops);
    if ops != [] {
      StepPreservesInv(s, ops[0]);
      DurationIsFixed(Step(s, ops[0]).value, ops[1..]);
    }
  }

  /** A session whose load failed stays NotLoaded and never reports again:
      every later operation either does nothing or traps. */
  lemma {:induction false} UnloadedStaysInert(s: Session, ops: seq<Op>)
    requires Inv(s) && s.engine.None? && Run(s, ops).Some?
    ensures Run(s, ops).value.state == NotLoaded
    ensures Run(s, ops).value.emitted == s.emitted
    decreases |ops|
  {
    if ops != [] {
      StepPreservesInv(s, ops[0]);
      UnloadedStaysInert(Step(s, ops[0]).value, ops[1..]);
    }
  }

  /** On a session whose load failed, a run completes exactly when it never
      presses play, seeks or finishes: those dereference the nil audio
      player, and everything else is harmless. */
  lemma {:induction false} UnloadedTrapsOnControls(s: Session, ops: seq<Op>)
    requires Inv(s) && s.engine.None?
    ensures Run(s, ops).Some? <==> forall j :: 0 <= j < |ops| ==> !NeedsAudioPlayer(ops[j])
    decreases |ops|
  {
    if ops != [] {
      if Step(s, ops[0]).Some? {
        StepPreservesInv(s, ops[0]);
        UnloadedTrapsOnControls(Step(s, ops[0]).value, ops[1..]);
        assert forall j :: 0 < j < |ops| ==> ops[j] == ops[1..][j - 1];
      }
    }
  }

  // ---------------------------------------------------------------------
  // togglePlay


  /** From a stopped, silent session two presses of play give Playing and
      then Paused, not Stopped, and the pause keeps the position. */
  lemma TwoTogglesFromStopped(s: Session)
    requires Inv(s) && s.state.Loaded? && s.state.playback == Stopped
    requires !s.engine.value.isPlaying
    ensures Run(s, [PressPlay]).Some?
    ensures Run(s, [PressPlay]).value.state.playback == Playing
    ensures Run(s, [PressPlay, PressPlay]).Some?
    ensures Run(s, [PressPlay, PressPlay]).value.state
         == Loaded(Paused, s.engine.value.duration, s.engine.value.currentTime)
    ensures !Run(s, [PressPlay, PressPlay]).value.ticking
  {
  }


  // ---------------------------------------------------------------------
  // setProgress

  /** Seeking moves the engine to `time` and reports the same phase and
      duration with progress `time`; the timer is untouched. */
  lemma SeekKeepsPhase(s: Session, time: real)
    requires Inv(s) && Step(s, Seek(time)).Some?
    ensures var s1 := Step(s, Seek(time)).value;
      && s.state.Loaded?
      && s1.state == Loaded(s.state.playback, s.state.duration, time)
      && s1.engine.value.currentTime == time
      && s1.ticking == s.ticking
      && s1.emitted == s.emitted + [s1.state]
  {
    assert s.state in s.emitted;
  }

  // ---------------------------------------------------------------------
  // The timer


  /** With no live timer, nothing reports anything unless someone presses
      play or seeks: timer firings and the engine's own movements are silent. */
  lemma {:induction false} SilentWithoutTimer(s: Session, ops: seq<Op>)
    requires Inv(s) && !s.ticking
    requires forall j :: 0 <= j < |ops| ==> Unprompted(ops[j])
    ensures Run(s, ops).Some?
    ensures Run(s, ops).value.state == s.state
    ensures Run(s, ops).value.emitted == s.emitted
    ensures !Run(s, ops).value.ticking
    decreases |ops|
  {
    if ops != [] {
      assert Unprompted(ops[0]);
      var s1 := Step(s, ops[0]).value;
      StepPreservesInv(s, ops[0]);
      SilentWithoutTimer(s1, ops[1..]);
    }
  }

  /** The end of the item stops the audio player and the timer and reports
      Stopped at the audio player's position; after it, nothing is reported
      until play or a seek. */
  lemma FinishSilencesTimer(s: Session, ops: seq<Op>)
    requires Inv(s) && s.engine.Some?
    requires forall j :: 0 <= j < |ops| ==> Unprompted(ops[j])
    ensures Step(s, Finish).Some?
    ensures var s1 := Step(s, Finish).value;
      && s1.state == Loaded(Stopped, s.engine.value.duration, s.engine.value.currentTime)
      && !s1.ticking
      && !s1.engine.value.isPlaying
      && Run(s, [Finish] + ops).Some?
      && Run(s, [Finish] + ops).value.emitted == s.emitted + [s1.state]
  {
    var s1 := Step(s, Finish).value;
    StepPreservesInv(s, Finish);
    SilentWithoutTimer(s1, ops);
    assert ([Finish] + ops)[1..] == ops;
  }

  /** Pressing play after the item has ended starts playback again: the
      session reports Playing and its timer is live. */
  lemma PlayAfterFinish(s: Session)
    requires Inv(s) && s.engine.Some?
    ensures Run(s, [Finish, PressPlay]).Some?
    ensures var s2 := Run(s, [Finish, PressPlay]).value;
      && s2.state == Loaded(Playing, s.engine.value.duration, s.engine.value.currentTime)
      && s2.ticking
      && s2.engine.value.isPlaying
  {
    var s1 := Step(s, Finish).value;
    assert [Finish, PressPlay][1..] == [PressPlay];
    assert Run(s1, [PressPlay]) == Run(TogglePlay(s1), []);
  }

  /** Tearing a session down, even a playing one, reports nothing, and no
      timer firing reports anything afterwards. */
  lemma TeardownSilencesTimer(s: Session, ops: seq<Op>)
    requires Inv(s)
    requires forall j :: 0 <= j < |ops| ==> Unprompted(ops[j])
    ensures Run(s, [Teardown] + ops).Some?
    ensures Run(s, [Teardown] + ops).value.emitted == s.emitted
    ensures Run(s, [Teardown] + ops).value.state == s.state
  {
    StepPreservesInv(s, Teardown);
    SilentWithoutTimer(Deinit(s), ops);
    assert ([Teardown] + ops)[1..] == ops;
  }

  /** A live timer at the end of a run comes from the last press of play
      that touched the timer (pausing, finishing and teardown all kill it),
      or it was live before and nothing touched it since. */
  lemma {:induction false} LiveTimerComesFromPlay(s: Session, ops: seq<Op>)
    requires Run(s, ops).Some? && Run(s, ops).value.ticking
    ensures
      || (exists k :: 0 <= k < |ops| && ops[k] == PressPlay && StartsEngine(Run(s, ops[..k]))
            && forall j :: k < j < |ops| ==> KeepsTimer(ops[j]))
      || (s.ticking && forall j :: 0 <= j < |ops| ==> KeepsTimer(ops[j]))
    decreases |ops|
  {
    if ops != [] {
      var s1 := Step(s, ops[0]).value;
      var rest := ops[1..];
      LiveTimerComesFromPlay(s1, rest);
      if exists k :: 0 <= k < |rest| && rest[k] == PressPlay && StartsEngine(Run(s1, rest[..k]))
           && forall j :: k < j < |rest| ==> KeepsTimer(rest[j]) {
        var k :| 0 <= k < |rest| && rest[k] == PressPlay && StartsEngine(Run(s1, rest[..k]))
           && forall j :: k < j < |rest| ==> KeepsTimer(rest[j]);
        assert ops[k + 1] == PressPlay;
        assert ops[..k + 1][0] == ops[0] && ops[..k + 1][1..] == rest[..k];
        assert Run(s, ops[..k + 1]) == Run(s1, rest[..k]);
        forall j | k + 1 < j < |ops| ensures KeepsTimer(ops[j]) {
          assert ops[j] == rest[j - 1];
        }
      } else if ops[0] == PressPlay {
        assert ops[..0] == [];
        forall j | 0 < j < |ops| ensures KeepsTimer(ops[j]) {
          assert ops[j] == rest[j - 1];
        }
      } else {
        forall j | 0 <= j < |ops| ensures KeepsTimer(ops[j]) {
          if j > 0 {
            assert ops[j] == rest[j - 1];
          }
        }
      }
    }
  }

  // ---------------------------------------------------------------------
  // A walk through

  /** A 120 s recording: open, play, let it run and tick, seek to 60 s, then
      pause: the player reports Paused at 60 s and its timer is dead. */
  lemma WalkThrough()
    ensures var s0 := Open(true, Some(Engine(120.0, 0.0, false)));
      && s0.state == Loaded(Stopped, 120.0, 0.0)
      && Run(s0, [PressPlay, EngineMoved(0.2, true), TimerFired, Seek(60.0), PressPlay]).Some?
      && Run(s0, [PressPlay, EngineMoved(0.2, true), TimerFired, Seek(60.0), PressPlay]).value.state
         == Loaded(Paused, 120.0, 60.0)
      && !Run(s0, [PressPlay, EngineMoved(0.2, true), TimerFired, Seek(60.0), PressPlay]).value.ticking
  {
  }

}
