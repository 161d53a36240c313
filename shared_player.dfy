/**
  The playback logic of Recordings/PlayViewController.swift: the app-wide
  `SharedPlayer` that owns the current `Player`, the projections of a
  `Player.State` that the play screen displays, and the two controls of that
  screen, which only forward to the current player.

  NotificationCenter posts carry no payload: an observer answers one by
  reading `state`. The ghost log `Seen()` records what that read gives at
  each post. The callback a SharedPlayer gives each Player it creates posts
  once per call. The log is kept as a prefix `seen`, which each post of the
  SharedPlayer itself and each replacement of the player close off, followed
  by the states of the current player's calls of `update` since then.
*/
module SharedPlayback {
  import opened Optional
  import opened Playback
  import opened AudioPlayer

  /** A recording in the store, as far as playback needs it. */
  datatype Recording = Recording(name: string, fileURL: Option<string>)

  /** The button titles (the development-language values of the
      localized strings). */
  const PlayTitle: string := "Play"
  const PauseTitle: string := "Pause"
  const ResumeTitle: string := "Resume playing"

  /** Player.State.progress: the reported position, 0 when nothing is
      loaded. */
  function Progress(s: State): (r: real)
    ensures s.Loaded? ==> r == s.progress
    ensures s.NotLoaded? ==> r == 0.0
  {
    match s
    case NotLoaded => 0.0
    case Loaded(_, _, p) => p
  }

  /** Player.State.duration: the reported length, 0 when nothing is
      loaded. */
  function Duration(s: State): (r: real)
    ensures s.Loaded? ==> r == s.duration
    ensures s.NotLoaded? ==> r == 0.0
  {
    match s
    case NotLoaded => 0.0
    case Loaded(_, d, _) => d
  }

  /** Player.State.buttonTitle: the action the play button offers, empty
      exactly when nothing is loaded. */
  function ButtonTitle(s: State): (r: string)
    ensures r == "" <==> s.NotLoaded?
    ensures s.Loaded? ==> r in [PlayTitle, PauseTitle, ResumeTitle]
  {
    match s
    case NotLoaded => ""
    case Loaded(playback, _, _) =>
      match playback
      case Stopped => PlayTitle
      case Playing => PauseTitle
      case Paused => ResumeTitle
  }

  class SharedPlayer {
    var audioPlayer: Player?
    var recording: Option<Recording>
    /** What `state` read as at each notification posted so far, up to the
        last one the SharedPlayer posted itself or the last replacement of
        the player. */
    ghost var seen: seq<State>
    /** How many calls of the current player's `update` are already in
        `seen`: its initial one, posted while the old player was still in
        place, and all those before the SharedPlayer's own last post. */
    ghost var installedAt: nat

    ghost function Footprint(): set<object?>
      reads this, audioPlayer
    {
      if audioPlayer == null then {}
      else {audioPlayer, audioPlayer.audioPlayer, audioPlayer.timer} + audioPlayer.timers
    }

    ghost predicate Valid()
      reads this, Footprint()
    {
      audioPlayer != null ==> audioPlayer.Valid() && installedAt <= |audioPlayer.emitted|
    }

    /** What an observer reading `state` saw at every notification posted so
        far: the player now installed reports its own state at each call of
        its `update`. */
    ghost function Seen(): (r: seq<State>)
      requires Valid()
      reads this, Footprint()
      ensures seen <= r
    {
      seen + if audioPlayer == null then [] else audioPlayer.emitted[installedAt..]
    }

    /** The number of notifications posted so far. */
    ghost function Posted(): (r: nat)
      requires Valid()
      reads this, Footprint()
      ensures r == |seen| + (if audioPlayer == null then 0 else |audioPlayer.emitted| - installedAt)
    {
      |Seen()|
    }

    /** SharedPlayer.shared before anything is selected. */
    constructor ()
      ensures Valid() && audioPlayer == null && recording == None && Seen() == []
    {
      audioPlayer := null;
      recording := None;
      seen := [];
      installedAt := 0;
    }

    /** SharedPlayer.state: the player's state, NotLoaded when there is no
        player. It is loaded exactly when a player exists and its file opened. */
    function CurrentState(): (r: State)
      requires Valid()
      reads this, Footprint()
      ensures r.Loaded? <==> audioPlayer != null && audioPlayer.audioPlayer != null
    {
      if audioPlayer == null then NotLoaded else audioPlayer.state
    }

    /** SharedPlayer.isPlaying: playing exactly when the button offers
        Pause. */
    function IsPlaying(): (r: bool)
      requires Valid()
      reads this, Footprint()
      ensures r <==> ButtonTitle(CurrentState()) == PauseTitle
      ensures r ==> audioPlayer != null && audioPlayer.audioPlayer != null
    {
      match CurrentState()
      case Loaded(Playing, _, _) => true
      case _ => false
    }

    /** SharedPlayer.notify(): post one change notification, which an
        observer answers by reading the current state. */
    method Notify()
      requires Valid()
      modifies this
      ensures Valid()
      ensures Seen() == old(Seen()) + [old(CurrentState())]
      ensures audioPlayer == old(audioPlayer) && recording == old(recording)
    {
      seen := Seen() + [CurrentState()];
      installedAt := if audioPlayer == null then 0 else |audioPlayer.emitted|;
      assert audioPlayer != null ==> audioPlayer.emitted[installedAt..] == [];
    }

    /** Setting `recording`: its didSet runs updateForChangedRecording. */
    method SetRecording(r: Option<Recording>, sessionActivated: bool, file: AudioEngine?)
      requires Valid()
      modifies this, if audioPlayer == null then null else audioPlayer.timer
      ensures Valid() && recording == r
      ensures Posted() == old(Posted()) + 1
      ensures if r.Some? && r.value.fileURL.Some? then
          && audioPlayer != null && fresh(audioPlayer)
          && audioPlayer.audioPlayer == (if sessionActivated then file else null)
          && audioPlayer.timer == null && audioPlayer.timers == {}
          && audioPlayer.Abstract() == Open(sessionActivated, EngineOf(file))
          && Seen() == old(Seen()) + [old(CurrentState())]
        else
          audioPlayer == null && Seen() == old(Seen()) + [NotLoaded]
      ensures old(audioPlayer) != null ==> forall t :: t in old(audioPlayer).timers ==> !t.valid
    {
      recording := r;
      UpdateForChangedRecording(sessionActivated, file);
    }

    /** SharedPlayer.updateForChangedRecording(): a recording with a file gets
        a new Player whose callback posts a notification; otherwise the
        player is dropped and one notification is posted. Either way exactly
        one notification is posted, and the replaced player is released,
        which invalidates its timer. The new player's initial `update` posts
        before it is assigned, so that post shows the state of the player it
        replaces. `sessionActivated` and `file` are what opening the
        recording's file gives (see Player's constructor). */
    method UpdateForChangedRecording(sessionActivated: bool, file: AudioEngine?)
      requires Valid()
      modifies this, if audioPlayer == null then null else audioPlayer.timer
      ensures Valid() && recording == old(recording)
      ensures Posted() == old(Posted()) + 1
      ensures if recording.Some? && recording.value.fileURL.Some? then
          && audioPlayer != null && fresh(audioPlayer)
          && audioPlayer.audioPlayer == (if sessionActivated then file else null)
          && audioPlayer.timer == null && audioPlayer.timers == {}
          && audioPlayer.Abstract() == Open(sessionActivated, EngineOf(file))
          && Seen() == old(Seen()) + [old(CurrentState())]
        else
          audioPlayer == null && Seen() == old(Seen()) + [NotLoaded]
      ensures old(audioPlayer) != null ==> forall t :: t in old(audioPlayer).timers ==> !t.valid
    {
      if recording.Some? && recording.value.fileURL.Some? {
        var p := new Player(sessionActivated, file);
        Install(p);
      } else {
        Release();
      }
    }

    /** The file branch of updateForChangedRecording after `p` was built:
        `p`'s initial `update` has already posted, while the old player was
        still installed; `p` replaces it, which releases the old player. */
    method Install(p: Player)
      requires Valid() && p.Valid() && p.emitted == [p.state]
      requires p.timer == null && p.timers == {} && p != audioPlayer
      modifies this, if audioPlayer == null then null else audioPlayer.timer
      ensures Valid() && audioPlayer == p && recording == old(recording)
      ensures Seen() == old(Seen()) + [old(CurrentState())]
      ensures old(audioPlayer) != null ==> forall t :: t in old(audioPlayer).timers ==> !t.valid
    {
      var previous := audioPlayer;
      seen := Seen() + [CurrentState()];
      audioPlayer := p;
      installedAt := 1;
      if previous != null {
        previous.Deinit();
      }
      assert p.emitted[installedAt..] == [];
    }

    /** The branch of updateForChangedRecording without a file: the player
        is dropped, which releases it, and then one notification is posted. */
    method Release()
      requires Valid()
      modifies this, if audioPlayer == null then null else audioPlayer.timer
      ensures Valid() && audioPlayer == null && recording == old(recording)
      ensures Seen() == old(Seen()) + [NotLoaded]
      ensures old(audioPlayer) != null ==> forall t :: t in old(audioPlayer).timers ==> !t.valid
    {
      var previous := audioPlayer;
      seen := Seen();
      audioPlayer := null;
      installedAt := 0;
      if previous != null {
        previous.Deinit();
      }
      Notify();
    }
  }

  /** PlayViewController.play(): toggle the current player, if there is one.
      A player whose file did not open traps here, since it has no audio
      player to dereference. */
  method Play(shared: SharedPlayer)
    requires shared.Valid()
    requires shared.audioPlayer != null ==> shared.audioPlayer.audioPlayer != null
    modifies shared.audioPlayer,
      if shared.audioPlayer == null then {} else {shared.audioPlayer.audioPlayer, shared.audioPlayer.timer}
    ensures shared.Valid() && shared.audioPlayer == old(shared.audioPlayer)
    ensures shared.audioPlayer == null ==> shared.Seen() == old(shared.Seen())
    ensures shared.audioPlayer != null ==>
      && shared.audioPlayer.audioPlayer == old(shared.audioPlayer.audioPlayer)
      && (shared.audioPlayer.timer == null || fresh(shared.audioPlayer.timer))
      && shared.audioPlayer.Abstract() == TogglePlay(old(shared.audioPlayer.Abstract()))
      && shared.Seen() == old(shared.Seen()) + [shared.CurrentState()]
  {
    if shared.audioPlayer != null {
      shared.audioPlayer.TogglePlay();
    }
  }

  /** PlayViewController.setProgress(): seek the current player, if there is
      one, to the slider's value. */
  method SetProgressFromSlider(shared: SharedPlayer, sliderValue: real)
    requires shared.Valid()
    requires shared.audioPlayer != null ==> shared.audioPlayer.audioPlayer != null
    modifies shared.audioPlayer, if shared.audioPlayer == null then null else shared.audioPlayer.audioPlayer
    ensures shared.Valid() && shared.audioPlayer == old(shared.audioPlayer)
    ensures shared.audioPlayer == null ==> shared.Seen() == old(shared.Seen())
    ensures shared.audioPlayer != null ==>
      && shared.audioPlayer.audioPlayer == old(shared.audioPlayer.audioPlayer)
      && shared.audioPlayer.timer == old(shared.audioPlayer.timer)
      && shared.audioPlayer.Abstract() == Playback.SetProgress(old(shared.audioPlayer.Abstract()), sliderValue)
      && shared.Seen() == old(shared.Seen()) + [shared.CurrentState()]
  {
    if shared.audioPlayer != null {
      shared.audioPlayer.SetProgress(sliderValue);
    }
  }

  // ---------------------------------------------------------------------
  // The display

  /** On loaded states the button title tells the three phases apart. */
  lemma ButtonTitleTellsPhases(s: State, u: State)
    ensures s.Loaded? && u.Loaded? && ButtonTitle(s) == ButtonTitle(u) ==> s.playback == u.playback
  {
  }


  /** What the screen shows of a session: the duration of the opened audio
      player, an empty screen (no progress, no button title) when nothing
      opened, and Pause on the button whenever the progress timer is live. */
  lemma DisplayFollowsSession(s: Session)
    requires Inv(s)
    ensures Duration(s.state) == (if s.engine.Some? then s.engine.value.duration else 0.0)
    ensures s.engine.None? ==> Progress(s.state) == 0.0 && ButtonTitle(s.state) == ""
    ensures s.ticking ==> ButtonTitle(s.state) == PauseTitle
  {
    assert s.state in s.emitted;
  }

  /** A seek shows the new position and leaves the duration and the button
      as they were. */
  lemma SeekShowsPosition(s: Session, time: real)
    requires Inv(s) && Step(s, Seek(time)).Some?
    ensures var s1 := Step(s, Seek(time)).value;
      && Progress(s1.state) == time
      && Duration(s1.state) == Duration(s.state)
      && ButtonTitle(s1.state) == ButtonTitle(s.state)
  {
    SeekKeepsPhase(s, time);
  }

  /** Play toggles the button between Pause and what it offered before:
      from Play or Resume playing it goes to Pause, from Pause to Resume
      playing. */
  lemma PlayFlipsButton(s: Session)
    requires Inv(s) && Step(s, PressPlay).Some?
    ensures var s1 := Step(s, PressPlay).value;
      ButtonTitle(s1.state) == if s.engine.value.isPlaying then ResumeTitle else PauseTitle
  {
  }
}
