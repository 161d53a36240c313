/**
  The `Player` class of Recordings/Player.swift, with the system audio player
  and the progress timer it uses.

  Every method of `Player` is proved to move the object's abstract value,
  `Abstract()`, exactly as the matching function of module `Playback` moves a
  `Session`; what the source promises about those functions is proved there.
  What only the object can say, that an invalidated timer never fires again
  and that there is never more than one live timer, is proved here.
*/
module AudioPlayer {
  import opened Optional
  import opened Playback

  /** The repeat interval of the progress timer, in seconds. */
  const TickInterval: real := 0.05

  /** The system audio player (AVAudioPlayer) as far as the Player uses it.
      Its duration is fixed when the file is opened; the operating system
      may also move `currentTime` and clear `isPlaying` on its own. */
  class AudioEngine {
    const duration: real
    var currentTime: real
    var isPlaying: bool

    /** A freshly opened audio file: stopped at its start. */
    constructor (duration: real)
      ensures this.duration == duration && currentTime == 0.0 && !isPlaying
    {
      this.duration := duration;
      currentTime := 0.0;
      isPlaying := false;
    }

    method Play()
      modifies this
      ensures isPlaying && currentTime == old(currentTime)
    {
      isPlaying := true;
    }

    method Pause()
      modifies this
      ensures !isPlaying && currentTime == old(currentTime)
    {
      isPlaying := false;
    }

    function View(): (r: Engine)
      reads this
      ensures r.duration == duration && r.currentTime == currentTime && r.isPlaying == isPlaying
    {
      Engine(duration, currentTime, isPlaying)
    }
  }

  /** What a Player reads of an audio player that may be missing. */
  function EngineOf(e: AudioEngine?): (r: Option<Engine>)
    reads e
    ensures r.Some? <==> e != null
  {
    if e == null then None else Some(e.View())
  }

  /** A scheduled repeating Timer; `valid` is false once it is invalidated,
      after which it never fires. */
  class Timer {
    const interval: real
    const repeats: bool
    var valid: bool

    /** Timer.scheduledTimer(withTimeInterval:repeats:block:) */
    constructor Scheduled(interval: real, repeats: bool)
      ensures this.interval == interval && this.repeats == repeats && valid
    {
      this.interval := interval;
      this.repeats := repeats;
      valid := true;
    }

    method Invalidate()
      modifies this
      ensures !valid
    {
      valid := false;
    }
  }

  class Player {
    /** The implicitly unwrapped `audioPlayer`: null until a file is opened. */
    var audioPlayer: AudioEngine?
    var timer: Timer?
    var state: State
    /** The arguments of every call of the `update` callback, in order. */
    var emitted: seq<State>
    /** Every timer this player has scheduled. */
    ghost var timers: set<Timer>

    ghost function Abstract(): Session
      reads this, audioPlayer, timer
    {
      Session(EngineOf(audioPlayer), state, timer != null && timer.valid, emitted)
    }

    /** The object invariant: the abstract value is a reachable session, the
        current timer is one this player scheduled, every other one it
        scheduled has been invalidated, and a timer is only held while
        playing. */
    ghost predicate Valid()
      reads this, audioPlayer, timer, timers
    {
      && Inv(Abstract())
      && (timer != null ==> timer in timers && state.Loaded? && state.playback == Playing)
      && (forall t :: t in timers && t != timer ==> !t.valid)
    }

    /** Player.init(url:update:): `sessionActivated` is whether the audio
        session accepted its category and activation, `file` the audio player
        the url opened into (null when opening failed). */
    constructor (sessionActivated: bool, file: AudioEngine?)
      ensures Valid()
      ensures Abstract() == Open(sessionActivated, EngineOf(file))
      ensures audioPlayer == (if sessionActivated then file else null)
      ensures timer == null && timers == {}
    {
      audioPlayer := null;
      timer := null;
      state := NotLoaded;
      emitted := [];
      timers := {};
      new;
      if !sessionActivated || file == null {
        emitted := emitted + [NotLoaded];
      } else {
        audioPlayer := file;
        Notify(Stopped);
      }
    }

    /** Player.notify(_:): the state is rebuilt from the audio player's
        duration and position and handed to `update`. */
    method Notify(p: PlaybackState)
      requires audioPlayer != null
      modifies this
      ensures audioPlayer == old(audioPlayer) && timer == old(timer) && timers == old(timers)
      ensures state == Loaded(p, audioPlayer.duration, audioPlayer.currentTime)
      ensures emitted == old(emitted) + [state]
      ensures Abstract() == Playback.Notify(old(Abstract()), p)
    {
      state := Loaded(p, audioPlayer.duration, audioPlayer.currentTime);
      emitted := emitted + [state];
    }

    /** Player.togglePlay(): pause a playing audio player and drop the timer,
        or start it and replace any timer by one new repeating timer. */
    method TogglePlay()
      requires Valid() && audioPlayer != null
      modifies this, audioPlayer, timer
      ensures Valid() && audioPlayer == old(audioPlayer)
      ensures Abstract() == Playback.TogglePlay(old(Abstract()))
      ensures forall t :: t in old(timers) ==> !t.valid
      ensures if old(audioPlayer.isPlaying) then
          timer == null && timers == old(timers)
        else
          && timer != null && fresh(timer) && timer.valid
          && timer.interval == TickInterval && timer.repeats
          && timers == old(timers) + {timer}
    {
      ghost var before := Abstract();
      if audioPlayer.isPlaying {
        audioPlayer.Pause();
        if timer != null {
          timer.Invalidate();
        }
        timer := null;
        Notify(Paused);
      } else {
        audioPlayer.Play();
        if timer != null {
          timer.Invalidate();
        }
        timer := new Timer.Scheduled(TickInterval, true);
        timers := timers + {timer};
        Notify(Playing);
      }
      StepPreservesInv(before, PressPlay);
    }

    /** Player.setProgress(_:): move the audio player, then re-report the
        current phase at the new position. */
    method SetProgress(time: real)
      requires Valid() && audioPlayer != null
      modifies this, audioPlayer
      ensures Valid() && audioPlayer == old(audioPlayer)
      ensures audioPlayer.currentTime == time
      ensures Abstract() == Playback.SetProgress(old(Abstract()), time)
      ensures timer == old(timer) && timers == old(timers)
    {
      ghost var before := Abstract();
      audioPlayer.currentTime := time;
      if state.Loaded? {
        Notify(state.playback);
      }
      StepPreservesInv(before, Seek(time));
    }

    /** Player.audioPlayerDidFinishPlaying(_:successfully:): the audio player
        reached the end of the item and has stopped (whether successfully is
        ignored). */
    method AudioPlayerDidFinishPlaying()
      requires Valid() && audioPlayer != null && !audioPlayer.isPlaying
      modifies this, timer
      ensures Valid() && audioPlayer == old(audioPlayer)
      ensures Abstract() == DidFinishPlaying(old(Abstract()))
      ensures timer == null && timers == old(timers)
      ensures forall t :: t in timers ==> !t.valid
    {
      ghost var before := Abstract();
      if timer != null {
        timer.Invalidate();
      }
      timer := null;
      Notify(Stopped);
      StepPreservesInv(before, Finish);
    }

    /** Timer `t`, one this player scheduled, comes due: it reports Playing
        if it is the live timer, and does nothing once invalidated. */
    method Tick(t: Timer)
      requires Valid() && t in timers
      modifies this
      ensures Valid()
      ensures old(t.valid) ==> t == timer && Abstract() == Playback.Tick(old(Abstract()))
      ensures !old(t.valid) ==> Abstract() == old(Abstract())
      ensures audioPlayer == old(audioPlayer) && timer == old(timer) && timers == old(timers)
    {
      ghost var before := Abstract();
      if t.valid {
        Notify(Playing);
        StepPreservesInv(before, TimerFired);
      }
    }

    /** Player.deinit: the timer is invalidated, so no scheduled firing
        reports anything afterwards. */
    method Deinit()
      requires Valid()
      modifies timer
      ensures Valid()
      ensures Abstract() == Playback.Deinit(old(Abstract()))
      ensures forall t :: t in timers ==> !t.valid
    {
      ghost var before := Abstract();
      if timer != null {
        timer.Invalidate();
      }
      StepPreservesInv(before, Teardown);
    }
  }
}
