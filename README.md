# Mini player playback core, in Dafny

This project models the playback logic of the Recordings mini player. That logic is:

- the `Player` class of `Recordings/Player.swift`, a state machine around the system audio player (`AVAudioPlayer`) with a repeating progress timer and an `update` callback;
- the parts of `Recordings/PlayViewController.swift` built on it: the app-wide `SharedPlayer` that owns the current `Player` and posts change notifications, the projections of a `Player.State` shown on the play screen (`progress`, `duration`, `buttonTitle`), and the two controls that forward to the current player.

The model has four modules:

- `Optional` (`optional.dfy`): the Option datatype, used for Swift optionals.
- `Playback` (`playback.dfy`): the player on values.
  - A `Session` holds what the player reads of its audio player (`Engine`), its `state`, whether a progress timer is live (`ticking`), and the log of every state passed to `update` (`emitted`).
  - Each operation is a function from session to session: `Open`, `Notify`, `TogglePlay`, `SetProgress`, `DidFinishPlaying`, `Tick`, `Deinit`.
  - `MoveEngine` stands for the operating system moving or stopping the audio player on its own.
  - `Step` and `Run` apply a sequence of operations. They return `None` where the Swift code would dereference the nil implicitly unwrapped `audioPlayer`.
  - `Inv` is the invariant every reachable session keeps. The lemmas state what the code promises, over single steps and over whole runs.
- `AudioPlayer` (`player.dfy`): the `Player` class and its two collaborators.
  - `AudioEngine` stands for AVAudioPlayer: a fixed `duration`, plus `currentTime` and `isPlaying`.
  - `Timer` has a `valid` flag that invalidation clears.
  - Every `Player` method is proved to move `Abstract()` exactly as the matching `Playback` function moves a session. Every method but `Notify` also keeps `Valid()`: only the current timer can be live, every timer it replaced has been invalidated, and a timer is held only while playing.
- `SharedPlayback` (`shared_player.dfy`): the `SharedPlayer` class, the display projections, the `play` and `setProgress` controls, and lemmas about what the screen shows.
  - A NotificationCenter post carries no payload: an observer answers it by reading `SharedPlayer.state`. The ghost log `Seen()` records what that read gives at each post, and `Posted()` is its length.
  - The callback the `SharedPlayer` gives each player posts once per call. The log is kept as a prefix, which each post of the `SharedPlayer` itself and each replacement of the player close off, followed by the states of the current player's `update` calls since then.

Times are `TimeInterval` values that the code only copies, so they are `real`. The outcome of I/O is passed in as parameters: whether the audio session activates, and the audio player a file opens into (null on failure).

## Model

| member | source | states |
|---|---|---|
| `AudioPlayer.Player.constructor` | MVC-Mini-Player/Recordings/Player.swift:22-42 | The new player's value is `Open(sessionActivated, file)`. The audio player is kept only when the session activated. No timer exists, and `Valid()` holds. |
| `Playback.Open` | MVC-Mini-Player/Recordings/Player.swift:22-42 | Opening either fails into `NotLoaded` with no engine, or gives `Loaded(.stopped, duration, currentTime)` of the opened audio player. Either way `update` was called exactly once, with the resulting state, and no timer is live. |
| `Playback.Notify` | MVC-Mini-Player/Recordings/Player.swift:44-47 | The new state has the given phase, the engine's duration and its `currentTime` as progress. It is the one state reported, and the engine and the timer are untouched. |
| `AudioPlayer.Player.Notify` | MVC-Mini-Player/Recordings/Player.swift:44-47 | The state becomes `Loaded(p, audioPlayer.duration, audioPlayer.currentTime)`. `update` receives exactly that state, and nothing else changes. |
| `AudioPlayer.Player.TogglePlay` | MVC-Mini-Player/Recordings/Player.swift:49-65 | Follows `TogglePlay`, which branches on the audio player's `isPlaying`. Every earlier timer ends up invalidated. Pausing leaves no timer. Playing installs one fresh repeating 0.05 s timer, so two timers are never live. |
| `Playback.TogglePlay` | MVC-Mini-Player/Recordings/Player.swift:49-65 | A toggle flips the engine's `isPlaying`, keeps its position, and reports one state. It reports `Paused` at the position where playback stopped, with the timer killed; otherwise it reports `Playing` with the timer live. |
| `Playback.TwoTogglesFromStopped` | MVC-Mini-Player/Recordings/Player.swift:49-65 | From a stopped, silent session, two toggles give `.playing` and then `.paused` (not `.stopped`), with the position kept and no live timer. |
| `Playback.SetProgress` | MVC-Mini-Player/Recordings/Player.swift:67-71 | The engine moves to `time`, unclamped, and the timer is untouched. A loaded session reports its phase again at `time`. An unloaded one keeps its state and reports nothing. |
| `AudioPlayer.Player.SetProgress` | MVC-Mini-Player/Recordings/Player.swift:67-71 | The audio player's `currentTime` becomes `time`. The player's value follows `SetProgress`. The timer is untouched. |
| `Playback.SeekKeepsPhase` | MVC-Mini-Player/Recordings/Player.swift:67-71 | A seek on a reachable session re-reports the same phase and duration with progress `time`, leaves the timer alone, and emits exactly one state. |
| `Playback.DidFinishPlaying` | MVC-Mini-Player/Recordings/Player.swift:73-77 | On a stopped audio player, reports `Loaded(.stopped, duration, currentTime)` and kills the timer. The engine is untouched. |
| `AudioPlayer.Player.AudioPlayerDidFinishPlaying` | MVC-Mini-Player/Recordings/Player.swift:73-77 | Called once the audio player has stopped. The timer is invalidated and cleared, and no scheduled timer stays live. The value follows `DidFinishPlaying`: `.stopped`, with progress re-read from `currentTime`. |
| `Playback.FinishSilencesTimer` | MVC-Mini-Player/Recordings/Player.swift:73-77 | The end of the item stops the audio player, reports `Loaded(.stopped, duration, currentTime)` and kills the timer. After it, no timer firing or movement of the audio player reports anything. |
| `Playback.PlayAfterFinish` | MVC-Mini-Player/Recordings/Player.swift:49-77 | After the item ends, play starts the audio player again, reports `Loaded(.playing, duration, currentTime)` and makes the timer live. |
| `AudioPlayer.Player.Tick` | MVC-Mini-Player/Recordings/Player.swift:60-62 | A firing of the live timer calls `notify(.playing)`. A firing of an invalidated timer changes nothing. |
| `Playback.Tick` | MVC-Mini-Player/Recordings/Player.swift:60-62 | A tick reports only `Loaded(.playing, duration, currentTime)`, or nothing when no timer is live. It changes neither the engine nor the timer. |
| `Playback.Deinit` | MVC-Mini-Player/Recordings/Player.swift:79-81 | The timer is dead afterwards. The engine, the state and the reported states are unchanged. |
| `AudioPlayer.Player.Deinit` | MVC-Mini-Player/Recordings/Player.swift:79-81 | Every timer the player ever scheduled is invalid afterwards, and nothing is reported. |
| `Playback.TeardownSilencesTimer` | MVC-Mini-Player/Recordings/Player.swift:79-81 | After teardown, even of a playing session, nothing is ever reported by timer firings or by movements of the audio player. |
| `Playback.SilentWithoutTimer` | MVC-Mini-Player/Recordings/Player.swift:50-77 | With no live timer, any run of timer firings and audio-player movements keeps the state and reports nothing. |
| `Playback.LiveTimerComesFromPlay` | MVC-Mini-Player/Recordings/Player.swift:49-77 | A timer live at the end of a run was started by a `togglePlay` that found the audio player stopped and so took the play branch, with no later pause, finish or teardown. Otherwise it was live before, and no later operation touched the timer. |
| `Playback.StepPreservesInv` | MVC-Mini-Player/Recordings/Player.swift:44-77 | Every operation keeps the invariant and reports at most one state, which is then the current state. It never changes the duration and never gives a failed session an engine. |
| `Playback.RunPreservesInv` | MVC-Mini-Player/Recordings/Player.swift:44-77 | The invariant holds after any sequence of operations that does not trap. |
| `Playback.RunExtendsLog` | MVC-Mini-Player/Recordings/Player.swift:44-47 | `update` is append-only: a run keeps what was reported as a prefix and adds at most one state per operation. |
| `Playback.DurationIsFixed` | MVC-Mini-Player/Recordings/Player.swift:44-47 | After any run of a loaded session, every state ever reported is loaded and carries the opened audio player's duration. |
| `Playback.UnloadedStaysInert` | MVC-Mini-Player/Recordings/Player.swift:29-36 | A session whose open failed stays `NotLoaded` and reports nothing more, whatever runs without trapping. |
| `Playback.UnloadedTrapsOnControls` | MVC-Mini-Player/Recordings/Player.swift:49-77 | On a session whose open failed, a run completes exactly when it contains no `togglePlay`, `setProgress` or finish. Those dereference the nil audio player; timer firings, teardown and movements of the audio player are harmless. |
| `Playback.WalkThrough` | MVC-Mini-Player/Recordings/Player.swift:22-71 | A 120 s file: open gives `Loaded(.stopped, 120, 0)`. Then play, a tick at 0.2 s, a seek to 60 s and a pause give `Loaded(.paused, 120, 60)` with no live timer. |
| `SharedPlayback.SharedPlayer.constructor` | MVC-Mini-Player/Recordings/PlayViewController.swift:4-7 | The shared player starts with no player and no recording, and has posted nothing. |
| `SharedPlayback.SharedPlayer.CurrentState` | MVC-Mini-Player/Recordings/PlayViewController.swift:26-28 | The shared state is loaded exactly when a player exists and its file opened. |
| `SharedPlayback.SharedPlayer.IsPlaying` | MVC-Mini-Player/Recordings/PlayViewController.swift:14-19 | `isPlaying` holds exactly when the button offers Pause, and only when a player exists and its file opened. |
| `SharedPlayback.SharedPlayer.Notify` | MVC-Mini-Player/Recordings/PlayViewController.swift:21-24 | Posts exactly one notification and appends the current state to the end of `Seen()`, after every earlier post, including those of the installed player's callback. Nothing else changes. |
| `SharedPlayback.SharedPlayer.SetRecording` | MVC-Mini-Player/Recordings/PlayViewController.swift:8-12 | Stores the recording, then does what `UpdateForChangedRecording` does, with the same contract. |
| `SharedPlayback.SharedPlayer.UpdateForChangedRecording` | MVC-Mini-Player/Recordings/PlayViewController.swift:30-39 | A recording with a file installs a fresh player whose value is `Open(...)`. The new player holds the opened audio player only if the session activated, and it has no timer. Its one post shows the state from before the change, because the new player's initial `update` runs before it is assigned. Otherwise the player becomes nil and the one post shows `.notLoaded`. Every timer of the replaced player is invalidated. |
| `SharedPlayback.Play` | MVC-Mini-Player/Recordings/PlayViewController.swift:121-123 | With no player, nothing changes and nothing is posted. Otherwise the player toggles exactly as `TogglePlay` says, with the same audio player object and either no timer or a fresh one. One notification is posted, showing the new state. |
| `SharedPlayback.SetProgressFromSlider` | MVC-Mini-Player/Recordings/PlayViewController.swift:116-119 | With no player, nothing changes and nothing is posted. Otherwise the player seeks to the slider value exactly as `SetProgress` says, keeping the same audio player and timer objects. One notification is posted, showing the new state. |
| `SharedPlayback.Progress` | MVC-Mini-Player/Recordings/PlayViewController.swift:141-146 | The progress shown is the reported position, or 0 when nothing is loaded. |
| `SharedPlayback.Duration` | MVC-Mini-Player/Recordings/PlayViewController.swift:148-153 | The duration shown is the reported length, or 0 when nothing is loaded. |
| `SharedPlayback.ButtonTitle` | MVC-Mini-Player/Recordings/PlayViewController.swift:155-165 | The title is empty exactly for `.notLoaded`. On a loaded state it is Play, Pause or Resume playing. |
| `SharedPlayback.ButtonTitleTellsPhases` | MVC-Mini-Player/Recordings/PlayViewController.swift:155-165 | On loaded states the title is one-to-one: Play, Pause and Resume playing tell stopped, playing and paused apart. |
| `SharedPlayback.DisplayFollowsSession` | MVC-Mini-Player/Recordings/PlayViewController.swift:141-153 | The displayed duration is the opened audio player's duration, or 0 when nothing is loaded. When nothing opened, the progress shown is 0 and the button title is empty. While the timer is live, the button offers Pause. |
| `SharedPlayback.SeekShowsPosition` | MVC-Mini-Player/Recordings/PlayViewController.swift:141-165 | After a seek, the display shows the new position with the same duration and the same button title. |
| `SharedPlayback.PlayFlipsButton` | MVC-Mini-Player/Recordings/PlayViewController.swift:155-165 | After play, the button offers Resume playing if the audio player was playing, and Pause otherwise. |

## Behaviour of the code worth noting

- A player whose file did not open keeps a nil implicitly unwrapped `audioPlayer` (Player.swift:5). Its `togglePlay` and `setProgress` dereference it (Player.swift:50, 68), so they trap rather than do nothing. `SharedPlayer` keeps such a failed player, and `play` / `setProgress` forward to it. The model therefore makes a loaded audio player a precondition of `Player.TogglePlay`, `Player.SetProgress`, `Play` and `SetProgressFromSlider`, and `Step` returns `None` for those operations.
- The `guard case .loaded` in `setProgress` never fails in a run that gets past the line before it: an audio player exists exactly when the state is loaded (`Inv`).
- The finish callback calls `notify(.stopped)`, which re-reads `currentTime`. The model reports whatever position the audio player holds then, without resetting it to 0.
- On load, the progress reported is the opened audio player's `currentTime`, which is 0 for a freshly opened file (`AudioEngine`'s constructor).
- `togglePlay` decides by the audio player's `isPlaying`, not by the phase in `state`.
- `setProgress` passes the time through without clamping.
- Replacing the recording builds the new `Player` first. Its initial `update` posts while the old player is still installed, so an observer reading `state` at that post sees the old player's state (or `.notLoaded` if there was none). Nothing more is posted until the new player next reports. Only after that post is the new player assigned, which releases the old one, whose `deinit` invalidates its timer. In the branch without a file, the old player is released before the post, and the post shows `.notLoaded`. `UpdateForChangedRecording` keeps both orders, and its contract states what each post shows.

## Left out

- AVFoundation (`AVAudioSession`, `AVAudioPlayer` decoding and output): foreign code. The model passes in whether the session activates and which audio player the url opened into. `AudioEngine` keeps only `duration`, `currentTime` and `isPlaying`.
- The url itself: the model never looks at it. Only the presence of a recording's `fileURL` matters.
- The result of `AVAudioPlayer.play()`: the code ignores it, and `AudioEngine.Play` always starts.
- `audioPlayer.delegate = self` (Player.swift:41): this is not a field of the model. Its consequences are kept: the finish callback requires a loaded player, and, since AVAudioPlayer calls its delegate only after it has stopped at the end of the item, one whose audio player is not playing. The `Finish` operation of `Step` stops the audio player before the callback runs.
- The `pl` and `flag` arguments of the finish callback: the code ignores both.
- Real-time scheduling of `Timer` on the run loop: a firing is the explicit `Player.Tick(t)` call, and the 0.05 s interval is only recorded on the timer. Progress that never decreases while playing depends on the operating system's player, not on this code, so it is not stated. `MoveEngine` may set any position.
- Deallocation by reference counting and the `[weak self]` captures: a player goes away only when `SharedPlayer` replaces it, which runs `Deinit`. The timer invalidation does what the weak captures guard against.
- `Player.notify` is callable from outside in the source, but only the player itself calls it. `Player.Notify` therefore does not promise `Valid()`, since a call from outside while a timer is live could break the timer-only-while-playing part of it.
- NotificationCenter delivery and observers: a post is an entry of the ghost log `Seen()`, holding what an observer reading `state` then sees.
- All UIKit code of `PlayViewController`: outlets, observer registration, `updateDisplay` / `updateControls`, text-field editing with `Recording.setName`, and the `Float` slider conversion. `SetProgressFromSlider` takes the slider value as a `real`.
- State restoration (`encodeRestorableState` / `decodeRestorableState`) and `Store.shared.item(atUUIDPath:)`: persistence and a store that is not part of this model.
- `RootViewController.swift`: UIKit layout, segues and split-view collapsing.
- `NSLocalizedString` and `timeString`: the three titles are their development-language strings "Play", "Pause" and "Resume playing", which matter only as distinct non-empty values.
