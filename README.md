# ExoPlayer session bookkeeping of assets_audio_player, in Dafny

This project models the Android ExoPlayer back end of the `assets_audio_player`
Flutter plugin (`PlayerImplemExoPlayer.kt`): the part that is the plugin's own
logic rather than calls into ExoPlayer.

- **Session controller** (`Session.SessionController`, the Kotlin class
  `PlayerImplemExoPlayer`). It has two player slots, `current` and `previous`.
  It also has the crossfade volume, the `isFadingOut` flag and the number of
  fade-timer runnables posted on the handler. The operations are `stop(crossFade)`,
  `pause`, `cancelFadingOut`, one run of the fade `updater`, the slot reset and
  listener set-up of `open`, `play`, `seekTo`, `setVolume`, `setPlaySpeed`,
  `setPitch`, `loopSingleAudio` and `release`. Each ExoPlayer instance is a
  `Session.Engine` object that only records its flags and parameters.
- **Open listener** (`Session.OpenListener`, and its decision function
  `OpenEvents.Step`). It is the `Player.EventListener` that `open` installs, with
  its captured `lastState` and `onThisMediaReady`. The suspended coroutine is a
  single-assignment result slot (`Session.OpenCall`). The three constructor
  callbacks `onFinished`, `onBuffering` and `onError` append to the controller's
  `events` log.
- **Pure decisions**: `mapError` (`ErrorMapping.MapError`) and the
  engine/audio-type check of `PlayerImplemTesterExoPlayer.open`
  (`Compatibility.Check`).

Abstractions:
- Volumes are integers in hundredths of full scale. `1f` is 100 and the fade
  step `0.05F` is 5, so a fade from full volume takes exactly 20 ticks.
- Speed and pitch are `real`.
- Audio types are the four `Player.AUDIO_TYPE_*` values, not arbitrary strings.
- A throwable is a `RawError`: an `ExoPlaybackException` with an abstract cause
  (none, an invalid HTTP response code, or something else), or any other
  throwable with an optional message.
- The handler is the counter `pendingTicks`. `post` adds one and
  `removeCallbacks` clears it. The environment calls `Tick()` when the posted
  runnable runs. A `Tick()` with nothing posted does nothing.
- Engine events are method calls on the listener (`OnPlayerStateChanged`,
  `OnPlayerError`), or elements of a trace for `OpenEvents.Run`. A state-change
  event in a trace carries the value `currentMediaPlayer?.duration ?: 0` has
  when it arrives. Note that this is the controller's current player at that
  moment, which is how the code reads it.

The engine check is modelled as written. `getDataSource` builds HLS, DASH and
SmoothStreaming media sources for network as well as livestream audio
(`PlayerImplemExoPlayer.kt:187` and `:204-209`). The comment at line 48 says some
types are only for web. Both suggest that adaptive engines were meant to accept
network and livestream sources. But the condition at line 49 compares the audio
type against `AUDIO_TYPE_LIVESTREAM` twice, so these engines reject every
non-livestream type, network included. `Compatibility.Check` is that condition
as written. `Compatibility.AcceptsStreamingTypes` is the network-or-livestream
rule. `Compatibility.CheckDiffersFromStreamingRuleOnNetworkOnly` proves the two
disagree exactly on network sources for adaptive engines.

## Model


| member | source | states |
|---|---|---|
| Compatibility.Check | android/src/main/kotlin/com/github/florent37/assets_audio_player/playerimplem/PlayerImplemExoPlayer.kt:49-53 | The Default engine accepts every audio type and livestream is accepted by every engine; HLS, DASH and SmoothStreaming reject every other type, network included, with `IncompatibleException(audioType, type)` |
| Compatibility.CheckDiffersFromStreamingRuleOnNetworkOnly | android/src/main/kotlin/com/github/florent37/assets_audio_player/playerimplem/PlayerImplemExoPlayer.kt:49-53 | The as-written check and the rule that adaptive engines take the HTTP-served types, network and livestream (lines 187, 204-209), disagree exactly when the source is network and the engine is adaptive |
| Session.ProbeOpen | android/src/main/kotlin/com/github/florent37/assets_audio_player/playerimplem/PlayerImplemExoPlayer.kt:44-78 | The verdict is the check; on incompatibility no player, call or listener is created; otherwise a fresh valid player with no callbacks yet is opened, and a source failure settles the call with that raw throwable |
| Session.FinishProbe | android/src/main/kotlin/com/github/florent37/assets_audio_player/playerimplem/PlayerImplemExoPlayer.kt:79-89 | A resolved open yields its duration and changes nothing; a failed one yields no duration and releases the current player |
| ErrorMapping.MapError | android/src/main/kotlin/com/github/florent37/assets_audio_player/playerimplem/PlayerImplemExoPlayer.kt:265-281 | Keeps the original throwable; `UnreachableException` exactly for a playback exception caused by an invalid response code of at least 400; a playback exception is never a `PlayerError`; `PlayerError` exactly for a non-playback throwable whose message does not mention "unable to connect" in any case |
| ErrorMapping.OccursFrom | android/src/main/kotlin/com/github/florent37/assets_audio_player/playerimplem/PlayerImplemExoPlayer.kt:274 | The case-insensitive search from index i succeeds iff the pattern matches, ignoring case, at some index at or after i |
| ErrorMapping.ContainsIgnoreCase | android/src/main/kotlin/com/github/florent37/assets_audio_player/playerimplem/PlayerImplemExoPlayer.kt:274 | `contains(p, ignoreCase = true)` holds iff the pattern matches, ignoring case, at some index |
| ErrorMapping.PhraseAnywhereIsNetworkError | android/src/main/kotlin/com/github/florent37/assets_audio_player/playerimplem/PlayerImplemExoPlayer.kt:274-276 | Any message containing "unable to connect", in any case and at any position, maps to `NetworkError` |
| ErrorMapping.ClassificationIgnoresCase | android/src/main/kotlin/com/github/florent37/assets_audio_player/playerimplem/PlayerImplemExoPlayer.kt:274-279 | Two messages equal up to letter case are classified alike |
| ErrorMapping.ClassificationExamples | android/src/main/kotlin/com/github/florent37/assets_audio_player/playerimplem/PlayerImplemExoPlayer.kt:265-281 | HTTP 404 is unreachable, 399 and other playback causes are network errors, "Unable to connect" is a network error, a throwable without message is a player error |
| Fade.Schedule | android/src/main/kotlin/com/github/florent37/assets_audio_player/playerimplem/PlayerImplemExoPlayer.kt:132-135 | The volumes the ticks of a fade apply, each lowering the volume by one step until it is at or below zero: all of them lie in (0, v], and a fade at a positive volume first applies that volume |
| Fade.ScheduleShape | android/src/main/kotlin/com/github/florent37/assets_audio_player/playerimplem/PlayerImplemExoPlayer.kt:109-117 | A fade at volume v (in hundredths) applies ceil(v / 5) volumes, the i-th being v minus i steps of 5 |
| Fade.ScheduleDecreasing | android/src/main/kotlin/com/github/florent37/assets_audio_player/playerimplem/PlayerImplemExoPlayer.kt:132-135 | The applied volumes strictly decrease and stay within (0, v] |
| Fade.FullFadeTakesTwentyTicks | android/src/main/kotlin/com/github/florent37/assets_audio_player/playerimplem/PlayerImplemExoPlayer.kt:106-117 | A fade from full volume runs for 20 ticks, the last applying 0.05 |
| Session.SessionController.constructor | android/src/main/kotlin/com/github/florent37/assets_audio_player/playerimplem/PlayerImplemExoPlayer.kt:93-107 | Both slots empty, fade volume full (`volume = 1f`), no fade and nothing posted, no callbacks yet, invariant holds |
| Session.SessionController.CancelFadingOut | android/src/main/kotlin/com/github/florent37/assets_audio_player/playerimplem/PlayerImplemExoPlayer.kt:137-143 | The retiring player, if any, is stopped and released; the slot is cleared, no timer is posted and no fade runs; when the retiring player is not the current one, the current player and the fade volume are untouched |
| Session.SessionController.Stop | android/src/main/kotlin/com/github/florent37/assets_audio_player/playerimplem/PlayerImplemExoPlayer.kt:146-164 | Without a current player nothing changes; otherwise any earlier retiring player is stopped and released and the current slot is cleared; with crossfade the old current player becomes the retiring one, untouched, at full fade volume with one tick posted and 20 ticks to go; without, it is stopped and released and both slots are empty |
| Session.SessionController.Tick | android/src/main/kotlin/com/github/florent37/assets_audio_player/playerimplem/PlayerImplemExoPlayer.kt:109-117 | With nothing posted nothing changes; otherwise the fade volume is applied to the retiring player, lowered by one step, the remaining tick count drops by one, and once the volume is at or below zero the retiring player is stopped, released and cleared and nothing stays posted |
| Session.SessionController.RunFadeToEnd | android/src/main/kotlin/com/github/florent37/assets_audio_player/playerimplem/PlayerImplemExoPlayer.kt:109-117 | The fade terminates after exactly the remaining tick count; the retiring player receives exactly the fade schedule and ends stopped and released, the current player untouched |
| Session.SessionController.Pause | android/src/main/kotlin/com/github/florent37/assets_audio_player/playerimplem/PlayerImplemExoPlayer.kt:170-175 | Any fade ends: the retiring player is stopped, released and cleared and no tick stays posted; only the current player changes, to `playWhenReady = false` |
| Session.SessionController.Play | android/src/main/kotlin/com/github/florent37/assets_audio_player/playerimplem/PlayerImplemExoPlayer.kt:166-168 | The current player, if any, gets `playWhenReady = true` and nothing else |
| Session.SessionController.SeekTo | android/src/main/kotlin/com/github/florent37/assets_audio_player/playerimplem/PlayerImplemExoPlayer.kt:378-380 | The current player, if any, is moved to the position and nothing else |
| Session.SessionController.SetVolume | android/src/main/kotlin/com/github/florent37/assets_audio_player/playerimplem/PlayerImplemExoPlayer.kt:382-384 | Only the current player's volume is set; a fading player is not affected |
| Session.SessionController.SetPlaySpeed | android/src/main/kotlin/com/github/florent37/assets_audio_player/playerimplem/PlayerImplemExoPlayer.kt:386-391 | The current player's speed is set and its pitch kept |
| Session.SessionController.SetPitch | android/src/main/kotlin/com/github/florent37/assets_audio_player/playerimplem/PlayerImplemExoPlayer.kt:393-398 | The current player's pitch is set and its speed kept |
| Session.SessionController.SetLoopSingleAudio | android/src/main/kotlin/com/github/florent37/assets_audio_player/playerimplem/PlayerImplemExoPlayer.kt:121-125 | Sets repeat-all or repeat-off on the current player; the getter `LoopSingleAudio` (line 122: repeat mode is repeat-all) then reads back the value set, or false with no current player |
| Session.SessionController.Release | android/src/main/kotlin/com/github/florent37/assets_audio_player/playerimplem/PlayerImplemExoPlayer.kt:374-376 | The current player is released and stays in its slot |
| Session.SessionController.Open | android/src/main/kotlin/com/github/florent37/assets_audio_player/playerimplem/PlayerImplemExoPlayer.kt:291-371 | An existing current player is released, without a fade, and any fade is cancelled; with no current player a running crossfade continues untouched; a fresh player becomes current and is stopped; a source failure settles the call with the raw throwable and installs no listener, otherwise a fresh listener in its initial state is installed and the player prepared |
| Session.OpenCall.Resume | android/src/main/kotlin/com/github/florent37/assets_audio_player/playerimplem/PlayerImplemExoPlayer.kt:291 | The first resume fills the result slot; a later one leaves it as it was |
| Session.OpenListener.OnPlayerStateChanged | android/src/main/kotlin/com/github/florent37/assets_audio_player/playerimplem/PlayerImplemExoPlayer.kt:329-360 | The listener state and callback log follow `OpenEvents.Step`, fed with `CurrentDuration`, that is `currentMediaPlayer?.duration ?: 0` read at event time (line 348); on a new ENDED the controller is paused as `Pause` states, otherwise the slots and both players are unchanged |
| Session.OpenListener.OnPlayerError | android/src/main/kotlin/com/github/florent37/assets_audio_player/playerimplem/PlayerImplemExoPlayer.kt:319-326 | The listener state and callback log follow `OpenEvents.Step`; the slots are unchanged |
| OpenEvents.Step | android/src/main/kotlin/com/github/florent37/assets_audio_player/playerimplem/PlayerImplemExoPlayer.kt:319-360 | Keeps the listener invariant; a settled result never changes, and it only gets settled by an error or READY while not ready; a repeated state does nothing, and every state event is recorded as `lastState` (line 359); pause happens exactly on a new ENDED, and the callbacks are then `onFinished` then `onBuffering(false)`; a new BUFFERING reports `onBuffering(true)` and a new READY `onBuffering(false)` and marks the media ready; a new IDLE reports nothing; only READY and errors touch readiness or the result; an error goes to `onError` exactly when ready |
| OpenEvents.OpenSettledByFirstReadyOrError | android/src/main/kotlin/com/github/florent37/assets_audio_player/playerimplem/PlayerImplemExoPlayer.kt:319-353 | For every event trace, the open result is that of the first READY (`ReadyDuration`: 0 for livestream, the duration read otherwise) or the first error (mapped), whichever comes first; none if neither occurs |
| OpenEvents.SettledAtMostOnce | android/src/main/kotlin/com/github/florent37/assets_audio_player/playerimplem/PlayerImplemExoPlayer.kt:342-343 | Once settled, the open result is the same after any further events |
| OpenEvents.LivestreamResolvesZero | android/src/main/kotlin/com/github/florent37/assets_audio_player/playerimplem/PlayerImplemExoPlayer.kt:345-346 | A livestream open that resolves resolves with 0 (`ReadyDuration`, line 346), whatever duration the engine reports |
| OpenEvents.NoErrorCallbackBeforeReady | android/src/main/kotlin/com/github/florent37/assets_audio_player/playerimplem/PlayerImplemExoPlayer.kt:321-322 | With no READY in the trace, no error ever reaches `onError` |
| OpenEvents.ErrorAfterReadyIsReported | android/src/main/kotlin/com/github/florent37/assets_audio_player/playerimplem/PlayerImplemExoPlayer.kt:323-325 | After READY an error appends exactly one `onError` with the mapped error and leaves the open result unchanged |

## Left out

- `getDataSource` (lines 177-243) is not modelled: the HTTP, HLS, DASH, SmoothStreaming, progressive and asset media sources, ClearKey DRM, the header copying and the `%20` escape of asset paths. These are ExoPlayer and Flutter calls. Only two effects are kept. Its first statement stops the (new) current player. A throw from it is the `sourceError` parameter of `Open`.
- `incrementBufferSize` (lines 245-263) only sets ExoPlayer load-control constants. `engineType` is stored but used only by these left-out parts.
- `getSessionId` (lines 400-414) depends on ExoPlayer's audio-listener dispatch.
- `isPlaying` and `currentPositionMs` (lines 127-130) read engine state straight through.
- Logging (lines 45-47, 84-86).
- Float arithmetic. Volumes are exact hundredths, so the model does not capture how many ticks a `Float` fade really takes before `volume <= 0f`.
- Time and threads. The 250 ms `postDelayed` is not modelled: ticks and engine events are explicit calls. The engine's own state transitions are not modelled; they are the events the environment delivers. The race between READY and error on two threads is not modelled.
- Session.OpenCall.Resume: a second resume is ignored, whereas Kotlin's continuation throws `IllegalStateException`. An example is a READY that follows an error before the first READY.
- The `else` branch of `open`'s `catch` (lines 367-369) cannot be taken: `onThisMediaReady` is still false while `open` runs synchronously. The model resumes with the raw throwable.
- ErrorMapping.ContainsIgnoreCase, ErrorMapping.OccursFrom, ErrorMapping.EqualIgnoringCase, ErrorMapping.PhraseAnywhereIsNetworkError, ErrorMapping.ClassificationIgnoresCase: `Fold` folds only ASCII letters, whereas Kotlin's `Char.equals(ignoreCase = true)` also folds non-ASCII letters. For the only pattern `mapError` searches for, "unable to connect", this changes nothing: no non-ASCII character upper- or lower-cases to one of its letters, so `MapError` classifies every message as the code does.
- The listener's `playWhenReady` argument is not consulted by the code and is not modelled.
- Session.FinishProbe: for a failure that arrives after the synchronous part of `open`, ordering against other events is not captured. The model runs the release once the call is settled.
