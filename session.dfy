/**
 * The playback-session bookkeeping of `PlayerImplemExoPlayer`: two player
 * slots, the crossfade-out of the retiring player, the slot reset at the start
 * of `open` with its event listener, the parameter setters, and the probe that
 * `PlayerImplemTesterExoPlayer.open` runs around them.
 */
module Session {
  import opened Optional
  import opened ErrorMapping
  import opened Compatibility
  import opened Fade
  import opened OpenEvents

  /** `Player.REPEAT_MODE_OFF`, `REPEAT_MODE_ONE`, `REPEAT_MODE_ALL`. */
  datatype RepeatMode = RepeatOff | RepeatOne | RepeatAll

  /** Everything the model observes of one ExoPlayer instance. */
  datatype EngineState = EngineState(
    prepared: bool,
    stopped: bool,
    released: bool,
    playWhenReady: bool,
    volume: int,                 // hundredths of full scale
    appliedVolumes: seq<int>,    // every volume set on the audio component, in order
    repeatMode: RepeatMode,
    speed: real,
    pitch: real,
    positionMs: int,
    durationMs: int)
  {
    /** The state after `stop()` and then `release()`. */
    function Retired(): EngineState {
      this.(stopped := true, released := true)
    }
  }

  /** `C.TIME_UNSET`: what ExoPlayer reports as the duration before it knows one. */
  const TimeUnset: int := -9223372036854775807

  function FreshEngine(): EngineState {
    EngineState(false, false, false, false, FullVolume, [], RepeatOff, 1.0, 1.0, 0, TimeUnset)
  }

  /** One ExoPlayer instance, an opaque engine of which only its flags and parameters are seen. */
  class Engine {
    var prepared: bool
    var stopped: bool
    var released: bool
    var playWhenReady: bool
    var volume: int
    var appliedVolumes: seq<int>
    var repeatMode: RepeatMode
    var speed: real
    var pitch: real
    var positionMs: int
    var durationMs: int

    function State(): EngineState
      reads this
    {
      EngineState(prepared, stopped, released, playWhenReady, volume, appliedVolumes,
                  repeatMode, speed, pitch, positionMs, durationMs)
    }

    constructor ()
      ensures State() == FreshEngine()
    {
      prepared, stopped, released, playWhenReady := false, false, false, false;
      volume, appliedVolumes := FullVolume, [];
      repeatMode, speed, pitch := RepeatOff, 1.0, 1.0;
      positionMs, durationMs := 0, TimeUnset;
    }

    method Prepare()
      modifies this
      ensures State() == old(State()).(prepared := true, stopped := false)
    {
      prepared, stopped := true, false;
    }

    method Stop()
      modifies this
      ensures State() == old(State()).(stopped := true)
    {
      stopped := true;
    }

    method Release()
      modifies this
      ensures State() == old(State()).(released := true)
    {
      released := true;
    }

    method SetPlayWhenReady(value: bool)
      modifies this
      ensures State() == old(State()).(playWhenReady := value)
    {
      playWhenReady := value;
    }

    method SetVolume(v: int)
      modifies this
      ensures State() == old(State()).(volume := v, appliedVolumes := old(appliedVolumes) + [v])
    {
      volume := v;
      appliedVolumes := appliedVolumes + [v];
    }

    method SeekTo(ms: int)
      modifies this
      ensures State() == old(State()).(positionMs := ms)
    {
      positionMs := ms;
    }

    method SetRepeatMode(mode: RepeatMode)
      modifies this
      ensures State() == old(State()).(repeatMode := mode)
    {
      repeatMode := mode;
    }

    method SetPlaybackParameters(newSpeed: real, newPitch: real)
      modifies this
      ensures State() == old(State()).(speed := newSpeed, pitch := newPitch)
    {
      speed, pitch := newSpeed, newPitch;
    }

    /** Environment: the engine has measured the media's duration. */
    method MediaLoaded(ms: int)
      modifies this
      ensures State() == old(State()).(durationMs := ms)
    {
      durationMs := ms;
    }
  }

  /** The controller's fields other than its callback log. */
  datatype SlotState = SlotState(current: Engine?, previous: Engine?, fadeVolume: int, isFadingOut: bool, pendingTicks: nat)

  /** `PlayerImplemExoPlayer`. */
  class SessionController {
    const engineType: EngineType
    var current: Engine?      // currentMediaPlayer
    var previous: Engine?     // previousMediaPlayer, the player fading out
    var fadeVolume: int       // volume, in hundredths
    var isFadingOut: bool
    var pendingTicks: nat     // updater runnables posted on fadeHandler
    var events: seq<Callback> // the callbacks invoked so far, in order

    /**
     * A player is retiring exactly while a fade runs, the fade timer is posted
     * exactly once during it, the fade volume is then within (0, 1], and the
     * retiring player is never the current one.
     */
    ghost predicate Valid()
      reads this
    {
      (isFadingOut <==> previous != null) &&
      pendingTicks == (if isFadingOut then 1 else 0) &&
      (isFadingOut ==> 0 < fadeVolume <= FullVolume) &&
      (previous != null ==> previous != current)
    }

    function Slots(): SlotState
      reads this
    {
      SlotState(current, previous, fadeVolume, isFadingOut, pendingTicks)
    }

    /** The ticks left before the fade ends; zero when no fade runs. */
    ghost function RemainingTicks(): nat
      reads this
    {
      if isFadingOut then |Schedule(fadeVolume)| else 0
    }

    /** `currentMediaPlayer?.duration ?: 0` */
    function CurrentDuration(): int
      reads this, current
    {
      if current != null then current.durationMs else 0
    }

    /** The `loopSingleAudio` getter. */
    function LoopSingleAudio(): bool
      reads this, current
    {
      current != null && current.repeatMode == RepeatAll
    }

    constructor (engineType: EngineType)
      ensures Valid() && this.engineType == engineType
      ensures current == null && previous == null && !isFadingOut && events == []
      ensures fadeVolume == FullVolume && pendingTicks == 0
    {
      this.engineType := engineType;
      current, previous := null, null;
      fadeVolume, isFadingOut, pendingTicks := FullVolume, false, 0;
      events := [];
    }

    /** Invokes the given callbacks, in order. */
    method Emit(callbacks: seq<Callback>)
      modifies this
      ensures Slots() == old(Slots()) && events == old(events) + callbacks
    {
      events := events + callbacks;
    }

    /** `cancelFadingOut`: stops and releases the retiring player and removes the fade timer. */
    method CancelFadingOut()
      requires previous != null ==> previous != current
      modifies this, previous
      ensures previous == null && !isFadingOut && pendingTicks == 0
      ensures current == old(current) && fadeVolume == old(fadeVolume) && events == old(events)
      ensures current != null ==> current.State() == old(current.State())
      ensures old(previous) != null ==> old(previous).State() == old(previous.State()).Retired()
    {
      if previous != null {
        previous.Stop();
        previous.Release();
      }
      previous := null;
      pendingTicks := 0;
      isFadingOut := false;
    }

    /** `stop(crossFade)` */
    method Stop(crossFade: bool)
      requires Valid()
      modifies this, current, previous
      ensures Valid() && events == old(events)
      ensures old(current) == null ==>
                Slots() == old(Slots()) && (previous != null ==> previous.State() == old(previous.State()))
      ensures old(current) != null ==> current == null
      ensures old(current) != null && old(previous) != null ==>
                old(previous).State() == old(previous.State()).Retired()
      ensures old(current) != null && crossFade ==>
                previous == old(current) && previous.State() == old(current.State()) &&
                fadeVolume == FullVolume && isFadingOut && pendingTicks == 1 && RemainingTicks() == 20
      ensures old(current) != null && !crossFade ==>
                previous == null && !isFadingOut && pendingTicks == 0 && fadeVolume == old(fadeVolume) &&
                old(current).State() == old(current.State()).Retired()
    {
      if current == null {
        return;
      }
      if isFadingOut {
        CancelFadingOut();
      }
      previous := current;
      current := null;
      if crossFade {
        fadeVolume := FullVolume;
        isFadingOut := true;
        pendingTicks := pendingTicks + 1;
        FullFadeTakesTwentyTicks();
      } else {
        previous.Stop();
        previous.Release();
        previous := null;
      }
    }

    /**
     * One run of the posted `updater`: `fadeOutStep(0.05F)`, re-post, and end
     * the fade once the volume is at or below zero. When nothing is posted the
     * handler runs nothing.
     */
    method Tick()
      requires Valid()
      modifies this, previous
      ensures Valid() && current == old(current) && events == old(events)
      ensures !old(isFadingOut) ==> Slots() == old(Slots())
      ensures old(isFadingOut) ==>
                fadeVolume == old(fadeVolume) - FadeStep &&
                RemainingTicks() == old(RemainingTicks()) - 1 &&
                old(previous).appliedVolumes == old(previous.appliedVolumes) + [old(fadeVolume)]
      ensures old(isFadingOut) && fadeVolume > 0 ==>
                previous == old(previous) && isFadingOut &&
                previous.State() == old(previous.State()).(volume := old(fadeVolume),
                                                          appliedVolumes := previous.appliedVolumes)
      ensures old(isFadingOut) && fadeVolume <= 0 ==>
                previous == null && !isFadingOut && pendingTicks == 0 &&
                old(previous).State() == old(previous.State()).(volume := old(fadeVolume),
                                                               appliedVolumes := old(previous).appliedVolumes).Retired()
    {
      if pendingTicks == 0 {
        return;
      }
      pendingTicks := pendingTicks - 1;
      assert Schedule(fadeVolume) == [fadeVolume] + Schedule(fadeVolume - FadeStep);
      // fadeOutStep
      previous.SetVolume(fadeVolume);
      fadeVolume := fadeVolume - FadeStep;
      // fadeHandler.postDelayed(updater, 250)
      pendingTicks := pendingTicks + 1;
      if fadeVolume <= 0 {
        CancelFadingOut();
      }
    }

    /**
     * The fade timer left to run until it stops re-posting itself: the number
     * of ticks is the remaining count, the retiring player receives exactly the
     * fade schedule, and it ends stopped and released.
     */
    method RunFadeToEnd() returns (ticks: nat)
      requires Valid()
      modifies this, previous
      ensures Valid() && !isFadingOut && previous == null
      ensures current == old(current) && events == old(events)
      ensures ticks == old(RemainingTicks())
      ensures old(previous) != null ==>
                old(previous).stopped && old(previous).released &&
                old(previous).appliedVolumes == old(previous.appliedVolumes) + Schedule(old(fadeVolume))
    {
      ghost var retiring := previous;
      ghost var log0 := if retiring != null then retiring.appliedVolumes else [];
      ghost var target := log0 + Schedule(fadeVolume);
      assert retiring != null ==> retiring.appliedVolumes == log0;
      ticks := 0;
      while pendingTicks > 0
        invariant Valid() && current == old(current) && events == old(events)
        invariant ticks + RemainingTicks() == old(RemainingTicks())
        invariant isFadingOut ==> previous == retiring
        invariant retiring != null && isFadingOut ==>
                    retiring.appliedVolumes + Schedule(fadeVolume) == target
        invariant retiring != null && !isFadingOut ==> retiring.appliedVolumes == target
        invariant retiring != null && !isFadingOut ==> retiring.stopped && retiring.released
        decreases RemainingTicks()
      {
        ghost var before := retiring.appliedVolumes;
        ghost var v := fadeVolume;
        Tick();
        ScheduleStep(before, v);
        assert retiring.appliedVolumes == before + [v];
        ticks := ticks + 1;
      }
    }

    /** `pause()`: ends any crossfade at once, then pauses the current player only. */
    method Pause()
      requires Valid()
      modifies this, current, previous
      ensures Valid() && events == old(events)
      ensures current == old(current) && previous == null && !isFadingOut && pendingTicks == 0
      ensures fadeVolume == old(fadeVolume)
      ensures old(previous) != null ==> old(previous).State() == old(previous.State()).Retired()
      ensures current != null ==> current.State() == old(current.State()).(playWhenReady := false)
    {
      if isFadingOut {
        CancelFadingOut();
      }
      if current != null {
        current.SetPlayWhenReady(false);
      }
    }

    /** `play()` */
    method Play()
      modifies current
      ensures current != null ==> current.State() == old(current.State()).(playWhenReady := true)
    {
      if current != null {
        current.SetPlayWhenReady(true);
      }
    }

    /** `seekTo(to)` */
    method SeekTo(to: int)
      modifies current
      ensures current != null ==> current.State() == old(current.State()).(positionMs := to)
    {
      if current != null {
        current.SeekTo(to);
      }
    }

    /** `setVolume(volume)`: the current player only, never the one fading out. */
    method SetVolume(v: int)
      modifies current
      ensures current != null ==>
                current.State() == old(current.State()).(volume := v, appliedVolumes := old(current.appliedVolumes) + [v])
    {
      if current != null {
        current.SetVolume(v);
      }
    }

    /** `setPlaySpeed(playSpeed)`: keeps the current pitch. */
    method SetPlaySpeed(playSpeed: real)
      modifies current
      ensures current != null ==> current.State() == old(current.State()).(speed := playSpeed)
      ensures current != null ==> current.pitch == old(current.pitch)
    {
      if current != null {
        current.SetPlaybackParameters(playSpeed, current.pitch);
      }
    }

    /** `setPitch(pitch)`: keeps the current speed. */
    method SetPitch(newPitch: real)
      modifies current
      ensures current != null ==> current.State() == old(current.State()).(pitch := newPitch)
      ensures current != null ==> current.speed == old(current.speed)
    {
      if current != null {
        current.SetPlaybackParameters(current.speed, newPitch);
      }
    }

    /** The `loopSingleAudio` setter; the getter then reads back what was set. */
    method SetLoopSingleAudio(value: bool)
      modifies current
      ensures current != null ==>
                current.State() == old(current.State()).(repeatMode := if value then RepeatAll else RepeatOff)
      ensures LoopSingleAudio() == (current != null && value)
    {
      if current != null {
        current.SetRepeatMode(if value then RepeatAll else RepeatOff);
      }
    }

    /** `release()`: releases the current player and leaves it in its slot. */
    method Release()
      modifies current
      ensures current != null ==> current.State() == old(current.State()).(released := true)
    {
      if current != null {
        current.Release();
      }
    }

    /**
     * The synchronous part of `open`: the slot reset, the new player, the
     * `stop()` that `getDataSource` starts with, then either the failure of
     * `getDataSource` (`sourceError`), which resumes the open with that raw
     * throwable, or the listener and `prepare`. A crossfade running while no
     * player is current is left running.
     */
    method Open(audioType: AudioType, sourceError: Option<RawError>) returns (call: OpenCall, listener: OpenListener?)
      requires Valid()
      modifies this, current, previous
      ensures Valid() && events == old(events)
      ensures fresh(call) && current != null && fresh(current)
      ensures old(current) != null ==>
                old(current).State() == old(current.State()).(released := true) &&
                previous == null && !isFadingOut && pendingTicks == 0 && fadeVolume == old(fadeVolume)
      ensures old(current) != null && old(previous) != null ==>
                old(previous).State() == old(previous.State()).Retired()
      ensures old(current) == null ==>
                previous == old(previous) && isFadingOut == old(isFadingOut) &&
                fadeVolume == old(fadeVolume) && pendingTicks == old(pendingTicks) &&
                (previous != null ==> previous.State() == old(previous.State()))
      ensures sourceError.Some? ==>
                listener == null && call.outcome == Some(Failed(Raw(sourceError.value))) &&
                current.State() == FreshEngine().(stopped := true)
      ensures sourceError.None? ==>
                listener != null && fresh(listener) && listener.Valid() &&
                listener.ctrl == this && listener.call == call && listener.audioType == audioType &&
                listener.State() == Initial() && current.State() == FreshEngine().(prepared := true)
    {
      call := new OpenCall();
      if current != null {
        current.Release();
        current := null;
        CancelFadingOut();
      }
      var engine := new Engine();
      current := engine;
      engine.Stop();
      if sourceError.Some? {
        call.Resume(Failed(Raw(sourceError.value)));
        listener := null;
      } else {
        listener := new OpenListener(this, call, audioType);
        engine.Prepare();
      }
    }
  }

  /** The continuation `open` suspends on, as a single-assignment result slot. */
  class OpenCall {
    var outcome: Option<OpenOutcome>

    constructor ()
      ensures outcome == None
    {
      outcome := None;
    }

    method Resume(o: OpenOutcome)
      modifies this
      ensures outcome == Settle(old(outcome), o)
    {
      if outcome.None? {
        outcome := Some(o);
      }
    }
  }

  /** The `Player.EventListener` that `open` adds to the new player. */
  class OpenListener {
    const ctrl: SessionController
    const call: OpenCall
    const audioType: AudioType
    var lastState: Option<PlaybackState>
    var ready: bool  // onThisMediaReady

    function State(): ListenerState
      reads this, call
    {
      ListenerState(lastState, ready, call.outcome)
    }

    ghost predicate Valid()
      reads this, call
    {
      Inv(State())
    }

    constructor (ctrl: SessionController, call: OpenCall, audioType: AudioType)
      ensures this.ctrl == ctrl && this.call == call && this.audioType == audioType
      ensures lastState == None && !ready
    {
      this.ctrl, this.call, this.audioType := ctrl, call, audioType;
      lastState, ready := None, false;
    }

    /** `onPlayerStateChanged(playWhenReady, playbackState)`: `playWhenReady` is not consulted. */
    method OnPlayerStateChanged(playbackState: PlaybackState)
      requires Valid() && ctrl.Valid()
      modifies this, call, ctrl, ctrl.current, ctrl.previous
      ensures Valid() && ctrl.Valid()
      ensures var r := Step(old(State()), audioType, StateChanged(playbackState, old(ctrl.CurrentDuration())));
              State() == r.next && ctrl.events == old(ctrl.events) + r.callbacks &&
              (r.pause ==>
                 ctrl.current == old(ctrl.current) && ctrl.previous == null && !ctrl.isFadingOut &&
                 (old(ctrl.previous) != null ==> old(ctrl.previous).State() == old(ctrl.previous.State()).Retired()) &&
                 (ctrl.current != null ==> ctrl.current.State() == old(ctrl.current.State()).(playWhenReady := false))) &&
              (!r.pause ==>
                 ctrl.Slots() == old(ctrl.Slots()) &&
                 (ctrl.current != null ==> ctrl.current.State() == old(ctrl.current.State())) &&
                 (ctrl.previous != null ==> ctrl.previous.State() == old(ctrl.previous.State())))
    {
      if lastState != Some(playbackState) {
        match playbackState
        case Ended =>
          ctrl.Pause();
          ctrl.Emit([Finished]);
          ctrl.Emit([BufferingChanged(false)]);
        case Buffering =>
          ctrl.Emit([BufferingChanged(true)]);
        case Ready =>
          ctrl.Emit([BufferingChanged(false)]);
          if !ready {
            ready := true;
            if audioType == Livestream {
              call.Resume(Resolved(0));
            } else {
              var duration := ctrl.CurrentDuration();
              call.Resume(Resolved(duration));
            }
          }
        case Idle =>
      }
      lastState := Some(playbackState);
    }

    /** `onPlayerError(error)`: fails the open before READY, reports to `onError` after. */
    method OnPlayerError(cause: Cause)
      requires Valid() && ctrl.Valid()
      modifies call, ctrl
      ensures Valid() && ctrl.Valid()
      ensures var r := Step(old(State()), audioType, PlayerErrored(cause));
              State() == r.next && ctrl.events == old(ctrl.events) + r.callbacks && ctrl.Slots() == old(ctrl.Slots())
    {
      var errorMapped := MapError(PlaybackException(cause));
      if !ready {
        call.Resume(Failed(Mapped(errorMapped)));
      } else {
        ctrl.Emit([ErrorRaised(errorMapped)]);
      }
    }
  }

  /**
   * `PlayerImplemTesterExoPlayer.open` up to the suspension: the compatibility
   * check comes before any player is built; then a player is built and opened.
   */
  method ProbeOpen(engineType: EngineType, audioType: AudioType, sourceError: Option<RawError>)
    returns (verdict: Verdict, player: SessionController?, call: OpenCall?, listener: OpenListener?)
    ensures verdict == Check(audioType, engineType)
    ensures verdict.Incompatible? ==> player == null && call == null && listener == null
    ensures verdict.Compatible? ==>
              player != null && fresh(player) && player.Valid() && player.engineType == engineType &&
              player.events == [] && player.previous == null && player.current != null &&
              fresh(player.current) && call != null && fresh(call)
    ensures verdict.Compatible? && sourceError.Some? ==>
              listener == null && call.outcome == Some(Failed(Raw(sourceError.value)))
    ensures verdict.Compatible? && sourceError.None? ==>
              listener != null && listener.Valid() && listener.ctrl == player && listener.call == call &&
              call.outcome == None
  {
    verdict := Check(audioType, engineType);
    if verdict.Incompatible? {
      return verdict, null, null, null;
    }
    player := new SessionController(engineType);
    var c, l := player.Open(audioType, sourceError);
    call, listener := c, l;
  }

  /**
   * The rest of `PlayerImplemTesterExoPlayer.open` once the open is resumed:
   * the duration is returned, or the player is released and the throwable
   * passed on.
   */
  method FinishProbe(player: SessionController, call: OpenCall) returns (duration: Option<int>)
    requires call.outcome.Some?
    modifies player.current
    ensures duration.Some? <==> call.outcome.value.Resolved?
    ensures duration.Some? ==> duration.value == call.outcome.value.durationMs
    ensures player.current != null ==>
              player.current.State() == if duration.Some? then old(player.current.State())
                                        else old(player.current.State()).(released := true)
  {
    match call.outcome.value
    case Resolved(ms) =>
      duration := Some(ms);
    case Failed(_) =>
      player.Release();
      duration := None;
  }

  /**
   * A crossfade into a new track: the old player fades out over twenty ticks
   * while the new one is current, and ends stopped and released.
   */
  method CrossfadeScenario()
  {
    var player := new SessionController(Default);
    var call1, listener1 := player.Open(Network, None);
    var first := player.current;
    player.Stop(true);
    assert player.previous == first && player.isFadingOut;
    var call2, listener2 := player.Open(Network, None);
    assert player.previous == first && player.current != first;
    var ticks := player.RunFadeToEnd();
    assert ticks == 20;
    assert first.stopped && first.released;
    assert first.appliedVolumes == Schedule(FullVolume);
  }

  /** Pausing during a crossfade releases the fading player; later ticks change nothing. */
  method PauseEndsCrossfadeScenario()
  {
    var player := new SessionController(HLS);
    var call1, listener1 := player.Open(Livestream, None);
    var first := player.current;
    player.Stop(true);
    player.Tick();
    assert first.appliedVolumes == [FullVolume];
    var call2, listener2 := player.Open(Livestream, None);
    player.Pause();
    assert first.released && first.stopped && !player.isFadingOut;
    player.Tick();
    assert first.appliedVolumes == [FullVolume] && first.released;
  }

  /** Opening over a current player releases it before the new one is prepared. */
  method ReopenScenario()
  {
    var player := new SessionController(Default);
    var call1, listener1 := player.Open(File, None);
    var first := player.current;
    var call2, listener2 := player.Open(Asset, None);
    assert first.released && !player.current.released && player.current.prepared;
    assert call1.outcome == None;
  }

  /** The first READY resolves the open, a repeated READY is ignored, and a later error goes to onError. */
  method ListenerScenario()
  {
    var player := new SessionController(Default);
    var call, listener := player.Open(Network, None);
    player.current.MediaLoaded(180000);
    listener.OnPlayerStateChanged(Buffering);
    assert player.events == [BufferingChanged(true)];
    listener.OnPlayerStateChanged(Ready);
    assert call.outcome == Some(Resolved(180000));
    listener.OnPlayerStateChanged(Ready);
    assert player.events == [BufferingChanged(true), BufferingChanged(false)];
    listener.OnPlayerError(InvalidResponseCode(404));
    assert call.outcome == Some(Resolved(180000));
    assert player.events[2] == ErrorRaised(UnreachableException(PlaybackException(InvalidResponseCode(404))));
    listener.OnPlayerStateChanged(Ended);
    assert !player.current.playWhenReady;
    assert player.events[3..] == [Finished, BufferingChanged(false)];
  }
}
