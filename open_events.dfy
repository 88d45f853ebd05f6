/**
 * The decisions of the `Player.EventListener` that `PlayerImplemExoPlayer.open`
 * installs, over the listener's captured variables `lastState` and
 * `onThisMediaReady` and the pending open result.
 */
module OpenEvents {
  import opened Optional
  import opened ErrorMapping
  import opened Compatibility

  /** `ExoPlayer.STATE_IDLE`, `STATE_BUFFERING`, `STATE_READY`, `STATE_ENDED`. */
  datatype PlaybackState = Idle | Buffering | Ready | Ended

  /**
   * What the engine reports to the listener. A state change carries the value
   * `currentMediaPlayer?.duration ?: 0` reads at that moment.
   */
  datatype EngineEvent =
    | StateChanged(playbackState: PlaybackState, currentDurationMs: int)
    | PlayerErrored(cause: Cause)

  /** The callbacks the player was constructed with: `onFinished`, `onBuffering`, `onError`. */
  datatype Callback = Finished | BufferingChanged(isBuffering: bool) | ErrorRaised(error: PlayerThrowable)

  /** What `open` throws: a classified engine error, or the raw throwable of its own `catch`. */
  datatype Thrown = Mapped(mapped: PlayerThrowable) | Raw(raw: RawError)

  /** How the suspended `open` is resumed. */
  datatype OpenOutcome = Resolved(durationMs: int) | Failed(thrown: Thrown)

  /** `lastState`, `onThisMediaReady`, and the continuation's result slot. */
  datatype ListenerState = ListenerState(lastState: Option<PlaybackState>, ready: bool, result: Option<OpenOutcome>)

  /** One event's effect: the new state, whether `pause()` is called, and the callbacks in order. */
  datatype Reaction = Reaction(next: ListenerState, pause: bool, callbacks: seq<Callback>)

  datatype RunResult = RunResult(final: ListenerState, callbacks: seq<Callback>)

  function Initial(): ListenerState {
    ListenerState(None, false, None)
  }

  /** Having seen READY means the media is ready, and then the open is settled. */
  ghost predicate Inv(ls: ListenerState) {
    (ls.lastState == Some(Ready) ==> ls.ready) && (ls.ready ==> ls.result.Some?)
  }

  /** A result slot is written once; a later resume leaves it as it is. */
  function Settle(slot: Option<OpenOutcome>, o: OpenOutcome): Option<OpenOutcome> {
    if slot.None? then Some(o) else slot
  }

  /** The duration the first READY resumes `open` with. */
  function ReadyDuration(audioType: AudioType, currentDurationMs: int): int {
    if audioType == Livestream then 0 else currentDurationMs
  }

  predicate IsReadyEvent(ev: EngineEvent) {
    ev.StateChanged? && ev.playbackState == Ready
  }

  /** `onPlayerError` and `onPlayerStateChanged`. */
  function Step(ls: ListenerState, audioType: AudioType, ev: EngineEvent): (r: Reaction)
    ensures Inv(ls) ==> Inv(r.next)
    ensures ls.result.Some? ==> r.next.result == ls.result
    ensures r.next.result != ls.result ==> ls.result.None? && !ls.ready && (ev.PlayerErrored? || IsReadyEvent(ev))
    ensures ev.StateChanged? && ls.lastState == Some(ev.playbackState) ==> r == Reaction(ls, false, [])
    ensures r.pause <==> ev.StateChanged? && ev.playbackState == Ended && ls.lastState != Some(Ended)
    ensures r.pause ==> r.callbacks == [Finished, BufferingChanged(false)]
    ensures ev.StateChanged? ==> r.next.lastState == Some(ev.playbackState)
    ensures ev.StateChanged? && ls.lastState != Some(ev.playbackState) && ev.playbackState == Buffering ==>
              r.callbacks == [BufferingChanged(true)] && r.next == ls.(lastState := Some(Buffering))
    ensures ev.StateChanged? && ls.lastState != Some(ev.playbackState) && ev.playbackState == Ready ==>
              r.callbacks == [BufferingChanged(false)] && r.next.ready
    ensures ev.StateChanged? && ls.lastState != Some(ev.playbackState) && ev.playbackState == Idle ==>
              r.callbacks == [] && r.next == ls.(lastState := Some(Idle))
    ensures ev.StateChanged? && ev.playbackState != Ready ==> r.next.ready == ls.ready && r.next.result == ls.result
    ensures ev.PlayerErrored? ==> r.next.ready == ls.ready && r.next.lastState == ls.lastState
    ensures ev.PlayerErrored? && ls.ready ==> r.callbacks == [ErrorRaised(MapError(PlaybackException(ev.cause)))]
    ensures ev.PlayerErrored? && !ls.ready ==> r.callbacks == []
  {
    match ev
    case PlayerErrored(cause) =>
      var mapped := MapError(PlaybackException(cause));
      if !ls.ready then Reaction(ls.(result := Settle(ls.result, Failed(Mapped(mapped)))), false, [])
      else Reaction(ls, false, [ErrorRaised(mapped)])
    case StateChanged(s, duration) =>
      var next := ls.(lastState := Some(s));
      if ls.lastState == Some(s) then Reaction(next, false, [])
      else match s
        case Ended => Reaction(next, true, [Finished, BufferingChanged(false)])
        case Buffering => Reaction(next, false, [BufferingChanged(true)])
        case Ready =>
          if !ls.ready then
            Reaction(next.(ready := true, result := Settle(ls.result, Resolved(ReadyDuration(audioType, duration)))),
                     false, [BufferingChanged(false)])
          else Reaction(next, false, [BufferingChanged(false)])
        case Idle => Reaction(next, false, [])
  }

  /** The listener's reaction to a sequence of engine events. */
  function Run(ls: ListenerState, audioType: AudioType, events: seq<EngineEvent>): RunResult
    decreases |events|
  {
    if events == [] then RunResult(ls, [])
    else
      var r := Step(ls, audioType, events[0]);
      var rest := Run(r.next, audioType, events[1..]);
      RunResult(rest.final, r.callbacks + rest.callbacks)
  }

  /** Independent reference: the open is decided by the first READY or error event. */
  function FirstOutcome(audioType: AudioType, events: seq<EngineEvent>): Option<OpenOutcome>
    decreases |events|
  {
    if events == [] then None
    else match events[0]
      case PlayerErrored(cause) => Some(Failed(Mapped(MapError(PlaybackException(cause)))))
      case StateChanged(s, duration) =>
        if s == Ready then Some(Resolved(ReadyDuration(audioType, duration)))
        else FirstOutcome(audioType, events[1..])
  }

  lemma {:induction false} RunAppend(ls: ListenerState, audioType: AudioType, e1: seq<EngineEvent>, e2: seq<EngineEvent>)
    ensures Run(ls, audioType, e1 + e2) ==
            RunResult(Run(Run(ls, audioType, e1).final, audioType, e2).final,
                      Run(ls, audioType, e1).callbacks + Run(Run(ls, audioType, e1).final, audioType, e2).callbacks)
    decreases |e1|
  {
    if e1 != [] {
      assert (e1 + e2)[0] == e1[0];
      assert (e1 + e2)[1..] == e1[1..] + e2;
      var r := Step(ls, audioType, e1[0]);
      RunAppend(r.next, audioType, e1[1..], e2);
      var mid := Run(r.next, audioType, e1[1..]);
      assert r.callbacks + (mid.callbacks + Run(mid.final, audioType, e2).callbacks) ==
             (r.callbacks + mid.callbacks) + Run(mid.final, audioType, e2).callbacks;
    } else {
      assert e1 + e2 == e2;
    }
  }

  /** Once the open is settled, no later event changes its result. */
  lemma {:induction false} SettledStays(ls: ListenerState, audioType: AudioType, events: seq<EngineEvent>)
    requires ls.result.Some?
    ensures Run(ls, audioType, events).final.result == ls.result
    decreases |events|
  {
    if events != [] {
      SettledStays(Step(ls, audioType, events[0]).next, audioType, events[1..]);
    }
  }

  lemma {:induction false} PendingSettlesByFirstDecisive(ls: ListenerState, audioType: AudioType, events: seq<EngineEvent>)
    requires ls.result.None? && !ls.ready && ls.lastState != Some(Ready)
    ensures Run(ls, audioType, events).final.result == FirstOutcome(audioType, events)
    decreases |events|
  {
    if events != [] {
      var next := Step(ls, audioType, events[0]).next;
      if next.result.Some? {
        SettledStays(next, audioType, events[1..]);
      } else {
        PendingSettlesByFirstDecisive(next, audioType, events[1..]);
      }
    }
  }

  /**
   * The open result is exactly the first READY (0 for livestream, otherwise the
   * duration read then) or the first error (classified by `mapError`); the
   * deduplication of states never hides that first READY.
   */
  lemma OpenSettledByFirstReadyOrError(audioType: AudioType, events: seq<EngineEvent>)
    ensures Run(Initial(), audioType, events).final.result == FirstOutcome(audioType, events)
  {
    PendingSettlesByFirstDecisive(Initial(), audioType, events);
  }

  /** A result, once present, is the same after any further events. */
  lemma SettledAtMostOnce(audioType: AudioType, e1: seq<EngineEvent>, e2: seq<EngineEvent>)
    requires Run(Initial(), audioType, e1).final.result.Some?
    ensures Run(Initial(), audioType, e1 + e2).final.result == Run(Initial(), audioType, e1).final.result
  {
    RunAppend(Initial(), audioType, e1, e2);
    SettledStays(Run(Initial(), audioType, e1).final, audioType, e2);
  }

  lemma {:induction false} FirstOutcomeOfLivestream(events: seq<EngineEvent>)
    ensures FirstOutcome(Livestream, events).Some? && FirstOutcome(Livestream, events).value.Resolved? ==>
            FirstOutcome(Livestream, events).value.durationMs == 0
    decreases |events|
  {
    if events != [] && events[0].StateChanged? && events[0].playbackState != Ready {
      FirstOutcomeOfLivestream(events[1..]);
    }
  }

  /** Opening a livestream resolves with duration 0, whatever the engine reports. */
  lemma LivestreamResolvesZero(events: seq<EngineEvent>)
    requires Run(Initial(), Livestream, events).final.result.Some?
    requires Run(Initial(), Livestream, events).final.result.value.Resolved?
    ensures Run(Initial(), Livestream, events).final.result.value.durationMs == 0
  {
    OpenSettledByFirstReadyOrError(Livestream, events);
    FirstOutcomeOfLivestream(events);
  }

  lemma {:induction false} NoErrorCallbackWhilePending(ls: ListenerState, audioType: AudioType, events: seq<EngineEvent>)
    requires !ls.ready
    requires forall i :: 0 <= i < |events| ==> !IsReadyEvent(events[i])
    ensures forall k :: 0 <= k < |Run(ls, audioType, events).callbacks| ==> !Run(ls, audioType, events).callbacks[k].ErrorRaised?
    ensures !Run(ls, audioType, events).final.ready
    decreases |events|
  {
    if events != [] {
      assert !IsReadyEvent(events[0]);
      NoErrorCallbackWhilePending(Step(ls, audioType, events[0]).next, audioType, events[1..]);
    }
  }

  /** Before any READY, no error reaches `onError`: such errors fail the open instead. */
  lemma NoErrorCallbackBeforeReady(audioType: AudioType, events: seq<EngineEvent>)
    requires forall i :: 0 <= i < |events| ==> !IsReadyEvent(events[i])
    ensures forall k :: 0 <= k < |Run(Initial(), audioType, events).callbacks| ==>
              !Run(Initial(), audioType, events).callbacks[k].ErrorRaised?
  {
    NoErrorCallbackWhilePending(Initial(), audioType, events);
  }

  /** After READY, an error goes to `onError` and leaves the open result alone. */
  lemma ErrorAfterReadyIsReported(audioType: AudioType, events: seq<EngineEvent>, cause: Cause)
    requires Run(Initial(), audioType, events).final.ready
    ensures Run(Initial(), audioType, events + [PlayerErrored(cause)]).callbacks ==
            Run(Initial(), audioType, events).callbacks + [ErrorRaised(MapError(PlaybackException(cause)))]
    ensures Run(Initial(), audioType, events + [PlayerErrored(cause)]).final.result ==
            Run(Initial(), audioType, events).final.result
  {
    RunAppend(Initial(), audioType, events, [PlayerErrored(cause)]);
    var mid := Run(Initial(), audioType, events).final;
    assert Run(mid, audioType, [PlayerErrored(cause)]).callbacks == [ErrorRaised(MapError(PlaybackException(cause)))] + [];
  }
}
