/**
 * What both player reducers share: the play/pause flag, the effects a
 * reducer hands back to the runtime (as data, never executed here), and the
 * seek arithmetic of the two rewind buttons.
 */
module Playback {
  import opened AudioPlayer

  /** `PlayerState`. */
  datatype PlayerState = Playing | Paused

  /**
   * An effect a reducer returns. The runtime that runs them, their
   * cancellation slots ("play" and "timer") and the ticker are not modelled;
   * each constructor records what the returned effect would do.
   */
  datatype Effect =
      /** `.cancel(id: .play)`: stop the engine-control operation. */
    | CancelPlay
      /** `.cancel(id: .timer)`: stop the one-second ticker. */
    | CancelTimer
      /** Ask the engine for the duration of `urls[track]`, then send it back as a duration action. */
    | QueryDuration(track: int)
      /** In the "play" slot: send the ticker-start action, then run `command` on `urls[track]`. */
    | StartEngine(track: int, command: Command)
      /** In the "timer" slot: send the time-advance action every second. */
    | StartTicker
      /** Send the `play` player action again; `inPlaySlot` when it replaces what runs in the "play" slot. */
    | SendPlay(inPlaySlot: bool)
      /** `.send(.playerAction(.didFinishPlaying))`. */
    | SendDidFinish
      /** Fetch the book with this id, then send the result back. */
    | FetchBook(bookId: string)

  /** The back-seek step, `Constant.rewindBackTime` (5 seconds). */
  const RewindBackTime: real := 5.0

  /** The forward-seek step, `Constant.rewindForwardTime` (10 seconds). */
  const RewindForwardTime: real := 10.0

  function Max(a: real, b: real): real {
    if a >= b then a else b
  }

  function Min(a: real, b: real): real {
    if a <= b then a else b
  }

  /** The elapsed time after seeking back: never below zero. */
  function RewoundBack(time: real): (t: real)
    ensures t == Max(0.0, time - RewindBackTime)
    ensures 0.0 <= t
    ensures time > 0.0 ==> t < time
  {
    if time <= RewindBackTime then 0.0 else time - RewindBackTime
  }

  /** The elapsed time after seeking forward from a time within the track: never past its end. */
  function RewoundForward(time: real, duration: real): (t: real)
    ensures time <= duration ==> t == Min(duration, time + RewindForwardTime)
    ensures time <= duration ==> time <= t <= duration
  {
    if time >= duration - RewindForwardTime then duration else time + RewindForwardTime
  }

  /** The re-play that `playIfNeeded` appends: present exactly when playing. */
  function ReplayIfPlaying(playerState: PlayerState): (effects: seq<Effect>)
    ensures playerState == Playing <==> SendPlay(true) in effects
    ensures playerState == Playing ==> effects == [SendPlay(true)]
    ensures playerState == Paused ==> effects == []
  {
    if playerState == Playing then [SendPlay(true)] else []
  }
}
