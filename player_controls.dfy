/**
 * `PlayerControlsReducer`: the player's transition function. Each action
 * updates the state in place and returns a list of effects.
 *
 * The pure functions `On...` and `Transition` say what one action does to a
 * state value; the class `Store` holds the state in mutable fields and its
 * method `Reduce` performs the same update step by step, proved equal to
 * `Transition`.
 */
module PlayerControls {
  import opened AudioPlayer
  import opened Library
  import opened AudioInfoState
  import opened Playback

  /** `PlayerControlsReducer.Action.PlayerAction`. */
  datatype PlayerAction =
    | Play
    | Pause
    | Back
    | Next
    | RewindBack
    | RewindForward
    | ChangeSpeed
    | DidFinishPlaying

  /** `PlayerControlsReducer.Action`; Swift's `Float` and `TimeInterval` payloads are reals. */
  datatype Action =
    | OnAppear
    | StartTimer
    | UpdateCurrentAudioTime
    | UpdateSliderProgress(value: real)
    | GetTotalDuration(duration: real)
    | ShowText
    | HideText
    | Player(action: PlayerAction)

  /** `PlayerControlsReducer.State` as a value. */
  datatype State = State(
    book: Book,
    playerState: PlayerState,
    audioInfo: AudioInfo,
    shouldPresentText: bool)

  /** A state and the effects one action returned. */
  datatype Step = Step(state: State, effects: seq<Effect>)

  /** The state the screen starts with for `book` (every other field at its default). */
  function Initial(book: Book): State {
    State(book, Paused, Empty, false)
  }

  function Index(s: State): int {
    s.audioInfo.currentAudioIndex
  }

  /** The book has tracks and the index points at one of them. */
  predicate Valid(s: State) {
    HasTrack(s.book, Index(s))
  }

  /**
   * Every `urls[...]` the action evaluates while reducing is in range.
   * Swift traps on an out-of-range subscript, so these are the action's
   * preconditions: `onAppear` and `play` read the current track; `back` and
   * `next` read it when they are not at their end; `didFinishPlaying` reads
   * the following track when it is not at the last one.
   */
  predicate InBounds(s: State, a: Action) {
    match a
    case OnAppear => HasTrack(s.book, Index(s))
    case Player(Play) => HasTrack(s.book, Index(s))
    case Player(Back) => !IsFirstAudio(Index(s)) ==> HasTrack(s.book, Index(s))
    case Player(Next) => !IsLastAudio(s.book, Index(s)) ==> HasTrack(s.book, Index(s))
    case Player(DidFinishPlaying) => !IsLastAudio(s.book, Index(s)) ==> HasTrack(s.book, Index(s) + 1)
    case _ => true
  }

  /** An effect that names a track names one the book has. */
  predicate EffectInRange(b: Book, e: Effect) {
    (e.QueryDuration? ==> HasTrack(b, e.track)) && (e.StartEngine? ==> HasTrack(b, e.track))
  }

  /** In a valid state no action reads past the end of `urls`. */
  lemma ValidIsInBounds(s: State, a: Action)
    requires Valid(s)
    ensures InBounds(s, a)
  {
  }

  /** `play`: mark playing and start the engine on the current track from the current time and speed. */
  function OnPlay(s: State): (r: Step)
    requires HasTrack(s.book, Index(s))
    ensures r.state == s.(playerState := Playing)
    ensures r.effects == [StartEngine(Index(s), Command.Play(s.audioInfo.currentTime, s.audioInfo.currentPlaybackSpeed))]
    ensures forall e | e in r.effects :: EffectInRange(s.book, e)
  {
    Step(s.(playerState := Playing),
         [StartEngine(Index(s), Command.Play(s.audioInfo.currentTime, s.audioInfo.currentPlaybackSpeed))])
  }

  /** `pause`: mark paused and cancel both the engine and the ticker; nothing else changes. */
  function OnPause(s: State): (r: Step)
    ensures r.state.playerState == Paused
    ensures r.state.audioInfo == s.audioInfo && r.state.book == s.book
    ensures r.state.shouldPresentText == s.shouldPresentText
    ensures r.effects == [CancelPlay, CancelTimer]
  {
    Step(s.(playerState := Paused), [CancelPlay, CancelTimer])
  }

  /** The state after moving to track `i`: time and duration start over, speed and play state stay. */
  function AtTrack(s: State, i: int): State {
    s.(audioInfo := s.audioInfo.(currentAudioIndex := i, currentTime := 0.0, totalDuration := 0.0))
  }

  /**
   * `back`: nothing at the first track. Otherwise move one track back,
   * restart time and duration, cancel engine and ticker, query a duration,
   * and re-play exactly when playing. The duration queried is that of the
   * track being LEFT, because the locator is read before the index changes.
   */
  function OnBack(s: State): (r: Step)
    requires !IsFirstAudio(Index(s)) ==> HasTrack(s.book, Index(s))
    ensures IsFirstAudio(Index(s)) ==> r == Step(s, [])
    ensures !IsFirstAudio(Index(s)) ==>
      && Index(r.state) == Index(s) - 1
      && r.state.audioInfo.currentTime == 0.0 && r.state.audioInfo.totalDuration == 0.0
      && r.state.audioInfo.currentPlaybackSpeed == s.audioInfo.currentPlaybackSpeed
      && r.state.playerState == s.playerState && r.state.book == s.book
      && r.state.shouldPresentText == s.shouldPresentText
      && r.effects == [CancelPlay, CancelTimer, QueryDuration(Index(s))] + ReplayIfPlaying(s.playerState)
      && QueryDuration(Index(r.state) + 1) in r.effects
    ensures Valid(s) ==> Valid(r.state)
    ensures forall e | e in r.effects :: EffectInRange(s.book, e)
  {
    if IsFirstAudio(Index(s)) then Step(s, [])
    else Step(AtTrack(s, Index(s) - 1),
              [CancelPlay, CancelTimer, QueryDuration(Index(s))] + ReplayIfPlaying(s.playerState))
  }

  /**
   * `next`: nothing at the last track. Otherwise move one track on, with the
   * same effects as `back`; here too the duration queried is that of the
   * track being left.
   */
  function OnNext(s: State): (r: Step)
    requires !IsLastAudio(s.book, Index(s)) ==> HasTrack(s.book, Index(s))
    ensures IsLastAudio(s.book, Index(s)) ==> r == Step(s, [])
    ensures !IsLastAudio(s.book, Index(s)) ==>
      && Index(r.state) == Index(s) + 1
      && r.state.audioInfo.currentTime == 0.0 && r.state.audioInfo.totalDuration == 0.0
      && r.state.audioInfo.currentPlaybackSpeed == s.audioInfo.currentPlaybackSpeed
      && r.state.playerState == s.playerState && r.state.book == s.book
      && r.state.shouldPresentText == s.shouldPresentText
      && r.effects == [CancelPlay, CancelTimer, QueryDuration(Index(s))] + ReplayIfPlaying(s.playerState)
      && QueryDuration(Index(r.state) - 1) in r.effects
    ensures Valid(s) ==> Valid(r.state)
    ensures forall e | e in r.effects :: EffectInRange(s.book, e)
  {
    if IsLastAudio(s.book, Index(s)) then Step(s, [])
    else Step(AtTrack(s, Index(s) + 1),
              [CancelPlay, CancelTimer, QueryDuration(Index(s))] + ReplayIfPlaying(s.playerState))
  }

  /** `rewindBack`: nothing at time 0; otherwise go back 5 seconds, not below 0, and restart if playing. */
  function OnRewindBack(s: State): (r: Step)
    ensures s.audioInfo.currentTime == 0.0 ==> r == Step(s, [])
    ensures s.audioInfo.currentTime != 0.0 ==>
      && r.state == s.(audioInfo := s.audioInfo.(currentTime := Max(0.0, s.audioInfo.currentTime - RewindBackTime)))
      && r.effects == [CancelPlay, CancelTimer] + ReplayIfPlaying(s.playerState)
    ensures 0.0 <= r.state.audioInfo.currentTime || r == Step(s, [])
  {
    if s.audioInfo.currentTime == 0.0 then Step(s, [])
    else Step(s.(audioInfo := s.audioInfo.(currentTime := RewoundBack(s.audioInfo.currentTime))),
              [CancelPlay, CancelTimer] + ReplayIfPlaying(s.playerState))
  }

  /**
   * `rewindForward`: nothing when the time is already past the duration;
   * otherwise go forward 10 seconds, not past the duration, and restart if
   * playing.
   */
  function OnRewindForward(s: State): (r: Step)
    ensures s.audioInfo.currentTime > s.audioInfo.totalDuration ==> r == Step(s, [])
    ensures s.audioInfo.currentTime <= s.audioInfo.totalDuration ==>
      && r.state == s.(audioInfo := s.audioInfo.(currentTime :=
           Min(s.audioInfo.totalDuration, s.audioInfo.currentTime + RewindForwardTime)))
      && s.audioInfo.currentTime <= r.state.audioInfo.currentTime <= r.state.audioInfo.totalDuration
      && r.effects == [CancelPlay, CancelTimer] + ReplayIfPlaying(s.playerState)
  {
    var t, d := s.audioInfo.currentTime, s.audioInfo.totalDuration;
    if !(t <= d) then Step(s, [])
    else Step(s.(audioInfo := s.audioInfo.(currentTime := RewoundForward(t, d))),
              [CancelPlay, CancelTimer] + ReplayIfPlaying(s.playerState))
  }

  /** `changeSpeed`: the next speed in `allCases`, wrapping; a restart when playing, nothing when paused. */
  function OnChangeSpeed(s: State): (r: Step)
    ensures r.state == s.(audioInfo := s.audioInfo.(currentPlaybackSpeed := NextSpeed(s.audioInfo.currentPlaybackSpeed)))
    ensures PlaybackSpeedIndex(r.state.audioInfo.currentPlaybackSpeed)
         == (PlaybackSpeedIndex(s.audioInfo.currentPlaybackSpeed) + 1) % 7
    ensures s.playerState == Playing ==> r.effects == [CancelPlay, SendPlay(true)]
    ensures s.playerState == Paused ==> r.effects == []
  {
    var st := s.(audioInfo := s.audioInfo.(currentPlaybackSpeed := NextSpeed(s.audioInfo.currentPlaybackSpeed)));
    if s.playerState == Playing then Step(st, [CancelPlay, SendPlay(true)]) else Step(st, [])
  }

  /**
   * `didFinishPlaying`: always pauses and cancels engine and ticker. On the
   * last track that is all; otherwise move to the next track with time and
   * duration restarted and query the duration of that NEW track.
   */
  function OnDidFinishPlaying(s: State): (r: Step)
    requires !IsLastAudio(s.book, Index(s)) ==> HasTrack(s.book, Index(s) + 1)
    ensures r.state.playerState == Paused && |r.effects| >= 2 && r.effects[..2] == [CancelPlay, CancelTimer]
    ensures IsLastAudio(s.book, Index(s)) ==> r == Step(s.(playerState := Paused), [CancelPlay, CancelTimer])
    ensures !IsLastAudio(s.book, Index(s)) ==>
      && r.state == AtTrack(s, Index(s) + 1).(playerState := Paused)
      && r.effects == [CancelPlay, CancelTimer, QueryDuration(Index(r.state))]
    ensures Valid(s) ==> Valid(r.state)
    ensures forall e | e in r.effects :: EffectInRange(s.book, e)
  {
    if IsLastAudio(s.book, Index(s)) then Step(s.(playerState := Paused), [CancelPlay, CancelTimer])
    else Step(AtTrack(s, Index(s) + 1).(playerState := Paused),
              [CancelPlay, CancelTimer, QueryDuration(Index(s) + 1)])
  }

  /**
   * `updateCurrentAudioTime`, one tick: past the duration it only cancels
   * ticker and engine; otherwise the time grows by exactly one second and
   * `didFinishPlaying` is sent exactly when the new time reaches the
   * duration.
   */
  function OnUpdateCurrentAudioTime(s: State): (r: Step)
    ensures s.audioInfo.currentTime > s.audioInfo.totalDuration ==> r == Step(s, [CancelTimer, CancelPlay])
    ensures s.audioInfo.currentTime <= s.audioInfo.totalDuration ==>
      && r.state == s.(audioInfo := s.audioInfo.(currentTime := s.audioInfo.currentTime + 1.0))
      && (r.effects == [SendDidFinish] <==> r.state.audioInfo.currentTime >= s.audioInfo.totalDuration)
      && (r.effects == [] <==> r.state.audioInfo.currentTime < s.audioInfo.totalDuration)
  {
    var t, d := s.audioInfo.currentTime, s.audioInfo.totalDuration;
    if !(t <= d) then Step(s, [CancelTimer, CancelPlay])
    else
      var st := s.(audioInfo := s.audioInfo.(currentTime := t + 1.0));
      if t + 1.0 >= d then Step(st, [SendDidFinish]) else Step(st, [])
  }

  /**
   * `updateSliderProgress(v)`: move the time to fraction `v` of the duration;
   * when playing, cancel the engine and send `play` again (outside the "play"
   * slot).
   */
  function OnUpdateSliderProgress(s: State, v: real): (r: Step)
    ensures r.state == s.(audioInfo := WithSliderValue(s.audioInfo, v))
    ensures s.audioInfo.totalDuration > 0.0 ==> SliderValue(r.state.audioInfo) == v
    ensures s.playerState == Playing ==> r.effects == [CancelPlay, SendPlay(false)]
    ensures s.playerState == Paused ==> r.effects == []
  {
    var st := s.(audioInfo := WithSliderValue(s.audioInfo, v));
    if s.playerState == Playing then Step(st, [CancelPlay, SendPlay(false)]) else Step(st, [])
  }

  function PlayerTransition(s: State, pa: PlayerAction): (r: Step)
    requires InBounds(s, Player(pa))
  {
    match pa
    case Play => OnPlay(s)
    case Pause => OnPause(s)
    case Back => OnBack(s)
    case Next => OnNext(s)
    case RewindBack => OnRewindBack(s)
    case RewindForward => OnRewindForward(s)
    case ChangeSpeed => OnChangeSpeed(s)
    case DidFinishPlaying => OnDidFinishPlaying(s)
  }

  /**
   * The reducer: one action against one state. The book never changes;
   * a valid state stays valid; every track an effect names exists; only
   * `changeSpeed` changes the speed; only `back`, `next` and
   * `didFinishPlaying` change the track. The actions without an `On...`
   * function are stated here in full: `onAppear` queries the current track's
   * duration, `startTimer` starts the ticker, the duration answer sets only
   * the duration, and the text toggles set only the flag.
   */
  function Transition(s: State, a: Action): (r: Step)
    requires InBounds(s, a)
    ensures r.state.book == s.book
    ensures Valid(s) ==> Valid(r.state)
    ensures Valid(s) ==> forall e | e in r.effects :: EffectInRange(s.book, e)
    ensures a != Player(ChangeSpeed) ==>
      r.state.audioInfo.currentPlaybackSpeed == s.audioInfo.currentPlaybackSpeed
    ensures a !in {Player(Back), Player(Next), Player(DidFinishPlaying)} ==> Index(r.state) == Index(s)
    ensures a == OnAppear ==> r == Step(s, [QueryDuration(Index(s))])
    ensures a == StartTimer ==> r == Step(s, [StartTicker])
    ensures a.GetTotalDuration? ==> r == Step(s.(audioInfo := s.audioInfo.(totalDuration := a.duration)), [])
    ensures a == ShowText || a == HideText ==> r == Step(s.(shouldPresentText := a == ShowText), [])
  {
    match a
    case OnAppear => Step(s, [QueryDuration(Index(s))])
    case StartTimer => Step(s, [StartTicker])
    case UpdateCurrentAudioTime => OnUpdateCurrentAudioTime(s)
    case UpdateSliderProgress(v) => OnUpdateSliderProgress(s, v)
    case GetTotalDuration(d) => Step(s.(audioInfo := s.audioInfo.(totalDuration := d)), [])
    case ShowText => Step(s.(shouldPresentText := true), [])
    case HideText => Step(s.(shouldPresentText := false), [])
    case Player(pa) => PlayerTransition(s, pa)
  }

  /** Pausing twice is the same as pausing once: same state, same two cancels. */
  lemma PauseIsIdempotent(s: State)
    ensures OnPause(OnPause(s).state) == OnPause(s)
  {
  }

  /** `next` undoes `back`: the track comes back, with time and duration restarted. */
  lemma NextUndoesBack(s: State)
    requires Valid(s) && !IsFirstAudio(Index(s))
    ensures OnNext(OnBack(s).state).state == AtTrack(s, Index(s))
  {
  }

  /** The mutable form of the state, as the reducer sees it through `inout`. */
  class Store {
    var book: Book
    var playerState: PlayerState
    var audioInfo: AudioInfo
    var shouldPresentText: bool

    function Value(): State
      reads this
    {
      State(book, playerState, audioInfo, shouldPresentText)
    }

    constructor (book: Book)
      ensures Value() == Initial(book)
    {
      this.book := book;
      playerState := Paused;
      audioInfo := Empty;
      shouldPresentText := false;
    }

    /** `playIfNeeded`: append a re-play (in the "play" slot) when playing. */
    method PlayIfNeeded(effects: seq<Effect>) returns (r: seq<Effect>)
      ensures r == effects + ReplayIfPlaying(playerState)
      ensures playerState == Playing <==> |r| == |effects| + 1
    {
      r := effects;
      if playerState != Playing {
        return;
      }
      r := r + [SendPlay(true)];
    }

    /** The `sliderValue` setter, assigning the elapsed time in place. */
    method SetSliderValue(v: real)
      modifies this
      ensures Value() == old(Value()).(audioInfo := WithSliderValue(old(audioInfo), v))
      ensures old(audioInfo.totalDuration) > 0.0 ==> SliderValue(audioInfo) == v
    {
      audioInfo := audioInfo.(currentTime := v * audioInfo.totalDuration);
    }

    /** The reducer body: the state is changed field by field and the effects collected in a list. */
    method Reduce(a: Action) returns (effects: seq<Effect>)
      requires InBounds(Value(), a)
      modifies this
      ensures Step(Value(), effects) == Transition(old(Value()), a)
    {
      match a
      case OnAppear =>
        effects := [QueryDuration(audioInfo.currentAudioIndex)];
      case Player(pa) =>
        effects := ReducePlayerAction(pa);
      case UpdateCurrentAudioTime =>
        if !(audioInfo.currentTime <= audioInfo.totalDuration) {
          effects := [CancelTimer, CancelPlay];
          return;
        }
        audioInfo := audioInfo.(currentTime := audioInfo.currentTime + 1.0);
        if audioInfo.currentTime >= audioInfo.totalDuration {
          effects := [SendDidFinish];
          return;
        }
        effects := [];
      case UpdateSliderProgress(v) =>
        SetSliderValue(v);
        effects := [];
        if playerState == Playing {
          effects := [CancelPlay, SendPlay(false)];
        }
      case StartTimer =>
        effects := [StartTicker];
      case GetTotalDuration(d) =>
        audioInfo := audioInfo.(totalDuration := d);
        effects := [];
      case ShowText =>
        shouldPresentText := true;
        effects := [];
      case HideText =>
        shouldPresentText := false;
        effects := [];
    }

    method ReducePlayerAction(pa: PlayerAction) returns (effects: seq<Effect>)
      requires InBounds(Value(), Player(pa))
      modifies this
      ensures Step(Value(), effects) == PlayerTransition(old(Value()), pa)
    {
      var defaultCancelEffects := [CancelPlay, CancelTimer];
      match pa
      case Play =>
        playerState := Playing;
        var time := audioInfo.currentTime;
        var speed := audioInfo.currentPlaybackSpeed;
        effects := [StartEngine(audioInfo.currentAudioIndex, Command.Play(time, speed))];
      case Pause =>
        playerState := Paused;
        effects := [CancelPlay, CancelTimer];
      case Back =>
        if IsFirstAudio(audioInfo.currentAudioIndex) {
          return [];
        }
        effects := defaultCancelEffects;
        effects := effects + [QueryDuration(audioInfo.currentAudioIndex)];
        audioInfo := audioInfo.(currentAudioIndex := audioInfo.currentAudioIndex - 1);
        audioInfo := audioInfo.(currentTime := 0.0);
        audioInfo := audioInfo.(totalDuration := 0.0);
        effects := PlayIfNeeded(effects);
      case Next =>
        if IsLastAudio(book, audioInfo.currentAudioIndex) {
          return [];
        }
        effects := defaultCancelEffects;
        effects := effects + [QueryDuration(audioInfo.currentAudioIndex)];
        audioInfo := audioInfo.(currentAudioIndex := audioInfo.currentAudioIndex + 1);
        audioInfo := audioInfo.(currentTime := 0.0);
        audioInfo := audioInfo.(totalDuration := 0.0);
        effects := PlayIfNeeded(effects);
      case RewindBack =>
        if audioInfo.currentTime == 0.0 {
          return [];
        }
        if audioInfo.currentTime <= RewindBackTime {
          audioInfo := audioInfo.(currentTime := 0.0);
        } else {
          audioInfo := audioInfo.(currentTime := audioInfo.currentTime - RewindBackTime);
        }
        effects := PlayIfNeeded(defaultCancelEffects);
      case RewindForward =>
        if !(audioInfo.currentTime <= audioInfo.totalDuration) {
          return [];
        }
        if audioInfo.currentTime >= audioInfo.totalDuration - RewindForwardTime {
          audioInfo := audioInfo.(currentTime := audioInfo.totalDuration);
        } else {
          audioInfo := audioInfo.(currentTime := audioInfo.currentTime + RewindForwardTime);
        }
        effects := PlayIfNeeded(defaultCancelEffects);
      case ChangeSpeed =>
        var nextIndex := (PlaybackSpeedIndex(audioInfo.currentPlaybackSpeed) + 1) % |AllCases()|;
        audioInfo := audioInfo.(currentPlaybackSpeed := AllCases()[nextIndex]);
        if playerState == Playing {
          return [CancelPlay, SendPlay(true)];
        }
        effects := [];
      case DidFinishPlaying =>
        effects := defaultCancelEffects;
        if IsLastAudio(book, audioInfo.currentAudioIndex) {
          playerState := Paused;
          return;
        }
        audioInfo := audioInfo.(currentAudioIndex := audioInfo.currentAudioIndex + 1);
        audioInfo := audioInfo.(currentTime := 0.0);
        audioInfo := audioInfo.(totalDuration := 0.0);
        playerState := Paused;
        effects := effects + [QueryDuration(audioInfo.currentAudioIndex)];
    }
  }
}
