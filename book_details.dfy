/**
 * `BookDetailsReducer`: the book screen's own transition function. It loads
 * the book by id, then drives the same player as `PlayerControlsReducer`,
 * with its own state layout (the track index at the top level, a slider
 * value of its own in the position record) and its own seek effects.
 *
 * As in `PlayerControls`, the pure functions `On...` and `Transition` say
 * what one action does to a state value, and `Store.Reduce` performs the
 * same update on mutable fields, proved equal to `Transition`.
 */
module BookDetails {
  import opened Optional
  import opened Numerals
  import opened AudioPlayer
  import opened Library
  import opened AudioInfoState
  import opened Playback

  /** `BookDetailsReducer.Action.PlayerAction`. */
  datatype PlayerAction =
    | Play
    | Pause
    | Back
    | Next
    | GoBack5
    | GoForward10
    | ChangeSpeed
    | DidFinishPlaying

  /** `Action.TimeAction`: start or stop the one-second ticker. */
  datatype TimeAction = TimerStart | TimerPause

  /** `Action.AudioInfoAction`. */
  datatype InfoAction =
    | GetTotalDuration(duration: real)
    | DidUpdateSliderValue(value: real)

  /** `TaskResult<Book>`: the repository's answer; the error itself is only printed. */
  datatype FetchResult = Success(book: Book) | Failure(error: string)

  /** `BookDetailsReducer.Action`; `Float` and `TimeInterval` payloads are reals. */
  datatype Action =
    | OnAppear
    | UpdateCurrentTime
    | UpdateProgress(value: real)
    | BookFetched(result: FetchResult)
    | Player(action: PlayerAction)
    | Timer(timeAction: TimeAction)
    | AudioInfoAction(infoAction: InfoAction)

  /** `State.AudioInfoState`, the record declared inside the reducer's state. */
  datatype Position = Position(
    currentTime: real,
    totalDuration: real,
    currentSliderValue: real,
    currentPlaybackSpeed: Speed)

  /** `AudioInfoState.empty`. */
  const EmptyPosition: Position := Position(0.0, 0.0, 0.0, Normal)

  /** `BookDetailsReducer.State`. */
  datatype State = State(
    bookID: string,
    book: Book,
    playerState: PlayerState,
    currentAudioIndex: int,
    audioInfo: Position)

  datatype Step = Step(state: State, effects: seq<Effect>)

  /** The screen's first state for a book id: the placeholder book, paused, at track 0, everything at 0. */
  function Initial(bookID: string): (s: State)
    ensures s.book == EmptyBook && s.playerState == Paused && s.currentAudioIndex == 0
    ensures s.audioInfo.currentTime == 0.0 && s.audioInfo.totalDuration == 0.0
    ensures s.audioInfo.currentSliderValue == 0.0 && s.audioInfo.currentPlaybackSpeed == Normal
  {
    State(bookID, EmptyBook, Paused, 0, EmptyPosition)
  }

  /** The `sliderValue` getter: elapsed fraction of the track, 0 without a duration. */
  function SliderValueOf(p: Position): (v: real)
    ensures p.totalDuration > 0.0 ==> v * p.totalDuration == p.currentTime
    ensures p.totalDuration <= 0.0 ==> v == 0.0
    ensures 0.0 <= p.currentTime <= p.totalDuration ==> SliderStep.Contains(v)
  {
    SliderRatio(p.currentTime, p.totalDuration)
  }

  /** `currentProgress`: the same fraction, as the progress bar reads it. */
  function CurrentProgress(p: Position): (v: real)
    ensures v == SliderValueOf(p)
  {
    if p.totalDuration > 0.0 then p.currentTime / p.totalDuration else 0.0
  }

  /** The `sliderValue` setter: only the elapsed time changes. */
  function WithSlider(p: Position, v: real): (r: Position)
    ensures r.totalDuration == p.totalDuration && r.currentSliderValue == p.currentSliderValue
    ensures r.currentPlaybackSpeed == p.currentPlaybackSpeed
    ensures p.totalDuration > 0.0 ==> SliderValueOf(r) == v
    ensures p.totalDuration >= 0.0 && SliderStep.Contains(v) ==> 0.0 <= r.currentTime <= r.totalDuration
  {
    p.(currentTime := TimeAtRatio(v, p.totalDuration))
  }

  /** `currentPlaybackSpeedIndex` and `currentPlaybackSpeedDescr` of this record. */
  function SpeedIndexOf(p: Position): (i: nat)
    ensures i < 7 && AllCases()[i] == p.currentPlaybackSpeed
  {
    PlaybackSpeedIndex(p.currentPlaybackSpeed)
  }

  function SpeedDescrOf(p: Position): (d: string)
    ensures DecimalValue(d) == Some(RawValue(p.currentPlaybackSpeed))
  {
    DescriptionDenotesRawValue(p.currentPlaybackSpeed);
    Description(p.currentPlaybackSpeed)
  }

  /** The book has tracks and the index points at one of them. */
  predicate Valid(s: State) {
    HasTrack(s.book, s.currentAudioIndex)
  }

  /** `isFirstAudio`, `isLastAudio` and `currentChapterNote` of the state. */
  predicate AtFirst(s: State) {
    IsFirstAudio(s.currentAudioIndex)
  }

  predicate AtLast(s: State) {
    IsLastAudio(s.book, s.currentAudioIndex)
  }

  function ChapterNote(s: State): (n: string)
    requires s.book != EmptyBook ==> Valid(s)
    ensures s.book == EmptyBook ==> n == ""
    ensures s.book != EmptyBook ==> n == s.book.playlist.audio[s.currentAudioIndex].notes
  {
    CurrentChapterNote(s.book, s.currentAudioIndex)
  }

  /**
   * The reducer evaluates `urls[...]` eagerly for `play`, for `back` and
   * `next` when they move, and for `didFinishPlaying` when it moves (the new
   * track). Swift traps when that index is out of range, so these are the
   * action's preconditions. `bookFetched` reads `urls` only inside its effect.
   */
  predicate InBounds(s: State, a: Action) {
    match a
    case Player(Play) => Valid(s)
    case Player(Back) => !AtFirst(s) ==> Valid(s)
    case Player(Next) => !AtLast(s) ==> Valid(s)
    case Player(DidFinishPlaying) => !AtLast(s) ==> HasTrack(s.book, s.currentAudioIndex + 1)
    case _ => true
  }

  /** An effect that names a track names one the book has. */
  predicate EffectInRange(b: Book, e: Effect) {
    (e.QueryDuration? ==> HasTrack(b, e.track)) && (e.StartEngine? ==> HasTrack(b, e.track))
  }

  /** The state after moving to track `i`: time and slider go to 0, the old duration stays. */
  function AtTrack(s: State, i: int): State {
    s.(currentAudioIndex := i, audioInfo := s.audioInfo.(currentTime := 0.0, currentSliderValue := 0.0))
  }

  /**
   * `bookFetched`: a failure changes nothing and returns nothing; a success
   * stores the book and queries the duration of the current track of the
   * NEW book.
   */
  function OnBookFetched(s: State, res: FetchResult): (r: Step)
    ensures res.Failure? ==> r == Step(s, [])
    ensures res.Success? ==>
      && r.state == s.(book := res.book)
      && r.effects == [QueryDuration(s.currentAudioIndex)]
    ensures res.Success? ==> (Valid(r.state) <==> HasTrack(res.book, s.currentAudioIndex))
  {
    match res
    case Failure(_) => Step(s, [])
    case Success(b) => Step(s.(book := b), [QueryDuration(s.currentAudioIndex)])
  }

  /** `play`: mark playing and start the engine on the current track from the current time and speed. */
  function OnPlay(s: State): (r: Step)
    requires Valid(s)
    ensures r.state == s.(playerState := Playing)
    ensures r.effects == [StartEngine(s.currentAudioIndex, Command.Play(s.audioInfo.currentTime, s.audioInfo.currentPlaybackSpeed))]
    ensures forall e | e in r.effects :: EffectInRange(s.book, e)
  {
    Step(s.(playerState := Playing),
         [StartEngine(s.currentAudioIndex, Command.Play(s.audioInfo.currentTime, s.audioInfo.currentPlaybackSpeed))])
  }

  /** `pause`: mark paused and cancel engine and ticker. */
  function OnPause(s: State): (r: Step)
    ensures r.state.playerState == Paused
    ensures r.state.audioInfo == s.audioInfo && r.state.currentAudioIndex == s.currentAudioIndex
    ensures r.state.book == s.book && r.state.bookID == s.bookID
    ensures r.effects == [CancelPlay, CancelTimer]
  {
    Step(s.(playerState := Paused), [CancelPlay, CancelTimer])
  }

  /**
   * `back`: nothing at the first track. Otherwise move one track back with
   * time and slider at 0, cancel engine and ticker, query the duration of the
   * track being LEFT (its locator is read before the index changes), and
   * re-play exactly when playing. The old duration is kept.
   */
  function OnBack(s: State): (r: Step)
    requires !AtFirst(s) ==> Valid(s)
    ensures AtFirst(s) ==> r == Step(s, [])
    ensures !AtFirst(s) ==>
      && r.state.currentAudioIndex == s.currentAudioIndex - 1
      && r.state.audioInfo == s.audioInfo.(currentTime := 0.0, currentSliderValue := 0.0)
      && r.state.playerState == s.playerState && r.state.book == s.book && r.state.bookID == s.bookID
      && r.effects == [CancelPlay, CancelTimer, QueryDuration(s.currentAudioIndex)] + ReplayIfPlaying(s.playerState)
    ensures Valid(s) ==> Valid(r.state)
    ensures forall e | e in r.effects :: EffectInRange(s.book, e)
  {
    if AtFirst(s) then Step(s, [])
    else Step(AtTrack(s, s.currentAudioIndex - 1),
              [CancelPlay, CancelTimer, QueryDuration(s.currentAudioIndex)] + ReplayIfPlaying(s.playerState))
  }

  /** `next`: nothing at the last track; otherwise the mirror image of `back`. */
  function OnNext(s: State): (r: Step)
    requires !AtLast(s) ==> Valid(s)
    ensures AtLast(s) ==> r == Step(s, [])
    ensures !AtLast(s) ==>
      && r.state.currentAudioIndex == s.currentAudioIndex + 1
      && r.state.audioInfo == s.audioInfo.(currentTime := 0.0, currentSliderValue := 0.0)
      && r.state.playerState == s.playerState && r.state.book == s.book && r.state.bookID == s.bookID
      && r.effects == [CancelPlay, CancelTimer, QueryDuration(s.currentAudioIndex)] + ReplayIfPlaying(s.playerState)
    ensures Valid(s) ==> Valid(r.state)
    ensures forall e | e in r.effects :: EffectInRange(s.book, e)
  {
    if AtLast(s) then Step(s, [])
    else Step(AtTrack(s, s.currentAudioIndex + 1),
              [CancelPlay, CancelTimer, QueryDuration(s.currentAudioIndex)] + ReplayIfPlaying(s.playerState))
  }

  /** `goBack5`: nothing at time 0; otherwise 5 seconds back, not below 0; cancel the engine only. */
  function OnGoBack5(s: State): (r: Step)
    ensures s.audioInfo.currentTime == 0.0 ==> r == Step(s, [])
    ensures s.audioInfo.currentTime != 0.0 ==>
      && r.state == s.(audioInfo := s.audioInfo.(currentTime := Max(0.0, s.audioInfo.currentTime - RewindBackTime)))
      && r.effects == [CancelPlay] + ReplayIfPlaying(s.playerState)
      && CancelTimer !in r.effects
  {
    if s.audioInfo.currentTime == 0.0 then Step(s, [])
    else Step(s.(audioInfo := s.audioInfo.(currentTime := RewoundBack(s.audioInfo.currentTime))),
              [CancelPlay] + ReplayIfPlaying(s.playerState))
  }

  /** `goForward10`: nothing past the duration; otherwise 10 seconds on, not past the end; cancel the engine only. */
  function OnGoForward10(s: State): (r: Step)
    ensures s.audioInfo.currentTime > s.audioInfo.totalDuration ==> r == Step(s, [])
    ensures s.audioInfo.currentTime <= s.audioInfo.totalDuration ==>
      && r.state == s.(audioInfo := s.audioInfo.(currentTime :=
           Min(s.audioInfo.totalDuration, s.audioInfo.currentTime + RewindForwardTime)))
      && s.audioInfo.currentTime <= r.state.audioInfo.currentTime <= r.state.audioInfo.totalDuration
      && r.effects == [CancelPlay] + ReplayIfPlaying(s.playerState)
  {
    var t, d := s.audioInfo.currentTime, s.audioInfo.totalDuration;
    if !(t <= d) then Step(s, [])
    else Step(s.(audioInfo := s.audioInfo.(currentTime := RewoundForward(t, d))),
              [CancelPlay] + ReplayIfPlaying(s.playerState))
  }

  /** `changeSpeed`: the next speed in `allCases`, wrapping; a restart when playing, nothing when paused. */
  function OnChangeSpeed(s: State): (r: Step)
    ensures r.state == s.(audioInfo := s.audioInfo.(currentPlaybackSpeed := NextSpeed(s.audioInfo.currentPlaybackSpeed)))
    ensures SpeedIndexOf(r.state.audioInfo) == (SpeedIndexOf(s.audioInfo) + 1) % 7
    ensures s.playerState == Playing ==> r.effects == [CancelPlay, SendPlay(true)]
    ensures s.playerState == Paused ==> r.effects == []
  {
    var st := s.(audioInfo := s.audioInfo.(currentPlaybackSpeed := NextSpeed(s.audioInfo.currentPlaybackSpeed)));
    if s.playerState == Playing then Step(st, [CancelPlay, SendPlay(true)]) else Step(st, [])
  }

  /**
   * `didFinishPlaying`: always pauses and cancels engine and ticker. On the
   * last track that is all; otherwise move on one track with time and slider
   * at 0 and query the duration of the NEW track.
   */
  function OnDidFinishPlaying(s: State): (r: Step)
    requires !AtLast(s) ==> HasTrack(s.book, s.currentAudioIndex + 1)
    ensures r.state.playerState == Paused && |r.effects| >= 2 && r.effects[..2] == [CancelPlay, CancelTimer]
    ensures AtLast(s) ==> r == Step(s.(playerState := Paused), [CancelPlay, CancelTimer])
    ensures !AtLast(s) ==>
      && r.state == AtTrack(s, s.currentAudioIndex + 1).(playerState := Paused)
      && r.effects == [CancelPlay, CancelTimer, QueryDuration(r.state.currentAudioIndex)]
    ensures Valid(s) ==> Valid(r.state)
    ensures forall e | e in r.effects :: EffectInRange(s.book, e)
  {
    if AtLast(s) then Step(s.(playerState := Paused), [CancelPlay, CancelTimer])
    else Step(AtTrack(s, s.currentAudioIndex + 1).(playerState := Paused),
              [CancelPlay, CancelTimer, QueryDuration(s.currentAudioIndex + 1)])
  }

  /**
   * `updateCurrentTime`, one tick: past the duration it only cancels ticker
   * and engine; otherwise one more second, and `didFinishPlaying` is sent
   * exactly when the new time reaches the duration.
   */
  function OnUpdateCurrentTime(s: State): (r: Step)
    ensures s.audioInfo.currentTime > s.audioInfo.totalDuration ==> r == Step(s, [CancelTimer, CancelPlay])
    ensures s.audioInfo.currentTime <= s.audioInfo.totalDuration ==>
      && r.state == s.(audioInfo := s.audioInfo.(currentTime := s.audioInfo.currentTime + 1.0))
      && (r.effects == [SendDidFinish] <==> r.state.audioInfo.currentTime >= s.audioInfo.totalDuration)
      && (r.effects == [] <==> r.state.audioInfo.currentTime < s.audioInfo.totalDuration)
  {
    var t, d := s.audioInfo.currentTime, s.audioInfo.totalDuration;
    if !(t <= d) then Step(s, [CancelTimer, CancelPlay])
    else
      var st := s.(audioInfo := s.audioInfo.(currentTime := t + 1.0));
      if t + 1.0 >= d then Step(st, [SendDidFinish]) else Step(st, [])
  }

  /**
   * `updateProgress(v)`: the slider setter moves the time to fraction `v` of
   * the duration; when playing, cancel the engine and send `play` again
   * (outside the "play" slot).
   */
  function OnUpdateProgress(s: State, v: real): (r: Step)
    ensures r.state == s.(audioInfo := WithSlider(s.audioInfo, v))
    ensures s.audioInfo.totalDuration > 0.0 ==> SliderValueOf(r.state.audioInfo) == v
    ensures s.playerState == Playing ==> r.effects == [CancelPlay, SendPlay(false)]
    ensures s.playerState == Paused ==> r.effects == []
  {
    var st := s.(audioInfo := WithSlider(s.audioInfo, v));
    if s.playerState == Playing then Step(st, [CancelPlay, SendPlay(false)]) else Step(st, [])
  }

  function PlayerTransition(s: State, pa: PlayerAction): (r: Step)
    requires InBounds(s, Player(pa))
  {
    match pa
    case Play => OnPlay(s)
    case Pause => OnPause(s)
    case Back => OnBack(s)
    case Next => OnNext(s)
    case GoBack5 => OnGoBack5(s)
    case GoForward10 => OnGoForward10(s)
    case ChangeSpeed => OnChangeSpeed(s)
    case DidFinishPlaying => OnDidFinishPlaying(s)
  }

  /**
   * The reducer: one action against one state. Only `bookFetched` changes
   * the book and the id never changes; every other action keeps a valid
   * state valid and names only tracks the book has; only `changeSpeed`
   * changes the speed; only `back`, `next` and `didFinishPlaying` change the
   * track. The actions without an `On...` function are stated here in full:
   * `onAppear` fetches the screen's book, the timer actions start or cancel
   * the ticker, the duration answer sets only the duration, and the dragged
   * slider sets only `currentSliderValue`.
   */
  function Transition(s: State, a: Action): (r: Step)
    requires InBounds(s, a)
    ensures r.state.bookID == s.bookID
    ensures !a.BookFetched? ==> r.state.book == s.book
    ensures !a.BookFetched? && Valid(s) ==> Valid(r.state)
    ensures !a.BookFetched? && Valid(s) ==> forall e | e in r.effects :: EffectInRange(s.book, e)
    ensures a != Player(ChangeSpeed) ==>
      r.state.audioInfo.currentPlaybackSpeed == s.audioInfo.currentPlaybackSpeed
    ensures a !in {Player(Back), Player(Next), Player(DidFinishPlaying)} ==>
      r.state.currentAudioIndex == s.currentAudioIndex
    ensures a == OnAppear ==> r == Step(s, [FetchBook(s.bookID)])
    ensures a.Timer? ==> r == Step(s, if a.timeAction == TimerStart then [StartTicker] else [CancelTimer])
    ensures a.AudioInfoAction? && a.infoAction.GetTotalDuration? ==>
      r == Step(s.(audioInfo := s.audioInfo.(totalDuration := a.infoAction.duration)), [])
    ensures a.AudioInfoAction? && a.infoAction.DidUpdateSliderValue? ==>
      r == Step(s.(audioInfo := s.audioInfo.(currentSliderValue := a.infoAction.value)), [])
  {
    match a
    case OnAppear => Step(s, [FetchBook(s.bookID)])
    case BookFetched(res) => OnBookFetched(s, res)
    case Player(pa) => PlayerTransition(s, pa)
    case UpdateCurrentTime => OnUpdateCurrentTime(s)
    case UpdateProgress(v) => OnUpdateProgress(s, v)
    case Timer(TimerStart) => Step(s, [StartTicker])
    case Timer(TimerPause) => Step(s, [CancelTimer])
    case AudioInfoAction(GetTotalDuration(d)) => Step(s.(audioInfo := s.audioInfo.(totalDuration := d)), [])
    case AudioInfoAction(DidUpdateSliderValue(v)) => Step(s.(audioInfo := s.audioInfo.(currentSliderValue := v)), [])
  }

  /** In a valid state no action reads past the end of `urls`. */
  lemma ValidIsInBounds(s: State, a: Action)
    requires Valid(s)
    ensures InBounds(s, a)
  {
  }

  /**
   * Before a book arrives the placeholder has no tracks: track 0 is first
   * but not last, so `back` is harmless while `next`, `play` and
   * `didFinishPlaying` would read a locator that does not exist.
   */
  lemma PlaceholderBookTraps(id: string)
    ensures InBounds(Initial(id), Player(Back))
    ensures !InBounds(Initial(id), Player(Next))
    ensures !InBounds(Initial(id), Player(PlayerAction.Play))
    ensures !InBounds(Initial(id), Player(DidFinishPlaying))
  {
  }

  /**
   * Loading: `onAppear` asks for the screen's own book; a successful answer
   * with at least one track makes the state valid and queries track 0's
   * duration; a failed one leaves the placeholder in place.
   */
  lemma LoadingMakesStateValid(id: string, b: Book, err: string)
    requires UrlCount(b) >= 1
    ensures Transition(Initial(id), OnAppear) == Step(Initial(id), [FetchBook(id)])
    ensures Valid(Transition(Initial(id), BookFetched(Success(b))).state)
    ensures Transition(Initial(id), BookFetched(Success(b))).effects == [QueryDuration(0)]
    ensures Transition(Initial(id), BookFetched(Failure(err))) == Step(Initial(id), [])
    ensures !Valid(Initial(id))
  {
  }

  /** `back` and `next` keep the duration of the track that was playing, until the queried one arrives. */
  lemma MovingKeepsStaleDuration(s: State)
    requires Valid(s) && !AtLast(s)
    ensures Transition(s, Player(Next)).state.audioInfo.totalDuration == s.audioInfo.totalDuration
    ensures QueryDuration(s.currentAudioIndex) in Transition(s, Player(Next)).effects
    ensures QueryDuration(s.currentAudioIndex + 1) !in Transition(s, Player(Next)).effects
  {
  }

  /** `next` undoes `back`: the track comes back with time and slider at 0. */
  lemma NextUndoesBack(s: State)
    requires Valid(s) && !AtFirst(s)
    ensures OnNext(OnBack(s).state).state == AtTrack(s, s.currentAudioIndex)
  {
  }

  /** Pausing twice is the same as pausing once. */
  lemma PauseIsIdempotent(s: State)
    ensures OnPause(OnPause(s).state) == OnPause(s)
  {
  }

  /**
   * The slider the view drags (`currentSliderValue`) and the position
   * (`sliderValue`) are independent: dragging records `v` and leaves time,
   * duration, speed, track and play state alone, with no effect; seeking
   * with `updateProgress` leaves the dragged value alone.
   */
  lemma SliderActionsAreIndependent(s: State, v: real)
    ensures var r := Transition(s, AudioInfoAction(DidUpdateSliderValue(v)));
      && r.effects == []
      && r.state.audioInfo.currentSliderValue == v
      && r.state.audioInfo.currentTime == s.audioInfo.currentTime
      && r.state.audioInfo.totalDuration == s.audioInfo.totalDuration
      && r.state.audioInfo.currentPlaybackSpeed == s.audioInfo.currentPlaybackSpeed
      && r.state.currentAudioIndex == s.currentAudioIndex
      && r.state.playerState == s.playerState
      && r.state.book == s.book
      && SliderValueOf(r.state.audioInfo) == SliderValueOf(s.audioInfo)
    ensures Transition(s, UpdateProgress(v)).state.audioInfo.currentSliderValue == s.audioInfo.currentSliderValue
  {
  }

  /** The mutable form of the state, as the reducer sees it through `inout`. */
  class Store {
    var bookID: string
    var book: Book
    var playerState: PlayerState
    var currentAudioIndex: int
    var audioInfo: Position

    function Value(): State
      reads this
    {
      State(bookID, book, playerState, currentAudioIndex, audioInfo)
    }

    constructor (bookID: string)
      ensures Value() == Initial(bookID)
    {
      this.bookID := bookID;
      book := EmptyBook;
      playerState := Paused;
      currentAudioIndex := 0;
      audioInfo := EmptyPosition;
    }

    /** Append a re-play (in the "play" slot) when playing. */
    method AppendReplay(effects: seq<Effect>) returns (r: seq<Effect>)
      ensures r == effects + ReplayIfPlaying(playerState)
      ensures playerState == Playing <==> |r| == |effects| + 1
    {
      r := effects;
      if playerState == Playing {
        r := r + [SendPlay(true)];
      }
    }

    /** The reducer body: fields are changed one by one and the effects collected in a list. */
    method Reduce(a: Action) returns (effects: seq<Effect>)
      requires InBounds(Value(), a)
      modifies this
      ensures Step(Value(), effects) == Transition(old(Value()), a)
    {
      match a
      case OnAppear =>
        var id := bookID;
        effects := [FetchBook(id)];
      case BookFetched(res) =>
        match res {
          case Failure(_) =>
            effects := [];
          case Success(b) =>
            book := b;
            var index := currentAudioIndex;
            effects := [QueryDuration(index)];
        }
      case Player(pa) =>
        effects := ReducePlayerAction(pa);
      case UpdateCurrentTime =>
        if !(audioInfo.currentTime <= audioInfo.totalDuration) {
          effects := [CancelTimer, CancelPlay];
          return;
        }
        audioInfo := audioInfo.(currentTime := audioInfo.currentTime + 1.0);
        if audioInfo.currentTime >= audioInfo.totalDuration {
          effects := [SendDidFinish];
          return;
        }
        effects := [];
      case UpdateProgress(v) =>
        audioInfo := audioInfo.(currentTime := v * audioInfo.totalDuration);
        if playerState == Playing {
          effects := [CancelPlay, SendPlay(false)];
          return;
        }
        effects := [];
      case Timer(t) =>
        match t {
          case TimerStart =>
            effects := [StartTicker];
          case TimerPause =>
            effects := [CancelTimer];
        }
      case AudioInfoAction(ia) =>
        match ia {
          case GetTotalDuration(d) =>
            audioInfo := audioInfo.(totalDuration := d);
            effects := [];
          case DidUpdateSliderValue(v) =>
            audioInfo := audioInfo.(currentSliderValue := v);
            effects := [];
        }
    }

    method ReducePlayerAction(pa: PlayerAction) returns (effects: seq<Effect>)
      requires InBounds(Value(), Player(pa))
      modifies this
      ensures Step(Value(), effects) == PlayerTransition(old(Value()), pa)
    {
      match pa
      case Play =>
        playerState := Playing;
        var time := audioInfo.currentTime;
        var speed := audioInfo.currentPlaybackSpeed;
        effects := [StartEngine(currentAudioIndex, Command.Play(time, speed))];
      case Pause =>
        playerState := Paused;
        effects := [CancelPlay, CancelTimer];
      case Back =>
        if IsFirstAudio(currentAudioIndex) {
          return [];
        }
        var url := currentAudioIndex;
        effects := [CancelPlay, CancelTimer, QueryDuration(url)];
        currentAudioIndex := currentAudioIndex - 1;
        audioInfo := audioInfo.(currentTime := 0.0);
        audioInfo := audioInfo.(currentSliderValue := 0.0);
        effects := AppendReplay(effects);
      case Next =>
        if IsLastAudio(book, currentAudioIndex) {
          return [];
        }
        var url := currentAudioIndex;
        effects := [CancelPlay, CancelTimer, QueryDuration(url)];
        currentAudioIndex := currentAudioIndex + 1;
        audioInfo := audioInfo.(currentTime := 0.0);
        audioInfo := audioInfo.(currentSliderValue := 0.0);
        effects := AppendReplay(effects);
      case GoBack5 =>
        if audioInfo.currentTime == 0.0 {
          return [];
        }
        if audioInfo.currentTime <= RewindBackTime {
          audioInfo := audioInfo.(currentTime := 0.0);
        } else {
          audioInfo := audioInfo.(currentTime := audioInfo.currentTime - RewindBackTime);
        }
        effects := AppendReplay([CancelPlay]);
      case GoForward10 =>
        if !(audioInfo.currentTime <= audioInfo.totalDuration) {
          return [];
        }
        if audioInfo.currentTime >= audioInfo.totalDuration - RewindForwardTime {
          audioInfo := audioInfo.(currentTime := audioInfo.totalDuration);
        } else {
          audioInfo := audioInfo.(currentTime := audioInfo.currentTime + RewindForwardTime);
        }
        effects := AppendReplay([CancelPlay]);
      case ChangeSpeed =>
        var nextIndex := (PlaybackSpeedIndex(audioInfo.currentPlaybackSpeed) + 1) % |AllCases()|;
        audioInfo := audioInfo.(currentPlaybackSpeed := AllCases()[nextIndex]);
        if playerState == Paused {
          return [];
        }
        effects := [CancelPlay, SendPlay(true)];
      case DidFinishPlaying =>
        effects := [CancelPlay, CancelTimer];
        if IsLastAudio(book, currentAudioIndex) {
          playerState := Paused;
          return;
        }
        currentAudioIndex := currentAudioIndex + 1;
        audioInfo := audioInfo.(currentTime := 0.0);
        audioInfo := audioInfo.(currentSliderValue := 0.0);
        playerState := Paused;
        var url := currentAudioIndex;
        effects := effects + [QueryDuration(url)];
    }
  }
}
