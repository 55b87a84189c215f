# Headway player reducers in Dafny

This project models the playback core of the Headway audiobook app (Swift, The Composable Architecture). It covers two reducers:

- `PlayerControlsReducer`, the player panel;
- `BookDetailsReducer`, the book screen. It loads a book by id and then drives the same player.

Both are transition functions. Each one takes a state and an action, updates the state in place and returns a list of effects. The model covers them together with the pure helpers they read:

- the track-position flags (`isFirstAudio`, `isLastAudio`) and the current chapter note;
- the progress slider's getter and setter;
- the seven playback speeds, with their labels and their index in `allCases`;
- the `mm:ss` time formatter `toMMSS`.

Layout:

- `optional.dfy`: the `Option` type.
- `numerals.dfy`: decimal digits, used to read labels and times back.
- `audio_player.dfy`: the engine command and the `PlaybackSpeed` enum.
- `time_text.dfy`: `toMMSS`.
- `library.dfy`: `Book`, `Playlist`, `Audio`, and the first/last/note projections.
- `audio_info.dfy`: the position record, the slider, and the speed index and label.
- `playback.dfy`: the play/pause flag, the effect vocabulary, and the seek arithmetic.
- `player_controls.dfy`: `PlayerControlsReducer`.
- `player_controls_runs.dfy`: sequences of player-control actions.
- `book_details.dfy`: `BookDetailsReducer`.
- `reducer_agreement.dfy`: how the two reducers relate.

Each reducer has two forms, and they are proved equal:

- A pure form: one function per action (`OnPlay`, `OnBack`, ...) and a `Transition` function over state values. Each function's contract states the new state and the effects.
- An imperative form: a `Store` class whose fields are the reducer's state. Its `Reduce` method changes those fields step by step, in the Swift code's order. Its contract is `Step(Value(), effects) == Transition(old(Value()), a)`.

Effects are data. The `Effect` datatype records what each returned effect would do:

- cancel the "play" or "timer" slot;
- query a track's duration;
- start the engine;
- start the ticker;
- send `play` or `didFinishPlaying` again;
- fetch the book.

Behaviour of the code that the model keeps as written:

- **Traps are preconditions.** Swift traps on an out-of-range `urls[...]`. Each action's index reads are collected in `InBounds(s, a)`, which is the reducer's precondition. In a valid state (a non-empty book, with the index on one of its tracks), every action is in bounds, and every action except `bookFetched` keeps the state valid. Before the book screen's book arrives, the placeholder book has no tracks, and `next`, `play` and `didFinishPlaying` would read a missing locator (`BookDetails.PlaceholderBookTraps`).
- **`back` and `next` query the duration of the track being left.** The effect reads the locator `urls[currentAudioIndex]` before the index changes, so the answer that arrives is the old track's duration (the `OnBack`/`OnNext` contracts, and `BookDetails.MovingKeepsStaleDuration`). `didFinishPlaying` reads the index after it changes, so it queries the new track.
- **A tick does not clamp.** Once `currentTime <= totalDuration`, a tick adds one whole second, so the time can pass a fractional duration before `didFinishPlaying` is sent.
- **`bookFetched` does not reset playback.** A loaded book is stored and the duration of the current index is queried; the play state, the index and the position are left as they were.
- **The two reducers differ** in two ways, proved in `reducer_agreement.dfy`:
  - The book screen keeps the old duration on `back`/`next`/`didFinishPlaying`; the player panel resets it to 0.
  - The book screen's `goBack5`/`goForward10` cancel only the engine, where the panel's `rewindBack`/`rewindForward` also cancel the ticker.
- **Which book-screen state.** `BookDetailsReducer.swift` declares its state inline: the index at the top level, and a position record with its own `currentSliderValue`. The model uses that layout. The extension in `BookDetailsReducerState+Audio.swift`, lines 8-22, reads an index inside the position record. That version does not match the inline state, so it is not modelled; the inline members at lines 34-46 are.

## Model

| member | source | states |
|---|---|---|
| AudioPlayer.RawValue | Headway/Headway/Common/Player/AudioPlayerClient+Extensions.swift:15-22 | Every speed's rate lies between 0.5 and 2.0, and the rate is 1.0 exactly for `.normal` |
| AudioPlayer.AllCases | Headway/Headway/Common/Player/AudioPlayerClient+Extensions.swift:15-22 | `allCases` has seven entries and holds every speed; it starts at `.half`, has `.normal` at position 2 and ends at `.double` |
| AudioPlayer.AllCasesAscending | Headway/Headway/Common/Player/AudioPlayerClient+Extensions.swift:15-22 | Rates strictly increase along `allCases`: an earlier position always has a slower rate |
| AudioPlayer.Description | Headway/Headway/Common/Player/AudioPlayerClient+Extensions.swift:24-41 | Each label is one to four characters without a trailing zero, and it is "1" exactly for `.normal` |
| AudioPlayer.DescriptionDenotesRawValue | Headway/Headway/Common/Player/AudioPlayerClient+Extensions.swift:24-41 | Each label, read as a decimal numeral, is exactly the speed's raw rate, written without a trailing zero |
| AudioPlayer.DescriptionsDistinct | Headway/Headway/Common/Player/AudioPlayerClient+Extensions.swift:24-41 | Different speeds have different labels |
| TimeText.Trunc | Headway/Headway/Common/Extensions/TimeInterval+Extensions.swift:12-13 | `Int(t)` truncates toward zero: within one below `t` for non-negative `t`, within one above it for negative `t` |
| TimeText.WholeMinutes | Headway/Headway/Common/Extensions/TimeInterval+Extensions.swift:12 | Swift's `/ 60` truncates toward zero |
| TimeText.SecondsField | Headway/Headway/Common/Extensions/TimeInterval+Extensions.swift:13 | Swift's `% 60` satisfies i = 60*(i/60) + r, with r in [0, 60) for non-negative i and in (-60, 0] for negative i |
| TimeText.Pad2 | Headway/Headway/Common/Extensions/TimeInterval+Extensions.swift:14 | `%02d` gives at least two characters that read back as the number; exactly two below 100; no leading zero from 10 up; a leading '-' for negatives, followed by the digits without a leading zero |
| TimeText.ToMMSS | Headway/Headway/Common/Extensions/TimeInterval+Extensions.swift:11-15 | Below 100 minutes, `toMMSS` is five characters "mm:ss" that parse back to the truncated seconds |
| TimeText.SameWholeSecondSameText | Headway/Headway/Common/Extensions/TimeInterval+Extensions.swift:11-15 | All times within the same whole second print the same text |
| Library.UrlsCount | Headway/Headway/Features/BookDetails/Subview/PlayerControlsReducer.swift:31-33 | `urlsCount` is one less than the number of tracks |
| Library.FirstAndLastAreEnds | Headway/Headway/Features/BookDetails/Domain/BookDetailsReducerState+Audio.swift:24-31 | For an index on a track: first iff there is no previous track, last iff there is no next track, and last iff the index equals `urlsCount` |
| Library.SingleTrackIsFirstAndLast | Headway/Headway/Features/BookDetails/Domain/BookDetailsReducerState+Audio.swift:24-31 | In a one-track book, track 0 is both first and last |
| Library.NoTracksIsFirstNotLast | Headway/Headway/Features/BookDetails/Domain/BookDetailsReducerState+Audio.swift:24-31 | With no tracks, index 0 is first but not last |
| Library.IsLastAudio | Headway/Headway/Features/BookDetails/Domain/BookDetailsReducerState+Audio.swift:25-27 | `isLastAudio` holds exactly when the index equals `urlsCount`; at a valid index it means there is no next track |
| Library.IsFirstAudio | Headway/Headway/Features/BookDetails/Domain/BookDetailsReducerState+Audio.swift:29-31 | At a track of a book, `isFirstAudio` holds exactly when there is no previous track |
| Library.CurrentChapterNote | Headway/Headway/Features/BookDetails/Domain/BookDetailsReducerState+Audio.swift:33-37 | The chapter note is "" for the placeholder book and the current track's note otherwise |
| AudioInfoState.SliderRatio | Headway/Headway/Features/BookDetails/Domain/AudioInfoState+Slider.swift:14-17 | The slider value is 0 without a duration; otherwise, times the duration, it gives the elapsed time; it lies in `sliderStep` while the time is within the track |
| AudioInfoState.TimeAtRatio | Headway/Headway/Features/BookDetails/Domain/AudioInfoState+Slider.swift:18-20 | The setter inverts the getter when there is a duration, and a value in `sliderStep` gives a time within the track |
| AudioInfoState.WithSliderValue | Headway/Headway/Features/BookDetails/Domain/AudioInfoState+Slider.swift:13-21 | Assigning the slider changes only the elapsed time, and reading it back gives the value assigned |
| AudioInfoState.AudioInfoEquality | Headway/Headway/Features/BookDetails/Domain/BookDetailsReducer+AudioInfoState.swift:11-17 | The record's `Equatable` equality is field-by-field |
| AudioInfoState.EmptyIsAtStart | Headway/Headway/Features/BookDetails/Domain/BookDetailsReducer+AudioInfoState.swift:11-17 | `empty` is at track 0, time 0, no duration, normal speed, and slider 0 |
| AudioInfoState.FirstIndex | Headway/Headway/Features/BookDetails/Domain/AudioInfoState+PlaybackSpeed.swift:14 | `firstIndex(of:)` returns the first position holding the element, or nothing exactly when the element is absent |
| AudioInfoState.PlaybackSpeedIndex | Headway/Headway/Features/BookDetails/Domain/AudioInfoState+PlaybackSpeed.swift:13-15 | The index is a position in `allCases` that holds the current speed |
| AudioInfoState.PlaybackSpeedIndexIsFirstIndex | Headway/Headway/Features/BookDetails/Domain/AudioInfoState+PlaybackSpeed.swift:13-15 | The index is `allCases.firstIndex(of:) ?? 2`. `firstIndex(of:)` always finds the speed, so the `?? 2` fallback is never taken; position 2 is `.normal` |
| AudioInfoState.PlaybackSpeedIndexInjective | Headway/Headway/Features/BookDetails/Domain/AudioInfoState+PlaybackSpeed.swift:13-15 | Different speeds have different indices |
| AudioInfoState.PlaybackSpeedDescr | Headway/Headway/Features/BookDetails/Domain/AudioInfoState+PlaybackSpeed.swift:9-11 | The speed label reads as the rate handed to the engine |
| AudioInfoState.NextSpeed | Headway/Headway/Features/BookDetails/Subview/PlayerControlsReducer.swift:141-142 | The next speed's index is the current one plus one, modulo 7; `.double` wraps to `.half` |
| AudioInfoState.SpeedAfterIndex | Headway/Headway/Features/BookDetails/Subview/PlayerControlsReducer.swift:140-142 | After n speed changes, the index has advanced by n modulo 7 |
| AudioInfoState.FullCycleRestoresSpeed | Headway/Headway/Features/BookDetails/Subview/PlayerControlsReducer.swift:140-142 | Any multiple of seven speed changes restores the original speed |
| Playback.RewoundBack | Headway/Headway/Features/BookDetails/Subview/PlayerControlsReducer.swift:116-122 | Seeking back gives max(0, t - 5), never negative, and strictly earlier when t > 0 |
| Playback.RewoundForward | Headway/Headway/Features/BookDetails/Subview/PlayerControlsReducer.swift:128-134 | From a time within the track, seeking forward gives min(d, t + 10), which stays within [t, d] |
| Playback.ReplayIfPlaying | Headway/Headway/Features/BookDetails/Subview/PlayerControlsReducer.swift:220-227 | When playing, exactly one re-play of `play` is appended; when paused, nothing is appended |
| PlayerControls.ValidIsInBounds | Headway/Headway/Features/BookDetails/Subview/PlayerControlsReducer.swift:53-215 | In a valid state, no action reads a locator out of range |
| PlayerControls.OnPlay | Headway/Headway/Features/BookDetails/Subview/PlayerControlsReducer.swift:63-74 | `play` marks playing and starts the engine on the current track at the current time and speed |
| PlayerControls.OnPause | Headway/Headway/Features/BookDetails/Subview/PlayerControlsReducer.swift:75-78 | `pause` marks paused, cancels the engine and the ticker, and changes nothing else |
| PlayerControls.OnBack | Headway/Headway/Features/BookDetails/Subview/PlayerControlsReducer.swift:79-97 | `back` does nothing at the first track. Otherwise it moves back one track, resets time and duration, cancels both slots, queries the left track's duration and re-plays iff playing. It keeps validity and names only existing tracks |
| PlayerControls.OnNext | Headway/Headway/Features/BookDetails/Subview/PlayerControlsReducer.swift:98-113 | `next` is the mirror of `back`, guarded by the last track |
| PlayerControls.OnRewindBack | Headway/Headway/Features/BookDetails/Subview/PlayerControlsReducer.swift:115-126 | `rewindBack` does nothing at time 0. Otherwise the time becomes max(0, t-5), both slots are cancelled, and it re-plays iff playing |
| PlayerControls.OnRewindForward | Headway/Headway/Features/BookDetails/Subview/PlayerControlsReducer.swift:127-139 | `rewindForward` does nothing past the duration. Otherwise the time becomes min(d, t+10) within [t, d], both slots are cancelled, and it re-plays iff playing |
| PlayerControls.OnChangeSpeed | Headway/Headway/Features/BookDetails/Subview/PlayerControlsReducer.swift:140-153 | The speed advances one place in `allCases`, wrapping. When playing, the engine is cancelled and restarted; when paused, nothing is returned |
| PlayerControls.OnDidFinishPlaying | Headway/Headway/Features/BookDetails/Subview/PlayerControlsReducer.swift:154-173 | Always pauses and cancels both slots. On the last track that is all; otherwise it moves to the next track and queries the new track's duration |
| PlayerControls.OnUpdateCurrentAudioTime | Headway/Headway/Features/BookDetails/Subview/PlayerControlsReducer.swift:175-186 | Past the duration, the tick cancels both slots. Otherwise the time grows by one second, and `didFinishPlaying` is sent iff the new time reaches the duration |
| PlayerControls.OnUpdateSliderProgress | Headway/Headway/Features/BookDetails/Subview/PlayerControlsReducer.swift:187-197 | The time moves to the slider fraction, which reads back as the value. When playing, the engine is cancelled and `play` is re-sent |
| PlayerControls.Transition | Headway/Headway/Features/BookDetails/Subview/PlayerControlsReducer.swift:53-215 | The book never changes and a valid state stays valid. Every effect names an existing track. Only `changeSpeed` changes the speed; only `back`/`next`/`didFinishPlaying` change the track. `onAppear` only queries the current track's duration, `startTimer` only starts the ticker, `getTotalDuration(d)` sets only the duration, and `showText`/`hideText` set only the text flag |
| PlayerControls.PauseIsIdempotent | Headway/Headway/Features/BookDetails/Subview/PlayerControlsReducer.swift:75-78 | Pausing twice equals pausing once |
| PlayerControls.NextUndoesBack | Headway/Headway/Features/BookDetails/Subview/PlayerControlsReducer.swift:79-113 | `next` after `back` returns to the original track, with time and duration reset |
| PlayerControls.Store.constructor | Headway/Headway/Features/BookDetails/Subview/PlayerControlsReducer.swift:26-34 | A new store holds the book with every other field at its default |
| PlayerControls.Store.PlayIfNeeded | Headway/Headway/Features/BookDetails/Subview/PlayerControlsReducer.swift:220-227 | `playIfNeeded` appends the re-play exactly when playing |
| PlayerControls.Store.SetSliderValue | Headway/Headway/Features/BookDetails/Domain/AudioInfoState+Slider.swift:18-20 | The in-place setter changes only the time, and the getter then reads the value assigned |
| PlayerControls.Store.Reduce | Headway/Headway/Features/BookDetails/Subview/PlayerControlsReducer.swift:53-215 | The field-by-field reducer body ends in the state and effects of `Transition` |
| PlayerControls.Store.ReducePlayerAction | Headway/Headway/Features/BookDetails/Subview/PlayerControlsReducer.swift:61-174 | The player-action branch ends in the state and effects of the matching `On...` function |
| PlayerControlsRuns.Run | Headway/Headway/Features/BookDetails/Subview/PlayerControlsReducer.swift:53-215 | Feeding actions one by one from a valid state keeps it valid. The book never changes, and no effect names a missing track |
| PlayerControlsRuns.RunRepeatStep | Headway/Headway/Features/BookDetails/Subview/PlayerControlsReducer.swift:53-215 | n repetitions of an action end where one more action after the first n - 1 ends, with both effect lists concatenated |
| PlayerControlsRuns.OneTick | Headway/Headway/Features/BookDetails/Subview/PlayerControlsReducer.swift:175-186 | From a time within the track, one tick adds one second, and emits `didFinishPlaying` exactly when the new time reaches the duration |
| PlayerControlsRuns.TicksAdvanceTime | Headway/Headway/Features/BookDetails/Subview/PlayerControlsReducer.swift:175-186 | k ticks that stay below the duration add exactly k seconds and emit nothing |
| PlayerControlsRuns.TicksReachEnd | Headway/Headway/Features/BookDetails/Subview/PlayerControlsReducer.swift:175-186 | Starting n whole seconds before the end, n ticks land on the duration and emit exactly one `didFinishPlaying` |
| PlayerControlsRuns.OneSpeedChange | Headway/Headway/Features/BookDetails/Subview/PlayerControlsReducer.swift:140-153 | While paused, the n-th speed change moves from the speed after n - 1 changes to the speed after n, with no effect |
| PlayerControlsRuns.SpeedChangeStep | Headway/Headway/Features/BookDetails/Subview/PlayerControlsReducer.swift:140-153 | While paused, if n - 1 speed changes reach the speed after n - 1 changes and emit nothing, then n changes reach the speed after n and emit nothing |
| PlayerControlsRuns.SpeedChangesWhilePaused | Headway/Headway/Features/BookDetails/Subview/PlayerControlsReducer.swift:140-153 | While paused, n speed changes advance the speed n places and emit nothing |
| PlayerControlsRuns.SevenSpeedChangesRestoreState | Headway/Headway/Features/BookDetails/Subview/PlayerControlsReducer.swift:140-153 | While paused, seven speed changes leave the state exactly as it was |
| PlayerControlsRuns.PlayTenTicksAdvancesTrack | Headway/Headway/Features/BookDetails/Subview/PlayerControlsReducer.swift:154-186 | Nine-track book with a 10-second track 0: `play` starts the engine, and ten ticks end in `didFinishPlaying`. That then moves to track 1 at time 0, paused, and queries track 1 |
| BookDetails.Initial | Headway/Headway/Features/BookDetails/BookDetailsReducer.swift:27-32 | The screen starts with the placeholder book, paused, at track 0, with everything at zero and normal speed |
| BookDetails.SliderValueOf | Headway/Headway/Features/BookDetails/BookDetailsReducer.swift:64-68 | The getter is 0 without a duration; otherwise, times the duration, it gives the time; it lies within `sliderStep` |
| BookDetails.CurrentProgress | Headway/Headway/Features/BookDetails/BookDetailsReducer.swift:78-80 | `currentProgress` equals the slider getter |
| BookDetails.WithSlider | Headway/Headway/Features/BookDetails/BookDetailsReducer.swift:69-71 | The setter changes only the time and reads back as the value assigned |
| BookDetails.SpeedIndexOf | Headway/Headway/Features/BookDetails/BookDetailsReducer.swift:74-76 | The speed index is a position of the current speed in `allCases` |
| BookDetails.SpeedDescrOf | Headway/Headway/Features/BookDetails/BookDetailsReducer.swift:60-62 | The speed label reads as the engine rate |
| BookDetails.ChapterNote | Headway/Headway/Features/BookDetails/BookDetailsReducer.swift:42-46 | The note is "" before a book loads, and the current track's note after |
| BookDetails.OnBookFetched | Headway/Headway/Features/BookDetails/BookDetailsReducer.swift:137-150 | A failure changes nothing. A success stores the book and queries the current index's duration; the state is then valid iff the new book has that track |
| BookDetails.OnPlay | Headway/Headway/Features/BookDetails/BookDetailsReducer.swift:153-162 | `play` marks playing and starts the engine on the current track at the current time and speed |
| BookDetails.OnPause | Headway/Headway/Features/BookDetails/BookDetailsReducer.swift:163-165 | `pause` marks paused, cancels both slots, and keeps everything else |
| BookDetails.OnBack | Headway/Headway/Features/BookDetails/BookDetailsReducer.swift:172-196 | `back` does nothing at the first track. Otherwise it moves back one track with time and slider 0 and keeps the duration. It cancels both slots, queries the left track and re-plays iff playing |
| BookDetails.OnNext | Headway/Headway/Features/BookDetails/BookDetailsReducer.swift:197-221 | `next` is the mirror of `back`, guarded by the last track |
| BookDetails.OnGoBack5 | Headway/Headway/Features/BookDetails/BookDetailsReducer.swift:223-243 | `goBack5` does nothing at time 0. Otherwise the time becomes max(0, t-5); it cancels only the engine, never the ticker, and re-plays iff playing |
| BookDetails.OnGoForward10 | Headway/Headway/Features/BookDetails/BookDetailsReducer.swift:244-265 | `goForward10` does nothing past the duration. Otherwise the time becomes min(d, t+10) within [t, d]; it cancels only the engine and re-plays iff playing |
| BookDetails.OnChangeSpeed | Headway/Headway/Features/BookDetails/BookDetailsReducer.swift:266-280 | The next speed, wrapping. When playing, the engine is cancelled and restarted; when paused, nothing is returned |
| BookDetails.OnDidFinishPlaying | Headway/Headway/Features/BookDetails/BookDetailsReducer.swift:281-304 | Always pauses and cancels both slots. Off the last track, it moves on one track with time and slider 0 and queries the new track |
| BookDetails.OnUpdateCurrentTime | Headway/Headway/Features/BookDetails/BookDetailsReducer.swift:306-318 | Past the duration, the tick cancels both slots. Otherwise it adds one second and sends `didFinishPlaying` iff the duration is reached |
| BookDetails.OnUpdateProgress | Headway/Headway/Features/BookDetails/BookDetailsReducer.swift:320-334 | The time moves to the slider fraction, which reads back as the value. When playing, the engine is cancelled and `play` is re-sent |
| BookDetails.Transition | Headway/Headway/Features/BookDetails/BookDetailsReducer.swift:119-357 | The id never changes, and only `bookFetched` changes the book. Other actions keep validity and name only existing tracks. Only `changeSpeed` changes the speed; only `back`/`next`/`didFinishPlaying` change the track. `onAppear` only fetches the screen's book, the timer actions only start or cancel the ticker, `getTotalDuration(d)` sets only the duration, and `didUpdateSliderValue(v)` sets only `currentSliderValue` |
| BookDetails.ValidIsInBounds | Headway/Headway/Features/BookDetails/BookDetailsReducer.swift:151-305 | In a valid state, no action reads a locator out of range |
| BookDetails.PlaceholderBookTraps | Headway/Headway/Features/BookDetails/BookDetailsReducer.swift:27-40 | Before the book loads, `back` is safe, but `next`, `play` and `didFinishPlaying` would read a missing locator |
| BookDetails.LoadingMakesStateValid | Headway/Headway/Features/BookDetails/BookDetailsReducer.swift:121-150 | `onAppear` fetches the screen's own book. A loaded book with tracks makes the state valid and queries track 0; a failure leaves the placeholder |
| BookDetails.MovingKeepsStaleDuration | Headway/Headway/Features/BookDetails/BookDetailsReducer.swift:197-221 | After `next`, the old duration is kept, and the query is for the track left, not the new one |
| BookDetails.NextUndoesBack | Headway/Headway/Features/BookDetails/BookDetailsReducer.swift:172-221 | `next` after `back` returns to the original track, with time and slider reset |
| BookDetails.PauseIsIdempotent | Headway/Headway/Features/BookDetails/BookDetailsReducer.swift:163-165 | Pausing twice equals pausing once |
| BookDetails.SliderActionsAreIndependent | Headway/Headway/Features/BookDetails/BookDetailsReducer.swift:320-356 | `didUpdateSliderValue(v)` records v and returns no effect; time, duration, speed, track, play state, book and slider position stay. `updateProgress` does not touch `currentSliderValue` |
| BookDetails.Store.constructor | Headway/Headway/Features/BookDetails/BookDetailsReducer.swift:27-32 | A new store is the screen's initial state for the id |
| BookDetails.Store.AppendReplay | Headway/Headway/Features/BookDetails/BookDetailsReducer.swift:189-195 | The re-play is appended exactly when playing |
| BookDetails.Store.Reduce | Headway/Headway/Features/BookDetails/BookDetailsReducer.swift:119-357 | The field-by-field reducer body ends in the state and effects of `Transition` |
| BookDetails.Store.ReducePlayerAction | Headway/Headway/Features/BookDetails/BookDetailsReducer.swift:151-305 | The player-action branch ends in the state and effects of the matching `On...` function |
| ReducerAgreement.AgreeOnPlay | Headway/Headway/Features/BookDetails/Subview/PlayerControlsReducer.swift:63-74 | Under the projection, both reducers' `play` gives the same state and effects |
| ReducerAgreement.AgreeOnPause | Headway/Headway/Features/BookDetails/Subview/PlayerControlsReducer.swift:75-78 | Under the projection, both reducers' `pause` agree |
| ReducerAgreement.AgreeOnChangeSpeed | Headway/Headway/Features/BookDetails/Subview/PlayerControlsReducer.swift:140-153 | Under the projection, both reducers' `changeSpeed` agree |
| ReducerAgreement.AgreeOnTick | Headway/Headway/Features/BookDetails/Subview/PlayerControlsReducer.swift:175-186 | Under the projection, both reducers' ticks agree |
| ReducerAgreement.AgreeOnSlider | Headway/Headway/Features/BookDetails/Subview/PlayerControlsReducer.swift:187-197 | Under the projection, both reducers' slider seeks agree |
| ReducerAgreement.AgreeOnDuration | Headway/Headway/Features/BookDetails/Subview/PlayerControlsReducer.swift:205-207 | Under the projection, both reducers' duration answers agree |
| ReducerAgreement.NextDiffersOnlyInDuration | Headway/Headway/Features/BookDetails/Subview/PlayerControlsReducer.swift:98-113 | `next` has the same effects in both; the states differ only in the duration the panel resets to 0 |
| ReducerAgreement.BackDiffersOnlyInDuration | Headway/Headway/Features/BookDetails/Subview/PlayerControlsReducer.swift:79-97 | `back` has the same effects in both; the states differ only in the duration reset |
| ReducerAgreement.DidFinishDiffersOnlyInDuration | Headway/Headway/Features/BookDetails/Subview/PlayerControlsReducer.swift:154-173 | `didFinishPlaying` has the same effects in both; on the last track the states agree, elsewhere they differ only in the duration the panel resets to 0 |
| ReducerAgreement.SeeksDifferOnlyInTimerCancel | Headway/Headway/Features/BookDetails/Subview/PlayerControlsReducer.swift:115-139 | Both seek buttons move the time identically; the panel also cancels the ticker, the book screen never does |

## Left out

- The effect runtime is not modelled: the cancellation slots, cancel-in-flight, task priorities, `async`/`await` and the ticker's clock. Effects are returned as data and never run, so nothing here is about concurrency or ordering between running effects.
- The audio engine (`AudioPlayerClient.liveValue`, AVFoundation) is not modelled, and neither are errors raised inside effects. The command it receives and the track it is run on are recorded in `StartEngine`.
- `Book.urls` looks every track up in the app bundle and drops the ones it cannot find. The model assumes every lookup succeeds, so `urls.count` equals the number of tracks.
- `Float` and `Double` are modelled as `real`: no rounding, no NaN, no infinities. The `Float(...)` and `Double(...)` conversions are the identity.
- TimeText.Trunc: does not model `Int(t)` trapping for NaN, infinities or values outside the 64-bit range; `Int` arithmetic is unbounded.
- The `print` calls and the unused cancel ids (`pause`, `updateProgress`, `FetchImageID`) are left out.
- The book repository, the views, `RootReducer` and the app entry point are not part of this model. The fetch is a `FetchBook` effect, and its answer is a `bookFetched` action supplied by the caller.
- The `BookDetailsReducer.State` extension in `BookDetailsReducerState+Audio.swift`, lines 8-22, is not modelled. It reads an index inside the position record, which the inline state declared in `BookDetailsReducer.swift` does not have.
- Runs of several actions are modelled for the player panel only (`PlayerControlsRuns`). The book screen's actions are related to the panel's action by action in `ReducerAgreement`.
