/**
 * Sequences of actions fed to `PlayerControlsReducer` one after another, as
 * the runtime does: the track index stays in range, ticks advance the
 * clock second by second until `didFinishPlaying` is due, and speed changes
 * cycle.
 */
module PlayerControlsRuns {
  import opened AudioPlayer
  import opened Library
  import opened AudioInfoState
  import opened Playback
  import opened PlayerControls

  /**
   * Apply the actions in order from a valid state, collecting every effect.
   * The state stays valid, the book never changes, and no effect ever
   * names a track the book does not have.
   */
  function Run(s: State, actions: seq<Action>): (r: Step)
    requires Valid(s)
    ensures Valid(r.state) && r.state.book == s.book
    ensures forall e | e in r.effects :: EffectInRange(s.book, e)
    decreases |actions|
  {
    if actions == [] then Step(s, [])
    else
      var before := Run(s, actions[..|actions| - 1]);
      var last := Transition(before.state, actions[|actions| - 1]);
      Step(last.state, before.effects + last.effects)
  }

  /** `n` copies of the action `a`. */
  function Repeat(a: Action, n: nat): (r: seq<Action>)
    ensures |r| == n
  {
    if n == 0 then [] else Repeat(a, n - 1) + [a]
  }

  function WithTime(s: State, t: real): State {
    s.(audioInfo := s.audioInfo.(currentTime := t))
  }

  /**
   * Unfolding `Run` over `Repeat(a, n)` by its last action: if the first
   * `n - 1` repetitions end in `before` and one more action from there gives
   * `last`, the `n` repetitions end in `last` with both effect lists.
   */
  lemma RunRepeatStep(s: State, a: Action, n: nat, before: Step, last: Step)
    requires Valid(s) && n >= 1
    requires Run(s, Repeat(a, n - 1)) == before
    requires Transition(before.state, a) == last
    ensures Run(s, Repeat(a, n)) == Step(last.state, before.effects + last.effects)
  {
    var xs := Repeat(a, n);
    assert xs[..|xs| - 1] == Repeat(a, n - 1);
  }

  /** One tick from time `t`: one second later, and `didFinishPlaying` exactly when that reaches the duration. */
  lemma OneTick(s: State, t: real)
    requires Valid(s) && t <= s.audioInfo.totalDuration
    ensures Valid(WithTime(s, t))
    ensures Transition(WithTime(s, t), UpdateCurrentAudioTime) ==
      Step(WithTime(s, t + 1.0), if t + 1.0 < s.audioInfo.totalDuration then [] else [SendDidFinish])
  {
  }

  /** While the time stays below the duration, `k` ticks add exactly `k` seconds and emit nothing. */
  lemma {:induction false} TicksAdvanceTime(s: State, k: nat)
    requires Valid(s)
    requires s.audioInfo.currentTime + k as real < s.audioInfo.totalDuration
    ensures Run(s, Repeat(UpdateCurrentAudioTime, k)) == Step(WithTime(s, s.audioInfo.currentTime + k as real), [])
  {
    if k > 0 {
      var m: nat := k - 1;
      var t := s.audioInfo.currentTime + m as real;
      TicksAdvanceTime(s, m);
      OneTick(s, t);
      assert t + 1.0 == s.audioInfo.currentTime + k as real;
      RunRepeatStep(s, UpdateCurrentAudioTime, k, Step(WithTime(s, t), []), Step(WithTime(s, t + 1.0), []));
    }
  }

  /**
   * Starting `n` whole seconds before the end, the n-th tick lands exactly on
   * the duration and is the only one that sends `didFinishPlaying`.
   */
  lemma TicksReachEnd(s: State, n: nat)
    requires Valid(s) && n >= 1
    requires s.audioInfo.currentTime + n as real == s.audioInfo.totalDuration
    ensures Run(s, Repeat(UpdateCurrentAudioTime, n)) == Step(WithTime(s, s.audioInfo.totalDuration), [SendDidFinish])
  {
    var m: nat := n - 1;
    var t := s.audioInfo.currentTime + m as real;
    TicksAdvanceTime(s, m);
    OneTick(s, t);
    assert t + 1.0 == s.audioInfo.totalDuration;
    RunRepeatStep(s, UpdateCurrentAudioTime, n, Step(WithTime(s, t), []),
                  Step(WithTime(s, s.audioInfo.totalDuration), [SendDidFinish]));
    assert [] + [SendDidFinish] == [SendDidFinish];
  }

  function WithSpeed(s: State, sp: Speed): State {
    s.(audioInfo := s.audioInfo.(currentPlaybackSpeed := sp))
  }

  /** Zero speed changes: the state is unchanged. */
  lemma SameSpeedIsSameState(s: State)
    requires Valid(s)
    ensures Run(s, Repeat(Player(ChangeSpeed), 0)) == Step(WithSpeed(s, SpeedAfter(s.audioInfo.currentPlaybackSpeed, 0)), [])
  {
    var a := s.audioInfo;
    assert a.(currentPlaybackSpeed := a.currentPlaybackSpeed) == a;
    assert s.(audioInfo := a) == s;
  }

  /** The n-th speed change while paused: from the speed after `n - 1` changes to the one after `n`, with no effect. */
  lemma OneSpeedChange(s: State, sp: Speed, n: nat)
    requires s.playerState == Paused && n >= 1
    ensures Transition(WithSpeed(s, SpeedAfter(sp, n - 1)), Player(ChangeSpeed)) == Step(WithSpeed(s, SpeedAfter(sp, n)), [])
  {
  }

  /** If `n - 1` speed changes reach the speed after `n - 1` changes, `n` of them reach the one after `n`. */
  lemma SpeedChangeStep(s: State, sp: Speed, n: nat)
    requires Valid(s) && s.playerState == Paused && n >= 1
    requires Run(s, Repeat(Player(ChangeSpeed), n - 1)) == Step(WithSpeed(s, SpeedAfter(sp, n - 1)), [])
    ensures Run(s, Repeat(Player(ChangeSpeed), n)) == Step(WithSpeed(s, SpeedAfter(sp, n)), [])
  {
    var none: seq<Effect> := [];
    OneSpeedChange(s, sp, n);
    RunRepeatStep(s, Player(ChangeSpeed), n, Step(WithSpeed(s, SpeedAfter(sp, n - 1)), none),
                  Step(WithSpeed(s, SpeedAfter(sp, n)), none));
    assert none + none == none;
  }

  /** With the player paused, `n` speed changes move the speed `n` places along `allCases` and emit nothing. */
  lemma {:induction false} SpeedChangesWhilePaused(s: State, n: nat)
    requires Valid(s) && s.playerState == Paused
    ensures Run(s, Repeat(Player(ChangeSpeed), n)) == Step(WithSpeed(s, SpeedAfter(s.audioInfo.currentPlaybackSpeed, n)), [])
  {
    if n == 0 {
      SameSpeedIsSameState(s);
    } else {
      SpeedChangesWhilePaused(s, n - 1);
      SpeedChangeStep(s, s.audioInfo.currentPlaybackSpeed, n);
    }
  }

  /** Seven speed changes while paused leave the state exactly as it was. */
  lemma SevenSpeedChangesRestoreState(s: State)
    requires Valid(s) && s.playerState == Paused
    ensures Run(s, Repeat(Player(ChangeSpeed), 7)) == Step(s, [])
  {
    SpeedChangesWhilePaused(s, 7);
    FullCycleRestoresSpeed(s.audioInfo.currentPlaybackSpeed, 7);
  }

  /** A nine-track book shaped like the bundled sample (`1.introduction_0`, `1.chapter_1` ... `1.chapter_8`). */
  const NineTrackBook: Book := Book("1", "1.preview", Playlist([
    Audio("1.introduction_0", ""), Audio("1.chapter_1", ""), Audio("1.chapter_2", ""),
    Audio("1.chapter_3", ""), Audio("1.chapter_4", ""), Audio("1.chapter_5", ""),
    Audio("1.chapter_6", ""), Audio("1.chapter_7", ""), Audio("1.chapter_8", "")]))

  /**
   * Nine-track book at track 0: the duration arrives (10 seconds) and `play`
   * starts the engine; ten ticks later the tenth one sends `didFinishPlaying`;
   * feeding that back moves to track 1 at time 0, paused, and queries track
   * 1's duration.
   */
  lemma PlayTenTicksAdvancesTrack()
    ensures
      var s0 := Initial(NineTrackBook);
      var s1 := s0.(playerState := Playing, audioInfo := s0.audioInfo.(totalDuration := 10.0));
      && Run(s0, [GetTotalDuration(10.0), Player(PlayerAction.Play)]) ==
           Step(s1, [StartEngine(0, Command.Play(0.0, Normal))])
      && Run(s1, Repeat(UpdateCurrentAudioTime, 10)) == Step(WithTime(s1, 10.0), [SendDidFinish])
      && Run(WithTime(s1, 10.0), [Player(DidFinishPlaying)]) ==
           Step(s0.(audioInfo := s0.audioInfo.(currentAudioIndex := 1)), [CancelPlay, CancelTimer, QueryDuration(1)])
  {
    var s0 := Initial(NineTrackBook);
    var s1 := s0.(playerState := Playing, audioInfo := s0.audioInfo.(totalDuration := 10.0));
    var start := [GetTotalDuration(10.0), Player(PlayerAction.Play)];
    assert start[..1] == [GetTotalDuration(10.0)];
    assert start[..1][..0] == [];
    TicksReachEnd(s1, 10);
    var fin := [Player(DidFinishPlaying)];
    assert fin[..0] == [];
  }
}
