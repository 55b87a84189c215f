/**
 * `AudioInfoState`: the playback position record, with its slider
 * projection (`sliderValue`, `sliderStep`) and its speed projections
 * (`currentPlaybackSpeedIndex`, `currentPlaybackSpeedDescr`).
 */
module AudioInfoState {
  import opened Optional
  import opened AudioPlayer
  import Numerals

  /** The four-field record of `BookDetailsReducer+AudioInfoState.swift`. */
  datatype AudioInfo = AudioInfo(
    currentAudioIndex: int,
    currentTime: real,
    totalDuration: real,
    currentPlaybackSpeed: Speed)

  /** `AudioInfoState.empty`: every field at its default. */
  const Empty: AudioInfo := AudioInfo(0, 0.0, 0.0, Normal)

  datatype ClosedRange = ClosedRange(lower: real, upper: real) {
    predicate Contains(v: real) {
      lower <= v <= upper
    }
  }

  /** `sliderStep`, the range the progress slider moves in. */
  const SliderStep: ClosedRange := ClosedRange(0.0, 1.0)

  /** The `sliderValue` getter: elapsed time as a fraction of the duration, 0 without a duration. */
  function SliderRatio(time: real, duration: real): (v: real)
    ensures duration <= 0.0 ==> v == 0.0
    ensures duration > 0.0 ==> v * duration == time
    ensures 0.0 <= time <= duration ==> SliderStep.Contains(v)
  {
    if duration > 0.0 then time / duration else 0.0
  }

  /** The `sliderValue` setter's new elapsed time for slider position `v`. */
  function TimeAtRatio(v: real, duration: real): (t: real)
    ensures duration > 0.0 ==> SliderRatio(t, duration) == v
    ensures duration >= 0.0 && SliderStep.Contains(v) ==> 0.0 <= t <= duration
    ensures duration == 0.0 ==> t == 0.0
  {
    v * duration
  }

  function SliderValue(a: AudioInfo): real {
    SliderRatio(a.currentTime, a.totalDuration)
  }

  /** Assigning `sliderValue`: only the elapsed time changes. */
  function WithSliderValue(a: AudioInfo, v: real): (r: AudioInfo)
    ensures r.currentAudioIndex == a.currentAudioIndex
    ensures r.totalDuration == a.totalDuration
    ensures r.currentPlaybackSpeed == a.currentPlaybackSpeed
    ensures a.totalDuration > 0.0 ==> SliderValue(r) == v
    ensures a.totalDuration >= 0.0 && SliderStep.Contains(v) ==> 0.0 <= r.currentTime <= r.totalDuration
  {
    a.(currentTime := TimeAtRatio(v, a.totalDuration))
  }

  /** The record's equality is field by field. */
  lemma AudioInfoEquality(a: AudioInfo, b: AudioInfo)
    ensures a == b <==>
      a.currentAudioIndex == b.currentAudioIndex && a.currentTime == b.currentTime &&
      a.totalDuration == b.totalDuration && a.currentPlaybackSpeed == b.currentPlaybackSpeed
  {
  }

  /** `empty` starts at the first track, at time 0, with no duration, at normal speed, with the slider at 0. */
  lemma EmptyIsAtStart()
    ensures Empty.currentAudioIndex == 0 && Empty.currentTime == 0.0 && Empty.totalDuration == 0.0
    ensures Empty.currentPlaybackSpeed == Normal && SliderValue(Empty) == 0.0
  {
  }

  /** The first position of `x` in `s` (Swift's `firstIndex(of:)`). */
  function FirstIndex<T(==)>(s: seq<T>, x: T): (r: Option<nat>)
    ensures r.Some? ==> r.value < |s| && s[r.value] == x && forall j | 0 <= j < r.value :: s[j] != x
    ensures r.None? ==> x !in s
  {
    if s == [] then None
    else if s[0] == x then Some(0)
    else match FirstIndex(s[1..], x)
      case None => None
      case Some(i) => Some(i + 1)
  }

  /**
   * `currentPlaybackSpeedIndex`: the position of the speed in `allCases`.
   * Written out by cases; `PlaybackSpeedIndexIsFirstIndex` proves it is the
   * source's `firstIndex(of:) ?? 2`.
   */
  function PlaybackSpeedIndex(sp: Speed): (i: nat)
    ensures i < |AllCases()| && AllCases()[i] == sp
  {
    match sp
    case Half => 0
    case ThreeQuarters => 1
    case Normal => 2
    case OneAndAQuarter => 3
    case OneAndAHalf => 4
    case OneAndThreeQuarters => 5
    case Double => 6
  }

  /**
   * The index is `allCases.firstIndex(of:)`, which always finds the speed,
   * so the `?? 2` fallback (which would have meant `.normal`) is never taken.
   */
  lemma PlaybackSpeedIndexIsFirstIndex(sp: Speed)
    ensures FirstIndex(AllCases(), sp) == Some(PlaybackSpeedIndex(sp))
    ensures PlaybackSpeedIndex(sp) == FirstIndex(AllCases(), sp).GetOr(2)
    ensures AllCases()[2] == Normal
  {
    var cases := AllCases();
    var r := FirstIndex(cases, sp);
    var i := PlaybackSpeedIndex(sp);
    assert sp in cases;
    assert r.Some?;
    assert cases[r.value] == sp;
    assert i <= r.value;
  }

  /** Different speeds have different indices. */
  lemma PlaybackSpeedIndexInjective(a: Speed, b: Speed)
    ensures PlaybackSpeedIndex(a) == PlaybackSpeedIndex(b) ==> a == b
  {
    var cases := AllCases();
    assert cases[PlaybackSpeedIndex(a)] == a;
  }

  /** `currentPlaybackSpeedDescr`: the label reads as the rate the engine is given. */
  function PlaybackSpeedDescr(a: AudioInfo): (d: string)
    ensures Numerals.DecimalValue(d) == Some(RawValue(a.currentPlaybackSpeed))
  {
    DescriptionDenotesRawValue(a.currentPlaybackSpeed);
    Description(a.currentPlaybackSpeed)
  }

  /** The speed `changeSpeed` selects: the next one in `allCases`, wrapping after `.double`. */
  function NextSpeed(sp: Speed): (r: Speed)
    ensures PlaybackSpeedIndex(r) == (PlaybackSpeedIndex(sp) + 1) % 7
    ensures sp == Double ==> r == Half
  {
    AllCases()[(PlaybackSpeedIndex(sp) + 1) % |AllCases()|]
  }

  /** The speed after `n` speed changes. */
  function SpeedAfter(sp: Speed, n: nat): Speed {
    if n == 0 then sp else NextSpeed(SpeedAfter(sp, n - 1))
  }

  lemma {:induction false} SpeedAfterIndex(sp: Speed, n: nat)
    ensures PlaybackSpeedIndex(SpeedAfter(sp, n)) == (PlaybackSpeedIndex(sp) + n) % 7
  {
    if n > 0 {
      var m: nat := n - 1;
      SpeedAfterIndex(sp, m);
      var before := PlaybackSpeedIndex(SpeedAfter(sp, m));
      var after := PlaybackSpeedIndex(SpeedAfter(sp, n));
      assert after == (before + 1) % 7;
      ModSevenStep(PlaybackSpeedIndex(sp) + m, PlaybackSpeedIndex(sp) + n, before, after);
    }
  }

  lemma ModSevenCycle(x: nat, n: nat)
    requires x < 7 && n % 7 == 0
    ensures (x + n) % 7 == x
  {
    var k := n / 7;
    assert n == 7 * k;
    assert x + n == 7 * k + x;
  }

  /** One more step after `x` steps: reducing modulo 7 before or after adding one gives the same. */
  lemma ModSevenStep(x: nat, y: nat, before: int, after: int)
    requires y == x + 1 && before == x % 7 && after == (before + 1) % 7
    ensures after == y % 7
  {
    var q, r := x / 7, x % 7;
    assert x == 7 * q + r;
    if r < 6 {
      assert x + 1 == 7 * q + (r + 1);
    } else {
      assert x + 1 == 7 * (q + 1);
    }
  }

  /** Seven speed changes (or any multiple of seven) bring the speed back to where it was. */
  lemma {:induction false} FullCycleRestoresSpeed(sp: Speed, n: nat)
    requires n % 7 == 0
    ensures SpeedAfter(sp, n) == sp
  {
    SpeedAfterIndex(sp, n);
    ModSevenCycle(PlaybackSpeedIndex(sp), n);
    PlaybackSpeedIndexInjective(SpeedAfter(sp, n), sp);
  }
}
