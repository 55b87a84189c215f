/**
 * `TimeInterval.toMMSS`: a number of seconds rendered as "mm:ss".
 * The value is first converted with Swift's `Int(_:)`, which truncates
 * toward zero; the minute and second fields come from Swift's integer `/`
 * and `%`, which also truncate toward zero; each field is printed with the
 * C format "%02d".
 */
module TimeText {
  import opened Optional
  import opened Numerals

  /** `Int(t)`: drop the fraction, rounding toward zero. */
  function Trunc(t: real): (i: int)
    ensures t >= 0.0 ==> 0 <= i && i as real <= t < i as real + 1.0
    ensures t < 0.0 ==> i <= 0 && i as real - 1.0 < t <= i as real
  {
    if t >= 0.0 then t.Floor else -((-t).Floor)
  }

  /** Swift's `i / 60` (quotient truncated toward zero). */
  function WholeMinutes(i: int): (m: int)
    ensures i >= 0 ==> 0 <= m && 60 * m <= i < 60 * m + 60
    ensures i < 0 ==> m <= 0 && 60 * m - 60 < i <= 60 * m
  {
    if i >= 0 then i / 60 else -((-i) / 60)
  }

  /** Swift's `i % 60`: the remainder takes the sign of `i`. */
  function SecondsField(i: int): (s: int)
    ensures i == 60 * WholeMinutes(i) + s
    ensures i >= 0 ==> 0 <= s < 60
    ensures i < 0 ==> -60 < s <= 0
  {
    if i >= 0 then i % 60 else -((-i) % 60)
  }

  /**
   * C's "%02d": at least two characters, zero-padded on the left only up to
   * that width; negatives keep their sign, which counts towards the width.
   */
  function Pad2(n: int): (s: string)
    ensures n >= 0 ==> |s| >= 2 && AllDigits(s) && ParseNat(s) == n
    ensures 0 <= n < 100 ==> |s| == 2
    ensures n >= 10 ==> s[0] != '0'
    ensures n < 0 ==> |s| >= 2 && s[0] == '-' && AllDigits(s[1..]) && ParseNat(s[1..]) == -n
    ensures n < 0 ==> s[1] != '0'
  {
    if n < 0 then
      ParseDigits(-n);
      assert ("-" + Digits(-n))[1..] == Digits(-n);
      "-" + Digits(-n)
    else if n < 10 then
      var s := "0" + Digits(n);
      assert s[..1] == "0" && s[1] == DigitChar(n);
      assert ParseNat(s[..1]) == 0 && DigitValue(s[1]) == n;
      s
    else
      ParseDigits(n);
      assert n < 100 ==> |Digits(n / 10)| == 1;
      Digits(n)
  }

  /**
   * `toMMSS`. Below 100 minutes the text is exactly five characters "mm:ss",
   * and reading it back gives the truncated number of seconds.
   */
  function ToMMSS(t: real): (s: string)
    ensures 0.0 <= t < 6000.0 ==> |s| == 5 && s[2] == ':' && ParseMMSS(s) == Some(Trunc(t))
  {
    var i := Trunc(t);
    var m, sec := WholeMinutes(i), SecondsField(i);
    var r := Pad2(m) + ":" + Pad2(sec);
    assert 0.0 <= t < 6000.0 ==> r[..2] == Pad2(m) && r[3..] == Pad2(sec) by {
      if 0.0 <= t < 6000.0 {
        assert m < 100;
      }
    }
    r
  }

  /**
   * Reads "mm:ss" (two digits, a colon, two digits, seconds below 60) back
   * to a number of whole seconds.
   */
  function ParseMMSS(s: string): Option<int> {
    if |s| == 5 && s[2] == ':' && AllDigits(s[..2]) && AllDigits(s[3..]) && ParseNat(s[3..]) < 60
    then Some(ParseNat(s[..2]) * 60 + ParseNat(s[3..]))
    else None
  }

  /** Every time within the same whole second (from `n` up to but excluding `n + 1`) prints the same. */
  lemma SameWholeSecondSameText(t: real, n: nat)
    requires n as real <= t < n as real + 1.0
    ensures ToMMSS(t) == ToMMSS(n as real)
  {
    assert Trunc(t) == n;
    assert Trunc(n as real) == n;
  }
}
