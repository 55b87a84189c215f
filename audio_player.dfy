/**
 * The audio engine's command vocabulary and its playback speeds
 * (`AudioPlayerClient.Action` and `AudioPlayerClient.PlaybackSpeed`).
 * The engine itself (AVFoundation) is not part of this model.
 */
module AudioPlayer {
  import opened Optional
  import Numerals

  /** The seven playback speeds, in declaration order. */
  datatype Speed =
    | Half
    | ThreeQuarters
    | Normal
    | OneAndAQuarter
    | OneAndAHalf
    | OneAndThreeQuarters
    | Double

  /** The one engine command: play from `time` seconds at `speed`. */
  datatype Command = Play(time: real, speed: Speed)

  /** The enum's raw value, the rate multiplier handed to the engine. */
  function RawValue(sp: Speed): (r: real)
    ensures 0.5 <= r <= 2.0
    ensures sp == Normal <==> r == 1.0
  {
    match sp
    case Half => 0.5
    case ThreeQuarters => 0.75
    case Normal => 1.0
    case OneAndAQuarter => 1.25
    case OneAndAHalf => 1.5
    case OneAndThreeQuarters => 1.75
    case Double => 2.0
  }

  /**
   * `allCases`: every speed exactly once, slowest first, with `.normal`
   * at position 2.
   */
  function AllCases(): (r: seq<Speed>)
    ensures |r| == 7
    ensures forall sp :: sp in r
    ensures r[0] == Half && r[2] == Normal && r[6] == Double
  {
    var r := [Half, ThreeQuarters, Normal, OneAndAQuarter, OneAndAHalf, OneAndThreeQuarters, Double];
    assert forall sp :: sp in r by {
      forall sp ensures sp in r {
        if sp.Half? { assert r[0] == sp; }
        else if sp.ThreeQuarters? { assert r[1] == sp; }
        else if sp.Normal? { assert r[2] == sp; }
        else if sp.OneAndAQuarter? { assert r[3] == sp; }
        else if sp.OneAndAHalf? { assert r[4] == sp; }
        else if sp.OneAndThreeQuarters? { assert r[5] == sp; }
        else { assert r[6] == sp; }
      }
    }
    r
  }

  /** `allCases` lists the speeds slowest first: rates strictly increase along it. */
  lemma AllCasesAscending(i: nat, j: nat)
    requires i < j < 7
    ensures RawValue(AllCases()[i]) < RawValue(AllCases()[j])
  {
  }

  /** The speed label shown on the speed button. */
  function Description(sp: Speed): (d: string)
    ensures 1 <= |d| <= 4 && d[|d| - 1] != '0'
    ensures sp == Normal <==> d == "1"
  {
    match sp
    case Half => "0.5"
    case ThreeQuarters => "0.75"
    case Normal => "1"
    case OneAndAQuarter => "1.25"
    case OneAndAHalf => "1.5"
    case OneAndThreeQuarters => "1.75"
    case Double => "2"
  }

  /**
   * The label is the decimal numeral of the raw value, written without a
   * trailing zero (so `.normal` reads "1", not "1.0").
   */
  lemma DescriptionDenotesRawValue(sp: Speed)
    ensures Numerals.DecimalValue(Description(sp)) == Some(RawValue(sp))
    ensures Description(sp)[|Description(sp)| - 1] != '0'
  {
    var d := Description(sp);
    var k := Numerals.DotIndex(d);
    match sp
    case Half =>
      assert d[0] != '.' && d[1..][0] == '.';
      assert k == 1;
      assert Numerals.ParseNat(d[..1]) == 0;
      assert Numerals.ParseNat(d[2..]) == 5;
    case ThreeQuarters =>
      assert d[0] != '.' && d[1..][0] == '.';
      assert k == 1;
      assert Numerals.ParseNat(d[..1]) == 0;
      assert d[2..][..1] == "7";
      assert Numerals.ParseNat(d[2..]) == 75;
    case Normal =>
      assert d[1..] == [];
      assert k == 1;
      assert Numerals.ParseNat(d) == 1;
    case OneAndAQuarter =>
      assert d[0] != '.' && d[1..][0] == '.';
      assert k == 1;
      assert Numerals.ParseNat(d[..1]) == 1;
      assert d[2..][..1] == "2";
      assert Numerals.ParseNat(d[2..]) == 25;
    case OneAndAHalf =>
      assert d[0] != '.' && d[1..][0] == '.';
      assert k == 1;
      assert Numerals.ParseNat(d[..1]) == 1;
      assert Numerals.ParseNat(d[2..]) == 5;
    case OneAndThreeQuarters =>
      assert d[0] != '.' && d[1..][0] == '.';
      assert k == 1;
      assert Numerals.ParseNat(d[..1]) == 1;
      assert d[2..][..1] == "7";
      assert Numerals.ParseNat(d[2..]) == 75;
    case Double =>
      assert d[1..] == [];
      assert k == 1;
      assert Numerals.ParseNat(d) == 2;
  }

  /** No two speeds share a label. */
  lemma DescriptionsDistinct(a: Speed, b: Speed)
    requires a != b
    ensures Description(a) != Description(b)
  {
    DescriptionDenotesRawValue(a);
    DescriptionDenotesRawValue(b);
    var r := AllCases();
    assert a in r && b in r;
    var i :| 0 <= i < 7 && r[i] == a;
    var j :| 0 <= j < 7 && r[j] == b;
    assert RawValue(a) != RawValue(b) by {
      if i < j { AllCasesAscending(i, j); }
      else { AllCasesAscending(j, i); }
    }
  }
}
