/** The palette interpolator of the Symbology widget (`interpolateColors`) and
    the static palettes it stretches (`colorSchemes`, `getColors`). */
module Palette {
  import opened Wrappers
  import opened JsMath
  import opened HexColor

  /** Why `interpolateColors` throws. */
  datatype ColorError =
    | InvalidScheme     // the scheme is missing, not an array, or empty
    | UndefinedAnchor   // count == 1: the position 0/0 is NaN, `scheme[NaN]` is undefined

  /** Every anchor of the scheme is a well-formed `#rrggbb` colour. */
  predicate WellFormed(scheme: seq<string>)
  {
    forall j :: 0 <= j < |scheme| ==> IsHexColor(scheme[j])
  }

  /** `(i / (count - 1)) * (scheme.length - 1)`: where output colour `i` sits
      among the anchors. */
  function Position(i: int, count: int, len: int): (index: real)
    requires count >= 2
  {
    (i as real / (count - 1) as real) * (len - 1) as real
  }

  /** Each output position lies on the anchor scale, so its floor and ceiling
      name existing anchors. */
  lemma PositionBounds(i: int, count: int, len: int)
    requires count >= 2 && 0 <= i < count && len >= 1
    ensures 0.0 <= Position(i, count, len) <= (len - 1) as real
    ensures 0 <= Position(i, count, len).Floor <= Ceil(Position(i, count, len)) <= len - 1
  {
    var d := (count - 1) as real;
    var t := i as real / d;
    assert t * d == i as real <= d;
    assert 0.0 <= t <= 1.0;
    var w := (len - 1) as real;
    assert t * w <= 1.0 * w by {
      assert (1.0 - t) * w >= 0.0;
    }
  }

  /** Two points between `a` and `b`, whichever is larger. */
  predicate Between(v: int, a: int, b: int)
  {
    (a <= v <= b) || (b <= v <= a)
  }

  /** One channel: `Math.round(c + (u - c) * fraction)`. With the fraction
      strictly between 0 and 1 the result lies between the two anchor values. */
  function Lerp(c: int, u: int, fraction: real): (v: int)
    requires 0.0 < fraction < 1.0
    ensures Between(v, c, u)
  {
    var x := c as real + (u - c) as real * fraction;
    if c <= u then
      assert 0.0 <= (u - c) as real * fraction <= (u - c) as real * 1.0;
      Round(x)
    else
      assert (c - u) as real * 1.0 >= (c - u) as real * fraction >= 0.0;
      Round(x)
  }

  /** The channel-wise `map` over the two decoded anchors. */
  function Mix(lo: Rgb, hi: Rgb, fraction: real): (c: Rgb)
    requires InGamut(lo) && InGamut(hi) && 0.0 < fraction < 1.0
    ensures InGamut(c)
    ensures Between(c.red, lo.red, hi.red)
    ensures Between(c.green, lo.green, hi.green)
    ensures Between(c.blue, lo.blue, hi.blue)
  {
    Rgb(Lerp(lo.red, hi.red, fraction), Lerp(lo.green, hi.green, fraction), Lerp(lo.blue, hi.blue, fraction))
  }

  /** Output colour `i` of `count` (count >= 2): the anchor itself when the
      position is a whole number, otherwise the two neighbouring anchors mixed
      by the fractional part of the position. */
  function ColorAt(scheme: seq<string>, count: int, i: int): (c: string)
    requires WellFormed(scheme) && |scheme| > 0 && count >= 2 && 0 <= i < count
    ensures IsHexColor(c)
  {
    var index := Position(i, count, |scheme|);
    PositionBounds(i, count, |scheme|);
    var lower, upper := index.Floor, Ceil(index);
    if lower == upper then
      scheme[lower]
    else
      FloorCeil(index);
      Encode(Mix(Decode(scheme[lower]), Decode(scheme[upper]), index - lower as real))
  }

  /** The `count` output colours, position by position: exactly `count`
      well-formed colours, from the first anchor to the last. */
  function Stretch(scheme: seq<string>, count: int): (colors: seq<string>)
    requires WellFormed(scheme) && |scheme| > 0 && count >= 2
    ensures |colors| == count && WellFormed(colors)
    ensures colors[0] == scheme[0] && colors[count - 1] == scheme[|scheme| - 1]
  {
    var len := |scheme|;
    assert Position(0, count, len) == 0.0;
    assert Position(count - 1, count, len) == (len - 1) as real;
    AnchorCopied(scheme, count, 0, 0);
    AnchorCopied(scheme, count, count - 1, len - 1);
    seq(count, i requires 0 <= i < count => ColorAt(scheme, count, i))
  }

  /** What `interpolateColors(scheme, count)` returns or throws. It throws
      exactly on an empty scheme and on a single output colour; a count of
      zero or less never enters the loop; otherwise the colours run from the
      first anchor to the last. */
  function Interpolation(scheme: seq<string>, count: int): (r: Result<seq<string>, ColorError>)
    requires WellFormed(scheme)
    ensures r.Failure? <==> |scheme| == 0 || count == 1
    ensures r == Failure(InvalidScheme) <==> |scheme| == 0
    ensures r.Success? && count <= 0 ==> r.value == []
    ensures r.Success? && count >= 2 ==>
      |r.value| == count && WellFormed(r.value) &&
      r.value[0] == scheme[0] && r.value[count - 1] == scheme[|scheme| - 1]
  {
    if |scheme| == 0 then Failure(InvalidScheme)
    else if count == 1 then Failure(UndefinedAnchor)
    else if count <= 0 then Success([])
    else Success(Stretch(scheme, count))
  }

  /** One pass of the `interpolateColors` loop body: the colour pushed for
      output `i`. It repeats `ColorAt` step by step; it is split out of the
      loop so that the loop's proof stays small. */
  method PositionColor(scheme: seq<string>, count: int, i: int) returns (color: string)
    requires WellFormed(scheme) && |scheme| > 0 && count >= 2 && 0 <= i < count
    ensures color == ColorAt(scheme, count, i)
  {
    var index := Position(i, count, |scheme|);
    PositionBounds(i, count, |scheme|);
    var lower, upper := index.Floor, Ceil(index);
    if lower == upper {
      color := scheme[lower];
    } else {
      FloorCeil(index);
      var fraction := index - lower as real;
      var lowerColor, upperColor := Decode(scheme[lower]), Decode(scheme[upper]);
      color := Encode(Mix(lowerColor, upperColor, fraction));
    }
  }

  /** `interpolateColors`: fills the colour list one position at a time. */
  method InterpolateColors(scheme: seq<string>, count: int) returns (r: Result<seq<string>, ColorError>)
    requires WellFormed(scheme)
    ensures r == Interpolation(scheme, count)
  {
    if |scheme| == 0 {
      return Failure(InvalidScheme);
    }
    var colors: seq<string> := [];
    var i := 0;
    while i < count
      invariant 0 <= i <= (if count < 0 then 0 else count)
      invariant count == 1 ==> i == 0
      invariant |colors| == i
      invariant forall j :: 0 <= j < i ==> count >= 2 && colors[j] == ColorAt(scheme, count, j)
    {
      if count == 1 {
        return Failure(UndefinedAnchor);
      }
      var color := PositionColor(scheme, count, i);
      colors := colors + [color];
      i := i + 1;
    }
    if count >= 2 {
      assert colors == Stretch(scheme, count);
    }
    return Success(colors);
  }

  /** A position that falls exactly on anchor `k` copies that anchor unchanged. */
  lemma AnchorCopied(scheme: seq<string>, count: int, i: int, k: int)
    requires WellFormed(scheme) && |scheme| > 0 && count >= 2 && 0 <= i < count
    requires Position(i, count, |scheme|) == k as real
    ensures 0 <= k < |scheme| && ColorAt(scheme, count, i) == scheme[k]
  {
    PositionBounds(i, count, |scheme|);
    FloorCeil(k as real);
  }

  /** A position between two anchors yields a colour whose every channel lies
      between the same channel of the two neighbouring anchors. */
  lemma BetweenNeighbours(scheme: seq<string>, count: int, i: int)
    requires WellFormed(scheme) && |scheme| > 0 && count >= 2 && 0 <= i < count
    requires Position(i, count, |scheme|) != Position(i, count, |scheme|).Floor as real
    ensures var lower := Position(i, count, |scheme|).Floor;
      0 <= lower && lower + 1 < |scheme| &&
      var c, a, b := Decode(ColorAt(scheme, count, i)), Decode(scheme[lower]), Decode(scheme[lower + 1]);
      Between(c.red, a.red, b.red) && Between(c.green, a.green, b.green) && Between(c.blue, a.blue, b.blue)
  {
    var index := Position(i, count, |scheme|);
    PositionBounds(i, count, |scheme|);
    FloorCeil(index);
  }

  /** Asking for as many colours as there are anchors returns the anchors. */
  lemma SameCountKeepsAnchors(scheme: seq<string>)
    requires WellFormed(scheme) && |scheme| >= 2
    ensures Interpolation(scheme, |scheme|) == Success(scheme)
  {
    var len := |scheme|;
    forall j | 0 <= j < len
      ensures ColorAt(scheme, len, j) == scheme[j]
    {
      var d := (len - 1) as real;
      assert (j as real / d) * d == j as real;
      AnchorCopied(scheme, len, j, j);
    }
    assert Stretch(scheme, len) == scheme;
  }

  /** Black to white in three steps puts mid grey (127.5 rounds up) in the middle. */
  lemma BlackToWhiteInThree(scheme: seq<string>)
    requires scheme == ["#000000", "#ffffff"]
    ensures WellFormed(scheme)
    ensures Interpolation(scheme, 3) == Success(["#000000", "#808080", "#ffffff"])
  {
    MidGrey(scheme);
    var colors := Stretch(scheme, 3);
    assert colors[0] == "#000000" && colors[1] == "#808080" && colors[2] == "#ffffff";
    assert colors == ["#000000", "#808080", "#ffffff"];
  }

  lemma MidGrey(scheme: seq<string>)
    requires scheme == ["#000000", "#ffffff"]
    ensures WellFormed(scheme)
    ensures ColorAt(scheme, 3, 1) == "#808080"
  {
    assert IsHexColor(scheme[0]) && IsHexColor(scheme[1]);
    var index := Position(1, 3, 2);
    assert index == 0.5;
    assert index.Floor == 0 && Ceil(index) == 1;
    var black, white := Decode(scheme[0]), Decode(scheme[1]);
    assert black == Rgb(0, 0, 0) && white == Rgb(255, 255, 255);
    assert Lerp(0, 255, 0.5) == 128;
    var grey := Mix(black, white, 0.5);
    assert grey == Rgb(128, 128, 128);
    assert ByteHex(128) == "80";
    assert Encode(grey) == "#808080";
  }

  // The static palettes: three families of five-colour anchor sets.

  const Reds: seq<string> := ["#fee5d9", "#fcae91", "#fb6a4a", "#de2d26", "#a50f15"]
  const Greens: seq<string> := ["#edf8e9", "#bae4b3", "#74c476", "#31a354", "#006d2c"]
  const Blues: seq<string> := ["#eff3ff", "#bdd7e7", "#6baed6", "#3182bd", "#08519c"]
  const RedBlue: seq<string> := ["#d73027", "#fc8d59", "#fee090", "#91bfdb", "#4575b4"]
  const BrownTeal: seq<string> := ["#8c510a", "#f6e8c3", "#f5f5f5", "#c7eae5", "#01665e"]
  const PurpleGreen: seq<string> := ["#762a83", "#c2a5cf", "#f7f7f7", "#80cdc1", "#1b7837"]
  const Set1: seq<string> := ["#e41a1c", "#377eb8", "#4daf4a", "#984ea3", "#ff7f00"]
  const Set2: seq<string> := ["#66c2a5", "#fc8d62", "#8da0cb", "#e78ac3", "#a6d854"]
  const Set3: seq<string> := ["#8dd3c7", "#ffffb3", "#bebada", "#fb8072", "#80b1d3"]

  /** `colorSchemes[family]`: the palettes of a named family, if there is one. */
  function SchemeFamily(family: string): (schemes: Option<seq<seq<string>>>)
  {
    if family == "sequential" then Some([Reds, Greens, Blues])
    else if family == "diverging" then Some([RedBlue, BrownTeal, PurpleGreen])
    else if family == "qualitative" then Some([Set1, Set2, Set3])
    else None
  }

  /** Every palette of every family has five well-formed anchors. */
  lemma FamiliesWellFormed(family: string)
    requires SchemeFamily(family).Some?
    ensures forall k :: 0 <= k < |SchemeFamily(family).value| ==>
      |SchemeFamily(family).value[k]| == 5 && WellFormed(SchemeFamily(family).value[k])
  {
    if family == "sequential" {
      SequentialWellFormed();
    } else if family == "diverging" {
      DivergingWellFormed();
    } else {
      QualitativeWellFormed();
    }
  }

  lemma SequentialWellFormed()
    ensures WellFormed(Reds) && WellFormed(Greens) && WellFormed(Blues)
  {
    PaletteWellFormed(Reds);
    PaletteWellFormed(Greens);
    PaletteWellFormed(Blues);
  }

  lemma DivergingWellFormed()
    ensures WellFormed(RedBlue) && WellFormed(BrownTeal) && WellFormed(PurpleGreen)
  {
    PaletteWellFormed(RedBlue);
    PaletteWellFormed(BrownTeal);
    PaletteWellFormed(PurpleGreen);
  }

  lemma QualitativeWellFormed()
    ensures WellFormed(Set1) && WellFormed(Set2) && WellFormed(Set3)
  {
    PaletteWellFormed(Set1);
    PaletteWellFormed(Set2);
    PaletteWellFormed(Set3);
  }

  /** A five-anchor palette is well-formed when each anchor is. */
  lemma PaletteWellFormed(p: seq<string>)
    requires |p| == 5
    requires IsHexColor(p[0]) && IsHexColor(p[1]) && IsHexColor(p[2]) && IsHexColor(p[3]) && IsHexColor(p[4])
    ensures WellFormed(p)
  {
  }

  /** The scheme `getColors` hands to `interpolateColors`: palette `index` of
      the family, or the first sequential palette when the family is unknown or
      the index is past its end. It is never empty or malformed. */
  function SelectedScheme(family: string, index: nat): (scheme: seq<string>)
    ensures |scheme| == 5 && WellFormed(scheme)
    ensures SchemeFamily(family).Some? && index < |SchemeFamily(family).value| ==>
      scheme == SchemeFamily(family).value[index]
    ensures SchemeFamily(family).None? || index >= |SchemeFamily(family).value| ==>
      scheme == Reds
  {
    FamiliesWellFormed("sequential");
    match SchemeFamily(family)
    case Some(schemes) =>
      FamiliesWellFormed(family);
      if index >= |schemes| then Reds else schemes[index]
    case None => Reds
  }

  /** The colours `getColors` yields for a class count of two or more. */
  function SchemeColors(family: string, index: nat, count: int): (colors: seq<string>)
    requires count >= 2
    ensures |colors| == count && WellFormed(colors)
    ensures Interpolation(SelectedScheme(family, index), count) == Success(colors)
  {
    Interpolation(SelectedScheme(family, index), count).value
  }

  /** The first anchors of a family's palettes differ: the sequential ones in
      their second hex digit, the others in their first. */
  lemma FirstAnchorsDistinct(family: string, i: nat, j: nat)
    requires SchemeFamily(family).Some? && i < j < |SchemeFamily(family).value|
    ensures SelectedScheme(family, i)[0] != SelectedScheme(family, j)[0]
  {
    var ps := SchemeFamily(family).value;
    if family == "sequential" {
      assert ps[0][0][2] == 'e' && ps[1][0][2] == 'd' && ps[2][0][2] == 'f';
      assert ps[i][0][2] != ps[j][0][2];
    } else if family == "diverging" {
      assert ps[0][0][1] == 'd' && ps[1][0][1] == '8' && ps[2][0][1] == '7';
      assert ps[i][0][1] != ps[j][0][1];
    } else {
      assert ps[0][0][1] == 'e' && ps[1][0][1] == '6' && ps[2][0][1] == '8';
      assert ps[i][0][1] != ps[j][0][1];
    }
  }

  /** Within a family the palettes start with different colours, so two
      different indexes never give the same colours. */
  lemma DistinctPalettesDiffer(family: string, i: nat, j: nat, count: int)
    requires SchemeFamily(family).Some? && i < j < |SchemeFamily(family).value| && count >= 2
    ensures SchemeColors(family, i, count) != SchemeColors(family, j, count)
  {
    var a, b := SelectedScheme(family, i), SelectedScheme(family, j);
    FirstAnchorsDistinct(family, i, j);
    assert SchemeColors(family, i, count)[0] == a[0];
  }
}
