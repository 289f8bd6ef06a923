/** The classifier of the Symbology widget: the value sample of the chosen
    field and the three ways `handleApplyStyle` turns it into
    `classCount + 1` class breaks. */
module Classify {
  import opened Wrappers
  import opened JsMath

  /** The `classMethod` setting; the three values the method selector offers. */
  datatype ClassMethod = EqualInterval | Quantile | NaturalBreaks

  /** `features.map(f => f.get(field)).filter(v => v != null)`: the field's
      values with the missing ones dropped, each value as often as features
      carry it (`SampleCounts`), in feature order (`SampleConcat`). */
  function Sample(raw: seq<Option<real>>): (values: seq<real>)
    ensures |values| <= |raw|
    ensures forall x :: x in values <==> Some(x) in raw
  {
    if raw == [] then []
    else
      assert raw == [raw[0]] + raw[1..];
      (match raw[0] case Some(v) => [v] case None => []) + Sample(raw[1..])
  }

  /** Every value occurs in the sample exactly as often as features carry it:
      filtering drops the missing values and nothing else. */
  lemma {:induction false} SampleCounts(raw: seq<Option<real>>)
    ensures forall x :: multiset(Sample(raw))[x] == multiset(raw)[Some(x)]
    decreases |raw|
  {
    if raw != [] {
      SampleCounts(raw[1..]);
      var head := match raw[0] case Some(v) => [v] case None => [];
      assert raw == [raw[0]] + raw[1..];
      assert multiset(raw) == multiset([raw[0]]) + multiset(raw[1..]);
      assert multiset(Sample(raw)) == multiset(head) + multiset(Sample(raw[1..]));
    }
  }

  /** Filtering keeps the order: the sample of two runs of features is the
      sample of the first followed by the sample of the second. */
  lemma {:induction false} SampleConcat(a: seq<Option<real>>, b: seq<Option<real>>)
    ensures Sample(a + b) == Sample(a) + Sample(b)
    decreases |a|
  {
    if a == [] {
      assert a + b == b;
    } else {
      var head := match a[0] case Some(v) => [v] case None => [];
      assert (a + b)[0] == a[0] && (a + b)[1..] == a[1..] + b;
      assert Sample(a + b) == head + Sample(a[1..] + b);
      SampleConcat(a[1..], b);
      assert Sample(a) == head + Sample(a[1..]);
      ConcatAssociates(head, Sample(a[1..]), Sample(b));
    }
  }

  /** Concatenation is associative; stated on plain sequences so the step in
      `SampleConcat` needs no sample facts. */
  lemma ConcatAssociates(x: seq<real>, y: seq<real>, z: seq<real>)
    ensures x + (y + z) == (x + y) + z
  {
  }

  /** `Math.min(...values)` of a non-empty sample. */
  function Minimum(values: seq<real>): (m: real)
    requires |values| > 0
    ensures m in values
    ensures forall i :: 0 <= i < |values| ==> m <= values[i]
  {
    if |values| == 1 then values[0]
    else
      var rest := Minimum(values[1..]);
      if values[0] <= rest then values[0] else rest
  }

  /** `Math.max(...values)` of a non-empty sample. */
  function Maximum(values: seq<real>): (m: real)
    requires |values| > 0
    ensures m in values
    ensures forall i :: 0 <= i < |values| ==> values[i] <= m
  {
    if |values| == 1 then values[0]
    else
      var rest := Maximum(values[1..]);
      if values[0] >= rest then values[0] else rest
  }

  predicate Sorted(s: seq<real>)
  {
    forall i, j :: 0 <= i <= j < |s| ==> s[i] <= s[j]
  }

  /** A sequence whose every step goes up (or stays) is sorted. */
  lemma SortedFromSteps(s: seq<real>)
    requires forall i :: 0 <= i < |s| - 1 ==> s[i] <= s[i + 1]
    ensures Sorted(s)
  {
    forall i, j | 0 <= i <= j < |s|
      ensures s[i] <= s[j]
    {
      StepsChain(s, i, j);
    }
  }

  lemma {:induction false} StepsChain(s: seq<real>, i: int, j: int)
    requires forall k :: 0 <= k < |s| - 1 ==> s[k] <= s[k + 1]
    requires 0 <= i <= j < |s|
    ensures s[i] <= s[j]
    decreases j - i
  {
    if i < j {
      StepsChain(s, i + 1, j);
    }
  }

  /** Places `x` in a sorted sequence. */
  function Insert(x: real, s: seq<real>): (r: seq<real>)
    requires Sorted(s)
    ensures Sorted(r)
    ensures multiset(r) == multiset(s) + multiset{x}
  {
    if s == [] || x <= s[0] then
      ConsSorted(x, s);
      [x] + s
    else
      var tail := Insert(x, s[1..]);
      assert s == [s[0]] + s[1..];
      forall k | 0 <= k < |tail|
        ensures s[0] <= tail[k]
      {
        assert tail[k] in multiset(tail);
      }
      ConsSorted(s[0], tail);
      [s[0]] + tail
  }

  /** A value no larger than any element of a sorted sequence can go in front. */
  lemma ConsSorted(y: real, t: seq<real>)
    requires Sorted(t) && (t == [] || y <= t[0])
    ensures Sorted([y] + t)
  {
  }

  /** `[...values].sort((a, b) => a - b)`: the sample in ascending order. */
  function SortAscending(values: seq<real>): (sorted: seq<real>)
    ensures Sorted(sorted)
    ensures multiset(sorted) == multiset(values)
  {
    if values == [] then []
    else
      assert values == [values[0]] + values[1..];
      Insert(values[0], SortAscending(values[1..]))
  }

  /** Sorting a sample that is already in ascending order leaves it as it is. */
  lemma {:induction false} SortedStaysPut(values: seq<real>)
    requires Sorted(values)
    ensures SortAscending(values) == values
  {
    if values != [] {
      SortedStaysPut(values[1..]);
    }
  }

  /** In a sorted sample the minimum comes first and the maximum last. */
  lemma SortedEnds(values: seq<real>)
    requires |values| > 0 && Sorted(values)
    ensures Minimum(values) == values[0] && Maximum(values) == values[|values| - 1]
  {
  }

  /** Breaks that run from the sample's minimum to its maximum in
      `classCount` non-decreasing steps. */
  predicate Spans(breaks: seq<real>, values: seq<real>, classCount: int)
    requires |values| > 0
  {
    |breaks| == classCount + 1 && classCount >= 0 &&
    breaks[0] == Minimum(values) && breaks[classCount] == Maximum(values) &&
    Sorted(breaks)
  }

  // ---- Equal interval --------------------------------------------------------

  /** `Array.from({ length: classCount + 1 }, (_, i) => min + interval * i)`
      with `interval = (max - min) / classCount`. */
  function EqualIntervalBreaks(min: real, max: real, classCount: int): (breaks: seq<real>)
    requires classCount >= 2
  {
    var interval := (max - min) / classCount as real;
    seq(classCount + 1, i => min + interval * i as real)
  }

  /** Scaling by a non-negative factor keeps the order of two numbers. */
  lemma ScaleMonotone(step: real, x: real, y: real)
    requires step >= 0.0 && x <= y
    ensures step * x <= step * y
  {
    assert step * y - step * x == step * (y - x);
  }

  /** Dividing by a positive number keeps the order and the sign, and
      multiplying back gives the dividend. */
  lemma QuotientFacts(x: real, y: real, d: real)
    requires d > 0.0 && x <= y
    ensures (x / d) * d == x && (y / d) * d == y
    ensures x / d <= y / d
    ensures 0.0 <= x ==> 0.0 <= x / d
    ensures 0.0 < x ==> 0.0 < x / d
  {
  }

  /** Equal-interval breaks run from `min` to `max` (exactly, over the reals),
      never decrease, and all classes have the same width. */
  lemma EqualIntervalProperties(min: real, max: real, classCount: int)
    requires min <= max && classCount >= 2
    ensures var b := EqualIntervalBreaks(min, max, classCount);
      |b| == classCount + 1 && b[0] == min && b[classCount] == max && Sorted(b) &&
      forall i :: 0 <= i < classCount ==> b[i + 1] - b[i] == (max - min) / classCount as real
  {
    var b := EqualIntervalBreaks(min, max, classCount);
    var k := classCount as real;
    var interval := (max - min) / k;
    assert interval >= 0.0 && interval * k == max - min by {
      QuotientFacts(max - min, max - min, k);
    }
    assert b[classCount] == min + interval * k;
    forall i | 0 <= i < classCount
      ensures b[i] <= b[i + 1] && b[i + 1] - b[i] == interval
    {
      NextStep(min, interval, i as real, b[i], b[i + 1]);
    }
    SortedFromSteps(b);
  }

  /** Consecutive multiples of a non-negative step are one step apart. */
  lemma NextStep(min: real, step: real, x: real, lo: real, hi: real)
    requires step >= 0.0 && lo == min + step * x && hi == min + step * (x + 1.0)
    ensures lo <= hi && hi - lo == step
  {
    assert step * (x + 1.0) == step * x + step;
  }

  // ---- Quantile --------------------------------------------------------------

  /** `Math.round((i / classCount) * (n - 1))`, the sorted position that break
      `i` takes, in whole numbers: `floor(i * (n - 1) / classCount + 1/2)` is
      the quotient of `2 * i * (n - 1) + classCount` by `2 * classCount`, as
      `QuantileIndexIsRound` proves. It is always a position of the sample. */
  function QuantileIndex(i: int, classCount: int, n: int): (j: int)
    requires classCount >= 2 && 0 <= i <= classCount && n >= 1
    ensures 0 <= j < n
  {
    var p := i * (n - 1);
    ProductBounds(i, classCount, n - 1, p);
    assert 2 * p + classCount < 2 * classCount * n by {
      assert 2 * classCount * n == 2 * (classCount * (n - 1)) + 2 * classCount;
    }
    QuotientBelow(2 * p + classCount, 2 * classCount, n);
    Quotient(2 * p + classCount, 2 * classCount)
  }

  /** Whole-number division of a non-negative `a` by a positive `d`, counted
      out by subtraction; `QuotientIsDivision` proves it is `a / d`. */
  function Quotient(a: int, d: int): (q: nat)
    requires a >= 0 && d > 0
    decreases a
  {
    if a < d then 0 else 1 + Quotient(a - d, d)
  }

  lemma {:induction false} QuotientIsDivision(a: int, d: int)
    requires a >= 0 && d > 0
    ensures Quotient(a, d) == a / d
    decreases a
  {
    if a >= d {
      QuotientIsDivision(a - d, d);
      DivisionStep(a, d);
    }
  }

  /** Taking `d` away from a dividend of at least `d` takes one from the
      quotient. */
  lemma DivisionStep(a: int, d: int)
    requires a >= d > 0
    ensures (a - d) / d == a / d - 1
  {
    var q, r := (a - d) / d, (a - d) % d;
    assert a - d == d * q + r && 0 <= r < d;
    assert a == d * (q + 1) + r;
    DivisionUnique(a, d, q + 1, r);
  }

  /** The quotient and remainder of a whole-number division are unique. */
  lemma DivisionUnique(a: int, d: int, q: int, r: int)
    requires d > 0 && a == d * q + r && 0 <= r < d
    ensures a / d == q
  {
    var q', r' := a / d, a % d;
    assert a == d * q' + r' && 0 <= r' < d;
    assert d * (q - q') == r' - r;
    SmallMultiple(d, q - q');
  }

  /** A multiple of `d` strictly between `-d` and `d` is zero. */
  lemma SmallMultiple(d: int, e: int)
    requires d > 0 && -d < d * e < d
    ensures e == 0
  {
  }

  /** `0 <= i <= k` times a non-negative `m` lies in `[0, k * m]`. */
  lemma ProductBounds(i: int, k: int, m: int, p: int)
    requires 0 <= i <= k && m >= 0 && p == i * m
    ensures 0 <= p <= k * m
  {
    assert k * m - p == (k - i) * m;
  }

  /** A dividend below `d * c` has a quotient below `c`. */
  lemma {:induction false} QuotientBelow(a: int, d: int, c: int)
    requires a >= 0 && d > 0 && a < d * c
    ensures Quotient(a, d) < c
    decreases a
  {
    if a < d {
      PositiveFactor(d, c);
    } else {
      assert a - d < d * (c - 1) by {
        assert d * (c - 1) == d * c - d;
      }
      QuotientBelow(a - d, d, c - 1);
    }
  }

  /** A positive product with a positive first factor has a positive second. */
  lemma PositiveFactor(d: int, e: int)
    requires d > 0 && d * e > 0
    ensures e > 0
  {
  }

  /** Division by a positive divisor keeps the order. */
  lemma {:induction false} QuotientMonotone(a: int, b: int, d: int)
    requires 0 <= a <= b && d > 0
    ensures Quotient(a, d) <= Quotient(b, d)
    decreases a
  {
    if a >= d {
      QuotientMonotone(a - d, b - d, d);
    }
  }

  /** The whole-number quantile position is `Math.round` of the real one. */
  lemma QuantileIndexIsRound(i: int, classCount: int, n: int)
    requires classCount >= 2 && 0 <= i <= classCount && n >= 1
    ensures QuantileIndex(i, classCount, n)
      == Round((i as real / classCount as real) * (n - 1) as real)
  {
    var p := i * (n - 1);
    var a, d := 2 * p + classCount, 2 * classCount;
    assert QuantileIndex(i, classCount, n) == a / d by {
      QuotientIsDivision(a, d);
    }
    assert Round((i as real / classCount as real) * (n - 1) as real) == a / d by {
      HalfUp(i, classCount, n - 1, p);
      FloorOfQuotient(a, d);
    }
  }

  /** Adding one half to `(i / k) * m` gives `(2 * i * m + k) / (2 * k)`. */
  lemma HalfUp(i: int, k: int, m: int, p: int)
    requires k > 0 && p == i * m
    ensures (i as real / k as real) * m as real + 0.5
      == (2 * p + k) as real / (2 * k) as real
  {
    var t := i as real / k as real;
    assert p as real == i as real * m as real;
    assert t * k as real == i as real;
    assert (t * m as real + 0.5) * (2 * k) as real == (2 * p + k) as real;
    DivideBack(t * m as real + 0.5, (2 * k) as real, (2 * p + k) as real);
  }

  /** A real that times a non-zero `d` gives `x` is `x / d`. */
  lemma DivideBack(y: real, d: real, x: real)
    requires d != 0.0 && y * d == x
    ensures y == x / d
  {
  }

  /** The floor of a real quotient of whole numbers is their whole-number
      quotient. */
  lemma FloorOfQuotient(a: int, d: int)
    requires d > 0
    ensures (a as real / d as real).Floor == a / d
  {
    var q, r := a / d, a % d;
    assert a == d * q + r && 0 <= r < d;
    assert a as real == d as real * q as real + r as real;
    assert a as real / d as real == q as real + r as real / d as real;
    assert 0.0 <= r as real / d as real < 1.0;
  }

  /** Later breaks never take an earlier sorted position. */
  lemma QuantileIndexMonotone(i: int, j: int, classCount: int, n: int)
    requires classCount >= 2 && 0 <= i <= j <= classCount && n >= 1
    ensures QuantileIndex(i, classCount, n) <= QuantileIndex(j, classCount, n)
  {
    var pi, pj := i * (n - 1), j * (n - 1);
    assert pi <= pj by {
      ProductBounds(i, j, n - 1, pi);
      assert j * (n - 1) == pj;
    }
    QuotientMonotone(2 * pi + classCount, 2 * pj + classCount, 2 * classCount);
  }

  /** Quantile breaks: the minimum, then for each inner break the sorted sample
      value at its rounded quantile position, then the maximum. */
  function QuantileBreaks(values: seq<real>, classCount: int): (breaks: seq<real>)
    requires |values| > 0 && classCount >= 2
  {
    var sorted := SortAscending(values);
    assert |sorted| == |multiset(sorted)| == |values|;
    seq(classCount + 1, i requires 0 <= i <= classCount =>
      if i == 0 then Minimum(values)
      else if i == classCount then Maximum(values)
      else sorted[QuantileIndex(i, classCount, |values|)])
  }

  /** Quantile breaks span the sample and every break is a sample value. */
  lemma QuantileProperties(values: seq<real>, classCount: int)
    requires |values| > 0 && classCount >= 2
    ensures Spans(QuantileBreaks(values, classCount), values, classCount)
    ensures var b := QuantileBreaks(values, classCount);
      forall i :: 0 <= i <= classCount ==> b[i] in values
  {
    var b := QuantileBreaks(values, classCount);
    QuantileMembers(values, classCount);
    QuantileSteps(values, classCount);
    SortedFromSteps(b);
    QuantileEnds(values, classCount);
  }

  /** Every quantile break is a sample value, hence within its range. */
  lemma QuantileMembers(values: seq<real>, classCount: int)
    requires |values| > 0 && classCount >= 2
    ensures var b := QuantileBreaks(values, classCount);
      |b| == classCount + 1 &&
      forall i :: 0 <= i <= classCount ==> b[i] in values && Minimum(values) <= b[i] <= Maximum(values)
  {
    var b := QuantileBreaks(values, classCount);
    var sorted := SortAscending(values);
    forall i | 0 <= i <= classCount
      ensures b[i] in values && Minimum(values) <= b[i] <= Maximum(values)
    {
      QuantileBreakAt(values, classCount, i);
      if 0 < i < classCount {
        var k := QuantileIndex(i, classCount, |values|);
        assert sorted[k] in multiset(sorted);
      }
    }
  }

  /** Each quantile break is at most the next one. */
  lemma QuantileSteps(values: seq<real>, classCount: int)
    requires |values| > 0 && classCount >= 2
    ensures var b := QuantileBreaks(values, classCount);
      |b| == classCount + 1 && forall i :: 0 <= i < classCount ==> b[i] <= b[i + 1]
  {
    var b := QuantileBreaks(values, classCount);
    QuantileEnds(values, classCount);
    forall i | 0 <= i < classCount
      ensures b[i] <= b[i + 1]
    {
      QuantileStep(values, classCount, i);
    }
  }

  /** Quantile break `i` is at most break `i + 1`: both are sample values
      within range, and two inner breaks take ordered sorted positions. */
  lemma QuantileStep(values: seq<real>, classCount: int, i: int)
    requires |values| > 0 && classCount >= 2 && 0 <= i < classCount
    ensures var b := QuantileBreaks(values, classCount);
      |b| == classCount + 1 && b[i] <= b[i + 1]
  {
    var b := QuantileBreaks(values, classCount);
    var lo, hi := b[i], b[i + 1];
    if i == 0 {
      assert lo <= hi by {
        QuantileEnds(values, classCount);
        QuantileMembers(values, classCount);
      }
    } else if i + 1 == classCount {
      assert lo <= hi by {
        QuantileEnds(values, classCount);
        QuantileMembers(values, classCount);
      }
    } else {
      assert lo <= hi by {
        QuantileBreakAt(values, classCount, i);
        QuantileBreakAt(values, classCount, i + 1);
        InnerQuantileStep(values, classCount, i);
      }
    }
  }

  /** Two neighbouring inner breaks read the sorted sample at ordered
      positions. */
  lemma InnerQuantileStep(values: seq<real>, classCount: int, i: int)
    requires |values| > 0 && classCount >= 2 && 0 < i && i + 1 < classCount
    ensures var sorted := SortAscending(values);
      |sorted| == |values| &&
      sorted[QuantileIndex(i, classCount, |values|)] <= sorted[QuantileIndex(i + 1, classCount, |values|)]
  {
    var sorted := SortAscending(values);
    assert |sorted| == |multiset(sorted)|;
    QuantileIndexMonotone(i, i + 1, classCount, |values|);
    SortedPick(sorted, QuantileIndex(i, classCount, |values|), QuantileIndex(i + 1, classCount, |values|));
  }

  /** A sorted sequence is ordered at any two positions. */
  lemma SortedPick(s: seq<real>, lo: int, hi: int)
    requires Sorted(s) && 0 <= lo <= hi < |s|
    ensures s[lo] <= s[hi]
  {
  }

  /** One pass of the quantile loop body: the sorted value at the rounded
      position of break `i`. */
  method InnerQuantileBreak(values: seq<real>, sortedValues: seq<real>, classCount: int, i: int)
      returns (b: real)
    requires |values| > 0 && classCount >= 2 && 0 < i < classCount
    requires sortedValues == SortAscending(values)
    ensures b == QuantileBreaks(values, classCount)[i]
  {
    QuantileBreakAt(values, classCount, i);
    var index := QuantileIndex(i, classCount, |sortedValues|);
    b := sortedValues[index];
  }

  /** `breaks = [min]; for (i = 1; i < classCount; i++) breaks.push(sorted[index]); breaks.push(max)`. */
  method BuildQuantileBreaks(values: seq<real>, classCount: int) returns (breaks: seq<real>)
    requires |values| > 0 && classCount >= 2
    ensures breaks == QuantileBreaks(values, classCount)
  {
    var sortedValues := SortAscending(values);
    ghost var spec := QuantileBreaks(values, classCount);
    breaks := [Minimum(values)];
    assert breaks == spec[..1] by {
      QuantileEnds(values, classCount);
    }
    var i := 1;
    while i < classCount
      invariant 1 <= i <= classCount
      invariant breaks == spec[..i]
    {
      var next := InnerQuantileBreak(values, sortedValues, classCount, i);
      assert breaks + [next] == spec[..i + 1] by {
        assert spec[..i + 1] == spec[..i] + [spec[i]];
      }
      breaks := breaks + [next];
      i := i + 1;
    }
    assert breaks + [Maximum(values)] == spec by {
      QuantileEnds(values, classCount);
      assert spec == spec[..classCount] + [spec[classCount]];
    }
    breaks := breaks + [Maximum(values)];
  }

  /** The quantile breaks run from the minimum to the maximum. */
  lemma QuantileEnds(values: seq<real>, classCount: int)
    requires |values| > 0 && classCount >= 2
    ensures var b := QuantileBreaks(values, classCount);
      |b| == classCount + 1 && b[0] == Minimum(values) && b[classCount] == Maximum(values)
  {
  }

  /** Break `i` of the quantile breaks, case by case. */
  lemma QuantileBreakAt(values: seq<real>, classCount: int, i: int)
    requires |values| > 0 && classCount >= 2 && 0 <= i <= classCount
    ensures |SortAscending(values)| == |values|
    ensures |QuantileBreaks(values, classCount)| == classCount + 1
    ensures QuantileBreaks(values, classCount)[i] ==
      if i == 0 then Minimum(values)
      else if i == classCount then Maximum(values)
      else SortAscending(values)[QuantileIndex(i, classCount, |values|)]
  {
    var sorted := SortAscending(values);
    assert |sorted| == |multiset(sorted)|;
  }

  // ---- Natural breaks (fixed linear approximation) ---------------------------

  /** `step = (max - min) / (classCount * 2)`; inner break `i` is
      `min + step * (i * 2 + 1)`. */
  function NaturalBreaksApprox(min: real, max: real, classCount: int): (breaks: seq<real>)
    requires classCount >= 2
  {
    var step := HalfWidth(min, max, classCount);
    seq(classCount + 1, i =>
      if i == 0 then min
      else if i == classCount then max
      else min + step * (i * 2 + 1) as real)
  }

  /** `(max - min) / (classCount * 2)`: half the width of an equal class. */
  function HalfWidth(min: real, max: real, classCount: int): (step: real)
    requires classCount >= 2
  {
    (max - min) / (classCount * 2) as real
  }

  /** Inner break `i` sits at least three half-widths above `min` and at
      least one half-width below `max`. */
  lemma NaturalInnerBounds(min: real, max: real, classCount: int, i: int)
    requires min <= max && 0 < i < classCount
    ensures var step := HalfWidth(min, max, classCount);
      step >= 0.0 && (min < max ==> step > 0.0) &&
      NaturalBreaksApprox(min, max, classCount)[i] == min + step * (i * 2 + 1) as real &&
      min + step * 3.0 <= NaturalBreaksApprox(min, max, classCount)[i] <= max - step
  {
    var d := (classCount * 2) as real;
    var step := HalfWidth(min, max, classCount);
    assert step >= 0.0 && (min < max ==> step > 0.0) && step * d == max - min by {
      assert step == (max - min) / d;
      QuotientFacts(max - min, max - min, d);
    }
    var m := (i * 2 + 1) as real;
    var b := NaturalBreaksApprox(min, max, classCount)[i];
    assert b == min + step * m;
    assert 3.0 <= m <= d - 1.0;
    OddMultipleBounds(min, max, step, d, m, b);
  }

  /** With `step * d == max - min`, the point `b` that lies an odd multiple
      `m` (between 3 and `d - 1`) of half-widths above `min` lands between
      `min + 3 * step` and `max - step`. */
  lemma OddMultipleBounds(min: real, max: real, step: real, d: real, m: real, b: real)
    requires step >= 0.0 && step * d == max - min && 3.0 <= m <= d - 1.0
    requires b == min + step * m
    ensures min + step * 3.0 <= b <= max - step
  {
    ScaleMonotone(step, 3.0, m);
    ScaleMonotone(step, m, d - 1.0);
    assert step * (d - 1.0) == step * d - step;
  }

  /** The approximated natural breaks run from `min` to `max` and never
      decrease; when `min < max` every inner break lies strictly inside the
      range (the last inner one half a class width below `max`). */
  lemma NaturalBreaksProperties(min: real, max: real, classCount: int)
    requires min <= max && classCount >= 2
    ensures var b := NaturalBreaksApprox(min, max, classCount);
      |b| == classCount + 1 && b[0] == min && b[classCount] == max && Sorted(b) &&
      (min < max ==> forall i :: 0 < i < classCount ==> min < b[i] < max)
  {
    var b := NaturalBreaksApprox(min, max, classCount);
    var step := HalfWidth(min, max, classCount);
    forall i | 0 < i < classCount
      ensures min + step * 3.0 <= b[i] <= max - step
      ensures min < max ==> min < b[i] < max
    {
      NaturalInnerBounds(min, max, classCount, i);
    }
    forall i | 0 <= i < classCount
      ensures b[i] <= b[i + 1]
    {
      if 0 < i && i + 1 < classCount {
        NaturalInnerBounds(min, max, classCount, i);
        NaturalInnerBounds(min, max, classCount, i + 1);
        ScaleMonotone(step, (i * 2 + 1) as real, (i * 2 + 3) as real);
      }
    }
    SortedFromSteps(b);
  }

  /** `breaks = [min]; for (i = 1; i < classCount; i++) breaks.push(min + step * (i * 2 + 1)); breaks.push(max)`. */
  method BuildNaturalBreaks(min: real, max: real, classCount: int) returns (breaks: seq<real>)
    requires classCount >= 2
    ensures breaks == NaturalBreaksApprox(min, max, classCount)
  {
    ghost var spec := NaturalBreaksApprox(min, max, classCount);
    breaks := [min];
    var step := HalfWidth(min, max, classCount);
    var i := 1;
    while i < classCount
      invariant 1 <= i <= classCount
      invariant breaks == spec[..i]
    {
      assert spec[i] == min + step * (i * 2 + 1) as real;
      breaks := breaks + [min + step * (i * 2 + 1) as real];
      assert spec[..i + 1] == spec[..i] + [spec[i]];
      i := i + 1;
    }
    breaks := breaks + [max];
  }

  // ---- The switch --------------------------------------------------------------

  /** The breaks of the chosen method; whichever it is they span the sample. */
  function Breaks(classMethod: ClassMethod, values: seq<real>, classCount: int): (breaks: seq<real>)
    requires |values| > 0 && classCount >= 2
    ensures Spans(breaks, values, classCount)
  {
    match classMethod
    case EqualInterval =>
      EqualIntervalProperties(Minimum(values), Maximum(values), classCount);
      EqualIntervalBreaks(Minimum(values), Maximum(values), classCount)
    case Quantile =>
      QuantileProperties(values, classCount);
      QuantileBreaks(values, classCount)
    case NaturalBreaks =>
      NaturalBreaksProperties(Minimum(values), Maximum(values), classCount);
      NaturalBreaksApprox(Minimum(values), Maximum(values), classCount)
  }

  /** The `switch (classMethod)` of `handleApplyStyle`. */
  method ComputeBreaks(classMethod: ClassMethod, values: seq<real>, classCount: int) returns (breaks: seq<real>)
    requires |values| > 0 && classCount >= 2
    ensures breaks == Breaks(classMethod, values, classCount)
    ensures |breaks| == classCount + 1 && Sorted(breaks)
    ensures breaks[0] == Minimum(values) && breaks[classCount] == Maximum(values)
  {
    var min, max := Minimum(values), Maximum(values);
    match classMethod {
      case EqualInterval =>
        breaks := EqualIntervalBreaks(min, max, classCount);
      case Quantile =>
        breaks := BuildQuantileBreaks(values, classCount);
      case NaturalBreaks =>
        breaks := BuildNaturalBreaks(min, max, classCount);
    }
  }

  // ---- Worked examples ---------------------------------------------------------

  /** Equal intervals over 0, 10, 20, 30, 40 in four classes give the sample back. */
  lemma EqualIntervalExample(values: seq<real>)
    requires values == [0.0, 10.0, 20.0, 30.0, 40.0]
    ensures Breaks(EqualInterval, values, 4) == values
  {
    assert forall i :: 0 <= i < |values| ==> values[i] == 10.0 * i as real;
    SortedFromSteps(values);
    SortedEnds(values);
    var b := EqualIntervalBreaks(0.0, 40.0, 4);
    assert (40.0 - 0.0) / 4 as real == 10.0;
    assert forall i :: 0 <= i < |b| ==> b[i] == values[i];
  }

  /** Quantiles of 1..10 in five classes: the rounded positions are 2, 4, 5
      and 7 (1.8, 3.6, 5.4 and 7.2 rounded), so the inner breaks are 3, 5, 6
      and 8. */
  lemma QuantileExample(values: seq<real>)
    requires values == [1.0, 2.0, 3.0, 4.0, 5.0, 6.0, 7.0, 8.0, 9.0, 10.0]
    ensures var b := Breaks(Quantile, values, 5);
      |b| == 6 && b[0] == 1.0 && b[1] == 3.0 && b[2] == 5.0 && b[3] == 6.0 && b[4] == 8.0 && b[5] == 10.0
  {
    QuantileIndexExample();
    OneToTenValues(values);
    SortedQuantileBreak(values, 5, 1, 2);
    SortedQuantileBreak(values, 5, 2, 4);
    SortedQuantileBreak(values, 5, 3, 5);
    SortedQuantileBreak(values, 5, 4, 7);
    OneToTenEnds(values);
  }

  /** The quantile breaks of 1..10 in five classes run from 1 to 10. */
  lemma OneToTenEnds(values: seq<real>)
    requires values == [1.0, 2.0, 3.0, 4.0, 5.0, 6.0, 7.0, 8.0, 9.0, 10.0]
    ensures var b := Breaks(Quantile, values, 5);
      |b| == 6 && b[0] == 1.0 && b[5] == 10.0
  {
    OneToTenFacts(values);
    QuantileEnds(values, 5);
  }

  /** The sample 1..10 holds `k + 1` at position `k`, hence is sorted. */
  lemma OneToTenValues(values: seq<real>)
    requires values == [1.0, 2.0, 3.0, 4.0, 5.0, 6.0, 7.0, 8.0, 9.0, 10.0]
    ensures |values| == 10 && Sorted(values)
    ensures forall k :: 0 <= k < |values| ==> values[k] == (k + 1) as real
  {
    assert forall k :: 0 <= k < |values| ==> values[k] == (k + 1) as real;
  }

  /** An inner quantile break of an already sorted sample is the sample value
      at its rounded position. */
  lemma SortedQuantileBreak(values: seq<real>, classCount: int, i: int, j: int)
    requires |values| > 0 && classCount >= 2 && 0 < i < classCount && Sorted(values)
    requires j == QuantileIndex(i, classCount, |values|)
    ensures |Breaks(Quantile, values, classCount)| == classCount + 1
    ensures Breaks(Quantile, values, classCount)[i] == values[j]
  {
    QuantileBreakAt(values, classCount, i);
    SortedStaysPut(values);
  }

  lemma OneToTenFacts(values: seq<real>)
    requires values == [1.0, 2.0, 3.0, 4.0, 5.0, 6.0, 7.0, 8.0, 9.0, 10.0]
    ensures SortAscending(values) == values && Minimum(values) == 1.0 && Maximum(values) == 10.0
  {
    OneToTenValues(values);
    SortedStaysPut(values);
    SortedEnds(values);
  }

  lemma QuantileIndexExample()
    ensures QuantileIndex(1, 5, 10) == 2 && QuantileIndex(2, 5, 10) == 4
    ensures QuantileIndex(3, 5, 10) == 5 && QuantileIndex(4, 5, 10) == 7
  {
    QuantileIndexIsRound(1, 5, 10);
    QuantileIndexIsRound(2, 5, 10);
    QuantileIndexIsRound(3, 5, 10);
    QuantileIndexIsRound(4, 5, 10);
    assert (1 as real / 5 as real) * 9 as real == 1.8;
    assert (2 as real / 5 as real) * 9 as real == 3.6;
    assert (3 as real / 5 as real) * 9 as real == 5.4;
    assert (4 as real / 5 as real) * 9 as real == 7.2;
  }
}
