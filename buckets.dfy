/** The bucket assigner inside the per-feature style function that
    `handleApplyStyle` installs: an ascending scan for the first closed class
    interval holding the feature's value, falling back to class 0, and the
    colour of that class. */
module Buckets {
  import opened Wrappers
  import opened Classify

  /** `value >= breaks[i] && value <= breaks[i + 1]`: class `i` holds the value,
      both ends included. */
  predicate InClass(breaks: seq<real>, i: int, value: real)
    requires 0 <= i < |breaks| - 1
  {
    breaks[i] <= value <= breaks[i + 1]
  }

  /** The first class from `from` on that holds the value, or 0 if none does. */
  function ScanFrom(value: real, breaks: seq<real>, from: nat): (idx: nat)
    decreases |breaks| - from
    ensures (exists i :: from <= i < |breaks| - 1 && InClass(breaks, i, value)) ==>
      from <= idx < |breaks| - 1 && InClass(breaks, idx, value) &&
      forall j :: from <= j < idx ==> !InClass(breaks, j, value)
    ensures (forall i :: from <= i < |breaks| - 1 ==> !InClass(breaks, i, value)) ==> idx == 0
  {
    if from >= |breaks| - 1 then 0
    else if InClass(breaks, from, value) then from
    else ScanFrom(value, breaks, from + 1)
  }

  /** The class a value is drawn in: the smallest `i` whose interval
      `[breaks[i], breaks[i + 1]]` holds it, and 0 when none does. It is always
      a class index. */
  function Bucket(value: real, breaks: seq<real>): (idx: nat)
    ensures |breaks| >= 2 ==> idx <= |breaks| - 2
    ensures |breaks| < 2 ==> idx == 0
    ensures (exists i :: 0 <= i < |breaks| - 1 && InClass(breaks, i, value)) ==>
      InClass(breaks, idx, value) && forall j :: 0 <= j < idx ==> !InClass(breaks, j, value)
    ensures (forall i :: 0 <= i < |breaks| - 1 ==> !InClass(breaks, i, value)) ==> idx == 0
  {
    ScanFrom(value, breaks, 0)
  }

  /** The body of the style function for one feature: the scan that sets
      `colorIndex` and breaks out, then `colors[colorIndex]` (undefined when the
      colour list is too short). */
  method StyleColor(value: real, breaks: seq<real>, colors: seq<string>) returns (colorIndex: nat, color: Option<string>)
    ensures colorIndex == Bucket(value, breaks)
    ensures color == if colorIndex < |colors| then Some(colors[colorIndex]) else None
    ensures |breaks| >= 2 && |colors| == |breaks| - 1 ==> color.Some?
  {
    colorIndex := 0;
    var i := 0;
    while i < |breaks| - 1
      invariant 0 <= i <= if |breaks| == 0 then 0 else |breaks| - 1
      invariant colorIndex == 0
      invariant forall j :: 0 <= j < i ==> !InClass(breaks, j, value)
    {
      if value >= breaks[i] && value <= breaks[i + 1] {
        assert InClass(breaks, i, value);
        colorIndex := i;
        break;
      }
      i := i + 1;
    }
    color := if colorIndex < |colors| then Some(colors[colorIndex]) else None;
  }

  /** A value that lies within the range of sorted breaks always finds a class
      that holds it. */
  lemma {:induction false} ClassExists(value: real, breaks: seq<real>, from: nat)
    requires Sorted(breaks) && from < |breaks| - 1
    requires breaks[from] <= value <= breaks[|breaks| - 1]
    ensures exists i :: from <= i < |breaks| - 1 && InClass(breaks, i, value)
    decreases |breaks| - from
  {
    if value <= breaks[from + 1] {
      assert InClass(breaks, from, value);
    } else {
      ClassExists(value, breaks, from + 1);
    }
  }

  /** Over sorted breaks, a value between the first and the last break is drawn
      in a class that holds it. */
  lemma InRangeIsClassified(value: real, breaks: seq<real>)
    requires Sorted(breaks) && |breaks| >= 2
    requires breaks[0] <= value <= breaks[|breaks| - 1]
    ensures InClass(breaks, Bucket(value, breaks), value)
  {
    ClassExists(value, breaks, 0);
  }

  /** Over sorted breaks, a value below the first or above the last break is in
      no class and falls back to class 0. */
  lemma OutOfRangeFallsBack(value: real, breaks: seq<real>)
    requires Sorted(breaks) && |breaks| >= 2
    requires value < breaks[0] || value > breaks[|breaks| - 1]
    ensures forall i :: 0 <= i < |breaks| - 1 ==> !InClass(breaks, i, value)
    ensures Bucket(value, breaks) == 0
  {
    forall i | 0 <= i < |breaks| - 1
      ensures !InClass(breaks, i, value)
    {
      assert breaks[0] <= breaks[i] && breaks[i + 1] <= breaks[|breaks| - 1];
    }
  }

  /** Over sorted breaks, a value equal to an inner break goes to the class
      below it; to the one directly below when that class is not empty. */
  lemma BoundaryGoesLower(breaks: seq<real>, j: int)
    requires Sorted(breaks) && 0 < j < |breaks| - 1
    ensures Bucket(breaks[j], breaks) < j
    ensures breaks[j - 1] < breaks[j] ==> Bucket(breaks[j], breaks) == j - 1
  {
    var value := breaks[j];
    assert InClass(breaks, j - 1, value);
    if breaks[j - 1] < breaks[j] {
      forall i | 0 <= i < j - 1
        ensures !InClass(breaks, i, value)
      {
        assert breaks[i + 1] <= breaks[j - 1];
      }
    }
  }

  /** Breaks 0, 10, 20: the value 10 is drawn in the lower class. */
  lemma BoundaryExample()
    ensures Bucket(10.0, [0.0, 10.0, 20.0]) == 0
  {
    assert InClass([0.0, 10.0, 20.0], 0, 10.0);
  }
}
