/** The rounding functions of JavaScript's `Math` object, over exact reals. */
module JsMath {

  /** `Math.round`: rounds half-way cases towards positive infinity. */
  function Round(x: real): (n: int)
    ensures x - 0.5 < n as real <= x + 0.5
  {
    (x + 0.5).Floor
  }

  /** `Math.ceil`. */
  function Ceil(x: real): (n: int)
    ensures x <= n as real < x + 1.0
  {
    -((-x).Floor)
  }

  /** `Math.floor(x) === Math.ceil(x)` holds exactly when `x` is a whole number;
      otherwise the ceiling is one above the floor. */
  lemma FloorCeil(x: real)
    ensures x.Floor == Ceil(x) <==> x == x.Floor as real
    ensures x.Floor != Ceil(x) ==> Ceil(x) == x.Floor + 1
  {
  }
}
