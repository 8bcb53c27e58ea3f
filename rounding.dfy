/** The rounding operations the program applies to numbers, stated over exact
    reals: JavaScript's `Math.round` and `Number.prototype.toFixed(2)`, and
    Python's `round(x, 2)`. */
module Rounding {

  /** JavaScript `Math.round`: the nearest integer, ties towards +infinity. */
  function MathRound(x: real): (r: int)
    ensures (r as real) - 0.5 <= x < (r as real) + 0.5
  {
    (x + 0.5).Floor
  }

  /** Ties-to-even rounding to an integer (the rule of Python's `round`). */
  function RoundHalfEven(x: real): (r: int)
    ensures (r as real) - 0.5 <= x <= (r as real) + 0.5
    ensures x - (x.Floor as real) != 0.5 ==> r == MathRound(x)
    ensures x - (x.Floor as real) == 0.5 ==> r % 2 == 0
  {
    var f := x.Floor;
    var d := x - f as real;
    if d < 0.5 then f
    else if d > 0.5 then f + 1
    else if f % 2 == 0 then f else f + 1
  }

  /** Python `round(x, 2)` on the exact value of `x`. */
  function PyRound2(x: real): (r: real)
    ensures r - 0.005 <= x <= r + 0.005
    ensures (100.0 * r).Floor as real == 100.0 * r
    ensures 100.0 * x - (100.0 * x).Floor as real != 0.5 ==> (100.0 * r).Floor == MathRound(100.0 * x)
    ensures 100.0 * x - (100.0 * x).Floor as real == 0.5 ==> (100.0 * r).Floor % 2 == 0
  {
    RoundHalfEven(100.0 * x) as real / 100.0
  }

  /** Rounding to an integer, ties away from zero: the digit selection of `toFixed`. */
  function RoundHalfAway(x: real): (r: int)
    ensures (r as real) - 0.5 <= x <= (r as real) + 0.5
    ensures x >= 0.0 ==> r >= 0
    ensures x <= 0.0 ==> r <= 0
    ensures x - (x.Floor as real) != 0.5 ==> r == MathRound(x)
    ensures x - (x.Floor as real) == 0.5 ==> r == if x >= 0.0 then x.Floor + 1 else x.Floor
  {
    if x >= 0.0 then MathRound(x)
    else
      var f := x.Floor;
      var d := x - f as real;
      var g := (-x + 0.5).Floor;
      assert g == if d <= 0.5 then -f else -f - 1 by {
        if d <= 0.5 {
          assert -f as real <= -x + 0.5 < -f as real + 1.0;
        } else {
          assert -f as real - 1.0 <= -x + 0.5 < -f as real;
        }
      }
      -MathRound(-x)
  }

  /** `Number(x.toFixed(2))`: `x` to two decimals, ties away from zero. */
  function ToFixed2(x: real): (r: real)
    ensures r - 0.005 <= x <= r + 0.005
    ensures (100.0 * r).Floor as real == 100.0 * r
    ensures 100.0 * x - (100.0 * x).Floor as real != 0.5 ==> (100.0 * r).Floor == MathRound(100.0 * x)
    ensures 100.0 * x - (100.0 * x).Floor as real == 0.5 ==>
      (100.0 * r).Floor == if x >= 0.0 then (100.0 * x).Floor + 1 else (100.0 * x).Floor
  {
    RoundHalfAway(100.0 * x) as real / 100.0
  }

  /** Rounding commutes with reflection about an even integer when ties go to even:
      `k - x` rounds to `k` minus the rounding of `x`. */
  lemma RoundHalfEvenReflect(k: int, x: real)
    requires k % 2 == 0
    ensures RoundHalfEven(k as real - x) == k - RoundHalfEven(x)
  {
    var f := x.Floor;
    var d := x - f as real;
    var y := k as real - x;
    if d == 0.0 {
      assert y.Floor == k - f;
    } else {
      assert y.Floor == k - f - 1;
    }
  }

  /** `MathRound` is monotone. */
  lemma MathRoundMonotone(x: real, y: real)
    requires x <= y
    ensures MathRound(x) <= MathRound(y)
  {
  }

  /** `RoundHalfAway` is monotone. */
  lemma RoundHalfAwayMonotone(x: real, y: real)
    requires x <= y
    ensures RoundHalfAway(x) <= RoundHalfAway(y)
  {
    if x < 0.0 && y >= 0.0 {
    } else if x < 0.0 {
      MathRoundMonotone(-y, -x);
    } else {
      MathRoundMonotone(x, y);
    }
  }

  /** `ToFixed2` is monotone. */
  lemma ToFixed2Monotone(x: real, y: real)
    requires x <= y
    ensures ToFixed2(x) <= ToFixed2(y)
  {
    RoundHalfAwayMonotone(100.0 * x, 100.0 * y);
  }
}
