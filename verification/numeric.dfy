/**
 * The rounding operations the stat derivation uses, over exact rationals:
 * `Math.floor`, `Math.ceil` and `Number(x.toFixed(2))`.
 */
module Numeric {

  /** Strictly positive reals: the range assumed for every effect multiplier. */
  type Positive = r: real | r > 0.0 witness 1.0

  /** `Math.floor`: the greatest integer not above `x`. */
  function Floor(x: real): (n: int)
    ensures n as real <= x < n as real + 1.0
  {
    x.Floor
  }

  /** `Math.ceil`: the least integer not below `x`. */
  function Ceil(x: real): (n: int)
    ensures x <= n as real < x + 1.0
  {
    -((-x).Floor)
  }

  lemma FloorMonotone(x: real, y: real)
    requires x <= y
    ensures Floor(x) <= Floor(y)
  {
  }

  lemma CeilMonotone(x: real, y: real)
    requires x <= y
    ensures Ceil(x) <= Ceil(y)
  {
  }

  /** `r` is a whole number of hundredths. */
  predicate IsHundredth(r: real) {
    (r * 100.0).Floor as real == r * 100.0
  }

  /** Rounds a magnitude to hundredths, ties upward. */
  function HalfUp2(x: real): (r: real)
    ensures IsHundredth(r)
    ensures x - 0.005 < r <= x + 0.005
  {
    Floor(x * 100.0 + 0.5) as real / 100.0
  }

  lemma HalfUp2Monotone(x: real, y: real)
    requires x <= y
    ensures HalfUp2(x) <= HalfUp2(y)
  {
    FloorMonotone(x * 100.0 + 0.5, y * 100.0 + 0.5);
  }

  /**
   * `Number(x.toFixed(2))` on an exact rational: the hundredth nearest to `x`,
   * a tie going away from zero (toFixed rounds the magnitude and keeps the sign).
   * The ensures together determine the result uniquely.
   */
  function ToFixed2(x: real): (r: real)
    ensures IsHundredth(r)
    ensures x - 0.005 <= r <= x + 0.005
    ensures r - x == 0.005 ==> x >= 0.0
    ensures x - r == 0.005 ==> x < 0.0
  {
    if x < 0.0 then
      var h := HalfUp2(-x);
      assert (-h * 100.0).Floor == -((h * 100.0).Floor);
      -h
    else
      HalfUp2(x)
  }

  /** Rounding to hundredths never reverses the order of two values. */
  lemma ToFixed2Monotone(x: real, y: real)
    requires x <= y
    ensures ToFixed2(x) <= ToFixed2(y)
  {
    if x < 0.0 && y < 0.0 {
      HalfUp2Monotone(-y, -x);
    } else if 0.0 <= x {
      HalfUp2Monotone(x, y);
    } else {
      assert HalfUp2(-x) >= 0.0 by { FloorMonotone(0.5, -x * 100.0 + 0.5); }
      assert HalfUp2(y) >= 0.0 by { FloorMonotone(0.5, y * 100.0 + 0.5); }
    }
  }
}
