/**
 * Python's round(x, n) on exact reals: the value is scaled by 10^n, rounded to
 * the nearest integer with ties going to the even neighbour, and scaled back.
 * The lemmas give what the rest of the model needs: rounding is monotone and
 * leaves values already on the 10^-n grid alone, so a bound on the grid
 * survives rounding.
 */
module Rounding {

  function Pow10(n: nat): (p: nat)
    ensures p >= 1
  {
    if n == 0 then 1 else 10 * Pow10(n - 1)
  }

  /** Nearest integer, ties to even. */
  function RoundHalfEven(x: real): (n: int)
    ensures x - 0.5 <= n as real <= x + 0.5
  {
    var f := x.Floor;
    var frac := x - f as real;
    if frac < 0.5 then f
    else if frac > 0.5 then f + 1
    else if f % 2 == 0 then f
    else f + 1
  }

  /** Rounds to the nearest multiple of 1/scale. */
  function RoundToScale(x: real, scale: real): real
    requires scale > 0.0
  {
    RoundHalfEven(x * scale) as real / scale
  }

  /** round(x, digits) */
  function Round(x: real, digits: nat): real
  {
    RoundToScale(x, Pow10(digits) as real)
  }

  lemma RoundHalfEvenMonotone(x: real, y: real)
    requires x <= y
    ensures RoundHalfEven(x) <= RoundHalfEven(y)
  {
    var fx, fy := x.Floor, y.Floor;
    assert fx <= fy;
    if fx == fy {
      assert x - fx as real <= y - fy as real;
    }
  }

  lemma RoundHalfEvenOfInteger(n: int)
    ensures RoundHalfEven(n as real) == n
  {
    assert (n as real).Floor == n;
  }

  lemma RoundToScaleMonotone(x: real, y: real, scale: real)
    requires x <= y && scale > 0.0
    ensures RoundToScale(x, scale) <= RoundToScale(y, scale)
  {
    assert x * scale <= y * scale;
    RoundHalfEvenMonotone(x * scale, y * scale);
  }

  lemma RoundMonotone(x: real, y: real, digits: nat)
    requires x <= y
    ensures Round(x, digits) <= Round(y, digits)
  {
    RoundToScaleMonotone(x, y, Pow10(digits) as real);
  }

  lemma RoundToScaleOnGrid(x: real, n: int, scale: real)
    requires scale > 0.0 && x * scale == n as real
    ensures RoundToScale(x, scale) == x
  {
    RoundHalfEvenOfInteger(n);
    assert RoundHalfEven(x * scale) == n;
  }

  lemma RoundToScaleWithinHalfUnit(x: real, scale: real)
    requires scale > 0.0
    ensures x - 0.5 * (1.0 / scale) <= RoundToScale(x, scale) <= x + 0.5 * (1.0 / scale)
  {
    var unit := 1.0 / scale;
    var k := RoundHalfEven(x * scale);
    assert RoundToScale(x, scale) == k as real / scale;
    assert unit * scale == 1.0;
    assert (x - 0.5 * unit) * scale == x * scale - 0.5;
    assert (x + 0.5 * unit) * scale == x * scale + 0.5;
    MeanBounds(k as real, scale, x - 0.5 * unit, x + 0.5 * unit);
  }

  /** round(x, digits) is within half a unit in the last place of x. */
  lemma RoundWithinHalfUnit(x: real, digits: nat)
    ensures var unit := 1.0 / Pow10(digits) as real;
            x - 0.5 * unit <= Round(x, digits) <= x + 0.5 * unit
  {
    RoundToScaleWithinHalfUnit(x, Pow10(digits) as real);
  }

  /** A multiple of 10^-digits rounds to itself. */
  lemma RoundOnGrid(n: int, digits: nat)
    ensures Round(n as real / Pow10(digits) as real, digits) == n as real / Pow10(digits) as real
  {
    RoundToScaleOnGrid(n as real / Pow10(digits) as real, n, Pow10(digits) as real);
  }

  /** A mean lies between the bounds of what was averaged. */
  lemma MeanBounds(total: real, n: real, lo: real, hi: real)
    requires n > 0.0 && lo * n <= total <= hi * n
    ensures lo <= total / n <= hi
  {
  }

  /** Bounds on the grid survive rounding. */
  lemma {:induction false} RoundBetween(x: real, lo: real, hi: real, digits: nat)
    requires lo <= x <= hi
    requires Round(lo, digits) == lo && Round(hi, digits) == hi
    ensures lo <= Round(x, digits) <= hi
  {
    RoundMonotone(lo, x, digits);
    RoundMonotone(x, hi, digits);
  }

  /** The grid points the model's bounds use, at three and at two places. */
  lemma GridPoints()
    ensures Round(0.0, 3) == 0.0 && Round(0.5, 3) == 0.5
    ensures Round(0.1, 3) == 0.1 && Round(0.99, 3) == 0.99
    ensures Round(0.6, 3) == 0.6 && Round(1.0, 3) == 1.0
    ensures Round(0.0, 2) == 0.0 && Round(45.0, 2) == 45.0 && Round(120.0, 2) == 120.0
  {
    assert Pow10(3) == 1000 && Pow10(2) == 100;
    RoundOnGrid(0, 3);
    RoundOnGrid(500, 3);
    RoundOnGrid(100, 3);
    RoundOnGrid(990, 3);
    RoundOnGrid(600, 3);
    RoundOnGrid(1000, 3);
    RoundOnGrid(0, 2);
    RoundOnGrid(4500, 2);
    RoundOnGrid(12000, 2);
  }

  /** Rounding to three places keeps a value between two of the grid points. */
  lemma RoundWithinGrid3(x: real, lo: real, hi: real)
    requires lo <= x <= hi
    requires lo in {0.0, 0.1, 0.5, 0.6, 0.99, 1.0} && hi in {0.0, 0.1, 0.5, 0.6, 0.99, 1.0}
    ensures lo <= Round(x, 3) <= hi
  {
    GridPoints();
    RoundBetween(x, lo, hi, 3);
  }
}
