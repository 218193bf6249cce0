/** Rounding a quantity up to a whole number of measurable steps.

    JavaScript numbers are modelled as exact reals, and `Math.ceil` as the
    least integer that is not below its argument.
 */
module Rounding {

  /** `Math.ceil` on an exact real: the least integer that is not below `x`. */
  function Ceil(x: real): (c: int)
    ensures x <= c as real < x + 1.0
  {
    -((-x).Floor)
  }

  /** `Ceil` is the LEAST integer not below `x`: every integer above `x` is above it too. */
  lemma CeilIsLeast(x: real, k: int)
    requires x <= k as real
    ensures Ceil(x) <= k
  {
  }

  /** On a whole number `Ceil` changes nothing. */
  lemma CeilOfWhole(k: int)
    ensures Ceil(k as real) == k
  {
  }

  /** `y` has no fractional part. */
  predicate IsWhole(y: real) {
    y.Floor as real == y
  }

  /** `x` is a whole number of steps of size `step`. */
  predicate IsMultipleOf(x: real, step: real)
    requires step != 0.0
  {
    IsWhole(x / step)
  }

  /** `ceilToNearest(num, precision)`: `num` rounded to a whole number of
      steps of size `precision`, in the direction of `precision`'s sign; for
      a positive step that is upward, by less than one step. */
  function CeilToNearest(num: real, precision: real): (r: real)
    requires precision != 0.0
    ensures IsMultipleOf(r, precision)
    ensures precision > 0.0 ==> num <= r < num + precision
    ensures precision < 0.0 ==> num + precision < r <= num
  {
    var c := Ceil(num / precision);
    assert (c as real * precision) / precision == c as real;
    ScaledCeilBounds(num, precision, c);
    c as real * precision
  }

  /** Scaling `num / p <= c < num / p + 1` back by the step `p`; a negative
      step flips both bounds. */
  lemma ScaledCeilBounds(num: real, p: real, c: int)
    requires p != 0.0
    requires num / p <= c as real < num / p + 1.0
    ensures p > 0.0 ==> num <= c as real * p < num + p
    ensures p < 0.0 ==> num + p < c as real * p <= num
  {
    var q, x := num / p, c as real;
    var below, above := x - q, q + 1.0 - x;
    assert below >= 0.0 && above > 0.0;
    assert below * p == x * p - num;
    assert above * p == num + p - x * p;
    ProductSigns(below, p);
    ProductSigns(above, p);
  }

  /** The sign of a product of two reals. */
  lemma ProductSigns(a: real, b: real)
    ensures a >= 0.0 && b > 0.0 ==> a * b >= 0.0
    ensures a > 0.0 && b > 0.0 ==> a * b > 0.0
    ensures a >= 0.0 && b < 0.0 ==> a * b <= 0.0
    ensures a > 0.0 && b < 0.0 ==> a * b < 0.0
  {
  }

  /** Minimality: with a positive step, no multiple of the step that still
      covers `num` lies below `CeilToNearest(num, precision)`. */
  lemma CeilToNearestIsLeast(num: real, precision: real, m: real)
    requires precision > 0.0
    requires IsMultipleOf(m, precision)
    requires num <= m
    ensures CeilToNearest(num, precision) <= m
  {
    var k := (m / precision).Floor;
    assert k as real == m / precision;
    assert num / precision <= m / precision by {
      DivideMonotone(num, m, precision);
    }
    CeilIsLeast(num / precision, k);
    assert Ceil(num / precision) as real * precision <= k as real * precision;
    assert k as real * precision == m;
  }

  /** With a negative step the rounding goes down: no multiple of the step
      that stays at or below `num` lies above `CeilToNearest(num, precision)`. */
  lemma CeilToNearestIsGreatestBelow(num: real, precision: real, m: real)
    requires precision < 0.0
    requires IsMultipleOf(m, precision)
    requires m <= num
    ensures m <= CeilToNearest(num, precision)
  {
  }

  /** Dividing by a positive step keeps the order. */
  lemma DivideMonotone(a: real, b: real, p: real)
    requires p > 0.0
    requires a <= b
    ensures a / p <= b / p
  {
  }

  /** A quantity that already is a whole number of steps is left as it is. */
  lemma CeilToNearestFixesMultiples(num: real, precision: real)
    requires precision != 0.0
    requires IsMultipleOf(num, precision)
    ensures CeilToNearest(num, precision) == num
  {
    var k := (num / precision).Floor;
    CeilOfWhole(k);
    assert Ceil(num / precision) == k;
    assert k as real * precision == num;
  }

  /** Idempotence: rounding a rounded quantity again changes nothing. */
  lemma CeilToNearestIdempotent(num: real, precision: real)
    requires precision != 0.0
    ensures CeilToNearest(CeilToNearest(num, precision), precision) == CeilToNearest(num, precision)
  {
    CeilToNearestFixesMultiples(CeilToNearest(num, precision), precision);
  }

  /** Uniqueness: with a positive step, the smallest multiple of the step
      that covers `num` is exactly `CeilToNearest(num, precision)`; together
      with the function's own postconditions this characterises it. */
  lemma CeilToNearestUnique(num: real, precision: real, r: real)
    requires precision > 0.0
    requires IsMultipleOf(r, precision)
    requires num <= r < num + precision
    ensures r == CeilToNearest(num, precision)
  {
    var c := CeilToNearest(num, precision);
    CeilToNearestIsLeast(num, precision, r);
    var k := (r / precision).Floor;
    var j := (c / precision).Floor;
    assert k as real * precision == r;
    assert j as real * precision == c;
    // r - c is a whole number of steps strictly between -1 and 1 step.
    OneStepApart(k - j, precision, r - c);
  }

  /** A whole number of positive steps that is non-negative and less than one step is zero. */
  lemma OneStepApart(d: int, p: real, x: real)
    requires p > 0.0
    requires x == d as real * p
    requires 0.0 <= x < p
    ensures d == 0
  {
  }

  /** Rounding up keeps the order of quantities. */
  lemma CeilToNearestMonotone(a: real, b: real, precision: real)
    requires precision > 0.0
    requires a <= b
    ensures CeilToNearest(a, precision) <= CeilToNearest(b, precision)
  {
    CeilToNearestIsLeast(a, precision, CeilToNearest(b, precision));
  }

  /** The rounding cases of the calculator's own step size 0.2 ml. */
  lemma CeilToNearestExamples()
    ensures CeilToNearest(0.14, 0.2) == 0.2
    ensures CeilToNearest(0.2, 0.2) == 0.2
    ensures CeilToNearest(0.0, 0.2) == 0.0
  {
  }
}
