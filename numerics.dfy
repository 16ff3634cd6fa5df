/**
 * The numeric primitives the source borrows from JavaScript's Math and Number:
 * min/max/clamp, Math.round, Number.prototype.toFixed, and the three
 * transcendental functions, which are passed in as parameters.
 */
module Numerics {

  function Min(a: real, b: real): real {
    if a <= b then a else b
  }

  function Max(a: real, b: real): real {
    if a >= b then a else b
  }

  /** `Math.max(lo, Math.min(x, hi))`. */
  function Clamp(x: real, lo: real, hi: real): (r: real)
    requires lo <= hi
    ensures lo <= r <= hi
    ensures lo <= x <= hi ==> r == x
    ensures x < lo ==> r == lo
    ensures x > hi ==> r == hi
  {
    Max(lo, Min(x, hi))
  }

  /** `Math.round`: the nearest integer, halves rounded up. */
  function Round(x: real): (n: int)
    ensures x - 0.5 < n as real <= x + 0.5
  {
    (x + 0.5).Floor
  }

  function Pow10(digits: nat): (p: real)
    ensures p >= 1.0
  {
    if digits == 0 then 1.0 else 10.0 * Pow10(digits - 1)
  }

  /**
   * The number denoted by `x.toFixed(digits)`: the magnitude is rounded to
   * `digits` decimals, halves away from zero, and the sign is put back.
   */
  function ToFixed(x: real, digits: nat): (r: real)
    ensures x - 0.5 / Pow10(digits) <= r <= x + 0.5 / Pow10(digits)
    ensures x >= 0.0 ==> r >= 0.0
    ensures x <= 0.0 ==> r <= 0.0
  {
    var p := Pow10(digits);
    var m := if x >= 0.0 then x else -x;
    var n := (m * p + 0.5).Floor;
    RoundedNearMagnitude(m, p, n);
    if x >= 0.0 then n as real / p else -(n as real / p)
  }

  lemma RoundedNearMagnitude(m: real, p: real, n: int)
    requires m >= 0.0 && p >= 1.0
    requires n == (m * p + 0.5).Floor
    ensures m - 0.5 / p <= n as real / p <= m + 0.5 / p
    ensures n >= 0
  {
    assert m * p - 0.5 < n as real <= m * p + 0.5;
    assert (m * p - 0.5) / p == m - 0.5 / p;
    assert (m * p + 0.5) / p == m + 0.5 / p;
  }

  lemma MulNonNegative(a: real, b: real)
    requires a >= 0.0 && b >= 0.0
    ensures a * b >= 0.0
  {
  }

  /** Scaling by a fraction does not increase a non-negative quantity. */
  lemma MulFraction(a: real, b: real)
    requires 0.0 <= a <= 1.0 && b >= 0.0
    ensures 0.0 <= a * b <= b
  {
    MulNonNegative(a, b);
    MulNonNegative(1.0 - a, b);
    assert (1.0 - a) * b == b - a * b;
  }

  /** Scaling a bounded non-negative value by a fraction keeps it under the bound. */
  lemma ScaleBelow(x: real, a: real, bound: real)
    requires 0.0 <= a <= 1.0 && 0.0 <= x <= bound
    ensures 0.0 <= x * a <= bound
  {
    MulFraction(a, x);
  }

  /**
   * `Math.pow(x, 1/3)`, `Math.pow(x, 1.2)` and `Math.log10`, which the model
   * does not compute: they are supplied by the caller.
   */
  datatype Transcendental = Transcendental(cbrt: real -> real, pow12: real -> real, log10: real -> real)

  /** `Math.pow(x, 1/3)`. */
  function Cbrt(t: Transcendental, x: real): real {
    t.cbrt(x)
  }

  /** The facts about those three functions that the proofs rely on. */
  ghost predicate Sound(t: Transcendental) {
    && t.cbrt(0.0) == 0.0
    && t.cbrt(1.0) == 1.0
    && (forall x :: 0.0 <= x <= 1.0 ==> 0.0 <= t.cbrt(x) <= 1.0)
    && t.pow12(1.0) == 1.0
    && (forall x :: 0.0 <= x <= 1.0 ==> 0.0 <= t.pow12(x) <= 1.0)
    && (forall x :: x >= 1.0 ==> t.log10(x) >= 0.0)
  }
}
