/**
 * The two library calls the cash-flow generator makes, over exact reals:
 * `Math.round` (nearest integer, halves rounded toward +infinity) and
 * `Math.pow` with a natural-number exponent.
 */
module Numeric {

  /** `Math.round(x)`: the integer nearest to `x`, ties going up. */
  function Round(x: real): (r: int)
    ensures r as real - 0.5 <= x < r as real + 0.5
  {
    (x + 0.5).Floor
  }

  /** Rounding is determined by the half-open window around each integer. */
  lemma RoundUnique(x: real, k: int)
    requires k as real - 0.5 <= x < k as real + 0.5
    ensures Round(x) == k
  {
  }

  /** An integral month rounds to itself. */
  lemma RoundOfInteger(k: int)
    ensures Round(k as real) == k
  {
    RoundUnique(k as real, k);
  }

  /** `Math.pow(b, n)` for a natural exponent. */
  function Pow(b: real, n: nat): (r: real)
    ensures b != 0.0 ==> r != 0.0
    ensures b > 0.0 ==> r > 0.0
    ensures b >= 1.0 ==> r >= 1.0
  {
    if n == 0 then 1.0
    else
      var p := Pow(b, n - 1);
      MulNonZero(b, p);
      MulAtLeastOne(b, p);
      b * p
  }

  lemma MulNonZero(a: real, b: real)
    ensures a != 0.0 && b != 0.0 ==> a * b != 0.0
    ensures a > 0.0 && b > 0.0 ==> a * b > 0.0
  {
  }

  lemma MulAtLeastOne(a: real, b: real)
    ensures a >= 1.0 && b >= 1.0 ==> a * b >= b
    ensures a >= 1.0 && b >= 1.0 ==> a * b >= 1.0
  {
    if a >= 1.0 && b >= 1.0 {
      assert a * b - b == (a - 1.0) * b;
    }
  }

  /** For a base of at least one, raising the exponent never lowers the power. */
  lemma PowGrows(b: real, n: nat)
    requires b >= 1.0
    ensures Pow(b, n) <= Pow(b, n + 1)
  {
    MulAtLeastOne(b, Pow(b, n));
  }

  /** Dividing one by a larger positive number gives a smaller quotient. */
  lemma ReciprocalShrinks(x: real, y: real)
    requires 0.0 < x <= y
    ensures 0.0 < 1.0 / y <= 1.0 / x
  {
  }
}
