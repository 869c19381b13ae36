/**
 * Python's `math.isclose(a, b, rel_tol=..., abs_tol=0.0)` over exact reals:
 * two values are close when their distance is at most `relTol` times the
 * larger of their magnitudes.
 */
module Tolerance {

  function Abs(x: real): (r: real)
    ensures r >= 0.0 && (r == x || r == -x)
  {
    if x < 0.0 then -x else x
  }

  function Max(a: real, b: real): (r: real)
    ensures r >= a && r >= b && (r == a || r == b)
  {
    if a < b then b else a
  }

  /** The default relative tolerance of `math.isclose`, 1e-09. */
  const DefaultRelTol: real := 0.000000001

  predicate IsClose(a: real, b: real, relTol: real)
  {
    Abs(a - b) <= relTol * Max(Abs(a), Abs(b))
  }

  /** Every value is close to itself, whatever the (non-negative) tolerance. */
  lemma IsCloseReflexive(a: real, relTol: real)
    requires relTol >= 0.0
    ensures IsClose(a, a, relTol)
  {
    assert Abs(a - a) == 0.0;
    assert Max(Abs(a), Abs(a)) >= 0.0;
  }

  /** Closeness does not depend on the order of the arguments. */
  lemma IsCloseSymmetric(a: real, b: real, relTol: real)
    ensures IsClose(a, b, relTol) <==> IsClose(b, a, relTol)
  {
    assert Abs(a - b) == Abs(b - a);
  }

  /**
   * A value and the value one above it are told apart exactly when 1 exceeds
   * the tolerance band around the larger magnitude; for a non-negative
   * reading and the tolerance 1e-3 that is the case exactly below 999.
   */
  lemma {:induction false} OneApartIsDistinct(x: real)
    requires x >= 0.0
    ensures !IsClose(x, x + 1.0, 0.001) <==> x < 999.0
  {
    assert Abs(x - (x + 1.0)) == 1.0;
    assert Max(Abs(x), Abs(x + 1.0)) == x + 1.0;
  }
}
