/** Python's numeric conversions, stated over Dafny's exact reals and integers. */
module Numerics {

  /** Python's `int(r)` on a float: truncation toward zero. */
  function Trunc(r: real): (n: int)
    ensures r >= 0.0 ==> n >= 0 && n as real <= r < n as real + 1.0
    ensures r < 0.0 ==> n <= 0 && n as real - 1.0 < r <= n as real
  {
    if r >= 0.0 then r.Floor else -((-r).Floor)
  }

  /** A fraction in [0, 1] scaled by a size and truncated stays within [0, size];
      a fraction strictly below 1 stays strictly below the size. */
  lemma TruncScaledInRange(x: real, size: nat)
    requires 0.0 <= x <= 1.0
    ensures 0 <= Trunc(x * size as real) <= size
    ensures x < 1.0 && size > 0 ==> Trunc(x * size as real) < size
  {
    var p := x * size as real;
    assert 0.0 <= p;
    assert p <= size as real by {
      assert (1.0 - x) * size as real >= 0.0;
    }
    if x < 1.0 && size > 0 {
      assert p < size as real by {
        assert (1.0 - x) * size as real > 0.0;
      }
    }
  }
}
