/** The two numeric helpers of the analysis views: a share in percent and rounding to cents. */
module Percent {

  /**
   * `round(x, 2)`, rounding halves up. The result is within half a cent of `x`,
   * keeps the sign of a non-negative `x`, leaves a whole number of cents as it
   * is, and is itself a whole number of cents.
   */
  function Round2(x: real): (r: real)
    ensures x - 0.005 < r <= x + 0.005
    ensures 0.0 <= x ==> 0.0 <= r
    ensures (x * 100.0).Floor as real == x * 100.0 ==> r == x
    ensures (r * 100.0).Floor as real == r * 100.0
  {
    var cents := x * 100.0;
    assert cents.Floor as real == cents ==> (cents + 0.5).Floor == cents.Floor;
    var k := (cents + 0.5).Floor;
    WholeCents(k);
    k as real / 100.0
  }

  /** `k` cents, as an amount, are again `k` cents. */
  lemma WholeCents(k: int)
    ensures (k as real / 100.0) * 100.0 == k as real
    ensures ((k as real / 100.0) * 100.0).Floor == k
  {
  }

  /**
   * `part / whole * 100` guarded against a non-positive denominator: the share
   * is 0 unless `whole > 0`, and then it scales `part` by `100 / whole`.
   */
  function Percentage(part: real, whole: real): (p: real)
    ensures whole <= 0.0 ==> p == 0.0
    ensures 0.0 < whole ==> p * whole == part * 100.0
    ensures 0.0 < whole && 0.0 <= part <= whole ==> 0.0 <= p <= 100.0
  {
    if whole > 0.0 then
      assert 0.0 <= part <= whole ==> part / whole <= 1.0;
      part / whole * 100.0
    else 0.0
  }
}
