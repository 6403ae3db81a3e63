/** Non-linear facts used by the rotation and by the rate limiter. */
module Arithmetic {

  lemma MultipleBounds(n: nat, d: int)
    ensures d >= 1 ==> n * d >= n
    ensures d <= -1 ==> n * d <= 0 - n
  {
    if d >= 1 {
      assert n * d == n + n * (d - 1);
    } else if d <= -1 {
      assert n * d == n * (d + 1) - n;
    }
  }

  /** Division undoes multiplication, up to a remainder. */
  lemma QuotientOf(d: nat, q: nat, rest: nat)
    requires rest < d
    ensures (q * d + rest) / d == q
  {
    var x := q * d + rest;
    assert x == d * (x / d) + x % d;
    var e := x / d - q;
    assert d * e == d * (x / d) - d * q;
    MultipleBounds(d, e);
  }
}
