/** `round(n / d, 1)` on exact values.  With every quantity counted in
    tenths, rounding to one decimal place is rounding a quotient of integers to
    an integer; Python's `round` rounds halves to the even neighbour. */
module Rounding {

  /** n / d rounded to an integer: the floor quotient, or the next integer
      when the remainder is more than half of d, or when it is exactly half
      and the floor quotient is odd. */
  function RoundDiv(n: int, d: int): (r: int)
    requires d > 0
    ensures n / d <= r <= n / d + 1
  {
    var q, m := n / d, n % d;
    if 2 * m < d then q
    else if 2 * m > d then q + 1
    else if q % 2 == 0 then q
    else q + 1
  }

  /** RoundDiv(n, d) is a nearest integer to n / d, and the even one of the
      two when n / d lies exactly halfway between them. */
  lemma RoundDivNearest(n: int, d: int)
    requires d > 0
    ensures var r := RoundDiv(n, d);
            && -d <= 2 * (n - r * d) <= d
            && ((2 * (n - r * d) == d || 2 * (n - r * d) == -d) ==> r % 2 == 0)
  {
    var q, m := n / d, n % d;
    assert n == q * d + m;
    assert (q + 1) * d == q * d + d;
  }

  /** Rounding a quotient keeps it within any integer bounds of the exact
      quotient: an average of values in [lo, hi] stays in [lo, hi]. */
  lemma RoundDivWithin(n: int, d: int, lo: int, hi: int)
    requires d > 0
    requires lo * d <= n <= hi * d
    ensures lo <= RoundDiv(n, d) <= hi
  {
    var r := RoundDiv(n, d);
    RoundDivNearest(n, d);
    if r < lo {
      AtLeastOnce(lo - r, d);
      Distribute(lo, r, d);
    }
    if r > hi {
      AtLeastOnce(r - hi, d);
      Distribute(r, hi, d);
    }
  }

  lemma Distribute(a: int, b: int, d: int)
    ensures (a - b) * d == a * d - b * d
  {
  }

  /** One more summand adds its bound once more. */
  lemma MulSucc(a: int, n: int)
    ensures a * (n + 1) == a * n + a
  {
  }

  lemma AtLeastOnce(t: int, d: int)
    requires t >= 1 && d > 0
    ensures t * d >= d
  {
    assert t * d == (t - 1) * d + d;
    assert (t - 1) * d >= 0;
  }

  /** An exact quotient is returned unchanged. */
  lemma RoundDivExact(k: int, d: int)
    requires d > 0
    ensures RoundDiv(k * d, d) == k
  {
    RoundDivWithin(k * d, d, k, k);
  }
}
