/** Facts about Euclidean division that the calendar and the bit buffer share. */
module Arithmetic {
  /** Euclidean quotient and remainder are the only ones. */
  lemma Quotient(n: int, d: int, q: int, r: int)
    requires 0 <= r < d && n == d * q + r
    ensures n / d == q && n % d == r
  {
    var k := n / d - q;
    assert n == d * (n / d) + n % d;
    assert d * k == r - n % d by { Distribute(d, n / d, q); }
    if k != 0 { Multiple(d, k); }
  }

  lemma Distribute(d: int, a: int, b: int)
    ensures d * (a - b) == d * a - d * b
  {
  }

  lemma {:induction false} Multiple(d: int, k: int)
    requires d > 0 && k != 0
    ensures d * k >= d || d * k <= -d
    decreases if k < 0 then -k else k
  {
    if k > 1 {
      Multiple(d, k - 1);
      Distribute(d, k, 1);
    } else if k < -1 {
      Multiple(d, k + 1);
      Distribute(d, k + 1, 1);
    }
  }
}
