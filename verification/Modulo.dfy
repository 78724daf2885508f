/** Division with remainder. */
module Modulo {

  lemma Distributes(a: int, b: int, d: int)
    ensures (a - b) * d == a * d - b * d
  {
  }

  lemma AtLeastOnce(x: int, d: nat)
    ensures x >= 1 ==> x * d >= d
  {
    if x >= 1 { assert (x - 1) * d >= 0; }
  }

  /** Quotient and remainder are unique. */
  lemma ModIs(n: int, q: int, r: int, d: nat)
    requires n == q * d + r && 0 <= r < d
    ensures n % d == r && n / d == q
  {
    var x := n / d - q;
    assert n == (n / d) * d + n % d;
    Distributes(n / d, q, d);
    assert x * d == r - n % d;
    AtLeastOnce(x, d);
    AtLeastOnce(-x, d);
  }
}
