/** Bit masks, and the alignment macros of include/my_global.h. */
module Alignment {
  import opened Modulo

  // ---- bit operations on naturals --------------------------------------------------------------

  function Pow2(k: nat): (r: nat)
    ensures r >= 1
  {
    if k == 0 then 1 else 2 * Pow2(k - 1)
  }

  /** Bitwise and. */
  function And(a: nat, b: nat): nat {
    if a == 0 || b == 0 then 0 else (a % 2) * (b % 2) + 2 * And(a / 2, b / 2)
  }

  /** Bitwise complement in words of w bits. */
  function Not(w: nat, a: nat): int {
    Pow2(w) - 1 - a
  }

  lemma AndOdd(x: nat, m: nat)
    ensures And(x, 2 * m + 1) == x % 2 + 2 * And(x / 2, m)
  {
    assert (2 * m + 1) % 2 == 1 && (2 * m + 1) / 2 == m;
  }

  lemma {:induction false} AndMask(x: nat, k: nat)
    ensures And(x, Pow2(k) - 1) == x % Pow2(k)
    decreases k
  {
    if k == 0 {
    } else {
      var p, q := Pow2(k - 1), Pow2(k);
      assert q == 2 * p && q - 1 == 2 * (p - 1) + 1;
      hide And, Pow2;
      AndOdd(x, p - 1);
      AndMask(x / 2, k - 1);
      HalfMod(x, p, q);
    }
  }

  lemma HalfMod(x: nat, p: nat, q: nat)
    requires p >= 1 && q == 2 * p
    ensures x % q == x % 2 + 2 * ((x / 2) % p)
  {
    var n, r := (x / 2) / p, (x / 2) % p;
    assert x / 2 == n * p + r;
    assert x == n * q + (x % 2 + 2 * r) by {
      assert 2 * (n * p) == n * (2 * p);
    }
    ModIs(x, n, x % 2 + 2 * r, q);
  }

  lemma {:induction false} Pow2Sum(a: nat, b: nat)
    ensures Pow2(a + b) == Pow2(a) * Pow2(b)
    decreases a
  {
    if a == 0 {
    } else {
      Pow2Sum(a - 1, b);
      assert 2 * (Pow2(a - 1) * Pow2(b)) == (2 * Pow2(a - 1)) * Pow2(b);
    }
  }

  lemma EvenMask(k: nat, w: nat)
    requires 0 < k <= w && Pow2(k) <= Pow2(w)
    ensures Not(w, Pow2(k) - 1) == 2 * Not(w - 1, Pow2(k - 1) - 1)
  {
  }

  lemma AndEven(x: nat, m: nat)
    ensures And(x, 2 * m) == 2 * And(x / 2, m)
  {
    assert (2 * m) % 2 == 0 && (2 * m) / 2 == m;
  }

  /** Masking with the complement of 2^k - 1 clears the low k bits. */
  lemma {:induction false} AndComplement(x: nat, k: nat, w: nat)
    requires k <= w && x < Pow2(w)
    ensures Pow2(k) <= Pow2(w)
    ensures And(x, Not(w, Pow2(k) - 1)) == x - x % Pow2(k)
    decreases w
  {
    Pow2Within(k, w);
    if k == 0 {
      AndMask(x, w);
      ModIs(x, 0, x, Pow2(w));
      ModIs(x, x, 0, 1);
    } else {
      EvenMask(k, w);
      Pow2Within(k - 1, w - 1);
      assert x / 2 < Pow2(w - 1);
      hide And, Not, Pow2;
      AndComplement(x / 2, k - 1, w - 1);
      AndEven(x, Not(w - 1, Pow2(k - 1) - 1));
      DoubleRest(x, k);
    }
  }

  lemma Pow2Within(k: nat, w: nat)
    requires k <= w
    ensures Pow2(k) <= Pow2(w)
  {
    Pow2Sum(k, w - k);
    AtLeastOnce(Pow2(w - k), Pow2(k));
  }

  lemma DoubleRest(x: nat, k: nat)
    requires k > 0
    ensures 2 * (x / 2 - (x / 2) % Pow2(k - 1)) == x - x % Pow2(k)
  {
    HalfMod(x, Pow2(k - 1), Pow2(k));
  }

  // ---- MY_ALIGN and MY_DIV_UP --------------------------------------------------------------------

  function MyDivUp(a: nat, b: nat): nat
    requires b > 0
  {
    (a + b - 1) / b
  }

  /** (A + L - 1) & ~(L - 1) in words of w bits. */
  function MyAlign(w: nat, a: nat, l: nat): nat
    requires 0 < l <= Pow2(w)
  {
    And(a + l - 1, Not(w, l - 1))
  }

  lemma LeastMultiple(l: nat, c: nat, q: nat, a: nat, r: nat)
    requires r < l && a + l - 1 == l * c + r && l * q >= a
    ensures l * q >= l * c
  {
    Distributes(c, q, l);
    AtLeastOnce(c - q, l);
    Commute(l, c);
    Commute(l, q);
    if c <= q { assert (q - c) * l >= 0; Distributes(q, c, l); }
  }

  lemma RoundedUpIsLeast(a: nat, l: nat, m: nat)
    requires l > 0 && m % l == 0 && m >= a
    ensures m >= l * MyDivUp(a, l)
  {
    LeastMultiple(l, MyDivUp(a, l), m / l, a, (a + l - 1) % l);
  }

  lemma Commute(a: int, b: int)
    ensures a * b == b * a
  {
  }

  /** For every power of two, and as long as nothing overflows, masking yields the quotient
      rounded up times the alignment: the least multiple not below A. */
  lemma AlignExactly(w: nat, a: nat, k: nat)
    requires k <= w && a + Pow2(k) - 1 < Pow2(w)
    ensures Pow2(k) <= Pow2(w)
    ensures var l := Pow2(k);
      && MyAlign(w, a, l) == l * MyDivUp(a, l)
      && MyAlign(w, a, l) % l == 0 && a <= MyAlign(w, a, l) < a + l
      && (forall m: nat :: m % l == 0 && m >= a ==> m >= MyAlign(w, a, l))
  {
    hide And, Not, Pow2;
    var l := Pow2(k);
    var x := a + l - 1;
    AndComplement(x, k, w);
    assert x == l * (x / l) + x % l;
    Commute(l, x / l);
    assert MyAlign(w, a, l) == l * MyDivUp(a, l) == x - x % l;
    ModIs(l * (x / l), x / l, 0, l);
    forall m: nat | m % l == 0 && m >= a ensures m >= MyAlign(w, a, l) {
      RoundedUpIsLeast(a, l, m);
    }
  }
}
