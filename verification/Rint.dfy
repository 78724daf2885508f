/** rint for platforms without it (include/my_global.h). */
module Rint {

  const MAX_EXACT_INTEGER: int := 0x20_0000_0000_0000 - 1

  /** To the nearest integer, ties to the even one. */
  function Nearest(x: real): int {
    var n := x.Floor;
    var f := x - n as real;
    if f < 0.5 || (f == 0.5 && n % 2 == 0) then n else n + 1
  }

  /** The integral part of modf, which rounds towards zero. */
  function IntegralPart(x: real): int {
    if x >= 0.0 then x.Floor else -((-x).Floor)
  }

  /** rint, without rounding of its own: over the reals the double arithmetic is exact. */
  method Rint(x: real) returns (r: real)
    ensures -9007199254740991.0 <= x <= 9007199254740991.0 ==> r == Nearest(x) as real
  {
    var i := IntegralPart(x);
    var f := x - i as real;
    if x > 0.0 {
      i := i + (if f > 0.5 || (f == 0.5 && i <= MAX_EXACT_INTEGER && i % 2 != 0) then 1 else 0);
    } else {
      i := i - (if f < -0.5 || (f == -0.5 && i >= -MAX_EXACT_INTEGER && i % 2 != 0) then 1 else 0);
    }
    r := i as real;
    if x <= 0.0 { FloorOpposite(x); }
  }

  lemma FloorOpposite(x: real)
    ensures (-x).Floor == if x == x.Floor as real then -x.Floor else -x.Floor - 1
  {
    var n := x.Floor;
    FloorIs(-x, if x == n as real then -n else -n - 1);
  }

  lemma FloorIs(x: real, n: int)
    requires n as real <= x < n as real + 1.0
    ensures x.Floor == n
  {
    var m := x.Floor;
    assert m as real <= x < m as real + 1.0;
    assert m < n ==> (m + 1) as real <= n as real;
    assert n < m ==> (n + 1) as real <= m as real;
  }

  /** Nearest is within one half, and even on ties. */
  lemma NearestIsNearest(x: real)
    ensures -0.5 <= x - Nearest(x) as real <= 0.5
    ensures x - Nearest(x) as real == 0.5 || x - Nearest(x) as real == -0.5 ==> Nearest(x) % 2 == 0
  {
  }

  /** These two properties determine it. */
  lemma NearestIsUnique(x: real, n: int)
    requires -0.5 <= x - n as real <= 0.5
    requires x - n as real == 0.5 || x - n as real == -0.5 ==> n % 2 == 0
    ensures Nearest(x) == n
  {
    NearestIsNearest(x);
    var m := Nearest(x);
    assert -1.0 <= (m - n) as real <= 1.0;
  }

  lemma NearestIsOdd(x: real)
    ensures Nearest(-x) == -Nearest(x)
  {
    NearestIsNearest(x);
    NearestIsUnique(-x, -Nearest(x));
  }

  lemma NearestIsMonotone(x: real, y: real)
    requires x <= y
    ensures Nearest(x) <= Nearest(y)
  {
    NearestIsNearest(x);
    NearestIsNearest(y);
    var m, n := Nearest(x), Nearest(y);
    assert m > n ==> (m - n) as real <= 1.0;
    assert m > n ==> m == n + 1;
  }

  lemma NearestIsIdempotent(x: real)
    ensures Nearest(Nearest(x) as real) == Nearest(x)
  {
    NearestIsUnique(Nearest(x) as real, Nearest(x));
  }
}
