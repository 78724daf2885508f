/** Little-endian stores and loads (include/my_global.h), in the portable variant and the one
    for x86. */
module ByteOrder {
  import opened Alignment
  import opened Modulo

  type uchar = x: int | 0 <= x < 256

  function Pow256(k: nat): (r: nat)
    ensures r >= 1
  {
    if k == 0 then 1 else 256 * Pow256(k - 1)
  }

  /** The w low bytes of a, least significant first. */
  function Bytes(a: int, w: nat): (r: seq<uchar>)
    ensures |r| == w
    decreases w
  {
    if w == 0 then [] else [a % 256] + Bytes(a / 256, w - 1)
  }

  /** The number that bytes stand for. */
  function Value(b: seq<uchar>): nat {
    if b == [] then 0 else b[0] as int + 256 * Value(b[1..])
  }

  lemma LowByte(x: uchar, v: int)
    ensures (x as int + 256 * v) % 256 == x && (x as int + 256 * v) / 256 == v
  {
  }

  /** The residue modulo 256 p, byte first. */
  lemma ByteFirst(a: int, p: nat)
    requires p > 0
    ensures a % (256 * p) == a % 256 + 256 * ((a / 256) % p)
    ensures a / (256 * p) == a / 256 / p
  {
    var h := a / 256;
    var q, r := h / p, h % p;
    assert h == q * p + r;
    assert 256 * (q * p) == q * (256 * p);
    ModIs(a, q, a % 256 + 256 * r, 256 * p);
  }

  /** Storing w bytes and loading them again keeps a number modulo 2^(8w), for every width. */
  lemma {:induction false} LoadUndoesStore(a: int, w: nat)
    ensures Value(Bytes(a, w)) == a % Pow256(w)
    decreases w
  {
    if w == 0 {
    } else {
      LoadUndoesStore(a / 256, w - 1);
      ByteFirst(a, Pow256(w - 1));
      assert Bytes(a, w)[1..] == Bytes(a / 256, w - 1);
    }
  }

  /** Loading bytes and storing the number gives back the bytes. */
  lemma {:induction false} StoreUndoesLoad(b: seq<uchar>)
    ensures Bytes(Value(b), |b|) == b
    decreases |b|
  {
    if b == [] {
    } else {
      StoreUndoesLoad(b[1..]);
      LowByte(b[0], Value(b[1..]));
      assert [b[0]] + b[1..] == b;
    }
  }

  /** Memory after the bytes b have been written from index `at` on. */
  function Written(memory: seq<uchar>, at: nat, b: seq<uchar>): seq<uchar>
    requires at + |b| <= |memory|
  {
    memory[..at] + b + memory[at + |b|..]
  }

  lemma WrittenNext(memory: seq<uchar>, at: nat, b: seq<uchar>, x: uchar)
    requires at + |b| < |memory|
    ensures Written(memory, at, b)[at + |b| := x] == Written(memory, at, b + [x])
  {
  }

  /** One byte behind those written already. */
  method Put(t: array<uchar>, at: nat, x: uchar, ghost memory: seq<uchar>, ghost from: nat, ghost b: seq<uchar>)
    requires |memory| == t.Length && from + |b| == at < t.Length && t[..] == Written(memory, from, b)
    modifies t
    ensures t[..] == Written(memory, from, b + [x])
  {
    WrittenNext(memory, from, b, x);
    t[at] := x;
  }

  /** (uint) of a number. */
  function Uint(a: int): nat { a % 0x1_0000_0000 }

  /** A store through a pointer to a wider type on a little-endian machine. */
  method NativeStore(t: array<uchar>, at: nat, a: int, w: nat)
    requires at + w <= t.Length
    modifies t
    ensures t[..] == Written(old(t[..]), at, Bytes(a, w))
  {
    ghost var memory := t[..];
    ghost var done: seq<uchar> := [];
    assert t[..] == Written(memory, at, done);
    var k, rest := 0, a;
    while k < w
      invariant 0 <= k <= w && |done| == k
      invariant Bytes(a, w) == done + Bytes(rest, w - k)
      invariant t[..] == Written(memory, at, done)
    {
      Put(t, at + k, rest % 256, memory, at, done);
      assert done + ([rest % 256] + Bytes(rest / 256, w - k - 1)) == (done + [rest % 256]) + Bytes(rest / 256, w - k - 1);
      done := done + [rest % 256];
      rest := rest / 256;
      k := k + 1;
    }
    assert Bytes(rest, 0) == [];
    assert done + [] == done;
  }

  /** The bytes as the macros compute them, by shifts of the whole number. */
  lemma BytesUnfold(a: int)
    ensures Bytes(a, 2) == [a % 256, a / 256 % 256]
    ensures Bytes(a, 3) == [a % 256, a / 256 % 256, a / 65536 % 256]
    ensures Bytes(a, 4) == [a % 256, a / 256 % 256, a / 65536 % 256, a / 16777216 % 256]
  {
    var a1, a2, a3 := a / 256, a / 65536, a / 16777216;
    ByteFirst(a, 256);
    ByteFirst(a, 65536);
    BytesOnce(a2, 0); BytesOnce(a1, 1); BytesOnce(a, 2);
    BytesOnce(a1, 0); BytesOnce(a, 1);
    assert a1 / 256 == a2 && a1 / 65536 == a3;
    ByteFirst(a1, 256);
    assert a2 / 256 == a3;
    BytesOnce(a3, 0); BytesOnce(a2, 1); BytesOnce(a1, 2); BytesOnce(a, 3);
    hide Bytes;
    assert Bytes(a2 / 256, 0) == [] && Bytes(a1 / 256, 0) == [] && Bytes(a3 / 256, 0) == [];
  }

  lemma BytesOnce(a: int, w: nat)
    ensures Bytes(a, w + 1) == [a % 256] + Bytes(a / 256, w)
  {
  }

  lemma UintShift(a: int)
    ensures Uint(a) % 256 == a % 256 && Uint(a) / 256 % 256 == a / 256 % 256
  {
    ByteFirst(a, 0x100_0000);
    var h := a / 256;
    ByteFirst(h, 0x1_0000);
    assert Uint(a) == a % 256 + 256 * (h % 0x100_0000);
    LowByte(a % 256, h % 0x100_0000);
    LowByte(h % 256, (h / 256) % 0x1_0000);
  }

  /** int2store, portable */
  method Int2Store(t: array<uchar>, at: nat, a: int)
    requires at + 2 <= t.Length
    modifies t
    ensures t[..] == Written(old(t[..]), at, Bytes(a, 2))
  {
    BytesUnfold(a);
    UintShift(a);
    hide Bytes, Uint;
    ghost var m := t[..];
    assert m == Written(m, at, []);
    var temp := Uint(a);
    var b0, b1: uchar := temp % 256, temp / 256 % 256;
    Put(t, at, b0, m, at, []);
    Put(t, at + 1, b1, m, at, [] + [b0]);
    assert [] + [b0] + [b1] == Bytes(a, 2);
  }

  /** int3store; the x86 variant casts to uint before its first shift */
  method Int3Store(t: array<uchar>, at: nat, a: int, x86: bool)
    requires at + 3 <= t.Length
    modifies t
    ensures t[..] == Written(old(t[..]), at, Bytes(a, 3))
  {
    BytesUnfold(a);
    UintShift(a);
    hide Bytes, Uint;
    ghost var m := t[..];
    assert m == Written(m, at, []);
    var b0, b1, b2: uchar := a % 256, (if x86 then Uint(a) / 256 % 256 else a / 256 % 256), a / 65536 % 256;
    Put(t, at, b0, m, at, []);
    Put(t, at + 1, b1, m, at, [] + [b0]);
    Put(t, at + 2, b2, m, at, [] + [b0] + [b1]);
    assert [] + [b0] + [b1] + [b2] == Bytes(a, 3);
  }

  /** int4store, portable */
  method Int4Store(t: array<uchar>, at: nat, a: int)
    requires at + 4 <= t.Length
    modifies t
    ensures t[..] == Written(old(t[..]), at, Bytes(a, 4))
  {
    BytesUnfold(a);
    hide Bytes;
    ghost var m := t[..];
    assert m == Written(m, at, []);
    var b0, b1, b2, b3: uchar := a % 256, a / 256 % 256, a / 65536 % 256, a / 16777216 % 256;
    Put(t, at, b0, m, at, []);
    Put(t, at + 1, b1, m, at, [] + [b0]);
    Put(t, at + 2, b2, m, at, [] + [b0] + [b1]);
    Put(t, at + 3, b3, m, at, [] + [b0] + [b1] + [b2]);
    assert [] + [b0] + [b1] + [b2] + [b3] == Bytes(a, 4);
  }

  lemma {:induction false} BytesSplit(a: int, v: nat, w: nat)
    ensures Bytes(a, v + w) == Bytes(a, v) + Bytes(a / Pow256(v), w)
    decreases v
  {
    if v > 0 {
      BytesSplit(a / 256, v - 1, w);
      ByteFirst(a, Pow256(v - 1));
    } else {
      assert a / 1 == a;
    }
  }

  /** The low w bytes do not depend on what lies above them. */
  lemma {:induction false} BytesOfLow(a: int, w: nat, p: nat)
    requires w <= p
    ensures Bytes(a % Pow256(p), w) == Bytes(a, w)
    decreases w
  {
    if w == 0 {
    } else {
      ByteFirst(a, Pow256(p - 1));
      LowByte(a % 256, (a / 256) % Pow256(p - 1));
      BytesOfLow(a / 256, w - 1, p - 1);
    }
  }

  /** The bytes above the fourth. */
  lemma FifthAndSixth(a: int)
    ensures Bytes(a, 5) == Bytes(a, 4) + [a / 0x1_0000_0000 % 256]
    ensures Bytes(a, 6) == Bytes(a, 4) + [a / 0x1_0000_0000 % 256] + [a / 0x100_0000_0000 % 256]
  {
    Powers();
    BytesSplit(a, 4, 1);
    BytesSplit(a, 4, 2);
    var h := a / 0x1_0000_0000;
    BytesUnfold(h);
    BytesOnce(h, 0);
    ShiftTwice(a);
    assert Bytes(h / 256, 0) == [];
    hide Bytes, Pow256, Pow2;
    assert Bytes(a, 4) + [h % 256, h / 256 % 256] == Bytes(a, 4) + [h % 256] + [h / 256 % 256];
  }

  /** int5store and int6store: the bytes of int4store, then one or two more */
  method Int6Store(t: array<uchar>, at: nat, a: int, six: bool)
    requires at + (if six then 6 else 5) <= t.Length
    modifies t
    ensures t[..] == Written(old(t[..]), at, Bytes(a, if six then 6 else 5))
  {
    FifthAndSixth(a);
    hide Bytes;
    ghost var m := t[..];
    Int4Store(t, at, a);
    ghost var low := Bytes(a, 4);
    var b4, b5: uchar := a / 0x1_0000_0000 % 256, a / 0x100_0000_0000 % 256;
    Put(t, at + 4, b4, m, at, low);
    if six { Put(t, at + 5, b5, m, at, low + [b4]); }
  }

  lemma ShiftTwice(a: int)
    ensures a / 0x1_0000_0000 / 256 == a / 0x100_0000_0000
  {
    var n := a / 0x100_0000_0000;
    var r := a % 0x100_0000_0000;
    assert a == 0x100_0000_0000 * n + r;
  }

  /** int8store, portable: two words of four bytes */
  method Int8Store(t: array<uchar>, at: nat, a: int)
    requires at + 8 <= t.Length
    modifies t
    ensures t[..] == Written(old(t[..]), at, Bytes(a, 8))
  {
    Powers();
    BytesSplit(a, 4, 4);
    BytesOfLow(a, 4, 4);
    BytesOfLow(a / 0x1_0000_0000, 4, 4);
    hide Bytes;
    ghost var m := t[..];
    var temp, temp2 := Uint(a), Uint(a / 0x1_0000_0000);
    Int4Store(t, at, temp);
    Int4Store(t, at + 4, temp2);
    WrittenTwice(m, at, Bytes(a, 4), Bytes(a / 0x1_0000_0000, 4));
  }

  lemma WrittenTwice(m: seq<uchar>, at: nat, b: seq<uchar>, c: seq<uchar>)
    requires at + |b| + |c| <= |m|
    ensures Written(Written(m, at, b), at + |b|, c) == Written(m, at, b + c)
  {
  }

  // ---- loads ------------------------------------------------------------------------------------------

  function Low32(b: seq<uchar>): nat
    requires |b| >= 4
  {
    b[0] as int + (b[1] as int) * 256 + (b[2] as int) * 65536 + (b[3] as int) * 16777216
  }

  function Uint2Korr(b: seq<uchar>): nat
    requires |b| >= 2
  {
    b[0] as int + (b[1] as int) * 256
  }

  function Uint3Korr(b: seq<uchar>): nat
    requires |b| >= 3
  {
    b[0] as int + (b[1] as int) * 256 + (b[2] as int) * 65536
  }

  /** The x86 variant reads four bytes and masks the fourth away. */
  function Uint3KorrX86(b: seq<uchar>): nat
    requires |b| >= 4
  {
    And(Value(b[..4]), 0xFFFFFF)
  }

  function Uint5Korr(b: seq<uchar>): nat
    requires |b| >= 5
  {
    Low32(b) + (b[4] as int) * 0x1_0000_0000
  }

  function Uint6Korr(b: seq<uchar>): nat
    requires |b| >= 6
  {
    Low32(b) + (b[4] as int) * 0x1_0000_0000 + (b[5] as int) * 0x100_0000_0000
  }

  function Uint8Korr(b: seq<uchar>): nat
    requires |b| >= 8
  {
    Low32(b) + Low32(b[4..]) * 0x1_0000_0000
  }

  lemma ValueOf(b: seq<uchar>, k: nat)
    requires k < |b|
    ensures Value(b[k..]) == b[k] + 256 * Value(b[k + 1..])
  {
    assert b[k..][1..] == b[k + 1..];
  }

  lemma Value4(b: seq<uchar>)
    requires |b| == 4
    ensures Value(b) == Low32(b)
  {
    ValueOf(b, 0); ValueOf(b, 1); ValueOf(b, 2); ValueOf(b, 3);
    assert b[0..] == b && b[4..] == [];
  }

  lemma Value2(b: seq<uchar>)
    requires |b| == 2
    ensures Value(b) == Uint2Korr(b)
  {
    ValueOf(b, 0); ValueOf(b, 1);
    assert b[0..] == b && b[2..] == [];
  }

  lemma ByteAhead(x: int, low: int, p: int, high: int)
    ensures x + 256 * (low + p * high) == (x + 256 * low) + (256 * p) * high
  {
  }

  lemma ValueFirst(b: seq<uchar>)
    requires b != []
    ensures Value(b) == b[0] as int + 256 * Value(b[1..])
  {
  }

  lemma {:induction false} ValueSplit(b: seq<uchar>, k: nat)
    requires k <= |b|
    ensures Value(b) == Value(b[..k]) + Pow256(k) * Value(b[k..])
    decreases k
  {
    if k == 0 {
      assert b[0..] == b && b[..0] == [];
    } else {
      hide Value;
      ValueSplit(b[1..], k - 1);
      assert b[..k][1..] == b[1..][..k - 1] && b[1..][k - 1..] == b[k..];
      ValueFirst(b);
      ValueFirst(b[..k]);
      ByteAhead(b[0], Value(b[1..][..k - 1]), Pow256(k - 1), Value(b[k..]));
    }
  }

  lemma Powers()
    ensures Pow256(3) == 0x100_0000 && Pow256(4) == 0x1_0000_0000 && Pow2(24) == 0x100_0000
  {
    assert Pow256(1) == 256; assert Pow256(2) == 65536; assert Pow256(3) == 0x100_0000;
    assert Pow2(4) == 16; Pow2Sum(4, 4); assert Pow2(8) == 256; Pow2Sum(8, 8); Pow2Sum(8, 16);
  }

  lemma Value3(b: seq<uchar>)
    requires |b| == 3
    ensures Value(b) == Uint3Korr(b)
  {
    ValueOf(b, 0); ValueOf(b, 1); ValueOf(b, 2);
    assert b[0..] == b && b[3..] == [];
  }

  /** A number of four bytes and what lies above them. */
  lemma ValueAbove4(b: seq<uchar>)
    requires |b| >= 4
    ensures Value(b) == Low32(b) + 0x1_0000_0000 * Value(b[4..])
  {
    Powers();
    ValueSplit(b, 4);
    Value4(b[..4]);
  }

  lemma Value5(b: seq<uchar>)
    requires |b| == 5
    ensures Value(b) == Uint5Korr(b)
  {
    ValueAbove4(b);
    ValueOf(b, 4);
    assert b[5..] == [];
  }

  lemma Value6(b: seq<uchar>)
    requires |b| == 6
    ensures Value(b) == Uint6Korr(b)
  {
    ValueAbove4(b);
    ValueOf(b, 4); ValueOf(b, 5);
    assert b[6..] == [];
  }

  lemma Value8(b: seq<uchar>)
    requires |b| == 8
    ensures Value(b) == Uint8Korr(b)
  {
    ValueAbove4(b);
    Value4(b[4..]);
  }

  /** Every unsigned load is the number its bytes stand for, in a buffer of any size that holds
      them. */
  lemma LoadsAreValues(b: seq<uchar>)
    ensures |b| >= 2 ==> Uint2Korr(b) == Value(b[..2])
    ensures |b| >= 3 ==> Uint3Korr(b) == Value(b[..3])
    ensures |b| >= 4 ==> Low32(b) == Value(b[..4])
    ensures |b| >= 5 ==> Uint5Korr(b) == Value(b[..5])
    ensures |b| >= 6 ==> Uint6Korr(b) == Value(b[..6])
    ensures |b| >= 8 ==> Uint8Korr(b) == Value(b[..8])
  {
    hide Value;
    if |b| >= 2 { Value2(b[..2]); }
    if |b| >= 3 { Value3(b[..3]); }
    if |b| >= 4 { Value4(b[..4]); }
    if |b| >= 5 { Value5(b[..5]); }
    if |b| >= 6 { Value6(b[..6]); }
    if |b| >= 8 { Value8(b[..8]); }
  }

  /** Every unsigned load undoes the store of the same width, modulo the width. */
  lemma LoadsUndoStores(b: seq<uchar>, a: int)
    ensures |b| >= 2 && b[..2] == Bytes(a, 2) ==> Uint2Korr(b) == a % Pow256(2)
    ensures |b| >= 3 && b[..3] == Bytes(a, 3) ==> Uint3Korr(b) == a % Pow256(3)
    ensures |b| >= 4 && b[..4] == Bytes(a, 4) ==> Low32(b) == a % Pow256(4)
    ensures |b| >= 5 && b[..5] == Bytes(a, 5) ==> Uint5Korr(b) == a % Pow256(5)
    ensures |b| >= 6 && b[..6] == Bytes(a, 6) ==> Uint6Korr(b) == a % Pow256(6)
    ensures |b| >= 8 && b[..8] == Bytes(a, 8) ==> Uint8Korr(b) == a % Pow256(8)
  {
    hide Bytes, Value, Pow256, Uint2Korr, Uint3Korr, Low32, Uint5Korr, Uint6Korr, Uint8Korr;
    LoadsAreValues(b);
    LoadUndoesStore(a, 2); LoadUndoesStore(a, 3); LoadUndoesStore(a, 4);
    LoadUndoesStore(a, 5); LoadUndoesStore(a, 6); LoadUndoesStore(a, 8);
  }

  /** The masked four-byte read agrees with the three-byte read, whatever the fourth byte. */
  lemma Uint3VariantsAgree(b: seq<uchar>)
    requires |b| >= 4
    ensures Uint3KorrX86(b) == Uint3Korr(b)
  {
    Powers();
    Value4(b[..4]);
    AndMask(Value(b[..4]), 24);
    ModIs(Value(b[..4]), b[3], Uint3Korr(b), 0x100_0000);
  }

  /** A word of the given number of bits read as two's complement. */
  function Signed(v: int, bits: nat): int {
    if 2 * v < Pow2(bits) then v else v - Pow2(bits)
  }

  /** sint3korr: bits 24 to 31 are set if bit 7 of the third byte is */
  function Sint3Korr(b: seq<uchar>): int
    requires |b| >= 3
  {
    if And(b[2], 128) != 0
    then Signed(0xFF00_0000 + Uint3Korr(b), 32)
    else Signed(Uint3Korr(b), 32)
  }

  lemma TopBit(x: uchar)
    ensures And(x, 128) == if x < 128 then 0 else 128
  {
    AndMask(x, 8);
    AndComplement(x, 7, 8);
    assert Pow2(4) == 16;
    Pow2Sum(4, 4);
    Pow2Sum(3, 4);
    assert Pow2(3) == 8;
    if x < 128 { ModIs(x, 0, x, 128); } else { ModIs(x, 1, x - 128, 128); }
  }

  /** sint3korr is the sign extension of uint3korr. */
  lemma Sint3IsSigned(b: seq<uchar>)
    requires |b| >= 3
    ensures Sint3Korr(b) == Signed(Uint3Korr(b), 24)
  {
    TopBit(b[2]);
    Powers();
    Pow2Sum(8, 24);
    assert Pow2(4) == 16;
    Pow2Sum(4, 4);
    assert Pow2(32) == 0x1_0000_0000;
  }

  /** A number as a word of the given size in two's complement. */
  function Wrap(v: int, bits: nat): int {
    Signed(v % Pow2(bits), bits)
  }

  /** An array element of the type char, which may be signed. */
  function Element(x: uchar, signedChar: bool): int {
    if signedChar then Signed(x, 8) else x
  }

  /** sint2korr, portable: only the low byte is cast to uchar. */
  function Sint2Korr(b: seq<uchar>, signedChar: bool): int
    requires |b| >= 2
  {
    Wrap(b[0] as int + Wrap(Element(b[1], signedChar) * 256, 32), 16)
  }

  /** sint4korr, portable: the top byte is cast to int16, not to uchar. */
  function Sint4Korr(b: seq<uchar>, signedChar: bool): int
    requires |b| >= 4
  {
    Wrap(b[0] as int + (b[1] as int) * 256 + (b[2] as int) * 65536
           + Wrap(Element(b[3], signedChar) * 16777216, 32), 32)
  }

  lemma SignedPowers()
    ensures Pow2(8) == 256 && Pow2(16) == 65536 && Pow2(24) == 0x100_0000 && Pow2(32) == 0x1_0000_0000
  {
    assert Pow2(4) == 16;
    Pow2Sum(4, 4); Pow2Sum(8, 8); Pow2Sum(8, 16); Pow2Sum(8, 24);
  }

  lemma WrapIs(v: int, q: int, r: int, bits: nat)
    requires v == q * Pow2(bits) + r && 0 <= r < Pow2(bits)
    ensures Wrap(v, bits) == Signed(r, bits)
  {
    ModIs(v, q, r, Pow2(bits));
  }

  lemma Sint2IsSigned(b: seq<uchar>, signedChar: bool)
    requires |b| >= 2
    ensures Sint2Korr(b, signedChar) == Signed(Value(b[..2]), 16)
  {
    SignedPowers();
    Value2(b[..2]);
    hide Pow2, Value, Wrap;
    var e := Element(b[1], signedChar);
    if e >= 0 {
      WrapIs(e * 256, 0, e * 256, 32);
      WrapIs(b[0] as int + e * 256, 0, Uint2Korr(b), 16);
    } else {
      WrapIs(e * 256, -1, e * 256 + 0x1_0000_0000, 32);
      WrapIs(b[0] as int + e * 256, -1, Uint2Korr(b), 16);
    }
  }

  lemma Sint4IsSigned(b: seq<uchar>, signedChar: bool)
    requires |b| >= 4
    ensures Sint4Korr(b, signedChar) == Signed(Value(b[..4]), 32)
  {
    SignedPowers();
    Value4(b[..4]);
    hide Pow2, Value, Wrap;
    TopByte(b[3], signedChar);
    var low := b[0] as int + (b[1] as int) * 256 + (b[2] as int) * 65536;
    if b[3] < 128 {
      WrapIs(Low32(b), 0, Low32(b), 32);
    } else {
      WrapIs(low + (b[3] as int - 256) * 16777216, -1, Low32(b), 32);
    }
  }

  /** The top byte in its place, read as int16 and shifted. */
  lemma TopByte(x: uchar, signedChar: bool)
    ensures Wrap(Element(x, signedChar) * 16777216, 32) == (if x < 128 then x as int else x as int - 256) * 16777216
  {
    SignedPowers();
    hide Pow2, Wrap;
    var e := Element(x, signedChar);
    if e >= 0 {
      WrapIs(e * 16777216, 0, e * 16777216, 32);
    } else {
      WrapIs(e * 16777216, -1, e * 16777216 + 0x1_0000_0000, 32);
    }
  }

  /** sint8korr, portable */
  function Sint8Korr(b: seq<uchar>): int
    requires |b| >= 8
  {
    Wrap(Uint8Korr(b), 64)
  }

  lemma {:induction false} ValueBelow(b: seq<uchar>)
    ensures Value(b) < Pow256(|b|)
    decreases |b|
  {
    if b == [] {
    } else {
      ValueBelow(b[1..]);
    }
  }

  lemma Sint8IsSigned(b: seq<uchar>)
    requires |b| >= 8
    ensures Sint8Korr(b) == Signed(Value(b[..8]), 64)
  {
    Value8(b[..8]);
    ValueBelow(b[..8]);
    SignedPowers();
    Pow2Sum(32, 32);
    Powers();
    assert Pow256(8) == 0x1_0000_0000 * 0x1_0000_0000;
    hide Pow2, Pow256, Value, Wrap;
    WrapIs(Uint8Korr(b), 0, Uint8Korr(b), 64);
  }

  /** The portable signed loads are the signed words that the x86 variant reads through a
      pointer, whether char is signed or not. */
  lemma SignedVariantsAgree(b: seq<uchar>, signedChar: bool)
    ensures |b| >= 2 ==> Sint2Korr(b, signedChar) == Signed(Value(b[..2]), 16)
    ensures |b| >= 4 ==> Sint4Korr(b, signedChar) == Signed(Value(b[..4]), 32)
    ensures |b| >= 8 ==> Sint8Korr(b) == Signed(Value(b[..8]), 64)
  {
    if |b| >= 2 { Sint2IsSigned(b, signedChar); }
    if |b| >= 4 { Sint4IsSigned(b, signedChar); }
    if |b| >= 8 { Sint8IsSigned(b); }
    hide Value, Sint2Korr, Sint4Korr, Sint8Korr;
  }
}
