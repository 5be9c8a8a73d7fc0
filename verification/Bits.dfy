/** Bits and bytes of words held as naturals. */
module Bits {
  function Pow2(m: nat): (p: nat)
    ensures p >= 1
  {
    if m == 0 then 1 else 2 * Pow2(m - 1)
  }

  /** Bit j of n: (n >> j) & 1. */
  predicate Bit(n: nat, j: nat) {
    if j == 0 then n % 2 == 1 else Bit(n / 2, j - 1)
  }

  /** A sum of a field of m bits and what lies above it has the bits of both. */
  lemma {:induction false} FieldBit(hi: nat, lo: nat, m: nat, j: nat)
    requires lo < Pow2(m)
    ensures Bit(hi * Pow2(m) + lo, j) <==> if j < m then Bit(lo, j) else Bit(hi, j - m)
    decreases m
  {
    if m > 0 {
      var n, p := hi * Pow2(m) + lo, hi * Pow2(m - 1);
      assert hi * Pow2(m) == 2 * p;
      assert n / 2 == p + lo / 2 && n % 2 == lo % 2;
      if j > 0 {
        FieldBit(hi, lo / 2, m - 1, j - 1);
      }
    }
  }

  lemma {:induction false} PowAdd(a: nat, b: nat)
    ensures Pow2(a + b) == Pow2(a) * Pow2(b)
  {
    if a > 0 {
      PowAdd(a - 1, b);
    }
  }

  lemma Powers()
    ensures Pow2(2) == 4 && Pow2(4) == 16 && Pow2(9) == 512 && Pow2(10) == 1024 && Pow2(12) == 0x1000
    ensures Pow2(21) == 0x200000 && Pow2(30) == 0x40000000 && Pow2(36) == 0x1000000000
    ensures Pow2(48) == 0x1000000000000 && Pow2(53) == 0x20000000000000
  {
    assert Pow2(5) == 32 && Pow2(6) == 64 && Pow2(9) == 512 && Pow2(12) == 0x1000;
    PowAdd(9, 12);
    PowAdd(9, 21);
    PowAdd(6, 30);
    PowAdd(12, 36);
    PowAdd(5, 48);
  }

  lemma {:induction false} NoBits(j: nat)
    ensures !Bit(0, j)
  {
    if j > 0 {
      NoBits(j - 1);
    }
  }

  lemma OneBit(j: nat)
    ensures Bit(1, j) <==> j == 0
  {
    if j > 0 {
      NoBits(j - 1);
    }
  }

  /** Byte k of a little-endian word. */
  function ByteOf(word: nat, k: nat): (b: nat)
    ensures b < 256
  {
    if k == 0 then word % 256 else ByteOf(word / 256, k - 1)
  }

  /** Two bytes, and four, give their word back, least byte first. */
  lemma BytesGive(word: nat)
    ensures word < 0x10000 ==> word == ByteOf(word, 0) + ByteOf(word, 1) * 256
    ensures word < 0x100000000 ==>
      word == ByteOf(word, 0) + ByteOf(word, 1) * 256 + ByteOf(word, 2) * 65536 + ByteOf(word, 3) * 16777216
  {
    var x, y, z := word / 256, word / 256 / 256, word / 256 / 256 / 256;
    assert ByteOf(word, 1) == ByteOf(x, 0) == x % 256;
    assert ByteOf(word, 2) == ByteOf(x, 1) == ByteOf(y, 0) == y % 256;
    assert ByteOf(word, 3) == ByteOf(x, 2) == ByteOf(y, 1) == ByteOf(z, 0) == z % 256;
  }
}
