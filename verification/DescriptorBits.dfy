/** The arithmetic of PageTable against the masks, shifts and ORs of kernel/mm.c, bit by bit. */
module DescriptorBits {
  import opened Bits
  import opened PhysMem
  import opened PageTable

  /** (va >> (39 - level * 9)) & 0x1ff */
  lemma PidxBits(level: nat, va: nat, j: nat)
    requires 1 <= level <= 3
    ensures Bit(Pidx(level, va), j) <==> j < 9 && Bit(va, 39 - 9 * level + j)
  {
    Powers();
    Slice(va, 39 - 9 * level, j);
  }

  lemma Slice(n: nat, s: nat, j: nat)
    ensures Bit(n / Pow2(s) % 512, j) <==> j < 9 && Bit(n, s + j)
  {
    Powers();
    Quotient(n, s);
    var q := n / Pow2(s);
    assert q == q / 512 * 512 + q % 512;
    hide Bit, Pow2;
    FieldBit(q, n % Pow2(s), s, s + j);
    FieldBit(q / 512, q % 512, 9, j);
    if j >= 9 {
      Above(q % 512, 9, j);
    }
  }

  lemma Quotient(n: nat, s: nat)
    ensures n == n / Pow2(s) * Pow2(s) + n % Pow2(s) && 0 <= n % Pow2(s) < Pow2(s)
  {
  }

  lemma Above(n: nat, m: nat, j: nat)
    requires n < Pow2(m) && j >= m
    ensures !Bit(n, j)
  {
    FieldBit(0, n, m, j);
    NoBits(j - m);
  }

  /** pte & 0xfffffffff000 */
  lemma PtePaBits(e: nat, j: nat)
    ensures Bit(PtePa(e), j) <==> 12 <= j < 48 && Bit(e, j)
  {
    Powers();
    var q := e / 4096;
    var k := q % 0x1000000000;
    assert e == q * 4096 + e % 4096 && PtePa(e) == k * 4096;
    hide Bit, Pow2, PtePa;
    FieldBit(k, 0, 12, j);
    NoBits(j);
    FieldBit(q, e % 4096, 12, j);
    if j >= 12 {
      FieldBit(q / 0x1000000000, k, 36, j - 12);
      assert q == q / 0x1000000000 * 0x1000000000 + k;
      if j >= 48 {
        Above(k, 36, j - 12);
      }
    }
  }

  /** PTE_VALID and PTE_TABLE are bits 0 and 1, PTE_AF is bit 10. */
  lemma FlagBits(e: nat)
    ensures IsTableDesc(e) <==> Bit(e, 0) && Bit(e, 1)
    ensures HasAf(e) <==> Bit(e, 10)
  {
    Powers();
    FieldBit(e / 1024, e % 1024, 10, 10);
    assert e == e / 1024 * 1024 + e % 1024;
    assert Bit(e, 1) <==> Bit(e / 2, 0);
  }

  /** PTE_PA(pa) | PTE_TABLE | PTE_VALID */
  lemma TableDescBits(pa: nat, j: nat)
    ensures Bit(TableDesc(pa), j) <==> (12 <= j < 48 && Bit(pa, j)) || j < 2
  {
    PtePaBits(pa, j);
    var k := PtePa(pa) / 4096;
    Powers();
    assert PtePa(pa) == k * 4096;
    FieldBit(k, 0, 12, j);
    FieldBit(k, 3, 12, j);
    NoBits(j);
    Three(j);
  }

  lemma Three(j: nat)
    ensures Bit(3, j) <==> j < 2
  {
    assert Pow2(1) == 2;
    FieldBit(1, 1, 1, j);
    OneBit(j);
    if j >= 1 {
      OneBit(j - 1);
    }
  }

  /** PTE_PA(pa) | PTE_AF | attr | PTE_V */
  lemma PageDescBits(pa: nat, attr: nat, j: nat)
    requires AttrOk(attr)
    ensures Bit(PageDesc(pa, attr), j) <==> (12 <= j < 48 && Bit(pa, j)) || j == 10 || Bit(attr, j) || j < 2
  {
    var k, h, lo := PtePa(pa) / 4096, attr / 0x1000000000000, attr % 0x1000000000000;
    assert PtePa(pa) == k * 4096 && k < 0x1000000000 && attr == h * 0x1000000000000 + lo;
    assert PageDesc(pa, attr) == (h * 0x1000000000 + k) * 4096 + (1024 + lo + 3);
    PtePaBits(pa, j);
    hide PtePa, PageDesc, Bit, Pow2;
    SumBits(k, h, lo, j);
  }

  /** The fields of a page descriptor and of its attributes. */
  lemma SumBits(k: nat, h: nat, lo: nat, j: nat)
    requires k < 0x1000000000 && lo <= 1020 && lo % 4 == 0
    ensures Bit((h * 0x1000000000 + k) * 4096 + (1024 + lo + 3), j) <==>
      (12 <= j < 48 && Bit(k * 4096, j)) || j == 10 || Bit(h * 0x1000000000000 + lo, j) || j < 2
  {
    Powers();
    NoBits(j);
    LowPart(lo, j);
    hide Bit, Pow2;
    FieldBit(k, 0, 12, j);
    FieldBit(h, lo, 48, j);
    FieldBit(h * 0x1000000000 + k, 1024 + lo + 3, 12, j);
    if j >= 12 {
      FieldBit(h, k, 36, j - 12);
      if j < 48 {
        Above(lo, 10, j);
      }
    }
  }

  lemma LowPart(lo: nat, j: nat)
    requires lo <= 1020 && lo % 4 == 0
    ensures Pow2(10) == 1024 && (j < 12 ==> (Bit(1024 + lo + 3, j) <==> j == 10 || Bit(lo, j) || j < 2))
  {
    Powers();
    FieldBit(1, lo + 3, 10, j);
    FieldBit(lo / 4, 3, 2, j);
    FieldBit(lo / 4, 0, 2, j);
    NoBits(j);
    Three(j);
    if j >= 10 {
      Above(lo, 10, j);
      OneBit(j - 10);
    }
  }

  /** The tests of the hardware, bit by bit. */
  lemma AccessBits(e: nat)
    ensures UserLoads(e) <==> Bit(e, 0) && Bit(e, 1) && Bit(e, 6) && Bit(e, 10)
    ensures UserStores(e) <==> UserLoads(e) && !Bit(e, 7)
    ensures UserRuns(e) <==> UserLoads(e) && !Bit(e, 54)
  {
    hide Bit;
    FlagBits(e);
    BitSix(e);
    BitSeven(e);
    BitXn(e);
    ValidBits(e);
    hide IsTableDesc;
  }

  lemma ValidBits(e: nat)
    ensures e % 4 == 3 <==> IsTableDesc(e)
  {
  }

  lemma BitSix(e: nat)
    ensures Bit(e, 6) <==> e / 64 % 2 == 1
  {
    assert Pow2(6) == 64 && e == e / 64 * 64 + e % 64;
    FieldBit(e / 64, e % 64, 6, 6);
  }

  lemma BitSeven(e: nat)
    ensures Bit(e, 7) <==> e / 128 % 2 == 1
  {
    assert Pow2(7) == 128 && e == e / 128 * 128 + e % 128;
    FieldBit(e / 128, e % 128, 7, 7);
  }

  lemma BitXn(e: nat)
    ensures Bit(e, 54) <==> e / 0x40000000000000 % 2 == 1
  {
    Powers();
    PowAdd(1, 53);
    assert Pow2(1) == 2 && e == e / 0x40000000000000 * 0x40000000000000 + e % 0x40000000000000;
    FieldBit(e / 0x40000000000000, e % 0x40000000000000, 54, 54);
  }

  /** A page that pagemap maps for user code can be loaded from and stored to, and executed
      exactly without the two never-execute bits. */
  lemma UserAttrs(pa: nat, attr: nat)
    requires attr == NORMAL_U || attr == NORMAL_U_XN
    ensures AttrOk(attr) && UserStores(PageDesc(pa, attr)) && (UserRuns(PageDesc(pa, attr)) <==> attr == NORMAL_U)
  {
    AccessBits(PageDesc(pa, attr));
    hide Bit, PageDesc, UserLoads, UserStores, UserRuns;
    PageDescBits(pa, attr, 0);
    PageDescBits(pa, attr, 1);
    PageDescBits(pa, attr, 6);
    PageDescBits(pa, attr, 7);
    PageDescBits(pa, attr, 10);
    PageDescBits(pa, attr, 54);
    AttrBits(6);
    AttrBits(7);
    AttrBits(54);
  }

  /** PTE_NORMAL | PTE_U, without and with PTE_PXN | PTE_UXN. */
  lemma AttrBits(j: nat)
    ensures Bit(NORMAL_U, j) <==> j == 2 || j == 6
    ensures Bit(NORMAL_U_XN, j) <==> j == 2 || j == 6 || j == 53 || j == 54
  {
    hide Bit;
    Powers();
    UserBits(j);
    NoBits(j);
    assert NORMAL_U_XN == 3 * 0x20000000000000 + NORMAL_U;
    FieldBit(3, NORMAL_U, 53, j);
    if j >= 53 {
      Three(j - 53);
    }
  }

  lemma UserBits(j: nat)
    ensures Bit(NORMAL_U, j) <==> j == 2 || j == 6
  {
    hide Bit;
    Powers();
    FieldBit(17, 0, 2, j);
    NoBits(j);
    if j >= 2 {
      FieldBit(1, 1, 4, j - 2);
      OneBit(j - 2);
      if j >= 6 {
        OneBit(j - 6);
      }
    }
  }
}
