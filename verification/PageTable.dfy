/** The three-level translation tables of kernel/mm.c as a pure function of memory.

  Addresses and descriptors are 64-bit words held as naturals: a shift right is a
  division, a mask of low bits a remainder, and OR of disjoint fields a sum. */
module PageTable {
  import opened PhysMem

  // ---- Virtual addresses: | level1 | level2 | level3 | offset |

  function Pidx(level: nat, va: nat): (i: nat)
    requires 1 <= level <= 3
    ensures i < 512
  {
    if level == 1 then va / 0x40000000 % 512
    else if level == 2 then va / 0x200000 % 512
    else va / 0x1000 % 512
  }

  function Offset(va: nat): nat {
    va % 4096
  }

  /** Bits 12..38: the page number that translation depends on. */
  function Vpn(va: nat): (v: nat)
    ensures v < 0x8000000
  {
    va / 4096 % 0x8000000
  }

  // The base-512 digits of a page number, and the number without its last digit.

  function Top(v: nat): nat {
    v / 0x40000
  }

  function Mid(v: nat): nat {
    v / 512 % 512
  }

  function Low(v: nat): nat {
    v % 512
  }

  function Upper(v: nat): nat {
    v / 512
  }

  lemma PathPrefix(v: nat)
    requires v < 0x8000000
    ensures Top(v) < 512 && Mid(v) < 512 && Low(v) < 512
    ensures Top(v) * 512 + Mid(v) == Upper(v) && Upper(v) * 512 + Low(v) == v
  {
    assert v / 0x40000 == v / 512 / 512;
  }

  /** The three indices are exactly the base-512 digits of the page number. */
  lemma VpnDigits(va: nat)
    ensures Pidx(1, va) == Top(Vpn(va))
    ensures Pidx(2, va) == Mid(Vpn(va))
    ensures Pidx(3, va) == Low(Vpn(va))
    ensures Vpn(va) == (Pidx(1, va) * 512 + Pidx(2, va)) * 512 + Pidx(3, va)
  {
    var p := va / 4096;
    assert va / 0x200000 == p / 512 && va / 0x40000000 == p / 0x40000;
    Split(p);
  }

  /** The low 27 bits of a number and their three 9-bit fields. */
  lemma Split(p: nat)
    ensures p % 0x8000000 / 0x40000 == p / 0x40000 % 512
    ensures p % 0x8000000 / 512 % 512 == p / 512 % 512
    ensures p % 0x8000000 % 512 == p % 512
    ensures p % 0x8000000 == (p / 0x40000 % 512 * 512 + p / 512 % 512) * 512 + p % 512
  {
    var q := p / 512;
    var r := q / 512;
    Digits(r / 512, r % 512, q % 512, p % 512);
  }

  lemma Digits(s: nat, c: nat, b: nat, a: nat)
    requires c < 512 && b < 512 && a < 512
    ensures var p := ((s * 512 + c) * 512 + b) * 512 + a;
      && p % 512 == a && p / 512 == (s * 512 + c) * 512 + b && p / 512 % 512 == b
      && p / 0x40000 == s * 512 + c && p / 0x40000 % 512 == c
      && p % 0x8000000 == (c * 512 + b) * 512 + a
      && p % 0x8000000 / 0x40000 == c && p % 0x8000000 / 512 % 512 == b && p % 0x8000000 % 512 == a
  {
    Field9((s * 512 + c) * 512 + b, a);
    Field9(s * 512 + c, b);
    Field9(s, c);
    Field18(s * 512 + c, b * 512 + a);
    Field27(s, (c * 512 + b) * 512 + a);
    Field9(c * 512 + b, a);
    Field9(c, b);
    Field18(c, b * 512 + a);
  }

  lemma Field9(q: nat, r: nat)
    requires r < 512
    ensures (q * 512 + r) / 512 == q && (q * 512 + r) % 512 == r
  {
  }

  lemma Field18(q: nat, r: nat)
    requires r < 0x40000
    ensures (q * 0x40000 + r) / 0x40000 == q
  {
  }

  lemma Field27(q: nat, r: nat)
    requires r < 0x8000000
    ensures (q * 0x8000000 + r) % 0x8000000 == r
  {
  }

  /** An address below 2^39 is determined by its three indices and offset. */
  lemma AddressIsIndicesAndOffset(a: nat, b: nat)
    requires a < 0x8000000000 && b < 0x8000000000
    ensures a == b <==>
      && Pidx(1, a) == Pidx(1, b) && Pidx(2, a) == Pidx(2, b)
      && Pidx(3, a) == Pidx(3, b) && Offset(a) == Offset(b)
  {
    VpnDigits(a);
    VpnDigits(b);
    assert Vpn(a) == a / 4096 && Vpn(b) == b / 4096;
  }

  // ---- Descriptors

  function PtePa(e: nat): nat {
    e / 4096 % 0x1000000000 * 4096
  }

  predicate IsTableDesc(e: nat) {
    e % 2 == 1 && e / 2 % 2 == 1
  }

  predicate HasAf(e: nat) {
    e / 1024 % 2 == 1
  }

  /** The hardware lets user code load from the page: bits 1..0 say that the entry is a
      page, the access flag is set, and bit 6 admits EL0. */
  predicate UserLoads(e: nat) {
    e % 4 == 3 && e / 1024 % 2 == 1 && e / 64 % 2 == 1
  }

  /** And store to it: bit 7, read-only, is clear. */
  predicate UserStores(e: nat) {
    UserLoads(e) && e / 128 % 2 == 0
  }

  /** And execute from it: bit 54, never for EL0, is clear. */
  predicate UserRuns(e: nat) {
    UserLoads(e) && e / 0x40000000000000 % 2 == 0
  }

  /** Attribute fields: none of bits 0..1 (PTE_V), 10 (PTE_AF), 11 and 12..47. */
  predicate AttrOk(attr: nat) {
    attr % 4 == 0 && attr % 0x1000000000000 <= 1020 && attr < 0x10000000000000000
  }

  const NORMAL_U: nat := 0x44
  const NORMAL_U_XN: nat := 0x60000000000044

  function TableDesc(pa: nat): nat {
    PtePa(pa) + 3
  }

  function PageDesc(pa: nat, attr: nat): nat {
    PtePa(pa) + 1024 + attr + 3
  }

  /** The fields of a word whose low twelve bits are x. */
  lemma LowFields(k: nat, x: nat)
    requires x < 4096
    ensures PtePa(k * 4096 + x) == k % 0x1000000000 * 4096
    ensures IsTableDesc(k * 4096 + x) <==> IsTableDesc(x)
    ensures HasAf(k * 4096 + x) <==> HasAf(x)
  {
    Field12(k, x);
    LowBits(k, x);
    AccessFlag(k, x);
  }

  lemma LowBits(k: nat, x: nat)
    requires x < 4096
    ensures IsTableDesc(k * 4096 + x) <==> IsTableDesc(x)
  {
    Field1(k * 2048 + x / 2, x % 2);
    Field1(k * 1024 + x / 4, x / 2 % 2);
    assert (k * 4096 + x) / 2 == (k * 1024 + x / 4) * 2 + x / 2 % 2;
  }

  lemma AccessFlag(k: nat, x: nat)
    requires x < 4096
    ensures HasAf(k * 4096 + x) <==> HasAf(x)
  {
    Field10(k * 4 + x / 1024, x % 1024);
    Field1(k * 2 + x / 2048, x / 1024 % 2);
    assert (k * 4096 + x) / 1024 == (k * 2 + x / 2048) * 2 + x / 1024 % 2;
  }

  lemma Field1(q: nat, r: nat)
    requires r < 2
    ensures (q * 2 + r) / 2 == q && (q * 2 + r) % 2 == r
  {
  }

  lemma Field10(q: nat, r: nat)
    requires r < 1024
    ensures (q * 1024 + r) / 1024 == q
  {
  }

  lemma Field12(q: nat, r: nat)
    requires r < 4096
    ensures (q * 4096 + r) / 4096 == q && (q * 4096 + r) % 4096 == r
  {
  }

  lemma TableDescRoundTrip(pa: nat)
    requires FrameAddress(pa)
    ensures PtePa(TableDesc(pa)) == pa
    ensures IsTableDesc(TableDesc(pa)) && !HasAf(TableDesc(pa)) && TableDesc(pa) != 0
  {
    LowFields(pa / 4096, 0);
    LowFields(pa / 4096, 3);
  }

  lemma PageDescParts(k: nat, hi: nat, lo: nat)
    requires k < 0x1000000000 && lo <= 1020
    ensures PtePa(k * 4096 + 1024 + (hi * 0x1000000000000 + lo) + 3) == k * 4096
    ensures HasAf(k * 4096 + 1024 + (hi * 0x1000000000000 + lo) + 3)
  {
    var h := hi * 0x1000000000;
    LowFields(h + k, 1024 + lo + 3);
    assert (1024 + lo + 3) / 1024 == 1;
    assert (h + k) * 4096 + (1024 + lo + 3) == k * 4096 + 1024 + (hi * 0x1000000000000 + lo) + 3;
  }

  /** pagemap writes a valid page entry. */
  lemma PageDescValid(pa: nat, attr: nat)
    requires AttrOk(attr)
    ensures PageDesc(pa, attr) % 4 == 3
  {
    assert PtePa(pa) % 4 == 0;
    hide PtePa;
  }

  lemma PageDescRoundTrip(pa: nat, attr: nat)
    requires FrameAddress(pa) && AttrOk(attr)
    ensures PtePa(PageDesc(pa, attr)) == pa
    ensures HasAf(PageDesc(pa, attr)) && PageDesc(pa, attr) % 4 == 3
  {
    LowFields(pa / 4096, 0);
    PageDescParts(pa / 4096, attr / 0x1000000000000, attr % 0x1000000000000);
    PageDescValid(pa, attr);
  }

  // ---- Walking without allocating

  function Entry(word: Words, t: nat, i: nat): nat {
    if t in word && i < |word[t]| then word[t][i] else 0
  }

  /** The next table down, or 0 when the slot holds no table descriptor. */
  function Next(word: Words, t: nat, i: nat): nat {
    var e := Entry(word, t, i);
    if IsTableDesc(e) then PtePa(e) else 0
  }

  function Table2(word: Words, root: nat, v: nat): nat {
    Next(word, root, Top(v))
  }

  function Table3(word: Words, root: nat, v: nat): nat {
    Next(word, Table2(word, root, v), Mid(v))
  }

  /** The level-3 descriptor for page number v; 0 when there is none. */
  function Pte(word: Words, root: nat, v: nat): nat {
    Entry(word, Table3(word, root, v), Low(v))
  }

  /** Frame 0 does not exist, so a walk cannot pass through it. */
  lemma NullPath(word: Words, root: nat, v: nat)
    requires 0 !in word
    ensures Table3(word, root, v) != 0 ==> Table2(word, root, v) != 0
    ensures Pte(word, root, v) != 0 ==> Table3(word, root, v) != 0
  {
  }

  // ---- The tables of every address space form disjoint trees

  predicate IsRoot(role: Roles, root: nat) {
    root in role && role[root] == Node(root, 1, 0, 0, 0)
  }

  predicate IsTable(role: Roles, t: nat) {
    t in role && role[t].Node? && 1 <= role[t].level <= 3
  }

  function ChildRole(role: Roles, t: nat, i: nat): Role
    requires IsTable(role, t)
  {
    Node(role[t].root, role[t].level + 1, t, i, role[t].prefix * 512 + i)
  }

  /** A used slot names a frame that records this slot as its only owner. */
  ghost predicate SlotOk(word: Words, role: Roles, t: nat, i: nat)
    requires IsTable(role, t)
  {
    var e := Entry(word, t, i);
    e != 0 ==>
      var c := PtePa(e);
      && c in role && role[c] == ChildRole(role, t, i)
      && (if role[t].level < 3 then e == TableDesc(c) else HasAf(e) && e % 4 == 3)
  }

  /** A frame's recorded owner is a table one level up whose slot names it. */
  ghost predicate OwnerOk(word: Words, role: Roles, f: nat)
    requires f in role && role[f].Node?
  {
    var n := role[f];
    if n.level == 1 then n == Node(f, 1, 0, 0, 0)
    else
      && n.level <= 4 && IsRoot(role, n.root)
      && IsTable(role, n.parent) && n.slot < 512
      && n == ChildRole(role, n.parent, n.slot)
      && Entry(word, n.parent, n.slot) != 0
      && PtePa(Entry(word, n.parent, n.slot)) == f
  }

  ghost predicate LinkedUp(word: Words, role: Roles) {
    forall f :: f in role && role[f].Node? ==> 1 <= role[f].level && OwnerOk(word, role, f)
  }

  ghost predicate LinkedDown(word: Words, role: Roles) {
    forall t, i :: IsTable(role, t) && 0 <= i < 512 ==> SlotOk(word, role, t, i)
  }

  ghost predicate Linked(word: Words, role: Roles) {
    Sized(word, role) && LinkedUp(word, role) && LinkedDown(word, role)
  }

  lemma NextRole(word: Words, role: Roles, t: nat, i: nat)
    requires Linked(word, role) && IsTable(role, t) && role[t].level < 3 && i < 512
    ensures IsTableDesc(Entry(word, t, i)) ==> Next(word, t, i) != 0
    ensures Next(word, t, i) != 0 ==>
      Next(word, t, i) in role && role[Next(word, t, i)] == ChildRole(role, t, i)
  {
    assert SlotOk(word, role, t, i);
  }

  /** Above level 3 a slot is empty or holds a table descriptor. */
  lemma EmptyOrTable(word: Words, role: Roles, t: nat, i: nat)
    requires Linked(word, role) && IsTable(role, t) && role[t].level < 3 && i < 512
    ensures Entry(word, t, i) == 0 || IsTableDesc(Entry(word, t, i))
  {
    assert SlotOk(word, role, t, i);
    if Entry(word, t, i) != 0 {
      TableDescRoundTrip(PtePa(Entry(word, t, i)));
    }
  }

  /** Where a walk from a root can arrive. */
  lemma WalkRoles(word: Words, role: Roles, root: nat, v: nat)
    requires Linked(word, role) && IsRoot(role, root) && v < 0x8000000
    ensures Table2(word, root, v) != 0 ==>
      Table2(word, root, v) in role && role[Table2(word, root, v)] == Node(root, 2, root, Top(v), Top(v))
    ensures Table3(word, root, v) != 0 ==>
      && Table2(word, root, v) != 0
      && Table3(word, root, v) in role
      && role[Table3(word, root, v)] == Node(root, 3, Table2(word, root, v), Mid(v), Upper(v))
    ensures Pte(word, root, v) != 0 ==>
      && Table3(word, root, v) != 0 && HasAf(Pte(word, root, v))
      && PtePa(Pte(word, root, v)) in role
      && role[PtePa(Pte(word, root, v))] == Node(root, 4, Table3(word, root, v), Low(v), v)
  {
    PathPrefix(v);
    NextRole(word, role, root, Top(v));
    var t2 := Table2(word, root, v);
    if t2 != 0 {
      NextRole(word, role, t2, Mid(v));
      var t3 := Table3(word, root, v);
      if t3 != 0 {
        assert SlotOk(word, role, t3, Low(v));
      }
    }
  }

  /** f is a table or page that the walk of page v from root passes or reaches. */
  predicate OnWalk(word: Words, root: nat, v: nat, f: nat) {
    f != 0 && (f == root || f == Table2(word, root, v) || f == Table3(word, root, v) || f == PtePa(Pte(word, root, v)))
  }

  /** No sharing: a frame is on the walks of one root only, and two walks that reach
      it below the root took the same indices that far. */
  lemma OnePath(word: Words, role: Roles, root: nat, v: nat, other: nat, x: nat, f: nat)
    requires Linked(word, role) && IsRoot(role, root) && IsRoot(role, other) && v < 0x8000000 && x < 0x8000000
    requires OnWalk(word, root, v, f) && OnWalk(word, other, x, f)
    ensures root == other
    ensures f == Table2(word, root, v) ==> f == Table2(word, other, x) && Top(v) == Top(x)
    ensures f == Table3(word, root, v) ==> f == Table3(word, other, x) && Upper(v) == Upper(x)
    ensures f == PtePa(Pte(word, root, v)) ==> v == x
  {
    WalkRoles(word, role, root, v);
    WalkRoles(word, role, other, x);
    assert PtePa(0) == 0;
    hide Linked, Table2, Table3, Pte, PtePa, Top, Upper, Mid, Low;
  }

  /** Every table and page recorded for an address space is found by the walk. */
  lemma WalkReaches(word: Words, role: Roles, f: nat, v: nat)
    requires Linked(word, role) && f in role && role[f].Node? && role[f].level >= 2
    requires v < 0x8000000
    ensures role[f].level == 2 && role[f].prefix == Top(v) ==> Table2(word, role[f].root, v) == f
    ensures role[f].level == 3 && role[f].prefix == Upper(v) ==> Table3(word, role[f].root, v) == f
    ensures role[f].level == 4 && role[f].prefix == v ==>
      && Table3(word, role[f].root, v) == role[f].parent
      && Pte(word, role[f].root, v) != 0 && PtePa(Pte(word, role[f].root, v)) == f
    decreases role[f].level
  {
    PathPrefix(v);
    hide Top, Mid, Low, Upper;
    var n := role[f];
    assert OwnerOk(word, role, f);
    if n.level < 4 {
      NextOfOwner(word, role, f);
    }
    hide PtePa, IsTableDesc;
    if n.level == 2 {
      assert OwnerOk(word, role, n.parent);
    } else {
      WalkReaches(word, role, n.parent, v);
    }
  }

  lemma NextOfOwner(word: Words, role: Roles, f: nat)
    requires Linked(word, role) && f in role && role[f].Node? && 2 <= role[f].level <= 3
    ensures Next(word, role[f].parent, role[f].slot) == f
  {
    assert OwnerOk(word, role, f);
    assert SlotOk(word, role, role[f].parent, role[f].slot);
    TableDescRoundTrip(f);
  }
}
