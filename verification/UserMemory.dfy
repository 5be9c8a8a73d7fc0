/** What user code sees: bytes read and written through a translation. */
module UserMemory {
  import opened Bits
  import opened PhysMem
  import opened PageTable
  import opened TableUpdate
  import opened AddressSpace
  import opened Teardown
  import opened UserSpace
  import opened Options

  /** uva2pa without its side effect: the output address for va. */
  function Translate(w: Words, root: nat, va: nat): nat {
    PtePa(Pte(w, root, Vpn(va))) + Offset(va)
  }

  /** uva2pa: walks, possibly hanging new tables, and never changes a translation. */
  method Uva2Pa(m: Memory, pgt: nat, va: nat) returns (pa: nat)
    requires Ready(m) && !m.held && IsRoot(m.role, pgt)
    modifies m
    ensures Ready(m) && IsRoot(m.role, pgt)
    ensures Walked(old(m.word), old(m.role), m.word, m.role, pgt)
    ensures if m.held then pa == 0 && m.free == [] else pa == Translate(old(m.word), pgt, va)
  {
    hide AllocOk, LinkedUp, LinkedDown, Walked, Pte, Table3, Vpn, PtePa, Offset;
    var ok, t, i := PageWalk(m, pgt, va);
    if !ok {
      return 0;
    }
    Level3Slot(m.word, m.role, pgt, Vpn(va));
    SamePteAfterWalk(old(m.word), old(m.role), m.word, m.role, pgt, Vpn(va));
    pa := PtePa(m.word[t][i]) + Offset(va);
  }

  /** uva2ka's null test recognises an unmapped address exactly when it is page
      aligned; any other unmapped address translates to its own offset. */
  lemma NullTestExact(w: Words, r: Roles, root: nat, va: nat)
    requires Linked(w, r) && IsRoot(r, root)
    ensures Translate(w, root, va) == 0 <==> Pte(w, root, Vpn(va)) == 0 && Offset(va) == 0
    ensures Pte(w, root, Vpn(va)) == 0 ==> Translate(w, root, va) == Offset(va)
  {
    WalkRoles(w, r, root, Vpn(va));
    assert PtePa(0) == 0;
    hide PtePa, Pte;
  }

  /** pagemap makes uva2pa the identity plus a constant on the whole range. */
  lemma MappedTranslation(w0: Words, r0: Roles, w1: Words, root: nat, va: nat, n: nat, pa: nat, attr: nat,
                          k: nat, o: nat)
    requires IsRoot(r0, root) && PageAligned(va) && AttrOk(attr) && k < n <= 0x8000000 && o < 4096
    requires FrameAddress(pa + k * 4096)
    requires MappedRange(w0, r0, w1, root, Vpn(va), n, pa, attr)
    ensures Translate(w1, root, va + k * 4096 + o) == pa + (k * 4096 + o)
  {
    VpnStep(va, k);
    PageAndOffset(va, k, o);
    PageDescRoundTrip(pa + k * 4096, attr);
    hide Vpn, Offset, PtePa, Pte, PageDesc, Dist;
  }

  lemma PageAndOffset(va: nat, k: nat, o: nat)
    requires PageAligned(va) && o < 4096
    ensures Vpn(va + k * 4096 + o) == Vpn(va + k * 4096) && Offset(va + k * 4096 + o) == o
  {
    Field12(va / 4096 + k, o);
    Field12(va / 4096 + k, 0);
    assert va + k * 4096 == (va / 4096 + k) * 4096;
  }

  /** pageunmap undoes pagemap on every translation. */
  lemma UnmapUndoesMap(w0: Words, r0: Roles, w1: Words, r1: Roles, w2: Words, r2: Roles,
                       root: nat, v: nat, n: nat, pa: nat, attr: nat)
    requires v < 0x8000000 && forall r :: IsRoot(r0, r) ==> IsRoot(r1, r)
    requires EmptyRange(w0, root, v, n) && MappedRange(w0, r0, w1, root, v, n, pa, attr)
    requires Unmapped(w1, r1, w2, r2, root, v, n)
    ensures SamePtes(w0, w2, r0)
  {
    hide Pte, PageDesc, Dist;
  }

  // ---- Bytes

  /** The byte a user program loads from va; None is a fault. */
  function UserByte(w: Words, root: nat, va: nat): Option<nat> {
    var e := Pte(w, root, Vpn(va));
    if !UserLoads(e) then None
    else Some(ByteOf(PageOf(w, root, Vpn(va))[Offset(va) / 8], Offset(va) % 8))
  }

  /** A user program stores a whole word, or faults and stores nothing. */
  function UserStore(w: Words, root: nat, va: nat, word: nat): Words {
    var f := PtePa(Pte(w, root, Vpn(va)));
    if !UserStores(Pte(w, root, Vpn(va))) || f !in w || |w[f]| != 512 then w
    else
      var page: seq<nat> := w[f][Offset(va) / 8 := word];
      w[f := page]
  }

  /** A store keeps the tables, every translation, and every page of every
      address space except the one it is aimed at. */
  lemma StoreKeeps(w: Words, r: Roles, root: nat, va: nat, word: nat)
    requires Linked(w, r) && IsRoot(r, root)
    ensures var w' := UserStore(w, root, va, word);
      && Linked(w', r) && SamePtes(w, w', r)
      && forall q, x :: IsRoot(r, q) && 0 <= x < 0x8000000 && (q != root || x != Vpn(va)) ==>
        PageOf(w', q, x) == PageOf(w, q, x)
  {
    var w' := UserStore(w, root, va, word);
    var f := PtePa(Pte(w, root, Vpn(va)));
    WalkRoles(w, r, root, Vpn(va));
    LinkedFrame(w, r, w', r);
    forall q, x | IsRoot(r, q) && 0 <= x < 0x8000000 && (q != root || x != Vpn(va))
      ensures PageOf(w', q, x) == PageOf(w, q, x)
    {
      WalkRoles(w, r, q, x);
      hide Pte, PtePa, LinkedUp, LinkedDown, Vpn;
    }
  }

  /** Both addresses are in one 8-byte word. */
  predicate SameWord(va: nat, a: nat) {
    Vpn(va) == Vpn(a) && Offset(va) / 8 == Offset(a) / 8
  }

  /** A program loads the bytes it has stored where it may store, least byte first, and
      everywhere else what it loaded before. */
  lemma StoreSeen(w: Words, r: Roles, root: nat, va: nat, word: nat, a: nat)
    requires Linked(w, r) && IsRoot(r, root)
    ensures UserByte(UserStore(w, root, va, word), root, a) ==
      if SameWord(va, a) && UserStores(Pte(w, root, Vpn(va))) then Some(ByteOf(word, Offset(a) % 8))
      else UserByte(w, root, a)
  {
    var w' := UserStore(w, root, va, word);
    StoreKeeps(w, r, root, va, word);
    WalkRoles(w, r, root, Vpn(va));
    hide Linked, Vpn, Offset, ByteOf, PtePa;
    assert Pte(w', root, Vpn(a)) == Pte(w, root, Vpn(a));
    hide Pte;
  }

  datatype Access = Access(va: nat, word: nat)

  function Stores(w: Words, root: nat, run: seq<Access>): Words
    decreases |run|
  {
    if run == [] then w
    else Stores(UserStore(w, root, run[0].va, run[0].word), root, run[1..])
  }

  /** Whatever one address space writes, another reads the same bytes. */
  lemma {:induction false} StoresIsolated(w: Words, r: Roles, root: nat, other: nat, run: seq<Access>, va: nat)
    requires Linked(w, r) && IsRoot(r, root) && IsRoot(r, other) && other != root
    ensures Linked(Stores(w, root, run), r)
    ensures UserByte(Stores(w, root, run), other, va) == UserByte(w, other, va)
    decreases |run|
  {
    if run != [] {
      StoreKeeps(w, r, root, run[0].va, run[0].word);
      var w' := UserStore(w, root, run[0].va, run[0].word);
      hide Linked;
      StoresIsolated(w', r, root, other, run[1..], va);
      hide Pte, PageOf, ByteOf;
      SameBytes(w, w', r, other, va);
    }
  }

  lemma SameBytes(w: Words, w': Words, r: Roles, root: nat, va: nat)
    requires IsRoot(r, root) && Pte(w', root, Vpn(va)) == Pte(w, root, Vpn(va))
    requires PageOf(w', root, Vpn(va)) == PageOf(w, root, Vpn(va))
    ensures UserByte(w', root, va) == UserByte(w, root, va)
  {
  }

  /** Two address spaces share no frame, neither table nor page: what a walk through
      one passes, no walk through the other does. */
  lemma NoSharedFrame(w: Words, r: Roles, root: nat, other: nat)
    requires Linked(w, r) && IsRoot(r, root) && IsRoot(r, other) && root != other
    ensures forall x: nat, y: nat, f: nat :: x < 0x8000000 && y < 0x8000000 && OnWalk(w, root, x, f) ==>
      !OnWalk(w, other, y, f)
  {
    hide Linked, OnWalk;
    forall x: nat, y: nat, f: nat | x < 0x8000000 && y < 0x8000000 && OnWalk(w, root, x, f)
      ensures !OnWalk(w, other, y, f) {
      if OnWalk(w, other, y, f) {
        OnePath(w, r, root, x, other, y, f);
        assert false;
      }
    }
  }

  /** Fork isolation.  After cp_userspace every byte of the heap and of the stack
      page reads the same through both tables; no frame, table or page, is on a walk
      through both; and no sequence of later stores
      through one changes any byte read through the other. */
  lemma ForkIsolation(w0: Words, r0: Roles, w1: Words, r1: Roles, parent: nat, child: nat, n: nat,
                      run: seq<Access>, va: nat)
    requires Linked(w0, r0) && Linked(w1, r1) && parent != child && 1 + n <= STACK_VPN
    requires IsRoot(r0, parent) && IsRoot(r0, child) && IsRoot(r1, parent) && IsRoot(r1, child)
    requires Forked(w0, r0, w1, r1, child, parent, 1, n)
    ensures 1 <= Vpn(va) < 1 + n || Vpn(va) == STACK_VPN ==>
      && UserByte(w1, child, va).Some?
      && (UserByte(w0, parent, va).Some? ==>
            UserByte(w1, child, va) == UserByte(w1, parent, va) == UserByte(w0, parent, va))
    ensures forall x: nat, y: nat, f: nat :: x < 0x8000000 && y < 0x8000000 && OnWalk(w1, parent, x, f) ==>
      !OnWalk(w1, child, y, f)
    ensures UserByte(Stores(w1, parent, run), child, va) == UserByte(w1, child, va)
    ensures UserByte(Stores(w1, child, run), parent, va) == UserByte(w1, parent, va)
  {
    hide LinkedUp, LinkedDown, Grew, PageOf, Pte, Stores, ByteOf, OnWalk;
    NoSharedFrame(w1, r1, parent, child);
    StoresIsolated(w1, r1, parent, child, run, va);
    StoresIsolated(w1, r1, child, parent, run, va);
    PageKept(w0, r0, w1, r1, child, parent, Vpn(va));
  }
}
