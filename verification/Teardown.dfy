/** Unmapping and releasing an address space: pageunmap, free_table, free_userspace. */
module Teardown {
  import opened Sequences
  import opened PhysMem
  import opened PageTable
  import opened TableUpdate
  import opened AddressSpace

  /** The user pages of an address space whose page number is one of n from v. */
  predicate PageIn(role: Roles, f: nat, root: nat, v: nat, n: nat)
    requires v < 0x8000000
  {
    && f in role && role[f].Node? && role[f].root == root && role[f].level == 4
    && role[f].prefix < 0x8000000 && Dist(v, role[f].prefix) < n
  }

  /** n pages from page number v lost their translation and their frames; every
      other translation and every other frame in use is as it was. */
  ghost predicate Unmapped(w0: Words, r0: Roles, w1: Words, r1: Roles, root: nat, v: nat, n: nat)
    requires v < 0x8000000
  {
    && (forall r, x :: IsRoot(r0, r) && 0 <= x < 0x8000000 ==>
      Pte(w1, r, x) == if r == root && Dist(v, x) < n then 0 else Pte(w0, r, x))
    && r1.Keys == r0.Keys
    && (forall f :: f in r0 ==> r1[f] == if PageIn(r0, f, root, v, n) then Free else r0[f])
    && (forall f :: f in r0 && f in w0 && f in w1 && r1[f] != Free ==>
      w1[f] == w0[f] || (r0[f].Node? && r0[f].root == root && r0[f].level < 4))
  }

  /** The new state after freeing page c and then clearing the slot that names it. */
  lemma FreeThenClear(w: Words, r: Roles, c: nat, t: nat, i: nat, content: seq<nat>)
    requires Linked(w, r) && c in r && r[c].Node? && r[c].level > 1 && Childless(r, c)
    requires t == r[c].parent && i == r[c].slot && |content| == 512
    ensures IsTable(r, t) && t != c && t in w && i < 512
    ensures Linked(Store(w[c := content], t, i, 0), r[c := Free])
    ensures SamePtes(Store(w, t, i, 0), Store(w[c := content], t, i, 0), r)
  {
    assert OwnerOk(w, r, c);
    Unlink(w, r, c, t, i);
    LinkedFrame(Store(w, t, i, 0), r[c := Pinned], Store(w[c := content], t, i, 0), r[c := Free]);
  }

  /** kfree followed by clearing the slot: detach the childless frame c for good. */
  method Release(m: Memory, c: nat, t: nat, i: nat)
    requires Ready(m) && !m.held && c in m.role && m.role[c].Node? && m.role[c].level > 1 && Childless(m.role, c)
    requires t == m.role[c].parent && i == m.role[c].slot
    modifies m
    ensures Ready(m) && !m.held && m.role == old(m.role)[c := Free]
    ensures IsTable(old(m.role), t) && t in old(m.word) && i < |old(m.word)[t]|
    ensures SamePtes(Store(old(m.word), t, i, 0), m.word, old(m.role))
    ensures forall f :: f in old(m.word) && f in m.word && f != c && f != t ==> m.word[f] == old(m.word)[f]
  {
    hide SamePtes, LinkedUp, LinkedDown, Childless, ZeroPage, Chain, NoDup;
    ghost var w0, r0, h0 := m.word, m.role, m.freelist;
    FreeThenClear(w0, r0, c, t, i, ZeroPage()[0 := h0]);
    m.role := m.role[c := Pinned];
    AllocUse(w0, r0, m.freelist, m.free, c, Pinned);
    m.KFree(c);
    ghost var w1, r1 := m.word, m.role;
    m.word := Store(m.word, t, i, 0);
    AllocRewrite(w1, r1, m.freelist, m.free, t, m.word[t]);
    assert m.role == r0[c := Free];
  }

  /** A user page has no children. */
  lemma PagesAreChildless(w: Words, r: Roles, c: nat)
    requires Linked(w, r) && c in r && r[c].Node? && r[c].level == 4
    ensures Childless(r, c)
  {
    forall g | g in r && r[g].Node? && r[g].level > 1 ensures r[g].parent != c {
      assert OwnerOk(w, r, g);
    }
  }

  /** The body of the pageunmap loop: one page, which must be mapped. */
  method UnmapOne(m: Memory, pgt: nat, va: nat) returns (o: Outcome)
    requires Ready(m) && !m.held && IsRoot(m.role, pgt)
    modifies m
    ensures Ready(m) && IsRoot(m.role, pgt)
    ensures o == Done <==> Pte(old(m.word), pgt, Vpn(va)) != 0
    ensures o == NoMemory ==> m.free == []
    ensures m.held <==> o == NoMemory
    ensures o == Done ==> Unmapped(old(m.word), old(m.role), m.word, m.role, pgt, Vpn(va), 1)
    ensures o != Done ==> Walked(old(m.word), old(m.role), m.word, m.role, pgt)
  {
    hide AllocOk, LinkedUp, LinkedDown, Childless, Grew, SamePtes, OnePteChanged, Unmapped;
    hide Walked, Pte, Table3, Vpn, Low, Mid, Top, Upper, PtePa;
    ghost var x := Vpn(va);
    ghost var w0, r0 := m.word, m.role;
    UnmapPath(w0, r0, pgt, x);
    var ok, t, i := PageWalk(m, pgt, va);
    if !ok {
      return NoMemory;
    }
    Level3Slot(m.word, m.role, pgt, x);
    SamePteAfterWalk(w0, r0, m.word, m.role, pgt, x);
    var pte := m.word[t][i];
    if pte == 0 {
      return Panicked;
    }
    Release(m, PtePa(pte), t, i);
    UnmapOneSpec(w0, r0, m.word, m.role, pgt, x);
    return Done;
  }

  lemma SamePteAfterWalk(w: Words, r: Roles, w': Words, r': Roles, pgt: nat, x: nat)
    requires Walked(w, r, w', r', pgt) && IsRoot(r, pgt) && x < 0x8000000
    ensures Pte(w', pgt, x) == Pte(w, pgt, x)
  {
  }

  lemma UnmapPath(w: Words, r: Roles, pgt: nat, x: nat)
    requires Linked(w, r) && IsRoot(r, pgt) && x < 0x8000000
    ensures Pte(w, pgt, x) != 0 ==>
      && Table3(w, pgt, x) != 0
      && var c := PtePa(Pte(w, pgt, x));
      && c in r && r[c] == Node(pgt, 4, Table3(w, pgt, x), Low(x), x) && Childless(r, c)
  {
    WalkRoles(w, r, pgt, x);
    if Pte(w, pgt, x) != 0 {
      PagesAreChildless(w, r, PtePa(Pte(w, pgt, x)));
    }
  }

  lemma UnmapOneSpec(w: Words, r: Roles, w': Words, r': Roles, pgt: nat, x: nat)
    requires Linked(w, r) && Sized(w', r') && IsRoot(r, pgt) && x < 0x8000000 && Pte(w, pgt, x) != 0
    requires var t, c := Table3(w, pgt, x), PtePa(Pte(w, pgt, x));
      && t in w && Low(x) < |w[t]|
      && SamePtes(Store(w, t, Low(x), 0), w', r)
      && r' == r[c := Free]
      && forall f :: f in w && f in w' && f != c && f != t ==> w'[f] == w[f]
    ensures Unmapped(w, r, w', r', pgt, x, 1)
  {
    WalkRoles(w, r, pgt, x);
    var t, c := Table3(w, pgt, x), PtePa(Pte(w, pgt, x));
    PathPrefix(x);
    StoreLeafPtes(w, r, t, Low(x), 0);
    forall f | f in r ensures PageIn(r, f, pgt, x, 1) <==> f == c {
      if PageIn(r, f, pgt, x, 1) {
        assert Dist(x, r[f].prefix) == 0 && r[f].prefix == x;
        WalkReaches(w, r, f, x);
      }
    }
    hide Pte;
  }

  ghost predicate AllMapped(w: Words, root: nat, v: nat, n: nat)
    requires v < 0x8000000
  {
    forall x :: 0 <= x < 0x8000000 && Dist(v, x) < n ==> Pte(w, root, x) != 0
  }

  lemma UnmappedNone(w: Words, r: Roles, root: nat, v: nat)
    requires v < 0x8000000
    ensures Unmapped(w, r, w, r, root, v, 0)
  {
  }

  lemma UnmapStep(w0: Words, r0: Roles, w1: Words, r1: Roles, w2: Words, r2: Roles, root: nat, v: nat, x: nat, k: nat)
    requires Sized(w0, r0) && Sized(w1, r1) && Sized(w2, r2)
    requires v < 0x8000000 && x < 0x8000000 && Dist(v, x) == k
    requires Unmapped(w0, r0, w1, r1, root, v, k) && Unmapped(w1, r1, w2, r2, root, x, 1)
    ensures Unmapped(w0, r0, w2, r2, root, v, k + 1)
  {
    forall y | 0 <= y < 0x8000000 ensures Dist(v, y) < k + 1 <==> Dist(v, y) < k || Dist(x, y) < 1 {
    }
    hide Dist;
    PagesSplit(r0, r1, root, v, x, k);
    hide Pte, PageIn;
  }

  /** The pages freed in two steps are the pages freed in one. */
  lemma PagesSplit(r0: Roles, r1: Roles, root: nat, v: nat, x: nat, k: nat)
    requires v < 0x8000000 && x < 0x8000000 && r1.Keys == r0.Keys
    requires forall y :: 0 <= y < 0x8000000 ==> (Dist(v, y) < k + 1 <==> Dist(v, y) < k || Dist(x, y) < 1)
    requires forall f :: f in r0 ==> r1[f] == if PageIn(r0, f, root, v, k) then Free else r0[f]
    ensures forall f :: f in r0 ==>
      (PageIn(r0, f, root, v, k + 1) <==> PageIn(r0, f, root, v, k) || PageIn(r1, f, root, x, 1))
  {
    hide Dist;
  }

  /** pageunmap: every page of [va, va + size) goes back to the free list.  It
      panics on a misaligned argument and on a page that is not mapped. */
  method PageUnmap(m: Memory, pgt: nat, va: nat, size: nat) returns (o: Outcome)
    requires Ready(m) && !m.held && IsRoot(m.role, pgt)
    modifies m
    ensures Ready(m) && IsRoot(m.role, pgt)
    ensures !(PageAligned(va) && PageAligned(size)) ==> o == Panicked
    ensures PageAligned(va) && PageAligned(size) && size / 4096 <= 0x8000000 ==>
      (o == Done <==> AllMapped(old(m.word), pgt, Vpn(va), size / 4096))
    ensures o == Done ==>
      Unmapped(old(m.word), old(m.role), m.word, m.role, pgt, Vpn(va), size / 4096) && size / 4096 <= 0x8000000
    ensures o == NoMemory ==> m.free == []
    ensures m.held <==> o == NoMemory
  {
    hide AllocOk, LinkedUp, LinkedDown, Unmapped, AllMapped, Walked, Pte, Vpn, Dist;
    ghost var n, v := size / 4096, Vpn(va);
    ghost var w0, r0 := m.word, m.role;
    if va % 4096 != 0 || size % 4096 != 0 {
      return Panicked;
    }
    UnmappedNone(w0, r0, pgt, v);
    NoneMapped(w0, pgt, v);
    var p, va' := 0, va;
    ghost var k := 0;
    while p < size
      invariant p == k * 4096 && va' == va + p && k <= n && k <= 0x8000000
      invariant Ready(m) && !m.held && IsRoot(m.role, pgt) && IsRoot(r0, pgt)
      invariant Unmapped(w0, r0, m.word, m.role, pgt, v, k) && AllMapped(w0, pgt, v, k)
    {
      ghost var w1, r1 := m.word, m.role;
      VpnStep(va, k);
      UnmappedPte(w0, r0, w1, r1, pgt, v, Vpn(va'), k, n);
      o := UnmapOne(m, pgt, va');
      if o != Done {
        return o;
      }
      UnmapStep(w0, r0, w1, r1, m.word, m.role, pgt, v, Vpn(va'), k);
      k := k + 1;
      p, va' := p + 4096, va' + 4096;
    }
    return Done;
  }

  lemma NoneMapped(w: Words, root: nat, v: nat)
    requires v < 0x8000000
    ensures AllMapped(w, root, v, 0)
  {
  }

  /** Page k of the run is still as it was when its turn comes. */
  lemma UnmappedPte(w0: Words, r0: Roles, w1: Words, r1: Roles, root: nat, v: nat, x: nat, k: nat, n: nat)
    requires IsRoot(r0, root) && v < 0x8000000 && x < 0x8000000 && k <= 0x8000000 && k < n
    requires Unmapped(w0, r0, w1, r1, root, v, k) && AllMapped(w0, root, v, k)
    requires k < 0x8000000 ==> Dist(v, x) == k
    requires k == 0x8000000 ==> x == v
    ensures k < 0x8000000 ==> Pte(w1, root, x) == Pte(w0, root, x)
    ensures k == 0x8000000 ==> Pte(w1, root, x) == 0
    ensures k < 0x8000000 && Pte(w0, root, x) != 0 ==> AllMapped(w0, root, v, k + 1)
    ensures k < 0x8000000 && Pte(w0, root, x) == 0 ==> !AllMapped(w0, root, v, n)
  {
    assert Dist(v, v) == 0;
    forall y | 0 <= y < 0x8000000 && k < 0x8000000 ensures Dist(v, y) == k <==> y == x {
    }
    hide Pte, Dist;
  }
}
