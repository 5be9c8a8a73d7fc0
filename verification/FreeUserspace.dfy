/** free_userspace: a whole address space goes back to the free list. */
module FreeUserspaces {
  import opened PhysMem
  import opened PageTable
  import opened AddressSpace
  import opened Teardown
  import opened FreeTables
  import opened UserSpace

  /** The user pages of a process: its heap from 0x1000 and one stack page. */
  predicate InSpace(size: nat, x: nat) {
    1 <= x < 1 + Pages(size) || x == STACK_VPN
  }

  /** Byte b of the heap is on page x. */
  predicate OnPage(b: nat, x: nat) {
    (0x1000 + b) / 4096 == x
  }

  /** Those are the pages of the heap's bytes, and no others, and the page at the stack's
      bottom. */
  lemma SpaceExact(size: nat, x: nat)
    requires 1 + Pages(size) <= STACK_VPN
    ensures InSpace(size, x) <==> x == 0x7fffffe000 / 4096 || exists b: nat :: b < size && OnPage(b, x)
  {
    if 1 <= x < 1 + Pages(size) {
      var b := (x - 1) * 4096;
      assert b < size && OnPage(b, x);
    }
  }

  ghost predicate SpaceIs(w: Words, root: nat, size: nat) {
    && 1 + Pages(size) <= STACK_VPN
    && forall x :: 0 <= x < 0x8000000 ==> (Pte(w, root, x) != 0 <==> InSpace(size, x))
  }

  /** Every frame of the address space is free; every other frame keeps its use. */
  ghost predicate SpaceFreed(r0: Roles, r: Roles, root: nat) {
    && r.Keys == r0.Keys
    && forall f :: f in r0 ==> r[f] == if r0[f].Node? && r0[f].root == root then Free else r0[f]
  }

  /** The translations and the words of an address space are as they were. */
  ghost predicate SpaceKept(w0: Words, w: Words, root: nat) {
    forall x :: 0 <= x < 0x8000000 ==>
      Pte(w, root, x) == Pte(w0, root, x) && PageOf(w, root, x) == PageOf(w0, root, x)
  }

  lemma {:induction false} PrefixBound(w: Words, r: Roles, f: nat)
    requires Linked(w, r) && f in r && r[f].Node?
    ensures r[f].level == 1 ==> r[f].prefix == 0
    ensures r[f].level == 2 ==> r[f].prefix < 512
    ensures r[f].level == 3 ==> r[f].prefix < 0x40000
    ensures r[f].level == 4 ==> r[f].prefix < 0x8000000
    decreases if f in r && r[f].Node? then r[f].level else 0
  {
    assert OwnerOk(w, r, f);
    if r[f].level > 1 {
      PrefixBound(w, r, r[f].parent);
    }
  }

  /** The tree of a root is everything recorded for its address space. */
  lemma {:induction false} RootTree(w: Words, r: Roles, root: nat, f: nat)
    requires Linked(w, r) && IsRoot(r, root) && f in r && r[f].Node?
    ensures InTree(r, root, f) <==> r[f].root == root
    decreases if f in r && r[f].Node? then r[f].level else 0
  {
    assert OwnerOk(w, r, f);
    if r[f].level > 1 {
      RootTree(w, r, root, r[f].parent);
    }
  }

  /** Without translations there are no user pages to leak. */
  lemma NoPagesLeft(w: Words, r: Roles, root: nat)
    requires Linked(w, r) && IsRoot(r, root)
    requires forall x :: 0 <= x < 0x8000000 ==> Pte(w, root, x) == 0
    ensures NoPages(r, Tree(r, root))
  {
    forall f | f in Tree(r, root) && f in r && r[f].Node? ensures r[f].level < 4 {
      assert OwnerOk(w, r, f);
      RootTree(w, r, root, f);
      if r[f].level == 4 {
        PrefixBound(w, r, f);
        WalkReaches(w, r, f, r[f].prefix);
      }
    }
  }

  /** An address space depends only on its own frames. */
  lemma SpaceFrame(w: Words, r: Roles, w': Words, root: nat)
    requires Linked(w, r) && IsRoot(r, root) && w'.Keys == w.Keys
    requires forall f :: f in r && r[f].Node? && r[f].root == root ==> w'[f] == w[f]
    ensures SpaceKept(w, w', root)
  {
    forall x | 0 <= x < 0x8000000
      ensures Pte(w', root, x) == Pte(w, root, x) && PageOf(w', root, x) == PageOf(w, root, x)
    {
      PathFrame(w, r, w', root, x);
    }
    hide Pte, PageOf;
  }

  lemma PathFrame(w: Words, r: Roles, w': Words, root: nat, x: nat)
    requires Linked(w, r) && IsRoot(r, root) && w'.Keys == w.Keys && x < 0x8000000
    requires forall f :: f in r && r[f].Node? && r[f].root == root ==> w'[f] == w[f]
    ensures Pte(w', root, x) == Pte(w, root, x) && PageOf(w', root, x) == PageOf(w, root, x)
  {
    WalkRoles(w, r, root, x);
    hide LinkedUp, LinkedDown, PtePa, IsTableDesc;
  }

  lemma AllFreed(w0: Words, r0: Roles, w1: Words, r1: Roles, w2: Words, r2: Roles, w3: Words, r3: Roles,
                 root: nat, size: nat)
    requires Linked(w0, r0) && Linked(w2, r2) && Sized(w1, r1) && Sized(w3, r3) && IsRoot(r0, root) && IsRoot(r2, root)
    requires Unmapped(w0, r0, w1, r1, root, 1, Pages(size)) && Unmapped(w1, r1, w2, r2, root, STACK_VPN, 1)
    requires Pruned(w2, r2, w3, r3, Tree(r2, root))
    ensures SpaceFreed(r0, r3, root) && w3.Keys == w0.Keys
    ensures forall f :: f in r0 && r0[f] != Free && !(r0[f].Node? && r0[f].root == root) ==> w3[f] == w0[f]
  {
    forall f | f in r2 && r2[f].Node? ensures f in Tree(r2, root) <==> r2[f].root == root {
      RootTree(w2, r2, root, f);
    }
    forall f | f in Tree(r2, root) ensures r2[f].Node? && r2[f].root == root {
      assert InTree(r2, root, f);
      RootTree(w2, r2, root, f);
    }
    hide Tree, InTree, LinkedUp, LinkedDown, Pte;
  }

  /** free_userspace on a process whose pages are exactly its heap and stack:
      every frame of the address space is freed once, and no other is touched. */
  method FreeUserspace(m: Memory, pgt: nat, size: nat) returns (o: Outcome)
    requires Ready(m) && !m.held && IsRoot(m.role, pgt) && SpaceIs(m.word, pgt, size)
    modifies m
    ensures o == Done && Ready(m) && !m.held
    ensures SpaceFreed(old(m.role), m.role, pgt)
    ensures forall q :: IsRoot(old(m.role), q) && q != pgt ==> SpaceKept(old(m.word), m.word, q)
  {
    hide AllocOk, LinkedUp, LinkedDown, SpaceKept, SpaceFreed, Pte, Unmapped, AllMapped, NoPages, Tree, Pruned, InSpace;
    ghost var w0, r0 := m.word, m.role;
    HeapMapped(w0, pgt, size);
    StackVpn();
    hide Pages, PageRoundUp, Vpn;
    o := PageUnmap(m, pgt, USER_BASE, PageRoundUp(size));
    ghost var w1, r1 := m.word, m.role;
    StackMapped(w0, r0, w1, r1, pgt, size);
    o := PageUnmap(m, pgt, USTACKBOTTOM, 4096);
    ghost var w2, r2 := m.word, m.role;
    NothingMapped(w0, r0, w1, r1, w2, r2, pgt, size);
    NoPagesLeft(w2, r2, pgt);
    FreeTable(m, pgt);
    AllFreed(w0, r0, w1, r1, w2, r2, m.word, m.role, pgt, size);
    forall q | IsRoot(r0, q) && q != pgt ensures SpaceKept(w0, m.word, q) {
      SpaceFrame(w0, r0, m.word, q);
    }
  }

  lemma HeapMapped(w: Words, root: nat, size: nat)
    requires SpaceIs(w, root, size)
    ensures PageAligned(USER_BASE) && Vpn(USER_BASE) == 1 && PageAligned(PageRoundUp(size))
    ensures PageRoundUp(size) / 4096 == Pages(size)
    ensures Pages(size) <= 0x8000000 && AllMapped(w, root, 1, Pages(size))
  {
    Field12(Pages(size), 0);
    assert forall x :: 0 <= x < 0x8000000 && Dist(1, x) < Pages(size) ==> InSpace(size, x);
    hide Pte;
  }

  lemma StackMapped(w0: Words, r0: Roles, w1: Words, r1: Roles, root: nat, size: nat)
    requires IsRoot(r0, root) && SpaceIs(w0, root, size) && Unmapped(w0, r0, w1, r1, root, 1, Pages(size))
    ensures AllMapped(w1, root, STACK_VPN, 1)
  {
    assert forall x :: 0 <= x < 0x8000000 && Dist(STACK_VPN, x) < 1 ==> x == STACK_VPN;
    assert Dist(1, STACK_VPN) == STACK_VPN - 1;
    hide Pte, Dist;
  }

  lemma NothingMapped(w0: Words, r0: Roles, w1: Words, r1: Roles, w2: Words, r2: Roles, root: nat, size: nat)
    requires IsRoot(r0, root) && IsRoot(r1, root) && SpaceIs(w0, root, size)
    requires Unmapped(w0, r0, w1, r1, root, 1, Pages(size)) && Unmapped(w1, r1, w2, r2, root, STACK_VPN, 1)
    ensures forall x :: 0 <= x < 0x8000000 ==> Pte(w2, root, x) == 0
  {
    forall x | 0 <= x < 0x8000000
      ensures InSpace(size, x) ==> Dist(1, x) < Pages(size) || Dist(STACK_VPN, x) < 1
    {
    }
    hide Pte, Dist, InSpace;
  }
}
