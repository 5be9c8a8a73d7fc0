/** The memory of processes over any run of fork, sbrk, exit and wait. */
module ProcMemory {
  import opened PhysMem
  import opened PageTable
  import opened TableUpdate
  import opened AddressSpace
  import opened FreeUserspaces
  import opened UserSpace
  import opened UserMemory
  import opened InitImage
  import opened Bits
  import opened Options

  /** A process owns a kernel stack, and until it exits an address space. */
  datatype Proc =
    | Live(kstack: nat, pgt: nat, size: nat)
    | Zombie(kstack: nat)

  type Procs = map<nat, Proc>

  predicate HasSpace(procs: Procs, pid: nat, pgt: nat) {
    pid in procs && procs[pid].Live? && procs[pid].pgt == pgt
  }

  predicate HasStack(procs: Procs, pid: nat, f: nat) {
    pid in procs && procs[pid].kstack == f
  }

  /** Kernel stacks and roots are in use, and each belongs to one process. */
  ghost predicate Owned(procs: Procs, role: Roles) {
    && (forall p :: p in procs ==> procs[p].kstack in role && role[procs[p].kstack] == Pinned)
    && (forall p :: p in procs && procs[p].Live? ==> IsRoot(role, procs[p].pgt))
    && (forall p, q :: p in procs && q in procs && p != q ==> procs[p].kstack != procs[q].kstack)
    && (forall p, q :: p in procs && q in procs && p != q && procs[p].Live? && procs[q].Live? ==>
      procs[p].pgt != procs[q].pgt)
  }

  /** Nothing leaks: a pinned frame is reserved or a kernel stack, and a root
      table belongs to a live process. */
  ghost predicate NoLeak(procs: Procs, role: Roles, reserved: set<nat>) {
    && (forall f :: f in role && role[f] == Pinned ==> f in reserved || exists p :: HasStack(procs, p, f))
    && (forall f :: IsRoot(role, f) ==> exists p :: HasSpace(procs, p, f))
    && (forall f :: f in reserved ==> f in role && role[f] == Pinned)
    && (forall p :: p in procs ==> procs[p].kstack !in reserved)
  }

  ghost predicate Spaces(procs: Procs, word: Words) {
    forall p :: p in procs && procs[p].Live? ==> SpaceIs(word, procs[p].pgt, procs[p].size)
  }

  /** Every page of a process is one its code can load from and store to. */
  ghost predicate AllAccessible(procs: Procs, word: Words) {
    forall p :: p in procs && procs[p].Live? ==> Accessible(word, procs[p].pgt)
  }

  /** Other processes' pages stay accessible. */
  lemma AccessKept(procs: Procs, r0: Roles, w0: Words, w1: Words, except: nat)
    requires Owned(procs, r0) && AllAccessible(procs, w0) && AllKept(w0, r0, w1, except)
    ensures forall p :: p in procs && procs[p].Live? && procs[p].pgt != except ==> Accessible(w1, procs[p].pgt)
  {
    forall p | p in procs && procs[p].Live? && procs[p].pgt != except ensures Accessible(w1, procs[p].pgt) {
      assert SpaceKept(w0, w1, procs[p].pgt);
      hide Pte, PageOf, UserStores;
    }
  }

  /** A space with the pages of a fork, or with pages added, is accessible. */
  lemma ForkedAccess(w0: Words, r0: Roles, w1: Words, r1: Roles, child: nat, parent: nat, n: nat)
    requires IsRoot(r0, child) && 1 + n <= STACK_VPN && Forked(w0, r0, w1, r1, child, parent, 1, n)
    requires forall x :: 0 <= x < 0x8000000 ==> Pte(w0, child, x) == 0
    ensures Accessible(w1, child)
  {
    hide Pte, PageOf, UserStores, Grew;
  }

  lemma EmptyAccess(w: Words, root: nat)
    requires forall x :: 0 <= x < 0x8000000 ==> Pte(w, root, x) == 0
    ensures Accessible(w, root)
  {
    hide Pte, UserStores;
  }

  /** Byte b of the heap of an address space, as its code loads it. */
  function HeapByte(w: Words, pgt: nat, b: nat): Option<nat> {
    UserByte(w, pgt, USER_BASE + b)
  }

  /** Where byte b of the heap is. */
  lemma HeapPage(size: nat, b: nat)
    requires b < Pages(size) * 4096 && 1 + Pages(size) <= STACK_VPN
    ensures Vpn(USER_BASE + b) == 1 + b / 4096 && Offset(USER_BASE + b) == b % 4096
    ensures InSpace(size, 1 + b / 4096)
  {
    assert (USER_BASE + b) / 4096 == 1 + b / 4096;
  }

  /** Every byte of the heap's pages can be loaded. */
  lemma HeapLoads(w: Words, pgt: nat, size: nat, b: nat)
    requires SpaceIs(w, pgt, size) && Accessible(w, pgt) && b < Pages(size) * 4096
    ensures HeapByte(w, pgt, b) == Some(ByteOf(PageOf(w, pgt, 1 + b / 4096)[b % 4096 / 8], b % 8))
  {
    HeapPage(size, b);
    assert b % 4096 % 8 == b % 8;
    hide Pte, PageOf, ByteOf, Vpn, Offset, InSpace, Pages;
  }

  /** All heap bytes of one space, in one memory, are those of another, and can be loaded. */
  ghost predicate SameHeap(w0: Words, p0: nat, w1: Words, p1: nat, size: nat) {
    forall b: nat :: b < size ==> HeapByte(w1, p1, b) == HeapByte(w0, p0, b) && HeapByte(w1, p1, b).Some?
  }

  /** After a growth from size to size' old bytes are as before, and those of new pages are 0. */
  ghost predicate GrownHeap(w0: Words, w1: Words, pgt: nat, size: nat, size': nat) {
    forall b: nat :: b < size' ==>
      HeapByte(w1, pgt, b) == if b < PageRoundUp(size) then HeapByte(w0, pgt, b) else Some(0)
  }

  /** The first process sees its image and zeros behind it, and may execute it. */
  ghost predicate CodeLoaded(w: Words, pgt: nat, code: seq<Page>, size: nat) {
    size > 0 ==>
      && |code| > 0 && UserRuns(Pte(w, pgt, 1))
      && forall b: nat :: b < 4096 ==>
           HeapByte(w, pgt, b) == Some(if b < size then ByteOf(code[0][b / 8], b % 8) else 0)
  }

  lemma ForkAccess(procs: Procs, parent: nat, child: nat, w0: Words, r0: Roles, w1: Words, r1: Roles,
                   w2: Words, r2: Roles, kstack: nat, pgt: nat)
    requires Owned(procs, r0) && Spaces(procs, w0) && AllAccessible(procs, w0) && AllKept(w0, r0, w2, 0) && 0 !in r0
    requires parent in procs && procs[parent].Live? && child !in procs && IsRoot(r1, pgt)
    requires forall x :: 0 <= x < 0x8000000 ==> Pte(w1, pgt, x) == 0
    requires Forked(w1, r1, w2, r2, pgt, procs[parent].pgt, 1, Pages(procs[parent].size))
    ensures AllAccessible(procs[child := Live(kstack, pgt, procs[parent].size)], w2)
  {
    AccessKept(procs, r0, w0, w2, 0);
    assert SpaceIs(w0, procs[parent].pgt, procs[parent].size);
    hide Forked, AllKept, Accessible;
    ForkedAccess(w1, r1, w2, r2, pgt, procs[parent].pgt, Pages(procs[parent].size));
  }

  lemma HeapsAlike(w0: Words, p0: nat, w1: Words, p1: nat, size: nat)
    requires SpaceIs(w0, p0, size) && Accessible(w0, p0) && SpaceIs(w1, p1, size) && Accessible(w1, p1)
    requires forall x :: 0 <= x < 0x8000000 && InSpace(size, x) ==> PageOf(w1, p1, x) == PageOf(w0, p0, x)
    ensures SameHeap(w0, p0, w1, p1, size)
  {
    forall b: nat | b < size ensures HeapByte(w1, p1, b) == HeapByte(w0, p0, b) && HeapByte(w1, p1, b).Some? {
      HeapPage(size, b);
      HeapLoads(w0, p0, size, b);
      HeapLoads(w1, p1, size, b);
      hide SpaceIs, Accessible, HeapByte, InSpace, PageOf, ByteOf;
    }
  }

  lemma GrownBytes(w0: Words, w1: Words, pgt: nat, size: nat, size': nat)
    requires SpaceIs(w0, pgt, size) && Accessible(w0, pgt) && SpaceIs(w1, pgt, size') && Accessible(w1, pgt)
    requires size <= size'
    requires forall x :: 0 <= x < 0x8000000 && InSpace(size', x) ==>
      PageOf(w1, pgt, x) == if InSpace(size, x) then PageOf(w0, pgt, x) else ZeroPage()
    ensures GrownHeap(w0, w1, pgt, size, size')
  {
    forall b: nat | b < size'
      ensures HeapByte(w1, pgt, b) == if b < PageRoundUp(size) then HeapByte(w0, pgt, b) else Some(0)
    {
      HeapPage(size', b);
      HeapLoads(w1, pgt, size', b);
      ZeroByte(b % 8);
      if b < PageRoundUp(size) {
        HeapPage(size, b);
        HeapLoads(w0, pgt, size, b);
      } else {
        BehindHeap(size, size', b);
      }
      hide SpaceIs, Accessible, HeapByte, InSpace, PageOf, ByteOf, PageRoundUp;
    }
  }

  lemma BehindHeap(size: nat, size': nat, b: nat)
    requires PageRoundUp(size) <= b < size' && 1 + Pages(size') <= STACK_VPN
    ensures !InSpace(size, 1 + b / 4096)
  {
    assert b / 4096 < Pages(size');
  }

  lemma CodeBytes(w: Words, pgt: nat, code: seq<Page>, size: nat)
    requires SpaceIs(w, pgt, size) && Accessible(w, pgt) && size <= 4096 && |code| == Pages(size)
    requires size > 0 ==> PageOf(w, pgt, 1) == ImagePage(code, size) && UserRuns(Pte(w, pgt, 1))
    ensures CodeLoaded(w, pgt, code, size)
  {
    if size > 0 {
      assert Pages(size) == 1;
      forall b: nat | b < 4096
        ensures HeapByte(w, pgt, b) == Some(if b < size then ByteOf(code[0][b / 8], b % 8) else 0) {
        HeapLoads(w, pgt, size, b);
        ImageBytes(code, size, b);
        hide SpaceIs, Accessible, HeapByte, PageOf, ByteOf, ImagePage;
      }
    }
  }

  /** Conservation: every frame is free, reserved, the kernel stack of a process,
      or part of the address space of exactly one live process. */
  lemma EveryFrameAccounted(word: Words, role: Roles, procs: Procs, reserved: set<nat>, f: nat)
    requires Linked(word, role) && Owned(procs, role) && NoLeak(procs, role, reserved) && f in role
    ensures role[f] == Free <==>
      f !in reserved && (forall p :: !HasStack(procs, p, f)) &&
        (forall p, root :: HasSpace(procs, p, root) ==> !(role[f].Node? && role[f].root == root))
    ensures role[f].Node? ==>
      (exists p :: HasSpace(procs, p, role[f].root)) &&
      (forall p, q :: HasSpace(procs, p, role[f].root) && HasSpace(procs, q, role[f].root) ==> p == q)
  {
    if role[f].Node? {
      assert OwnerOk(word, role, f);
      assert IsRoot(role, role[f].root);
      var p :| HasSpace(procs, p, role[f].root);
    }
  }

  /** What fork does to the ledger. */
  ghost predicate ForkLedger(r0: Roles, r1: Roles, pgt: nat, kstack: nat) {
    && r1.Keys == r0.Keys && pgt in r0 && r0[pgt] == Free && kstack in r0 && r0[kstack] == Free
    && r1[kstack] == Pinned
    && forall f :: f in r0 && f != kstack ==>
      r1[f] == r0[f] || (r0[f] == Free && r1[f].Node? && r1[f].root == pgt)
  }

  lemma NewRoot(w: Words, r: Roles, pgt: nat)
    requires Linked(w, r) && pgt in r && r[pgt] == Pinned && w[pgt] == ZeroPage()
    ensures Linked(w, r[pgt := Node(pgt, 1, 0, 0, 0)])
    ensures forall x :: 0 <= x < 0x8000000 ==> Pte(w, pgt, x) == 0
    ensures forall q :: IsRoot(r, q) ==> q != pgt
  {
    var r' := r[pgt := Node(pgt, 1, 0, 0, 0)];
    forall f | f in r' && r'[f].Node? ensures 1 <= r'[f].level && OwnerOk(w, r', f) {
      if f != pgt {
        assert OwnerOk(w, r, f);
      }
    }
    forall t, i | IsTable(r', t) && 0 <= i < 512 ensures SlotOk(w, r', t, i) {
      if t != pgt {
        assert SlotOk(w, r, t, i);
      }
    }
    forall x | 0 <= x < 0x8000000 ensures Pte(w, pgt, x) == 0 {
      PathPrefix(x);
      NullPath(w, pgt, x);
      assert Table2(w, pgt, x) == 0;
    }
  }

  /** Every address space that exists before still reads the same. */
  ghost predicate AllKept(w0: Words, r0: Roles, w1: Words, except: nat) {
    forall q :: IsRoot(r0, q) && q != except ==> SpaceKept(w0, w1, q)
  }

  /** Rewriting a frame that was free leaves every address space alone. */
  lemma FreshFrameKept(w: Words, r: Roles, c: nat, content: seq<nat>)
    requires Linked(w, r) && c in r && r[c] == Free
    ensures AllKept(w, r, w[c := content], 0)
  {
    forall q | IsRoot(r, q) && q != 0 ensures SpaceKept(w, w[c := content], q) {
      SpaceFrame(w, r, w[c := content], q);
    }
  }

  lemma KeptTransitive(w0: Words, r0: Roles, w1: Words, r1: Roles, w2: Words, a: nat)
    requires AllKept(w0, r0, w1, 0) && AllKept(w1, r1, w2, a)
    requires 0 !in r0 && forall q :: IsRoot(r0, q) ==> IsRoot(r1, q)
    ensures AllKept(w0, r0, w2, a)
  {
    forall q | IsRoot(r0, q) && q != a ensures SpaceKept(w0, w2, q) {
      assert q != 0 && SpaceKept(w0, w1, q) && SpaceKept(w1, w2, q);
      hide Pte, PageOf;
    }
  }

  /** newproc: a kernel stack and an empty root table. */
  method NewProc(m: Memory) returns (ok: bool, kstack: nat, pgt: nat)
    requires Ready(m) && !m.held
    modifies m
    ensures Ready(m)
    ensures !ok ==> m.free == []
    ensures m.held <==> !ok
    ensures ok ==>
      && kstack != pgt && kstack in old(m.role) && pgt in old(m.role)
      && old(m.role)[kstack] == Free && old(m.role)[pgt] == Free
      && m.role == old(m.role)[kstack := Pinned][pgt := Node(pgt, 1, 0, 0, 0)]
      && AllKept(old(m.word), old(m.role), m.word, 0)
      && (forall x :: 0 <= x < 0x8000000 ==> Pte(m.word, pgt, x) == 0)
  {
    hide AllKept, LinkedUp, LinkedDown, Pte, SamePtes, ZeroPage, AllocOk;
    ghost var w0, r0 := m.word, m.role;
    kstack := Take(m);
    if kstack == 0 {
      return false, 0, 0;
    }
    ghost var w1, r1 := m.word, m.role;
    FreshFrameKept(w0, r0, kstack, ZeroPage());
    pgt := Take(m);
    if pgt == 0 {
      return false, 0, 0;
    }
    FreshFrameKept(w1, r1, pgt, ZeroPage());
    KeptTransitive(w0, r0, w1, r1, m.word, 0);
    NewRoot(m.word, m.role, pgt);
    ghost var r2 := m.role;
    m.role := m.role[pgt := Node(pgt, 1, 0, 0, 0)];
    AllocUse(m.word, r2, m.freelist, m.free, pgt, m.role[pgt]);
    ok := true;
  }

  /** The frames taken by a new process are entered under its name. */
  lemma AddProc(procs: Procs, r0: Roles, r1: Roles, reserved: set<nat>, pid: nat, kstack: nat, pgt: nat, size: nat)
    requires Owned(procs, r0) && NoLeak(procs, r0, reserved) && pid !in procs
    requires ForkLedger(r0, r1, pgt, kstack) && IsRoot(r1, pgt)
    ensures Owned(procs[pid := Live(kstack, pgt, size)], r1)
    ensures NoLeak(procs[pid := Live(kstack, pgt, size)], r1, reserved)
  {
    var procs' := procs[pid := Live(kstack, pgt, size)];
    forall f | f in r1 && r1[f] == Pinned ensures f in reserved || exists p :: HasStack(procs', p, f) {
      if f == kstack {
        assert HasStack(procs', pid, f);
      } else if f !in reserved {
        var p :| HasStack(procs, p, f);
        assert HasStack(procs', p, f);
      }
    }
    forall f | IsRoot(r1, f) ensures exists p :: HasSpace(procs', p, f) {
      if f == pgt {
        assert HasSpace(procs', pid, f);
      } else {
        assert IsRoot(r0, f);
        var p :| HasSpace(procs, p, f);
        assert HasSpace(procs', p, f);
      }
    }
  }

  /** Other processes' spaces survive work on one address space. */
  lemma SpacesKept(procs: Procs, r0: Roles, w0: Words, w1: Words, except: nat)
    requires Owned(procs, r0) && Spaces(procs, w0) && AllKept(w0, r0, w1, except)
    ensures forall p :: p in procs && procs[p].Live? && procs[p].pgt != except ==>
      SpaceIs(w1, procs[p].pgt, procs[p].size)
  {
    forall p | p in procs && procs[p].Live? && procs[p].pgt != except
      ensures SpaceIs(w1, procs[p].pgt, procs[p].size)
    {
      assert SpaceKept(w0, w1, procs[p].pgt);
      hide Pte, PageOf, InSpace;
    }
  }

  lemma ForkedKept(w0: Words, r0: Roles, w1: Words, r1: Roles, child: nat, parent: nat, n: nat)
    requires Linked(w0, r0) && Sized(w1, r1) && Forked(w0, r0, w1, r1, child, parent, 1, n)
    ensures AllKept(w0, r0, w1, child)
  {
    forall q | IsRoot(r0, q) && q != child ensures SpaceKept(w0, w1, q) {
      forall x | 0 <= x < 0x8000000
        ensures Pte(w1, q, x) == Pte(w0, q, x) && PageOf(w1, q, x) == PageOf(w0, q, x)
      {
        hide Pte, PageOf, Grew, LinkedUp, LinkedDown;
        PageKept(w0, r0, w1, r1, child, q, x);
      }
    }
  }

  lemma ForkedSpace(w0: Words, r0: Roles, w1: Words, r1: Roles, child: nat, parent: nat, size: nat)
    requires IsRoot(r0, child) && 1 + Pages(size) <= STACK_VPN
    requires forall x :: 0 <= x < 0x8000000 ==> Pte(w0, child, x) == 0
    requires Forked(w0, r0, w1, r1, child, parent, 1, Pages(size))
    ensures SpaceIs(w1, child, size)
    ensures forall x :: 0 <= x < 0x8000000 && InSpace(size, x) ==> PageOf(w1, child, x) == PageOf(w0, parent, x)
  {
    hide Pte, PageOf, Grew;
  }

  lemma ForkLedgerSpec(r0: Roles, r1: Roles, w1: Words, r2: Roles, w2: Words, kstack: nat, pgt: nat)
    requires kstack != pgt && kstack in r0 && pgt in r0 && r0[kstack] == Free && r0[pgt] == Free
    requires r1 == r0[kstack := Pinned][pgt := Node(pgt, 1, 0, 0, 0)]
    requires Grew(w1, r1, w2, r2, pgt, {})
    ensures ForkLedger(r0, r2, pgt, kstack) && IsRoot(r2, pgt)
  {
  }

  ghost predicate Books(m: Memory, procs: Procs, reserved: set<nat>)
    reads m
  {
    Ready(m) && !m.held && Owned(procs, m.role) && NoLeak(procs, m.role, reserved) && Spaces(procs, m.word)
    && AllAccessible(procs, m.word)
  }

  /** Everything a successful fork promises, from before newproc to its end. */
  lemma ForkSpec(procs: Procs, reserved: set<nat>, parent: nat, child: nat,
                 w0: Words, r0: Roles, w1: Words, r1: Roles, w2: Words, r2: Roles, kstack: nat, pgt: nat)
    requires Linked(w0, r0) && Linked(w1, r1) && Sized(w2, r2)
    requires Owned(procs, r0) && NoLeak(procs, r0, reserved) && Spaces(procs, w0)
    requires parent in procs && procs[parent].Live? && child !in procs
    requires kstack != pgt && kstack in r0 && pgt in r0 && r0[kstack] == Free && r0[pgt] == Free
    requires r1 == r0[kstack := Pinned][pgt := Node(pgt, 1, 0, 0, 0)]
    requires AllKept(w0, r0, w1, 0) && forall x :: 0 <= x < 0x8000000 ==> Pte(w1, pgt, x) == 0
    requires Forked(w1, r1, w2, r2, pgt, procs[parent].pgt, 1, Pages(procs[parent].size))
    ensures var procs' := procs[child := Live(kstack, pgt, procs[parent].size)];
      && Owned(procs', r2) && NoLeak(procs', r2, reserved) && Spaces(procs', w2)
      && ForkLedger(r0, r2, pgt, kstack) && AllKept(w0, r0, w2, 0)
      && (forall x :: 0 <= x < 0x8000000 && InSpace(procs[parent].size, x) ==>
        PageOf(w2, pgt, x) == PageOf(w0, procs[parent].pgt, x))
  {
    var size, ppgt := procs[parent].size, procs[parent].pgt;
    assert SpaceIs(w0, ppgt, size) && IsRoot(r0, ppgt);
    assert SpaceKept(w0, w1, ppgt);
    ForkLedgerSpec(r0, r1, w1, r2, w2, kstack, pgt);
    ForkedKept(w1, r1, w2, r2, pgt, ppgt, Pages(size));
    ForkedSpace(w1, r1, w2, r2, pgt, ppgt, size);
    AddProc(procs, r0, r2, reserved, child, kstack, pgt, size);
    hide Forked, LinkedUp, LinkedDown, Pte, PageOf, InSpace, NoLeak, ForkLedger, Pages;
    KeptBeyondNew(w0, r0, w1, r1, w2, pgt);
    SpacesKept(procs, r0, w0, w2, 0);
  }

  lemma KeptBeyondNew(w0: Words, r0: Roles, w1: Words, r1: Roles, w2: Words, pgt: nat)
    requires 0 !in r0 && pgt in r0 && r0[pgt] == Free
    requires forall q :: IsRoot(r0, q) ==> IsRoot(r1, q)
    requires AllKept(w0, r0, w1, 0) && AllKept(w1, r1, w2, pgt)
    ensures AllKept(w0, r0, w2, 0)
  {
    KeptTransitive(w0, r0, w1, r1, w2, pgt);
  }

  // ---- sbrk

  lemma BreakVpn(size: nat)
    requires 1 + Pages(size) <= STACK_VPN
    ensures Vpn(USER_BASE + PageRoundUp(size)) == 1 + Pages(size)
  {
    Field12(1 + Pages(size), 0);
    assert USER_BASE + PageRoundUp(size) == (1 + Pages(size)) * 4096;
  }

  /** Pages added above the old break make up exactly the larger heap. */
  lemma GrownSpace(w0: Words, r0: Roles, w1: Words, r1: Roles, pgt: nat, size: nat, size': nat, attr: nat)
    requires IsRoot(r0, pgt) && SpaceIs(w0, pgt, size) && size <= size'
    requires Populated(w0, r0, w1, r1, pgt, 1 + Pages(size), ZeroPages(PagesBetween(size, size')), attr)
    ensures SpaceIs(w1, pgt, size')
    ensures forall x :: 0 <= x < 0x8000000 && InSpace(size', x) && !InSpace(size, x) ==>
      PageOf(w1, pgt, x) == ZeroPage()
  {
    var v, n := 1 + Pages(size), PagesBetween(size, size');
    PagesMonotone(size, size');
    assert InSpace(size, STACK_VPN);
    assert Pte(w0, pgt, STACK_VPN) != 0;
    assert v + n <= STACK_VPN;
    forall x | 0 <= x < 0x8000000 ensures InSpace(size', x) <==> InSpace(size, x) || Dist(v, x) < n {
      DistIn(v, n, x);
    }
    assert forall x :: 0 <= x < 0x8000000 && Dist(v, x) < n ==> Pte(w0, pgt, x) == 0;
    hide Dist, InSpace, PageOf, Pages, PagesBetween;
    forall x | 0 <= x < 0x8000000
      ensures Pte(w1, pgt, x) != 0 <==> InSpace(size', x)
      ensures InSpace(size', x) && !InSpace(size, x) ==> PageOf(w1, pgt, x) == ZeroPage()
    {
      FilledAt(w0, r0, w1, r1, pgt, v, ZeroPages(n), attr, pgt, x);
    }
  }

  /** Below the stack page there is room. */
  lemma RoomToGrow(w: Words, pgt: nat, size: nat, size': nat)
    requires SpaceIs(w, pgt, size) && size <= size'
    ensures Occupied(w, pgt, USER_BASE + PageRoundUp(size), PagesBetween(size, size')) ==> 1 + Pages(size') > STACK_VPN
  {
    var v, n := 1 + Pages(size), PagesBetween(size, size');
    BreakVpn(size);
    PagesMonotone(size, size');
    BreakAligned(size);
    if v + n <= STACK_VPN {
      forall x | 0 <= x < 0x8000000 && Dist(v, x) < n ensures Pte(w, pgt, x) == 0 {
        DistIn(v, n, x);
        assert !InSpace(size, x);
      }
    }
    hide Pte, Dist, Pages, PagesBetween, PageRoundUp, Vpn, PageAligned;
  }

  lemma BreakAligned(size: nat)
    ensures PageAligned(USER_BASE + PageRoundUp(size))
  {
    Field12(1 + Pages(size), 0);
    assert USER_BASE + PageRoundUp(size) == (1 + Pages(size)) * 4096;
  }

  lemma PagesMonotone(a: nat, b: nat)
    requires a <= b
    ensures Pages(a) + PagesBetween(a, b) == Pages(b)
  {
  }

  /** Growth keeps the pages that were there, in this and every other space. */
  lemma GrownKept(w0: Words, r0: Roles, w1: Words, r1: Roles, pgt: nat, v: nat, cs: seq<Page>, attr: nat)
    requires Linked(w0, r0) && Sized(w1, r1) && IsRoot(r0, pgt) && v < 0x8000000
    requires Populated(w0, r0, w1, r1, pgt, v, cs, attr)
    ensures AllKept(w0, r0, w1, pgt)
    ensures forall x :: 0 <= x < 0x8000000 && Pte(w0, pgt, x) != 0 ==> PageOf(w1, pgt, x) == PageOf(w0, pgt, x)
  {
    forall q | IsRoot(r0, q) && q != pgt ensures SpaceKept(w0, w1, q) {
      OthersIntact(w0, r0, w1, r1, pgt, v, cs, attr, q);
    }
    forall x | 0 <= x < 0x8000000 && Pte(w0, pgt, x) != 0 ensures PageOf(w1, pgt, x) == PageOf(w0, pgt, x) {
      WalkRoles(w0, r0, pgt, x);
      GrewKeeps(w0, r0, w1, r1, pgt, PtePa(Pte(w0, pgt, x)));
      assert Dist(v, x) >= |cs|;
      FilledAt(w0, r0, w1, r1, pgt, v, cs, attr, pgt, x);
      hide Pte, PtePa, LinkedUp, LinkedDown, Dist, Filled, Grew, EmptyRange;
    }
  }

  /** A ledger in which only this address space grew has the same books. */
  lemma GrownBooks(procs: Procs, r0: Roles, w0: Words, r1: Roles, w1: Words, reserved: set<nat>, pid: nat, size: nat)
    requires Owned(procs, r0) && NoLeak(procs, r0, reserved) && pid in procs && procs[pid].Live?
    requires Grew(w0, r0, w1, r1, procs[pid].pgt, {})
    ensures Owned(procs[pid := procs[pid].(size := size)], r1)
    ensures NoLeak(procs[pid := procs[pid].(size := size)], r1, reserved)
  {
    RolesKept(r0, w0, r1, w1, procs[pid].pgt);
    hide Grew, IsRoot;
    GrownOwned(procs, r0, r1, pid, size);
    hide Owned;
    var procs' := procs[pid := procs[pid].(size := size)];
    forall f | f in r1 && r1[f] == Pinned ensures f in reserved || exists p :: HasStack(procs', p, f) {
      if f !in reserved {
        var p :| HasStack(procs, p, f);
        assert HasStack(procs', p, f);
      }
    }
    forall f | IsRoot(r1, f) ensures exists p :: HasSpace(procs', p, f) {
      assert IsRoot(r0, f);
      var p :| HasSpace(procs, p, f);
      assert HasSpace(procs', p, f);
    }
  }

  lemma RolesKept(r0: Roles, w0: Words, r1: Roles, w1: Words, pgt: nat)
    requires Grew(w0, r0, w1, r1, pgt, {})
    ensures r1.Keys == r0.Keys
    ensures forall f :: f in r0 ==> (r1[f] == Pinned <==> r0[f] == Pinned)
    ensures forall f :: IsRoot(r1, f) <==> IsRoot(r0, f)
  {
  }

  lemma GrownOwned(procs: Procs, r0: Roles, r1: Roles, pid: nat, size: nat)
    requires Owned(procs, r0) && pid in procs && procs[pid].Live? && r1.Keys == r0.Keys
    requires forall f :: f in r0 ==> (r1[f] == Pinned <==> r0[f] == Pinned)
    requires forall f :: IsRoot(r1, f) <==> IsRoot(r0, f)
    ensures Owned(procs[pid := procs[pid].(size := size)], r1)
  {
    hide IsRoot;
  }

  lemma ResizedSpaces(procs: Procs, r0: Roles, w0: Words, w1: Words, pid: nat, size: nat)
    requires Owned(procs, r0) && Spaces(procs, w0) && pid in procs && procs[pid].Live?
    requires AllKept(w0, r0, w1, procs[pid].pgt) && SpaceIs(w1, procs[pid].pgt, size)
    ensures Spaces(procs[pid := procs[pid].(size := size)], w1)
  {
    SpacesKept(procs, r0, w0, w1, procs[pid].pgt);
    hide SpaceIs, AllKept;
  }

  /** A smaller size with nothing unmapped describes the space exactly when the
      page count is unchanged: sbrk with a negative argument breaks the books
      as soon as it gives up a page. */
  lemma ShrinkExact(w: Words, pgt: nat, size: nat, size': nat)
    requires SpaceIs(w, pgt, size) && size' <= size
    ensures SpaceIs(w, pgt, size') <==> Pages(size') == Pages(size)
  {
    if Pages(size') != Pages(size) {
      assert InSpace(size, Pages(size)) && !InSpace(size', Pages(size));
    }
    hide Pte, Pages;
  }

  lemma SbrkAccess(procs: Procs, pid: nat, w0: Words, r0: Roles, w1: Words, r1: Roles, size': nat)
    requires Owned(procs, r0) && AllAccessible(procs, w0) && pid in procs && procs[pid].Live?
    requires AllKept(w0, r0, w1, procs[pid].pgt) && 1 + Pages(procs[pid].size) <= STACK_VPN
    requires Populated(w0, r0, w1, r1, procs[pid].pgt, 1 + Pages(procs[pid].size),
      ZeroPages(PagesBetween(procs[pid].size, size')), NORMAL_U_XN)
    ensures AllAccessible(procs[pid := procs[pid].(size := size')], w1)
  {
    AccessKept(procs, r0, w0, w1, procs[pid].pgt);
    assert Accessible(w0, procs[pid].pgt);
    hide Populated, AllKept, Accessible, Pages;
    PopulatedAccessible(w0, r0, w1, r1, procs[pid].pgt, 1 + Pages(procs[pid].size),
      ZeroPages(PagesBetween(procs[pid].size, size')), NORMAL_U_XN);
  }

  lemma ResizedAccess(procs: Procs, w: Words, pid: nat, size: nat)
    requires AllAccessible(procs, w) && pid in procs && procs[pid].Live?
    ensures AllAccessible(procs[pid := procs[pid].(size := size)], w)
  {
    hide Accessible;
  }

  lemma LeftAccess(procs: Procs, r0: Roles, w0: Words, w1: Words, pid: nat, except: nat)
    requires Owned(procs, r0) && AllAccessible(procs, w0) && AllKept(w0, r0, w1, except) && pid in procs
    requires if procs[pid].Live? then procs[pid].pgt == except else except == 0 && 0 !in r0
    ensures AllAccessible(procs[pid := Zombie(procs[pid].kstack)], w1) && AllAccessible(procs - {pid}, w1)
  {
    AccessKept(procs, r0, w0, w1, except);
    hide Accessible, AllKept;
  }

  lemma InitAccess(procs: Procs, pid: nat, w0: Words, r0: Roles, w1: Words, r1: Roles, w2: Words, r2: Roles,
                   w3: Words, r3: Roles, kstack: nat, pgt: nat, size: nat, cs: seq<Page>)
    requires Owned(procs, r0) && AllAccessible(procs, w0) && AllKept(w0, r0, w3, 0) && 0 !in r0 && pid !in procs
    requires IsRoot(r1, pgt) && IsRoot(r2, pgt) && forall x :: 0 <= x < 0x8000000 ==> Pte(w1, pgt, x) == 0
    requires 1 + |cs| <= STACK_VPN && Populated(w1, r1, w2, r2, pgt, 1, cs, NORMAL_U)
    requires Populated(w2, r2, w3, r3, pgt, STACK_VPN, ZeroPages(1), NORMAL_U_XN)
    ensures AllAccessible(procs[pid := Live(kstack, pgt, size)], w3)
    ensures |cs| > 0 ==> UserRuns(Pte(w3, pgt, 1))
  {
    AccessKept(procs, r0, w0, w3, 0);
    EmptyAccess(w1, pgt);
    hide Populated, AllKept, Accessible, UserRuns, Pte;
    PopulatedAccessible(w1, r1, w2, r2, pgt, 1, cs, NORMAL_U);
    PopulatedAccessible(w2, r2, w3, r3, pgt, STACK_VPN, ZeroPages(1), NORMAL_U_XN);
    DistIn(1, |cs|, 1);
    DistIn(STACK_VPN, 1, 1);
    FilledAt(w1, r1, w2, r2, pgt, 1, cs, NORMAL_U, pgt, 1);
    FilledAt(w2, r2, w3, r3, pgt, STACK_VPN, ZeroPages(1), NORMAL_U_XN, pgt, 1);
  }

  lemma SpaceOf(procs: Procs, w: Words, pid: nat)
    requires Spaces(procs, w) && AllAccessible(procs, w) && pid in procs && procs[pid].Live?
    ensures SpaceIs(w, procs[pid].pgt, procs[pid].size) && Accessible(w, procs[pid].pgt)
  {
  }

  class ProcTable {
    const m: Memory
    var procs: Procs
    ghost const reserved: set<nat>

    ghost predicate Valid()
      reads this, m
    {
      Books(m, procs, reserved)
    }

    /** Boot: no process yet; frames that are not free are the kernel's own. */
    constructor (m: Memory)
      requires m.Valid() && !m.held && forall f :: f in m.role ==> m.role[f] == Free || m.role[f] == Pinned
      ensures Valid() && this.m == m && procs == map[]
    {
      this.m := m;
      procs := map[];
      reserved := set f | f in m.role && m.role[f] == Pinned;
    }

    /** fork: the child gets a copy of every page of its parent; everybody,
        parent included, keeps what it had. */
    method Fork(parent: nat, child: nat) returns (o: Outcome)
      requires Valid() && parent in procs && procs[parent].Live? && child !in procs
      modifies this, m
      ensures o == NoMemory ==> m.free == []
      ensures m.held <==> o == NoMemory
      ensures o != Panicked
      ensures o == Done ==>
        && Valid() && child in procs && procs[child].Live?
        && procs == old(procs)[child := procs[child]] && procs[child].size == procs[parent].size
        && ForkLedger(old(m.role), m.role, procs[child].pgt, procs[child].kstack)
        && AllKept(old(m.word), old(m.role), m.word, 0)
        && (forall x :: 0 <= x < 0x8000000 && InSpace(procs[parent].size, x) ==>
          PageOf(m.word, procs[child].pgt, x) == PageOf(old(m.word), procs[parent].pgt, x))
        && SameHeap(old(m.word), procs[parent].pgt, m.word, procs[child].pgt, procs[parent].size)
    {
      hide AllocOk, LinkedUp, LinkedDown, AllKept, SpaceKept, Spaces, Owned, NoLeak, Forked, Pte, PageOf, ForkLedger;
      hide AllAccessible, SameHeap, InSpace;
      ghost var w0, r0 := m.word, m.role;
      var ok, kstack, pgt := NewProc(m);
      if !ok {
        return NoMemory;
      }
      ghost var w1, r1 := m.word, m.role;
      ParentReady(procs, parent, w0, r0, w1, r1, kstack, pgt);
      o := CpUserspace(m, pgt, procs[parent].pgt, USER_BASE, procs[parent].size);
      if o == Done {
        ForkSpec(procs, reserved, parent, child, w0, r0, w1, r1, m.word, m.role, kstack, pgt);
        ForkAccess(procs, parent, child, w0, r0, w1, r1, m.word, m.role, kstack, pgt);
        ghost var procs' := procs[child := Live(kstack, pgt, procs[parent].size)];
        SpaceOf(procs, w0, parent);
        SpaceOf(procs', m.word, child);
        HeapsAlike(w0, procs[parent].pgt, m.word, pgt, procs[parent].size);
        procs := procs[child := Live(kstack, pgt, procs[parent].size)];
      }
    }

    /** sbrk: a positive increment maps zeroed pages up to the new break, and a
        non-positive one only changes the recorded size. */
    method Sbrk(pid: nat, incr: int) returns (o: Outcome, h: nat)
      requires Valid() && pid in procs && procs[pid].Live? && procs[pid].size + incr >= 0
      modifies this, m
      ensures o == NoMemory ==> m.free == []
      ensures m.held <==> o == NoMemory
      ensures o == Panicked ==> 1 + Pages(old(procs)[pid].size + incr) > STACK_VPN
      ensures o == Done ==>
        procs == old(procs)[pid := old(procs)[pid].(size := old(procs)[pid].size + incr)]
      ensures incr > 0 && o == Done ==>
        && Valid() && h == USER_BASE + old(procs)[pid].size
        && AllKept(old(m.word), old(m.role), m.word, procs[pid].pgt)
        && Grew(old(m.word), old(m.role), m.word, m.role, procs[pid].pgt, {})
        && (forall x :: 0 <= x < 0x8000000 && InSpace(procs[pid].size, x) ==>
          PageOf(m.word, procs[pid].pgt, x) ==
            if InSpace(old(procs)[pid].size, x) then PageOf(old(m.word), procs[pid].pgt, x) else ZeroPage())
        && GrownHeap(old(m.word), m.word, procs[pid].pgt, old(procs)[pid].size, procs[pid].size)
      ensures incr <= 0 ==>
        && o == Done && h == 0 && m.role == old(m.role) && m.word == old(m.word)
        && (Valid() <==> Pages(procs[pid].size) == Pages(old(procs)[pid].size))
    {
      hide AllocOk, LinkedUp, LinkedDown, AllKept, SpaceKept, Owned, NoLeak, Pte;
      hide PageOf, Populated, Grew, InSpace, Pages, PageRoundUp, PagesBetween, Vpn;
      hide AllAccessible, GrownHeap, Accessible;
      ghost var w0, r0, ps := m.word, m.role, procs;
      var pgt, size := procs[pid].pgt, procs[pid].size;
      OwnRoot(procs, r0, w0, pid);
      ghost var size' := size + incr;
      if incr > 0 {
        BreakVpn(size);
        o, h := GrowUserspace(m, pgt, USER_BASE, size, size + incr);
        if o != Done {
          RoomToGrow(w0, pgt, size, size');
          return o, 0;
        }
        SbrkSpec(ps, reserved, pid, w0, r0, m.word, m.role, size', NORMAL_U_XN);
        SbrkAccess(ps, pid, w0, r0, m.word, m.role, size');
        ghost var procs' := ps[pid := ps[pid].(size := size')];
        SpaceOf(ps, w0, pid);
        SpaceOf(procs', m.word, pid);
        GrownBytes(w0, m.word, pgt, size, size');
      } else {
        o, h := Done, 0;
        ShrinkBooks(ps, reserved, pid, w0, r0, size');
        ResizedAccess(ps, w0, pid, size');
      }
      procs := procs[pid := procs[pid].(size := size + incr)];
    }

    /** exit: the whole address space goes back; the kernel stack stays until
        the parent has waited. */
    method Exit(pid: nat)
      requires Valid() && pid in procs && procs[pid].Live?
      modifies this, m
      ensures Valid()
      ensures procs == old(procs)[pid := Zombie(old(procs)[pid].kstack)]
      ensures SpaceFreed(old(m.role), m.role, old(procs)[pid].pgt)
      ensures AllKept(old(m.word), old(m.role), m.word, old(procs)[pid].pgt)
    {
      hide AllocOk, LinkedUp, LinkedDown, SpaceKept, Owned, NoLeak, SpaceFreed, Pte, SpaceIs, AllAccessible;
      ghost var w0, r0, ps := m.word, m.role, procs;
      OwnRoot(ps, r0, m.word, pid);
      var o := FreeUserspace(m, procs[pid].pgt, procs[pid].size);
      ExitBooks(ps, reserved, pid, w0, r0, m.word, m.role);
      LeftAccess(ps, r0, w0, m.word, pid, ps[pid].pgt);
      procs := procs[pid := Zombie(procs[pid].kstack)];
    }

    /** freeproc, called by wait on a zombie: the kernel stack goes back. */
    method Reap(pid: nat)
      requires Valid() && pid in procs && procs[pid].Zombie?
      modifies this, m
      ensures Valid()
      ensures procs == old(procs) - {pid}
      ensures m.role == old(m.role)[old(procs)[pid].kstack := Free]
      ensures AllKept(old(m.word), old(m.role), m.word, 0)
    {
      hide AllocOk, LinkedUp, LinkedDown, SpaceKept, Pte, ZeroPage, AllAccessible, AllKept, Owned, NoLeak, Spaces;
      ghost var w0, r0, h := m.word, m.role, m.freelist;
      var kstack := procs[pid].kstack;
      ReapBooks(procs, reserved, pid, w0, r0, ZeroPage()[0 := h]);
      LeftAccess(procs, r0, w0, w0[kstack := ZeroPage()[0 := h]], pid, 0);
      m.KFree(kstack);
      procs := procs - {pid};
    }

    /** userproc_init: the first process, its code page and its stack.  An image of more
        than one page runs over the frames behind the first; what comes after that is
        not followed. */
    method UserprocInit(pid: nat, code: seq<Page>, size: nat)
      returns (o: Boot, ghost before: Words, ghost page: nat)
      requires Valid() && pid !in procs && |code| == Pages(size)
      modifies this, m
      ensures o == NoRoom ==> m.free == []
      ensures m.held <==> o == NoRoom
      ensures o == Overran ==>
        && size > 4096 && page in old(m.role) && old(m.role)[page] == Free && page in before
        && AllKept(old(m.word), old(m.role), before, 0) && m.word == CopyOut(before, page, code, size)
      ensures o == Booted ==>
        && size <= 4096 && Valid() && pid in procs && procs[pid].Live? && procs[pid].size == size
        && procs == old(procs)[pid := procs[pid]]
        && ForkLedger(old(m.role), m.role, procs[pid].pgt, procs[pid].kstack)
        && AllKept(old(m.word), old(m.role), m.word, 0)
        && CodeLoaded(m.word, procs[pid].pgt, code, size)
        && PageOf(m.word, procs[pid].pgt, STACK_VPN) == ZeroPage()
    {
      hide AllocOk, LinkedUp, LinkedDown, AllKept, SpaceKept, Spaces, Owned, NoLeak;
      hide Populated, Filled, EmptyRange, Grew, Pte, PageOf, ForkLedger, SpaceIs, ImagePage, Pages;
      hide AllAccessible, CodeLoaded, Accessible, UserRuns;
      before, page := m.word, 0;
      ghost var w0, r0 := m.word, m.role;
      var ok, kstack, pgt := NewProc(m);
      if !ok {
        return NoRoom, before, page;
      }
      ghost var w1, r1 := m.word, m.role;
      if size > 4096 {
        o, before, page := CopyPast(m, code, size);
        KeptTransitive(w0, r0, w1, r1, before, 0);
        return;
      }
      var loaded := LoadCode(m, pgt, code, size);
      if loaded != Done {
        return NoRoom, before, page;
      }
      ghost var w2, r2 := m.word, m.role;
      ghost var cs := ImagePages(code, size);
      CodeBelow(size);
      var mapped := MapUstack(m, pgt);
      if mapped != Done {
        return NoRoom, before, page;
      }
      InitSpec(procs, reserved, pid, w0, r0, w1, r1, w2, r2, m.word, m.role, kstack, pgt, size, cs);
      assert size > 0 ==> PageOf(m.word, pgt, 1 + 0) == cs[0];
      InitAccess(procs, pid, w0, r0, w1, r1, w2, r2, m.word, m.role, kstack, pgt, size, cs);
      SpaceOf(procs[pid := Live(kstack, pgt, size)], m.word, pid);
      CodeBytes(m.word, pgt, code, size);
      procs := procs[pid := Live(kstack, pgt, size)];
      o := Booted;
    }
  }

  datatype Boot = Booted | NoRoom | Overran

  /** The pages of an image that fits in one. */
  function ImagePages(code: seq<Page>, size: nat): seq<Page> {
    if size == 0 then [] else [ImagePage(code, size)]
  }

  lemma CodeBelow(size: nat)
    requires size <= 4096
    ensures Pages(size) == (if size == 0 then 0 else 1) && 1 + Pages(size) <= STACK_VPN
  {
  }

  /** The page for an image that does not fit, and the copy that runs over it. */
  method CopyPast(m: Memory, code: seq<Page>, size: nat) returns (o: Boot, ghost before: Words, ghost page: nat)
    requires Ready(m) && !m.held && size > 4096
    modifies m
    ensures o == NoRoom || o == Overran
    ensures o == NoRoom ==> m.free == []
    ensures m.held <==> o == NoRoom
    ensures AllKept(old(m.word), old(m.role), before, 0)
    ensures o == Overran ==>
      && page in old(m.role) && old(m.role)[page] == Free && page in before
      && m.word == CopyOut(before, page, code, size)
  {
    hide AllocOk, LinkedUp, LinkedDown, AllKept, CopyOut;
    ghost var w0, r0 := m.word, m.role;
    var upage := Take(m);
    before, page := m.word, upage;
    if upage == 0 {
      NothingKept(w0, r0);
      return NoRoom, before, page;
    }
    FreshFrameKept(w0, r0, upage, ZeroPage());
    m.word := CopyOut(m.word, upage, code, size);
    o := Overran;
  }

  lemma NothingKept(w: Words, r: Roles)
    ensures AllKept(w, r, w, 0)
  {
  }

  /** init_userspace for an image of at most one page. */
  method LoadCode(m: Memory, pgt: nat, code: seq<Page>, size: nat) returns (o: Outcome)
    requires Ready(m) && !m.held && IsRoot(m.role, pgt) && size <= 4096 && |code| == Pages(size)
    requires forall x :: 0 <= x < 0x8000000 ==> Pte(m.word, pgt, x) == 0
    modifies m
    ensures Ready(m) && IsRoot(m.role, pgt) && o != Panicked
    ensures o == NoMemory ==> m.free == []
    ensures m.held <==> o == NoMemory
    ensures o == Done ==>
      && Populated(old(m.word), old(m.role), m.word, m.role, pgt, 1, ImagePages(code, size), NORMAL_U)
      && Pte(m.word, pgt, STACK_VPN) == 0
  {
    hide AllocOk, LinkedUp, LinkedDown, Populated, Filled, EmptyRange, Grew, Pte, PageOf, ImagePage;
    ghost var w1, r1 := m.word, m.role;
    if size == 0 {
      PopulatedNone(w1, r1, pgt, 1, NORMAL_U);
      return Done;
    }
    FirstPage(size);
    hide Pages, Vpn;
    var content := ImagePage(code, size);
    o := FillPage(m, pgt, USER_BASE, content, NORMAL_U);
    if o == Done {
      FilledOne(w1, r1, m.word, m.role, pgt, 1, content, NORMAL_U);
      FilledAt(w1, r1, m.word, m.role, pgt, 1, [content], NORMAL_U, pgt, STACK_VPN);
      DistIn(1, 1, STACK_VPN);
    }
  }

  lemma FirstPage(size: nat)
    requires 0 < size <= 4096
    ensures Pages(size) == 1 && Vpn(USER_BASE) == 1 && PageAligned(USER_BASE)
  {
  }

  lemma FilledOne(w: Words, r: Roles, w': Words, r': Roles, root: nat, v: nat, c: Page, attr: nat)
    requires v < 0x8000000 && Pte(w, root, v) == 0
    requires Filled(w, r, w', root, v, [c], attr) && Grew(w, r, w', r', root, {})
    ensures Populated(w, r, w', r', root, v, [c], attr)
  {
    assert forall x :: 0 <= x < 0x8000000 && Dist(v, x) < 1 ==> x == v;
    hide Pte, Dist;
  }

  /** A space that was empty holds exactly what was populated. */
  lemma BuiltSpace(w1: Words, r1: Roles, w2: Words, r2: Roles, w3: Words, r3: Roles, pgt: nat, size: nat, cs: seq<Page>)
    requires Linked(w1, r1) && Linked(w2, r2) && Sized(w3, r3) && IsRoot(r1, pgt) && IsRoot(r2, pgt)
    requires |cs| == Pages(size) && 1 + Pages(size) <= STACK_VPN
    requires forall x :: 0 <= x < 0x8000000 ==> Pte(w1, pgt, x) == 0
    requires Populated(w1, r1, w2, r2, pgt, 1, cs, NORMAL_U)
    requires Populated(w2, r2, w3, r3, pgt, STACK_VPN, ZeroPages(1), NORMAL_U_XN)
    ensures SpaceIs(w3, pgt, size)
    ensures PageOf(w3, pgt, STACK_VPN) == ZeroPage()
    ensures forall k :: 0 <= k < |cs| ==> PageOf(w3, pgt, 1 + k) == cs[k]
  {
    hide Pages;
    GrownKept(w2, r2, w3, r3, pgt, STACK_VPN, ZeroPages(1), NORMAL_U_XN);
    hide LinkedUp, LinkedDown, Pte, PageOf, Populated, Filled, Grew, Dist, AllKept;
    forall x | 0 <= x < 0x8000000 ensures Pte(w3, pgt, x) != 0 <==> InSpace(size, x)
    {
      FilledAt(w1, r1, w2, r2, pgt, 1, cs, NORMAL_U, pgt, x);
      FilledAt(w2, r2, w3, r3, pgt, STACK_VPN, ZeroPages(1), NORMAL_U_XN, pgt, x);
      DistIn(1, |cs|, x);
      DistIn(STACK_VPN, 1, x);
    }
    FilledAt(w2, r2, w3, r3, pgt, STACK_VPN, ZeroPages(1), NORMAL_U_XN, pgt, STACK_VPN);
    DistIn(STACK_VPN, 1, STACK_VPN);
    forall k | 0 <= k < |cs| ensures PageOf(w3, pgt, 1 + k) == cs[k] {
      DistIn(1, |cs|, 1 + k);
      FilledAt(w1, r1, w2, r2, pgt, 1, cs, NORMAL_U, pgt, 1 + k);
    }
  }

  lemma InitSpec(procs: Procs, reserved: set<nat>, pid: nat, w0: Words, r0: Roles, w1: Words, r1: Roles,
                 w2: Words, r2: Roles, w3: Words, r3: Roles, kstack: nat, pgt: nat, size: nat, cs: seq<Page>)
    requires Linked(w0, r0) && Linked(w1, r1) && Linked(w2, r2) && Sized(w3, r3)
    requires Owned(procs, r0) && NoLeak(procs, r0, reserved) && Spaces(procs, w0) && pid !in procs
    requires kstack != pgt && kstack in r0 && pgt in r0 && r0[kstack] == Free && r0[pgt] == Free
    requires r1 == r0[kstack := Pinned][pgt := Node(pgt, 1, 0, 0, 0)]
    requires AllKept(w0, r0, w1, 0) && forall x :: 0 <= x < 0x8000000 ==> Pte(w1, pgt, x) == 0
    requires |cs| == Pages(size) && 1 + Pages(size) <= STACK_VPN && IsRoot(r2, pgt)
    requires Populated(w1, r1, w2, r2, pgt, 1, cs, NORMAL_U)
    requires Populated(w2, r2, w3, r3, pgt, STACK_VPN, ZeroPages(1), NORMAL_U_XN)
    ensures var procs' := procs[pid := Live(kstack, pgt, size)];
      && Owned(procs', r3) && NoLeak(procs', r3, reserved) && Spaces(procs', w3)
      && ForkLedger(r0, r3, pgt, kstack) && AllKept(w0, r0, w3, 0)
      && PageOf(w3, pgt, STACK_VPN) == ZeroPage()
      && (forall k :: 0 <= k < |cs| ==> PageOf(w3, pgt, 1 + k) == cs[k])
  {
    BuiltSpace(w1, r1, w2, r2, w3, r3, pgt, size, cs);
    InitLedger(procs, reserved, pid, r0, w1, r1, w2, r2, w3, r3, kstack, pgt, size, cs);
    InitKept(w0, r0, w1, r1, w2, r2, w3, r3, kstack, pgt, cs);
    hide LinkedUp, LinkedDown, Pte, PageOf, Populated, InSpace, Pages, NoLeak, ForkLedger, Grew, SpaceIs, AllKept;
    SpacesKept(procs, r0, w0, w3, 0);
  }

  lemma InitLedger(procs: Procs, reserved: set<nat>, pid: nat, r0: Roles, w1: Words, r1: Roles,
                   w2: Words, r2: Roles, w3: Words, r3: Roles, kstack: nat, pgt: nat, size: nat, cs: seq<Page>)
    requires Owned(procs, r0) && NoLeak(procs, r0, reserved) && pid !in procs
    requires Sized(w1, r1) && Sized(w2, r2) && Sized(w3, r3)
    requires kstack != pgt && kstack in r0 && pgt in r0 && r0[kstack] == Free && r0[pgt] == Free
    requires r1 == r0[kstack := Pinned][pgt := Node(pgt, 1, 0, 0, 0)]
    requires Populated(w1, r1, w2, r2, pgt, 1, cs, NORMAL_U)
    requires Populated(w2, r2, w3, r3, pgt, STACK_VPN, ZeroPages(1), NORMAL_U_XN)
    ensures ForkLedger(r0, r3, pgt, kstack)
    ensures var procs' := procs[pid := Live(kstack, pgt, size)];
      Owned(procs', r3) && NoLeak(procs', r3, reserved)
  {
    PopulatedGrew(w1, r1, w2, r2, pgt, 1, cs, NORMAL_U);
    PopulatedGrew(w2, r2, w3, r3, pgt, STACK_VPN, ZeroPages(1), NORMAL_U_XN);
    hide Populated, Grew, NoLeak, Owned;
    GrewTransitive(w1, r1, w2, r2, w3, r3, pgt, {});
    ForkLedgerSpec(r0, r1, w1, r3, w3, kstack, pgt);
    AddProc(procs, r0, r3, reserved, pid, kstack, pgt, size);
  }

  lemma InitKept(w0: Words, r0: Roles, w1: Words, r1: Roles, w2: Words, r2: Roles, w3: Words, r3: Roles,
                 kstack: nat, pgt: nat, cs: seq<Page>)
    requires Linked(w0, r0) && Linked(w1, r1) && Linked(w2, r2) && Sized(w3, r3) && IsRoot(r2, pgt)
    requires kstack != pgt && kstack in r0 && pgt in r0 && r0[kstack] == Free && r0[pgt] == Free
    requires r1 == r0[kstack := Pinned][pgt := Node(pgt, 1, 0, 0, 0)] && AllKept(w0, r0, w1, 0)
    requires Populated(w1, r1, w2, r2, pgt, 1, cs, NORMAL_U)
    requires Populated(w2, r2, w3, r3, pgt, STACK_VPN, ZeroPages(1), NORMAL_U_XN)
    ensures AllKept(w0, r0, w3, 0)
  {
    hide LinkedUp, LinkedDown, Populated, Grew, AllKept;
    GrownKept(w1, r1, w2, r2, pgt, 1, cs, NORMAL_U);
    GrownKept(w2, r2, w3, r3, pgt, STACK_VPN, ZeroPages(1), NORMAL_U_XN);
    PopulatedGrew(w1, r1, w2, r2, pgt, 1, cs, NORMAL_U);
    RootsSurvive(w1, r1, w2, r2, pgt);
    KeptTwice(w1, r1, w2, r2, w3, pgt);
    KeptBeyondNew(w0, r0, w1, r1, w3, pgt);
  }

  lemma RootsSurvive(w: Words, r: Roles, w': Words, r': Roles, root: nat)
    requires Grew(w, r, w', r', root, {})
    ensures forall q :: IsRoot(r, q) ==> IsRoot(r', q)
  {
  }

  lemma KeptTwice(w0: Words, r0: Roles, w1: Words, r1: Roles, w2: Words, a: nat)
    requires AllKept(w0, r0, w1, a) && AllKept(w1, r1, w2, a)
    requires forall q :: IsRoot(r0, q) ==> IsRoot(r1, q)
    ensures AllKept(w0, r0, w2, a)
  {
    hide Pte, PageOf;
  }

  lemma ExitBooks(procs: Procs, reserved: set<nat>, pid: nat, w0: Words, r0: Roles, w1: Words, r1: Roles)
    requires Owned(procs, r0) && NoLeak(procs, r0, reserved) && Spaces(procs, w0)
    requires pid in procs && procs[pid].Live? && SpaceFreed(r0, r1, procs[pid].pgt)
    requires AllKept(w0, r0, w1, procs[pid].pgt)
    ensures var procs' := procs[pid := Zombie(procs[pid].kstack)];
      Owned(procs', r1) && NoLeak(procs', r1, reserved) && Spaces(procs', w1)
  {
    var procs' := procs[pid := Zombie(procs[pid].kstack)];
    SpacesKept(procs, r0, w0, w1, procs[pid].pgt);
    hide SpaceIs, AllKept;
    forall f | f in r1 && r1[f] == Pinned ensures f in reserved || exists p :: HasStack(procs', p, f) {
      if f !in reserved {
        var p :| HasStack(procs, p, f);
        assert HasStack(procs', p, f);
      }
    }
    forall f | IsRoot(r1, f) ensures exists p :: HasSpace(procs', p, f) {
      assert IsRoot(r0, f);
      var p :| HasSpace(procs, p, f);
      assert HasSpace(procs', p, f);
    }
  }

  lemma ReapBooks(procs: Procs, reserved: set<nat>, pid: nat, w: Words, r: Roles, content: seq<nat>)
    requires Linked(w, r) && Owned(procs, r) && NoLeak(procs, r, reserved) && Spaces(procs, w)
    requires pid in procs && procs[pid].Zombie? && |content| == 512
    ensures var k := procs[pid].kstack;
      && k in r && r[k] == Pinned
      && Linked(w[k := content], r[k := Free]) && AllKept(w, r, w[k := content], 0)
      && Owned(procs - {pid}, r[k := Free]) && NoLeak(procs - {pid}, r[k := Free], reserved)
      && Spaces(procs - {pid}, w[k := content])
  {
    var k, procs' := procs[pid].kstack, procs - {pid};
    var w', r' := w[k := content], r[k := Free];
    LinkedFrame(w, r, w', r');
    forall q | IsRoot(r, q) && q != 0 ensures SpaceKept(w, w', q) {
      SpaceFrame(w, r, w', q);
    }
    hide LinkedUp, LinkedDown, SpaceKept, SamePtes, NoLeak, SpaceIs;
    SpacesKept(procs, r, w, w', 0);
    ReapLedger(procs, reserved, pid, r);
  }

  lemma ReapLedger(procs: Procs, reserved: set<nat>, pid: nat, r: Roles)
    requires Owned(procs, r) && NoLeak(procs, r, reserved) && pid in procs && procs[pid].Zombie?
    ensures Owned(procs - {pid}, r[procs[pid].kstack := Free])
    ensures NoLeak(procs - {pid}, r[procs[pid].kstack := Free], reserved)
  {
    var procs', r' := procs - {pid}, r[procs[pid].kstack := Free];
    forall f | f in r' && r'[f] == Pinned ensures f in reserved || exists p :: HasStack(procs', p, f) {
      if f !in reserved {
        var p :| HasStack(procs, p, f);
        assert HasStack(procs', p, f);
      }
    }
    forall f | IsRoot(r', f) ensures exists p :: HasSpace(procs', p, f) {
      assert IsRoot(r, f);
      var p :| HasSpace(procs, p, f);
      assert HasSpace(procs', p, f);
    }
  }

  lemma OwnRoot(procs: Procs, r: Roles, w: Words, pid: nat)
    requires Owned(procs, r) && Spaces(procs, w) && pid in procs && procs[pid].Live?
    ensures IsRoot(r, procs[pid].pgt) && SpaceIs(w, procs[pid].pgt, procs[pid].size)
  {
  }

  lemma SbrkSpec(procs: Procs, reserved: set<nat>, pid: nat, w0: Words, r0: Roles, w1: Words, r1: Roles,
                 size': nat, attr: nat)
    requires Linked(w0, r0) && Sized(w1, r1) && Owned(procs, r0) && NoLeak(procs, r0, reserved) && Spaces(procs, w0)
    requires pid in procs && procs[pid].Live? && procs[pid].size <= size'
    requires 1 + Pages(procs[pid].size) <= STACK_VPN
    requires Populated(w0, r0, w1, r1, procs[pid].pgt, 1 + Pages(procs[pid].size),
      ZeroPages(PagesBetween(procs[pid].size, size')), attr)
    ensures var procs', pgt := procs[pid := procs[pid].(size := size')], procs[pid].pgt;
      && Owned(procs', r1) && NoLeak(procs', r1, reserved) && Spaces(procs', w1)
      && AllKept(w0, r0, w1, pgt) && Grew(w0, r0, w1, r1, pgt, {})
      && (forall x :: 0 <= x < 0x8000000 && InSpace(size', x) ==>
        PageOf(w1, pgt, x) == if InSpace(procs[pid].size, x) then PageOf(w0, pgt, x) else ZeroPage())
  {
    var pgt, size := procs[pid].pgt, procs[pid].size;
    hide LinkedUp, LinkedDown, Pte, PageOf, Populated, Owned, NoLeak;
    hide Spaces, AllKept, InSpace, Pages, PagesBetween, SpaceIs, Grew, Sized;
    OwnRoot(procs, r0, w0, pid);
    SpaceMapped(w0, pgt, size);
    PopulatedGrew(w0, r0, w1, r1, pgt, 1 + Pages(size), ZeroPages(PagesBetween(size, size')), attr);
    GrownSpace(w0, r0, w1, r1, pgt, size, size', attr);
    GrownKept(w0, r0, w1, r1, pgt, 1 + Pages(size), ZeroPages(PagesBetween(size, size')), attr);
    GrownBooks(procs, r0, w0, r1, w1, reserved, pid, size');
    ResizedSpaces(procs, r0, w0, w1, pid, size');
  }

  lemma SpaceMapped(w: Words, root: nat, size: nat)
    requires SpaceIs(w, root, size)
    ensures forall x :: 0 <= x < 0x8000000 && InSpace(size, x) ==> Pte(w, root, x) != 0
  {
  }

  lemma ShrinkBooks(procs: Procs, reserved: set<nat>, pid: nat, w: Words, r: Roles, size': nat)
    requires Owned(procs, r) && NoLeak(procs, r, reserved) && Spaces(procs, w)
    requires pid in procs && procs[pid].Live? && size' <= procs[pid].size
    ensures var procs' := procs[pid := procs[pid].(size := size')];
      && Owned(procs', r) && NoLeak(procs', r, reserved)
      && (Spaces(procs', w) <==> Pages(size') == Pages(procs[pid].size))
  {
    ShrinkExact(w, procs[pid].pgt, procs[pid].size, size');
    GrewReflexive(w, r, procs[pid].pgt, {});
    GrownBooks(procs, r, w, r, w, reserved, pid, size');
    var procs' := procs[pid := procs[pid].(size := size')];
    assert procs'[pid] == procs[pid].(size := size');
    hide SpaceIs, Owned, NoLeak, Pages;
  }

  /** newproc leaves the parent's address space as cp_userspace needs it. */
  lemma ParentReady(procs: Procs, parent: nat, w0: Words, r0: Roles, w1: Words, r1: Roles, kstack: nat, pgt: nat)
    requires Sized(w0, r0) && Owned(procs, r0) && Spaces(procs, w0) && parent in procs && procs[parent].Live?
    requires kstack in r0 && pgt in r0 && r0[kstack] == Free && r0[pgt] == Free
    requires r1 == r0[kstack := Pinned][pgt := Node(pgt, 1, 0, 0, 0)] && AllKept(w0, r0, w1, 0)
    ensures IsRoot(r1, procs[parent].pgt) && IsRoot(r1, pgt) && procs[parent].pgt != pgt
    ensures PageAligned(USER_BASE) && Vpn(USER_BASE) == 1 && USER_BASE / 4096 + Pages(procs[parent].size) <= STACK_VPN
    ensures forall x :: 1 <= x < 1 + Pages(procs[parent].size) || x == STACK_VPN ==> Pte(w1, procs[parent].pgt, x) != 0
  {
    var size, ppgt := procs[parent].size, procs[parent].pgt;
    assert SpaceIs(w0, ppgt, size) && IsRoot(r0, ppgt) && ppgt != 0;
    assert SpaceKept(w0, w1, ppgt);
    assert forall x :: 1 <= x < 1 + Pages(size) || x == STACK_VPN ==> x < 0x8000000 && InSpace(size, x);
    hide Pte, PageOf, Pages;
  }
}
