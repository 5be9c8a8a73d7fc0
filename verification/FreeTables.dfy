/** free_table: the recursive release of translation tables. */
module FreeTables {
  import opened PhysMem
  import opened PageTable
  import opened TableUpdate
  import opened AddressSpace
  import opened Teardown

  /** The frame reached from f by following k recorded owners. */
  function Ancestor(role: Roles, f: nat, k: nat): nat
    decreases k
  {
    if k == 0 then f
    else if f in role && role[f].Node? then Ancestor(role, role[f].parent, k - 1)
    else 0
  }

  /** f is t or lies below it. */
  predicate InTree(role: Roles, t: nat, f: nat) {
    && f in role && role[f].Node? && t in role && role[t].Node?
    && role[f].level >= role[t].level
    && Ancestor(role, f, role[f].level - role[t].level) == t
  }

  lemma InTreeParent(w: Words, r: Roles, t: nat, f: nat)
    requires Linked(w, r) && InTree(r, t, f) && f != t
    ensures r[f].level > r[t].level && InTree(r, t, r[f].parent)
  {
    assert OwnerOk(w, r, f);
    assert OwnerOk(w, r, t);
  }

  lemma {:induction false} AncestorStep(r: Roles, f: nat, k: nat, t: nat)
    requires 0 !in r && Ancestor(r, f, k) in r && r[Ancestor(r, f, k)].Node? && r[Ancestor(r, f, k)].parent == t
    ensures Ancestor(r, f, k + 1) == t
    decreases k
  {
    if k > 0 && f in r && r[f].Node? {
      AncestorStep(r, r[f].parent, k - 1, t);
    }
  }

  lemma InTreeChild(w: Words, r: Roles, t: nat, c: nat, f: nat)
    requires Linked(w, r) && InTree(r, c, f) && r[c].level > 1 && r[c].parent == t
    ensures InTree(r, t, f)
  {
    assert OwnerOk(w, r, c);
    AncestorStep(r, f, r[f].level - r[c].level, t);
  }

  predicate ChildOf(r: Roles, t: nat, c: nat) {
    c in r && r[c].Node? && r[c].level > 1 && r[c].parent == t
  }

  /** The tree of a table is the table and the trees of its children. */
  lemma {:induction false} TreeSplits(w: Words, r: Roles, t: nat, f: nat)
    requires Linked(w, r) && t in r && r[t].Node?
    ensures InTree(r, t, f) <==> f == t || exists c: nat :: ChildOf(r, t, c) && InTree(r, c, f)
    decreases if f in r && r[f].Node? then r[f].level else 0
  {
    if c: nat :| ChildOf(r, t, c) && InTree(r, c, f) {
      InTreeChild(w, r, t, c, f);
    }
    if InTree(r, t, f) && f != t {
      InTreeParent(w, r, t, f);
      var p := r[f].parent;
      TreeSplits(w, r, t, p);
      assert OwnerOk(w, r, f);
      if p == t {
        assert ChildOf(r, t, f) && InTree(r, f, f);
      } else {
        var c: nat :| ChildOf(r, t, c) && InTree(r, c, p);
        assert InTree(r, c, f);
      }
    }
  }

  /** And no frame is below two of them. */
  lemma ChildrenApart(w: Words, r: Roles, t: nat, c: nat, d: nat, f: nat)
    requires Linked(w, r) && ChildOf(r, t, c) && ChildOf(r, t, d) && InTree(r, c, f) && InTree(r, d, f)
    ensures c == d
  {
    assert OwnerOk(w, r, c) && OwnerOk(w, r, d);
  }

  /** Below a table whose slots are all empty there is nothing. */
  lemma {:induction false} EmptyTableIsLeaf(w: Words, r: Roles, t: nat, f: nat)
    requires Linked(w, r) && IsTable(r, t) && InTree(r, t, f)
    requires forall j :: 0 <= j < 512 ==> Entry(w, t, j) == 0
    ensures f == t
    decreases if f in r && r[f].Node? then r[f].level else 0
  {
    if f != t {
      assert OwnerOk(w, r, f);
      InTreeParent(w, r, t, f);
      EmptyTableIsLeaf(w, r, t, r[f].parent);
    }
  }

  /** Frames that survive from r0 to r keep their place in the tree. */
  lemma {:induction false} InTreeSurvives(w0: Words, r0: Roles, w: Words, r: Roles, t: nat, f: nat)
    requires Linked(w0, r0) && Linked(w, r)
    requires forall g :: g in r && r[g].Node? ==> g in r0 && r0[g] == r[g]
    requires InTree(r0, t, f) && f in r && r[f].Node? && t in r && r[t].Node?
    ensures InTree(r, t, f)
    decreases if f in r && r[f].Node? then r[f].level else 0
  {
    if f != t {
      InTreeParent(w0, r0, t, f);
      assert OwnerOk(w, r, f);
      InTreeSurvives(w0, r0, w, r, t, r[f].parent);
    }
  }

  function Tree(role: Roles, t: nat): set<nat> {
    set f | f in role && InTree(role, t, f)
  }

  /** The frames of `tree` went to the free list; all else is as it was. */
  ghost predicate Pruned(w0: Words, r0: Roles, w: Words, r: Roles, tree: set<nat>) {
    && r.Keys == r0.Keys
    && (forall f :: f in r0 ==> r[f] == if f in tree then Free else r0[f])
    && (forall f :: f in r0 && f in w && f in w0 && r0[f] != Free && f !in tree ==> w[f] == w0[f])
  }

  /** While free_table scans t: some of its tree is gone, t itself is not. */
  ghost predicate Pruning(w0: Words, r0: Roles, w: Words, r: Roles, t: nat, tree: set<nat>) {
    && r.Keys == r0.Keys && t in r0 && r[t] == r0[t]
    && (forall f :: f in r0 ==> r[f] == r0[f] || (f in tree && r[f] == Free))
    && (forall f :: f in r0 && f in w && f in w0 && r0[f] != Free && f !in tree ==> w[f] == w0[f])
  }

  ghost predicate EmptyUpTo(w: Words, t: nat, i: nat) {
    forall j :: 0 <= j < i ==> Entry(w, t, j) == 0
  }

  lemma SubTree(w0: Words, r0: Roles, w1: Words, r1: Roles, t: nat, c: nat)
    requires Linked(w0, r0) && Linked(w1, r1) && IsTable(r0, t)
    requires Pruning(w0, r0, w1, r1, t, Tree(r0, t))
    requires c in r1 && r1[c].Node? && r1[c].level > r1[t].level && r1[c].parent == t
    ensures Tree(r1, c) <= Tree(r0, t) && t !in Tree(r1, c) && t in Tree(r0, t)
  {
    forall f | f in r1 && InTree(r1, c, f) ensures InTree(r0, t, f) {
      InTreeChild(w1, r1, t, c, f);
      InTreeBack(w0, r0, w1, r1, t, f);
    }
  }

  lemma PruneChild(w0: Words, r0: Roles, w1: Words, r1: Roles, w2: Words, r2: Roles,
                   t: nat, i: nat, tree: set<nat>, sub: set<nat>)
    requires Sized(w0, r0) && Sized(w1, r1) && Sized(w2, r2)
    requires Pruning(w0, r0, w1, r1, t, tree) && EmptyUpTo(w1, t, i)
    requires Pruned(w1, r1, w2, r2, sub) && sub <= tree && t !in sub && t in tree
    requires r0[t] != Free && i < 512
    ensures r2[t] == r1[t]
    ensures Pruning(w0, r0, Store(w2, t, i, 0), r2, t, tree)
    ensures EmptyUpTo(Store(w2, t, i, 0), t, i + 1)
  {
    assert w2[t] == w1[t];
    var w3 := Store(w2, t, i, 0);
    forall j | 0 <= j < i + 1 ensures Entry(w3, t, j) == 0 {
      assert j < i ==> Entry(w1, t, j) == 0;
    }
  }

  /** Once t is empty, t is all that is left of its tree. */
  lemma PruneLast(w0: Words, r0: Roles, w: Words, r: Roles, t: nat)
    requires Linked(w0, r0) && Linked(w, r) && IsTable(r0, t)
    requires Pruning(w0, r0, w, r, t, Tree(r0, t)) && EmptyUpTo(w, t, 512)
    ensures Childless(r, t)
    ensures forall f :: f in Tree(r0, t) && f != t ==> f in r && r[f] == Free
  {
    forall g | g in r && r[g].Node? && r[g].level > 1 ensures r[g].parent != t {
      assert OwnerOk(w, r, g);
    }
    forall f | f in Tree(r0, t) && f != t ensures r[f] == Free {
      if r[f] != Free {
        InTreeSurvives(w0, r0, w, r, t, f);
        EmptyTableIsLeaf(w, r, t, f);
      }
    }
  }

  lemma {:induction false} InTreeBack(w0: Words, r0: Roles, w: Words, r: Roles, t: nat, f: nat)
    requires Linked(w0, r0) && Linked(w, r)
    requires forall g :: g in r && r[g].Node? ==> g in r0 && r0[g] == r[g]
    requires InTree(r, t, f)
    ensures InTree(r0, t, f)
    decreases if f in r && r[f].Node? then r[f].level else 0
  {
    if f != t {
      InTreeParent(w, r, t, f);
      assert OwnerOk(w, r, f);
      InTreeBack(w0, r0, w, r, t, r[f].parent);
    }
  }

  /** What memory looks like when free_table(t) returns: the tree of t is free,
      and the frames left are well linked once the slot naming t is cleared. */
  ghost predicate TableFreed(w0: Words, r0: Roles, w: Words, r: Roles, t: nat)
    requires IsTable(r0, t)
  {
    && Pruned(w0, r0, w, r, Tree(r0, t))
    && (if r0[t].level == 1 then Linked(w, r)
        else
          && r0[t].parent in w && r0[t].slot < |w[r0[t].parent]|
          && Linked(Store(w, r0[t].parent, r0[t].slot, 0), r))
  }

  ghost predicate NoPages(r: Roles, tree: set<nat>) {
    forall f :: f in tree && f in r && r[f].Node? ==> r[f].level < 4
  }

  /** A slot of t that the scan meets is empty or names a table of its own. */
  lemma SlotKind(w0: Words, r0: Roles, w: Words, r: Roles, t: nat, i: nat)
    requires Linked(w0, r0) && Linked(w, r) && IsTable(r0, t) && i < 512
    requires Pruning(w0, r0, w, r, t, Tree(r0, t)) && NoPages(r0, Tree(r0, t))
    ensures IsTable(r, t) && t in w && |w[t]| == 512 && w[t][i] == Entry(w, t, i)
    ensures Entry(w, t, i) != 0 ==>
      && IsTableDesc(w[t][i]) && !HasAf(w[t][i])
      && var c := PtePa(w[t][i]);
      && IsTable(r, c) && r[c] == ChildRole(r, t, i) && NoPages(r, Tree(r, c))
      && Tree(r, c) <= Tree(r0, t) && t !in Tree(r, c) && t in Tree(r0, t)
  {
    assert SlotOk(w, r, t, i);
    if Entry(w, t, i) != 0 {
      var c := PtePa(w[t][i]);
      SubTree(w0, r0, w, r, t, c);
      assert OwnerOk(w, r, c);
      assert InTree(r, c, c) && c in Tree(r, c);
      TableDescRoundTrip(c);
    }
  }

  /** Freeing t itself, now childless. */
  lemma PruneRoot(w0: Words, r0: Roles, w: Words, r: Roles, t: nat, content: seq<nat>)
    requires Linked(w0, r0) && Linked(w, r) && IsTable(r0, t) && |content| == 512
    requires Pruning(w0, r0, w, r, t, Tree(r0, t)) && EmptyUpTo(w, t, 512)
    ensures TableFreed(w0, r0, w[t := content], r[t := Free], t)
  {
    PruneLast(w0, r0, w, r, t);
    SelfInTree(w0, r0, t);
    assert OwnerOk(w, r, t);
    hide InTree, LinkedUp, LinkedDown, Childless, EmptyUpTo, OwnerOk;
    PrunedAll(w0, r0, w, r, t, Tree(r0, t), content);
    hide Pruning, Pruned;
    if r0[t].level > 1 {
      FreeThenClear(w, r, t, r0[t].parent, r0[t].slot, content);
    } else {
      DropRoot(w, r, t, content);
    }
  }

  lemma SelfInTree(w: Words, r: Roles, t: nat)
    requires Linked(w, r) && IsTable(r, t)
    ensures t in Tree(r, t)
  {
    assert InTree(r, t, t);
  }

  lemma PrunedAll(w0: Words, r0: Roles, w: Words, r: Roles, t: nat, tree: set<nat>, content: seq<nat>)
    requires Pruning(w0, r0, w, r, t, tree) && t in tree
    requires forall f :: f in tree && f != t && f in r0 ==> f in r && r[f] == Free
    ensures Pruned(w0, r0, w[t := content], r[t := Free], tree)
  {
  }

  lemma DropRoot(w: Words, r: Roles, t: nat, content: seq<nat>)
    requires Linked(w, r) && IsTable(r, t) && r[t].level == 1 && |content| == 512
    requires Childless(r, t) && EmptyUpTo(w, t, 512)
    ensures Linked(w[t := content], r[t := Free])
  {
    var w', r' := w[t := content], r[t := Free];
    forall f | f in r' && r'[f].Node? ensures 1 <= r'[f].level && OwnerOk(w', r', f) {
      assert OwnerOk(w, r, f);
      if r[f].level > 1 {
        NotOwnedByDropped(w, r, t, f);
      }
    }
    forall x, j | IsTable(r', x) && 0 <= j < 512 ensures SlotOk(w', r', x, j) {
      assert SlotOk(w, r, x, j);
    }
  }

  /** A childless root owns nothing. */
  lemma {:induction false} NotOwnedByDropped(w: Words, r: Roles, t: nat, f: nat)
    requires Linked(w, r) && Childless(r, t) && f in r && r[f].Node? && r[f].level > 1
    ensures r[f].root != t
    decreases if f in r && r[f].Node? then r[f].level else 0
  {
    assert OwnerOk(w, r, f);
    if r[f].level > 2 {
      NotOwnedByDropped(w, r, t, r[f].parent);
    } else {
      assert OwnerOk(w, r, r[f].parent);
    }
  }

  /** ws is w but for the last tables in xs, where it has no entries of mapped pages. */
  ghost predicate Shadow(ws: Words, w: Words, r: Roles, xs: set<nat>) {
    ws.Keys == w.Keys && forall f: nat :: f in w ==> ShadowAt(ws, w, r, xs, f)
  }

  predicate ShadowAt(ws: Words, w: Words, r: Roles, xs: set<nat>, f: nat)
    requires f in w && f in ws
  {
    || ws[f] == w[f]
    || (f in xs && f in r && r[f].Node? && r[f].level == 3 && |ws[f]| == |w[f]| &&
        forall i :: 0 <= i < |w[f]| ==> ws[f][i] == w[f][i] || (ws[f][i] == 0 && HasAf(w[f][i])))
  }

  /** kfree(pgt) at the end of free_table. */
  method RetireTable(m: Memory, t: nat, ghost xs: set<nat>, ghost ws: Words, ghost w0: Words, ghost r0: Roles)
    returns (ghost ws': Words)
    requires m.Valid() && !m.held && Linked(ws, m.role) && Shadow(ws, m.word, m.role, xs)
    requires IsTable(m.role, t) && Linked(w0, r0) && IsTable(r0, t)
    requires Pruning(w0, r0, ws, m.role, t, Tree(r0, t)) && EmptyUpTo(ws, t, 512)
    modifies m
    ensures m.Valid() && !m.held && Shadow(ws', m.word, m.role, xs)
    ensures TableFreed(w0, r0, ws', m.role, t)
  {
    hide AllocOk, LinkedUp, LinkedDown, Pruned, InTree, Tree, EmptyUpTo, ZeroPage, TableFreed, SamePtes, Shadow;
    StillTable(r0, m.role, ws, w0, t);
    hide Pruning, Sized;
    ghost var w3, r3, content := m.word, m.role, ZeroPage()[0 := m.freelist];
    PruneRoot(w0, r0, ws, r3, t, content);
    m.role := m.role[t := Pinned];
    AllocUse(w3, r3, m.freelist, m.free, t, Pinned);
    m.KFree(t);
    assert m.role == r3[t := Free];
    ws' := ws[t := content];
    ShadowSame(ws, w3, r3, xs, t, content);
  }

  lemma ShadowSame(ws: Words, w: Words, r: Roles, xs: set<nat>, t: nat, content: seq<nat>)
    requires Shadow(ws, w, r, xs)
    ensures Shadow(ws[t := content], w[t := content], r[t := Free], xs)
  {
    var a, b := ws[t := content], w[t := content];
    forall f: nat | f in b ensures ShadowAt(a, b, r[t := Free], xs, f) {
      assert f != t ==> ShadowAt(ws, w, r, xs, f);
    }
  }

  lemma StillTable(r0: Roles, r: Roles, w: Words, w0: Words, t: nat)
    requires IsTable(r0, t) && Pruning(w0, r0, w, r, t, Tree(r0, t))
    ensures t in r && r[t] != Free
  {
  }

  /** The recursion of free_table.  An entry that maps a page is skipped: the memory is
      pruned as ws is, where such entries are empty. */
  method PruneTable(m: Memory, t: nat, ghost xs: set<nat>, ghost ws: Words) returns (ghost ws': Words)
    requires m.Valid() && !m.held && Linked(ws, m.role) && Shadow(ws, m.word, m.role, xs)
    requires IsTable(m.role, t) && NoPages(m.role, Tree(m.role, t))
    modifies m
    ensures m.Valid() && !m.held && Shadow(ws', m.word, m.role, xs)
    ensures TableFreed(ws, old(m.role), ws', m.role, t)
    decreases 4 - m.role[t].level
  {
    hide AllocOk, LinkedUp, LinkedDown, NoPages, Pruned, InTree, Tree, EmptyUpTo, PtePa, IsTableDesc, HasAf, ZeroPage;
    hide Shadow;
    ghost var r0 := m.role;
    ghost var tree := Tree(r0, t);
    ws' := ws;
    NothingPruned(ws, r0, t, tree);
    for i := 0 to 512
      invariant m.Valid() && !m.held && Linked(ws', m.role) && IsTable(m.role, t)
      invariant Shadow(ws', m.word, m.role, xs)
      invariant Pruning(ws, r0, ws', m.role, t, tree) && EmptyUpTo(ws', t, i)
    {
      SlotKind(ws, r0, ws', m.role, t, i);
      ShadowEntry(ws', m.word, m.role, xs, t, i);
      var pte := m.word[t][i];
      if IsTableDesc(pte) && !HasAf(pte) {
        var child := PtePa(pte);
        NotZero(pte);
        ghost var w1, r1 := ws', m.role;
        ws' := PruneTable(m, child, xs, w1);
        PruneChild(ws, r0, w1, r1, ws', m.role, t, i, tree, Tree(r1, child));
        ghost var w2 := m.word;
        ShadowStore(ws', w2, m.role, xs, t, i);
        m.word := Store(m.word, t, i, 0);
        ws' := Store(ws', t, i, 0);
        AllocRewrite(w2, m.role, m.freelist, m.free, t, m.word[t]);
      } else {
        EmptyStep(ws', t, i);
      }
    }
    ws' := RetireTable(m, t, xs, ws', ws, r0);
  }

  /** An entry is as in ws, or maps a page. */
  lemma ShadowEntry(ws: Words, w: Words, r: Roles, xs: set<nat>, t: nat, i: nat)
    requires Shadow(ws, w, r, xs) && t in ws && i < |ws[t]|
    ensures t in w && |w[t]| == |ws[t]| && (w[t][i] == ws[t][i] || (ws[t][i] == 0 && HasAf(w[t][i])))
  {
    assert ShadowAt(ws, w, r, xs, t);
  }

  lemma ShadowStore(ws: Words, w: Words, r: Roles, xs: set<nat>, t: nat, i: nat)
    requires Shadow(ws, w, r, xs) && t in ws && i < |ws[t]|
    ensures t in w && |ws[t]| == |w[t]|
    ensures Shadow(Store(ws, t, i, 0), Store(w, t, i, 0), r, xs)
  {
    assert ShadowAt(ws, w, r, xs, t);
    var a, b := Store(ws, t, i, 0), Store(w, t, i, 0);
    forall f: nat | f in b ensures ShadowAt(a, b, r, xs, f) {
      assert ShadowAt(ws, w, r, xs, f);
    }
  }

  /** The page is below the table t. */
  predicate PageBelow(r: Roles, t: nat, f: nat) {
    f in r && r[f].Node? && r[f].level == 4 && f in Tree(r, t)
  }

  /** The ledger in which the pages below t have no owner any more. */
  function Leaked(r: Roles, t: nat): (r': Roles)
    ensures r'.Keys == r.Keys
  {
    map f | f in r :: if PageBelow(r, t, f) then Pinned else r[f]
  }

  /** The memory without the entries that map them. */
  function WithoutPages(w: Words, r: Roles, t: nat): (w': Words)
    ensures w'.Keys == w.Keys
  {
    map f | f in w :: if f in Tree(r, t) && f in r && r[f].Node? && r[f].level == 3 then ZeroPage() else w[f]
  }

  lemma LeakedLinked(w: Words, r: Roles, t: nat)
    requires Linked(w, r) && IsTable(r, t)
    ensures Linked(WithoutPages(w, r, t), Leaked(r, t)) && IsTable(Leaked(r, t), t)
  {
    var w', r' := WithoutPages(w, r, t), Leaked(r, t);
    forall f | f in r' && r'[f].Node? ensures 1 <= r'[f].level && OwnerOk(w', r', f) {
      LeakedOwner(w, r, t, f);
    }
    forall x, i | IsTable(r', x) && 0 <= i < 512 ensures SlotOk(w', r', x, i) {
      LeakedSlot(w, r, t, x, i);
    }
    hide OwnerOk, SlotOk, Leaked, WithoutPages;
    LeakedSized(w, r, t);
  }

  lemma LeakedSized(w: Words, r: Roles, t: nat)
    requires Linked(w, r) && IsTable(r, t)
    ensures Sized(WithoutPages(w, r, t), Leaked(r, t)) && IsTable(Leaked(r, t), t)
  {
  }

  lemma LeakedOwner(w: Words, r: Roles, t: nat, f: nat)
    requires Linked(w, r) && f in r && Leaked(r, t)[f].Node?
    ensures 1 <= Leaked(r, t)[f].level && OwnerOk(WithoutPages(w, r, t), Leaked(r, t), f)
  {
    assert OwnerOk(w, r, f);
    var p := r[f].parent;
    if r[f].level > 1 && p in Tree(r, t) && r[p].level == 3 {
      BelowTable(w, r, t, f);
    }
    hide Tree, InTree;
  }

  lemma LeakedSlot(w: Words, r: Roles, t: nat, x: nat, i: nat)
    requires Linked(w, r) && IsTable(r, t) && IsTable(Leaked(r, t), x) && i < 512
    ensures SlotOk(WithoutPages(w, r, t), Leaked(r, t), x, i)
  {
    assert SlotOk(w, r, x, i);
    var c := PtePa(Entry(w, x, i));
    if PageBelow(r, t, c) && r[c] == ChildRole(r, x, i) {
      InTreeParent(w, r, t, c);
    }
    hide Tree, InTree, PtePa, HasAf, TableDesc, LinkedUp, LinkedDown;
  }

  /** A frame owned by a frame of the tree is in the tree. */
  lemma BelowTable(w: Words, r: Roles, t: nat, f: nat)
    requires Linked(w, r) && f in r && r[f].Node? && r[f].level > 1 && InTree(r, t, r[f].parent)
    ensures InTree(r, t, f)
  {
    assert OwnerOk(w, r, f);
  }

  lemma LeakedShadow(w: Words, r: Roles, t: nat)
    requires Linked(w, r)
    ensures Shadow(WithoutPages(w, r, t), w, Leaked(r, t), Tree(r, t))
  {
    var ws := WithoutPages(w, r, t);
    forall f: nat | f in w ensures ShadowAt(ws, w, Leaked(r, t), Tree(r, t), f) {
      if f in Tree(r, t) && r[f].Node? && r[f].level == 3 {
        PageEntries(w, r, f);
      }
    }
  }

  lemma PageEntries(w: Words, r: Roles, f: nat)
    requires Linked(w, r) && f in r && r[f].Node? && r[f].level == 3
    ensures f in w && |w[f]| == 512 && forall i :: 0 <= i < 512 ==> w[f][i] == 0 || HasAf(w[f][i])
  {
    forall i | 0 <= i < 512 ensures w[f][i] == 0 || HasAf(w[f][i]) {
      assert SlotOk(w, r, f, i);
    }
  }

  /** The tree of t in the new ledger: the tables of the old one. */
  lemma LeakedTree(w: Words, r: Roles, t: nat, f: nat)
    requires Linked(w, r) && IsTable(r, t)
    ensures f in Tree(Leaked(r, t), t) <==> f in Tree(r, t) && r[f].level < 4
  {
    var w', r' := WithoutPages(w, r, t), Leaked(r, t);
    LeakedLinked(w, r, t);
    if f in Tree(r', t) {
      InTreeBack(w, r, w', r', t, f);
      assert OwnerOk(w, r, f);
    }
    if f in Tree(r, t) && r[f].level < 4 {
      InTreeSurvives(w, r, w', r', t, f);
    }
  }

  /** free_table on any table: the tables of its tree are free, each once, and every page
      still mapped below has lost its owner for good. */
  method FreeTable(m: Memory, t: nat)
    requires Ready(m) && !m.held && IsTable(m.role, t)
    modifies m
    ensures m.Valid() && !m.held
    ensures TableFreed(WithoutPages(old(m.word), old(m.role), t), Leaked(old(m.role), t), m.word, m.role, t)
    ensures TreeGone(old(m.role), m.role, t)
    ensures NoPages(old(m.role), Tree(old(m.role), t)) ==> TableFreed(old(m.word), old(m.role), m.word, m.role, t)
  {
    ghost var w0, r0 := m.word, m.role;
    ghost var ws, xs := WithoutPages(w0, r0, t), Tree(r0, t);
    hide LinkedUp, LinkedDown, Sized, AllocOk, InTree, Tree, WithoutPages, Leaked, NoPages;
    hide TableFreed, Shadow, TreeGone;
    LeakedLinked(w0, r0, t);
    LeakedShadow(w0, r0, t);
    LeakedPages(w0, r0, t);
    LeakedFree(w0, r0, m.freelist, m.free, t);
    NothingLeaks(w0, r0, t);
    m.role := Leaked(r0, t);
    ghost var ws' := PruneTable(m, t, xs, ws);
    AllGone(w0, r0, ws, ws', m.word, m.role, t);
  }

  /** Tables go, pages lose their owner, all else keeps its role. */
  ghost predicate TreeGone(r0: Roles, r: Roles, t: nat) {
    && r.Keys == r0.Keys
    && forall f :: f in r0 ==>
         r[f] == if f !in Tree(r0, t) then r0[f] else if PageBelow(r0, t, f) then Pinned else Free
  }

  lemma LeakedPages(w: Words, r: Roles, t: nat)
    requires Linked(w, r) && IsTable(r, t)
    ensures NoPages(Leaked(r, t), Tree(Leaked(r, t), t))
  {
    forall f | f in Tree(Leaked(r, t), t) ensures f in r && r[f].level < 4 {
      LeakedTree(w, r, t, f);
    }
  }

  lemma LeakedFree(w: Words, r: Roles, head: nat, free: seq<nat>, t: nat)
    requires AllocOk(w, r, head, free)
    ensures AllocOk(w, Leaked(r, t), head, free)
  {
  }

  lemma NothingLeaks(w: Words, r: Roles, t: nat)
    requires Linked(w, r) && IsTable(r, t)
    ensures NoPages(r, Tree(r, t)) ==> WithoutPages(w, r, t) == w && Leaked(r, t) == r
  {
    var w' := WithoutPages(w, r, t);
    if NoPages(r, Tree(r, t)) {
      forall f | f in w ensures w'[f] == w[f] {
        if f in Tree(r, t) && r[f].Node? && r[f].level == 3 {
          NoEntries(w, r, t, f);
        }
      }
    }
  }

  lemma NoEntries(w: Words, r: Roles, t: nat, f: nat)
    requires Linked(w, r) && IsTable(r, t) && NoPages(r, Tree(r, t))
    requires f in Tree(r, t) && r[f].Node? && r[f].level == 3
    ensures f in w && w[f] == ZeroPage()
  {
    forall i | 0 <= i < 512 ensures w[f][i] == 0 {
      assert SlotOk(w, r, f, i);
      if Entry(w, f, i) != 0 {
        BelowTable(w, r, t, PtePa(Entry(w, f, i)));
      }
    }
  }

  lemma AllGone(w0: Words, r0: Roles, ws: Words, ws': Words, w: Words, r: Roles, t: nat)
    requires Linked(w0, r0) && IsTable(r0, t) && ws == WithoutPages(w0, r0, t) && IsTable(Leaked(r0, t), t)
    requires TableFreed(ws, Leaked(r0, t), ws', r, t) && Shadow(ws', w, r, Tree(r0, t))
    ensures ws' == w && TreeGone(r0, r, t)
  {
    forall f | f in r0
      ensures r[f] == if f !in Tree(r0, t) then r0[f] else if PageBelow(r0, t, f) then Pinned else Free {
      LeakedTree(w0, r0, t, f);
      if f in Tree(r0, t) {
        assert OwnerOk(w0, r0, f);
      }
    }
    hide TableFreed, Linked, Leaked, WithoutPages, InTree, Tree;
    forall f | f in w ensures ws'[f] == w[f] {
      assert ShadowAt(ws', w, r, Tree(r0, t), f);
    }
  }

  lemma NothingPruned(w: Words, r: Roles, t: nat, tree: set<nat>)
    requires t in r
    ensures Pruning(w, r, w, r, t, tree) && EmptyUpTo(w, t, 0)
  {
  }

  lemma NotZero(e: nat)
    requires IsTableDesc(e)
    ensures e != 0
  {
  }

  lemma EmptyStep(w: Words, t: nat, i: nat)
    requires EmptyUpTo(w, t, i) && Entry(w, t, i) == 0
    ensures EmptyUpTo(w, t, i + 1)
  {
  }
}
