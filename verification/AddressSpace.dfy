/** User address spaces: pagewalk, pagemap, pageunmap, free_table and the
  operations of kernel/mm.c built from them. */
module AddressSpace {
  import opened PhysMem
  import opened PageTable
  import opened TableUpdate

  ghost predicate Ready(m: Memory)
    reads m
  {
    m.Valid() && Linked(m.word, m.role)
  }

  /** Between two states only free and `given` frames were put to use, all of
      them in the address space `root`, and only that space's tables were written. */
  ghost predicate Grew(word: Words, role: Roles, word': Words, role': Roles, root: nat, given: set<nat>) {
    && role.Keys == role'.Keys
    && (forall f :: f in role ==>
      || role'[f] == role[f]
      || (role[f] == Free && role'[f].Node? && role'[f].root == root && role'[f].level > 1)
      || (f in given && role'[f].Node? && role'[f].root == root && role'[f].level == 4))
    && (forall f :: f in role && role[f] != Free && f in word && f in word' ==>
      word'[f] == word[f] || (role[f].Node? && role[f].root == root && role[f].level < 4))
  }

  lemma GrewTransitive(w0: Words, r0: Roles, w1: Words, r1: Roles, w2: Words, r2: Roles, root: nat, given: set<nat>)
    requires Sized(w0, r0) && Sized(w1, r1) && Sized(w2, r2)
    requires Grew(w0, r0, w1, r1, root, given) && Grew(w1, r1, w2, r2, root, given)
    requires forall f :: f in r0 && f in given ==> r0[f] == Pinned
    ensures Grew(w0, r0, w2, r2, root, given)
  {
  }

  lemma SamePtesStep(w0: Words, r0: Roles, w1: Words, r1: Roles, w2: Words)
    requires SamePtes(w0, w1, r0) && SamePtes(w1, w2, r1)
    requires forall r :: IsRoot(r0, r) ==> IsRoot(r1, r)
    ensures SamePtes(w0, w2, r0)
  {
  }

  /** At most n frames left the front of the list. */
  ghost predicate Suffix(s: seq<nat>, s0: seq<nat>, n: nat) {
    |s| <= |s0| <= |s| + n && s == s0[|s0| - |s|..]
  }

  lemma SuffixRefl(s: seq<nat>)
    ensures Suffix(s, s, 0)
  {
  }

  lemma SuffixTransitive(s2: seq<nat>, s1: seq<nat>, s0: seq<nat>, n: nat, k: nat)
    requires Suffix(s2, s1, n) && Suffix(s1, s0, k)
    ensures Suffix(s2, s0, n + k)
  {
  }

  /** Point an empty slot of a level-1 or level-2 table at a fresh zeroed table. */
  method StoreTable(m: Memory, t: nat, i: nat, c: nat)
    requires Ready(m) && !m.held && IsTable(m.role, t) && m.role[t].level < 3 && i < 512
    requires Entry(m.word, t, i) == 0
    requires c in m.role && m.role[c] == Pinned && m.word[c] == ZeroPage()
    modifies m
    ensures Ready(m) && !m.held && m.free == old(m.free) && m.freelist == old(m.freelist)
    ensures m.word == Store(old(m.word), t, i, TableDesc(c))
    ensures m.role == old(m.role)[c := ChildRole(old(m.role), t, i)]
    ensures SamePtes(old(m.word), m.word, old(m.role))
  {
    LinkTable(m.word, m.role, t, i, c);
    LinkTableSamePtes(m.word, m.role, t, i, c);
    m.word := Store(m.word, t, i, TableDesc(c));
    m.role := m.role[c := ChildRole(m.role, t, i)];
    AllocFrame(old(m.word), old(m.role), m.word, m.role, m.freelist, m.free);
  }

  /** kalloc in a world of address spaces: a private zeroed frame, or NULL. */
  method Take(m: Memory) returns (page: nat)
    requires Ready(m) && !m.held
    modifies m
    ensures Ready(m) && (m.held <==> page == 0)
    ensures old(m.free) == [] ==> page == 0 && m.word == old(m.word) && m.role == old(m.role) && m.free == []
    ensures old(m.free) != [] ==>
      && page == old(m.free)[0] != 0 && page in old(m.role) && old(m.role)[page] == Free
      && m.free == old(m.free)[1..]
      && m.word == old(m.word)[page := ZeroPage()]
      && m.role == old(m.role)[page := Pinned]
    ensures SamePtes(old(m.word), m.word, old(m.role))
  {
    page := m.KAlloc();
    LinkedFrame(old(m.word), old(m.role), m.word, m.role);
  }

  lemma GrewTable(word: Words, role: Roles, t: nat, i: nat, c: nat)
    requires Sized(word, role) && IsTable(role, t) && i < 512
    requires c in role && role[c] == Free
    ensures Grew(word, role, Store(word[c := ZeroPage()], t, i, TableDesc(c)),
                 role[c := Pinned][c := ChildRole(role, t, i)], role[t].root, {})
  {
  }

  /** Everything a walk may do to memory: nothing that any translation sees. */
  ghost predicate Walked(word: Words, role: Roles, word': Words, role': Roles, root: nat) {
    SamePtes(word, word', role) && Grew(word, role, word', role', root, {})
  }

  lemma WalkedReflexive(w: Words, r: Roles, root: nat)
    ensures Walked(w, r, w, r, root)
  {
  }

  /** Hang a fresh table on an empty slot; NULL when memory is exhausted. */
  method NewTable(m: Memory, t: nat, i: nat) returns (next: nat)
    requires Ready(m) && !m.held && IsTable(m.role, t) && m.role[t].level < 3 && i < 512
    requires Entry(m.word, t, i) == 0
    modifies m
    ensures Ready(m)
    ensures SamePtes(old(m.word), m.word, old(m.role))
    ensures Grew(old(m.word), old(m.role), m.word, m.role, old(m.role)[t].root, {})
    ensures m.held <==> next == 0
    ensures next == 0 ==> m.free == old(m.free) == [] && m.word == old(m.word) && m.role == old(m.role)
    ensures next != 0 ==>
      && next in m.role && m.role[next] == ChildRole(old(m.role), t, i)
      && old(m.free) != [] && m.free == old(m.free)[1..]
  {
    hide SamePtes, Grew, LinkedUp, LinkedDown;
    next := Take(m);
    if next == 0 {
      WalkedReflexive(m.word, m.role, m.role[t].root);
      return;
    }
    ghost var w1, r1 := m.word, m.role;
    StoreTable(m, t, i, next);
    SamePtesStep(old(m.word), old(m.role), w1, r1, m.word);
    GrewTable(old(m.word), old(m.role), t, i, next);
  }

  /** One turn of the pagewalk loop: follow a slot, or hang a fresh table on it. */
  method Descend(m: Memory, t: nat, i: nat) returns (next: nat)
    requires Ready(m) && !m.held && IsTable(m.role, t) && m.role[t].level < 3 && i < 512
    modifies m
    ensures Ready(m)
    ensures SamePtes(old(m.word), m.word, old(m.role))
    ensures Grew(old(m.word), old(m.role), m.word, m.role, old(m.role)[t].root, {})
    ensures m.held <==> next == 0
    ensures next == 0 ==> m.free == [] && m.word == old(m.word) && m.role == old(m.role)
    ensures next != 0 ==> next in m.role && m.role[next] == ChildRole(old(m.role), t, i)
    ensures Next(old(m.word), t, i) != 0 ==>
      next == Next(old(m.word), t, i) && m.word == old(m.word) && m.role == old(m.role) && m.free == old(m.free)
    ensures Suffix(m.free, old(m.free), 1)
  {
    NextRole(m.word, m.role, t, i);
    EmptyOrTable(m.word, m.role, t, i);
    var pte := m.word[t][i];
    if IsTableDesc(pte) {
      next := PtePa(pte);
      SuffixRefl(m.free);
    } else {
      next := NewTable(m, t, i);
      SuffixRefl(m.free);
    }
  }

  lemma WalkedTransitive(w0: Words, r0: Roles, w1: Words, r1: Roles, w2: Words, r2: Roles, root: nat)
    requires Sized(w0, r0) && Sized(w1, r1) && Sized(w2, r2)
    requires Walked(w0, r0, w1, r1, root) && Walked(w1, r1, w2, r2, root)
    ensures Walked(w0, r0, w2, r2, root)
  {
    GrewTransitive(w0, r0, w1, r1, w2, r2, root, {});
    SamePtesStep(w0, r0, w1, r1, w2);
  }

  /** The table the walk for v has reached when it is about to read `level`. */
  predicate AtLevel(role: Roles, t: nat, root: nat, level: nat, v: nat) {
    && t in role && role[t].Node? && role[t].root == root && role[t].level == level
    && role[t].prefix == if level == 1 then 0 else if level == 2 then Top(v) else Upper(v)
  }

  lemma RootKept(w: Words, r: Roles, w': Words, r': Roles, root: nat)
    requires Walked(w, r, w', r', root) && IsRoot(r, root)
    ensures IsRoot(r', root)
  {
  }

  /** The loop of pagewalk: t is the table for `level` on the path to v. */
  ghost predicate Walking(w0: Words, r0: Roles, f0: seq<nat>, w: Words, r: Roles, f: seq<nat>,
                          t: nat, pgt: nat, level: nat, v: nat) {
    && IsRoot(r, pgt)
    && Walked(w0, r0, w, r, pgt)
    && 1 <= level <= 3 && Suffix(f, f0, level - 1)
    && AtLevel(r, t, pgt, level, v)
  }

  lemma WalkStep(w0: Words, r0: Roles, f0: seq<nat>, w1: Words, r1: Roles, f1: seq<nat>,
                 w2: Words, r2: Roles, f2: seq<nat>, t: nat, next: nat, pgt: nat, level: nat, v: nat, i: nat)
    requires 1 <= level <= 2 && v < 0x8000000
    requires i == if level == 1 then Top(v) else Mid(v)
    requires Sized(w0, r0) && Sized(w1, r1) && Sized(w2, r2)
    requires Walking(w0, r0, f0, w1, r1, f1, t, pgt, level, v)
    requires Walked(w1, r1, w2, r2, pgt) && Suffix(f2, f1, 1)
    requires next in r2 && r2[next] == ChildRole(r1, t, i)
    ensures Walking(w0, r0, f0, w2, r2, f2, next, pgt, level + 1, v)
  {
    hide SamePtes, Grew, Walked, Suffix, Sized, Top, Mid, Low, Upper;
    RootKept(w1, r1, w2, r2, pgt);
    WalkedTransitive(w0, r0, w1, r1, w2, r2, pgt);
    SuffixTransitive(f2, f1, f0, 1, level - 1);
    PathPrefix(v);
  }

  /** The table that an existing path to v has at `level`. */
  function TableAt(w: Words, pgt: nat, level: nat, v: nat): nat {
    if level <= 1 then pgt else if level == 2 then Table2(w, pgt, v) else Table3(w, pgt, v)
  }

  lemma PathContinues(w: Words, pgt: nat, level: nat, v: nat)
    requires 0 !in w && 1 <= level <= 2 && Table3(w, pgt, v) != 0
    ensures Next(w, TableAt(w, pgt, level, v), if level == 1 then Top(v) else Mid(v)) ==
      TableAt(w, pgt, level + 1, v) != 0
  {
    NullPath(w, pgt, v);
  }

  /** pagewalk: the level-3 slot (t, i) for va, or failure when no frame is left.
      It never changes a translation, and touches nothing when the path exists. */
  method PageWalk(m: Memory, pgt: nat, va: nat) returns (ok: bool, t: nat, i: nat)
    requires Ready(m) && !m.held && IsRoot(m.role, pgt)
    modifies m
    ensures Ready(m) && IsRoot(m.role, pgt)
    ensures Walked(old(m.word), old(m.role), m.word, m.role, pgt)
    ensures Suffix(m.free, old(m.free), 2)
    ensures !ok ==> m.free == []
    ensures m.held <==> !ok
    ensures ok ==>
      && t == Table3(m.word, pgt, Vpn(va)) && i == Low(Vpn(va))
      && AtLevel(m.role, t, pgt, 3, Vpn(va))
    ensures old(Table3(m.word, pgt, Vpn(va))) != 0 ==>
      ok && m.word == old(m.word) && m.role == old(m.role) && m.free == old(m.free)
  {
    hide SamePtes, Grew, LinkedUp, LinkedDown, AllocOk, Next, Table2, Table3, Top, Mid, Low, Upper, Pidx, Vpn;
    ghost var v := Vpn(va);
    VpnDigits(va);
    t := pgt;
    WalkedReflexive(m.word, m.role, pgt);
    ghost var hit := Table3(m.word, pgt, v) != 0;
    for level := 1 to 3
      invariant Ready(m) && !m.held
      invariant Walking(old(m.word), old(m.role), old(m.free), m.word, m.role, m.free, t, pgt, level, v)
      invariant hit ==>
        m.word == old(m.word) && m.role == old(m.role) && m.free == old(m.free) && t == TableAt(m.word, pgt, level, v)
    {
      ghost var w1, r1, f1 := m.word, m.role, m.free;
      if hit {
        PathContinues(m.word, pgt, level, v);
      }
      var next := Descend(m, t, Pidx(level, va));
      if next == 0 {
        WalkedTransitive(old(m.word), old(m.role), w1, r1, m.word, m.role, pgt);
        SuffixTransitive(m.free, f1, old(m.free), 1, level - 1);
        return false, 0, 0;
      }
      WalkStep(old(m.word), old(m.role), old(m.free), w1, r1, f1, m.word, m.role, m.free,
               t, next, pgt, level, v, Pidx(level, va));
      t := next;
    }
    WalkReaches(m.word, m.role, t, v);
    return true, t, Pidx(3, va);
  }

  datatype Outcome = Done | Panicked | NoMemory

  /** How far x lies past v in the circle of 2^27 page numbers. */
  function Dist(v: nat, x: nat): nat
    requires v < 0x8000000 && x < 0x8000000
  {
    if v <= x then x - v else x + 0x8000000 - v
  }

  lemma VpnStep(va: nat, k: nat)
    requires k <= 0x8000000
    ensures k < 0x8000000 ==> Dist(Vpn(va), Vpn(va + k * 4096)) == k
    ensures k == 0x8000000 ==> Vpn(va + k * 4096) == Vpn(va)
  {
    assert (va + k * 4096) / 4096 == va / 4096 + k;
  }

  /** n pages from page number v map to consecutive frames from pa; every other
      translation, of this and of every other address space, is as it was. */
  ghost predicate MappedRange(w0: Words, r0: Roles, w1: Words, root: nat, v: nat, n: nat, pa: nat, attr: nat)
    requires v < 0x8000000
  {
    forall r, x :: IsRoot(r0, r) && 0 <= x < 0x8000000 ==>
      Pte(w1, r, x) ==
        if r == root && Dist(v, x) < n then PageDesc(pa + Dist(v, x) * 4096, attr) else Pte(w0, r, x)
  }

  ghost predicate EmptyRange(w: Words, root: nat, v: nat, n: nat)
    requires v < 0x8000000
  {
    forall x :: 0 <= x < 0x8000000 && Dist(v, x) < n ==> Pte(w, root, x) == 0
  }

  function Run(pa: nat, n: nat): set<nat> {
    set k | 0 <= k < n :: pa + k * 4096
  }

  /** Point an empty level-3 slot at a private frame. */
  method StorePage(m: Memory, t: nat, i: nat, c: nat, attr: nat)
    requires Ready(m) && !m.held && IsTable(m.role, t) && m.role[t].level == 3 && i < 512
    requires Entry(m.word, t, i) == 0 && AttrOk(attr)
    requires c in m.role && m.role[c] == Pinned
    modifies m
    ensures Ready(m) && !m.held && m.free == old(m.free)
    ensures m.role == old(m.role)[c := ChildRole(old(m.role), t, i)]
    ensures OnePteChanged(old(m.word), m.word, old(m.role), old(m.role)[t].root, old(m.role)[t].prefix * 512 + i,
      PageDesc(c, attr))
    ensures Grew(old(m.word), old(m.role), m.word, m.role, old(m.role)[t].root, {c})
  {
    LinkPage(m.word, m.role, t, i, c, attr);
    StoreLeafPtes(m.word, m.role, t, i, PageDesc(c, attr));
    m.word := Store(m.word, t, i, PageDesc(c, attr));
    m.role := m.role[c := ChildRole(m.role, t, i)];
    AllocFrame(old(m.word), old(m.role), m.word, m.role, m.freelist, m.free);
  }

  lemma MapStepPtes(w0: Words, r0: Roles, w1: Words, r1: Roles, w2: Words,
                    pgt: nat, v: nat, x: nat, k: nat, pa: nat, attr: nat)
    requires IsRoot(r0, pgt) && forall r :: IsRoot(r0, r) ==> IsRoot(r1, r)
    requires v < 0x8000000 && x < 0x8000000 && k <= 0x8000000
    requires MappedRange(w0, r0, w1, pgt, v, k, pa, attr) && EmptyRange(w0, pgt, v, k)
    requires k < 0x8000000 ==> Dist(v, x) == k
    requires k == 0x8000000 ==> x == v
    requires Pte(w1, pgt, x) == 0 && FrameAddress(pa) && AttrOk(attr)
    requires OnePteChanged(w1, w2, r1, pgt, x, PageDesc(pa + k * 4096, attr))
    ensures k < 0x8000000
    ensures EmptyRange(w0, pgt, v, k + 1)
    ensures MappedRange(w0, r0, w2, pgt, v, k + 1, pa, attr)
  {
    NotFull(w0, r0, w1, pgt, v, x, k, pa, attr);
    forall y | 0 <= y < 0x8000000 ensures Dist(v, y) == k <==> y == x {
    }
    hide Pte, PageDesc, Dist;
    assert Pte(w0, pgt, x) == Pte(w1, pgt, x);
  }

  /** After 2^27 pages every page number is in use. */
  lemma NotFull(w0: Words, r0: Roles, w1: Words, pgt: nat, v: nat, x: nat, k: nat, pa: nat, attr: nat)
    requires IsRoot(r0, pgt) && v < 0x8000000 && x < 0x8000000 && k <= 0x8000000
    requires MappedRange(w0, r0, w1, pgt, v, k, pa, attr)
    requires k == 0x8000000 ==> x == v
    requires Pte(w1, pgt, x) == 0 && FrameAddress(pa) && AttrOk(attr)
    ensures k < 0x8000000
  {
    PageDescRoundTrip(pa, attr);
    hide Pte, PageDesc;
    assert Dist(v, v) == 0;
  }

  lemma MapStepGrew(w0: Words, r0: Roles, w1: Words, r1: Roles, w2: Words, r2: Roles, pgt: nat, k: nat, n: nat, pa: nat)
    requires Sized(w0, r0) && Sized(w1, r1) && Sized(w2, r2) && k < n
    requires forall j :: 0 <= j < n ==> pa + j * 4096 in r0 && r0[pa + j * 4096] == Pinned
    requires Grew(w0, r0, w1, r1, pgt, Run(pa, n)) && Grew(w1, r1, w2, r2, pgt, {pa + k * 4096})
    ensures Grew(w0, r0, w2, r2, pgt, Run(pa, n))
  {
    hide Grew, Run, Sized;
    RunPinned(r0, pa, k, n);
    GrewWiden(w1, r1, w2, r2, pgt, {pa + k * 4096}, Run(pa, n));
    GrewTransitive(w0, r0, w1, r1, w2, r2, pgt, Run(pa, n));
  }

  lemma RunPinned(r: Roles, pa: nat, k: nat, n: nat)
    requires k < n && forall j :: 0 <= j < n ==> pa + j * 4096 in r && r[pa + j * 4096] == Pinned
    ensures pa + k * 4096 in Run(pa, n)
    ensures forall f :: f in r && f in Run(pa, n) ==> r[f] == Pinned
  {
  }

  lemma GrewWiden(w: Words, r: Roles, w': Words, r': Roles, root: nat, few: set<nat>, many: set<nat>)
    requires Grew(w, r, w', r', root, few) && few <= many
    ensures Grew(w, r, w', r', root, many)
  {
  }

  lemma WalkedFacts(w: Words, r: Roles, w': Words, r': Roles, pgt: nat, x: nat, c: nat)
    requires Walked(w, r, w', r', pgt) && IsRoot(r, pgt) && x < 0x8000000
    requires c in r && r[c] == Pinned
    ensures Pte(w', pgt, x) == Pte(w, pgt, x) && c in r' && r'[c] == Pinned
  {
  }

  /** A level-3 slot is empty, or has its access flag set. */
  lemma Level3Slot(w: Words, r: Roles, pgt: nat, x: nat)
    requires Linked(w, r) && IsRoot(r, pgt) && x < 0x8000000 && AtLevel(r, Table3(w, pgt, x), pgt, 3, x)
    ensures var t := Table3(w, pgt, x);
      t in w && |w[t]| == 512 && Low(x) < 512
      && w[t][Low(x)] == Entry(w, t, Low(x)) == Pte(w, pgt, x)
      && (HasAf(w[t][Low(x)]) <==> w[t][Low(x)] != 0)
    ensures Upper(x) * 512 + Low(x) == x
  {
    assert SlotOk(w, r, Table3(w, pgt, x), Low(x));
    PathPrefix(x);
  }

  /** The body of the pagemap loop: one page. */
  method MapOne(m: Memory, pgt: nat, va: nat, c: nat, attr: nat) returns (o: Outcome)
    requires Ready(m) && !m.held && IsRoot(m.role, pgt) && AttrOk(attr)
    requires c in m.role && m.role[c] == Pinned
    modifies m
    ensures Ready(m) && IsRoot(m.role, pgt)
    ensures o == Done ==>
      && Pte(old(m.word), pgt, Vpn(va)) == 0
      && OnePteChanged(old(m.word), m.word, old(m.role), pgt, Vpn(va), PageDesc(c, attr))
      && Grew(old(m.word), old(m.role), m.word, m.role, pgt, {c})
      && m.role[c].Node?
    ensures o == Panicked ==> Pte(old(m.word), pgt, Vpn(va)) != 0
    ensures o == NoMemory ==> m.free == []
    ensures m.held <==> o == NoMemory
    ensures o != Done ==> Walked(old(m.word), old(m.role), m.word, m.role, pgt)
    ensures Suffix(m.free, old(m.free), 2)
  {
    hide AllocOk, LinkedUp, LinkedDown, Grew, SamePtes, OnePteChanged, Walked, Pte;
    hide Table3, Vpn, Low, Mid, Top, Upper, PageDesc, HasAf;
    ghost var x := Vpn(va);
    var ok, t, i := PageWalk(m, pgt, va);
    if !ok {
      return NoMemory;
    }
    Level3Slot(m.word, m.role, pgt, x);
    WalkedFacts(old(m.word), old(m.role), m.word, m.role, pgt, x, c);
    var pte := m.word[t][i];
    if HasAf(pte) {
      return Panicked;
    }
    ghost var w1, r1 := m.word, m.role;
    StorePage(m, t, i, c, attr);
    MapOneSpec(old(m.word), old(m.role), w1, r1, m.word, m.role, pgt, x, c, PageDesc(c, attr));
    return Done;
  }

  lemma MapOneSpec(w0: Words, r0: Roles, w1: Words, r1: Roles, w2: Words, r2: Roles, pgt: nat, x: nat, c: nat, e: nat)
    requires Sized(w0, r0) && Sized(w1, r1) && Sized(w2, r2)
    requires c in r0 && r0[c] == Pinned
    requires Walked(w0, r0, w1, r1, pgt) && OnePteChanged(w1, w2, r1, pgt, x, e) && Grew(w1, r1, w2, r2, pgt, {c})
    ensures OnePteChanged(w0, w2, r0, pgt, x, e) && Grew(w0, r0, w2, r2, pgt, {c})
  {
    hide Pte;
    GrewTransitive(w0, r0, w1, r1, w2, r2, pgt, {c});
  }

  /** pagemap: map [va, va + size) to the private frames from pa.  It panics on
      a misaligned argument and on a page that is in use already. */
  method PageMap(m: Memory, pgt: nat, va: nat, pa: nat, size: nat, attr: nat) returns (o: Outcome)
    requires Ready(m) && !m.held && IsRoot(m.role, pgt) && AttrOk(attr) && FrameAddress(pa)
    requires forall j :: 0 <= j < size / 4096 ==> pa + j * 4096 in m.role && m.role[pa + j * 4096] == Pinned
    modifies m
    ensures Ready(m) && IsRoot(m.role, pgt)
    ensures !(PageAligned(va) && PageAligned(pa) && PageAligned(size)) ==>
      o == Panicked && m.word == old(m.word) && m.role == old(m.role)
    ensures o == Done ==>
      && MappedRange(old(m.word), old(m.role), m.word, pgt, Vpn(va), size / 4096, pa, attr)
      && EmptyRange(old(m.word), pgt, Vpn(va), size / 4096)
      && size / 4096 <= 0x8000000
    ensures o == Panicked && PageAligned(va) && PageAligned(pa) && PageAligned(size) ==>
      !EmptyRange(old(m.word), pgt, Vpn(va), size / 4096) || size / 4096 > 0x8000000
    ensures o == NoMemory ==> m.free == []
    ensures m.held <==> o == NoMemory
    ensures Grew(old(m.word), old(m.role), m.word, m.role, pgt, Run(pa, size / 4096))
  {
    hide AllocOk, LinkedUp, LinkedDown, Grew, SamePtes, OnePteChanged, MappedRange;
    hide EmptyRange, Walked, Pte, PageDesc, Vpn, Run, Dist;
    ghost var n, v := size / 4096, Vpn(va);
    ghost var w0, r0 := m.word, m.role;
    GrewReflexive(w0, r0, pgt, Run(pa, n));
    if va % 4096 != 0 || pa % 4096 != 0 || size % 4096 != 0 {
      return Panicked;
    }
    MappedNone(w0, r0, pgt, v, pa, attr);
    var p, va', pa' := 0, va, pa;
    ghost var k := 0;
    while p < size
      invariant p == k * 4096 && va' == va + p && pa' == pa + p && k <= n && k <= 0x8000000
      invariant Ready(m) && !m.held && IsRoot(m.role, pgt)
      invariant MappedRange(w0, r0, m.word, pgt, v, k, pa, attr) && EmptyRange(w0, pgt, v, k)
      invariant Grew(w0, r0, m.word, m.role, pgt, Run(pa, n))
      invariant forall j :: k <= j < n ==> pa + j * 4096 in m.role && m.role[pa + j * 4096] == Pinned
    {
      ghost var w1, r1 := m.word, m.role;
      VpnStep(va, k);
      o := MapOne(m, pgt, va', pa', attr);
      if o != Done {
        MapStops(w0, r0, w1, r1, m.word, m.role, pgt, v, Vpn(va'), k, n, pa, attr, o);
        return o;
      }
      RootsKept(w0, r0, w1, r1, pgt, pa, n);
      MapStepPtes(w0, r0, w1, r1, m.word, pgt, v, Vpn(va'), k, pa, attr);
      MapStepGrew(w0, r0, w1, r1, m.word, m.role, pgt, k, n, pa);
      PinnedKept(w1, r1, m.word, m.role, pgt, k, n, pa);
      k := k + 1;
      p, va', pa' := p + 4096, va' + 4096, pa' + 4096;
    }
    return Done;
  }

  lemma GrewReflexive(w: Words, r: Roles, root: nat, given: set<nat>)
    ensures Grew(w, r, w, r, root, given)
  {
  }

  lemma MappedNone(w: Words, r: Roles, root: nat, v: nat, pa: nat, attr: nat)
    requires v < 0x8000000
    ensures MappedRange(w, r, w, root, v, 0, pa, attr) && EmptyRange(w, root, v, 0)
  {
  }

  lemma RootsKept(w: Words, r: Roles, w': Words, r': Roles, root: nat, pa: nat, n: nat)
    requires Grew(w, r, w', r', root, Run(pa, n))
    requires forall j :: 0 <= j < n ==> pa + j * 4096 in r && r[pa + j * 4096] == Pinned
    ensures forall x :: IsRoot(r, x) ==> IsRoot(r', x)
  {
  }

  lemma PinnedKept(w1: Words, r1: Roles, w2: Words, r2: Roles, pgt: nat, k: nat, n: nat, pa: nat)
    requires Grew(w1, r1, w2, r2, pgt, {pa + k * 4096})
    requires forall j :: k <= j < n ==> pa + j * 4096 in r1 && r1[pa + j * 4096] == Pinned
    ensures forall j :: k + 1 <= j < n ==> pa + j * 4096 in r2 && r2[pa + j * 4096] == Pinned
  {
  }

  lemma MapStops(w0: Words, r0: Roles, w1: Words, r1: Roles, w2: Words, r2: Roles,
                 pgt: nat, v: nat, x: nat, k: nat, n: nat, pa: nat, attr: nat, o: Outcome)
    requires Sized(w0, r0) && Sized(w1, r1) && Sized(w2, r2) && IsRoot(r0, pgt)
    requires v < 0x8000000 && x < 0x8000000 && k <= 0x8000000 && k < n
    requires forall j :: 0 <= j < n ==> pa + j * 4096 in r0 && r0[pa + j * 4096] == Pinned
    requires MappedRange(w0, r0, w1, pgt, v, k, pa, attr)
    requires Grew(w0, r0, w1, r1, pgt, Run(pa, n)) && Walked(w1, r1, w2, r2, pgt)
    requires k < 0x8000000 ==> Dist(v, x) == k
    requires o == Panicked ==> Pte(w1, pgt, x) != 0
    ensures Grew(w0, r0, w2, r2, pgt, Run(pa, n))
    ensures o == Panicked ==> !EmptyRange(w0, pgt, v, n) || n > 0x8000000
  {
    hide Pte, PageDesc, Grew, Run, Sized;
    RunPinned(r0, pa, k, n);
    GrewWiden(w1, r1, w2, r2, pgt, {}, Run(pa, n));
    GrewTransitive(w0, r0, w1, r1, w2, r2, pgt, Run(pa, n));
  }
}
