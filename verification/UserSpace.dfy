/** Building, growing, copying and reading user address spaces. */
module UserSpace {
  import opened PhysMem
  import opened PageTable
  import opened TableUpdate
  import opened AddressSpace
  import opened DescriptorBits

  const USER_BASE: nat := 0x1000
  const USTACKBOTTOM: nat := 0x7fffffe000

  function Pages(size: nat): nat {
    (size + 4095) / 4096
  }

  function PageRoundUp(p: nat): nat {
    Pages(p) * 4096
  }

  function PagesBetween(oldsz: nat, newsz: nat): nat {
    if Pages(newsz) > Pages(oldsz) then Pages(newsz) - Pages(oldsz) else 0
  }

  type Page = p: seq<nat> | |p| == 512 witness ZeroPage()

  /** The frame that a descriptor names. */
  function Content(w: Words, e: nat): seq<nat> {
    if PtePa(e) in w then w[PtePa(e)] else []
  }

  /** Pages v, v+1, ... of one address space now exist with the given contents,
      and no other translation of any address space changed. */
  ghost predicate Filled(w0: Words, r0: Roles, w1: Words, root: nat, v: nat, contents: seq<Page>, attr: nat)
    requires v < 0x8000000
  {
    forall r, x :: IsRoot(r0, r) && 0 <= x < 0x8000000 ==>
      var e := Pte(w1, r, x);
      if r == root && Dist(v, x) < |contents| then
        e != 0 && e == PageDesc(PtePa(e), attr) && Content(w1, e) == contents[Dist(v, x)]
      else
        e == Pte(w0, r, x)
  }

  /** kalloc, fill the page, pagemap: one turn of every populating loop. */
  method FillPage(m: Memory, pgt: nat, va: nat, content: Page, attr: nat) returns (o: Outcome)
    requires Ready(m) && !m.held && IsRoot(m.role, pgt) && AttrOk(attr)
    modifies m
    ensures Ready(m) && IsRoot(m.role, pgt)
    ensures o == Done ==>
      && PageAligned(va) && Pte(old(m.word), pgt, Vpn(va)) == 0
      && Filled(old(m.word), old(m.role), m.word, pgt, Vpn(va), [content], attr)
      && Grew(old(m.word), old(m.role), m.word, m.role, pgt, {})
    ensures o == Panicked ==> !PageAligned(va) || Pte(old(m.word), pgt, Vpn(va)) != 0
    ensures o == NoMemory ==> m.free == []
    ensures m.held <==> o == NoMemory
  {
    hide AllocOk, LinkedUp, LinkedDown, Grew, SamePtes, MappedRange, EmptyRange;
    hide Filled, Walked, Pte, PageDesc, Vpn, Run, Dist;
    ghost var w0, r0, x := m.word, m.role, Vpn(va);
    var page := Take(m);
    if page == 0 {
      return NoMemory;
    }
    ghost var w1, r1 := m.word, m.role;
    m.word := m.word[page := content];
    AllocRewrite(w1, r1, m.freelist, m.free, page, content);
    LinkedFrame(w1, r1, m.word, m.role);
    ghost var w2 := m.word;
    SamePtesStep(w0, r0, w1, r1, w2);
    o := PageMap(m, pgt, va, page, 4096, attr);
    if o == Done {
      FillSpec(w0, r0, w2, r1, m.word, m.role, pgt, x, page, content, attr);
    } else {
      FillFails(w0, r0, w2, pgt, x);
    }
  }

  lemma FillSpec(w0: Words, r0: Roles, w2: Words, r1: Roles, w3: Words, r3: Roles,
                 pgt: nat, x: nat, page: nat, content: Page, attr: nat)
    requires Sized(w0, r0) && Sized(w2, r1) && Linked(w3, r3) && IsRoot(r0, pgt) && IsRoot(r3, pgt)
    requires x < 0x8000000 && AttrOk(attr)
    requires page in r0 && r0[page] == Free && r1 == r0[page := Pinned] && w2 == w0[page := content]
    requires SamePtes(w0, w2, r0)
    requires MappedRange(w2, r1, w3, pgt, x, 1, page, attr) && EmptyRange(w2, pgt, x, 1)
    requires Grew(w2, r1, w3, r3, pgt, Run(page, 1))
    ensures Pte(w0, pgt, x) == 0
    ensures Filled(w0, r0, w3, pgt, x, [content], attr)
    ensures Grew(w0, r0, w3, r3, pgt, {})
  {
    PageDescRoundTrip(page, attr);
    MappedOne(w2, r1, w3, pgt, x, page, attr);
    WalkRoles(w3, r3, pgt, x);
    hide Pte, PageDesc, PtePa, Filled, MappedRange, EmptyRange, Dist, Run, SamePtes, OnePteChanged;
    RunOne(page);
    FillGrew(w0, r0, w2, r1, w3, r3, pgt, page, content);
    FillPtes(w0, r0, w2, r1, w3, pgt, x, page, content, attr);
  }

  lemma FillGrew(w0: Words, r0: Roles, w2: Words, r1: Roles, w3: Words, r3: Roles, pgt: nat, page: nat, content: Page)
    requires Sized(w0, r0) && Sized(w2, r1) && Sized(w3, r3)
    requires page in r0 && r0[page] == Free && r1 == r0[page := Pinned] && w2 == w0[page := content]
    requires Grew(w2, r1, w3, r3, pgt, {page}) && r3[page].Node?
    ensures page in w3 && w3[page] == content
    ensures Grew(w0, r0, w3, r3, pgt, {})
  {
  }

  lemma RunOne(page: nat)
    ensures Run(page, 1) == {page}
  {
    assert page + 0 * 4096 == page;
    assert page in Run(page, 1) by {
      assert 0 <= 0 < 1 && page + 0 * 4096 in Run(page, 1);
    }
  }

  lemma MappedOne(w2: Words, r1: Roles, w3: Words, pgt: nat, x: nat, page: nat, attr: nat)
    requires x < 0x8000000 && MappedRange(w2, r1, w3, pgt, x, 1, page, attr) && EmptyRange(w2, pgt, x, 1)
    ensures OnePteChanged(w2, w3, r1, pgt, x, PageDesc(page, attr)) && Pte(w2, pgt, x) == 0
  {
    forall y | 0 <= y < 0x8000000 ensures Dist(x, y) < 1 <==> y == x {
    }
    assert Dist(x, x) == 0;
    assert page + 0 * 4096 == page;
    hide Pte, Dist, PageDesc;
  }

  lemma FillPtes(w0: Words, r0: Roles, w2: Words, r1: Roles, w3: Words,
                 pgt: nat, x: nat, page: nat, content: Page, attr: nat)
    requires IsRoot(r0, pgt) && x < 0x8000000
    requires page in r0 && r0[page] == Free && r1 == r0[page := Pinned]
    requires SamePtes(w0, w2, r0) && Pte(w2, pgt, x) == 0
    requires OnePteChanged(w2, w3, r1, pgt, x, PageDesc(page, attr))
    requires PageDesc(page, attr) != 0 && PtePa(PageDesc(page, attr)) == page
    requires page in w3 && w3[page] == content
    ensures Pte(w0, pgt, x) == 0
    ensures Filled(w0, r0, w3, pgt, x, [content], attr)
  {
    forall y | 0 <= y < 0x8000000 ensures Dist(x, y) < 1 <==> y == x {
    }
    hide Pte, PageDesc, PtePa, Dist;
  }

  lemma FillFails(w0: Words, r0: Roles, w2: Words, pgt: nat, x: nat)
    requires SamePtes(w0, w2, r0) && IsRoot(r0, pgt) && x < 0x8000000
    ensures !EmptyRange(w2, pgt, x, 1) ==> Pte(w0, pgt, x) != 0
  {
    forall y | 0 <= y < 0x8000000 && Dist(x, y) < 1 ensures y == x {
    }
    hide Pte, Dist;
  }

  /** Pages already filled keep their contents while another is filled. */
  lemma FillStep(w0: Words, r0: Roles, w1: Words, r1: Roles, w2: Words, r2: Roles,
                 root: nat, v: nat, x: nat, cs: seq<Page>, c: Page, attr: nat)
    requires Linked(w1, r1) && Sized(w0, r0) && Sized(w2, r2) && IsRoot(r0, root) && IsRoot(r1, root)
    requires v < 0x8000000 && x < 0x8000000 && Dist(v, x) == |cs|
    requires Filled(w0, r0, w1, root, v, cs, attr) && Grew(w0, r0, w1, r1, root, {})
    requires Filled(w1, r1, w2, root, x, [c], attr) && Grew(w1, r1, w2, r2, root, {})
    ensures Filled(w0, r0, w2, root, v, cs + [c], attr) && Grew(w0, r0, w2, r2, root, {})
  {
    GrewTransitive(w0, r0, w1, r1, w2, r2, root, {});
    forall y | 0 <= y < 0x8000000 ensures Dist(x, y) < 1 <==> Dist(v, y) == |cs| {
    }
    forall r, y | IsRoot(r0, r) && 0 <= y < 0x8000000
      ensures var e := Pte(w2, r, y);
        if r == root && Dist(v, y) < |cs + [c]| then
          e != 0 && e == PageDesc(PtePa(e), attr) && Content(w2, e) == (cs + [c])[Dist(v, y)]
        else e == Pte(w0, r, y)
    {
      WalkRoles(w1, r1, root, y);
      hide Pte, Dist, PageDesc, PtePa;
    }
  }

  lemma FilledNone(w: Words, r: Roles, root: nat, v: nat, attr: nat)
    requires v < 0x8000000
    ensures Filled(w, r, w, root, v, [], attr) && Grew(w, r, w, r, root, {}) && EmptyRange(w, root, v, 0)
  {
  }

  lemma EmptyStep(w0: Words, r0: Roles, w1: Words, root: nat, v: nat, x: nat, cs: seq<Page>, attr: nat)
    requires IsRoot(r0, root) && v < 0x8000000 && x < 0x8000000 && |cs| <= 0x8000000
    requires |cs| < 0x8000000 ==> Dist(v, x) == |cs|
    requires |cs| == 0x8000000 ==> x == v
    requires Filled(w0, r0, w1, root, v, cs, attr) && EmptyRange(w0, root, v, |cs|)
    requires Pte(w1, root, x) == 0
    ensures |cs| < 0x8000000 && EmptyRange(w0, root, v, |cs| + 1)
  {
    assert Dist(v, v) == 0;
    forall y | 0 <= y < 0x8000000 && |cs| < 0x8000000 ensures Dist(v, y) == |cs| <==> y == x {
    }
    hide Pte, Dist, PageDesc, PtePa;
  }

  /** What a populating loop has done once it is through. */
  ghost predicate Populated(w0: Words, r0: Roles, w1: Words, r1: Roles, root: nat, v: nat, contents: seq<Page>,
                            attr: nat)
    requires v < 0x8000000
  {
    && |contents| <= 0x8000000
    && EmptyRange(w0, root, v, |contents|)
    && Filled(w0, r0, w1, root, v, contents, attr)
    && Grew(w0, r0, w1, r1, root, {})
  }

  lemma PopulateStep(w0: Words, r0: Roles, w1: Words, r1: Roles, w2: Words, r2: Roles,
                     root: nat, v: nat, x: nat, cs: seq<Page>, c: Page, attr: nat)
    requires Linked(w1, r1) && Sized(w0, r0) && Sized(w2, r2) && IsRoot(r0, root) && IsRoot(r1, root)
    requires v < 0x8000000 && x < 0x8000000
    requires Populated(w0, r0, w1, r1, root, v, cs, attr)
    requires |cs| < 0x8000000 ==> Dist(v, x) == |cs|
    requires |cs| == 0x8000000 ==> x == v
    requires Pte(w1, root, x) == 0
    requires Filled(w1, r1, w2, root, x, [c], attr) && Grew(w1, r1, w2, r2, root, {})
    ensures Populated(w0, r0, w2, r2, root, v, cs + [c], attr)
  {
    hide Filled, Grew, EmptyRange, Pte, Dist, LinkedUp, LinkedDown;
    EmptyStep(w0, r0, w1, root, v, x, cs, attr);
    FillStep(w0, r0, w1, r1, w2, r2, root, v, x, cs, c, attr);
  }

  function ZeroPages(n: nat): (z: seq<Page>)
    ensures |z| == n && forall i :: 0 <= i < n ==> z[i] == ZeroPage()
  {
    seq(n, _ => ZeroPage())
  }

  /** alloc_userspace: fresh zeroed pages for [va, va + memsz). */
  method AllocUserspace(m: Memory, pgt: nat, va: nat, memsz: nat) returns (o: Outcome)
    requires Ready(m) && !m.held && IsRoot(m.role, pgt)
    modifies m
    ensures Ready(m) && IsRoot(m.role, pgt)
    ensures o == Done ==> Populated(old(m.word), old(m.role), m.word, m.role, pgt, Vpn(va), ZeroPages(Pages(memsz)),
      NORMAL_U)
    ensures o == NoMemory ==> m.free == []
    ensures m.held <==> o == NoMemory
    ensures o == Panicked ==> Occupied(old(m.word), pgt, va, Pages(memsz))
    ensures memsz > 0 && !PageAligned(va) ==> o != Done
  {
    o := Populate(m, pgt, va, memsz, NORMAL_U);
  }

  method Populate(m: Memory, pgt: nat, va: nat, memsz: nat, attr: nat) returns (o: Outcome)
    requires Ready(m) && !m.held && IsRoot(m.role, pgt) && AttrOk(attr)
    modifies m
    ensures Ready(m) && IsRoot(m.role, pgt)
    ensures o == Done ==> Populated(old(m.word), old(m.role), m.word, m.role, pgt, Vpn(va), ZeroPages(Pages(memsz)),
      attr)
    ensures o == NoMemory ==> m.free == []
    ensures m.held <==> o == NoMemory
    ensures o == Panicked ==> Occupied(old(m.word), pgt, va, Pages(memsz))
    ensures memsz > 0 && !PageAligned(va) ==> o != Done
  {
    hide AllocOk, LinkedUp, LinkedDown, Grew, Filled, EmptyRange, Pte, PageDesc, Vpn, Dist, Populated;
    ghost var v, w0, r0 := Vpn(va), m.word, m.role;
    PopulatedNone(w0, r0, pgt, v, attr);
    var p, va' := 0, va;
    ghost var k := 0;
    while p < memsz
      invariant p == k * 4096 && va' == va + p && k <= Pages(memsz) && (k > 0 ==> PageAligned(va))
      invariant Ready(m) && !m.held && IsRoot(m.role, pgt) && IsRoot(r0, pgt)
      invariant Populated(w0, r0, m.word, m.role, pgt, v, ZeroPages(k), attr)
    {
      ghost var w1, r1 := m.word, m.role;
      o := FillPage(m, pgt, va', ZeroPage(), attr);
      if o != Done {
        PopulatedBound(w0, r0, w1, r1, pgt, v, ZeroPages(k), attr);
        VpnStep(va, k);
        PopulatePanics(w0, r0, w1, r1, pgt, va, k, Pages(memsz), ZeroPages(k), attr);
        return o;
      }
      PopulatedBound(w0, r0, w1, r1, pgt, v, ZeroPages(k), attr);
      AlignedBack(va, k);
      VpnStep(va, k);
      PopulateStep(w0, r0, w1, r1, m.word, m.role, pgt, v, Vpn(va'), ZeroPages(k), ZeroPage(), attr);
      assert ZeroPages(k) + [ZeroPage()] == ZeroPages(k + 1);
      k := k + 1;
      p, va' := p + 4096, va' + 4096;
    }
    return Done;
  }

  /** Populating panics only over a misaligned or occupied range. */
  ghost predicate Occupied(w: Words, root: nat, va: nat, n: nat) {
    !PageAligned(va) || !EmptyRange(w, root, Vpn(va), n) || n > 0x8000000
  }

  lemma PopulatePanics(w0: Words, r0: Roles, w1: Words, r1: Roles, root: nat, va: nat, k: nat, n: nat,
                       cs: seq<Page>, attr: nat)
    requires IsRoot(r0, root) && k < n && |cs| == k <= 0x8000000
    requires Populated(w0, r0, w1, r1, root, Vpn(va), cs, attr)
    requires k < 0x8000000 ==> Dist(Vpn(va), Vpn(va + k * 4096)) == k
    ensures !PageAligned(va + k * 4096) || Pte(w1, root, Vpn(va + k * 4096)) != 0 ==> Occupied(w0, root, va, n)
  {
    if PageAligned(va) {
      AlignedOn(va, k);
    }
    hide Pte, PageDesc, PtePa, Vpn, PageAligned;
  }

  lemma AlignedOn(va: nat, k: nat)
    requires PageAligned(va)
    ensures PageAligned(va + k * 4096)
  {
  }

  lemma AlignedBack(va: nat, k: nat)
    requires PageAligned(va + k * 4096)
    ensures PageAligned(va)
  {
  }

  lemma PopulatedNone(w: Words, r: Roles, root: nat, v: nat, attr: nat)
    requires v < 0x8000000
    ensures Populated(w, r, w, r, root, v, [], attr) && ZeroPages(0) == []
  {
    FilledNone(w, r, root, v, attr);
  }

  lemma PopulatedBound(w0: Words, r0: Roles, w1: Words, r1: Roles, root: nat, v: nat, cs: seq<Page>, attr: nat)
    requires v < 0x8000000 && Populated(w0, r0, w1, r1, root, v, cs, attr)
    ensures |cs| <= 0x8000000
  {
  }

  const STACK_VPN: nat := 0x7fffffe

  lemma StackVpn()
    ensures Vpn(USTACKBOTTOM) == STACK_VPN && PageAligned(USTACKBOTTOM)
  {
  }

  /** grow_userspace: pages for the part of [oldsz, newsz) not yet covered; the
      result is the first byte gained. */
  method GrowUserspace(m: Memory, pgt: nat, va: nat, oldsz: nat, newsz: nat) returns (o: Outcome, start: nat)
    requires Ready(m) && !m.held && IsRoot(m.role, pgt) && oldsz <= newsz
    modifies m
    ensures Ready(m) && IsRoot(m.role, pgt)
    ensures start == va + oldsz
    ensures o == Done ==>
      Populated(old(m.word), old(m.role), m.word, m.role, pgt, Vpn(va + PageRoundUp(oldsz)),
                ZeroPages(PagesBetween(oldsz, newsz)), NORMAL_U_XN)
    ensures o == NoMemory ==> m.free == []
    ensures m.held <==> o == NoMemory
    ensures o == Panicked ==> Occupied(old(m.word), pgt, va + PageRoundUp(oldsz), PagesBetween(oldsz, newsz))
  {
    hide PagesBetween, Pages, PageRoundUp, Populated, Linked, AllocOk, Vpn, ZeroPages;
    start := va + oldsz;
    var from := PageRoundUp(oldsz);
    var need := if newsz > from then newsz - from else 0;
    PagesGained(oldsz, newsz, need);
    o := Populate(m, pgt, va + from, need, NORMAL_U_XN);
  }

  lemma PagesGained(oldsz: nat, newsz: nat, need: nat)
    requires need == if newsz > PageRoundUp(oldsz) then newsz - PageRoundUp(oldsz) else 0
    ensures Pages(need) == PagesBetween(oldsz, newsz)
  {
  }

  /** map_ustack: one zeroed page at the top of the user range. */
  method MapUstack(m: Memory, pgt: nat) returns (o: Outcome)
    requires Ready(m) && !m.held && IsRoot(m.role, pgt)
    modifies m
    ensures Ready(m) && IsRoot(m.role, pgt)
    ensures o == Done ==> Populated(old(m.word), old(m.role), m.word, m.role, pgt, STACK_VPN, ZeroPages(1), NORMAL_U_XN)
    ensures o == NoMemory ==> m.free == []
    ensures m.held <==> o == NoMemory
    ensures o == Panicked ==> Pte(old(m.word), pgt, STACK_VPN) != 0
  {
    StackVpn();
    o := Populate(m, pgt, USTACKBOTTOM, 4096, NORMAL_U_XN);
    OccupiedPage(old(m.word), pgt, USTACKBOTTOM);
  }

  lemma OccupiedPage(w: Words, root: nat, va: nat)
    ensures Occupied(w, root, va, 1) ==> !PageAligned(va) || Pte(w, root, Vpn(va)) != 0
  {
    forall x | 0 <= x < 0x8000000 && Dist(Vpn(va), x) < 1 ensures x == Vpn(va) {
    }
    hide Pte, Dist;
  }

  function PageOf(w: Words, root: nat, x: nat): Page {
    var c := Content(w, Pte(w, root, x));
    if |c| == 512 then c else ZeroPage()
  }

  function Copies(w: Words, root: nat, v: nat, n: nat): (c: seq<Page>)
    ensures |c| == n && forall j :: 0 <= j < n ==> c[j] == PageOf(w, root, v + j)
  {
    seq<Page>(n, j requires 0 <= j < n => PageOf(w, root, v + j))
  }

  /** Work on one address space leaves the pages of another alone. */
  lemma PageKept(w0: Words, r0: Roles, w1: Words, r1: Roles, root: nat, other: nat, x: nat)
    requires Linked(w0, r0) && Sized(w1, r1) && IsRoot(r0, other) && root != other && x < 0x8000000
    requires Grew(w0, r0, w1, r1, root, {}) && Pte(w1, other, x) == Pte(w0, other, x)
    ensures PageOf(w1, other, x) == PageOf(w0, other, x)
  {
    WalkRoles(w0, r0, other, x);
    var e := Pte(w0, other, x);
    if e != 0 {
      GrewKeeps(w0, r0, w1, r1, root, PtePa(e));
    } else {
      assert PtePa(e) == 0;
      assert 0 !in w0 && 0 !in w1;
    }
    hide Pte, PtePa, LinkedUp, LinkedDown, Grew;
  }

  lemma GrewKeeps(w0: Words, r0: Roles, w1: Words, r1: Roles, root: nat, f: nat)
    requires Sized(w0, r0) && Sized(w1, r1) && Grew(w0, r0, w1, r1, root, {})
    requires f in r0 && r0[f].Node? && (r0[f].root != root || r0[f].level == 4)
    ensures f in w1 && w1[f] == w0[f]
  {
  }

  /** Pages v .. v+n-1 and the stack page of `old` exist in `new` with the same
      words; nothing else was mapped or unmapped anywhere. */
  ghost predicate Forked(w0: Words, r0: Roles, w1: Words, r1: Roles, new_: nat, old_: nat, v: nat, n: nat) {
    && Grew(w0, r0, w1, r1, new_, {})
    && forall r, x :: IsRoot(r0, r) && 0 <= x < 0x8000000 ==>
      if r == new_ && (v <= x < v + n || x == STACK_VPN) then
        UserStores(Pte(w1, new_, x)) && PageOf(w1, new_, x) == PageOf(w0, old_, x)
      else
        Pte(w1, r, x) == Pte(w0, r, x)
  }

  /** User code can load from and store to every page of the address space. */
  ghost predicate Accessible(w: Words, root: nat) {
    forall x: nat :: x < 0x8000000 && Pte(w, root, x) != 0 ==> UserStores(Pte(w, root, x))
  }

  lemma PopulatedAccessible(w0: Words, r0: Roles, w1: Words, r1: Roles, root: nat, v: nat, cs: seq<Page>, attr: nat)
    requires v < 0x8000000 && IsRoot(r0, root) && Populated(w0, r0, w1, r1, root, v, cs, attr)
    requires Accessible(w0, root) && (attr == NORMAL_U || attr == NORMAL_U_XN)
    ensures Accessible(w1, root)
  {
    hide Pte, UserStores;
    forall x: nat | x < 0x8000000 && Pte(w1, root, x) != 0 ensures UserStores(Pte(w1, root, x)) {
      FilledAt(w0, r0, w1, r1, root, v, cs, attr, root, x);
    }
  }

  /** One turn of the fork copy: read a page of one space, add it to another. */
  method CopyPage(m: Memory, newpgt: nat, oldpgt: nat, va: nat, attr: nat) returns (o: Outcome)
    requires Ready(m) && !m.held && IsRoot(m.role, newpgt) && IsRoot(m.role, oldpgt) && AttrOk(attr)
    requires Pte(m.word, oldpgt, Vpn(va)) != 0
    modifies m
    ensures Ready(m) && IsRoot(m.role, newpgt)
    ensures o == Done ==>
      && Pte(old(m.word), newpgt, Vpn(va)) == 0
      && Filled(old(m.word), old(m.role), m.word, newpgt, Vpn(va), [PageOf(old(m.word), oldpgt, Vpn(va))], attr)
      && Grew(old(m.word), old(m.role), m.word, m.role, newpgt, {})
    ensures o == NoMemory ==> m.free == []
    ensures m.held <==> o == NoMemory
    ensures o == Panicked ==> !PageAligned(va) || Pte(old(m.word), newpgt, Vpn(va)) != 0
  {
    UserPage(m.word, m.role, oldpgt, Vpn(va));
    hide LinkedUp, LinkedDown, Grew, Filled, Walked, PageOf, Vpn, AllocOk, Table3, PtePa, Low;
    var ok, t, i := PageWalk(m, oldpgt, va);
    var pte := m.word[t][i];
    var content: Page := m.word[PtePa(pte)];
    o := FillPage(m, newpgt, va, content, attr);
  }

  lemma UserPage(w: Words, r: Roles, root: nat, x: nat)
    requires Linked(w, r) && IsRoot(r, root) && x < 0x8000000 && Pte(w, root, x) != 0
    ensures var t, e := Table3(w, root, x), Pte(w, root, x);
      && t != 0 && t in w && |w[t]| == 512 && Low(x) < 512 && w[t][Low(x)] == e
      && PtePa(e) in w && |w[PtePa(e)]| == 512 && PageOf(w, root, x) == w[PtePa(e)]
  {
    WalkRoles(w, r, root, x);
  }

  /** An address space that a fork or a growth elsewhere does not touch. */
  ghost predicate Intact(w0: Words, w1: Words, r1: Roles, other: nat) {
    && IsRoot(r1, other)
    && forall x :: 0 <= x < 0x8000000 ==>
      Pte(w1, other, x) == Pte(w0, other, x) && PageOf(w1, other, x) == PageOf(w0, other, x)
  }

  lemma OthersIntact(w0: Words, r0: Roles, w1: Words, r1: Roles, root: nat, v: nat, cs: seq<Page>, attr: nat,
                     other: nat)
    requires Linked(w0, r0) && Sized(w1, r1) && IsRoot(r0, other) && other != root && v < 0x8000000
    requires Populated(w0, r0, w1, r1, root, v, cs, attr)
    ensures Intact(w0, w1, r1, other)
  {
    forall x | 0 <= x < 0x8000000
      ensures Pte(w1, other, x) == Pte(w0, other, x) && PageOf(w1, other, x) == PageOf(w0, other, x)
    {
      hide Pte, PageDesc, PtePa, LinkedUp, LinkedDown, PageOf;
      PageKept(w0, r0, w1, r1, root, other, x);
    }
  }

  lemma IntactPage(w0: Words, w1: Words, r1: Roles, other: nat, x: nat)
    requires Intact(w0, w1, r1, other) && x < 0x8000000
    ensures IsRoot(r1, other) && Pte(w1, other, x) == Pte(w0, other, x) && PageOf(w1, other, x) == PageOf(w0, other, x)
  {
  }

  lemma VpnOf(va: nat, k: nat)
    requires PageAligned(va) && va / 4096 + k < 0x8000000
    ensures Vpn(va) == va / 4096 && Vpn(va + k * 4096) == Vpn(va) + k
  {
    assert (va + k * 4096) / 4096 == va / 4096 + k;
  }

  /** cp_userspace: duplicate the heap [va, va + size) and the stack page. */
  method CpUserspace(m: Memory, newpgt: nat, oldpgt: nat, va: nat, size: nat) returns (o: Outcome)
    requires Ready(m) && !m.held && IsRoot(m.role, newpgt) && IsRoot(m.role, oldpgt) && newpgt != oldpgt
    requires PageAligned(va) && va / 4096 + Pages(size) <= STACK_VPN
    requires forall x :: Vpn(va) <= x < Vpn(va) + Pages(size) || x == STACK_VPN ==> Pte(m.word, oldpgt, x) != 0
    modifies m
    ensures Ready(m) && IsRoot(m.role, newpgt)
    ensures o == Done ==>
      Forked(old(m.word), old(m.role), m.word, m.role, newpgt, oldpgt, Vpn(va), Pages(size))
    ensures o == NoMemory ==> m.free == []
    ensures m.held <==> o == NoMemory
    ensures o == Panicked ==> exists x :: 0 <= x < 0x8000000 && Pte(old(m.word), newpgt, x) != 0
  {
    hide AllocOk, LinkedUp, LinkedDown, Grew, Filled, EmptyRange, Pte, PageOf, Populated, Forked, Vpn, Intact, Dist;
    hide UserStores, UserRuns;
    ghost var v, w0, r0, n := Vpn(va), m.word, m.role, Pages(size);
    VpnOf(va, 0);
    StackVpn();
    PopulatedNone(w0, r0, newpgt, v, NORMAL_U);
    OthersIntact(w0, r0, w0, r0, newpgt, v, [], NORMAL_U, oldpgt);
    assert Copies(w0, oldpgt, v, 0) == [];
    var p, va' := 0, va;
    ghost var k := 0;
    while p < size
      invariant p == k * 4096 && va' == va + p && k <= n
      invariant Ready(m) && !m.held && IsRoot(m.role, newpgt) && IsRoot(r0, newpgt)
      invariant Populated(w0, r0, m.word, m.role, newpgt, v, Copies(w0, oldpgt, v, k), NORMAL_U)
      invariant Intact(w0, m.word, m.role, oldpgt)
    {
      ghost var w1, r1, cs := m.word, m.role, Copies(w0, oldpgt, v, k);
      VpnOf(va, k);
      VpnStep(va, k);
      IntactPage(w0, w1, r1, oldpgt, v + k);
      o := CopyPage(m, newpgt, oldpgt, va', NORMAL_U);
      if o != Done {
        PopulatedBound(w0, r0, w1, r1, newpgt, v, cs, NORMAL_U);
        AlignedOn(va, k);
        FilledAt(w0, r0, w1, r1, newpgt, v, cs, NORMAL_U, newpgt, v + k);
        return o;
      }
      PopulateStep(w0, r0, w1, r1, m.word, m.role, newpgt, v, v + k, cs, PageOf(w1, oldpgt, v + k), NORMAL_U);
      assert cs + [PageOf(w0, oldpgt, v + k)] == Copies(w0, oldpgt, v, k + 1);
      k := k + 1;
      OthersIntact(w0, r0, m.word, m.role, newpgt, v, Copies(w0, oldpgt, v, k), NORMAL_U, oldpgt);
      p, va' := p + 4096, va' + 4096;
    }
    ghost var w1, r1 := m.word, m.role;
    IntactPage(w0, w1, r1, oldpgt, STACK_VPN);
    o := CopyPage(m, newpgt, oldpgt, USTACKBOTTOM, NORMAL_U_XN);
    DistIn(v, n, STACK_VPN);
    FilledAt(w0, r0, w1, r1, newpgt, v, Copies(w0, oldpgt, v, n), NORMAL_U, newpgt, STACK_VPN);
    if o == Done {
      ForkedSpec(w0, r0, w1, r1, m.word, m.role, newpgt, oldpgt, v, n);
    }
  }

  lemma ForkedSpec(w0: Words, r0: Roles, w1: Words, r1: Roles, w2: Words, r2: Roles, new_: nat, old_: nat,
                   v: nat, n: nat)
    requires Linked(w0, r0) && Linked(w1, r1) && Sized(w2, r2) && IsRoot(r0, new_) && IsRoot(r1, new_)
    requires v < 0x8000000 && v + n <= STACK_VPN
    requires Populated(w0, r0, w1, r1, new_, v, Copies(w0, old_, v, n), NORMAL_U)
    requires Intact(w0, w1, r1, old_)
    requires Filled(w1, r1, w2, new_, STACK_VPN, [PageOf(w1, old_, STACK_VPN)], NORMAL_U_XN)
    requires Grew(w1, r1, w2, r2, new_, {})
    ensures Forked(w0, r0, w2, r2, new_, old_, v, n)
  {
    hide LinkedUp, LinkedDown, Grew, Filled, Intact, Populated, Pte, PageOf, Sized, UserStores;
    PopulatedGrew(w0, r0, w1, r1, new_, v, Copies(w0, old_, v, n), NORMAL_U);
    GrewTransitive(w0, r0, w1, r1, w2, r2, new_, {});
    forall r, x | IsRoot(r0, r) && 0 <= x < 0x8000000
      ensures if r == new_ && (v <= x < v + n || x == STACK_VPN) then
          UserStores(Pte(w2, new_, x)) && PageOf(w2, new_, x) == PageOf(w0, old_, x)
        else Pte(w2, r, x) == Pte(w0, r, x)
    {
      ForkedAt(w0, r0, w1, r1, w2, r2, new_, old_, v, n, r, x);
    }
  }

  lemma DistIn(v: nat, n: nat, x: nat)
    requires v < 0x8000000 && x < 0x8000000 && v + n <= 0x8000000
    ensures Dist(v, x) < n <==> v <= x < v + n
    ensures v <= x ==> Dist(v, x) == x - v
  {
  }

  lemma ForkedAt(w0: Words, r0: Roles, w1: Words, r1: Roles, w2: Words, r2: Roles,
                 new_: nat, old_: nat, v: nat, n: nat, r: nat, x: nat)
    requires Linked(w1, r1) && Sized(w2, r2) && IsRoot(r1, new_)
    requires v < 0x8000000 && v + n <= STACK_VPN
    requires Populated(w0, r0, w1, r1, new_, v, Copies(w0, old_, v, n), NORMAL_U)
    requires Intact(w0, w1, r1, old_)
    requires Filled(w1, r1, w2, new_, STACK_VPN, [PageOf(w1, old_, STACK_VPN)], NORMAL_U_XN)
    requires Grew(w1, r1, w2, r2, new_, {})
    requires IsRoot(r0, r) && x < 0x8000000
    ensures if r == new_ && (v <= x < v + n || x == STACK_VPN) then
        UserStores(Pte(w2, new_, x)) && PageOf(w2, new_, x) == PageOf(w0, old_, x)
      else Pte(w2, r, x) == Pte(w0, r, x)
  {
    hide LinkedUp, LinkedDown, Grew, Filled, Intact, Populated, Pte, PageOf, Dist, UserStores, UserRuns;
    FilledAt(w0, r0, w1, r1, new_, v, Copies(w0, old_, v, n), NORMAL_U, r, x);
    IntactPage(w0, w1, r1, old_, STACK_VPN);
    RootStays(w0, r0, w1, r1, new_, v, Copies(w0, old_, v, n), NORMAL_U, r);
    StackAt(w1, r1, w2, r2, new_, PageOf(w1, old_, STACK_VPN), r, x);
    DistIn(v, n, x);
  }

  lemma PopulatedGrew(w0: Words, r0: Roles, w1: Words, r1: Roles, root: nat, v: nat, cs: seq<Page>, attr: nat)
    requires v < 0x8000000 && Populated(w0, r0, w1, r1, root, v, cs, attr)
    ensures Grew(w0, r0, w1, r1, root, {})
  {
  }

  lemma RootStays(w0: Words, r0: Roles, w1: Words, r1: Roles, root: nat, v: nat, cs: seq<Page>, attr: nat, r: nat)
    requires v < 0x8000000 && Populated(w0, r0, w1, r1, root, v, cs, attr) && IsRoot(r0, r)
    ensures IsRoot(r1, r)
  {
  }

  lemma FilledAt(w0: Words, r0: Roles, w1: Words, r1: Roles, root: nat, v: nat, cs: seq<Page>, attr: nat,
                 r: nat, x: nat)
    requires v < 0x8000000 && Populated(w0, r0, w1, r1, root, v, cs, attr) && IsRoot(r0, r) && x < 0x8000000
    ensures if r == root && Dist(v, x) < |cs| then
        && Pte(w1, r, x) != 0 && PageOf(w1, r, x) == cs[Dist(v, x)]
        && (attr == NORMAL_U || attr == NORMAL_U_XN ==>
              UserStores(Pte(w1, r, x)) && (UserRuns(Pte(w1, r, x)) <==> attr == NORMAL_U))
      else Pte(w1, r, x) == Pte(w0, r, x)
  {
    if attr == NORMAL_U || attr == NORMAL_U_XN {
      UserAttrs(PtePa(Pte(w1, r, x)), attr);
    }
    hide Pte, PtePa, PageDesc, UserStores, UserRuns;
  }

  /** The last step of the copy adds the stack page and keeps every other page. */
  lemma StackAt(w1: Words, r1: Roles, w2: Words, r2: Roles, root: nat, c: Page, r: nat, x: nat)
    requires Linked(w1, r1) && Sized(w2, r2) && IsRoot(r1, root) && IsRoot(r1, r) && x < 0x8000000
    requires Filled(w1, r1, w2, root, STACK_VPN, [c], NORMAL_U_XN) && Grew(w1, r1, w2, r2, root, {})
    ensures if r == root && x == STACK_VPN then
        Pte(w2, r, x) != 0 && UserStores(Pte(w2, r, x)) && PageOf(w2, r, x) == c
      else
        Pte(w2, r, x) == Pte(w1, r, x) && PageOf(w2, r, x) == PageOf(w1, r, x)
  {
    UserAttrs(PtePa(Pte(w2, r, x)), NORMAL_U_XN);
    hide UserStores;
    assert Dist(STACK_VPN, x) < 1 <==> x == STACK_VPN;
    WalkRoles(w1, r1, r, x);
    var e := Pte(w1, r, x);
    if e != 0 {
      GrewKeeps(w1, r1, w2, r2, root, PtePa(e));
    } else {
      NoFrame();
      assert 0 !in w1 && 0 !in w2;
    }
    hide Pte, PtePa, LinkedUp, LinkedDown, Grew, PageDesc, Dist;
  }

  lemma NoFrame()
    ensures PtePa(0) == 0
  {
  }
}
