/** Physical page frames and the page allocator of kernel/kalloc.c.

  A frame is 512 little-endian 64-bit words, which is how page tables and the
  free list both look at it.  A frame is named by its physical address; the
  kernel pointer P2V(pa) is that address plus a constant. */
module PhysMem {
  import opened Sequences

  /** What a frame is used for: the proof's own ledger, not kernel data.
      `Node` is a frame of the address space whose level-1 table is `root`:
      levels 1..3 are tables and level 4 is a user page.  `slot` of the
      table `parent` names the frame, and `prefix` is the table indices leading
      to it, read as a base-512 number. */
  datatype Role =
    | Free
    | Pinned
    | Node(root: nat, level: nat, parent: nat, slot: nat, prefix: nat)

  type Words = map<nat, seq<nat>>
  type Roles = map<nat, Role>

  function ZeroPage(): (z: seq<nat>)
    ensures |z| == 512 && forall i :: 0 <= i < 512 ==> z[i] == 0
  {
    seq(512, _ => 0)
  }

  /** The free list threaded through word 0 of each free frame, ending in NULL. */
  ghost predicate Chain(word: Words, head: nat, free: seq<nat>)
    decreases |free|
  {
    if free == [] then head == 0
    else
      && head == free[0] != 0
      && head in word && |word[head]| == 512
      && Chain(word, word[head][0], free[1..])
  }

  predicate PageAligned(a: nat) {
    a % 4096 == 0
  }

  /** Page aligned, not NULL, and within the 48-bit output address of a descriptor. */
  predicate FrameAddress(f: nat) {
    f != 0 && PageAligned(f) && f < 0x1000000000000
  }

  lemma AlignedGap(f: nat, p: nat)
    requires PageAligned(f) && PageAligned(p)
    ensures f < p + 4096 <==> f < p || f == p
    ensures PageAligned(p + 4096)
  {
    if p <= f < p + 4096 {
      assert (f - p) % 4096 == 0;
    }
  }

  lemma {:induction false} ChainFrame(word: Words, word': Words, head: nat, free: seq<nat>)
    requires Chain(word, head, free)
    requires forall f :: f in free ==> f in word' && f in word && word'[f] == word[f]
    ensures Chain(word', head, free)
    decreases |free|
  {
    if free != [] {
      assert free[0] in free;
      assert forall f :: f in free[1..] ==> f in free;
      ChainFrame(word, word', word[head][0], free[1..]);
    }
  }

  /** The free list holds each free frame once, and nothing else. */
  ghost predicate AllocOk(word: Words, role: Roles, head: nat, free: seq<nat>) {
    && Chain(word, head, free)
    && NoDup(free)
    && Sized(word, role)
    && (forall f :: f in free <==> f in role && role[f] == Free)
  }

  ghost predicate Sized(word: Words, role: Roles) {
    && word.Keys == role.Keys
    && forall f :: f in role ==> FrameAddress(f) && |word[f]| == 512
  }

  lemma AllocPop(word: Words, role: Roles, head: nat, free: seq<nat>)
    requires AllocOk(word, role, head, free) && free != []
    ensures head in role && role[head] == Free
    ensures AllocOk(word[head := ZeroPage()], role[head := Pinned], word[head][0], free[1..])
  {
    var rest := free[1..];
    assert head in free && head !in rest;
    assert forall f :: f in free <==> f == head || f in rest;
    ChainFrame(word, word[head := ZeroPage()], word[head][0], rest);
  }

  lemma AllocPush(word: Words, role: Roles, head: nat, free: seq<nat>, page: nat, content: seq<nat>)
    requires AllocOk(word, role, head, free)
    requires page in role && role[page] == Pinned
    requires |content| == 512 && content[0] == head
    ensures AllocOk(word[page := content], role[page := Free], page, [page] + free)
  {
    assert page !in free;
    ChainFrame(word, word[page := content], head, free);
    assert ([page] + free)[1..] == free;
  }

  /** Frames that are not free can be rewritten and put to other uses. */
  lemma AllocFrame(word: Words, role: Roles, word': Words, role': Roles, head: nat, free: seq<nat>)
    requires AllocOk(word, role, head, free) && Sized(word', role')
    requires forall f :: f in role' && role'[f] == Free <==> f in role && role[f] == Free
    requires forall f :: f in free ==> f in word' && word'[f] == word[f]
    ensures AllocOk(word', role', head, free)
  {
    ChainFrame(word, word', head, free);
  }

  lemma AllocRewrite(word: Words, role: Roles, head: nat, free: seq<nat>, page: nat, content: seq<nat>)
    requires AllocOk(word, role, head, free)
    requires page in role && role[page] != Free && |content| == 512
    ensures AllocOk(word[page := content], role, head, free)
  {
    AllocFrame(word, role, word[page := content], role, head, free);
  }

  lemma AllocUse(word: Words, role: Roles, head: nat, free: seq<nat>, page: nat, use: Role)
    requires AllocOk(word, role, head, free)
    requires page in role && role[page] != Free && use != Free
    ensures AllocOk(word, role[page := use], head, free)
  {
    AllocFrame(word, role, word, role[page := use], head, free);
  }

  /** The whole pages of the range below p are free, the others as they were. */
  predicate InitRoles(r0: Roles, r: Roles, lo: nat, hi: nat, p: nat) {
    && r.Keys == r0.Keys
    && forall f :: f in r ==> r[f] == if lo <= f && f + 4096 <= hi && f < p then Free else r0[f]
  }

  lemma InitStep(r0: Roles, r: Roles, lo: nat, hi: nat, p: nat)
    requires InitRoles(r0, r, lo, hi, p) && PageAligned(p) && lo <= p && p + 4096 <= hi && p in r
    requires forall f :: f in r ==> PageAligned(f)
    ensures InitRoles(r0, r[p := Free], lo, hi, p + 4096) && PageAligned(p + 4096)
  {
    forall f | f in r ensures f < p + 4096 <==> f < p || f == p {
      AlignedGap(f, p);
    }
  }

  class Memory {
    var word: Words
    var freelist: nat
    // the byte of the allocator's lock
    var held: bool
    ghost var free: seq<nat>
    ghost var role: Roles

    ghost predicate Valid()
      reads this
    {
      AllocOk(word, role, freelist, free)
    }

    constructor (pages: map<nat, seq<nat>>)
      requires forall f :: f in pages ==> FrameAddress(f) && |pages[f]| == 512
      ensures Valid() && !held && free == [] && word == pages
      ensures forall f :: f in role ==> role[f] == Pinned
    {
      word := pages;
      freelist := 0;
      held := false;
      free := [];
      role := map f | f in pages :: Pinned;
    }

    /** Take the head of the list and clear it; NULL when the list is empty, and then
        the lock is not released, so that no allocator call can follow. */
    method KAlloc() returns (page: nat)
      requires Valid() && !held
      modifies this
      ensures Valid() && (held <==> page == 0)
      ensures old(free) == [] ==> page == 0 && word == old(word) && role == old(role) && free == []
      ensures old(free) != [] ==>
        && page == old(free)[0] && page in old(role) && old(role)[page] == Free
        && free == old(free)[1..]
        && word == old(word)[page := ZeroPage()]
        && role == old(role)[page := Pinned]
    {
      held := true;
      page := freelist;
      if page == 0 {
        return;
      }
      AllocPop(word, role, page, free);
      freelist := word[page][0];
      held := false;
      word := word[page := ZeroPage()];
      role := role[page := Pinned];
      free := free[1..];
    }

    /** Clear the page and push it; only a frame that nothing refers to may be freed. */
    method KFree(page: nat)
      requires Valid() && !held
      requires page == 0 || (page in role && role[page] == Pinned)
      modifies this
      ensures Valid() && !held
      ensures page == 0 ==> word == old(word) && role == old(role) && free == old(free)
      ensures page != 0 ==>
        && free == [page] + old(free)
        && word == old(word)[page := ZeroPage()[0 := old(freelist)]]
        && role == old(role)[page := Free]
    {
      if page == 0 {
        return;
      }
      word := word[page := ZeroPage()];
      var link: seq<nat> := word[page][0 := freelist];
      word := word[page := link];
      AllocPush(old(word), role, freelist, free, page, link);
      assert word == old(word)[page := link];
      free := [page] + free;
      freelist := page;
      role := role[page := Free];
    }

    /** Free pages, in kilobytes: the walk visits every free frame once. */
    method FreedMemKb() returns (kb: nat)
      requires Valid() && !held
      ensures kb == |free| * 4096 / 1024
    {
      var h := freelist;
      var c := 0;
      ghost var rest := free;
      while h != 0
        invariant Chain(word, h, rest)
        invariant c + |rest| == |free|
        decreases |rest|
      {
        c := c + 1;
        h := word[h][0];
        rest := rest[1..];
      }
      kb := c * 4096 / 1024;
    }

    /** Boot: push every page of [lo, hi), as kalloc_init1 and kalloc_init2 do. */
    method InitRange(lo: nat, hi: nat)
      requires Valid() && !held
      requires PageAligned(lo) && lo > 0
      requires forall p :: lo <= p && p + 4096 <= hi && PageAligned(p) ==> p in role && role[p] == Pinned
      modifies this
      ensures Valid() && !held
      ensures role.Keys == old(role).Keys
      ensures forall f :: f in role ==>
        role[f] == if lo <= f && f + 4096 <= hi then Free else old(role)[f]
    {
      var p := lo;
      while p + 4096 <= hi
        invariant Valid() && !held && PageAligned(p) && lo <= p
        invariant InitRoles(old(role), role, lo, hi, p)
        decreases hi - p
      {
        assert p in role && role[p] == Pinned;
        InitStep(old(role), role, lo, hi, p);
        hide AllocOk, PageAligned;
        KFree(p);
        p := p + 4096;
      }
    }
  }
}
