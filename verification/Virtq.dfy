/** The driver side of a split virtqueue (VIRTIO 1.1, sections 2.6.5 to 2.6.8) as
  kernel/driver/virtio.c keeps it: a descriptor free list threaded through the
  descriptor table, chains handed to the device, two rings with free-running
  16-bit indices, and the device as a partner that may complete in any order. */
module Virtq {
  import opened Sequences
  import opened Options

  /** What a descriptor points at. */
  datatype Addr = Nothing | Header(write: bool, sector: nat) | Data(buf: nat) | StatusOf(head: nat)

  /** struct virtq_desc: where the bytes are and how many, the flags F_NEXT and F_WRITE, and
      the next field. */
  datatype Desc = Desc(addr: Addr, len: nat, more: bool, write: bool, next: nat)

  /** info[]: buf is NULL once the handler has dealt with the request. */
  datatype Info = Info(done: bool, buf: Option<nat>)

  // ---- The free list and the chains

  predicate LinkedAt(ds: seq<Desc>, s: seq<nat>, k: nat)
    requires k + 1 < |s|
  {
    s[k] < |ds| && ds[s[k]].more && ds[s[k]].next == s[k + 1]
  }

  /** Following next from s[0] visits s; what its last entry holds is not said. */
  predicate Path(ds: seq<Desc>, s: seq<nat>) {
    && (forall k :: 0 <= k < |s| ==> s[k] < |ds|)
    && (forall k: nat :: k + 1 < |s| ==> LinkedAt(ds, s, k))
  }

  /** A chain ends at a descriptor without F_NEXT. */
  predicate ChainOk(ds: seq<Desc>, s: seq<nat>) {
    |s| > 0 && NoDup(s) && Path(ds, s) && !ds[s[|s| - 1]].more
  }

  /** The nfree-step walk from free_head. */
  predicate FreeList(ds: seq<Desc>, freeHead: nat, free: seq<nat>) {
    NoDup(free) && Path(ds, free) && (free != [] ==> free[0] == freeHead)
  }

  predicate Disjoint(s: seq<nat>, t: seq<nat>) {
    forall d :: d in s ==> d !in t
  }

  /** Every descriptor is free or in one chain, and in one place only. */
  ghost predicate Partition(n: nat, free: seq<nat>, chains: map<nat, seq<nat>>) {
    && (forall d: nat :: d < n ==> d in free || InSomeChain(chains, d))
    && (forall h :: h in chains ==> Disjoint(chains[h], free))
    && (forall h, g :: h in chains && g in chains && h != g ==> Disjoint(chains[h], chains[g]))
  }

  ghost predicate InSomeChain(chains: map<nat, seq<nat>>, d: nat) {
    exists h :: h in chains && d in chains[h]
  }

  /** F_NEXT is set up to the last descriptor of a chain. */
  lemma ChainNext(ds: seq<Desc>, s: seq<nat>, k: nat)
    requires ChainOk(ds, s) && k < |s|
    ensures s[k] < |ds| && (ds[s[k]].more <==> k + 1 < |s|)
    ensures k + 1 < |s| ==> ds[s[k]].next == s[k + 1]
  {
    assert k + 1 < |s| ==> LinkedAt(ds, s, k);
  }

  /** 0, 1, ..., n - 1 */
  function Upto(n: nat): (s: seq<nat>)
    ensures |s| == n && forall i {:trigger s[i]} :: 0 <= i < n ==> s[i] == i
  {
    seq(n, i => i)
  }

  lemma AllFree(ds: seq<Desc>, info: seq<Info>)
    requires forall k :: 0 <= k < |ds| - 1 ==> ds[k].more && ds[k].next == k + 1
    requires forall k :: 0 <= k < |info| ==> !info[k].done
    ensures FreeList(ds, 0, Upto(|ds|)) && Partition(|ds|, Upto(|ds|), map[]) && Stages(map[], [], {}, [], info)
  {
    forall d: nat | d < |ds| ensures d in Upto(|ds|) {
      assert Upto(|ds|)[d] == d;
    }
    var s := Upto(|ds|);
    forall k: nat | k + 1 < |s| ensures LinkedAt(ds, s, k) {
    }
  }

  /** Writing a descriptor that is not on a path leaves the path alone. */
  lemma PathFrame(ds: seq<Desc>, s: seq<nat>, d: nat, x: Desc)
    requires Path(ds, s) && d < |ds| && d !in s
    ensures Path(ds[d := x], s)
  {
    var ds' := ds[d := x];
    forall k: nat | k + 1 < |s| ensures LinkedAt(ds', s, k) {
      assert LinkedAt(ds, s, k);
    }
  }

  lemma PathTail(ds: seq<Desc>, s: seq<nat>)
    requires Path(ds, s) && s != []
    ensures Path(ds, s[1..])
  {
    var t := s[1..];
    forall k: nat | k + 1 < |t| ensures LinkedAt(ds, t, k) {
      assert LinkedAt(ds, s, k + 1);
    }
  }

  /** A freed chain in front of the free list: its last descriptor is given F_NEXT,
      and a next field unless there is nothing to point at. */
  lemma Prepended(ds: seq<Desc>, chain: seq<nat>, freeHead: nat, free: seq<nat>, x: Desc)
    requires ChainOk(ds, chain) && FreeList(ds, freeHead, free) && Disjoint(chain, free)
    requires x.more && (free != [] ==> x.next == freeHead)
    ensures FreeList(ds[chain[|chain| - 1] := x], chain[0], chain + free)
  {
    var last := chain[|chain| - 1];
    var ds', s := ds[last := x], chain + free;
    assert last in chain;
    forall i, j | 0 <= i < j < |s| ensures s[i] != s[j] {
      if i < |chain| <= j {
        assert chain[i] in chain && free[j - |chain|] in free;
      }
    }
    forall k: nat | k + 1 < |s| ensures LinkedAt(ds', s, k) {
      if k + 1 < |chain| {
        assert LinkedAt(ds, chain, k) && chain[k] != last;
      } else if k >= |chain| {
        assert LinkedAt(ds, free, k - |chain|) && free[k - |chain|] in free;
      }
    }
  }

  // ---- Free-running indices

  /** A count as the 16-bit index, and the slot of a ring that it selects. */
  function Index(k: nat): (r: nat)
    ensures r < 0x10000
  {
    k % 0x10000
  }

  function Slot(k: nat, n: nat): (r: nat)
    requires n > 0
    ensures r < n
  {
    k % n
  }

  lemma IndexNext(k: nat)
    ensures Index(Index(k) + 1) == Index(k + 1)
  {
  }

  /** The slot the 16-bit index selects is the slot of the true count, for every
      count, exactly when the queue size divides 2^16. */
  lemma SlotExact(n: nat)
    requires n > 0
    ensures (forall k: nat :: Slot(Index(k), n) == Slot(k, n)) <==> 0x10000 % n == 0
  {
    if 0x10000 % n == 0 {
      forall k: nat ensures Slot(Index(k), n) == Slot(k, n) {
        SlotOf(k, n);
      }
    } else {
      var k: nat := 0x10000;
      assert k % 0x10000 == 0;
      assert 0 % n == 0;
      assert Slot(Index(k), n) != Slot(k, n);
    }
  }

  lemma SlotOf(k: nat, n: nat)
    requires n > 0 && 0x10000 % n == 0
    ensures Slot(Index(k), n) == Slot(k, n)
  {
    var q, r, m := k / 0x10000, k % 0x10000, 0x10000 / n;
    assert k == q * 0x10000 + r && 0x10000 == m * n;
    SplitOff(q * m, r, n);
    assert q * 0x10000 == (q * m) * n by {
      Regroup(q, m, n);
    }
  }

  lemma Regroup(q: nat, m: nat, n: nat)
    ensures q * (m * n) == (q * m) * n
  {
  }

  lemma SplitOff(a: nat, r: nat, n: nat)
    requires n > 0
    ensures (a * n + r) % n == r % n
  {
    if a > 0 {
      SplitOff(a - 1, r, n);
      var x := (a - 1) * n + r;
      assert a * n + r == x + n;
      ModStep(x, n);
    }
  }

  lemma ModStep(x: nat, n: nat)
    requires n > 0
    ensures (x + n) % n == x % n
  {
    var q, r := x / n, x % n;
    assert x == q * n + r;
    assert x + n == (q + 1) * n + r;
    ModUnique(x + n, n, q + 1, r);
  }

  lemma ModUnique(x: nat, n: nat, q: nat, r: nat)
    requires n > 0 && x == q * n + r && r < n
    ensures x % n == r && x / n == q
  {
    assert x == (x / n) * n + x % n;
    TimesGap(q, x / n, n);
    TimesGap(x / n, q, n);
  }

  lemma TimesGap(a: nat, b: nat, n: nat)
    ensures a < b ==> b * n >= a * n + n
  {
    if a < b {
      TimesGap(a, b - 1, n);
      assert b * n == (b - 1) * n + n;
    }
  }

  /** Counts less than n apart have different slots. */
  lemma SlotsDiffer(j: nat, k: nat, n: nat)
    requires n > 0 && j < k < j + n
    ensures Slot(j, n) != Slot(k, n)
  {
    var q, r, d := j / n, j % n, k - j;
    assert j == q * n + r;
    if r + d < n {
      ModUnique(k, n, q, r + d);
    } else {
      assert k == (q + 1) * n + (r + d - n);
      ModUnique(k, n, q + 1, r + d - n);
    }
  }

  /** Two 16-bit indices agree exactly when the counts do, while the distance stays
      below 2^16. */
  lemma IndexExact(j: nat, k: nat)
    requires j <= k < j + 0x10000
    ensures Index(j) == Index(k) <==> j == k
  {
  }

  /** Distinct numbers below n are at most n. */
  lemma {:induction false} Pigeonhole(s: seq<nat>, n: nat)
    requires NoDup(s) && forall k :: 0 <= k < |s| ==> s[k] < n
    ensures |s| <= n
  {
    assert |s| > 0 ==> s[0] < n;
    if n > 0 {
      if k :| 0 <= k < |s| && s[k] == n - 1 {
        var t := s[..k] + s[k + 1..];
        forall i | 0 <= i < |t| ensures t[i] < n - 1 {
          assert t[i] == s[if i < k then i else i + 1];
        }
        Pigeonhole(t, n - 1);
      } else {
        Pigeonhole(s, n - 1);
      }
    }
  }

  /** Entries lo..hi of a ring of n slots, in order, are q. */
  predicate Holds(ring: seq<nat>, lo: nat, q: seq<nat>) {
    |ring| > 0 && forall k: nat :: k < |q| ==> HoldsAt(ring, lo, q, k)
  }

  predicate HoldsAt(ring: seq<nat>, lo: nat, q: seq<nat>, k: nat)
    requires |ring| > 0 && k < |q|
  {
    ring[Slot(lo + k, |ring|)] == q[k]
  }

  /** Writing the next slot of a ring that is not full overwrites nothing. */
  lemma RingPut(ring: seq<nat>, lo: nat, q: seq<nat>, x: nat)
    requires Holds(ring, lo, q) && |q| < |ring|
    ensures Holds(ring[Slot(lo + |q|, |ring|) := x], lo, q + [x])
  {
    var n := |ring|;
    var r := ring[Slot(lo + |q|, n) := x];
    var t := q + [x];
    forall k: nat | k < |t| ensures HoldsAt(r, lo, t, k) {
      if k < |q| {
        assert HoldsAt(ring, lo, q, k);
        SlotsDiffer(lo + k, lo + |q|, n);
      }
    }
  }

  lemma RingTake(ring: seq<nat>, lo: nat, q: seq<nat>)
    requires Holds(ring, lo, q) && q != []
    ensures ring[Slot(lo, |ring|)] == q[0] && Holds(ring, lo + 1, q[1..])
  {
    assert HoldsAt(ring, lo, q, 0);
    var t, next := q[1..], lo + 1;
    forall k: nat | k < |t| ensures HoldsAt(ring, next, t, k) {
      assert HoldsAt(ring, lo, q, k + 1);
    }
  }

  // ---- Stages of a request

  /** Every chain's head is in one place: waiting in the avail ring, at the device,
      waiting in the used ring, or done and not yet collected. */
  ghost predicate Stages(chains: map<nat, seq<nat>>, queue: seq<nat>, device: set<nat>, back: seq<nat>,
                         info: seq<Info>) {
    && NoDup(queue) && NoDup(back)
    && (forall h: nat :: h in chains <==> h in queue || h in device || h in back || Done(info, h))
    && (forall h: nat :: h in queue ==> h !in device && h !in back && !Done(info, h))
    && (forall h: nat :: h in device ==> h !in back && !Done(info, h))
    && (forall h: nat :: h in back ==> !Done(info, h))
  }

  predicate Done(info: seq<Info>, h: nat) {
    h < |info| && info[h].done
  }

  ghost predicate Chains(ds: seq<Desc>, chains: map<nat, seq<nat>>) {
    forall h :: h in chains ==> ChainOk(ds, chains[h]) && chains[h][0] == h
  }

  /** Everything the queue and the device hold. */
  datatype View = View(
    n: nat, desc: seq<Desc>, avail: seq<nat>, used: seq<nat>, info: seq<Info>,
    freeHead: nat, nfree: nat, availIdx: nat, usedIdx: nat, lastUsed: nat, deviceIdx: nat,
    free: seq<nat>, chains: map<nat, seq<nat>>, queue: seq<nat>, device: set<nat>, back: seq<nat>,
    fetched: nat, handled: nat)

  ghost predicate Sized(v: View) {
    && 0 < v.n < 0x10000 && 0x10000 % v.n == 0
    && |v.desc| == v.n && |v.avail| == v.n && |v.used| == v.n && |v.info| == v.n
  }

  /** The free list and its counter. */
  ghost predicate ListOk(v: View) {
    Sized(v) && FreeList(v.desc, v.freeHead, v.free) && v.nfree == |v.free|
  }

  /** Between its two 16-bit indices each ring holds the requests in order. */
  ghost predicate RingsOk(v: View) {
    && Sized(v)
    && Holds(v.avail, v.fetched, v.queue) && v.availIdx == Index(v.fetched + |v.queue|) &&
      v.deviceIdx == Index(v.fetched)
    && Holds(v.used, v.handled, v.back) && v.usedIdx == Index(v.handled + |v.back|) && v.lastUsed == Index(v.handled)
  }

  ghost predicate QueueOk(v: View) {
    && ListOk(v) && Chains(v.desc, v.chains) && Partition(v.n, v.free, v.chains)
    && Stages(v.chains, v.queue, v.device, v.back, v.info) && RingsOk(v)
  }

  /** The queue, with the device behind it. */
  class Queue {
    const n: nat
    const desc: array<Desc>
    const avail: array<nat>
    const used: array<nat>
    const info: array<Info>
    var freeHead: nat
    var nfree: nat
    var availIdx: nat
    var usedIdx: nat
    var lastUsed: nat
    // the device's own place in the avail ring, and what it works on
    var deviceIdx: nat
    ghost var device: set<nat>
    ghost var free: seq<nat>
    ghost var chains: map<nat, seq<nat>>
    ghost var queue: seq<nat>
    ghost var back: seq<nat>
    ghost var fetched: nat
    ghost var handled: nat

    ghost function Look(): View
      reads this, desc, avail, used, info
    {
      View(n, desc[..], avail[..], used[..], info[..], freeHead, nfree, availIdx, usedIdx, lastUsed, deviceIdx,
           free, chains, queue, device, back, fetched, handled)
    }

    ghost predicate Valid()
      reads this, desc, avail, used, info
    {
      avail != used && QueueOk(Look())
    }

    ghost predicate ListValid()
      reads this, desc, avail, used, info
    {
      avail != used && ListOk(Look())
    }

    /** virtq_init with desc_init: all descriptors free, in order. */
    constructor (size: nat)
      requires 0 < size < 0x10000 && 0x10000 % size == 0
      ensures Valid() && n == size && chains == map[] && queue == [] && device == {} && back == []
      ensures free == Upto(size)
      ensures fresh(desc) && fresh(avail) && fresh(used) && fresh(info)
    {
      n := size;
      desc := new Desc[size](_ => Desc(Nothing, 0, false, false, 0));
      avail := new nat[size](_ => 0);
      used := new nat[size](_ => 0);
      info := new Info[size](_ => Info(false, None));
      freeHead, nfree, availIdx, usedIdx, lastUsed, deviceIdx := 0, size, 0, 0, 0, 0;
      device, chains, queue, back, fetched, handled := {}, map[], [], [], 0, 0;
      free := Upto(size);
      new;
      var i := 0;
      label Made:
      while i < n
        invariant 0 <= i <= n && unchanged@Made(this, avail, used, info)
        invariant forall k :: 0 <= k < i && k != n - 1 ==> desc[k].more && desc[k].next == k + 1
      {
        if i != n - 1 {
          desc[i] := desc[i].(more := true, next := i + 1);
        }
        i := i + 1;
      }
      AllFree(desc[..], info[..]);
      hide FreeList, Partition, Stages;
    }

    /** alloc_desc: the head of the free list, or a panic when there is none. */
    method AllocDesc() returns (d: Option<nat>)
      requires ListValid()
      modifies this`freeHead, this`nfree, this`free
      ensures ListValid()
      ensures old(free) == [] ==> d.None? && free == []
      ensures old(free) != [] ==> d == Some(old(free)[0]) && free == old(free)[1..]
    {
      if nfree == 0 {
        return None;
      }
      ghost var v := Look();
      AllocView(v);
      hide ListOk;
      var h := freeHead;
      if desc[h].more {
        freeHead := desc[h].next;
      }
      nfree := nfree - 1;
      free := free[1..];
      assert Look() == AllocedView(v);
      return Some(h);
    }

    /** free_desc: the chain from `head` returns to the front of the free list. */
    method FreeDesc(head: nat, ghost chain: seq<nat>)
      requires ListValid() && ChainOk(desc[..], chain) && chain[0] == head && Disjoint(chain, free)
      modifies this`freeHead, this`nfree, this`free, desc
      ensures ListValid() && free == chain + old(free)
      ensures forall d :: 0 <= d < n && d != chain[|chain| - 1] ==> desc[d] == old(desc[d])
    {
      var empty := nfree == 0;
      ghost var ds, was := desc[..], free;
      var m := head;
      ghost var k := 0;
      nfree := nfree + 1;
      hide NoDup;
      while desc[m].more
        invariant 0 <= k < |chain| && m == chain[k] && nfree == |was| + k + 1
        invariant freeHead == old(freeHead) && free == was && desc[..] == ds
        decreases |chain| - k
      {
        ChainNext(ds, chain, k);
        m := desc[m].next;
        k := k + 1;
        nfree := nfree + 1;
      }
      ChainNext(ds, chain, k);
      var x := desc[m].(more := true);
      if !empty {
        x := x.(next := freeHead);
      }
      Prepended(ds, chain, freeHead, free, x);
      desc[m] := x;
      assert desc[..] == ds[m := x];
      freeHead := head;
      free := chain + free;
    }

    /** Fill in an allocated descriptor. */
    method SetDesc(d: nat, x: Desc)
      requires ListValid() && d < n && d !in free
      modifies desc
      ensures ListValid() && desc[..] == old(desc[..])[d := x]
    {
      PathFrame(desc[..], free, d, x);
      desc[d] := x;
      assert desc[..] == old(desc[..])[d := x];
    }

    /** The three descriptors of a request: header, data, status. */
    method MakeChain(write: bool, sector: nat, buf: nat) returns (h: Option<nat>)
      requires ListValid()
      modifies this`freeHead, this`nfree, this`free, desc
      ensures h.None? <==> |old(free)| < 3
      ensures h.Some? ==>
        && ListValid() && h.value == old(free)[0] && free == old(free)[3..]
        && desc[..] == RequestDescs(old(desc[..]), old(free)[0], old(free)[1], old(free)[2], write, sector, buf)
    {
      ghost var f, ds := free, desc[..];
      var d0 := AllocDesc();
      if d0.None? {
        return None;
      }
      InFree(f, ds);
      assert n == desc.Length;
      hide ListOk, NoDup, ListValid, RequestDescs;
      SetDesc(d0.value, Desc(Header(write, sector), 16, true, false, desc[d0.value].next));
      var d1 := AllocDesc();
      if d1.None? {
        return None;
      }
      SetDesc(d0.value, desc[d0.value].(next := d1.value));
      SetDesc(d1.value, Desc(Data(buf), 1024, true, !write, desc[d1.value].next));
      var d2 := AllocDesc();
      if d2.None? {
        return None;
      }
      SetDesc(d1.value, desc[d1.value].(next := d2.value));
      SetDesc(d2.value, Desc(StatusOf(d0.value), 1, false, true, 0));
      assert free == f[3..];
      FilledIn(ds, d0.value, d1.value, d2.value, write, sector, buf, desc[..]);
      return d0;
    }

    /** virtio_blk_op up to the notification: the request is visible to the device
        at the end of the avail ring, and nothing there has been overwritten. */
    method Submit(write: bool, bno: nat, buf: nat) returns (h: Option<nat>)
      requires Valid()
      modifies this`freeHead, this`nfree, this`free, this`availIdx, this`chains, this`queue, desc, avail, info
      ensures h.None? <==> |old(free)| < 3
      ensures h.Some? ==>
        && Valid() && h.value == old(free)[0] && free == old(free)[3..]
        && chains == old(chains)[h.value := old(free)[..3]] && queue == old(queue) + [h.value]
        && info[..] == old(info[..])[h.value := Info(false, Some(buf))]
        && desc[..] == RequestDescs(old(desc[..]), old(free)[0], old(free)[1], old(free)[2], write, bno * 2, buf)
      ensures h.Some? ==> OpStep(old(Look()), Submitting(write, bno, buf), Look())
      ensures h.Some? ==> Decode(desc[..], h.value) == Some(Request(write, bno * 2, buf, h.value))
      ensures h.Some? ==> OthersSeen(old(Look()), h.value, Look())
    {
      ghost var v := Look();
      assert v.n == n && ListValid();
      hide ListOk, QueueOk, RequestDescs, Slot, Index, OpStep;
      h := MakeChain(write, bno * 2, buf);
      if h.None? {
        return;
      }
      SubmitView(v, Look(), write, bno * 2, buf);
      Submitted(v, Look(), write, bno, buf);
      ghost var w := Look();
      avail[Slot(availIdx, n)] := h.value;
      availIdx := Index(availIdx + 1);
      info[h.value] := info[h.value].(buf := Some(buf));
      chains, queue := chains[h.value := v.free[..3]], queue + [h.value];
      assert Look() == EnqueuedView(w, h.value, buf, v.free[..3]);
      StepSeen(v, Submitting(write, bno, buf), Look());
    }

    /** The device reads the next avail entry: the oldest request not yet read. */
    method DeviceFetch() returns (h: Option<nat>)
      requires Valid()
      modifies this`deviceIdx, this`fetched, this`queue, this`device
      ensures Valid()
      ensures old(queue) == [] ==> h.None? && queue == [] && device == old(device)
      ensures old(queue) != [] ==>
        h == Some(old(queue)[0]) && queue == old(queue)[1..] && device == old(device) + {old(queue)[0]}
      ensures OpStep(old(Look()), Fetching, Look())
    {
      ghost var v := Look();
      FetchView(v);
      hide QueueOk;
      if deviceIdx == availIdx {
        return None;
      }
      h := Some(avail[Slot(deviceIdx, n)]);
      deviceIdx := Index(deviceIdx + 1);
      device, queue, fetched := device + {queue[0]}, queue[1..], fetched + 1;
      assert Look() == FetchedView(v);
    }

    /** The device completes any request it holds, and says so in the used ring. */
    method DeviceComplete(h: nat)
      requires Valid() && h in device
      modifies this`usedIdx, this`back, this`device, used
      ensures Valid() && back == old(back) + [h] && device == old(device) - {h}
      ensures OpStep(old(Look()), Completing(h), Look())
    {
      ghost var v := Look();
      CompleteView(v, h);
      hide QueueOk;
      used[Slot(usedIdx, n)] := h;
      usedIdx := Index(usedIdx + 1);
      device, back := device - {h}, back + [h];
      assert Look() == CompletedView(v, h);
    }

    /** One round of virtio_blk_intr: the oldest completed request is marked done, and
        the sleepers on its buffer are to be woken. */
    method HandleOne() returns (woken: Option<nat>)
      requires Valid() && back != []
      modifies this`lastUsed, this`handled, this`back, info
      ensures Valid() && back == old(back)[1..] && old(back)[0] < n && n == info.Length
      ensures info[..] == old(info[..])[old(back)[0] := Info(true, None)]
      ensures woken == old(info[..])[old(back)[0]].buf
      ensures OpStep(old(Look()), Handling, Look())
    {
      ghost var v := Look();
      HandleView(v);
      hide QueueOk;
      var d0 := used[Slot(lastUsed, n)];
      info[d0] := info[d0].(done := true);
      woken := info[d0].buf;
      info[d0] := info[d0].(buf := None);
      lastUsed := Index(lastUsed + 1);
      back, handled := back[1..], handled + 1;
      assert Look() == HandledView(v);
    }

    /** virtio_blk_intr: everything in the used ring, each request once. */
    method Intr() returns (woken: seq<Option<nat>>)
      requires Valid()
      modifies this`lastUsed, this`handled, this`back, info
      ensures Valid() && back == [] && n == info.Length
      ensures info[..] == Marked(old(info[..]), old(back))
      ensures |woken| == |old(back)| && forall k :: 0 <= k < |woken| ==>
        old(back)[k] < n && woken[k] == old(info[..])[old(back)[k]].buf
      ensures OpStep(old(Look()), Interrupting, Look())
    {
      woken := [];
      ghost var b, was, v := back, info[..], Look();
      HandleView(v);
      hide QueueOk, AllHandled, HandledView, OpStep;
      assert Marked(was, []) == was;
      hide Marked, NoDup, WokenBy;
      while lastUsed != usedIdx
        invariant Valid() && |woken| <= |b| && back == b[|woken|..]
        invariant info[..] == Marked(was, b[..|woken|])
        invariant AllHandled(v) == AllHandled(Look())
        invariant WokenBy(woken, was, b)
        decreases |back|
      {
        ghost var x := Look();
        HandleView(x);
        MarkedElsewhere(was, b, |woken|);
        OneTaken(woken, was, b);
        var w := HandleOne();
        OneHandled(x, Look());
        woken := woken + [w];
      }
      AllWoken(woken, was, b);
      HandleView(Look());
      NoneLeft(v, Look());
      assert b[..|b|] == b;
    }

    /** The end of virtio_blk_op: the submitter takes the done flag of its own request
        and gives the chain back. */
    method Finish(h: nat)
      requires Valid() && h in chains && Done(info[..], h)
      modifies this`freeHead, this`nfree, this`free, this`chains, desc, info
      ensures Valid() && chains == old(chains) - {h} && free == old(chains)[h] + old(free)
      ensures info[..] == old(info[..])[h := old(info[..])[h].(done := false)]
      ensures OpStep(old(Look()), Finishing(h), Look()) && OthersSeen(old(Look()), h, Look())
    {
      ghost var v := Look();
      FinishView(v, h);
      hide QueueOk, ListOk, ChainOk, Disjoint;
      info[h] := info[h].(done := false);
      assert info[..] == v.info[h := v.info[h].(done := false)];
      assert ListValid() by { ListFrame(v, Look()); }
      FreeDesc(h, v.chains[h]);
      chains := chains - {h};
      FinishedView(v, h, Look());
      hide OpStep;
      Collects(v, h, Look());
      StepSeen(v, Finishing(h), Look());
    }
  }

  // ---- The operations as steps on views

  /** A call of the driver or a move of the device. */
  datatype Op =
    | Submitting(write: bool, bno: nat, buf: nat) | Fetching | Completing(h: nat)
    | Handling | Interrupting | Finishing(h: nat)

  ghost predicate Enqueues(v: View, w: View, write: bool, sector: nat, buf: nat, v': View)
    requires QueueOk(v)
  {
    && |v.free| >= 3 && v.free[0] < |v.desc| && v.free[1] < |v.desc| && v.free[2] < |v.desc| && ListOk(w)
    && w == v.(freeHead := w.freeHead, nfree := w.nfree, free := v.free[3..], desc := w.desc)
    && w.desc == RequestDescs(v.desc, v.free[0], v.free[1], v.free[2], write, sector, buf)
    && v' == EnqueuedView(w, v.free[0], buf, v.free[..3])
  }

  ghost predicate Finishes(v: View, h: nat, w: View)
    requires QueueOk(v)
  {
    && h in v.chains && v.chains[h] != [] && h < |v.info| && Done(v.info, h) && ListOk(w) && |w.desc| == |v.desc|
    && w == v.(freeHead := w.freeHead, nfree := w.nfree, desc := w.desc, free := v.chains[h] + v.free,
               chains := v.chains - {h}, info := v.info[h := v.info[h].(done := false)])
    && forall d :: 0 <= d < |v.desc| && d != v.chains[h][|v.chains[h]| - 1] ==> w.desc[d] == v.desc[d]
  }

  /** What the source asks for before the call; Submit halts without three descriptors. */
  ghost predicate Allowed(v: View, op: Op) {
    match op
    case Submitting(_, _, _) => |v.free| >= 3
    case Fetching => true
    case Completing(h) => h in v.device
    case Handling => v.back != []
    case Interrupting => true
    case Finishing(h) => h in v.chains && Done(v.info, h)
  }

  /** What the call leaves of the queue. */
  ghost predicate OpStep(v: View, op: Op, v': View)
    requires QueueOk(v)
  {
    match op
    case Submitting(write, bno, buf) => exists w: View :: Enqueues(v, w, write, bno * 2, buf, v')
    case Fetching => v' == if v.queue == [] then v else FetchedView(v)
    case Completing(h) => v' == CompletedView(v, h)
    case Handling => v.back != [] && v.back[0] < |v.info| && v' == HandledView(v)
    case Interrupting => v' == AllHandled(v)
    case Finishing(h) => Finishes(v, h, v')
  }

  /** As many rounds of the handler as there are completed requests. */
  function AllHandled(v: View): View
    decreases |v.back|
  {
    if v.back == [] || v.back[0] >= |v.info| then v else AllHandled(HandledView(v))
  }

  lemma OneHandled(v: View, v': View)
    requires QueueOk(v) && OpStep(v, Handling, v')
    ensures AllHandled(v) == AllHandled(v')
  {
    hide QueueOk;
  }

  lemma NoneLeft(v: View, v': View)
    requires QueueOk(v) && AllHandled(v) == AllHandled(v') && v'.back == []
    ensures OpStep(v, Interrupting, v')
  {
    hide QueueOk;
  }

  lemma Submitted(v: View, w: View, write: bool, bno: nat, buf: nat)
    requires QueueOk(v) && ListOk(w) && |v.free| >= 3
    requires w == v.(freeHead := w.freeHead, nfree := w.nfree, free := v.free[3..], desc := w.desc)
    requires |v.free| >= 3 && v.free[0] < |v.desc| && v.free[1] < |v.desc| && v.free[2] < |v.desc|
    requires w.desc == RequestDescs(v.desc, v.free[0], v.free[1], v.free[2], write, bno * 2, buf)
    ensures w.n > 0 && |w.avail| == w.n && v.free[0] < |w.info|
    ensures OpStep(v, Submitting(write, bno, buf), EnqueuedView(w, v.free[0], buf, v.free[..3]))
  {
    SubmitView(v, w, write, bno * 2, buf);
    hide QueueOk, ListOk, RequestDescs, EnqueuedView;
    assert Enqueues(v, w, write, bno * 2, buf, EnqueuedView(w, v.free[0], buf, v.free[..3]));
  }

  // ---- One lemma per operation, on views

  function AllocedView(v: View): View
    requires v.free != [] && v.freeHead < |v.desc| && v.nfree > 0
  {
    v.(freeHead := if v.desc[v.freeHead].more then v.desc[v.freeHead].next else v.freeHead, nfree := v.nfree - 1,
      free := v.free[1..])
  }

  lemma AllocView(v: View)
    requires ListOk(v) && v.free != []
    ensures v.freeHead == v.free[0] < |v.desc| && v.nfree > 0 && ListOk(AllocedView(v))
  {
    PathTail(v.desc, v.free);
    assert |v.free| > 1 ==> LinkedAt(v.desc, v.free, 0);
  }

  function EnqueuedView(v: View, h: nat, buf: nat, chain: seq<nat>): View
    requires v.n > 0 && |v.avail| == v.n && h < |v.info|
  {
    v.(avail := v.avail[Slot(v.availIdx, v.n) := h], availIdx := Index(v.availIdx + 1),
       info := v.info[h := v.info[h].(buf := Some(buf))], chains := v.chains[h := chain], queue := v.queue + [h])
  }

  /** w is v with the descriptors of a request taken and filled in. */
  lemma SubmitView(v: View, w: View, write: bool, sector: nat, buf: nat)
    requires QueueOk(v) && ListOk(w) && |v.free| >= 3
    requires w == v.(freeHead := w.freeHead, nfree := w.nfree, free := v.free[3..], desc := w.desc)
    requires w.desc == RequestDescs(v.desc, v.free[0], v.free[1], v.free[2], write, sector, buf)
    ensures v.n > 0 && |v.avail| == v.n == |v.info| && v.free[0] < v.n && !v.info[v.free[0]].done
    ensures QueueOk(EnqueuedView(w, v.free[0], buf, v.free[..3]))
  {
    var h := v.free[0];
    Requested(v.n, v.desc, v.free, v.chains, write, sector, buf);
    Queued(v.chains, v.queue, v.device, v.back, v.info, h, v.free[..3], buf);
    QueueShort(v.desc, v.chains, v.queue, h);
    RingPut(v.avail, v.fetched, v.queue, h);
    SlotOf(v.fetched + |v.queue|, v.n);
    IndexNext(v.fetched + |v.queue|);
    hide FreeList, Chains, Partition, Stages, Holds, Slot, Index, RequestDescs;
  }

  function FetchedView(v: View): View
    requires v.queue != []
  {
    v.(deviceIdx := Index(v.deviceIdx + 1), device := v.device + {v.queue[0]}, queue := v.queue[1..],
      fetched := v.fetched + 1)
  }

  lemma FetchView(v: View)
    requires QueueOk(v)
    ensures v.n > 0 && |v.avail| == v.n
    ensures v.deviceIdx == v.availIdx <==> v.queue == []
    ensures v.queue != [] ==> v.avail[Slot(v.deviceIdx, v.n)] == v.queue[0] && QueueOk(FetchedView(v))
  {
    HeadsFit(v.n, v.desc, v.chains, v.queue);
    IndexExact(v.fetched, v.fetched + |v.queue|);
    if v.queue != [] {
      RingTake(v.avail, v.fetched, v.queue);
      SlotOf(v.fetched, v.n);
      IndexNext(v.fetched);
      Fetched(v.chains, v.queue, v.device, v.back, v.info);
      hide FreeList, Chains, Partition, Stages, Holds, Slot, Index;
    }
  }

  function CompletedView(v: View, h: nat): View
    requires v.n > 0 && |v.used| == v.n
  {
    v.(used := v.used[Slot(v.usedIdx, v.n) := h], usedIdx := Index(v.usedIdx + 1), device := v.device - {h},
      back := v.back + [h])
  }

  lemma CompleteView(v: View, h: nat)
    requires QueueOk(v) && h in v.device
    ensures v.n > 0 && |v.used| == v.n && QueueOk(CompletedView(v, h))
  {
    BackShort(v.n, v.desc, v.chains, v.queue, v.device, v.back, v.info, h);
    RingPut(v.used, v.handled, v.back, h);
    SlotOf(v.handled + |v.back|, v.n);
    IndexNext(v.handled + |v.back|);
    Completed(v.chains, v.queue, v.device, v.back, v.info, h);
    hide FreeList, Chains, Partition, Stages, Holds, Slot, Index;
  }

  function HandledView(v: View): View
    requires v.back != [] && v.back[0] < |v.info|
  {
    v.(info := v.info[v.back[0] := Info(true, None)], lastUsed := Index(v.lastUsed + 1), back := v.back[1..],
      handled := v.handled + 1)
  }

  lemma HandleView(v: View)
    requires QueueOk(v)
    ensures v.n > 0 && |v.used| == v.n == |v.info| && NoDup(v.back) &&
      forall k {:trigger v.back[k]} :: 0 <= k < |v.back| ==> v.back[k] < v.n
    ensures v.lastUsed == v.usedIdx <==> v.back == []
    ensures v.back != [] ==> v.used[Slot(v.lastUsed, v.n)] == v.back[0] && QueueOk(HandledView(v))
  {
    HeadsFit(v.n, v.desc, v.chains, v.back);
    IndexExact(v.handled, v.handled + |v.back|);
    if v.back != [] {
      RingTake(v.used, v.handled, v.back);
      SlotOf(v.handled, v.n);
      IndexNext(v.handled);
      Handled(v.chains, v.queue, v.device, v.back, v.info);
      hide FreeList, Chains, Partition, Stages, Holds, Slot, Index;
    }
  }

  lemma FinishView(v: View, h: nat)
    requires QueueOk(v) && h in v.chains && Done(v.info, h)
    ensures ListOk(v) && h < v.n == |v.info| && v.n == |v.desc|
    ensures ChainOk(v.desc, v.chains[h]) && v.chains[h][0] == h && Disjoint(v.chains[h], v.free)
  {
    Returned(v.n, v.desc, v.free, v.chains, h);
  }

  lemma ListFrame(v: View, w: View)
    requires ListOk(v) && w == v.(info := w.info) && |w.info| == |v.info|
    ensures ListOk(w)
  {
  }

  lemma FinishedView(v: View, h: nat, w: View)
    requires QueueOk(v) && h in v.chains && Done(v.info, h) && ListOk(w)
    requires w == v.(freeHead := w.freeHead, nfree := w.nfree, desc := w.desc, free := v.chains[h] + v.free,
                     chains := v.chains - {h}, info := v.info[h := v.info[h].(done := false)])
    requires |w.desc| == |v.desc| && v.chains[h] != []
    requires forall d :: 0 <= d < |v.desc| && d != v.chains[h][|v.chains[h]| - 1] ==> w.desc[d] == v.desc[d]
    ensures QueueOk(w)
  {
    Returned(v.n, v.desc, v.free, v.chains, h);
    Collected(v.chains, v.queue, v.device, v.back, v.info, h);
    ChainsKept(v.desc, w.desc, v.chains, h, v.chains[h]);
    hide FreeList, Chains, Partition, Stages, Holds, Slot, Index;
  }

  lemma Collects(v: View, h: nat, w: View)
    requires QueueOk(v) && Finishes(v, h, w)
    ensures OpStep(v, Finishing(h), w)
  {
  }

  /** The descriptor table after a request has been filled in. */
  function RequestDescs(ds: seq<Desc>, d0: nat, d1: nat, d2: nat, write: bool, sector: nat, buf: nat): seq<Desc>
    requires d0 < |ds| && d1 < |ds| && d2 < |ds|
  {
    ds[d0 := Desc(Header(write, sector), 16, true, false, d1)]
      [d1 := Desc(Data(buf), 1024, true, !write, d2)]
      [d2 := Desc(StatusOf(d0), 1, false, true, 0)]
  }

  /** The fields are written in two rounds, the next fields last. */
  lemma FilledIn(ds: seq<Desc>, d0: nat, d1: nat, d2: nat, write: bool, sector: nat, buf: nat, ds': seq<Desc>)
    requires d0 < |ds| && d1 < |ds| && d2 < |ds| && d0 != d1 && d1 != d2 && d0 != d2
    requires ds' == ds[d0 := Desc(Header(write, sector), 16, true, false, ds[d0].next)]
      [d0 := Desc(Header(write, sector), 16, true, false, d1)]
      [d1 := Desc(Data(buf), 1024, true, !write, ds[d1].next)]
      [d1 := Desc(Data(buf), 1024, true, !write, d2)]
      [d2 := Desc(StatusOf(d0), 1, false, true, 0)]
    ensures ds' == RequestDescs(ds, d0, d1, d2, write, sector, buf)
  {
  }

  /** Section 2.6.4.2: what the device writes comes after all it only reads; the data
      buffer is writable exactly for a read. */
  lemma ReadableFirst(ds: seq<Desc>, d0: nat, d1: nat, d2: nat, write: bool, sector: nat, buf: nat)
    requires d0 < |ds| && d1 < |ds| && d2 < |ds| && d0 != d1 && d1 != d2 && d0 != d2
    ensures var r, s := RequestDescs(ds, d0, d1, d2, write, sector, buf), [d0, d1, d2];
      && ChainOk(r, s) && (r[d1].write <==> !write)
      && forall i, j :: 0 <= i < j < 3 && r[s[i]].write ==> r[s[j]].write
  {
    var r, s := RequestDescs(ds, d0, d1, d2, write, sector, buf), [d0, d1, d2];
    assert LinkedAt(r, s, 0) && LinkedAt(r, s, 1);
  }

  /** What a device makes of the chain at h: a 16-byte header, then 1024 bytes that it
      reads for a write and writes for a read, and one byte for the status (VIRTIO 1.1,
      section 5.2.6). */
  datatype Request = Request(write: bool, sector: nat, buf: nat, status: nat)

  function Decode(ds: seq<Desc>, h: nat): Option<Request> {
    if h < |ds| && ds[h].addr.Header? && ds[h].len == 16 && !ds[h].write && ds[h].more && ds[h].next < |ds| then
      Decode2(ds, ds[h].addr.write, ds[h].addr.sector, ds[ds[h].next])
    else None
  }

  function Decode2(ds: seq<Desc>, write: bool, sector: nat, d: Desc): Option<Request> {
    if d.addr.Data? && d.len == 1024 && d.write == !write && d.more && d.next < |ds| then
      var s := ds[d.next];
      if s.addr.StatusOf? && s.len == 1 && s.write && !s.more then
        Some(Request(write, sector, d.addr.buf, s.addr.head))
      else None
    else None
  }

  /** The device finds the request that was submitted: the sector is the first of the
      two of the block. */
  lemma RequestSeen(ds: seq<Desc>, d0: nat, d1: nat, d2: nat, write: bool, sector: nat, buf: nat)
    requires d0 < |ds| && d1 < |ds| && d2 < |ds| && d0 != d1 && d1 != d2 && d0 != d2
    ensures Decode(RequestDescs(ds, d0, d1, d2, write, sector, buf), d0) == Some(Request(write, sector, buf, d0))
  {
  }

  /** Who leaves a chain alone leaves its request alone. */
  lemma SameRequest(ds: seq<Desc>, ds': seq<Desc>, s: seq<nat>)
    requires ChainOk(ds, s) && |ds'| == |ds| && forall d :: d in s && d < |ds| ==> ds'[d] == ds[d]
    ensures Decode(ds', s[0]) == Decode(ds, s[0])
  {
    ChainNext(ds, s, 0);
    assert s[0] in s;
    if |s| > 1 {
      ChainNext(ds, s, 1);
      assert s[1] in s;
      if |s| > 2 {
        ChainNext(ds, s, 2);
        assert s[2] in s;
      }
    }
  }

  /** Every other request is seen by the device as before. */
  ghost predicate OthersSeen(v: View, h: nat, v': View) {
    forall g :: g in v.chains && g != h ==> g in v'.chains && Decode(v'.desc, g) == Decode(v.desc, g)
  }

  lemma SubmitSeen(v: View, w: View, write: bool, sector: nat, buf: nat, v': View)
    requires QueueOk(v) && Enqueues(v, w, write, sector, buf, v')
    ensures Decode(v'.desc, v.free[0]) == Some(Request(write, sector, buf, v.free[0]))
    ensures OthersSeen(v, v.free[0], v')
  {
    var f := v.free;
    assert v'.chains == v.chains[f[0] := f[..3]] && v'.desc == w.desc;
    assert Chains(v.desc, v.chains) && forall g :: g in v.chains ==> Disjoint(v.chains[g], f);
    InFree(f, v.desc);
    hide *;
    RequestSeen(v.desc, f[0], f[1], f[2], write, sector, buf);
    RequestWrites(v.desc, f[0], f[1], f[2], write, sector, buf);
    ChainsSeen(v.desc, v'.desc, v.chains, f);
    OthersAre(v, f[0], v');
  }

  lemma ChainsSeen(ds: seq<Desc>, ds': seq<Desc>, chains: map<nat, seq<nat>>, f: seq<nat>)
    requires Chains(ds, chains) && |f| >= 3 && f[0] < |ds| && f[1] < |ds| && f[2] < |ds| && |ds'| == |ds|
    requires forall g :: g in chains ==> Disjoint(chains[g], f)
    requires ds' == ds[f[0] := ds'[f[0]]][f[1] := ds'[f[1]]][f[2] := ds'[f[2]]]
    ensures forall g :: g in chains ==> Decode(ds', g) == Decode(ds, g)
  {
    hide Decode, ChainOk;
    forall g | g in chains ensures Decode(ds', g) == Decode(ds, g) {
      NotInChain(f, chains[g]);
      SameRequest(ds, ds', chains[g]);
    }
  }

  lemma OthersAre(v: View, h: nat, v': View)
    requires forall g :: g in v.chains && g != h ==> g in v'.chains && Decode(v'.desc, g) == Decode(v.desc, g)
    ensures OthersSeen(v, h, v')
  {
  }

  lemma FinishSeen(v: View, h: nat, v': View)
    requires QueueOk(v) && Finishes(v, h, v')
    ensures OthersSeen(v, h, v')
  {
    var last := v.chains[h][|v.chains[h]| - 1];
    assert last in v.chains[h];
    hide Decode, Stages, RingsOk, FreeList;
    forall g | g in v.chains && g != h ensures g in v'.chains && Decode(v'.desc, g) == Decode(v.desc, g) {
      assert Disjoint(v.chains[g], v.chains[h]);
      SameRequest(v.desc, v'.desc, v.chains[g]);
    }
  }

  lemma StepSeen(v: View, op: Op, v': View)
    requires QueueOk(v) && OpStep(v, op, v')
    ensures op.Submitting? ==>
      && |v.free| > 0 && OthersSeen(v, v.free[0], v')
      && Decode(v'.desc, v.free[0]) == Some(Request(op.write, op.bno * 2, op.buf, v.free[0]))
    ensures op.Finishing? ==> OthersSeen(v, op.h, v')
  {
    hide QueueOk, OthersSeen, Decode, Enqueues, Finishes, FetchedView, CompletedView, HandledView, AllHandled;
    match op
    case Submitting(write, bno, buf) =>
      var w: View :| Enqueues(v, w, write, bno * 2, buf, v');
      EnqueuesFree(v, w, write, bno * 2, buf, v');
      SubmitSeen(v, w, write, bno * 2, buf, v');
    case Finishing(h) => FinishSeen(v, h, v');
    case _ =>
  }

  lemma EnqueuesFree(v: View, w: View, write: bool, sector: nat, buf: nat, v': View)
    requires QueueOk(v) && Enqueues(v, w, write, sector, buf, v')
    ensures |v.free| >= 3
  {
    hide QueueOk;
  }

  lemma InFree(f: seq<nat>, ds: seq<Desc>)
    requires NoDup(f) && Path(ds, f)
    ensures forall k {:trigger f[k]} :: 0 <= k < |f| ==> f[k] < |ds|
    ensures |f| > 0 ==> f[0] !in f[1..]
    ensures |f| > 1 ==> f[1] !in f[2..] && f[0] !in f[2..]
    ensures |f| > 2 ==> f[2] !in f[3..] && f[1] !in f[3..] && f[0] !in f[3..]
  {
  }

  /** The new chain takes three descriptors from the free list, and disturbs none
      of the others. */
  lemma Requested(n: nat, ds: seq<Desc>, f: seq<nat>, chains: map<nat, seq<nat>>, write: bool, sector: nat, buf: nat)
    requires |f| >= 3 && NoDup(f) && Path(ds, f) && Chains(ds, chains) && Partition(n, f, chains) && |ds| == n
    ensures Chains(RequestDescs(ds, f[0], f[1], f[2], write, sector, buf), chains[f[0] := f[..3]])
    ensures Partition(n, f[3..], chains[f[0] := f[..3]])
    ensures f[0] !in chains
  {
    var ds' := RequestDescs(ds, f[0], f[1], f[2], write, sector, buf);
    var s, chains' := f[..3], chains[f[0] := f[..3]];
    NotAHead(ds, f, chains);
    Repartitioned(n, f, chains);
    assert s == [f[0], f[1], f[2]] && ChainOk(ds', s) by {
      assert LinkedAt(ds', s, 0) && LinkedAt(ds', s, 1);
    }
    hide RequestDescs, NoDup, Path, Partition;
    forall h | h in chains' ensures ChainOk(ds', chains'[h]) && chains'[h][0] == h {
      if h != f[0] {
        NotInChain(f, chains[h]) by { assert Disjoint(chains[h], f) by { OtherChain(n, f, chains, h); } }
        assert ds' == ds[f[0] := ds'[f[0]]][f[1] := ds'[f[1]]][f[2] := ds'[f[2]]] by {
          RequestWrites(ds, f[0], f[1], f[2], write, sector, buf);
        }
        ChainFrame(ds, chains[h], f[0], f[1], f[2], ds');
      }
    }
  }

  lemma RequestWrites(ds: seq<Desc>, d0: nat, d1: nat, d2: nat, write: bool, sector: nat, buf: nat)
    requires d0 < |ds| && d1 < |ds| && d2 < |ds| && d0 != d1 && d1 != d2 && d0 != d2
    ensures var ds' := RequestDescs(ds, d0, d1, d2, write, sector, buf);
      |ds'| == |ds| && ds' == ds[d0 := ds'[d0]][d1 := ds'[d1]][d2 := ds'[d2]]
  {
  }

  lemma NotInChain(f: seq<nat>, s: seq<nat>)
    requires |f| >= 3 && Disjoint(s, f)
    ensures f[0] !in s && f[1] !in s && f[2] !in s
  {
    assert f[0] in f && f[1] in f && f[2] in f;
  }

  lemma OtherChain(n: nat, f: seq<nat>, chains: map<nat, seq<nat>>, h: nat)
    requires Partition(n, f, chains) && h in chains
    ensures Disjoint(chains[h], f)
  {
  }

  /** Moving the first three free descriptors to a chain of their own. */
  lemma Repartitioned(n: nat, f: seq<nat>, chains: map<nat, seq<nat>>)
    requires |f| >= 3 && NoDup(f) && Partition(n, f, chains) && f[0] !in chains
    ensures Partition(n, f[3..], chains[f[0] := f[..3]])
  {
    var s, chains' := f[..3], chains[f[0] := f[..3]];
    assert f == s + f[3..];
    forall d: nat | d < n ensures d in f[3..] || InSomeChain(chains', d) {
      if d in f {
        assert d in s ==> d in chains'[f[0]];
      } else {
        assert InSomeChain(chains, d);
        var h :| h in chains && d in chains[h];
        assert h in chains' && d in chains'[h];
      }
    }
    assert Disjoint(s, f[3..]) by {
      forall d | d in s ensures d !in f[3..] {
        var i :| 0 <= i < 3 && f[i] == d;
      }
    }
    forall h, g | h in chains' && g in chains' && h != g ensures Disjoint(chains'[h], chains'[g]) {
      assert h in chains ==> Disjoint(chains[h], f);
      assert g in chains ==> Disjoint(chains[g], f);
    }
  }

  /** A free descriptor heads no chain. */
  lemma NotAHead(ds: seq<Desc>, f: seq<nat>, chains: map<nat, seq<nat>>)
    requires f != [] && Chains(ds, chains) && forall h :: h in chains ==> Disjoint(chains[h], f)
    ensures f[0] !in chains
  {
    forall h | h in chains ensures h != f[0] {
      assert ChainOk(ds, chains[h]) && chains[h][0] in chains[h] && f[0] in f;
    }
  }

  lemma ChainFrame(ds: seq<Desc>, s: seq<nat>, a: nat, b: nat, c: nat, ds': seq<Desc>)
    requires ChainOk(ds, s) && a < |ds| && b < |ds| && c < |ds| && a !in s && b !in s && c !in s && |ds'| == |ds|
    requires ds' == ds[a := ds'[a]][b := ds'[b]][c := ds'[c]]
    ensures ChainOk(ds', s)
  {
    PathFrame(ds, s, a, ds'[a]);
    PathFrame(ds[a := ds'[a]], s, b, ds'[b]);
    PathFrame(ds[a := ds'[a]][b := ds'[b]], s, c, ds'[c]);
    assert s[|s| - 1] in s;
  }

  lemma Queued(chains: map<nat, seq<nat>>, queue: seq<nat>, device: set<nat>, back: seq<nat>, info: seq<Info>,
               h: nat, s: seq<nat>, buf: nat)
    requires Stages(chains, queue, device, back, info) && h !in chains && h < |info|
    ensures Stages(chains[h := s], queue + [h], device, back, info[h := info[h].(buf := Some(buf))])
    ensures !info[h].done
  {
    var info' := info[h := info[h].(buf := Some(buf))];
    assert forall g: nat :: Done(info', g) == Done(info, g);
  }

  /** A free descriptor leaves room in the ring. */
  lemma QueueShort(ds: seq<Desc>, chains: map<nat, seq<nat>>, queue: seq<nat>, d: nat)
    requires NoDup(queue) && (forall h :: h in queue ==> h in chains) && d !in chains && d < |ds| && Chains(ds, chains)
    ensures |queue| < |ds|
  {
    HeadsFit(|ds|, ds, chains, queue);
    var t := queue + [d];
    forall k | 0 <= k < |t| ensures t[k] < |ds| && (k < |queue| ==> t[k] in queue && t[k] != d) {
      assert k < |queue| ==> t[k] in queue;
    }
    Pigeonhole(t, |ds|);
  }

  /** Heads of chains are descriptors, so a list of them without repetition is no
      longer than the queue. */
  lemma HeadsFit(n: nat, ds: seq<Desc>, chains: map<nat, seq<nat>>, q: seq<nat>)
    requires Chains(ds, chains) && |ds| == n && NoDup(q) && forall h: nat :: h in q ==> h in chains
    ensures |q| <= n && forall k {:trigger q[k]} :: 0 <= k < |q| ==> q[k] < n
  {
    forall k | 0 <= k < |q| ensures q[k] < n {
      assert q[k] in q && ChainOk(ds, chains[q[k]]);
    }
    Pigeonhole(q, n);
  }

  lemma Fetched(chains: map<nat, seq<nat>>, queue: seq<nat>, device: set<nat>, back: seq<nat>, info: seq<Info>)
    requires Stages(chains, queue, device, back, info) && queue != []
    ensures Stages(chains, queue[1..], device + {queue[0]}, back, info)
  {
    assert forall h: nat :: h in queue <==> h == queue[0] || h in queue[1..];
  }

  lemma BackShort(n: nat, ds: seq<Desc>, chains: map<nat, seq<nat>>, queue: seq<nat>, device: set<nat>,
                  back: seq<nat>, info: seq<Info>, h: nat)
    requires Chains(ds, chains) && |ds| == n && Stages(chains, queue, device, back, info) && h in device
    ensures |back| < n && h < n
  {
    HeadsFit(n, ds, chains, back + [h]);
    assert (back + [h])[|back|] == h;
  }

  lemma Completed(chains: map<nat, seq<nat>>, queue: seq<nat>, device: set<nat>, back: seq<nat>,
                  info: seq<Info>, h: nat)
    requires Stages(chains, queue, device, back, info) && h in device
    ensures Stages(chains, queue, device - {h}, back + [h], info)
  {
  }

  lemma Handled(chains: map<nat, seq<nat>>, queue: seq<nat>, device: set<nat>, back: seq<nat>, info: seq<Info>)
    requires Stages(chains, queue, device, back, info) && back != [] && back[0] < |info|
    ensures Stages(chains, queue, device, back[1..], info[back[0] := Info(true, None)])
  {
    var info' := info[back[0] := Info(true, None)];
    assert forall h: nat :: h in back <==> h == back[0] || h in back[1..];
    assert forall h: nat :: Done(info', h) <==> h == back[0] || Done(info, h);
  }

  /** info[] after the requests in `hs` have been handled in order. */
  function Marked(info: seq<Info>, hs: seq<nat>): (r: seq<Info>)
    ensures |r| == |info|
  {
    if hs == [] then info
    else
      var r := Marked(info, hs[..|hs| - 1]);
      var h := hs[|hs| - 1];
      if h < |r| then r[h := Info(true, None)] else r
  }

  /** Exactly the handled requests are marked, the others are as they were. */
  lemma {:induction false} MarkedExactly(info: seq<Info>, hs: seq<nat>, h: nat)
    requires h < |info|
    ensures Marked(info, hs)[h] == if h in hs then Info(true, None) else info[h]
  {
    if hs != [] {
      var init := hs[..|hs| - 1];
      assert hs == init + [hs[|hs| - 1]];
      MarkedExactly(info, init, h);
    }
  }

  /** The wakeups so far are those of the first requests of b. */
  predicate WokenBy(woken: seq<Option<nat>>, info: seq<Info>, b: seq<nat>) {
    |woken| <= |b| && forall k :: 0 <= k < |woken| ==> b[k] < |info| && woken[k] == info[b[k]].buf
  }

  lemma OneTaken(woken: seq<Option<nat>>, info: seq<Info>, b: seq<nat>)
    requires WokenBy(woken, info, b)
    ensures |woken| < |b| ==>
      && b[|woken|..][0] == b[|woken|] && b[|woken|..][1..] == b[|woken| + 1..]
      && (b[|woken|] < |info| ==> WokenBy(woken + [info[b[|woken|]].buf], info, b))
  {
  }

  lemma AllWoken(woken: seq<Option<nat>>, info: seq<Info>, b: seq<nat>)
    requires WokenBy(woken, info, b)
    ensures forall k :: 0 <= k < |woken| && k < |b| ==> b[k] < |info| && woken[k] == info[b[k]].buf
  {
  }

  lemma MarkedElsewhere(info: seq<Info>, b: seq<nat>, k: nat)
    requires NoDup(b) && k <= |b|
    ensures k < |b| && b[k] < |info| ==> Marked(info, b[..k])[b[k]] == info[b[k]]
    ensures k < |b| && b[k] < |info| ==> Marked(info, b[..k + 1]) == Marked(info, b[..k])[b[k] := Info(true, None)]
  {
    if k < |b| && b[k] < |info| {
      assert b[..k + 1][..k] == b[..k];
      MarkedExactly(info, b[..k], b[k]);
    }
  }

  lemma Returned(n: nat, ds: seq<Desc>, free: seq<nat>, chains: map<nat, seq<nat>>, h: nat)
    requires Chains(ds, chains) && Partition(n, free, chains) && h in chains && |ds| == n && NoDup(free)
    requires Path(ds, free)
    ensures ChainOk(ds, chains[h]) && chains[h][0] == h && Disjoint(chains[h], free) && h < n
    ensures |free| + |chains[h]| <= n
    ensures Partition(n, chains[h] + free, chains - {h})
    ensures forall g :: g in chains && g != h ==> Disjoint(chains[g], chains[h])
  {
    var s, rest := chains[h], chains - {h};
    assert s[0] in s;
    var t := s + free;
    assert NoDup(t) by {
      forall i, j | 0 <= i < j < |t| ensures t[i] != t[j] {
        if i < |s| <= j {
          assert s[i] in s && free[j - |s|] in free;
        }
      }
    }
    Pigeonhole(t, n);
    forall d: nat | d < n ensures d in t || InSomeChain(rest, d) {
      if d !in free && d !in s {
        var g :| g in chains && d in chains[g];
        assert g in rest && d in rest[g];
      }
    }
  }

  lemma Collected(chains: map<nat, seq<nat>>, queue: seq<nat>, device: set<nat>, back: seq<nat>,
                  info: seq<Info>, h: nat)
    requires Stages(chains, queue, device, back, info) && Done(info, h)
    ensures Stages(chains - {h}, queue, device, back, info[h := info[h].(done := false)])
  {
    var info' := info[h := info[h].(done := false)];
    assert forall g: nat :: Done(info', g) <==> g != h && Done(info, g);
  }

  /** Freeing one chain writes no descriptor of another. */
  lemma ChainsKept(ds: seq<Desc>, ds': seq<Desc>, chains: map<nat, seq<nat>>, h: nat, chain: seq<nat>)
    requires Chains(ds, chains) && h in chains && chain == chains[h] && |ds'| == |ds| && chain != []
    requires forall g :: g in chains && g != h ==> Disjoint(chains[g], chain)
    requires forall d :: 0 <= d < |ds| && d != chain[|chain| - 1] ==> ds'[d] == ds[d]
    ensures Chains(ds', chains - {h})
  {
    var last := chain[|chain| - 1];
    assert last in chain;
    forall g | g in chains && g != h ensures ChainOk(ds', chains[g]) {
      var s := chains[g];
      assert ChainOk(ds, s);
      assert last !in s;
      forall k: nat | k + 1 < |s| ensures LinkedAt(ds', s, k) {
        assert LinkedAt(ds, s, k) && s[k] in s;
      }
      assert s[|s| - 1] in s;
    }
  }
}
