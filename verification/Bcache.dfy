/** The block cache of kernel/buf.c: ref-counted slots over the disk.  Slot fields
  are those of struct buf; a slot that nobody holds is all zero. */
module Bcache {
  import opened Options
  import opened Dirent

  datatype Buf = Buf(data: Block, bno: nat, refs: nat, valid: bool)

  const BLOCK: nat := 1024

  function Cleared(): Buf {
    Buf(Zeros(BLOCK), 0, 0, false)
  }

  /** The contents of a block, zero where nothing was written yet. */
  function At(disk: map<nat, Block>, bno: nat): Block {
    if bno in disk then disk[bno] else Zeros(BLOCK)
  }

  /** Slot i is cleared when nobody holds it, and a valid slot holds its block. */
  predicate SlotOk(bufs: seq<Buf>, disk: map<nat, Block>, i: nat)
    requires i < |bufs|
  {
    var b := bufs[i];
    && (b.refs == 0 ==> b == Cleared())
    && (b.valid && b.bno != 0 ==> b.data == At(disk, b.bno))
  }

  /** A non-zero block has one slot at most. */
  predicate OneSlot(bufs: seq<Buf>, i: nat, j: nat)
    requires i < |bufs| && j < |bufs|
  {
    i != j && bufs[i].bno != 0 ==> bufs[i].bno != bufs[j].bno
  }

  ghost predicate CacheOk(bufs: seq<Buf>, disk: map<nat, Block>, handles: multiset<nat>) {
    && (forall i: nat :: i < |bufs| ==> SlotOk(bufs, disk, i) && handles[i] == bufs[i].refs)
    && (forall i: nat :: i in handles ==> i < |bufs|)
    && (forall i: nat, j: nat :: i < |bufs| && j < |bufs| ==> OneSlot(bufs, i, j))
  }

  /** The slot get_buf takes: the first for the block, else the first that is free. */
  predicate Picks(bufs: seq<Buf>, bno: nat, r: Option<nat>) {
    match r
    case Some(i) =>
      && i < |bufs|
      && ((bufs[i].bno == bno && (forall j :: 0 <= j < i ==> bufs[j].bno != bno)) ||
          (bufs[i].refs == 0 && (forall j :: 0 <= j < i ==> bufs[j].refs != 0) &&
            (forall j :: 0 <= j < |bufs| ==> bufs[j].bno != bno)))
    case None =>
      forall j :: 0 <= j < |bufs| ==> bufs[j].bno != bno && bufs[j].refs != 0
  }

  class Cache {
    const buf: array<Buf>
    var disk: map<nat, Block>
    ghost var handles: multiset<nat>

    ghost predicate Valid()
      reads this, buf
    {
      CacheOk(buf[..], disk, handles)
    }

    /** buf_init */
    constructor (size: nat, disk: map<nat, Block>)
      ensures Valid() && fresh(buf) && buf.Length == size && this.disk == disk && handles == multiset{}
      ensures forall i :: 0 <= i < size ==> buf[i] == Cleared()
    {
      buf := new Buf[size](_ => Cleared());
      this.disk := disk;
      handles := multiset{};
    }

    /** get_buf takes a reference, or panics when every slot is held. */
    method GetBuf(bno: nat) returns (r: Option<nat>)
      requires Valid()
      modifies this`handles, buf
      ensures Picks(old(buf[..]), bno, r)
      ensures r.None? ==> buf[..] == old(buf[..]) && handles == old(handles)
      ensures r.Some? ==>
        && Valid() && handles == old(handles) + multiset{r.value}
        && buf[..] == old(buf[..])[r.value :=
          old(buf[..])[r.value].(refs := old(buf[..])[r.value].refs + 1, bno := bno)]
    {
      hide CacheOk;
      var i := 0;
      while i < buf.Length
        invariant 0 <= i <= buf.Length
        invariant forall j :: 0 <= j < i ==> buf[j].bno != bno
      {
        if buf[i].bno == bno {
          Taken(buf[..], disk, handles, i, bno);
          buf[i] := buf[i].(refs := buf[i].refs + 1);
          handles := handles + multiset{i};
          return Some(i);
        }
        i := i + 1;
      }
      i := 0;
      while i < buf.Length
        invariant 0 <= i <= buf.Length
        invariant forall j :: 0 <= j < i ==> buf[j].refs != 0
      {
        if buf[i].refs == 0 {
          Taken(buf[..], disk, handles, i, bno);
          buf[i] := buf[i].(refs := 1, bno := bno);
          handles := handles + multiset{i};
          return Some(i);
        }
        i := i + 1;
      }
      return None;
    }

    /** bio_read: a held slot with what the disk holds, for every non-zero block. */
    method BioRead(bno: nat) returns (r: Option<nat>)
      requires Valid()
      modifies this`handles, buf
      ensures disk == old(disk) && Picks(old(buf[..]), bno, r)
      ensures r.None? ==> buf[..] == old(buf[..]) && handles == old(handles)
      ensures r.Some? ==>
        && Valid() && handles == old(handles) + multiset{r.value} && r.value < buf.Length
        && buf[r.value].bno == bno && buf[r.value].valid
        && (bno != 0 ==> buf[r.value].data == At(disk, bno))
        && (forall j :: 0 <= j < buf.Length && j != r.value ==> buf[j] == old(buf[j]))
    {
      r := GetBuf(bno);
      if r.None? {
        return;
      }
      var i := r.value;
      Held(buf[..], disk, handles, i);
      if !buf[i].valid {
        Filled(buf[..], disk, handles, i, At(disk, bno));
        hide CacheOk;
        buf[i] := buf[i].(data := At(disk, bno), valid := true);
        assert buf[..] == old(buf[..])[i := buf[i]];
      }
    }

    /** A holder changes the data and calls bio_write: the block is written through. */
    method ModifyWrite(i: nat, data: Block)
      requires Valid() && i in handles
      modifies this`disk, buf
      ensures Valid() && i < buf.Length && disk == old(disk)[old(buf[..])[i].bno := data]
      ensures buf[..] == old(buf[..])[i := old(buf[..])[i].(data := data, valid := true)]
    {
      Held(buf[..], disk, handles, i);
      Written(buf[..], disk, handles, i, data);
      hide CacheOk;
      buf[i] := buf[i].(data := data);
      disk := disk[buf[i].bno := buf[i].data];
      buf[i] := buf[i].(valid := true);
      assert buf[..] == old(buf[..])[i := old(buf[..])[i].(data := data, valid := true)];
    }

    /** bio_dup */
    method BioDup(i: nat)
      requires Valid() && i in handles
      modifies this`handles, buf
      ensures Valid() && handles == old(handles) + multiset{i} && i < buf.Length
      ensures buf[..] == old(buf[..])[i := old(buf[..])[i].(refs := old(buf[..])[i].refs + 1)]
    {
      Held(buf[..], disk, handles, i);
      Taken(buf[..], disk, handles, i, buf[i].bno);
      hide CacheOk;
      buf[i] := buf[i].(refs := buf[i].refs + 1);
      handles := handles + multiset{i};
    }

    /** bio_free gives one handle back; the last one clears the slot.  It panics on a
        slot nobody holds, and on no other. */
    method BioFree(i: nat) returns (ok: bool)
      requires Valid() && i < buf.Length
      modifies this`handles, buf
      ensures ok <==> i in old(handles)
      ensures !ok ==> buf[..] == old(buf[..]) && handles == old(handles)
      ensures ok ==> Valid() && handles == old(handles) - multiset{i}
      ensures ok ==>
        buf[..] == old(buf[..])[i := if old(handles)[i] == 1 then Cleared()
                                     else old(buf[..])[i].(refs := old(buf[..])[i].refs - 1)]
    {
      if buf[i].refs == 0 {
        return false;
      }
      Freed(buf[..], disk, handles, i);
      assert handles[i] == buf[i].refs;
      hide CacheOk;
      buf[i] := buf[i].(refs := buf[i].refs - 1);
      if buf[i].refs == 0 {
        buf[i] := Cleared();
      }
      handles := handles - multiset{i};
      ok := true;
      assert buf[..] == Dropped(old(buf[..]), i);
    }
  }

  lemma Held(bufs: seq<Buf>, disk: map<nat, Block>, handles: multiset<nat>, i: nat)
    requires CacheOk(bufs, disk, handles) && i in handles
    ensures i < |bufs| && bufs[i].refs > 0 && SlotOk(bufs, disk, i)
  {
  }

  /** Taking a slot of the block, or a free one when the block has none. */
  lemma Taken(bufs: seq<Buf>, disk: map<nat, Block>, handles: multiset<nat>, i: nat, bno: nat)
    requires CacheOk(bufs, disk, handles) && i < |bufs|
    requires bufs[i].bno == bno || (bufs[i].refs == 0 && forall j :: 0 <= j < |bufs| ==> bufs[j].bno != bno)
    ensures CacheOk(bufs[i := bufs[i].(refs := bufs[i].refs + 1, bno := bno)], disk, handles + multiset{i})
  {
    var bufs' := bufs[i := bufs[i].(refs := bufs[i].refs + 1, bno := bno)];
    assert SlotOk(bufs, disk, i);
    forall k: nat | k < |bufs'| ensures SlotOk(bufs', disk, k) {
      assert SlotOk(bufs, disk, k);
    }
    forall j: nat, k: nat | j < |bufs'| && k < |bufs'| ensures OneSlot(bufs', j, k) {
      assert OneSlot(bufs, j, k);
    }
  }

  lemma Filled(bufs: seq<Buf>, disk: map<nat, Block>, handles: multiset<nat>, i: nat, data: Block)
    requires CacheOk(bufs, disk, handles) && i < |bufs| && bufs[i].refs > 0 && data == At(disk, bufs[i].bno)
    ensures CacheOk(bufs[i := bufs[i].(data := data, valid := true)], disk, handles)
  {
    var bufs' := bufs[i := bufs[i].(data := data, valid := true)];
    forall k: nat | k < |bufs'| ensures SlotOk(bufs', disk, k) {
      assert SlotOk(bufs, disk, k);
    }
    forall j: nat, k: nat | j < |bufs'| && k < |bufs'| ensures OneSlot(bufs', j, k) {
      assert OneSlot(bufs, j, k);
    }
  }

  lemma Written(bufs: seq<Buf>, disk: map<nat, Block>, handles: multiset<nat>, i: nat, data: Block)
    requires CacheOk(bufs, disk, handles) && i < |bufs| && bufs[i].refs > 0
    ensures CacheOk(bufs[i := bufs[i].(data := data, valid := true)], disk[bufs[i].bno := data], handles)
  {
    var bufs', disk' := bufs[i := bufs[i].(data := data, valid := true)], disk[bufs[i].bno := data];
    forall k: nat | k < |bufs'| ensures SlotOk(bufs', disk', k) {
      assert SlotOk(bufs, disk, k) && OneSlot(bufs, k, i);
    }
    forall j: nat, k: nat | j < |bufs'| && k < |bufs'| ensures OneSlot(bufs', j, k) {
      assert OneSlot(bufs, j, k);
    }
  }

  function Dropped(bufs: seq<Buf>, i: nat): seq<Buf>
    requires i < |bufs| && bufs[i].refs > 0
  {
    bufs[i := if bufs[i].refs == 1 then Cleared() else bufs[i].(refs := bufs[i].refs - 1)]
  }

  lemma Freed(bufs: seq<Buf>, disk: map<nat, Block>, handles: multiset<nat>, i: nat)
    requires CacheOk(bufs, disk, handles) && i < |bufs| && bufs[i].refs > 0
    ensures CacheOk(Dropped(bufs, i), disk, handles - multiset{i})
  {
    var bufs' := Dropped(bufs, i);
    forall k: nat | k < |bufs'| ensures SlotOk(bufs', disk, k) {
      assert SlotOk(bufs, disk, k);
    }
    forall j: nat, k: nat | j < |bufs'| && k < |bufs'| ensures OneSlot(bufs', j, k) {
      assert OneSlot(bufs, j, k);
    }
  }

  lemma PickFirst(bufs: seq<Buf>, bno: nat)
    requires |bufs| > 0 && bufs[0].refs == 0 && forall j :: 0 <= j < |bufs| ==> bufs[j].bno != bno
    ensures forall r :: Picks(bufs, bno, r) ==> r == Some(0)
  {
  }

  /** Block 0 is not protected: a slot number that is zero also marks the free slots,
      so it can be live in two slots at once. */
  method ZeroBlockTwice() returns (c: Cache, x: nat, y: nat)
    ensures fresh(c) && c.Valid() && x < c.buf.Length && y < c.buf.Length && x != y
    ensures c.buf[x].refs > 0 && c.buf[y].refs > 0 && c.buf[x].bno == 0 && c.buf[y].bno == 0
  {
    c := new Cache(2, map[]);
    assert c.buf[..] == [Cleared(), Cleared()];
    PickFirst(c.buf[..], 5);
    var a := c.BioRead(5);
    assert c.buf[..][0].bno == 5 && c.buf[..][1] == Cleared();
    var b := c.BioRead(0);
    assert b == Some(1);
    assert c.buf[..][0].refs == 1;
    var ok := c.BioFree(0);
    assert c.buf[..][0] == Cleared();
    var d := c.BioRead(0);
    assert d == Some(0);
    x, y := 1, 0;
  }
}
