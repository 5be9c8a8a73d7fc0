/** Writing a file (kernel/ext2.c): ext2_w_inode with its growth, as the code does it on
  any inode. */
module FileWrite {
  import opened Options
  import opened Dirent
  import opened BlockBitmap
  import opened FileBytes

  // ---- Growth

  /** The first direct slot from k on that is 0, or 12. */
  function Hole(block: seq<nat>, k: nat): (r: nat)
    requires |block| == 15 && k <= 12
    ensures k <= r <= 12 && (r < 12 ==> block[r] == 0) && forall i: nat :: k <= i < r ==> block[i] != 0
    decreases 12 - k
  {
    if k < 12 && block[k] != 0 then Hole(block, k + 1) else k
  }

  /** PastSlots: block numbers are stored behind the fifteen slots. */
  datatype Growth = PastSlots | Grew(ino: Ino, bm: Bitmap)

  /** ext2_grow_inode_block: nothing without a hole; otherwise n slots from the hole on get
      what the allocations give, NONE included. */
  function GrowInode(ino: Ino, bm: Bitmap, n: nat): Growth
    requires |ino.block| == 15
  {
    var f := Hole(ino.block, 0);
    if f == 12 then Grew(ino, bm)
    else if f + n > 15 then PastSlots
    else
      var a := AllocN(bm, n);
      Grew(Ino(ino.size, ino.blocks + n * 2, ino.block[..f] + a.0 + ino.block[f + n..]), a.1)
  }

  function Last(off: nat, n: nat): nat {
    (n + off) / 1024
  }

  /** The u32 size after the write. */
  function NewSize(ino: Ino, off: nat, n: nat): nat {
    if off + n > ino.size then (off + n) % 0x100000000 else ino.size
  }

  function GrowFor(ino: Ino, bm: Bitmap, off: nat, n: nat): Growth
    requires |ino.block| == 15
  {
    var e := ino.(size := NewSize(ino, off, n));
    if Last(off, n) > NBlock(ino) then GrowInode(e, bm, Last(off, n) - NBlock(ino)) else Grew(e, bm)
  }

  // ---- The copy loop

  /** What is left to write when the loop reaches block i. */
  function LeftAt(off: nat, n: nat, i: nat): nat
    requires i >= off / 1024
  {
    if (i - off / 1024) * 1024 < n then n - (i - off / 1024) * 1024 else 0
  }

  function ChunkOff(off: nat, i: nat): (o: nat)
    ensures o < 1024
  {
    if i == off / 1024 then off % 1024 else 0
  }

  /** The bytes that go to block i. */
  function ChunkLen(off: nat, n: nat, i: nat): (r: nat)
    requires i >= off / 1024
    ensures ChunkOff(off, i) + r <= 1024 && r <= LeftAt(off, n, i)
  {
    var left, o := LeftAt(off, n, i), ChunkOff(off, i);
    if o + Min(left, 1024) > 1024 then 1024 - o else Min(left, 1024)
  }

  /** Where in the buffer they are; the loop's pointer, while it has something to copy. */
  function ChunkPos(off: nat, n: nat, i: nat): (p: nat)
    requires i >= off / 1024
    ensures p + ChunkLen(off, n, i) <= n
  {
    if ChunkLen(off, n, i) == 0 then 0
    else
      assert off == off / 1024 * 1024 + off % 1024;
      i * 1024 + ChunkOff(off, i) - off
  }

  function Chunk(buf: seq<Byte>, off: nat, i: nat): (r: seq<Byte>)
    requires i >= off / 1024
    ensures |r| == ChunkLen(off, |buf|, i)
  {
    buf[ChunkPos(off, |buf|, i)..ChunkPos(off, |buf|, i) + ChunkLen(off, |buf|, i)]
  }

  /** The block with data at offset o. */
  function Patch(b: Block, o: nat, data: seq<Byte>): (r: Block)
    requires o + |data| <= |b|
    ensures |r| == |b|
    ensures forall x {:trigger r[x]} :: 0 <= x < |b| ==> r[x] == if o <= x < o + |data| then data[x - o] else b[x]
  {
    b[..o] + data + b[o + |data|..]
  }

  /** Block b of the disk after the loop has been at file block i. */
  function PatchAt(disk: Disk, b: nat, buf: seq<Byte>, off: nat, i: nat): (r: Disk)
    requires DiskOk(disk) && b in disk && i >= off / 1024
    ensures DiskOk(r) && r.Keys == disk.Keys
  {
    disk[b := Patch(disk[b], ChunkOff(off, i), Chunk(buf, off, i))]
  }

  /** The loop from block i on; None when it comes to a block that is not on the disk. */
  function CopyFrom(disk: Disk, ino: Ino, buf: seq<Byte>, off: nat, i: nat): (r: Option<Disk>)
    requires DiskOk(disk) && |ino.block| == 15 && i >= off / 1024
    ensures r.Some? ==> DiskOk(r.value) && r.value.Keys == disk.Keys
    decreases if i < NBlock(ino) then NBlock(ino) - i else 0
  {
    if i >= NBlock(ino) || i > Last(off, |buf|) then Some(disk)
    else
      var b := BlockNo(disk, ino, i);
      if b !in disk then None else CopyFrom(PatchAt(disk, b, buf, off, i), ino, buf, off, i + 1)
  }

  // ---- ext2_w_inode

  datatype WriteOutcome = Beyond | Overran | Panicked | Wrote(disk: Disk, bm: Bitmap, ino: Ino)

  function WInode(disk: Disk, bm: Bitmap, ino: Ino, buf: seq<Byte>, off: nat): WriteOutcome
    requires DiskOk(disk) && |ino.block| == 15
  {
    if off > ino.size then Beyond
    else match GrowFor(ino, bm, off, |buf|)
      case PastSlots => Overran
      case Grew(e, bm') =>
        match CopyFrom(disk, e, buf, off, off / 1024)
        case None => Panicked
        case Some(disk') => Wrote(disk', bm', e)
  }

  /** The file ends where it ended, or where the write does when that is further on. */
  lemma WroteSize(disk: Disk, bm: Bitmap, ino: Ino, buf: seq<Byte>, off: nat)
    requires DiskOk(disk) && |ino.block| == 15
    ensures WInode(disk, bm, ino, buf, off) == Beyond <==> off > ino.size
    ensures var w := WInode(disk, bm, ino, buf, off);
      && (w.Wrote? && off + |buf| <= ino.size ==> w.ino.size == ino.size)
      && (w.Wrote? && ino.size < off + |buf| < 0x100000000 ==> w.ino.size == off + |buf|)
      && (w.Wrote? && off + |buf| > ino.size ==>
            w.ino.size < 0x100000000 && exists wraps: nat :: w.ino.size + wraps * 0x100000000 == off + |buf|)
  {
    hide CopyFrom, DiskOk, AllocN, Hole;
    var n := off + |buf|;
    assert n % 0x100000000 + n / 0x100000000 * 0x100000000 == n;
  }

  class Inode {
    var size: nat
    var blocks: nat
    var block: seq<nat>

    function View(): Ino
      reads this
    {
      Ino(size, blocks, block)
    }
  }

  datatype Result = Denied | Corrupted | Halted | Ok(n: nat)

  /** What the method returns and leaves behind is what WInode says. */
  predicate Matches(w: WriteOutcome, r: Result, n: nat, disk: Disk, bm: Bitmap, ino: Ino) {
    match w
    case Beyond => r == Denied
    case Overran => r == Corrupted
    case Panicked => r == Halted
    case Wrote(_, _, _) => r == Ok(n) && w == Wrote(disk, bm, ino)
  }

  /** The disk blocks and their bitmap. */
  class Volume {
    var disk: Disk
    var bitmap: Bitmap

    /** ext2_w_inode on any inode.  After an overrun or a disk panic nothing is said. */
    method WriteInode(node: Inode, buf: seq<Byte>, off: nat) returns (r: Result)
      requires DiskOk(disk) && |node.block| == 15 && off + |buf| < 0x8000000000
      modifies this, node
      ensures Matches(old(WInode(disk, bitmap, node.View(), buf, off)), r, |buf|, disk, bitmap, node.View())
      ensures r == Denied <==> off > old(node.size)
      ensures r == Denied ==> disk == old(disk) && bitmap == old(bitmap) && node.View() == old(node.View())
      ensures r.Ok? ==> r.n == |buf|
      ensures r.Ok? && off + |buf| <= old(node.size) ==> node.size == old(node.size)
      ensures r.Ok? && old(node.size) < off + |buf| < 0x100000000 ==> node.size == off + |buf|
    {
      WroteSize(disk, bitmap, node.View(), buf, off);
      if off > node.size {
        return Denied;
      }
      hide GrowFor, CopyFrom, DiskOk;
      var ok := Resize(node, off, |buf|);
      if !ok {
        return Corrupted;
      }
      ok := CopyIn(node.View(), buf, off);
      r := if ok then Ok(|buf|) else Halted;
    }

    /** The new size, and growth when the write ends behind the counted blocks. */
    method Resize(node: Inode, off: nat, n: nat) returns (ok: bool)
      requires |node.block| == 15
      modifies this`bitmap, node
      ensures |node.block| == 15
      ensures old(GrowFor(node.View(), bitmap, off, n)) == if ok then Grew(node.View(), bitmap) else PastSlots
    {
      if off + n > node.size {
        node.size := (off + n) % 0x100000000;
      }
      var lastblk, nb := (n + off) / 1024, node.blocks / 2;
      hide GrowInode;
      ok := true;
      if lastblk > nb {
        ok := Grow(node, lastblk - nb);
      }
    }

    /** ext2_grow_inode_block */
    method Grow(node: Inode, n: nat) returns (ok: bool)
      requires |node.block| == 15
      modifies this`bitmap, node
      ensures |node.block| == 15
      ensures old(GrowInode(node.View(), bitmap, n)) == if ok then Grew(node.View(), bitmap) else PastSlots
    {
      var f := FindHole(node);
      if f == 12 {
        return true;
      }
      if f + n > 15 {
        return false;
      }
      hide AllocN, Hole;
      FillSlots(node, f, n);
      node.blocks := node.blocks + n * 2;
      ok := true;
    }

    method FindHole(node: Inode) returns (f: nat)
      requires |node.block| == 15
      ensures f == Hole(node.block, 0)
    {
      f := 0;
      while f < 12 && node.block[f] != 0
        invariant 0 <= f <= 12 && Hole(node.block, 0) == Hole(node.block, f)
      {
        f := f + 1;
      }
    }

    /** Slots f, f + 1, ... get what the allocations give. */
    method FillSlots(node: Inode, f: nat, n: nat)
      requires |node.block| == 15 && f + n <= 15
      modifies this`bitmap, node`block
      ensures bitmap == AllocN(old(bitmap), n).1
      ensures node.block == old(node.block)[..f] + AllocN(old(bitmap), n).0 + old(node.block)[f + n..]
    {
      ghost var was, bm := node.block, bitmap;
      hide *;
      AllocStart(bm);
      var i := 0;
      while i < n
        invariant 0 <= i <= n && AllocN(bm, i).1 == bitmap
        invariant node.block == was[..f] + AllocN(bm, i).0 + was[f + i..]
      {
        AllocStep(bm, i);
        var bn;
        bn, bitmap := AllocBlock(bitmap);
        node.block := node.block[f + i := bn];
        i := i + 1;
      }
    }

    /** The copy loop. */
    method CopyIn(ino: Ino, buf: seq<Byte>, off: nat) returns (ok: bool)
      requires DiskOk(disk) && |ino.block| == 15
      modifies this`disk
      ensures old(CopyFrom(disk, ino, buf, off, off / 1024)) == if ok then Some(disk) else None
    {
      ghost var d0 := disk;
      hide *;
      var i, lastblk, o: nat, left: nat, p: nat := off / 1024, (|buf| + off) / 1024, off % 1024, |buf|, 0;
      var nb := NBlock(ino);
      LoopStarts(off, |buf|);
      while i < nb && i <= lastblk
        invariant off / 1024 <= i && DiskOk(disk) && o < 1024
        invariant CopyFrom(d0, ino, buf, off, off / 1024) == CopyFrom(disk, ino, buf, off, i)
        invariant LoopAt(off, |buf|, i, left, o, p)
        decreases nb - i
      {
        CopyStops(disk, ino, buf, off, i);
        var b := BlockNo(disk, ino, i);
        if b !in disk {
          return false;
        }
        LoopNext(off, |buf|, i, left, o, p);
        CopyOne(disk, ino, buf, off, i, p);
        var cpsize := Min(left, 1024);
        if o + cpsize > 1024 {
          cpsize := 1024 - o;
        }
        disk := disk[b := Patch(disk[b], o, buf[p..p + cpsize])];
        p := p + cpsize;
        left := if left > 1024 then left - 1024 else 0;
        o := 0;
        i := i + 1;
      }
      CopyStops(disk, ino, buf, off, i);
      ok := true;
    }
  }

  lemma AllocStart(bm: Bitmap)
    ensures AllocN(bm, 0) == ([], bm)
  {
  }

  lemma AllocStep(bm: Bitmap, i: nat)
    ensures AllocN(bm, i + 1) == (AllocN(bm, i).0 + [AllocOne(AllocN(bm, i).1).0], AllocOne(AllocN(bm, i).1).1)
  {
  }

  /** The loop's variables at block i. */
  predicate LoopAt(off: nat, n: nat, i: nat, left: nat, o: nat, p: nat) {
    && i >= off / 1024 && left == LeftAt(off, n, i) && o == ChunkOff(off, i)
    && p <= n && (left > 0 ==> p + off == i * 1024 + o)
  }

  lemma LoopStarts(off: nat, n: nat)
    ensures LoopAt(off, n, off / 1024, n, off % 1024, 0)
  {
  }

  lemma LoopNext(off: nat, n: nat, i: nat, left: nat, o: nat, p: nat)
    requires LoopAt(off, n, i, left, o, p)
    ensures o == ChunkOff(off, i) && p + ChunkLen(off, n, i) <= n
    ensures ChunkLen(off, n, i) == if o + Min(left, 1024) > 1024 then 1024 - o else Min(left, 1024)
    ensures ChunkLen(off, n, i) > 0 ==> p == ChunkPos(off, n, i)
    ensures LoopAt(off, n, i + 1, if left > 1024 then left - 1024 else 0, 0, p + ChunkLen(off, n, i))
  {
    assert off == off / 1024 * 1024 + off % 1024;
  }

  /** Where the loop ends. */
  lemma CopyStops(disk: Disk, ino: Ino, buf: seq<Byte>, off: nat, i: nat)
    requires DiskOk(disk) && |ino.block| == 15 && i >= off / 1024
    ensures i >= NBlock(ino) || i > (|buf| + off) / 1024 ==> CopyFrom(disk, ino, buf, off, i) == Some(disk)
    ensures i < NBlock(ino) && i <= (|buf| + off) / 1024 && BlockNo(disk, ino, i) !in disk ==>
      CopyFrom(disk, ino, buf, off, i) == None
  {
  }

  lemma CopyStep(disk: Disk, ino: Ino, buf: seq<Byte>, off: nat, i: nat)
    requires DiskOk(disk) && |ino.block| == 15 && off / 1024 <= i < NBlock(ino) && i <= (|buf| + off) / 1024
    requires BlockNo(disk, ino, i) in disk
    ensures CopyFrom(disk, ino, buf, off, i) ==
      CopyFrom(PatchAt(disk, BlockNo(disk, ino, i), buf, off, i), ino, buf, off, i + 1)
  {
  }

  /** One round of the loop. */
  lemma CopyOne(disk: Disk, ino: Ino, buf: seq<Byte>, off: nat, i: nat, p: nat)
    requires DiskOk(disk) && |ino.block| == 15 && off / 1024 <= i < NBlock(ino) && i <= (|buf| + off) / 1024
    requires BlockNo(disk, ino, i) in disk && p + ChunkLen(off, |buf|, i) <= |buf|
    requires ChunkLen(off, |buf|, i) > 0 ==> p == ChunkPos(off, |buf|, i)
    ensures var b := BlockNo(disk, ino, i);
      && |disk[b]| == 1024
      && var disk' := disk[b := Patch(disk[b], ChunkOff(off, i), buf[p..p + ChunkLen(off, |buf|, i)])];
        DiskOk(disk') && CopyFrom(disk, ino, buf, off, i) == CopyFrom(disk', ino, buf, off, i + 1)
  {
    var b := BlockNo(disk, ino, i);
    assert buf[p..p + ChunkLen(off, |buf|, i)] == Chunk(buf, off, i);
    assert PatchAt(disk, b, buf, off, i) == disk[b := Patch(disk[b], ChunkOff(off, i), Chunk(buf, off, i))];
  }
}
