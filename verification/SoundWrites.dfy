/** What ext2_w_inode (kernel/ext2.c) does to a sound file when the write disturbs nothing:
  which bytes it stores, and what it keeps. */
module SoundWrites {
  import opened Options
  import opened Dirent
  import opened BlockBitmap
  import opened FileBytes
  import opened FileWrite

  // ---- Which bytes are written

  /** The loop puts a byte of the buffer at position k: all asked for in the first block,
      and as many in the later ones as if the write had begun at a block boundary. */
  predicate Written(off: nat, n: nat, k: nat) {
    if k / 1024 == off / 1024 then off <= k < off + n
    else off / 1024 < k / 1024 && k < n + off / 1024 * 1024
  }

  function BufAt(buf: seq<Byte>, off: nat, k: nat): int {
    if off <= k < off + |buf| then buf[k - off] else 0
  }

  lemma WrittenInside(off: nat, n: nat, k: nat)
    ensures Written(off, n, k) ==> off <= k < off + n
  {
    assert off == off / 1024 * 1024 + off % 1024;
    if off / 1024 < k / 1024 {
      assert k >= (off / 1024 + 1) * 1024;
    }
  }

  /** Byte k of the file after the write. */
  function After(d0: Disk, ino: Ino, buf: seq<Byte>, off: nat, k: nat): int
    requires |ino.block| == 15
  {
    if Written(off, |buf|, k) then BufAt(buf, off, k) else FByte(d0, ino, k)
  }

  lemma WrittenHere(off: nat, n: nat, i: nat, x: nat)
    requires i >= off / 1024 && x < 1024
    ensures Written(off, n, i * 1024 + x) <==> ChunkOff(off, i) <= x < ChunkOff(off, i) + ChunkLen(off, n, i)
    ensures ChunkLen(off, n, i) > 0 ==> ChunkPos(off, n, i) + off == i * 1024 + ChunkOff(off, i)
  {
    InBlock(i, x);
    assert off == off / 1024 * 1024 + off % 1024;
  }

  /** The patched block holds the bytes the file is to have. */
  lemma Patched(d0: Disk, ino: Ino, buf: seq<Byte>, off: nat, i: nat, b: Block)
    requires |ino.block| == 15 && i >= off / 1024 && |b| == 1024
    requires forall x: nat :: x < 1024 ==> FByte(d0, ino, i * 1024 + x) == b[x]
    ensures var b' := Patch(b, ChunkOff(off, i), Chunk(buf, off, i));
      forall x: nat :: x < 1024 ==> b'[x] == After(d0, ino, buf, off, i * 1024 + x)
  {
    var b' := Patch(b, ChunkOff(off, i), Chunk(buf, off, i));
    hide FByte, ChunkLen, ChunkPos, ChunkOff, Written;
    forall x: nat | x < 1024 ensures b'[x] == After(d0, ino, buf, off, i * 1024 + x) {
      WrittenHere(off, |buf|, i, x);
    }
  }

  // ---- One block

  /** Writing a real block changes those bytes of the file and no block number. */
  lemma OneBlock(disk: Disk, bm: Bitmap, ino: Ino, n: nat, i: nat, b: Block)
    requires DiskOk(disk) && Real(disk, bm, ino, n) && i < n && |b| == 1024
    ensures BlockNo(disk, ino, i) in disk
    ensures var disk' := disk[BlockNo(disk, ino, i) := b];
      && DiskOk(disk') && Real(disk', bm, ino, n)
      && (forall bi: nat :: bi < n || n > 12 ==> BlockNo(disk', ino, bi) == BlockNo(disk, ino, bi))
      && (forall k: nat :: k < n * 1024 ==>
            FByte(disk', ino, k) == if k / 1024 == i then b[k % 1024] else FByte(disk, ino, k))
  {
    assert BlockOk(disk, bm, ino, i);
    var disk' := disk[BlockNo(disk, ino, i) := b];
    forall bi: nat | bi < n || n > 12 ensures BlockNo(disk', ino, bi) == BlockNo(disk, ino, bi) {
    }
    forall bi: nat | bi < n ensures BlockOk(disk', bm, ino, bi) {
      assert BlockOk(disk, bm, ino, bi);
    }
    forall k: nat | k < n * 1024
      ensures FByte(disk', ino, k) == if k / 1024 == i then b[k % 1024] else FByte(disk, ino, k) {
      assert k / 1024 < n && Differ(disk, ino, i, k / 1024);
    }
    hide BlockOk, FByte, BlockNo;
    forall j: nat, l: nat | j < n && l < n ensures Differ(disk', ino, j, l) {
      assert Differ(disk, ino, j, l);
    }
  }

  // ---- The loop on a file with n real blocks

  /** No block of the file is b. */
  ghost predicate NotIn(disk: Disk, ino: Ino, n: nat, b: nat)
    requires |ino.block| == 15
  {
    forall bi: nat :: bi < n ==> BlockNo(disk, ino, bi) != b
  }

  /** The file's bytes and the other blocks while the loop is at block i. */
  ghost predicate Progress(d0: Disk, disk: Disk, bm: Bitmap, ino: Ino, n: nat, buf: seq<Byte>, off: nat, i: nat) {
    && DiskOk(disk) && Real(disk, bm, ino, n) && |ino.block| == 15 && disk.Keys == d0.Keys
    && (forall bi: nat :: bi < n || n > 12 ==> BlockNo(disk, ino, bi) == BlockNo(d0, ino, bi))
    && (forall k: nat :: k < n * 1024 ==>
          FByte(disk, ino, k) == if k / 1024 < i then After(d0, ino, buf, off, k) else FByte(d0, ino, k))
    && (forall b: nat :: b in d0 && NotIn(d0, ino, n, b) ==> b in disk && disk[b] == d0[b])
  }

  lemma Begins(d0: Disk, bm: Bitmap, ino: Ino, n: nat, buf: seq<Byte>, off: nat)
    requires DiskOk(d0) && Real(d0, bm, ino, n)
    ensures Progress(d0, d0, bm, ino, n, buf, off, off / 1024)
  {
    hide FByte;
    forall k: nat | k / 1024 < off / 1024 ensures !Written(off, |buf|, k) {
    }
  }

  /** Block i is as it was before the write. */
  lemma CurrentBlock(d0: Disk, disk: Disk, bm: Bitmap, ino: Ino, n: nat, buf: seq<Byte>, off: nat, i: nat)
    requires Progress(d0, disk, bm, ino, n, buf, off, i) && i < n
    ensures DiskOk(disk) && Real(disk, bm, ino, n) && |ino.block| == 15
    ensures BlockNo(disk, ino, i) in disk && |disk[BlockNo(disk, ino, i)]| == 1024
    ensures forall x: nat :: x < 1024 ==> FByte(d0, ino, i * 1024 + x) == disk[BlockNo(disk, ino, i)][x]
  {
    assert BlockOk(disk, bm, ino, i);
    BlockBytes(disk, ino, i);
    var b := BlockNo(disk, ino, i);
    hide FByte, Real, DiskOk, BlockNo;
    forall x: nat | x < 1024 ensures FByte(d0, ino, i * 1024 + x) == disk[b][x] {
      InBlock(i, x);
    }
  }

  lemma Advances(d0: Disk, disk: Disk, bm: Bitmap, ino: Ino, n: nat, buf: seq<Byte>, off: nat, i: nat)
    requires Progress(d0, disk, bm, ino, n, buf, off, i) && off / 1024 <= i < n
    ensures |ino.block| == 15 && DiskOk(disk) && BlockNo(disk, ino, i) in disk
    ensures Progress(d0, PatchAt(disk, BlockNo(disk, ino, i), buf, off, i), bm, ino, n, buf, off, i + 1)
  {
    hide *;
    CurrentBlock(d0, disk, bm, ino, n, buf, off, i);
    var b := BlockNo(disk, ino, i);
    Patched(d0, ino, buf, off, i, disk[b]);
    NextProgress(d0, disk, bm, ino, n, buf, off, i, Patch(disk[b], ChunkOff(off, i), Chunk(buf, off, i)));
    PatchIs(disk, b, buf, off, i);
  }

  lemma PatchIs(disk: Disk, b: nat, buf: seq<Byte>, off: nat, i: nat)
    requires DiskOk(disk) && b in disk && i >= off / 1024
    ensures |disk[b]| == 1024
    ensures PatchAt(disk, b, buf, off, i) == disk[b := Patch(disk[b], ChunkOff(off, i), Chunk(buf, off, i))]
    ensures ChunkLen(off, |buf|, i) == 0 ==> PatchAt(disk, b, buf, off, i) == disk
  {
    if ChunkLen(off, |buf|, i) == 0 {
      assert Patch(disk[b], ChunkOff(off, i), Chunk(buf, off, i)) == disk[b];
    }
  }

  lemma NextProgress(d0: Disk, disk: Disk, bm: Bitmap, ino: Ino, n: nat, buf: seq<Byte>, off: nat, i: nat, b': Block)
    requires Progress(d0, disk, bm, ino, n, buf, off, i) && i < n && |b'| == 1024
    requires forall x: nat :: x < 1024 ==> b'[x] == After(d0, ino, buf, off, i * 1024 + x)
    ensures Progress(d0, disk[BlockNo(disk, ino, i) := b'], bm, ino, n, buf, off, i + 1)
  {
    hide FByte, Real, DiskOk, BlockNo, After;
    OneBlock(disk, bm, ino, n, i, b');
    var disk' := disk[BlockNo(disk, ino, i) := b'];
    forall k: nat | k < n * 1024
      ensures FByte(disk', ino, k) == if k / 1024 < i + 1 then After(d0, ino, buf, off, k) else FByte(d0, ino, k) {
      if k / 1024 == i {
        assert k == i * 1024 + k % 1024;
      }
    }
    forall c: nat | c in d0 && NotIn(d0, ino, n, c) ensures c in disk' && disk'[c] == d0[c] {
      assert BlockNo(d0, ino, i) != c;
    }
  }

  /** From block i on the loop ends, with every byte of the real blocks as it is to be, if
      the counted blocks are the real ones and at most one more that gets no byte. */
  lemma {:induction false} LoopEnds(d0: Disk, disk: Disk, bm: Bitmap, ino: Ino, n: nat, buf: seq<Byte>, off: nat,
                                    i: nat)
    requires Progress(d0, disk, bm, ino, n, buf, off, i) && i >= off / 1024 && |ino.block| == 15 && DiskOk(disk)
    requires n <= NBlock(ino) <= n + 1
    requires NBlock(ino) == n + 1 ==>
      n > 12 && BlockNo(d0, ino, n) in d0 && (n >= off / 1024 ==> ChunkLen(off, |buf|, n) == 0)
    requires d0.Keys == disk.Keys
    ensures CopyFrom(disk, ino, buf, off, i).Some?
    ensures Progress(d0, CopyFrom(disk, ino, buf, off, i).value, bm, ino, n, buf, off, n)
    decreases n + 1 - i
  {
    hide *;
    CopyStops(disk, ino, buf, off, i);
    if i >= NBlock(ino) || i > (|buf| + off) / 1024 {
      Ends(d0, disk, bm, ino, n, buf, off, i);
    } else {
      SameNo(d0, disk, bm, ino, n, buf, off, i);
      CopyStep(disk, ino, buf, off, i);
      var disk' := PatchAt(disk, BlockNo(disk, ino, i), buf, off, i);
      if i < n {
        Advances(d0, disk, bm, ino, n, buf, off, i);
        LoopEnds(d0, disk', bm, ino, n, buf, off, i + 1);
      } else {
        PatchIs(disk, BlockNo(disk, ino, n), buf, off, n);
        CopyStops(disk, ino, buf, off, n + 1);
        Ends(d0, disk, bm, ino, n, buf, off, n);
      }
    }
  }

  lemma SameNo(d0: Disk, disk: Disk, bm: Bitmap, ino: Ino, n: nat, buf: seq<Byte>, off: nat, i: nat)
    requires Progress(d0, disk, bm, ino, n, buf, off, i) && (i < n || (n > 12 && BlockNo(d0, ino, i) in d0))
    requires d0.Keys == disk.Keys
    ensures |ino.block| == 15 && BlockNo(disk, ino, i) in disk
  {
    hide BlockNo;
    if i < n {
      assert BlockOk(disk, bm, ino, i);
    }
  }

  lemma Ends(d0: Disk, disk: Disk, bm: Bitmap, ino: Ino, n: nat, buf: seq<Byte>, off: nat, i: nat)
    requires Progress(d0, disk, bm, ino, n, buf, off, i) && (i >= n || i > (|buf| + off) / 1024)
    ensures Progress(d0, disk, bm, ino, n, buf, off, n)
  {
    hide FByte, Real, DiskOk, BlockNo;
    forall k: nat | k < n * 1024 && k / 1024 >= i ensures !Written(off, |buf|, k) {
      WrittenInside(off, |buf|, k);
    }
  }

  // ---- Growth

  /** The file with the blocks bs behind its n blocks, and its size afterwards. */
  function Extended(ino: Ino, size: nat, n: nat, bs: seq<nat>): (e: Ino)
    requires |ino.block| == 15 && n + |bs| <= 15
    ensures |e.block| == 15 && e.size == size && NBlock(e) == NBlock(ino) + |bs|
    ensures ino.blocks % 2 == 0 ==> e.blocks % 2 == 0
  {
    Ino(size, ino.blocks + |bs| * 2, ino.block[..n] + bs + ino.block[n + |bs|..])
  }

  /** Growth within the direct slots takes clear bits only: the file keeps its blocks and
      gets new ones of its own. */
  lemma GrowsReal(disk: Disk, bm: Bitmap, ino: Ino, size: nat, n: nat, bm': Bitmap, bs: seq<nat>)
    requires Real(disk, bm, ino, n) && Grown(bm, bm', bs) && BitmapOk(disk, bm)
    requires |ino.block| == 15 && n + |bs| <= 12
    ensures var e := Extended(ino, size, n, bs);
      && Real(disk, bm', e, n + |bs|)
      && (forall bi: nat :: bi < n ==> BlockNo(disk, e, bi) == BlockNo(disk, ino, bi))
      && (forall i: nat :: i < |bs| ==> BlockNo(disk, e, n + i) == bs[i])
  {
    ExtendedNo(disk, ino, size, n, bs);
    var e := Extended(ino, size, n, bs);
    hide Used, Grown, Extended, BlockNo;
    forall bi: nat | bi < n + |bs| ensures BlockOk(disk, bm', e, bi) {
      if bi < n {
        assert BlockOk(disk, bm, ino, bi);
        StaysUsed(bm, bm', bs, BlockNo(disk, ino, bi));
      } else {
        NewIsUsed(disk, bm, bm', bs, bi - n);
        assert BlockNo(disk, e, n + (bi - n)) == bs[bi - n];
      }
    }
    GrownDiffer(disk, bm, ino, n, bm', e, bs);
  }

  lemma GrownDiffer(disk: Disk, bm: Bitmap, ino: Ino, n: nat, bm': Bitmap, e: Ino, bs: seq<nat>)
    requires Real(disk, bm, ino, n) && Grown(bm, bm', bs) && |ino.block| == 15 && |e.block| == 15
    requires forall bi: nat :: bi < n ==> BlockNo(disk, e, bi) == BlockNo(disk, ino, bi)
    requires forall i: nat :: i < |bs| ==> BlockNo(disk, e, n + i) == bs[i]
    ensures forall i: nat, j: nat :: i < n + |bs| && j < n + |bs| ==> Differ(disk, e, i, j)
  {
    hide Real, Grown, BlockNo;
    forall i: nat, j: nat | i < j < n + |bs| ensures BlockNo(disk, e, i) != BlockNo(disk, e, j) {
      if j < n {
        RealDiffer(disk, bm, ino, n, i, j);
      } else {
        assert BlockNo(disk, e, n + (j - n)) == bs[j - n];
        if i < n {
          NewIsNew(disk, bm, ino, n, i, bm', bs, j - n);
        } else {
          assert BlockNo(disk, e, n + (i - n)) == bs[i - n];
          NewDiffer(bm, bm', bs, i - n, j - n);
        }
      }
    }
  }

  lemma RealDiffer(disk: Disk, bm: Bitmap, ino: Ino, n: nat, i: nat, j: nat)
    requires Real(disk, bm, ino, n) && i < j < n
    ensures BlockNo(disk, ino, i) != BlockNo(disk, ino, j)
  {
    assert Differ(disk, ino, i, j);
  }

  lemma ExtendedNo(disk: Disk, ino: Ino, size: nat, n: nat, bs: seq<nat>)
    requires |ino.block| == 15 && n + |bs| <= 12
    ensures var e := Extended(ino, size, n, bs);
      && (forall bi: nat :: bi < n ==> BlockNo(disk, e, bi) == BlockNo(disk, ino, bi))
      && (forall i: nat :: i < |bs| ==> BlockNo(disk, e, n + i) == bs[i])
  {
  }

  lemma StaysUsed(bm: Bitmap, bm': Bitmap, bs: seq<nat>, b: nat)
    requires Grown(bm, bm', bs) && Used(bm, b)
    ensures Used(bm', b)
  {
  }

  lemma NewIsUsed(disk: Disk, bm: Bitmap, bm': Bitmap, bs: seq<nat>, i: nat)
    requires Grown(bm, bm', bs) && BitmapOk(disk, bm) && i < |bs|
    ensures 0 < bs[i] < GROUP && bs[i] in disk && Used(bm', bs[i])
  {
    hide Used;
    assert bs[i] in bs;
  }

  lemma NewIsNew(disk: Disk, bm: Bitmap, ino: Ino, n: nat, i: nat, bm': Bitmap, bs: seq<nat>, j: nat)
    requires Real(disk, bm, ino, n) && Grown(bm, bm', bs) && i < n && j < |bs|
    ensures BlockNo(disk, ino, i) != bs[j]
  {
    assert BlockOk(disk, bm, ino, i);
  }

  lemma NewDiffer(bm: Bitmap, bm': Bitmap, bs: seq<nat>, i: nat, j: nat)
    requires Grown(bm, bm', bs) && i < |bs| && j < |bs| && i != j
    ensures bs[i] != bs[j]
  {
  }

  /** The write makes the file grow: it has a free direct slot and ends behind its blocks. */
  predicate Grows(n: nat, off: nat, size: nat) {
    n < 12 && Last(off, size) > n
  }

  /** Real blocks afterwards. */
  function RealAfter(n: nat, off: nat, size: nat): nat {
    if Grows(n, off, size) then Min(Last(off, size), 12) else n
  }

  /** The write disturbs nothing: growth stays within the direct slots and finds its
      blocks, and no byte falls on the index that a counted indirect block leaves over. */
  predicate Safe(bm: Bitmap, ino: Ino, n: nat, off: nat, size: nat) {
    if Grows(n, off, size) then Last(off, size) <= 12 && HasClear(bm, Last(off, size) - n)
    else NBlock(ino) == n || n < off / 1024 || ChunkLen(off, size, n) == 0
  }

  /** The hole of a sound file is behind its blocks. */
  lemma HoleIs(disk: Disk, bm: Bitmap, ino: Ino, n: nat)
    requires FileOk(disk, bm, ino, n)
    ensures Hole(ino.block, 0) == Min(n, 12)
  {
    forall i: nat | i < 12 ensures ino.block[i] != 0 <==> i < n {
      if i < n {
        assert BlockOk(disk, bm, ino, i);
      }
    }
    hide FileOk;
  }

  /** What the growth step of a sound file gives. */
  lemma GrowthIs(disk: Disk, bm: Bitmap, ino: Ino, n: nat, off: nat, size: nat)
    requires FileOk(disk, bm, ino, n)
    ensures |ino.block| == 15
    ensures !Grows(n, off, size) ==> GrowFor(ino, bm, off, size) == Grew(ino.(size := NewSize(ino, off, size)), bm)
    ensures Grows(n, off, size) ==>
      var k := Last(off, size) - n;
      GrowFor(ino, bm, off, size) ==
        if n + k > 15 then PastSlots
        else Grew(Extended(ino, NewSize(ino, off, size), n, AllocN(bm, k).0), AllocN(bm, k).1)
  {
    HoleIs(disk, bm, ino, n);
    hide Real, AllocN, Hole;
  }

  lemma SameBlocks(disk: Disk, bm: Bitmap, ino: Ino, n: nat, size: nat)
    requires Real(disk, bm, ino, n)
    ensures Real(disk, bm, ino.(size := size), n)
    ensures forall bi: nat :: BlockNo(disk, ino.(size := size), bi) == BlockNo(disk, ino, bi)
    ensures NBlock(ino.(size := size)) == NBlock(ino)
  {
    var e := ino.(size := size);
    forall bi: nat ensures BlockNo(disk, e, bi) == BlockNo(disk, ino, bi) {
    }
    hide BlockNo;
    forall bi: nat | bi < n ensures BlockOk(disk, bm, e, bi) {
      assert BlockOk(disk, bm, ino, bi);
    }
    forall i: nat, j: nat | i < n && j < n ensures Differ(disk, e, i, j) {
      assert Differ(disk, ino, i, j);
    }
  }

  // ---- The write

  /** The file of n data blocks has block b, for data or as its indirect block. */
  ghost predicate Owns(disk: Disk, ino: Ino, n: nat, b: nat)
    requires |ino.block| == 15
  {
    !NotIn(disk, ino, n, b) || (n > 12 && ino.block[12] == b)
  }

  /** Bytes Written are the buffer's and all others as they were, in new blocks as they
      were on the disk. */
  ghost predicate BytesStored(d0: Disk, ino: Ino, n: nat, buf: seq<Byte>, off: nat, d1: Disk, e: Ino, m: nat)
    requires |ino.block| == 15 && |e.block| == 15
  {
    && (forall k: nat :: k < m * 1024 && Written(off, |buf|, k) ==> FByte(d1, e, k) == BufAt(buf, off, k))
    && (forall k: nat :: k < n * 1024 && !Written(off, |buf|, k) ==> FByte(d1, e, k) == FByte(d0, ino, k))
    && (forall k: nat :: n * 1024 <= k < m * 1024 && !Written(off, |buf|, k) ==> FByte(d1, e, k) == FByte(d0, e, k))
  }

  /** The file has taken only blocks that were free, and no block in use that was not the
      file's has changed. */
  ghost predicate OthersKept(d0: Disk, bm: Bitmap, ino: Ino, n: nat, d1: Disk, bm': Bitmap, e: Ino, m: nat)
    requires |ino.block| == 15 && |e.block| == 15
  {
    && (forall b: nat :: b in d0 && Used(bm, b) && NotIn(d0, ino, n, b) ==> b in d1 && d1[b] == d0[b])
    && (forall b: nat :: Used(bm, b) ==> Used(bm', b))
    && (forall b: nat :: Used(bm, b) && Owns(d1, e, m, b) ==> Owns(d0, ino, n, b))
  }

  /** After a write of buf at off the file has m real blocks, with the bytes it should, and
      everything else is kept. */
  ghost predicate Stores(d0: Disk, bm: Bitmap, ino: Ino, n: nat, buf: seq<Byte>, off: nat, d1: Disk, bm': Bitmap,
                         e: Ino, m: nat) {
    && |ino.block| == 15 && |e.block| == 15 && DiskOk(d1) && Real(d1, bm', e, m) && n <= m && |bm'| == |bm|
    && d1.Keys == d0.Keys && BytesStored(d0, ino, n, buf, off, d1, e, m) && OthersKept(d0, bm, ino, n, d1, bm', e, m)
    && (n > 12 ==> BlockNo(d1, e, n) == BlockNo(d0, ino, n) && e.block == ino.block)
  }

  /** The bitmap is as sound as before. */
  lemma BitmapStays(d0: Disk, bm: Bitmap, ino: Ino, n: nat, buf: seq<Byte>, off: nat, d1: Disk, bm': Bitmap, e: Ino,
                    m: nat)
    requires BitmapOk(d0, bm) && Stores(d0, bm, ino, n, buf, off, d1, bm', e, m)
    ensures BitmapOk(d1, bm')
  {
    hide Real, DiskOk, Used, FByte, BlockNo, NotIn, Owns, Written;
  }

  /** The loop of a write to e, from its first block on, Stores. */
  ghost predicate LoopStores(d0: Disk, bm: Bitmap, ino: Ino, n: nat, buf: seq<Byte>, off: nat, bm': Bitmap, e: Ino,
                             m: nat) {
    && DiskOk(d0) && |e.block| == 15 && CopyFrom(d0, e, buf, off, off / 1024).Some?
    && Stores(d0, bm, ino, n, buf, off, CopyFrom(d0, e, buf, off, off / 1024).value, bm', e, m)
  }

  lemma WriteStoresSo(disk: Disk, bm: Bitmap, ino: Ino, n: nat, buf: seq<Byte>, off: nat, e: Ino, bm': Bitmap, m: nat)
    requires |ino.block| == 15 && off <= ino.size && GrowFor(ino, bm, off, |buf|) == Grew(e, bm')
    requires LoopStores(disk, bm, ino, n, buf, off, bm', e, m)
    ensures DiskOk(disk)
    ensures var w := WInode(disk, bm, ino, buf, off);
      w.Wrote? && w.ino == e && Stores(disk, bm, ino, n, buf, off, w.disk, w.bm, e, m)
  {
    WriteIs(disk, bm, ino, buf, off);
    hide WInode, GrowFor, CopyFrom, Stores, DiskOk;
  }

  /** A safe write of any length at any offset of a sound file. */
  lemma SafeWrite(disk: Disk, bm: Bitmap, ino: Ino, n: nat, buf: seq<Byte>, off: nat)
    requires DiskOk(disk) && FileOk(disk, bm, ino, n) && BitmapOk(disk, bm) && off <= ino.size
    requires Safe(bm, ino, n, off, |buf|)
    ensures var w := WInode(disk, bm, ino, buf, off);
      && w.Wrote? && w.ino.size == NewSize(ino, off, |buf|)
      && NBlock(w.ino) == (if Grows(n, off, |buf|) then Last(off, |buf|) else NBlock(ino)) && w.ino.blocks % 2 == 0
      && Stores(disk, bm, ino, n, buf, off, w.disk, w.bm, w.ino, RealAfter(n, off, |buf|))
  {
    hide FileOk, Used, Safe, WInode, Grows, Last, NewSize, NBlock, Stores, RealAfter, DiskOk;
    if Grows(n, off, |buf|) {
      SafeGrowing(disk, bm, ino, n, buf, off);
    } else {
      SafeStaying(disk, bm, ino, n, buf, off);
    }
  }

  /** The write goes well and leaves nb counted and m real blocks. */
  ghost predicate SafeOutcome(disk: Disk, bm: Bitmap, ino: Ino, n: nat, buf: seq<Byte>, off: nat, nb: nat, m: nat) {
    && DiskOk(disk) && |ino.block| == 15
    && var w := WInode(disk, bm, ino, buf, off);
       && w.Wrote? && w.ino.size == NewSize(ino, off, |buf|) && NBlock(w.ino) == nb && w.ino.blocks % 2 == 0
       && Stores(disk, bm, ino, n, buf, off, w.disk, w.bm, w.ino, m)
  }

  lemma SafeGrowing(disk: Disk, bm: Bitmap, ino: Ino, n: nat, buf: seq<Byte>, off: nat)
    requires DiskOk(disk) && FileOk(disk, bm, ino, n) && BitmapOk(disk, bm) && off <= ino.size
    requires Safe(bm, ino, n, off, |buf|) && Grows(n, off, |buf|)
    ensures SafeOutcome(disk, bm, ino, n, buf, off, Last(off, |buf|), RealAfter(n, off, |buf|))
  {
    SafeMeans(disk, bm, ino, n, off, |buf|);
    hide *;
    GrowingBy(disk, bm, ino, n, buf, off, Last(off, |buf|) - n);
  }

  lemma GrowingBy(disk: Disk, bm: Bitmap, ino: Ino, n: nat, buf: seq<Byte>, off: nat, k: nat)
    requires DiskOk(disk) && FileOk(disk, bm, ino, n) && BitmapOk(disk, bm) && off <= ino.size
    requires Grows(n, off, |buf|) && Last(off, |buf|) == n + k && n + k <= 12 && HasClear(bm, k) && NBlock(ino) == n
    ensures SafeOutcome(disk, bm, ino, n, buf, off, n + k, n + k)
  {
    assert 8 * |bm| <= NONE;
    var size, bm', bs := NewSize(ino, off, |buf|), AllocN(bm, k).1, AllocN(bm, k).0;
    hide *;
    FileIs(disk, bm, ino, n);
    GrowthIs(disk, bm, ino, n, off, |buf|);
    ClearTakes(bm, k);
    GrowthStores(disk, bm, ino, n, buf, off, size, bm', bs);
    ItStores(disk, bm, ino, n, buf, off, Extended(ino, size, n, bs), bm', n + k);
  }

  lemma ItStores(disk: Disk, bm: Bitmap, ino: Ino, n: nat, buf: seq<Byte>, off: nat, e: Ino, bm': Bitmap, m: nat)
    requires |ino.block| == 15 && off <= ino.size && GrowFor(ino, bm, off, |buf|) == Grew(e, bm')
    requires LoopStores(disk, bm, ino, n, buf, off, bm', e, m)
    requires e.size == NewSize(ino, off, |buf|) && e.blocks % 2 == 0
    ensures SafeOutcome(disk, bm, ino, n, buf, off, NBlock(e), m)
  {
    WriteStoresSo(disk, bm, ino, n, buf, off, e, bm', m);
    hide WInode, GrowFor, LoopStores, Stores, NewSize, DiskOk, NBlock;
  }

  lemma SafeStaying(disk: Disk, bm: Bitmap, ino: Ino, n: nat, buf: seq<Byte>, off: nat)
    requires DiskOk(disk) && FileOk(disk, bm, ino, n) && BitmapOk(disk, bm) && off <= ino.size
    requires Safe(bm, ino, n, off, |buf|) && !Grows(n, off, |buf|)
    ensures SafeOutcome(disk, bm, ino, n, buf, off, NBlock(ino), RealAfter(n, off, |buf|))
  {
    var size := NewSize(ino, off, |buf|);
    GrowthIs(disk, bm, ino, n, off, |buf|);
    SafeMeans(disk, bm, ino, n, off, |buf|);
    hide FileOk, Used, Safe, WInode, GrowFor, Grows, Last, NewSize, Stores, LoopStores, RealAfter, DiskOk, AllocN;
    hide Real, NBlock, ChunkLen;
    SafeStay(disk, bm, ino, n, buf, off, size);
    WriteStoresSo(disk, bm, ino, n, buf, off, ino.(size := size), bm, n);
  }

  lemma SafeMeans(disk: Disk, bm: Bitmap, ino: Ino, n: nat, off: nat, size: nat)
    requires FileOk(disk, bm, ino, n) && Safe(bm, ino, n, off, size)
    ensures |ino.block| == 15 && ino.blocks % 2 == 0 && Real(disk, bm, ino, n)
    ensures Grows(n, off, size) ==>
      n < Last(off, size) == RealAfter(n, off, size) <= 12 && HasClear(bm, Last(off, size) - n) && NBlock(ino) == n
    ensures !Grows(n, off, size) ==> RealAfter(n, off, size) == n
    ensures n <= NBlock(ino) <= n + 1
    ensures !Grows(n, off, size) && NBlock(ino) == n + 1 ==> n > 12 && (n >= off / 1024 ==> ChunkLen(off, size, n) == 0)
  {
    FileIs(disk, bm, ino, n);
    hide FileOk, Real, Last, HasClear, ChunkLen;
  }

  lemma FileIs(disk: Disk, bm: Bitmap, ino: Ino, n: nat)
    requires FileOk(disk, bm, ino, n)
    ensures |ino.block| == 15 && ino.blocks % 2 == 0 && Real(disk, bm, ino, n) && 0 in disk
    ensures NBlock(ino) == n || (n > 12 && NBlock(ino) == n + 1)
  {
  }

  lemma WriteIs(disk: Disk, bm: Bitmap, ino: Ino, buf: seq<Byte>, off: nat)
    requires DiskOk(disk) && |ino.block| == 15 && off <= ino.size
    ensures GrowFor(ino, bm, off, |buf|) == PastSlots ==> WInode(disk, bm, ino, buf, off) == Overran
    ensures GrowFor(ino, bm, off, |buf|).Grew? ==>
      var g := GrowFor(ino, bm, off, |buf|);
      WInode(disk, bm, ino, buf, off) ==
        if |g.ino.block| != 15 then WInode(disk, bm, ino, buf, off)
        else match CopyFrom(disk, g.ino, buf, off, off / 1024)
          case None => Panicked
          case Some(d) => Wrote(d, g.bm, g.ino)
  {
    hide CopyFrom, DiskOk;
  }

  lemma GrowthStores(disk: Disk, bm: Bitmap, ino: Ino, n: nat, buf: seq<Byte>, off: nat, size: nat, bm': Bitmap,
                     bs: seq<nat>)
    requires DiskOk(disk) && Real(disk, bm, ino, n) && BitmapOk(disk, bm) && NBlock(ino) == n
    requires Grown(bm, bm', bs) && |ino.block| == 15 && n + |bs| <= 12
    ensures LoopStores(disk, bm, ino, n, buf, off, bm', Extended(ino, size, n, bs), n + |bs|)
  {
    hide *;
    GrowsReal(disk, bm, ino, size, n, bm', bs);
    var e := Extended(ino, size, n, bs);
    LoopResult(disk, bm', e, n + |bs|, buf, off);
    StoresNew(disk, bm, ino, n, buf, off, bm', e, bs);
  }

  lemma SafeStay(disk: Disk, bm: Bitmap, ino: Ino, n: nat, buf: seq<Byte>, off: nat, size: nat)
    requires DiskOk(disk) && FileOk(disk, bm, ino, n) && Real(disk, bm, ino, n) && |ino.block| == 15
    requires n <= NBlock(ino) <= n + 1
    requires NBlock(ino) == n + 1 ==> n > 12 && (n >= off / 1024 ==> ChunkLen(off, |buf|, n) == 0)
    ensures NBlock(ino.(size := size)) == NBlock(ino)
    ensures LoopStores(disk, bm, ino, n, buf, off, bm, ino.(size := size), n)
  {
    var e := ino.(size := size);
    hide *;
    SameBlocks(disk, bm, ino, n, size);
    BlocksThere(disk, bm, ino, n);
    LoopResult(disk, bm, e, n, buf, off);
    GrownNone(bm);
    StoresNew(disk, bm, ino, n, buf, off, bm, e, []);
  }

  lemma GrownNone(bm: Bitmap)
    ensures Grown(bm, bm, [])
  {
  }

  lemma LoopResult(disk: Disk, bm: Bitmap, e: Ino, m: nat, buf: seq<Byte>, off: nat)
    requires DiskOk(disk) && Real(disk, bm, e, m) && m <= NBlock(e) <= m + 1
    requires NBlock(e) == m + 1 ==>
      m > 12 && BlockNo(disk, e, m) in disk && (m >= off / 1024 ==> ChunkLen(off, |buf|, m) == 0)
    ensures |e.block| == 15 && CopyFrom(disk, e, buf, off, off / 1024).Some?
    ensures Progress(disk, CopyFrom(disk, e, buf, off, off / 1024).value, bm, e, m, buf, off, m)
  {
    Begins(disk, bm, e, m, buf, off);
    hide Real, Progress, DiskOk;
    LoopEnds(disk, disk, bm, e, m, buf, off, off / 1024);
  }

  /** The loop's result in terms of the file and the bitmap before the growth. */
  lemma StoresNew(d0: Disk, bm: Bitmap, ino: Ino, n: nat, buf: seq<Byte>, off: nat, bm': Bitmap, e: Ino, bs: seq<nat>)
    requires DiskOk(d0) && Real(d0, bm, ino, n) && Grown(bm, bm', bs) && |e.block| == 15
    requires CopyFrom(d0, e, buf, off, off / 1024).Some?
    requires Progress(d0, CopyFrom(d0, e, buf, off, off / 1024).value, bm', e, n + |bs|, buf, off, n + |bs|)
    requires forall bi: nat :: bi < n ==> BlockNo(d0, e, bi) == BlockNo(d0, ino, bi)
    requires forall i: nat :: i < |bs| ==> BlockNo(d0, e, n + i) == bs[i]
    requires n > 12 ==> bs == [] && e.block == ino.block && BlockNo(d0, e, n) == BlockNo(d0, ino, n)
    requires n <= 12 ==> n + |bs| <= 12
    ensures LoopStores(d0, bm, ino, n, buf, off, bm', e, n + |bs|)
  {
    var d1, m := CopyFrom(d0, e, buf, off, off / 1024).value, n + |bs|;
    hide CopyFrom, Real, DiskOk, BytesStored, OthersKept, BlockNo, Progress, Grown;
    NewBytes(d0, ino, n, buf, off, d1, bm', e, m);
    NewOwners(d0, bm, ino, n, buf, off, d1, bm', e, bs);
    ProgressIs(d0, d1, bm', e, m, buf, off);
    GrownKeeps(bm, bm', bs);
  }

  lemma ProgressIs(d0: Disk, d1: Disk, bm: Bitmap, e: Ino, m: nat, buf: seq<Byte>, off: nat)
    requires Progress(d0, d1, bm, e, m, buf, off, m)
    ensures DiskOk(d1) && Real(d1, bm, e, m) && d1.Keys == d0.Keys
  {
  }

  lemma GrownKeeps(bm: Bitmap, bm': Bitmap, bs: seq<nat>)
    requires Grown(bm, bm', bs)
    ensures |bm'| == |bm|
  {
  }

  lemma NewBytes(d0: Disk, ino: Ino, n: nat, buf: seq<Byte>, off: nat, d1: Disk, bm': Bitmap, e: Ino, m: nat)
    requires Progress(d0, d1, bm', e, m, buf, off, m) && |ino.block| == 15 && |e.block| == 15 && n <= m
    requires forall bi: nat :: bi < n ==> BlockNo(d0, e, bi) == BlockNo(d0, ino, bi)
    ensures BytesStored(d0, ino, n, buf, off, d1, e, m)
  {
    forall k: nat | k < n * 1024 ensures FByte(d0, e, k) == FByte(d0, ino, k) {
      assert k / 1024 < n;
    }
    hide FByte, BlockNo, Real, DiskOk, Written, BufAt, NotIn;
    forall k: nat | k < m * 1024 ensures FByte(d1, e, k) == After(d0, e, buf, off, k) {
      assert k / 1024 < m;
    }
  }

  lemma NewOwners(d0: Disk, bm: Bitmap, ino: Ino, n: nat, buf: seq<Byte>, off: nat, d1: Disk, bm': Bitmap, e: Ino,
                  bs: seq<nat>)
    requires Grown(bm, bm', bs) && |ino.block| == 15 && |e.block| == 15
    requires Progress(d0, d1, bm', e, n + |bs|, buf, off, n + |bs|)
    requires forall bi: nat :: bi < n ==> BlockNo(d0, e, bi) == BlockNo(d0, ino, bi)
    requires forall i: nat :: i < |bs| ==> BlockNo(d0, e, n + i) == bs[i]
    requires n > 12 ==> bs == [] && e.block == ino.block && BlockNo(d0, e, n) == BlockNo(d0, ino, n)
    requires n <= 12 ==> n + |bs| <= 12
    ensures OthersKept(d0, bm, ino, n, d1, bm', e, n + |bs|)
    ensures n > 12 ==> BlockNo(d1, e, n) == BlockNo(d0, ino, n)
  {
    var m := n + |bs|;
    forall b: nat | Used(bm, b) ensures Used(bm', b) {
    }
    hide Real, DiskOk, Written, FByte, Used, BlockNo, Grown, After;
    forall b: nat | Used(bm, b) && NotIn(d0, ino, n, b) ensures NotIn(d0, e, m, b) {
      NotNew(d0, bm, ino, n, bm', e, bs, b);
    }
    forall b: nat | Used(bm, b) && !NotIn(d1, e, m, b) ensures !NotIn(d0, ino, n, b) {
      var bi: nat :| bi < m && BlockNo(d1, e, bi) == b;
      assert BlockNo(d0, e, bi) == b;
    }
    hide NotIn;
  }

  /** A block in use is not one of the new ones. */
  lemma NotNew(d0: Disk, bm: Bitmap, ino: Ino, n: nat, bm': Bitmap, e: Ino, bs: seq<nat>, b: nat)
    requires |ino.block| == 15 && |e.block| == 15 && Grown(bm, bm', bs) && Used(bm, b) && NotIn(d0, ino, n, b)
    requires forall bi: nat :: bi < n ==> BlockNo(d0, e, bi) == BlockNo(d0, ino, bi)
    requires forall i: nat :: i < |bs| ==> BlockNo(d0, e, n + i) == bs[i]
    ensures NotIn(d0, e, n + |bs|, b)
  {
    hide BlockNo, Used;
    forall bi: nat | bi < n + |bs| ensures BlockNo(d0, e, bi) != b {
      if bi >= n {
        assert BlockNo(d0, e, n + (bi - n)) == bs[bi - n];
      }
    }
  }
}
