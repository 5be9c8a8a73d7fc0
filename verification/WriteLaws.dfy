/** What ext2_w_inode (kernel/ext2.c) leaves behind: when a file is sound afterwards, when
  all that was asked for is in it, and what becomes of the writes that go wrong. */
module WriteLaws {
  import opened Options
  import opened Dirent
  import opened BlockBitmap
  import opened FileBytes
  import opened FileWrite
  import opened SoundWrites

  // ---- Which writes are stored

  /** The write begins at a block boundary or stays in one block, and ends within the
      file's blocks or, growing, at the end of one of the direct blocks. */
  predicate Whole(n: nat, off: nat, size: nat) {
    && (off % 1024 == 0 || off % 1024 + size <= 1024)
    && (off + size <= n * 1024 || (n < 12 && (off + size) % 1024 == 0 && (off + size) / 1024 <= 12))
  }

  /** The write leaves this byte at position k of the file. */
  predicate Leaves(disk: Disk, bm: Bitmap, ino: Ino, buf: seq<Byte>, off: nat, k: nat, byte: int)
    requires DiskOk(disk) && |ino.block| == 15
  {
    var w := WInode(disk, bm, ino, buf, off);
    w.Wrote? && |w.ino.block| == 15 && FByte(w.disk, w.ino, k) == byte
  }

  /** The write leaves the byte the buffer has for position k. */
  predicate LeavesBuf(disk: Disk, bm: Bitmap, ino: Ino, buf: seq<Byte>, off: nat, k: nat)
    requires DiskOk(disk) && |ino.block| == 15
  {
    off <= k < off + |buf| && Leaves(disk, bm, ino, buf, off, k, buf[k - off])
  }

  /** Position k is in a block of the file after the write and holds what the buffer has
      for it, whatever that is. */
  ghost predicate Holds(disk: Disk, bm: Bitmap, ino: Ino, n: nat, off: nat, size: nat, k: nat)
    requires DiskOk(disk) && |ino.block| == 15 && off <= k < off + size
  {
    && k < RealAfter(n, off, size) * 1024
    && forall buf: seq<Byte> :: |buf| == size ==> LeavesBuf(disk, bm, ino, buf, off, k)
  }

  /** A sound file and a write that disturbs nothing. */
  ghost predicate SoundWrite(disk: Disk, bm: Bitmap, ino: Ino, n: nat, off: nat, size: nat) {
    && DiskOk(disk) && FileOk(disk, bm, ino, n) && BitmapOk(disk, bm)
    && off <= ino.size && Safe(bm, ino, n, off, size)
  }

  /** What position k holds when the loop does not get to it. */
  function Kept(disk: Disk, bm: Bitmap, ino: Ino, n: nat, off: nat, size: nat, k: nat): int
    requires |ino.block| == 15
  {
    var g := GrowFor(ino, bm, off, size);
    if k < n * 1024 || g.PastSlots? || |g.ino.block| != 15 then FByte(disk, ino, k) else FByte(disk, g.ino, k)
  }

  lemma ByteAfter(disk: Disk, bm: Bitmap, ino: Ino, n: nat, buf: seq<Byte>, off: nat, k: nat)
    requires SoundWrite(disk, bm, ino, n, off, |buf|) && off <= k < off + |buf| && k < RealAfter(n, off, |buf|) * 1024
    ensures |ino.block| == 15
    ensures Leaves(disk, bm, ino, buf, off, k,
                   if Written(off, |buf|, k) then buf[k - off] else Kept(disk, bm, ino, n, off, |buf|, k))
  {
    FileIs(disk, bm, ino, n);
    SafeWrite(disk, bm, ino, n, buf, off);
    WriteIs(disk, bm, ino, buf, off);
    var w := WInode(disk, bm, ino, buf, off);
    hide FileOk, Safe, WInode, GrowFor, FByte, Real, DiskOk, Used, CopyFrom, Written, NotIn, Owns, RealAfter, BlockNo;
  }

  /** A write that disturbs nothing stores byte k exactly when the loop gets to it. */
  lemma HoldsExact(disk: Disk, bm: Bitmap, ino: Ino, n: nat, off: nat, size: nat, k: nat)
    requires SoundWrite(disk, bm, ino, n, off, size) && off <= k < off + size
    ensures |ino.block| == 15
    ensures Holds(disk, bm, ino, n, off, size, k) <==> Written(off, size, k) && k < RealAfter(n, off, size) * 1024
  {
    FileIs(disk, bm, ino, n);
    hide SoundWrite, FileOk, RealAfter, Written, Leaves, Kept;
    if k < RealAfter(n, off, size) * 1024 {
      if Written(off, size, k) {
        forall buf: seq<Byte> | |buf| == size ensures LeavesBuf(disk, bm, ino, buf, off, k) {
          ByteAfter(disk, bm, ino, n, buf, off, k);
        }
      } else {
        var zeros: seq<Byte>, ones: seq<Byte> := seq(size, _ => 0), seq(size, _ => 1);
        ByteAfter(disk, bm, ino, n, zeros, off, k);
        ByteAfter(disk, bm, ino, n, ones, off, k);
        assert zeros[k - off] == 0 && ones[k - off] == 1;
        var stale := Kept(disk, bm, ino, n, off, size, k);
        if stale == 0 {
          OneByte(disk, bm, ino, ones, off, k, stale, 1);
          assert !LeavesBuf(disk, bm, ino, ones, off, k);
        } else {
          OneByte(disk, bm, ino, zeros, off, k, stale, 0);
          assert !LeavesBuf(disk, bm, ino, zeros, off, k);
        }
      }
    }
  }

  lemma OneByte(disk: Disk, bm: Bitmap, ino: Ino, buf: seq<Byte>, off: nat, k: nat, x: int, y: int)
    requires DiskOk(disk) && |ino.block| == 15 && Leaves(disk, bm, ino, buf, off, k, x) && x != y
    ensures !Leaves(disk, bm, ino, buf, off, k, y)
  {
    hide WInode, FByte, DiskOk;
  }

  /** All of a write that disturbs nothing is stored exactly when it is Whole. */
  lemma WholeExact(disk: Disk, bm: Bitmap, ino: Ino, n: nat, off: nat, size: nat)
    requires SoundWrite(disk, bm, ino, n, off, size) && size > 0
    ensures |ino.block| == 15
    ensures (forall k: nat :: off <= k < off + size ==> Holds(disk, bm, ino, n, off, size, k)) <==> Whole(n, off, size)
  {
    FileIs(disk, bm, ino, n);
    hide SoundWrite, FileOk, Holds, RealAfter, Written, Whole;
    forall k: nat | off <= k < off + size
      ensures Holds(disk, bm, ino, n, off, size, k) <==> Written(off, size, k) && k < RealAfter(n, off, size) * 1024
    {
      HoldsExact(disk, bm, ino, n, off, size, k);
    }
    WrittenWhole(n, off, size);
  }

  /** Every position is reached exactly for the writes that are Whole. */
  lemma WrittenWhole(n: nat, off: nat, size: nat)
    requires size > 0
    ensures (forall k: nat :: off <= k < off + size ==>
      Written(off, size, k) && k < RealAfter(n, off, size) * 1024) <==>
      Whole(n, off, size)
  {
    EndWhole(n, off, size);
    AllWritten(off, size);
    var last, end := off + size - 1, RealAfter(n, off, size) * 1024;
    hide RealAfter, Written;
    if forall k: nat :: off <= k < off + size ==> Written(off, size, k) && k < end {
      assert Written(off, size, last) && last < end;
    }
  }

  /** The loop gets to every position up to the end when it gets to the last. */
  lemma AllWritten(off: nat, size: nat)
    requires size > 0
    ensures off % 1024 == 0 || off % 1024 + size <= 1024 <==> Written(off, size, off + size - 1)
    ensures Written(off, size, off + size - 1) ==> forall k: nat :: off <= k < off + size ==> Written(off, size, k)
  {
    assert off == off / 1024 * 1024 + off % 1024;
  }

  lemma EndWhole(n: nat, off: nat, size: nat)
    ensures off + size <= RealAfter(n, off, size) * 1024 <==>
      off + size <= n * 1024 || (n < 12 && (off + size) % 1024 == 0 && (off + size) / 1024 <= 12)
  {
  }

  /** Such a write disturbs nothing, provided the bitmap has the blocks it needs. */
  lemma WholeIsSafe(disk: Disk, bm: Bitmap, ino: Ino, n: nat, off: nat, size: nat)
    requires FileOk(disk, bm, ino, n) && Whole(n, off, size)
    requires Grows(n, off, size) ==> HasClear(bm, Last(off, size) - n)
    ensures Safe(bm, ino, n, off, size)
  {
    FileIs(disk, bm, ino, n);
    hide FileOk, HasClear;
    assert off == off / 1024 * 1024 + off % 1024;
  }

  // ---- When the file stays sound

  ghost predicate StaysSound(w: WriteOutcome) {
    w.Wrote? && exists m: nat :: FileOk(w.disk, w.bm, w.ino, m)
  }

  /** Growth stays within the direct slots and the bitmap has the blocks for it; without
      growth, a file that counts its indirect block is not written behind its data. */
  predicate Keeps(bm: Bitmap, ino: Ino, n: nat, off: nat, size: nat) {
    if Grows(n, off, size) then Last(off, size) <= 12 && HasClear(bm, Last(off, size) - n)
    else NBlock(ino) == n || off + size <= n * 1024
  }

  /** The block that growth hands to slot 12, where it is taken for the indirect block,
      starts with zeros. */
  predicate FreshMap(disk: Disk, bm: Bitmap, n: nat, off: nat, size: nat) {
    n < 12 < Last(off, size) ==>
      var x := AllocN(bm, Last(off, size) - n).0[12 - n];
      x == NONE || forall j: nat :: j < 3 ==> MapWord(disk, x, j) == 0
  }

  /** After a write of less than 4 GB in all the file is sound exactly when it Keeps. */
  lemma KeepsExact(disk: Disk, bm: Bitmap, ino: Ino, n: nat, buf: seq<Byte>, off: nat)
    requires DiskOk(disk) && FileOk(disk, bm, ino, n) && BitmapOk(disk, bm)
    requires off <= ino.size && off + |buf| < 0x100000000 && FreshMap(disk, bm, n, off, |buf|)
    ensures |ino.block| == 15
    ensures StaysSound(WInode(disk, bm, ino, buf, off)) <==> Keeps(bm, ino, n, off, |buf|)
  {
    assert |bm| == 1024;
    hide *;
    FileIs(disk, bm, ino, n);
    KeepsCases(disk, bm, ino, n, off, |buf|);
    if Keeps(bm, ino, n, off, |buf|) {
      SoundAfter(disk, bm, ino, n, buf, off);
    } else if !Grows(n, off, |buf|) {
      BehindData(disk, bm, ino, n, buf, off);
    } else if Last(off, |buf|) > 12 {
      PastDirect(disk, bm, ino, n, buf, off);
    } else {
      FullBitmap(disk, bm, ino, n, buf, off);
    }
  }

  lemma KeepsCases(disk: Disk, bm: Bitmap, ino: Ino, n: nat, off: nat, size: nat)
    requires FileOk(disk, bm, ino, n)
    ensures Keeps(bm, ino, n, off, size) ==> Safe(bm, ino, n, off, size)
    ensures !Keeps(bm, ino, n, off, size) ==>
      if !Grows(n, off, size) then n > 12 && NBlock(ino) == n + 1 && off + size > n * 1024
      else n < 12 && n < Last(off, size) && (Last(off, size) <= 12 ==> !HasClear(bm, Last(off, size) - n))
  {
    FileIs(disk, bm, ino, n);
    hide FileOk, HasClear;
    assert off == off / 1024 * 1024 + off % 1024;
  }

  lemma SoundAfter(disk: Disk, bm: Bitmap, ino: Ino, n: nat, buf: seq<Byte>, off: nat)
    requires DiskOk(disk) && FileOk(disk, bm, ino, n) && BitmapOk(disk, bm) && off <= ino.size
    requires Keeps(bm, ino, n, off, |buf|)
    ensures |ino.block| == 15
    ensures var w := WInode(disk, bm, ino, buf, off);
      && w.Wrote? && FileOk(w.disk, w.bm, w.ino, RealAfter(n, off, |buf|)) && StaysSound(w)
      && BitmapOk(w.disk, w.bm)
      && Stores(disk, bm, ino, n, buf, off, w.disk, w.bm, w.ino, RealAfter(n, off, |buf|))
  {
    hide *;
    FileIs(disk, bm, ino, n);
    KeepsCases(disk, bm, ino, n, off, |buf|);
    SafeWrite(disk, bm, ino, n, buf, off);
    BlocksAfter(disk, bm, ino, n, buf, off);
    var w := WInode(disk, bm, ino, buf, off);
    FileAgain(disk, bm, ino, n, buf, off, w.disk, w.bm, w.ino, RealAfter(n, off, |buf|));
    BitmapStays(disk, bm, ino, n, buf, off, w.disk, w.bm, w.ino, RealAfter(n, off, |buf|));
    IsSound(w, RealAfter(n, off, |buf|));
  }

  lemma IsSound(w: WriteOutcome, m: nat)
    requires w.Wrote? && FileOk(w.disk, w.bm, w.ino, m)
    ensures StaysSound(w)
  {
  }

  lemma FileAgain(d0: Disk, bm: Bitmap, ino: Ino, n: nat, buf: seq<Byte>, off: nat, d1: Disk, bm': Bitmap, e: Ino,
                  m: nat)
    requires FileOk(d0, bm, ino, n) && Stores(d0, bm, ino, n, buf, off, d1, bm', e, m) && e.blocks % 2 == 0
    requires NBlock(e) == m || (m == n && NBlock(e) == NBlock(ino) && Min(e.size, NBlock(e) * 1024) <= n * 1024)
    requires |e.block| == 15 && forall i: nat :: m <= i < 12 ==> e.block[i] == 0
    ensures FileOk(d1, bm', e, m)
  {
    hide Real, DiskOk, NotIn, FByte, BlockNo;
  }

  /** Count, size and free slots of the inode after the write. */
  lemma BlocksAfter(disk: Disk, bm: Bitmap, ino: Ino, n: nat, buf: seq<Byte>, off: nat)
    requires DiskOk(disk) && FileOk(disk, bm, ino, n) && off <= ino.size && Keeps(bm, ino, n, off, |buf|)
    requires |ino.block| == 15 && WInode(disk, bm, ino, buf, off).Wrote?
    ensures var e, m := WInode(disk, bm, ino, buf, off).ino, RealAfter(n, off, |buf|);
      && (NBlock(e) == m || (m == n && NBlock(e) == NBlock(ino) && Min(e.size, NBlock(e) * 1024) <= n * 1024))
      && |e.block| == 15 && forall i: nat :: m <= i < 12 ==> e.block[i] == 0
  {
    FileIs(disk, bm, ino, n);
    GrowthIs(disk, bm, ino, n, off, |buf|);
    WriteIs(disk, bm, ino, buf, off);
    SizeAfter(disk, bm, ino, n, off, |buf|);
    hide WInode, GrowFor, Real, CopyFrom, HasClear, NewSize, DiskOk;
    if Grows(n, off, |buf|) {
      ZeroBehind(disk, bm, ino, n, NewSize(ino, off, |buf|), AllocN(bm, Last(off, |buf|) - n).0);
    }
  }

  lemma SizeAfter(disk: Disk, bm: Bitmap, ino: Ino, n: nat, off: nat, size: nat)
    requires FileOk(disk, bm, ino, n)
    ensures !Grows(n, off, size) && Keeps(bm, ino, n, off, size) ==>
      Min(NewSize(ino, off, size), NBlock(ino) * 1024) <= n * 1024
    ensures !Grows(n, off, size) && off + size < 0x100000000 && !Keeps(bm, ino, n, off, size) ==>
      NewSize(ino, off, size) > n * 1024
  {
    hide Real;
  }

  lemma ZeroBehind(disk: Disk, bm: Bitmap, ino: Ino, n: nat, size: nat, bs: seq<nat>)
    requires FileOk(disk, bm, ino, n) && |ino.block| == 15 && n + |bs| <= 12
    ensures forall i: nat :: n + |bs| <= i < 12 ==> Extended(ino, size, n, bs).block[i] == 0
  {
    hide Real;
  }

  // ---- What goes wrong

  /** The loop leaves a block alone that is the indirect block of the inode, is in none of
      its direct slots and is not in its map. */
  lemma {:induction false} MapStays(d0: Disk, disk: Disk, ino: Ino, buf: seq<Byte>, off: nat, i: nat)
    requires DiskOk(disk) && |ino.block| == 15 && i >= off / 1024 && ino.block[12] in disk
    requires ino.block[12] in d0 && disk[ino.block[12]] == d0[ino.block[12]]
    requires forall j: nat :: j < NBlock(ino) ==> BlockNo(d0, ino, j) != ino.block[12]
    ensures CopyFrom(disk, ino, buf, off, i).Some? ==>
      var d := CopyFrom(disk, ino, buf, off, i).value;
      ino.block[12] in d && d[ino.block[12]] == d0[ino.block[12]]
    decreases if i < NBlock(ino) then NBlock(ino) - i else 0
  {
    CopyStops(disk, ino, buf, off, i);
    if i < NBlock(ino) && i <= (|buf| + off) / 1024 && BlockNo(disk, ino, i) in disk {
      assert BlockNo(disk, ino, i) == BlockNo(d0, ino, i);
      CopyStep(disk, ino, buf, off, i);
      hide CopyFrom, BlockNo, DiskOk;
      MapStays(d0, PatchAt(disk, BlockNo(disk, ino, i), buf, off, i), ino, buf, off, i + 1);
    }
  }

  /** The loop panics when it gets to a direct slot whose block is not on the disk. */
  lemma {:induction false} PanicsAt(disk: Disk, ino: Ino, buf: seq<Byte>, off: nat, i: nat, t: nat)
    requires DiskOk(disk) && |ino.block| == 15 && off / 1024 <= i <= t < NBlock(ino) && t < 12
    requires t <= (|buf| + off) / 1024 && ino.block[t] !in disk
    ensures CopyFrom(disk, ino, buf, off, i) == None
    decreases t - i
  {
    CopyStops(disk, ino, buf, off, i);
    if i < t && BlockNo(disk, ino, i) in disk {
      CopyStep(disk, ino, buf, off, i);
      hide CopyFrom, BlockNo, DiskOk;
      PanicsAt(PatchAt(disk, BlockNo(disk, ino, i), buf, off, i), ino, buf, off, i + 1, t);
    }
  }

  /** Numbers of failed and of successful allocations. */
  lemma AllocElems(bm: Bitmap, n: nat, j: nat)
    requires |bm| == 1024 && j < n
    ensures var s := AllocN(bm, n).0;
      && (s[j] != NONE ==> s[j] < GROUP && !Used(bm, s[j]) && forall i: nat :: i < j ==> s[i] != s[j])
      && (!HasClear(bm, n) ==> s[n - 1] == NONE)
  {
    var m := AllocNTakes(bm, n);
    var s := AllocN(bm, n).0;
    hide AllocN, Used;
    assert forall i: nat :: i < m ==> s[i] == s[..m][i];
  }

  /** With too few clear bits the growth reports success all the same and leaves -1 for a
      block number; the loop then panics, unless the write is all behind the new blocks. */
  lemma FullBitmap(disk: Disk, bm: Bitmap, ino: Ino, n: nat, buf: seq<Byte>, off: nat)
    requires DiskOk(disk) && FileOk(disk, bm, ino, n) && |bm| == 1024 && off <= ino.size
    requires n < Last(off, |buf|) <= 12 && !HasClear(bm, Last(off, |buf|) - n)
    ensures |ino.block| == 15
    ensures var w := WInode(disk, bm, ino, buf, off);
      && !StaysSound(w) && (w.Panicked? <==> off / 1024 < Last(off, |buf|))
      && (!w.Panicked? ==> w.Wrote? && |w.ino.block| == 15 && w.ino.block[Last(off, |buf|) - 1] == NONE)
  {
    FileIs(disk, bm, ino, n);
    GrowthIs(disk, bm, ino, n, off, |buf|);
    WriteIs(disk, bm, ino, buf, off);
    var last := Last(off, |buf|);
    AllocElems(bm, last - n, last - n - 1);
    var e := Extended(ino, NewSize(ino, off, |buf|), n, AllocN(bm, last - n).0);
    assert e.block[last - 1] == NONE;
    CopyStops(disk, e, buf, off, off / 1024);
    hide AllocN, CopyFrom, WInode, GrowFor, FileOk;
    if off / 1024 < last {
      assert NONE !in disk;
      PanicsAt(disk, e, buf, off, off / 1024, last - 1);
    } else {
      NoNone(disk, AllocN(bm, last - n).1, e, last);
    }
  }

  lemma RealAt(disk: Disk, bm: Bitmap, ino: Ino, n: nat, i: nat)
    requires |ino.block| == 15
    ensures Real(disk, bm, ino, n) && i < n ==>
      BlockOk(disk, bm, ino, i) && (n > 12 ==> BlockNo(disk, ino, i) != ino.block[12])
  {
  }

  lemma NoNone(disk: Disk, bm: Bitmap, e: Ino, last: nat)
    requires |e.block| == 15 && NBlock(e) == last && 0 < last <= 12 && e.block[last - 1] == NONE
    ensures forall m: nat :: !FileOk(disk, bm, e, m)
  {
    forall m: nat ensures !FileOk(disk, bm, e, m) {
      RealAt(disk, bm, e, m, last - 1);
    }
  }

  /** A count above twelve without a block in the map for the first index behind the direct
      ones, or for the last and with bytes there. */
  lemma NotSound(disk: Disk, bm: Bitmap, e: Ino, i: nat)
    requires |e.block| == 15 && 12 <= i < NBlock(e) && !(BlockOk(disk, bm, e, i) && BlockNo(disk, e, i) != e.block[12])
    requires i == 12 || (i + 1 == NBlock(e) && e.size > i * 1024)
    ensures forall m: nat :: !FileOk(disk, bm, e, m)
  {
    forall m: nat ensures !FileOk(disk, bm, e, m) {
      RealAt(disk, bm, e, m, i);
    }
  }

  /** A write that ends behind the data of a file that counts its indirect block. */
  lemma BehindData(disk: Disk, bm: Bitmap, ino: Ino, n: nat, buf: seq<Byte>, off: nat)
    requires DiskOk(disk) && FileOk(disk, bm, ino, n) && off <= ino.size && off + |buf| < 0x100000000
    requires n > 12 && NBlock(ino) == n + 1 && off + |buf| > n * 1024 && !Keeps(bm, ino, n, off, |buf|)
    requires !Grows(n, off, |buf|)
    ensures |ino.block| == 15 && !StaysSound(WInode(disk, bm, ino, buf, off))
  {
    FileIs(disk, bm, ino, n);
    GrowthIs(disk, bm, ino, n, off, |buf|);
    WriteIs(disk, bm, ino, buf, off);
    SizeAfter(disk, bm, ino, n, off, |buf|);
    var e := ino.(size := NewSize(ino, off, |buf|));
    hide CopyFrom, WInode, GrowFor, NewSize, Keeps, Grows;
    var w := WInode(disk, bm, ino, buf, off);
    if w.Wrote? {
      if n < 268 {
        MapThere(disk, bm, ino, n, e);
        MapStays(disk, disk, e, buf, off, off / 1024);
        hide FileOk;
        NotSound(w.disk, w.bm, e, n);
      } else {
        TooLong(w.disk, w.bm, e);
      }
    }
  }

  /** None of the counted blocks is the indirect block when the map ends in a 0 word. */
  lemma MapThere(disk: Disk, bm: Bitmap, ino: Ino, n: nat, e: Ino)
    requires DiskOk(disk) && FileOk(disk, bm, ino, n) && 12 < n < 268 && NBlock(e) == NBlock(ino) == n + 1 &&
      e.block == ino.block
    ensures |e.block| == 15 && e.block[12] in disk
    ensures BlockNo(disk, e, n) == 0 && forall j: nat :: j < NBlock(e) ==> BlockNo(disk, e, j) != e.block[12]
  {
    forall j: nat | j < NBlock(e) ensures BlockNo(disk, e, j) == BlockNo(disk, ino, j) != e.block[12] {
      RealAt(disk, bm, ino, n, j);
    }
  }

  /** Slot 12 after the growth: no block, or a fresh one that maps nothing. */
  lemma SlotTwelve(disk: Disk, bm: Bitmap, ino: Ino, n: nat, size: nat, last: nat)
    requires DiskOk(disk) && Real(disk, bm, ino, n) && BitmapOk(disk, bm) && NBlock(ino) == n < 12 < last <= 15
    requires |ino.block| == 15
    requires var x := AllocN(bm, last - n).0[12 - n];
      x == NONE || forall j: nat :: j < 3 ==> MapWord(disk, x, j) == 0
    ensures var e := Extended(ino, size, n, AllocN(bm, last - n).0);
      && NBlock(e) == last
      && (e.block[12] != NONE ==> e.block[12] in disk && BlockNo(disk, e, 12) == 0)
      && (e.block[12] != NONE ==> forall j: nat :: j < NBlock(e) ==> BlockNo(disk, e, j) != e.block[12])
  {
    var bs := AllocN(bm, last - n).0;
    var e := Extended(ino, size, n, bs);
    var x := bs[12 - n];
    AllocElems(bm, last - n, 12 - n);
    hide AllocN, Used;
    if x != NONE {
      forall j: nat | j < last ensures BlockNo(disk, e, j) != x {
        if j < n {
          assert BlockOk(disk, bm, ino, j);
        } else if j < 12 {
          assert bs[j - n] != x;
        } else {
          assert MapWord(disk, x, j - 12) == 0;
        }
      }
    }
  }

  lemma TooLong(disk: Disk, bm: Bitmap, e: Ino)
    requires |e.block| == 15 && NBlock(e) == 269 && e.size > 268 * 1024
    ensures forall m: nat :: !FileOk(disk, bm, e, m)
  {
  }

  /** Growth past slot 11: the block for slot 12 is taken for the indirect block. */
  lemma PastDirect(disk: Disk, bm: Bitmap, ino: Ino, n: nat, buf: seq<Byte>, off: nat)
    requires DiskOk(disk) && FileOk(disk, bm, ino, n) && BitmapOk(disk, bm) && off <= ino.size
    requires n < 12 < Last(off, |buf|) && FreshMap(disk, bm, n, off, |buf|)
    ensures |ino.block| == 15 && !StaysSound(WInode(disk, bm, ino, buf, off))
  {
    hide *;
    FileIs(disk, bm, ino, n);
    GrowthIs(disk, bm, ino, n, off, |buf|);
    WriteIs(disk, bm, ino, buf, off);
    PastGrows(n, off, |buf|);
    if Last(off, |buf|) <= 15 {
      var e := Extended(ino, NewSize(ino, off, |buf|), n, AllocN(bm, Last(off, |buf|) - n).0);
      MapsNothing(disk, bm, ino, n, off, |buf|);
      NeverSound(disk, e, buf, off);
      var w := WInode(disk, bm, ino, buf, off);
      assert w.Wrote? ==> forall m: nat :: !FileOk(w.disk, w.bm, w.ino, m);
      NotStays(w);
    } else {
      NotStays(Overran);
    }
  }

  lemma NotStays(w: WriteOutcome)
    requires w.Wrote? ==> forall m: nat :: !FileOk(w.disk, w.bm, w.ino, m)
    ensures !StaysSound(w)
  {
  }

  lemma PastGrows(n: nat, off: nat, size: nat)
    requires n < 12 < Last(off, size)
    ensures Grows(n, off, size)
  {
  }

  lemma MapsNothing(disk: Disk, bm: Bitmap, ino: Ino, n: nat, off: nat, size: nat)
    requires DiskOk(disk) && FileOk(disk, bm, ino, n) && BitmapOk(disk, bm) && |ino.block| == 15
    requires n < 12 < Last(off, size) <= 15 && FreshMap(disk, bm, n, off, size)
    ensures EmptyMap(disk, Extended(ino, NewSize(ino, off, size), n, AllocN(bm, Last(off, size) - n).0))
  {
    FileIs(disk, bm, ino, n);
    SlotTwelve(disk, bm, ino, n, NewSize(ino, off, size), Last(off, size));
    hide AllocN, Extended, Real, BlockNo, DiskOk;
  }

  /** More than twelve blocks are counted, with no block in slot 12 or a block there that
      maps nothing and is none of the file's. */
  ghost predicate EmptyMap(disk: Disk, e: Ino)
    requires |e.block| == 15
  {
    && NBlock(e) > 12
    && (e.block[12] != NONE ==> e.block[12] in disk && BlockNo(disk, e, 12) == 0)
    && (e.block[12] != NONE ==> forall j: nat :: j < NBlock(e) ==> BlockNo(disk, e, j) != e.block[12])
  }

  lemma NeverSound(disk: Disk, e: Ino, buf: seq<Byte>, off: nat)
    requires DiskOk(disk) && |e.block| == 15 && EmptyMap(disk, e)
    ensures CopyFrom(disk, e, buf, off, off / 1024).Some? ==>
      forall bm: Bitmap, m: nat :: !FileOk(CopyFrom(disk, e, buf, off, off / 1024).value, bm, e, m)
  {
    if CopyFrom(disk, e, buf, off, off / 1024).Some? {
      var d := CopyFrom(disk, e, buf, off, off / 1024).value;
      hide CopyFrom;
      if e.block[12] != NONE {
        MapStays(disk, disk, e, buf, off, off / 1024);
      }
      assert BlockNo(d, e, 12) == 0 || BlockNo(d, e, 12) == NONE;
      hide FileOk, BlockNo;
      forall bm: Bitmap, m: nat ensures !FileOk(d, bm, e, m) {
        NotSound(d, bm, e, 12);
      }
    }
  }

  /** Growing a file of eleven blocks by three: the second and third kilobyte both land in
      block 0, and the file shows the third in place of the second. */
  lemma ThreeMore(disk: Disk, bm: Bitmap, ino: Ino, buf: seq<Byte>)
    requires DiskOk(disk) && FileOk(disk, bm, ino, 11) && BitmapOk(disk, bm) && ino.size >= 11264
    requires |buf| == 3072 && HasClear(bm, 3) && FreshMap(disk, bm, 11, 11264, 3072)
    ensures |ino.block| == 15
    ensures var w := WInode(disk, bm, ino, buf, 11264);
      && w.Wrote? && NBlock(w.ino) == 14 && 0 in w.disk && w.disk[0] == buf[2048..]
      && |w.ino.block| == 15 && forall k: nat :: 12288 <= k < 13312 ==> FByte(w.disk, w.ino, k) == buf[k - 10240]
  {
    hide *;
    FileIs(disk, bm, ino, 11);
    GrowthIs(disk, bm, ino, 11, 11264, 3072);
    WriteIs(disk, bm, ino, buf, 11264);
    GrowsByThree();
    var e := Extended(ino, NewSize(ino, 11264, 3072), 11, AllocN(bm, 3).0);
    FreshSlots(disk, bm, ino, e.size);
    ThreeBlocks(disk, e, buf);
    SecondKb(WInode(disk, bm, ino, buf, 11264).disk, e, buf);
  }

  lemma GrowsByThree()
    ensures Grows(11, 11264, 3072) && Last(11264, 3072) == 14
  {
  }

  lemma SecondKb(d: Disk, e: Ino, buf: seq<Byte>)
    requires |e.block| == 15 && BlockNo(d, e, 12) == 0 && |buf| == 3072 && 0 in d && d[0] == buf[2048..]
    ensures forall k: nat :: 12288 <= k < 13312 ==> FByte(d, e, k) == buf[k - 10240]
  {
    forall k: nat | 12288 <= k < 13312 ensures FByte(d, e, k) == buf[k - 10240] {
      assert k / 1024 == 12;
    }
  }

  lemma FreshSlots(disk: Disk, bm: Bitmap, ino: Ino, size: nat)
    requires DiskOk(disk) && FileOk(disk, bm, ino, 11) && BitmapOk(disk, bm)
    requires HasClear(bm, 3) && FreshMap(disk, bm, 11, 11264, 3072) && |ino.block| == 15
    ensures var e := Extended(ino, size, 11, AllocN(bm, 3).0);
      && NBlock(e) == 14 && 0 < e.block[11] < GROUP && 0 < e.block[12] < GROUP && e.block[11] != e.block[12]
      && 0 in disk && e.block[11] in disk && e.block[12] in disk
      && forall j: nat :: j < 3 ==> MapWord(disk, e.block[12], j) == 0
  {
    var bs := AllocN(bm, 3).0;
    AllocElems(bm, 3, 0);
    AllocElems(bm, 3, 1);
    assert bs[0] in bs && bs[1] in bs;
    hide AllocN, Real, Used;
  }

  /** The three rounds of the loop. */
  lemma ThreeBlocks(disk: Disk, e: Ino, buf: seq<Byte>)
    requires DiskOk(disk) && |e.block| == 15 && NBlock(e) == 14 && |buf| == 3072
    requires 0 < e.block[11] < GROUP && 0 < e.block[12] < GROUP && e.block[11] != e.block[12]
    requires 0 in disk && e.block[11] in disk && e.block[12] in disk
    requires forall j: nat :: j < 3 ==> MapWord(disk, e.block[12], j) == 0
    ensures CopyFrom(disk, e, buf, 11264, 11).Some?
    ensures var d := CopyFrom(disk, e, buf, 11264, 11).value;
      && 0 in d && d[0] == buf[2048..] && e.block[12] in d && d[e.block[12]] == disk[e.block[12]]
      && BlockNo(d, e, 12) == 0 && BlockNo(d, e, 13) == 0
  {
    var x := e.block[12];
    var d1 := PatchAt(disk, e.block[11], buf, 11264, 11);
    var d2 := PatchAt(d1, 0, buf, 11264, 12);
    var d3 := PatchAt(d2, 0, buf, 11264, 13);
    assert MapWord(disk, x, 0) == 0 && MapWord(disk, x, 1) == 0;
    assert BlockNo(d1, e, 12) == 0 && BlockNo(d2, e, 13) == 0;
    CopyStep(disk, e, buf, 11264, 11);
    CopyStep(d1, e, buf, 11264, 12);
    CopyStep(d2, e, buf, 11264, 13);
    CopyStops(d3, e, buf, 11264, 14);
    assert Chunk(buf, 11264, 13) == buf[2048..];
    assert d3[0] == buf[2048..];
  }

  /** Appending to a file that counts its indirect block overwrites block 0 of the disk. */
  lemma AppendHitsBlockZero(disk: Disk, bm: Bitmap, ino: Ino, n: nat, buf: seq<Byte>)
    requires DiskOk(disk) && FileOk(disk, bm, ino, n) && NBlock(ino) == n + 1 && n < 268
    requires ino.size == n * 1024 && 0 < |buf| <= 1024
    ensures |ino.block| == 15
    ensures var w := WInode(disk, bm, ino, buf, n * 1024);
      w.Wrote? && 0 in disk && |disk[0]| == 1024 && w.disk == disk[0 := buf + disk[0][|buf|..]]
  {
    var off := n * 1024;
    hide *;
    FileIs(disk, bm, ino, n);
    NoGrowth(n, off, |buf|);
    GrowthIs(disk, bm, ino, n, off, |buf|);
    WriteIs(disk, bm, ino, buf, off);
    var e := ino.(size := NewSize(ino, off, |buf|));
    SameBlocks(disk, bm, ino, n, e.size);
    MapThere(disk, bm, ino, n, e);
    AppendLoop(disk, e, n, buf);
  }

  lemma NoGrowth(n: nat, off: nat, size: nat)
    ensures n >= 12 ==> !Grows(n, off, size)
  {
  }

  /** One round of the loop, on block 0. */
  lemma AppendLoop(disk: Disk, e: Ino, n: nat, buf: seq<Byte>)
    requires DiskOk(disk) && |e.block| == 15 && NBlock(e) == n + 1 && BlockNo(disk, e, n) == 0 && 0 < |buf| <= 1024
    requires 0 in disk
    ensures n * 1024 / 1024 == n && |disk[0]| == 1024
    ensures CopyFrom(disk, e, buf, n * 1024, n) == Some(disk[0 := buf + disk[0][|buf|..]])
  {
    var off := n * 1024;
    hide *;
    AppendPos(n, |buf|);
    var d := PatchAt(disk, 0, buf, off, n);
    CopyStep(disk, e, buf, off, n);
    CopyStops(d, e, buf, off, n + 1);
    WholeChunk(buf, n);
    PatchIs(disk, 0, buf, off, n);
    PatchFront(disk[0], buf);
  }

  lemma AppendPos(n: nat, size: nat)
    ensures n * 1024 / 1024 == n <= (size + n * 1024) / 1024
  {
    InBlock(n, 0);
  }

  lemma PatchFront(b: Block, buf: seq<Byte>)
    requires |buf| <= |b|
    ensures Patch(b, 0, buf) == buf + b[|buf|..]
  {
  }

  lemma WholeChunk(buf: seq<Byte>, n: nat)
    requires |buf| <= 1024 && n * 1024 / 1024 == n
    ensures ChunkOff(n * 1024, n) == 0 && Chunk(buf, n * 1024, n) == buf
  {
    InBlock(n, 0);
  }

  // ---- Two files

  /** No block belongs to both. */
  ghost predicate Separate(disk: Disk, a: Ino, n: nat, o: Ino, l: nat)
    requires |a.block| == 15 && |o.block| == 15
  {
    forall b: nat :: !(Owns(disk, a, n, b) && Owns(disk, o, l, b))
  }

  /** A write that disturbs nothing changes no byte and no block of another sound file, and
      the two stay apart. */
  lemma OtherFileKept(disk: Disk, bm: Bitmap, ino: Ino, n: nat, buf: seq<Byte>, off: nat, o: Ino, l: nat)
    requires SoundWrite(disk, bm, ino, n, off, |buf|) && FileOk(disk, bm, o, l)
    requires |ino.block| == 15 && |o.block| == 15 && Separate(disk, ino, n, o, l)
    ensures var w := WInode(disk, bm, ino, buf, off);
      && w.Wrote? && FileOk(w.disk, w.bm, o, l)
      && (forall k: nat :: k < l * 1024 ==> FByte(w.disk, o, k) == FByte(disk, o, k))
      && |w.ino.block| == 15 && Separate(w.disk, w.ino, RealAfter(n, off, |buf|), o, l)
  {
    hide *;
    WriteStores(disk, bm, ino, n, buf, off);
    var w := WInode(disk, bm, ino, buf, off);
    var m := RealAfter(n, off, |buf|);
    OtherBlocks(disk, bm, ino, n, buf, off, w.disk, w.bm, w.ino, m, o, l);
    OtherSound(disk, bm, w.disk, w.bm, o, l);
    OtherApart(disk, bm, ino, n, buf, off, w.disk, w.bm, w.ino, m, o, l);
  }

  lemma WriteStores(disk: Disk, bm: Bitmap, ino: Ino, n: nat, buf: seq<Byte>, off: nat)
    requires SoundWrite(disk, bm, ino, n, off, |buf|)
    ensures |ino.block| == 15 && DiskOk(disk) && FileOk(disk, bm, ino, n)
    ensures var w := WInode(disk, bm, ino, buf, off);
      && w.Wrote? && Stores(disk, bm, ino, n, buf, off, w.disk, w.bm, w.ino, RealAfter(n, off, |buf|))
      && |w.ino.block| == 15 && DiskOk(w.disk) && w.ino.size == NewSize(ino, off, |buf|)
      && NBlock(w.ino) == if Grows(n, off, |buf|) then Last(off, |buf|) else NBlock(ino)
  {
    SafeWrite(disk, bm, ino, n, buf, off);
    hide FileOk, Safe, WInode, Used, RealAfter, DiskOk, NewSize, Grows;
    FileIs(disk, bm, ino, n);
  }

  /** The disk blocks of the other file and its indirect block are as they were. */
  ghost predicate SameHere(d0: Disk, d1: Disk, o: Ino, l: nat)
    requires |o.block| == 15
  {
    && d1.Keys == d0.Keys
    && (l > 12 ==> o.block[12] in d0 && o.block[12] in d1 && d1[o.block[12]] == d0[o.block[12]])
    && forall bi: nat :: bi < l ==>
         var b := BlockNo(d0, o, bi);
         b in d0 && b in d1 && d1[b] == d0[b]
  }

  lemma OtherBlocks(d0: Disk, bm: Bitmap, ino: Ino, n: nat, buf: seq<Byte>, off: nat, d1: Disk, bm': Bitmap, e: Ino,
                    m: nat, o: Ino, l: nat)
    requires DiskOk(d0) && Stores(d0, bm, ino, n, buf, off, d1, bm', e, m) && FileOk(d0, bm, o, l)
    requires |ino.block| == 15 && |o.block| == 15 && Separate(d0, ino, n, o, l)
    ensures SameHere(d0, d1, o, l) && forall b: nat :: Used(bm, b) ==> Used(bm', b)
  {
    FileIs(d0, bm, o, l);
    hide FByte, BlockNo, Used;
    forall bi: nat | bi < l
      ensures var b := BlockNo(d0, o, bi);
        b in d0 && b in d1 && d1[b] == d0[b]
    {
      RealAt(d0, bm, o, l, bi);
      assert Owns(d0, o, l, BlockNo(d0, o, bi));
    }
    if l > 12 {
      assert Owns(d0, o, l, o.block[12]);
    }
  }

  lemma OtherSound(d0: Disk, bm: Bitmap, d1: Disk, bm': Bitmap, o: Ino, l: nat)
    requires FileOk(d0, bm, o, l) && |o.block| == 15 && SameHere(d0, d1, o, l)
    requires forall b: nat :: Used(bm, b) ==> Used(bm', b)
    ensures FileOk(d1, bm', o, l)
    ensures forall bi: nat :: bi < l ==> BlockNo(d1, o, bi) == BlockNo(d0, o, bi)
    ensures forall k: nat :: k < l * 1024 ==> FByte(d1, o, k) == FByte(d0, o, k)
  {
    forall bi: nat | bi < l || l > 12 ensures BlockNo(d1, o, bi) == BlockNo(d0, o, bi) {
    }
    hide Used, BlockNo;
    forall bi: nat | bi < l ensures BlockOk(d1, bm', o, bi) {
      assert BlockOk(d0, bm, o, bi);
    }
    forall i: nat, j: nat | i < l && j < l ensures Differ(d1, o, i, j) {
      assert Differ(d0, o, i, j);
    }
    assert forall k: nat :: k < l * 1024 ==> k / 1024 < l;
  }

  lemma OtherApart(d0: Disk, bm: Bitmap, ino: Ino, n: nat, buf: seq<Byte>, off: nat, d1: Disk, bm': Bitmap, e: Ino,
                   m: nat, o: Ino, l: nat)
    requires Stores(d0, bm, ino, n, buf, off, d1, bm', e, m) && FileOk(d0, bm, o, l)
    requires |ino.block| == 15 && |o.block| == 15 && |e.block| == 15 && Separate(d0, ino, n, o, l)
    requires forall bi: nat :: bi < l ==> BlockNo(d1, o, bi) == BlockNo(d0, o, bi)
    ensures Separate(d1, e, m, o, l)
  {
    hide FByte, BlockNo, Used;
    forall b: nat | Owns(d1, o, l, b) ensures Owns(d0, o, l, b) && Used(bm, b) {
      OwnedUsed(d0, bm, d1, o, l, b);
    }
  }

  lemma OwnedUsed(d0: Disk, bm: Bitmap, d1: Disk, o: Ino, l: nat, b: nat)
    requires FileOk(d0, bm, o, l) && |o.block| == 15 && Owns(d1, o, l, b)
    requires forall bi: nat :: bi < l ==> BlockNo(d1, o, bi) == BlockNo(d0, o, bi)
    ensures Owns(d0, o, l, b) && Used(bm, b)
  {
    hide BlockNo, Used;
    if !NotIn(d1, o, l, b) {
      var bi: nat :| bi < l && BlockNo(d1, o, bi) == b;
      RealAt(d0, bm, o, l, bi);
      assert BlockNo(d0, o, bi) == b;
    }
  }

  // ---- Write, then read

  /** Everything written with a Whole write, by itself or with the growth it needs, is read
      back, and the file is sound.  A read from the start of a file that had blocks for all
      of its size goes up to where the file ended or the write does, and finds the old
      bytes where nothing was written. */
  method WriteThenRead(v: Volume, node: Inode, buf: seq<Byte>, off: nat, len: nat, ghost n: nat)
    returns (w: Result, r: ReadResult, all: ReadResult)
    requires DiskOk(v.disk) && FileOk(v.disk, v.bitmap, node.View(), n) && BitmapOk(v.disk, v.bitmap)
    requires off <= node.size && off + |buf| < 0x100000000 && Whole(n, off, |buf|) && len < 0x10000000000000000
    requires Grows(n, off, |buf|) ==> HasClear(v.bitmap, Last(off, |buf|) - n)
    modifies v, node
    ensures w == Result.Ok(|buf|) && r == Bytes(buf) && all.Bytes?
    ensures FileOk(v.disk, v.bitmap, node.View(), RealAfter(n, off, |buf|))
    ensures DiskOk(v.disk) && BitmapOk(v.disk, v.bitmap)
    ensures old(node.size <= node.blocks / 2 * 1024) ==>
      && |all.data| == Min(len, if old(node.size) < off + |buf| then off + |buf| else old(node.size))
      && |old(node.block)| == 15
      && forall k: nat :: k < |all.data| ==>
           all.data[k] as int ==
             if off <= k < off + |buf| then buf[k - off] as int else old(FByte(v.disk, node.View(), k))
  {
    ghost var m, d0, ino := RealAfter(n, off, |buf|), v.disk, node.View();
    WholeFile(v.disk, v.bitmap, node.View(), n, buf, off);
    hide FileOk, DiskOk, BitmapOk, WInode, FByte, Whole, Grows, HasClear, Used, RealAfter, ReadSize, NBlock, BlockNo;
    hide ReadTo, FromBlocks, HoldsWords, Edited;
    w := v.WriteInode(node, buf, off);
    BlocksThere(v.disk, v.bitmap, node.View(), m);
    r := ReadInode(v.disk, node.View(), off, |buf|);
    assert r.data == buf;
    all := ReadInode(v.disk, node.View(), 0, len);
    if ino.size <= ino.blocks / 2 * 1024 {
      AllRead(d0, ino, v.disk, node.View(), buf, off, len, all.data);
    }
  }

  /** buf is what reading |buf| bytes at off gives after the write. */
  predicate ReadsBack(w: WriteOutcome, buf: seq<Byte>, off: nat) {
    && w.Wrote? && |w.ino.block| == 15 && off <= w.ino.size && ReadSize(w.ino, off, |buf|) == |buf|
    && forall k: nat :: k < |buf| ==> FByte(w.disk, w.ino, off + k) == buf[k]
  }

  /** The file ends at the larger one of the old size and the end of the write.  When it had
      blocks for all of its size it has them again, and up to its end it has the bytes of
      buf from off on and is else as it was. */
  predicate Edited(d0: Disk, ino: Ino, d1: Disk, e: Ino, buf: seq<Byte>, off: nat)
    requires |ino.block| == 15 && |e.block| == 15
  {
    && e.size == (if ino.size < off + |buf| then off + |buf| else ino.size)
    && (ino.size <= ino.blocks / 2 * 1024 ==>
      && e.size <= e.blocks / 2 * 1024
      && forall k: nat :: k < e.size ==> EditedAt(d0, ino, d1, e, buf, off, k))
  }

  predicate EditedAt(d0: Disk, ino: Ino, d1: Disk, e: Ino, buf: seq<Byte>, off: nat, k: nat)
    requires |ino.block| == 15 && |e.block| == 15
  {
    FByte(d1, e, k) == if off <= k < off + |buf| then buf[k - off] else FByte(d0, ino, k)
  }

  lemma AllRead(d0: Disk, ino: Ino, d1: Disk, e: Ino, buf: seq<Byte>, off: nat, len: nat, data: seq<Byte>)
    requires |ino.block| == 15 && |e.block| == 15 && Edited(d0, ino, d1, e, buf, off)
    requires ino.size <= ino.blocks / 2 * 1024
    requires |data| == ReadSize(e, 0, len) && forall k: nat :: k < |data| ==> data[k] == FByte(d1, e, 0 + k)
    ensures |data| == Min(len, if ino.size < off + |buf| then off + |buf| else ino.size)
    ensures forall k: nat :: k < |data| ==>
      data[k] as int == if off <= k < off + |buf| then buf[k - off] as int else FByte(d0, ino, k)
  {
    hide FByte;
    forall k: nat | k < |data|
      ensures data[k] as int == if off <= k < off + |buf| then buf[k - off] as int else FByte(d0, ino, k)
    {
      assert data[k] == FByte(d1, e, 0 + k) && EditedAt(d0, ino, d1, e, buf, off, k);
    }
  }

  /** The file after a Whole write. */
  lemma WholeFile(disk: Disk, bm: Bitmap, ino: Ino, n: nat, buf: seq<Byte>, off: nat)
    requires DiskOk(disk) && FileOk(disk, bm, ino, n) && BitmapOk(disk, bm)
    requires off <= ino.size && off + |buf| < 0x100000000 && Whole(n, off, |buf|)
    requires Grows(n, off, |buf|) ==> HasClear(bm, Last(off, |buf|) - n)
    ensures |ino.block| == 15
    ensures var w := WInode(disk, bm, ino, buf, off);
      && ReadsBack(w, buf, off) && DiskOk(w.disk) && BitmapOk(w.disk, w.bm)
      && FileOk(w.disk, w.bm, w.ino, RealAfter(n, off, |buf|))
      && Edited(disk, ino, w.disk, w.ino, buf, off)
  {
    hide *;
    FileIs(disk, bm, ino, n);
    WholeKeeps(disk, bm, ino, n, off, |buf|);
    SoundAfter(disk, bm, ino, n, buf, off);
    WholeSized(disk, bm, ino, n, buf, off);
    WholeBytes(disk, bm, ino, n, buf, off);
    IsReadBack(disk, bm, ino, buf, off);
    SoundDisk(disk, bm, ino, n, buf, off);
    WholeEdits(disk, bm, ino, n, buf, off);
  }

  lemma WholeEdits(disk: Disk, bm: Bitmap, ino: Ino, n: nat, buf: seq<Byte>, off: nat)
    requires SoundWrite(disk, bm, ino, n, off, |buf|) && off + |buf| < 0x100000000 && Whole(n, off, |buf|)
    requires |ino.block| == 15 && DiskOk(disk)
    requires Keeps(bm, ino, n, off, |buf|)
    ensures var w := WInode(disk, bm, ino, buf, off);
      w.Wrote? && |w.ino.block| == 15 && Edited(disk, ino, w.disk, w.ino, buf, off)
  {
    hide *;
    SoundIs(disk, bm, ino, n, off, |buf|);
    SoundAfter(disk, bm, ino, n, buf, off);
    WriteStores(disk, bm, ino, n, buf, off);
    WroteSize(disk, bm, ino, buf, off);
    var w, m := WInode(disk, bm, ino, buf, off), RealAfter(n, off, |buf|);
    FileIs(disk, bm, ino, n);
    FileSized(disk, bm, ino, n);
    FileSized(w.disk, w.bm, w.ino, m);
    EndSized(ino, n, off, |buf|);
    Blocks(ino);
    Blocks(w.ino);
    CountsGrow(ino, n, off, |buf|);
    EditsAll(disk, bm, ino, n, buf, off, w.disk, w.bm, w.ino, m);
  }

  lemma Blocks(ino: Ino)
    ensures NBlock(ino) == ino.blocks / 2
  {
  }

  lemma SoundIs(disk: Disk, bm: Bitmap, ino: Ino, n: nat, off: nat, size: nat)
    requires SoundWrite(disk, bm, ino, n, off, size)
    ensures DiskOk(disk) && FileOk(disk, bm, ino, n) && BitmapOk(disk, bm) && off <= ino.size
  {
  }

  lemma FileSized(disk: Disk, bm: Bitmap, ino: Ino, n: nat)
    requires FileOk(disk, bm, ino, n)
    ensures ino.size <= NBlock(ino) * 1024 ==> ino.size <= n * 1024
  {
    hide Real, Absent, NBlock;
  }

  lemma CountsGrow(ino: Ino, n: nat, off: nat, size: nat)
    requires n <= NBlock(ino)
    ensures Grows(n, off, size) ==> n < 12 && n < Last(off, size)
  {
  }

  lemma EditsAll(d0: Disk, bm: Bitmap, ino: Ino, n: nat, buf: seq<Byte>, off: nat, d1: Disk, bm': Bitmap, e: Ino,
                 m: nat)
    requires Stores(d0, bm, ino, n, buf, off, d1, bm', e, m) && |ino.block| == 15 && |e.block| == 15
    requires e.size == (if ino.size < off + |buf| then off + |buf| else ino.size)
    requires off <= ino.size && (ino.size <= NBlock(ino) * 1024 ==> ino.size <= n * 1024)
    requires ino.size <= NBlock(ino) * 1024 ==> e.size <= m * 1024 && e.size <= NBlock(e) * 1024
    requires NBlock(ino) == ino.blocks / 2 && NBlock(e) == e.blocks / 2 && Whole(n, off, |buf|)
    ensures Edited(d0, ino, d1, e, buf, off)
  {
    hide Written, FByte, Real, NotIn, Owns, BlockNo, DiskOk, Used, NBlock, OthersKept, Whole;
    if ino.size <= ino.blocks / 2 * 1024 {
      forall k: nat | k < e.size ensures EditedAt(d0, ino, d1, e, buf, off, k) {
        WrittenInside(off, |buf|, k);
        if off <= k < off + |buf| {
          WrittenAll(n, off, |buf|, k);
        }
      }
    }
  }

  lemma WrittenAll(n: nat, off: nat, size: nat, k: nat)
    requires Whole(n, off, size) && off <= k < off + size
    ensures Written(off, size, k)
  {
    WrittenWhole(n, off, size);
  }

  lemma WholeKeeps(disk: Disk, bm: Bitmap, ino: Ino, n: nat, off: nat, size: nat)
    requires DiskOk(disk) && FileOk(disk, bm, ino, n) && BitmapOk(disk, bm) && off <= ino.size
    requires Whole(n, off, size) && (Grows(n, off, size) ==> HasClear(bm, Last(off, size) - n))
    ensures Keeps(bm, ino, n, off, size) && SoundWrite(disk, bm, ino, n, off, size)
  {
    FileIs(disk, bm, ino, n);
    KeepsCases(disk, bm, ino, n, off, size);
    hide FileOk, HasClear, Safe;
  }

  lemma SoundDisk(disk: Disk, bm: Bitmap, ino: Ino, n: nat, buf: seq<Byte>, off: nat)
    requires SoundWrite(disk, bm, ino, n, off, |buf|) && |ino.block| == 15 && DiskOk(disk)
    ensures WInode(disk, bm, ino, buf, off).Wrote? && DiskOk(WInode(disk, bm, ino, buf, off).disk)
  {
    hide *;
    WriteStores(disk, bm, ino, n, buf, off);
  }

  lemma IsReadBack(disk: Disk, bm: Bitmap, ino: Ino, buf: seq<Byte>, off: nat)
    requires DiskOk(disk) && |ino.block| == 15 && WInode(disk, bm, ino, buf, off).Wrote?
    requires forall k: nat :: off <= k < off + |buf| ==> LeavesBuf(disk, bm, ino, buf, off, k)
    requires var e := WInode(disk, bm, ino, buf, off).ino;
      |e.block| == 15 && off + |buf| <= e.size && off + |buf| <= NBlock(e) * 1024
    ensures ReadsBack(WInode(disk, bm, ino, buf, off), buf, off)
  {
    var w := WInode(disk, bm, ino, buf, off);
    hide WInode, FByte, DiskOk;
    forall k: nat | k < |buf| ensures FByte(w.disk, w.ino, off + k) == buf[k] {
      assert LeavesBuf(disk, bm, ino, buf, off, off + k);
    }
  }

  lemma WholeSized(disk: Disk, bm: Bitmap, ino: Ino, n: nat, buf: seq<Byte>, off: nat)
    requires SoundWrite(disk, bm, ino, n, off, |buf|) && off + |buf| < 0x100000000 && Whole(n, off, |buf|)
    requires |ino.block| == 15 && DiskOk(disk)
    ensures var w := WInode(disk, bm, ino, buf, off);
      w.Wrote? && |w.ino.block| == 15 && off + |buf| <= w.ino.size && off + |buf| <= NBlock(w.ino) * 1024
  {
    hide *;
    WriteStores(disk, bm, ino, n, buf, off);
    FileIs(disk, bm, ino, n);
    EndSized(ino, n, off, |buf|);
  }

  lemma EndSized(ino: Ino, n: nat, off: nat, size: nat)
    requires n <= NBlock(ino) && off + size < 0x100000000 && Whole(n, off, size)
    ensures off + size <= NewSize(ino, off, size)
    ensures off + size <= (if Grows(n, off, size) then Last(off, size) else NBlock(ino)) * 1024
  {
  }

  lemma WholeBytes(disk: Disk, bm: Bitmap, ino: Ino, n: nat, buf: seq<Byte>, off: nat)
    requires SoundWrite(disk, bm, ino, n, off, |buf|) && Whole(n, off, |buf|) && |ino.block| == 15 && DiskOk(disk)
    ensures forall k: nat :: off <= k < off + |buf| ==> LeavesBuf(disk, bm, ino, buf, off, k)
  {
    hide FileOk, Safe, SoundWrite, Whole, Written, RealAfter, Leaves, DiskOk, Kept;
    if |buf| > 0 {
      WrittenWhole(n, off, |buf|);
      forall k: nat | off <= k < off + |buf| ensures LeavesBuf(disk, bm, ino, buf, off, k) {
        assert Written(off, |buf|, k);
        ByteAfter(disk, bm, ino, n, buf, off, k);
      }
    }
  }
}
