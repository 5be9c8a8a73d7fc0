/** The bytes of a file (kernel/ext2.c) through direct and indirect blocks of 1024
  bytes, and what ext2_read_inode makes of any inode. */
module FileBytes {
  import opened Dirent
  import opened BlockBitmap
  import opened Bits

  /** Blocks of the one block group its bitmap describes. */
  const GROUP: nat := 8192

  type Disk = map<nat, Block>

  /** Blocks have 1024 bytes, and none has the number of a failed allocation. */
  predicate DiskOk(disk: Disk) {
    forall b :: b in disk ==> |disk[b]| == 1024 && b < NONE
  }

  /** The bitmap is one block; block 0 is in use, and blocks that are not on the disk are
      marked as in use, too. */
  predicate BitmapOk(disk: Disk, bm: Bitmap) {
    |bm| == 1024 && Used(bm, 0) && forall b: nat :: b < GROUP && !Used(bm, b) ==> b in disk
  }

  /** The in-memory inode: `blocks` counts 512-byte units, two for a block. */
  datatype Ino = Ino(size: nat, blocks: nat, block: seq<nat>)

  /** ext2_inode_nblock */
  function NBlock(ino: Ino): nat {
    ino.blocks / 2
  }

  /** Word idx of the indirect block m.  Right behind its 256 words struct buf keeps the
      number of the block itself; what lies further is not a block number. */
  function MapWord(disk: Disk, m: nat, idx: nat): nat {
    if m !in disk then NONE
    else if idx * 4 + 4 <= |disk[m]| then U32(disk[m], idx * 4)
    else if idx == 256 then m
    else NONE
  }

  /** The disk block that ext2_inode_block reads for file block bi. */
  function BlockNo(disk: Disk, ino: Ino, bi: nat): nat
    requires |ino.block| == 15
  {
    if bi < 12 then ino.block[bi] else MapWord(disk, ino.block[12], bi - 12)
  }

  /** Byte k of the flattened file. */
  function FByte(disk: Disk, ino: Ino, k: nat): int
    requires |ino.block| == 15
  {
    ByteIn(disk, BlockNo(disk, ino, k / 1024), k % 1024)
  }

  /** Four bytes of block b hold a word, least byte first. */
  predicate WordAt(b: Block, i: nat, word: nat)
    requires 4 * i + 4 <= |b|
  {
    word < 0x100000000 && forall j :: 0 <= j < 4 ==> b[4 * i + j] as nat == ByteOf(word, j)
  }

  /** The indirect block m of the disk is made of the words ws. */
  predicate HoldsWords(disk: Disk, m: nat, ws: seq<nat>) {
    m in disk && |disk[m]| == 1024 && |ws| == 256 && forall i: nat :: i < 256 ==> WordAt(disk[m], i, ws[i])
  }

  /** Position k, when it is in the blocks bs one behind the other, holds the byte. */
  predicate InBlocks(disk: Disk, bs: seq<nat>, k: nat, byte: Byte) {
    k / 1024 < |bs| ==>
      bs[k / 1024] in disk && |disk[bs[k / 1024]]| == 1024 && byte == disk[bs[k / 1024]][k % 1024]
  }

  /** Blocks bs, one behind the other, hold the data from off on. */
  predicate FromBlocks(disk: Disk, bs: seq<nat>, off: nat, data: seq<Byte>) {
    forall k: nat :: k < |data| ==> InBlocks(disk, bs, off + k, data[k])
  }

  /** The twelve slots number the first blocks, and word k of the indirect block the one
      behind them by k; the word
      behind the last is the number of the indirect block itself. */
  lemma BlocksInOrder(disk: Disk, ino: Ino, ws: seq<nat>)
    requires |ino.block| == 15
    ensures forall i: nat :: i < 12 ==> BlockNo(disk, ino, i) == ino.block[i]
    ensures HoldsWords(disk, ino.block[12], ws) ==>
      BlockNo(disk, ino, 268) == ino.block[12] && forall k: nat :: k < 256 ==> BlockNo(disk, ino, 12 + k) == ws[k]
  {
    if HoldsWords(disk, ino.block[12], ws) {
      forall k: nat | k < 256 ensures BlockNo(disk, ino, 12 + k) == ws[k] {
        WordReads(disk[ino.block[12]], k, ws[k]);
      }
    }
  }

  lemma WordReads(b: Block, i: nat, word: nat)
    requires 4 * i + 4 <= |b| && WordAt(b, i, word)
    ensures U32(b, i * 4) == word
  {
    BytesRead(b, i * 4, word);
  }

  function ByteIn(disk: Disk, b: nat, o: nat): int {
    if b in disk && o < |disk[b]| then disk[b][o] else 0
  }

  function Min(a: nat, b: nat): nat {
    if a <= b then a else b
  }

  lemma InBlock(i: nat, o: nat)
    requires o < 1024
    ensures (i * 1024 + o) / 1024 == i && (i * 1024 + o) % 1024 == o
  {
  }

  lemma BlockBytes(disk: Disk, ino: Ino, bi: nat)
    requires |ino.block| == 15 && DiskOk(disk) && BlockNo(disk, ino, bi) in disk
    ensures |disk[BlockNo(disk, ino, bi)]| == 1024
    ensures forall o: nat :: o < 1024 ==> FByte(disk, ino, bi * 1024 + o) == disk[BlockNo(disk, ino, bi)][o]
  {
    forall o: nat | o < 1024 ensures FByte(disk, ino, bi * 1024 + o) == disk[BlockNo(disk, ino, bi)][o] {
      InBlock(bi, o);
    }
  }

  // ---- Reading

  datatype ReadResult = Refused | DiskPanic | Bytes(data: seq<Byte>)

  /** The bytes there are to read: no more than asked for, than up to the size, and than
      in the counted blocks. */
  function ReadSize(ino: Ino, off: nat, size: nat): nat
    requires off <= ino.size
  {
    var n := Min(size, ino.size - off);
    if off < NBlock(ino) * 1024 then Min(n, NBlock(ino) * 1024 - off) else 0
  }

  /** The read comes to file block bi, which is not on the disk. */
  predicate Misses(disk: Disk, ino: Ino, off: nat, size: nat, bi: nat)
    requires |ino.block| == 15 && off <= ino.size
  {
    off / 1024 <= bi < NBlock(ino) && bi <= (Min(size, ino.size - off) + off) / 1024 && BlockNo(disk, ino, bi) !in disk
  }

  /** ext2_read_inode on any inode: the bytes of the file from off, exactly as many as
      there are; the disk panics exactly when the read comes to a block that is not on it. */
  method ReadInode(disk: Disk, ino: Ino, off: nat, size0: nat) returns (r: ReadResult)
    requires DiskOk(disk) && |ino.block| == 15 && off + size0 < 0x10000000000000000
    ensures r == Refused <==> off > ino.size
    ensures r == DiskPanic <==> off <= ino.size && exists bi: nat :: Misses(disk, ino, off, size0, bi)
    ensures r.Bytes? ==>
      && |r.data| == ReadSize(ino, off, size0)
      && forall k: nat :: k < |r.data| ==> r.data[k] == FByte(disk, ino, off + k)
    ensures r.Bytes? ==> ReadTo(ino, off, size0, |r.data|) && FromBlocks(disk, ino.block[..12], off, r.data)
    ensures r.Bytes? ==>
      forall ws: seq<nat> :: HoldsWords(disk, ino.block[12], ws) ==> FromBlocks(disk, ino.block[..12] + ws, off, r.data)
  {
    r := ReadBlocks(disk, ino, off, size0);
    if r.Bytes? {
      FromFile(disk, ino, off, size0, r.data);
    }
  }

  /** n is as far as the size asked for, the file's size and its counted blocks reach. */
  predicate ReadTo(ino: Ino, off: nat, size: nat, n: nat) {
    && n <= size && off + n <= ino.size && (n > 0 ==> off + n <= ino.blocks / 2 * 1024)
    && (n == size || off + n == ino.size || off + n >= ino.blocks / 2 * 1024)
  }

  /** The loop of ext2_read_inode. */
  method ReadBlocks(disk: Disk, ino: Ino, off: nat, size0: nat) returns (r: ReadResult)
    requires DiskOk(disk) && |ino.block| == 15 && off + size0 < 0x10000000000000000
    ensures r == Refused <==> off > ino.size
    ensures r == DiskPanic <==> off <= ino.size && exists bi: nat :: Misses(disk, ino, off, size0, bi)
    ensures r.Bytes? ==>
      && |r.data| == ReadSize(ino, off, size0)
      && forall k: nat :: k < |r.data| ==> r.data[k] == FByte(disk, ino, off + k)
  {
    if off > ino.size {
      return Refused;
    }
    var size := size0;
    if off + size > ino.size {
      size := ino.size - off;
    }
    ghost var n := size;
    var i, lastblk, offblkoff := off / 1024, (size + off) / 1024, off % 1024;
    var nb := NBlock(ino);
    var out: seq<Byte> := [];
    assert off == i * 1024 + offblkoff && n == Min(size0, ino.size - off);
    hide DiskOk, FByte, BlockNo;
    while i < nb && i <= lastblk
      invariant off / 1024 <= i && 0 <= offblkoff < 1024 && 0 <= size && size + |out| == n
      invariant size > 0 ==> off + |out| == i * 1024 + offblkoff
      invariant forall k: nat :: k < |out| ==> out[k] == FByte(disk, ino, off + k)
      invariant forall bi: nat :: off / 1024 <= bi < i ==> BlockNo(disk, ino, bi) in disk
      invariant off / 1024 < nb ==> i <= nb
      invariant off + |out| <= i * 1024 + offblkoff && (i > off / 1024 ==> offblkoff == 0)
      invariant off / 1024 >= nb ==> out == []
      decreases nb - i
    {
      var bno := BlockNo(disk, ino, i);
      if bno !in disk {
        assert Misses(disk, ino, off, size0, i);
        return DiskPanic;
      }
      BlockBytes(disk, ino, i);
      var b := disk[bno];
      var cpsize := Min(size, 1024);
      if offblkoff + cpsize > 1024 {
        cpsize := 1024 - offblkoff;
      }
      Copied(disk, ino, off, i, offblkoff, cpsize, out, b);
      out := out + b[offblkoff..offblkoff + cpsize];
      size := size - cpsize;
      offblkoff := 0;
      i := i + 1;
    }
    r := Bytes(out);
  }

  /** The file's bytes are those of its blocks. */
  lemma FromFile(disk: Disk, ino: Ino, off: nat, size: nat, data: seq<Byte>)
    requires DiskOk(disk) && |ino.block| == 15 && off <= ino.size && |data| == ReadSize(ino, off, size)
    requires forall bi: nat :: !Misses(disk, ino, off, size, bi)
    requires forall k: nat :: k < |data| ==> data[k] == FByte(disk, ino, off + k)
    ensures ReadTo(ino, off, size, |data|) && FromBlocks(disk, ino.block[..12], off, data)
    ensures forall ws: seq<nat> :: HoldsWords(disk, ino.block[12], ws) ==>
      FromBlocks(disk, ino.block[..12] + ws, off, data)
  {
    assert ReadTo(ino, off, size, |data|);
    hide BlockNo, HoldsWords, InBlocks, FByte, Misses, ReadSize;
    BlocksInOrder(disk, ino, []);
    forall k: nat | k < |data| ensures InBlocks(disk, ino.block[..12], off + k, data[k]) {
      FromHere(disk, ino, ino.block[..12], off, size, data, k);
    }
    forall ws: seq<nat> | HoldsWords(disk, ino.block[12], ws)
      ensures FromBlocks(disk, ino.block[..12] + ws, off, data)
    {
      BlocksInOrder(disk, ino, ws);
      WordCount(disk, ino.block[12], ws);
      forall k: nat | k < |data| ensures InBlocks(disk, ino.block[..12] + ws, off + k, data[k]) {
        FromHere(disk, ino, ino.block[..12] + ws, off, size, data, k);
      }
    }
  }

  lemma WordCount(disk: Disk, m: nat, ws: seq<nat>)
    requires HoldsWords(disk, m, ws)
    ensures |ws| == 256
  {
  }

  lemma FromHere(disk: Disk, ino: Ino, bs: seq<nat>, off: nat, size: nat, data: seq<Byte>, k: nat)
    requires DiskOk(disk) && |ino.block| == 15 && off <= ino.size && k < |data| == ReadSize(ino, off, size)
    requires !Misses(disk, ino, off, size, (off + k) / 1024) && data[k] == FByte(disk, ino, off + k)
    requires forall i: nat :: i < |bs| ==> BlockNo(disk, ino, i) == bs[i]
    ensures InBlocks(disk, bs, off + k, data[k])
  {
    hide BlockNo;
    var i := (off + k) / 1024;
    if i < |bs| {
      assert BlockNo(disk, ino, i) == bs[i];
    }
  }

  lemma Copied(disk: Disk, ino: Ino, off: nat, i: nat, o: nat, cp: nat, out: seq<Byte>, b: Block)
    requires |ino.block| == 15 && |b| == 1024 && o + cp <= 1024
    requires cp > 0 ==> off + |out| == i * 1024 + o
    requires forall x: nat :: x < 1024 ==> FByte(disk, ino, i * 1024 + x) == b[x]
    requires forall k: nat :: k < |out| ==> out[k] == FByte(disk, ino, off + k)
    ensures var out' := out + b[o..o + cp];
      forall k: nat :: k < |out'| ==> out'[k] == FByte(disk, ino, off + k)
  {
    var out' := out + b[o..o + cp];
    hide FByte;
    forall k: nat | k < |out'| ensures out'[k] == FByte(disk, ino, off + k) {
      if k >= |out| {
        var x := o + (k - |out|);
        assert off + k == i * 1024 + x;
        assert out'[k] == b[x];
      }
    }
  }

  // ---- Sound files

  /** File block bi has a block of its own. */
  predicate BlockOk(disk: Disk, bm: Bitmap, ino: Ino, bi: nat)
    requires |ino.block| == 15
  {
    0 < BlockNo(disk, ino, bi) < GROUP && BlockNo(disk, ino, bi) in disk && Used(bm, BlockNo(disk, ino, bi))
  }

  predicate Differ(disk: Disk, ino: Ino, i: nat, j: nat)
    requires |ino.block| == 15
  {
    i != j ==> BlockNo(disk, ino, i) != BlockNo(disk, ino, j)
  }

  /** The first n file blocks are in use, differ from each other and, with more than
      twelve, from the indirect block, which is in use too. */
  ghost predicate Real(disk: Disk, bm: Bitmap, ino: Ino, n: nat) {
    && |ino.block| == 15 && n <= 12 + 256 && 0 in disk
    && (forall bi: nat :: bi < n ==> BlockOk(disk, bm, ino, bi))
    && (forall i: nat, j: nat :: i < n && j < n ==> Differ(disk, ino, i, j))
    && (n > 12 ==> 0 < ino.block[12] < GROUP && ino.block[12] in disk && Used(bm, ino.block[12]))
    && (n > 12 ==> forall bi: nat :: bi < n ==> BlockNo(disk, ino, bi) != ino.block[12])
  }

  /** A sound file of n data blocks.  i_blocks counts the indirect block as well when it
      was made by the file-system tools; the map has no entry for it. */
  ghost predicate FileOk(disk: Disk, bm: Bitmap, ino: Ino, n: nat) {
    && Real(disk, bm, ino, n) && ino.blocks % 2 == 0
    && (NBlock(ino) == n || (n > 12 && NBlock(ino) == n + 1 && Absent(disk, ino, n)))
    && (forall i: nat :: n <= i < 12 ==> ino.block[i] == 0)
    && Min(ino.size, NBlock(ino) * 1024) <= n * 1024
  }

  /** The map holds no block for index bi, or has no word for it. */
  predicate Absent(disk: Disk, ino: Ino, bi: nat)
    requires |ino.block| == 15
  {
    bi < 268 ==> BlockNo(disk, ino, bi) == 0
  }

  /** Every block a sound file counts is on the disk, so no read panics. */
  lemma BlocksThere(disk: Disk, bm: Bitmap, ino: Ino, n: nat)
    requires DiskOk(disk) && FileOk(disk, bm, ino, n)
    ensures forall bi: nat :: bi < NBlock(ino) ==> BlockNo(disk, ino, bi) in disk
    ensures forall off: nat, size: nat, bi: nat :: off <= ino.size ==> !Misses(disk, ino, off, size, bi)
  {
    forall bi: nat | bi < NBlock(ino) ensures BlockNo(disk, ino, bi) in disk {
      if bi < n {
        assert BlockOk(disk, bm, ino, bi);
      }
    }
    hide BlockNo, DiskOk, FileOk;
  }

  /** The file has thirteen data blocks and counts fourteen. */
  lemma CountsItsMap(disk: Disk, bm: Bitmap, ino: Ino)
    requires Real(disk, bm, ino, 13) && ino.blocks == 28 && ino.size <= 13 * 1024
    requires MapWord(disk, ino.block[12], 1) == 0
    ensures FileOk(disk, bm, ino, 13)
  {
  }
}
