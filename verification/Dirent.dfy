/** Directory blocks: the records ext2_dirlink packs into a block of bytes and
  search_dirent_block walks (kernel/ext2.c, little-endian as on disk). */
module Dirent {
  import opened Bits

  type Byte = x: int | 0 <= x < 256
  type Block = seq<Byte>

  /** DIRENT_NAME_MAX bytes hold a name and its NUL. */
  const NAMEMAX: nat := 254

  // ---- Bytes

  function U16(b: Block, p: nat): nat
    requires p + 2 <= |b|
  {
    b[p] as int + b[p + 1] as int * 256
  }

  function U32(b: Block, p: nat): nat
    requires p + 4 <= |b|
  {
    b[p] as int + b[p + 1] as int * 256 + b[p + 2] as int * 65536 + b[p + 3] as int * 16777216
  }

  /** Both are read least byte first. */
  lemma BytesRead(b: Block, p: nat, word: nat)
    ensures p + 2 <= |b| && word < 0x10000 && (forall j :: 0 <= j < 2 ==> b[p + j] as nat == ByteOf(word, j)) ==>
      U16(b, p) == word
    ensures p + 4 <= |b| && word < 0x100000000 && (forall j :: 0 <= j < 4 ==> b[p + j] as nat == ByteOf(word, j)) ==>
      U32(b, p) == word
  {
    BytesGive(word);
    if p + 2 <= |b| && forall j :: 0 <= j < 2 ==> b[p + j] as nat == ByteOf(word, j) {
      assert b[p + 0] as nat == ByteOf(word, 0) && b[p + 1] as nat == ByteOf(word, 1);
    }
    if p + 4 <= |b| && forall j :: 0 <= j < 4 ==> b[p + j] as nat == ByteOf(word, j) {
      assert b[p + 0] as nat == ByteOf(word, 0) && b[p + 1] as nat == ByteOf(word, 1);
      assert b[p + 2] as nat == ByteOf(word, 2) && b[p + 3] as nat == ByteOf(word, 3);
    }
  }

  function Zeros(n: nat): (s: seq<Byte>)
    ensures |s| == n && forall i {:trigger s[i]} :: 0 <= i < n ==> s[i] == 0
  {
    seq(n, i => 0)
  }

  /** The string at the start of a buffer, up to its first NUL. */
  function CStr(s: seq<Byte>): seq<Byte> {
    if s == [] || s[0] == 0 then [] else [s[0]] + CStr(s[1..])
  }

  predicate NoNul(s: seq<Byte>) {
    forall i :: 0 <= i < |s| ==> s[i] != 0
  }

  /** A name copied into a zeroed buffer compares like the name itself. */
  lemma {:induction false} CStrPadded(s: seq<Byte>, t: seq<Byte>)
    requires NoNul(s) && (t == [] || t[0] == 0)
    ensures CStr(s + t) == s
  {
    if s != [] {
      assert (s + t)[1..] == s[1..] + t;
      CStrPadded(s[1..], t);
    } else {
      assert s + t == t;
    }
  }

  predicate Aligned(n: nat) {
    n % 4 == 0
  }

  function Up4(m: nat): (r: nat)
    ensures Aligned(r) && m <= r < m + 4
  {
    (m + 3) / 4 * 4
  }

  // ---- Records

  datatype Rec = Rec(pos: nat, len: nat, inode: nat, name: seq<Byte>, ftype: Byte)

  /** The bytes of the block at r.pos say what r says, and r holds its name. */
  predicate RecAt(b: Block, r: Rec) {
    && Aligned(r.pos) && Aligned(r.len) && 8 + |r.name| <= r.len && r.pos + r.len <= |b|
    && |r.name| <= NAMEMAX && NoNul(r.name) && r.inode > 0
    && U32(b, r.pos) == r.inode && U16(b, r.pos + 4) == r.len && b[r.pos + 6] == |r.name|
    && b[r.pos + 7] == r.ftype && b[r.pos + 8..r.pos + 8 + |r.name|] == r.name
  }

  predicate Follows(recs: seq<Rec>, i: nat)
    requires i + 1 < |recs|
  {
    recs[i + 1].pos == recs[i].pos + recs[i].len
  }

  /** The records tile the block exactly. */
  predicate Tiles(recs: seq<Rec>, size: nat) {
    && |recs| > 0 && recs[0].pos == 0
    && (forall i: nat :: i + 1 < |recs| ==> Follows(recs, i))
    && recs[|recs| - 1].pos + recs[|recs| - 1].len == size
  }

  /** Where the last record's name ends. */
  function NameEnd(r: Rec): nat {
    r.pos + 8 + |r.name|
  }

  /** The last name is followed by a NUL inside the block, for strlen to find. */
  predicate LastNul(b: Block, recs: seq<Rec>)
    requires |recs| > 0
  {
    var e := NameEnd(recs[|recs| - 1]);
    e < |b| && b[e] == 0
  }

  /** The block is a chain of records from its first byte to its last. */
  predicate Tiled(b: Block, recs: seq<Rec>) {
    && Aligned(|b|) && |b| < 65536 && Tiles(recs, |b|)
    && forall i :: 0 <= i < |recs| ==> RecAt(b, recs[i])
  }

  predicate DirBlock(b: Block, recs: seq<Rec>) {
    Tiled(b, recs) && LastNul(b, recs)
  }

  lemma BlockTiled(b: Block, recs: seq<Rec>)
    requires DirBlock(b, recs)
    ensures Tiled(b, recs)
  {
  }

  /** The inode of the first record with the name, or -1. */
  function Find(recs: seq<Rec>, name: seq<Byte>): (r: int)
  {
    if recs == [] then -1
    else if recs[0].name == name then recs[0].inode
    else Find(recs[1..], name)
  }

  /** What is found is the inode of a record of that name, and only absent names are
      not found. */
  lemma {:induction false} FindExact(recs: seq<Rec>, name: seq<Byte>)
    requires forall i :: 0 <= i < |recs| ==> recs[i].inode > 0
    ensures Find(recs, name) > 0 <==> exists i :: 0 <= i < |recs| && recs[i].name == name
    ensures Find(recs, name) > 0 ==>
      exists i :: 0 <= i < |recs| && recs[i].name == name && recs[i].inode == Find(recs, name)
    ensures Find(recs, name) <= 0 ==> Find(recs, name) == -1
  {
    if recs != [] {
      var rest := recs[1..];
      FindExact(rest, name);
      if recs[0].name != name {
        if i :| 0 <= i < |recs| && recs[i].name == name {
          assert rest[i - 1] == recs[i];
        }
        if Find(rest, name) > 0 {
          var i :| 0 <= i < |rest| && rest[i].name == name && rest[i].inode == Find(rest, name);
          assert recs[i + 1] == rest[i];
        }
      } else {
        assert recs[0].inode > 0;
      }
    }
  }

  // ---- Linking, on records

  /** Where the new record goes: after the last name, 4-byte aligned. */
  function Begin(recs: seq<Rec>): nat
    requires |recs| > 0
  {
    Up4(NameEnd(recs[|recs| - 1]))
  }

  /** The last record shrinks to its name, the new one takes the rest of the block. */
  function Append(recs: seq<Rec>, size: nat, inode: nat, name: seq<Byte>, ftype: Byte): seq<Rec>
    requires |recs| > 0 && Begin(recs) <= size
  {
    var last := recs[|recs| - 1];
    recs[..|recs| - 1] +
    [last.(len := Begin(recs) - last.pos), Rec(Begin(recs), size - Begin(recs), inode, name, ftype)]
  }

  /** A new name resolves to its inode, every other name as before. */
  lemma {:induction false} FindAppend(recs: seq<Rec>, size: nat, inode: nat, name: seq<Byte>, ftype: Byte,
                                      other: seq<Byte>)
    requires |recs| > 0 && Begin(recs) <= size
    ensures Find(Append(recs, size, inode, name, ftype), other) ==
      if Find(recs, other) == -1 && other == name then inode else Find(recs, other)
    decreases |recs|
  {
    var a, rest := Append(recs, size, inode, name, ftype), recs[1..];
    if |recs| == 1 {
      assert a == [recs[0].(len := Begin(recs) - recs[0].pos),
                   Rec(Begin(recs), size - Begin(recs), inode, name, ftype)];
      assert a[1..] == [a[1]] && a[1..][1..] == [];
      assert rest == [];
    } else {
      assert a[1..] == Append(rest, size, inode, name, ftype);
      FindAppend(rest, size, inode, name, ftype, other);
    }
  }

  /** The old records keep their inodes, names and types, and the new one comes last. */
  lemma AppendKeeps(recs: seq<Rec>, size: nat, inode: nat, name: seq<Byte>, ftype: Byte)
    requires |recs| > 0 && Begin(recs) <= size
    ensures var a := Append(recs, size, inode, name, ftype);
      && |a| == |recs| + 1 && a[|recs|].inode == inode && a[|recs|].name == name && a[|recs|].ftype == ftype
      && forall i {:trigger a[i]} :: 0 <= i < |recs| ==>
           a[i].inode == recs[i].inode && a[i].name == recs[i].name && a[i].ftype == recs[i].ftype
  {
  }

  predicate Fits(recs: seq<Rec>, size: nat, name: seq<Byte>)
    requires |recs| > 0
  {
    size - NameEnd(recs[|recs| - 1]) > Up4(8 + |name|)
  }

  /** When the check of ext2_dirlink passes the record fits; only its NUL may fall
      on the end of the block, and then the name fills whole words. */
  lemma RoomExact(b: Block, recs: seq<Rec>, name: seq<Byte>)
    requires DirBlock(b, recs) && Fits(recs, |b|, name)
    ensures Begin(recs) + Up4(8 + |name|) <= |b|
    ensures Begin(recs) + 8 + |name| == |b| ==> |name| % 4 == 0 && NameEnd(recs[|recs| - 1]) % 4 != 0
  {
    RoomArith(|b|, NameEnd(recs[|recs| - 1]), |name|);
  }

  /** There is no room exactly when what follows the last name is no longer than the new
      record, in whole words.  The NUL falls behind the block exactly when the name fills whole words, the last
      name does not end on one, and the record takes all the room there is. */
  lemma OverrunExact(b: Block, recs: seq<Rec>, name: seq<Byte>)
    requires DirBlock(b, recs)
    ensures |recs| > 0
    ensures Decide(recs, |b|, name) == Full <==> |b| - NameEnd(recs[|recs| - 1]) <= (11 + |name|) / 4 * 4
    ensures Decide(recs, |b|, name) == Overrun <==>
      && |name| % 4 == 0 && NameEnd(recs[|recs| - 1]) % 4 != 0
      && Begin(recs) + 8 + |name| == |b|
  {
    if Fits(recs, |b|, name) {
      RoomExact(b, recs, name);
    }
    if |name| % 4 == 0 {
      WholeWords(|name|);
    }
  }

  lemma WholeWords(n: nat)
    requires n % 4 == 0
    ensures Up4(8 + n) == 8 + n
  {
  }

  /** A sound block of 24 bytes with the one name "a", and the name "bbbb". */
  lemma OverrunHappens() returns (b: Block, recs: seq<Rec>, name: seq<Byte>)
    ensures DirBlock(b, recs) && |name| == 4 && NoNul(name) && Decide(recs, |b|, name) == Overrun
  {
    b := [1, 0, 0, 0, 24, 0, 1, 0, 97] + Zeros(15);
    recs, name := [Rec(0, 24, 1, [97], 0)], [98, 98, 98, 98];
    assert U32(b, 0) == 1 && U16(b, 4) == 24 && b[8..9] == [97];
    assert RecAt(b, recs[0]);
  }

  lemma RoomArith(size: nat, end: nat, n: nat)
    requires Aligned(size) && size - end > Up4(8 + n)
    ensures Up4(end) + Up4(8 + n) <= size
    ensures Up4(end) + 8 + n == size ==> n % 4 == 0 && end % 4 != 0
  {
    var s, q, u := size / 4, Up4(end) / 4, Up4(8 + n) / 4;
    assert size == 4 * s && Up4(end) == 4 * q && Up4(8 + n) == 4 * u;
    hide Up4;
    if 4 * q + 8 + n == size {
      assert n == 4 * (s - q - 2);
      assert u == s - q;
      assert end != 4 * q;
      Between(end, q);
    }
  }

  lemma Between(end: nat, q: nat)
    requires end < 4 * q < end + 4
    ensures end % 4 != 0
  {
  }

  // ---- Linking, on bytes

  /** Where the bytes of a record with the name at p end, its NUL included unless the
      block ends before it. */
  function Past(size: nat, p: nat, name: seq<Byte>): (e: nat)
    requires p + 8 + |name| <= size
    ensures p + 8 + |name| <= e <= size
  {
    if p + 8 + |name| < size then p + 9 + |name| else size
  }

  /** A record and the NUL after its name, written at p.  A NUL behind the block is not
      a byte of it. */
  function Put(b: Block, p: nat, inode: nat, len: nat, name: seq<Byte>, ftype: Byte): (r: Block)
    requires p + 8 + |name| <= |b| && |name| <= NAMEMAX
    ensures |r| == |b|
  {
    b[..p] + Header(inode, len, |name|, ftype) + name +
    Zeros(Past(|b|, p, name) - (p + 8 + |name|)) + b[Past(|b|, p, name)..]
  }

  /** A base-256 digit of n. */
  function Digit(n: nat, w: nat): Byte
    requires w > 0
  {
    n / w % 256
  }

  lemma PutReads(b: Block, p: nat, inode: nat, len: nat, name: seq<Byte>, ftype: Byte)
    requires p + 8 + |name| <= |b| && |name| <= NAMEMAX && inode < 0x100000000 && len < 65536
    ensures var r := Put(b, p, inode, len, name, ftype);
      && U32(r, p) == inode && U16(r, p + 4) == len && r[p + 6] == |name| && r[p + 7] == ftype
      && r[p + 8..p + 8 + |name|] == name && (p + 8 + |name| < |b| ==> r[p + 8 + |name|] == 0)
      && r[..p] == b[..p] && r[Past(|b|, p, name)..] == b[Past(|b|, p, name)..]
  {
    Digits4(inode);
    Digits2(len);
    hide Digit;
  }

  lemma Digits2(n: nat)
    requires n < 65536
    ensures Digit(n, 1) as int + Digit(n, 256) as int * 256 == n
  {
  }

  lemma Digits4(n: nat)
    requires n < 0x100000000
    ensures Digit(n, 1) as int + Digit(n, 256) as int * 256 + Digit(n, 65536) as int * 65536 +
      Digit(n, 16777216) as int * 16777216 == n
  {
    var a, b, c := n / 256, n / 256 / 256, n / 256 / 256 / 256;
    assert n / 65536 == b && n / 16777216 == c;
    assert n == a * 256 + n % 256 && a == b * 256 + a % 256 && b == c * 256 + b % 256;
    assert c < 256;
  }

  /** Records in the untouched part of the block are still there. */
  lemma RecFrame(b: Block, b': Block, r: Rec, lo: nat, hi: nat)
    requires RecAt(b, r) && |b'| == |b| && lo <= hi <= |b|
    requires b'[..lo] == b[..lo] && b'[hi..] == b[hi..]
    requires r.pos + 8 + |r.name| <= lo || hi <= r.pos
    ensures RecAt(b', r)
  {
    if r.pos + 8 + |r.name| <= lo {
      assert forall i :: 0 <= i < lo ==> b'[i] == b'[..lo][i] && b[i] == b[..lo][i];
    } else {
      assert forall i :: hi <= i < |b| ==> b'[i] == b'[hi..][i - hi] && b[i] == b[hi..][i - hi];
    }
  }

  /** memcpy of name_len + 1 bytes behind the header: the last of them is the NUL, which
      is spilled when the name ends with the block. */
  method PutRecord(blk: array<Byte>, p: nat, inode: nat, len: nat, name: seq<Byte>, ftype: Byte) returns (spilled: bool)
    requires p + 8 + |name| <= blk.Length && |name| <= NAMEMAX
    modifies blk
    ensures blk[..] == Put(old(blk[..]), p, inode, len, name, ftype)
    ensures spilled <==> p + 8 + |name| == blk.Length
  {
    ghost var b := blk[..];
    PutHeader(blk, p, inode, len, |name|, ftype);
    hide Header, Put, Zeros;
    CopyName(blk, p + 8, name);
    NameBehind(b, p, Header(inode, len, |name|, ftype), name);
    LastByte(b, p, inode, len, name, ftype);
    spilled := p + 8 + |name| == blk.Length;
    if !spilled {
      blk[p + 8 + |name|] := 0;
    }
  }

  method CopyName(blk: array<Byte>, q: nat, name: seq<Byte>)
    requires q + |name| <= blk.Length
    modifies blk
    ensures blk[..] == old(blk[..q]) + name + old(blk[q + |name|..])
  {
    ghost var b := blk[..];
    var i := 0;
    while i < |name|
      invariant 0 <= i <= |name|
      invariant blk[..] == b[..q] + name[..i] + b[q + i..]
    {
      Step(b, q, name, i);
      blk[q + i] := name[i];
      i := i + 1;
    }
    assert name[..|name|] == name;
  }

  lemma NameBehind(b: Block, p: nat, header: seq<Byte>, name: seq<Byte>)
    requires p + 8 + |name| <= |b| && |header| == 8
    ensures var c := b[..p] + header + b[p + 8..];
      c[..p + 8] + name + c[p + 8 + |name|..] == b[..p] + header + name + b[p + 8 + |name|..]
  {
  }

  /** The NUL behind the name, if the block has a byte for it. */
  lemma LastByte(b: Block, p: nat, inode: nat, len: nat, name: seq<Byte>, ftype: Byte)
    requires p + 8 + |name| <= |b| && |name| <= NAMEMAX
    ensures var c := b[..p] + Header(inode, len, |name|, ftype) + name + b[p + 8 + |name|..];
      && |c| == |b|
      && Put(b, p, inode, len, name, ftype) == if p + 8 + |name| == |b| then c else c[p + 8 + |name| := 0]
  {
    var e := p + 8 + |name|;
    var front := b[..p] + Header(inode, len, |name|, ftype) + name;
    if e < |b| {
      assert b[e..] == [b[e]] + b[e + 1..];
      assert (front + b[e..])[e := 0] == front + [0] + b[e + 1..];
      assert Zeros(1) == [0];
    } else {
      assert Zeros(0) == [] && b[e..] == [];
    }
  }

  /** One byte of the name copied. */
  lemma Step(b: Block, q: nat, name: seq<Byte>, i: nat)
    requires i < |name| && q + |name| <= |b|
    ensures (b[..q] + name[..i] + b[q + i..])[q + i := name[i]] == b[..q] + name[..i + 1] + b[q + (i + 1)..]
  {
    assert name[..i + 1] == name[..i] + [name[i]];
    assert b[q + i..] == [b[q + i]] + b[q + (i + 1)..];
  }

  function Header(inode: nat, len: nat, n: Byte, ftype: Byte): (h: seq<Byte>)
    ensures |h| == 8
  {
    [Digit(inode, 1), Digit(inode, 256), Digit(inode, 65536), Digit(inode, 16777216), Digit(len, 1), Digit(len, 256),
      n, ftype]
  }

  method PutHeader(blk: array<Byte>, p: nat, inode: nat, len: nat, n: Byte, ftype: Byte)
    requires p + 8 <= blk.Length
    modifies blk
    ensures blk[..] == old(blk[..p]) + Header(inode, len, n, ftype) + old(blk[p + 8..])
  {
    hide Digit;
    ghost var b := blk[..];
    ghost var lo := [Digit(inode, 1), Digit(inode, 256), Digit(inode, 65536), Digit(inode, 16777216)];
    ghost var hi := [Digit(len, 1), Digit(len, 256), n, ftype];
    PutFour(blk, p, Digit(inode, 1), Digit(inode, 256), Digit(inode, 65536), Digit(inode, 16777216));
    PutFour(blk, p + 4, Digit(len, 1), Digit(len, 256), n, ftype);
    TwoWords(b, p, lo, hi);
    assert lo + hi == Header(inode, len, n, ftype);
  }

  lemma TwoWords(b: Block, p: nat, lo: seq<Byte>, hi: seq<Byte>)
    requires p + 8 <= |b| && |lo| == 4 && |hi| == 4
    ensures var c := b[..p] + lo + b[p + 4..];
      c[..p + 4] + hi + c[p + 8..] == b[..p] + (lo + hi) + b[p + 8..]
  {
  }

  method PutFour(blk: array<Byte>, p: nat, w: Byte, x: Byte, y: Byte, z: Byte)
    requires p + 4 <= blk.Length
    modifies blk
    ensures blk[..] == old(blk[..p]) + [w, x, y, z] + old(blk[p + 4..])
  {
    blk[p], blk[p + 1], blk[p + 2], blk[p + 3] := w, x, y, z;
  }

  // ---- search_dirent_block

  /** What the walk reads at record i, and where it goes next. */
  predicate Reads(b: Block, r: Rec, next: nat) {
    && r.pos + 8 + |r.name| <= |b| && |r.name| <= NAMEMAX && NoNul(r.name)
    && U32(b, r.pos) == r.inode && U16(b, r.pos + 4) == r.len > 0 && b[r.pos + 6] == |r.name|
    && b[r.pos + 8..r.pos + 8 + |r.name|] == r.name && r.pos + r.len == next
  }

  function PosOf(recs: seq<Rec>, k: nat, size: nat): nat {
    if k < |recs| then recs[k].pos else size
  }

  lemma TileAt(b: Block, recs: seq<Rec>, i: nat)
    requires Tiled(b, recs) && i < |recs|
    ensures Reads(b, recs[i], PosOf(recs, i + 1, |b|)) && PosOf(recs, i, |b|) == recs[i].pos
  {
    assert RecAt(b, recs[i]);
    assert i + 1 < |recs| ==> Follows(recs, i);
  }

  /** The name search compares: name_len bytes in a zeroed buffer, as a string. */
  function EntryName(b: Block, p: nat): seq<Byte>
    requires p + 8 <= |b| && p + 8 + b[p + 6] <= |b| && b[p + 6] <= NAMEMAX
  {
    CStr(b[p + 8..p + 8 + b[p + 6]] + Zeros(NAMEMAX + 1 - b[p + 6]))
  }

  lemma EntryNameIs(b: Block, r: Rec, next: nat)
    requires Reads(b, r, next)
    ensures EntryName(b, r.pos) == r.name
  {
    CStrPadded(r.name, Zeros(NAMEMAX + 1 - |r.name|));
  }

  function FindFrom(recs: seq<Rec>, name: seq<Byte>, k: nat): int
    requires k <= |recs|
  {
    Find(recs[k..], name)
  }

  lemma FindNext(recs: seq<Rec>, name: seq<Byte>, k: nat)
    requires k <= |recs|
    ensures FindFrom(recs, name, 0) == Find(recs, name)
    ensures k == |recs| ==> FindFrom(recs, name, k) == -1
    ensures k < |recs| ==> FindFrom(recs, name, k) == if recs[k].name == name then recs[k].inode
      else FindFrom(recs, name, k + 1)
  {
    assert recs[0..] == recs;
    if k < |recs| {
      assert recs[k..][1..] == recs[k + 1..];
    }
  }

  /** The record at p, as the walk reads it. */
  method ReadRecord(blk: array<Byte>, p: nat, ghost r: Rec, ghost next: nat) returns (name: seq<Byte>,
                    inode: nat, len: nat)
    requires Reads(blk[..], r, next) && p == r.pos
    ensures name == r.name && inode == r.inode && len > 0 && p + len == next
  {
    EntryNameIs(blk[..], r, next);
    hide EntryName, U16, U32;
    name := EntryName(blk[..], p);
    inode, len := U32(blk[..], p), U16(blk[..], p + 4);
  }

  /** The walk ends at the end of the block and finds the first record of the name. */
  method Search(blk: array<Byte>, name: seq<Byte>, ghost recs: seq<Rec>) returns (r: int)
    requires Tiled(blk[..], recs)
    ensures r == Find(recs, name)
  {
    var bpos := 0;
    ghost var k, b := 0, blk[..];
    hide *;
    FindNext(recs, name, 0);
    AtStart(b, recs);
    while bpos < blk.Length
      invariant 0 <= k <= |recs| && bpos == PosOf(recs, k, |b|)
      invariant Find(recs, name) == FindFrom(recs, name, k)
      decreases |recs| - k
    {
      TileAt(b, recs, k);
      FindNext(recs, name, k);
      var nm, inode, len := ReadRecord(blk, bpos, recs[k], PosOf(recs, k + 1, |b|));
      if nm == name {
        return inode;
      }
      bpos := bpos + len;
      k := k + 1;
    }
    AtEnd(b, recs, k);
    FindNext(recs, name, k);
    return -1;
  }

  lemma AtStart(b: Block, recs: seq<Rec>)
    requires Tiled(b, recs)
    ensures PosOf(recs, 0, |b|) == 0 && |recs| > 0
  {
  }

  lemma AtEnd(b: Block, recs: seq<Rec>, k: nat)
    requires Tiled(b, recs) && k <= |recs|
    ensures k < |recs| ==> PosOf(recs, k, |b|) < |b|
  {
    if k < |recs| {
      assert RecAt(b, recs[k]);
    }
  }

  // ---- ext2_dirlink, within one block

  datatype Outcome = Linked | Full | Overrun

  /** dend = d->name + strlen(d->name): the NUL of the last name is found where the
      record says the name ends. */
  method StrEnd(blk: array<Byte>, p: nat, ghost name: seq<Byte>) returns (e: nat)
    requires p + |name| < blk.Length && blk[p..p + |name|] == name && NoNul(name) && blk[p + |name|] == 0
    ensures e == p + |name|
  {
    e := p;
    while blk[e] != 0
      invariant p <= e <= p + |name|
      invariant e < p + |name| ==> blk[e] == name[e - p]
      decreases p + |name| - e
    {
      e := e + 1;
    }
  }

  lemma LastName(b: Block, recs: seq<Rec>)
    requires DirBlock(b, recs)
    ensures |recs| > 0
    ensures var r := recs[|recs| - 1];
      && NameEnd(r) == r.pos + 8 + |r.name| < |b| && b[NameEnd(r)] == 0
      && NoNul(r.name) && b[r.pos + 8..r.pos + 8 + |r.name|] == r.name
  {
    assert RecAt(b, recs[|recs| - 1]);
  }

  /** The walk to the last record. */
  method LastRecord(blk: array<Byte>, ghost recs: seq<Rec>) returns (d: nat)
    requires DirBlock(blk[..], recs)
    ensures d == recs[|recs| - 1].pos
  {
    var bpos := 0;
    d := 0;
    ghost var k, b := 0, blk[..];
    hide *;
    BlockTiled(b, recs);
    AtStart(b, recs);
    while bpos < blk.Length
      invariant 0 <= k <= |recs| && bpos == PosOf(recs, k, |b|)
      invariant k > 0 ==> d == recs[k - 1].pos
      decreases |recs| - k
    {
      TileAt(b, recs, k);
      d := bpos;
      var nm, inode, len := ReadRecord(blk, bpos, recs[k], PosOf(recs, k + 1, |b|));
      bpos := bpos + len;
      k := k + 1;
    }
    AtEnd(b, recs, k);
  }

  /** Whether a record for the name can follow the last one, and where. */
  method Room(blk: array<Byte>, name: seq<Byte>, ghost recs: seq<Rec>) returns (out: Outcome, d: nat, debegin: nat)
    requires DirBlock(blk[..], recs)
    ensures |recs| > 0 && out == Decide(recs, blk.Length, name) && d == recs[|recs| - 1].pos && debegin == Begin(recs)
  {
    d := LastRecord(blk, recs);
    var dend := LastNameEnd(blk, d, recs);
    if Fits(recs, blk.Length, name) {
      RoomExact(blk[..], recs, name);
    }
    hide DirBlock, Up4;
    debegin := Up4(dend);
    if blk.Length - dend <= Up4(8 + |name|) {
      out := Full;
    } else if debegin + 8 + |name| >= blk.Length {
      out := Overrun;
    } else {
      out := Linked;
    }
  }

  /** Full exactly when the check fails; Overrun when the NUL of the new name would be
      written just past the block. */
  function Decide(recs: seq<Rec>, size: nat, name: seq<Byte>): Outcome
    requires |recs| > 0
  {
    if !Fits(recs, size, name) then Full
    else if Begin(recs) + 8 + |name| == size then Overrun
    else Linked
  }

  /** A block number with its low byte zeroed. */
  function LowCleared(bno: nat): nat {
    bno - bno % 256
  }

  lemma LowByte(bno: nat, k: nat)
    ensures ByteOf(LowCleared(bno), k) == if k == 0 then 0 else ByteOf(bno, k)
  {
    assert LowCleared(bno) == bno / 256 * 256 && LowCleared(bno) / 256 == bno / 256;
  }

  /** The block is the old records and the new one, and its last name has its NUL unless
      that was spilled. */
  predicate HoldsNew(b: Block, recs: seq<Rec>, inode: nat, name: seq<Byte>, ftype: Byte, out: Outcome) {
    && |recs| > 0 && Begin(recs) <= |b| && Tiled(b, Append(recs, |b|, inode, name, ftype))
    && (out == Linked <==> DirBlock(b, Append(recs, |b|, inode, name, ftype)))
  }

  /** The found-space case of ext2_dirlink on a block: the last record is cut after
      its name and the new one put behind it.  An overrun leaves a chain of records all
      the same, but its NUL falls on the low byte of the buffer's block number, which
      struct buf keeps right behind the data. */
  method LinkBlock(blk: array<Byte>, bno: nat, inode: nat, name: seq<Byte>, ftype: Byte,
                   ghost recs: seq<Rec>) returns (out: Outcome, bno': nat)
    requires DirBlock(blk[..], recs) && 0 < inode < 0x100000000 && |name| <= NAMEMAX && NoNul(name)
    modifies blk
    ensures |recs| > 0 && out == Decide(recs, blk.Length, name)
    ensures out == Full ==> blk[..] == old(blk[..])
    ensures out != Full ==> HoldsNew(blk[..], recs, inode, name, ftype, out)
    ensures bno' == if out == Overrun then LowCleared(bno) else bno
  {
    ghost var b := blk[..];
    bno' := bno;
    hide *;
    var d, debegin;
    out, d, debegin := Room(blk, name, recs);
    if out != Full {
      LinkReady(b, recs, d, debegin, inode, name, ftype);
      var spilled := WriteLink(blk, d, debegin, inode, name, ftype);
      if spilled {
        bno' := LowCleared(bno);
      }
    }
  }

  method LastNameEnd(blk: array<Byte>, d: nat, ghost recs: seq<Rec>) returns (e: nat)
    requires DirBlock(blk[..], recs) && d == recs[|recs| - 1].pos
    ensures e == NameEnd(recs[|recs| - 1])
  {
    hide *;
    ghost var b := blk[..];
    BlockTiled(b, recs);
    AtStart(b, recs);
    ghost var last := recs[|recs| - 1];
    LastName(b, recs);
    assert blk[d + 8..d + 8 + |last.name|] == b[d + 8..d + 8 + |last.name|];
    e := StrEnd(blk, d + 8, last.name);
  }

  /** The writes of the found-space case. */
  method WriteLink(blk: array<Byte>, d: nat, debegin: nat, inode: nat, name: seq<Byte>, ftype: Byte)
    returns (spilled: bool)
    requires d + 6 <= blk.Length && d <= debegin && debegin + 8 + |name| <= blk.Length && |name| <= NAMEMAX
    modifies blk
    ensures spilled <==> debegin + 8 + |name| == blk.Length
    ensures blk[..] == LinkedBlock(old(blk[..]), d, debegin, inode, name, ftype)
  {
    ghost var b := blk[..];
    hide Digit, Put;
    var len := debegin - d;
    blk[d + 4], blk[d + 5] := Digit(len, 1), Digit(len, 256);
    assert blk[..] == Cut(b, d, len);
    spilled := PutRecord(blk, debegin, inode, blk.Length - debegin, name, ftype);
  }

  lemma LinkReady(b: Block, recs: seq<Rec>, d: nat, debegin: nat, inode: nat, name: seq<Byte>, ftype: Byte)
    requires DirBlock(b, recs) && 0 < inode < 0x100000000 && |name| <= NAMEMAX && NoNul(name)
    requires Decide(recs, |b|, name) != Full
    requires d == recs[|recs| - 1].pos && debegin == Begin(recs)
    ensures d + 6 <= |b| && d <= debegin && debegin + 8 + |name| <= |b|
    ensures debegin + 8 + |name| == |b| <==> Decide(recs, |b|, name) == Overrun
    ensures HoldsNew(LinkedBlock(b, d, debegin, inode, name, ftype), recs, inode, name, ftype,
                     Decide(recs, |b|, name))
  {
    RoomExact(b, recs, name);
    BlockTiled(b, recs);
    assert Linkable(b, recs, inode, name);
    LinkedSize(b, d, debegin, inode, name, ftype);
    hide Tiled, DirBlock, Linkable, Append, Up4, Begin, LinkedBlock, NoNul;
    Linking(b, recs, d, debegin, inode, name, ftype);
  }

  /** The block with the rec_len field at p set. */
  function Cut(b: Block, p: nat, len: nat): (c: Block)
    requires p + 6 <= |b|
    ensures |c| == |b|
  {
    b[p + 4 := Digit(len, 1)][p + 5 := Digit(len, 256)]
  }

  lemma {:induction false} TilesOrder(b: Block, recs: seq<Rec>, i: nat, j: nat)
    requires Tiled(b, recs) && i < j < |recs|
    ensures recs[i].pos + recs[i].len <= recs[j].pos
    decreases j - i
  {
    hide Aligned, U16, U32, NoNul;
    assert Follows(recs, i);
    if i + 1 < j {
      assert RecAt(b, recs[i + 1]);
      TilesOrder(b, recs, i + 1, j);
    }
  }

  lemma CutReads(b: Block, r: Rec, len: nat)
    requires RecAt(b, r) && len < 65536 && Aligned(len) && 8 + |r.name| <= len && r.pos + len <= |b|
    ensures RecAt(Cut(b, r.pos, len), r.(len := len))
    ensures Cut(b, r.pos, len)[..r.pos + 4] == b[..r.pos + 4] && Cut(b, r.pos, len)[r.pos + 6..] == b[r.pos + 6..]
  {
    Digits2(len);
    var c := Cut(b, r.pos, len);
    assert c[r.pos + 8..r.pos + 8 + |r.name|] == b[r.pos + 8..r.pos + 8 + |r.name|];
  }

  /** The block after linking: the record at d cut at B, the new one put at B. */
  function LinkedBlock(b: Block, d: nat, B: nat, inode: nat, name: seq<Byte>, ftype: Byte): Block
    requires d + 6 <= |b| && d <= B && B + 8 + |name| <= |b| && |name| <= NAMEMAX
  {
    Put(Cut(b, d, B - d), B, inode, |b| - B, name, ftype)
  }

  predicate Linkable(b: Block, recs: seq<Rec>, inode: nat, name: seq<Byte>) {
    && Tiled(b, recs) && 0 < inode < 0x100000000 && |name| <= NAMEMAX && NoNul(name)
    && Begin(recs) + 8 + |name| <= |b|
  }

  predicate Where(recs: seq<Rec>, d: nat, B: nat) {
    |recs| > 0 && d == recs[|recs| - 1].pos && B == Begin(recs)
  }

  lemma LinkableMeans(b: Block, recs: seq<Rec>, d: nat, B: nat, inode: nat, name: seq<Byte>)
    requires Linkable(b, recs, inode, name) && Where(recs, d, B)
    ensures |recs| > 0 && Tiled(b, recs) && 0 < inode < 0x100000000 && NoNul(name) && RecAt(b, recs[|recs| - 1])
    ensures recs[|recs| - 1].pos + 8 + |recs[|recs| - 1].name| <= B && d + 8 <= B && d + 6 <= |b|
    ensures recs[|recs| - 1].pos == d
    ensures B + 8 + |name| <= |b| < 65536 && |name| <= NAMEMAX && Aligned(B) && Aligned(|b|)
    ensures NameEnd(recs[|recs| - 1]) <= B
    ensures Aligned(B - d) && Aligned(|b| - B)
  {
    Whole4(B, d);
    Whole4(|b|, B);
  }

  lemma RecSize(b: Block, recs: seq<Rec>, i: nat)
    requires Tiled(b, recs) && i < |recs|
    ensures RecAt(b, recs[i]) && 8 + |recs[i].name| <= recs[i].len && recs[i].pos + recs[i].len <= |b|
  {
  }

  /** Cutting a later record leaves a record alone. */
  lemma CutKeeps(b: Block, r: Rec, last: Rec, len: nat)
    requires RecAt(b, r) && RecAt(b, last) && r.pos + r.len <= last.pos && len < 65536 && Aligned(len)
    requires 8 + |last.name| <= len && last.pos + len <= |b|
    ensures last.pos + 6 <= |b| && RecAt(Cut(b, last.pos, len), r)
  {
    CutReads(b, last, len);
    hide Cut;
    RecFrame(b, Cut(b, last.pos, len), r, last.pos + 4, last.pos + 6);
  }

  /** So does writing a record behind it. */
  lemma PutKeeps(c: Block, r: Rec, p: nat, inode: nat, len: nat, name: seq<Byte>, ftype: Byte)
    requires RecAt(c, r) && r.pos + 8 + |r.name| <= p && p + 8 + |name| <= |c| && |name| <= NAMEMAX
    requires inode < 0x100000000 && len < 65536
    ensures RecAt(Put(c, p, inode, len, name, ftype), r)
  {
    PutReads(c, p, inode, len, name, ftype);
    hide Put;
    RecFrame(c, Put(c, p, inode, len, name, ftype), r, p, Past(|c|, p, name));
  }

  /** Earlier records are untouched. */
  lemma EarlierKept(b: Block, recs: seq<Rec>, d: nat, B: nat, inode: nat, name: seq<Byte>, ftype: Byte, i: nat)
    requires Linkable(b, recs, inode, name) && i + 1 < |recs| && Where(recs, d, B)
    requires d + 6 <= |b| && d <= B && B + 8 + |name| <= |b| && |name| <= NAMEMAX
    ensures RecAt(LinkedBlock(b, d, B, inode, name, ftype), recs[i])
  {
    hide *;
    LinkableMeans(b, recs, d, B, inode, name);
    RecSize(b, recs, i);
    TilesOrder(b, recs, i, |recs| - 1);
    TwoWrites(b, recs[i], recs[|recs| - 1], B, inode, name, ftype);
  }

  lemma TwoWrites(b: Block, r: Rec, last: Rec, B: nat, inode: nat, name: seq<Byte>, ftype: Byte)
    requires RecAt(b, r) && RecAt(b, last) && r.pos + r.len <= last.pos && 8 + |r.name| <= r.len
    requires last.pos + 8 + |last.name| <= B && Aligned(B - last.pos) && B + 8 + |name| <= |b| < 65536
    requires |name| <= NAMEMAX && inode < 0x100000000
    ensures last.pos + 6 <= |b| && RecAt(LinkedBlock(b, last.pos, B, inode, name, ftype), r)
  {
    hide RecAt, Aligned, Cut, Put;
    CutKeeps(b, r, last, B - last.pos);
    PutKeeps(Cut(b, last.pos, B - last.pos), r, B, inode, |b| - B, name, ftype);
  }

  /** The cut record and the new one read back. */
  lemma NewPair(b: Block, recs: seq<Rec>, d: nat, B: nat, inode: nat, name: seq<Byte>, ftype: Byte)
    requires Linkable(b, recs, inode, name) && Where(recs, d, B)
    requires d + 6 <= |b| && d <= B && B + 8 + |name| <= |b| && |name| <= NAMEMAX
    ensures var r := LinkedBlock(b, d, B, inode, name, ftype);
      && RecAt(r, recs[|recs| - 1].(len := B - d))
      && RecAt(r, Rec(B, |b| - B, inode, name, ftype))
      && (B + 8 + |name| < |b| ==> r[B + 8 + |name|] == 0)
  {
    hide *;
    LinkableMeans(b, recs, d, B, inode, name);
    NewWrites(b, recs[|recs| - 1], B, inode, name, ftype);
  }

  lemma NewWrites(b: Block, last: Rec, B: nat, inode: nat, name: seq<Byte>, ftype: Byte)
    requires RecAt(b, last) && last.pos + 8 + |last.name| <= B && B + 8 + |name| <= |b|
    requires Aligned(B - last.pos) && Aligned(B) && Aligned(|b| - B)
    requires |b| < 65536 && |name| <= NAMEMAX && NoNul(name) && 0 < inode < 0x100000000
    ensures last.pos + 6 <= |b|
    ensures var r := LinkedBlock(b, last.pos, B, inode, name, ftype);
      RecAt(r, last.(len := B - last.pos)) && RecAt(r, Rec(B, |b| - B, inode, name, ftype)) &&
        (B + 8 + |name| < |b| ==> r[B + 8 + |name|] == 0)
  {
    assert last.pos + 6 <= |b|;
    var len := B - last.pos;
    hide RecAt, Aligned, Cut, Put, NoNul;
    CutReads(b, last, len);
    var c := Cut(b, last.pos, len);
    PutKeeps(c, last.(len := len), B, inode, |b| - B, name, ftype);
    PutRec(c, B, inode, |b| - B, name, ftype);
  }

  lemma PutRec(c: Block, p: nat, inode: nat, len: nat, name: seq<Byte>, ftype: Byte)
    requires Aligned(p) && Aligned(len) && 8 + |name| <= len < 65536 && p + len <= |c|
    requires |name| <= NAMEMAX && NoNul(name) && 0 < inode < 0x100000000
    ensures RecAt(Put(c, p, inode, len, name, ftype), Rec(p, len, inode, name, ftype))
    ensures p + 8 + |name| < |c| ==> Put(c, p, inode, len, name, ftype)[p + 8 + |name|] == 0
  {
    PutReads(c, p, inode, len, name, ftype);
    hide Put, U16, U32, NoNul, Aligned;
  }

  lemma AppendTiles(recs: seq<Rec>, size: nat, inode: nat, name: seq<Byte>, ftype: Byte)
    requires Tiles(recs, size) && Begin(recs) <= size && recs[|recs| - 1].pos <= Begin(recs)
    ensures Tiles(Append(recs, size, inode, name, ftype), size)
  {
    var a := Append(recs, size, inode, name, ftype);
    forall i: nat | i + 1 < |a| ensures Follows(a, i) {
      assert i + 1 < |recs| ==> Follows(recs, i);
    }
  }

  lemma AppendAt(recs: seq<Rec>, d: nat, B: nat, size: nat, inode: nat, name: seq<Byte>, ftype: Byte)
    requires Where(recs, d, B) && d <= B <= size
    ensures var a := Append(recs, size, inode, name, ftype);
      && |a| == |recs| + 1 && a[|recs|] == Rec(B, size - B, inode, name, ftype) &&
        a[|recs| - 1] == recs[|recs| - 1].(len := B - d)
      && forall i {:trigger a[i]} :: 0 <= i < |recs| - 1 ==> a[i] == recs[i]
  {
  }

  /** The bytes after linking are those of the extended records. */
  lemma Linking(b: Block, recs: seq<Rec>, d: nat, B: nat, inode: nat, name: seq<Byte>, ftype: Byte)
    requires Linkable(b, recs, inode, name) && |recs| > 0 && d == recs[|recs| - 1].pos && B == Begin(recs)
    ensures d + 6 <= |b| && d <= B && B + 8 + |name| <= |b| && |name| <= NAMEMAX
    ensures Tiled(LinkedBlock(b, d, B, inode, name, ftype), Append(recs, |b|, inode, name, ftype))
    ensures DirBlock(LinkedBlock(b, d, B, inode, name, ftype), Append(recs, |b|, inode, name, ftype)) <==>
      B + 8 + |name| < |b|
  {
    hide *;
    AtPlace(recs, d, B);
    LinkableMeans(b, recs, d, B, inode, name);
    NewPair(b, recs, d, B, inode, name, ftype);
    LinkableTiles(b, recs, inode, name, ftype);
    AppendAt(recs, d, B, |b|, inode, name, ftype);
    LinkedSize(b, d, B, inode, name, ftype);
    var b', a := LinkedBlock(b, d, B, inode, name, ftype), Append(recs, |b|, inode, name, ftype);
    forall i | 0 <= i < |a| ensures RecAt(b', a[i]) {
      if i < |recs| - 1 {
        EarlierKept(b, recs, d, B, inode, name, ftype, i);
      }
    }
    Assembled(b', a);
  }

  lemma AtPlace(recs: seq<Rec>, d: nat, B: nat)
    requires |recs| > 0 && d == recs[|recs| - 1].pos && B == Begin(recs)
    ensures Where(recs, d, B)
  {
  }

  lemma LinkableTiles(b: Block, recs: seq<Rec>, inode: nat, name: seq<Byte>, ftype: Byte)
    requires Linkable(b, recs, inode, name)
    ensures |recs| > 0 && Begin(recs) <= |b| && Tiles(Append(recs, |b|, inode, name, ftype), |b|)
  {
    AppendTiles(recs, |b|, inode, name, ftype);
  }

  lemma LinkedSize(b: Block, d: nat, B: nat, inode: nat, name: seq<Byte>, ftype: Byte)
    requires d + 6 <= |b| && d <= B && B + 8 + |name| <= |b| && |name| <= NAMEMAX
    ensures |LinkedBlock(b, d, B, inode, name, ftype)| == |b|
  {
  }

  lemma Assembled(b: Block, recs: seq<Rec>)
    requires Aligned(|b|) && |b| < 65536 && Tiles(recs, |b|) && |recs| > 0
    requires forall i :: 0 <= i < |recs| ==> RecAt(b, recs[i])
    requires var r := recs[|recs| - 1]; r.pos + 8 + |r.name| < |b| ==> b[r.pos + 8 + |r.name|] == 0
    ensures Tiled(b, recs)
    ensures DirBlock(b, recs) <==> recs[|recs| - 1].pos + 8 + |recs[|recs| - 1].name| < |b|
  {
    hide RecAt, Tiles, Aligned;
  }

  lemma Whole4(size: nat, p: nat)
    requires Aligned(size) && Aligned(p) && p <= size
    ensures Aligned(size - p)
  {
  }

  /** The empty-block case: one record takes the whole block. */
  method LinkEmpty(blk: array<Byte>, inode: nat, name: seq<Byte>, ftype: Byte)
    requires Aligned(blk.Length) && 9 + |name| <= blk.Length < 65536 && 0 < inode < 0x100000000
    requires |name| <= NAMEMAX && NoNul(name)
    modifies blk
    ensures DirBlock(blk[..], [Rec(0, blk.Length, inode, name, ftype)])
  {
    PutReads(blk[..], 0, inode, blk.Length, name, ftype);
    hide Put;
    var spilled := PutRecord(blk, 0, inode, blk.Length, name, ftype);
    assert RecAt(blk[..], Rec(0, blk.Length, inode, name, ftype));
  }

  // ---- Directories of several blocks

  /** ext2_search_dir: the first block that knows the name. */
  function FindDir(rss: seq<seq<Rec>>, name: seq<Byte>): int {
    if rss == [] then -1
    else if Find(rss[0], name) > 0 then Find(rss[0], name)
    else FindDir(rss[1..], name)
  }

  lemma FindDirNext(rss: seq<seq<Rec>>, name: seq<Byte>, k: nat)
    requires k <= |rss|
    ensures k == |rss| ==> FindDir(rss[k..], name) == -1
    ensures k < |rss| ==> FindDir(rss[k..], name) == if Find(rss[k], name) > 0 then Find(rss[k], name)
      else FindDir(rss[k + 1..], name)
  {
    if k < |rss| {
      assert rss[k..][1..] == rss[k + 1..];
    }
  }

  ghost predicate DirTiled(blks: seq<array<Byte>>, rss: seq<seq<Rec>>)
    reads blks
  {
    && |blks| == |rss|
    && (forall i :: 0 <= i < |blks| ==> Tiled(blks[i][..], rss[i]))
    && (forall i, j :: 0 <= i < j < |blks| ==> blks[i] != blks[j])
  }

  /** All blocks are sound: a NUL ends the last name of each. */
  ghost predicate DirBlocks(blks: seq<array<Byte>>, rss: seq<seq<Rec>>)
    reads blks
  {
    DirTiled(blks, rss) && forall i :: 0 <= i < |blks| ==> DirBlock(blks[i][..], rss[i])
  }

  method SearchDir(blks: seq<array<Byte>>, name: seq<Byte>, ghost rss: seq<seq<Rec>>) returns (r: int)
    requires DirTiled(blks, rss)
    ensures r == FindDir(rss, name)
  {
    var i := 0;
    assert rss[0..] == rss;
    hide Tiled, Find;
    while i < |blks|
      invariant 0 <= i <= |blks| && FindDir(rss, name) == FindDir(rss[i..], name)
    {
      FindDirNext(rss, name, i);
      var inum := Search(blks[i], name, rss[i]);
      if inum > 0 {
        return inum;
      }
      i := i + 1;
    }
    FindDirNext(rss, name, i);
    return -1;
  }

  /** Linking into block k makes the new name resolve to its inode and leaves every
      other name, in whatever block, as it was. */
  lemma {:induction false} FindDirAppend(rss: seq<seq<Rec>>, k: nat, size: nat, inode: nat, name: seq<Byte>,
                                         ftype: Byte, other: seq<Byte>)
    requires k < |rss| && |rss[k]| > 0 && Begin(rss[k]) <= size && inode > 0 && FindDir(rss, name) <= 0
    requires forall i, j :: 0 <= i < |rss| && 0 <= j < |rss[i]| ==> rss[i][j].inode > 0
    ensures FindDir(rss[k := Append(rss[k], size, inode, name, ftype)], other) == if other == name then inode
      else FindDir(rss, other)
  {
    var rss' := rss[k := Append(rss[k], size, inode, name, ftype)];
    if k == 0 {
      FindAppend(rss[0], size, inode, name, ftype, other);
      FindExact(rss[0], name);
      FindExact(rss[0], other);
      assert rss'[1..] == rss[1..];
    } else {
      assert rss'[1..] == rss[1..][k - 1 := Append(rss[k], size, inode, name, ftype)];
      FindExact(rss[0], name);
      FindDirAppend(rss[1..], k - 1, size, inode, name, ftype, other);
    }
  }

  datatype DirOutcome = Done | Exists | NoSpace | OutOfBlock | FirstBlock

  lemma InodesPositive(b: Block, recs: seq<Rec>)
    requires Tiled(b, recs)
    ensures |recs| > 0 && forall j :: 0 <= j < |recs| ==> recs[j].inode > 0
  {
    forall j | 0 <= j < |recs| ensures recs[j].inode > 0 {
      assert RecAt(b, recs[j]);
    }
  }

  /** The block the search for free space stops at: the first that is not full. */
  method FirstRoom(blks: seq<array<Byte>>, name: seq<Byte>, ghost rss: seq<seq<Rec>>) returns (out: Outcome, i: nat)
    requires DirBlocks(blks, rss)
    ensures i <= |blks| && forall j :: 0 <= j < i ==> IsFull(blks, rss, j, name)
    ensures out == Full <==> i == |blks|
    ensures i < |blks| ==> |rss[i]| > 0 && out == Decide(rss[i], blks[i].Length, name)
  {
    hide DirBlock, Tiled, Decide, NoNul;
    i := 0;
    while i < |blks|
      invariant 0 <= i <= |blks| && forall j :: 0 <= j < i ==> IsFull(blks, rss, j, name)
    {
      var d, debegin;
      out, d, debegin := Room(blks[i], name, rss[i]);
      if out != Full {
        return;
      }
      i := i + 1;
    }
    out := Full;
  }

  predicate IsFull(blks: seq<array<Byte>>, rss: seq<seq<Rec>>, j: nat, name: seq<Byte>)
    requires j < |blks| == |rss|
  {
    |rss[j]| > 0 && Decide(rss[j], blks[j].Length, name) == Full
  }

  /** All blocks before i are full, and block i decides the outcome. */
  ghost predicate StopsAt(blks: seq<array<Byte>>, rss: seq<seq<Rec>>, name: seq<Byte>, i: nat, o: Outcome)
    requires |blks| == |rss|
  {
    && i < |blks| && (forall j :: 0 <= j < i ==> IsFull(blks, rss, j, name))
    && |rss[i]| > 0 && Decide(rss[i], blks[i].Length, name) == o
  }

  /** Exactly the new name's lookup changes. */
  ghost predicate Resolves(rss: seq<seq<Rec>>, rss': seq<seq<Rec>>, name: seq<Byte>, inode: nat) {
    forall other :: FindDir(rss', other) == if other == name then inode else FindDir(rss, other)
  }

  /** The first block that is not full, as the decision was o, has the new record behind its own. */
  ghost predicate Appended(blks: seq<array<Byte>>, rss: seq<seq<Rec>>, name: seq<Byte>, o: Outcome, inode: nat,
                           ftype: Byte, rss': seq<seq<Rec>>)
    requires |blks| == |rss|
  {
    exists i: nat :: StopsAt(blks, rss, name, i, o) && Begin(rss[i]) <= blks[i].Length &&
      rss' == rss[i := Append(rss[i], blks[i].Length, inode, name, ftype)]
  }

  /** Block i is the first that is not full, and loses the low byte of its number. */
  ghost predicate Spills(blks: seq<array<Byte>>, rss: seq<seq<Rec>>, name: seq<Byte>, bnos: seq<nat>, bnos': seq<nat>)
    requires |blks| == |rss| == |bnos|
  {
    exists i: nat :: StopsAt(blks, rss, name, i, Overrun) && bnos' == bnos[i := LowCleared(bnos[i])]
  }

  /** ext2_dirlink.  A present name is refused; otherwise the first block with room takes
      the record; a directory without blocks gets its first one.  After an overrun the
      buffers still resolve every name, but one of them belongs to another block. */
  method Dirlink(blks: seq<array<Byte>>, bnos: seq<nat>, first: array<Byte>, inode: nat, name: seq<Byte>, ftype: Byte,
                 ghost rss: seq<seq<Rec>>) returns (out: DirOutcome, bnos': seq<nat>, ghost rss': seq<seq<Rec>>)
    requires DirBlocks(blks, rss) && |bnos| == |blks|
    requires 0 < inode < 0x100000000 && |name| <= NAMEMAX && NoNul(name)
    requires Aligned(first.Length) && 9 + |name| <= first.Length < 65536 && first !in blks
    modifies first, set i | 0 <= i < |blks| :: blks[i]
    ensures out == Exists <==> FindDir(rss, name) > 0
    ensures out == FirstBlock <==> blks == []
    ensures out == FirstBlock ==> rss' == [[Rec(0, first.Length, inode, name, ftype)]] && DirBlocks([first], rss')
    ensures out == Exists || out == NoSpace ==> rss' == rss
    ensures out == Done || out == OutOfBlock ==> Resolves(rss, rss', name, inode)
    ensures out == Done ==> Appended(blks, rss, name, Linked, inode, ftype, rss')
    ensures out == OutOfBlock ==> Appended(blks, rss, name, Overrun, inode, ftype, rss')
    ensures out != FirstBlock ==> DirTiled(blks, rss')
    ensures out != FirstBlock && out != OutOfBlock ==> DirBlocks(blks, rss') && bnos' == bnos
    ensures out == NoSpace ==> forall j :: 0 <= j < |blks| ==> IsFull(blks, rss, j, name)
    ensures out == OutOfBlock ==> Spills(blks, rss, name, bnos, bnos')
  {
    rss', bnos' := rss, bnos;
    var found := SearchDir(blks, name, rss);
    hide DirBlock, Tiled, Find, NoNul, Decide, Begin, Append, Resolves, Spills, IsFull, StopsAt, Appended;
    if found > 0 {
      return Exists, bnos, rss;
    }
    if |blks| == 0 {
      LinkEmpty(first, inode, name, ftype);
      BlockTiled(first[..], [Rec(0, first.Length, inode, name, ftype)]);
      return FirstBlock, bnos, [[Rec(0, first.Length, inode, name, ftype)]];
    }
    out, bnos', rss' := LinkRoom(blks, bnos, inode, name, ftype, rss);
  }

  /** The search for free space and the link, for a new name. */
  method LinkRoom(blks: seq<array<Byte>>, bnos: seq<nat>, inode: nat, name: seq<Byte>, ftype: Byte,
                  ghost rss: seq<seq<Rec>>) returns (out: DirOutcome, bnos': seq<nat>, ghost rss': seq<seq<Rec>>)
    requires DirBlocks(blks, rss) && |bnos| == |blks| && FindDir(rss, name) <= 0
    requires 0 < inode < 0x100000000 && |name| <= NAMEMAX && NoNul(name)
    modifies set i | 0 <= i < |blks| :: blks[i]
    ensures out == Done || out == NoSpace || out == OutOfBlock
    ensures out == NoSpace ==> rss' == rss && forall j :: 0 <= j < |blks| ==> IsFull(blks, rss, j, name)
    ensures out != NoSpace ==> Resolves(rss, rss', name, inode)
    ensures out == Done ==> Appended(blks, rss, name, Linked, inode, ftype, rss')
    ensures out == OutOfBlock ==> Appended(blks, rss, name, Overrun, inode, ftype, rss')
    ensures DirTiled(blks, rss') && (out != OutOfBlock ==> DirBlocks(blks, rss') && bnos' == bnos)
    ensures out == OutOfBlock ==> Spills(blks, rss, name, bnos, bnos')
  {
    var o, i := FirstRoom(blks, name, rss);
    if o == Full {
      return NoSpace, bnos, rss;
    }
    assert StopsAt(blks, rss, name, i, o) && |rss| == |blks| == |bnos| && i < |blks|;
    AllPositive(blks, rss);
    hide *;
    var bno;
    bno, rss' := LinkInto(blks, i, o, bnos[i], inode, name, ftype, rss);
    FindsAll(rss, i, blks[i].Length, inode, name, ftype);
    StoppedAt(blks, i, o, inode, name, ftype, rss, bnos, bno);
    bnos' := bnos[i := bno];
    out := if o == Overrun then OutOfBlock else Done;
  }

  method LinkInto(blks: seq<array<Byte>>, i: nat, o: Outcome, bno: nat, inode: nat, name: seq<Byte>, ftype: Byte,
                  ghost rss: seq<seq<Rec>>) returns (bno': nat, ghost rss': seq<seq<Rec>>)
    requires DirBlocks(blks, rss) && 0 < inode < 0x100000000 && |name| <= NAMEMAX && NoNul(name)
    requires StopsAt(blks, rss, name, i, o) && o != Full
    modifies blks[i]
    ensures i < |blks| == |rss| && |rss[i]| > 0 && Begin(rss[i]) <= blks[i].Length
    ensures rss' == rss[i := Append(rss[i], blks[i].Length, inode, name, ftype)]
    ensures DirTiled(blks, rss') && (o == Linked ==> DirBlocks(blks, rss'))
    ensures bno' == if o == Overrun then LowCleared(bno) else bno
  {
    hide DirBlock, Tiled, Find, NoNul, Decide, Begin, Append, FindDir, LowCleared;
    var out;
    out, bno' := LinkBlock(blks[i], bno, inode, name, ftype, rss[i]);
    rss' := rss[i := Append(rss[i], blks[i].Length, inode, name, ftype)];
  }

  lemma StoppedAt(blks: seq<array<Byte>>, i: nat, o: Outcome, inode: nat, name: seq<Byte>, ftype: Byte,
                  rss: seq<seq<Rec>>, bnos: seq<nat>, bno: nat)
    requires |blks| == |rss| == |bnos| && StopsAt(blks, rss, name, i, o) && o != Full
    requires |rss[i]| > 0 && Begin(rss[i]) <= blks[i].Length
    requires bno == if o == Overrun then LowCleared(bnos[i]) else bnos[i]
    ensures Appended(blks, rss, name, o, inode, ftype, rss[i := Append(rss[i], blks[i].Length, inode, name, ftype)])
    ensures if o == Overrun then Spills(blks, rss, name, bnos, bnos[i := bno]) else bnos[i := bno] == bnos
    ensures o == Overrun || o == Linked
  {
  }

  lemma FindsAll(rss: seq<seq<Rec>>, k: nat, size: nat, inode: nat, name: seq<Byte>, ftype: Byte)
    requires k < |rss| && |rss[k]| > 0 && Begin(rss[k]) <= size && inode > 0 && FindDir(rss, name) <= 0
    requires forall i, j :: 0 <= i < |rss| && 0 <= j < |rss[i]| ==> rss[i][j].inode > 0
    ensures Resolves(rss, rss[k := Append(rss[k], size, inode, name, ftype)], name, inode)
  {
    var rss' := rss[k := Append(rss[k], size, inode, name, ftype)];
    forall other ensures FindDir(rss', other) == if other == name then inode else FindDir(rss, other) {
      FindDirAppend(rss, k, size, inode, name, ftype, other);
    }
  }

  lemma AllPositive(blks: seq<array<Byte>>, rss: seq<seq<Rec>>)
    requires DirTiled(blks, rss)
    ensures forall i, j :: 0 <= i < |rss| && 0 <= j < |rss[i]| ==> rss[i][j].inode > 0
  {
    forall i | 0 <= i < |rss| ensures forall j :: 0 <= j < |rss[i]| ==> rss[i][j].inode > 0 {
      InodesPositive(blks[i][..], rss[i]);
    }
  }
}
