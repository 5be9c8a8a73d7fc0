/** The user-level allocator of usr/malloc.c: one circular, address-ordered,
  coalescing free list with a roving pointer.

  Addresses are bytes.  A block is a 16-byte header (`ptr`, `size`) followed by
  its payload, and `size` counts 16-byte units, header included. */
module Malloc {

  const UNIT: nat := 16
  const MINALLOC: nat := 512

  type Field = map<nat, nat>

  /** nunits as the 64-bit expression in malloc computes it. */
  function Units(nbytes: nat): (u: nat)
    ensures u >= 1
  {
    (nbytes + 15) % 0x10000000000000000 / 16 + 1
  }

  /** The argument that sbrk(int) receives for n units. */
  function SbrkArg(n: nat): int {
    (n * 16 + 0x80000000) % 0x100000000 - 0x80000000
  }

  /** The payload holds the request exactly when the sum did not wrap, and is then less
      than one unit larger. */
  lemma PayloadHolds(nbytes: nat)
    requires 0 < nbytes < 0x10000000000000000
    ensures (Units(nbytes) - 1) * 16 >= nbytes <==> nbytes <= 0xfffffffffffffff0
    ensures nbytes <= 0xfffffffffffffff0 ==> (Units(nbytes) - 1) * 16 < nbytes + 16
    ensures nbytes > 0xfffffffffffffff0 ==> Units(nbytes) == 1
  {
  }

  /** The int that sbrk receives is the 64-bit byte count modulo 2^32. */
  lemma ArgExact(n: nat)
    ensures -0x80000000 <= SbrkArg(n) < 0x80000000 && exists k: nat :: n * 16 == SbrkArg(n) + k * 0x100000000
  {
    var k: nat := (n * 16 + 0x80000000) / 0x100000000;
    assert n * 16 == SbrkArg(n) + k * 0x100000000;
  }

  /** A request beyond the wrap is granted one bare header and no payload. */
  lemma WrappedRequest()
    ensures Units(0xffffffffffffffff) == 1
  {
  }

  /** Requests for which malloc is sound: the payload fits and sbrk is asked for
      what the new block claims to hold. */
  lemma SoundRequests(nbytes: nat)
    requires 0 < nbytes < 0x10000000000000000
    ensures (Units(nbytes) - 1) * 16 >= nbytes && SbrkArg(Units(nbytes)) == Units(nbytes) * 16
      <==> nbytes <= 0x7fffffe0
  {
  }

  /** 2^32 bytes: the truncated argument asks for one unit only. */
  lemma TruncatedRequest()
    ensures Units(0x100000000) * 16 == 0x100000010 && SbrkArg(Units(0x100000000)) == 16
  {
  }

  // ---- The free list

  function At(f: Field, a: nat): nat {
    if a in f then f[a] else 0
  }

  function End(size: Field, a: nat): nat {
    a + At(size, a) * 16
  }

  ghost predicate Ascending(s: seq<nat>) {
    forall i, j :: 0 <= i < j < |s| ==> s[i] < s[j]
  }

  /** The index after i on the circle of n blocks. */
  function Succ(i: nat, n: nat): (r: nat)
    ensures i < n ==> r < n
  {
    if i + 1 < n then i + 1 else 0
  }

  /** The pointers visit `blks` in order and return to the first. */
  ghost predicate Linked(ptr: Field, blks: seq<nat>) {
    forall i :: 0 <= i < |blks| ==> LinkAt(ptr, blks, i)
  }

  predicate LinkAt(ptr: Field, blks: seq<nat>, i: nat)
    requires i < |blks|
  {
    blks[i] in ptr && ptr[blks[i]] == blks[Succ(i, |blks|)]
  }

  /** Every block after `base` is non-empty and ends before the next begins. */
  ghost predicate Spaced(size: Field, base: nat, blks: seq<nat>) {
    && |blks| >= 1 && blks[0] == base && 0 < base && At(size, base) == 0
    && (forall i :: 1 <= i < |blks| ==> At(size, blks[i]) >= 1 && blks[i] >= base + 16)
    && (forall i, j :: 1 <= i < j < |blks| ==> Apart(size, blks, i, j))
  }

  predicate Apart(size: Field, blks: seq<nat>, i: nat, j: nat)
    requires i < j < |blks|
  {
    End(size, blks[i]) < blks[j]
  }

  lemma SpacedAscending(size: Field, base: nat, blks: seq<nat>)
    requires Spaced(size, base, blks)
    ensures Ascending(blks)
  {
    forall i, j | 0 <= i < j < |blks| ensures blks[i] < blks[j] {
      if i >= 1 {
        assert Apart(size, blks, i, j);
      }
    }
  }

  /** One circle in ascending address order, no two free blocks overlapping or
      abutting. */
  ghost predicate ListOk(ptr: Field, size: Field, base: nat, blks: seq<nat>) {
    Linked(ptr, blks) && Spaced(size, base, blks)
  }

  /** Byte x belongs to a free block. */
  ghost predicate InFree(size: Field, blks: seq<nat>, x: nat) {
    exists i :: 1 <= i < |blks| && blks[i] <= x < End(size, blks[i])
  }

  function LiveEnd(live: Field, a: nat): nat {
    a + At(live, a) * 16
  }

  /** Byte x belongs to a block handed out and not yet freed. */
  ghost predicate InLive(live: Field, x: nat) {
    exists a :: a in live && a <= x < LiveEnd(live, a)
  }

  /** Live blocks carry their size, are non-empty, lie above `base`, and share
      no byte with each other or with a free block. */
  ghost predicate LiveOk(size: Field, base: nat, blks: seq<nat>, live: Field) {
    && (forall a :: a in live ==> live[a] >= 1 && At(size, a) == live[a] && a >= base + 16)
    && (forall a, b :: a in live && b in live && a != b ==> LiveEnd(live, a) <= b || LiveEnd(live, b) <= a)
    && (forall a, x: nat :: a in live && a <= x < LiveEnd(live, a) ==> !InFree(size, blks, x))
  }

  /** The bytes obtained from sbrk are exactly those of free and of live blocks,
      and all lie below the break. */
  ghost predicate Covers(size: Field, blks: seq<nat>, live: Field, owned: iset<nat>, brk: int) {
    && (forall x: nat :: x in owned <==> InFree(size, blks, x) || InLive(live, x))
    && (forall x: nat :: x in owned ==> x < brk)
  }

  // ---- Inserting a block: the search and the relinking of free()

  /** Block g is the last one at or below address a: the gap a belongs in. */
  ghost predicate Gap(blks: seq<nat>, g: nat, a: nat) {
    && g < |blks| && blks[g] < a
    && (g + 1 < |blks| ==> a < blks[g + 1])
  }

  lemma {:induction false} GapExists(blks: seq<nat>, a: nat, n: nat) returns (g: nat)
    requires Ascending(blks) && 1 <= n <= |blks| && blks[0] < a && a !in blks
    requires n < |blks| ==> a < blks[n]
    ensures Gap(blks, g, a)
    decreases n
  {
    if blks[n - 1] < a {
      g := n - 1;
    } else {
      assert blks[n - 1] != a;
      g := GapExists(blks, a, n - 1);
    }
  }

  lemma GapUnique(blks: seq<nat>, g: nat, h: nat, a: nat)
    requires Ascending(blks) && Gap(blks, g, a) && Gap(blks, h, a)
    ensures g == h
  {
  }

  /** Steps from i to g along the circle. */
  function Steps(i: nat, g: nat, n: nat): nat
    requires i < n && g < n
  {
    if i <= g then g - i else n - i + g
  }

  /** A block of the live set about to be inserted: its bytes are nobody else's. */
  ghost predicate Loose(size: Field, base: nat, blks: seq<nat>, bp: nat) {
    && At(size, bp) >= 1 && bp >= base + 16
    && (forall i :: 1 <= i < |blks| ==> End(size, bp) <= blks[i] || End(size, blks[i]) <= bp)
  }

  lemma LooseGap(ptr: Field, size: Field, base: nat, blks: seq<nat>, bp: nat) returns (g: nat)
    requires ListOk(ptr, size, base, blks) && Loose(size, base, blks, bp)
    ensures Gap(blks, g, bp) && Ascending(blks)
    ensures g >= 1 ==> End(size, blks[g]) <= bp
    ensures g + 1 < |blks| ==> End(size, bp) <= blks[g + 1]
  {
    SpacedAscending(size, base, blks);
    g := GapExists(blks, bp, |blks|);
  }

  /** What free leaves behind: a sound list whose free bytes are the old ones and
      those of the block, in which one block covers the freed one. */
  ghost predicate FreedInto(ptr: Field, size: Field, blks: seq<nat>, bp: nat, ptr': Field, size': Field,
                            base: nat, blks': seq<nat>) {
    && ListOk(ptr', size', base, blks')
    && (forall x: nat :: InFree(size', blks', x) <==> InFree(size, blks, x) || bp <= x < End(size, bp))
    && (exists i :: 1 <= i < |blks'| && blks'[i] <= bp && End(size, bp) <= End(size', blks'[i]))
  }

  // The block touches neither neighbour.

  function WithNew(blks: seq<nat>, g: nat, bp: nat): (s: seq<nat>)
    requires g < |blks|
    ensures |s| == |blks| + 1
    ensures forall i {:trigger s[i]} :: 0 <= i < |s| ==>
      s[i] == if i <= g then blks[i] else if i == g + 1 then bp else blks[i - 1]
  {
    blks[..g + 1] + [bp] + blks[g + 1..]
  }

  lemma InsertAlone(ptr: Field, size: Field, base: nat, blks: seq<nat>, g: nat, bp: nat)
    requires ListOk(ptr, size, base, blks) && Loose(size, base, blks, bp) && Gap(blks, g, bp)
    requires g >= 1 ==> End(size, blks[g]) < bp
    requires g + 1 < |blks| ==> End(size, bp) < blks[g + 1]
    ensures FreedInto(ptr, size, blks, bp, ptr[bp := blks[Succ(g, |blks|)]][blks[g] := bp], size, base,
      WithNew(blks, g, bp))
  {
    SpacedAscending(size, base, blks);
    WithNewLinked(ptr, blks, g, bp);
    WithNewSpaced(size, base, blks, g, bp);
    hide Linked, Spaced, Ascending, InFree, Loose, Gap, WithNew;
    var blks' := WithNew(blks, g, bp);
    forall x: nat ensures InFree(size, blks', x) <==> InFree(size, blks, x) || bp <= x < End(size, bp) {
      WithNewBytes(size, blks, g, bp, x);
    }
    assert blks'[g + 1] == bp;
  }

  lemma WithNewLinked(ptr: Field, blks: seq<nat>, g: nat, bp: nat)
    requires Linked(ptr, blks) && Ascending(blks) && Gap(blks, g, bp)
    ensures Linked(ptr[bp := blks[Succ(g, |blks|)]][blks[g] := bp], WithNew(blks, g, bp))
  {
    GapOutside(blks, g, bp);
    var n, s := |blks|, WithNew(blks, g, bp);
    var ptr' := ptr[bp := blks[Succ(g, n)]][blks[g] := bp];
    hide WithNew, Ascending;
    forall i | 0 <= i < |s| ensures LinkAt(ptr', s, i) {
      var k := if i <= g then i else i - 1;
      if k != g {
        AscendingAt(blks, if k < g then k else g, if k < g then g else k);
        assert LinkAt(ptr, blks, k);
      }
    }
  }

  lemma AscendingAt(blks: seq<nat>, i: nat, j: nat)
    requires Ascending(blks) && i < j < |blks|
    ensures blks[i] < blks[j]
  {
  }

  lemma GapOutside(blks: seq<nat>, g: nat, bp: nat)
    requires Ascending(blks) && Gap(blks, g, bp)
    ensures bp !in blks
  {
    forall i | 0 <= i < |blks| ensures blks[i] != bp {
      if i < g {
        assert blks[i] < blks[g];
      } else if i > g + 1 {
        assert blks[g + 1] < blks[i];
      }
    }
  }

  lemma WithNewSpaced(size: Field, base: nat, blks: seq<nat>, g: nat, bp: nat)
    requires Spaced(size, base, blks) && Ascending(blks) && Loose(size, base, blks, bp) && Gap(blks, g, bp)
    requires g >= 1 ==> End(size, blks[g]) < bp
    requires g + 1 < |blks| ==> End(size, bp) < blks[g + 1]
    ensures Spaced(size, base, WithNew(blks, g, bp))
  {
    var s := WithNew(blks, g, bp);
    hide WithNew, Ascending;
    forall i, j | 1 <= i < j < |s| ensures Apart(size, s, i, j) {
      if i != g + 1 && j != g + 1 {
        assert Apart(size, blks, if i <= g then i else i - 1, if j <= g then j else j - 1);
      } else if j == g + 1 && i < g {
        assert Apart(size, blks, i, g);
      } else if i == g + 1 && j > g + 2 {
        AscendingAt(blks, g + 1, j - 1);
      }
    }
  }

  lemma WithNewBytes(size: Field, blks: seq<nat>, g: nat, bp: nat, x: nat)
    requires g < |blks|
    ensures InFree(size, WithNew(blks, g, bp), x) <==> InFree(size, blks, x) || bp <= x < End(size, bp)
  {
    var blks' := WithNew(blks, g, bp);
    hide WithNew;
    if InFree(size, blks, x) {
      var i :| 1 <= i < |blks| && blks[i] <= x < End(size, blks[i]);
      assert blks'[if i <= g then i else i + 1] == blks[i];
    }
    if bp <= x < End(size, bp) {
      assert blks'[g + 1] == bp;
    }
    if InFree(size, blks', x) {
      var i :| 1 <= i < |blks'| && blks'[i] <= x < End(size, blks'[i]);
      if i != g + 1 {
        assert blks[if i <= g then i else i - 1] == blks'[i];
      }
    }
  }

  // The block's predecessor absorbs it.

  lemma InsertJoinPrev(ptr: Field, size: Field, base: nat, blks: seq<nat>, g: nat, bp: nat)
    requires ListOk(ptr, size, base, blks) && Loose(size, base, blks, bp) && Gap(blks, g, bp)
    requires g >= 1 && End(size, blks[g]) == bp
    requires g + 1 < |blks| ==> End(size, bp) < blks[g + 1]
    ensures FreedInto(ptr, size, blks, bp,
      ptr[bp := blks[Succ(g, |blks|)]][blks[g] := blks[Succ(g, |blks|)]],
      size[blks[g] := At(size, blks[g]) + At(size, bp)], base, blks)
  {
    SpacedAscending(size, base, blks);
    var size' := size[blks[g] := At(size, blks[g]) + At(size, bp)];
    var ptr' := ptr[bp := blks[Succ(g, |blks|)]][blks[g] := blks[Succ(g, |blks|)]];
    GapOutside(blks, g, bp);
    assert Linked(ptr', blks) by {
      hide Ascending;
      forall i | 0 <= i < |blks| ensures LinkAt(ptr', blks, i) {
        assert LinkAt(ptr, blks, i);
        if i != g {
          AscendingAt(blks, if i < g then i else g, if i < g then g else i);
        }
      }
    }
    assert Spaced(size', base, blks) by {
      hide Ascending;
      forall i, j | 1 <= i < j < |blks| ensures Apart(size', blks, i, j) {
        assert Apart(size, blks, i, j);
        if i == g && j > g + 1 {
          AscendingAt(blks, g + 1, j);
        } else if i != g {
          AscendingAt(blks, if i < g then i else g, if i < g then g else i);
        }
      }
    }
    forall x: nat ensures InFree(size', blks, x) <==> InFree(size, blks, x) || bp <= x < End(size, bp) {
      JoinPrevBytes(size, blks, g, bp, x);
    }
    hide Linked, Spaced, Ascending, Loose, Gap, ListOk;
  }

  lemma JoinPrevBytes(size: Field, blks: seq<nat>, g: nat, bp: nat, x: nat)
    requires 1 <= g < |blks| && End(size, blks[g]) == bp && Ascending(blks)
    ensures var size' := size[blks[g] := At(size, blks[g]) + At(size, bp)];
      InFree(size', blks, x) <==> InFree(size, blks, x) || bp <= x < End(size, bp)
  {
    var size' := size[blks[g] := At(size, blks[g]) + At(size, bp)];
    assert End(size', blks[g]) == End(size, bp);
    forall i | 0 <= i < |blks| && i != g ensures End(size', blks[i]) == End(size, blks[i]) {
      AscendingAt(blks, if i < g then i else g, if i < g then g else i);
    }
    hide Ascending;
  }

  // ---- Taking a block out of the list

  function WithoutAt(blks: seq<nat>, g: nat): (s: seq<nat>)
    requires g < |blks|
    ensures |s| == |blks| - 1
    ensures forall i {:trigger s[i]} :: 0 <= i < |s| ==> s[i] == if i < g then blks[i] else blks[i + 1]
  {
    blks[..g] + blks[g + 1..]
  }

  lemma RemoveOk(ptr: Field, size: Field, base: nat, blks: seq<nat>, g: nat)
    requires ListOk(ptr, size, base, blks) && g + 1 < |blks|
    ensures ListOk(ptr[blks[g] := blks[Succ(g + 1, |blks|)]], size, base, WithoutAt(blks, g + 1))
  {
    SpacedAscending(size, base, blks);
    RemoveLinked(ptr, blks, g);
    RemoveSpaced(size, base, blks, g);
  }

  lemma RemoveLinked(ptr: Field, blks: seq<nat>, g: nat)
    requires Linked(ptr, blks) && Ascending(blks) && g + 1 < |blks|
    ensures Linked(ptr[blks[g] := blks[Succ(g + 1, |blks|)]], WithoutAt(blks, g + 1))
  {
    var s, ptr' := WithoutAt(blks, g + 1), ptr[blks[g] := blks[Succ(g + 1, |blks|)]];
    hide WithoutAt, Ascending;
    forall i | 0 <= i < |s| ensures LinkAt(ptr', s, i) {
      var k := if i <= g then i else i + 1;
      assert LinkAt(ptr, blks, k);
      if k != g {
        AscendingAt(blks, if k < g then k else g, if k < g then g else k);
      }
    }
  }

  lemma RemoveSpaced(size: Field, base: nat, blks: seq<nat>, g: nat)
    requires Spaced(size, base, blks) && g + 1 < |blks|
    ensures Spaced(size, base, WithoutAt(blks, g + 1))
  {
    var s := WithoutAt(blks, g + 1);
    hide WithoutAt;
    forall i, j | 1 <= i < j < |s| ensures Apart(size, s, i, j) {
      assert Apart(size, blks, if i <= g then i else i + 1, if j <= g then j else j + 1);
    }
  }

  lemma RemoveBytes(size: Field, base: nat, blks: seq<nat>, g: nat, x: nat)
    requires Spaced(size, base, blks) && g + 1 < |blks|
    ensures InFree(size, WithoutAt(blks, g + 1), x) <==>
      InFree(size, blks, x) && !(blks[g + 1] <= x < End(size, blks[g + 1]))
  {
    var s := WithoutAt(blks, g + 1);
    hide WithoutAt;
    if InFree(size, s, x) {
      var i :| 1 <= i < |s| && s[i] <= x < End(size, s[i]);
      var k := if i <= g then i else i + 1;
      assert blks[k] == s[i];
      assert if k < g + 1 then Apart(size, blks, k, g + 1) else Apart(size, blks, g + 1, k);
    }
    if InFree(size, blks, x) && !(blks[g + 1] <= x < End(size, blks[g + 1])) {
      var i :| 1 <= i < |blks| && blks[i] <= x < End(size, blks[i]);
      assert s[if i <= g then i else i - 1] == blks[i];
    }
  }

  /** Sizes of blocks outside the list do not matter to it. */
  lemma SizeElsewhere(ptr: Field, size: Field, base: nat, blks: seq<nat>, bp: nat, n: nat)
    requires ListOk(ptr, size, base, blks) && bp !in blks
    ensures ListOk(ptr, size[bp := n], base, blks)
    ensures forall x: nat :: InFree(size[bp := n], blks, x) <==> InFree(size, blks, x)
  {
    var size' := size[bp := n];
    assert forall i :: 0 <= i < |blks| ==> End(size', blks[i]) == End(size, blks[i]);
    forall i, j | 1 <= i < j < |blks| ensures Apart(size', blks, i, j) {
      assert Apart(size, blks, i, j);
    }
  }

  /** A block that runs into its successor can be seen as a longer block to be
      inserted into the list without that successor. */
  function AbsorbPtr(ptr: Field, blks: seq<nat>, g: nat): Field
    requires g + 1 < |blks|
  {
    ptr[blks[g] := blks[Succ(g + 1, |blks|)]]
  }

  function AbsorbSize(size: Field, blks: seq<nat>, g: nat, bp: nat): Field
    requires g + 1 < |blks|
  {
    size[bp := At(size, bp) + At(size, blks[g + 1])]
  }

  ghost predicate Absorbed(ptr: Field, size: Field, base: nat, blks: seq<nat>, g: nat, bp: nat)
    requires g + 1 < |blks|
  {
    var rest, ptr', size' := WithoutAt(blks, g + 1), AbsorbPtr(ptr, blks, g), AbsorbSize(size, blks, g, bp);
    && ListOk(ptr', size', base, rest) && Loose(size', base, rest, bp) && Gap(rest, g, bp)
    && End(size', bp) == End(size, blks[g + 1]) && End(size', blks[g]) == End(size, blks[g])
    && (g + 1 < |rest| ==> End(size', bp) < rest[g + 1])
    && rest[g] == blks[g] && rest[Succ(g, |rest|)] == blks[Succ(g + 1, |blks|)]
  }

  lemma AbsorbNext(ptr: Field, size: Field, base: nat, blks: seq<nat>, g: nat, bp: nat)
    requires ListOk(ptr, size, base, blks) && Loose(size, base, blks, bp) && Gap(blks, g, bp)
    requires g + 1 < |blks| && End(size, bp) == blks[g + 1]
    ensures Absorbed(ptr, size, base, blks, g, bp)
  {
    SpacedAscending(size, base, blks);
    GapOutside(blks, g, bp);
    AbsorbList(ptr, size, base, blks, g, bp);
    AbsorbLoose(size, base, blks, g, bp);
    if g + 2 < |blks| {
      assert Apart(size, blks, g + 1, g + 2);
    }
    hide Ascending, Linked, Spaced, ListOk, Loose;
  }

  lemma AbsorbList(ptr: Field, size: Field, base: nat, blks: seq<nat>, g: nat, bp: nat)
    requires ListOk(ptr, size, base, blks) && bp !in blks && g + 1 < |blks|
    ensures ListOk(AbsorbPtr(ptr, blks, g), AbsorbSize(size, blks, g, bp), base, WithoutAt(blks, g + 1))
  {
    RemoveOk(ptr, size, base, blks, g);
    var rest := WithoutAt(blks, g + 1);
    hide WithoutAt, Linked, Spaced, ListOk;
    assert bp !in rest;
    SizeElsewhere(AbsorbPtr(ptr, blks, g), size, base, rest, bp, At(size, bp) + At(size, blks[g + 1]));
  }

  lemma AbsorbLoose(size: Field, base: nat, blks: seq<nat>, g: nat, bp: nat)
    requires Spaced(size, base, blks) && Ascending(blks) && Loose(size, base, blks, bp) && Gap(blks, g, bp)
    requires bp !in blks
    requires g + 1 < |blks| && End(size, bp) == blks[g + 1]
    ensures Loose(AbsorbSize(size, blks, g, bp), base, WithoutAt(blks, g + 1), bp)
  {
    var rest, size' := WithoutAt(blks, g + 1), AbsorbSize(size, blks, g, bp);
    hide WithoutAt, Ascending;
    forall i | 1 <= i < |rest| ensures End(size', bp) <= rest[i] || End(size', rest[i]) <= bp {
      if i > g {
        assert Apart(size, blks, g + 1, i + 1);
      } else {
        AscendingUpTo(blks, i, g);
      }
    }
  }

  lemma AbsorbBytes(size: Field, base: nat, blks: seq<nat>, g: nat, bp: nat, x: nat)
    requires Spaced(size, base, blks) && bp !in blks && g + 1 < |blks| && End(size, bp) == blks[g + 1]
    ensures var rest, size' := WithoutAt(blks, g + 1), AbsorbSize(size, blks, g, bp);
      (InFree(size', rest, x) || bp <= x < End(size', bp)) <==> (InFree(size, blks, x) || bp <= x < End(size, bp))
  {
    var rest, size' := WithoutAt(blks, g + 1), AbsorbSize(size, blks, g, bp);
    RemoveBytes(size, base, blks, g, x);
    assert InFree(size', rest, x) <==> InFree(size, rest, x) by {
      assert forall i :: 0 <= i < |rest| ==> End(size', rest[i]) == End(size, rest[i]);
    }
    if blks[g + 1] <= x < End(size, blks[g + 1]) {
      assert InFree(size, blks, x);
    }
  }

  lemma AscendingUpTo(blks: seq<nat>, i: nat, j: nat)
    requires Ascending(blks) && i <= j < |blks|
    ensures blks[i] <= blks[j]
  {
  }

  // ---- The relinking of free(), as field updates

  /** Join bp to the block after p, or point it there. */
  function LinkNext(ptr: Field, size: Field, p: nat, bp: nat): (Field, Field) {
    var next := At(ptr, p);
    if End(size, bp) == next then
      (ptr[bp := At(ptr, next)], size[bp := At(size, bp) + At(size, next)])
    else
      (ptr[bp := next], size)
  }

  /** Join bp to p, or point p at it. */
  function LinkPrev(ptr: Field, size: Field, p: nat, bp: nat): (Field, Field) {
    if End(size, p) == bp then
      (ptr[p := At(ptr, bp)], size[p := At(size, p) + At(size, bp)])
    else
      (ptr[p := bp], size)
  }

  /** Only headers of list blocks and of bp itself were written. */
  ghost predicate HeadersOnly(ptr: Field, size: Field, ptr': Field, size': Field, blks: seq<nat>, bp: nat) {
    forall a :: a !in blks && a != bp ==> At(ptr', a) == At(ptr, a) && At(size', a) == At(size, a)
  }

  /** The second half, for a block that does not reach its successor. */
  lemma InsertShort(ptr: Field, size: Field, base: nat, blks: seq<nat>, g: nat, bp: nat) returns (blks': seq<nat>)
    requires ListOk(ptr, size, base, blks) && Loose(size, base, blks, bp) && Gap(blks, g, bp)
    requires g + 1 < |blks| ==> End(size, bp) < blks[g + 1]
    ensures var ptr1 := ptr[bp := blks[Succ(g, |blks|)]];
      var r := LinkPrev(ptr1, size, blks[g], bp);
      FreedInto(ptr, size, blks, bp, r.0, r.1, base, blks') && blks[g] in blks'
  {
    if End(size, blks[g]) == bp {
      blks' := blks;
      InsertJoinPrev(ptr, size, base, blks, g, bp);
    } else {
      assert g >= 1 ==> End(size, blks[g]) <= bp by {
        if g >= 1 {
          assert End(size, bp) <= blks[g] || End(size, blks[g]) <= bp;
        }
      }
      blks' := WithNew(blks, g, bp);
      InsertAlone(ptr, size, base, blks, g, bp);
      assert blks'[g] == blks[g];
    }
  }

  /** free's relinking inserts the block, whatever it touches. */
  lemma InsertOk(ptr: Field, size: Field, base: nat, blks: seq<nat>, g: nat, bp: nat) returns (blks': seq<nat>)
    requires ListOk(ptr, size, base, blks) && Loose(size, base, blks, bp) && Gap(blks, g, bp)
    ensures var n := LinkNext(ptr, size, blks[g], bp);
      var r := LinkPrev(n.0, n.1, blks[g], bp);
      FreedInto(ptr, size, blks, bp, r.0, r.1, base, blks') && blks[g] in blks' &&
        HeadersOnly(ptr, size, r.0, r.1, blks, bp)
  {
    SpacedAscending(size, base, blks);
    GapOutside(blks, g, bp);
    RelinkHeaders(ptr, size, blks, g, bp);
    ListSpaced(ptr, size, base, blks);
    hide Ascending, Linked, Spaced, ListOk, Loose, FreedInto, HeadersOnly, LinkNext, LinkPrev;
    if g + 1 < |blks| && End(size, bp) == blks[g + 1] {
      blks' := InsertJoining(ptr, size, base, blks, g, bp);
    } else {
      blks' := InsertNotJoining(ptr, size, base, blks, g, bp);
    }
  }

  lemma InsertJoining(ptr: Field, size: Field, base: nat, blks: seq<nat>, g: nat, bp: nat) returns (blks': seq<nat>)
    requires ListOk(ptr, size, base, blks) && Linked(ptr, blks) && Ascending(blks)
    requires Loose(size, base, blks, bp) && Gap(blks, g, bp) && bp !in blks
    requires g + 1 < |blks| && End(size, bp) == blks[g + 1]
    ensures var n := LinkNext(ptr, size, blks[g], bp);
      var r := LinkPrev(n.0, n.1, blks[g], bp);
      FreedInto(ptr, size, blks, bp, r.0, r.1, base, blks') && blks[g] in blks'
  {
    LinkNextJoins(ptr, size, blks, g, bp);
    hide LinkNext, Ascending, Linked, Spaced, ListOk, Loose;
    hide FreedInto, WithoutAt, InFree, LinkPrev, AbsorbPtr, AbsorbSize;
    AbsorbNext(ptr, size, base, blks, g, bp);
    var rest, ptr', size' := WithoutAt(blks, g + 1), AbsorbPtr(ptr, blks, g), AbsorbSize(size, blks, g, bp);
    blks' := InsertShort(ptr', size', base, rest, g, bp);
    AbsorbedResult(ptr, size, base, blks, g, bp, blks');
  }

  lemma LinkNextJoins(ptr: Field, size: Field, blks: seq<nat>, g: nat, bp: nat)
    requires Linked(ptr, blks) && g + 1 < |blks| && End(size, bp) == blks[g + 1]
    ensures LinkNext(ptr, size, blks[g], bp) ==
      (ptr[bp := blks[Succ(g + 1, |blks|)]], AbsorbSize(size, blks, g, bp))
  {
    assert LinkAt(ptr, blks, g) && LinkAt(ptr, blks, g + 1);
  }

  lemma InsertNotJoining(ptr: Field, size: Field, base: nat, blks: seq<nat>, g: nat, bp: nat) returns (blks': seq<nat>)
    requires ListOk(ptr, size, base, blks) && Loose(size, base, blks, bp) && Gap(blks, g, bp)
    requires !(g + 1 < |blks| && End(size, bp) == blks[g + 1])
    ensures var n := LinkNext(ptr, size, blks[g], bp);
      var r := LinkPrev(n.0, n.1, blks[g], bp);
      FreedInto(ptr, size, blks, bp, r.0, r.1, base, blks') && blks[g] in blks'
  {
    assert LinkAt(ptr, blks, g);
    hide Linked, Spaced, ListOk, Loose, FreedInto, LinkPrev;
    SuccessorAhead(ptr, size, base, blks, g, bp);
    blks' := InsertShort(ptr, size, base, blks, g, bp);
  }

  lemma RelinkHeaders(ptr: Field, size: Field, blks: seq<nat>, g: nat, bp: nat)
    requires g < |blks|
    ensures var n := LinkNext(ptr, size, blks[g], bp);
      var r := LinkPrev(n.0, n.1, blks[g], bp);
      HeadersOnly(ptr, size, r.0, r.1, blks, bp)
  {
  }

  lemma SuccessorAhead(ptr: Field, size: Field, base: nat, blks: seq<nat>, g: nat, bp: nat)
    requires ListOk(ptr, size, base, blks) && Loose(size, base, blks, bp) && Gap(blks, g, bp)
    requires !(g + 1 < |blks| && End(size, bp) == blks[g + 1])
    ensures g + 1 < |blks| ==> End(size, bp) < blks[g + 1]
    ensures End(size, bp) != blks[Succ(g, |blks|)]
  {
    if g + 1 < |blks| {
      assert End(size, bp) <= blks[g + 1] || End(size, blks[g + 1]) <= bp;
    }
  }

  lemma AbsorbedResult(ptr: Field, size: Field, base: nat, blks: seq<nat>, g: nat, bp: nat, blks': seq<nat>)
    requires ListOk(ptr, size, base, blks) && Loose(size, base, blks, bp) && bp !in blks
    requires g + 1 < |blks| && End(size, bp) == blks[g + 1] && Ascending(blks)
    requires Absorbed(ptr, size, base, blks, g, bp)
    requires var rest, ptr', size' := WithoutAt(blks, g + 1), AbsorbPtr(ptr, blks, g), AbsorbSize(size, blks, g, bp);
      var r := LinkPrev(ptr'[bp := rest[Succ(g, |rest|)]], size', rest[g], bp);
      FreedInto(ptr', size', rest, bp, r.0, r.1, base, blks')
    ensures var r := LinkPrev(ptr[bp := blks[Succ(g + 1, |blks|)]], AbsorbSize(size, blks, g, bp), blks[g], bp);
      FreedInto(ptr, size, blks, bp, r.0, r.1, base, blks')
  {
    var rest, ptr', size' := WithoutAt(blks, g + 1), AbsorbPtr(ptr, blks, g), AbsorbSize(size, blks, g, bp);
    var r := LinkPrev(ptr'[bp := rest[Succ(g, |rest|)]], size', rest[g], bp);
    LinkPrevOverwrites(ptr, size', blks[g], bp, blks[Succ(g + 1, |blks|)], blks[Succ(g + 1, |blks|)]);
    assert End(size', bp) >= End(size, bp);
    FreedBytes(ptr', size', rest, bp, r.0, r.1, base, blks');
    ListSpaced(ptr, size, base, blks);
    hide ListOk, Linked, Spaced, Loose, Ascending, LinkPrev, WithoutAt, AbsorbPtr, AbsorbSize, Absorbed, InFree;
    forall x: nat ensures InFree(r.1, blks', x) <==> InFree(size, blks, x) || bp <= x < End(size, bp) {
      AbsorbBytes(size, base, blks, g, bp, x);
    }
  }

  lemma LinkPrevOverwrites(ptr: Field, size: Field, p: nat, bp: nat, x: nat, y: nat)
    requires p != bp
    ensures LinkPrev(ptr[p := x][bp := y], size, p, bp) == LinkPrev(ptr[bp := y], size, p, bp)
  {
    var a, b := ptr[p := x][bp := y], ptr[bp := y];
    assert a[p := a[bp]] == b[p := b[bp]] && a[p := bp] == b[p := bp];
  }

  lemma FreedBytes(ptr: Field, size: Field, blks: seq<nat>, bp: nat, ptr': Field, size': Field, base: nat,
                   blks': seq<nat>)
    requires FreedInto(ptr, size, blks, bp, ptr', size', base, blks')
    ensures forall x: nat :: InFree(size', blks', x) <==> InFree(size, blks, x) || bp <= x < End(size, bp)
  {
  }

  lemma ListSpaced(ptr: Field, size: Field, base: nat, blks: seq<nat>)
    requires ListOk(ptr, size, base, blks)
    ensures Spaced(size, base, blks) && Linked(ptr, blks)
  {
  }

  // ---- The heap

  /** A live block is loose: no list block shares a byte with it. */
  lemma LiveIsLoose(ptr: Field, size: Field, base: nat, blks: seq<nat>, live: Field, bp: nat)
    requires ListOk(ptr, size, base, blks) && LiveOk(size, base, blks, live) && bp in live
    ensures Loose(size, base, blks, bp) && bp !in blks
  {
    forall i | 1 <= i < |blks| ensures End(size, bp) <= blks[i] || End(size, blks[i]) <= bp {
      var x := if bp < blks[i] then blks[i] else bp;
      if bp <= x < End(size, bp) && blks[i] <= x < End(size, blks[i]) {
        assert InFree(size, blks, x);
        assert false;
      }
    }
    forall i | 0 <= i < |blks| ensures blks[i] != bp {
    }
  }

  /** Freeing a live block keeps the books. */
  lemma FreeBooks(ptr: Field, size: Field, base: nat, blks: seq<nat>, live: Field, owned: iset<nat>, brk: int,
                  bp: nat, ptr': Field, size': Field, blks': seq<nat>)
    requires ListOk(ptr, size, base, blks) && LiveOk(size, base, blks, live) && Covers(size, blks, live, owned, brk)
    requires bp in live && FreedInto(ptr, size, blks, bp, ptr', size', base, blks')
    requires HeadersOnly(ptr, size, ptr', size', blks, bp)
    ensures LiveOk(size', base, blks', live - {bp}) && Covers(size', blks', live - {bp}, owned, brk)
  {
    var live' := live - {bp};
    forall a | a in live' ensures At(size', a) == live'[a] {
      LiveIsLoose(ptr, size, base, blks, live, a);
    }
    assert End(size, bp) == LiveEnd(live, bp);
    hide ListOk;
    forall a, x: nat | a in live' && a <= x < LiveEnd(live', a) ensures !InFree(size', blks', x) {
      assert LiveEnd(live', a) == LiveEnd(live, a);
    }
    forall x: nat ensures InLive(live', x) <==> InLive(live, x) && !(bp <= x < LiveEnd(live, bp)) {
      FreedByte(size, base, blks, live, bp, x);
    }
    hide InLive, InFree, LiveEnd;
    forall x: nat ensures x in owned <==> InFree(size', blks', x) || InLive(live', x) {
      LiveByte(live, bp, x);
    }
  }

  lemma LiveByte(live: Field, bp: nat, x: nat)
    requires bp in live
    ensures bp <= x < LiveEnd(live, bp) ==> InLive(live, x)
  {
  }

  lemma FreedByte(size: Field, base: nat, blks: seq<nat>, live: Field, bp: nat, x: nat)
    requires LiveOk(size, base, blks, live) && bp in live
    ensures InLive(live - {bp}, x) <==> InLive(live, x) && !(bp <= x < LiveEnd(live, bp))
  {
    var live' := live - {bp};
    if InLive(live', x) {
      var a :| a in live' && a <= x < LiveEnd(live', a);
      assert LiveEnd(live', a) == LiveEnd(live, a);
    }
    if InLive(live, x) && !(bp <= x < LiveEnd(live, bp)) {
      var a :| a in live && a <= x < LiveEnd(live, a);
      assert a in live' && LiveEnd(live', a) == LiveEnd(live, a);
    }
  }

  /** The whole heap: fields, list, live blocks, bytes owned, break. */
  ghost predicate HeapOk(ptr: Field, size: Field, base: nat, blks: seq<nat>, live: Field, owned: iset<nat>, brk: int) {
    && base + 16 <= brk
    && ListOk(ptr, size, base, blks) && LiveOk(size, base, blks, live) && Covers(size, blks, live, owned, brk)
  }

  lemma StepsLeft(i: nat, g: nat, n: nat)
    requires i < n && g < n && i != g
    ensures Steps(Succ(i, n), g, n) == Steps(i, g, n) - 1
  {
  }

  /** The search of free(): away from the gap the loop goes on, at the gap it stops. */
  lemma SearchStep(ptr: Field, size: Field, base: nat, blks: seq<nat>, g: nat, bp: nat, k: nat)
    requires ListOk(ptr, size, base, blks) && Gap(blks, g, bp) && bp >= base && k < |blks|
    ensures var p, next := blks[k], blks[Succ(k, |blks|)];
      && At(ptr, p) == next
      && (k != g ==> !(p < bp < next) && !(next <= p && (p < bp || bp < next)))
      && (k == g ==> p < bp < next || (next <= p && p < bp))
  {
    assert LinkAt(ptr, blks, k);
    SpacedAscending(size, base, blks);
    hide Spaced, Linked;
    if k != g {
      AscendingAt(blks, if k < g then k else g, if k < g then g else k);
    }
    if k < g {
      AscendingUpTo(blks, k + 1, g);
    } else if k > g {
      AscendingUpTo(blks, g + 1, k);
    }
    if k + 1 < |blks| {
      AscendingAt(blks, k, k + 1);
    } else {
      AscendingUpTo(blks, 0, k);
    }
  }

  // ---- Taking units from the list

  function ChunkUnits(nunits: nat): nat {
    if MINALLOC > nunits then MINALLOC else nunits
  }

  /** The bytes sbrk grants for a request. */
  ghost function Chunk(core: nat, nunits: nat): iset<nat> {
    iset x: nat | InBlock(core, ChunkUnits(nunits), x)
  }

  predicate InBlock(b: nat, n: nat, x: nat) {
    b <= x < b + n * 16
  }

  /** A chunk above the break, with its header written, is a live block. */
  lemma FreshChunk(ptr: Field, size: Field, base: nat, blks: seq<nat>, live: Field, owned: iset<nat>, brk: int,
                   core: nat, nunits: nat)
    requires HeapOk(ptr, size, base, blks, live, owned, brk) && core >= brk
    ensures var n := ChunkUnits(nunits);
      HeapOk(ptr, size[core := n], base, blks, live[core := n], owned + Chunk(core, nunits), core + n * 16)
    ensures core !in live && core !in blks
  {
    var n := ChunkUnits(nunits);
    var size', live' := size[core := n], live[core := n];
    BelowBreak(ptr, size, base, blks, live, owned, brk);
    SizeElsewhere(ptr, size, base, blks, core, n);
    assert LiveEnd(live', core) == core + n * 16;
    forall a | a in live ensures LiveEnd(live', a) == LiveEnd(live, a) {
    }
    hide ListOk;
    FreshLive(size, base, blks, live, core, n);
    forall x: nat ensures InLive(live', x) <==> InLive(live, x) || InBlock(core, n, x) {
      GrownByte(live, core, n, x);
    }
    hide InLive, InFree, LiveOk;
  }

  /** The break leaves all the heap below it. */
  ghost predicate BreakOk(base: nat, owned: iset<nat>, brk: int) {
    base + 16 <= brk && forall x: nat :: x in owned ==> x < brk
  }

  /** What sbrk leaves behind when malloc asks it for n units: with a positive argument a
      chunk at core, with any other nothing but a break moved by the argument. */
  ghost predicate AfterSbrk(ptr: Field, size: Field, base: nat, blks: seq<nat>, live: Field, owned: iset<nat>, brk: int,
                            core: nat, n: nat) {
    if SbrkArg(n) > 0 then
      HeapOk(ptr, size[core := n], base, blks, live[core := n], owned + Granted(core, SbrkArg(n)), core + SbrkArg(n))
    else
      HeapOk(ptr, size, base, blks, live, owned, brk + SbrkArg(n))
  }

  /** The heap survives the growth exactly when sbrk was asked for all the bytes the new
      block claims, or was asked for nothing and left the heap below the break. */
  lemma GrowthExact(ptr: Field, size: Field, base: nat, blks: seq<nat>, live: Field, owned: iset<nat>, brk: int,
                    core: nat, n: nat)
    requires HeapOk(ptr, size, base, blks, live, owned, brk) && core >= brk && n >= MINALLOC
    ensures AfterSbrk(ptr, size, base, blks, live, owned, brk, core, n) <==>
      if SbrkArg(n) > 0 then SbrkArg(n) == n * 16 else BreakOk(base, owned, brk + SbrkArg(n))
  {
    assert SbrkArg(n) <= n * 16;
    if SbrkArg(n) == n * 16 {
      FreshChunk(ptr, size, base, blks, live, owned, brk, core, n);
      assert Chunk(core, n) == Granted(core, SbrkArg(n));
    } else if SbrkArg(n) > 0 {
      var x: nat := core + n * 16 - 1;
      assert x < LiveEnd(live[core := n], core);
      assert InLive(live[core := n], x);
      assert x !in owned + Granted(core, SbrkArg(n));
    }
  }

  /** When the heap reaches up to the break, as it does after every growth, a refused
      request is harmless exactly when its argument is not negative; otherwise the next
      chunk, which sbrk puts at the lowered break, runs into the heap. */
  lemma RefusedExact(ptr: Field, size: Field, base: nat, blks: seq<nat>, live: Field, owned: iset<nat>, brk: int,
                     arg: int)
    requires HeapOk(ptr, size, base, blks, live, owned, brk) && arg <= 0 && brk - 1 in owned
    ensures HeapOk(ptr, size, base, blks, live, owned, brk + arg) <==> arg == 0
    ensures arg < 0 ==> exists x: nat :: x in owned && brk + arg <= x < brk
  {
    assert arg < 0 ==> brk - 1 in owned && brk + arg <= brk - 1;
  }

  /** Such a request. */
  lemma NegativeRequest()
    ensures SbrkArg(Units(0xffffffe0)) == -16
  {
  }

  ghost function Granted(core: nat, bytes: nat): iset<nat> {
    iset x: nat | InRange(core, bytes, x)
  }

  predicate InRange(b: nat, bytes: nat, x: nat) {
    b <= x < b + bytes
  }

  lemma FreshLive(size: Field, base: nat, blks: seq<nat>, live: Field, core: nat, n: nat)
    requires LiveOk(size, base, blks, live) && n >= 1 && core >= base + 16 && core !in live
    requires forall i :: 0 <= i < |blks| ==> End(size, blks[i]) <= core
    requires forall a :: a in live ==> LiveEnd(live, a) <= core
    requires forall x: nat :: InFree(size[core := n], blks, x) <==> InFree(size, blks, x)
    ensures LiveOk(size[core := n], base, blks, live[core := n])
  {
    var size', live' := size[core := n], live[core := n];
    forall x: nat | core <= x ensures !InFree(size, blks, x) {
    }
    forall a | a in live ensures LiveEnd(live', a) == LiveEnd(live, a) {
    }
    hide InFree;
    forall a, x: nat | a in live' && a <= x < LiveEnd(live', a) ensures !InFree(size', blks, x) {
      if a == core {
        assert !InFree(size, blks, x);
      } else {
        assert a in live && a <= x < LiveEnd(live, a) ==> !InFree(size, blks, x);
      }
    }
  }

  lemma BelowBreak(ptr: Field, size: Field, base: nat, blks: seq<nat>, live: Field, owned: iset<nat>, brk: int)
    requires HeapOk(ptr, size, base, blks, live, owned, brk)
    ensures forall i :: 0 <= i < |blks| ==> End(size, blks[i]) <= brk && blks[i] < brk
    ensures forall a :: a in live ==> LiveEnd(live, a) <= brk && a < brk
  {
    forall i | 0 <= i < |blks| ensures End(size, blks[i]) <= brk && blks[i] < brk {
      if i >= 1 {
        assert InFree(size, blks, End(size, blks[i]) - 1);
      }
    }
    forall a | a in live ensures LiveEnd(live, a) <= brk && a < brk {
      assert InLive(live, LiveEnd(live, a) - 1);
    }
  }

  lemma GrownByte(live: Field, b: nat, n: nat, x: nat)
    requires b !in live
    ensures InLive(live[b := n], x) <==> InLive(live, x) || InBlock(b, n, x)
  {
    var live' := live[b := n];
    assert LiveEnd(live', b) == b + n * 16;
    if InLive(live, x) {
      var a :| a in live && a <= x < LiveEnd(live, a);
      assert a in live' && LiveEnd(live', a) == LiveEnd(live, a);
    }
    if InLive(live', x) {
      var a :| a in live' && a <= x < LiveEnd(live', a);
      assert a != b ==> LiveEnd(live', a) == LiveEnd(live, a);
    }
  }

  predicate Fits(size: Field, blks: seq<nat>, t: nat, n: nat) {
    t < |blks| && At(size, blks[t]) >= n
  }

  lemma FreedFits(ptr: Field, size: Field, blks: seq<nat>, core: nat, ptr': Field, size': Field, base: nat,
                  blks': seq<nat>, nunits: nat)
    returns (t: nat)
    requires FreedInto(ptr, size, blks, core, ptr', size', base, blks') && At(size, core) == ChunkUnits(nunits)
    ensures Fits(size', blks', t, nunits)
  {
    var i :| 1 <= i < |blks'| && blks'[i] <= core && End(size, core) <= End(size', blks'[i]);
    t := i;
  }

  /** n units at b have left the list. */
  ghost predicate Taken(size: Field, blks: seq<nat>, size': Field, blks': seq<nat>, b: nat, n: nat) {
    && At(size', b) == n
    && (forall x: nat :: InFree(size', blks', x) <==> InFree(size, blks, x) && !InBlock(b, n, x))
    && (forall x: nat :: InBlock(b, n, x) ==> InFree(size, blks, x))
    && (forall a :: a !in blks && a != b ==> At(size', a) == At(size, a))
  }

  lemma TakeWhole(ptr: Field, size: Field, base: nat, blks: seq<nat>, g: nat)
    requires ListOk(ptr, size, base, blks) && g + 1 < |blks|
    ensures ListOk(ptr[blks[g] := blks[Succ(g + 1, |blks|)]], size, base, WithoutAt(blks, g + 1))
    ensures Taken(size, blks, size, WithoutAt(blks, g + 1), blks[g + 1], At(size, blks[g + 1]))
    ensures blks[g] in WithoutAt(blks, g + 1)
  {
    RemoveOk(ptr, size, base, blks, g);
    forall x: nat ensures InFree(size, WithoutAt(blks, g + 1), x) <==>
        InFree(size, blks, x) && !InBlock(blks[g + 1], At(size, blks[g + 1]), x) {
      RemoveBytes(size, base, blks, g, x);
    }
    assert WithoutAt(blks, g + 1)[g] == blks[g];
  }

  function TailOf(size: Field, p: nat, n: nat): nat
    requires n < At(size, p)
  {
    p + (At(size, p) - n) * 16
  }

  lemma TakeTail(ptr: Field, size: Field, base: nat, blks: seq<nat>, t: nat, n: nat)
    requires ListOk(ptr, size, base, blks) && t < |blks| && 1 <= n < At(size, blks[t])
    ensures var p := blks[t];
      var b := TailOf(size, p, n);
      var size' := size[p := At(size, p) - n][b := n];
      ListOk(ptr, size', base, blks) && Taken(size, blks, size', blks, b, n) && b >= base + 16
  {
    var p := blks[t];
    var b := TailOf(size, p, n);
    var short := size[p := At(size, p) - n];
    SpacedAscending(size, base, blks);
    TailOutside(size, base, blks, t, n);
    ShortSpaced(size, base, blks, t, n);
    hide Linked, Ascending, Taken;
    SizeElsewhere(ptr, short, base, blks, b, n);
    assert base <= p && b >= p + 16;
    var size' := short[b := n];
    hide Spaced, ListOk;
    forall x: nat ensures InFree(short, blks, x) <==> InFree(size, blks, x) && !InBlock(b, n, x) {
      TailBytes(size, base, blks, t, n, x);
    }
    hide InFree;
    assert Taken(size, blks, size', blks, b, n) by {
      forall x: nat ensures InBlock(b, n, x) ==> InFree(size, blks, x) {
        TailBytes(size, base, blks, t, n, x);
      }
    }
  }

  lemma ShortSpaced(size: Field, base: nat, blks: seq<nat>, t: nat, n: nat)
    requires Spaced(size, base, blks) && Ascending(blks) && t < |blks| && 1 <= n < At(size, blks[t])
    ensures Spaced(size[blks[t] := At(size, blks[t]) - n], base, blks)
  {
    var short := size[blks[t] := At(size, blks[t]) - n];
    forall i | 0 <= i < |blks| && i != t ensures blks[i] != blks[t] && At(short, blks[i]) == At(size, blks[i]) {
      AscendingAt(blks, if i < t then i else t, if i < t then t else i);
    }
    hide Ascending;
    forall i, j | 1 <= i < j < |blks| ensures Apart(short, blks, i, j) {
      assert Apart(size, blks, i, j);
    }
  }

  lemma TailOutside(size: Field, base: nat, blks: seq<nat>, t: nat, n: nat)
    requires Spaced(size, base, blks) && Ascending(blks) && t < |blks| && 1 <= n < At(size, blks[t])
    ensures TailOf(size, blks[t], n) !in blks
  {
    forall i | 0 <= i < |blks| ensures blks[i] != TailOf(size, blks[t], n) {
      if i > t {
        assert Apart(size, blks, t, i);
      } else {
        AscendingUpTo(blks, i, t);
      }
    }
  }

  lemma TailBytes(size: Field, base: nat, blks: seq<nat>, t: nat, n: nat, x: nat)
    requires Spaced(size, base, blks) && Ascending(blks) && t < |blks| && 1 <= n < At(size, blks[t])
    ensures InFree(size[blks[t] := At(size, blks[t]) - n], blks, x) <==>
      InFree(size, blks, x) && !InBlock(TailOf(size, blks[t], n), n, x)
    ensures InBlock(TailOf(size, blks[t], n), n, x) ==> InFree(size, blks, x)
  {
    var p := blks[t];
    var short := size[p := At(size, p) - n];
    forall i | 0 <= i < |blks| && i != t ensures End(short, blks[i]) == End(size, blks[i]) {
      AscendingAt(blks, if i < t then i else t, if i < t then t else i);
    }
    forall i | 1 <= i < |blks| && i != t && blks[i] <= x < End(size, blks[i]) ensures !(p <= x < End(size, p)) {
      assert if i < t then Apart(size, blks, i, t) else Apart(size, blks, t, i);
    }
  }

  lemma TakeBooks(ptr: Field, size: Field, base: nat, blks: seq<nat>, live: Field, owned: iset<nat>, brk: int,
                  size': Field, blks': seq<nat>, b: nat, n: nat)
    requires HeapOk(ptr, size, base, blks, live, owned, brk) && n >= 1 && b >= base + 16
    requires Taken(size, blks, size', blks', b, n)
    ensures b !in live && LiveOk(size', base, blks', live[b := n]) && Covers(size', blks', live[b := n], owned, brk)
  {
    var live' := live[b := n];
    assert InBlock(b, n, b);
    assert b !in live by {
      assert b in live ==> InFree(size, blks, b) && b < LiveEnd(live, b);
    }
    forall a | a in live ensures At(size', a) == live'[a] {
      LiveIsLoose(ptr, size, base, blks, live, a);
    }
    forall a | a in live ensures LiveEnd(live', a) == LiveEnd(live, a) {
    }
    assert LiveEnd(live', b) == b + n * 16;
    hide ListOk;
    forall a | a in live ensures LiveEnd(live, a) <= b || b + n * 16 <= a {
      var x := if a < b then b else a;
      assert InBlock(b, n, x) ==> InFree(size, blks, x);
      assert a <= x < LiveEnd(live, a) ==> !InFree(size, blks, x);
    }
    hide InFree;
    assert LiveOk(size', base, blks', live') by {
      forall a, x: nat | a in live' && a <= x < LiveEnd(live', a) ensures !InFree(size', blks', x) {
        assert a in live && a <= x < LiveEnd(live, a) ==> !InFree(size, blks, x);
      }
    }
    hide LiveOk;
    forall x: nat ensures InLive(live', x) <==> InLive(live, x) || InBlock(b, n, x) {
      GrownByte(live, b, n, x);
    }
    hide InLive;
  }

  /** Taking a block of exactly n units keeps the heap sound, with a new live block. */
  lemma TakeWholeDone(ptr: Field, size: Field, base: nat, blks: seq<nat>, live: Field, owned: iset<nat>,
                      brk: int, k: nat, n: nat)
    requires HeapOk(ptr, size, base, blks, live, owned, brk) && n >= 1
    requires k + 1 < |blks| && At(size, blks[k + 1]) == n
    ensures var p := blks[k + 1];
      && p >= base + 16 && p !in live && blks[k] in WithoutAt(blks, k + 1)
      && HeapOk(ptr[blks[k] := At(ptr, p)], size, base, WithoutAt(blks, k + 1), live[p := n], owned, brk)
  {
    assert LinkAt(ptr, blks, k + 1);
    assert blks[k + 1] >= base + 16;
    TakeWhole(ptr, size, base, blks, k);
    hide LiveOk, Covers, Taken, WithoutAt, ListOk;
    TakeBooks(ptr, size, base, blks, live, owned, brk, size, WithoutAt(blks, k + 1), blks[k + 1], n);
  }

  /** So does giving up the last n units of a larger one. */
  lemma TakeTailDone(ptr: Field, size: Field, base: nat, blks: seq<nat>, live: Field, owned: iset<nat>,
                     brk: int, t: nat, n: nat)
    requires HeapOk(ptr, size, base, blks, live, owned, brk) && n >= 1
    requires t < |blks| && At(size, blks[t]) > n
    ensures var p := blks[t];
      var b := TailOf(size, p, n);
      && b >= base + 16 && b !in live
      && HeapOk(ptr, size[p := At(size, p) - n][b := n], base, blks, live[b := n], owned, brk)
  {
    TakeTail(ptr, size, base, blks, t, n);
    hide LiveOk, Covers, Taken, ListOk;
    TakeBooks(ptr, size, base, blks, live, owned, brk,
      size[blks[t] := At(size, blks[t]) - n][TailOf(size, blks[t], n) := n], blks, TailOf(size, blks[t], n), n);
  }

  // ---- The search of malloc()

  ghost predicate SomeFits(size: Field, blks: seq<nat>, n: nat) {
    exists t: nat :: Fits(size, blks, t, n)
  }

  /** Every block strictly between f and m on the circle is too small. */
  ghost predicate Searched(size: Field, blks: seq<nat>, f: nat, m: nat, n: nat)
    requires f < |blks| && m < |blks|
  {
    forall i: nat :: i < |blks| && Steps(m, i, |blks|) > Steps(m, f, |blks|) ==> !Fits(size, blks, i, n)
  }

  /** b is the tail of the first block after `freep` that is large enough. */
  ghost predicate NextFit(size: Field, blks: seq<nat>, freep: nat, n: nat, b: nat) {
    exists f: nat, t: nat :: f < |blks| && blks[f] == freep && Fits(size, blks, t, n) &&
      Searched(size, blks, f, t, n) && b == End(size, blks[t]) - n * 16
  }

  lemma OnCircle(ptr: Field, size: Field, base: nat, blks: seq<nat>, live: Field, owned: iset<nat>, brk: int,
                 k: nat, f: nat)
    requires HeapOk(ptr, size, base, blks, live, owned, brk) && k < |blks| && f < |blks|
    ensures At(ptr, blks[k]) == blks[Succ(k, |blks|)]
    ensures blks[k] == blks[f] <==> k == f
    ensures blks[k] > 0
  {
    assert LinkAt(ptr, blks, k);
    SpacedAscending(size, base, blks);
    hide Spaced;
    AscendingUpTo(blks, 0, k);
    if k != f {
      AscendingAt(blks, if k < f then k else f, if k < f then f else k);
    }
  }

  lemma StepsMost(f: nat, i: nat, n: nat)
    requires f < n && i < n
    ensures Steps(Succ(f, n), i, n) <= Steps(Succ(f, n), f, n)
  {
  }

  lemma SearchGoesOn(size: Field, blks: seq<nat>, f: nat, m: nat, n: nat)
    requires f < |blks| && m < |blks| && f != m && Searched(size, blks, f, m, n) && !Fits(size, blks, m, n)
    ensures Searched(size, blks, f, Succ(m, |blks|), n)
  {
    StepsLeft(m, f, |blks|);
    var m' := Succ(m, |blks|);
    forall i: nat | i < |blks| && Steps(m', i, |blks|) > Steps(m', f, |blks|) ensures !Fits(size, blks, i, n) {
      if i != m {
        StepsLeft(m, i, |blks|);
      }
    }
  }

  lemma SearchFails(size: Field, blks: seq<nat>, f: nat, n: nat)
    requires f < |blks| && Searched(size, blks, f, f, n) && !Fits(size, blks, f, n)
    ensures !SomeFits(size, blks, n)
  {
    forall i: nat ensures !Fits(size, blks, i, n) {
      if i < |blks| && i != f {
        assert Steps(f, i, |blks|) > Steps(f, f, |blks|);
      }
    }
  }

  /** The loop of malloc after passing block k, having started at f: before the
      heap grows all blocks passed were too small, afterwards block t is ahead
      and fits. */
  ghost predicate Looking(size: Field, blks: seq<nat>, freep: nat, f: nat, k: nat, grew: bool, t: nat, n: nat) {
    && f < |blks| && k < |blks| && blks[f] == freep
    && (!grew ==> Searched(size, blks, f, Succ(k, |blks|), n))
    && (grew ==> Fits(size, blks, t, n) && Steps(Succ(k, |blks|), t, |blks|) <= Left(k, f, |blks|))
  }

  /** Blocks still to pass before the circuit is complete. */
  function Left(k: nat, f: nat, n: nat): nat
    requires k < n && f < n
  {
    Steps(Succ(k, n), f, n)
  }

  lemma LookStarts(size: Field, blks: seq<nat>, f: nat, n: nat)
    requires f < |blks|
    ensures Looking(size, blks, blks[f], f, f, false, 0, n)
  {
    forall i: nat | i < |blks| ensures Steps(Succ(f, |blks|), i, |blks|) <= Steps(Succ(f, |blks|), f, |blks|) {
      StepsMost(f, i, |blks|);
    }
  }

  lemma LookAgain(size: Field, blks: seq<nat>, freep: nat, n: nat) returns (f: nat, t: nat)
    requires freep in blks && SomeFits(size, blks, n)
    ensures Looking(size, blks, freep, f, f, true, t, n)
  {
    var g: nat, u: nat :| g < |blks| && blks[g] == freep && Fits(size, blks, u, n);
    f, t := g, u;
    StepsMost(f, t, |blks|);
  }

  /** A block that does not fit is passed; after a whole circuit none fits. */
  lemma LookOn(size: Field, blks: seq<nat>, freep: nat, f: nat, k: nat, grew: bool, t: nat, n: nat)
    requires Looking(size, blks, freep, f, k, grew, t, n) && !Fits(size, blks, Succ(k, |blks|), n)
    ensures Succ(k, |blks|) == f ==> !grew && !SomeFits(size, blks, n)
    ensures Succ(k, |blks|) != f ==>
      && Looking(size, blks, freep, f, Succ(k, |blks|), grew, t, n)
      && Left(Succ(k, |blks|), f, |blks|) < Left(k, f, |blks|)
  {
    var m := Succ(k, |blks|);
    hide Searched;
    if m == f {
      assert !grew;
      SearchFails(size, blks, f, n);
    } else {
      StepsLeft(m, f, |blks|);
      if grew {
        StepsLeft(m, t, |blks|);
      } else {
        SearchGoesOn(size, blks, f, m, n);
      }
    }
  }

  lemma LookEnds(size: Field, blks: seq<nat>, freep: nat, f: nat, k: nat, grew: bool, t: nat, n: nat)
    requires Looking(size, blks, freep, f, k, grew, t, n) && Fits(size, blks, Succ(k, |blks|), n)
    ensures SomeFits(size, blks, n)
    ensures !grew ==> NextFit(size, blks, freep, n, End(size, blks[Succ(k, |blks|)]) - n * 16)
  {
  }

  lemma FoundIsNext(ptr: Field, size: Field, base: nat, blks: seq<nat>, k: nat, n: nat)
    requires ListOk(ptr, size, base, blks) && n >= 1 && k < |blks| && At(size, blks[Succ(k, |blks|)]) >= n
    ensures Succ(k, |blks|) == k + 1 < |blks|
  {
  }

  lemma GapSplits(ptr: Field, size: Field, base: nat, blks: seq<nat>, g: nat, bp: nat)
    requires ListOk(ptr, size, base, blks) && Gap(blks, g, bp)
    ensures forall i :: 0 <= i < |blks| ==> blks[i] <= blks[g] || bp < blks[i]
  {
    SpacedAscending(size, base, blks);
    hide ListOk;
    forall i | 0 <= i < |blks| ensures blks[i] <= blks[g] || bp < blks[i] {
      if i <= g {
        AscendingUpTo(blks, i, g);
      } else {
        AscendingUpTo(blks, g + 1, i);
      }
    }
  }

  class Heap {
    const base: nat
    var ptr: Field
    var size: Field
    var freep: nat
    ghost var blks: seq<nat>
    ghost var live: Field
    ghost var owned: iset<nat>
    ghost var brk: int
    // the end of the bytes the list has been told of
    ghost var top: int

    /** Before the first call there is no list; after it, `freep` is on it. */
    ghost predicate Valid()
      reads this
    {
      && 0 < base && base + 16 <= top
      && (freep == 0 ==> live == map[] && blks == [] && owned == iset{})
      && (freep != 0 ==> freep in blks && HeapOk(ptr, size, base, blks, live, owned, top))
    }

    /** Every byte of the heap lies below the break, so sbrk has really given it. */
    ghost predicate Backed()
      reads this
    {
      BreakOk(base, owned, brk)
    }

    constructor (base: nat, brk: int)
      requires 0 < base && base + 16 <= brk
      ensures Valid() && Backed() && live == map[] && owned == iset{} && this.brk == brk && this.base == base
    {
      this.base := base;
      ptr, size, freep := map[], map[], 0;
      blks, live, owned := [], map[], iset{};
      this.brk, this.top := brk, brk;
    }

    method JoinNext(p: nat, bp: nat)
      modifies this`ptr, this`size
      ensures (ptr, size) == LinkNext(old(ptr), old(size), p, bp)
    {
      if bp + At(size, bp) * 16 == At(ptr, p) {
        size := size[bp := At(size, bp) + At(size, At(ptr, p))];
        ptr := ptr[bp := At(ptr, At(ptr, p))];
      } else {
        ptr := ptr[bp := At(ptr, p)];
      }
    }

    method JoinPrev(p: nat, bp: nat)
      modifies this`ptr, this`size
      ensures (ptr, size) == LinkPrev(old(ptr), old(size), p, bp)
    {
      if p + At(size, p) * 16 == bp {
        size := size[p := At(size, p) + At(size, bp)];
        ptr := ptr[p := At(ptr, bp)];
      } else {
        ptr := ptr[p := bp];
      }
    }

    /** free's search: within one circuit it stops at the one gap the block belongs in. */
    method InsertionPoint(bp: nat) returns (p: nat, ghost g: nat)
      requires Valid() && freep != 0 && bp in live
      ensures Gap(blks, g, bp) && p == blks[g]
      ensures p in blks && p < bp && forall i :: 0 <= i < |blks| ==> blks[i] <= p || bp < blks[i]
    {
      LiveIsLoose(ptr, size, base, blks, live, bp);
      g := LooseGap(ptr, size, base, blks, bp);
      ghost var k :| 0 <= k < |blks| && blks[k] == freep;
      hide ListOk, LiveOk, Covers, Loose, Ascending;
      p := freep;
      SearchStep(ptr, size, base, blks, g, bp, k);
      while !(p < bp && bp < At(ptr, p))
        invariant 0 <= k < |blks| && p == blks[k]
        decreases Steps(k, g, |blks|)
      {
        SearchStep(ptr, size, base, blks, g, bp, k);
        if At(ptr, p) <= p && (p < bp || bp < At(ptr, p)) {
          break;
        }
        StepsLeft(k, g, |blks|);
        p := At(ptr, p);
        k := Succ(k, |blks|);
      }
      SearchStep(ptr, size, base, blks, g, bp, k);
      GapSplits(ptr, size, base, blks, g, bp);
    }

    /** free: the block goes back, merged with the neighbours it touches. */
    method Free(p0: nat)
      requires Valid() && (p0 != 0 ==> p0 >= 16 && p0 - 16 in live)
      modifies this
      ensures Valid() && owned == old(owned) && brk == old(brk) && top == old(top)
      ensures p0 == 0 ==> unchanged(this)
      ensures p0 != 0 ==>
        && live == old(live) - {p0 - 16} && freep != 0
        && FreedInto(old(ptr), old(size), old(blks), p0 - 16, ptr, size, base, blks)
        && HeadersOnly(old(ptr), old(size), ptr, size, old(blks), p0 - 16)
    {
      if p0 != 0 {
        FreeBlock(p0 - 16);
      }
    }

    method FreeBlock(bp: nat)
      requires Valid() && bp in live
      modifies this
      ensures Valid() && owned == old(owned) && brk == old(brk) && top == old(top)
      ensures live == old(live) - {bp} && freep != 0
      ensures FreedInto(old(ptr), old(size), old(blks), bp, ptr, size, base, blks)
      ensures HeadersOnly(old(ptr), old(size), ptr, size, old(blks), bp)
    {
      hide HeapOk, Gap, LinkNext, LinkPrev, FreedInto, HeadersOnly;
      ghost var g;
      var p := 0;
      p, g := InsertionPoint(bp);
      ghost var blks' := FreeDone(ptr, size, base, blks, live, owned, top, g, bp);
      JoinNext(p, bp);
      JoinPrev(p, bp);
      freep := p;
      blks, live := blks', live - {bp};
    }

    /** The break after sbrk was asked for nunits: at core, or at NULL, where sbrk has added
        a negative argument to the size of the process all the same. */
    ghost predicate Moved(before: int, nunits: nat, core: nat)
      reads this
    {
      brk == (if core == 0 then before else core) + SbrkArg(ChunkUnits(nunits))
    }

    /** What sbrk has given or taken leaves the heap backed: all of the chunk, or no owned byte. */
    ghost predicate Served(nunits: nat, core: nat)
      reads this
    {
      if core == 0 then BreakOk(base, owned, brk) else SbrkArg(ChunkUnits(nunits)) == ChunkUnits(nunits) * 16
    }

    /** morecore: a new chunk of at least MINALLOC units, handed to free.  The list stays
        sound whatever sbrk was asked for; the memory behind it exists exactly when it was
        Served. */
    method MoreCore(nunits: nat, core: nat) returns (p: nat)
      requires Valid() && Backed() && freep != 0 && nunits >= 1
      requires core != 0 ==> core >= brk && SbrkArg(ChunkUnits(nunits)) > 0
      modifies this
      ensures Valid() && (Backed() <==> Served(nunits, core)) && Moved(old(brk), nunits, core)
      ensures live == old(live) && freep != 0 && p == if core == 0 then 0 else freep
      ensures core == 0 ==> unchanged(this`ptr, this`size, this`freep, this`blks, this`owned)
      ensures core != 0 ==> owned == old(owned) + Chunk(core, nunits) && SomeFits(size, blks, nunits)
    {
      var n := nunits;
      if MINALLOC > n {
        n := MINALLOC;
      }
      if core == 0 {
        brk := brk + SbrkArg(n);
        return 0;
      }
      NewChunk(nunits, core, n);
      return freep;
    }

    /** The header of the chunk, and free() of its payload. */
    method NewChunk(nunits: nat, core: nat, n: nat)
      requires Valid() && Backed() && freep != 0 && nunits >= 1 && n == ChunkUnits(nunits)
      requires core != 0 && core >= brk && SbrkArg(n) > 0
      modifies this
      ensures Valid() && (Backed() <==> SbrkArg(n) == n * 16) && brk == core + SbrkArg(n)
      ensures live == old(live) && freep != 0
      ensures owned == old(owned) + Chunk(core, nunits) && SomeFits(size, blks, nunits)
    {
      hide HeapOk, FreedInto, HeadersOnly, BreakOk, SbrkArg, Chunk;
      MakeHeader(nunits, core, n);
      ghost var size0, blks0, ptr0 := size, blks, ptr;
      Free(core + 16);
      ghost var t := FreedFits(ptr0, size0, blks0, core, ptr, size, base, blks, nunits);
    }

    /** The chunk as a live block of n units. */
    method MakeHeader(nunits: nat, core: nat, n: nat)
      requires Valid() && Backed() && freep != 0 && nunits >= 1 && n == ChunkUnits(nunits)
      requires core != 0 && core >= brk && SbrkArg(n) > 0
      modifies this`size, this`live, this`owned, this`top, this`brk
      ensures Valid() && (Backed() <==> SbrkArg(n) == n * 16) && brk == core + SbrkArg(n)
      ensures core !in old(live) && live == old(live)[core := n] && size == old(size)[core := n] && core !in blks
      ensures owned == old(owned) + Chunk(core, nunits)
    {
      assert n >= 1 && base + 16 <= core + n * 16;
      hide HeapOk, BreakOk, SbrkArg, Chunk;
      UpToBreak(ptr, size, base, blks, live, owned, top, brk);
      FreshChunk(ptr, size, base, blks, live, owned, brk, core, nunits);
      ServedExact(base, owned, brk, core, nunits);
      size := size[core := n];
      owned, live, top, brk := owned + Chunk(core, nunits), live[core := n], core + n * 16, core + SbrkArg(n);
    }

    /** The end of malloc: the found block leaves the list, or gives up its tail. */
    method Take(prev: nat, p0: nat, nunits: nat, ghost k: nat) returns (r: nat)
      requires Valid() && freep != 0 && nunits >= 1
      requires k < |blks| && prev == blks[k] && p0 == blks[Succ(k, |blks|)] && At(size, p0) >= nunits
      modifies this
      ensures Valid() && freep == prev && owned == old(owned) && brk == old(brk) && top == old(top)
      ensures r >= 16 && r - 16 !in old(live) && live == old(live)[r - 16 := nunits]
      ensures r - 16 == End(old(size), p0) - nunits * 16
    {
      var p := p0;
      if At(size, p) == nunits {
        Unlink(prev, p, nunits, k);
      } else {
        p := Split(p, nunits, k);
      }
      freep := prev;
      r := p + 16;
    }

    /** An exact fit leaves the list. */
    method Unlink(prev: nat, p: nat, nunits: nat, ghost k: nat)
      requires Valid() && freep != 0 && nunits >= 1
      requires k < |blks| && prev == blks[k] && p == blks[Succ(k, |blks|)] && At(size, p) == nunits
      modifies this`ptr, this`blks, this`live
      ensures freep != 0 && prev in blks && HeapOk(ptr, size, base, blks, live, owned, top)
      ensures p !in old(live) && live == old(live)[p := nunits] && p == End(size, p) - nunits * 16
    {
      FoundIsNext(ptr, size, base, blks, k, nunits);
      TakeWholeDone(ptr, size, base, blks, live, owned, top, k, nunits);
      hide HeapOk, WithoutAt;
      blks, live := WithoutAt(blks, k + 1), live[p := nunits];
      ptr := ptr[prev := At(ptr, p)];
    }

    /** A larger block keeps its front and gives up its tail q. */
    method Split(p: nat, nunits: nat, ghost k: nat) returns (q: nat)
      requires Valid() && freep != 0 && nunits >= 1
      requires k < |blks| && p == blks[Succ(k, |blks|)] && At(size, p) > nunits
      modifies this`size, this`live
      ensures freep != 0 && blks[k] in blks && HeapOk(ptr, size, base, blks, live, owned, top)
      ensures q !in old(live) && live == old(live)[q := nunits] && q == End(old(size), p) - nunits * 16
    {
      FoundIsNext(ptr, size, base, blks, k, nunits);
      TakeTailDone(ptr, size, base, blks, live, owned, top, k + 1, nunits);
      hide HeapOk;
      live := live[TailOf(size, p, nunits) := nunits];
      size := size[p := At(size, p) - nunits];
      q := p + At(size, p) * 16;
      size := size[q := nunits];
    }

    /** The first call makes a list of the empty block `base`. */
    method Start()
      requires Valid() && freep == 0
      modifies this
      ensures Valid() && freep == base && blks == [base] && size == old(size)[base := 0]
      ensures live == old(live) && owned == old(owned) && brk == old(brk) && top == old(top)
    {
      freep, ptr, size := base, ptr[base := base], size[base := 0];
      blks := [base];
      assert LinkAt(ptr, blks, 0);
    }

    /** The loop of malloc: next fit from `freep`, growing the heap at most once. */
    method Search(nunits: nat, core: nat) returns (r: nat)
      requires Valid() && Backed() && freep != 0 && nunits >= 1
      requires core != 0 ==> core >= brk && SbrkArg(ChunkUnits(nunits)) > 0
      modifies this
      ensures Valid() && (Backed() <==> SomeFits(old(size), old(blks), nunits) || Served(nunits, core))
      ensures r == 0 <==> core == 0 && !SomeFits(old(size), old(blks), nunits)
      ensures r == 0 ==> unchanged(this`ptr, this`size, this`freep, this`blks, this`owned, this`live)
      ensures !SomeFits(old(size), old(blks), nunits) ==> Moved(old(brk), nunits, core)
      ensures r != 0 ==> r >= 16 && r - 16 !in old(live) && live == old(live)[r - 16 := nunits]
      ensures SomeFits(old(size), old(blks), nunits) ==>
        && NextFit(old(size), old(blks), old(freep), nunits, r - 16)
        && owned == old(owned) && brk == old(brk)
      ensures core != 0 && !SomeFits(old(size), old(blks), nunits) ==> owned == old(owned) + Chunk(core, nunits)
    {
      hide HeapOk, SbrkArg, Searched, Looking, Units, ChunkUnits, Chunk, Succ, Steps, BreakOk;
      var prev := freep;
      ghost var f: nat :| f < |blks| && blks[f] == freep;
      LookStarts(size, blks, f, nunits);
      OnCircle(ptr, size, base, blks, live, owned, top, f, f);
      ghost var k: nat, grew, t: nat := f, false, 0;
      var p := At(ptr, prev);
      while At(size, p) < nunits
        invariant Valid() && freep != 0 && live == old(live)
        invariant Looking(size, blks, freep, f, k, grew, t, nunits)
        invariant f < |blks| && blks[f] == freep && k < |blks| && prev == blks[k] && p == blks[Succ(k, |blks|)]
        invariant !grew ==> unchanged(this)
        invariant grew ==> !SomeFits(old(size), old(blks), nunits) && core != 0
        invariant grew ==> owned == old(owned) + Chunk(core, nunits) && Moved(old(brk), nunits, core)
        invariant grew ==> (Backed() <==> Served(nunits, core))
        decreases if grew then 0 else 1, Left(k, f, |blks|)
      {
        OnCircle(ptr, size, base, blks, live, owned, top, Succ(k, |blks|), f);
        LookOn(size, blks, freep, f, k, grew, t, nunits);
        if p == freep {
          p := MoreCore(nunits, core);
          if p == 0 {
            return 0;
          }
          f, t := LookAgain(size, blks, freep, nunits);
          k, grew := f, true;
          OnCircle(ptr, size, base, blks, live, owned, top, f, f);
        } else {
          k := Succ(k, |blks|);
        }
        prev := p;
        p := At(ptr, prev);
      }
      LookEnds(size, blks, freep, f, k, grew, t, nunits);
      r := Take(prev, p, nunits, k);
    }

    /** malloc: a block of Units(nbytes) units that was free or is freshly grown. */
    method Malloc(nbytes: nat, core: nat) returns (r: nat)
      requires Valid() && Backed() && nbytes < 0x10000000000000000
      requires core != 0 ==> core >= brk && (nbytes > 0 ==> SbrkArg(ChunkUnits(Units(nbytes))) > 0)
      modifies this
      ensures nbytes == 0 ==> r == 0 && unchanged(this)
      ensures nbytes > 0 ==> (r == 0 <==> core == 0 && !SomeFits(old(size), old(blks), Units(nbytes)))
      ensures nbytes > 0 && r == 0 ==> live == old(live) && owned == old(owned)
      ensures Valid()
      ensures Backed() <==> nbytes == 0 || SomeFits(old(size), old(blks), Units(nbytes)) || Served(Units(nbytes), core)
      ensures nbytes <= 0x7fffffe0 ==> Backed()
      ensures r != 0 ==> r >= 16 && r - 16 !in old(live) && live == old(live)[r - 16 := Units(nbytes)]
      ensures r != 0 && nbytes <= 0xfffffffffffffff0 ==> nbytes <= (live[r - 16] - 1) * 16 < nbytes + 16
      ensures nbytes > 0 && SomeFits(old(size), old(blks), Units(nbytes)) ==>
        && NextFit(old(size), old(blks), old(freep), Units(nbytes), r - 16)
        && owned == old(owned) && brk == old(brk)
      ensures nbytes > 0 && !SomeFits(old(size), old(blks), Units(nbytes)) ==> Moved(old(brk), Units(nbytes), core)
      ensures nbytes > 0 && core != 0 && !SomeFits(old(size), old(blks), Units(nbytes)) ==>
        owned == old(owned) + Chunk(core, Units(nbytes))
      ensures nbytes > 0 && core != 0 && !SomeFits(old(size), old(blks), Units(nbytes)) ==>
        forall x: nat :: x in owned <==>
          x in old(owned) || (core <= x && (x < core + 8192 || x < core + Units(nbytes) * 16))
    {
      if nbytes == 0 {
        return 0;
      }
      PayloadHolds(nbytes);
      var nunits := Units(nbytes);
      if freep == 0 {
        Start();
      }
      if nbytes <= 0x7fffffe0 {
        SoundRequests(nbytes);
        assert SbrkArg(ChunkUnits(nunits)) == ChunkUnits(nunits) * 16;
      }
      r := Search(nunits, core);
    }
  }

  /** With every owned byte below the break, the break may be taken for the end. */
  lemma UpToBreak(ptr: Field, size: Field, base: nat, blks: seq<nat>, live: Field, owned: iset<nat>, top: int, brk: int)
    requires HeapOk(ptr, size, base, blks, live, owned, top) && BreakOk(base, owned, brk)
    ensures HeapOk(ptr, size, base, blks, live, owned, brk)
  {
    hide ListOk, LiveOk, InFree, InLive;
  }

  /** A chunk is backed exactly when sbrk was asked for all of its bytes. */
  lemma ServedExact(base: nat, owned: iset<nat>, brk: int, core: nat, nunits: nat)
    requires BreakOk(base, owned, brk) && core >= brk && SbrkArg(ChunkUnits(nunits)) > 0
    ensures BreakOk(base, owned + Chunk(core, nunits), core + SbrkArg(ChunkUnits(nunits))) <==>
      SbrkArg(ChunkUnits(nunits)) == ChunkUnits(nunits) * 16
  {
    var n, a := ChunkUnits(nunits), SbrkArg(ChunkUnits(nunits));
    assert a <= n * 16;
    var x: nat := core + n * 16 - 1;
    assert x in owned + Chunk(core, nunits);
  }

  /** Everything free() must re-establish, for the relinked fields. */
  lemma FreeDone(ptr: Field, size: Field, base: nat, blks: seq<nat>, live: Field, owned: iset<nat>, brk: int,
                 g: nat, bp: nat)
    returns (blks': seq<nat>)
    requires HeapOk(ptr, size, base, blks, live, owned, brk) && bp in live && Gap(blks, g, bp)
    ensures var n := LinkNext(ptr, size, blks[g], bp);
      var r := LinkPrev(n.0, n.1, blks[g], bp);
      && HeapOk(r.0, r.1, base, blks', live - {bp}, owned, brk) && blks[g] in blks' && blks[g] > 0
      && FreedInto(ptr, size, blks, bp, r.0, r.1, base, blks')
      && HeadersOnly(ptr, size, r.0, r.1, blks, bp)
  {
    LiveIsLoose(ptr, size, base, blks, live, bp);
    blks' := InsertOk(ptr, size, base, blks, g, bp);
    var n := LinkNext(ptr, size, blks[g], bp);
    var r := LinkPrev(n.0, n.1, blks[g], bp);
    ListAbove(ptr, size, base, blks);
    hide ListOk, LiveOk, Covers, Loose, HeadersOnly, Gap, LinkNext, LinkPrev;
    FreeBooks(ptr, size, base, blks, live, owned, brk, bp, r.0, r.1, blks');
    FreedList(ptr, size, blks, bp, r.0, r.1, base, blks');
    hide FreedInto;
  }

  lemma ListAbove(ptr: Field, size: Field, base: nat, blks: seq<nat>)
    requires ListOk(ptr, size, base, blks)
    ensures 0 < base && forall i :: 0 <= i < |blks| ==> blks[i] >= base
  {
  }

  lemma FreedList(ptr: Field, size: Field, blks: seq<nat>, bp: nat, ptr': Field, size': Field, base: nat,
                  blks': seq<nat>)
    requires FreedInto(ptr, size, blks, bp, ptr', size', base, blks')
    ensures ListOk(ptr', size', base, blks')
  {
  }
}
