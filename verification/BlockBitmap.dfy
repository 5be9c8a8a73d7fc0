/** The block bitmap of the one block group (kernel/ext2.c): which blocks are in use, and
  what taking blocks one by one does. */
module BlockBitmap {
  import opened Sequences

  /** The u32 that a failed allocation leaves where a block number belongs. */
  const NONE: nat := 0xffffffff

  type Bitmap = seq<bv8>

  // ---- The block bitmap

  predicate Bit(c: bv8, i: nat) {
    i < 8 && (c >> i) & 1 == 1
  }

  /** Block k is in use. */
  predicate Used(bm: Bitmap, k: nat) {
    k / 8 < |bm| && Bit(bm[k / 8], k % 8)
  }

  /** c |= 1 << i */
  function SetBit(c: bv8, i: nat): bv8
    requires i < 8
  {
    c | ((1 as bv8) << i)
  }

  lemma SetBitExact(c: bv8, i: nat)
    requires i < 8
    ensures forall j: nat :: j < 8 ==> (Bit(SetBit(c, i), j) <==> i == j || Bit(c, j))
  {
  }

  lemma AllSet(c: bv8)
    requires forall j: nat :: j < 8 ==> Bit(c, j)
    ensures c == 0xff
  {
    assert Bit(c, 0) && Bit(c, 1) && Bit(c, 2) && Bit(c, 3) && Bit(c, 4) && Bit(c, 5) && Bit(c, 6) && Bit(c, 7);
  }

  lemma NoneClear(j: nat)
    requires j < 8
    ensures Bit(0xff, j)
  {
  }

  lemma SomeClear(c: bv8) returns (j: nat)
    requires c != 0xff
    ensures j < 8 && !Bit(c, j)
  {
    if k: nat :| k < 8 && !Bit(c, k) {
      j := k;
    } else {
      AllSet(c);
    }
  }

  lemma BitShift(c: bv8, t: nat)
    requires t < 8
    ensures (c >> t) & 1 == 1 <==> Bit(c, t)
    ensures (c >> t) >> 1 == c >> (t + 1)
  {
  }

  /** The lowest clear bit of a byte that has one. */
  method LowClear(c: bv8) returns (t: nat)
    requires c != 0xff
    ensures t < 8 && !Bit(c, t) && forall j: nat :: j < t ==> Bit(c, j)
  {
    ghost var z := SomeClear(c);
    hide Bit;
    var chunk := c;
    t := 0;
    BitShift(c, 0);
    while chunk & 1 == 1
      invariant t <= z && chunk == c >> t && (chunk & 1 == 1 <==> Bit(c, t))
      invariant forall j: nat :: j < t ==> Bit(c, j)
      decreases z - t
    {
      BitShift(c, t);
      chunk := chunk >> 1;
      t := t + 1;
      BitShift(c, t);
    }
  }

  /** find_free_block: the lowest clear bit, or -1 when there is none. */
  method FindFree(bm: Bitmap) returns (r: int)
    ensures r >= -1
    ensures r == -1 <==> forall k: nat :: k < 8 * |bm| ==> Used(bm, k)
    ensures r != -1 ==> 0 <= r < 8 * |bm| && !Used(bm, r) && forall k: nat :: k < r ==> Used(bm, k)
  {
    var bnum := 0;
    var i := 0;
    while i < |bm| && bm[i] == 0xff
      invariant 0 <= i <= |bm| && bnum == 8 * i
      invariant forall k: nat :: k < 8 * i ==> Used(bm, k)
    {
      forall k: nat | k < 8 * (i + 1) ensures Used(bm, k) {
        if k >= 8 * i {
          NoneClear(k % 8);
          assert k / 8 == i;
        }
      }
      bnum := bnum + 8;
      i := i + 1;
    }
    if i == |bm| {
      return -1;
    }
    var t := LowClear(bm[i]);
    r := bnum + t;
    assert r / 8 == i && r % 8 == t;
    ghost var k: nat := r;
    assert !Used(bm, k);
    forall k: nat | k < r ensures Used(bm, k) {
      if k >= 8 * i {
        assert k / 8 == i && k % 8 < t;
      }
    }
  }

  function MarkUsed(bm: Bitmap, k: nat): (r: Bitmap)
    requires k / 8 < |bm|
    ensures |r| == |bm|
  {
    bm[k / 8 := SetBit(bm[k / 8], k % 8)]
  }

  /** bbmp_write_bit changes one bit. */
  lemma MarkExact(bm: Bitmap, k: nat, j: nat)
    requires k / 8 < |bm|
    ensures Used(MarkUsed(bm, k), j) <==> j == k || Used(bm, j)
  {
    SetBitExact(bm[k / 8], k % 8);
    hide SetBit, Bit;
    if j / 8 == k / 8 {
      assert j == k <==> j % 8 == k % 8;
    }
  }

  /** The loop of bbmp_write_bit that finds the byte of a bit. */
  method WriteBit(bm: Bitmap, bn: nat) returns (r: Bitmap)
    requires bn < 8 * |bm|
    ensures bn / 8 < |bm| && r == MarkUsed(bm, bn)
  {
    var bitn, chunkn := bn, 0;
    while bitn >= 8
      invariant bn == 8 * chunkn + bitn && 0 <= bitn && 0 <= chunkn <= |bm|
    {
      bitn := bitn - 8;
      chunkn := chunkn + 1;
    }
    assert chunkn == bn / 8 && bitn == bn % 8;
    r := bm[chunkn := SetBit(bm[chunkn], bitn)];
  }

  // ---- Allocation

  /** The lowest clear bit from k on, or the end of the bitmap. */
  function FirstFree(bm: Bitmap, k: nat): (r: nat)
    requires k <= 8 * |bm|
    ensures k <= r <= 8 * |bm| && (r < 8 * |bm| ==> !Used(bm, r)) && forall j: nat :: k <= j < r ==> Used(bm, j)
    decreases 8 * |bm| - k
  {
    if k < 8 * |bm| && Used(bm, k) then FirstFree(bm, k + 1) else k
  }

  /** One allocation: the lowest clear block, now in use, or NONE. */
  function AllocOne(bm: Bitmap): (nat, Bitmap) {
    var k := FirstFree(bm, 0);
    if k < 8 * |bm| then (k, MarkUsed(bm, k)) else (NONE, bm)
  }

  /** ext2_alloc_block, its -1 as the caller stores it. */
  method AllocBlock(bm: Bitmap) returns (bn: nat, bm': Bitmap)
    ensures (bn, bm') == AllocOne(bm)
  {
    var r := FindFree(bm);
    ghost var k := FirstFree(bm, 0);
    hide Used;
    if r < 0 {
      return NONE, bm;
    }
    bn := r;
    bm' := WriteBit(bm, bn);
  }

  function AllocN(bm: Bitmap, n: nat): (r: (seq<nat>, Bitmap))
    ensures |r.0| == n
  {
    if n == 0 then ([], bm)
    else
      var r := AllocN(bm, n - 1);
      var a := AllocOne(r.1);
      (r.0 + [a.0], a.1)
  }

  /** bm' is bm with the clear bits bs set. */
  ghost predicate Grown(bm: Bitmap, bm': Bitmap, bs: seq<nat>) {
    && |bm'| == |bm|
    && NoDup(bs)
    && (forall i :: 0 <= i < |bs| ==> bs[i] < 8 * |bm| && !Used(bm, bs[i]))
    && (forall k: nat :: Used(bm', k) <==> Used(bm, k) || k in bs)
  }

  lemma GrownMore(bm: Bitmap, bm': Bitmap, bs: seq<nat>, b: nat)
    requires Grown(bm, bm', bs) && b < 8 * |bm'| && !Used(bm', b)
    ensures Grown(bm, MarkUsed(bm', b), bs + [b])
  {
    forall k: nat ensures Used(MarkUsed(bm', b), k) <==> Used(bm, k) || k in bs + [b] {
      MarkExact(bm', b, k);
    }
    hide Used, MarkUsed;
    assert forall i :: 0 <= i < |bs| ==> bs[i] in bs;
  }

  predicate AllUsed(bm: Bitmap) {
    forall k: nat :: k < 8 * |bm| ==> Used(bm, k)
  }

  /** n allocations give m blocks that were clear and differ, and NONE from there on; m
      falls short of n only when the bitmap is full. */
  lemma {:induction false} AllocNTakes(bm: Bitmap, n: nat) returns (m: nat)
    requires 8 * |bm| <= NONE
    ensures m <= n && Grown(bm, AllocN(bm, n).1, AllocN(bm, n).0[..m])
    ensures forall i :: m <= i < n ==> AllocN(bm, n).0[i] == NONE
    ensures m < n ==> AllUsed(AllocN(bm, n).1)
  {
    if n == 0 {
      m := 0;
    } else {
      m := AllocNTakes(bm, n - 1);
      var r := AllocN(bm, n - 1);
      var a, s := AllocOne(r.1), AllocN(bm, n).0;
      assert s == r.0 + [a.0];
      hide Used, AllocN;
      if m == n - 1 && FirstFree(r.1, 0) < 8 * |r.1| {
        GrownMore(bm, r.1, r.0[..m], a.0);
        assert s[..n] == r.0[..m] + [a.0];
        m := n;
      } else {
        FullStays(r.1);
        assert s[..m] == r.0[..m];
      }
    }
  }

  lemma FullStays(bm: Bitmap)
    ensures AllUsed(bm) ==> AllocOne(bm) == (NONE, bm)
    ensures FirstFree(bm, 0) == 8 * |bm| ==> AllUsed(bm)
  {
    hide Used;
  }

  /** n clear blocks can be had. */
  predicate HasClear(bm: Bitmap, n: nat) {
    NONE !in AllocN(bm, n).0
  }

  lemma ClearTakes(bm: Bitmap, n: nat)
    requires 8 * |bm| <= NONE && HasClear(bm, n)
    ensures Grown(bm, AllocN(bm, n).1, AllocN(bm, n).0)
  {
    var m := AllocNTakes(bm, n);
    var s := AllocN(bm, n).0;
    hide AllocN, Grown;
    assert forall i :: 0 <= i < n ==> s[i] in s;
    assert m == n;
    assert s[..n] == s;
  }

  /** All n allocations succeed exactly when the bitmap has n clear bits. */
  lemma ClearExact(bm: Bitmap, n: nat)
    requires 8 * |bm| <= NONE
    ensures HasClear(bm, n) <==> exists bs: seq<nat> :: |bs| == n && ClearBits(bm, bs)
  {
    var m := AllocNTakes(bm, n);
    var s := AllocN(bm, n).0;
    if HasClear(bm, n) {
      ClearTakes(bm, n);
      assert ClearBits(bm, s);
    }
    if bs: seq<nat> :| |bs| == n && ClearBits(bm, bs) {
      if m < n {
        forall i | 0 <= i < |bs| ensures bs[i] in s[..m] {
          assert Used(AllocN(bm, n).1, bs[i]);
        }
        NotMore(bs, s[..m]);
      }
      forall i | 0 <= i < n ensures s[i] != NONE {
        assert s[..m][i] < 8 * |bm|;
      }
    }
  }

  predicate ClearBits(bm: Bitmap, bs: seq<nat>) {
    && NoDup(bs)
    && (forall i :: 0 <= i < |bs| ==> bs[i] < 8 * |bm| && !Used(bm, bs[i]))
  }

  /** Distinct numbers taken from a list are not more than the list. */
  lemma {:induction false} NotMore(s: seq<nat>, t: seq<nat>)
    requires NoDup(s) && forall i :: 0 <= i < |s| ==> s[i] in t
    ensures |s| <= |t|
    decreases |s|
  {
    if s != [] {
      var k :| 0 <= k < |t| && t[k] == s[0];
      var rest := t[..k] + t[k + 1..];
      forall i | 0 <= i < |s[1..]| ensures s[1..][i] in rest {
        assert s[1..][i] == s[i + 1] && s[i + 1] in t;
        var l :| 0 <= l < |t| && t[l] == s[i + 1];
        assert rest[if l < k then l else l - 1] == s[i + 1];
      }
      NotMore(s[1..], rest);
    }
  }
}
