/** The block cache of kernel/buf.c with many readers at once.  get_buf and bio_free are
  atomic, under the lock of the cache; between them the valid flag and the data of a slot
  are read and written without it. */
module CacheRuns {
  import opened Options
  import opened Dirent
  import opened Bcache

  /** Where a thread is with its slot: it has the reference, reads the disk into the slot,
      has read it but not yet set valid, or has left bio_read and works on the data. */
  datatype Reader = Out | Got(slot: nat) | Filling(slot: nat) | Loaded(slot: nat) | Has(slot: nat)

  /** `latest` is no kernel data: the block as the disk had it when the slot was taken,
      with what its holders have stored since. */
  datatype State = State(bufs: seq<Buf>, disk: map<nat, Block>, readers: seq<Reader>, latest: seq<Block>)

  datatype Act = Get(bno: nat) | Look | Dma | Done | Modify(data: Block) | Write | Free

  predicate Uses(x: Reader, i: nat) {
    !x.Out? && x.slot == i
  }

  predicate Fills(x: Reader, i: nat) {
    (x.Filling? || x.Loaded?) && x.slot == i
  }

  predicate Shape(s: State) {
    && |s.latest| == |s.bufs|
    && forall r :: 0 <= r < |s.readers| && !s.readers[r].Out? ==> s.readers[r].slot < |s.bufs|
  }

  function Put(s: State, r: nat, i: nat, b: Buf, x: Reader): State
    requires i < |s.bufs| && r < |s.readers|
  {
    s.(bufs := s.bufs[i := b], readers := s.readers[r := x])
  }

  /** One step of reader r. */
  ghost predicate Step(s: State, r: nat, a: Act, s': State)
    requires Shape(s) && r < |s.readers|
  {
    var x := s.readers[r];
    match a
    case Get(bno) => x.Out? && GetStep(s, r, bno, s')
    case Look =>
      x.Got? && s' == s.(readers := s.readers[r := if s.bufs[x.slot].valid then Has(x.slot) else Filling(x.slot)])
    case Dma =>
      x.Filling? &&
      s' == Put(s, r, x.slot, s.bufs[x.slot].(data := At(s.disk, s.bufs[x.slot].bno)), Loaded(x.slot))
    case Done => x.Loaded? && s' == Put(s, r, x.slot, s.bufs[x.slot].(valid := true), Has(x.slot))
    case Modify(data) =>
      x.Has? && s' == Put(s, r, x.slot, s.bufs[x.slot].(data := data), x).(latest := s.latest[x.slot := data])
    case Write =>
      x.Has? && s' == Put(s, r, x.slot, s.bufs[x.slot].(valid := true), x).(
        disk := s.disk[s.bufs[x.slot].bno := s.bufs[x.slot].data])
    case Free =>
      x.Has? && s.bufs[x.slot].refs > 0 &&
      s' == s.(bufs := Dropped(s.bufs, x.slot), readers := s.readers[r := Out])
  }

  ghost predicate GetStep(s: State, r: nat, bno: nat, s': State)
    requires Shape(s) && r < |s.readers|
  {
    exists i: nat :: Takes(s, r, bno, i, s')
  }

  predicate Takes(s: State, r: nat, bno: nat, i: nat, s': State)
    requires Shape(s) && r < |s.readers|
  {
    Picks(s.bufs, bno, Some(i)) && s' == Taking(s, r, bno, i)
  }

  function Taking(s: State, r: nat, bno: nat, i: nat): State
    requires Shape(s) && r < |s.readers|
  {
    if i >= |s.bufs| then s
    else
      Put(s, r, i, s.bufs[i].(refs := s.bufs[i].refs + 1, bno := bno), Got(i)).(
        latest := if s.bufs[i].refs == 0 then s.latest[i := At(s.disk, bno)] else s.latest)
  }

  /** Nobody else is filling the slot that r has. */
  predicate Sole(s: State, r: nat)
    requires r < |s.readers|
  {
    !s.readers[r].Out? ==>
      forall q :: 0 <= q < |s.readers| && q != r ==> !Fills(s.readers[q], s.readers[r].slot)
  }

  /** A step in which nobody begins to fill a slot that is being filled. */
  ghost predicate SoleStep(s: State, r: nat, a: Act, s': State)
    requires Shape(s) && r < |s.readers|
  {
    Step(s, r, a, s') && (a.Look? && s'.readers[r].Filling? ==> Sole(s, r))
  }

  /** A holder of a block has lost what was stored last. */
  predicate LostAt(s: State, r: nat)
    requires Shape(s) && r < |s.readers|
  {
    var x := s.readers[r];
    x.Has? && s.bufs[x.slot].bno != 0 && s.bufs[x.slot].data != s.latest[x.slot]
  }

  ghost predicate Lost(s: State)
    requires Shape(s)
  {
    exists r: nat :: r < |s.readers| && LostAt(s, r)
  }

  // ---- References

  function One(b: bool): nat {
    if b then 1 else 0
  }

  function Count(xs: seq<Reader>, i: nat): nat {
    if xs == [] then 0 else Count(xs[..|xs| - 1], i) + One(Uses(xs[|xs| - 1], i))
  }

  lemma {:induction false} CountUpdate(xs: seq<Reader>, r: nat, x: Reader, i: nat)
    requires r < |xs|
    ensures Count(xs[r := x], i) + One(Uses(xs[r], i)) == Count(xs, i) + One(Uses(x, i))
    decreases |xs|
  {
    var ys, n := xs[r := x], |xs| - 1;
    if r == n {
      assert ys[..n] == xs[..n];
    } else {
      assert ys[..n] == xs[..n][r := x];
      CountUpdate(xs[..n], r, x, i);
    }
  }

  lemma {:induction false} CountPositive(xs: seq<Reader>, r: nat, i: nat)
    requires r < |xs| && Uses(xs[r], i)
    ensures Count(xs, i) > 0
    decreases |xs|
  {
    if r < |xs| - 1 {
      CountPositive(xs[..|xs| - 1], r, i);
    }
  }

  // ---- The invariant

  predicate SlotGood(s: State, i: nat)
    requires i < |s.bufs| == |s.latest|
  {
    var b := s.bufs[i];
    && b.refs == Count(s.readers, i)
    && (b.refs == 0 ==> b == Cleared())
    && (b.bno != 0 && b.refs > 0 ==> if b.valid then b.data == s.latest[i] else s.latest[i] == At(s.disk, b.bno))
  }

  predicate ReaderGood(s: State, r: nat)
    requires Shape(s) && r < |s.readers|
  {
    var x := s.readers[r];
    && (x.Has? ==> s.bufs[x.slot].valid)
    && (x.Filling? || x.Loaded? ==> !s.bufs[x.slot].valid && Sole(s, r))
    && (x.Loaded? && s.bufs[x.slot].bno != 0 ==> s.bufs[x.slot].data == s.latest[x.slot])
  }

  ghost predicate Good(s: State) {
    && Shape(s)
    && (forall i: nat :: i < |s.bufs| ==> SlotGood(s, i))
    && (forall r: nat :: r < |s.readers| ==> ReaderGood(s, r))
    && (forall i: nat, j: nat :: i < |s.bufs| && j < |s.bufs| ==> OneSlot(s.bufs, i, j))
  }

  /** An empty cache and no readers inside. */
  ghost predicate Init(s: State) {
    && |s.latest| == |s.bufs|
    && (forall i :: 0 <= i < |s.bufs| ==> s.bufs[i] == Cleared())
    && (forall r :: 0 <= r < |s.readers| ==> s.readers[r] == Out)
  }

  lemma {:induction false} NobodyCounts(xs: seq<Reader>, i: nat)
    requires forall r :: 0 <= r < |xs| ==> xs[r] == Out
    ensures Count(xs, i) == 0
  {
    if xs != [] {
      NobodyCounts(xs[..|xs| - 1], i);
    }
  }

  lemma InitGood(s: State)
    requires Init(s)
    ensures Good(s)
  {
    forall i: nat | i < |s.bufs| ensures SlotGood(s, i) {
      NobodyCounts(s.readers, i);
    }
  }

  // ---- Steps

  lemma LookGood(s: State, r: nat, s': State)
    requires Good(s) && r < |s.readers| && SoleStep(s, r, Look, s')
    ensures Good(s')
  {
    var i := s.readers[r].slot;
    forall j: nat | j < |s.bufs| ensures SlotGood(s', j) {
      CountUpdate(s.readers, r, s'.readers[r], j);
      assert SlotGood(s, j);
    }
    forall q: nat | q < |s.readers| ensures ReaderGood(s', q) {
      assert ReaderGood(s, q);
    }
    assert forall j: nat, k: nat :: j < |s.bufs| && k < |s.bufs| ==> OneSlot(s.bufs, j, k);
  }

  lemma DmaGood(s: State, r: nat, s': State)
    requires Good(s) && r < |s.readers| && Step(s, r, Dma, s')
    ensures Good(s')
  {
    var i := s.readers[r].slot;
    CountPositive(s.readers, r, i);
    assert ReaderGood(s, r) && SlotGood(s, i);
    forall j: nat | j < |s.bufs| ensures SlotGood(s', j) {
      CountUpdate(s.readers, r, s'.readers[r], j);
      assert SlotGood(s, j);
    }
    forall q: nat | q < |s.readers| ensures ReaderGood(s', q) {
      assert ReaderGood(s, q);
    }
    forall j: nat, k: nat | j < |s.bufs| && k < |s.bufs| ensures OneSlot(s'.bufs, j, k) {
      assert OneSlot(s.bufs, j, k);
    }
  }

  lemma DoneGood(s: State, r: nat, s': State)
    requires Good(s) && r < |s.readers| && Step(s, r, Act.Done, s')
    ensures Good(s')
  {
    var i := s.readers[r].slot;
    CountPositive(s.readers, r, i);
    assert ReaderGood(s, r) && SlotGood(s, i);
    forall j: nat | j < |s.bufs| ensures SlotGood(s', j) {
      CountUpdate(s.readers, r, s'.readers[r], j);
      assert SlotGood(s, j);
    }
    forall q: nat | q < |s.readers| ensures ReaderGood(s', q) {
      assert ReaderGood(s, q);
    }
    forall j: nat, k: nat | j < |s.bufs| && k < |s.bufs| ensures OneSlot(s'.bufs, j, k) {
      assert OneSlot(s.bufs, j, k);
    }
  }

  lemma HolderGood(s: State, r: nat, a: Act, s': State)
    requires Good(s) && r < |s.readers| && Step(s, r, a, s') && (a.Modify? || a.Write?)
    ensures Good(s')
  {
    var i := s.readers[r].slot;
    assert ReaderGood(s, r) && SlotGood(s, i);
    assert s'.readers == s.readers;
    forall j: nat | j < |s.bufs| ensures SlotGood(s', j) {
      assert SlotGood(s, j) && OneSlot(s.bufs, i, j);
    }
    forall q: nat | q < |s.readers| ensures ReaderGood(s', q) {
      assert ReaderGood(s, q);
    }
    forall j: nat, k: nat | j < |s.bufs| && k < |s.bufs| ensures OneSlot(s'.bufs, j, k) {
      assert OneSlot(s.bufs, j, k);
    }
  }

  lemma FreeGood(s: State, r: nat, s': State)
    requires Good(s) && r < |s.readers| && Step(s, r, Free, s')
    ensures Good(s')
  {
    var i := s.readers[r].slot;
    assert ReaderGood(s, r) && SlotGood(s, i);
    forall j: nat | j < |s.bufs| ensures SlotGood(s', j) {
      CountUpdate(s.readers, r, Out, j);
      assert SlotGood(s, j);
    }
    forall q: nat | q < |s.readers| ensures ReaderGood(s', q) {
      assert ReaderGood(s, q);
      if Uses(s'.readers[q], i) {
        CountPositive(s'.readers, q, i);
        assert SlotGood(s', i);
      }
    }
    forall j: nat, k: nat | j < |s.bufs| && k < |s.bufs| ensures OneSlot(s'.bufs, j, k) {
      assert OneSlot(s.bufs, j, k);
    }
  }

  lemma GetGood(s: State, r: nat, bno: nat, s': State)
    requires Good(s) && r < |s.readers| && Step(s, r, Get(bno), s')
    ensures Good(s')
  {
    var i: nat :| Takes(s, r, bno, i, s');
    assert SlotGood(s, i);
    forall j: nat | j < |s.bufs| ensures SlotGood(s', j) {
      CountUpdate(s.readers, r, Got(i), j);
      assert SlotGood(s, j);
    }
    forall q: nat | q < |s.readers| ensures ReaderGood(s', q) {
      assert ReaderGood(s, q);
      if Uses(s.readers[q], i) {
        CountPositive(s.readers, q, i);
      }
    }
    forall j: nat, k: nat | j < |s.bufs| && k < |s.bufs| ensures OneSlot(s'.bufs, j, k) {
      assert OneSlot(s.bufs, j, k);
    }
  }

  lemma StepGood(s: State, r: nat, a: Act, s': State)
    requires Good(s) && r < |s.readers| && SoleStep(s, r, a, s')
    ensures Good(s') && |s'.readers| == |s.readers|
  {
    hide Good;
    match a
    case Get(bno) => GetGood(s, r, bno, s');
    case Look => LookGood(s, r, s');
    case Dma => DmaGood(s, r, s');
    case Done => DoneGood(s, r, s');
    case Modify(data) => HolderGood(s, r, a, s');
    case Write => HolderGood(s, r, a, s');
    case Free => FreeGood(s, r, s');
  }

  lemma GoodKeeps(s: State)
    requires Good(s)
    ensures Shape(s) && !Lost(s)
  {
    forall r: nat | r < |s.readers| ensures !LostAt(s, r) {
      assert ReaderGood(s, r);
      if s.readers[r].Has? {
        CountPositive(s.readers, r, s.readers[r].slot);
        assert SlotGood(s, s.readers[r].slot);
      }
    }
  }

  // ---- Runs

  ghost predicate SoleBy(s: State, r: nat, a: Act, s': State) {
    Shape(s) && r < |s.readers| && SoleStep(s, r, a, s')
  }

  ghost predicate SomeSole(s: State, s': State) {
    exists r: nat, a: Act :: SoleBy(s, r, a, s')
  }

  ghost predicate SoleRun(ss: seq<State>) {
    ss != [] && forall k :: 0 <= k < |ss| - 1 ==> SomeSole(ss[k], ss[k + 1])
  }

  lemma {:induction false} RunGood(ss: seq<State>)
    requires SoleRun(ss) && Good(ss[0])
    ensures Good(ss[|ss| - 1])
    decreases |ss|
  {
    var n := |ss| - 1;
    if n > 0 {
      var us := ss[..n];
      assert SoleRun(us) by {
        forall k | 0 <= k < |us| - 1 ensures SomeSole(us[k], us[k + 1]) {
          assert SomeSole(ss[k], ss[k + 1]);
        }
      }
      RunGood(us);
      assert SomeSole(ss[n - 1], ss[n - 1 + 1]);
      var r: nat, a: Act :| SoleBy(ss[n - 1], r, a, ss[n]);
      hide Good, SoleStep;
      StepGood(ss[n - 1], r, a, ss[n]);
    }
  }

  /** In a run from boot in which nobody begins to fill a slot that is being filled, every
      holder of a block sees what was stored last. */
  lemma NoLostUpdate(ss: seq<State>)
    requires SoleRun(ss) && Init(ss[0])
    ensures Shape(ss[|ss| - 1]) && !Lost(ss[|ss| - 1])
  {
    InitGood(ss[0]);
    RunGood(ss);
    GoodKeeps(ss[|ss| - 1]);
  }

  /** In such a run bio_write brings to the disk what any holder stored last, and changes no
      other block; who takes the block later starts from there. */
  lemma WriteReaches(ss: seq<State>, r: nat, s': State)
    requires SoleRun(ss) && Init(ss[0]) && SoleBy(ss[|ss| - 1], r, Write, s')
    ensures var s := ss[|ss| - 1];
      && s.readers[r].Has? && s.readers[r].slot < |s.bufs| == |s.latest|
      && var i := s.readers[r].slot;
        && (s.bufs[i].bno != 0 ==> At(s'.disk, s.bufs[i].bno) == s.latest[i])
        && (forall b: nat :: b != s.bufs[i].bno ==> At(s'.disk, b) == At(s.disk, b))
        && s'.latest == s.latest && s'.readers == s.readers
  {
    var s := ss[|ss| - 1];
    InitGood(ss[0]);
    RunGood(ss);
    assert ReaderGood(s, r) && SlotGood(s, s.readers[r].slot);
    CountPositive(s.readers, r, s.readers[r].slot);
  }

  /** A block that nobody holds is taken with what the disk has. */
  lemma TakenFresh(s: State, r: nat, bno: nat, s': State)
    requires Good(s) && SoleBy(s, r, Get(bno), s') && bno != 0
    ensures forall i: nat :: i < |s.bufs| && s'.readers[r] == Got(i) ==>
      && i < |s'.bufs| == |s'.latest| && s'.bufs[i].bno == bno
      && (if s.bufs[i].refs == 0 then s'.latest[i] == At(s'.disk, bno)
          else s.bufs[i].bno == bno && s'.latest[i] == s.latest[i])
  {
    var i: nat :| Takes(s, r, bno, i, s');
    assert SlotGood(s, i);
  }

  // ---- The condition is exact

  /** The state after reader r has found the slot invalid. */
  function Looked(s: State, r: nat): State
    requires r < |s.readers| && s.readers[r].Got?
  {
    s.(readers := s.readers[r := Filling(s.readers[r].slot)])
  }

  function Other(b: Block): Block {
    if b == [] then [0] else [if b[0] == 0 then 1 else 0] + b[1..]
  }

  ghost predicate Loses(ss: seq<State>) {
    SoleRun(ss) && Shape(ss[|ss| - 1]) && Lost(ss[|ss| - 1])
  }

  lemma OneMore(ss: seq<State>, r: nat, a: Act, s': State)
    requires SoleRun(ss) && SoleBy(ss[|ss| - 1], r, a, s')
    ensures SoleRun(ss + [s'])
  {
    var us := ss + [s'];
    forall k | 0 <= k < |us| - 1 ensures SomeSole(us[k], us[k + 1]) {
      if k < |ss| - 1 {
        assert SomeSole(ss[k], ss[k + 1]);
      } else {
        assert SoleBy(us[k], r, a, us[k + 1]);
      }
    }
  }

  /** q finishes its fill, leaves bio_read and stores; then r, which is filling the same
      slot, puts the disk's block over it. */
  lemma FillsOver(s: State, r: nat, q: nat) returns (ss: seq<State>)
    requires Shape(s) && r < |s.readers| && q < |s.readers| && q != r && s.readers[r].Filling?
    requires s.bufs[s.readers[r].slot].bno != 0 && Fills(s.readers[q], s.readers[r].slot)
    ensures ss != [] && ss[0] == s && Loses(ss)
  {
    var i := s.readers[r].slot;
    var stale := At(s.disk, s.bufs[i].bno);
    ss := [s];
    var t := s;
    if s.readers[q].Filling? {
      t := Put(s, q, i, s.bufs[i].(data := stale), Loaded(i));
      assert SoleBy(s, q, Dma, t);
      OneMore(ss, q, Dma, t);
      ss := ss + [t];
    }
    var u := Put(t, q, i, t.bufs[i].(valid := true), Has(i));
    assert SoleBy(t, q, Act.Done, u);
    OneMore(ss, q, Act.Done, u);
    var v := Put(u, q, i, u.bufs[i].(data := Other(stale)), Has(i)).(latest := u.latest[i := Other(stale)]);
    assert SoleBy(u, q, Modify(Other(stale)), v);
    OneMore(ss + [u], q, Modify(Other(stale)), v);
    var w := Put(v, r, i, v.bufs[i].(data := stale), Loaded(i));
    assert SoleBy(v, r, Dma, w);
    OneMore(ss + [u] + [v], r, Dma, w);
    ss := ss + [u] + [v] + [w];
    assert LostAt(w, q);
  }

  /** Beginning to fill a slot is harmless in every run that follows, as long as others keep
      to the rule, exactly when nobody else is filling it. */
  lemma LookExact(s: State, r: nat)
    requires Good(s) && r < |s.readers| && s.readers[r].Got?
    requires !s.bufs[s.readers[r].slot].valid && s.bufs[s.readers[r].slot].bno != 0
    ensures Sole(s, r) <==> forall ss: seq<State> :: SoleRun(ss) && ss[0] == Looked(s, r) ==> !Loses(ss)
  {
    var t := Looked(s, r);
    if Sole(s, r) {
      assert SoleStep(s, r, Look, t);
      LookGood(s, r, t);
      forall ss: seq<State> | SoleRun(ss) && ss[0] == t ensures !Loses(ss) {
        RunGood(ss);
        GoodKeeps(ss[|ss| - 1]);
      }
    } else {
      var q :| 0 <= q < |s.readers| && q != r && Fills(s.readers[q], s.readers[r].slot);
      var ss := FillsOver(t, r, q);
    }
  }
}
