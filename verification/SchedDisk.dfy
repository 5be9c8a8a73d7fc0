/** Disk requests between submitters, device and interrupt handler: every request
  is completed once, and nobody sleeps through the completion of his own. */
module SchedDisk {
  import opened Spinlock
  import opened Scheduler
  import opened SchedCoupling
  import opened SchedFamily
  import opened Options

  /** Inside virtio_blk_op, between submission and the return. */
  predicate OpLoc(x: Loc) {
    x.DiskCheck? || x.DiskBed? || x.DiskSleep? || x.DiskWoken? || x.DiskAgain?
  }

  /** The request the handler of a CPU has marked done and not yet dropped. */
  function Job(u: Cpu): Option<Loc> {
    if u.handler.Some? && (Target(u.handler.value).IrqWake? || Target(u.handler.value).IrqNext?)
    then Some(Target(u.handler.value)) else None
  }

  /** The handler is at, or on its way to, the wakeup for request h. */
  predicate Waking(u: Cpu, h: nat) {
    Job(u) == Some(IrqWake(h))
  }

  predicate Handling(u: Cpu, h: nat) {
    Job(u) == Some(IrqWake(h)) || Job(u) == Some(IrqNext(h))
  }

  ghost predicate SomeWaking(s: State, h: nat) {
    exists c: nat :: c < |s.m.cpus| && Waking(s.m.cpus[c], h)
  }

  ghost predicate SomeHandling(s: State, h: nat) {
    exists c: nat :: c < |s.m.cpus| && Handling(s.m.cpus[c], h)
  }

  predicate ReqOk(s: State, h: nat)
    requires h < |s.reqs|
  {
    var r := s.reqs[h];
    && (!r.inflight ==> !r.atDevice && !r.done && h !in s.used)
    && (r.atDevice ==> !r.done && h !in s.used)
    && (r.inflight ==> r.atDevice || r.done || h in s.used)
  }

  ghost predicate UsedOk(s: State, k: nat)
    requires k < |s.used|
  {
    var h := s.used[k];
    h < |s.reqs| && (s.reqs[h].done ==> k == 0 && SomeHandling(s, h))
  }

  predicate HandlerOk(s: State, c: nat)
    requires c < |s.m.cpus|
  {
    var j := Job(s.m.cpus[c]);
    j.Some? ==>
      && Owns(s.m.cpus[c].handler.value, Disk)
      && s.used != [] && s.used[0] == j.value.head && s.used[0] < |s.reqs| && s.reqs[s.used[0]].done
  }

  /** A submitter owns a request in flight, which names its buffer until handled. */
  predicate OpOk(s: State, i: nat)
    requires i < |s.m.pcs|
  {
    var x := Target(s.m.pcs[i]);
    OpLoc(x) ==>
      && x.head < |s.reqs| && s.reqs[x.head].inflight
      && (s.reqs[x.head].atDevice || x.head in s.used ==> s.reqs[x.head].buf == Some(x.buf))
  }

  predicate OpApart(s: State, i: nat, k: nat)
    requires i < |s.m.pcs| && k < |s.m.pcs|
  {
    var x, y := Target(s.m.pcs[i]), Target(s.m.pcs[k]);
    i != k && OpLoc(x) && OpLoc(y) ==> x.head != y.head
  }

  /** Asleep on a request, or past the last look at its done flag. */
  predicate Bedded(p: Proc, pc: Pc) {
    Target(pc).DiskSleep? || (Target(pc).DiskWoken? && (pc.Out? || p.state == SLEEPING))
  }

  /** sleep takes the table lock before it gives up the disk lock. */
  predicate BedOk(pc: Pc) {
    && (Target(pc).DiskBed? ==> Owns(pc, Disk))
    && (Target(pc).DiskSleep? ==> Owns(pc, Table))
  }

  /** The done flag of a request whose submitter sleeps is set only while the
      handler has its wakeup still to do. */
  ghost predicate AwakeOk(s: State, i: nat)
    requires i < |s.procs| == |s.m.pcs|
  {
    var x := Target(s.m.pcs[i]);
    && BedOk(s.m.pcs[i])
    && (x.DiskBed? && x.head < |s.reqs| ==> !s.reqs[x.head].done)
    && (Bedded(s.procs[i], s.m.pcs[i]) && x.head < |s.reqs| && s.reqs[x.head].done ==> SomeWaking(s, x.head))
  }

  ghost predicate Disks(s: State) {
    && |s.procs| == |s.m.pcs|
    && (forall h: nat :: h < |s.reqs| ==> ReqOk(s, h))
    && (forall k: nat :: k < |s.used| ==> UsedOk(s, k))
    && (forall k, l :: 0 <= k < l < |s.used| ==> s.used[k] != s.used[l])
    && (forall c: nat :: c < |s.m.cpus| ==> HandlerOk(s, c))
    && (forall i: nat :: i < |s.procs| ==> OpOk(s, i))
    && (forall i: nat, k: nat :: i < |s.procs| && k < |s.procs| ==> OpApart(s, i, k))
    && (forall i: nat :: i < |s.procs| ==> AwakeOk(s, i))
  }

  // ---- Steps that do not concern a request

  /** The request, if any, that a process is waiting for. */
  predicate OpSame(s: State, s': State, i: nat)
    requires i < |s.procs| == |s.m.pcs| == |s'.procs| == |s'.m.pcs|
  {
    var x, x' := Target(s.m.pcs[i]), Target(s'.m.pcs[i]);
    && (BedOk(s.m.pcs[i]) ==> BedOk(s'.m.pcs[i]))
    && (OpLoc(x') ==> OpLoc(x) && x'.head == x.head && x'.buf == x.buf)
    && (x'.DiskBed? ==> x.DiskBed? || (x.DiskCheck? && x.head < |s.reqs| && !s.reqs[x.head].done))
    && (Bedded(s'.procs[i], s'.m.pcs[i]) ==> Bedded(s.procs[i], s.m.pcs[i]) || x.DiskBed?)
  }

  predicate JobSame(u: Cpu, u': Cpu) {
    && Job(u') == Job(u)
    && (Job(u).Some? && Owns(u.handler.value, Disk) ==> Owns(u'.handler.value, Disk))
  }

  ghost predicate Frames(s: State, s': State) {
    && |s.procs| == |s.m.pcs| == |s'.procs| == |s'.m.pcs| && |s.m.cpus| == |s'.m.cpus|
    && (forall c: nat :: c < |s.m.cpus| ==> JobSame(s.m.cpus[c], s'.m.cpus[c]))
    && (forall i: nat :: i < |s.procs| ==> OpSame(s, s', i))
  }

  lemma SameWaking(s: State, s': State, h: nat)
    requires |s.m.cpus| == |s'.m.cpus| && forall c: nat :: c < |s.m.cpus| ==> JobSame(s.m.cpus[c], s'.m.cpus[c])
    ensures SomeWaking(s', h) == SomeWaking(s, h) && SomeHandling(s', h) == SomeHandling(s, h)
  {
    if SomeWaking(s, h) {
      var c: nat :| c < |s.m.cpus| && Waking(s.m.cpus[c], h);
      assert Waking(s'.m.cpus[c], h);
    }
    if SomeWaking(s', h) {
      var c: nat :| c < |s.m.cpus| && Waking(s'.m.cpus[c], h);
      assert Waking(s.m.cpus[c], h);
    }
    if SomeHandling(s, h) {
      var c: nat :| c < |s.m.cpus| && Handling(s.m.cpus[c], h);
      assert Handling(s'.m.cpus[c], h);
    }
    if SomeHandling(s', h) {
      var c: nat :| c < |s.m.cpus| && Handling(s'.m.cpus[c], h);
      assert Handling(s.m.cpus[c], h);
    }
  }

  lemma NeutralDisks(s: State, s': State)
    requires Disks(s) && Frames(s, s') && s'.reqs == s.reqs && s'.used == s.used
    ensures Disks(s')
  {
    forall h: nat | h < |s.reqs| ensures ReqOk(s', h) {
      assert ReqOk(s, h);
    }
    forall k: nat | k < |s.used| ensures UsedOk(s', k) {
      assert UsedOk(s, k);
      SameWaking(s, s', s.used[k]);
    }
    forall c: nat | c < |s.m.cpus| ensures HandlerOk(s', c) {
      assert HandlerOk(s, c) && JobSame(s.m.cpus[c], s'.m.cpus[c]);
    }
    hide ReqOk, UsedOk, HandlerOk, SomeHandling;
    forall i: nat | i < |s.procs| ensures OpOk(s', i) {
      assert OpOk(s, i) && OpSame(s, s', i);
    }
    forall i: nat, k: nat | i < |s.procs| && k < |s.procs| ensures OpApart(s', i, k) {
      assert OpApart(s, i, k) && OpSame(s, s', i) && OpSame(s, s', k);
    }
    hide OpApart;
    forall i: nat | i < |s.procs| ensures AwakeOk(s', i) {
      assert OpOk(s, i) && OpSame(s, s', i) && AwakeOk(s, i);
      var x := Target(s'.m.pcs[i]);
      if OpLoc(x) {
        SameWaking(s, s', x.head);
      }
    }
  }

  // ---- Who holds the disk lock

  /** While c's executing thread holds the disk lock, no other CPU handles a
      request, and nobody else is in the code that lock protects. */
  lemma DiskIsMine(s: State, c: nat, i: nat)
    requires LocksOk(s.m) && Coupled(s) && Disks(s) && c < |s.m.cpus| && Owns(Exec(s.m, c), Disk) && Exec(s.m, c).At?
    ensures forall d: nat :: d < |s.m.cpus| && d != c ==> Job(s.m.cpus[d]).None?
    ensures i < |s.procs| && !Own(s.m.cpus[c], i) ==> !Target(s.m.pcs[i]).DiskBed?
  {
    HoldingExact(s.m, c, Disk);
    OwnsGrips(s.m, c, Disk);
    forall d: nat | d < |s.m.cpus| && d != c ensures Job(s.m.cpus[d]).None? {
      assert Nested(s.m, d);
      if Job(s.m.cpus[d]).Some? {
        assert HandlerOk(s, d);
        assert CpuGrips(s.m, d, Disk);
      }
    }
    if i < |s.procs| {
      BedHasDisk(s, c, i);
    }
  }

  lemma BedHasDisk(s: State, c: nat, i: nat)
    requires LocksOk(s.m) && Coupled(s) && Disks(s) && c < |s.m.cpus| && CpuGrips(s.m, c, Disk) && i < |s.procs|
    ensures Target(s.m.pcs[i]).DiskBed? ==> Own(s.m.cpus[c], i)
  {
    if Target(s.m.pcs[i]).DiskBed? {
      assert Hosted(s, i) && ProcOk(s, i);
      var d: nat :| d < |s.m.cpus| && Hosts(s.m.cpus[d], i);
      assert CpuOk(s, d) && Nested(s.m, d);
      assert s.m.cpus[d].cur == Running(i);
      assert AwakeOk(s, i);
      assert CpuGrips(s.m, d, Disk);
    }
  }

  // ---- Steps that concern a request

  /** Process i moves with its request table changed, the handlers standing still. */
  ghost predicate OwnMove(s: State, s': State, i: nat, q: Pc) {
    && i < |s.procs| == |s.m.pcs| && s'.procs == s.procs && s'.m.pcs == s.m.pcs[i := q]
    && HandlersSame(s.m, s'.m)
  }

  lemma Submitted(s: State, s': State, i: nat, h: nat, b: nat)
    requires Disks(s) && OwnMove(s, s', i, At(DiskCheck(h, b))) && h < |s.reqs| && !s.reqs[h].inflight
    requires s'.reqs == s.reqs[h := s.reqs[h].(inflight := true, atDevice := true, buf := Some(b))] && s'.used == s.used
    ensures Disks(s')
  {
    forall g: nat | g < |s.reqs| ensures ReqOk(s', g) {
      assert ReqOk(s, g);
    }
    forall k: nat | k < |s.used| ensures UsedOk(s', k) {
      assert UsedOk(s, k) && ReqOk(s, h);
      SameWaking(s, s', s.used[k]);
    }
    forall c: nat | c < |s.m.cpus| ensures HandlerOk(s', c) {
      assert HandlerOk(s, c) && ReqOk(s, h) && JobSame(s.m.cpus[c], s'.m.cpus[c]);
    }
    forall k: nat | k < |s.procs| ensures OpOk(s', k) && OpApart(s', i, k) && OpApart(s', k, i) {
      assert OpOk(s, k);
    }
    forall k: nat, l: nat | k < |s.procs| && l < |s.procs| ensures OpApart(s', k, l) {
      assert OpApart(s, k, l) && OpApart(s', i, l) && OpApart(s', k, i);
    }
    assert ReqOk(s, h);
    hide ReqOk, UsedOk, HandlerOk, OpApart;
    forall k: nat | k < |s.procs| ensures AwakeOk(s', k) {
      assert AwakeOk(s, k) && OpOk(s, k);
      var x := Target(s.m.pcs[k]);
      if OpLoc(x) {
        SameWaking(s, s', x.head);
      }
    }
  }

  /** The submitter finds its request done and gives the chain back. */
  lemma Finished(s: State, s': State, i: nat, h: nat, b: nat)
    requires Disks(s) && OwnMove(s, s', i, Clear(Disk, User)) && h < |s.reqs| && s.reqs[h].done
    requires s.m.pcs[i] == At(DiskCheck(h, b))
    requires forall c: nat :: c < |s.m.cpus| ==> Job(s.m.cpus[c]).None?
    requires s'.reqs == s.reqs[h := s.reqs[h].(done := false, inflight := false)] && s'.used == s.used
    ensures Disks(s')
  {
    assert h !in s.used by {
      forall k: nat | k < |s.used| ensures s.used[k] != h {
        assert UsedOk(s, k);
      }
    }
    forall g: nat | g < |s.reqs| ensures ReqOk(s', g) {
      assert ReqOk(s, g);
    }
    forall k: nat | k < |s.used| ensures UsedOk(s', k) {
      assert UsedOk(s, k);
      SameWaking(s, s', s.used[k]);
    }
    forall c: nat | c < |s.m.cpus| ensures HandlerOk(s', c) {
      assert JobSame(s.m.cpus[c], s'.m.cpus[c]);
    }
    forall k: nat | k < |s.procs| ensures OpOk(s', k) {
      assert OpOk(s, k) && OpApart(s, i, k);
    }
    forall k: nat, l: nat | k < |s.procs| && l < |s.procs| ensures OpApart(s', k, l) {
      assert OpApart(s, k, l);
    }
    hide ReqOk, UsedOk, HandlerOk;
    forall k: nat | k < |s.procs| ensures AwakeOk(s', k) {
      assert AwakeOk(s, k) && OpApart(s, i, k) && OpOk(s, k);
      var x := Target(s.m.pcs[k]);
      if OpLoc(x) {
        SameWaking(s, s', x.head);
      }
    }
  }

  /** The handler of c moves: the other handlers have no request, the processes
      stand still. */
  ghost predicate HandlerMove(s: State, s': State, c: nat) {
    && c < |s.m.cpus| == |s'.m.cpus| && |s'.procs| == |s.procs| && s'.m.pcs == s.m.pcs
    && (forall d: nat :: d < |s.m.cpus| && d != c ==> Job(s.m.cpus[d]).None? && s'.m.cpus[d] == s.m.cpus[d])
    && s'.m.cpus[c].handler.Some?
  }

  /** The handler sets the done flag of the first request in the used ring. */
  lemma Marked(s: State, s': State, c: nat, h: nat)
    requires Disks(s) && HandlerMove(s, s', c) && Job(s.m.cpus[c]).None?
    requires s'.m.cpus[c].handler == Some(Spin(Table, IrqWake(h)))
    requires s.used != [] && s.used[0] == h && h < |s.reqs| && s'.procs == s.procs
    requires forall i: nat :: i < |s.procs| ==> !Target(s.m.pcs[i]).DiskBed?
    requires s'.reqs == s.reqs[h := s.reqs[h].(done := true)] && s'.used == s.used
    ensures Disks(s')
  {
    assert Waking(s'.m.cpus[c], h);
    assert ReqOk(s, h);
    forall g: nat | g < |s.reqs| ensures ReqOk(s', g) {
      assert ReqOk(s, g);
    }
    forall k: nat | k < |s.used| ensures UsedOk(s', k) {
      assert UsedOk(s, k);
      assert Handling(s'.m.cpus[c], h);
    }
    forall d: nat | d < |s.m.cpus| ensures HandlerOk(s', d) {
      assert HandlerOk(s, d);
    }
    forall i: nat | i < |s.procs| ensures OpOk(s', i) && AwakeOk(s', i) {
      assert OpOk(s, i) && AwakeOk(s, i);
      NobodyWaking(s, c);
    }
    forall i: nat, k: nat | i < |s.procs| && k < |s.procs| ensures OpApart(s', i, k) {
      assert OpApart(s, i, k);
    }
  }

  lemma NobodyWaking(s: State, c: nat)
    requires forall d: nat :: d < |s.m.cpus| && d != c ==> Job(s.m.cpus[d]).None?
    ensures forall h: nat :: SomeWaking(s, h) ==> c < |s.m.cpus| && Waking(s.m.cpus[c], h)
    ensures forall h: nat :: SomeHandling(s, h) ==> c < |s.m.cpus| && Handling(s.m.cpus[c], h)
  {
  }

  /** wakeup: afterwards nobody sleeps on the request. */
  lemma WokenUp(s: State, s': State, c: nat, h: nat)
    requires Disks(s) && Coupled(s) && HandlerMove(s, s', c)
    requires s.m.cpus[c].handler == Some(At(IrqWake(h))) && s'.m.cpus[c].handler == Some(Clear(Table, IrqNext(h)))
    requires h < |s.reqs| && s'.procs == WakeAll(s.procs, BufChan(s.reqs[h])) && s'.reqs == s.reqs && s'.used == s.used
    requires forall i: nat :: i < |s.procs| ==> !Target(s.m.pcs[i]).DiskSleep? && !s.m.pcs[i].Out?
    ensures Disks(s')
  {
    assert HandlerOk(s, c);
    assert Handling(s'.m.cpus[c], h);
    NobodyWaking(s, c);
    forall g: nat | g < |s.reqs| ensures ReqOk(s', g) {
      assert ReqOk(s, g);
    }
    forall k: nat | k < |s.used| ensures UsedOk(s', k) {
      assert UsedOk(s, k);
    }
    forall d: nat | d < |s.m.cpus| ensures HandlerOk(s', d) {
    }
    forall i: nat, k: nat | i < |s.procs| && k < |s.procs| ensures OpApart(s', i, k) {
      assert OpApart(s, i, k);
    }
    hide UsedOk, HandlerOk, OpApart, ReqOk;
    forall i: nat | i < |s.procs| ensures OpOk(s', i) && AwakeOk(s', i) {
      assert OpOk(s, i) && AwakeOk(s, i) && ProcOk(s, i);
    }
  }

  /** The handler drops the request from the used ring. */
  lemma Dropped(s: State, s': State, c: nat, h: nat)
    requires Disks(s) && HandlerMove(s, s', c) && s'.procs == s.procs
    requires s.m.cpus[c].handler == Some(At(IrqNext(h))) && s'.m.cpus[c].handler == Some(At(IrqLoop))
    requires h < |s.reqs| && s.used != [] && s'.reqs == s.reqs[h := s.reqs[h].(buf := None)] && s'.used == s.used[1..]
    ensures Disks(s')
  {
    assert HandlerOk(s, c);
    NobodyWaking(s, c);
    assert s.used == [h] + s'.used;
    forall g: nat | g < |s.reqs| ensures ReqOk(s', g) {
      assert ReqOk(s, g);
    }
    forall k: nat | k < |s'.used| ensures UsedOk(s', k) && s'.used[k] != h {
      assert UsedOk(s, k + 1) && s'.used[k] == s.used[k + 1];
    }
    forall d: nat | d < |s.m.cpus| ensures HandlerOk(s', d) {
    }
    forall i: nat | i < |s.procs| ensures OpOk(s', i) && AwakeOk(s', i) {
      assert OpOk(s, i) && AwakeOk(s, i) && ReqOk(s, h);
    }
    forall i: nat, k: nat | i < |s.procs| && k < |s.procs| ensures OpApart(s', i, k) {
      assert OpApart(s, i, k);
    }
  }

  /** The device puts a request it has into the used ring. */
  lemma Completed(s: State, h: nat, s': State)
    requires Disks(s) && DeviceStep(s, h, s')
    ensures Disks(s')
  {
    assert ReqOk(s, h);
    forall g: nat | g < |s.reqs| ensures ReqOk(s', g) {
      assert ReqOk(s, g);
    }
    forall k: nat | k < |s'.used| ensures UsedOk(s', k) {
      if k < |s.used| {
        assert UsedOk(s, k);
        SameWaking(s, s', s.used[k]);
      }
    }
    forall c: nat | c < |s.m.cpus| ensures HandlerOk(s', c) {
      assert HandlerOk(s, c);
    }
    hide UsedOk, HandlerOk, ReqOk;
    forall i: nat | i < |s.procs| ensures OpOk(s', i) && AwakeOk(s', i) {
      assert OpOk(s, i) && AwakeOk(s, i);
      var x := Target(s.m.pcs[i]);
      if OpLoc(x) {
        SameWaking(s, s', x.head);
      }
    }
    forall i: nat, k: nat | i < |s.procs| && k < |s.procs| ensures OpApart(s', i, k) {
      assert OpApart(s, i, k);
    }
  }

  // ---- Every step

  /** The interrupt handlers after a step of a thread that is not one. */
  lemma NoHandlerMoves(m: Machine, c: nat, l: Lock, to: Loc, q: Pc)
    requires c < |m.cpus| && CurOk(m, c) && m.cpus[c].handler.None?
    ensures HandlersSame(m, Goto(m, c, q)) && HandlersSame(m, Acquire(m, c, l, to))
    ensures HandlersSame(m, Release(m, c, l, to))
  {
  }

  ghost predicate HandlersSame(m: Machine, m': Machine) {
    |m'.cpus| == |m.cpus| && forall d: nat :: d < |m.cpus| ==> JobSame(m.cpus[d], m'.cpus[d])
  }

  /** Nobody falls asleep and at most fresh contexts appear, besides process i. */
  ghost predicate OthersStill(s: State, s': State, i: nat) {
    && |s'.procs| == |s.procs| == |s.m.pcs| == |s'.m.pcs|
    && forall j: nat :: j < |s.procs| && j != i ==>
      (s'.m.pcs[j] == s.m.pcs[j] || s'.m.pcs[j] == At(ForkRet)) &&
        (s'.procs[j].state == SLEEPING ==> s.procs[j].state == SLEEPING)
  }

  lemma OwnNeutralDisks(s: State, s': State, i: nat)
    requires Disks(s) && HandlersSame(s.m, s'.m) && OthersStill(s, s', i) && s'.reqs == s.reqs && s'.used == s.used
    requires i < |s.procs| ==> OpSame(s, s', i)
    ensures Disks(s')
  {
    forall j: nat | j < |s.procs| ensures OpSame(s, s', j) {
    }
    NeutralDisks(s, s');
  }

  /** Process i goes on outside a disk operation, or stays within one, awake. */
  lemma OwnDisks(s: State, s': State, i: nat, q: Pc)
    requires Disks(s) && HandlersSame(s.m, s'.m) && OthersStill(s, s', i) && s'.reqs == s.reqs && s'.used == s.used
    requires i < |s.procs| && s'.m.pcs[i] == q && !Target(q).DiskBed? && !Target(q).DiskSleep? && !Target(q).DiskWoken?
    requires OpLoc(Target(q)) ==>
      OpLoc(Target(s.m.pcs[i])) && Target(q).head == Target(s.m.pcs[i]).head && Target(q).buf == Target(s.m.pcs[i]).buf
    ensures Disks(s')
  {
    hide Disks, HandlersSame;
    OwnNeutralDisks(s, s', i);
  }

  /** Inside acquire and release a handler keeps its request. */
  lemma InsideHandlers(m: Machine, c: nat, m': Machine)
    requires c < |m.cpus| && CurOk(m, c) && LockStep(m, c, m') && m.cpus[c].depth > 0
    ensures HandlersSame(m, m')
    ensures m'.pcs == m.pcs ||
      (m.cpus[c].cur.Running? && m'.pcs == m.pcs[m.cpus[c].cur.p := Inside(m.pcs[m.cpus[c].cur.p])])
  {
    var p := Exec(m, c);
    InsideCpus(m, c, m');
    InsideJob(p);
    hide LockStep, Owns, Inside;
  }

  /** Such a step changes one position. */
  lemma InsideCpus(m: Machine, c: nat, m': Machine)
    requires c < |m.cpus| && CurOk(m, c) && LockStep(m, c, m')
    requires m.cpus[c].depth > 0
    ensures !Exec(m, c).At? && !Exec(m, c).Out? && |m'.cpus| == |m.cpus|
    ensures forall d: nat :: d < |m.cpus| && d != c ==> m'.cpus[d] == m.cpus[d]
    ensures m'.cpus[c].handler == if m.cpus[c].handler.Some? then Some(Inside(Exec(m, c))) else None
    ensures m'.pcs ==
      (if m.cpus[c].handler.None? && m.cpus[c].cur.Running? then m.pcs[m.cpus[c].cur.p := Inside(Exec(m, c))]
       else m.pcs)
  {
    var p := Exec(m, c);
    var w := if p.Pop? then WithCpu(m, c, Popcli(m.cpus[c]))
      else SetLock(m, p.lk, if p.Mark? then LockOf(m, p.lk).(cpuid := c) else LockOf(m, p.lk).(byte := p.Spin?));
    assert w.pcs == m.pcs && |w.cpus| == |m.cpus| && w.cpus[c].cur == m.cpus[c].cur &&
      w.cpus[c].handler == m.cpus[c].handler;
    GotoPlace(w, c, Inside(p));
    assert m' == Goto(w, c, Inside(p));
    hide Goto, LockStep, Popcli, SetLock;
  }

  lemma GotoPlace(m: Machine, c: nat, q: Pc)
    requires c < |m.cpus| && CurOk(m, c)
    ensures var m' := Goto(m, c, q);
      && |m'.cpus| == |m.cpus| && (forall d: nat :: d < |m.cpus| && d != c ==> m'.cpus[d] == m.cpus[d])
      && m'.cpus[c].handler == (if m.cpus[c].handler.Some? then Some(q) else None)
      && m'.pcs == (if m.cpus[c].handler.None? && m.cpus[c].cur.Running? then m.pcs[m.cpus[c].cur.p := q] else m.pcs)
  {
  }

  lemma InsideJob(p: Pc)
    requires !p.At? && !p.Out?
    ensures Target(Inside(p)) == Target(p)
    ensures forall l :: Owns(p, l) ==> Owns(Inside(p), l)
  {
  }

  lemma MachineDisks(s: State, c: nat, s': State)
    requires Disks(s) && LocksOk(s.m) && Coupled(s) && c < |s.m.cpus| && CurOk(s.m, c) && MachineStep(s, c, s')
    ensures Disks(s')
  {
    assert CpuOk(s, c) && Nested(s.m, c);
    AllProcsOk(s);
    var i := if s.m.cpus[c].cur.Running? then s.m.cpus[c].cur.p else |s.m.pcs|;
    hide Disks, Coupled, LocksOk, CpuOk;
    if LockStep(s.m, c, s'.m) {
      InsideHandlers(s.m, c, s'.m);
      hide LockStep, HandlersSame;
      if i < |s.m.pcs| && !s.m.pcs[i].At? && !s.m.pcs[i].Out? {
        InsideJob(s.m.pcs[i]);
      }
      OwnNeutralDisks(s, s', i);
    } else {
      assert HandlersSame(s.m, s'.m);
      hide HandlersSame, LockStep;
      OwnNeutralDisks(s, s', i);
    }
  }

  lemma ForkDisks(s: State, c: nat, i: nat, x: Loc, s': State)
    requires Disks(s) && Running1(s, c, i, x) && ForkCode(s, c, i, x, s') && !s'.m.panicked
    ensures Disks(s')
  {
    hide Family, Coupled, LocksOk, Acquire, Release, Disks, HandlersSame, Goto, Has;
    assert s.m.cpus[c].handler.None?;
    match x
    case ForkScan =>
      if j: nat :| TakeSlot(s, c, j, s') {
        OwnPcs(s.m, c, i, Table, ForkFill(j), At(x));
        NoHandlerMoves(s.m, c, Table, ForkFill(j), At(x));
        OwnDisks(s, s', i, Clear(Table, ForkFill(j)));
      } else {
        OwnPcs(s.m, c, i, Table, User, At(x));
        NoHandlerMoves(s.m, c, Table, User, At(x));
        OwnDisks(s, s', i, Clear(Table, User));
      }
    case ForkFill(j) =>
      OwnPcs(s.m, c, i, Table, ForkStart(j), At(x));
      NoHandlerMoves(s.m, c, Table, ForkStart(j), At(x));
      SamePlace(s.m, Acquire(s.m, c, Table, ForkStart(j)), s'.m);
      OwnDisks(s, s', i, s'.m.pcs[i]);
    case ForkStart(j) =>
      OwnPcs(s.m, c, i, Table, User, At(x));
      NoHandlerMoves(s.m, c, Table, User, At(x));
      OwnDisks(s, s', i, Clear(Table, User));
  }

  lemma SamePlace(m: Machine, w: Machine, m': Machine)
    requires HandlersSame(m, w) && m'.cpus == w.cpus
    ensures HandlersSame(m, m')
  {
  }

  lemma WaitDisks(s: State, c: nat, i: nat, x: Loc, s': State)
    requires Disks(s) && Running1(s, c, i, x) && WaitCode(s, c, i, x, s') && !s'.m.panicked
    ensures Disks(s')
  {
    hide Family, Coupled, LocksOk, Acquire, Release, Disks, HandlersSame;
    assert s.m.cpus[c].handler.None?;
    match x
    case WaitScan(pid) =>
      if j: nat :| Reap(s, c, i, j, pid, s') {
        OwnPcs(s.m, c, i, Table, User, At(x));
        NoHandlerMoves(s.m, c, Table, User, At(x));
        OwnDisks(s, s', i, Clear(Table, User));
      } else {
        OwnPcs(s.m, c, i, Table, User, Out(WaitWoken(pid)));
        NoHandlerMoves(s.m, c, Table, User, Out(WaitWoken(pid)));
        OwnDisks(s, s', i, Out(WaitWoken(pid)));
      }
    case WaitWoken(pid) =>
      OwnPcs(s.m, c, i, Table, WaitAgain(pid), At(x));
      NoHandlerMoves(s.m, c, Table, WaitAgain(pid), At(x));
      OwnDisks(s, s', i, Clear(Table, WaitAgain(pid)));
    case WaitAgain(pid) =>
      OwnPcs(s.m, c, i, Table, WaitScan(pid), At(x));
      NoHandlerMoves(s.m, c, Table, WaitScan(pid), At(x));
      OwnDisks(s, s', i, Spin(Table, WaitScan(pid)));
  }

  lemma ExitDisks(s: State, c: nat, i: nat, x: Loc, s': State)
    requires Disks(s) && Running1(s, c, i, x) && ExitCode(s, c, i, x, s') && !s'.m.panicked
    ensures Disks(s')
  {
    hide Family, Coupled, LocksOk, Disks, HandlersSame;
    assert s.m.cpus[c].handler.None?;
    var q := if x.ExitHeld? then At(ExitWake) else if x.ExitWake? then At(ExitMark) else Out(Dead);
    OwnPcs(s.m, c, i, Table, User, q);
    NoHandlerMoves(s.m, c, Table, User, q);
    assert s'.m == Goto(s.m, c, q);
    hide Goto;
    OwnDisks(s, s', i, q);
  }

  /** Between two looks at the done flag. */
  lemma WithinOp(s: State, s': State, i: nat, q: Pc)
    requires Disks(s) && HandlersSame(s.m, s'.m) && OthersStill(s, s', i) && s'.reqs == s.reqs && s'.used == s.used
    requires i < |s.procs| && s'.m.pcs[i] == q && s.m.pcs[i].At?
    requires match s.m.pcs[i].loc
      case DiskCheck(h, b) => q == Spin(Table, DiskBed(h, b)) && h < |s.reqs| && !s.reqs[h].done
      case DiskBed(h, b) => q == Clear(Disk, DiskSleep(h, b))
      case DiskSleep(h, b) => q == Out(DiskWoken(h, b))
      case DiskWoken(h, b) => q == Clear(Table, DiskAgain(h, b))
      case DiskAgain(h, b) => q == Spin(Disk, DiskCheck(h, b))
      case _ => false
    ensures Disks(s')
  {
    hide Disks, HandlersSame;
    OwnNeutralDisks(s, s', i);
  }

  lemma DiskDisks(s: State, c: nat, i: nat, x: Loc, s': State)
    requires Disks(s) && Running1(s, c, i, x) && DiskCode(s, c, i, x, s') && !s'.m.panicked
    ensures Disks(s')
  {
    assert s.m.cpus[c].handler.None?;
    hide Family, Coupled, LocksOk, Acquire, Release, Disks, Goto, HandlersSame;
    if HasDisk(x) {
      DiskIsMine(s, c, i);
    }
    match x
    case DiskStart(b) =>
      var h: nat :| Submit(s, c, h, b, s');
      OwnPcs(s.m, c, i, Disk, User, At(DiskCheck(h, b)));
      NoHandlerMoves(s.m, c, Disk, User, At(DiskCheck(h, b)));
      Submitted(s, s', i, h, b);
    case DiskCheck(h, b) =>
      if s.reqs[h].done {
        OwnPcs(s.m, c, i, Disk, User, At(x));
        NoHandlerMoves(s.m, c, Disk, User, At(x));
        Finished(s, s', i, h, b);
      } else {
        OwnPcs(s.m, c, i, Table, DiskBed(h, b), At(x));
        NoHandlerMoves(s.m, c, Table, DiskBed(h, b), At(x));
        WithinOp(s, s', i, Spin(Table, DiskBed(h, b)));
      }
    case DiskBed(h, b) =>
      OwnPcs(s.m, c, i, Disk, DiskSleep(h, b), At(x));
      NoHandlerMoves(s.m, c, Disk, DiskSleep(h, b), At(x));
      WithinOp(s, s', i, Clear(Disk, DiskSleep(h, b)));
    case DiskSleep(h, b) =>
      OwnPcs(s.m, c, i, Disk, DiskSleep(h, b), Out(DiskWoken(h, b)));
      NoHandlerMoves(s.m, c, Disk, User, Out(DiskWoken(h, b)));
      WithinOp(s, s', i, Out(DiskWoken(h, b)));
    case DiskWoken(h, b) =>
      OwnPcs(s.m, c, i, Table, DiskAgain(h, b), At(x));
      NoHandlerMoves(s.m, c, Table, DiskAgain(h, b), At(x));
      WithinOp(s, s', i, Clear(Table, DiskAgain(h, b)));
    case DiskAgain(h, b) =>
      OwnPcs(s.m, c, i, Disk, DiskCheck(h, b), At(x));
      NoHandlerMoves(s.m, c, Disk, DiskCheck(h, b), At(x));
      WithinOp(s, s', i, Spin(Disk, DiskCheck(h, b)));
  }

  lemma ProcDisks(s: State, c: nat, i: nat, x: Loc, s': State)
    requires Disks(s) && Running1(s, c, i, x) && ProcCode(s, c, i, x, s') && !s'.m.panicked
    ensures Disks(s')
  {
    hide Family, Coupled, LocksOk, UserCode, Acquire, Release, Disks, HandlersSame, Goto;
    if x.User? && UserCode(s, c, i, s') {
      UserDisks(s, c, i, s');
    } else if ForkCode(s, c, i, x, s') {
      hide ForkCode;
      ForkDisks(s, c, i, x, s');
    } else if WaitCode(s, c, i, x, s') {
      hide WaitCode;
      WaitDisks(s, c, i, x, s');
    } else if ExitCode(s, c, i, x, s') {
      hide ExitCode;
      ExitDisks(s, c, i, x, s');
    } else if DiskCode(s, c, i, x, s') {
      hide DiskCode;
      DiskDisks(s, c, i, x, s');
    } else if x.YieldHeld? {
      OwnPcs(s.m, c, i, Table, User, Out(YieldBack));
      NoHandlerMoves(s.m, c, Table, User, Out(YieldBack));
      OwnDisks(s, s', i, Out(YieldBack));
    } else {
      OwnPcs(s.m, c, i, Table, User, At(x));
      NoHandlerMoves(s.m, c, Table, User, At(x));
      OwnDisks(s, s', i, Clear(Table, User));
    }
  }

  lemma MaskedHandlers(m: Machine, c: nat, on: bool)
    requires c < |m.cpus|
    ensures HandlersSame(m, Masked(m, c, on))
  {
  }

  lemma UserDisks(s: State, c: nat, i: nat, s': State)
    requires Disks(s) && Running1(s, c, i, User) && UserCode(s, c, i, s') && !s'.m.panicked
    ensures Disks(s')
  {
    hide Family, Coupled, LocksOk, Acquire, Release, Disks, Goto, HandlersSame;
    assert s.m.cpus[c].handler.None?;
    if on: bool :| s' == s.(m := Masked(s.m, c, on)) {
      assert HandlersSame(s.m, s'.m) by {
        MaskedHandlers(s.m, c, on);
      }
      OwnDisks(s, s', i, At(User));
    } else {
      var l: Lock, to: Loc :| Entry(i, l, to) && s' == s.(m := Acquire(s.m, c, l, to));
      OwnPcs(s.m, c, i, l, to, At(User));
      NoHandlerMoves(s.m, c, l, to, At(User));
      OwnDisks(s, s', i, Spin(l, to));
    }
  }

  lemma SchedDisks(s: State, c: nat, x: Loc, s': State)
    requires Disks(s) && Coupled(s) && c < |s.m.cpus| && CurOk(s.m, c) && Exec(s.m, c) == At(x)
    requires s.m.cpus[c].handler.None? && s.m.cpus[c].cur.Sched? && SchedCode(s, c, x, s')
    ensures Disks(s')
  {
    AllProcsOk(s);
    hide Disks, Coupled;
    assert HandlersSame(s.m, s'.m);
    assert s'.m.pcs == s.m.pcs;
    OwnNeutralDisks(s, s', |s.procs|);
  }

  lemma IrqDisks(s: State, c: nat, x: Loc, s': State)
    requires LocksOk(s.m) && Coupled(s) && Disks(s) && c < |s.m.cpus| && CurOk(s.m, c)
    requires s.m.cpus[c].handler == Some(At(x))
    requires IrqCode(s, c, x, s') && !s'.m.panicked
    ensures Disks(s')
  {
    assert s'.m.pcs == s.m.pcs && |s'.procs| == |s.procs|;
    if HasDisk(x) {
      DiskIsMine(s, c, 0);
      forall i: nat | i < |s.procs| ensures !Target(s.m.pcs[i]).DiskBed? {
        DiskIsMine(s, c, i);
      }
      assert HandlerMove(s, s', c);
    }
    match x
    case IrqStart =>
      hide Disks, Coupled, LocksOk;
      OwnNeutralDisks(s, s', |s.procs|);
    case IrqLoop =>
      hide Disks, Coupled, LocksOk;
      if s.used == [] {
        OwnNeutralDisks(s, s', |s.procs|);
      } else {
        Marked(s, s', c, s.used[0]);
      }
    case IrqWake(h) =>
      forall i: nat | i < |s.procs| ensures !Target(s.m.pcs[i]).DiskSleep? && !s.m.pcs[i].Out? {
        NobodyAtBedside(s, c, i);
      }
      hide Disks, Coupled, LocksOk;
      WokenUp(s, s', c, h);
    case IrqNext(h) =>
      hide Disks, Coupled, LocksOk;
      Dropped(s, s', c, h);
  }

  /** A handler with the table lock finds no process about to sleep. */
  lemma NobodyAtBedside(s: State, c: nat, i: nat)
    requires LocksOk(s.m) && Coupled(s) && Disks(s) && c < |s.m.cpus| && CurOk(s.m, c)
    requires s.m.cpus[c].handler.Some? && s.m.cpus[c].handler.value.At? && HasTable(s.m.cpus[c].handler.value.loc)
    requires i < |s.procs| == |s.m.pcs|
    ensures !Target(s.m.pcs[i]).DiskSleep? && !s.m.pcs[i].Out?
  {
    NobodyLeaving(s, c, i);
    if Target(s.m.pcs[i]).DiskSleep? {
      assert Hosted(s, i) && ProcOk(s, i) && AwakeOk(s, i);
      var d: nat :| d < |s.m.cpus| && Hosts(s.m.cpus[d], i);
      assert CpuOk(s, d) && Nested(s.m, d) && s.m.cpus[d].cur == Running(i);
      assert CpuGrips(s.m, d, Table) && CpuGrips(s.m, c, Table);
    }
  }

  lemma DisksStep(s: State, c: nat, s': State)
    requires LocksOk(s.m) && Coupled(s) && Family(s) && Disks(s) && CpuStep(s, c, s')
    ensures Disks(s')
  {
    CpuStepKept(s, c, s');
    if MachineStep(s, c, s') {
      MachineDisks(s, c, s');
    } else {
      OwnCode(s, c);
      AllProcsOk(s);
      var u, x := s.m.cpus[c], Exec(s.m, c).loc;
      hide Family, Coupled, Disks, UserCode, ForkCode, WaitCode, ExitCode, DiskCode, IrqCode, SchedCode;
      if u.handler.Some? {
        IrqDisks(s, c, x, s');
      } else if u.cur.Sched? {
        SchedDisks(s, c, x, s');
      } else {
        ProcDisks(s, c, u.cur.p, x, s');
      }
    }
  }
}
