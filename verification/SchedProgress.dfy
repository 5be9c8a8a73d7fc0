/** The spin locks cannot deadlock: a CPU that waits for one always waits for a CPU that
  can go on. */
module SchedProgress {
  import opened Options
  import opened Spinlock
  import opened Scheduler
  import opened SchedCoupling
  import opened SchedFamily
  import opened SchedDisk
  import opened SchedRuns

  ghost predicate CanStep(s: State, c: nat) {
    exists s' :: CpuStep(s, c, s')
  }

  /** CPU c is in the loop that waits for the byte of lock l. */
  predicate Waits(m: Machine, c: nat, l: Lock) {
    c < |m.cpus| && CurOk(m, c) && Exec(m, c).Spin? && Exec(m, c).lk == l && LockOf(m, l).byte
  }

  /** CPU c is about to submit a request while every descriptor heads one; the driver
      panics when it finds no free descriptor. */
  predicate OutOfDescriptors(s: State, c: nat) {
    && c < |s.m.cpus| && CurOk(s.m, c) && Exec(s.m, c).At? && Exec(s.m, c).loc.DiskStart?
    && forall h :: 0 <= h < |s.reqs| ==> s.reqs[h].inflight
  }

  // ---- Every place in the code has a next step

  lemma SchedNext(s: State, c: nat, x: Loc) returns (s': State)
    requires c < |s.m.cpus| && CurOk(s.m, c) && s.m.cpus[c].handler.None? && s.m.cpus[c].cur.Sched? && SchedLoc(x)
    requires x.Go? ==> x.k < |s.m.pcs|
    ensures SchedCode(s, c, x, s')
  {
    match x
    case Idle => s' := s.(m := WithCpu(s.m, c, s.m.cpus[c].(irq := true)));
    case Scan(k) =>
      s' := if k >= |s.procs| then s.(m := Release(s.m, c, Table, Idle))
            else if s.procs[k].state != RUNNABLE then s.(m := Goto(s.m, c, At(Scan(k + 1))))
            else s.(procs := SetState(s.procs, k, RUNNING),
                    m := WithPc(s.m, c, s.m.cpus[c].(proc := Some(k)), At(Go(k))));
    case Go(k) => s' := s.(m := WithCpu(s.m, c, s.m.cpus[c].(cur := Running(k), sched := At(Back(k)))));
    case Back(k) => s' := s.(m := WithPc(s.m, c, s.m.cpus[c].(proc := None), At(Scan(k + 1))));
  }

  lemma IrqNextStep(s: State, c: nat, x: Loc) returns (s': State)
    requires Inv(s) && c < |s.m.cpus| && CurOk(s.m, c) && s.m.cpus[c].handler == Some(At(x))
    requires IrqLoc(x) && !x.IrqEnd?
    ensures IrqCode(s, c, x, s')
  {
    assert HandlerOk(s, c);
    match x
    case IrqStart => s' := s.(m := Acquire(s.m, c, Disk, IrqLoop));
    case IrqLoop =>
      if s.used == [] {
        s' := s.(m := Release(s.m, c, Disk, IrqEnd));
      } else {
        assert UsedOk(s, 0);
        var h := s.used[0];
        s' := s.(reqs := s.reqs[h := s.reqs[h].(done := true)], m := Acquire(s.m, c, Table, IrqWake(h)));
      }
    case IrqWake(h) => s' := s.(procs := WakeAll(s.procs, BufChan(s.reqs[h])), m := Release(s.m, c, Table, IrqNext(h)));
    case IrqNext(h) =>
      s' := s.(reqs := s.reqs[h := s.reqs[h].(buf := None)], used := s.used[1..], m := Goto(s.m, c, At(IrqLoop)));
  }

  lemma ForkNext(s: State, c: nat, i: nat, x: Loc) returns (s': State)
    requires Inv(s) && c < |s.m.cpus| && CurOk(s.m, c) && i < |s.procs| == |s.m.pcs| && s.m.pcs[i] == At(x)
    requires x.ForkScan? || x.ForkFill? || x.ForkStart?
    ensures ForkCode(s, c, i, x, s')
  {
    assert ForkOk(s, i);
    match x
    case ForkScan =>
      if j: nat :| j < |s.procs| && s.procs[j].state == UNUSED {
        s' := s.(procs := SetState(s.procs, j, CREATED), m := Release(s.m, c, Table, ForkFill(j)));
        assert TakeSlot(s, c, j, s');
      } else {
        s' := s.(m := Release(s.m, c, Table, User));
      }
    case ForkFill(j) =>
      var m := Acquire(s.m, c, Table, ForkStart(j));
      s' := s.(procs := s.procs[j := s.procs[j].(pid := s.nextpid)], nextpid := s.nextpid + 1,
               m := m.(pcs := m.pcs[j := At(ForkRet)]));
    case ForkStart(j) =>
      s' := s.(procs := s.procs[j := s.procs[j].(state := RUNNABLE, parent := Some(i))],
        m := Release(s.m, c, Table, User));
  }

  lemma WaitNext(s: State, c: nat, i: nat, x: Loc) returns (s': State)
    requires c < |s.m.cpus| && CurOk(s.m, c) && i < |s.procs| && (x.WaitScan? || x.WaitWoken? || x.WaitAgain?)
    ensures WaitCode(s, c, i, x, s')
  {
    match x
    case WaitScan(pid) =>
      if j: nat :| j < |s.procs| && Reapable(s.procs[j], i, pid) {
        s' := if Holding(s.m, c, Table) then s.(procs := s.procs[j := FREED], m := Release(s.m, c, Table, User))
              else s.(m := s.m.(panicked := true));
        assert Reap(s, c, i, j, pid, s');
      } else {
        s' := s.(procs := Asleep(s.procs, i, OnProc(i)), m := Goto(s.m, c, Out(WaitWoken(pid))));
      }
    case WaitWoken(pid) =>
      s' := s.(procs := s.procs[i := s.procs[i].(chan := None)], m := Release(s.m, c, Table, WaitAgain(pid)));
    case WaitAgain(pid) => s' := s.(m := Acquire(s.m, c, Table, WaitScan(pid)));
  }

  lemma DiskNext(s: State, c: nat, i: nat, x: Loc) returns (s': State)
    requires Inv(s) && c < |s.m.cpus| && CurOk(s.m, c) && i < |s.procs| == |s.m.pcs| && s.m.pcs[i] == At(x)
    requires x.DiskStart? || OpLoc(x)
    requires x.DiskStart? ==> exists h :: 0 <= h < |s.reqs| && !s.reqs[h].inflight
    ensures DiskCode(s, c, i, x, s')
  {
    assert OpOk(s, i);
    match x
    case DiskStart(b) =>
      var h: nat :| h < |s.reqs| && !s.reqs[h].inflight;
      s' := s.(reqs := s.reqs[h := s.reqs[h].(inflight := true, atDevice := true, buf := Some(b))],
               m := Goto(s.m, c, At(DiskCheck(h, b))));
      assert Submit(s, c, h, b, s');
    case DiskCheck(h, b) =>
      s' := if s.reqs[h].done
            then s.(reqs := s.reqs[h := s.reqs[h].(done := false, inflight := false)], m := Release(s.m, c, Disk, User))
            else s.(m := Acquire(s.m, c, Table, DiskBed(h, b)));
    case DiskBed(h, b) => s' := s.(m := Release(s.m, c, Disk, DiskSleep(h, b)));
    case DiskSleep(h, b) =>
      s' := s.(procs := Asleep(s.procs, i, OnBuf(b)), m := Goto(s.m, c, Out(DiskWoken(h, b))));
    case DiskWoken(h, b) =>
      s' := s.(procs := s.procs[i := s.procs[i].(chan := None)], m := Release(s.m, c, Table, DiskAgain(h, b)));
    case DiskAgain(h, b) => s' := s.(m := Acquire(s.m, c, Disk, DiskCheck(h, b)));
  }

  lemma OtherNext(s: State, c: nat, i: nat, x: Loc) returns (s': State)
    requires c < |s.m.cpus| && CurOk(s.m, c) && i < |s.procs|
    requires x.User? || x.ForkRet? || x.YieldHeld? || x.YieldBack? || x.ExitHeld? || x.ExitWake? || x.ExitMark? ||
      x.Dead?
    ensures ProcCode(s, c, i, x, s')
  {
    match x
    case User =>
      s' := s.(m := Masked(s.m, c, true));
      assert UserCode(s, c, i, s');
    case ForkRet => s' := s.(m := Release(s.m, c, Table, User));
    case YieldHeld => s' := s.(procs := SetState(s.procs, i, RUNNABLE), m := Goto(s.m, c, Out(YieldBack)));
    case YieldBack => s' := s.(m := Release(s.m, c, Table, User));
    case ExitHeld => s' := s.(procs := Reparent(s.procs, i), m := Goto(s.m, c, At(ExitWake)));
    case ExitWake => s' := s.(procs := WakeAll(s.procs, ParentChan(s.procs[i])), m := Goto(s.m, c, At(ExitMark)));
    case ExitMark => s' := s.(procs := SetState(s.procs, i, ZOMBIE), m := Goto(s.m, c, Out(Dead)));
    case Dead => s' := s.(m := s.m.(panicked := true));
  }

  lemma ProcNext(s: State, c: nat, i: nat, x: Loc) returns (s': State)
    requires Inv(s) && c < |s.m.cpus| && CurOk(s.m, c) && i < |s.procs| == |s.m.pcs| && s.m.pcs[i] == At(x) &&
      ProcLoc(x)
    requires x.DiskStart? ==> exists h :: 0 <= h < |s.reqs| && !s.reqs[h].inflight
    ensures ProcCode(s, c, i, x, s')
  {
    hide Inv, ForkCode, WaitCode, DiskCode, ExitCode, UserCode;
    if x.ForkScan? || x.ForkFill? || x.ForkStart? {
      s' := ForkNext(s, c, i, x);
    } else if x.WaitScan? || x.WaitWoken? || x.WaitAgain? {
      s' := WaitNext(s, c, i, x);
    } else if x.DiskStart? || OpLoc(x) {
      s' := DiskNext(s, c, i, x);
    } else {
      s' := OtherNext(s, c, i, x);
    }
  }

  /** Inside acquire and release, and at a switch to the scheduler. */
  lemma MachineNext(s: State, c: nat)
    requires Inv(s) && c < |s.m.cpus| && CurOk(s.m, c) && !Exec(s.m, c).At?
    requires Exec(s.m, c).Spin? ==> !Waits(s.m, c, Exec(s.m, c).lk)
    ensures CanStep(s, c)
  {
    var m, p := s.m, Exec(s.m, c);
    assert CpuOk(s, c);
    var m';
    match p {
      case Spin(l, to) => m' := Goto(SetLock(m, l, LockOf(m, l).(byte := true)), c, Mark(l, to));
      case Mark(l, to) => m' := Goto(SetLock(m, l, LockOf(m, l).(cpuid := c)), c, At(to));
      case Clear(l, to) => m' := Goto(SetLock(m, l, LockOf(m, l).(byte := false)), c, Pop(l, to));
      case Pop(l, to) =>
        m' := if m.cpus[c].depth == 0 then m.(panicked := true) else WithPc(m, c, Popcli(m.cpus[c]), At(to));
      case Out(x) => m' := WithCpu(Goto(m, c, At(x)), c, m.cpus[c].(cur := Sched));
    }
    assert if p.Out? then SwitchOut(m, c, m') else LockStep(m, c, m');
    assert CpuStep(s, c, s.(m := m'));
  }

  /** A CPU can go on unless it waits for a lock that is taken, or is out of descriptors. */
  lemma Enabled(s: State, c: nat)
    requires Inv(s) && c < |s.m.cpus|
    ensures CanStep(s, c) || OutOfDescriptors(s, c) || Waits(s.m, c, Table) || Waits(s.m, c, Disk)
  {
    assert CurOk(s.m, c) && CpuOk(s, c);
    var u, p := s.m.cpus[c], Exec(s.m, c);
    if !p.At? {
      if p.Spin? && LockOf(s.m, p.lk).byte {
        assert Waits(s.m, c, p.lk);
      } else {
        MachineNext(s, c);
      }
    } else if u.handler.Some? {
      hide Inv;
      if p.loc.IrqEnd? {
        var s' := s.(m := WithCpu(s.m, c, u.(handler := None, irq := true)));
        assert IrqReturn(s.m, c, s'.m);
        assert CpuStep(s, c, s');
      } else {
        var s' := IrqNextStep(s, c, p.loc);
        assert CpuStep(s, c, s');
      }
    } else if u.cur.Running? {
      if !OutOfDescriptors(s, c) {
        hide Inv, ProcCode;
        var s' := ProcNext(s, c, u.cur.p, p.loc);
        assert CpuStep(s, c, s');
      }
    } else {
      hide Inv, SchedCode;
      var s' := SchedNext(s, c, p.loc);
      assert CpuStep(s, c, s');
    }
  }

  // ---- Who waits for whom

  /** CPU d holds lock l and does not wait for the process table; if it waits for
      another lock it holds the disk lock and waits for the process table. */
  lemma HolderOf(m: Machine, l: Lock) returns (d: nat)
    requires LocksOk(m) && LockOf(m, l).byte
    ensures d < |m.cpus| && CpuGrips(m, d, l) && CurOk(m, d) && !Waits(m, d, Disk)
    ensures Waits(m, d, Table) ==> l == Disk
  {
    assert Exclusive(m, l) && Gripped(m, l);
    d :| d < |m.cpus| && CpuGrips(m, d, l);
    assert Nested(m, d);
    if m.cpus[d].handler.Some? {
      FreeThread(Base(m, d), l);
    }
    assert Grip(Exec(m, d), l) && PcOk(Exec(m, d));
  }

  /** The holder of a taken lock waits for nobody, or for the holder of the process table,
      who waits for nobody. */
  lemma HolderGoesOn(m: Machine, l: Lock) returns (d: nat, k: Lock)
    requires LocksOk(m) && LockOf(m, l).byte
    ensures d < |m.cpus| && CurOk(m, d) && CpuGrips(m, d, k) && !Waits(m, d, Table) && !Waits(m, d, Disk)
    ensures k == l || (l == Disk && k == Table)
  {
    d := HolderOf(m, l);
    k := l;
    if Waits(m, d, Table) {
      d := HolderOf(m, Table);
      k := Table;
    }
  }

  /** In every run, while a CPU waits for a lock some CPU that holds this lock, or the
      process table in case of the disk lock, can take its next step. */
  lemma NoDeadlock(ss: seq<State>, n: nat, c: nat, l: Lock)
    requires Run(ss) && n < |ss| && Waits(ss[n].m, c, l)
    ensures exists d: nat, k: Lock ::
      && (k == l || (l == Disk && k == Table))
      && Holds(ss[n].m, d, k) && (CanStep(ss[n], d) || OutOfDescriptors(ss[n], d))
  {
    var s := ss[n];
    Always(ss, n);
    var d, k := HolderGoesOn(s.m, l);
    Enabled(s, d);
    assert Holds(s.m, d, k);
  }

  /** CPU d keeps the byte of lock k set. */
  predicate Holds(m: Machine, d: nat, k: Lock) {
    d < |m.cpus| && CurOk(m, d) && CpuGrips(m, d, k)
  }

  /** So no state of a run is stuck: one CPU at least can go on, unless it is out of
      descriptors. */
  lemma NeverStuck(ss: seq<State>, n: nat)
    requires Run(ss) && n < |ss| && |ss[0].m.cpus| > 0
    ensures exists d: nat :: CanStep(ss[n], d) || OutOfDescriptors(ss[n], d)
  {
    var s := ss[n];
    Always(ss, n);
    hide Run, Inv, CanStep;
    if Waits(s.m, 0, Table) {
      NoDeadlock(ss, n, 0, Table);
    } else if Waits(s.m, 0, Disk) {
      NoDeadlock(ss, n, 0, Disk);
    } else {
      Enabled(s, 0);
    }
  }
}
