/** Which CPU runs which process: a process is RUNNING exactly when it is the
  current process of one CPU, up to the moments at which that CPU holds the
  process-table lock to change its mind. */
module SchedCoupling {
  import opened Spinlock
  import opened Scheduler
  import opened Options

  predicate SchedLoc(x: Loc) {
    x.Idle? || x.Scan? || x.Go? || x.Back?
  }

  predicate IrqLoc(x: Loc) {
    x.IrqStart? || x.IrqLoop? || x.IrqWake? || x.IrqNext? || x.IrqEnd?
  }

  predicate ProcLoc(x: Loc) {
    !SchedLoc(x) && !IrqLoc(x)
  }

  /** Where a switched-out process resumes, with the table lock handed to it. */
  predicate Resumable(x: Loc) {
    x.ForkRet? || x.YieldBack? || x.WaitWoken? || x.DiskWoken?
  }

  predicate Parked(p: Pc) {
    p.At? && (Resumable(p.loc) || p.loc.Dead?)
  }

  /** The channel of a process asleep inside wait or a disk operation. */
  function SleepChan(i: nat, x: Loc): Option<Chan> {
    if x.WaitWoken? then Some(OnProc(i)) else if x.DiskWoken? then Some(OnBuf(x.buf)) else None
  }

  /** A process's state agrees with its position. */
  predicate StateOk(i: nat, p: Proc, pc: Pc) {
    match p.state
    case UNUSED => pc == At(Dead) && p.parent.None?
    case CREATED => (pc == At(Dead) || pc == At(ForkRet)) && p.parent.None?
    case RUNNING => ProcLoc(Target(pc)) && !pc.Out? && !Target(pc).Dead?
    case RUNNABLE => (pc.At? || pc.Out?) && Resumable(Target(pc))
    case SLEEPING => (pc.At? || pc.Out?) && (Target(pc).WaitWoken? || Target(pc).DiskWoken?) &&
      p.chan == SleepChan(i, Target(pc))
    case ZOMBIE => pc == Out(Dead) || pc == At(Dead)
  }

  predicate ProcOk(s: State, i: nat)
    requires i < |s.procs| == |s.m.pcs|
  {
    StateOk(i, s.procs[i], s.m.pcs[i])
  }

  predicate CpuOk(s: State, c: nat)
    requires c < |s.m.cpus| && |s.procs| == |s.m.pcs|
  {
    var u := s.m.cpus[c];
    && (u.handler.Some? ==> IrqLoc(Target(u.handler.value)) && !u.handler.value.Out?)
    && (if u.cur.Running? then
          && u.cur.p < |s.procs| && u.proc == Some(u.cur.p) && u.sched == At(Back(u.cur.p))
          && ProcLoc(Target(s.m.pcs[u.cur.p]))
          && (s.m.pcs[u.cur.p].Out? || s.procs[u.cur.p].state == RUNNING)
        else
          && SchedLoc(Target(u.sched)) && !u.sched.Out?
          && (if Target(u.sched).Go? || Target(u.sched).Back? then
                && u.sched.At? && u.sched.loc.k < |s.procs| && u.proc == Some(u.sched.loc.k)
                && (s.procs[u.sched.loc.k].state == RUNNING <==> u.sched.loc.Go?)
                && Parked(s.m.pcs[u.sched.loc.k])
              else u.proc.None?))
  }

  /** c has process i as its current process, and has not yet got it back. */
  predicate Hosts(u: Cpu, i: nat) {
    u.proc == Some(i) && (u.cur == Running(i) || u.sched == At(Go(i)))
  }

  /** A process that is RUNNING or in the middle of code is on some CPU. */
  ghost predicate Hosted(s: State, i: nat)
    requires i < |s.procs| == |s.m.pcs|
  {
    s.procs[i].state == RUNNING || !Parked(s.m.pcs[i]) ==> exists c: nat :: c < |s.m.cpus| && Hosts(s.m.cpus[c], i)
  }

  /** No two CPUs have the same current process. */
  predicate Distinct(s: State, c: nat, d: nat)
    requires c < |s.m.cpus| && d < |s.m.cpus|
  {
    c != d && s.m.cpus[c].proc.Some? ==> s.m.cpus[c].proc != s.m.cpus[d].proc
  }

  ghost predicate Coupled(s: State) {
    && |s.procs| == |s.m.pcs|
    && (forall i: nat :: i < |s.procs| ==> ProcOk(s, i))
    && (forall i: nat :: i < |s.procs| ==> Hosted(s, i))
    && (forall c: nat :: c < |s.m.cpus| ==> CpuOk(s, c))
    && (forall c: nat, d: nat :: c < |s.m.cpus| && d < |s.m.cpus| ==> Distinct(s, c, d))
  }

  /** While c holds the table lock, every other CPU's current process is RUNNING
      on it. */
  lemma ElsewhereRuns(s: State, c: nat, d: nat)
    requires LocksOk(s.m) && Coupled(s) && c < |s.m.cpus| && d < |s.m.cpus| && c != d
    requires Owns(Exec(s.m, c), Table) && s.m.cpus[d].proc.Some?
    ensures var i := s.m.cpus[d].proc.value;
      i < |s.procs| && s.m.cpus[d].cur == Running(i) && s.procs[i].state == RUNNING
  {
    assert CpuOk(s, d);
    HoldingExact(s.m, c, Table);
    OwnsGrips(s.m, c, Table);
    if CpuOwns(s.m, d, Table) {
      OwnsGrips(s.m, d, Table);
      assert false;
    }
    var u := s.m.cpus[d];
    assert Nested(s.m, d);
  }

  /** The frame a step of c must respect for the coupling to survive. */
  ghost predicate Frame(s: State, s': State, c: nat)
    requires |s.procs| == |s.m.pcs| && Others(s.m, s'.m, c)
  {
    && |s'.procs| == |s'.m.pcs| == |s.procs|
    && forall d: nat :: d < |s.m.cpus| && d != c && s.m.cpus[d].proc.Some? ==> FrameAt(s, s', s.m.cpus[d].proc.value)
  }

  predicate FrameAt(s: State, s': State, i: nat)
    requires |s.procs| == |s.m.pcs| == |s'.procs| == |s'.m.pcs|
  {
    i < |s.procs| ==> s'.procs[i].state == s.procs[i].state && s'.m.pcs[i] == s.m.pcs[i]
  }

  lemma CpuFrame(s: State, s': State, c: nat, d: nat)
    requires LocksOk(s.m) && Coupled(s) && Others(s.m, s'.m, c) && Frame(s, s', c) && d < |s.m.cpus| && d != c
    ensures CpuOk(s', d)
  {
    assert CpuOk(s, d) && Same(s.m, s'.m, d);
    if s.m.cpus[d].proc.Some? {
      assert FrameAt(s, s', s.m.cpus[d].proc.value);
    }
  }

  lemma CoupledStep(s: State, s': State, c: nat)
    requires LocksOk(s.m) && Coupled(s) && Others(s.m, s'.m, c) && Frame(s, s', c)
    requires CpuOk(s', c)
    requires forall i: nat :: i < |s'.procs| ==> ProcOk(s', i)
    requires s'.m.cpus[c].proc.Some? ==> forall d: nat :: d < |s.m.cpus| ==> Distinct(s', c, d)
    requires forall i: nat :: i < |s'.procs| && (s'.procs[i].state == RUNNING || !Parked(s'.m.pcs[i])) ==>
      Hosts(s'.m.cpus[c], i) || ((s.procs[i].state == RUNNING || !Parked(s.m.pcs[i])) && !Hosts(s.m.cpus[c], i))
    ensures Coupled(s')
  {
    forall d: nat | d < |s'.m.cpus| ensures CpuOk(s', d) {
      if d != c {
        CpuFrame(s, s', c, d);
      }
    }
    hide CpuOk, FrameAt, Parked, ProcOk, LocksOk;
    forall i: nat | i < |s'.procs| ensures Hosted(s', i) {
      if (s'.procs[i].state == RUNNING || !Parked(s'.m.pcs[i])) && !Hosts(s'.m.cpus[c], i) {
        assert Hosted(s, i);
        var d: nat :| d < |s.m.cpus| && Hosts(s.m.cpus[d], i);
        assert Same(s.m, s'.m, d) && Hosts(s'.m.cpus[d], i);
      }
    }
    hide Hosts, Hosted;
    forall d: nat, e: nat | d < |s'.m.cpus| && e < |s'.m.cpus| ensures Distinct(s', d, e) {
      if d != c && e != c {
        assert Distinct(s, d, e) && Same(s.m, s'.m, d) && Same(s.m, s'.m, e);
      } else if d == c && e != c {
        assert s'.m.cpus[c].proc.Some? ==> Distinct(s', c, e);
      } else if d != c && e == c {
        assert s'.m.cpus[c].proc.Some? ==> Distinct(s', c, d);
      }
    }
  }

  // ---- The steps

  /** A position the executing thread of c may be at in the middle of its code. */
  predicate MidCode(u: Cpu, q: Pc) {
    && !q.Out?
    && if u.handler.Some? then IrqLoc(Target(q))
       else if u.cur.Running? then ProcLoc(Target(q)) && !Target(q).Dead?
       else SchedLoc(Target(q)) && !Target(q).Go? && !Target(q).Back?
  }

  /** The process whose code c executes. */
  predicate Own(u: Cpu, i: nat) {
    u.handler.None? && u.cur == Running(i)
  }

  /** Changes to the table that leave RUNNING processes RUNNING and the others
      consistent with their positions. */
  ghost predicate TableChange(s: State, procs': seq<Proc>)
    requires |s.procs| == |s.m.pcs|
  {
    && |procs'| == |s.procs|
    && forall i: nat :: i < |procs'| ==> ProcChange(s, procs', i)
  }

  predicate ProcChange(s: State, procs': seq<Proc>, i: nat)
    requires i < |procs'| == |s.procs| == |s.m.pcs|
  {
    && (procs'[i].state == RUNNING <==> s.procs[i].state == RUNNING)
    && StateOk(i, procs'[i], s.m.pcs[i])
  }

  lemma MoveCoupled(s: State, s': State, c: nat, u: Cpu, q: Pc)
    requires LocksOk(s.m) && Coupled(s) && Others(s.m, s'.m, c) && Moved(s.m, s'.m, c, u, q)
    requires u.proc == s.m.cpus[c].proc && MidCode(u, Exec(s.m, c)) && MidCode(u, q) && TableChange(s, s'.procs)
    requires Owns(Exec(s.m, c), Table) || forall i :: 0 <= i < |s.procs| ==> s'.procs[i].state == s.procs[i].state
    ensures Coupled(s')
  {
    assert CpuOk(s, c) && CurOk(s.m, c);
    forall d: nat | d < |s.m.cpus| && d != c && s.m.cpus[d].proc.Some? ensures FrameAt(s, s', s.m.cpus[d].proc.value) {
      HostKept(s, s', c, d, u, q);
    }
    forall i: nat | i < |s'.procs| ensures ProcOk(s', i) {
      assert ProcOk(s, i) && ProcChange(s, s'.procs, i);
    }
    forall d: nat | d < |s.m.cpus| ensures Distinct(s', c, d) {
      assert Distinct(s, c, d) && (d != c ==> Same(s.m, s'.m, d));
    }
    forall i: nat | i < |s'.procs| && (s'.procs[i].state == RUNNING || !Parked(s'.m.pcs[i]))
      ensures Hosts(s'.m.cpus[c], i) ||
        ((s.procs[i].state == RUNNING || !Parked(s.m.pcs[i])) && !Hosts(s.m.cpus[c], i)) {
      assert ProcChange(s, s'.procs, i);
    }
    assert CpuOk(s', c) by {
      MoveCpuOk(s, s', c, u, q);
    }
    hide CpuOk, FrameAt, ProcOk, TableChange, Moved, LocksOk, Others, MidCode, Hosts;
    assert Frame(s, s', c);
    CoupledStep(s, s', c);
  }

  lemma MoveCpuOk(s: State, s': State, c: nat, u: Cpu, q: Pc)
    requires Shape(s.m) && Coupled(s) && c < |s.m.cpus| && Moved(s.m, s'.m, c, u, q)
    requires u.proc == s.m.cpus[c].proc && MidCode(u, Exec(s.m, c)) && MidCode(u, q) && TableChange(s, s'.procs)
    ensures c < |s'.m.cpus| && |s'.procs| == |s'.m.pcs| && CpuOk(s', c)
  {
    assert CurOk(s.m, c) && CpuOk(s, c);
    if s.m.cpus[c].cur.Running? {
      assert ProcChange(s, s'.procs, s.m.cpus[c].cur.p);
    } else if s.m.cpus[c].proc.Some? {
      assert ProcChange(s, s'.procs, s.m.cpus[c].proc.value);
    }
  }

  /** Another CPU's current process is not touched. */
  lemma HostKept(s: State, s': State, c: nat, d: nat, u: Cpu, q: Pc)
    requires LocksOk(s.m) && Coupled(s) && c < |s.m.cpus| && Moved(s.m, s'.m, c, u, q) && TableChange(s, s'.procs)
    requires d < |s.m.cpus| && d != c && s.m.cpus[d].proc.Some?
    requires Owns(Exec(s.m, c), Table) || forall i :: 0 <= i < |s.procs| ==> s'.procs[i].state == s.procs[i].state
    ensures |s'.procs| == |s'.m.pcs| && FrameAt(s, s', s.m.cpus[d].proc.value)
  {
    var i := s.m.cpus[d].proc.value;
    assert CurOk(s.m, c) && |s'.m.pcs| == |s.m.pcs|;
    if i < |s.procs| {
      assert ProcChange(s, s'.procs, i);
      if Owns(Exec(s.m, c), Table) {
        ElsewhereRuns(s, c, d);
      }
      assert CpuOk(s, c) && Distinct(s, d, c);
    }
  }

  /** yield, sleep and exit give the process its new state, then switch out. */
  lemma LeaveCoupled(s: State, s': State, c: nat, i: nat, q: Pc)
    requires LocksOk(s.m) && Coupled(s) && Others(s.m, s'.m, c) && s'.m == Goto(s.m, c, q)
    requires Own(s.m.cpus[c], i) && Exec(s.m, c).At? && Owns(Exec(s.m, c), Table) && q.Out? && ProcLoc(q.back)
    requires i < |s.procs| == |s'.procs| && s'.procs == s.procs[i := s'.procs[i]]
    requires s'.procs[i].state != RUNNING && StateOk(i, s'.procs[i], q)
    ensures Coupled(s')
  {
    assert CpuOk(s, c) && CurOk(s.m, c);
    forall d: nat | d < |s.m.cpus| && d != c && s.m.cpus[d].proc.Some? ensures FrameAt(s, s', s.m.cpus[d].proc.value) {
      assert Distinct(s, d, c);
    }
    forall j: nat | j < |s'.procs| ensures ProcOk(s', j) {
      assert ProcOk(s, j);
    }
    forall d: nat | d < |s.m.cpus| ensures Distinct(s', c, d) {
      assert Distinct(s, c, d) && (d != c ==> Same(s.m, s'.m, d));
    }
    assert CpuOk(s', c);
    hide CpuOk, FrameAt, ProcOk, LocksOk, Others;
    CoupledStep(s, s', c);
  }

  lemma SwitchOutCoupled(s: State, s': State, c: nat)
    requires LocksOk(s.m) && Coupled(s) && Others(s.m, s'.m, c) && SwitchOut(s.m, c, s'.m) && s'.procs == s.procs
    ensures Coupled(s')
  {
    assert CpuOk(s, c) && CurOk(s.m, c);
    var i := s.m.cpus[c].cur.p;
    assert ProcOk(s, i);
    forall d: nat | d < |s.m.cpus| && d != c && s.m.cpus[d].proc.Some? ensures FrameAt(s, s', s.m.cpus[d].proc.value) {
      assert Distinct(s, d, c);
    }
    forall j: nat | j < |s'.procs| ensures ProcOk(s', j) {
      assert ProcOk(s, j);
    }
    forall d: nat | d < |s.m.cpus| ensures Distinct(s', c, d) {
      assert Distinct(s, c, d) && (d != c ==> Same(s.m, s'.m, d));
    }
    assert CpuOk(s', c);
    hide CpuOk, FrameAt, ProcOk, LocksOk, Others;
    CoupledStep(s, s', c);
  }

  lemma DispatchCoupled(s: State, s': State, c: nat, k: nat)
    requires LocksOk(s.m) && Coupled(s) && c < |s.m.cpus| && CurOk(s.m, c) && Dispatch(s, c, k, s')
    requires Others(s.m, s'.m, c)
    requires s.m.cpus[c].handler.None? && s.m.cpus[c].cur.Sched? && Exec(s.m, c) == At(Scan(k))
    ensures Coupled(s')
  {
    assert CpuOk(s, c) && ProcOk(s, k) && Hosted(s, k);
    forall d: nat | d < |s.m.cpus| && d != c && s.m.cpus[d].proc.Some?
      ensures s.m.cpus[d].proc != Some(k) && FrameAt(s, s', s.m.cpus[d].proc.value) && !Hosts(s.m.cpus[d], k)
    {
      ElsewhereRuns(s, c, d);
    }
    assert Parked(s.m.pcs[k]);
    forall j: nat | j < |s'.procs| ensures ProcOk(s', j) {
      assert ProcOk(s, j);
    }
    forall d: nat | d < |s.m.cpus| ensures Distinct(s', c, d) {
      if d != c {
        assert Same(s.m, s'.m, d);
      }
    }
    assert CpuOk(s', c);
    hide CpuOk, FrameAt, ProcOk, LocksOk, Others;
    CoupledStep(s, s', c);
  }

  /** The process about to be entered is executed by no CPU. */
  lemma GoAlone(s: State, c: nat, k: nat)
    requires LocksOk(s.m) && Coupled(s) && c < |s.m.cpus| && s.m.cpus[c].cur.Sched? && s.m.cpus[c].sched == At(Go(k))
    ensures k < |s.procs| && s.m.pcs[k].At? && Resumable(s.m.pcs[k].loc) && s.m.cpus[c].proc == Some(k)
    ensures forall d: nat :: d < |s.m.cpus| ==> s.m.cpus[d].cur != Running(k)
  {
    assert CpuOk(s, c) && ProcOk(s, k);
    forall d: nat | d < |s.m.cpus| ensures s.m.cpus[d].cur != Running(k) {
      assert CpuOk(s, d) && Distinct(s, c, d);
    }
  }

  lemma GoCoupled(s: State, s': State, c: nat, k: nat)
    requires LocksOk(s.m) && Coupled(s) && Others(s.m, s'.m, c) && SwitchIn(s.m, c, k, s'.m) && s'.procs == s.procs
    requires Exec(s.m, c) == At(Go(k))
    ensures Coupled(s')
  {
    assert CpuOk(s, c) && ProcOk(s, k);
    GoAlone(s, c, k);
    forall d: nat | d < |s.m.cpus| && d != c && s.m.cpus[d].proc.Some? ensures FrameAt(s, s', s.m.cpus[d].proc.value) {
    }
    forall j: nat | j < |s'.procs| ensures ProcOk(s', j) {
      assert ProcOk(s, j);
    }
    forall d: nat | d < |s.m.cpus| ensures Distinct(s', c, d) {
      assert Distinct(s, c, d) && (d != c ==> Same(s.m, s'.m, d));
    }
    assert CpuOk(s', c);
    hide CpuOk, FrameAt, ProcOk, LocksOk, Others;
    CoupledStep(s, s', c);
  }

  lemma BackCoupled(s: State, s': State, c: nat, k: nat)
    requires LocksOk(s.m) && Coupled(s) && Others(s.m, s'.m, c) && s'.procs == s.procs
    requires CurOk(s.m, c) && s'.m == WithPc(s.m, c, s.m.cpus[c].(proc := None), At(Scan(k + 1)))
    requires s.m.cpus[c].handler.None? && s.m.cpus[c].cur.Sched? && Exec(s.m, c) == At(Back(k))
    ensures Coupled(s')
  {
    assert CpuOk(s, c);
    forall d: nat | d < |s.m.cpus| && d != c && s.m.cpus[d].proc.Some? ensures FrameAt(s, s', s.m.cpus[d].proc.value) {
    }
    forall j: nat | j < |s'.procs| ensures ProcOk(s', j) {
      assert ProcOk(s, j);
    }
    assert CpuOk(s', c);
    hide CpuOk, FrameAt, ProcOk, LocksOk, Others;
    CoupledStep(s, s', c);
  }

  /** Taking and leaving an interrupt concern the handler alone. */
  lemma HandlerCoupled(s: State, s': State, c: nat)
    requires LocksOk(s.m) && Coupled(s) && Others(s.m, s'.m, c) && s'.procs == s.procs
    requires IrqEnter(s.m, c, s'.m) || IrqReturn(s.m, c, s'.m)
    ensures Coupled(s')
  {
    assert CpuOk(s, c);
    forall d: nat | d < |s.m.cpus| && d != c && s.m.cpus[d].proc.Some? ensures FrameAt(s, s', s.m.cpus[d].proc.value) {
    }
    forall j: nat | j < |s'.procs| ensures ProcOk(s', j) {
      assert ProcOk(s, j);
    }
    forall d: nat | d < |s.m.cpus| ensures Distinct(s', c, d) {
      assert Distinct(s, c, d) && (d != c ==> Same(s.m, s'.m, d));
    }
    assert CpuOk(s', c);
    hide CpuOk, FrameAt, ProcOk, LocksOk, Others;
    CoupledStep(s, s', c);
  }

  /** newproc fills the slot it took: nobody executes that process yet. */
  lemma FillCoupled(s: State, s': State, j: nat)
    requires LocksOk(s.m) && Coupled(s) && j < |s.procs| && s.procs[j].state == CREATED
    requires s'.m == s.m.(pcs := s.m.pcs[j := At(ForkRet)])
    requires |s'.procs| == |s.procs| && forall i :: 0 <= i < |s.procs| ==>
      s'.procs[i] == s.procs[i].(pid := s'.procs[i].pid)
    ensures Coupled(s') && LocksOk(s'.m)
    ensures forall d: nat :: d < |s.m.cpus| ==> CurOk(s.m, d) && CurOk(s'.m, d) && Same(s.m, s'.m, d)
  {
    forall d: nat | d < |s.m.cpus|
      ensures CurOk(s'.m, d) && CurOk(s.m, d) && s.m.cpus[d].cur != Running(j) && Base(s'.m, d) == Base(s.m, d) &&
        CpuOk(s', d) {
      assert CpuOk(s, d) && CurOk(s.m, d) && ProcOk(s, j);
    }
    forall i: nat | i < |s'.procs| ensures ProcOk(s', i) && Hosted(s', i) {
      assert ProcOk(s, i) && Hosted(s, i);
    }
    forall d: nat, e: nat | d < |s'.m.cpus| && e < |s'.m.cpus| ensures Distinct(s', d, e) {
      assert Distinct(s, d, e);
    }
    GripsAlike(s.m, s'.m, Table);
    GripsAlike(s.m, s'.m, Disk);
    forall d: nat | d < |s'.m.cpus| ensures Nested(s'.m, d) {
      assert Nested(s.m, d);
    }
  }

  // ---- Every step, by the code that takes it

  /** The slot a fork is filling is CREATED, its own, and in the end ready to run. */
  predicate ForkOk(s: State, i: nat)
    requires i < |s.procs| == |s.m.pcs|
  {
    var x := Target(s.m.pcs[i]);
    x.ForkFill? || x.ForkStart? ==>
      && x.child < |s.procs| && s.procs[x.child].state == CREATED
      && (x.ForkStart? ==> s.m.pcs[x.child] == At(ForkRet))
  }

  predicate ForkApart(s: State, i: nat, k: nat)
    requires i < |s.m.pcs| && k < |s.m.pcs|
  {
    var x, y := Target(s.m.pcs[i]), Target(s.m.pcs[k]);
    i != k && (x.ForkFill? || x.ForkStart?) && (y.ForkFill? || y.ForkStart?) ==> x.child != y.child
  }

  ghost predicate Forks(s: State) {
    && |s.procs| == |s.m.pcs|
    && (forall i: nat :: i < |s.procs| ==> ForkOk(s, i))
    && (forall i: nat, k: nat :: i < |s.procs| && k < |s.procs| ==> ForkApart(s, i, k))
  }

  ghost predicate Core(s: State) {
    LocksOk(s.m) && Coupled(s) && Forks(s)
  }

  /** What a step of c re-establishes. */
  ghost predicate Kept(s: State, c: nat, s': State) {
    LocksOk(s'.m) && Coupled(s') && |s'.procs| == |s.procs| && |s'.m.cpus| == |s.m.cpus|
  }

  lemma SameTable(s: State)
    requires Coupled(s)
    ensures TableChange(s, s.procs)
  {
    forall i: nat | i < |s.procs| ensures ProcChange(s, s.procs, i) {
      assert ProcOk(s, i);
    }
  }

  /** acquire, release or a jump between two places, the table unchanged. */
  lemma AcquireCoupled(s: State, c: nat, l: Lock, x: Loc, to: Loc)
    requires LocksOk(s.m) && Coupled(s) && c < |s.m.cpus| && Exec(s.m, c) == At(x) && Adds(x, l, to)
    requires l.Disk? ==> !HasTable(x)
    requires MidCode(s.m.cpus[c], At(x)) && MidCode(s.m.cpus[c], At(to))
    ensures Kept(s, c, s.(m := Acquire(s.m, c, l, to)))
  {
    AcquireOk(s.m, c, l, x, to);
    SameTable(s);
    hide LocksOk, Coupled, TableChange, Others, Moved;
    MoveCoupled(s, s.(m := Acquire(s.m, c, l, to)), c, Pushcli(s.m.cpus[c]), Spin(l, to));
  }

  lemma ReleaseCoupled(s: State, c: nat, l: Lock, x: Loc, to: Loc, procs': seq<Proc>)
    requires LocksOk(s.m) && Coupled(s) && c < |s.m.cpus| && Exec(s.m, c) == At(x) && Adds(to, l, x)
    requires MidCode(s.m.cpus[c], At(x)) && MidCode(s.m.cpus[c], At(to)) && TableChange(s, procs')
    requires procs' == s.procs || HasTable(x)
    ensures Kept(s, c, s.(m := Release(s.m, c, l, to), procs := procs')) && Holding(s.m, c, l)
  {
    ReleaseOk(s.m, c, l, x, to);
    hide LocksOk, Coupled, TableChange, Others, Moved;
    MoveCoupled(s, s.(m := Release(s.m, c, l, to), procs := procs'), c, s.m.cpus[c], Clear(l, to));
  }

  lemma JumpCoupled(s: State, c: nat, x: Loc, to: Loc, procs': seq<Proc>)
    requires LocksOk(s.m) && Coupled(s) && c < |s.m.cpus| && Exec(s.m, c) == At(x)
    requires HasTable(x) == HasTable(to) && HasDisk(x) == HasDisk(to)
    requires MidCode(s.m.cpus[c], At(x)) && MidCode(s.m.cpus[c], At(to)) && TableChange(s, procs')
    requires procs' == s.procs || HasTable(x)
    ensures Kept(s, c, s.(m := Goto(s.m, c, At(to)), procs := procs'))
  {
    GotoOk(s.m, c, At(to));
    hide LocksOk, Coupled, TableChange, Others, Moved;
    MoveCoupled(s, s.(m := Goto(s.m, c, At(to)), procs := procs'), c, s.m.cpus[c], At(to));
  }

  /** The state of a process before it sleeps, yields or exits. */
  lemma LeaveKept(s: State, c: nat, i: nat, x: Loc, back: Loc, p: Proc)
    requires LocksOk(s.m) && Coupled(s) && c < |s.m.cpus| && Exec(s.m, c) == At(x) && Own(s.m.cpus[c], i)
    requires TableOnly(x) && TableOnly(back) && ProcLoc(back) && i < |s.procs|
    requires p.state != RUNNING && StateOk(i, p, Out(back))
    ensures Kept(s, c, s.(m := Goto(s.m, c, Out(back)), procs := s.procs[i := p]))
  {
    GotoOk(s.m, c, Out(back));
    var s' := s.(m := Goto(s.m, c, Out(back)), procs := s.procs[i := p]);
    hide LocksOk, Coupled, Others, Moved;
    LeaveCoupled(s, s', c, i, Out(back));
  }

  /** The executing thread of c is in the middle of its code. */
  lemma OwnCode(s: State, c: nat)
    requires Coupled(s) && LocksOk(s.m) && c < |s.m.cpus| && Exec(s.m, c).At?
    ensures CurOk(s.m, c)
    ensures var u, x := s.m.cpus[c], Exec(s.m, c).loc;
      && (u.handler.Some? ==> IrqLoc(x))
      && (u.handler.None? && u.cur.Running? ==>
        u.cur.p < |s.procs| && ProcLoc(x) && !x.Dead? && s.procs[u.cur.p].state == RUNNING && s.m.pcs[u.cur.p] == At(x))
      && (u.handler.None? && u.cur.Sched? ==> SchedLoc(x) && u.sched == At(x))
  {
    assert CpuOk(s, c) && CurOk(s.m, c);
    if s.m.cpus[c].cur.Running? {
      assert ProcOk(s, s.m.cpus[c].cur.p);
    }
  }

  lemma SchedCodeKept(s: State, c: nat, x: Loc, s': State)
    requires Core(s) && c < |s.m.cpus| && Exec(s.m, c) == At(x) && s.m.cpus[c].handler.None? && s.m.cpus[c].cur.Sched?
    requires CurOk(s.m, c) && SchedCode(s, c, x, s')
    ensures Kept(s, c, s')
  {
    hide LocksOk, Coupled, TableChange, Forks, Acquire, Release;
    OwnCode(s, c);
    SameTable(s);
    match x
    case Idle =>
      if s' == s.(m := WithCpu(s.m, c, s.m.cpus[c].(irq := true))) {
        MaskOk(s.m, c, true);
        MoveCoupled(s, s', c, s.m.cpus[c].(irq := true), At(x));
      } else {
        AcquireCoupled(s, c, Table, x, Scan(0));
      }
    case Scan(k) =>
      if k >= |s.procs| {
        ReleaseCoupled(s, c, Table, x, Idle, s.procs);
      } else if s.procs[k].state != RUNNABLE {
        JumpCoupled(s, c, x, Scan(k + 1), s.procs);
      } else {
        GotoOk(s.m, c, At(Go(k)));
        ProcOnly(s.m, c, Some(k), At(Go(k)));
        DispatchCoupled(s, s', c, k);
      }
    case Go(k) =>
      GoAlone(s, c, k);
      SwitchInOk(s.m, c, k, s'.m);
      GoCoupled(s, s', c, k);
    case Back(k) =>
      GotoOk(s.m, c, At(Scan(k + 1)));
      ProcOnly(s.m, c, None, At(Scan(k + 1)));
      BackCoupled(s, s', c, k);
  }

  lemma UserCodeKept(s: State, c: nat, i: nat, s': State)
    requires Core(s) && c < |s.m.cpus| && CurOk(s.m, c) && Exec(s.m, c) == At(User) && Own(s.m.cpus[c], i)
    requires UserCode(s, c, i, s')
    ensures Kept(s, c, s')
  {
    hide LocksOk, Coupled, TableChange, Forks, Acquire;
    SameTable(s);
    if on: bool :| s' == s.(m := Masked(s.m, c, on)) {
      MaskOk(s.m, c, on);
      MoveCoupled(s, s', c, s.m.cpus[c].(irq := on), At(User));
    } else {
      var l: Lock, to: Loc :| Entry(i, l, to) && s' == s.(m := Acquire(s.m, c, l, to));
      AcquireCoupled(s, c, l, User, to);
    }
  }

  /** While c holds the table lock no process is about to switch out. */
  lemma NobodyLeaving(s: State, c: nat, j: nat)
    requires LocksOk(s.m) && Coupled(s) && c < |s.m.cpus| && Owns(Exec(s.m, c), Table) && Exec(s.m, c).At?
    requires j < |s.procs|
    ensures !s.m.pcs[j].Out?
  {
    if !Parked(s.m.pcs[j]) {
      assert Hosted(s, j);
      var d: nat :| d < |s.m.cpus| && Hosts(s.m.cpus[d], j);
      assert CpuOk(s, d) && ProcOk(s, j) && Nested(s.m, d);
      if d != c {
        ElsewhereRuns(s, c, d);
      }
    }
  }

  /** freeproc takes the stack of a process that no CPU executes. */
  lemma ReapedIsIdle(s: State, c: nat, i: nat, j: nat)
    requires LocksOk(s.m) && Coupled(s) && c < |s.m.cpus| && Owns(Exec(s.m, c), Table) && Exec(s.m, c).At?
    requires j < |s.procs| && s.procs[j].state == ZOMBIE
    ensures s.m.pcs[j] == At(Dead)
    ensures forall d: nat :: d < |s.m.cpus| ==> s.m.cpus[d].cur != Running(j)
  {
    assert ProcOk(s, j);
    NobodyLeaving(s, c, j);
    forall d: nat | d < |s.m.cpus| ensures s.m.cpus[d].cur != Running(j) {
      assert CpuOk(s, d);
    }
  }

  lemma ForkCodeKept(s: State, c: nat, i: nat, x: Loc, s': State)
    requires Core(s) && c < |s.m.cpus| && CurOk(s.m, c) && Exec(s.m, c) == At(x) && Own(s.m.cpus[c], i) && i < |s.procs|
    requires s.m.pcs[i] == At(x) && ForkCode(s, c, i, x, s')
    ensures Kept(s, c, s')
  {
    assert ForkOk(s, i);
    hide LocksOk, Coupled, TableChange, Forks, Acquire;
    match x
    case ForkScan =>
      if j: nat :| TakeSlot(s, c, j, s') {
        TakeChange(s, j);
        ReleaseCoupled(s, c, Table, x, ForkFill(j), s'.procs);
      } else {
        SameTable(s);
        ReleaseCoupled(s, c, Table, x, User, s.procs);
      }
    case ForkFill(j) =>
      AcquireCoupled(s, c, Table, x, ForkStart(j));
      FillCoupled(s.(m := Acquire(s.m, c, Table, ForkStart(j))), s', j);
    case ForkStart(j) =>
      StartChange(s, i, j);
      ReleaseCoupled(s, c, Table, x, User, s'.procs);
  }

  lemma TakeChange(s: State, j: nat)
    requires Coupled(s) && j < |s.procs| && s.procs[j].state == UNUSED
    ensures TableChange(s, SetState(s.procs, j, CREATED))
  {
    var procs' := SetState(s.procs, j, CREATED);
    forall k: nat | k < |s.procs| ensures ProcChange(s, procs', k) {
      assert ProcOk(s, k);
    }
  }

  lemma StartChange(s: State, i: nat, j: nat)
    requires Coupled(s) && Forks(s) && i < |s.procs| && s.m.pcs[i] == At(ForkStart(j)) && j < |s.procs|
    ensures TableChange(s, s.procs[j := s.procs[j].(state := RUNNABLE, parent := Some(i))])
  {
    var procs' := s.procs[j := s.procs[j].(state := RUNNABLE, parent := Some(i))];
    assert ForkOk(s, i);
    forall k: nat | k < |s.procs| ensures ProcChange(s, procs', k) {
      assert ProcOk(s, k);
    }
  }

  lemma WaitCodeKept(s: State, c: nat, i: nat, x: Loc, s': State)
    requires Core(s) && c < |s.m.cpus| && CurOk(s.m, c) && Exec(s.m, c) == At(x) && Own(s.m.cpus[c], i) && i < |s.procs|
    requires s.procs[i].state == RUNNING && WaitCode(s, c, i, x, s')
    ensures Kept(s, c, s')
  {
    hide LocksOk, Coupled, TableChange, Forks, Acquire;
    match x
    case WaitScan(pid) =>
      if j: nat :| Reap(s, c, i, j, pid, s') {
        FreedChange(s, c, i, j);
        ReleaseCoupled(s, c, Table, x, User, s.procs[j := FREED]);
      } else {
        LeaveKept(s, c, i, x, WaitWoken(pid), s'.procs[i]);
      }
    case WaitWoken(pid) =>
      ChanChange(s, i);
      ReleaseCoupled(s, c, Table, x, WaitAgain(pid), s'.procs);
    case WaitAgain(pid) =>
      AcquireCoupled(s, c, Table, x, WaitScan(pid));
  }

  /** Freeing a zombie leaves the table consistent. */
  lemma FreedChange(s: State, c: nat, i: nat, j: nat)
    requires LocksOk(s.m) && Coupled(s) && c < |s.m.cpus| && Owns(Exec(s.m, c), Table) && Exec(s.m, c).At?
    requires j < |s.procs| && s.procs[j].state == ZOMBIE
    ensures Holding(s.m, c, Table) && TableChange(s, s.procs[j := FREED])
  {
    HoldingExact(s.m, c, Table);
    ReapedIsIdle(s, c, i, j);
    hide LocksOk;
    var procs' := s.procs[j := FREED];
    forall k: nat | k < |s.procs| ensures ProcChange(s, procs', k) {
      assert ProcOk(s, k);
    }
  }

  lemma ChanChange(s: State, i: nat)
    requires Coupled(s) && i < |s.procs| && s.procs[i].state == RUNNING
    ensures TableChange(s, s.procs[i := s.procs[i].(chan := None)])
  {
    var procs' := s.procs[i := s.procs[i].(chan := None)];
    forall k: nat | k < |s.procs| ensures ProcChange(s, procs', k) {
      assert ProcOk(s, k);
    }
  }

  lemma WakeChange(s: State, ch: Option<Chan>)
    requires Coupled(s)
    ensures TableChange(s, WakeAll(s.procs, ch))
  {
    forall k: nat | k < |s.procs| ensures ProcChange(s, WakeAll(s.procs, ch), k) {
      assert ProcOk(s, k);
    }
  }

  lemma ExitCodeKept(s: State, c: nat, i: nat, x: Loc, s': State)
    requires Core(s) && c < |s.m.cpus| && CurOk(s.m, c) && Exec(s.m, c) == At(x) && Own(s.m.cpus[c], i) && i < |s.procs|
    requires !x.Dead? && ExitCode(s, c, i, x, s')
    ensures Kept(s, c, s')
  {
    match x
    case ExitHeld =>
      assert TableChange(s, s'.procs) by {
        forall k: nat | k < |s.procs| ensures ProcChange(s, s'.procs, k) {
          assert ProcOk(s, k);
        }
      }
      hide LocksOk, Coupled, TableChange, Forks;
      JumpCoupled(s, c, x, ExitWake, s'.procs);
    case ExitWake =>
      WakeChange(s, ParentChan(s.procs[i]));
      hide LocksOk, Coupled, TableChange, Forks;
      JumpCoupled(s, c, x, ExitMark, s'.procs);
    case ExitMark =>
      hide LocksOk, Coupled, TableChange, Forks;
      LeaveKept(s, c, i, x, Dead, s'.procs[i]);
  }

  lemma DiskCodeKept(s: State, c: nat, i: nat, x: Loc, s': State)
    requires Core(s) && c < |s.m.cpus| && CurOk(s.m, c) && Exec(s.m, c) == At(x) && Own(s.m.cpus[c], i) && i < |s.procs|
    requires s.procs[i].state == RUNNING && DiskCode(s, c, i, x, s')
    ensures Kept(s, c, s')
  {
    hide LocksOk, Coupled, TableChange, Forks, Acquire, Release;
    SameTable(s);
    ChanChange(s, i);
    match x
    case DiskStart(b) =>
      var h: nat :| Submit(s, c, h, b, s');
      JumpCoupled(s, c, x, DiskCheck(h, b), s.procs);
      Requests(s.(m := s'.m), s');
    case DiskCheck(h, b) =>
      if s.reqs[h].done {
        ReleaseCoupled(s, c, Disk, x, User, s.procs);
        Requests(s.(m := s'.m), s');
      } else {
        AcquireCoupled(s, c, Table, x, DiskBed(h, b));
      }
    case DiskBed(h, b) => ReleaseCoupled(s, c, Disk, x, DiskSleep(h, b), s.procs);
    case DiskSleep(h, b) => LeaveKept(s, c, i, x, DiskWoken(h, b), s'.procs[i]);
    case DiskWoken(h, b) => ReleaseCoupled(s, c, Table, x, DiskAgain(h, b), s'.procs);
    case DiskAgain(h, b) => AcquireCoupled(s, c, Disk, x, DiskCheck(h, b));
  }

  /** The coupling does not depend on the requests. */
  lemma Requests(s: State, s': State)
    requires Coupled(s) && s' == s.(reqs := s'.reqs, used := s'.used)
    ensures Coupled(s')
  {
    forall i: nat | i < |s'.procs| ensures ProcOk(s', i) && Hosted(s', i) {
      assert ProcOk(s, i) && Hosted(s, i);
    }
    forall c: nat | c < |s'.m.cpus| ensures CpuOk(s', c) {
      assert CpuOk(s, c);
    }
    forall c: nat, d: nat | c < |s'.m.cpus| && d < |s'.m.cpus| ensures Distinct(s', c, d) {
      assert Distinct(s, c, d);
    }
  }

  lemma IrqCodeKept(s: State, c: nat, x: Loc, s': State)
    requires Core(s) && c < |s.m.cpus| && CurOk(s.m, c) && Exec(s.m, c) == At(x) && s.m.cpus[c].handler.Some?
    requires IrqCode(s, c, x, s')
    ensures Kept(s, c, s')
  {
    SameTable(s);
    match x
    case IrqStart =>
      hide LocksOk, Coupled, TableChange, Forks;
      AcquireCoupled(s, c, Disk, x, IrqLoop);
    case IrqLoop =>
      hide LocksOk, Coupled, TableChange, Forks;
      if s.used == [] {
        ReleaseCoupled(s, c, Disk, x, IrqEnd, s.procs);
      } else {
        AcquireCoupled(s, c, Table, x, IrqWake(s.used[0]));
        Requests(s.(m := s'.m), s');
      }
    case IrqWake(h) =>
      WakeChange(s, BufChan(s.reqs[h]));
      hide LocksOk, Coupled, TableChange, Forks;
      ReleaseCoupled(s, c, Table, x, IrqNext(h), s'.procs);
    case IrqNext(h) =>
      hide LocksOk, Coupled, TableChange, Forks;
      JumpCoupled(s, c, x, IrqLoop, s.procs);
      Requests(s.(m := s'.m), s');
  }

  /** Where the executing thread of c may be, including inside acquire and release. */
  lemma InsideMid(s: State, c: nat)
    requires Coupled(s) && LocksOk(s.m) && c < |s.m.cpus| && !Exec(s.m, c).Out? && !Exec(s.m, c).At?
    ensures MidCode(s.m.cpus[c], Exec(s.m, c)) && MidCode(s.m.cpus[c], Inside(Exec(s.m, c)))
  {
    assert CpuOk(s, c) && CurOk(s.m, c);
    if s.m.cpus[c].cur.Running? {
      assert ProcOk(s, s.m.cpus[c].cur.p);
    }
  }

  lemma MachineStepKept(s: State, c: nat, s': State)
    requires Core(s) && c < |s.m.cpus| && CurOk(s.m, c) && MachineStep(s, c, s')
    ensures Kept(s, c, s')
  {
    SameTable(s);
    assert CpuOk(s, c);
    hide LocksOk, Coupled, TableChange, Forks;
    if LockStep(s.m, c, s'.m) {
      InsideMid(s, c);
      LockStepOk(s.m, c, s'.m);
      hide LockStep;
      MoveCoupled(s, s', c, if Exec(s.m, c).Pop? then Popcli(s.m.cpus[c]) else s.m.cpus[c], Inside(Exec(s.m, c)));
    } else if SwitchOut(s.m, c, s'.m) {
      SwitchOutOk(s.m, c, s'.m);
      SwitchOutCoupled(s, s', c);
    } else if IrqEnter(s.m, c, s'.m) {
      IrqEnterOk(s.m, c, s'.m);
      HandlerCoupled(s, s', c);
    } else {
      IrqReturnOk(s.m, c, s'.m);
      HandlerCoupled(s, s', c);
    }
  }

  lemma CpuStepKept(s: State, c: nat, s': State)
    requires Core(s) && CpuStep(s, c, s')
    ensures Kept(s, c, s')
  {
    if MachineStep(s, c, s') {
      MachineStepKept(s, c, s');
    } else {
      OwnCode(s, c);
      var u, x := s.m.cpus[c], Exec(s.m, c).loc;
      hide Core, Kept, UserCode, ForkCode, WaitCode, ExitCode, DiskCode, IrqCode, SchedCode;
      if u.handler.Some? {
        IrqCodeKept(s, c, x, s');
      } else if u.cur.Sched? {
        SchedCodeKept(s, c, x, s');
      } else {
        ProcCodeKept(s, c, u.cur.p, x, s');
      }
    }
  }

  lemma ProcCodeKept(s: State, c: nat, i: nat, x: Loc, s': State)
    requires Core(s) && c < |s.m.cpus| && CurOk(s.m, c) && Exec(s.m, c) == At(x) && Own(s.m.cpus[c], i) && i < |s.procs|
    requires s.procs[i].state == RUNNING && s.m.pcs[i] == At(x) && !x.Dead? && ProcCode(s, c, i, x, s')
    ensures Kept(s, c, s')
  {
    SameTable(s);
    hide UserCode, LocksOk, Coupled, TableChange, Forks;
    if x.User? && UserCode(s, c, i, s') {
      UserCodeKept(s, c, i, s');
    } else if ForkCode(s, c, i, x, s') {
      hide ForkCode;
      ForkCodeKept(s, c, i, x, s');
    } else if WaitCode(s, c, i, x, s') {
      hide WaitCode;
      WaitCodeKept(s, c, i, x, s');
    } else if ExitCode(s, c, i, x, s') {
      hide ExitCode;
      ExitCodeKept(s, c, i, x, s');
    } else if DiskCode(s, c, i, x, s') {
      hide DiskCode;
      DiskCodeKept(s, c, i, x, s');
    } else if x.YieldHeld? {
      LeaveKept(s, c, i, x, YieldBack, s'.procs[i]);
    } else {
      ReleaseCoupled(s, c, Table, x, User, s.procs);
    }
  }
}
