/** What holds in every state of every run, for any number of CPUs, processes and
  descriptors, in the terms a reader of the kernel would use. */
module SchedRuns {
  import opened Spinlock
  import opened Scheduler
  import opened SchedCoupling
  import opened SchedFamily
  import opened SchedDisk
  import opened Options

  ghost predicate Inv(s: State) {
    LocksOk(s.m) && Coupled(s) && Family(s) && Disks(s)
  }

  lemma InitInv(s: State)
    requires Init(s)
    ensures Inv(s)
  {
    forall c: nat | c < |s.m.cpus| ensures CurOk(s.m, c) && Nested(s.m, c) && CpuOk(s, c) {
    }
    forall i: nat | i < |s.procs|
      ensures ProcOk(s, i) && Hosted(s, i) && ParentOk(s, i) && ExitOk(s, i) && ForkOk(s, i) && OpOk(s, i) &&
        AwakeOk(s, i) {
    }
    hide CpuOk, ProcOk, Hosted, Nested;
  }

  lemma StepInv(s: State, s': State)
    requires Inv(s) && Step(s, s')
    ensures Inv(s') && |s'.procs| == |s.procs| && |s'.m.cpus| == |s.m.cpus|
  {
    hide LocksOk, Coupled, Family, Disks, CpuStep, DeviceStep;
    if c: nat :| CpuStep(s, c, s') {
      assert Core(s) by { FamilyForks(s); }
      CpuStepKept(s, c, s');
      FamilyStep(s, c, s');
      DisksStep(s, c, s');
    } else {
      var h: nat :| DeviceStep(s, h, s');
      Completed(s, h, s');
      DeviceKeeps(s, h, s');
    }
  }

  lemma FamilyForks(s: State)
    requires Family(s)
    ensures Forks(s)
  {
  }

  lemma DeviceKeeps(s: State, h: nat, s': State)
    requires LocksOk(s.m) && Coupled(s) && Family(s) && DeviceStep(s, h, s')
    ensures LocksOk(s'.m) && Coupled(s') && Family(s') && |s'.procs| == |s.procs| && s'.m == s.m
  {
    Requests(s, s');
    TableNeutral(s, s');
    NeutralFamily(s, s');
  }

  ghost predicate Run(ss: seq<State>) {
    && |ss| > 0 && Init(ss[0])
    && forall k {:trigger ss[k]} :: 0 <= k < |ss| - 1 ==> Step(ss[k], ss[k + 1])
  }

  lemma RunInit(ss: seq<State>)
    requires Run(ss)
    ensures Init(ss[0])
  {
  }

  lemma {:induction false} Always(ss: seq<State>, k: nat)
    requires Run(ss) && k < |ss|
    ensures Inv(ss[k]) && |ss[k].procs| == |ss[0].procs| && |ss[k].m.cpus| == |ss[0].m.cpus|
  {
    hide Run, Inv, Step, Init;
    if k == 0 {
      RunInit(ss);
      InitInv(ss[0]);
    } else {
      Always(ss, k - 1);
      RunStep(ss, k - 1);
      StepInv(ss[k - 1], ss[k]);
    }
  }

  // ---- Locks

  /** One owner, whom holding() recognizes; the byte is set while anyone keeps it;
      the nesting depth is the number of locks; no release or popcli panics, no
      lock is taken twice, no exited process runs again. */
  lemma LockHandOff(ss: seq<State>, k: nat, l: Lock)
    requires Run(ss) && k < |ss|
    ensures var m := ss[k].m;
      && Shape(m) && !m.panicked
      && (forall c: nat, d: nat :: c < |m.cpus| && d < |m.cpus| && CpuGrips(m, c, l) && CpuGrips(m, d, l) ==> c == d)
      && (forall c: nat :: c < |m.cpus| ==> (Holding(m, c, l) <==> CpuOwns(m, c, l)))
      && (forall c: nat :: c < |m.cpus| ==> Counted(m, c))
  {
    Always(ss, k);
    var m := ss[k].m;
    hide Coupled, Family, Disks;
    LocksMean(m, l);
  }

  lemma LocksMean(m: Machine, l: Lock)
    requires LocksOk(m)
    ensures forall c: nat, d: nat :: c < |m.cpus| && d < |m.cpus| && CpuGrips(m, c, l) && CpuGrips(m, d, l) ==> c == d
    ensures forall c: nat :: c < |m.cpus| ==> (Holding(m, c, l) <==> CpuOwns(m, c, l))
    ensures forall c: nat :: c < |m.cpus| ==> Counted(m, c)
  {
    assert Exclusive(m, l);
    forall c: nat | c < |m.cpus| ensures (Holding(m, c, l) <==> CpuOwns(m, c, l)) {
      HoldingExact(m, c, l);
    }
    forall c: nat | c < |m.cpus| ensures Counted(m, c) {
      assert Nested(m, c);
    }
    hide CpuGrips, CpuOwns, Holding, LocksOk, Exclusive;
  }

  /** cli_depth is the number of locks the threads of c hold, acquire or release,
      and interrupts are masked while there are any. */
  predicate Counted(m: Machine, c: nat)
    requires c < |m.cpus| && CurOk(m, c)
  {
    && m.cpus[c].depth == Cli(Base(m, c)) + (if m.cpus[c].handler.Some? then Cli(m.cpus[c].handler.value) else 0)
    && (m.cpus[c].depth > 0 ==> !m.cpus[c].irq)
  }

  /** At every context switch, in either direction, the depth is 1 and the CPU owns
      the process-table lock, which the other side then releases. */
  lemma SwitchHandsOverTable(ss: seq<State>, k: nat, c: nat, s': State)
    requires Run(ss) && k < |ss| && c < |ss[k].m.cpus|
    requires SwitchedBy(ss[k], c, s')
    ensures ss[k].m.cpus[c].depth == 1 && Holding(ss[k].m, c, Table)
    ensures s'.m.cpus[c].depth == 1 && Holding(s'.m, c, Table) && Shape(s'.m) && Owns(Exec(s'.m, c), Table)
  {
    Always(ss, k);
    var s := ss[k];
    assert CpuOk(s, c) && CurOk(s.m, c) && Nested(s.m, c);
    assert Core(s) by { FamilyForks(s); }
    CpuStepKept(s, c, s');
    if s.m.cpus[c].cur.Running? {
      SwitchOutOk(s.m, c, s'.m);
    } else {
      GoAlone(s, c, s.m.cpus[c].sched.loc.k);
      SwitchInOk(s.m, c, s.m.cpus[c].sched.loc.k, s'.m);
    }
    HoldingExact(s'.m, c, Table);
  }

  /** CPU c changes the thread it executes. */
  ghost predicate SwitchedBy(s: State, c: nat, s': State)
    requires c < |s.m.cpus|
  {
    && CurOk(s.m, c) && CpuStep(s, c, s')
    && (SwitchOut(s.m, c, s'.m) ||
      (Exec(s.m, c).At? && Exec(s.m, c).loc.Go? && SwitchIn(s.m, c, Exec(s.m, c).loc.k, s'.m)))
  }

  // ---- CPUs and processes

  /** With the table lock free, RUNNING means being the current process of a CPU. */
  lemma RunningIsCurrent(ss: seq<State>, k: nat, i: nat)
    requires Run(ss) && k < |ss| && i < |ss[k].procs| && !ss[k].m.table.byte
    ensures ss[k].procs[i].state == RUNNING <==> exists c: nat :: c < |ss[k].m.cpus| && ss[k].m.cpus[c].proc == Some(i)
  {
    Always(ss, k);
    var s := ss[k];
    assert Hosted(s, i);
    if c: nat :| c < |s.m.cpus| && s.m.cpus[c].proc == Some(i) {
      assert CpuOk(s, c) && Nested(s.m, c) && CurOk(s.m, c);
      assert !CpuGrips(s.m, c, Table);
    }
  }

  /** And of one CPU only, locked or not; so no process runs on two CPUs. */
  lemma CurrentOfOne(ss: seq<State>, k: nat, c: nat, d: nat)
    requires Run(ss) && k < |ss| && c < |ss[k].m.cpus| && d < |ss[k].m.cpus| && c != d
    ensures ss[k].m.cpus[c].proc.Some? ==> ss[k].m.cpus[c].proc != ss[k].m.cpus[d].proc
    ensures ss[k].m.cpus[c].cur.Running? ==> ss[k].m.cpus[c].cur != ss[k].m.cpus[d].cur
  {
    Always(ss, k);
    assert Distinct(ss[k], c, d);
  }

  /** wait frees a zombie only after its last CPU has switched off its stack. */
  lemma FreedStackIsIdle(ss: seq<State>, k: nat, c: nat, i: nat, j: nat, pid: Option<nat>, s': State)
    requires Run(ss) && k < |ss| && c < |ss[k].m.cpus| && CurOk(ss[k].m, c)
    requires Exec(ss[k].m, c) == At(WaitScan(pid)) && Reap(ss[k], c, i, j, pid, s')
    ensures forall d: nat :: d < |ss[k].m.cpus| ==> ss[k].m.cpus[d].cur != Running(j)
    ensures !s'.m.panicked
  {
    Always(ss, k);
    ReapedIsIdle(ss[k], c, i, j);
    HoldingExact(ss[k].m, c, Table);
  }

  // ---- Parents, wait and exit

  /** Every started process but init has a parent that is neither freed nor a zombie. */
  lemma ParentsLive(ss: seq<State>, k: nat, i: nat)
    requires Run(ss) && k < |ss| && 0 < i < |ss[k].procs| && Started(ss[k].procs[i])
    ensures ss[k].procs[i].parent.Some?
    ensures ss[k].procs[i].parent.value < |ss[k].procs| && Live(ss[k].procs[ss[k].procs[i].parent.value])
  {
    Always(ss, k);
    assert ParentOk(ss[k], i);
  }

  /** No process but init sleeps in wait while a child it waits for is a zombie. */
  lemma NobodyOversleeps(ss: seq<State>, k: nat, i: nat, j: nat)
    requires Run(ss) && k < |ss| && 0 < i < |ss[k].procs| && j < |ss[k].procs|
    ensures |ss[k].procs| == |ss[k].m.pcs| && !Overslept(ss[k], i, j)
  {
    Always(ss, k);
    assert WaitOk(ss[k], i, j);
  }

  // ---- Disk

  /** A process asleep on a request that is done: the handler has the disk lock and
      the wakeup of that request before it. */
  lemma NoLostWakeup(ss: seq<State>, k: nat, i: nat, h: nat, b: nat)
    requires Run(ss) && k < |ss| && i < |ss[k].procs| == |ss[k].m.pcs|
    requires ss[k].procs[i].state == SLEEPING && Target(ss[k].m.pcs[i]) == DiskWoken(h, b)
    ensures h < |ss[k].reqs| && ss[k].procs[i].chan == Some(OnBuf(b))
    ensures ss[k].reqs[h].done ==> exists c: nat ::
      c < |ss[k].m.cpus| && Waking(ss[k].m.cpus[c], h) && Owns(ss[k].m.cpus[c].handler.value, Disk)
    ensures !ss[k].reqs[h].done ==> ss[k].reqs[h].buf == Some(b) && (ss[k].reqs[h].atDevice || h in ss[k].used)
  {
    Always(ss, k);
    var s := ss[k];
    assert AwakeOk(s, i) && OpOk(s, i) && ReqOk(s, h) && ProcOk(s, i);
    if s.reqs[h].done {
      var c: nat :| c < |s.m.cpus| && Waking(s.m.cpus[c], h);
      assert HandlerOk(s, c);
    }
  }

  /** Requests in flight belong to different submitters, and the used ring holds
      each at most once. */
  lemma OneOwner(ss: seq<State>, k: nat, i: nat, j: nat)
    requires Run(ss) && k < |ss| && i < |ss[k].procs| == |ss[k].m.pcs| && j < |ss[k].procs| && i != j
    requires OpLoc(Target(ss[k].m.pcs[i])) && OpLoc(Target(ss[k].m.pcs[j]))
    ensures Target(ss[k].m.pcs[i]).head != Target(ss[k].m.pcs[j]).head
    ensures forall a, b :: 0 <= a < b < |ss[k].used| ==> ss[k].used[a] != ss[k].used[b]
  {
    Always(ss, k);
    assert OpApart(ss[k], i, j);
  }

  // ---- Exactly-once completion

  /** A request is submitted, marked done, or collected. */
  predicate Submits(r: Req, r': Req) {
    !r.inflight && r'.inflight
  }

  predicate Marks(r: Req, r': Req) {
    !r.done && r'.done
  }

  predicate Collects(r: Req, r': Req) {
    r.done && !r'.done
  }

  /** Idle, submitted, done, idle: a step goes on at most one place in this cycle. */
  predicate Cycle(r: Req, r': Req) {
    || (r'.inflight == r.inflight && r'.done == r.done)
    || (!r.inflight && !r.done && r'.inflight && !r'.done)
    || (r.inflight && !r.done && r'.inflight && r'.done)
    || (r.inflight && r.done && !r'.inflight && !r'.done)
  }

  lemma CodeCycle(s: State, c: nat, s': State, h: nat)
    requires Inv(s) && CpuStep(s, c, s') && h < |s.reqs|
    ensures |s'.reqs| == |s.reqs| && Cycle(s.reqs[h], s'.reqs[h])
  {
    assert ReqOk(s, h);
    hide Inv, MachineStep, Acquire, Release, Goto, SchedCode;
    var u, x := s.m.cpus[c], Target(Exec(s.m, c));
    if MachineStep(s, c, s') {
      SameRequests(s, c, s');
    } else if u.handler.Some? {
      hide ProcCode;
      if x.IrqLoop? && s.used != [] {
        RingHead(s);
      }
    } else if u.cur.Sched? {
      SchedRequests(s, c, x, s');
    } else {
      hide IrqCode;
      OpInFlight(s, u.cur.p);
      ProcCycle(s, c, u.cur.p, x, s', h);
    }
  }

  lemma SameRequests(s: State, c: nat, s': State)
    requires c < |s.m.cpus| && CurOk(s.m, c) && MachineStep(s, c, s')
    ensures s'.reqs == s.reqs
  {
  }

  lemma SchedRequests(s: State, c: nat, x: Loc, s': State)
    requires c < |s.m.cpus| && CurOk(s.m, c) && SchedCode(s, c, x, s')
    ensures s'.reqs == s.reqs
  {
    hide Acquire, Release, Goto;
  }

  /** The head of the used ring is in flight. */
  lemma RingHead(s: State)
    requires Inv(s) && s.used != []
    ensures s.used[0] < |s.reqs| && s.reqs[s.used[0]].inflight
  {
    assert UsedOk(s, 0);
    assert s.used[0] in s.used;
    assert ReqOk(s, s.used[0]);
  }

  lemma ProcCycle(s: State, c: nat, i: nat, x: Loc, s': State, h: nat)
    requires c < |s.m.cpus| && CurOk(s.m, c) && i < |s.procs| && ProcCode(s, c, i, x, s') && h < |s.reqs| && ReqOk(s, h)
    requires x.DiskCheck? && x.head < |s.reqs| ==> s.reqs[x.head].inflight
    ensures |s'.reqs| == |s.reqs| && Cycle(s.reqs[h], s'.reqs[h])
  {
    hide Acquire, Release, Goto;
  }

  lemma OpInFlight(s: State, i: nat)
    requires Inv(s) && i < |s.procs| && i < |s.m.pcs|
    ensures var x := Target(s.m.pcs[i]); x.DiskCheck? ==> x.head < |s.reqs| && s.reqs[x.head].inflight
  {
    assert OpOk(s, i);
  }

  lemma StepCycle(s: State, s': State, h: nat)
    requires Inv(s) && Step(s, s') && h < |s.reqs|
    ensures |s'.reqs| == |s.reqs| && Cycle(s.reqs[h], s'.reqs[h])
  {
    hide Inv, CpuStep;
    if c: nat :| CpuStep(s, c, s') {
      CodeCycle(s, c, s', h);
    }
  }

  /** The handler marks a request that is in flight and not yet done. */
  lemma MarkedOnce(ss: seq<State>, k: nat, c: nat)
    requires Run(ss) && k < |ss| && c < |ss[k].m.cpus| && ss[k].m.cpus[c].handler == Some(At(IrqLoop))
    requires ss[k].used != []
    ensures ss[k].used[0] < |ss[k].reqs| && ss[k].reqs[ss[k].used[0]].inflight && !ss[k].reqs[ss[k].used[0]].done
  {
    Always(ss, k);
    var s := ss[k];
    RingHead(s);
    assert UsedOk(s, 0);
    DiskIsMine(s, c, 0);
    NobodyWaking(s, c);
  }

  /** How often request h was submitted, marked and collected before state k. */
  function Times(ss: seq<State>, h: nat, k: nat): (nat, nat, nat)
    requires k < |ss|
  {
    if k == 0 then (0, 0, 0)
    else
      var t := Times(ss, h, k - 1);
      if h < |ss[k - 1].reqs| && h < |ss[k].reqs| then
        var r, r' := ss[k - 1].reqs[h], ss[k].reqs[h];
        (t.0 + One(Submits(r, r')), t.1 + One(Marks(r, r')), t.2 + One(Collects(r, r')))
      else t
  }

  /** In every run each submission is marked done exactly once, and each mark is
      collected exactly once, the pending ones apart. */
  lemma {:induction false} ExactlyOnce(ss: seq<State>, h: nat, k: nat)
    requires Run(ss) && k < |ss| && h < |ss[0].reqs|
    ensures |ss[k].reqs| == |ss[0].reqs|
    ensures var t, r := Times(ss, h, k), ss[k].reqs[h];
      t.0 == t.1 + One(r.inflight && !r.done) && t.1 == t.2 + One(r.done)
  {
    hide Run, Inv, Step, Cycle, Submits, Marks, Collects;
    if k == 0 {
      StartsIdle(ss, h);
    } else {
      ExactlyOnce(ss, h, k - 1);
      Always(ss, k - 1);
      RunStep(ss, k - 1);
      StepCycle(ss[k - 1], ss[k], h);
      CycleCounts(ss[k - 1].reqs[h], ss[k].reqs[h]);
    }
  }

  lemma StartsIdle(ss: seq<State>, h: nat)
    requires Run(ss) && h < |ss[0].reqs|
    ensures !ss[0].reqs[h].inflight && !ss[0].reqs[h].done
  {
  }

  lemma CycleCounts(r: Req, r': Req)
    requires Cycle(r, r')
    ensures One(Submits(r, r')) + One(r.inflight && !r.done) == One(Marks(r, r')) + One(r'.inflight && !r'.done)
    ensures One(Marks(r, r')) + One(r.done) == One(Collects(r, r')) + One(r'.done)
  {
  }

  // ---- Round robin

  /** Where the scheduler of c goes on scanning. */
  function Position(u: Cpu): nat {
    var x := Target(u.sched);
    if x.Scan? then x.k else if x.Go? || x.Back? then x.k + 1 else 0
  }

  /** Slots still to scan before slot i, of n. */
  function Ahead(pos: nat, i: nat, n: nat): nat
    requires i < n
  {
    if pos <= i then i - pos else if pos < n then n - pos + i else i
  }

  ghost predicate Dispatches(s: State, c: nat, s': State) {
    exists k: nat :: DispatchesSlot(s, c, k, s')
  }

  ghost predicate DispatchesSlot(s: State, c: nat, k: nat, s': State) {
    c < |s.m.cpus| && CurOk(s.m, c) && s.m.cpus[c].handler.None? && s.m.cpus[c].cur.Sched? &&
    s.m.cpus[c].sched == At(Scan(k)) && Dispatch(s, c, k, s')
  }

  /** A step brings c's scan closer to a slot that stays RUNNABLE, by one at least
      for each process it dispatches. */
  ghost predicate Closer(s: State, s': State, c: nat, i: nat)
    requires c < |s.m.cpus| == |s'.m.cpus| && i < |s.procs|
  {
    Ahead(Position(s'.m.cpus[c]), i, |s.procs|) + One(Dispatches(s, c, s')) <=
      Ahead(Position(s.m.cpus[c]), i, |s.procs|)
  }

  /** What acquire, release and jumps do to the CPUs. */
  lemma OpsCpus(m: Machine, c: nat, l: Lock, to: Loc, q: Pc)
    requires c < |m.cpus| && CurOk(m, c)
    ensures CpusBy(m, c, Goto(m, c, q)) && CpusBy(m, c, Acquire(m, c, l, to)) && CpusBy(m, c, Release(m, c, l, to))
  {
  }

  /** Only c changes, and its scheduler's place only while it executes there. */
  ghost predicate CpusBy(m: Machine, c: nat, m': Machine) {
    && c < |m.cpus| == |m'.cpus|
    && (forall d: nat :: d < |m.cpus| && d != c ==> m'.cpus[d] == m.cpus[d])
    && (m.cpus[c].handler.Some? || m.cpus[c].cur.Running? ==> m'.cpus[c].sched == m.cpus[c].sched)
  }

  lemma OnlyC(m: Machine, d: nat, m': Machine, c: nat)
    requires CpusBy(m, d, m') && c < |m.cpus| && m'.cpus[c].sched != m.cpus[c].sched
    ensures d == c && m.cpus[c].handler.None? && m.cpus[c].cur.Sched?
  {
  }

  lemma CpusChange(s: State, c: nat, s': State)
    requires CpuStep(s, c, s')
    ensures CpusBy(s.m, c, s'.m)
  {
    var u, x := s.m.cpus[c], Target(Exec(s.m, c));
    hide CpusBy, UserCode, ForkCode, WaitCode, ExitCode, DiskCode, ProcCode, IrqCode, SchedCode, LockStep;
    if MachineStep(s, c, s') {
      MachineCpus(s.m, c, s'.m);
    } else if u.handler.Some? {
      IrqCpus(s, c, x, s');
    } else if u.cur.Sched? {
      SchedCpus(s, c, x, s');
    } else {
      ProcCpus(s, c, u.cur.p, x, s');
    }
  }

  lemma MachineCpus(m: Machine, c: nat, m': Machine)
    requires c < |m.cpus| && CurOk(m, c)
    requires LockStep(m, c, m') || SwitchOut(m, c, m') || IrqEnter(m, c, m') || IrqReturn(m, c, m')
    ensures CpusBy(m, c, m')
  {
    if LockStep(m, c, m') {
      InsideBy(m, c, m');
    } else {
      hide LockStep, Popcli;
      if SwitchOut(m, c, m') {
        OpsCpus(m, c, Table, Idle, At(Exec(m, c).back));
        hide Goto;
      }
    }
  }

  lemma InsideBy(m: Machine, c: nat, m': Machine)
    requires c < |m.cpus| && CurOk(m, c) && LockStep(m, c, m')
    ensures CpusBy(m, c, m')
  {
    var p := Exec(m, c);
    var w := if p.Pop? && m.cpus[c].depth > 0 then WithCpu(m, c, Popcli(m.cpus[c])) else m;
    assert w.pcs == m.pcs && |w.cpus| == |m.cpus| && w.cpus[c].cur == m.cpus[c].cur &&
      w.cpus[c].handler == m.cpus[c].handler;
    var v := m'.(table := w.table, disk := w.disk, panicked := w.panicked);
    assert v == w || v == Goto(w, c, Inside(p)) by {
      hide Popcli;
    }
    OpsCpus(w, c, Table, Idle, Inside(p));
    hide Goto, LockStep, Popcli;
  }

  lemma IrqCpus(s: State, c: nat, x: Loc, s': State)
    requires c < |s.m.cpus| && CurOk(s.m, c) && IrqCode(s, c, x, s')
    ensures CpusBy(s.m, c, s'.m)
  {
    var m := s.m;
    forall l: Lock, to: Loc ensures CpusBy(m, c, Acquire(m, c, l, to)) && CpusBy(m, c, Release(m, c, l, to)) {
      OpsCpus(m, c, l, to, At(to));
    }
    OpsCpus(m, c, Table, x, At(IrqLoop));
    hide Acquire, Release, Goto, CpusBy;
  }

  lemma SchedCpus(s: State, c: nat, x: Loc, s': State)
    requires c < |s.m.cpus| && CurOk(s.m, c) && SchedCode(s, c, x, s') && s.m.cpus[c].handler.None?
    requires s.m.cpus[c].cur.Sched?
    ensures CpusBy(s.m, c, s'.m)
  {
  }

  lemma ProcCpus(s: State, c: nat, i: nat, x: Loc, s': State)
    requires c < |s.m.cpus| && CurOk(s.m, c) && i < |s.procs| && ProcCode(s, c, i, x, s')
    requires s.m.cpus[c].handler.None? && s.m.cpus[c].cur.Running?
    ensures CpusBy(s.m, c, s'.m)
  {
    hide CpusBy, Acquire, Release, Goto, UserCode;
    if x.User? && UserCode(s, c, i, s') {
      UserCpus(s, c, i, s');
    } else if ForkCode(s, c, i, x, s') {
      ForkCpus(s, c, i, x, s');
    } else if WaitCode(s, c, i, x, s') {
      hide ForkCode;
      WaitCpus(s, c, i, x, s');
    } else if ExitCode(s, c, i, x, s') || DiskCode(s, c, i, x, s') {
      hide ForkCode, WaitCode;
      LastCpus(s, c, i, x, s');
    } else {
      OpsCpus(s.m, c, Table, User, Out(YieldBack));
    }
  }

  ghost predicate OpsBy(m: Machine, c: nat)
    requires c < |m.cpus| && CurOk(m, c)
  {
    && (forall l: Lock, to: Loc :: CpusBy(m, c, Acquire(m, c, l, to)))
    && (forall l: Lock, to: Loc :: CpusBy(m, c, Release(m, c, l, to)))
    && (forall q: Pc :: CpusBy(m, c, Goto(m, c, q)))
  }

  lemma AllOps(m: Machine, c: nat)
    requires c < |m.cpus| && CurOk(m, c)
    ensures OpsBy(m, c)
  {
    forall l: Lock, to: Loc ensures CpusBy(m, c, Acquire(m, c, l, to)) {
      OpsCpus(m, c, l, to, At(to));
    }
    forall l: Lock, to: Loc ensures CpusBy(m, c, Release(m, c, l, to)) {
      OpsCpus(m, c, l, to, At(to));
    }
    forall q: Pc ensures CpusBy(m, c, Goto(m, c, q)) {
      OpsCpus(m, c, Table, Idle, q);
    }
  }

  lemma UserCpus(s: State, c: nat, i: nat, s': State)
    requires c < |s.m.cpus| && CurOk(s.m, c) && UserCode(s, c, i, s')
    ensures CpusBy(s.m, c, s'.m)
  {
    if l: Lock, to: Loc :| Entry(i, l, to) && s' == s.(m := Acquire(s.m, c, l, to)) {
      OpsCpus(s.m, c, l, to, At(to));
      hide CpusBy;
    }
  }

  lemma ForkCpus(s: State, c: nat, i: nat, x: Loc, s': State)
    requires c < |s.m.cpus| && CurOk(s.m, c) && ForkCode(s, c, i, x, s')
    ensures CpusBy(s.m, c, s'.m)
  {
    AllOps(s.m, c);
    hide Acquire, Release, Goto;
  }

  lemma WaitCpus(s: State, c: nat, i: nat, x: Loc, s': State)
    requires c < |s.m.cpus| && CurOk(s.m, c) && i < |s.procs| && WaitCode(s, c, i, x, s')
    ensures CpusBy(s.m, c, s'.m)
  {
    AllOps(s.m, c);
    hide Acquire, Release, Goto;
  }

  lemma LastCpus(s: State, c: nat, i: nat, x: Loc, s': State)
    requires c < |s.m.cpus| && CurOk(s.m, c) && i < |s.procs| && (ExitCode(s, c, i, x, s') || DiskCode(s, c, i, x, s'))
    ensures CpusBy(s.m, c, s'.m)
  {
    AllOps(s.m, c);
    hide Acquire, Release, Goto;
  }

  lemma ScanCloser(s: State, s': State, c: nat, i: nat)
    requires Step(s, s') && c < |s.m.cpus| == |s'.m.cpus| && i < |s.procs| == |s'.procs|
    requires s.procs[i].state == RUNNABLE && s'.procs[i].state == RUNNABLE
    ensures Closer(s, s', c, i)
  {
    hide CpuStep, CpusBy;
    if s'.m.cpus[c].sched == s.m.cpus[c].sched {
      if Dispatches(s, c, s') {
        DispatchMoves(s, s', c);
      }
    } else {
      var d: nat :| CpuStep(s, d, s');
      CpusChange(s, d, s');
      assert d == c && s.m.cpus[c].handler.None? && s.m.cpus[c].cur.Sched? by { OnlyC(s.m, d, s'.m, c); }
      CloserOwn(s, s', c, i);
    }
  }

  lemma CloserOwn(s: State, s': State, c: nat, i: nat)
    requires CpuStep(s, c, s') && s.m.cpus[c].handler.None? && s.m.cpus[c].cur.Sched?
    requires c < |s.m.cpus| == |s'.m.cpus| && i < |s.procs| == |s'.procs|
    requires s.procs[i].state == RUNNABLE && s'.procs[i].state == RUNNABLE && s'.m.cpus[c].sched != s.m.cpus[c].sched
    ensures Closer(s, s', c, i)
  {
    DispatchChanges(s, s', c);
    if MachineStep(s, c, s') {
      PositionKept(s.m, c, s'.m);
      hide Dispatches, Position, LockStep, SwitchOut, IrqEnter, IrqReturn;
    } else {
      var x := s.m.cpus[c].sched.loc;
      hide Acquire, Release;
      ScanMoves(s, c, x, s');
      if k: nat :| DispatchesSlot(s, c, k, s') {
        assert x == Scan(k) && k != i;
      }
    }
  }

  lemma DispatchChanges(s: State, s': State, c: nat)
    ensures Dispatches(s, c, s') ==> s'.procs != s.procs
  {
    if k: nat :| DispatchesSlot(s, c, k, s') {
      assert s'.procs[k].state == RUNNING && s.procs[k].state == RUNNABLE;
    }
  }

  lemma PositionKept(m: Machine, c: nat, m': Machine)
    requires c < |m.cpus| && CurOk(m, c) && m.cpus[c].handler.None? && m.cpus[c].cur.Sched?
    requires LockStep(m, c, m') || SwitchOut(m, c, m') || IrqEnter(m, c, m') || IrqReturn(m, c, m')
    ensures c < |m'.cpus| && Position(m'.cpus[c]) == Position(m.cpus[c])
  {
    if LockStep(m, c, m') {
      SchedInside(m, c, m');
      InsideJob(m.cpus[c].sched);
    }
    hide LockStep, Inside;
  }

  lemma SchedInside(m: Machine, c: nat, m': Machine)
    requires c < |m.cpus| && CurOk(m, c) && m.cpus[c].handler.None? && m.cpus[c].cur.Sched? && LockStep(m, c, m')
    ensures !m.cpus[c].sched.At? && !m.cpus[c].sched.Out?
    ensures c < |m'.cpus| && (m'.cpus[c].sched == m.cpus[c].sched || m'.cpus[c].sched == Inside(m.cpus[c].sched))
  {
    hide Popcli;
  }

  /** The scan goes through the slots in order, over and over. */
  lemma ScanMoves(s: State, c: nat, x: Loc, s': State)
    requires c < |s.m.cpus| && CurOk(s.m, c) && s.m.cpus[c].handler.None? && s.m.cpus[c].cur.Sched?
    requires s.m.cpus[c].sched == At(x)
    requires SchedCode(s, c, x, s')
    ensures c < |s'.m.cpus|
    ensures var pos, pos' := Position(s.m.cpus[c]), Position(s'.m.cpus[c]);
      pos' == pos || (x == Scan(pos) && pos < |s.procs| && pos' == pos + 1) ||
        (x == Scan(pos) && pos >= |s.procs| && pos' == 0)
  {
  }

  lemma DispatchMoves(s: State, s': State, c: nat)
    requires c < |s'.m.cpus| && Dispatches(s, c, s')
    ensures s'.m.cpus[c].sched != s.m.cpus[c].sched
  {
    var k: nat :| DispatchesSlot(s, c, k, s');
  }

  /** The number of processes c dispatches between states a and b of a run. */
  ghost function Dispatched(ss: seq<State>, c: nat, a: nat, b: nat): nat
    requires a <= b < |ss|
  {
    if a == b then 0 else Dispatched(ss, c, a, b - 1) + One(Dispatches(ss[b - 1], c, ss[b]))
  }

  /** While slot i stays RUNNABLE, any one CPU dispatches at most NPROC - 1 others. */
  lemma RoundRobin(ss: seq<State>, c: nat, i: nat, a: nat, b: nat)
    requires Run(ss) && a <= b < |ss| && c < |ss[0].m.cpus| && i < |ss[0].procs|
    requires forall k :: a <= k <= b ==> |ss[k].procs| > i && ss[k].procs[i].state == RUNNABLE
    ensures Dispatched(ss, c, a, b) <= |ss[0].procs| - 1
  {
    Always(ss, a);
    ScanProgress(ss, c, i, a, b);
  }

  lemma RunStep(ss: seq<State>, k: nat)
    requires Run(ss) && k + 1 < |ss|
    ensures Step(ss[k], ss[k + 1])
  {
  }

  lemma {:induction false} ScanProgress(ss: seq<State>, c: nat, i: nat, a: nat, b: nat)
    requires Run(ss) && a <= b < |ss| && c < |ss[0].m.cpus| && i < |ss[0].procs|
    requires forall k :: a <= k <= b ==> |ss[k].procs| > i && ss[k].procs[i].state == RUNNABLE
    ensures c < |ss[a].m.cpus| && c < |ss[b].m.cpus|
    ensures Dispatched(ss, c, a, b) + Ahead(Position(ss[b].m.cpus[c]), i, |ss[0].procs|) <=
      Ahead(Position(ss[a].m.cpus[c]), i, |ss[0].procs|)
  {
    hide Inv, Step, Dispatches, Run, Position, Ahead;
    Always(ss, a);
    Always(ss, b);
    if a < b {
      Always(ss, b - 1);
      ScanProgress(ss, c, i, a, b - 1);
      RunStep(ss, b - 1);
      ScanCloser(ss[b - 1], ss[b], c, i);
    }
  }
}
