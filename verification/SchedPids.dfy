/** Process ids in every run: given once, and different for different processes. */
module SchedPids {
  import opened Options
  import opened Spinlock
  import opened Scheduler
  import opened SchedCoupling
  import opened SchedFamily
  import opened SchedRuns

  /** Given ids are positive and below the counter; init, and a slot that is free, has id 0. */
  predicate PidOk(s: State, i: nat)
    requires i < |s.procs|
  {
    var p := s.procs[i];
    && p.pid < s.nextpid && (i == 0 || p.state == UNUSED ==> p.pid == 0)
    && (i != 0 && Started(p) ==> p.pid > 0)
  }

  predicate PidApart(s: State, i: nat, j: nat)
    requires i < |s.procs| && j < |s.procs|
  {
    i != j && s.procs[i].pid > 0 ==> s.procs[i].pid != s.procs[j].pid
  }

  /** A fork that is about to start its child has given it an id. */
  predicate FilledIn(s: State, i: nat)
    requires i < |s.m.pcs|
  {
    var x := Target(s.m.pcs[i]);
    x.ForkStart? && x.child < |s.procs| ==> s.procs[x.child].pid > 0
  }

  ghost predicate Pids(s: State) {
    && |s.procs| == |s.m.pcs| && s.nextpid >= 1
    && (forall i: nat :: i < |s.procs| ==> PidOk(s, i))
    && (forall i: nat, j: nat :: i < |s.procs| && j < |s.procs| ==> PidApart(s, i, j))
    && (forall i: nat :: i < |s.m.pcs| ==> FilledIn(s, i))
  }

  /** No id is given, or the next one, to one slot; ids are only taken away otherwise. */
  ghost predicate Gives(s: State, s': State) {
    |s'.procs| == |s.procs| &&
    if s'.nextpid == s.nextpid then forall i: nat :: i < |s.procs| ==> SamePid(s, s', i) || s'.procs[i].pid == 0
    else
      && s'.nextpid == s.nextpid + 1
      && exists j: nat :: j < |s.procs| && s'.procs[j].pid == s.nextpid &&
           forall i: nat :: i < |s.procs| && i != j ==> SamePid(s, s', i)
  }

  predicate SamePid(s: State, s': State, i: nat)
    requires i < |s.procs| == |s'.procs|
  {
    s'.procs[i].pid == s.procs[i].pid
  }

  // ---- Steps that do not concern ids

  predicate QuietAt(s: State, s': State, i: nat)
    requires i < |s.procs| == |s'.procs| == |s.m.pcs| == |s'.m.pcs|
  {
    && s'.procs[i].pid == s.procs[i].pid
    && (s'.procs[i].state == UNUSED ==> s.procs[i].state == UNUSED)
    && (Started(s'.procs[i]) ==> Started(s.procs[i]))
    && (Target(s'.m.pcs[i]).ForkStart? ==> Target(s'.m.pcs[i]) == Target(s.m.pcs[i]))
  }

  ghost predicate Quiet(s: State, s': State) {
    && |s.procs| == |s'.procs| == |s.m.pcs| == |s'.m.pcs| && s'.nextpid == s.nextpid
    && forall i: nat :: i < |s.procs| ==> QuietAt(s, s', i)
  }

  lemma QuietPids(s: State, s': State)
    requires Pids(s) && Quiet(s, s')
    ensures Pids(s') && Gives(s, s')
  {
    forall i: nat | i < |s.procs| ensures PidOk(s', i) && FilledIn(s', i) {
      assert PidOk(s, i) && FilledIn(s, i) && QuietAt(s, s', i);
      var x := Target(s.m.pcs[i]);
      if x.ForkStart? && x.child < |s.procs| {
        assert QuietAt(s, s', x.child);
      }
    }
    forall i: nat, j: nat | i < |s.procs| && j < |s.procs| ensures PidApart(s', i, j) {
      assert PidApart(s, i, j) && QuietAt(s, s', i) && QuietAt(s, s', j);
    }
    forall i: nat | i < |s.procs| ensures SamePid(s, s', i) {
      assert QuietAt(s, s', i);
    }
  }

  // ---- The steps that do

  lemma FillPids(s: State, c: nat, i: nat, j: nat, s': State)
    requires Pids(s) && Inv(s) && c < |s.m.cpus| && CurOk(s.m, c) && Own(s.m.cpus[c], i) && i < |s.procs|
    requires s.m.pcs[i] == At(ForkFill(j)) && ForkCode(s, c, i, ForkFill(j), s') && !s'.m.panicked
    ensures Pids(s') && Gives(s, s')
  {
    assert ForkOk(s, i) && ParentOk(s, j);
    assert s'.procs[j].pid == s.nextpid && forall k: nat :: k < |s.procs| && k != j ==> SamePid(s, s', k);
    forall k: nat | k < |s.procs| ensures PidOk(s', k) && FilledIn(s', k) {
      assert PidOk(s, k) && FilledIn(s, k);
    }
    forall k: nat, l: nat | k < |s.procs| && l < |s.procs| ensures PidApart(s', k, l) {
      assert PidApart(s, k, l) && PidOk(s, k) && PidOk(s, l);
    }
  }

  lemma StartPids(s: State, c: nat, i: nat, j: nat, s': State)
    requires Pids(s) && Inv(s) && c < |s.m.cpus| && CurOk(s.m, c) && Own(s.m.cpus[c], i) && i < |s.procs|
    requires s.m.pcs[i] == At(ForkStart(j)) && ForkCode(s, c, i, ForkStart(j), s')
    ensures Pids(s') && Gives(s, s')
  {
    assert ForkOk(s, i) && FilledIn(s, i);
    forall k: nat | k < |s.procs| ensures PidOk(s', k) && FilledIn(s', k) {
      assert PidOk(s, k) && FilledIn(s, k);
    }
    forall k: nat, l: nat | k < |s.procs| && l < |s.procs| ensures PidApart(s', k, l) {
      assert PidApart(s, k, l);
    }
  }

  lemma ReapPids(s: State, c: nat, i: nat, j: nat, pid: Option<nat>, s': State)
    requires Pids(s) && Inv(s) && c < |s.m.cpus| && CurOk(s.m, c) && Own(s.m.cpus[c], i) && i < |s.procs|
    requires s.m.pcs[i] == At(WaitScan(pid)) && Reap(s, c, i, j, pid, s')
    ensures Pids(s') && Gives(s, s')
  {
    forall k: nat | k < |s.procs| ensures PidOk(s', k) && FilledIn(s', k) {
      assert PidOk(s, k) && FilledIn(s, k) && ForkOk(s, k);
    }
    forall k: nat, l: nat | k < |s.procs| && l < |s.procs| ensures PidApart(s', k, l) {
      assert PidApart(s, k, l) && PidApart(s, l, k);
    }
  }

  // ---- Every step

  lemma MachineQuiet(s: State, c: nat, s': State)
    requires |s.procs| == |s.m.pcs| && c < |s.m.cpus| && CurOk(s.m, c) && MachineStep(s, c, s')
    ensures Quiet(s, s')
  {
    Targets(s.m, c, s'.m);
    hide LockStep, SwitchOut, IrqEnter, IrqReturn;
  }

  lemma Targets(m: Machine, c: nat, m': Machine)
    requires c < |m.cpus| && CurOk(m, c)
    requires LockStep(m, c, m') || SwitchOut(m, c, m') || IrqEnter(m, c, m') || IrqReturn(m, c, m')
    ensures |m'.pcs| == |m.pcs|
    ensures forall i: nat :: i < |m.pcs| ==> Target(m'.pcs[i]) == Target(m.pcs[i])
  {
    hide LockStep;
    if LockStep(m, c, m') {
      LockTargets(m, c, m');
    }
  }

  lemma LockTargets(m: Machine, c: nat, m': Machine)
    requires c < |m.cpus| && CurOk(m, c) && LockStep(m, c, m')
    ensures |m'.pcs| == |m.pcs|
    ensures forall i: nat :: i < |m.pcs| ==> Target(m'.pcs[i]) == Target(m.pcs[i])
  {
  }

  /** The state of slot i stays, or goes from SLEEPING to RUNNABLE, or from there to RUNNING. */
  predicate StateOnly(s: State, s': State, i: nat)
    requires i < |s.procs| == |s'.procs|
  {
    var p, q := s.procs[i], s'.procs[i];
    q == p || (q == p.(state := RUNNABLE) && p.state == SLEEPING) || (q == p.(state := RUNNING) && p.state == RUNNABLE)
  }

  lemma QuietFrom(s: State, s': State)
    requires |s.procs| == |s.m.pcs| == |s'.procs| && s'.m.pcs == s.m.pcs && s'.nextpid == s.nextpid
    requires forall i: nat :: i < |s.procs| ==> StateOnly(s, s', i)
    ensures Quiet(s, s')
  {
    forall i: nat | i < |s.procs| ensures QuietAt(s, s', i) {
      assert StateOnly(s, s', i);
    }
  }

  lemma SchedQuiet(s: State, c: nat, x: Loc, s': State)
    requires |s.procs| == |s.m.pcs| && c < |s.m.cpus| && CurOk(s.m, c) && Exec(s.m, c) == At(x)
    requires s.m.cpus[c].handler.None? && s.m.cpus[c].cur.Sched? && SchedCode(s, c, x, s')
    ensures Quiet(s, s')
  {
    assert |s'.procs| == |s.procs| && s'.m.pcs == s.m.pcs && s'.nextpid == s.nextpid &&
      forall i: nat :: i < |s.procs| ==> StateOnly(s, s', i);
    hide SchedCode, StateOnly, Quiet;
    QuietFrom(s, s');
  }

  lemma IrqQuiet(s: State, c: nat, x: Loc, s': State)
    requires |s.procs| == |s.m.pcs| && c < |s.m.cpus| && CurOk(s.m, c) && Exec(s.m, c) == At(x)
    requires s.m.cpus[c].handler.Some? && IrqCode(s, c, x, s')
    ensures Quiet(s, s')
  {
    assert |s'.procs| == |s.procs| && s'.m.pcs == s.m.pcs && s'.nextpid == s.nextpid &&
      forall i: nat :: i < |s.procs| ==> StateOnly(s, s', i);
    hide IrqCode, StateOnly, Quiet;
    QuietFrom(s, s');
  }

  /** Process i, at x and holding no more than its own context. */
  ghost predicate Runs(s: State, c: nat, i: nat, x: Loc) {
    && Inv(s) && c < |s.m.cpus| && CurOk(s.m, c) && Own(s.m.cpus[c], i) && i < |s.procs| == |s.m.pcs|
    && s.procs[i].state == RUNNING && s.m.pcs[i] == At(x)
  }

  lemma UserQuiet(s: State, c: nat, i: nat, s': State)
    requires Runs(s, c, i, User) && UserCode(s, c, i, s') && !s'.m.panicked
    ensures Quiet(s, s')
  {
    hide Inv;
  }

  lemma ForkPids(s: State, c: nat, i: nat, x: Loc, s': State)
    requires Pids(s) && Runs(s, c, i, x) && ForkCode(s, c, i, x, s') && !s'.m.panicked
    ensures Pids(s') && Gives(s, s')
  {
    match x
    case ForkScan =>
      hide Inv, Pids;
      assert Quiet(s, s');
      QuietPids(s, s');
    case ForkFill(j) => FillPids(s, c, i, j, s');
    case ForkStart(j) => StartPids(s, c, i, j, s');
  }

  lemma WaitPids(s: State, c: nat, i: nat, x: Loc, s': State)
    requires Pids(s) && Runs(s, c, i, x) && WaitCode(s, c, i, x, s') && !s'.m.panicked
    ensures Pids(s') && Gives(s, s')
  {
    hide Inv, Pids;
    if x.WaitScan? && exists j: nat :: Reap(s, c, i, j, x.pid, s') {
      var j: nat :| Reap(s, c, i, j, x.pid, s');
      ReapPids(s, c, i, j, x.pid, s');
    } else {
      assert Quiet(s, s');
      QuietPids(s, s');
    }
  }

  lemma ExitQuiet(s: State, c: nat, i: nat, x: Loc, s': State)
    requires Runs(s, c, i, x) && ExitCode(s, c, i, x, s') && !s'.m.panicked
    ensures Quiet(s, s')
  {
    hide Inv;
  }

  lemma DiskQuiet(s: State, c: nat, i: nat, x: Loc, s': State)
    requires Runs(s, c, i, x) && DiskCode(s, c, i, x, s') && !s'.m.panicked
    ensures Quiet(s, s')
  {
    hide Inv;
  }

  lemma YieldQuiet(s: State, c: nat, i: nat, x: Loc, s': State)
    requires Runs(s, c, i, x) && (x.ForkRet? || x.YieldHeld? || x.YieldBack?) && ProcCode(s, c, i, x, s')
    requires !s'.m.panicked
    ensures Quiet(s, s')
  {
    hide Inv;
  }

  lemma ProcPids(s: State, c: nat, i: nat, x: Loc, s': State)
    requires Pids(s) && Runs(s, c, i, x) && ProcCode(s, c, i, x, s') && !s'.m.panicked
    ensures Pids(s') && Gives(s, s')
  {
    hide Inv, Pids, Quiet, UserCode, WaitCode, ExitCode, DiskCode, ForkCode;
    if ForkCode(s, c, i, x, s') {
      ForkPids(s, c, i, x, s');
    } else if WaitCode(s, c, i, x, s') {
      WaitPids(s, c, i, x, s');
    } else {
      if x.User? && UserCode(s, c, i, s') {
        UserQuiet(s, c, i, s');
      } else if ExitCode(s, c, i, x, s') {
        ExitQuiet(s, c, i, x, s');
      } else if DiskCode(s, c, i, x, s') {
        DiskQuiet(s, c, i, x, s');
      } else {
        YieldQuiet(s, c, i, x, s');
      }
      QuietPids(s, s');
    }
  }

  lemma CpuRuns(s: State, c: nat, s': State)
    requires Inv(s) && CpuStep(s, c, s')
    ensures |s.procs| == |s.m.pcs| && !s'.m.panicked
    ensures CodeStep(s, c, s') && s.m.cpus[c].handler.None? && s.m.cpus[c].cur.Running? ==>
      var i := s.m.cpus[c].cur.p;
      i < |s.m.pcs| && s.m.pcs[i].At? && Runs(s, c, i, s.m.pcs[i].loc) && ProcCode(s, c, i, s.m.pcs[i].loc, s')
  {
    assert Core(s) by { FamilyForks(s); }
    CpuStepKept(s, c, s');
    assert CpuOk(s, c);
    hide UserCode, ForkCode, WaitCode, ExitCode, DiskCode, IrqCode, SchedCode, MachineStep, Nested;
  }

  lemma StepPids(s: State, s': State)
    requires Inv(s) && Step(s, s') && Pids(s)
    ensures Pids(s') && Gives(s, s')
  {
    hide Inv, Pids, CpuStep;
    if c: nat :| CpuStep(s, c, s') {
      CpuPids(s, c, s');
    } else {
      var h: nat :| DeviceStep(s, h, s');
      DevicePids(s, h, s');
    }
  }

  lemma DevicePids(s: State, h: nat, s': State)
    requires Pids(s) && DeviceStep(s, h, s')
    ensures Pids(s') && Gives(s, s')
  {
    assert Quiet(s, s');
    QuietPids(s, s');
  }

  lemma CpuPids(s: State, c: nat, s': State)
    requires Inv(s) && CpuStep(s, c, s') && Pids(s)
    ensures Pids(s') && Gives(s, s')
  {
    CpuRuns(s, c, s');
    hide Inv, Pids, Quiet, Runs, ProcCode, SchedCode, IrqCode;
    if MachineStep(s, c, s') {
      MachineQuiet(s, c, s');
      QuietPids(s, s');
    } else {
      var u, x := s.m.cpus[c], Exec(s.m, c).loc;
      if u.handler.Some? {
        IrqQuiet(s, c, x, s');
        QuietPids(s, s');
      } else if u.cur.Sched? {
        SchedQuiet(s, c, x, s');
        QuietPids(s, s');
      } else {
        ProcPids(s, c, u.cur.p, x, s');
      }
    }
  }

  // ---- Runs

  lemma InitPids(s: State)
    requires Init(s)
    ensures Pids(s)
  {
  }

  lemma {:induction false} PidsAlways(ss: seq<State>, k: nat)
    requires Run(ss) && k < |ss|
    ensures Pids(ss[k])
    decreases k
  {
    hide Run, Inv, Step, Init, Pids;
    if k == 0 {
      RunInit(ss);
      InitPids(ss[0]);
    } else {
      PidsAlways(ss, k - 1);
      Always(ss, k - 1);
      RunStep(ss, k - 1);
      StepPids(ss[k - 1], ss[k]);
    }
  }

  /** In every run: every process but init has a positive id below the counter, and two
      different processes have different ids. */
  lemma UniquePids(ss: seq<State>, k: nat, i: nat, j: nat)
    requires Run(ss) && k < |ss| && i < |ss[k].procs| && j < |ss[k].procs|
    ensures Started(ss[k].procs[i]) ==> ss[k].procs[i].pid < ss[k].nextpid && (i != 0 ==> ss[k].procs[i].pid > 0)
    ensures i != j && Started(ss[k].procs[i]) && Started(ss[k].procs[j]) ==>
      ss[k].procs[i].pid != ss[k].procs[j].pid
  {
    PidsAlways(ss, k);
    var s := ss[k];
    assert PidOk(s, i) && PidOk(s, j) && PidApart(s, i, j) && PidApart(s, j, i);
  }

  /** The counter starts at 1, and a step gives the next id to one slot or none to any: so
      the ids given in a run are 1, 2, 3 and so on. */
  lemma IdsInOrder(ss: seq<State>, k: nat)
    requires Run(ss) && k + 1 < |ss|
    ensures ss[0].nextpid == 1 && Gives(ss[k], ss[k + 1])
  {
    RunInit(ss);
    PidsAlways(ss, k);
    Always(ss, k);
    RunStep(ss, k);
    hide Run, Inv, Step, Pids, Gives;
    StepPids(ss[k], ss[k + 1]);
  }

  /** No id is given twice: whoever gets one later gets one that nobody had before. */
  lemma {:induction false} NeverAgain(ss: seq<State>, a: nat, b: nat, i: nat, j: nat)
    requires Run(ss) && a <= b < |ss| && i < |ss[a].procs| && j < |ss[b].procs|
    ensures ss[b].nextpid >= ss[a].nextpid && |ss[b].procs| == |ss[a].procs|
    ensures ss[b].procs[j].pid == ss[a].procs[i].pid > 0 ==> i == j
    decreases b
  {
    hide Run, Gives, PidApart, SamePid;
    SomePid(ss, a, i);
    if a == b {
      OnePid(ss, a, i, j);
    } else {
      IdsInOrder(ss, b - 1);
      GivesNew(ss[b - 1], ss[b], j);
      NeverAgain(ss, a, b - 1, i, j);
    }
  }

  lemma GivesNew(s: State, s': State, j: nat)
    requires Gives(s, s') && j < |s'.procs|
    ensures s'.nextpid >= s.nextpid && |s'.procs| == |s.procs|
    ensures s'.procs[j].pid == s.procs[j].pid || s'.procs[j].pid == 0 || s'.procs[j].pid == s.nextpid
  {
    assert SamePid(s, s', j) ==> s'.procs[j].pid == s.procs[j].pid;
  }

  lemma SomePid(ss: seq<State>, a: nat, i: nat)
    requires Run(ss) && a < |ss| && i < |ss[a].procs|
    ensures ss[a].procs[i].pid < ss[a].nextpid
  {
    PidsAlways(ss, a);
    assert PidOk(ss[a], i);
  }

  lemma OnePid(ss: seq<State>, a: nat, i: nat, j: nat)
    requires Run(ss) && a < |ss| && i < |ss[a].procs| && j < |ss[a].procs|
    ensures ss[a].procs[j].pid == ss[a].procs[i].pid > 0 ==> i == j
  {
    PidsAlways(ss, a);
    assert PidApart(ss[a], i, j);
  }

  /** waitpid frees the only process with the id it was asked for. */
  lemma WaitpidReaps(ss: seq<State>, k: nat, c: nat, i: nat, j: nat, pid: nat, s': State)
    requires Run(ss) && k < |ss| && c < |ss[k].m.cpus| && CurOk(ss[k].m, c)
    requires Exec(ss[k].m, c) == At(WaitScan(Some(pid))) && Reap(ss[k], c, i, j, Some(pid), s')
    ensures ss[k].procs[j].pid == pid && s'.procs == ss[k].procs[j := FREED]
    ensures forall l: nat :: l < |ss[k].procs| && Started(ss[k].procs[l]) && ss[k].procs[l].pid == pid ==> l == j
  {
    FreedStackIsIdle(ss, k, c, i, j, Some(pid), s');
    forall l: nat | l < |ss[k].procs| && Started(ss[k].procs[l]) && ss[k].procs[l].pid == pid ensures l == j {
      UniquePids(ss, k, l, j);
    }
  }
}
