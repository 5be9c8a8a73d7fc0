/** The life of a process in every run: which thread, at which place of its code, changes
  a slot of the process table, and in which way. */
module SchedLife {
  import opened Options
  import opened Spinlock
  import opened Scheduler
  import opened SchedCoupling
  import opened SchedFamily
  import opened SchedRuns
  import opened SchedPids

  /** CPU c executes the kernel code of process f at x. */
  predicate ProcAt(s: State, c: nat, f: nat, x: Loc) {
    && c < |s.m.cpus| && s.m.cpus[c].handler.None? && s.m.cpus[c].cur == Running(f)
    && f < |s.m.pcs| && f < |s.procs| && s.m.pcs[f] == At(x)
  }

  predicate SchedAt(s: State, c: nat, x: Loc) {
    c < |s.m.cpus| && s.m.cpus[c].handler.None? && s.m.cpus[c].cur.Sched? && s.m.cpus[c].sched == At(x)
  }

  predicate IrqAt(s: State, c: nat, x: Loc) {
    c < |s.m.cpus| && s.m.cpus[c].handler == Some(At(x))
  }

  /** fork: the free slot is taken, gets the next id, and is started with the parent. */
  ghost predicate Born(s: State, c: nat, s': State, i: nat)
    requires i < |s.procs| == |s'.procs|
  {
    var p, q := s.procs[i], s'.procs[i];
    || (p.state == UNUSED && q == p.(state := CREATED) && exists f: nat :: ProcAt(s, c, f, ForkScan))
    || (p.state == CREATED && q == p.(pid := s.nextpid) && exists f: nat :: ProcAt(s, c, f, ForkFill(i)))
    || (p.state == CREATED && p.pid > 0 && q == p.(state := RUNNABLE, parent := q.parent)
        && exists f: nat :: ProcAt(s, c, f, ForkStart(i)) && q.parent == Some(f))
  }

  /** The scheduler gives it a CPU and it gives it back, or a channel it sleeps on is
      woken, and it clears the channel itself. */
  ghost predicate Scheduled(s: State, c: nat, s': State, i: nat)
    requires i < |s.procs| == |s'.procs|
  {
    var p, q := s.procs[i], s'.procs[i];
    || (p.state == RUNNABLE && q == p.(state := RUNNING) && SchedAt(s, c, Scan(i)))
    || (p.state == RUNNING && q == p.(state := RUNNABLE) && ProcAt(s, c, i, YieldHeld))
    || (p.state == RUNNING && q == p.(state := SLEEPING, chan := Some(OnProc(i))) && WaitsIn(s, c, i))
    || (p.state == RUNNING && exists h: nat, b: nat ::
          ProcAt(s, c, i, DiskSleep(h, b)) && q == p.(state := SLEEPING, chan := Some(OnBuf(b))))
    || (p.state == SLEEPING && q == p.(state := RUNNABLE) && p.chan.Some? && Wakes(s, c, p.chan.value))
    || (p.state == RUNNING && q == p.(chan := None) && BackFromSleep(s, c, i))
  }

  ghost predicate BackFromSleep(s: State, c: nat, i: nat) {
    || (exists pid: Option<nat> :: ProcAt(s, c, i, WaitWoken(pid)))
    || (exists h: nat, b: nat :: ProcAt(s, c, i, DiskWoken(h, b)))
  }

  /** wait and waitpid sleep when there is no zombie of the kind they look for. */
  ghost predicate WaitsIn(s: State, c: nat, i: nat) {
    exists pid: Option<nat> ::
      ProcAt(s, c, i, WaitScan(pid)) && forall j: nat :: j < |s.procs| ==> !LooksFor(s, i, pid, j)
  }

  predicate LooksFor(s: State, i: nat, pid: Option<nat>, j: nat)
    requires j < |s.procs|
  {
    s.procs[j].state == ZOMBIE &&
    match pid
    case None => s.procs[j].parent == Some(i)
    case Some(x) => s.procs[j].pid == x
  }

  /** A child of the sleeper exits, or the handler has a request for the buffer. */
  ghost predicate Wakes(s: State, c: nat, ch: Chan) {
    match ch
    case OnProc(i) => exists f: nat :: ProcAt(s, c, f, ExitWake) && s.procs[f].parent == Some(i)
    case OnBuf(b) => exists h: nat :: IrqAt(s, c, IrqWake(h)) && h < |s.reqs| && s.reqs[h].buf == Some(b)
  }

  /** It exits, its parent exits, or it is the zombie that a wait looks for. */
  ghost predicate Ends(s: State, c: nat, s': State, i: nat)
    requires i < |s.procs| == |s'.procs|
  {
    var p, q := s.procs[i], s'.procs[i];
    || (p.state == RUNNING && q == p.(state := ZOMBIE) && ProcAt(s, c, i, ExitMark))
    || (q == p.(parent := Some(0)) && exists f: nat :: ProcAt(s, c, f, ExitHeld) && p.parent == Some(f))
    || (q == FREED && exists f: nat, pid: Option<nat> :: ProcAt(s, c, f, WaitScan(pid)) && LooksFor(s, f, pid, i))
  }

  ghost predicate LifeAt(s: State, c: nat, s': State, i: nat)
    requires i < |s.procs| == |s'.procs|
  {
    s'.procs[i] == s.procs[i] || Born(s, c, s', i) || Scheduled(s, c, s', i) || Ends(s, c, s', i)
  }

  /** Every slot is as it was, or changed in one of these ways. */
  ghost predicate Life(s: State, c: nat, s': State) {
    |s'.procs| == |s.procs| && forall i: nat :: i < |s.procs| ==> LifeAt(s, c, s', i)
  }

  // ---- Every step of a CPU

  lemma SameLife(s: State, c: nat, s': State)
    requires s'.procs == s.procs
    ensures Life(s, c, s')
  {
  }

  lemma ForkLife(s: State, c: nat, f: nat, x: Loc, s': State)
    requires Runs(s, c, f, x) && Acts(s, c) && ForkCode(s, c, f, x, s') && !s'.m.panicked
    requires ForkOk(s, f) && FilledIn(s, f)
    ensures Life(s, c, s')
  {
    hide Inv;
    assert ProcAt(s, c, f, x);
    forall i: nat | i < |s.procs| ensures |s'.procs| == |s.procs| && LifeAt(s, c, s', i) {
    }
  }

  predicate Acts(s: State, c: nat) {
    c < |s.m.cpus| && s.m.cpus[c].handler.None? && s.m.cpus[c].cur.Running?
  }

  lemma WaitLife(s: State, c: nat, f: nat, x: Loc, s': State)
    requires Runs(s, c, f, x) && Acts(s, c) && WaitCode(s, c, f, x, s') && !s'.m.panicked
    ensures Life(s, c, s')
  {
    hide Inv;
    assert ProcAt(s, c, f, x);
    assert x.WaitScan? ==>
      forall j: nat :: j < |s.procs| ==> (LooksFor(s, f, x.pid, j) <==> Reapable(s.procs[j], f, x.pid));
    hide LooksFor, Reapable;
    forall i: nat | i < |s.procs| ensures |s'.procs| == |s.procs| && LifeAt(s, c, s', i) {
    }
  }

  lemma ExitLife(s: State, c: nat, f: nat, x: Loc, s': State)
    requires Runs(s, c, f, x) && Acts(s, c) && ExitCode(s, c, f, x, s') && !s'.m.panicked
    requires forall i: nat :: i < |s.procs| ==> ProcOk(s, i)
    ensures Life(s, c, s')
  {
    hide Inv;
    assert ProcAt(s, c, f, x);
    forall i: nat | i < |s.procs| ensures |s'.procs| == |s.procs| && LifeAt(s, c, s', i) {
      assert ProcOk(s, i);
    }
  }

  lemma DiskLife(s: State, c: nat, f: nat, x: Loc, s': State)
    requires Runs(s, c, f, x) && Acts(s, c) && DiskCode(s, c, f, x, s') && !s'.m.panicked
    ensures Life(s, c, s')
  {
    hide Inv;
    assert ProcAt(s, c, f, x);
    forall i: nat | i < |s.procs| ensures |s'.procs| == |s.procs| && LifeAt(s, c, s', i) {
    }
  }

  lemma SchedLives(s: State, c: nat, x: Loc, s': State)
    requires c < |s.m.cpus| && CurOk(s.m, c) && SchedAt(s, c, x) && SchedCode(s, c, x, s')
    ensures Life(s, c, s')
  {
    forall i: nat | i < |s.procs| ensures |s'.procs| == |s.procs| && LifeAt(s, c, s', i) {
    }
  }

  lemma IrqLife(s: State, c: nat, x: Loc, s': State)
    requires c < |s.m.cpus| && CurOk(s.m, c) && IrqAt(s, c, x) && IrqCode(s, c, x, s')
    requires |s.procs| == |s.m.pcs| && forall i: nat :: i < |s.procs| ==> ProcOk(s, i)
    ensures Life(s, c, s')
  {
    forall i: nat | i < |s.procs| ensures |s'.procs| == |s.procs| && LifeAt(s, c, s', i) {
      assert ProcOk(s, i);
    }
  }

  // ---- Every run

  lemma YieldLife(s: State, c: nat, f: nat, x: Loc, s': State)
    requires Runs(s, c, f, x) && Acts(s, c) && (x.ForkRet? || x.YieldHeld? || x.YieldBack? || x.User?)
    requires ProcCode(s, c, f, x, s') && !s'.m.panicked
    ensures Life(s, c, s')
  {
    hide Inv;
    assert ProcAt(s, c, f, x);
    forall i: nat | i < |s.procs| ensures |s'.procs| == |s.procs| && LifeAt(s, c, s', i) {
    }
  }

  lemma ProcLife(s: State, c: nat, f: nat, x: Loc, s': State)
    requires Pids(s) && Runs(s, c, f, x) && Acts(s, c) && ProcCode(s, c, f, x, s') && !s'.m.panicked
    ensures Life(s, c, s')
  {
    InvMeans(s);
    assert FilledIn(s, f);
    hide Inv, Pids, Life, UserCode, WaitCode, ExitCode, DiskCode, ForkCode, ProcOk, ForkOk, FilledIn;
    if ForkCode(s, c, f, x, s') {
      ForkLife(s, c, f, x, s');
    } else if WaitCode(s, c, f, x, s') {
      WaitLife(s, c, f, x, s');
    } else if ExitCode(s, c, f, x, s') {
      ExitLife(s, c, f, x, s');
    } else if DiskCode(s, c, f, x, s') {
      DiskLife(s, c, f, x, s');
    } else {
      YieldLife(s, c, f, x, s');
    }
  }

  lemma InvMeans(s: State)
    requires Inv(s)
    ensures |s.procs| == |s.m.pcs|
    ensures forall i: nat :: i < |s.procs| ==> ProcOk(s, i) && ForkOk(s, i)
  {
    assert Core(s) by { FamilyForks(s); }
    hide ProcOk, ForkOk;
  }

  lemma LifeStep(s: State, c: nat, s': State)
    requires Inv(s) && Pids(s) && CpuStep(s, c, s')
    ensures Life(s, c, s')
  {
    CpuRuns(s, c, s');
    InvMeans(s);
    hide Inv, Pids, Life, Runs, ProcCode, SchedCode, IrqCode, ProcOk, ForkOk;
    if MachineStep(s, c, s') {
      SameLife(s, c, s');
    } else {
      var u, x := s.m.cpus[c], Exec(s.m, c).loc;
      if u.handler.Some? {
        IrqLife(s, c, x, s');
      } else if u.cur.Sched? {
        SchedLives(s, c, x, s');
      } else {
        ProcLife(s, c, u.cur.p, x, s');
      }
    }
  }

  /** The process table stays, or a CPU's place in the code accounts for every change. */
  ghost predicate Explained(s: State, s': State) {
    s'.procs == s.procs || exists c: nat :: CpuStep(s, c, s') && Life(s, c, s')
  }

  lemma StepLife(s: State, s': State)
    requires Inv(s) && Pids(s) && Step(s, s')
    ensures Explained(s, s')
  {
    hide Inv, Pids, CpuStep, Life;
    if c: nat :| CpuStep(s, c, s') {
      LifeStep(s, c, s');
    }
  }

  lemma LifeAlways(ss: seq<State>, k: nat)
    requires Run(ss) && k + 1 < |ss|
    ensures Explained(ss[k], ss[k + 1])
  {
    RunStep(ss, k);
    Always(ss, k);
    PidsAlways(ss, k);
    hide *;
    StepLife(ss[k], ss[k + 1]);
  }

  // ---- No process is left half made

  /** Process f is in the middle of fork, with slot j for the child. */
  predicate Forking(s: State, f: nat, j: nat)
    requires f < |s.m.pcs|
  {
    Target(s.m.pcs[f]) == ForkFill(j) || Target(s.m.pcs[f]) == ForkStart(j)
  }

  ghost predicate Begun(s: State, j: nat)
    requires j < |s.procs|
  {
    s.procs[j].state == CREATED ==> exists f: nat :: f < |s.m.pcs| && Forking(s, f, j)
  }

  ghost predicate AllBegun(s: State) {
    forall j: nat :: j < |s.procs| ==> Begun(s, j)
  }

  /** No slot has been taken, and every fork is where it was. */
  predicate NoneBegins(s: State, s': State) {
    && |s'.procs| == |s.procs| && |s'.m.pcs| == |s.m.pcs|
    && (forall j: nat :: j < |s.procs| ==> s'.procs[j].state == CREATED ==> s.procs[j].state == CREATED)
    && (forall f: nat :: f < |s.m.pcs| ==> ForkStays(s, s', f))
  }

  predicate ForkStays(s: State, s': State, f: nat)
    requires f < |s.m.pcs| == |s'.m.pcs|
  {
    var x := Target(s.m.pcs[f]);
    x.ForkFill? || x.ForkStart? ==> Target(s'.m.pcs[f]) == x
  }

  lemma StillBegun(s: State, s': State)
    requires AllBegun(s) && NoneBegins(s, s')
    ensures AllBegun(s')
  {
    forall j: nat | j < |s.procs| ensures Begun(s', j) {
      assert Begun(s, j);
      if s'.procs[j].state == CREATED {
        var f: nat :| f < |s.m.pcs| && Forking(s, f, j);
        assert ForkStays(s, s', f) && Forking(s', f, j);
      }
    }
  }

  lemma ForkBegun(s: State, c: nat, f: nat, x: Loc, s': State)
    requires Runs(s, c, f, x) && Acts(s, c) && ForkCode(s, c, f, x, s') && !s'.m.panicked && AllBegun(s)
    requires ForkOk(s, f) && forall i: nat :: i < |s.procs| ==> ProcOk(s, i)
    ensures AllBegun(s')
  {
    hide Inv;
    forall j: nat | j < |s'.procs| ensures Begun(s', j) {
      assert Begun(s, j) && (x.ForkFill? ==> ProcOk(s, x.child));
      if s'.procs[j].state == CREATED {
        if s.procs[j].state != CREATED || x == ForkFill(j) {
          assert Forking(s', f, j);
        } else {
          var g: nat :| g < |s.m.pcs| && Forking(s, g, j);
          assert Forking(s', g, j);
        }
      }
    }
  }

  lemma OtherPcs(s: State, c: nat, f: nat, x: Loc, s': State)
    requires Runs(s, c, f, x) && Acts(s, c) && ProcCode(s, c, f, x, s') && !ForkCode(s, c, f, x, s') && !s'.m.panicked
    ensures !x.ForkFill? && !x.ForkStart? && !x.ForkScan?
    ensures |s'.m.pcs| == |s.m.pcs| && forall g: nat :: g < |s.m.pcs| && g != f ==> s'.m.pcs[g] == s.m.pcs[g]
  {
    hide Inv;
    assert s.m.cpus[c].cur == Running(f);
    assert s'.m.pcs == s.m.pcs[f := s'.m.pcs[f]];
  }

  lemma OthersBegun(s: State, c: nat, f: nat, x: Loc, s': State)
    requires Runs(s, c, f, x) && Acts(s, c) && ProcCode(s, c, f, x, s') && !ForkCode(s, c, f, x, s') && !s'.m.panicked
    requires Life(s, c, s')
    ensures NoneBegins(s, s')
  {
    assert ProcAt(s, c, f, x);
    OtherPcs(s, c, f, x, s');
    assert s.m.pcs[f] == At(x);
    hide ProcCode, ForkCode, Life;
    NoneTaken(s, c, f, x, s');
  }

  lemma NoneTaken(s: State, c: nat, f: nat, x: Loc, s': State)
    requires ProcAt(s, c, f, x) && Life(s, c, s') && !x.ForkScan?
    ensures |s'.procs| == |s.procs|
    ensures forall j: nat :: j < |s.procs| && s'.procs[j].state == CREATED ==> s.procs[j].state == CREATED
  {
    forall j: nat | j < |s.procs| && s'.procs[j].state == CREATED ensures s.procs[j].state == CREATED {
      assert LifeAt(s, c, s', j);
    }
  }

  lemma SchedBegun(s: State, c: nat, x: Loc, s': State)
    requires |s.procs| == |s.m.pcs| && c < |s.m.cpus| && CurOk(s.m, c) && SchedAt(s, c, x) && SchedCode(s, c, x, s')
    ensures NoneBegins(s, s')
  {
  }

  lemma IrqBegun(s: State, c: nat, x: Loc, s': State)
    requires |s.procs| == |s.m.pcs| && c < |s.m.cpus| && CurOk(s.m, c) && IrqAt(s, c, x) && IrqCode(s, c, x, s')
    ensures NoneBegins(s, s')
  {
  }

  lemma MachineBegun(s: State, c: nat, s': State)
    requires |s.procs| == |s.m.pcs| && c < |s.m.cpus| && CurOk(s.m, c) && MachineStep(s, c, s')
    ensures NoneBegins(s, s')
  {
    Targets(s.m, c, s'.m);
    hide LockStep, SwitchOut, IrqEnter, IrqReturn;
  }

  lemma BegunStep(s: State, c: nat, s': State)
    requires Inv(s) && Pids(s) && AllBegun(s) && CpuStep(s, c, s')
    ensures AllBegun(s')
  {
    CpuRuns(s, c, s');
    LifeStep(s, c, s');
    InvMeans(s);
    hide Inv, Pids, Life, Runs, ProcCode, SchedCode, IrqCode, ForkCode, ProcOk, ForkOk, AllBegun, NoneBegins;
    if MachineStep(s, c, s') {
      MachineBegun(s, c, s');
      StillBegun(s, s');
    } else {
      var u, x := s.m.cpus[c], Exec(s.m, c).loc;
      if u.handler.None? && u.cur.Running? && ForkCode(s, c, u.cur.p, x, s') {
        ForkBegun(s, c, u.cur.p, x, s');
      } else {
        if u.handler.Some? {
          IrqBegun(s, c, x, s');
        } else if u.cur.Sched? {
          SchedBegun(s, c, x, s');
        } else {
          OthersBegun(s, c, u.cur.p, x, s');
        }
        StillBegun(s, s');
      }
    }
  }

  lemma AnyBegun(s: State, s': State)
    requires Inv(s) && Pids(s) && AllBegun(s) && Step(s, s')
    ensures AllBegun(s')
  {
    hide Inv, Pids, CpuStep;
    if c: nat :| CpuStep(s, c, s') {
      BegunStep(s, c, s');
    } else {
      var h: nat :| DeviceStep(s, h, s');
      StillBegun(s, s');
    }
  }

  /** In every run, a slot that has been taken and not started belongs to a fork that goes
      on to start it: no fork is forgotten. */
  lemma {:induction false} BegunAlways(ss: seq<State>, k: nat)
    requires Run(ss) && k < |ss|
    ensures AllBegun(ss[k])
    decreases k
  {
    hide *;
    if k == 0 {
      RunInit(ss);
      NoneAtFirst(ss[0]);
    } else {
      BegunAlways(ss, k - 1);
      Always(ss, k - 1);
      PidsAlways(ss, k - 1);
      RunStep(ss, k - 1);
      AnyBegun(ss[k - 1], ss[k]);
    }
  }

  lemma NoneAtFirst(s: State)
    requires Init(s)
    ensures AllBegun(s)
  {
  }
}
