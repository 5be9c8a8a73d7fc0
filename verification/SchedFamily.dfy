/** Parents, children, wait and exit: who may be left without a parent, and who
  may sleep through the exit of a child. */
module SchedFamily {
  import opened Spinlock
  import opened Scheduler
  import opened SchedCoupling
  import opened Options

  predicate Started(p: Proc) {
    p.state != UNUSED && p.state != CREATED
  }

  predicate Live(p: Proc) {
    p.state == RUNNING || p.state == RUNNABLE || p.state == SLEEPING
  }

  predicate ExitLoc(x: Loc) {
    x.ExitHeld? || x.ExitWake? || x.ExitMark?
  }

  predicate ForkLoc(x: Loc) {
    x.ForkFill? || x.ForkStart?
  }

  /** Every started process but init has a parent that has not exited. */
  predicate ParentOk(s: State, i: nat)
    requires i < |s.procs|
  {
    var p := s.procs[i];
    i != 0 && Started(p) ==> p.parent.Some? && p.parent.value < |s.procs| && Live(s.procs[p.parent.value])
  }

  predicate NotChild(s: State, j: nat, i: nat)
    requires j < |s.procs|
  {
    s.procs[j].parent != Some(i)
  }

  /** After reparent the exiting process has no children; after wakeup_acquired
      its parent does not sleep in wait. */
  ghost predicate ExitOk(s: State, i: nat)
    requires i < |s.procs| == |s.m.pcs|
  {
    var pc := s.m.pcs[i];
    && (ExitLoc(Target(pc)) ==> i != 0)
    && (Target(pc).ExitWake? || Target(pc).ExitMark? ==> pc.At?)
    && (pc == At(ExitWake) || pc == At(ExitMark) ==> forall j: nat :: j < |s.procs| ==> NotChild(s, j, i))
    && (pc == At(ExitMark) ==> !ParentWaits(s, i))
  }

  predicate ParentWaits(s: State, i: nat)
    requires i < |s.procs|
  {
    var q := s.procs[i].parent;
    q.Some? && q.value < |s.procs| && s.procs[q.value].state == SLEEPING &&
      s.procs[q.value].chan == Some(OnProc(q.value))
  }

  /** i sleeps in wait (or waitpid) although its child j, which it waits for, is a
      zombie. */
  predicate Overslept(s: State, i: nat, j: nat)
    requires i < |s.procs| == |s.m.pcs| && j < |s.procs|
  {
    var x := Target(s.m.pcs[i]);
    && s.procs[i].state == SLEEPING && x.WaitWoken?
    && s.procs[j].state == ZOMBIE && s.procs[j].parent == Some(i) && (x.pid.None? || x.pid.value == s.procs[j].pid)
  }

  predicate WaitOk(s: State, i: nat, j: nat)
    requires i < |s.procs| == |s.m.pcs| && j < |s.procs|
  {
    i != 0 ==> !Overslept(s, i, j)
  }

  ghost predicate Family(s: State) {
    && 1 <= |s.procs| == |s.m.pcs|
    && Live(s.procs[0])
    && (forall i: nat :: i < |s.procs| ==> ParentOk(s, i))
    && (forall i: nat :: i < |s.procs| ==> ExitOk(s, i))
    && (forall i: nat, j: nat :: i < |s.procs| && j < |s.procs| ==> WaitOk(s, i, j))
    && Forks(s)
  }

  // ---- Steps that do not concern the family

  predicate Neutral(s: State, s': State, j: nat)
    requires j < |s.procs| == |s.m.pcs| == |s'.procs| == |s'.m.pcs|
  {
    var p, p', pc, pc' := s.procs[j], s'.procs[j], s.m.pcs[j], s'.m.pcs[j];
    && p'.parent == p.parent && p'.pid == p.pid
    && (p' == p || (Live(p) && Live(p') &&
      (p'.state == SLEEPING ==> p'.chan.Some? && p'.chan.value.OnBuf? && !Target(pc').WaitWoken?)))
    && (pc' != pc ==>
        && !Target(pc').ExitWake? && !Target(pc').ExitMark?
        && (ExitLoc(Target(pc')) ==> j != 0)
        && (ForkLoc(Target(pc')) ==> Target(pc') == Target(pc))
        && (Target(pc').WaitWoken? && p'.state == SLEEPING ==> Target(pc') == Target(pc) && p' == p)
        && p.state != CREATED)
  }

  ghost predicate AllNeutral(s: State, s': State) {
    && |s.procs| == |s.m.pcs| == |s'.procs| == |s'.m.pcs|
    && forall j: nat :: j < |s.procs| ==> Neutral(s, s', j)
  }

  lemma NeutralFamily(s: State, s': State)
    requires Family(s) && AllNeutral(s, s')
    ensures Family(s')
  {
    assert Neutral(s, s', 0);
    forall i: nat | i < |s.procs| ensures ParentOk(s', i) {
      NeutralParent(s, s', i);
    }
    forall i: nat | i < |s.procs| ensures ExitOk(s', i) {
      NeutralExit(s, s', i);
    }
    forall i: nat, j: nat | i < |s.procs| && j < |s.procs| ensures WaitOk(s', i, j) {
      assert WaitOk(s, i, j) && Neutral(s, s', i) && Neutral(s, s', j);
    }
    hide ParentOk, ExitOk, WaitOk;
    forall i: nat | i < |s.procs| ensures ForkOk(s', i) {
      assert ForkOk(s, i) && Neutral(s, s', i);
      var x := Target(s.m.pcs[i]);
      if ForkLoc(x) {
        assert Neutral(s, s', x.child);
      }
    }
    forall i: nat, k: nat | i < |s.procs| && k < |s.procs| ensures ForkApart(s', i, k) {
      assert ForkApart(s, i, k) && Neutral(s, s', i) && Neutral(s, s', k);
    }
  }

  lemma NeutralParent(s: State, s': State, i: nat)
    requires Family(s) && AllNeutral(s, s') && i < |s.procs|
    ensures ParentOk(s', i)
  {
    assert ParentOk(s, i) && Neutral(s, s', i);
    var q := s.procs[i].parent;
    if q.Some? && q.value < |s.procs| {
      assert Neutral(s, s', q.value);
    }
  }

  lemma NeutralExit(s: State, s': State, i: nat)
    requires Family(s) && AllNeutral(s, s') && i < |s.procs|
    ensures ExitOk(s', i)
  {
    assert ExitOk(s, i) && Neutral(s, s', i);
    forall j: nat | j < |s.procs| && NotChild(s, j, i) ensures NotChild(s', j, i) {
      assert Neutral(s, s', j);
    }
    var q := s.procs[i].parent;
    if q.Some? && q.value < |s.procs| {
      assert Neutral(s, s', q.value);
    }
  }

  // ---- Steps that do

  /** While c executes process i with the table lock, no other process is inside
      the code that the lock protects. */
  lemma TableIsMine(s: State, c: nat, i: nat, j: nat)
    requires LocksOk(s.m) && Coupled(s) && c < |s.m.cpus| && Own(s.m.cpus[c], i) && Owns(Exec(s.m, c), Table)
    requires j < |s.procs| && j != i && s.procs[j].state == RUNNING
    ensures !Owns(s.m.pcs[j], Table) || Parked(s.m.pcs[j])
  {
    assert Hosted(s, j);
    var d: nat :| d < |s.m.cpus| && Hosts(s.m.cpus[d], j);
    assert CpuOk(s, d) && CpuOk(s, c);
    if d != c && s.m.cpus[d].cur == Running(j) && Owns(s.m.pcs[j], Table) {
      HoldingExact(s.m, c, Table);
      OwnsGrips(s.m, c, Table);
      assert CpuOwns(s.m, d, Table);
      OwnsGrips(s.m, d, Table);
    }
  }

  /** So nobody else is between reparent and becoming a zombie. */
  lemma NoOtherExit(s: State, c: nat, i: nat, j: nat)
    requires LocksOk(s.m) && Coupled(s) && c < |s.m.cpus| && Own(s.m.cpus[c], i) && Owns(Exec(s.m, c), Table)
    requires j < |s.procs| && j != i
    ensures s.m.pcs[j] != At(ExitWake) && s.m.pcs[j] != At(ExitMark)
  {
    assert ProcOk(s, j);
    if s.m.pcs[j] == At(ExitWake) || s.m.pcs[j] == At(ExitMark) {
      TableIsMine(s, c, i, j);
    }
  }

  /** Frame of a step in which process i, with the table lock, changes the table:
      other processes stay where they are. */
  ghost predicate MyStep(s: State, s': State, c: nat, i: nat) {
    && LocksOk(s.m) && Coupled(s) && Family(s) && c < |s.m.cpus| && Own(s.m.cpus[c], i) && Owns(Exec(s.m, c), Table)
    && i < |s.procs| == |s'.procs| == |s'.m.pcs|
    && s'.m.pcs == s.m.pcs[i := s'.m.pcs[i]] && s.procs[i].state == RUNNING
  }

  lemma MyExits(s: State, s': State, c: nat, i: nat)
    requires MyStep(s, s', c, i) && ExitOk(s', i)
    requires forall j: nat :: j < |s.procs| && j != i && ExitLoc(Target(s.m.pcs[j])) ==> j != 0
    ensures forall j: nat :: j < |s.procs| ==> ExitOk(s', j)
  {
    forall j: nat | j < |s.procs| ensures ExitOk(s', j) {
      if j != i {
        assert ExitOk(s, j);
        NoOtherExit(s, c, i, j);
      }
    }
  }

  lemma ExitNotInit(s: State)
    requires Family(s)
    ensures forall j: nat :: j < |s.procs| && ExitLoc(Target(s.m.pcs[j])) ==> j != 0
  {
    forall j: nat | j < |s.procs| && ExitLoc(Target(s.m.pcs[j])) ensures j != 0 {
      assert ExitOk(s, j);
    }
  }

  /** wait found no zombie and goes to sleep. */
  lemma WaitSleeps(s: State, s': State, c: nat, i: nat, pid: Option<nat>)
    requires MyStep(s, s', c, i) && s'.m.pcs[i] == Out(WaitWoken(pid)) && s'.procs == Asleep(s.procs, i, OnProc(i))
    requires forall j :: 0 <= j < |s.procs| ==> !Reapable(s.procs[j], i, pid)
    ensures Family(s')
  {
    ExitNotInit(s);
    MyExits(s, s', c, i);
    forall k: nat | k < |s.procs| ensures ParentOk(s', k) {
      assert ParentOk(s, k);
    }
    forall k: nat, j: nat | k < |s.procs| && j < |s.procs| ensures WaitOk(s', k, j) {
      assert WaitOk(s, k, j);
    }
    hide ParentOk, ExitOk, WaitOk, Coupled, LocksOk;
    KeepForks(s, s', i);
  }

  /** Forks are unaffected when no CREATED slot changes and i is not forking. */
  lemma KeepForks(s: State, s': State, i: nat)
    requires Forks(s) && i < |s.procs| == |s'.procs| == |s'.m.pcs|
    requires s'.m.pcs == s.m.pcs[i := s'.m.pcs[i]] && !ForkLoc(Target(s'.m.pcs[i])) && s.procs[i].state != CREATED
    requires forall j :: 0 <= j < |s.procs| && s.procs[j].state == CREATED ==>
      s'.procs[j].state == CREATED || (s.m.pcs[i].At? && s.m.pcs[i].loc == ForkStart(j))
    ensures Forks(s')
  {
    forall k: nat | k < |s.procs| ensures ForkOk(s', k) {
      assert ForkOk(s, k) && ForkApart(s, k, i);
    }
    forall j: nat, k: nat | j < |s.procs| && k < |s.procs| ensures ForkApart(s', j, k) {
      assert ForkApart(s, j, k);
    }
  }

  lemma SlotTaken(s: State, s': State, c: nat, i: nat, j: nat)
    requires MyStep(s, s', c, i) && j < |s.procs| && s.procs[j].state == UNUSED && s.m.pcs[i] == At(ForkScan)
    requires s'.m.pcs[i] == Clear(Table, ForkFill(j)) && s'.procs == SetState(s.procs, j, CREATED)
    ensures Family(s')
  {
    ExitNotInit(s);
    MyExits(s, s', c, i);
    forall k: nat | k < |s.procs| ensures ParentOk(s', k) {
      assert ParentOk(s, k);
    }
    forall k: nat, l: nat | k < |s.procs| && l < |s.procs| ensures WaitOk(s', k, l) {
      assert WaitOk(s, k, l);
    }
    hide ParentOk, ExitOk, WaitOk, Coupled, LocksOk;
    forall k: nat | k < |s.procs| ensures ForkOk(s', k) {
      assert ForkOk(s, k);
    }
    forall k: nat, l: nat | k < |s.procs| && l < |s.procs| ensures ForkApart(s', k, l) {
      assert ForkApart(s, k, l) && ForkOk(s, k) && ForkOk(s, l);
    }
  }

  /** newproc fills the slot outside the lock. */
  lemma SlotFilled(s: State, s': State, i: nat, j: nat)
    requires Family(s) && i < |s.procs| && s.m.pcs[i] == At(ForkFill(j)) && s.procs[i].state == RUNNING
    requires |s'.procs| == |s.procs| && j < |s.procs| && s.procs[j].state == CREATED
    requires s'.procs == s.procs[j := s.procs[j].(pid := s'.procs[j].pid)]
    requires s'.m.pcs == s.m.pcs[i := Spin(Table, ForkStart(j))][j := At(ForkRet)]
    requires s.m.pcs[j] == At(Dead) || s.m.pcs[j] == At(ForkRet)
    ensures Family(s')
  {
    forall k: nat | k < |s.procs| ensures ParentOk(s', k) {
      assert ParentOk(s, k);
    }
    forall k: nat | k < |s.procs| ensures ExitOk(s', k) {
      assert ExitOk(s, k);
      forall l: nat | l < |s.procs| && NotChild(s, l, k) ensures NotChild(s', l, k) {
      }
    }
    forall k: nat, l: nat | k < |s.procs| && l < |s.procs| ensures WaitOk(s', k, l) {
      assert WaitOk(s, k, l);
    }
    hide ParentOk, ExitOk, WaitOk;
    forall k: nat | k < |s.procs| ensures ForkOk(s', k) {
      assert ForkOk(s, k) && ForkApart(s, k, i);
    }
    forall k: nat, l: nat | k < |s.procs| && l < |s.procs| ensures ForkApart(s', k, l) {
      assert ForkApart(s, k, l);
    }
  }

  lemma ChildStarts(s: State, s': State, c: nat, i: nat, j: nat)
    requires MyStep(s, s', c, i) && s.m.pcs[i] == At(ForkStart(j)) && j < |s.procs| && s.procs[j].state == CREATED
    requires s'.m.pcs[i] == Clear(Table, User)
    requires s'.procs == s.procs[j := s.procs[j].(state := RUNNABLE, parent := Some(i))]
    ensures Family(s')
  {
    ExitNotInit(s);
    MyExits(s, s', c, i);
    forall k: nat | k < |s.procs| ensures ParentOk(s', k) {
      assert ParentOk(s, k);
    }
    forall k: nat, l: nat | k < |s.procs| && l < |s.procs| ensures WaitOk(s', k, l) {
      assert WaitOk(s, k, l);
    }
    hide ParentOk, ExitOk, WaitOk, Coupled, LocksOk;
    KeepForks(s, s', i);
  }

  lemma ZombieFreed(s: State, s': State, c: nat, i: nat, j: nat)
    requires MyStep(s, s', c, i) && j < |s.procs| && s.procs[j].state == ZOMBIE
    requires s'.m.pcs[i] == Clear(Table, User) && s'.procs == s.procs[j := FREED]
    ensures Family(s')
  {
    ExitNotInit(s);
    MyExits(s, s', c, i);
    forall k: nat | k < |s.procs| ensures ParentOk(s', k) {
      assert ParentOk(s, k);
    }
    forall k: nat, l: nat | k < |s.procs| && l < |s.procs| ensures WaitOk(s', k, l) {
      assert WaitOk(s, k, l);
    }
    hide ParentOk, ExitOk, WaitOk, Coupled, LocksOk;
    KeepForks(s, s', i);
  }

  lemma Orphaned(s: State, s': State, c: nat, i: nat)
    requires MyStep(s, s', c, i) && s.m.pcs[i] == At(ExitHeld)
    requires s'.m.pcs[i] == At(ExitWake) && s'.procs == Reparent(s.procs, i)
    ensures Family(s')
  {
    ExitNotInit(s);
    forall k: nat | k < |s.procs| ensures NotChild(s', k, i) {
    }
    MyExits(s, s', c, i);
    forall k: nat | k < |s.procs| ensures ParentOk(s', k) {
      assert ParentOk(s, k);
    }
    forall k: nat, l: nat | k < |s.procs| && l < |s.procs| ensures WaitOk(s', k, l) {
      assert WaitOk(s, k, l);
    }
    hide ParentOk, ExitOk, WaitOk, Coupled, LocksOk;
    KeepForks(s, s', i);
  }

  lemma ParentWoken(s: State, s': State, c: nat, i: nat)
    requires MyStep(s, s', c, i) && s.m.pcs[i] == At(ExitWake)
    requires s'.m.pcs[i] == At(ExitMark) && s'.procs == WakeAll(s.procs, ParentChan(s.procs[i]))
    ensures Family(s')
  {
    ExitNotInit(s);
    assert ExitOk(s, i);
    forall k: nat | k < |s.procs| ensures NotChild(s', k, i) {
      assert NotChild(s, k, i);
    }
    MyExits(s, s', c, i);
    forall k: nat | k < |s.procs| ensures ParentOk(s', k) {
      assert ParentOk(s, k);
    }
    forall k: nat, l: nat | k < |s.procs| && l < |s.procs| ensures WaitOk(s', k, l) {
      assert WaitOk(s, k, l);
    }
    hide ParentOk, ExitOk, WaitOk, Coupled, LocksOk;
    KeepForks(s, s', i);
  }

  lemma BecomesZombie(s: State, s': State, c: nat, i: nat)
    requires MyStep(s, s', c, i) && s.m.pcs[i] == At(ExitMark)
    requires s'.m.pcs[i] == Out(Dead) && s'.procs == SetState(s.procs, i, ZOMBIE)
    ensures Family(s')
  {
    ExitNotInit(s);
    assert ExitOk(s, i);
    MyExits(s, s', c, i);
    forall k: nat | k < |s.procs| ensures ParentOk(s', k) {
      assert ParentOk(s, k) && NotChild(s, k, i);
    }
    forall k: nat, l: nat | k < |s.procs| && l < |s.procs| ensures WaitOk(s', k, l) {
      assert WaitOk(s, k, l) && ProcOk(s, k);
    }
    hide ParentOk, ExitOk, WaitOk, Coupled, LocksOk;
    KeepForks(s, s', i);
  }

  // ---- Every step

  /** Dispatched, woken, or left alone. */
  predicate Moving(p: Proc, p': Proc) {
    || p' == p
    || (p.state == RUNNABLE && p' == p.(state := RUNNING))
    || (p.state == SLEEPING && p' == p.(state := RUNNABLE))
  }

  lemma TableNeutral(s: State, s': State)
    requires Coupled(s) && s'.m.pcs == s.m.pcs && |s'.procs| == |s.procs|
    requires forall j :: 0 <= j < |s.procs| ==> Moving(s.procs[j], s'.procs[j])
    ensures AllNeutral(s, s')
  {
  }

  lemma OwnNeutral(s: State, s': State, i: nat)
    requires Coupled(s) && Family(s) && i < |s.procs| && s.procs[i].state == RUNNING
    requires |s'.procs| == |s.procs| == |s'.m.pcs| && s'.m.pcs == s.m.pcs[i := s'.m.pcs[i]]
    requires forall j :: 0 <= j < |s.procs| && j != i ==> s'.procs[j] == s.procs[j]
    requires Neutral(s, s', i)
    ensures Family(s')
  {
    forall j: nat | j < |s.procs| ensures Neutral(s, s', j) {
    }
    NeutralFamily(s, s');
  }

  lemma MachineFamily(s: State, c: nat, s': State)
    requires LocksOk(s.m) && Coupled(s) && Family(s) && c < |s.m.cpus| && CurOk(s.m, c) && MachineStep(s, c, s')
    ensures Family(s')
  {
    assert CpuOk(s, c);
    if s'.m.pcs == s.m.pcs {
      TableNeutral(s, s');
      NeutralFamily(s, s');
    } else {
      var i := s.m.cpus[c].cur.p;
      assert ProcOk(s, i) && ExitOk(s, i);
      hide Family, Coupled, LocksOk, ExitOk;
      OutNeutral(s, s', i);
    }
  }

  /** Moving on inside acquire or release, or switching out. */
  lemma OutNeutral(s: State, s': State, i: nat)
    requires Coupled(s) && Family(s) && i < |s.procs| == |s.m.pcs| == |s'.m.pcs| && ProcOk(s, i)
    requires s'.procs == s.procs && ExitOk(s, i)
    requires s'.m.pcs == s.m.pcs[i := s'.m.pcs[i]] && Target(s'.m.pcs[i]) == Target(s.m.pcs[i]) && !s.m.pcs[i].At?
    ensures Family(s')
  {
    forall j: nat | j < |s.procs| ensures Neutral(s, s', j) {
    }
    NeutralFamily(s, s');
  }

  /** The contexts after acquire, release or a jump by process i. */
  lemma OwnPcs(m: Machine, c: nat, i: nat, l: Lock, to: Loc, q: Pc)
    requires c < |m.cpus| && CurOk(m, c) && Own(m.cpus[c], i)
    ensures i < |m.pcs| && Goto(m, c, q).pcs == m.pcs[i := q]
    ensures !Acquire(m, c, l, to).panicked ==> Acquire(m, c, l, to).pcs == m.pcs[i := Spin(l, to)]
    ensures !Release(m, c, l, to).panicked ==> Release(m, c, l, to).pcs == m.pcs[i := Clear(l, to)]
  {
  }

  /** Process i goes on, outside fork and exit, and changes at most its own channel. */
  lemma OwnFamily(s: State, s': State, i: nat, q: Pc)
    requires Coupled(s) && Family(s) && i < |s.procs| == |s.m.pcs| && s.procs[i].state == RUNNING
    requires s'.m.pcs == s.m.pcs[i := q] && |s'.procs| == |s.procs|
    requires s'.procs == s.procs[i := s.procs[i].(chan := s'.procs[i].chan)]
    requires !ForkLoc(Target(q)) && !Target(q).ExitWake? && !Target(q).ExitMark? && (Target(q).ExitHeld? ==> i != 0)
    ensures Family(s')
  {
    hide Coupled, Family;
    assert Neutral(s, s', i);
    OwnNeutral(s, s', i);
  }

  lemma UserFamily(s: State, c: nat, i: nat, s': State)
    requires Coupled(s) && Family(s) && c < |s.m.cpus| && CurOk(s.m, c) && Own(s.m.cpus[c], i)
    requires i < |s.procs| == |s.m.pcs|
    requires s.procs[i].state == RUNNING && s.m.pcs[i] == At(User) && UserCode(s, c, i, s') && !s'.m.panicked
    ensures Family(s')
  {
    hide Family, Coupled, Acquire;
    if on: bool :| s' == s.(m := Masked(s.m, c, on)) {
      TableNeutral(s, s');
      NeutralFamily(s, s');
    } else {
      var l: Lock, to: Loc :| Entry(i, l, to) && s' == s.(m := Acquire(s.m, c, l, to));
      hide UserCode;
      OwnPcs(s.m, c, i, l, to, At(to));
      OwnFamily(s, s', i, Spin(l, to));
    }
  }

  ghost predicate Running1(s: State, c: nat, i: nat, x: Loc) {
    && LocksOk(s.m) && Coupled(s) && Family(s) && c < |s.m.cpus| && CurOk(s.m, c) && Own(s.m.cpus[c], i)
    && i < |s.procs| == |s.m.pcs| && s.procs[i].state == RUNNING && s.m.pcs[i] == At(x) && Exec(s.m, c) == At(x)
  }

  lemma ForkFamily(s: State, c: nat, i: nat, x: Loc, s': State)
    requires Running1(s, c, i, x) && ForkCode(s, c, i, x, s') && !s'.m.panicked
    ensures Family(s')
  {
    assert ForkOk(s, i);
    hide Family, Coupled, LocksOk, Acquire, Release;
    match x
    case ForkScan =>
      if j: nat :| TakeSlot(s, c, j, s') {
        OwnPcs(s.m, c, i, Table, ForkFill(j), At(x));
        SlotTaken(s, s', c, i, j);
      } else {
        OwnPcs(s.m, c, i, Table, User, At(x));
        OwnFamily(s, s', i, Clear(Table, User));
      }
    case ForkFill(j) =>
      OwnPcs(s.m, c, i, Table, ForkStart(j), At(x));
      assert ProcOk(s, j) by { AllProcsOk(s); }
      SlotFilled(s, s', i, j);
    case ForkStart(j) =>
      OwnPcs(s.m, c, i, Table, User, At(x));
      ChildStarts(s, s', c, i, j);
  }

  lemma AllProcsOk(s: State)
    requires Coupled(s)
    ensures |s.procs| == |s.m.pcs| && forall j: nat :: j < |s.procs| ==> ProcOk(s, j)
  {
  }

  lemma WaitFamily(s: State, c: nat, i: nat, x: Loc, s': State)
    requires Running1(s, c, i, x) && WaitCode(s, c, i, x, s') && !s'.m.panicked
    ensures Family(s')
  {
    hide Family, Coupled, LocksOk, Acquire, Release;
    match x
    case WaitScan(pid) =>
      if j: nat :| Reap(s, c, i, j, pid, s') {
        OwnPcs(s.m, c, i, Table, User, At(x));
        ZombieFreed(s, s', c, i, j);
      } else {
        OwnPcs(s.m, c, i, Table, User, Out(WaitWoken(pid)));
        WaitSleeps(s, s', c, i, pid);
      }
    case WaitWoken(pid) =>
      OwnPcs(s.m, c, i, Table, WaitAgain(pid), At(x));
      OwnFamily(s, s', i, Clear(Table, WaitAgain(pid)));
    case WaitAgain(pid) =>
      OwnPcs(s.m, c, i, Table, WaitScan(pid), At(x));
      OwnFamily(s, s', i, Spin(Table, WaitScan(pid)));
  }

  lemma ExitFamily(s: State, c: nat, i: nat, x: Loc, s': State)
    requires Running1(s, c, i, x) && ExitCode(s, c, i, x, s') && !s'.m.panicked
    ensures Family(s')
  {
    hide Family, Coupled, LocksOk;
    match x
    case ExitHeld =>
      OwnPcs(s.m, c, i, Table, User, At(ExitWake));
      Orphaned(s, s', c, i);
    case ExitWake =>
      OwnPcs(s.m, c, i, Table, User, At(ExitMark));
      ParentWoken(s, s', c, i);
    case ExitMark =>
      OwnPcs(s.m, c, i, Table, User, Out(Dead));
      BecomesZombie(s, s', c, i);
    case Dead =>
  }

  lemma DiskFamily(s: State, c: nat, i: nat, x: Loc, s': State)
    requires Running1(s, c, i, x) && DiskCode(s, c, i, x, s') && !s'.m.panicked
    ensures Family(s')
  {
    hide Family, Coupled, LocksOk, Acquire, Release;
    match x
    case DiskStart(b) =>
      var h: nat :| Submit(s, c, h, b, s');
      OwnPcs(s.m, c, i, Disk, User, At(DiskCheck(h, b)));
      OwnFamily(s, s', i, At(DiskCheck(h, b)));
    case DiskCheck(h, b) =>
      if s.reqs[h].done {
        OwnPcs(s.m, c, i, Disk, User, At(x));
        OwnFamily(s, s', i, Clear(Disk, User));
      } else {
        OwnPcs(s.m, c, i, Table, DiskBed(h, b), At(x));
        OwnFamily(s, s', i, Spin(Table, DiskBed(h, b)));
      }
    case DiskBed(h, b) =>
      OwnPcs(s.m, c, i, Disk, DiskSleep(h, b), At(x));
      OwnFamily(s, s', i, Clear(Disk, DiskSleep(h, b)));
    case DiskSleep(h, b) =>
      OwnPcs(s.m, c, i, Disk, DiskSleep(h, b), Out(DiskWoken(h, b)));
      LeaveFamily(s, s', i, Out(DiskWoken(h, b)));
    case DiskWoken(h, b) =>
      OwnPcs(s.m, c, i, Table, DiskAgain(h, b), At(x));
      OwnFamily(s, s', i, Clear(Table, DiskAgain(h, b)));
    case DiskAgain(h, b) =>
      OwnPcs(s.m, c, i, Disk, DiskCheck(h, b), At(x));
      OwnFamily(s, s', i, Spin(Disk, DiskCheck(h, b)));
  }

  /** yield, or sleep on a buffer. */
  lemma LeaveFamily(s: State, s': State, i: nat, q: Pc)
    requires Coupled(s) && Family(s) && i < |s.procs| == |s.m.pcs| && s.procs[i].state == RUNNING
    requires s'.m.pcs == s.m.pcs[i := q]
    requires s'.procs == SetState(s.procs, i, RUNNABLE) || exists b: nat :: s'.procs == Asleep(s.procs, i, OnBuf(b))
    requires q.Out? && (q.back.YieldBack? || q.back.DiskWoken?)
    ensures Family(s')
  {
    hide Coupled, Family;
    assert Neutral(s, s', i);
    OwnNeutral(s, s', i);
  }

  lemma ProcFamily(s: State, c: nat, i: nat, x: Loc, s': State)
    requires Running1(s, c, i, x) && ProcCode(s, c, i, x, s') && !s'.m.panicked
    ensures Family(s')
  {
    hide Family, Coupled, LocksOk, UserCode, Acquire, Release;
    if x.User? && UserCode(s, c, i, s') {
      UserFamily(s, c, i, s');
    } else if ForkCode(s, c, i, x, s') {
      hide ForkCode;
      ForkFamily(s, c, i, x, s');
    } else if WaitCode(s, c, i, x, s') {
      hide WaitCode;
      WaitFamily(s, c, i, x, s');
    } else if ExitCode(s, c, i, x, s') {
      hide ExitCode;
      ExitFamily(s, c, i, x, s');
    } else if DiskCode(s, c, i, x, s') {
      hide DiskCode;
      DiskFamily(s, c, i, x, s');
    } else if x.YieldHeld? {
      OwnPcs(s.m, c, i, Table, User, Out(YieldBack));
      LeaveFamily(s, s', i, Out(YieldBack));
    } else {
      OwnPcs(s.m, c, i, Table, User, At(x));
      OwnFamily(s, s', i, Clear(Table, User));
    }
  }

  /** The scheduler and the interrupt handler dispatch and wake, nothing else. */
  lemma OtherFamily(s: State, c: nat, x: Loc, s': State)
    requires Coupled(s) && Family(s) && c < |s.m.cpus| && CurOk(s.m, c) && Exec(s.m, c) == At(x)
    requires (s.m.cpus[c].handler.Some? && IrqCode(s, c, x, s')) ||
      (s.m.cpus[c].handler.None? && s.m.cpus[c].cur.Sched? && SchedCode(s, c, x, s'))
    ensures Family(s')
  {
    assert s'.m.pcs == s.m.pcs;
    hide Family, Coupled;
    assert |s'.procs| == |s.procs|;
    forall j | 0 <= j < |s.procs| ensures Moving(s.procs[j], s'.procs[j]) {
    }
    hide SchedCode, IrqCode;
    TableNeutral(s, s');
    NeutralFamily(s, s');
  }

  lemma FamilyStep(s: State, c: nat, s': State)
    requires LocksOk(s.m) && Coupled(s) && Family(s) && CpuStep(s, c, s')
    ensures Family(s')
  {
    CpuStepKept(s, c, s');
    if MachineStep(s, c, s') {
      MachineFamily(s, c, s');
    } else {
      OwnCode(s, c);
      AllProcsOk(s);
      var u, x := s.m.cpus[c], Exec(s.m, c).loc;
      hide Family, Coupled, UserCode, ForkCode, WaitCode, ExitCode, DiskCode, IrqCode, SchedCode;
      if u.handler.Some? || u.cur.Sched? {
        OtherFamily(s, c, x, s');
      } else {
        ProcFamily(s, c, u.cur.p, x, s');
      }
    }
  }
}
