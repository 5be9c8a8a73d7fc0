/** Processes, the scheduler, sleep and wakeup, wait and exit, and disk requests
  as one step system: any CPU may take the next step, and so may the device. */
module Scheduler {
  import opened Spinlock
  import opened Options

  datatype Chan = OnProc(p: nat) | OnBuf(b: nat)

  datatype ProcState = UNUSED | CREATED | RUNNING | RUNNABLE | SLEEPING | ZOMBIE

  datatype Proc = Proc(state: ProcState, chan: Option<Chan>, parent: Option<nat>, pid: nat)

  /** What the queue knows of a descriptor that may head a chain: in use, not yet
      completed by the device, info[].buf and info[].done. */
  datatype Req = Req(inflight: bool, atDevice: bool, buf: Option<nat>, done: bool)

  datatype State = State(m: Machine, procs: seq<Proc>, nextpid: nat, reqs: seq<Req>, used: seq<nat>)

  function Woken(p: Proc, ch: Option<Chan>): Proc {
    if p.state == SLEEPING && p.chan == ch then p.(state := RUNNABLE) else p
  }

  /** wakeup_acquired */
  function WakeAll(procs: seq<Proc>, ch: Option<Chan>): (r: seq<Proc>)
    ensures |r| == |procs|
    ensures forall i {:trigger r[i]} :: 0 <= i < |procs| ==> r[i] == Woken(procs[i], ch)
  {
    seq(|procs|, i requires 0 <= i < |procs| => Woken(procs[i], ch))
  }

  function Adopted(p: Proc, pp: nat): Proc {
    if p.parent == Some(pp) then p.(parent := Some(0)) else p
  }

  /** reparent: the children of pp become children of init, slot 0. */
  function Reparent(procs: seq<Proc>, pp: nat): (r: seq<Proc>)
    ensures |r| == |procs|
    ensures forall i {:trigger r[i]} :: 0 <= i < |procs| ==> r[i] == Adopted(procs[i], pp)
  {
    seq(|procs|, i requires 0 <= i < |procs| => Adopted(procs[i], pp))
  }

  function SetState(procs: seq<Proc>, i: nat, st: ProcState): seq<Proc>
    requires i < |procs|
  {
    procs[i := procs[i].(state := st)]
  }

  /** The state and channel that sleep() writes. */
  function Asleep(procs: seq<Proc>, i: nat, ch: Chan): seq<Proc>
    requires i < |procs|
  {
    procs[i := procs[i].(state := SLEEPING, chan := Some(ch))]
  }

  const FREED := Proc(UNUSED, None, None, 0)

  /** The zombie that wait, or waitpid(pid), is looking for. */
  predicate Reapable(p: Proc, i: nat, pid: Option<nat>) {
    p.state == ZOMBIE && if pid.None? then p.parent == Some(i) else p.pid == pid.value
  }

  // ---- Code of the scheduler

  ghost predicate SchedCode(s: State, c: nat, x: Loc, s': State)
    requires c < |s.m.cpus| && CurOk(s.m, c)
  {
    match x
    case Idle =>
      // enable_irq, then acquire
      || s' == s.(m := WithCpu(s.m, c, s.m.cpus[c].(irq := true)))
      || (s.m.cpus[c].irq && s' == s.(m := Acquire(s.m, c, Table, Scan(0))))
    case Scan(k) =>
      if k >= |s.procs| then s' == s.(m := Release(s.m, c, Table, Idle))
      else if s.procs[k].state != RUNNABLE then s' == s.(m := Goto(s.m, c, At(Scan(k + 1))))
      else Dispatch(s, c, k, s')
    case Go(k) => SwitchIn(s.m, c, k, s'.m) && s' == s.(m := s'.m)
    case Back(k) =>
      s' == s.(m := WithPc(s.m, c, s.m.cpus[c].(proc := None), At(Scan(k + 1))))
    case _ => false
  }

  ghost predicate Dispatch(s: State, c: nat, k: nat, s': State)
    requires c < |s.m.cpus| && CurOk(s.m, c)
  {
    && k < |s.procs| && s.procs[k].state == RUNNABLE
    && s' == s.(procs := SetState(s.procs, k, RUNNING),
                m := WithPc(s.m, c, s.m.cpus[c].(proc := Some(k)), At(Go(k))))
  }

  // ---- Code of process i

  /** In user mode, or in the kernel with no lock: any system call may start, the
      timer may preempt, interrupts may be masked or not. */
  ghost predicate UserCode(s: State, c: nat, i: nat, s': State)
    requires c < |s.m.cpus| && CurOk(s.m, c)
  {
    || (exists on: bool :: s' == s.(m := Masked(s.m, c, on)))
    || (exists l: Lock, to: Loc :: Entry(i, l, to) && s' == s.(m := Acquire(s.m, c, l, to)))
  }

  /** The first acquire of each call; exitproc panics for init before it. */
  predicate Entry(i: nat, l: Lock, to: Loc) {
    match to
    case YieldHeld => l.Table?
    case ForkScan => l.Table?
    case WaitScan(_) => l.Table?
    case ExitHeld => l.Table? && i != 0
    case DiskStart(_) => l.Disk?
    case _ => false
  }

  function Masked(m: Machine, c: nat, on: bool): Machine
    requires c < |m.cpus|
  {
    WithCpu(m, c, m.cpus[c].(irq := on))
  }

  ghost predicate ForkCode(s: State, c: nat, i: nat, x: Loc, s': State)
    requires c < |s.m.cpus| && CurOk(s.m, c)
  {
    match x
    case ForkScan =>
      || (exists j: nat :: TakeSlot(s, c, j, s'))
      || ((forall j :: 0 <= j < |s.procs| ==> s.procs[j].state != UNUSED) &&
        s' == s.(m := Release(s.m, c, Table, User)))
    case ForkFill(j) =>
      // a new pid, a kernel stack, and a context that starts at forkret
      j < |s.procs| && j < |s.m.pcs| &&
      s' == s.(procs := s.procs[j := s.procs[j].(pid := s.nextpid)], nextpid := s.nextpid + 1,
               m := Acquire(s.m, c, Table, ForkStart(j)).(
                 pcs := Acquire(s.m, c, Table, ForkStart(j)).pcs[j := At(ForkRet)]))
    case ForkStart(j) =>
      j < |s.procs| &&
      s' == s.(procs := s.procs[j := s.procs[j].(state := RUNNABLE, parent := Some(i))],
        m := Release(s.m, c, Table, User))
    case _ => false
  }

  ghost predicate TakeSlot(s: State, c: nat, j: nat, s': State)
    requires c < |s.m.cpus| && CurOk(s.m, c)
  {
    && j < |s.procs| && s.procs[j].state == UNUSED
    && s' == s.(procs := SetState(s.procs, j, CREATED), m := Release(s.m, c, Table, ForkFill(j)))
  }

  ghost predicate WaitCode(s: State, c: nat, i: nat, x: Loc, s': State)
    requires c < |s.m.cpus| && CurOk(s.m, c) && i < |s.procs|
  {
    match x
    case WaitScan(pid) =>
      || (exists j: nat :: Reap(s, c, i, j, pid, s'))
      || ((forall j :: 0 <= j < |s.procs| ==> !Reapable(s.procs[j], i, pid)) &&
          s' == s.(procs := Asleep(s.procs, i, OnProc(i)), m := Goto(s.m, c, Out(WaitWoken(pid)))))
    case WaitWoken(pid) =>
      s' == s.(procs := s.procs[i := s.procs[i].(chan := None)], m := Release(s.m, c, Table, WaitAgain(pid)))
    case WaitAgain(pid) => s' == s.(m := Acquire(s.m, c, Table, WaitScan(pid)))
    case _ => false
  }

  /** freeproc of the zombie found, which panics without the table lock. */
  ghost predicate Reap(s: State, c: nat, i: nat, j: nat, pid: Option<nat>, s': State)
    requires c < |s.m.cpus| && CurOk(s.m, c)
  {
    && j < |s.procs| && Reapable(s.procs[j], i, pid)
    && s' == if Holding(s.m, c, Table)
         then s.(procs := s.procs[j := FREED], m := Release(s.m, c, Table, User))
         else s.(m := s.m.(panicked := true))
  }

  ghost predicate ExitCode(s: State, c: nat, i: nat, x: Loc, s': State)
    requires c < |s.m.cpus| && CurOk(s.m, c) && i < |s.procs|
  {
    match x
    case ExitHeld => s' == s.(procs := Reparent(s.procs, i), m := Goto(s.m, c, At(ExitWake)))
    case ExitWake =>
      s' == s.(procs := WakeAll(s.procs, ParentChan(s.procs[i])), m := Goto(s.m, c, At(ExitMark)))
    case ExitMark => s' == s.(procs := SetState(s.procs, i, ZOMBIE), m := Goto(s.m, c, Out(Dead)))
    case Dead => s' == s.(m := s.m.(panicked := true))
    case _ => false
  }

  function ParentChan(p: Proc): Option<Chan> {
    if p.parent.Some? then Some(OnProc(p.parent.value)) else None
  }

  /** virtio_blk_op: submit, then sleep on the buffer until the request is done. */
  ghost predicate DiskCode(s: State, c: nat, i: nat, x: Loc, s': State)
    requires c < |s.m.cpus| && CurOk(s.m, c) && i < |s.procs|
  {
    match x
    case DiskStart(b) =>
      exists h: nat :: Submit(s, c, h, b, s')
    case DiskCheck(h, b) =>
      h < |s.reqs| &&
      if s.reqs[h].done
      then s' == s.(reqs := s.reqs[h := s.reqs[h].(done := false, inflight := false)], m := Release(s.m, c, Disk, User))
      else s' == s.(m := Acquire(s.m, c, Table, DiskBed(h, b)))
    case DiskBed(h, b) => s' == s.(m := Release(s.m, c, Disk, DiskSleep(h, b)))
    case DiskSleep(h, b) =>
      s' == s.(procs := Asleep(s.procs, i, OnBuf(b)), m := Goto(s.m, c, Out(DiskWoken(h, b))))
    case DiskWoken(h, b) =>
      s' == s.(procs := s.procs[i := s.procs[i].(chan := None)], m := Release(s.m, c, Table, DiskAgain(h, b)))
    case DiskAgain(h, b) => s' == s.(m := Acquire(s.m, c, Disk, DiskCheck(h, b)))
    case _ => false
  }

  ghost predicate Submit(s: State, c: nat, h: nat, b: nat, s': State)
    requires c < |s.m.cpus| && CurOk(s.m, c)
  {
    && h < |s.reqs| && !s.reqs[h].inflight
    && s' == s.(reqs := s.reqs[h := s.reqs[h].(inflight := true, atDevice := true, buf := Some(b))],
                m := Goto(s.m, c, At(DiskCheck(h, b))))
  }

  ghost predicate ProcCode(s: State, c: nat, i: nat, x: Loc, s': State)
    requires c < |s.m.cpus| && CurOk(s.m, c) && i < |s.procs|
  {
    || (x.User? && UserCode(s, c, i, s'))
    || (x.ForkRet? && s' == s.(m := Release(s.m, c, Table, User)))
    || (x.YieldHeld? && s' == s.(procs := SetState(s.procs, i, RUNNABLE), m := Goto(s.m, c, Out(YieldBack))))
    || (x.YieldBack? && s' == s.(m := Release(s.m, c, Table, User)))
    || ForkCode(s, c, i, x, s')
    || WaitCode(s, c, i, x, s')
    || ExitCode(s, c, i, x, s')
    || DiskCode(s, c, i, x, s')
  }

  // ---- virtio_blk_intr

  ghost predicate IrqCode(s: State, c: nat, x: Loc, s': State)
    requires c < |s.m.cpus| && CurOk(s.m, c)
  {
    match x
    case IrqStart => s' == s.(m := Acquire(s.m, c, Disk, IrqLoop))
    case IrqLoop =>
      if s.used == [] then s' == s.(m := Release(s.m, c, Disk, IrqEnd))
      else
        s.used[0] < |s.reqs| &&
        s' == s.(reqs := s.reqs[s.used[0] := s.reqs[s.used[0]].(done := true)],
          m := Acquire(s.m, c, Table, IrqWake(s.used[0])))
    case IrqWake(h) =>
      h < |s.reqs| && s' == s.(procs := WakeAll(s.procs, BufChan(s.reqs[h])), m := Release(s.m, c, Table, IrqNext(h)))
    case IrqNext(h) =>
      h < |s.reqs| && s.used != [] &&
      s' == s.(reqs := s.reqs[h := s.reqs[h].(buf := None)], used := s.used[1..], m := Goto(s.m, c, At(IrqLoop)))
    case _ => false
  }

  function BufChan(r: Req): Option<Chan> {
    if r.buf.Some? then Some(OnBuf(r.buf.value)) else None
  }

  // ---- Steps

  ghost predicate CodeStep(s: State, c: nat, s': State)
    requires c < |s.m.cpus| && CurOk(s.m, c)
  {
    var u := s.m.cpus[c];
    && Exec(s.m, c).At?
    && if u.handler.Some? then IrqCode(s, c, u.handler.value.loc, s')
       else if u.cur.Running? then u.cur.p < |s.procs| && ProcCode(s, c, u.cur.p, s.m.pcs[u.cur.p].loc, s')
       else SchedCode(s, c, u.sched.loc, s')
  }

  ghost predicate MachineStep(s: State, c: nat, s': State)
    requires c < |s.m.cpus| && CurOk(s.m, c)
  {
    && s' == s.(m := s'.m)
    && (LockStep(s.m, c, s'.m) || SwitchOut(s.m, c, s'.m) || IrqEnter(s.m, c, s'.m) || IrqReturn(s.m, c, s'.m))
  }

  ghost predicate CpuStep(s: State, c: nat, s': State) {
    c < |s.m.cpus| && CurOk(s.m, c) && (CodeStep(s, c, s') || MachineStep(s, c, s'))
  }

  /** The device completes any request it has. */
  ghost predicate DeviceStep(s: State, h: nat, s': State) {
    && h < |s.reqs| && s.reqs[h].atDevice
    && s' == s.(reqs := s.reqs[h := s.reqs[h].(atDevice := false)], used := s.used + [h])
  }

  ghost predicate Step(s: State, s': State) {
    (exists c: nat :: CpuStep(s, c, s')) || (exists h: nat :: DeviceStep(s, h, s'))
  }

  /** After boot: init, slot 0, is ready for its first run. */
  ghost predicate Init(s: State) {
    && 1 <= |s.procs| == |s.m.pcs| && s.nextpid == 1
    && s.procs[0] == FREED.(state := RUNNABLE) && s.m.pcs[0] == At(ForkRet)
    && (forall i :: 1 <= i < |s.procs| ==> s.procs[i] == FREED && s.m.pcs[i] == At(Dead))
    && (forall c :: 0 <= c < |s.m.cpus| ==> s.m.cpus[c] == Cpu(None, Sched, At(Idle), None, 0, false, false))
    && s.m.table == LockVar(false, -1) && s.m.disk == LockVar(false, -1) && !s.m.panicked
    && (forall h :: 0 <= h < |s.reqs| ==> s.reqs[h] == Req(false, false, None, false))
    && s.used == []
  }
}
