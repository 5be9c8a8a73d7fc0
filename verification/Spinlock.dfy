/** Spin locks, interrupt nesting and context switches: the part of the machine
  that kernel/spinlock.c and cswitch work on.  Every CPU runs its scheduler, the
  process it switched to, or an interrupt handler on top of either; `pcs` holds
  the kernel context of each process, which moves from CPU to CPU. */
module Spinlock {
  import opened Options

  datatype Lock = Table | Disk

  /** struct spinlock; -1 is nobody. */
  datatype LockVar = LockVar(byte: bool, cpuid: int)

  /** Places in the code.  Each fixes which locks its thread holds there. */
  datatype Loc =
    // schedule
    | Idle | Scan(k: nat) | Go(k: nat) | Back(k: nat)
    // a process: user mode, first run, yield
    | User | ForkRet | YieldHeld | YieldBack
    // fork and newproc
    | ForkScan | ForkFill(child: nat) | ForkStart(child: nat)
    // wait (no pid) and waitpid
    | WaitScan(pid: Option<nat>) | WaitWoken(pid: Option<nat>) | WaitAgain(pid: Option<nat>)
    // exitproc
    | ExitHeld | ExitWake | ExitMark | Dead
    // virtio_blk_op, with the sleep inside it
    | DiskStart(buf: nat) | DiskCheck(head: nat, buf: nat) | DiskBed(head: nat, buf: nat)
    | DiskSleep(head: nat, buf: nat) | DiskWoken(head: nat, buf: nat) | DiskAgain(head: nat, buf: nat)
    // virtio_blk_intr
    | IrqStart | IrqLoop | IrqWake(head: nat) | IrqNext(head: nat) | IrqEnd

  predicate HasTable(x: Loc) {
    x.Scan? || x.Go? || x.Back? || x.ForkRet? || x.YieldHeld? || x.YieldBack? || x.ForkScan? || x.ForkStart? ||
    x.WaitScan? || x.WaitWoken? || x.ExitHeld? || x.ExitWake? || x.ExitMark? || x.Dead? ||
    x.DiskBed? || x.DiskSleep? || x.DiskWoken? || x.IrqWake?
  }

  predicate HasDisk(x: Loc) {
    x.DiskStart? || x.DiskCheck? || x.DiskBed? || x.IrqLoop? || x.IrqWake? || x.IrqNext?
  }

  predicate Has(x: Loc, l: Lock) {
    if l.Table? then HasTable(x) else HasDisk(x)
  }

  /** A thread's position: at a place, inside acquire (spinning, or the byte is
      set but not yet the owner), inside release (owner cleared, or the byte
      cleared too), or about to switch to the scheduler. */
  datatype Pc =
    | At(loc: Loc)
    | Spin(lk: Lock, to: Loc)
    | Mark(lk: Lock, to: Loc)
    | Clear(lk: Lock, to: Loc)
    | Pop(lk: Lock, to: Loc)
    | Out(back: Loc)

  function Target(p: Pc): Loc {
    match p
    case At(x) => x
    case Out(x) => x
    case Spin(_, x) => x
    case Mark(_, x) => x
    case Clear(_, x) => x
    case Pop(_, x) => x
  }

  /** The thread is the owner that holding() looks for. */
  predicate Owns(p: Pc, l: Lock) {
    Has(Target(p), l) && ((p.Spin? || p.Mark?) ==> p.lk != l)
  }

  /** The thread keeps the lock byte set. */
  predicate Grip(p: Pc, l: Lock) {
    Owns(p, l) || ((p.Mark? || p.Clear?) && p.lk == l)
  }

  function One(b: bool): nat {
    if b then 1 else 0
  }

  /** Locks held, being acquired or being released. */
  function Cli(p: Pc): nat {
    One(Has(Target(p), Table)) + One(Has(Target(p), Disk)) + One(p.Clear? || p.Pop?)
  }

  /** acquire leads to a place that holds the lock, release to one that does not;
      the disk lock is never taken with the process-table lock held; a thread
      switches out with the process-table lock alone. */
  predicate PcOk(p: Pc) {
    match p
    case At(_) => true
    case Out(x) => HasTable(x) && !HasDisk(x)
    case Spin(l, x) => Has(x, l) && (l.Disk? ==> !HasTable(x))
    case Mark(l, x) => Has(x, l) && (l.Disk? ==> !HasTable(x))
    case Clear(l, x) => !Has(x, l)
    case Pop(l, x) => !Has(x, l)
  }

  datatype Thread = Sched | Running(p: nat)

  /** struct cpu, with the interrupt mask and the thread it executes. */
  datatype Cpu = Cpu(proc: Option<nat>, cur: Thread, sched: Pc, handler: Option<Pc>, depth: nat, irq: bool, saved: bool)

  datatype Machine = Machine(cpus: seq<Cpu>, pcs: seq<Pc>, table: LockVar, disk: LockVar, panicked: bool)

  predicate Shape(m: Machine) {
    forall c :: 0 <= c < |m.cpus| ==> CurOk(m, c)
  }

  predicate CurOk(m: Machine, c: nat)
    requires c < |m.cpus|
  {
    m.cpus[c].cur.Running? ==> m.cpus[c].cur.p < |m.pcs|
  }

  /** The thread below any interrupt handler. */
  function Base(m: Machine, c: nat): Pc
    requires c < |m.cpus| && CurOk(m, c)
  {
    if m.cpus[c].cur.Running? then m.pcs[m.cpus[c].cur.p] else m.cpus[c].sched
  }

  /** The code CPU c executes next. */
  function Exec(m: Machine, c: nat): Pc
    requires c < |m.cpus| && CurOk(m, c)
  {
    if m.cpus[c].handler.Some? then m.cpus[c].handler.value else Base(m, c)
  }

  function Goto(m: Machine, c: nat, q: Pc): Machine
    requires c < |m.cpus| && CurOk(m, c)
  {
    var u := m.cpus[c];
    if u.handler.Some? then m.(cpus := m.cpus[c := u.(handler := Some(q))])
    else if u.cur.Running? then m.(pcs := m.pcs[u.cur.p := q])
    else m.(cpus := m.cpus[c := u.(sched := q)])
  }

  function LockOf(m: Machine, l: Lock): LockVar {
    if l.Table? then m.table else m.disk
  }

  function SetLock(m: Machine, l: Lock, v: LockVar): Machine {
    if l.Table? then m.(table := v) else m.(disk := v)
  }

  predicate Holding(m: Machine, c: nat, l: Lock) {
    LockOf(m, l).byte && LockOf(m, l).cpuid == c
  }

  /** pushcli */
  function Pushcli(u: Cpu): (r: Cpu)
    ensures r.cur == u.cur && r.handler == u.handler && r.sched == u.sched && r.proc == u.proc
  {
    if u.depth == 0 then u.(depth := 1, saved := u.irq, irq := false) else u.(depth := u.depth + 1)
  }

  /** popcli, which panics at depth 0 */
  function Popcli(u: Cpu): (r: Cpu)
    requires u.depth > 0
    ensures r.cur == u.cur && r.handler == u.handler && r.sched == u.sched && r.proc == u.proc
  {
    if u.depth == 1 && u.saved then u.(depth := 0, irq := true) else u.(depth := u.depth - 1)
  }

  /** n calls of pushcli, and as many of popcli. */
  function Masks(u: Cpu, n: nat): (r: Cpu)
    ensures r.depth == u.depth + n
  {
    if n == 0 then u else Pushcli(Masks(u, n - 1))
  }

  function Unmasks(u: Cpu, n: nat): (r: Cpu)
    requires n <= u.depth
    ensures r.depth == u.depth - n
    decreases n
  {
    if n == 0 then u else Unmasks(Popcli(u), n - 1)
  }

  /** Interrupts are off from the first pushcli to the last popcli, which leaves them as
      they were before. */
  lemma {:induction false} MaskRestored(u: Cpu, n: nat, k: nat)
    requires k <= n && (u.depth > 0 ==> !u.irq)
    ensures var v := Unmasks(Masks(u, n), k);
      && (k < n ==> !v.irq)
      && (k == n ==> v.irq == u.irq && v.depth == u.depth && (u.depth > 0 ==> v == u))
    decreases n
  {
    if n > 0 {
      MaskRestored(u, n - 1, if k == 0 then 0 else k - 1);
      var v := Masks(u, n - 1);
      if n == 1 && k == 1 {
        assert Unmasks(Masks(u, 1), 1) == Popcli(Pushcli(u));
      } else if k > 0 {
        assert Popcli(Pushcli(v)) == v;
      }
    }
  }

  function WithCpu(m: Machine, c: nat, u: Cpu): Machine
    requires c < |m.cpus|
  {
    m.(cpus := m.cpus[c := u])
  }

  /** acquire, up to the loop that waits for the byte. */
  function Acquire(m: Machine, c: nat, l: Lock, to: Loc): Machine
    requires c < |m.cpus| && CurOk(m, c)
  {
    if Holding(m, c, l) then m.(panicked := true)
    else WithPc(m, c, Pushcli(m.cpus[c]), Spin(l, to))
  }

  function WithPc(m: Machine, c: nat, u: Cpu, q: Pc): Machine
    requires c < |m.cpus| && CurOk(m, c) && u.cur == m.cpus[c].cur
  {
    Goto(WithCpu(m, c, u), c, q)
  }

  /** release, up to clearing the owner. */
  function Release(m: Machine, c: nat, l: Lock, to: Loc): Machine
    requires c < |m.cpus| && CurOk(m, c)
  {
    if !Holding(m, c, l) then m.(panicked := true)
    else Goto(SetLock(m, l, LockOf(m, l).(cpuid := -1)), c, Clear(l, to))
  }

  /** One step inside acquire or release. */
  ghost predicate LockStep(m: Machine, c: nat, m': Machine)
    requires c < |m.cpus| && CurOk(m, c)
  {
    match Exec(m, c)
    case Spin(l, to) =>
      // the atomic test-and-set
      !LockOf(m, l).byte && m' == Goto(SetLock(m, l, LockOf(m, l).(byte := true)), c, Mark(l, to))
    case Mark(l, to) => m' == Goto(SetLock(m, l, LockOf(m, l).(cpuid := c)), c, At(to))
    case Clear(l, to) => m' == Goto(SetLock(m, l, LockOf(m, l).(byte := false)), c, Pop(l, to))
    case Pop(l, to) =>
      if m.cpus[c].depth == 0 then m' == m.(panicked := true)
      else m' == WithPc(m, c, Popcli(m.cpus[c]), At(to))
    case _ => false
  }

  /** cswitch from process i to the scheduler of its CPU. */
  ghost predicate SwitchOut(m: Machine, c: nat, m': Machine)
    requires c < |m.cpus| && CurOk(m, c)
  {
    && m.cpus[c].handler.None? && m.cpus[c].cur.Running?
    && Exec(m, c).Out?
    && m' == WithCpu(Goto(m, c, At(Exec(m, c).back)), c, m.cpus[c].(cur := Sched))
  }

  /** cswitch from the scheduler to process k. */
  ghost predicate SwitchIn(m: Machine, c: nat, k: nat, m': Machine)
    requires c < |m.cpus|
  {
    && m.cpus[c].handler.None? && m.cpus[c].cur.Sched? && k < |m.pcs|
    && m' == WithCpu(m, c, m.cpus[c].(cur := Running(k), sched := At(Back(k))))
  }

  /** An interrupt is taken, and later returned from. */
  ghost predicate IrqEnter(m: Machine, c: nat, m': Machine)
    requires c < |m.cpus|
  {
    && m.cpus[c].irq && m.cpus[c].handler.None?
    && m' == WithCpu(m, c, m.cpus[c].(handler := Some(At(IrqStart)), irq := false))
  }

  ghost predicate IrqReturn(m: Machine, c: nat, m': Machine)
    requires c < |m.cpus|
  {
    && m.cpus[c].handler == Some(At(IrqEnd))
    && m' == WithCpu(m, c, m.cpus[c].(handler := None, irq := true))
  }

  // ---- What every run keeps

  predicate CpuGrips(m: Machine, c: nat, l: Lock)
    requires c < |m.cpus| && CurOk(m, c)
  {
    Grip(Base(m, c), l) || (m.cpus[c].handler.Some? && Grip(m.cpus[c].handler.value, l))
  }

  predicate CpuOwns(m: Machine, c: nat, l: Lock)
    requires c < |m.cpus| && CurOk(m, c)
  {
    Owns(Base(m, c), l) || (m.cpus[c].handler.Some? && Owns(m.cpus[c].handler.value, l))
  }

  /** The byte is set exactly while a CPU keeps it set, which is one at most, and the
      recorded owner is the CPU whose thread holds the lock. */
  ghost predicate Exclusive(m: Machine, l: Lock)
    requires Shape(m)
  {
    && (forall c: nat :: c < |m.cpus| && CpuGrips(m, c, l) ==> LockOf(m, l).byte)
    && (forall c: nat, d: nat :: c < |m.cpus| && d < |m.cpus| && CpuGrips(m, c, l) && CpuGrips(m, d, l) ==> c == d)
    && (forall c: nat :: c < |m.cpus| ==> (LockOf(m, l).cpuid == c <==> CpuOwns(m, c, l)))
    && (LockOf(m, l).byte ==> Gripped(m, l))
  }

  ghost predicate Gripped(m: Machine, l: Lock)
    requires Shape(m)
  {
    exists c: nat :: c < |m.cpus| && CpuGrips(m, c, l)
  }

  /** cli_depth counts the CPU's locks, interrupts are off while it is positive,
      and a handler sits on a thread without locks. */
  predicate Nested(m: Machine, c: nat)
    requires c < |m.cpus| && CurOk(m, c)
  {
    var u := m.cpus[c];
    && PcOk(Base(m, c))
    && u.depth == Cli(Base(m, c)) + (if u.handler.Some? then Cli(u.handler.value) else 0)
    && (u.depth > 0 ==> !u.irq)
    && (u.handler.Some? ==> !u.irq && Cli(Base(m, c)) == 0 && PcOk(u.handler.value) && (u.depth > 0 ==> !u.saved))
  }

  /** No process context is executed by two CPUs. */
  ghost predicate Apart(m: Machine) {
    forall c: nat, d: nat :: c < |m.cpus| && d < |m.cpus| && c != d && m.cpus[c].cur.Running? ==>
      m.cpus[c].cur != m.cpus[d].cur
  }

  ghost predicate LocksOk(m: Machine) {
    && Shape(m) && Apart(m) && !m.panicked
    && Exclusive(m, Table) && Exclusive(m, Disk)
    && (forall c: nat :: c < |m.cpus| ==> Nested(m, c))
  }

  /** A step of c leaves the other CPUs where they are. */
  ghost predicate Others(m: Machine, m': Machine, c: nat) {
    && Shape(m) && Shape(m') && c < |m.cpus| == |m'.cpus|
    && (forall d: nat :: d < |m.cpus| && d != c ==> Same(m, m', d))
  }

  predicate Same(m: Machine, m': Machine, d: nat)
    requires d < |m.cpus| == |m'.cpus| && CurOk(m, d) && CurOk(m', d)
  {
    m'.cpus[d] == m.cpus[d] && Base(m', d) == Base(m, d)
  }

  /** What a step of c may do to a lock: it takes the byte only when clear, it
      writes the owner only to itself, or to nobody while it grips the lock. */
  predicate FairStep(m: Machine, m': Machine, c: nat, l: Lock)
    requires c < |m.cpus| == |m'.cpus| && CurOk(m, c) && CurOk(m', c)
  {
    var v, v' := LockOf(m, l), LockOf(m', l);
    && (CpuGrips(m', c, l) ==> v'.byte && (CpuGrips(m, c, l) || !v.byte))
    && (!CpuGrips(m', c, l) ==> v'.byte == (v.byte && !CpuGrips(m, c, l)))
    && (CpuOwns(m', c, l) ==> v'.cpuid == c && CpuGrips(m, c, l))
    && (!CpuOwns(m', c, l) ==> v'.cpuid == if CpuOwns(m, c, l) then -1 else v.cpuid)
  }

  lemma OwnsGrips(m: Machine, c: nat, l: Lock)
    requires c < |m.cpus| && CurOk(m, c) && CpuOwns(m, c, l)
    ensures CpuGrips(m, c, l)
  {
  }

  lemma FairKeepsExclusive(m: Machine, m': Machine, c: nat, l: Lock)
    requires Others(m, m', c) && Exclusive(m, l) && FairStep(m, m', c, l)
    ensures Exclusive(m', l)
  {
    forall d: nat | d < |m.cpus| && d != c
      ensures CpuGrips(m', d, l) == CpuGrips(m, d, l) && CpuOwns(m', d, l) == CpuOwns(m, d, l)
    {
      assert Same(m, m', d);
    }
    forall d: nat | d < |m.cpus| && CpuOwns(m, d, l) ensures CpuGrips(m, d, l) {
      OwnsGrips(m, d, l);
    }
    hide CpuGrips, CpuOwns, Same;
  }

  lemma NestedStep(m: Machine, m': Machine, c: nat)
    requires Others(m, m', c) && Nested(m', c) && (forall d: nat :: d < |m.cpus| ==> Nested(m, d))
    ensures forall d: nat :: d < |m'.cpus| ==> Nested(m', d)
  {
    forall d: nat | d < |m'.cpus| ensures Nested(m', d) {
      if d != c {
        assert Same(m, m', d) && Nested(m, d);
      }
    }
  }

  /** Writing only what CPU c executes: nobody else is affected. */
  lemma GotoOthers(m: Machine, c: nat, q: Pc)
    requires Shape(m) && Apart(m) && c < |m.cpus|
    ensures Others(m, Goto(m, c, q), c) && Apart(Goto(m, c, q))
    ensures Exec(Goto(m, c, q), c) == q
    ensures var m' := Goto(m, c, q);
      m'.cpus[c] == if m.cpus[c].handler.Some? then m.cpus[c].(handler := Some(q))
        else if m.cpus[c].cur.Running? then m.cpus[c] else m.cpus[c].(sched := q)
    ensures m.cpus[c].handler.Some? ==> Base(Goto(m, c, q), c) == Base(m, c)
  {
    var m' := Goto(m, c, q);
    forall d: nat | d < |m.cpus| ensures CurOk(m', d) && m'.cpus[d].cur == m.cpus[d].cur {
      assert CurOk(m, d);
    }
    forall d: nat | d < |m.cpus| && d != c ensures Same(m, m', d) {
      assert CurOk(m, d);
    }
  }

  lemma StepOk(m: Machine, m': Machine, c: nat)
    requires LocksOk(m) && Others(m, m', c) && Apart(m') && !m'.panicked
    requires FairStep(m, m', c, Table) && FairStep(m, m', c, Disk) && Nested(m', c)
    ensures LocksOk(m')
  {
    hide FairStep, Nested;
    FairKeepsExclusive(m, m', c, Table);
    FairKeepsExclusive(m, m', c, Disk);
    NestedStep(m, m', c);
  }

  /** A CPU step that moves the executing thread to q, and may change the CPU's
      interrupt state and the locks. */
  ghost predicate Moved(m: Machine, m': Machine, c: nat, u: Cpu, q: Pc)
    requires c < |m.cpus| && CurOk(m, c)
  {
    && u.cur == m.cpus[c].cur && u.handler == m.cpus[c].handler && u.sched == m.cpus[c].sched
    && m'.cpus == Goto(WithCpu(m, c, u), c, q).cpus && m'.pcs == Goto(WithCpu(m, c, u), c, q).pcs
  }

  lemma MovedOthers(m: Machine, m': Machine, c: nat, u: Cpu, q: Pc)
    requires Shape(m) && Apart(m) && c < |m.cpus| && Moved(m, m', c, u, q)
    ensures Others(m, m', c) && Apart(m') && Exec(m', c) == q
    ensures m'.cpus[c].depth == u.depth && m'.cpus[c].irq == u.irq && m'.cpus[c].saved == u.saved
    ensures m'.cpus[c].handler == if u.handler.Some? then Some(q) else None
    ensures u.handler.Some? ==> Base(m', c) == Base(m, c)
  {
    var w := WithCpu(m, c, u);
    forall d: nat | d < |m.cpus| ensures CurOk(w, d) && w.cpus[d].cur == m.cpus[d].cur {
      assert CurOk(m, d);
    }
    GotoOthers(w, c, q);
    forall d: nat | d < |m.cpus| && d != c ensures CurOk(m', d) && Same(m, m', d) {
      assert CurOk(m, d) && CurOk(w, d) && Same(w, Goto(w, c, q), d);
    }
  }

  /** The bookkeeping a moved thread must respect, in terms of its own position. */
  predicate FairMove(v: LockVar, v': LockVar, c: nat, p: Pc, q: Pc, l: Lock) {
    && (Grip(q, l) ==> v'.byte && (Grip(p, l) || !v.byte))
    && (!Grip(q, l) ==> v'.byte == (v.byte && !Grip(p, l)))
    && (Owns(q, l) ==> v'.cpuid == c && Grip(p, l))
    && (!Owns(q, l) ==> v'.cpuid == if Owns(p, l) then -1 else v.cpuid)
  }

  lemma MovedFair(m: Machine, m': Machine, c: nat, u: Cpu, q: Pc, l: Lock)
    requires LocksOk(m) && c < |m.cpus| && Moved(m, m', c, u, q)
    requires FairMove(LockOf(m, l), LockOf(m', l), c, Exec(m, c), q, l)
    ensures Shape(m') && FairStep(m, m', c, l)
  {
    MovedOthers(m, m', c, u, q);
    assert Nested(m, c);
    if u.handler.Some? {
      FreeThread(Base(m, c), l);
    }
  }

  /** A thread below a handler has no locks. */
  lemma FreeThread(p: Pc, l: Lock)
    requires Cli(p) == 0 && PcOk(p)
    ensures !Grip(p, l) && !Owns(p, l)
  {
  }

  lemma MovedOk(m: Machine, m': Machine, c: nat, u: Cpu, q: Pc)
    requires LocksOk(m) && c < |m.cpus| && Moved(m, m', c, u, q) && !m'.panicked && PcOk(q)
    requires FairMove(m.table, m'.table, c, Exec(m, c), q, Table) && FairMove(m.disk, m'.disk, c, Exec(m, c), q, Disk)
    requires u.depth + Cli(Exec(m, c)) == m.cpus[c].depth + Cli(q)
    requires u.depth > 0 || u.handler.Some? ==> !u.irq
    requires u.depth > 0 && u.handler.Some? ==> !u.saved
    ensures LocksOk(m') && Others(m, m', c) && Exec(m', c) == q
  {
    MovedOthers(m, m', c, u, q);
    MovedFair(m, m', c, u, q, Table);
    MovedFair(m, m', c, u, q, Disk);
    assert Nested(m, c);
    hide FairStep, Exclusive, Moved, FairMove, Others, Apart;
    assert Nested(m', c);
    hide Nested;
    StepOk(m, m', c);
  }

  // ---- Acquire and release

  /** From x, taking l leads to a place that holds what x held and l. */
  predicate Adds(x: Loc, l: Lock, y: Loc) {
    !Has(x, l) && Has(y, l) && forall k :: k != l ==> Has(x, k) == Has(y, k)
  }

  lemma HoldingExact(m: Machine, c: nat, l: Lock)
    requires LocksOk(m) && c < |m.cpus|
    ensures Holding(m, c, l) <==> CpuOwns(m, c, l)
    ensures m.cpus[c].handler.Some? ==> (CpuOwns(m, c, l) <==> Owns(Exec(m, c), l))
    ensures CpuOwns(m, c, l) <==> Owns(Exec(m, c), l)
  {
    assert Nested(m, c);
    if CpuOwns(m, c, l) {
      OwnsGrips(m, c, l);
    }
    if m.cpus[c].handler.Some? {
      FreeThread(Base(m, c), l);
    }
  }

  lemma AcquireOk(m: Machine, c: nat, l: Lock, x: Loc, to: Loc)
    requires LocksOk(m) && c < |m.cpus| && Exec(m, c) == At(x) && Adds(x, l, to) && (l.Disk? ==> !HasTable(x))
    ensures LocksOk(Acquire(m, c, l, to)) && Others(m, Acquire(m, c, l, to), c)
    ensures Exec(Acquire(m, c, l, to), c) == Spin(l, to)
    ensures Moved(m, Acquire(m, c, l, to), c, Pushcli(m.cpus[c]), Spin(l, to))
  {
    HoldingExact(m, c, l);
    var m', u := Acquire(m, c, l, to), Pushcli(m.cpus[c]);
    KeptFair(m, c, Table);
    KeptFair(m, c, Disk);
    assert forall k :: k != l ==> Has(x, k) == Has(to, k);
    assert if l.Table? then Has(x, Disk) == Has(to, Disk) else Has(x, Table) == Has(to, Table);
    assert Nested(m, c);
    hide Exclusive, Apart, Nested, Others;
    assert Moved(m, m', c, u, Spin(l, to));
    MovedOk(m, m', c, u, Spin(l, to));
  }

  lemma ReleaseOk(m: Machine, c: nat, l: Lock, x: Loc, to: Loc)
    requires LocksOk(m) && c < |m.cpus| && Exec(m, c) == At(x) && Adds(to, l, x)
    ensures LocksOk(Release(m, c, l, to)) && Others(m, Release(m, c, l, to), c)
    ensures Exec(Release(m, c, l, to), c) == Clear(l, to)
    ensures Moved(m, Release(m, c, l, to), c, m.cpus[c], Clear(l, to)) && Holding(m, c, l)
  {
    HoldingExact(m, c, l);
    var m' := Release(m, c, l, to);
    KeptFair(m, c, Table);
    KeptFair(m, c, Disk);
    assert forall k :: k != l ==> Has(x, k) == Has(to, k);
    assert if l.Table? then Has(x, Disk) == Has(to, Disk) else Has(x, Table) == Has(to, Table);
    assert Nested(m, c);
    assert m.cpus == m.cpus[c := m.cpus[c]];
    assert CpuGrips(m, c, l) by {
      OwnsGrips(m, c, l);
    }
    hide Exclusive, Apart, Nested, Others;
    assert Moved(m, m', c, m.cpus[c], Clear(l, to));
    MovedOk(m, m', c, m.cpus[c], Clear(l, to));
  }

  lemma GotoOk(m: Machine, c: nat, q: Pc)
    requires LocksOk(m) && c < |m.cpus| && Exec(m, c).At? && (q.At? || q.Out?) && PcOk(q)
    requires forall l :: Has(Target(q), l) == Has(Exec(m, c).loc, l)
    ensures LocksOk(Goto(m, c, q)) && Others(m, Goto(m, c, q), c) && Exec(Goto(m, c, q), c) == q
    ensures Moved(m, Goto(m, c, q), c, m.cpus[c], q)
  {
    var m' := Goto(m, c, q);
    assert Nested(m, c);
    assert m.cpus == m.cpus[c := m.cpus[c]];
    KeptFair(m, c, Table);
    KeptFair(m, c, Disk);
    assert Has(Target(q), Table) == Has(Exec(m, c).loc, Table) && Has(Target(q), Disk) == Has(Exec(m, c).loc, Disk);
    hide Exclusive, Apart, Nested, Others;
    assert Moved(m, m', c, m.cpus[c], q);
    MovedOk(m, m', c, m.cpus[c], q);
  }

  lemma KeptFair(m: Machine, c: nat, l: Lock)
    requires LocksOk(m) && c < |m.cpus|
    ensures Owns(Exec(m, c), l) ==> LockOf(m, l).byte && LockOf(m, l).cpuid == c
    ensures Grip(Exec(m, c), l) ==> LockOf(m, l).byte
  {
    HoldingExact(m, c, l);
    if Grip(Exec(m, c), l) {
      assert CpuGrips(m, c, l);
    }
  }

  /** Inside acquire and release the thread neither takes a lock that is taken nor
      loses one it keeps. */
  lemma InsideFair(m: Machine, c: nat, m': Machine, l: Lock)
    requires LocksOk(m) && c < |m.cpus| && LockStep(m, c, m')
    ensures FairMove(LockOf(m, l), LockOf(m', l), c, Exec(m, c), Inside(Exec(m, c)), l)
  {
    KeptFair(m, c, l);
    HoldingExact(m, c, l);
    assert Nested(m, c);
    hide Exclusive, Apart, Shape;
  }

  function Inside(p: Pc): Pc {
    match p
    case Spin(l, x) => Mark(l, x)
    case Clear(l, x) => Pop(l, x)
    case _ => At(Target(p))
  }

  lemma LockStepOk(m: Machine, c: nat, m': Machine)
    requires LocksOk(m) && c < |m.cpus| && LockStep(m, c, m')
    ensures LocksOk(m') && Others(m, m', c) && Exec(m', c) == Inside(Exec(m, c))
    ensures Moved(m, m', c, if Exec(m, c).Pop? then Popcli(m.cpus[c]) else m.cpus[c], Inside(Exec(m, c)))
  {
    InsideFair(m, c, m', Table);
    InsideFair(m, c, m', Disk);
    assert Nested(m, c);
    var p := Exec(m, c);
    var u := if p.Pop? then Popcli(m.cpus[c]) else m.cpus[c];
    assert m.cpus == m.cpus[c := m.cpus[c]];
    hide Exclusive, Apart, Nested, Others, FairMove, Has;
    assert Moved(m, m', c, u, Inside(p));
    MovedOk(m, m', c, u, Inside(p));
  }

  // ---- Context switches and interrupts

  /** A thread with no lock but the process-table lock. */
  predicate TableOnly(x: Loc) {
    HasTable(x) && !HasDisk(x)
  }

  lemma SwitchOutOk(m: Machine, c: nat, m': Machine)
    requires LocksOk(m) && c < |m.cpus| && SwitchOut(m, c, m')
    requires m.cpus[c].sched.At? && TableOnly(m.cpus[c].sched.loc)
    ensures LocksOk(m') && Others(m, m', c) && Exec(m', c) == m.cpus[c].sched
    ensures m.cpus[c].depth == 1 && Holding(m, c, Table)
  {
    var q := At(Exec(m, c).back);
    HoldingExact(m, c, Table);
    HoldingExact(m, c, Disk);
    KeptFair(m, c, Table);
    assert Nested(m, c);
    GotoOthers(m, c, q);
    SwitchedOthers(m, Goto(m, c, q), c, m.cpus[c].(cur := Sched));
    hide Exclusive, Apart;
    StepOk(m, m', c);
  }

  /** Changing which thread c executes, to the scheduler or to one nobody executes. */
  lemma SwitchedOthers(m: Machine, w: Machine, c: nat, u: Cpu)
    requires Shape(m) && Apart(m) && Others(m, w, c) && Apart(w)
    requires u.cur.Running? ==> u.cur.p < |w.pcs| && forall d: nat :: d < |w.cpus| && d != c ==> w.cpus[d].cur != u.cur
    ensures Others(m, WithCpu(w, c, u), c) && Apart(WithCpu(w, c, u))
  {
    var m' := WithCpu(w, c, u);
    forall d: nat | d < |m.cpus| ensures CurOk(m', d) {
      assert CurOk(w, d);
    }
    forall d: nat | d < |m.cpus| && d != c ensures Same(m, m', d) {
      assert Same(m, w, d);
    }
  }

  lemma SwitchInOk(m: Machine, c: nat, k: nat, m': Machine)
    requires LocksOk(m) && c < |m.cpus| && SwitchIn(m, c, k, m') && Exec(m, c) == At(Go(k))
    requires m.pcs[k].At? && TableOnly(m.pcs[k].loc)
    requires forall d: nat :: d < |m.cpus| ==> m.cpus[d].cur != Running(k)
    ensures LocksOk(m') && Others(m, m', c) && Exec(m', c) == m.pcs[k]
    ensures m.cpus[c].depth == 1 && Holding(m, c, Table)
  {
    HoldingExact(m, c, Table);
    HoldingExact(m, c, Disk);
    KeptFair(m, c, Table);
    assert Nested(m, c);
    assert Others(m, m, c);
    SwitchedOthers(m, m, c, m.cpus[c].(cur := Running(k), sched := At(Back(k))));
    hide Exclusive, Apart;
    StepOk(m, m', c);
  }

  lemma IrqEnterOk(m: Machine, c: nat, m': Machine)
    requires LocksOk(m) && c < |m.cpus| && IrqEnter(m, c, m')
    ensures LocksOk(m') && Others(m, m', c) && Exec(m', c) == At(IrqStart)
  {
    assert Nested(m, c) && CurOk(m, c);
    assert Others(m, m, c);
    SwitchedOthers(m, m, c, m'.cpus[c]);
    IrqFair(m, c, m', Table);
    IrqFair(m, c, m', Disk);
    hide Exclusive, Apart;
    StepOk(m, m', c);
  }

  lemma IrqFair(m: Machine, c: nat, m': Machine, l: Lock)
    requires LocksOk(m) && c < |m.cpus| && (IrqEnter(m, c, m') || IrqReturn(m, c, m'))
    ensures CurOk(m', c) && FairStep(m, m', c, l)
  {
    HoldingExact(m, c, l);
    KeptFair(m, c, l);
    assert CurOk(m, c);
    if CpuGrips(m, c, l) {
      assert LockOf(m, l).byte;
    }
  }

  lemma IrqReturnOk(m: Machine, c: nat, m': Machine)
    requires LocksOk(m) && c < |m.cpus| && IrqReturn(m, c, m')
    ensures LocksOk(m') && Others(m, m', c) && Exec(m', c) == Base(m, c)
  {
    assert Nested(m, c) && CurOk(m, c);
    assert Others(m, m, c);
    SwitchedOthers(m, m, c, m'.cpus[c]);
    IrqFair(m, c, m', Table);
    IrqFair(m, c, m', Disk);
    hide Exclusive, Apart;
    StepOk(m, m', c);
  }

  /** Interrupts may be masked or unmasked by a thread that has no lock. */
  lemma MaskOk(m: Machine, c: nat, on: bool)
    requires LocksOk(m) && c < |m.cpus| && m.cpus[c].handler.None? && Exec(m, c).At?
    requires !HasTable(Exec(m, c).loc) && !HasDisk(Exec(m, c).loc)
    ensures var m' := WithCpu(m, c, m.cpus[c].(irq := on));
      LocksOk(m') && Others(m, m', c) && Moved(m, m', c, m.cpus[c].(irq := on), Exec(m, c))
  {
    var m' := WithCpu(m, c, m.cpus[c].(irq := on));
    assert Nested(m, c);
    KeptFair(m, c, Table);
    KeptFair(m, c, Disk);
    HoldingExact(m, c, Table);
    HoldingExact(m, c, Disk);
    if m.cpus[c].cur.Running? {
      assert m.pcs == m.pcs[m.cpus[c].cur.p := Exec(m, c)];
    }
    hide Exclusive, Apart, Nested, Others;
    assert Moved(m, m', c, m.cpus[c].(irq := on), Exec(m, c));
    MovedOk(m, m', c, m.cpus[c].(irq := on), Exec(m, c));
  }

  /** The same move, with another current process recorded. */
  lemma ProcOnly(m: Machine, c: nat, proc: Option<nat>, q: Pc)
    requires LocksOk(m) && c < |m.cpus| && LocksOk(Goto(m, c, q)) && Others(m, Goto(m, c, q), c)
    ensures var m' := WithPc(m, c, m.cpus[c].(proc := proc), q);
      LocksOk(m') && Others(m, m', c) && Moved(m, m', c, m.cpus[c].(proc := proc), q)
  {
    var w, m' := Goto(m, c, q), WithPc(m, c, m.cpus[c].(proc := proc), q);
    forall d: nat | d < |m.cpus|
      ensures CurOk(m', d) && Base(m', d) == Base(w, d)
      ensures m'.cpus[d] == if d == c then w.cpus[d].(proc := proc) else w.cpus[d]
    {
      assert CurOk(m, d) && CurOk(w, d);
    }
    assert Others(m, m', c) by {
      forall d: nat | d < |m.cpus| && d != c ensures Same(m, m', d) {
        assert Same(m, w, d);
      }
    }
    assert Others(w, m', c);
    GripsAlike(w, m', Table);
    GripsAlike(w, m', Disk);
    forall d: nat | d < |m'.cpus| ensures Nested(m', d) {
      assert Nested(w, d);
    }
  }

  lemma GripsAlike(w: Machine, m: Machine, l: Lock)
    requires Shape(w) && Shape(m) && |w.cpus| == |m.cpus| && LockOf(w, l) == LockOf(m, l) && Exclusive(w, l)
    requires forall d: nat :: d < |m.cpus| ==> Base(m, d) == Base(w, d) && m.cpus[d].handler == w.cpus[d].handler
    ensures Exclusive(m, l)
  {
    forall d: nat | d < |m.cpus|
      ensures CpuGrips(m, d, l) == CpuGrips(w, d, l) && CpuOwns(m, d, l) == CpuOwns(w, d, l) {
    }
    hide CpuGrips, CpuOwns;
  }
}
