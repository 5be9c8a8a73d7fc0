/** Any number of spin locks (kernel/spinlock.c), taken by any number of CPUs in an order
  that some rule allows.  A CPU keeps its locks through a context switch, so what matters
  here is the CPU and not the thread. */
module RankedLocks {
  import opened Spinlock

  /** Inside acquire (spinning, or the byte set but not yet the owner), inside release (owner
      cleared, or the byte cleared too), or in other code. */
  datatype Pc = Code | Spinning(lk: nat) | Marking(lk: nat) | Clearing(lk: nat) | Popping

  datatype Core = Core(held: set<nat>, pc: Pc, depth: nat, irq: bool, saved: bool)

  datatype State = State(cores: seq<Core>, locks: seq<LockVar>, panicked: bool)

  datatype Act = Take(lk: nat) | TestAndSet | Own | Give(lk: nat) | Unset | Popcli | Mask(on: bool)

  /** The rule: which lock may be taken under which. */
  type Rule = (nat, nat) -> bool

  function With(s: State, c: nat, u: Core): State
    requires c < |s.cores|
  {
    s.(cores := s.cores[c := u])
  }

  function Lock(s: State, l: nat, v: LockVar): State
    requires l < |s.locks|
  {
    s.(locks := s.locks[l := v])
  }

  predicate Holding(s: State, c: nat, l: nat) {
    l < |s.locks| && s.locks[l].byte && s.locks[l].cpuid == c
  }

  function Pushed(u: Core): Core {
    if u.depth == 0 then u.(depth := 1, saved := u.irq, irq := false) else u.(depth := u.depth + 1)
  }

  function Popped(u: Core): Core
    requires u.depth > 0
  {
    if u.depth == 1 && u.saved then u.(depth := 0, irq := true) else u.(depth := u.depth - 1)
  }

  /** A step of CPU c; acquire, release and popcli panic as the code does. */
  predicate Step(s: State, c: nat, a: Act, s': State)
    requires c < |s.cores|
  {
    var u := s.cores[c];
    match a
    case Take(l) =>
      u.pc.Code? && s' == if Holding(s, c, l) then s.(panicked := true) else With(s, c, Pushed(u).(pc := Spinning(l)))
    case TestAndSet =>
      && u.pc.Spinning? && u.pc.lk < |s.locks| && !s.locks[u.pc.lk].byte
      && s' == Lock(With(s, c, u.(pc := Marking(u.pc.lk))), u.pc.lk, s.locks[u.pc.lk].(byte := true))
    case Own =>
      && u.pc.Marking? && u.pc.lk < |s.locks|
      && s' == Lock(With(s, c, u.(pc := Code, held := u.held + {u.pc.lk})), u.pc.lk, s.locks[u.pc.lk].(cpuid := c))
    case Give(l) =>
      && u.pc.Code?
      && s' == if !Holding(s, c, l) then s.(panicked := true)
               else Lock(With(s, c, u.(pc := Clearing(l), held := u.held - {l})), l, s.locks[l].(cpuid := -1))
    case Unset =>
      && u.pc.Clearing? && u.pc.lk < |s.locks|
      && s' == Lock(With(s, c, u.(pc := Popping)), u.pc.lk, s.locks[u.pc.lk].(byte := false))
    case Popcli =>
      u.pc.Popping? && s' == if u.depth == 0 then s.(panicked := true) else With(s, c, Popped(u).(pc := Code))
    case Mask(on) => u.pc.Code? && s' == With(s, c, u.(irq := on))
  }

  /** The code takes locks by the rule, gives back what it has, and leaves the interrupt mask
      alone while it has any. */
  predicate Follows(s: State, c: nat, a: Act, under: Rule)
    requires c < |s.cores|
  {
    var u := s.cores[c];
    match a
    case Take(l) => l < |s.locks| && l !in u.held && forall k :: k in u.held ==> under(k, l)
    case Give(l) => l in u.held
    case Mask(_) => u.held == {}
    case _ => true
  }

  // ---- What every run keeps

  /** The CPU keeps the byte of lock l set. */
  predicate Grips(u: Core, l: nat) {
    l in u.held || ((u.pc.Marking? || u.pc.Clearing?) && u.pc.lk == l)
  }

  function One(b: bool): nat {
    if b then 1 else 0
  }

  predicate CoreOk(s: State, c: nat, under: Rule)
    requires c < |s.cores|
  {
    var u := s.cores[c];
    && u.depth == |u.held| + One(!u.pc.Code?)
    && (u.depth > 0 ==> !u.irq)
    && (forall k :: k in u.held ==> k < |s.locks|)
    && (u.pc.Spinning? || u.pc.Marking? || u.pc.Clearing? ==> u.pc.lk < |s.locks| && u.pc.lk !in u.held)
    && (u.pc.Spinning? || u.pc.Marking? ==> forall k :: k in u.held ==> under(k, u.pc.lk))
  }

  /** The byte is set exactly while a CPU grips the lock, which is one at most, and
      holding() is true exactly of the CPU that has it. */
  ghost predicate LockOk(s: State, l: nat)
    requires l < |s.locks|
  {
    && (s.locks[l].byte <==> exists c: nat :: GripsAt(s, c, l))
    && (forall c: nat, d: nat :: GripsAt(s, c, l) && GripsAt(s, d, l) ==> c == d)
    && (forall c: nat :: c < |s.cores| ==> (s.locks[l].cpuid == c <==> l in s.cores[c].held))
  }

  predicate GripsAt(s: State, c: nat, l: nat) {
    c < |s.cores| && Grips(s.cores[c], l)
  }

  ghost predicate Ok(s: State, under: Rule) {
    && !s.panicked
    && (forall c: nat :: c < |s.cores| ==> CoreOk(s, c, under))
    && (forall l: nat :: l < |s.locks| ==> LockOk(s, l))
  }

  /** Only CPU c has moved; lock l, if any, is what it worked on. */
  lemma OneMoves(s: State, s': State, c: nat, u: Core, under: Rule)
    requires Ok(s, under) && c < |s.cores| && s'.cores == s.cores[c := u] && !s'.panicked
    requires |s'.locks| == |s.locks| && CoreOk(s', c, under)
    requires forall l: nat :: l < |s.locks| ==> Fair(s, s', c, l)
    ensures Ok(s', under)
  {
    forall d: nat | d < |s'.cores| ensures CoreOk(s', d, under) {
      assert CoreOk(s, d, under);
    }
    forall l: nat | l < |s'.locks| ensures LockOk(s', l) {
      FairKeeps(s, s', c, l);
    }
  }

  /** What a step of c may do to a lock. */
  predicate Fair(s: State, s': State, c: nat, l: nat)
    requires c < |s.cores| == |s'.cores| && l < |s.locks| == |s'.locks|
  {
    var v, v', u, u' := s.locks[l], s'.locks[l], s.cores[c], s'.cores[c];
    && (Grips(u', l) ==> v'.byte && (Grips(u, l) || !v.byte))
    && (!Grips(u', l) ==> v'.byte == (v.byte && !Grips(u, l)))
    && (l in u'.held ==> v'.cpuid == c && Grips(u, l))
    && (l !in u'.held ==> v'.cpuid == if l in u.held then -1 else v.cpuid)
  }

  lemma FairKeeps(s: State, s': State, c: nat, l: nat)
    requires c < |s.cores| == |s'.cores| && s'.cores == s.cores[c := s'.cores[c]] && l < |s.locks| == |s'.locks|
    requires LockOk(s, l) && Fair(s, s', c, l)
    ensures LockOk(s', l)
  {
    forall d: nat | d != c ensures GripsAt(s', d, l) == GripsAt(s, d, l) {
    }
    assert Grips(s.cores[c], l) ==> GripsAt(s, c, l);
    assert Grips(s'.cores[c], l) ==> GripsAt(s', c, l);
    if s'.locks[l].byte && !Grips(s'.cores[c], l) {
      var d: nat :| GripsAt(s, d, l);
      assert GripsAt(s', d, l);
    }
    forall d: nat | GripsAt(s', d, l) ensures s'.locks[l].byte && (Grips(s'.cores[c], l) ==> d == c) {
      assert d != c ==> GripsAt(s, d, l);
    }
    forall d: nat | d < |s'.cores| ensures (s'.locks[l].cpuid == d <==> l in s'.cores[d].held) {
      assert l in s.cores[d].held ==> GripsAt(s, d, l);
    }
  }

  /** Each step by the rule keeps ownership, depth and mask right, and none panics. */
  lemma StepOk(s: State, c: nat, a: Act, s': State, under: Rule)
    requires Ok(s, under) && c < |s.cores| && Step(s, c, a, s') && Follows(s, c, a, under)
    ensures Ok(s', under) && |s'.cores| == |s.cores|
  {
    assert CoreOk(s, c, under);
    var u := s.cores[c];
    if a.Take? {
      assert LockOk(s, a.lk);
    } else if a.Give? {
      assert LockOk(s, a.lk) && GripsAt(s, c, a.lk);
    } else if !u.pc.Code? && !u.pc.Popping? {
      assert LockOk(s, u.pc.lk);
      assert Grips(u, u.pc.lk) ==> GripsAt(s, c, u.pc.lk);
    }
    forall l: nat | l < |s.locks| ensures Fair(s, s', c, l) {
      assert LockOk(s, l);
      assert Grips(u, l) ==> GripsAt(s, c, l);
    }
    OneMoves(s, s', c, s'.cores[c], under);
  }

  // ---- Runs

  ghost predicate Init(s: State) {
    && !s.panicked
    && (forall c :: 0 <= c < |s.cores| ==> s.cores[c] == Core({}, Code, 0, false, false))
    && (forall l :: 0 <= l < |s.locks| ==> s.locks[l] == LockVar(false, -1))
  }

  ghost predicate Goes(s: State, s': State, under: Rule) {
    exists c: nat, a: Act :: c < |s.cores| && Step(s, c, a, s') && Follows(s, c, a, under)
  }

  ghost predicate Run(ss: seq<State>, under: Rule) {
    ss != [] && Init(ss[0]) && forall k :: 0 <= k < |ss| - 1 ==> Goes(ss[k], ss[k + 1], under)
  }

  /** In every run by a rule: one owner per lock, holding() exact, the depth the number of
      locks, interrupts masked while there are any, and no panic. */
  lemma {:induction false} Always(ss: seq<State>, under: Rule, k: nat)
    requires Run(ss, under) && k < |ss|
    ensures Ok(ss[k], under)
    decreases k
  {
    if k == 0 {
      forall l: nat | l < |ss[0].locks| ensures LockOk(ss[0], l) {
      }
    } else {
      Always(ss, under, k - 1);
      assert Goes(ss[k - 1], ss[k - 1 + 1], under);
      var c: nat, a: Act :|
        c < |ss[k - 1].cores| && Step(ss[k - 1], c, a, ss[k]) && Follows(ss[k - 1], c, a, under);
      StepOk(ss[k - 1], c, a, ss[k], under);
    }
  }

  // ---- Deadlock

  /** CPU c is in the loop that waits for lock l. */
  predicate WaitsFor(s: State, c: nat, l: nat) {
    c < |s.cores| && s.cores[c].pc == Spinning(l) && l < |s.locks| && s.locks[l].byte
  }

  predicate Waits(s: State, c: nat) {
    c < |s.cores| && s.cores[c].pc.Spinning? && WaitsFor(s, c, s.cores[c].pc.lk)
  }

  /** The rule goes up in a rank below top. */
  ghost predicate Ranked(under: Rule, rank: nat -> nat, n: nat, top: nat) {
    && (forall l: nat :: l < n ==> rank(l) < top)
    && (forall k: nat, l: nat :: k < n && l < n && under(k, l) ==> rank(k) < rank(l))
  }

  /** Whoever waits for a lock waits, in the end, for a CPU that waits for none and has that
      lock or one of higher rank. */
  lemma {:induction false} HolderGoesOn(s: State, under: Rule, rank: nat -> nat, top: nat, l: nat)
    returns (d: nat, k: nat)
    requires Ok(s, under) && Ranked(under, rank, |s.locks|, top) && l < |s.locks| && s.locks[l].byte
    ensures GripsAt(s, d, k) && !Waits(s, d) && k < |s.locks| && rank(k) >= rank(l)
    decreases top - rank(l)
  {
    assert LockOk(s, l);
    d :| GripsAt(s, d, l);
    k := l;
    assert CoreOk(s, d, under);
    if Waits(s, d) {
      var next := s.cores[d].pc.lk;
      assert l in s.cores[d].held && under(l, next);
      d, k := HolderGoesOn(s, under, rank, top, next);
    }
  }

  /** No deadlock: in every run by a rule that goes up in rank, while a CPU waits for a lock,
      one that has the lock, or one of higher rank, does not wait. */
  lemma NoDeadlock(ss: seq<State>, under: Rule, rank: nat -> nat, top: nat, n: nat, c: nat, l: nat)
    requires Run(ss, under) && n < |ss| && Ranked(under, rank, |ss[n].locks|, top) && WaitsFor(ss[n], c, l)
    ensures exists d: nat, k: nat ::
      GripsAt(ss[n], d, k) && !Waits(ss[n], d) && k < |ss[n].locks| && rank(k) >= rank(l)
  {
    Always(ss, under, n);
    var d, k := HolderGoesOn(ss[n], under, rank, top, l);
  }

  /** Two locks that may each be taken under the other deadlock two CPUs: by the rule they
      come to wait for each other, and nobody else is there. */
  lemma CrossDeadlocks(under: Rule, a: nat, b: nat) returns (ss: seq<State>)
    requires a != b && under(a, b) && under(b, a)
    ensures Run(ss, under)
    ensures var s := ss[|ss| - 1];
      |s.cores| == 2 && WaitsFor(s, 0, b) && WaitsFor(s, 1, a) && Stuck(s)
  {
    var idle, n := Core({}, Code, 0, false, false), if a < b then b + 1 else a + 1;
    var s0 := State([idle, idle], seq(n, _ => LockVar(false, -1)), false);
    ss := [s0];
    ss := Acquires(ss, under, 0, a);
    ss := Acquires(ss, under, 1, b);
    ss := StartsWaiting(ss, under, 0, b);
    ss := StartsWaiting(ss, under, 1, a);
  }

  ghost predicate Stuck(s: State) {
    forall c: nat, a: Act, s': State :: c < |s.cores| ==> !Step(s, c, a, s')
  }

  lemma Longer(ss: seq<State>, under: Rule, c: nat, x: Act, s': State)
    requires Run(ss, under) && c < |ss[|ss| - 1].cores|
    requires Step(ss[|ss| - 1], c, x, s') && Follows(ss[|ss| - 1], c, x, under)
    ensures Run(ss + [s'], under)
  {
    var us := ss + [s'];
    forall k | 0 <= k < |us| - 1 ensures Goes(us[k], us[k + 1], under) {
      if k < |ss| - 1 {
        assert Goes(ss[k], ss[k + 1], under);
      } else {
        assert us[k] == ss[|ss| - 1] && us[k + 1] == s';
      }
    }
  }

  lemma StartsWaiting(ss: seq<State>, under: Rule, c: nat, l: nat) returns (us: seq<State>)
    requires Run(ss, under)
    requires var s := ss[|ss| - 1];
      && c < |s.cores| && s.cores[c].pc.Code? && l < |s.locks| && !Holding(s, c, l)
      && l !in s.cores[c].held && forall k :: k in s.cores[c].held ==> under(k, l)
    ensures Run(us, under)
    ensures var s := ss[|ss| - 1];
      us[|us| - 1] == With(s, c, Pushed(s.cores[c]).(pc := Spinning(l)))
  {
    var s := ss[|ss| - 1];
    var t := With(s, c, Pushed(s.cores[c]).(pc := Spinning(l)));
    Longer(ss, under, c, Take(l), t);
    us := ss + [t];
  }

  lemma Acquires(ss: seq<State>, under: Rule, c: nat, l: nat) returns (us: seq<State>)
    requires Run(ss, under)
    requires var s := ss[|ss| - 1];
      && c < |s.cores| && s.cores[c].pc.Code? && l < |s.locks| && !s.locks[l].byte
      && l !in s.cores[c].held && forall k :: k in s.cores[c].held ==> under(k, l)
    ensures Run(us, under)
    ensures var s := ss[|ss| - 1];
      us[|us| - 1] == Lock(With(s, c, Pushed(s.cores[c]).(held := s.cores[c].held + {l})), l, LockVar(true, c))
  {
    us := StartsWaiting(ss, under, c, l);
    var s, t := ss[|ss| - 1], us[|us| - 1];
    var u := Lock(With(t, c, t.cores[c].(pc := Marking(l))), l, t.locks[l].(byte := true));
    Longer(us, under, c, TestAndSet, u);
    us := us + [u];
    var v := Lock(With(u, c, u.cores[c].(pc := Code, held := u.cores[c].held + {l})), l, u.locks[l].(cpuid := c));
    Longer(us, under, c, Own, v);
    us := us + [v];
    assert v == Lock(With(s, c, Pushed(s.cores[c]).(held := s.cores[c].held + {l})), l, LockVar(true, c));
  }

  // ---- The locks of the kernel

  const CONSOLE := 0
  const DISK := 1
  const TABLE := 2
  const PIDS := 3
  const INODES := 4
  const FILES := 5
  const CACHE := 6
  const PAGES := 7
  const INFO := 8
  const PRINTK := 9

  /** What is taken under what: sleep, wakeup and the exit of a killed sleeper under the
      console's and the disk's lock, the walk of a user address under the console's, freeproc
      and copyout under the table's, and messages under all of them. */
  predicate KernelRule(k: nat, l: nat) {
    || ((k == CONSOLE || k == DISK) && (l == TABLE || l == FILES || l == PAGES))
    || (k == TABLE && l == PAGES)
    || (k < INFO && (l == INFO || l == PRINTK))
    || (k == INFO && l == PRINTK)
  }

  /** No deadlock over all ten locks of the kernel. */
  lemma KernelNoDeadlock(ss: seq<State>, n: nat, c: nat, l: nat)
    requires Run(ss, KernelRule) && n < |ss| && |ss[n].locks| == 10 && WaitsFor(ss[n], c, l)
    ensures exists d: nat, k: nat :: GripsAt(ss[n], d, k) && !Waits(ss[n], d) && k < 10 && k >= l
  {
    NoDeadlock(ss, KernelRule, k => k, 10, n, c, l);
  }
}
