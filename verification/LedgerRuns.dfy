/** What the life of one process does to the frames, in any run: fork, the sbrks of the
  child, its exit and the wait that reaps it, with whatever other processes do between. */
module LedgerRuns {
  import opened PhysMem
  import opened PageTable
  import opened AddressSpace
  import opened FreeUserspaces
  import opened ProcMemory

  /** The step of a process with this root table or kernel stack. */
  datatype Act = Forks(kstack: nat, pgt: nat) | Grows(pgt: nat) | Exits(pgt: nat) | Reaps(kstack: nat)

  /** The frames that are not the address space's are as they were, and it takes free ones. */
  ghost predicate GrowLedger(r0: Roles, r1: Roles, pgt: nat) {
    && r1.Keys == r0.Keys
    && forall f :: f in r0 ==> r1[f] == r0[f] || (r0[f] == Free && r1[f].Node? && r1[f].root == pgt)
  }

  /** What each step leaves in the ledger. */
  ghost predicate Acts(r: Roles, a: Act, r': Roles) {
    match a
    case Forks(k, p) => k != p && ForkLedger(r, r', p, k) && IsRoot(r', p)
    case Grows(p) => IsRoot(r, p) && GrowLedger(r, r', p)
    case Exits(p) => SpaceFreed(r, r', p)
    case Reaps(k) => k in r && r[k] == Pinned && r' == r[k := Free]
  }

  /** What the calls of ProcTable promise makes each of them such a step. */
  lemma CallsAct(procs: Procs, r: Roles, r': Roles, w: Words, w': Words, pid: nat)
    requires Owned(procs, r)
    ensures forall k, p :: ForkLedger(r, r', p, k) && IsRoot(r', p) ==> Acts(r, Forks(k, p), r')
    ensures pid in procs && procs[pid].Live? && Grew(w, r, w', r', procs[pid].pgt, {}) ==>
      Acts(r, Grows(procs[pid].pgt), r')
    ensures pid in procs ==> Acts(r, Reaps(procs[pid].kstack), r[procs[pid].kstack := Free])
  {
  }

  /** How far the child has come. */
  datatype Life = Unborn | Alive(kstack: nat, pgt: nat) | Ended(kstack: nat) | Gone

  /** The child's own next step. */
  predicate Own(l: Life, a: Act, l': Life) {
    match l
    case Unborn => a.Forks? && l' == Alive(a.kstack, a.pgt)
    case Alive(k, p) => (a == Grows(p) && l' == l) || (a == Exits(p) && l' == Ended(k))
    case Ended(k) => a == Reaps(k) && l' == Gone
    case Gone => false
  }

  /** A step that is not the child's: of an address space and a stack it does not have. */
  predicate Foreign(l: Life, a: Act) {
    match a
    case Forks(_, _) => true
    case Grows(p) => !(l.Alive? && l.pgt == p)
    case Exits(p) => !(l.Alive? && l.pgt == p)
    case Reaps(k) => !((l.Alive? || l.Ended?) && l.kstack == k)
  }

  predicate Has(r: Roles, l: Life, f: nat)
    requires f in r
  {
    match l
    case Alive(k, p) => f == k || (r[f].Node? && r[f].root == p)
    case Ended(k) => f == k
    case _ => false
  }

  /** The ledger with the child's frames given back. */
  function Without(r: Roles, l: Life): (s: Roles)
    ensures s.Keys == r.Keys
  {
    map f | f in r :: if Has(r, l, f) then Free else r[f]
  }

  /** Every frame of an address space belongs to a root, and the child has its stack and,
      alive, its root. */
  ghost predicate Rooted(r: Roles, l: Life) {
    && (forall f :: f in r && r[f].Node? ==> IsRoot(r, r[f].root))
    && ((l.Alive? || l.Ended?) ==> l.kstack in r && r[l.kstack] == Pinned)
    && (l.Alive? ==> IsRoot(r, l.pgt))
  }

  lemma LinkedRooted(w: Words, r: Roles)
    requires Linked(w, r)
    ensures Rooted(r, Unborn)
  {
    forall f | f in r && r[f].Node? ensures IsRoot(r, r[f].root) {
      assert OwnerOk(w, r, f);
    }
  }

  /** A step of the child changes nothing but its own frames. */
  lemma OwnStep(r: Roles, l: Life, a: Act, r': Roles, l': Life)
    requires Rooted(r, l) && Acts(r, a, r') && Own(l, a, l')
    ensures Rooted(r', l') && Without(r', l') == Without(r, l)
  {
    forall f | f in r' && r'[f].Node? ensures IsRoot(r', r'[f].root) {
      assert r[f] == r'[f] ==> IsRoot(r, r[f].root);
    }
    assert Without(r', l').Keys == Without(r, l).Keys;
    forall f | f in r ensures Without(r', l')[f] == Without(r, l)[f] {
    }
  }

  /** A step of another process is the same step with the child's frames free. */
  lemma ForeignStep(r: Roles, l: Life, a: Act, r': Roles)
    requires Rooted(r, l) && Acts(r, a, r') && Foreign(l, a)
    ensures Rooted(r', l) && Acts(Without(r, l), a, Without(r', l))
  {
    forall f | f in r' && r'[f].Node? ensures IsRoot(r', r'[f].root) {
      assert r[f] == r'[f] ==> IsRoot(r, r[f].root);
    }
  }

  // ---- Runs

  /** Who steps: the child or somebody else. */
  datatype Move = Mine(act: Act) | Theirs(act: Act)

  ghost predicate Moves(r: Roles, l: Life, m: Move, r': Roles, l': Life) {
    && Acts(r, m.act, r')
    && if m.Mine? then Own(l, m.act, l') else Foreign(l, m.act) && l' == l
  }

  ghost predicate Run(r: Roles, l: Life, ms: seq<Move>, r': Roles, l': Life)
    decreases |ms|
  {
    if ms == [] then r == r' && l == l'
    else exists q: Roles, k: Life :: Moves(r, l, ms[0], q, k) && Run(q, k, ms[1..], r', l')
  }

  /** A run of steps of nobody in particular. */
  ghost predicate Reaches(r: Roles, acts: seq<Act>, r': Roles)
    decreases |acts|
  {
    if acts == [] then r == r'
    else exists q: Roles :: Acts(r, acts[0], q) && Reaches(q, acts[1..], r')
  }

  function OfOthers(ms: seq<Move>): seq<Act> {
    if ms == [] then []
    else if ms[0].Mine? then OfOthers(ms[1..])
    else [ms[0].act] + OfOthers(ms[1..])
  }

  /** With the child's steps left out, and its frames free, the run is still a run. */
  lemma {:induction false} Erased(r: Roles, l: Life, ms: seq<Move>, r': Roles, l': Life)
    requires Rooted(r, l) && Run(r, l, ms, r', l')
    ensures Rooted(r', l') && Reaches(Without(r, l), OfOthers(ms), Without(r', l'))
    decreases |ms|
  {
    if ms != [] {
      var q: Roles, k: Life :| Moves(r, l, ms[0], q, k) && Run(q, k, ms[1..], r', l');
      if ms[0].Mine? {
        OwnStep(r, l, ms[0].act, q, k);
        Erased(q, k, ms[1..], r', l');
      } else {
        ForeignStep(r, l, ms[0].act, q);
        Erased(q, k, ms[1..], r', l');
        assert OfOthers(ms)[1..] == OfOthers(ms[1..]);
      }
    }
  }

  /** A child that was forked, lived and was reaped has left the frames as the others alone
      would have left them. */
  lemma LifeConserves(w: Words, r: Roles, ms: seq<Move>, r': Roles)
    requires Linked(w, r) && Run(r, Unborn, ms, r', Gone)
    ensures Reaches(r, OfOthers(ms), r')
    ensures (forall m :: m in ms ==> m.Mine?) ==> r' == r
  {
    LinkedRooted(w, r);
    Erased(r, Unborn, ms, r', Gone);
    assert Without(r, Unborn) == r && Without(r', Gone) == r';
    if forall m :: m in ms ==> m.Mine? {
      AllMine(ms);
    }
  }

  lemma {:induction false} AllMine(ms: seq<Move>)
    requires forall m :: m in ms ==> m.Mine?
    ensures OfOthers(ms) == []
  {
    if ms != [] {
      AllMine(ms[1..]);
    }
  }
}
