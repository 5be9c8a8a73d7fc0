/** The block queue refines the requests of the step system: what a descriptor
  table, two rings and info[] hold is, seen from the submitters and the handler, one
  request state per descriptor and the used ring. */
module DiskRefinement {
  import opened Options
  import opened Spinlock
  import opened Virtq
  import Scheduler

  type Req = Scheduler.Req

  /** The request that descriptor h heads, if any. */
  function ReqOf(v: View, h: nat): Req
    requires h < |v.info|
  {
    Scheduler.Req(h in v.chains, h in v.queue || h in v.device, v.info[h].buf, v.info[h].done)
  }

  function Reqs(v: View): (r: seq<Req>)
    ensures |r| == |v.info|
    ensures forall h {:trigger r[h]} :: 0 <= h < |v.info| ==> r[h] == ReqOf(v, h)
  {
    seq(|v.info|, h requires 0 <= h < |v.info| => ReqOf(v, h))
  }

  /** Submission is the Submit step. */
  lemma SubmitRefines(v: View, w: View, write: bool, sector: nat, buf: nat)
    requires QueueOk(v) && ListOk(w) && |v.free| >= 3
    requires w == v.(freeHead := w.freeHead, nfree := w.nfree, free := v.free[3..], desc := w.desc)
    requires w.desc == RequestDescs(v.desc, v.free[0], v.free[1], v.free[2], write, sector, buf)
    ensures v.n > 0 && |v.avail| == v.n && v.free[0] < |v.info| == v.n
    ensures var h, r := v.free[0], Reqs(v);
      var v' := EnqueuedView(w, h, buf, v.free[..3]);
      && !r[h].inflight && v'.back == v.back
      && Reqs(v') == r[h := r[h].(inflight := true, atDevice := true, buf := Some(buf))]
  {
    SubmitView(v, w, write, sector, buf);
    Requested(v.n, v.desc, v.free, v.chains, write, sector, buf);
    hide FreeList, Chains, Partition, Holds, RequestDescs, Slot, Index;
  }

  /** The device reading a request is invisible. */
  lemma FetchRefines(v: View)
    requires QueueOk(v) && v.queue != []
    ensures Reqs(FetchedView(v)) == Reqs(v) && FetchedView(v).back == v.back
  {
    assert forall h: nat :: h in v.queue <==> h == v.queue[0] || h in v.queue[1..];
    hide QueueOk, Index;
  }

  /** Completion is the device step. */
  lemma CompleteRefines(v: View, h: nat)
    requires QueueOk(v) && h in v.device
    ensures v.n > 0 && |v.used| == v.n == |v.info| && h < v.n
    ensures var r, v' := Reqs(v), CompletedView(v, h);
      && r[h].atDevice && v'.back == v.back + [h]
      && Reqs(v') == r[h := r[h].(atDevice := false)]
  {
    BackShort(v.n, v.desc, v.chains, v.queue, v.device, v.back, v.info, h);
    hide FreeList, Chains, Partition, Holds, Slot, Index;
  }

  /** A round of the handler is marking done, dropping the buffer and the ring entry. */
  lemma HandleRefines(v: View)
    requires QueueOk(v) && v.back != []
    ensures v.back[0] < |v.info|
    ensures var h, r, v' := v.back[0], Reqs(v), HandledView(v);
      && v'.back == v.back[1..]
      && Reqs(v') == r[h := r[h].(done := true)][h := r[h].(done := true, buf := None)]
  {
    HandleView(v);
    hide QueueOk, Index;
  }

  /** The submitter's return is the collecting step. */
  lemma FinishRefines(v: View, h: nat, w: View)
    requires QueueOk(v) && h in v.chains && Done(v.info, h)
    requires w == v.(freeHead := w.freeHead, nfree := w.nfree, desc := w.desc, free := w.free,
                     chains := v.chains - {h}, info := v.info[h := v.info[h].(done := false)])
    ensures h < |v.info|
    ensures var r := Reqs(v);
      && r[h].done && w.back == v.back
      && Reqs(w) == r[h := r[h].(done := false, inflight := false)]
  {
    hide QueueOk;
  }

  // ---- Runs

  /** The requests and the used ring: what the submitters, the device and the handler see
      of each other. */
  datatype Requests = Requests(reqs: seq<Req>, used: seq<nat>)

  ghost predicate SubmitsReq(a: Requests, h: nat, b: nat, c: Requests) {
    && h < |a.reqs| && !a.reqs[h].inflight
    && c == a.(reqs := a.reqs[h := a.reqs[h].(inflight := true, atDevice := true, buf := Some(b))])
  }

  ghost predicate CompletesReq(a: Requests, h: nat, c: Requests) {
    && h < |a.reqs| && a.reqs[h].atDevice
    && c == Requests(a.reqs[h := a.reqs[h].(atDevice := false)], a.used + [h])
  }

  ghost predicate MarksReq(a: Requests, c: Requests) {
    && a.used != [] && a.used[0] < |a.reqs|
    && c == a.(reqs := a.reqs[a.used[0] := a.reqs[a.used[0]].(done := true)])
  }

  ghost predicate DropsReq(a: Requests, h: nat, c: Requests) {
    && h < |a.reqs| && a.used != []
    && c == Requests(a.reqs[h := a.reqs[h].(buf := None)], a.used[1..])
  }

  ghost predicate CollectsReq(a: Requests, h: nat, c: Requests) {
    && h < |a.reqs| && a.reqs[h].done
    && c == a.(reqs := a.reqs[h := a.reqs[h].(done := false, inflight := false)])
  }

  /** A step on requests. */
  ghost predicate ReqStep(a: Requests, c: Requests) {
    || (exists h: nat, b: nat :: SubmitsReq(a, h, b, c))
    || (exists h: nat :: CompletesReq(a, h, c) || DropsReq(a, h, c) || CollectsReq(a, h, c))
    || MarksReq(a, c)
  }

  ghost predicate Reaches(a: Requests, n: nat, c: Requests) {
    if n == 0 then a == c else exists b :: Reaches(a, n - 1, b) && ReqStep(b, c)
  }

  /** How the step system shows its requests. */
  function OfState(s: Scheduler.State): Requests {
    Requests(s.reqs, s.used)
  }

  /** Each step of the step system is one on requests, or leaves them alone. */
  lemma StepProjects(s: Scheduler.State, s': Scheduler.State)
    requires Scheduler.Step(s, s')
    ensures OfState(s') == OfState(s) || ReqStep(OfState(s), OfState(s'))
  {
    if h: nat :| Scheduler.DeviceStep(s, h, s') {
      assert CompletesReq(OfState(s), h, OfState(s'));
    } else {
      var c: nat :| Scheduler.CpuStep(s, c, s');
      CpuProjects(s, c, s');
    }
  }

  lemma CpuProjects(s: Scheduler.State, c: nat, s': Scheduler.State)
    requires Scheduler.CpuStep(s, c, s')
    ensures OfState(s') == OfState(s) || ReqStep(OfState(s), OfState(s'))
  {
    var u := s.m.cpus[c];
    hide ReqStep;
    if Scheduler.CodeStep(s, c, s') {
      if u.handler.Some? {
        IrqProjects(s, c, u.handler.value.loc, s');
      } else if u.cur.Running? && Scheduler.DiskCode(s, c, u.cur.p, s.m.pcs[u.cur.p].loc, s') {
        DiskProjects(s, c, u.cur.p, s.m.pcs[u.cur.p].loc, s');
      }
    }
  }

  lemma IrqProjects(s: Scheduler.State, c: nat, x: Loc, s': Scheduler.State)
    requires c < |s.m.cpus| && CurOk(s.m, c) && Scheduler.IrqCode(s, c, x, s')
    ensures OfState(s') == OfState(s) || ReqStep(OfState(s), OfState(s'))
  {
    var a, a' := OfState(s), OfState(s');
    if x.IrqLoop? && s.used != [] {
      assert MarksReq(a, a');
    } else if x.IrqNext? {
      assert DropsReq(a, x.head, a');
    }
  }

  lemma DiskProjects(s: Scheduler.State, c: nat, i: nat, x: Loc, s': Scheduler.State)
    requires c < |s.m.cpus| && CurOk(s.m, c) && i < |s.procs| && Scheduler.DiskCode(s, c, i, x, s')
    ensures OfState(s') == OfState(s) || ReqStep(OfState(s), OfState(s'))
  {
    var a, a' := OfState(s), OfState(s');
    if x.DiskStart? {
      var h: nat :| Scheduler.Submit(s, c, h, x.buf, s');
      assert SubmitsReq(a, h, x.buf, a');
    } else if x.DiskCheck? && s.reqs[x.head].done {
      assert CollectsReq(a, x.head, a');
    }
  }

  /** How the queue shows them. */
  function OfView(v: View): Requests {
    Requests(Reqs(v), v.back)
  }

  lemma Extend(a: Requests, n: nat, b: Requests, c: Requests)
    requires Reaches(a, n, b) && ReqStep(b, c)
    ensures Reaches(a, n + 1, c)
  {
  }

  lemma EnqueueStep(v: View, w: View, write: bool, sector: nat, buf: nat, v': View)
    requires QueueOk(v) && Enqueues(v, w, write, sector, buf, v')
    ensures QueueOk(v') && ReqStep(OfView(v), OfView(v'))
  {
    SubmitRefines(v, w, write, sector, buf);
    SubmitView(v, w, write, sector, buf);
    hide QueueOk, ListOk, RequestDescs, EnqueuedView, Reqs;
    assert SubmitsReq(OfView(v), v.free[0], buf, OfView(v'));
  }

  lemma CompleteStep(v: View, h: nat)
    requires QueueOk(v) && h in v.device
    ensures v.n > 0 && |v.used| == v.n
    ensures QueueOk(CompletedView(v, h)) && ReqStep(OfView(v), OfView(CompletedView(v, h)))
  {
    CompleteRefines(v, h);
    CompleteView(v, h);
    hide QueueOk, CompletedView, Reqs;
    assert CompletesReq(OfView(v), h, OfView(CompletedView(v, h)));
  }

  /** A round of the handler: mid is marked and not yet dropped. */
  lemma HandleMarks(v: View) returns (mid: Requests)
    requires QueueOk(v) && v.back != []
    ensures v.back[0] < |v.info| && QueueOk(HandledView(v))
    ensures ReqStep(OfView(v), mid) && ReqStep(mid, OfView(HandledView(v)))
  {
    HandleRefines(v);
    HandleView(v);
    mid := Requests(Reqs(v)[v.back[0] := Reqs(v)[v.back[0]].(done := true)], v.back);
    hide QueueOk, HandledView, Reqs;
    assert MarksReq(OfView(v), mid) && DropsReq(mid, v.back[0], OfView(HandledView(v)));
  }

  lemma HandleStep(v: View, a: Requests, n: nat)
    requires QueueOk(v) && v.back != [] && Reaches(a, n, OfView(v))
    ensures v.back[0] < |v.info| && QueueOk(HandledView(v)) && Reaches(a, n + 2, OfView(HandledView(v)))
  {
    hide *;
    var mid := HandleMarks(v);
    Extend(a, n, OfView(v), mid);
    Extend(a, n + 1, mid, OfView(HandledView(v)));
  }

  lemma {:induction false} InterruptSteps(v: View, a: Requests, n: nat) returns (m: nat)
    requires QueueOk(v) && Reaches(a, n, OfView(v))
    ensures QueueOk(AllHandled(v)) && Reaches(a, m, OfView(AllHandled(v)))
    decreases |v.back|
  {
    hide QueueOk, Reaches, OfView;
    if v.back == [] {
      m := n;
    } else {
      HandleStep(v, a, n);
      m := InterruptSteps(HandledView(v), a, n + 2);
    }
  }

  lemma FinishStep(v: View, h: nat, w: View)
    requires QueueOk(v) && Finishes(v, h, w)
    ensures QueueOk(w) && ReqStep(OfView(v), OfView(w))
  {
    FinishRefines(v, h, w);
    FinishedView(v, h, w);
    hide QueueOk, Reqs, ListOk;
    assert CollectsReq(OfView(v), h, OfView(w));
  }

  /** Submission, completion and collection are one step each. */
  lemma OneStep(v: View, op: Op, v': View)
    requires QueueOk(v) && Allowed(v, op) && OpStep(v, op, v')
    requires op.Submitting? || op.Completing? || op.Finishing?
    ensures QueueOk(v') && ReqStep(OfView(v), OfView(v'))
  {
    hide QueueOk, Enqueues, Finishes, OfView, ReqStep, CompletedView;
    match op
    case Submitting(write, bno, buf) =>
      var w: View :| Enqueues(v, w, write, bno * 2, buf, v');
      EnqueueStep(v, w, write, bno * 2, buf, v');
    case Completing(h) => CompleteStep(v, h);
    case Finishing(h) => FinishStep(v, h, v');
  }

  /** Every operation keeps the queue sound and extends a run on requests. */
  lemma OpRefines(v: View, op: Op, v': View, a: Requests, n: nat) returns (m: nat)
    requires QueueOk(v) && Allowed(v, op) && OpStep(v, op, v') && Reaches(a, n, OfView(v))
    ensures QueueOk(v') && Reaches(a, m, OfView(v'))
  {
    hide *;
    if op.Fetching? {
      m := FetchSteps(v, v', a, n);
    } else if op.Handling? {
      m := HandleSteps(v, v', a, n);
    } else if op.Interrupting? {
      InterruptIs(v, v');
      m := InterruptSteps(v, a, n);
    } else {
      OneStep(v, op, v');
      Extend(a, n, OfView(v), OfView(v'));
      m := n + 1;
    }
  }

  lemma InterruptIs(v: View, v': View)
    requires QueueOk(v) && OpStep(v, Interrupting, v')
    ensures v' == AllHandled(v)
  {
    hide QueueOk;
  }

  lemma FetchSteps(v: View, v': View, a: Requests, n: nat) returns (m: nat)
    requires QueueOk(v) && OpStep(v, Fetching, v') && Reaches(a, n, OfView(v))
    ensures QueueOk(v') && Reaches(a, m, OfView(v'))
  {
    hide QueueOk, Reaches, OfView, FetchedView;
    m := n;
    if v.queue != [] {
      FetchStep(v);
    }
  }

  lemma HandleSteps(v: View, v': View, a: Requests, n: nat) returns (m: nat)
    requires QueueOk(v) && OpStep(v, Handling, v') && Reaches(a, n, OfView(v))
    ensures QueueOk(v') && Reaches(a, m, OfView(v'))
  {
    hide QueueOk, Reaches, OfView, HandledView;
    HandleStep(v, a, n);
    m := n + 2;
  }

  lemma FetchStep(v: View)
    requires QueueOk(v) && v.queue != []
    ensures QueueOk(FetchedView(v)) && OfView(FetchedView(v)) == OfView(v)
  {
    FetchRefines(v);
    FetchView(v);
  }

  /** Each call is allowed, whatever the calls before it have left within their contracts. */
  ghost predicate Scripted(v: View, ops: seq<Op>)
    requires QueueOk(v)
    decreases |ops|
  {
    ops == [] ||
    (Allowed(v, ops[0]) && forall v': View :: QueueOk(v') && OpStep(v, ops[0], v') ==> Scripted(v', ops[1..]))
  }

  /** Any sequence of calls on a queue is a run on requests, from what the queue showed
      before to what it shows now. */
  method Drive(q: Queue, ops: seq<Op>, ghost a: Requests, ghost n: nat) returns (ghost m: nat)
    requires q.Valid() && Scripted(q.Look(), ops) && Reaches(a, n, OfView(q.Look()))
    modifies q, q.desc, q.avail, q.used, q.info
    ensures q.Valid() && Reaches(a, m, OfView(q.Look()))
    decreases |ops|
  {
    m := n;
    if ops == [] {
      return;
    }
    ghost var v := q.Look();
    hide QueueOk, Reaches, OfView, OpStep;
    Perform(q, ops[0]);
    m := OpRefines(v, ops[0], q.Look(), a, n);
    m := Drive(q, ops[1..], a, m);
  }

  method Perform(q: Queue, op: Op)
    requires q.Valid() && Allowed(q.Look(), op)
    modifies q, q.desc, q.avail, q.used, q.info
    ensures q.Valid() && OpStep(old(q.Look()), op, q.Look())
  {
    hide QueueOk, OpStep;
    match op
    case Submitting(write, bno, buf) =>
      var h := q.Submit(write, bno, buf);
    case Fetching =>
      var h := q.DeviceFetch();
    case Completing(h) => q.DeviceComplete(h);
    case Handling =>
      var woken := q.HandleOne();
    case Interrupting =>
      var woken := q.Intr();
    case Finishing(h) => q.Finish(h);
  }
}
