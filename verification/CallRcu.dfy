/**
 call_rcu and its worker thread (urcu-call-rcu-impl.h), with the queue they share
 (static/wfqueue.h) and the futex that puts the worker to sleep.

 A producer publishes in two steps: it exchanges the tail, then links its node
 through the old tail, and may be paused in between. The worker detaches the whole
 queue, waits for a grace period and walks the batch. Every access to shared
 memory is one step; producers, stoppers, readers and other grace periods
 interleave freely.
 */
module CallRcu {
  import GP = GracePeriod
  import Rc = Reclaim

  type Tid = GP.Tid

  /** An address of a struct cds_wfq_node; the queue owns the dummy node. */
  type Node = nat
  const DUMMY: Node := 0

  datatype Ptr = Null | To(n: Node)

  /** What the tail points to: the head field, or the next field of a node. */
  datatype Loc = HeadLoc | NextOf(n: Node)

  /** A thread inside call_rcu or call_rcu_data_free. `k` is the position of its
      node in the order of tail exchanges, which the code does not keep. */
  datatype Pc =
    | Idle
    | Linking(loc: Loc, n: Node, k: nat)
    | WakeRead(stopper: bool)
    | WakeSet(stopper: bool)
    | WakeCall(stopper: bool)
    | AwaitStopped

  /** The worker: the position in call_rcu_thread and its locals. */
  datatype Worker =
    | Start
    | TestTail
    | AwaitHead
    | ClearHead(cbs: Node)
    | SwapTail(cbs: Node)
    | SyncCall(cbs: Node, cbsTail: Loc)
    | SyncIn(cbs: Node, cbsTail: Loc)
    | WalkTest(cbs: Node, cbsTail: Loc)
    | WalkNext(cbs: Node, cbsTail: Loc)
    | Invoke(rhp: Node, rest: Ptr, cbsTail: Loc)
    | TestStop
    | TestTailAgain
    | ReadFutex
    | FutexWait
    | Asleep
    | DecFutex
    | ExitFutex
    | ExitStopped
    | Exited

  /** The queue. `next` is the memory of the nodes that may be accessed; running a
      callback gives its node back, and `fault` records an access to any other
      address. `order`, `cut`, `ran` and `log` are history variables: the nodes in
      the order of tail exchanges, how many of them were detached and how many
      processed, and the callbacks that ran. */
  datatype Queue = Queue(
    head: Ptr,
    tail: Loc,
    next: map<Node, Ptr>,
    fault: bool,
    order: seq<Node>,
    cut: nat,
    ran: nat,
    log: seq<Node>)

  datatype State = State(
    q: Queue,
    futex: int,
    stop: bool,
    stopped: bool,
    w: Worker,
    th: map<Tid, Pc>,
    gp: GP.Spec)

  datatype Action =
    | Exchange(t: Tid, n: Node)
    | Link(t: Tid)
    | SetStop(t: Tid)
    | SeeStopped(t: Tid)
    | ReadFutexToWake(t: Tid)
    | SetFutex(t: Tid)
    | CallWake(t: Tid)
    | WorkerStep
    | Reader(e: GP.Event)
    | OtherGracePeriod(e: GP.Event)

  predicate Enabled(s: State, a: Action) {
    match a
    case Exchange(t, n) => t in s.th && s.th[t] == Idle && n !in s.q.next && n != DUMMY
    case Link(t) => t in s.th && s.th[t].Linking?
    case SetStop(t) => t in s.th && s.th[t] == Idle && !s.stopped
    case SeeStopped(t) => t in s.th && s.th[t] == AwaitStopped && s.stopped
    case ReadFutexToWake(t) => t in s.th && s.th[t].WakeRead?
    case SetFutex(t) => t in s.th && s.th[t].WakeSet?
    case CallWake(t) => t in s.th && s.th[t].WakeCall?
    case WorkerStep => WorkerEnabled(s)
    case Reader(e) => (e.Enter? || e.Exit?) && GP.Enabled(s.gp, e)
    case OtherGracePeriod(e) => (e.Begin? || e.End?) && !s.w.SyncIn? && GP.Enabled(s.gp, e)
  }

  predicate WorkerEnabled(s: State) {
    match s.w
    case SyncCall(_, _) => GP.Enabled(s.gp, GP.Begin)
    case SyncIn(_, _) => GP.Enabled(s.gp, GP.End)
    case Asleep => false
    case Exited => false
    case _ => true
  }

  function Load(q: Queue, n: Node): Ptr {
    if n in q.next then q.next[n] else Null
  }

  function Touch(q: Queue, n: Node): Queue {
    q.(fault := q.fault || n !in q.next)
  }

  /** node_init and the exchange of the tail. */
  function ExchangeTail(q: Queue, n: Node): Queue {
    q.(tail := NextOf(n), next := q.next[n := Null], order := q.order + [n])
  }

  /** The store through the old tail. */
  function LinkNode(q: Queue, loc: Loc, n: Node): Queue {
    match loc
    case HeadLoc => q.(head := To(n))
    case NextOf(m) => Touch(q, m).(next := if m in q.next then q.next[m := To(n)] else q.next)
  }

  /** The worker's exchange of the tail detaches everything queued so far. */
  function Detach(q: Queue): Queue {
    q.(tail := HeadLoc, cut := |q.order|)
  }

  /** The node is given back when its callback has run. */
  function RunCallback(q: Queue, n: Node): Queue {
    q.(next := q.next - {n}, log := q.log + [n], ran := q.ran + 1)
  }

  function Woken(stopper: bool): Pc { if stopper then AwaitStopped else Idle }

  function AfterNode(cbs: Ptr, cbsTail: Loc): Worker {
    if cbs == Null then TestStop else WalkTest(cbs.n, cbsTail)
  }

  function WorkerApply(s: State): State
    requires WorkerEnabled(s)
  {
    match s.w
    case Start => s.(futex := s.futex - 1, w := TestTail)
    case TestTail => s.(w := if s.q.tail == HeadLoc then TestStop else AwaitHead)
    case AwaitHead => if s.q.head == Null then s else s.(w := ClearHead(s.q.head.n))
    case ClearHead(cbs) => s.(q := s.q.(head := Null), w := SwapTail(cbs))
    case SwapTail(cbs) => s.(q := Detach(s.q), w := SyncCall(cbs, s.q.tail))
    case SyncCall(cbs, ct) => s.(gp := GP.Apply(s.gp, GP.Begin), w := SyncIn(cbs, ct))
    case SyncIn(cbs, ct) => s.(gp := GP.Apply(s.gp, GP.End), w := WalkTest(cbs, ct))
    case WalkTest(cbs, ct) =>
      s.(q := Touch(s.q, cbs),
         w := if Load(s.q, cbs) == Null && NextOf(cbs) != ct then s.w else WalkNext(cbs, ct))
    case WalkNext(cbs, ct) =>
      if cbs == DUMMY then
        s.(q := Touch(s.q, cbs).(ran := s.q.ran + 1), w := AfterNode(Load(s.q, cbs), ct))
      else
        s.(q := Touch(s.q, cbs), w := Invoke(cbs, Load(s.q, cbs), ct))
    case Invoke(rhp, rest, ct) => s.(q := RunCallback(s.q, rhp), w := AfterNode(rest, ct))
    case TestStop => s.(w := if s.stop then ExitFutex else TestTailAgain)
    case TestTailAgain => s.(w := if s.q.tail == HeadLoc then ReadFutex else TestTail)
    case ReadFutex => s.(w := if s.futex == -1 then FutexWait else DecFutex)
    case FutexWait => s.(w := if s.futex == -1 then Asleep else DecFutex)
    case DecFutex => s.(futex := s.futex - 1, w := TestTail)
    case ExitFutex => s.(futex := 0, w := ExitStopped)
    case ExitStopped => s.(stopped := true, w := Exited)
  }

  function SetTh(s: State, t: Tid, p: Pc): State {
    s.(th := s.th[t := p])
  }

  function Apply(s: State, a: Action): State
    requires Enabled(s, a)
  {
    match a
    case Exchange(t, n) =>
      SetTh(s, t, Linking(s.q.tail, n, |s.q.order|)).(q := ExchangeTail(s.q, n))
    case Link(t) =>
      SetTh(s, t, WakeRead(false)).(q := LinkNode(s.q, s.th[t].loc, s.th[t].n))
    case SetStop(t) => SetTh(s, t, WakeRead(true)).(stop := true)
    case SeeStopped(t) => SetTh(s, t, Idle)
    case ReadFutexToWake(t) =>
      var b := s.th[t].stopper;
      SetTh(s, t, if s.futex == -1 then WakeSet(b) else Woken(b))
    case SetFutex(t) => SetTh(s, t, WakeCall(s.th[t].stopper)).(futex := 0)
    case CallWake(t) =>
      SetTh(s, t, Woken(s.th[t].stopper)).(w := if s.w == Asleep then DecFutex else s.w)
    case WorkerStep => WorkerApply(s)
    case Reader(e) => s.(gp := GP.Apply(s.gp, e))
    case OtherGracePeriod(e) => s.(gp := GP.Apply(s.gp, e))
  }

  /** cds_wfq_init, and a worker about to start. */
  predicate Init(s: State) {
    && s.q == Queue(To(DUMMY), NextOf(DUMMY), map[DUMMY := Null], false, [DUMMY], 0, 0, [])
    && s.futex == 0 && !s.stop && !s.stopped && s.w == Start
    && (forall t <- s.th :: s.th[t] == Idle)
  }

  ghost predicate Next(s: State, s': State) {
    exists a :: Enabled(s, a) && s' == Apply(s, a)
  }

  ghost predicate StepAt(tr: seq<State>, i: nat)
    requires i + 1 < |tr|
  {
    Next(tr[i], tr[i + 1])
  }

  ghost predicate Run(tr: seq<State>) {
    && tr != []
    && Init(tr[0])
    && forall i: nat :: i + 1 < |tr| ==> StepAt(tr, i)
  }

  // ------------------------------------------------------ the queue invariant

  /** Positions whose producer has exchanged the tail and not linked yet. */
  function Pending(th: map<Tid, Pc>): set<nat> {
    set t | t in th && th[t].Linking? :: th[t].k
  }

  ghost predicate Shape(q: Queue) {
    && q.ran <= q.cut <= |q.order|
    && 0 < |q.order| && q.order[0] == DUMMY
    && (forall j :: 0 < j < |q.order| ==> q.order[j] != DUMMY)
    && q.tail == (if q.cut == |q.order| then HeadLoc else NextOf(q.order[|q.order| - 1]))
    && q.log == (if q.ran == 0 then [] else q.order[1..q.ran])
    && !q.fault
  }

  ghost predicate Distinct(q: Queue) {
    forall i, j :: q.ran <= i < j < |q.order| ==> q.order[i] != q.order[j]
  }

  /** The successor the node at position `j` must show. The last node of the
      detached batch and the last of the queue point nowhere. */
  function Successor(q: Queue, pend: set<nat>, j: nat): Ptr
    requires j < |q.order|
  {
    if j + 1 == q.cut || j + 1 == |q.order| || j + 1 in pend then Null else To(q.order[j + 1])
  }

  ghost predicate LinkedAt(q: Queue, pend: set<nat>, j: nat)
    requires j < |q.order|
  {
    q.order[j] in q.next && q.next[q.order[j]] == Successor(q, pend, j)
  }

  ghost predicate Linked(q: Queue, pend: set<nat>) {
    forall j: nat :: q.ran <= j < |q.order| ==> LinkedAt(q, pend, j)
  }

  ghost predicate HeadOk(q: Queue, pend: set<nat>, cleared: bool)
    requires q.cut <= |q.order|
  {
    q.head == if q.cut == |q.order| || q.cut in pend || cleared then Null else To(q.order[q.cut])
  }

  /** A producer between its two steps: its node is still to come for the worker,
      and it will write the one field that has to point to its node. */
  ghost predicate ProducerOk(q: Queue, p: Pc) {
    p.Linking? ==>
      && 0 < p.k < |q.order| && q.ran <= p.k && q.order[p.k] == p.n
      && (p.k < q.cut ==> q.ran < p.k)
      && p.loc == if p.k == q.cut then HeadLoc else NextOf(q.order[p.k - 1])
  }

  ghost predicate Producers(q: Queue, th: map<Tid, Pc>) {
    && (forall t <- th :: ProducerOk(q, th[t]))
    && forall t <- th, u <- th :: th[t].Linking? && th[u].Linking? && th[t].k == th[u].k ==> t == u
  }

  ghost predicate AtBatch(q: Queue, cbs: Node, cbsTail: Loc) {
    q.ran < q.cut <= |q.order| && cbs == q.order[q.ran] && cbsTail == NextOf(q.order[q.cut - 1])
  }

  ghost predicate AtHead(q: Queue, pend: set<nat>, cbs: Node) {
    q.ran == q.cut < |q.order| && cbs == q.order[q.cut] && q.cut !in pend
  }

  ghost predicate WorkerOk(q: Queue, pend: set<nat>, w: Worker) {
    match w
    case AwaitHead => q.ran == q.cut < |q.order|
    case ClearHead(cbs) => AtHead(q, pend, cbs)
    case SwapTail(cbs) => AtHead(q, pend, cbs)
    case SyncCall(cbs, ct) => AtBatch(q, cbs, ct)
    case SyncIn(cbs, ct) => AtBatch(q, cbs, ct)
    case WalkTest(cbs, ct) => AtBatch(q, cbs, ct)
    case WalkNext(cbs, ct) => AtBatch(q, cbs, ct) && (q.ran + 1 < q.cut ==> q.ran + 1 !in pend)
    case Invoke(rhp, rest, ct) =>
      && AtBatch(q, rhp, ct) && rhp != DUMMY && (q.ran + 1 < q.cut ==> q.ran + 1 !in pend)
      && rest == (if q.ran + 1 == q.cut then Null else To(q.order[q.ran + 1]))
    case _ => q.ran == q.cut
  }

  ghost predicate QueueInv(s: State) {
    && Shape(s.q) && Distinct(s.q)
    && Linked(s.q, Pending(s.th))
    && HeadOk(s.q, Pending(s.th), s.w.SwapTail?)
    && Producers(s.q, s.th)
    && WorkerOk(s.q, Pending(s.th), s.w)
  }

  lemma PendingAfter(th: map<Tid, Pc>, t: Tid, p: Pc, q: Queue)
    requires Producers(q, th) && t in th && (th[t].Linking? ==> !p.Linking?)
    ensures Pending(th[t := p]) ==
            (if p.Linking? then Pending(th) + {p.k}
             else if th[t].Linking? then Pending(th) - {th[t].k}
             else Pending(th))
  {
    var th' := th[t := p];
    forall k | k in Pending(th) && (th[t].Linking? ==> k != th[t].k)
      ensures k in Pending(th')
    {
      var u :| u in th && th[u].Linking? && th[u].k == k;
      assert th'[u] == th[u];
    }
    if p.Linking? {
      assert th'[t].k in Pending(th');
    }
  }

  // Exchange of the tail by a producer.

  lemma ExchangeKeepsLinks(q: Queue, pend: set<nat>, n: Node)
    requires Shape(q) && Distinct(q) && Linked(q, pend) && n !in q.next && n != DUMMY
    ensures var q' := ExchangeTail(q, n);
            Shape(q') && Distinct(q') && Linked(q', pend + {|q.order|})
  {
    var q' := ExchangeTail(q, n);
    var k := |q.order|;
    forall j: nat | q.ran <= j < |q'.order|
      ensures LinkedAt(q', pend + {k}, j)
      ensures j < k ==> q'.order[j] == q.order[j] && q.order[j] != n
    {
      if j < k {
        assert LinkedAt(q, pend, j);
      }
    }
  }

  lemma ExchangeKeepsProducers(q: Queue, th: map<Tid, Pc>, t: Tid, n: Node)
    requires Shape(q) && Producers(q, th) && t in th && th[t] == Idle
    ensures Producers(ExchangeTail(q, n), th[t := Linking(q.tail, n, |q.order|)])
  {
    var q' := ExchangeTail(q, n);
    forall u | u in th && u != t
      ensures ProducerOk(q', th[u]) && (th[u].Linking? ==> th[u].k < |q.order|)
    {
      assert ProducerOk(q, th[u]);
    }
  }

  lemma ExchangeKeepsWorker(q: Queue, pend: set<nat>, w: Worker, n: Node)
    requires Shape(q) && WorkerOk(q, pend, w)
    ensures WorkerOk(ExchangeTail(q, n), pend + {|q.order|}, w)
  {
  }

  lemma ExchangeKeepsQueue(s: State, t: Tid, n: Node)
    requires QueueInv(s) && Enabled(s, Exchange(t, n))
    ensures QueueInv(Apply(s, Exchange(t, n)))
  {
    ExchangeKeepsLinks(s.q, Pending(s.th), n);
    ExchangeKeepsProducers(s.q, s.th, t, n);
    ExchangeKeepsWorker(s.q, Pending(s.th), s.w, n);
    PendingAfter(s.th, t, Linking(s.q.tail, n, |s.q.order|), s.q);
  }

  // The link by a producer.

  lemma LinkKeepsLinks(q: Queue, pend: set<nat>, p: Pc)
    requires Shape(q) && Distinct(q) && Linked(q, pend)
    requires p.Linking? && ProducerOk(q, p) && p.k in pend
    ensures var q' := LinkNode(q, p.loc, p.n);
            Shape(q') && Distinct(q') && Linked(q', pend - {p.k})
  {
    var q' := LinkNode(q, p.loc, p.n);
    if p.k != q.cut {
      assert LinkedAt(q, pend, p.k - 1);
    }
    forall j: nat | q.ran <= j < |q'.order|
      ensures LinkedAt(q', pend - {p.k}, j)
    {
      assert LinkedAt(q, pend, j);
    }
  }

  lemma LinkKeepsQueue(s: State, t: Tid)
    requires QueueInv(s) && Enabled(s, Link(t))
    ensures QueueInv(Apply(s, Link(t)))
  {
    var p, q' := s.th[t], LinkNode(s.q, s.th[t].loc, s.th[t].n);
    assert ProducerOk(s.q, p) && p.k in Pending(s.th);
    LinkKeepsLinks(s.q, Pending(s.th), p);
    PendingAfter(s.th, t, WakeRead(false), s.q);
    LinkKeepsProducers(s.q, q', s.th, t);
    LinkKeepsWorker(s.q, q', Pending(s.th), s.w, p);
  }

  lemma LinkKeepsProducers(q: Queue, q': Queue, th: map<Tid, Pc>, t: Tid)
    requires Producers(q, th) && q'.order == q.order && q'.cut == q.cut && q'.ran == q.ran
    ensures Producers(q', th[t := WakeRead(false)])
  {
    forall u | u in th && u != t
      ensures ProducerOk(q', th[u])
    {
      assert ProducerOk(q, th[u]);
    }
  }

  /** The worker stays where it was; a head it waits for may have appeared. */
  lemma LinkKeepsWorker(q: Queue, q': Queue, pend: set<nat>, w: Worker, p: Pc)
    requires Shape(q) && WorkerOk(q, pend, w) && HeadOk(q, pend, w.SwapTail?)
    requires p.Linking? && ProducerOk(q, p) && p.k in pend && q' == LinkNode(q, p.loc, p.n)
    requires Shape(q')
    ensures WorkerOk(q', pend - {p.k}, w) && HeadOk(q', pend - {p.k}, w.SwapTail?)
  {
  }

  // Steps of the wake-up code, of readers and of other grace periods.

  lemma QuietStepKeepsQueue(s: State, a: Action)
    requires QueueInv(s) && Enabled(s, a) && !a.Exchange? && !a.Link? && !a.WorkerStep?
    ensures QueueInv(Apply(s, a))
  {
    var s' := Apply(s, a);
    if !a.Reader? && !a.OtherGracePeriod? {
      PendingAfter(s.th, a.t, s'.th[a.t], s.q);
    }
    assert Pending(s'.th) == Pending(s.th);
    assert forall u <- s.th :: ProducerOk(s.q, s.th[u]);
  }

  // The worker.

  lemma DetachKeepsQueue(s: State)
    requires QueueInv(s) && s.w.SwapTail?
    ensures QueueInv(WorkerApply(s))
  {
    var q, pend := s.q, Pending(s.th);
    var q' := Detach(q);
    forall j: nat | q.ran <= j < |q'.order|
      ensures LinkedAt(q', pend, j)
    {
      assert LinkedAt(q, pend, j);
    }
    forall u | u in s.th
      ensures ProducerOk(q', s.th[u])
    {
      assert ProducerOk(q, s.th[u]);
      if s.th[u].Linking? {
        assert s.th[u].k in pend;
      }
    }
  }

  lemma RunCallbackKeepsLinks(q: Queue, pend: set<nat>)
    requires Shape(q) && Distinct(q) && Linked(q, pend) && 0 < q.ran < q.cut
    ensures var q' := RunCallback(q, q.order[q.ran]);
            Shape(q') && Distinct(q') && Linked(q', pend)
  {
    var q' := RunCallback(q, q.order[q.ran]);
    assert q.order[1..q.ran + 1] == q.order[1..q.ran] + [q.order[q.ran]];
    forall j: nat | q'.ran <= j < |q'.order|
      ensures LinkedAt(q', pend, j)
    {
      assert LinkedAt(q, pend, j);
    }
  }

  lemma RunCallbackKeepsQueue(s: State)
    requires QueueInv(s) && s.w.Invoke?
    ensures QueueInv(WorkerApply(s))
  {
    var q, pend := s.q, Pending(s.th);
    var q' := RunCallback(q, s.w.rhp);
    RunCallbackKeepsLinks(q, pend);
    ProducersAfterNode(s, q');
  }

  lemma ProducersAfterNode(s: State, q': Queue)
    requires QueueInv(s) && s.q.ran < s.q.cut && (s.q.ran + 1 < s.q.cut ==> s.q.ran + 1 !in Pending(s.th))
    requires q'.order == s.q.order && q'.cut == s.q.cut && q'.ran == s.q.ran + 1
    ensures Producers(q', s.th)
  {
    forall u | u in s.th
      ensures ProducerOk(q', s.th[u])
    {
      assert ProducerOk(s.q, s.th[u]);
      if s.th[u].Linking? {
        assert s.th[u].k in Pending(s.th);
      }
    }
  }

  lemma SkipDummyKeepsQueue(s: State)
    requires QueueInv(s) && s.w.WalkNext? && s.w.cbs == DUMMY
    ensures QueueInv(WorkerApply(s))
  {
    var q, pend := s.q, Pending(s.th);
    var q' := WorkerApply(s).q;
    assert LinkedAt(q, pend, q.ran) && q.ran == 0;
    forall j: nat | q.ran <= j < |q'.order|
      ensures LinkedAt(q', pend, j)
    {
      assert LinkedAt(q, pend, j);
    }
    ProducersAfterNode(s, q');
  }

  lemma WalkKeepsQueue(s: State)
    requires QueueInv(s) && WorkerEnabled(s) && (s.w.WalkTest? || (s.w.WalkNext? && s.w.cbs != DUMMY))
    ensures QueueInv(WorkerApply(s))
  {
    assert LinkedAt(s.q, Pending(s.th), s.q.ran);
    assert WorkerApply(s).q == s.q;
    if s.q.ran + 1 < s.q.cut {
      assert s.q.order[s.q.ran] != s.q.order[s.q.cut - 1];
    }
  }

  lemma ClearHeadKeepsQueue(s: State)
    requires QueueInv(s) && s.w.ClearHead?
    ensures QueueInv(WorkerApply(s))
  {
    var q' := WorkerApply(s).q;
    forall j: nat | s.q.ran <= j < |s.q.order|
      ensures LinkedAt(q', Pending(s.th), j)
    {
      assert LinkedAt(s.q, Pending(s.th), j);
    }
    assert forall u <- s.th :: ProducerOk(s.q, s.th[u]);
  }

  /** The positions of the worker whose next step changes the queue's fields, or
      reads a node's next pointer. */
  predicate AtQueue(w: Worker) {
    w.ClearHead? || w.SwapTail? || w.Invoke? || w.WalkTest? || w.WalkNext?
  }

  lemma OtherWorkKeepsQueue(s: State)
    requires QueueInv(s) && WorkerEnabled(s) && !AtQueue(s.w)
    ensures QueueInv(WorkerApply(s))
  {
    OtherWorkMoves(s.q, Pending(s.th), s);
    assert WorkerApply(s).q == s.q && WorkerApply(s).th == s.th;
  }

  lemma OtherWorkMoves(q: Queue, pend: set<nat>, s: State)
    requires WorkerEnabled(s) && !AtQueue(s.w) && s.q == q
    requires Shape(q) && WorkerOk(q, pend, s.w) && HeadOk(q, pend, false)
    ensures WorkerOk(q, pend, WorkerApply(s).w) && !WorkerApply(s).w.SwapTail?
  {
    if s.w.AwaitHead? || s.w.SyncCall? || s.w.SyncIn? {
    } else {
      assert q.ran == q.cut;
    }
  }

  lemma WorkKeepsQueue(s: State)
    requires QueueInv(s) && WorkerEnabled(s)
    ensures QueueInv(WorkerApply(s))
  {
    match s.w
    case ClearHead(_) => ClearHeadKeepsQueue(s);
    case SwapTail(_) => DetachKeepsQueue(s);
    case Invoke(_, _, _) => RunCallbackKeepsQueue(s);
    case WalkTest(_, _) => WalkKeepsQueue(s);
    case WalkNext(cbs, _) =>
      if cbs == DUMMY {
        SkipDummyKeepsQueue(s);
      } else {
        WalkKeepsQueue(s);
      }
    case _ => OtherWorkKeepsQueue(s);
  }

  lemma StepKeepsQueue(s: State, a: Action)
    requires QueueInv(s) && Enabled(s, a)
    ensures QueueInv(Apply(s, a))
  {
    match a
    case Exchange(t, n) => ExchangeKeepsQueue(s, t, n);
    case Link(t) => LinkKeepsQueue(s, t);
    case WorkerStep => WorkKeepsQueue(s);
    case _ => QuietStepKeepsQueue(s, a);
  }

  // ------------------------------------------------------------- no lost wakeup

  /** A thread that published work or the stop flag and has still to look at the
      futex or to set it. */
  predicate WillLook(p: Pc) { p.Linking? || p.WakeRead? || p.WakeSet? }

  ghost predicate Waker(th: map<Tid, Pc>) {
    exists t <- th :: WillLook(th[t])
  }

  predicate PastTailTest(w: Worker) { w.ReadFutex? || w.FutexWait? || w.Asleep? }

  predicate PastStopTest(w: Worker) { w.TestTailAgain? || PastTailTest(w) }

  /** From its last look at the queue, respectively at the stop flag, until it
      sleeps, whatever the worker has not seen has a waker that will find the
      futex at -1; once a waker has set it, that waker owes a FUTEX_WAKE. */
  ghost predicate WakeInv(s: State) {
    && (s.futex == -1 && PastTailTest(s.w) && s.q.tail != HeadLoc ==> Waker(s.th))
    && (s.futex == -1 && PastStopTest(s.w) && s.stop ==> Waker(s.th))
    && (s.w.Asleep? && s.futex != -1 ==> exists t <- s.th :: s.th[t].WakeCall?)
    && (s.stopped ==> s.w.Exited?)
    && (s.w.ExitFutex? || s.w.ExitStopped? || s.w.Exited? ==> s.stop)
    && (s.w.SyncIn? ==> s.gp.running)
  }

  predicate ThreadStep(a: Action) {
    !a.WorkerStep? && !a.Reader? && !a.OtherGracePeriod?
  }

  lemma ThreadStepKeepsWake(s: State, a: Action)
    requires WakeInv(s) && Enabled(s, a) && ThreadStep(a)
    ensures WakeInv(Apply(s, a))
  {
    var s' := Apply(s, a);
    assert a.t in s'.th;
    assert forall u <- s.th :: u != a.t ==> u in s'.th && s'.th[u] == s.th[u];
  }

  lemma WorkKeepsWake(s: State)
    requires WakeInv(s) && WorkerEnabled(s)
    ensures WakeInv(WorkerApply(s))
  {
    assert WorkerApply(s).th == s.th;
  }

  lemma StepKeepsWake(s: State, a: Action)
    requires WakeInv(s) && Enabled(s, a)
    ensures WakeInv(Apply(s, a))
  {
    if ThreadStep(a) {
      ThreadStepKeepsWake(s, a);
    } else if a.WorkerStep? {
      WorkKeepsWake(s);
    }
  }

  // ------------------------------------------------------------------- theorems

  ghost predicate Inv(s: State) {
    QueueInv(s) && WakeInv(s)
  }

  lemma StepAtKeepsInv(tr: seq<State>, i: nat)
    requires i + 1 < |tr| && StepAt(tr, i) && Inv(tr[i])
    ensures Inv(tr[i + 1])
  {
    var a :| Enabled(tr[i], a) && tr[i + 1] == Apply(tr[i], a);
    StepKeepsQueue(tr[i], a);
    StepKeepsWake(tr[i], a);
  }

  lemma InitGivesInv(s: State)
    requires Init(s)
    ensures Inv(s)
  {
    assert Pending(s.th) == {};
    assert LinkedAt(s.q, {}, 0);
  }

  lemma {:induction false} RunKeepsInv(tr: seq<State>, k: nat)
    requires Run(tr) && k < |tr|
    ensures Inv(tr[k])
  {
    InitGivesInv(tr[0]);
    for i := 0 to k
      invariant Inv(tr[i])
    {
      StepAtKeepsInv(tr, i);
    }
  }

  /** Delivery in every reachable state: the callbacks that ran are exactly the
      first ones in the order of tail exchanges, each once and in that order,
      without the dummy; the batch being walked is the contiguous run that follows
      it; and no node was touched after its callback gave it back. */
  lemma DeliveredInOrder(tr: seq<State>, k: nat)
    requires Run(tr) && k < |tr|
    ensures var q := tr[k].q;
            && q.ran <= q.cut <= |q.order|
            && q.log == (if q.ran == 0 then [] else q.order[1..q.ran])
            && DUMMY !in q.log
            && !q.fault
            && forall j :: q.ran <= j < |q.order| ==> q.order[j] in q.next
  {
    RunKeepsInv(tr, k);
    var q := tr[k].q;
    forall j | q.ran <= j < |q.order|
      ensures q.order[j] in q.next
    {
      assert LinkedAt(q, Pending(tr[k].th), j);
    }
  }

  /** The nodes met by following `n` next pointers from `p`. */
  function Follow(next: map<Node, Ptr>, p: Ptr, n: nat): seq<Node>
    decreases n
  {
    if n == 0 || p == Null || p.n !in next then [] else [p.n] + Follow(next, next[p.n], n - 1)
  }

  /** The first position from `from` on whose link is outstanding, or the end. */
  function FirstPending(pend: set<nat>, from: nat, end: nat): (to: nat)
    requires from <= end
    ensures from <= to <= end && (to == end || to in pend) && forall j :: from <= j < to ==> j !in pend
    decreases end - from
  {
    if from == end || from in pend then from else FirstPending(pend, from + 1, end)
  }

  lemma {:induction false} FollowsOrder(q: Queue, pend: set<nat>, from: nat, to: nat, n: nat)
    requires Shape(q) && Linked(q, pend)
    requires q.ran <= from < to <= |q.order| && (to == q.cut || to == |q.order| || to in pend)
    requires !(from < q.cut < to) && forall j :: from < j < to ==> j !in pend
    requires n >= to - from
    ensures Follow(q.next, To(q.order[from]), n) == q.order[from..to]
    decreases n
  {
    assert LinkedAt(q, pend, from);
    FirstAndRest(q.order, from, to);
    if from + 1 == to {
    } else {
      FollowsOrder(q, pend, from + 1, to, n - 1);
    }
  }

  lemma FirstAndRest(order: seq<Node>, from: nat, to: nat)
    requires from < to <= |order|
    ensures order[from..to] == [order[from]] + order[from + 1..to]
  {
  }

  /** Where the queue begins: at its head, or at the node the worker has just taken
      from the head and not detached yet. */
  function FrontOf(s: State): Ptr {
    if s.w.SwapTail? then To(s.w.cbs) else s.q.head
  }

  /** Nothing is lost in memory: following the pointers from the front of the queue
      meets exactly the nodes exchanged since the last detach, in order, up to the
      first whose link is outstanding; with none outstanding, all of them. */
  lemma QueueIsInMemory(tr: seq<State>, k: nat)
    requires Run(tr) && k < |tr|
    ensures var q := tr[k].q;
            && q.cut <= |q.order|
            && Follow(q.next, FrontOf(tr[k]), |q.order|)
               == q.order[q.cut..FirstPending(Pending(tr[k].th), q.cut, |q.order|)]
  {
    RunKeepsInv(tr, k);
    var q, pend := tr[k].q, Pending(tr[k].th);
    var to := FirstPending(pend, q.cut, |q.order|);
    if q.cut < to {
      FollowsOrder(q, pend, q.cut, to, |q.order|);
    }
  }

  /** Nor is anything lost of the batch the worker has detached: from its position the
      pointers meet exactly the rest, up to the first outstanding link. */
  lemma BatchIsInMemory(tr: seq<State>, k: nat)
    requires Run(tr) && k < |tr| && tr[k].q.ran < tr[k].q.cut
    ensures var q := tr[k].q;
            && q.cut <= |q.order|
            && Follow(q.next, To(q.order[q.ran]), |q.order|)
               == q.order[q.ran..FirstPending(Pending(tr[k].th), q.ran + 1, q.cut)]
  {
    RunKeepsInv(tr, k);
    var q, pend := tr[k].q, Pending(tr[k].th);
    FollowsOrder(q, pend, q.ran, FirstPending(pend, q.ran + 1, q.cut), |q.order|);
  }

  /** No lost wakeup: whenever the worker sleeps although the queue is not empty or
      the stop flag is set, some thread has not finished waking it. */
  lemma NoLostWakeup(tr: seq<State>, k: nat)
    requires Run(tr) && k < |tr|
    requires tr[k].w.Asleep? && (tr[k].q.tail != HeadLoc || tr[k].stop)
    ensures exists t <- tr[k].th :: WillLook(tr[k].th[t]) || tr[k].th[t].WakeCall?
  {
    RunKeepsInv(tr, k);
  }

  /** The handshake of call_rcu_data_free: once STOPPED is visible the worker has
      left for good, everything it detached has run, and what is left is exactly
      what was queued after its last detach. */
  lemma StoppedMeansFinished(tr: seq<State>, k: nat)
    requires Run(tr) && k < |tr| && tr[k].stopped
    ensures tr[k].stop && tr[k].w.Exited? && tr[k].q.ran == tr[k].q.cut
    ensures !WorkerEnabled(tr[k])
  {
    RunKeepsInv(tr, k);
  }

  // ------------------------------------------------------- calls and returns

  ghost predicate Takes(tr: seq<State>, acts: seq<Action>, i: nat)
    requires i < |acts| && i + 1 < |tr|
  {
    Enabled(tr[i], acts[i]) && tr[i + 1] == Apply(tr[i], acts[i])
  }

  /** A run together with the actions that make it. */
  ghost predicate Follows(tr: seq<State>, acts: seq<Action>) {
    && |tr| == |acts| + 1
    && Init(tr[0])
    && forall i: nat :: i < |acts| ==> Takes(tr, acts, i)
  }

  lemma FollowsRuns(tr: seq<State>, acts: seq<Action>)
    requires Follows(tr, acts)
    ensures Run(tr)
  {
    forall i: nat | i + 1 < |tr|
      ensures StepAt(tr, i)
    {
      assert Takes(tr, acts, i);
    }
  }

  /** The nodes passed to call_rcu in the first `k` steps, in the order of the exchanges
      of the tail. */
  function Called(acts: seq<Action>, k: nat): seq<Node>
    requires k <= |acts|
  {
    if k == 0 then []
    else Called(acts, k - 1) + if acts[k - 1].Exchange? then [acts[k - 1].n] else []
  }

  /** The nodes whose callback the worker has invoked in the first `k` steps. */
  function Invoked(tr: seq<State>, acts: seq<Action>, k: nat): seq<Node>
    requires k <= |acts| <= |tr|
  {
    if k == 0 then []
    else Invoked(tr, acts, k - 1)
         + if acts[k - 1].WorkerStep? && tr[k - 1].w.Invoke? then [tr[k - 1].w.rhp] else []
  }

  lemma WorkRecords(s: State)
    requires WorkerEnabled(s)
    ensures WorkerApply(s).q.order == s.q.order
    ensures WorkerApply(s).q.log == if s.w.Invoke? then s.q.log + [s.w.rhp] else s.q.log
  {
    if !AtQueue(s.w) {
      OtherWorkLeavesQueue(s);
    }
  }

  lemma OtherWorkLeavesQueue(s: State)
    requires WorkerEnabled(s) && !AtQueue(s.w)
    ensures WorkerApply(s).q == s.q
  {
  }

  lemma StepRecords(s: State, a: Action)
    requires Enabled(s, a)
    ensures Apply(s, a).q.order == s.q.order + if a.Exchange? then [a.n] else []
    ensures Apply(s, a).q.log == s.q.log + if a.WorkerStep? && s.w.Invoke? then [s.w.rhp] else []
  {
    if a.WorkerStep? {
      WorkRecords(s);
    }
  }

  /** The history variables are the history: the order of exchanges is the calls of
      call_rcu after the dummy, and the log is the callbacks invoked. */
  lemma {:induction false} HistoryIsCalls(tr: seq<State>, acts: seq<Action>, k: nat)
    requires Follows(tr, acts) && k < |tr|
    ensures tr[k].q.order == [DUMMY] + Called(acts, k)
    ensures tr[k].q.log == Invoked(tr, acts, k)
  {
    if k == 0 {
    } else {
      HistoryIsCalls(tr, acts, k - 1);
      assert Takes(tr, acts, k - 1);
      StepRecords(tr[k - 1], acts[k - 1]);
    }
  }

  /** Callbacks run once each and in the order of call_rcu: those invoked are a prefix of
      those queued. */
  lemma RunsWhatWasCalled(tr: seq<State>, acts: seq<Action>, k: nat)
    requires Follows(tr, acts) && k < |tr|
    ensures Invoked(tr, acts, k) <= Called(acts, k)
    ensures |Invoked(tr, acts, k)| == if tr[k].q.ran == 0 then 0 else tr[k].q.ran - 1
  {
    FollowsRuns(tr, acts);
    HistoryIsCalls(tr, acts, k);
    DeliveredInOrder(tr, k);
  }

  /** The worker looks at the tail at step `i`. */
  predicate TestsTail(tr: seq<State>, acts: seq<Action>, i: nat) {
    i < |acts| && i < |tr| && acts[i].WorkerStep? && tr[i].w.TestTail?
  }

  /** Since a look at the tail that found `n` nodes exchanged: they are still to be
      detached, have been, or have run. */
  ghost predicate TakesUp(s: State, n: nat) {
    && n <= |s.q.order|
    && match s.w
       case AwaitHead => true
       case ClearHead(_) => true
       case SwapTail(_) => true
       case SyncCall(_, _) => n <= s.q.cut
       case SyncIn(_, _) => n <= s.q.cut
       case WalkTest(_, _) => n <= s.q.cut
       case WalkNext(_, _) => n <= s.q.cut
       case Invoke(_, _, _) => n <= s.q.cut
       case _ => n <= s.q.ran
  }

  lemma WorkTakesUp(s: State, n: nat)
    requires QueueInv(s) && WorkerEnabled(s)
    requires if s.w.TestTail? then n <= |s.q.order| else TakesUp(s, n)
    ensures TakesUp(WorkerApply(s), n)
  {
    WorkKeepsQueue(s);
  }

  lemma StepTakesUp(s: State, a: Action, n: nat)
    requires QueueInv(s) && Enabled(s, a)
    requires if a.WorkerStep? && s.w.TestTail? then n <= |s.q.order| else TakesUp(s, n)
    ensures TakesUp(Apply(s, a), n)
  {
    if a.WorkerStep? {
      WorkTakesUp(s, n);
    }
  }

  lemma {:induction false} TurnTakesUp(tr: seq<State>, acts: seq<Action>, i: nat, k: nat)
    requires Follows(tr, acts) && TestsTail(tr, acts, i) && i < k < |tr|
    ensures TakesUp(tr[k], |tr[i].q.order|)
  {
    FollowsRuns(tr, acts);
    RunKeepsInv(tr, k - 1);
    assert Takes(tr, acts, k - 1);
    if k == i + 1 {
    } else {
      TurnTakesUp(tr, acts, i, k - 1);
    }
    StepTakesUp(tr[k - 1], acts[k - 1], |tr[i].q.order|);
  }

  /** The worker does its work: whatever had been passed to call_rcu when it looked at the
      tail has run when it comes to test the stop flag. */
  lemma TurnRunsAll(tr: seq<State>, acts: seq<Action>, i: nat, j: nat)
    requires Follows(tr, acts) && TestsTail(tr, acts, i) && i < j < |tr| && tr[j].w.TestStop?
    ensures |tr[i].q.order| <= tr[j].q.ran
    ensures Called(acts, i) <= Invoked(tr, acts, j)
  {
    TurnTakesUp(tr, acts, i, j);
    RanCalls(tr, acts, i, j);
  }

  lemma RanCalls(tr: seq<State>, acts: seq<Action>, i: nat, j: nat)
    requires Follows(tr, acts) && i <= j < |tr| && |tr[i].q.order| <= tr[j].q.ran
    ensures Called(acts, i) <= Invoked(tr, acts, j)
  {
    HistoryIsCalls(tr, acts, i);
    RunsWhatWasCalled(tr, acts, j);
    CalledGrows(acts, i, j);
  }

  lemma {:induction false} CalledGrows(acts: seq<Action>, i: nat, j: nat)
    requires i <= j <= |acts|
    ensures Called(acts, i) <= Called(acts, j)
  {
    if i == j {
    } else {
      CalledGrows(acts, i, j - 1);
    }
  }

  /** The worker looks at the tail before it does anything else. */
  lemma {:induction false} LooksFirst(tr: seq<State>, acts: seq<Action>, k: nat)
    requires Follows(tr, acts) && k < |tr| && !tr[k].w.Start? && !tr[k].w.TestTail?
    ensures exists i: nat :: i < k && TestsTail(tr, acts, i)
  {
    assert k > 0;
    assert Takes(tr, acts, k - 1);
    if TestsTail(tr, acts, k - 1) {
    } else {
      LooksFirst(tr, acts, k - 1);
    }
  }

  /** The exit of the worker: when STOPPED is visible it has looked at the tail, and
      whatever had been passed to call_rcu at any of its looks has run. */
  lemma StoppedRanAll(tr: seq<State>, acts: seq<Action>, j: nat)
    requires Follows(tr, acts) && j < |tr| && tr[j].stopped
    ensures exists i: nat :: i < j && TestsTail(tr, acts, i)
    ensures forall i: nat :: i < j && TestsTail(tr, acts, i) ==> Called(acts, i) <= Invoked(tr, acts, j)
  {
    FollowsRuns(tr, acts);
    StoppedMeansFinished(tr, j);
    LooksFirst(tr, acts, j);
    forall i: nat | i < j && TestsTail(tr, acts, i)
      ensures Called(acts, i) <= Invoked(tr, acts, j)
    {
      TurnTakesUp(tr, acts, i, j);
      RanCalls(tr, acts, i, j);
    }
  }

  /** A thread in call_rcu_data_free. */
  predicate Freeing(p: Pc) {
    p.AwaitStopped? || ((p.WakeRead? || p.WakeSet? || p.WakeCall?) && p.stopper)
  }

  lemma FreeingStep(s: State, a: Action, t: Tid)
    requires Enabled(s, a) && t in s.th && (a == SetStop(t) || s.stopped || Freeing(s.th[t]))
    ensures t in Apply(s, a).th && (Apply(s, a).stopped || Freeing(Apply(s, a).th[t]))
    ensures a == SetStop(t) ==> Apply(s, a).stop
    ensures s.stop ==> Apply(s, a).stop
  {
  }

  lemma {:induction false} FreeingStays(tr: seq<State>, acts: seq<Action>, i: nat, k: nat, t: Tid)
    requires Follows(tr, acts) && i < k < |tr| && acts[i] == SetStop(t)
    ensures t in tr[k].th && tr[k].stop && (tr[k].stopped || Freeing(tr[k].th[t]))
  {
    assert Takes(tr, acts, k - 1);
    if k == i + 1 {
    } else {
      FreeingStays(tr, acts, i, k - 1, t);
    }
    FreeingStep(tr[k - 1], acts[k - 1], t);
  }

  /** call_rcu_data_free from call to return: it sets the stop flag, and goes on only when
      the worker has stopped. */
  lemma FreeReturns(tr: seq<State>, acts: seq<Action>, i: nat, j: nat, t: Tid)
    requires Follows(tr, acts) && i < j < |tr| && acts[i] == SetStop(t)
    ensures tr[j].stop && t in tr[j].th && (tr[j].th[t] == Idle ==> tr[j].stopped)
  {
    FreeingStays(tr, acts, i, j, t);
  }

  // -------------------------------------------------- progress of the worker

  /** Steps of the worker to the next detach, the end of its batch or its exit. */
  function Rank(s: State): nat {
    match s.w
    case Start => 7
    case TestTail => 6
    case AwaitHead => 5
    case ClearHead(_) => 4
    case SwapTail(_) => 3
    case SyncCall(_, _) => 5
    case SyncIn(_, _) => 4
    case WalkTest(_, _) => 3
    case WalkNext(_, _) => 2
    case Invoke(_, _, _) => 1
    case TestStop => if s.q.tail == HeadLoc then 5 else 11
    case TestTailAgain => 10
    case ReadFutex => 9
    case FutexWait => 8
    case Asleep => 0
    case DecFutex => 7
    case ExitFutex => 4
    case ExitStopped => 3
    case Exited => 0
  }

  /** Nobody is stuck: the worker can step unless it sleeps, has exited, or waits for a
      grace period, and every thread unless it waits for the worker to stop. */
  lemma WorkerCanStep(s: State)
    requires WakeInv(s) && !s.w.Asleep? && !s.w.Exited?
    ensures s.w.SyncCall? ==> s.gp.running || WorkerEnabled(s)
    ensures s.w.SyncIn? ==> s.gp.awaited != {} || WorkerEnabled(s)
    ensures !s.w.SyncCall? && !s.w.SyncIn? ==> WorkerEnabled(s)
  {
  }

  lemma ThreadCanStep(s: State, t: Tid)
    requires t in s.th && s.th[t] != Idle && (s.th[t] == AwaitStopped ==> s.stopped)
    ensures exists a: Action :: ThreadStep(a) && !a.Exchange? && a.t == t && Enabled(s, a)
  {
    match s.th[t]
    case Linking(_, _, _) => assert Enabled(s, Link(t));
    case WakeRead(_) => assert Enabled(s, ReadFutexToWake(t));
    case WakeSet(_) => assert Enabled(s, SetFutex(t));
    case WakeCall(_) => assert Enabled(s, CallWake(t));
    case AwaitStopped => assert Enabled(s, SeeStopped(t));
  }

  /** Less is left: nodes to detach, else nodes of the batch, else steps. */
  ghost predicate LessLeft(s: State, s': State)
    requires s.q.ran <= s.q.cut <= |s.q.order| && s'.q.ran <= s'.q.cut <= |s'.q.order|
  {
    var detach, detach' := |s.q.order| - s.q.cut, |s'.q.order| - s'.q.cut;
    var run, run' := s.q.cut - s.q.ran, s'.q.cut - s'.q.ran;
    detach' < detach || (detach' == detach && (run' < run || (run' == run && Rank(s') < Rank(s))))
  }

  ghost predicate Advances(s: State)
    requires s.q.ran <= s.q.cut <= |s.q.order| && WorkerEnabled(s)
  {
    var s' := WorkerApply(s);
    && s'.q.ran <= s'.q.cut <= |s'.q.order|
    && (s'.w.Asleep? || LessLeft(s, s') || (s' == s && Pending(s.th) != {}))
  }

  lemma WalkAdvances(s: State)
    requires QueueInv(s) && (s.w.WalkTest? || s.w.WalkNext? || s.w.Invoke?)
    ensures Advances(s)
  {
    assert LinkedAt(s.q, Pending(s.th), s.q.ran);
  }

  lemma DetachAdvances(s: State)
    requires QueueInv(s) && WorkerEnabled(s)
    requires s.w.AwaitHead? || s.w.ClearHead? || s.w.SwapTail? || s.w.SyncCall? || s.w.SyncIn?
    ensures Advances(s)
  {
  }

  lemma LoopAdvances(s: State)
    requires Shape(s.q) && WorkerEnabled(s) && s.q.ran == s.q.cut && !AtQueue(s.w)
    requires !s.w.AwaitHead? && !s.w.SyncCall? && !s.w.SyncIn?
    requires s.q.tail != HeadLoc || s.stop
    ensures Advances(s)
  {
    assert WorkerApply(s).q == s.q;
  }

  /** The worker gets on: while there is work or the stop flag is set, each of its steps
      leaves less to do, goes to sleep, or waits for a producer that has exchanged the
      tail and still owes its link. */
  lemma WorkerAdvances(s: State)
    requires QueueInv(s) && WorkerEnabled(s)
    requires s.q.tail != HeadLoc || s.q.ran < s.q.cut || s.stop
    ensures Advances(s)
  {
    if s.w.WalkTest? || s.w.WalkNext? || s.w.Invoke? {
      WalkAdvances(s);
    } else if s.w.AwaitHead? || s.w.ClearHead? || s.w.SwapTail? || s.w.SyncCall? || s.w.SyncIn? {
      DetachAdvances(s);
    } else {
      LoopAdvances(s);
    }
  }

  /** The futex is 0 or -1, and 0 when the worker is about to decrement it. A FUTEX_WAKE
      that comes late, when the worker sleeps again, makes it fall below. */
  predicate Calm(s: State) {
    s.futex in {0, -1} && (s.w.Start? || s.w.DecFutex? ==> s.futex == 0)
  }

  /** Steps of an idle worker until it sleeps. */
  function IdleLeft(s: State): nat {
    match s.w
    case TestTail => if s.futex == -1 then 5 else 10
    case TestStop => if s.futex == -1 then 4 else 9
    case TestTailAgain => if s.futex == -1 then 3 else 8
    case ReadFutex => if s.futex == -1 then 2 else 7
    case FutexWait => if s.futex == -1 then 1 else 7
    case Start => 6
    case DecFutex => 6
    case _ => 0
  }

  /** With nothing to do the worker goes to sleep, and its own steps keep the futex calm. */
  lemma IdleWorkerSleeps(s: State)
    requires WorkerEnabled(s) && Calm(s)
    ensures Calm(WorkerApply(s))
    ensures s.q.tail == HeadLoc && !s.stop && IdleLeft(s) > 0 ==> IdleLeft(WorkerApply(s)) < IdleLeft(s)
    ensures s.q.tail == HeadLoc && !s.stop && IdleLeft(s) > 0 && IdleLeft(WorkerApply(s)) == 0 ==>
              WorkerApply(s).w.Asleep?
  {
  }

  // ------------------------------------------------- callbacks and grace periods

  /** While reader `r` stays inside a section, a callback queued after it entered
      never gets past the worker's grace period. */
  ghost predicate HeldBack(s: State, k: nat, r: Tid) {
    && (s.w.WalkTest? || s.w.WalkNext? || s.w.Invoke? ==> s.q.cut <= k)
    && (s.w.SyncIn? && k < s.q.cut ==> r in s.gp.awaited)
  }

  lemma WorkKeepsHeldBack(s: State, k: nat, r: Tid)
    requires WorkerEnabled(s) && HeldBack(s, k, r) && r in s.gp.inside
    ensures HeldBack(WorkerApply(s), k, r)
  {
    if s.w.SyncIn? {
      assert s.gp.awaited == {};
    }
  }

  lemma StepKeepsHeldBack(s: State, a: Action, k: nat, r: Tid)
    requires Enabled(s, a) && HeldBack(s, k, r)
    requires r in s.gp.inside && r in Apply(s, a).gp.inside
    ensures HeldBack(Apply(s, a), k, r)
  {
    if a.WorkerStep? {
      WorkKeepsHeldBack(s, k, r);
    } else {
      assert Apply(s, a).q.cut == s.q.cut;
      assert s.w.SyncIn? && r in s.gp.awaited ==> r in Apply(s, a).gp.awaited;
    }
  }

  lemma {:induction false} StaysHeldBack(tr: seq<State>, i: nat, m: nat, k: nat, r: Tid)
    requires Run(tr) && i <= m < |tr| && |tr[i].q.order| <= k
    requires forall n: nat :: i <= n <= m ==> r in tr[n].gp.inside
    ensures HeldBack(tr[m], k, r)
  {
    if i == m {
      RunKeepsInv(tr, m);
    } else {
      StaysHeldBack(tr, i, m - 1, k, r);
      assert StepAt(tr, m - 1);
      var a :| Enabled(tr[m - 1], a) && tr[m] == Apply(tr[m - 1], a);
      StepKeepsHeldBack(tr[m - 1], a, k, r);
    }
  }

  /** The contract of call_rcu over whole runs: a reader in a section when the
      callback at position `k` had not been queued has left that section, at least
      for a moment, before the callback runs. */
  lemma CallbackAfterGracePeriod(tr: seq<State>, i: nat, j: nat, k: nat, r: Tid)
    requires Run(tr) && i <= j < |tr|
    requires |tr[i].q.order| <= k
    requires tr[j].w.Invoke? && tr[j].q.ran == k
    ensures exists m: nat :: i <= m <= j && r !in tr[m].gp.inside
  {
    RunKeepsInv(tr, j);
    if forall m: nat :: i <= m <= j ==> r in tr[m].gp.inside {
      StaysHeldBack(tr, i, j, k, r);
    }
  }

  // ------------------------------------------------------------------ refinement

  /** The callbacks at positions from `a` up to `b`. */
  function Calls(q: Queue, a: nat, b: nat): seq<Node>
    requires a <= b <= |q.order|
  {
    if a == 0 && b > 0 then q.order[1..b] else q.order[a..b]
  }

  function PhaseOf(w: Worker): Rc.Phase {
    if w.SyncCall? then Rc.Taken else if w.SyncIn? then Rc.Syncing else Rc.Draining
  }

  ghost function Abs(s: State): Rc.Rec
    requires s.q.ran <= s.q.cut <= |s.q.order|
  {
    Rc.Rec(Calls(s.q, s.q.cut, |s.q.order|), Calls(s.q, s.q.ran, s.q.cut), PhaseOf(s.w), s.gp)
  }

  function EventOf(s: State, a: Action): Rc.Event {
    match a
    case Exchange(_, n) => Rc.Queue(n)
    case Reader(e) => Rc.Reader(e)
    case OtherGracePeriod(e) => Rc.OtherGracePeriod(e)
    case WorkerStep =>
      (match s.w
       case SwapTail(_) => Rc.Take
       case SyncCall(_, _) => Rc.BeginSync
       case SyncIn(_, _) => Rc.EndSync
       case Invoke(_, _, _) => Rc.RunFirst
       case _ => Rc.Stutter)
    case _ => Rc.Stutter
  }

  ghost predicate StepRefines(s: State, a: Action)
    requires Enabled(s, a)
  {
    && s.q.ran <= s.q.cut <= |s.q.order|
    && var s' := Apply(s, a);
       && s'.q.ran <= s'.q.cut <= |s'.q.order|
       && Rc.Enabled(Abs(s), EventOf(s, a))
       && Abs(s') == Rc.Apply(Abs(s), EventOf(s, a))
  }

  lemma ExchangeRefines(s: State, t: Tid, n: Node)
    requires Shape(s.q) && Enabled(s, Exchange(t, n))
    ensures StepRefines(s, Exchange(t, n))
  {
    var q, q' := s.q, ExchangeTail(s.q, n);
    assert Calls(q', q.cut, |q'.order|) == Calls(q, q.cut, |q.order|) + [n];
    assert Calls(q', q.ran, q.cut) == Calls(q, q.ran, q.cut);
  }

  predicate MovesQueue(w: Worker) {
    w.SwapTail? || w.Invoke? || (w.WalkNext? && w.cbs == DUMMY)
  }

  lemma DetachRefines(s: State)
    requires Shape(s.q) && s.w.SwapTail? && WorkerOk(s.q, {}, s.w)
    ensures StepRefines(s, WorkerStep)
  {
    var q, q' := s.q, Detach(s.q);
    assert Calls(q', q'.ran, q'.cut) == Calls(q, q.cut, |q.order|) && Calls(q', q'.cut, |q'.order|) == [];
    assert Calls(q, q.ran, q.cut) == [];
  }

  lemma SkipDummyRefines(s: State)
    requires Shape(s.q) && s.w.WalkNext? && s.w.cbs == DUMMY && WorkerOk(s.q, {}, s.w)
    ensures StepRefines(s, WorkerStep)
  {
    var q, q' := s.q, WorkerApply(s).q;
    assert Calls(q', q'.ran, q'.cut) == Calls(q, q.ran, q.cut);
    assert Calls(q', q'.cut, |q'.order|) == Calls(q, q.cut, |q.order|);
  }

  lemma RunCallbackRefines(s: State)
    requires Shape(s.q) && s.w.Invoke? && WorkerOk(s.q, {}, s.w)
    ensures StepRefines(s, WorkerStep)
    ensures Calls(s.q, s.q.ran, s.q.cut)[0] == s.w.rhp
  {
    var q, q' := s.q, WorkerApply(s).q;
    assert Calls(q, q.ran, q.cut) == [s.w.rhp] + Calls(q', q'.ran, q'.cut);
    assert Calls(q', q'.cut, |q'.order|) == Calls(q, q.cut, |q.order|);
  }

  lemma SyncRefines(s: State)
    requires Shape(s.q) && WorkerOk(s.q, {}, s.w) && WorkerEnabled(s) && (s.w.SyncCall? || s.w.SyncIn?)
    ensures StepRefines(s, WorkerStep)
  {
    assert WorkerApply(s).q == s.q;
  }

  /** The worker's other steps are nothing to the abstract reclaimer. */
  lemma OtherWorkLeaves(s: State)
    requires WorkerEnabled(s) && !MovesQueue(s.w) && !s.w.SyncCall? && !s.w.SyncIn?
    ensures var s' := WorkerApply(s);
            && s'.q.order == s.q.order && s'.q.cut == s.q.cut && s'.q.ran == s.q.ran && s'.gp == s.gp
            && PhaseOf(s'.w) == PhaseOf(s.w) == Rc.Draining
  {
  }

  lemma OtherWorkRefines(s: State)
    requires Shape(s.q) && WorkerEnabled(s) && !MovesQueue(s.w) && !s.w.SyncCall? && !s.w.SyncIn?
    ensures StepRefines(s, WorkerStep)
  {
    OtherWorkLeaves(s);
    assert Abs(Apply(s, WorkerStep)) == Abs(s);
  }

  lemma WorkerOkWithoutPending(q: Queue, pend: set<nat>, w: Worker)
    requires WorkerOk(q, pend, w)
    ensures WorkerOk(q, {}, w)
  {
  }

  lemma ThreadStepRefines(s: State, a: Action)
    requires Shape(s.q) && Enabled(s, a) && ThreadStep(a) && !a.Exchange?
    ensures StepRefines(s, a)
  {
    var s' := Apply(s, a);
    assert s'.q.order == s.q.order && s'.q.cut == s.q.cut && s'.q.ran == s.q.ran;
    assert PhaseOf(s'.w) == PhaseOf(s.w);
    assert Abs(s') == Abs(s);
  }

  lemma WorkRefines(s: State)
    requires QueueInv(s) && WorkerEnabled(s)
    ensures StepRefines(s, WorkerStep)
    ensures s.w.Invoke? ==> s.q.ran < s.q.cut && Calls(s.q, s.q.ran, s.q.cut)[0] == s.w.rhp
  {
    WorkerOkWithoutPending(s.q, Pending(s.th), s.w);
    if s.w.SwapTail? {
      DetachRefines(s);
    } else if s.w.Invoke? {
      RunCallbackRefines(s);
    } else if MovesQueue(s.w) {
      SkipDummyRefines(s);
    } else if s.w.SyncCall? || s.w.SyncIn? {
      SyncRefines(s);
    } else {
      OtherWorkRefines(s);
    }
  }

  /** Every step is one step of the abstract reclaimer; the node given back is the
      first of its batch. */
  lemma Refines(s: State, a: Action)
    requires QueueInv(s) && Enabled(s, a)
    ensures StepRefines(s, a)
    ensures EventOf(s, a) == Rc.RunFirst ==> s.w.Invoke? && Abs(s).batch[0] == s.w.rhp
  {
    match a
    case Exchange(t, n) => ExchangeRefines(s, t, n);
    case WorkerStep => WorkRefines(s);
    case Reader(_) =>
    case OtherGracePeriod(_) =>
    case _ => ThreadStepRefines(s, a);
  }
}
