/**
 The queues of all threads, and the heads up to which the holder of rcu_defer_mutex
 drains them: every step of the protocol keeps each queue as its owner and its
 drainer need it.
 */
module DeferGoals {
  import opened DeferCodec
  import opened DeferRing
  import St = DeferStore
  import opened DeferProtocol
  import opened DeferPlaces

  function OwnerOf(p: Pc): St.Owner { if p.Filling? then p.o else St.Resting }

  function GoalsOf(job: Job): map<Tid, St.Goal> {
    if job.Free? || job.Count? then map[] else job.goal
  }

  function LeftOf(job: Job): set<Tid> {
    if job.Snap? || job.NextQueue? || job.Drain? || job.Count? then job.left else {}
  }

  predicate DrainsNow(job: Job, t: Tid) { job.Drain? && job.t == t && t in job.goal }

  function DrainerOf(job: Job, t: Tid): St.Drainer { if DrainsNow(job, t) then job.d else St.Away }

  function UpTo(job: Job, t: Tid, q: St.Queue): nat { if DrainsNow(job, t) then job.goal[t].n else |q.ran| }

  /** A thread that has not registered yet. */
  predicate Fresh(p: Pc) {
    p == New || p == Registering || ((p.WantLock? || p.Locked?) && p.k == Barrier(New))
  }

  /** A queue is in order as its owner and its drainer need it; a freed queue has run
      everything, and its owner is gone. */
  ghost predicate QueueOk(q: St.Queue, p: Pc, job: Job, t: Tid) {
    && !Fresh(p)
    && if q.ring == [] then q.ran == q.calls && !InReg(p)
       else
         && St.Inv(q, OwnerOf(p), DrainerOf(job, t), UpTo(job, t, q))
         && (InReg(p) || p == Locked(Unregister)) && (p.Flushed? ==> q.head == q.tail)
  }

  ghost predicate Queues(qs: map<Tid, St.Queue>, th: map<Tid, Pc>, job: Job, reg: set<Tid>) {
    && reg <= qs.Keys
    && forall t <- qs :: t in th && QueueOk(qs[t], th[t], job, t)
  }

  predicate JobShape(job: Job) {
    match job
    case Snap(_, left, goal, _) => left !! goal.Keys
    case NextQueue(_, goal, left) => left <= goal.Keys
    case Drain(_, goal, left, t, d) => left <= goal.Keys && t in goal && t !in left && d.At?
    case _ => true
  }

  /** Queues whose goal has been reached: all of them when there was nothing to do. */
  predicate Reached(job: Job, u: Tid) {
    match job
    case Snap(_, _, goal, items) => items == 0 && u in goal
    case NextQueue(_, goal, left) => u in goal && u !in left
    case Drain(_, goal, left, t, _) => u in goal && u !in left && u != t
    case _ => false
  }

  ghost predicate GoalAt(q: St.Queue, job: Job, u: Tid)
    requires u in GoalsOf(job)
  {
    && |q.ring| == SIZE && St.GoalOk(q, GoalsOf(job)[u])
    && (Reached(job, u) ==> |q.ran| == GoalsOf(job)[u].n)
  }

  ghost predicate Goals(qs: map<Tid, St.Queue>, job: Job) {
    && JobShape(job)
    && (forall u <- GoalsOf(job) :: u in qs && GoalAt(qs[u], job, u))
    && forall u <- LeftOf(job) :: Mapped(qs, u)
  }

  /** A thread that drains only its own queue drains all of it. */
  ghost predicate OwnGoals(qs: map<Tid, St.Queue>, th: map<Tid, Pc>, job: Job) {
    forall t <- th :: th[t].Locked? && !th[t].k.Barrier? ==> OwnGoal(qs, job, t)
  }

  ghost predicate OwnGoal(qs: map<Tid, St.Queue>, job: Job, t: Tid) {
    if job.Snap? && job.left != {} then job.left == {t}
    else t in qs && t in GoalsOf(job) && GoalsOf(job)[t].n == |qs[t].calls|
  }

  ghost predicate QueueInv(s: State) {
    Queues(s.qs, s.th, s.job, s.reg) && Goals(s.qs, s.job) && OwnGoals(s.qs, s.th, s.job)
  }

  // A thread moves on without touching its queue.

  lemma PcUpdate(s: State, t: Tid, p: Pc)
    requires QueueInv(s) && t in s.th && MayTurnTo(s.th[t], p)
    ensures Queues(s.qs, s.th[t := p], s.job, s.reg) && OwnGoals(s.qs, s.th[t := p], s.job)
  {
  }

  /** What a thread may turn to without touching its queue or the mutex. */
  predicate MayTurnTo(p: Pc, p': Pc) {
    && !p'.Flushed? && !p'.Locked? && OwnerOf(p') == OwnerOf(p)
    && (InReg(p') <==> InReg(p)) && p != Locked(Unregister) && (Fresh(p') ==> Fresh(p))
  }

  lemma PcKeepsQueues(s: State, s': State, t: Tid)
    requires QueueInv(s) && TouchesNoQueue(s, s', t)
    ensures QueueInv(s')
  {
    PcUpdate(s, t, s'.th[t]);
  }

  // An owner works on its queue.

  lemma OwnerKeepsQueues(qs: map<Tid, St.Queue>, th: map<Tid, Pc>, job: Job, reg: set<Tid>, t: Tid, q: St.Queue,
                         p: Pc)
    requires Queues(qs, th, job, reg) && t in th && t in qs && QueueOk(q, p, job, t)
    ensures Queues(qs[t := q], th[t := p], job, reg)
  {
  }

  lemma OwnerKeepsGoals(qs: map<Tid, St.Queue>, job: Job, t: Tid, q: St.Queue)
    requires Goals(qs, job) && t in qs && |q.ring| == SIZE && q.ran == qs[t].ran
    requires t in GoalsOf(job) ==> St.GoalOk(q, GoalsOf(job)[t])
    ensures Goals(qs[t := q], job)
  {
    forall u | u in GoalsOf(job)
      ensures GoalAt(qs[t := q][u], job, u)
    {
      assert GoalAt(qs[u], job, u);
    }
  }

  lemma OwnerKeepsOwnGoals(qs: map<Tid, St.Queue>, th: map<Tid, Pc>, job: Job, t: Tid, q: St.Queue, p: Pc)
    requires OwnGoals(qs, th, job) && t in th && !p.Locked?
    ensures OwnGoals(qs[t := q], th[t := p], job)
  {
    forall u | u in th && u != t && OwnGoal(qs, job, u)
      ensures OwnGoal(qs[t := q], job, u)
    {
    }
  }

  /** What the owner of a queue may do to it. */
  ghost predicate OwnStep(q: St.Queue, q': St.Queue, p': Pc, job: Job, t: Tid) {
    && QueueOk(q', p', job, t) && |q'.ring| == SIZE && q'.ran == q.ran && !p'.Locked?
    && (t in GoalsOf(job) ==> St.GoalOk(q', GoalsOf(job)[t]))
  }

  lemma OwnerUpdate(s: State, t: Tid, q: St.Queue, p: Pc)
    requires QueueInv(s) && t in s.th && t in s.qs && OwnStep(s.qs[t], q, p, s.job, t)
    ensures QueueInv(s.(qs := s.qs[t := q], th := s.th[t := p]))
  {
    OwnerKeepsQueues(s.qs, s.th, s.job, s.reg, t, q, p);
    OwnerKeepsGoals(s.qs, s.job, t, q);
    OwnerKeepsOwnGoals(s.qs, s.th, s.job, t, q, p);
  }

  /** Filling starts with room for any record: after the test, or after a flush. */
  lemma FillingIsOwnStep(q: St.Queue, p: Pc, job: Job, t: Tid, c: Call)
    requires QueueOk(q, p, job, t) && |q.ring| == SIZE && OwnerOf(p) == St.Resting && InReg(p)
    requires p.Flushed? || !St.TooFull(q.head, q.tail)
    requires t in GoalsOf(job) ==> St.GoalOk(q, GoalsOf(job)[t])
    ensures OwnStep(q, St.Started(q, c), Filling(St.Start(q, c)), job, t)
  {
    St.StartKeepsInv(q, DrainerOf(job, t), UpTo(job, t, q), c);
  }

  lemma StoreIsOwnStep(q: St.Queue, o: St.Owner, job: Job, t: Tid)
    requires QueueOk(q, Filling(o), job, t) && St.CanStore(q, o)
    requires t in GoalsOf(job) ==> St.GoalOk(q, GoalsOf(job)[t])
    ensures OwnStep(q, St.StoreNext(q, o), Filling(St.StoredNext(o)), job, t)
  {
    St.StoreKeepsInv(q, o, DrainerOf(job, t), UpTo(job, t, q));
  }

  lemma PublishIsOwnStep(q: St.Queue, o: St.Owner, job: Job, t: Tid)
    requires QueueOk(q, Filling(o), job, t) && o.Storing? && o.n == |o.e|
    requires t in GoalsOf(job) ==> St.GoalOk(q, GoalsOf(job)[t])
    ensures OwnStep(q, St.Publish(q, o), WakeRead(false), job, t)
  {
    St.PublishKeepsInv(q, o, DrainerOf(job, t), UpTo(job, t, q));
    if t in GoalsOf(job) {
      St.PublishKeepsGoal(q, o, GoalsOf(job)[t]);
    }
  }

  lemma GoalOf(s: State, t: Tid)
    requires QueueInv(s) && t in GoalsOf(s.job)
    ensures t in s.qs && St.GoalOk(s.qs[t], GoalsOf(s.job)[t])
  {
    assert GoalAt(s.qs[t], s.job, t);
  }

  /** A step that only moves the thread on: one thread moves, no queue is touched. */
  ghost predicate TouchesNoQueue(s: State, s': State, t: Tid) {
    && t in s.th && t in s'.th && s'.th == s.th[t := s'.th[t]] && MayTurnTo(s.th[t], s'.th[t])
    && s'.qs == s.qs && s'.job == s.job && s'.reg == s.reg
  }

  lemma RegisteringTouchesNoQueue(s: State, t: Tid, op: RegisterOp)
    requires CanRegister(s, t, op) && op != AddQueue
    ensures TouchesNoQueue(s, ApplyRegister(s, t, op), t)
  {
  }

  lemma UnregisteringTouchesNoQueue(s: State, t: Tid, op: UnregisterOp)
    requires CanUnregister(s, t, op)
    ensures TouchesNoQueue(s, ApplyUnregister(s, t, op), t)
  {
  }

  lemma WakingTouchesNoQueue(s: State, t: Tid, op: WakeOp)
    requires CanWake(s, t, op)
    ensures TouchesNoQueue(s, ApplyWake(s, t, op), t)
  {
  }

  lemma CallingTouchesNoQueue(s: State, t: Tid, op: LockOp)
    requires CanLock(s, t, op) && op != TakeMutex
    ensures TouchesNoQueue(s, ApplyLock(s, t, op), t)
  {
  }

  lemma RegisteringKeepsQueues(s: State, t: Tid, op: RegisterOp)
    requires QueueInv(s) && CanRegister(s, t, op)
    ensures QueueInv(ApplyRegister(s, t, op))
  {
    if op == AddQueue {
      AddingKeepsQueues(s, t);
    } else {
      RegisteringTouchesNoQueue(s, t, op);
      PcKeepsQueues(s, ApplyRegister(s, t, op), t);
    }
  }

  lemma UnregisteringKeepsQueues(s: State, t: Tid, op: UnregisterOp)
    requires QueueInv(s) && CanUnregister(s, t, op)
    ensures QueueInv(ApplyUnregister(s, t, op))
  {
    UnregisteringTouchesNoQueue(s, t, op);
    PcKeepsQueues(s, ApplyUnregister(s, t, op), t);
  }

  lemma WakingKeepsQueues(s: State, t: Tid, op: WakeOp)
    requires QueueInv(s) && CanWake(s, t, op)
    ensures QueueInv(ApplyWake(s, t, op))
  {
    WakingTouchesNoQueue(s, t, op);
    PcKeepsQueues(s, ApplyWake(s, t, op), t);
  }

  lemma LockingKeepsQueues(s: State, t: Tid, op: LockOp)
    requires QueueInv(s) && PlaceInv(s) && LockInv(s) && CanLock(s, t, op)
    ensures QueueInv(ApplyLock(s, t, op))
  {
    if op == TakeMutex {
      TakingKeepsQueues(s, t);
    } else {
      CallingTouchesNoQueue(s, t, op);
      PcKeepsQueues(s, ApplyLock(s, t, op), t);
    }
  }

  /** A thread in defer_rcu has a queue, with its array. */
  lemma OwnQueueMapped(s: State, t: Tid)
    requires QueueInv(s) && PlaceInv(s) && t in s.th && InReg(s.th[t])
    ensures Mapped(s.qs, t)
  {
    assert PlaceOk(s.th[t], t in s.reg, s.busy == Some(t));
    assert QueueOk(s.qs[t], s.th[t], s.job, t);
  }

  /** The steps that change the own queue. */
  predicate Fills(s: State, t: Tid, op: DeferOp)
    requires Mapped(s.qs, t)
  {
    op.StoreWord? || op.PublishHead? || op.StartFilling? || (op.TestRoom? && !St.TooFull(s.qs[t].head, s.qs[t].tail))
  }

  lemma FillingKeepsQueues(s: State, t: Tid, op: DeferOp)
    requires QueueInv(s) && CanDefer(s, t, op) && Mapped(s.qs, t) && Fills(s, t, op)
    ensures QueueInv(OnQueue(s, t, op))
  {
    var p, q := s.th[t], s.qs[t];
    assert QueueOk(q, p, s.job, t);
    if t in GoalsOf(s.job) {
      GoalOf(s, t);
    }
    if op.StoreWord? {
      StoreIsOwnStep(q, p.o, s.job, t);
      OwnerUpdate(s, t, St.StoreNext(q, p.o), Filling(St.StoredNext(p.o)));
    } else if op.PublishHead? {
      PublishIsOwnStep(q, p.o, s.job, t);
      OwnerUpdate(s, t, St.Publish(q, p.o), WakeRead(false));
    } else {
      FillingIsOwnStep(q, p, s.job, t, p.c);
      OwnerUpdate(s, t, St.Started(q, p.c), Filling(St.Start(q, p.c)));
    }
  }

  lemma TestingTouchesNoQueue(s: State, t: Tid, op: DeferOp)
    requires CanDefer(s, t, op) && !op.CallDefer? && Mapped(s.qs, t) && !Fills(s, t, op)
    ensures TouchesNoQueue(s, OnQueue(s, t, op), t)
  {
  }

  lemma DeferringKeepsQueues(s: State, t: Tid, op: DeferOp)
    requires QueueInv(s) && PlaceInv(s) && CanDefer(s, t, op)
    ensures QueueInv(ApplyDefer(s, t, op))
  {
    OwnQueueMapped(s, t);
    if op.CallDefer? {
      PcKeepsQueues(s, SetTh(s, t, LoadTail(op.c)), t);
    } else if Fills(s, t, op) {
      FillingKeepsQueues(s, t, op);
    } else {
      TestingTouchesNoQueue(s, t, op);
      PcKeepsQueues(s, OnQueue(s, t, op), t);
    }
  }

  lemma AddingKeepsQueues(s: State, t: Tid)
    requires QueueInv(s) && CanRegister(s, t, AddQueue)
    ensures QueueInv(ApplyRegister(s, t, AddQueue))
  {
    St.NewQueueInv();
    assert t !in s.qs;
  }

  lemma RegMapped(s: State)
    requires QueueInv(s) && PlaceInv(s)
    ensures forall u <- s.reg :: Mapped(s.qs, u)
  {
    forall u | u in s.reg
      ensures Mapped(s.qs, u)
    {
      assert PlaceOk(s.th[u], u in s.reg, s.busy == Some(u));
      assert QueueOk(s.qs[u], s.th[u], s.job, u);
    }
  }

  lemma TakenOk(q: St.Queue, k: Task, job: Job, t: Tid)
    requires QueueOk(q, WantLock(k), Free, t) && !job.Drain? && (k == Unregister ==> |q.ring| == SIZE)
    ensures QueueOk(q, Locked(k), job, t)
  {
  }

  lemma AnyJob(q: St.Queue, p: Pc, job: Job, job': Job, t: Tid)
    requires QueueOk(q, p, job, t) && !job.Drain? && !job'.Drain?
    ensures QueueOk(q, p, job', t)
  {
  }

  lemma TakingKeepsQueue(qs: map<Tid, St.Queue>, th: map<Tid, Pc>, reg: set<Tid>, reg': set<Tid>, t: Tid, job: Job)
    requires Queues(qs, th, Free, reg) && t in th && th[t].WantLock? && !job.Drain? && reg' <= reg
    requires th[t].k == Unregister ==> Mapped(qs, t)
    ensures Queues(qs, th[t := Locked(th[t].k)], job, reg')
  {
    forall u | u in qs
      ensures QueueOk(qs[u], th[t := Locked(th[t].k)][u], job, u)
    {
      if u == t {
        TakenOk(qs[t], th[t].k, job, t);
      } else {
        AnyJob(qs[u], th[u], Free, job, u);
      }
    }
  }

  /** Taking the mutex begins with the heads of the queues to be drained. */
  lemma TakingKeepsQueues(s: State, t: Tid)
    requires QueueInv(s) && PlaceInv(s) && LockInv(s) && CanLock(s, t, TakeMutex)
    ensures QueueInv(ApplyLock(s, t, TakeMutex))
  {
    RegMapped(s);
    assert PlaceOk(s.th[t], t in s.reg, s.busy == Some(t));
    var s' := ApplyLock(s, t, TakeMutex);
    TakingKeepsQueue(s.qs, s.th, s.reg, s'.reg, t, s'.job);
  }

  lemma WorkerKeepsQueues(s: State)
    requires QueueInv(s) && PlaceInv(s) && LockInv(s) && WorkerEnabled(s)
    ensures QueueInv(WorkerApply(s))
  {
    var s' := WorkerApply(s);
    if s.w == WantCount || s.w == WantBarrier {
      RegMapped(s);
      forall u | u in s.qs
        ensures u in s.th && QueueOk(s.qs[u], s.th[u], s'.job, u)
      {
        assert QueueOk(s.qs[u], s.th[u], s.job, u);
      }
    }
  }

  // The steps under the mutex.

  lemma SameQueues(s: State, job: Job)
    requires QueueInv(s) && !s.job.Drain? && !job.Drain?
    ensures Queues(s.qs, s.th, job, s.reg)
  {
    forall u | u in s.qs
      ensures QueueOk(s.qs[u], s.th[u], job, u)
    {
      assert QueueOk(s.qs[u], s.th[u], s.job, u);
    }
  }

  lemma HeadIsGoal(q: St.Queue, p: Pc, job: Job, u: Tid)
    requires QueueOk(q, p, job, u) && |q.ring| == SIZE && !job.Drain?
    ensures St.GoalOk(q, St.Goal(q.head, |q.calls|))
    ensures Minus(q.head, q.tail) == 0 ==> |q.ran| == |q.calls|
  {
    assert q.calls[..|q.calls|] == q.calls;
    St.TestIsExact(q);
  }

  lemma SnapKeepsGoals(qs: map<Tid, St.Queue>, job: Job, u: Tid, p: Pc)
    requires Goals(qs, job) && job.Snap? && u in job.left && Mapped(qs, u) && QueueOk(qs[u], p, job, u)
    ensures Goals(qs, Loaded(job, u, qs[u]))
  {
    HeadIsGoal(qs[u], p, job, u);
    forall v | v in Loaded(job, u, qs[u]).goal
      ensures v in qs && GoalAt(qs[v], Loaded(job, u, qs[u]), v)
    {
      if v != u {
        assert GoalAt(qs[v], job, v);
      }
    }
  }

  lemma SnapKeepsOwnGoals(qs: map<Tid, St.Queue>, th: map<Tid, Pc>, job: Job, u: Tid)
    requires OwnGoals(qs, th, job) && job.Snap? && u in job.left && Mapped(qs, u)
    ensures OwnGoals(qs, th, Loaded(job, u, qs[u]))
  {
    assert forall t :: OwnGoal(qs, job, t) ==> OwnGoal(qs, Loaded(job, u, qs[u]), t);
  }

  lemma SnapKeepsQueues(s: State, u: Tid)
    requires QueueInv(s) && s.job.Snap? && u in s.job.left
    ensures QueueInv(LoadHead(s, u))
  {
    assert Mapped(s.qs, u);
    SameQueues(s, Loaded(s.job, u, s.qs[u]));
    SnapKeepsGoals(s.qs, s.job, u, s.th[u]);
    SnapKeepsOwnGoals(s.qs, s.th, s.job, u);
  }

  /** A job that goes on with the same goals, having reached no more of them. */
  lemma SameGoals(qs: map<Tid, St.Queue>, job: Job, job': Job)
    requires Goals(qs, job) && JobShape(job') && GoalsOf(job') == GoalsOf(job)
    requires LeftOf(job') <= LeftOf(job) + GoalsOf(job).Keys
    requires forall u :: u in GoalsOf(job) && Reached(job', u) ==> Reached(job, u)
    ensures Goals(qs, job')
  {
    forall v | v in GoalsOf(job)
      ensures GoalAt(qs[v], job', v)
    {
      assert GoalAt(qs[v], job, v);
    }
  }

  predicate Waits(job: Job) {
    (job.Snap? && job.left == {}) || job.Sync? || job.InSync? || job.Count?
  }

  /** What the steps that do not look at the queues turn a job into. */
  function AfterWait(job: Job, u: Tid, items: nat): Job
    requires Waits(job)
  {
    match job
    case Snap(who, _, goal, _) => Sync(who, goal)
    case Sync(who, goal) => InSync(who, goal)
    case InSync(who, goal) => NextQueue(who, goal, goal.Keys)
    case Count(left, _) => if left == {} then Free else Count(left - {u}, items)
  }

  lemma WaitFrame(s: State, u: Tid) returns (items: nat)
    requires JobEnabled(s, u) && !Finishing(s.job) && Waits(s.job)
    requires s.job.Count? && s.job.left != {} ==> Mapped(s.qs, u)
    ensures var s' := JobApply(s, u);
            s'.job == AfterWait(s.job, u, items) && s'.qs == s.qs && s'.th == s.th && s'.reg == s.reg
  {
    items := 0;
    if s.job.Count? && s.job.left != {} {
      items := s.job.items + Minus(s.qs[u].head, s.qs[u].tail);
    }
  }

  lemma WaitKeepsQueues(s: State, u: Tid)
    requires QueueInv(s) && JobEnabled(s, u) && !Finishing(s.job) && Waits(s.job)
    ensures QueueInv(JobApply(s, u))
  {
    assert s.job.Count? && s.job.left != {} ==> Mapped(s.qs, u);
    var items := WaitFrame(s, u);
    var job' := AfterWait(s.job, u, items);
    SameQueues(s, job');
    SameGoals(s.qs, s.job, job');
    OwnGoalsGoOn(s, job');
  }

  lemma OwnGoalsGoOn(s: State, job: Job)
    requires OwnGoals(s.qs, s.th, s.job) && GoalsOf(job) == GoalsOf(s.job)
    requires !job.Snap? && (s.job.Snap? ==> s.job.left == {})
    ensures OwnGoals(s.qs, s.th, job)
  {
    assert forall t :: OwnGoal(s.qs, s.job, t) ==> OwnGoal(s.qs, job, t);
  }

  lemma BeginDrainKeepsQueue(qs: map<Tid, St.Queue>, th: map<Tid, Pc>, job: Job, reg: set<Tid>, u: Tid)
    requires Queues(qs, th, job, reg) && Goals(qs, job) && job.NextQueue? && u in job.left
    ensures Mapped(qs, u) && Queues(qs, th, Beginning(job, u, qs[u].tail), reg)
  {
    forall v | v in qs
      ensures QueueOk(qs[v], th[v], Beginning(job, u, qs[u].tail), v)
    {
      assert QueueOk(qs[v], th[v], job, v);
      if v == u {
        assert GoalAt(qs[u], job, u);
        St.BeginDrain(qs[u], OwnerOf(th[u]), |qs[u].ran|, job.goal[u]);
      }
    }
  }

  lemma BeginDrainKeepsGoals(qs: map<Tid, St.Queue>, job: Job, u: Tid, tail: Word)
    requires Goals(qs, job) && job.NextQueue? && u in job.left
    ensures Goals(qs, Beginning(job, u, tail))
  {
    SameGoals(qs, job, Beginning(job, u, tail));
  }

  lemma BeginDrainKeepsQueues(s: State, u: Tid)
    requires QueueInv(s) && s.job.NextQueue? && u in s.job.left
    ensures QueueInv(BeginDrain(s, u))
  {
    BeginDrainKeepsQueue(s.qs, s.th, s.job, s.reg, u);
    BeginDrainKeepsGoals(s.qs, s.job, u, s.qs[u].tail);
    OwnGoalsGoOn(s, Beginning(s.job, u, s.qs[u].tail));
  }

  /** What a step of the drain loop turns the job into. */
  predicate DrainMove(job: Job, job': Job) {
    && job.Drain?
    && ((job'.Drain? && job' == job.(d := job'.d) && job'.d.At?)
        || job' == NextQueue(job.who, job.goal, job.left))
  }

  /** The queue being drained, before and after a step. */
  ghost predicate DrainedOk(q: St.Queue, q': St.Queue, p: Pc, job: Job, job': Job)
    requires job.Drain? && job.t in job.goal
  {
    && DrainMove(job, job') && QueueOk(q', p, job', job.t) && |q'.ring| == SIZE
    && St.GoalOk(q', job.goal[job.t]) && (job'.NextQueue? ==> |q'.ran| == job.goal[job.t].n)
    && q'.calls == q.calls && q'.head == q.head && (q.head == q.tail ==> q'.tail == q.tail)
    && (q'.ran == q.ran
        || (|q.ran| < job.goal[job.t].n <= |q.calls| && q'.ran == q.ran + [q.calls[|q.ran|]]))
  }

  lemma DrainStep(q: St.Queue, p: Pc, job: Job)
    requires job.Drain? && job.d.At? && QueueOk(q, p, job, job.t) && job.t in job.goal && GoalAt(q, job, job.t)
    ensures var goal := job.goal[job.t].head;
            DrainedOk(q, St.Drained(q, job.d, goal), p, job, DrainedJob(job, St.DrainedTo(q, job.d, goal)))
  {
    St.DrainKeepsInv(q, OwnerOf(p), job.d, job.goal[job.t]);
  }

  lemma DrainKeepsQueue(qs: map<Tid, St.Queue>, th: map<Tid, Pc>, job: Job, job': Job, reg: set<Tid>,
                        q': St.Queue)
    requires Queues(qs, th, job, reg) && DrainMove(job, job') && job.t in qs
    requires QueueOk(q', th[job.t], job', job.t)
    ensures Queues(qs[job.t := q'], th, job', reg)
  {
    forall v | v in qs && v != job.t
      ensures QueueOk(qs[v], th[v], job', v)
    {
      assert QueueOk(qs[v], th[v], job, v);
    }
  }

  lemma DrainKeepsGoals(qs: map<Tid, St.Queue>, job: Job, job': Job, q': St.Queue)
    requires Goals(qs, job) && DrainMove(job, job') && job.t in qs && job.t in job.goal
    requires |q'.ring| == SIZE && St.GoalOk(q', job.goal[job.t])
    requires job'.NextQueue? ==> |q'.ran| == job.goal[job.t].n
    ensures Goals(qs[job.t := q'], job')
  {
    forall v | v in GoalsOf(job)
      ensures GoalAt(qs[job.t := q'][v], job', v)
    {
      assert GoalAt(qs[v], job, v);
    }
  }

  lemma DrainKeepsOwnGoals(qs: map<Tid, St.Queue>, th: map<Tid, Pc>, job: Job, job': Job, q': St.Queue)
    requires OwnGoals(qs, th, job) && DrainMove(job, job') && job.t in qs && q'.calls == qs[job.t].calls
    ensures OwnGoals(qs[job.t := q'], th, job')
  {
    assert forall v :: OwnGoal(qs, job, v) ==> OwnGoal(qs[job.t := q'], job', v);
  }

  lemma DrainKeepsQueues(s: State)
    requires QueueInv(s) && s.job.Drain?
    ensures QueueInv(DrainOnce(s))
  {
    var t := s.job.t;
    assert GoalAt(s.qs[t], s.job, t) && QueueOk(s.qs[t], s.th[t], s.job, t);
    DrainStep(s.qs[t], s.th[t], s.job);
    var s' := DrainOnce(s);
    DrainKeepsQueue(s.qs, s.th, s.job, s'.job, s.reg, s'.qs[t]);
    DrainKeepsGoals(s.qs, s.job, s'.job, s'.qs[t]);
    DrainKeepsOwnGoals(s.qs, s.th, s.job, s'.job, s'.qs[t]);
  }

  // Unlocking.

  /** What is true of the thread that held the mutex. */
  lemma Reaches(s: State, t: Tid)
    requires QueueInv(s) && LockInv(s) && Finishing(s.job) && s.job.who == Thread(t)
    ensures t in s.th && s.th[t].Locked?
    ensures !s.th[t].k.Barrier? ==>
              t in s.qs && |s.qs[t].ring| == SIZE && s.qs[t].ran == s.qs[t].calls && s.qs[t].head == s.qs[t].tail
  {
    if !s.th[t].k.Barrier? {
      assert OwnGoal(s.qs, s.job, t);
      var q := s.qs[t];
      assert GoalAt(q, s.job, t) && QueueOk(q, s.th[t], s.job, t);
      St.TestIsExact(q);
      assert q.calls[..|q.calls|] == q.calls;
    }
  }

  lemma ReleasedOk(q: St.Queue, p: Pc, job: Job, t: Tid, reg: set<Tid>)
    requires QueueOk(q, p, job, t) && p.Locked? && BackOk(p) && !job.Drain?
    requires !p.k.Barrier? ==> |q.ring| == SIZE && q.ran == q.calls && q.head == q.tail
    ensures QueueOk(Released(q, p), Unlocked(p, reg), Free, t)
  {
  }

  lemma NobodyLocked(s: State, t: Tid, p: Pc, qs: map<Tid, St.Queue>)
    requires LockInv(s) && IsThread(Holder(s.job), t) && !p.Locked?
    ensures OwnGoals(qs, s.th[t := p], Free)
  {
  }

  lemma UnlockKeepsQueues(qs: map<Tid, St.Queue>, th: map<Tid, Pc>, job: Job, reg: set<Tid>, t: Tid)
    requires Queues(qs, th, job, reg) && !job.Drain? && t in th && th[t].Locked? && BackOk(th[t])
    requires !th[t].k.Barrier? ==>
               t in qs && |qs[t].ring| == SIZE && qs[t].ran == qs[t].calls && qs[t].head == qs[t].tail
    ensures var th' := th[t := Unlocked(th[t], reg)];
            Queues(if t in qs then qs[t := Released(qs[t], th[t])] else qs, th', Free, reg)
  {
    if t in qs {
      ReleasedOk(qs[t], th[t], job, t, reg);
    }
    forall u | u in qs && u != t
      ensures QueueOk(qs[u], th[u], Free, u)
    {
      assert QueueOk(qs[u], th[u], job, u);
    }
  }

  lemma ThreadFinishKeepsQueues(s: State, t: Tid)
    requires QueueInv(s) && PlaceInv(s) && LockInv(s) && Finishing(s.job) && s.job.who == Thread(t)
    ensures QueueInv(Finish(s, s.job.who))
  {
    Reaches(s, t);
    assert PlaceOk(s.th[t], t in s.reg, s.busy == Some(t));
    UnlockKeepsQueues(s.qs, s.th, s.job, s.reg, t);
    var p' := Unlocked(s.th[t], s.reg);
    var qs' := if t in s.qs then s.qs[t := Released(s.qs[t], s.th[t])] else s.qs;
    NobodyLocked(s, t, p', qs');
    assert Finish(s, s.job.who) == s.(job := Free, th := s.th[t := p'], qs := qs');
  }

  lemma FinishKeepsQueues(s: State)
    requires QueueInv(s) && PlaceInv(s) && LockInv(s) && Finishing(s.job)
    ensures QueueInv(Finish(s, s.job.who))
  {
    if s.job.who.Thread? {
      ThreadFinishKeepsQueues(s, s.job.who.t);
    } else {
      SameQueues(s, Free);
    }
  }

  lemma JobKeepsQueues(s: State, u: Tid)
    requires QueueInv(s) && PlaceInv(s) && LockInv(s) && JobEnabled(s, u)
    ensures QueueInv(JobApply(s, u))
  {
    if Finishing(s.job) {
      FinishKeepsQueues(s);
    } else if Waits(s.job) {
      WaitKeepsQueues(s, u);
    } else if s.job.Snap? {
      SnapKeepsQueues(s, u);
    } else if s.job.NextQueue? {
      BeginDrainKeepsQueues(s, u);
    } else {
      DrainKeepsQueues(s);
    }
  }

  lemma StepKeepsQueues(s: State, a: Action)
    requires QueueInv(s) && PlaceInv(s) && LockInv(s) && Enabled(s, a)
    ensures QueueInv(Apply(s, a))
  {
    match a
    case RegisterStep(t, op) => RegisteringKeepsQueues(s, t, op);
    case UnregisterStep(t, op) => UnregisteringKeepsQueues(s, t, op);
    case DeferStep(t, op) => DeferringKeepsQueues(s, t, op);
    case WakeStep(t, op) => WakingKeepsQueues(s, t, op);
    case LockStep(t, op) => LockingKeepsQueues(s, t, op);
    case JobStep(v) => JobKeepsQueues(s, v);
    case WorkerStep => WorkerKeepsQueues(s);
    case _ =>
  }
}
