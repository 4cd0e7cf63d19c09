/**
 What urcu-defer-impl.h promises over whole runs: no assertion fails, calls run once
 and in order after a grace period, a barrier completes what was published before
 it, and no wake-up is lost.
 */
module DeferDelivery {
  import opened DeferRing
  import GP = GracePeriod
  import St = DeferStore
  import opened DeferProtocol
  import opened DeferPlaces
  import opened DeferGoals
  import opened DeferWakeup

  ghost predicate Inv(s: State) {
    PlaceInv(s) && LockInv(s) && RunInv(s) && QueueInv(s) && WakeInv(s) && !s.fault
  }

  lemma TestNeverFails(q: St.Queue, p: Pc, job: Job, t: Tid)
    requires QueueOk(q, p, job, t) && InReg(p)
    ensures Minus(q.head, q.tail) <= SIZE && (p.Flushed? ==> Minus(q.head, q.tail) == 0)
  {
    St.TestIsExact(q);
  }

  /** The assertions of defer_rcu: the queue is never overfull when it is tested, and
      it is empty after a flush; and no word is stored in a freed queue. */
  lemma DeferringNeverFails(s: State, t: Tid, op: DeferOp)
    requires PlaceInv(s) && QueueInv(s) && CanDefer(s, t, op)
    ensures ApplyDefer(s, t, op).fault == s.fault
  {
    OwnQueueMapped(s, t);
    if op == TestRoom || op == StartFilling {
      assert QueueOk(s.qs[t], s.th[t], s.job, t);
      TestNeverFails(s.qs[t], s.th[t], s.job, t);
    }
  }

  /** The defer thread is started only when none runs. */
  lemma RegisteringNeverFails(s: State, t: Tid, op: RegisterOp)
    requires PlaceInv(s) && RunInv(s) && CanRegister(s, t, op)
    ensures ApplyRegister(s, t, op).fault == s.fault
  {
    assert PlaceOk(s.th[t], t in s.reg, s.busy == Some(t));
  }

  /** When the defer thread has been joined the futex is 0. */
  lemma UnregisteringNeverFails(s: State, t: Tid, op: UnregisterOp)
    requires RunInv(s) && CanUnregister(s, t, op)
    ensures ApplyUnregister(s, t, op).fault == s.fault
  {
  }

  /** No freed queue is touched under the mutex. */
  lemma JobNeverFails(s: State, u: Tid)
    requires QueueInv(s) && JobEnabled(s, u)
    ensures JobApply(s, u).fault == s.fault
  {
    if s.job.Drain? {
      assert GoalAt(s.qs[s.job.t], s.job, s.job.t);
    }
  }

  lemma OthersNeverFail(s: State, a: Action)
    requires Enabled(s, a) && !a.RegisterStep? && !a.UnregisterStep? && !a.DeferStep? && !a.JobStep?
    ensures Apply(s, a).fault == s.fault
  {
  }

  lemma StepNeverFails(s: State, a: Action)
    requires PlaceInv(s) && RunInv(s) && QueueInv(s) && Enabled(s, a)
    ensures Apply(s, a).fault == s.fault
  {
    match a
    case RegisterStep(t, op) => RegisteringNeverFails(s, t, op);
    case UnregisterStep(t, op) => UnregisteringNeverFails(s, t, op);
    case DeferStep(t, op) => DeferringNeverFails(s, t, op);
    case JobStep(v) => JobNeverFails(s, v);
    case _ => OthersNeverFail(s, a);
  }

  lemma StepKeepsInv(s: State, a: Action)
    requires Inv(s) && Enabled(s, a)
    ensures Inv(Apply(s, a))
  {
    StepKeepsPlace(s, a);
    StepKeepsLock(s, a);
    StepKeepsRun(s, a);
    StepKeepsQueues(s, a);
    StepKeepsWake(s, a);
    StepNeverFails(s, a);
  }

  lemma StepAtKeepsInv(tr: seq<State>, i: nat)
    requires i + 1 < |tr| && StepAt(tr, i) && Inv(tr[i])
    ensures Inv(tr[i + 1])
  {
    var a :| Enabled(tr[i], a) && tr[i + 1] == Apply(tr[i], a);
    StepKeepsInv(tr[i], a);
  }

  lemma InitGivesPlaces(s: State)
    requires Init(s)
    ensures PlaceInv(s) && LockInv(s) && RunInv(s)
  {
    forall t | t in s.th
      ensures PlaceOk(s.th[t], false, false) && !s.th[t].Locked?
    {
      assert s.th[t] == New || s.th[t] == Out;
    }
    assert Holder(s.job) == None && BusyPc(s) == New;
  }

  lemma InitGivesQueues(s: State)
    requires Init(s)
    ensures QueueInv(s) && WakeInv(s)
  {
    assert GoalsOf(s.job) == map[] && LeftOf(s.job) == {};
    assert forall t <- s.th :: !s.th[t].Locked?;
  }

  lemma InitGivesInv(s: State)
    requires Init(s)
    ensures Inv(s)
  {
    InitGivesPlaces(s);
    InitGivesQueues(s);
  }

  lemma {:induction false} RunKeepsInv(tr: seq<State>, k: nat)
    requires Run(tr) && k < |tr|
    ensures Inv(tr[k])
  {
    InitGivesInv(tr[0]);
    for i := 0 to k
      invariant Inv(tr[i])
    {
      StepAtKeepsInv(tr, i);
    }
  }

  /** Every assertion of the source holds whenever it is reached: the ring is never
      overfull, a flush empties it, the thread is never started twice, the futex is 0
      once the thread has been joined; and no freed queue is touched. */
  lemma NothingFails(tr: seq<State>, k: nat)
    requires Run(tr) && k < |tr|
    ensures !tr[k].fault
  {
    RunKeepsInv(tr, k);
  }

  /** Delivery in every reachable state: the calls of a thread that ran are exactly the
      first ones it published, each once and in its order; and once it has
      unregistered, all of them. */
  lemma DeliveredInOrder(tr: seq<State>, k: nat, t: Tid)
    requires Run(tr) && k < |tr| && t in tr[k].qs
    ensures t in tr[k].th && tr[k].qs[t].ran <= tr[k].qs[t].calls
    ensures !InReg(tr[k].th[t]) && !tr[k].th[t].Locked? ==> tr[k].qs[t].ran == tr[k].qs[t].calls
  {
    RunKeepsInv(tr, k);
    assert QueueOk(tr[k].qs[t], tr[k].th[t], tr[k].job, t);
  }

  /** No lost wakeup: whenever the defer thread sleeps although a registered queue
      holds calls that have not run, or stop is set, some thread has not finished
      waking it. */
  lemma NoLostWakeup(tr: seq<State>, k: nat)
    requires Run(tr) && k < |tr| && tr[k].w.Asleep?
    requires tr[k].stop || exists u <- tr[k].reg :: u in tr[k].qs && tr[k].qs[u].ran != tr[k].qs[u].calls
    ensures exists t <- tr[k].th :: WillLook(tr[k].th[t]) || tr[k].th[t].WakeCall?
  {
    RunKeepsInv(tr, k);
    var s := tr[k];
    if !s.stop {
      var u :| u in s.reg && u in s.qs && s.qs[u].ran != s.qs[u].calls;
      RegMapped(s);
      assert QueueOk(s.qs[u], s.th[u], s.job, u);
      NotRunMeansQueued(s.qs[u]);
      assert Queued(s.qs, s.reg, {});
    }
  }

  lemma NotRunMeansQueued(q: St.Queue)
    requires St.Shape(q) && St.Encoded(q) && q.ran != q.calls
    ensures q.head != q.tail
  {
    St.TestIsExact(q);
    assert q.calls[..|q.calls|] == q.calls;
  }

  // What a queue keeps over time.

  /** A queue only ever gains calls at its end, runs them in order, and is never
      replaced: `b` are the queues `a` some steps later. */
  ghost predicate Grown(a: map<Tid, St.Queue>, b: map<Tid, St.Queue>, t: Tid) {
    t in a ==> t in b && a[t].calls <= b[t].calls && a[t].ran <= b[t].ran
  }

  lemma DrainGrows(s: State, t: Tid)
    requires QueueInv(s) && s.job.Drain?
    ensures Grown(s.qs, DrainOnce(s).qs, t)
    ensures t in s.qs ==> DrainOnce(s).qs[t].calls == s.qs[t].calls
    ensures t in s.qs && DrainOnce(s).qs[t].ran != s.qs[t].ran ==>
              t == s.job.t && |DrainOnce(s).qs[t].ran| <= s.job.goal[t].n
  {
    var u := s.job.t;
    assert GoalAt(s.qs[u], s.job, u) && QueueOk(s.qs[u], s.th[u], s.job, u);
    DrainStep(s.qs[u], s.th[u], s.job);
  }

  lemma RegisteringGrows(s: State, t: Tid, op: RegisterOp, u: Tid)
    requires QueueInv(s) && CanRegister(s, t, op)
    ensures Grown(s.qs, ApplyRegister(s, t, op).qs, u)
    ensures u in ApplyRegister(s, t, op).qs ==>
              ApplyRegister(s, t, op).qs[u].ran == if u in s.qs then s.qs[u].ran else []
  {
    if op == AddQueue {
      assert t !in s.qs;
    }
  }

  lemma DeferringGrows(s: State, t: Tid, op: DeferOp, u: Tid)
    requires CanDefer(s, t, op)
    ensures Grown(s.qs, ApplyDefer(s, t, op).qs, u) && ApplyDefer(s, t, op).qs.Keys == s.qs.Keys
    ensures u in s.qs ==> ApplyDefer(s, t, op).qs[u].ran == s.qs[u].ran
  {
  }

  lemma FinishGrows(s: State, t: Tid)
    requires Finishing(s.job)
    ensures Grown(s.qs, Finish(s, s.job.who).qs, t)
    ensures t in s.qs ==> Finish(s, s.job.who).qs[t].ran == s.qs[t].ran
  {
  }

  lemma JobGrows(s: State, u: Tid, t: Tid)
    requires QueueInv(s) && JobEnabled(s, u)
    ensures Grown(s.qs, JobApply(s, u).qs, t)
    ensures t in s.qs && JobApply(s, u).qs[t].ran != s.qs[t].ran ==>
              s.job.Drain? && t == s.job.t && |JobApply(s, u).qs[t].ran| <= s.job.goal[t].n
  {
    if s.job.Drain? {
      DrainGrows(s, t);
    } else if Finishing(s.job) {
      FinishGrows(s, t);
    } else {
      OtherJobsTouchNoQueue(s, u);
    }
  }

  /** The steps that touch no queue at all. */
  lemma OthersTouchNoQueue(s: State, a: Action)
    requires Enabled(s, a) && !a.RegisterStep? && !a.DeferStep? && !a.JobStep?
    ensures Apply(s, a).qs == s.qs
  {
  }

  lemma StepGrows(s: State, a: Action, t: Tid)
    requires QueueInv(s) && Enabled(s, a)
    ensures Grown(s.qs, Apply(s, a).qs, t)
  {
    match a
    case RegisterStep(u, op) => RegisteringGrows(s, u, op, t);
    case DeferStep(u, op) => DeferringGrows(s, u, op, t);
    case JobStep(v) => JobGrows(s, v, t);
    case _ => OthersTouchNoQueue(s, a);
  }

  lemma StepAtGrows(tr: seq<State>, m: nat, t: Tid)
    requires Run(tr) && m + 1 < |tr|
    ensures Grown(tr[m].qs, tr[m + 1].qs, t)
  {
    RunKeepsInv(tr, m);
    assert StepAt(tr, m);
    var a :| Enabled(tr[m], a) && tr[m + 1] == Apply(tr[m], a);
    StepGrows(tr[m], a, t);
  }

  lemma {:induction false} RunGrows(tr: seq<State>, i: nat, j: nat, t: Tid)
    requires Run(tr) && i <= j < |tr|
    ensures Grown(tr[i].qs, tr[j].qs, t)
  {
    for m := i to j
      invariant Grown(tr[i].qs, tr[m].qs, t)
    {
      StepAtGrows(tr, m, t);
    }
  }

  // rcu_defer_barrier.

  /** The job still has to load the head of `u`, or has done so since `n` calls had
      been published. */
  predicate Covers(job: Job, u: Tid, n: nat) {
    match job
    case Snap(_, left, goal, _) => u in left || (u in goal && goal[u].n >= n)
    case Free => false
    case Count(_, _) => false
    case _ => u in job.goal && job.goal[u].n >= n
  }

  /** What the steps under the mutex make of the job, but for waiting and unlocking. */
  lemma LoadKeepsCovering(s: State, v: Tid, u: Tid, n: nat)
    requires s.job.Snap? && v in s.job.left && Covers(s.job, u, n) && u in s.qs && |s.qs[u].calls| >= n
    ensures Covers(LoadHead(s, v).job, u, n)
  {
  }

  lemma DrainKeepsCovering(s: State, v: Tid, u: Tid, n: nat)
    requires Covers(s.job, u, n)
    ensures s.job.NextQueue? ==> Covers(BeginDrain(s, v).job, u, n)
    ensures s.job.Drain? && s.job.t in s.job.goal && s.job.d.At? ==> Covers(DrainOnce(s).job, u, n)
  {
  }

  lemma WaitKeepsCovering(s: State, v: Tid, u: Tid, n: nat)
    requires JobEnabled(s, v) && !Finishing(s.job) && Waits(s.job) && Covers(s.job, u, n)
    ensures Covers(JobApply(s, v).job, u, n)
  {
    var _ := WaitFrame(s, v);
  }

  lemma JobKeepsCovering(s: State, v: Tid, u: Tid, n: nat)
    requires JobEnabled(s, v) && !Finishing(s.job) && Covers(s.job, u, n) && u in s.qs && |s.qs[u].calls| >= n
    ensures Covers(JobApply(s, v).job, u, n)
  {
    if Waits(s.job) {
      WaitKeepsCovering(s, v, u, n);
    } else if s.job.Snap? {
      LoadKeepsCovering(s, v, u, n);
    } else {
      DrainKeepsCovering(s, v, u, n);
    }
  }

  lemma StepKeepsCovering(s: State, a: Action, u: Tid, n: nat)
    requires Enabled(s, a) && Covers(s.job, u, n) && u in s.qs && |s.qs[u].calls| >= n
    ensures Covers(Apply(s, a).job, u, n) || (a.JobStep? && Finishing(s.job))
  {
    match a
    case JobStep(v) =>
      if !Finishing(s.job) {
        JobKeepsCovering(s, v, u, n);
      }
    case _ =>
  }

  lemma AtTheEnd(s: State, u: Tid, n: nat)
    requires QueueInv(s) && Covers(s.job, u, n) && Finishing(s.job)
    ensures u in s.qs && |s.qs[u].ran| >= n
  {
    assert GoalAt(s.qs[u], s.job, u);
  }

  lemma StepAtKeepsCovering(tr: seq<State>, m: nat, u: Tid, n: nat)
    requires Run(tr) && m + 1 < |tr| && Covers(tr[m].job, u, n) && u in tr[m].qs && |tr[m].qs[u].calls| >= n
    ensures tr[m + 1].job != Free ==> Covers(tr[m + 1].job, u, n)
    ensures tr[m + 1].job == Free ==> |tr[m].qs[u].ran| >= n
  {
    RunKeepsInv(tr, m);
    assert StepAt(tr, m);
    var a :| Enabled(tr[m], a) && tr[m + 1] == Apply(tr[m], a);
    StepKeepsCovering(tr[m], a, u, n);
    if a.JobStep? && Finishing(tr[m].job) {
      AtTheEnd(tr[m], u, n);
      FinishUnlocks(tr[m], a.v);
    }
  }

  lemma FinishUnlocks(s: State, u: Tid)
    requires LockInv(s) && JobEnabled(s, u) && Finishing(s.job)
    ensures JobApply(s, u).job == Free
  {
  }

  lemma {:induction false} StaysCovered(tr: seq<State>, i: nat, j: nat, u: Tid)
    requires Run(tr) && i <= j < |tr| && u in tr[i].qs && Covers(tr[i].job, u, |tr[i].qs[u].calls|)
    requires forall m: nat :: i <= m <= j ==> tr[m].job != Free
    ensures Covers(tr[j].job, u, |tr[i].qs[u].calls|)
  {
    for m := i to j
      invariant Covers(tr[m].job, u, |tr[i].qs[u].calls|)
    {
      RunGrows(tr, i, m, u);
      StepAtKeepsCovering(tr, m, u, |tr[i].qs[u].calls|);
    }
  }

  /** A barrier keeps its word: when the holder of the mutex has still to load the head
      of `u` at state `i`, and unlocks at step `j`, every call `u` had published by
      state `i` has run. For rcu_defer_barrier this holds of every registered thread
      from the moment the mutex is taken, for a barrier over the caller's own queue of
      the caller. */
  lemma BarrierCompletes(tr: seq<State>, i: nat, j: nat, u: Tid)
    requires Run(tr) && i <= j && j + 1 < |tr|
    requires tr[i].job.Snap? && u in tr[i].job.left
    requires forall m: nat :: i <= m <= j ==> tr[m].job != Free
    requires tr[j + 1].job == Free
    ensures u in tr[i].qs && u in tr[j + 1].qs && tr[i].qs[u].calls <= tr[j + 1].qs[u].ran
  {
    LeftHasQueue(tr, i, u);
    StaysCovered(tr, i, j, u);
    RunGrows(tr, i, j, u);
    StepAtKeepsCovering(tr, j, u, |tr[i].qs[u].calls|);
    StepAtGrows(tr, j, u);
    EnoughRan(tr, i, j + 1, u);
  }

  lemma LeftHasQueue(tr: seq<State>, i: nat, u: Tid)
    requires Run(tr) && i < |tr| && u in LeftOf(tr[i].job)
    ensures u in tr[i].qs
  {
    RunKeepsInv(tr, i);
    assert Mapped(tr[i].qs, u);
  }

  lemma EnoughRan(tr: seq<State>, i: nat, k: nat, u: Tid)
    requires Run(tr) && i <= k < |tr| && u in tr[i].qs
    requires u in tr[k].qs && |tr[k].qs[u].ran| >= |tr[i].qs[u].calls|
    ensures tr[i].qs[u].calls <= tr[k].qs[u].ran
  {
    RunGrows(tr, i, k, u);
    DeliveredInOrder(tr, k, u);
  }

  /** Whoever takes the mutex for a barrier has every queue of its scope still to load:
      all registered ones for rcu_defer_barrier, as for the defer thread. */
  lemma BarrierBegins(s: State, t: Tid)
    requires CanLock(s, t, TakeMutex)
    ensures var job := ApplyLock(s, t, TakeMutex).job;
            job.Snap? && job.left == if s.th[t].k.Barrier? then s.reg else {t}
  {
  }

  // Calls and grace periods.

  /** While reader `r` stays inside a section, call `k` of thread `t`, published after
      it entered, never gets past a grace period. */
  ghost predicate HeldBack(s: State, t: Tid, k: nat, r: Tid) {
    (t in s.qs ==> |s.qs[t].ran| <= k) && GoalHeldBack(s.job, s.gp.awaited, t, k, r)
  }

  predicate GoalHeldBack(job: Job, awaited: set<Tid>, t: Tid, k: nat, r: Tid) {
    t in GoalsOf(job) && GoalsOf(job)[t].n > k ==>
      !job.NextQueue? && !job.Drain? && (job.InSync? ==> r in awaited)
  }

  /** Only a queue that is being drained, and only up to its goal, runs calls. */
  lemma StepRunsUpToGoal(s: State, a: Action, t: Tid, k: nat, r: Tid)
    requires QueueInv(s) && Enabled(s, a) && HeldBack(s, t, k, r) && t in Apply(s, a).qs
    ensures |Apply(s, a).qs[t].ran| <= k
  {
    match a
    case RegisterStep(u, op) => RegisteringGrows(s, u, op, t);
    case DeferStep(u, op) => DeferringGrows(s, u, op, t);
    case JobStep(v) => JobRunsUpToGoal(s, v, t, k, r);
    case _ => OthersTouchNoQueue(s, a);
  }

  lemma JobRunsUpToGoal(s: State, u: Tid, t: Tid, k: nat, r: Tid)
    requires QueueInv(s) && JobEnabled(s, u) && HeldBack(s, t, k, r) && t in JobApply(s, u).qs
    ensures |JobApply(s, u).qs[t].ran| <= k
  {
    JobGrows(s, u, t);
    JobAddsNoQueue(s, u);
  }

  lemma JobAddsNoQueue(s: State, u: Tid)
    requires JobEnabled(s, u)
    ensures JobApply(s, u).qs.Keys == s.qs.Keys
  {
  }

  lemma WaitKeepsGoalHeldBack(s: State, u: Tid, t: Tid, k: nat, r: Tid)
    requires JobEnabled(s, u) && Waits(s.job) && !Finishing(s.job) && r in s.gp.inside
    requires s.job.Count? && s.job.left != {} ==> Mapped(s.qs, u)
    requires GoalHeldBack(s.job, s.gp.awaited, t, k, r)
    ensures GoalHeldBack(JobApply(s, u).job, JobApply(s, u).gp.awaited, t, k, r)
  {
    var _ := WaitFrame(s, u);
  }

  lemma DrainKeepsGoalHeldBack(s: State, u: Tid, t: Tid, k: nat, r: Tid)
    requires GoalHeldBack(s.job, s.gp.awaited, t, k, r)
    ensures s.job.Snap? ==> GoalHeldBack(LoadHead(s, u).job, s.gp.awaited, t, k, r)
    ensures s.job.NextQueue? ==> GoalHeldBack(BeginDrain(s, u).job, s.gp.awaited, t, k, r)
    ensures s.job.Drain? && s.job.t in s.job.goal && s.job.d.At? ==>
              GoalHeldBack(DrainOnce(s).job, s.gp.awaited, t, k, r)
  {
  }

  lemma JobKeepsGoalHeldBack(s: State, u: Tid, t: Tid, k: nat, r: Tid)
    requires LockInv(s) && JobEnabled(s, u) && GoalHeldBack(s.job, s.gp.awaited, t, k, r) && r in s.gp.inside
    requires s.job.Count? && s.job.left != {} ==> Mapped(s.qs, u)
    ensures GoalHeldBack(JobApply(s, u).job, JobApply(s, u).gp.awaited, t, k, r)
  {
    if Finishing(s.job) {
      FinishUnlocks(s, u);
    } else if Waits(s.job) {
      WaitKeepsGoalHeldBack(s, u, t, k, r);
    } else {
      DrainKeepsGoalHeldBack(s, u, t, k, r);
    }
  }

  /** Whoever takes the mutex has no goal yet. */
  lemma LockingSetsNoGoal(s: State, t: Tid, op: LockOp)
    requires CanLock(s, t, op)
    ensures ApplyLock(s, t, op).gp == s.gp
    ensures ApplyLock(s, t, op).job == s.job || GoalsOf(ApplyLock(s, t, op).job) == map[]
  {
  }

  lemma WorkerSetsNoGoal(s: State)
    requires WorkerEnabled(s)
    ensures WorkerApply(s).gp == s.gp
    ensures WorkerApply(s).job == s.job || GoalsOf(WorkerApply(s).job) == map[]
  {
  }

  predicate Elsewhere(a: Action) { a.RegisterStep? || a.UnregisterStep? || a.DeferStep? || a.WakeStep? }

  lemma OthersKeepJob(s: State, a: Action)
    requires Enabled(s, a) && Elsewhere(a)
    ensures Apply(s, a).job == s.job
  {
  }

  lemma OthersKeepPeriod(s: State, a: Action)
    requires Enabled(s, a) && Elsewhere(a)
    ensures Apply(s, a).gp == s.gp
  {
  }

  lemma ReaderKeepsGoalHeldBack(s: State, a: Action, t: Tid, k: nat, r: Tid)
    requires Enabled(s, a) && (a.Reader? || a.OtherGracePeriod?) && GoalHeldBack(s.job, s.gp.awaited, t, k, r)
    requires r in GP.Apply(s.gp, a.e).inside
    ensures GoalHeldBack(s.job, GP.Apply(s.gp, a.e).awaited, t, k, r)
  {
  }

  lemma StepKeepsGoalHeldBack(s: State, a: Action, t: Tid, k: nat, r: Tid)
    requires LockInv(s) && QueueInv(s) && Enabled(s, a) && GoalHeldBack(s.job, s.gp.awaited, t, k, r)
    requires r in s.gp.inside && r in Apply(s, a).gp.inside
    ensures GoalHeldBack(Apply(s, a).job, Apply(s, a).gp.awaited, t, k, r)
  {
    match a
    case JobStep(u) => JobKeepsGoalHeldBack(s, u, t, k, r);
    case LockStep(u, op) => LockingSetsNoGoal(s, u, op);
    case WorkerStep => WorkerSetsNoGoal(s);
    case Reader(_) => ReaderKeepsGoalHeldBack(s, a, t, k, r);
    case OtherGracePeriod(_) => ReaderKeepsGoalHeldBack(s, a, t, k, r);
    case _ =>
      OthersKeepJob(s, a);
      OthersKeepPeriod(s, a);
  }

  lemma StepKeepsHeldBack(s: State, a: Action, t: Tid, k: nat, r: Tid)
    requires QueueInv(s) && LockInv(s) && Enabled(s, a) && HeldBack(s, t, k, r)
    requires r in s.gp.inside && r in Apply(s, a).gp.inside
    ensures HeldBack(Apply(s, a), t, k, r)
  {
    if t in Apply(s, a).qs {
      StepRunsUpToGoal(s, a, t, k, r);
    }
    StepKeepsGoalHeldBack(s, a, t, k, r);
  }

  lemma {:induction false} StaysHeldBack(tr: seq<State>, i: nat, j: nat, t: Tid, k: nat, r: Tid)
    requires Run(tr) && i <= j < |tr| && (t in tr[i].qs ==> |tr[i].qs[t].calls| <= k)
    requires forall m: nat :: i <= m <= j ==> r in tr[m].gp.inside
    ensures HeldBack(tr[j], t, k, r)
  {
    StartsHeldBack(tr, i, t, k, r);
    for m := i to j
      invariant HeldBack(tr[m], t, k, r)
    {
      StepAtKeepsHeldBack(tr, m, t, k, r);
    }
  }

  lemma StartsHeldBack(tr: seq<State>, i: nat, t: Tid, k: nat, r: Tid)
    requires Run(tr) && i < |tr| && (t in tr[i].qs ==> |tr[i].qs[t].calls| <= k)
    ensures HeldBack(tr[i], t, k, r)
  {
    RunKeepsInv(tr, i);
    var s := tr[i];
    if t in s.qs {
      assert QueueOk(s.qs[t], s.th[t], s.job, t);
    }
    if t in GoalsOf(s.job) {
      assert GoalAt(s.qs[t], s.job, t);
    }
  }

  lemma StepAtKeepsHeldBack(tr: seq<State>, m: nat, t: Tid, k: nat, r: Tid)
    requires Run(tr) && m + 1 < |tr| && HeldBack(tr[m], t, k, r)
    requires r in tr[m].gp.inside && r in tr[m + 1].gp.inside
    ensures HeldBack(tr[m + 1], t, k, r)
  {
    RunKeepsInv(tr, m);
    assert StepAt(tr, m);
    var a :| Enabled(tr[m], a) && tr[m + 1] == Apply(tr[m], a);
    StepKeepsHeldBack(tr[m], a, t, k, r);
  }

  /** The contract of defer_rcu over whole runs: a reader in a section when call `k` of
      a thread had not been published has left that section, at least for a moment,
      before the call runs, whoever runs it. */
  lemma CallAfterGracePeriod(tr: seq<State>, i: nat, j: nat, t: Tid, k: nat, r: Tid)
    requires Run(tr) && i <= j < |tr| && (t in tr[i].qs ==> |tr[i].qs[t].calls| <= k)
    requires t in tr[j].qs && |tr[j].qs[t].ran| > k
    ensures exists m: nat :: i <= m <= j && r !in tr[m].gp.inside
  {
    if forall m: nat :: i <= m <= j ==> r in tr[m].gp.inside {
      StaysHeldBack(tr, i, j, t, k, r);
    }
  }
}
