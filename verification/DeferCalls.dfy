/**
 The functions of urcu-defer-impl.h from call to return: what the caller may rely on
 when it goes on, and why every one of them gets to its end.
 */
module DeferCalls {
  import opened DeferCodec
  import opened DeferRing
  import St = DeferStore
  import opened DeferProtocol
  import opened DeferPlaces
  import opened DeferGoals
  import opened DeferDelivery

  ghost predicate Takes(tr: seq<State>, acts: seq<Action>, i: nat)
    requires i < |acts| && i + 1 < |tr|
  {
    Enabled(tr[i], acts[i]) && tr[i + 1] == Apply(tr[i], acts[i])
  }

  /** A run together with the actions that make it. */
  ghost predicate Follows(tr: seq<State>, acts: seq<Action>) {
    && |tr| == |acts| + 1
    && Init(tr[0])
    && forall i: nat :: i < |acts| ==> Takes(tr, acts, i)
  }

  lemma FollowsRuns(tr: seq<State>, acts: seq<Action>)
    requires Follows(tr, acts)
    ensures Run(tr)
  {
    forall i: nat | i + 1 < |tr|
      ensures StepAt(tr, i)
    {
      assert Takes(tr, acts, i);
    }
  }

  // Only the thread that takes a step moves, and whoever unlocks the mutex.

  predicate IsThreadStep(a: Action) {
    a.RegisterStep? || a.UnregisterStep? || a.DeferStep? || a.WakeStep? || a.LockStep?
  }

  predicate Moves(a: Action, t: Tid) { IsThreadStep(a) && a.t == t }

  lemma RegisteringMovesOne(s: State, u: Tid, op: RegisterOp)
    requires CanRegister(s, u, op)
    ensures var th' := ApplyRegister(s, u, op).th; u in th' && th' == s.th[u := th'[u]]
  {
  }

  lemma UnregisteringMovesOne(s: State, u: Tid, op: UnregisterOp)
    requires CanUnregister(s, u, op)
    ensures var th' := ApplyUnregister(s, u, op).th; u in th' && th' == s.th[u := th'[u]]
  {
  }

  lemma DeferringMovesOne(s: State, u: Tid, op: DeferOp)
    requires CanDefer(s, u, op)
    ensures var th' := ApplyDefer(s, u, op).th; u in th' && th' == s.th[u := th'[u]]
  {
  }

  lemma WakingMovesOne(s: State, u: Tid, op: WakeOp)
    requires CanWake(s, u, op)
    ensures var th' := ApplyWake(s, u, op).th; u in th' && th' == s.th[u := th'[u]]
  {
  }

  lemma LockingMovesOne(s: State, u: Tid, op: LockOp)
    requires CanLock(s, u, op)
    ensures var th' := ApplyLock(s, u, op).th; u in th' && th' == s.th[u := th'[u]]
  {
  }

  lemma OthersStay(s: State, a: Action, t: Tid)
    requires Enabled(s, a) && t in s.th && !Moves(a, t)
    ensures t in Apply(s, a).th
    ensures Apply(s, a).th[t] == s.th[t] || (a.JobStep? && Finishing(s.job) && s.job.who == Thread(t))
  {
    match a
    case RegisterStep(u, op) => RegisteringMovesOne(s, u, op);
    case UnregisterStep(u, op) => UnregisteringMovesOne(s, u, op);
    case DeferStep(u, op) => DeferringMovesOne(s, u, op);
    case WakeStep(u, op) => WakingMovesOne(s, u, op);
    case LockStep(u, op) => LockingMovesOne(s, u, op);
    case JobStep(v) =>
      if !Finishing(s.job) {
        JobFrame(s, v);
      }
    case _ =>
  }

  lemma StepKeepsThreads(s: State, a: Action)
    requires Enabled(s, a)
    ensures s.th.Keys <= Apply(s, a).th.Keys
  {
    forall t | t in s.th
      ensures t in Apply(s, a).th
    {
      if Moves(a, t) {
        MoverStays(s, a);
      } else {
        OthersStay(s, a, t);
      }
    }
  }

  lemma MoverStays(s: State, a: Action)
    requires Enabled(s, a) && IsThreadStep(a)
    ensures a.t in Apply(s, a).th
  {
    match a
    case RegisterStep(u, op) => RegisteringMovesOne(s, u, op);
    case UnregisterStep(u, op) => UnregisteringMovesOne(s, u, op);
    case DeferStep(u, op) => DeferringMovesOne(s, u, op);
    case WakeStep(u, op) => WakingMovesOne(s, u, op);
    case LockStep(u, op) => LockingMovesOne(s, u, op);
  }

  // --------------------------------------------------------------- defer_rcu

  function DeferredAt(a: Action, t: Tid): seq<Call> {
    if a.DeferStep? && a.t == t && a.d.CallDefer? then [a.d.c] else []
  }

  /** The calls a thread has passed to defer_rcu in the first `k` steps. */
  function Deferred(acts: seq<Action>, k: nat, t: Tid): seq<Call>
    requires k <= |acts|
  {
    if k == 0 then [] else Deferred(acts, k - 1, t) + DeferredAt(acts[k - 1], t)
  }

  /** The call a thread inside defer_rcu has not published yet. */
  function InFlight(p: Pc): seq<Call> {
    match p
    case LoadTail(c) => [c]
    case Flushed(c) => [c]
    case Filling(o) => if o.Storing? then [o.c] else []
    case WantLock(k) => if k.Flush? then [k.c] else []
    case Locked(k) => if k.Flush? then [k.c] else []
    case _ => []
  }

  function CallsOf(s: State, t: Tid): seq<Call> { if t in s.qs then s.qs[t].calls else [] }

  /** What a thread has published and is about to. */
  function Account(s: State, t: Tid): seq<Call>
    requires t in s.th
  {
    CallsOf(s, t) + InFlight(s.th[t])
  }

  /** One thread moves and at most its own queue changes. */
  lemma OneAccounts(s: State, s': State, u: Tid, t: Tid)
    requires u in s.th && u in s'.th && t in s.th
    requires s'.th == s.th[u := s'.th[u]] && (forall v <- s.qs :: v != u ==> v in s'.qs && s'.qs[v] == s.qs[v])
    requires s'.qs.Keys == s.qs.Keys
    ensures t in s'.th && (t != u ==> Account(s', t) == Account(s, t))
  {
  }

  lemma FillingAccounts(s: State, u: Tid, op: DeferOp, t: Tid)
    requires CanDefer(s, u, op) && !op.CallDefer? && Mapped(s.qs, u) && t in s.th
    ensures t in OnQueue(s, u, op).th && Account(OnQueue(s, u, op), t) == Account(s, t)
  {
    if t == u {
      FillingKeepsHand(s, u, op);
    } else {
      OneAccounts(s, OnQueue(s, u, op), u, t);
    }
  }

  lemma FillingKeepsHand(s: State, u: Tid, op: DeferOp)
    requires CanDefer(s, u, op) && !op.CallDefer? && Mapped(s.qs, u)
    ensures var s' := OnQueue(s, u, op);
            && u in s'.th && u in s'.qs
            && s'.qs[u].calls + InFlight(s'.th[u]) == s.qs[u].calls + InFlight(s.th[u])
  {
  }

  lemma CallingAccounts(s: State, u: Tid, c: Call, t: Tid)
    requires CanDefer(s, u, CallDefer(c)) && t in s.th
    ensures var s' := ApplyDefer(s, u, CallDefer(c));
            t in s'.th && Account(s', t) == Account(s, t) + if t == u then [c] else []
  {
    OneAccounts(s, ApplyDefer(s, u, CallDefer(c)), u, t);
  }

  lemma DeferringAccounts(s: State, u: Tid, op: DeferOp, t: Tid)
    requires PlaceInv(s) && QueueInv(s) && CanDefer(s, u, op) && t in s.th
    ensures t in ApplyDefer(s, u, op).th
    ensures Account(ApplyDefer(s, u, op), t) == Account(s, t) + DeferredAt(DeferStep(u, op), t)
  {
    if op.CallDefer? {
      CallingAccounts(s, u, op.c, t);
    } else {
      OwnQueueMapped(s, u);
      FillingAccounts(s, u, op, t);
    }
  }

  lemma UnlockingKeepsHand(p: Pc, reg: set<Tid>)
    requires BackOk(p)
    ensures InFlight(Unlocked(p, reg)) == InFlight(p)
  {
  }

  lemma FinishAccounts(s: State, t: Tid)
    requires PlaceInv(s) && Finishing(s.job) && t in s.th
    ensures t in Finish(s, s.job.who).th && Account(Finish(s, s.job.who), t) == Account(s, t)
  {
    if s.job.who.Thread? && s.job.who.t in s.th {
      var u, s' := s.job.who.t, Finish(s, s.job.who);
      assert PlaceOk(s.th[u], u in s.reg, s.busy == Some(u));
      UnlockingKeepsHand(s.th[u], s.reg);
      OneAccounts(s, s', u, t);
      assert u in s.qs ==> s'.qs[u].calls == s.qs[u].calls;
    }
  }

  lemma JobKeepsCalls(s: State, v: Tid, t: Tid)
    requires QueueInv(s) && JobEnabled(s, v) && !Finishing(s.job)
    ensures CallsOf(JobApply(s, v), t) == CallsOf(s, t)
  {
    JobAddsNoQueue(s, v);
    if s.job.Drain? {
      DrainGrows(s, t);
    } else {
      OtherJobsTouchNoQueue(s, v);
    }
  }

  lemma JobAccounts(s: State, v: Tid, t: Tid)
    requires PlaceInv(s) && QueueInv(s) && JobEnabled(s, v) && t in s.th
    ensures t in JobApply(s, v).th && Account(JobApply(s, v), t) == Account(s, t)
  {
    if Finishing(s.job) {
      FinishAccounts(s, t);
    } else {
      JobFrame(s, v);
      JobKeepsCalls(s, v, t);
    }
  }

  lemma AddingAccounts(s: State, u: Tid, t: Tid)
    requires CanRegister(s, u, AddQueue) && u !in s.qs && t in s.th
    ensures t in ApplyRegister(s, u, AddQueue).th && Account(ApplyRegister(s, u, AddQueue), t) == Account(s, t)
  {
  }

  lemma RegisteringAccounts(s: State, u: Tid, op: RegisterOp, t: Tid)
    requires QueueInv(s) && CanRegister(s, u, op) && t in s.th
    ensures t in ApplyRegister(s, u, op).th && Account(ApplyRegister(s, u, op), t) == Account(s, t)
  {
    if op == AddQueue {
      AddingAccounts(s, u, t);
    } else {
      OneAccounts(s, ApplyRegister(s, u, op), u, t);
    }
  }

  lemma UnregisteringAccounts(s: State, u: Tid, op: UnregisterOp, t: Tid)
    requires CanUnregister(s, u, op) && t in s.th
    ensures t in ApplyUnregister(s, u, op).th && Account(ApplyUnregister(s, u, op), t) == Account(s, t)
  {
    OneAccounts(s, ApplyUnregister(s, u, op), u, t);
  }

  lemma WakingAccounts(s: State, u: Tid, op: WakeOp, t: Tid)
    requires CanWake(s, u, op) && t in s.th
    ensures t in ApplyWake(s, u, op).th && Account(ApplyWake(s, u, op), t) == Account(s, t)
  {
    OneAccounts(s, ApplyWake(s, u, op), u, t);
  }

  lemma LockingAccounts(s: State, u: Tid, op: LockOp, t: Tid)
    requires CanLock(s, u, op) && t in s.th
    ensures t in ApplyLock(s, u, op).th && Account(ApplyLock(s, u, op), t) == Account(s, t)
  {
    OneAccounts(s, ApplyLock(s, u, op), u, t);
  }

  lemma OthersAccount(s: State, a: Action)
    requires Enabled(s, a) && (a.WorkerStep? || a.Reader? || a.OtherGracePeriod?)
    ensures Apply(s, a).th == s.th && Apply(s, a).qs == s.qs
  {
  }

  lemma StepAccounts(s: State, a: Action, t: Tid)
    requires PlaceInv(s) && QueueInv(s) && Enabled(s, a) && t in s.th
    ensures t in Apply(s, a).th && Account(Apply(s, a), t) == Account(s, t) + DeferredAt(a, t)
  {
    match a
    case RegisterStep(u, op) => RegisteringAccounts(s, u, op, t);
    case DeferStep(u, op) => DeferringAccounts(s, u, op, t);
    case JobStep(v) => JobAccounts(s, v, t);
    case UnregisterStep(u, op) => UnregisteringAccounts(s, u, op, t);
    case WakeStep(u, op) => WakingAccounts(s, u, op, t);
    case LockStep(u, op) => LockingAccounts(s, u, op, t);
    case _ => OthersAccount(s, a);
  }

  lemma StepAtAccounts(tr: seq<State>, acts: seq<Action>, k: nat, t: Tid)
    requires Follows(tr, acts) && k + 1 < |tr| && t in tr[k].th
    ensures t in tr[k + 1].th && Account(tr[k + 1], t) == Account(tr[k], t) + DeferredAt(acts[k], t)
  {
    FollowsRuns(tr, acts);
    RunKeepsInv(tr, k);
    assert Takes(tr, acts, k);
    StepAccounts(tr[k], acts[k], t);
  }

  /** Every call passed to defer_rcu is published, in order and once, or about to be: in
      every reachable state the calls of a thread's queue, followed by the one its
      defer_rcu has in hand, are those it has passed to defer_rcu. */
  lemma {:induction false} CallsAreDeferred(tr: seq<State>, acts: seq<Action>, k: nat, t: Tid)
    requires Follows(tr, acts) && k < |tr| && t in tr[0].th
    ensures t in tr[k].th && Account(tr[k], t) == Deferred(acts, k, t)
  {
    if k == 0 {
      assert tr[0].th[t] == New || tr[0].th[t] == Out;
    } else {
      CallsAreDeferred(tr, acts, k - 1, t);
      StepAtAccounts(tr, acts, k - 1, t);
    }
  }

  /** defer_rcu from call to return: when the thread is outside it, everything it has
      passed to it is in its queue; and what has run is the first part of that. */
  lemma DeferReturns(tr: seq<State>, acts: seq<Action>, k: nat, t: Tid)
    requires Follows(tr, acts) && k < |tr| && t in tr[0].th
    ensures t in tr[k].th && (InFlight(tr[k].th[t]) == [] ==> CallsOf(tr[k], t) == Deferred(acts, k, t))
    ensures t in tr[k].qs ==> tr[k].qs[t].ran <= Deferred(acts, k, t)
  {
    CallsAreDeferred(tr, acts, k, t);
    FollowsRuns(tr, acts);
    if t in tr[k].qs {
      DeliveredInOrder(tr, k, t);
    }
  }

  // ---------------------------------------------------------------- barriers

  /** Whatever `u` had published at state `i` has run at state `k`. */
  ghost predicate HasRun(tr: seq<State>, i: nat, k: nat, u: Tid) {
    i <= k < |tr| && u in tr[i].qs && u in tr[k].qs && tr[i].qs[u].calls <= tr[k].qs[u].ran
  }

  /** It has run, or whoever holds the mutex will see to it. */
  ghost predicate InHand(tr: seq<State>, i: nat, k: nat, u: Tid) {
    HasRun(tr, i, k, u)
    || (i <= k < |tr| && u in tr[i].qs && Covers(tr[k].job, u, |tr[i].qs[u].calls|))
  }

  ghost predicate AllRun(tr: seq<State>, i: nat, k: nat, us: set<Tid>) {
    forall u <- us :: HasRun(tr, i, k, u)
  }

  ghost predicate AllInHand(tr: seq<State>, i: nat, k: nat, us: set<Tid>) {
    forall u <- us :: InHand(tr, i, k, u)
  }

  lemma RunStays(tr: seq<State>, i: nat, k: nat, u: Tid)
    requires Run(tr) && HasRun(tr, i, k, u) && k + 1 < |tr|
    ensures HasRun(tr, i, k + 1, u)
  {
    StepAtGrows(tr, k, u);
  }

  /** One step under the mutex: when it is unlocked, what was in hand has run. */
  lemma InHandStep(tr: seq<State>, i: nat, k: nat, u: Tid)
    requires Run(tr) && InHand(tr, i, k, u) && k + 1 < |tr|
    ensures if tr[k + 1].job == Free then HasRun(tr, i, k + 1, u) else InHand(tr, i, k + 1, u)
  {
    if HasRun(tr, i, k, u) {
      RunStays(tr, i, k, u);
    } else {
      RunGrows(tr, i, k, u);
      StepAtKeepsCovering(tr, k, u, |tr[i].qs[u].calls|);
      if tr[k + 1].job == Free {
        StepAtGrows(tr, k, u);
        EnoughRan(tr, i, k + 1, u);
      }
    }
  }

  /** A thread that is no longer registered has run everything, unless it is just
      unregistering and holds the mutex. */
  lemma GoneHasRun(tr: seq<State>, i: nat, k: nat, u: Tid)
    requires Run(tr) && i <= k < |tr| && u in tr[i].qs && u !in tr[k].reg && tr[k].job == Free
    ensures HasRun(tr, i, k, u)
  {
    RunGrows(tr, i, k, u);
    RunKeepsInv(tr, k);
    var s := tr[k];
    assert QueueOk(s.qs[u], s.th[u], s.job, u);
    assert PlaceOk(s.th[u], u in s.reg, s.busy == Some(u));
    assert !s.th[u].Locked?;
    DeliveredInOrder(tr, k, u);
  }

  /** Taking the mutex puts everything in hand that was published before. */
  lemma TakenInHand(tr: seq<State>, i: nat, k: nat, us: set<Tid>)
    requires Run(tr) && i <= k && k + 1 < |tr| && us <= tr[i].qs.Keys && tr[k].job == Free
    requires tr[k + 1].job.Snap? && forall u <- us :: u in tr[k].reg ==> u in tr[k + 1].job.left
    ensures AllInHand(tr, i, k + 1, us)
  {
    forall u | u in us
      ensures InHand(tr, i, k + 1, u)
    {
      if u !in tr[k].reg {
        GoneHasRun(tr, i, k, u);
        RunStays(tr, i, k, u);
      }
    }
  }

  /** The task of a call of a barrier, and the queues it is about. */
  function TaskOf(p: Pc, l: LockOp): Task {
    if l.CallBarrier? then Barrier(p) else OwnBarrier
  }

  function About(s: State, t: Tid, l: LockOp): set<Tid> {
    if l.CallBarrier? then s.reg else {t}
  }

  /** How far the barrier called at step `i` is at state `k`. */
  ghost predicate Underway(tr: seq<State>, i: nat, k: nat, t: Tid, task: Task, us: set<Tid>) {
    && i < k < |tr| && t in tr[k].th
    && (|| tr[k].th[t] == WantLock(task)
        || (tr[k].th[t] == Locked(task) && AllInHand(tr, i, k, us))
        || AllRun(tr, i, k, us))
  }

  predicate IsBarrier(task: Task) { task.Barrier? || task.OwnBarrier? }

  /** A thread that waits for the mutex goes on waiting until it takes it. */
  lemma WantingStep(s: State, a: Action, t: Tid)
    requires LockInv(s) && Enabled(s, a) && t in s.th && s.th[t].WantLock? && IsBarrier(s.th[t].k)
    ensures t in Apply(s, a).th
    ensures || Apply(s, a).th[t] == s.th[t]
            || (s.job == Free && Apply(s, a).th[t] == Locked(s.th[t].k) && Apply(s, a).job.Snap?
                && Apply(s, a).job.left == if s.th[t].k.Barrier? then s.reg else {t})
  {
    if !Moves(a, t) {
      OthersStay(s, a, t);
    }
  }

  /** A thread that holds the mutex stays where it is until it unlocks it. */
  lemma HoldingStep(s: State, a: Action, t: Tid)
    requires LockInv(s) && Enabled(s, a) && t in s.th && s.th[t].Locked?
    ensures t in Apply(s, a).th && (Apply(s, a).job == Free || Apply(s, a).th[t] == s.th[t])
  {
    if a.JobStep? && Finishing(s.job) {
      FinishUnlocks(s, a.v);
    } else {
      OthersStay(s, a, t);
    }
  }

  lemma UnderwayStep(tr: seq<State>, acts: seq<Action>, i: nat, k: nat, t: Tid, l: LockOp)
    requires Follows(tr, acts) && k + 1 < |tr| && !l.TakeMutex? && i < |acts| && t in tr[i].th
    requires Underway(tr, i, k, t, TaskOf(tr[i].th[t], l), About(tr[i], t, l))
    requires About(tr[i], t, l) <= tr[i].qs.Keys
    ensures Underway(tr, i, k + 1, t, TaskOf(tr[i].th[t], l), About(tr[i], t, l))
  {
    var task, us := TaskOf(tr[i].th[t], l), About(tr[i], t, l);
    FollowsRuns(tr, acts);
    LockAt(tr, k);
    assert Takes(tr, acts, k);
    if AllRun(tr, i, k, us) {
      forall u | u in us
        ensures HasRun(tr, i, k + 1, u)
      {
        RunStays(tr, i, k, u);
      }
      StepKeepsThreads(tr[k], acts[k]);
    } else if tr[k].th[t] == WantLock(task) {
      WantingStep(tr[k], acts[k], t);
      if tr[k + 1].th[t] != WantLock(task) {
        TakenInHand(tr, i, k, us);
      }
    } else {
      HoldingStep(tr[k], acts[k], t);
      AllInHandStep(tr, i, k, us);
    }
  }

  lemma AllInHandStep(tr: seq<State>, i: nat, k: nat, us: set<Tid>)
    requires Run(tr) && AllInHand(tr, i, k, us) && k + 1 < |tr|
    ensures if tr[k + 1].job == Free then AllRun(tr, i, k + 1, us) else AllInHand(tr, i, k + 1, us)
  {
    forall u | u in us
      ensures if tr[k + 1].job == Free then HasRun(tr, i, k + 1, u) else InHand(tr, i, k + 1, u)
    {
      InHandStep(tr, i, k, u);
    }
  }

  lemma LockAt(tr: seq<State>, k: nat)
    requires Run(tr) && k < |tr|
    ensures LockInv(tr[k])
  {
    RunKeepsInv(tr, k);
  }

  lemma RegisteredHaveQueues(tr: seq<State>, k: nat)
    requires Run(tr) && k < |tr|
    ensures tr[k].reg <= tr[k].qs.Keys
    ensures forall t <- tr[k].th :: tr[k].th[t] == Idle ==> t in tr[k].reg
  {
    RunKeepsInv(tr, k);
    forall t | t in tr[k].th && tr[k].th[t] == Idle
      ensures t in tr[k].reg
    {
      assert PlaceOk(tr[k].th[t], t in tr[k].reg, tr[k].busy == Some(t));
    }
  }

  lemma {:induction false} BarrierIsUnderway(tr: seq<State>, acts: seq<Action>, i: nat, k: nat, t: Tid, l: LockOp)
    requires Follows(tr, acts) && i < k < |tr| && acts[i] == LockStep(t, l) && !l.TakeMutex?
    ensures t in tr[i].th && Underway(tr, i, k, t, TaskOf(tr[i].th[t], l), About(tr[i], t, l))
  {
    FollowsRuns(tr, acts);
    RegisteredHaveQueues(tr, i);
    assert Takes(tr, acts, i);
    if k == i + 1 {
    } else {
      BarrierIsUnderway(tr, acts, i, k - 1, t, l);
      UnderwayStep(tr, acts, i, k - 1, t, l);
    }
  }

  /** rcu_defer_barrier and rcu_defer_barrier_thread from call to return: when the caller is
      back where it called from, every call published before that, by any thread registered
      then or by the caller itself, has run. */
  lemma BarrierReturns(tr: seq<State>, acts: seq<Action>, i: nat, j: nat, t: Tid, l: LockOp)
    requires Follows(tr, acts) && i < j < |tr| && acts[i] == LockStep(t, l) && !l.TakeMutex?
    requires t in tr[i].th && t in tr[j].th && tr[j].th[t] == tr[i].th[t]
    ensures forall u <- if l.CallBarrier? then tr[i].reg else {t} ::
              u in tr[i].qs && u in tr[j].qs && tr[i].qs[u].calls <= tr[j].qs[u].ran
  {
    assert Takes(tr, acts, i);
    BarrierIsUnderway(tr, acts, i, j, t, l);
    assert AllRun(tr, i, j, About(tr[i], t, l));
    forall u | u in About(tr[i], t, l)
      ensures HasRun(tr, i, j, u)
    {
    }
  }

  // ------------------------------------- registering and unregistering threads

  /** A thread that has begun to unregister, up to its end and after. */
  predicate Leaving(p: Pc) {
    || p == Out || p.Unregistered? || Stopper(p)
    || ((p.WantLock? || p.Locked?) && p.k in {Unregister, Barrier(Out)})
  }

  lemma LeavingStep(s: State, a: Action, t: Tid)
    requires Enabled(s, a) && t in s.th && (a == UnregisterStep(t, BeginUnregister) || Leaving(s.th[t]))
    ensures t in Apply(s, a).th && Leaving(Apply(s, a).th[t])
  {
    if !Moves(a, t) {
      OthersStay(s, a, t);
    }
  }

  lemma {:induction false} StaysLeaving(tr: seq<State>, acts: seq<Action>, i: nat, k: nat, t: Tid)
    requires Follows(tr, acts) && i < k < |tr| && acts[i] == UnregisterStep(t, BeginUnregister)
    ensures t in tr[k].th && Leaving(tr[k].th[t])
  {
    assert Takes(tr, acts, k - 1);
    if k == i + 1 {
    } else {
      StaysLeaving(tr, acts, i, k - 1, t);
    }
    LeavingStep(tr[k - 1], acts[k - 1], t);
  }

  /** rcu_defer_unregister_thread from call to return: the thread goes on only when it is
      out of the registry and everything it has ever passed to defer_rcu has run. */
  lemma UnregisterReturns(tr: seq<State>, acts: seq<Action>, i: nat, j: nat, t: Tid)
    requires Follows(tr, acts) && i < j < |tr| && acts[i] == UnregisterStep(t, BeginUnregister) && t in tr[0].th
    ensures t in tr[j].th && Leaving(tr[j].th[t])
    ensures tr[j].th[t] == Out ==> t !in tr[j].reg && t in tr[j].qs && tr[j].qs[t].ran == Deferred(acts, j, t)
  {
    StaysLeaving(tr, acts, i, j, t);
    if tr[j].th[t] == Out {
      FollowsRuns(tr, acts);
      assert Takes(tr, acts, i);
      RegisteredHaveQueues(tr, i);
      RunGrows(tr, i, j, t);
      DeliveredInOrder(tr, j, t);
      CallsAreDeferred(tr, acts, j, t);
      OutIsNotRegistered(tr, j, t);
    }
  }

  lemma OutIsNotRegistered(tr: seq<State>, k: nat, t: Tid)
    requires Run(tr) && k < |tr| && t in tr[k].th && tr[k].th[t] == Out
    ensures t !in tr[k].reg
  {
    RunKeepsInv(tr, k);
    assert PlaceOk(tr[k].th[t], t in tr[k].reg, tr[k].busy == Some(t));
  }

  /** A thread that has begun to register. */
  predicate Entered(p: Pc) { p == Registering || !Fresh(p) }

  lemma UnlockedEntered(p: Pc, reg: set<Tid>)
    requires BackOk(p) && Entered(p)
    ensures Entered(Unlocked(p, reg))
  {
  }

  lemma EnteredStep(s: State, a: Action, t: Tid)
    requires Enabled(s, a) && t in s.th && BackOk(s.th[t])
    requires a == RegisterStep(t, BeginRegister) || Entered(s.th[t])
    ensures t in Apply(s, a).th && Entered(Apply(s, a).th[t])
  {
    if Moves(a, t) {
      MoverEntered(s, a);
    } else {
      OthersStay(s, a, t);
      if Entered(s.th[t]) {
        UnlockedEntered(s.th[t], s.reg);
      }
    }
  }

  lemma MoverEntered(s: State, a: Action)
    requires Enabled(s, a) && IsThreadStep(a)
    requires (a.RegisterStep? && a.r == BeginRegister) || Entered(s.th[a.t])
    ensures a.t in Apply(s, a).th && Entered(Apply(s, a).th[a.t])
  {
    match a
    case RegisterStep(t, op) => RegisteringEntered(s, t, op);
    case UnregisterStep(t, op) => UnregisteringTouchesNoQueue(s, t, op);
    case DeferStep(t, op) => DeferringEntered(s, t, op);
    case WakeStep(t, op) => WakingTouchesNoQueue(s, t, op);
    case LockStep(t, op) => LockingEntered(s, t, op);
  }

  lemma RegisteringEntered(s: State, t: Tid, op: RegisterOp)
    requires CanRegister(s, t, op)
    ensures t in ApplyRegister(s, t, op).th && Entered(ApplyRegister(s, t, op).th[t])
  {
  }

  lemma DeferringEntered(s: State, t: Tid, op: DeferOp)
    requires CanDefer(s, t, op)
    ensures t in ApplyDefer(s, t, op).th && Entered(ApplyDefer(s, t, op).th[t])
  {
  }

  lemma LockingEntered(s: State, t: Tid, op: LockOp)
    requires CanLock(s, t, op) && Entered(s.th[t])
    ensures t in ApplyLock(s, t, op).th && Entered(ApplyLock(s, t, op).th[t])
  {
  }

  lemma BackAt(tr: seq<State>, k: nat, t: Tid)
    requires Run(tr) && k < |tr| && t in tr[k].th
    ensures BackOk(tr[k].th[t])
  {
    RunKeepsInv(tr, k);
    assert PlaceOk(tr[k].th[t], t in tr[k].reg, tr[k].busy == Some(t));
  }

  lemma {:induction false} StaysEntered(tr: seq<State>, acts: seq<Action>, i: nat, k: nat, t: Tid)
    requires Follows(tr, acts) && i < k < |tr| && acts[i] == RegisterStep(t, BeginRegister)
    ensures t in tr[k].th && Entered(tr[k].th[t])
  {
    assert Takes(tr, acts, k - 1);
    if k == i + 1 {
    } else {
      StaysEntered(tr, acts, i, k - 1, t);
    }
    FollowsRuns(tr, acts);
    BackAt(tr, k - 1, t);
    EnteredStep(tr[k - 1], acts[k - 1], t);
  }

  /** rcu_defer_register_thread from call to return: the thread goes on only with a queue
      and in the registry. */
  lemma RegisterReturns(tr: seq<State>, acts: seq<Action>, i: nat, j: nat, t: Tid)
    requires Follows(tr, acts) && i < j < |tr| && acts[i] == RegisterStep(t, BeginRegister)
    ensures t in tr[j].th && Entered(tr[j].th[t])
    ensures tr[j].th[t] == Idle ==> t in tr[j].reg && t in tr[j].qs
  {
    StaysEntered(tr, acts, i, j, t);
    FollowsRuns(tr, acts);
    RegisteredHaveQueues(tr, j);
  }

  // -------------------------------------------------------- the defer thread

  lemma WantingBarrierStep(s: State, a: Action)
    requires PlaceInv(s) && LockInv(s) && RunInv(s) && Enabled(s, a) && s.w == WantBarrier
    ensures || Apply(s, a).w == WantBarrier
            || (s.job == Free && Apply(s, a).w == InBarrier && Apply(s, a).job.Snap? && Apply(s, a).job.left == s.reg)
  {
    if !a.WorkerStep? {
      WorkerStays(s, a);
    }
  }

  lemma JobKeepsWorker(s: State, v: Tid)
    requires LockInv(s) && JobEnabled(s, v) && (s.w == WantBarrier || s.w == InBarrier)
    ensures JobApply(s, v).w == s.w || (s.w == InBarrier && JobApply(s, v).job == Free)
  {
    if Finishing(s.job) {
      FinishUnlocks(s, v);
    } else {
      JobHolder(s, v);
    }
  }

  lemma RegisteringKeepsWorker(s: State, t: Tid, op: RegisterOp)
    requires PlaceInv(s) && RunInv(s) && CanRegister(s, t, op) && s.w != NotRunning
    ensures ApplyRegister(s, t, op).w == s.w
  {
    assert PlaceOk(s.th[t], t in s.reg, s.busy == Some(t));
  }

  /** Outside its own steps the defer thread is at most woken, started or joined, or a job
      of its own ends. */
  lemma WorkerStays(s: State, a: Action)
    requires PlaceInv(s) && LockInv(s) && RunInv(s) && Enabled(s, a) && !a.WorkerStep?
    requires s.w == WantBarrier || s.w == InBarrier
    ensures Apply(s, a).w == s.w || (s.w == InBarrier && Apply(s, a).job == Free)
  {
    match a
    case RegisterStep(t, op) => RegisteringKeepsWorker(s, t, op);
    case JobStep(v) => JobKeepsWorker(s, v);
    case _ => OthersKeepWorker(s, a);
  }

  lemma OthersKeepWorker(s: State, a: Action)
    requires Enabled(s, a) && !a.WorkerStep? && !a.RegisterStep? && !a.JobStep? && s.w != Asleep && s.w != Exited
    ensures Apply(s, a).w == s.w
  {
  }

  ghost predicate TurnUnderway(tr: seq<State>, i: nat, k: nat, us: set<Tid>) {
    && i < k < |tr|
    && (|| tr[k].w == WantBarrier
        || (tr[k].w == InBarrier && AllInHand(tr, i, k, us))
        || AllRun(tr, i, k, us))
  }

  lemma TurnStep(tr: seq<State>, acts: seq<Action>, i: nat, k: nat, us: set<Tid>)
    requires Follows(tr, acts) && k + 1 < |tr| && TurnUnderway(tr, i, k, us) && us <= tr[i].qs.Keys
    ensures TurnUnderway(tr, i, k + 1, us)
  {
    FollowsRuns(tr, acts);
    if AllRun(tr, i, k, us) {
      forall u | u in us
        ensures HasRun(tr, i, k + 1, u)
      {
        RunStays(tr, i, k, u);
      }
    } else if tr[k].w == WantBarrier {
      WorkerStepAt(tr, acts, k);
      if tr[k + 1].w != WantBarrier {
        TakenInHand(tr, i, k, us);
      }
    } else {
      WorkerStepAt(tr, acts, k);
      AllInHandStep(tr, i, k, us);
    }
  }

  lemma WorkerStepAt(tr: seq<State>, acts: seq<Action>, k: nat)
    requires Follows(tr, acts) && k + 1 < |tr| && (tr[k].w == WantBarrier || tr[k].w == InBarrier)
    ensures tr[k].w == WantBarrier ==>
              || tr[k + 1].w == WantBarrier
              || (tr[k].job == Free && tr[k + 1].w == InBarrier && tr[k + 1].job.Snap?
                  && tr[k + 1].job.left == tr[k].reg)
    ensures tr[k].w == InBarrier ==> tr[k + 1].w == InBarrier || tr[k + 1].job == Free
  {
    FollowsRuns(tr, acts);
    RunKeepsInv(tr, k);
    assert Takes(tr, acts, k);
    if tr[k].w == WantBarrier {
      WantingBarrierStep(tr[k], acts[k]);
    } else {
      WorkerStays(tr[k], acts[k]);
    }
  }

  lemma {:induction false} TurnIsUnderway(tr: seq<State>, acts: seq<Action>, i: nat, k: nat)
    requires Follows(tr, acts) && i < k < |tr| && acts[i] == WorkerStep && tr[i].w == TestEmpty
    ensures TurnUnderway(tr, i, k, tr[i].reg)
  {
    FollowsRuns(tr, acts);
    RegisteredHaveQueues(tr, i);
    if k == i + 1 {
      assert Takes(tr, acts, i);
    } else {
      TurnIsUnderway(tr, acts, i, k - 1);
      TurnStep(tr, acts, i, k - 1, tr[i].reg);
    }
  }

  /** The defer thread does its work: once it has found the registry not empty, it comes
      back to the start of its loop only when every call the registered threads had
      published then has run. */
  lemma TurnRunsAll(tr: seq<State>, acts: seq<Action>, i: nat, j: nat)
    requires Follows(tr, acts) && i < j < |tr| && acts[i] == WorkerStep && tr[i].w == TestEmpty
    requires tr[j].w == DecFutex
    ensures forall u <- tr[i].reg :: u in tr[i].qs && u in tr[j].qs && tr[i].qs[u].calls <= tr[j].qs[u].ran
  {
    TurnIsUnderway(tr, acts, i, j);
    forall u | u in tr[i].reg
      ensures HasRun(tr, i, j, u)
    {
    }
  }

  // ---------------------------------------------------------------- progress

  /** Steps of the defer thread to its next barrier, or to its exit. */
  function WorkerLeft(s: State): nat {
    match s.w
    case DecFutex => if s.stop then 3 else 12
    case TestStop => if s.stop then 2 else 11
    case ExitFutex => 1
    case WantCount => 10
    case Counting => 9
    case SetZero => 8
    case ReadFutex => 8
    case FutexWait => 7
    case TestEmpty => 6
    case WantBarrier => 5
    case InBarrier => 4
    case _ => 0
  }

  /** The defer thread gets on: while a thread is registered or it has been told to stop,
      each of its steps brings it nearer to a barrier or to its exit, or to sleep. */
  lemma WorkerAdvances(s: State)
    requires RunInv(s) && WorkerEnabled(s) && (s.stop || s.reg != {})
    ensures WorkerApply(s).w == Asleep || WorkerLeft(WorkerApply(s)) < WorkerLeft(s)
  {
    assert s.stop ==> s.reg == {};
    assert WorkerApply(s).stop == s.stop;
  }

  /** The futex is 0 or -1, and 0 on the way to the next decrement. A FUTEX_WAKE that comes
      late, when the defer thread sleeps again, makes it fall below. */
  predicate Calm(s: State) {
    s.futex in {0, -1} && (s.w in {DecFutex, TestEmpty, WantBarrier, InBarrier} ==> s.futex == 0)
  }

  /** Having found nothing the defer thread sleeps, having found something it makes the
      futex calm again, and its other steps keep it so. */
  lemma WorkerKeepsCalm(s: State)
    requires WorkerEnabled(s) && (Calm(s) || s.w == SetZero)
    ensures Calm(WorkerApply(s))
    ensures s.w == DecFutex && s.futex == 0 ==> WorkerApply(s).futex == -1
    ensures s.futex == -1 ==> (s.w == ReadFutex ==> WorkerApply(s).w == FutexWait)
                              && (s.w == FutexWait ==> WorkerApply(s).w == Asleep)
  {
  }

  function PhasesLeft(job: Job): nat {
    match job
    case Snap(_, _, _, _) => 3
    case Sync(_, _) => 2
    case InSync(_, _) => 1
    case _ => 0
  }

  function QueuesLeft(job: Job): nat {
    match job
    case Snap(_, left, _, _) => |left|
    case NextQueue(_, _, left) => 2 * |left|
    case Drain(_, _, left, _, _) => 2 * |left| + 1
    case Count(left, _) => |left|
    case _ => 0
  }

  function WordsLeft(job: Job): int {
    if job.Drain? && job.t in job.goal && job.d.At? then Minus(job.goal[job.t].head, job.d.i) else 0
  }

  predicate LessLeft(job: Job, job': Job) {
    || PhasesLeft(job') < PhasesLeft(job)
    || (PhasesLeft(job') == PhasesLeft(job) &&
        (QueuesLeft(job') < QueuesLeft(job)
         || (QueuesLeft(job') == QueuesLeft(job) && 0 <= WordsLeft(job') < WordsLeft(job))))
  }

  lemma DrainAdvances(s: State)
    requires QueueInv(s) && s.job.Drain?
    ensures LessLeft(s.job, DrainOnce(s).job)
  {
    assert GoalAt(s.qs[s.job.t], s.job, s.job.t) && QueueOk(s.qs[s.job.t], s.th[s.job.t], s.job, s.job.t);
    LoopAdvances(s.qs[s.job.t], s.th[s.job.t], s.job);
  }

  lemma LoopAdvances(q: St.Queue, p: Pc, job: Job)
    requires job.Drain? && job.t in job.goal && job.d.At? && QueueOk(q, p, job, job.t) && GoalAt(q, job, job.t)
    ensures LessLeft(job, DrainedJob(job, St.DrainedTo(q, job.d, job.goal[job.t].head)))
  {
    if !St.AtEnd(job.d, job.goal[job.t].head) {
      St.DrainLoopEnds(q, OwnerOf(p), job.d, job.goal[job.t]);
    }
  }

  /** Whoever holds the mutex gets on: every step under it leaves less to do, phase by
      phase, queue by queue and word by word, or unlocks it. */
  lemma JobAdvances(s: State, u: Tid)
    requires LockInv(s) && QueueInv(s) && JobEnabled(s, u)
    ensures JobApply(s, u).job == Free || LessLeft(s.job, JobApply(s, u).job)
  {
    if Finishing(s.job) {
      FinishUnlocks(s, u);
    } else if s.job.Drain? {
      DrainAdvances(s);
    } else if u in LeftOf(s.job) {
      assert Mapped(s.qs, u);
      match s.job
      case Snap(_, _, _, _) => LoadAdvances(s, u);
      case NextQueue(_, _, _) => BeginAdvances(s, u);
      case Count(_, _) => CountAdvances(s, u);
    }
  }

  lemma LoadAdvances(s: State, u: Tid)
    requires s.job.Snap? && u in s.job.left && Mapped(s.qs, u)
    ensures LessLeft(s.job, LoadHead(s, u).job)
  {
    OneLess(s.job.left, u);
  }

  lemma BeginAdvances(s: State, u: Tid)
    requires s.job.NextQueue? && u in s.job.left && Mapped(s.qs, u)
    ensures LessLeft(s.job, BeginDrain(s, u).job)
  {
    OneLess(s.job.left, u);
  }

  lemma CountAdvances(s: State, u: Tid)
    requires s.job.Count? && u in s.job.left && Mapped(s.qs, u)
    ensures LessLeft(s.job, CountOne(s, u).job)
  {
    OneLess(s.job.left, u);
  }

  lemma OneLess(left: set<Tid>, u: Tid)
    requires u in left
    ensures |left - {u}| == |left| - 1
  {
  }

  /** And some step under it is possible, but for waiting on a grace period. */
  lemma JobCanStep(s: State)
    requires QueueInv(s) && s.job != Free && !s.job.Sync? && !s.job.InSync?
    ensures exists u :: JobEnabled(s, u)
  {
    if u :| u in LeftOf(s.job) {
      assert JobEnabled(s, u);
    } else {
      assert LeftOf(s.job) == {};
      assert JobEnabled(s, 0);
    }
  }

  lemma FillingInside(s: State, t: Tid)
    requires PlaceInv(s) && QueueInv(s) && t in s.th && s.th[t].Filling?
    ensures s.th[t].o.Storing? && s.th[t].o.n <= |s.th[t].o.e|
  {
    OwnQueueMapped(s, t);
    assert PlaceOk(s.th[t], t in s.reg, s.busy == Some(t));
    assert QueueOk(s.qs[t], s.th[t], s.job, t);
  }

  /** A thread inside a function that waits for nobody. */
  predicate WaitsForNobody(s: State, t: Tid)
    requires t in s.th
  {
    var p := s.th[t];
    && !p.New? && !p.Idle? && !p.Out? && !p.Locked?
    && (p == Registering || p.WantLock? ==> s.job == Free)
    && (p == Join ==> s.w == Exited)
  }

  function NextOf(p: Pc, t: Tid): Action {
    match p
    case Registering => RegisterStep(t, AddQueue)
    case Registered(_) => RegisterStep(t, StartThread)
    case LoadTail(_) => DeferStep(t, TestRoom)
    case Flushed(_) => DeferStep(t, StartFilling)
    case Filling(o) => DeferStep(t, if o.Storing? && o.n < |o.e| then StoreWord else PublishHead)
    case WantLock(_) => LockStep(t, TakeMutex)
    case Unregistered(_) => UnregisterStep(t, EndUnregister)
    case WakeRead(_) => WakeStep(t, ReadFutexToWake)
    case WakeSet(_) => WakeStep(t, SetFutex)
    case WakeCall(_) => WakeStep(t, CallWake)
    case _ => UnregisterStep(t, JoinThread)
  }

  /** No thread is stuck in a function: it can step unless it waits for a mutex, holds one
      for its job, or waits for the defer thread to exit. */
  lemma ThreadCanStep(s: State, t: Tid)
    requires PlaceInv(s) && QueueInv(s) && t in s.th && WaitsForNobody(s, t)
    ensures var a := NextOf(s.th[t], t); Moves(a, t) && !IsCall(a) && Enabled(s, a)
  {
    if s.th[t].Filling? {
      FillingInside(s, t);
    }
  }

  /** Nor is the defer thread, unless it sleeps, waits for the mutex or has a job. */
  lemma WorkerCanStep(s: State)
    requires s.w !in {NotRunning, Exited, Asleep, Counting, InBarrier}
    requires s.w == WantCount || s.w == WantBarrier ==> s.job == Free
    ensures WorkerEnabled(s)
  {
  }

  /** Steps left to a thread in the function it is in, without those under the mutex. */
  function PcLeft(p: Pc): nat {
    match p
    case Registering => 2
    case Registered(_) => 1
    case LoadTail(_) => 11
    case WantLock(k) => if k.Flush? || k.Unregister? then 10 else 2
    case Locked(k) => if k.Flush? || k.Unregister? then 9 else 1
    case Flushed(_) => 8
    case Filling(o) => if o.Storing? && o.n <= |o.e| then 4 + (|o.e| - o.n) else 4
    case Unregistered(_) => 7
    case WakeRead(stopper) => if stopper then 6 else 3
    case WakeSet(stopper) => if stopper then 5 else 2
    case WakeCall(stopper) => if stopper then 4 else 1
    case Join => 3
    case _ => 0
  }

  /** The steps by which a thread enters a function. */
  predicate IsCall(a: Action) {
    || (a.RegisterStep? && a.r.BeginRegister?)
    || (a.UnregisterStep? && a.u.BeginUnregister?)
    || (a.DeferStep? && a.d.CallDefer?)
    || (a.LockStep? && !a.l.TakeMutex?)
  }

  lemma QueueAdvances(s: State, t: Tid, op: DeferOp)
    requires CanDefer(s, t, op) && !op.CallDefer? && Mapped(s.qs, t)
    ensures t in OnQueue(s, t, op).th && PcLeft(OnQueue(s, t, op).th[t]) < PcLeft(s.th[t])
  {
  }

  lemma DeferringAdvances(s: State, t: Tid, op: DeferOp)
    requires PlaceInv(s) && QueueInv(s) && CanDefer(s, t, op) && !op.CallDefer?
    ensures t in ApplyDefer(s, t, op).th && PcLeft(ApplyDefer(s, t, op).th[t]) < PcLeft(s.th[t])
  {
    OwnQueueMapped(s, t);
    QueueAdvances(s, t, op);
  }

  lemma RegisteringAdvances(s: State, t: Tid, op: RegisterOp)
    requires CanRegister(s, t, op) && !op.BeginRegister?
    ensures t in ApplyRegister(s, t, op).th && PcLeft(ApplyRegister(s, t, op).th[t]) < PcLeft(s.th[t])
  {
  }

  lemma UnregisteringAdvances(s: State, t: Tid, op: UnregisterOp)
    requires CanUnregister(s, t, op) && !op.BeginUnregister?
    ensures t in ApplyUnregister(s, t, op).th && PcLeft(ApplyUnregister(s, t, op).th[t]) < PcLeft(s.th[t])
  {
  }

  lemma WakingAdvances(s: State, t: Tid, op: WakeOp)
    requires CanWake(s, t, op)
    ensures t in ApplyWake(s, t, op).th && PcLeft(ApplyWake(s, t, op).th[t]) < PcLeft(s.th[t])
  {
  }

  lemma LockingAdvances(s: State, t: Tid, op: LockOp)
    requires CanLock(s, t, op) && op.TakeMutex?
    ensures t in ApplyLock(s, t, op).th && PcLeft(ApplyLock(s, t, op).th[t]) < PcLeft(s.th[t])
  {
  }

  /** Every function gets to its end: each step of a thread in it, but for waiting on a
      mutex, on the holder of one or on the exit of the defer thread, is one of finitely
      many. */
  lemma ThreadAdvances(s: State, a: Action)
    requires PlaceInv(s) && QueueInv(s) && Enabled(s, a) && !IsCall(a) && IsThreadStep(a)
    ensures a.t in Apply(s, a).th && PcLeft(Apply(s, a).th[a.t]) < PcLeft(s.th[a.t])
  {
    match a
    case RegisterStep(t, op) => RegisteringAdvances(s, t, op);
    case UnregisterStep(t, op) => UnregisteringAdvances(s, t, op);
    case DeferStep(t, op) => DeferringAdvances(s, t, op);
    case WakeStep(t, op) => WakingAdvances(s, t, op);
    case LockStep(t, op) => LockingAdvances(s, t, op);
  }

  lemma UnlockAdvances(p: Pc, reg: set<Tid>)
    requires p.Locked? && BackOk(p)
    ensures PcLeft(Unlocked(p, reg)) < PcLeft(p)
  {
  }
}
