/**
 Who holds which mutex of urcu-defer-impl.h, which threads are registered, and when
 the defer thread runs: invariants of the protocol that do not look at the queues.
 */
module DeferPlaces {
  import opened DeferProtocol

  /** The thread is in registry_defer. */
  predicate InReg(p: Pc) {
    match p
    case Idle => true
    case Registered(_) => true
    case LoadTail(_) => true
    case Flushed(_) => true
    case Filling(_) => true
    case WantLock(k) => k.Barrier? ==> k.back == Idle
    case Locked(k) => !k.Unregister? && (k.Barrier? ==> k.back == Idle)
    case WakeRead(stopper) => !stopper
    case WakeSet(stopper) => !stopper
    case WakeCall(stopper) => !stopper
    case _ => false
  }

  predicate BackOk(p: Pc) {
    (p.WantLock? || p.Locked?) && p.k.Barrier? ==> p.k.back in {New, Idle, Out}
  }

  predicate Stopper(p: Pc) {
    p == Join || ((p.WakeRead? || p.WakeSet? || p.WakeCall?) && p.stopper)
  }

  /** The thread holds defer_thread_mutex. */
  predicate HoldsBusy(p: Pc) {
    || p.Registering? || p.Registered? || p.Unregistered? || Stopper(p)
    || ((p.WantLock? || p.Locked?) && p.k == Unregister)
  }

  predicate PlaceOk(p: Pc, inReg: bool, isBusy: bool) {
    (inReg <==> InReg(p)) && BackOk(p) && (HoldsBusy(p) <==> isBusy) && (p.Filling? ==> p.o.Storing?)
  }

  ghost predicate Placed(th: map<Tid, Pc>, reg: set<Tid>, busy: Option<Tid>) {
    && reg <= th.Keys
    && (busy.Some? ==> busy.value in th)
    && forall t <- th :: PlaceOk(th[t], t in reg, busy == Some(t))
  }

  ghost predicate PlaceInv(s: State) {
    Placed(s.th, s.reg, s.busy)
  }

  /** Whether the defer thread runs, as far as the registry tells; `p` is where the
      holder of defer_thread_mutex is. */
  predicate RunOk(p: Pc, empty: bool, w: Worker, stop: bool, futex: int) {
    && (match p
        case Registered(wasEmpty) => w == NotRunning <==> wasEmpty
        case Locked(_) => w != NotRunning
        case Unregistered(last) => w != NotRunning && (last <==> empty)
        case _ => if Stopper(p) then empty && w != NotRunning else w == NotRunning <==> empty)
    && (stop <==> Stopper(p))
    && (w.ExitFutex? || w.Exited? ==> stop)
    && (w.Exited? || w.NotRunning? ==> futex == 0)
  }

  function BusyPc(s: State): Pc {
    if s.busy.Some? && s.busy.value in s.th then s.th[s.busy.value] else New
  }

  ghost predicate RunInv(s: State) {
    RunOk(BusyPc(s), s.reg == {}, s.w, s.stop, s.futex)
  }

  function Holder(job: Job): Option<Who> {
    match job
    case Free => None
    case Count(_, _) => Some(Worker)
    case _ => Some(job.who)
  }

  predicate IsThread(h: Option<Who>, t: Tid) { h == Some(Thread(t)) }

  /** rcu_defer_mutex is held by who the job says. */
  ghost predicate Holding(th: map<Tid, Pc>, holder: Option<Who>) {
    && (forall t <- th :: th[t].Locked? <==> IsThread(holder, t))
    && (holder.Some? && holder.value.Thread? ==> holder.value.t in th)
  }

  predicate WorkerLock(job: Job, w: Worker) {
    && (Holder(job) == Some(Worker) <==> w == Counting || w == InBarrier)
    && (job.Count? <==> w == Counting)
  }

  ghost predicate LockInv(s: State) {
    Holding(s.th, Holder(s.job)) && WorkerLock(s.job, s.w)
  }

  // One thread moves: what the others are promised does not change.

  lemma PlaceUpdate(th: map<Tid, Pc>, reg: set<Tid>, busy: Option<Tid>, t: Tid, p: Pc, reg': set<Tid>,
                    busy': Option<Tid>)
    requires Placed(th, reg, busy) && t in th && PlaceOk(p, t in reg', busy' == Some(t))
    requires reg' == reg || reg' == reg + {t} || reg' == reg - {t}
    requires busy' == busy || ((busy == None || busy == Some(t)) && (busy' == None || busy' == Some(t)))
    ensures Placed(th[t := p], reg', busy')
  {
    forall u | u in th && u != t
      ensures PlaceOk(th[u], u in reg', busy' == Some(u))
    {
      assert PlaceOk(th[u], u in reg, busy == Some(u));
    }
  }

  lemma RegisteringKeepsPlace(s: State, t: Tid, op: RegisterOp)
    requires PlaceInv(s) && CanRegister(s, t, op)
    ensures PlaceInv(ApplyRegister(s, t, op))
  {
    var s' := ApplyRegister(s, t, op);
    assert PlaceOk(s.th[t], t in s.reg, s.busy == Some(t));
    PlaceUpdate(s.th, s.reg, s.busy, t, s'.th[t], s'.reg, s'.busy);
  }

  lemma UnregisteringKeepsPlace(s: State, t: Tid, op: UnregisterOp)
    requires PlaceInv(s) && CanUnregister(s, t, op)
    ensures PlaceInv(ApplyUnregister(s, t, op))
  {
    var s' := ApplyUnregister(s, t, op);
    assert PlaceOk(s.th[t], t in s.reg, s.busy == Some(t));
    PlaceUpdate(s.th, s.reg, s.busy, t, s'.th[t], s'.reg, s'.busy);
  }

  lemma FillingKeepsPlace(s: State, t: Tid, op: DeferOp)
    requires PlaceInv(s) && CanDefer(s, t, op) && !op.CallDefer? && Mapped(s.qs, t)
    ensures PlaceInv(OnQueue(s, t, op))
  {
    var s' := OnQueue(s, t, op);
    assert PlaceOk(s.th[t], t in s.reg, s.busy == Some(t));
    PlaceUpdate(s.th, s.reg, s.busy, t, s'.th[t], s'.reg, s'.busy);
  }

  lemma DeferringKeepsPlace(s: State, t: Tid, op: DeferOp)
    requires PlaceInv(s) && CanDefer(s, t, op)
    ensures PlaceInv(ApplyDefer(s, t, op))
  {
    if op.CallDefer? {
      var s' := SetTh(s, t, LoadTail(op.c));
      assert PlaceOk(s.th[t], t in s.reg, s.busy == Some(t));
      PlaceUpdate(s.th, s.reg, s.busy, t, s'.th[t], s'.reg, s'.busy);
    } else if Mapped(s.qs, t) {
      FillingKeepsPlace(s, t, op);
    }
  }

  lemma WakingKeepsPlace(s: State, t: Tid, op: WakeOp)
    requires PlaceInv(s) && CanWake(s, t, op)
    ensures PlaceInv(ApplyWake(s, t, op))
  {
    var s' := ApplyWake(s, t, op);
    assert PlaceOk(s.th[t], t in s.reg, s.busy == Some(t));
    PlaceUpdate(s.th, s.reg, s.busy, t, s'.th[t], s'.reg, s'.busy);
  }

  lemma LockingKeepsPlace(s: State, t: Tid, op: LockOp)
    requires PlaceInv(s) && CanLock(s, t, op)
    ensures PlaceInv(ApplyLock(s, t, op))
  {
    var s' := ApplyLock(s, t, op);
    assert PlaceOk(s.th[t], t in s.reg, s.busy == Some(t));
    PlaceUpdate(s.th, s.reg, s.busy, t, s'.th[t], s'.reg, s'.busy);
  }

  lemma FinishKeepsPlace(s: State, who: Who)
    requires PlaceInv(s) && (who.Thread? ==> who.t in s.th && s.th[who.t].Locked?)
    ensures PlaceInv(Finish(s, who))
  {
    if who.Thread? {
      assert PlaceOk(s.th[who.t], who.t in s.reg, s.busy == Some(who.t));
      PlaceUpdate(s.th, s.reg, s.busy, who.t, Unlocked(s.th[who.t], s.reg), s.reg, s.busy);
    }
  }

  predicate Finishing(job: Job) {
    match job
    case Snap(_, left, _, items) => left == {} && items == 0
    case NextQueue(_, _, left) => left == {}
    case _ => false
  }

  /** What a step of the holder of the mutex leaves alone, unless it unlocks it. */
  lemma JobFrame(s: State, u: Tid)
    requires JobEnabled(s, u) && !Finishing(s.job)
    ensures var s' := JobApply(s, u);
            s'.th == s.th && s'.reg == s.reg && s'.busy == s.busy
  {
  }

  lemma JobKeepsFutex(s: State, u: Tid)
    requires JobEnabled(s, u) && !Finishing(s.job)
    ensures JobApply(s, u).stop == s.stop && JobApply(s, u).futex == s.futex
  {
  }

  /** Whose the mutex is afterwards, and what the defer thread does. */
  lemma JobHolder(s: State, u: Tid)
    requires JobEnabled(s, u) && !Finishing(s.job)
    ensures var s' := JobApply(s, u);
            if s.job.Count? && s.job.left == {} then s'.job == Free && s'.w in {SetZero, ReadFutex}
            else s'.w == s.w && Holder(s'.job) == Holder(s.job) && (s'.job.Count? <==> s.job.Count?)
  {
  }

  lemma OtherJobsTouchNoQueue(s: State, u: Tid)
    requires JobEnabled(s, u) && !s.job.Drain? && !Finishing(s.job)
    ensures JobApply(s, u).qs == s.qs
  {
  }

  lemma JobKeepsPlace(s: State, u: Tid)
    requires PlaceInv(s) && LockInv(s) && JobEnabled(s, u)
    ensures PlaceInv(JobApply(s, u))
  {
    if Finishing(s.job) {
      FinishKeepsPlace(s, s.job.who);
    } else {
      JobFrame(s, u);
    }
  }

  lemma StepKeepsPlace(s: State, a: Action)
    requires PlaceInv(s) && LockInv(s) && Enabled(s, a)
    ensures PlaceInv(Apply(s, a))
  {
    match a
    case RegisterStep(t, op) => RegisteringKeepsPlace(s, t, op);
    case UnregisterStep(t, op) => UnregisteringKeepsPlace(s, t, op);
    case DeferStep(t, op) => DeferringKeepsPlace(s, t, op);
    case WakeStep(t, op) => WakingKeepsPlace(s, t, op);
    case LockStep(t, op) => LockingKeepsPlace(s, t, op);
    case JobStep(v) => JobKeepsPlace(s, v);
    case _ =>
  }

  // The mutex.

  lemma LockUpdate(th: map<Tid, Pc>, holder: Option<Who>, t: Tid, p: Pc, holder': Option<Who>)
    requires Holding(th, holder) && t in th && (p.Locked? <==> IsThread(holder', t))
    requires holder' == holder
             || ((holder == None || IsThread(holder, t)) && (holder' == None || IsThread(holder', t)))
    ensures Holding(th[t := p], holder')
  {
  }

  lemma RegisteringKeepsLock(s: State, t: Tid, op: RegisterOp)
    requires PlaceInv(s) && LockInv(s) && RunInv(s) && CanRegister(s, t, op)
    ensures LockInv(ApplyRegister(s, t, op))
  {
    var s' := ApplyRegister(s, t, op);
    assert PlaceOk(s.th[t], t in s.reg, s.busy == Some(t));
    LockUpdate(s.th, Holder(s.job), t, s'.th[t], Holder(s'.job));
  }

  lemma UnregisteringKeepsLock(s: State, t: Tid, op: UnregisterOp)
    requires LockInv(s) && CanUnregister(s, t, op)
    ensures LockInv(ApplyUnregister(s, t, op))
  {
    var s' := ApplyUnregister(s, t, op);
    LockUpdate(s.th, Holder(s.job), t, s'.th[t], Holder(s'.job));
  }

  lemma FillingKeepsLock(s: State, t: Tid, op: DeferOp)
    requires LockInv(s) && CanDefer(s, t, op) && !op.CallDefer? && Mapped(s.qs, t)
    ensures LockInv(OnQueue(s, t, op))
  {
    var s' := OnQueue(s, t, op);
    LockUpdate(s.th, Holder(s.job), t, s'.th[t], Holder(s'.job));
  }

  lemma DeferringKeepsLock(s: State, t: Tid, op: DeferOp)
    requires LockInv(s) && CanDefer(s, t, op)
    ensures LockInv(ApplyDefer(s, t, op))
  {
    if op.CallDefer? {
      var s' := SetTh(s, t, LoadTail(op.c));
      LockUpdate(s.th, Holder(s.job), t, s'.th[t], Holder(s'.job));
    } else if Mapped(s.qs, t) {
      FillingKeepsLock(s, t, op);
    }
  }

  lemma WakingKeepsLock(s: State, t: Tid, op: WakeOp)
    requires LockInv(s) && CanWake(s, t, op)
    ensures LockInv(ApplyWake(s, t, op))
  {
    var s' := ApplyWake(s, t, op);
    LockUpdate(s.th, Holder(s.job), t, s'.th[t], Holder(s'.job));
  }

  lemma LockingKeepsLock(s: State, t: Tid, op: LockOp)
    requires LockInv(s) && CanLock(s, t, op)
    ensures LockInv(ApplyLock(s, t, op))
  {
    var s' := ApplyLock(s, t, op);
    LockUpdate(s.th, Holder(s.job), t, s'.th[t], Holder(s'.job));
  }

  lemma FinishKeepsLock(s: State)
    requires PlaceInv(s) && LockInv(s) && Finishing(s.job)
    ensures LockInv(Finish(s, s.job.who))
  {
    if s.job.who.Thread? {
      var t := s.job.who.t;
      assert PlaceOk(s.th[t], t in s.reg, s.busy == Some(t));
      LockUpdate(s.th, Holder(s.job), t, Unlocked(s.th[t], s.reg), None);
    }
  }

  lemma JobKeepsLock(s: State, u: Tid)
    requires PlaceInv(s) && LockInv(s) && JobEnabled(s, u)
    ensures LockInv(JobApply(s, u))
  {
    if Finishing(s.job) {
      FinishKeepsLock(s);
    } else {
      JobFrame(s, u);
      JobHolder(s, u);
    }
  }

  lemma WorkerKeepsLock(s: State)
    requires LockInv(s) && WorkerEnabled(s)
    ensures LockInv(WorkerApply(s))
  {
    assert WorkerApply(s).th == s.th;
  }

  lemma StepKeepsLock(s: State, a: Action)
    requires PlaceInv(s) && LockInv(s) && RunInv(s) && Enabled(s, a)
    ensures LockInv(Apply(s, a))
  {
    match a
    case RegisterStep(t, op) => RegisteringKeepsLock(s, t, op);
    case UnregisterStep(t, op) => UnregisteringKeepsLock(s, t, op);
    case DeferStep(t, op) => DeferringKeepsLock(s, t, op);
    case WakeStep(t, op) => WakingKeepsLock(s, t, op);
    case LockStep(t, op) => LockingKeepsLock(s, t, op);
    case JobStep(v) => JobKeepsLock(s, v);
    case WorkerStep => WorkerKeepsLock(s);
    case _ =>
  }

  // The life of the defer thread.

  lemma RegisteringKeepsRun(s: State, t: Tid, op: RegisterOp)
    requires PlaceInv(s) && RunInv(s) && CanRegister(s, t, op)
    ensures RunInv(ApplyRegister(s, t, op))
  {
    assert PlaceOk(s.th[t], t in s.reg, s.busy == Some(t));
  }

  lemma UnregisteringKeepsRun(s: State, t: Tid, op: UnregisterOp)
    requires PlaceInv(s) && RunInv(s) && CanUnregister(s, t, op)
    ensures RunInv(ApplyUnregister(s, t, op))
  {
    assert PlaceOk(s.th[t], t in s.reg, s.busy == Some(t));
  }

  lemma FillingKeepsRun(s: State, t: Tid, op: DeferOp)
    requires PlaceInv(s) && RunInv(s) && CanDefer(s, t, op) && !op.CallDefer? && Mapped(s.qs, t)
    ensures RunInv(OnQueue(s, t, op))
  {
    assert PlaceOk(s.th[t], t in s.reg, s.busy == Some(t));
  }

  lemma DeferringKeepsRun(s: State, t: Tid, op: DeferOp)
    requires PlaceInv(s) && RunInv(s) && CanDefer(s, t, op)
    ensures RunInv(ApplyDefer(s, t, op))
  {
    if op.CallDefer? {
      assert PlaceOk(s.th[t], t in s.reg, s.busy == Some(t));
    } else if Mapped(s.qs, t) {
      FillingKeepsRun(s, t, op);
    }
  }

  lemma WakingKeepsRun(s: State, t: Tid, op: WakeOp)
    requires PlaceInv(s) && RunInv(s) && CanWake(s, t, op)
    ensures RunInv(ApplyWake(s, t, op))
  {
    assert PlaceOk(s.th[t], t in s.reg, s.busy == Some(t));
  }

  lemma LockingKeepsRun(s: State, t: Tid, op: LockOp)
    requires PlaceInv(s) && RunInv(s) && CanLock(s, t, op)
    ensures RunInv(ApplyLock(s, t, op))
  {
    assert PlaceOk(s.th[t], t in s.reg, s.busy == Some(t));
  }

  lemma JobKeepsRun(s: State, u: Tid)
    requires PlaceInv(s) && LockInv(s) && RunInv(s) && JobEnabled(s, u)
    ensures RunInv(JobApply(s, u))
  {
    if Finishing(s.job) {
      FinishKeepsRun(s);
    } else {
      JobFrame(s, u);
      JobHolder(s, u);
      JobKeepsFutex(s, u);
    }
  }

  /** The thread that unlocks is the one unregistering, or does not matter. */
  lemma UnlockKeepsRun(p: Pc, reg: set<Tid>, w: Worker, stop: bool, futex: int)
    requires p.Locked? && p.k == Unregister && RunOk(p, reg == {}, w, stop, futex)
    ensures RunOk(Unlocked(p, reg), reg == {}, w, stop, futex)
  {
  }

  lemma FinishKeepsRun(s: State)
    requires PlaceInv(s) && WorkerLock(s.job, s.w) && RunInv(s) && Finishing(s.job)
    requires s.job.who.Thread? ==> s.job.who.t in s.th && s.th[s.job.who.t].Locked?
    ensures RunInv(Finish(s, s.job.who))
  {
    if s.job.who.Thread? {
      var t := s.job.who.t;
      assert PlaceOk(s.th[t], t in s.reg, s.busy == Some(t));
      if s.busy == Some(t) {
        UnlockKeepsRun(s.th[t], s.reg, s.w, s.stop, s.futex);
      }
      assert BusyPc(Finish(s, s.job.who)) == if s.busy == Some(t) then Unlocked(s.th[t], s.reg) else BusyPc(s);
    }
  }

  lemma WorkerKeepsRun(s: State)
    requires RunInv(s) && WorkerEnabled(s)
    ensures RunInv(WorkerApply(s))
  {
  }

  lemma StepKeepsRun(s: State, a: Action)
    requires PlaceInv(s) && LockInv(s) && RunInv(s) && Enabled(s, a)
    ensures RunInv(Apply(s, a))
  {
    match a
    case RegisterStep(t, op) => RegisteringKeepsRun(s, t, op);
    case UnregisterStep(t, op) => UnregisteringKeepsRun(s, t, op);
    case DeferStep(t, op) => DeferringKeepsRun(s, t, op);
    case WakeStep(t, op) => WakingKeepsRun(s, t, op);
    case LockStep(t, op) => LockingKeepsRun(s, t, op);
    case JobStep(v) => JobKeepsRun(s, v);
    case WorkerStep => WorkerKeepsRun(s);
    case _ =>
  }
}
