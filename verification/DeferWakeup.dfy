/**
 The futex of the defer thread: why it does not sleep through a published call or
 the stop flag.
 */
module DeferWakeup {
  import St = DeferStore
  import opened DeferProtocol
  import opened DeferPlaces
  import opened DeferGoals

  /** A thread that published a call or the stop flag and has still to look at the
      futex or to set it. */
  predicate WillLook(p: Pc) { p.WakeRead? || p.WakeSet? }

  ghost predicate Waker(th: map<Tid, Pc>) {
    exists t <- th :: WillLook(th[t])
  }

  ghost predicate Caller(th: map<Tid, Pc>) {
    exists t <- th :: th[t].WakeCall?
  }

  /** Some registered queue, outside `left`, shows words between tail and head. */
  ghost predicate Queued(qs: map<Tid, St.Queue>, reg: set<Tid>, left: set<Tid>) {
    exists u <- reg :: u !in left && u in qs && qs[u].head != qs[u].tail
  }

  predicate PastCount(w: Worker) { w.ReadFutex? || w.FutexWait? || w.Asleep? }

  predicate PastStop(w: Worker) { w.WantCount? || w.Counting? || PastCount(w) }

  /** From its look at a queue, respectively at the stop flag, until it sleeps,
      whatever the defer thread has not seen has a waker that will find the futex at
      -1; once a waker has set it, that waker owes a FUTEX_WAKE. */
  ghost predicate WakeInv(s: State) {
    && (s.futex == -1 && PastCount(s.w) && Queued(s.qs, s.reg, {}) ==> Waker(s.th))
    && (s.futex == -1 && s.job.Count? && s.job.items == 0 && Queued(s.qs, s.reg, s.job.left) ==> Waker(s.th))
    && (s.futex == -1 && PastStop(s.w) && s.stop ==> Waker(s.th))
    && (s.w.Asleep? && s.futex != -1 ==> Caller(s.th))
  }

  lemma WakersStay(th: map<Tid, Pc>, t: Tid, p: Pc)
    requires t in th && (WillLook(th[t]) ==> WillLook(p)) && (th[t].WakeCall? ==> p.WakeCall?)
    ensures Waker(th) ==> Waker(th[t := p])
    ensures Caller(th) ==> Caller(th[t := p])
  {
    if Waker(th) {
      var u :| u in th && WillLook(th[u]);
      assert WillLook(th[t := p][u]);
    }
    if Caller(th) {
      var u :| u in th && th[u].WakeCall?;
      assert th[t := p][u].WakeCall?;
    }
  }

  /** Changing one queue does not make it look queued. */
  lemma QueuedStays(qs: map<Tid, St.Queue>, reg: set<Tid>, left: set<Tid>, t: Tid, q: St.Queue)
    requires t in qs && (qs[t].head == qs[t].tail ==> q.head == q.tail)
    ensures Queued(qs[t := q], reg, left) ==> Queued(qs, reg, left)
  {
  }

  /** One thread moves, and no queue comes to look queued. */
  lemma MoveKeepsWake(s: State, s': State, t: Tid)
    requires WakeInv(s) && t in s.th && t in s'.th && s'.th == s.th[t := s'.th[t]]
    requires (WillLook(s.th[t]) ==> WillLook(s'.th[t])) && (s.th[t].WakeCall? ==> s'.th[t].WakeCall?)
    requires Queued(s'.qs, s'.reg, {}) ==> Queued(s.qs, s.reg, {})
    requires s'.job.Count? ==>
               s'.job == s.job && (Queued(s'.qs, s'.reg, s.job.left) ==> Queued(s.qs, s.reg, s.job.left))
    requires s'.futex == s.futex && s'.stop == s.stop && s'.w == s.w
    ensures WakeInv(s')
  {
    WakersStay(s.th, t, s'.th[t]);
  }

  lemma AddingKeepsWake(s: State, t: Tid)
    requires WakeInv(s) && QueueInv(s) && CanRegister(s, t, AddQueue)
    ensures WakeInv(ApplyRegister(s, t, AddQueue))
  {
    var s' := ApplyRegister(s, t, AddQueue);
    assert forall u :: u in s'.reg && u in s'.qs && s'.qs[u].head != s'.qs[u].tail ==>
                         u in s.reg && u in s.qs && s.qs[u].head != s.qs[u].tail;
    MoveKeepsWake(s, s', t);
  }

  lemma RegisteringKeepsWake(s: State, t: Tid, op: RegisterOp)
    requires WakeInv(s) && QueueInv(s) && CanRegister(s, t, op)
    ensures WakeInv(ApplyRegister(s, t, op))
  {
    if op == AddQueue {
      AddingKeepsWake(s, t);
    } else {
      WakersStay(s.th, t, ApplyRegister(s, t, op).th[t]);
    }
  }

  lemma UnregisteringKeepsWake(s: State, t: Tid, op: UnregisterOp)
    requires WakeInv(s) && CanUnregister(s, t, op)
    ensures WakeInv(ApplyUnregister(s, t, op))
  {
    var s' := ApplyUnregister(s, t, op);
    WakersStay(s.th, t, s'.th[t]);
    assert WillLook(s'.th[t]) ==> Waker(s'.th);
  }

  lemma FillingKeepsWake(s: State, t: Tid, op: DeferOp)
    requires WakeInv(s) && CanDefer(s, t, op) && !op.CallDefer? && Mapped(s.qs, t) && op != PublishHead
    ensures WakeInv(OnQueue(s, t, op))
  {
    var s' := OnQueue(s, t, op);
    QueuedStays(s.qs, s.reg, {}, t, s'.qs[t]);
    QueuedStays(s.qs, s.reg, LeftOf(s.job), t, s'.qs[t]);
    MoveKeepsWake(s, s', t);
  }

  lemma DeferringKeepsWake(s: State, t: Tid, op: DeferOp)
    requires WakeInv(s) && CanDefer(s, t, op)
    ensures WakeInv(ApplyDefer(s, t, op))
  {
    if op.CallDefer? {
      MoveKeepsWake(s, SetTh(s, t, LoadTail(op.c)), t);
    } else if Mapped(s.qs, t) {
      if op == PublishHead {
        WakersStay(s.th, t, WakeRead(false));
        assert WillLook(OnQueue(s, t, op).th[t]);
      } else {
        FillingKeepsWake(s, t, op);
      }
    }
  }

  lemma WakingKeepsWake(s: State, t: Tid, op: WakeOp)
    requires WakeInv(s) && CanWake(s, t, op)
    ensures WakeInv(ApplyWake(s, t, op))
  {
    var s' := ApplyWake(s, t, op);
    if op == ReadFutexToWake && s.futex == -1 {
      WakersStay(s.th, t, s'.th[t]);
    } else if op == SetFutex {
      assert s'.th[t].WakeCall?;
    } else {
      assert forall u <- s.th :: u != t ==> s'.th[u] == s.th[u];
    }
  }

  lemma LockingKeepsWake(s: State, t: Tid, op: LockOp)
    requires WakeInv(s) && CanLock(s, t, op)
    ensures WakeInv(ApplyLock(s, t, op))
  {
    MoveKeepsWake(s, ApplyLock(s, t, op), t);
  }

  lemma FinishKeepsWake(s: State)
    requires WakeInv(s) && LockInv(s) && Finishing(s.job)
    ensures WakeInv(Finish(s, s.job.who))
  {
    var s' := Finish(s, s.job.who);
    if s.job.who.Thread? {
      var t := s.job.who.t;
      WakersStay(s.th, t, s'.th[t]);
      if t in s.qs {
        QueuedStays(s.qs, s.reg, {}, t, s'.qs[t]);
      }
    }
  }

  lemma CountKeepsWake(s: State, u: Tid)
    requires WakeInv(s) && s.job.Count? && u in s.job.left
    ensures WakeInv(CountOne(s, u))
  {
  }

  lemma DrainKeepsWake(s: State)
    requires WakeInv(s) && QueueInv(s) && s.job.Drain?
    ensures WakeInv(DrainOnce(s))
  {
    var t := s.job.t;
    assert GoalAt(s.qs[t], s.job, t) && QueueOk(s.qs[t], s.th[t], s.job, t);
    DrainStep(s.qs[t], s.th[t], s.job);
    QueuedStays(s.qs, s.reg, {}, t, DrainOnce(s).qs[t]);
  }

  /** The end of the count: what it found empty was, or has a waker. */
  lemma CountEndKeepsWake(s: State)
    requires WakeInv(s) && LockInv(s) && s.job.Count? && s.job.left == {}
    ensures WakeInv(s.(job := Free, w := if s.job.items != 0 then SetZero else ReadFutex))
  {
  }

  lemma QuietJobKeepsWake(s: State, u: Tid)
    requires WakeInv(s) && JobEnabled(s, u) && !Finishing(s.job) && !s.job.Drain? && !s.job.Count?
    ensures WakeInv(JobApply(s, u))
  {
    JobFrame(s, u);
    JobHolder(s, u);
    JobKeepsFutex(s, u);
    OtherJobsTouchNoQueue(s, u);
  }

  lemma JobKeepsWake(s: State, u: Tid)
    requires WakeInv(s) && QueueInv(s) && LockInv(s) && JobEnabled(s, u)
    ensures WakeInv(JobApply(s, u))
  {
    if Finishing(s.job) {
      FinishKeepsWake(s);
    } else if s.job.Drain? {
      DrainKeepsWake(s);
    } else if !s.job.Count? {
      QuietJobKeepsWake(s, u);
    } else if s.job.left != {} {
      CountKeepsWake(s, u);
    } else {
      CountEndKeepsWake(s);
    }
  }

  lemma WorkerKeepsWake(s: State)
    requires WakeInv(s) && LockInv(s) && WorkerEnabled(s)
    ensures WakeInv(WorkerApply(s))
  {
  }

  lemma StepKeepsWake(s: State, a: Action)
    requires WakeInv(s) && QueueInv(s) && LockInv(s) && Enabled(s, a)
    ensures WakeInv(Apply(s, a))
  {
    match a
    case RegisterStep(t, op) => RegisteringKeepsWake(s, t, op);
    case UnregisterStep(t, op) => UnregisteringKeepsWake(s, t, op);
    case DeferStep(t, op) => DeferringKeepsWake(s, t, op);
    case WakeStep(t, op) => WakingKeepsWake(s, t, op);
    case LockStep(t, op) => LockingKeepsWake(s, t, op);
    case JobStep(v) => JobKeepsWake(s, v);
    case WorkerStep => WorkerKeepsWake(s);
    case _ =>
  }
}
