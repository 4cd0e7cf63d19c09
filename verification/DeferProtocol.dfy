/**
 Deferred callbacks (urcu-defer-impl.h) with all their threads: owners that defer,
 empty their own queue when it is full, register and unregister; any thread that
 calls rcu_defer_barrier; and the defer thread that sleeps on a futex, is started
 with the first registration and stopped with the last unregistration.

 Every access to shared memory is one step. What happens under rcu_defer_mutex is
 the `job` of whoever holds it, which also goes step by step.
 */
module DeferProtocol {
  import GP = GracePeriod
  import opened DeferCodec
  import opened DeferRing
  import St = DeferStore

  type Tid = GP.Tid

  datatype Option<T> = None | Some(value: T)

  /** What a thread wants rcu_defer_mutex for. */
  datatype Task =
    | Flush(c: Call)
    | OwnBarrier
    | Barrier(back: Pc)
    | Unregister

  datatype Pc =
    | New
    | Out
    | Idle
    | Registering
    | Registered(wasEmpty: bool)
    | LoadTail(c: Call)
    | Flushed(c: Call)
    | Filling(o: St.Owner)
    | WantLock(k: Task)
    | Locked(k: Task)
    | Unregistered(last: bool)
    | WakeRead(stopper: bool)
    | WakeSet(stopper: bool)
    | WakeCall(stopper: bool)
    | Join

  /** The defer thread. */
  datatype Worker =
    | NotRunning
    | DecFutex
    | TestStop
    | ExitFutex
    | Exited
    | WantCount
    | Counting
    | SetZero
    | ReadFutex
    | FutexWait
    | Asleep
    | TestEmpty
    | WantBarrier
    | InBarrier

  datatype Who = Thread(t: Tid) | Worker

  /** What the holder of rcu_defer_mutex is doing: loading the heads of the queues
      `left`, waiting for a grace period, draining up to its goals, or counting. */
  datatype Job =
    | Free
    | Snap(who: Who, left: set<Tid>, goal: map<Tid, St.Goal>, items: nat)
    | Sync(who: Who, goal: map<Tid, St.Goal>)
    | InSync(who: Who, goal: map<Tid, St.Goal>)
    | NextQueue(who: Who, goal: map<Tid, St.Goal>, left: set<Tid>)
    | Drain(who: Who, goal: map<Tid, St.Goal>, left: set<Tid>, t: Tid, d: St.Drainer)
    | Count(left: set<Tid>, items: nat)

  /** `q` of a thread that is not registered any more has been freed: its ring is
      empty. `busy` holds defer_thread_mutex. `fault` records a failed assertion of
      the source, an access to a freed queue, or a second start of the thread. */
  datatype State = State(
    qs: map<Tid, St.Queue>,
    reg: set<Tid>,
    job: Job,
    futex: int,
    stop: bool,
    w: Worker,
    th: map<Tid, Pc>,
    busy: Option<Tid>,
    gp: GP.Spec,
    fault: bool)

  /** The steps of a thread that does not hold rcu_defer_mutex: of registration, of
      unregistration with the stop of the defer thread, of defer_rcu up to the store to
      the head, of wake_up_defer, and on the way to the mutex. */
  datatype RegisterOp = BeginRegister | AddQueue | StartThread

  datatype UnregisterOp = BeginUnregister | EndUnregister | JoinThread

  datatype DeferOp = CallDefer(c: Call) | TestRoom | StartFilling | StoreWord | PublishHead

  datatype WakeOp = ReadFutexToWake | SetFutex | CallWake

  datatype LockOp = CallBarrier | CallOwnBarrier | TakeMutex

  datatype Action =
    | RegisterStep(t: Tid, r: RegisterOp)
    | UnregisterStep(t: Tid, u: UnregisterOp)
    | DeferStep(t: Tid, d: DeferOp)
    | WakeStep(t: Tid, k: WakeOp)
    | LockStep(t: Tid, l: LockOp)
    | JobStep(v: Tid)
    | WorkerStep
    | Reader(e: GP.Event)
    | OtherGracePeriod(e: GP.Event)

  // The futex is an int32_t.
  function Decremented(x: int): int { if x == -0x8000_0000 then 0x7FFF_FFFF else x - 1 }

  predicate Mapped(qs: map<Tid, St.Queue>, t: Tid) { t in qs && |qs[t].ring| == SIZE }

  predicate Enabled(s: State, a: Action) {
    match a
    case RegisterStep(t, op) => CanRegister(s, t, op)
    case UnregisterStep(t, op) => CanUnregister(s, t, op)
    case DeferStep(t, op) => CanDefer(s, t, op)
    case WakeStep(t, op) => CanWake(s, t, op)
    case LockStep(t, op) => CanLock(s, t, op)
    case JobStep(v) => JobEnabled(s, v)
    case WorkerStep => WorkerEnabled(s)
    case Reader(e) => (e.Enter? || e.Exit?) && GP.Enabled(s.gp, e)
    case OtherGracePeriod(e) => (e.Begin? || e.End?) && !s.job.InSync? && GP.Enabled(s.gp, e)
  }

  predicate CanRegister(s: State, t: Tid, op: RegisterOp) {
    t in s.th &&
    match op
    case BeginRegister => s.th[t] == New && s.busy == None
    case AddQueue => s.th[t] == Registering && s.job == Free
    case StartThread => s.th[t].Registered?
  }

  predicate CanUnregister(s: State, t: Tid, op: UnregisterOp) {
    t in s.th &&
    match op
    case BeginUnregister => s.th[t] == Idle && s.busy == None
    case EndUnregister => s.th[t].Unregistered?
    case JoinThread => s.th[t] == Join && s.w == Exited
  }

  predicate CanDefer(s: State, t: Tid, op: DeferOp) {
    t in s.th &&
    match op
    case CallDefer(_) => s.th[t] == Idle
    case TestRoom => s.th[t].LoadTail?
    case StartFilling => s.th[t].Flushed?
    case StoreWord => s.th[t].Filling? && s.th[t].o.Storing? && s.th[t].o.n < |s.th[t].o.e|
    case PublishHead => s.th[t].Filling? && s.th[t].o.Storing? && s.th[t].o.n == |s.th[t].o.e|
  }

  predicate CanWake(s: State, t: Tid, op: WakeOp) {
    t in s.th &&
    match op
    case ReadFutexToWake => s.th[t].WakeRead?
    case SetFutex => s.th[t].WakeSet?
    case CallWake => s.th[t].WakeCall?
  }

  predicate CanLock(s: State, t: Tid, op: LockOp) {
    t in s.th &&
    match op
    case CallBarrier => s.th[t] == New || s.th[t] == Idle || s.th[t] == Out
    case CallOwnBarrier => s.th[t] == Idle
    case TakeMutex => s.th[t].WantLock? && s.job == Free
  }

  predicate JobEnabled(s: State, u: Tid) {
    match s.job
    case Free => false
    case Snap(_, left, _, _) => left == {} || u in left
    case Sync(_, _) => GP.Enabled(s.gp, GP.Begin)
    case InSync(_, _) => GP.Enabled(s.gp, GP.End)
    case NextQueue(_, goal, left) => left == {} || (u in left && u in goal)
    case Drain(_, goal, _, t, d) => t in goal && d.At?
    case Count(left, _) => left == {} || u in left
  }

  predicate WorkerEnabled(s: State) {
    match s.w
    case NotRunning => false
    case Exited => false
    case Asleep => false
    case Counting => false
    case InBarrier => false
    case WantCount => s.job == Free
    case WantBarrier => s.job == Free
    case _ => true
  }

  // ------------------------------------------------------------------- steps

  function SetTh(s: State, t: Tid, p: Pc): State {
    s.(th := s.th[t := p])
  }

  /** What a thread does next in wake_up_defer's caller. */
  function Woken(stopper: bool): Pc { if stopper then Join else Idle }

  /** The queues a task loads the heads of. */
  function Scope(s: State, t: Tid, k: Task): set<Tid> {
    if k.Barrier? then s.reg else {t}
  }

  function ApplyRegister(s: State, t: Tid, op: RegisterOp): State
    requires CanRegister(s, t, op)
  {
    match op
    case BeginRegister => SetTh(s, t, Registering).(busy := Some(t))
    case AddQueue =>
      SetTh(s, t, Registered(s.reg == {})).(reg := s.reg + {t}, qs := s.qs[t := St.NewQueue()])
    case StartThread =>
      if s.th[t].wasEmpty then
        SetTh(s, t, Idle).(busy := None, w := DecFutex, fault := s.fault || s.w != NotRunning)
      else
        SetTh(s, t, Idle).(busy := None)
  }

  function ApplyUnregister(s: State, t: Tid, op: UnregisterOp): State
    requires CanUnregister(s, t, op)
  {
    match op
    case BeginUnregister => SetTh(s, t, WantLock(Unregister)).(busy := Some(t))
    case EndUnregister =>
      if s.th[t].last then SetTh(s, t, WakeRead(true)).(stop := true) else SetTh(s, t, Out).(busy := None)
    case JoinThread =>
      SetTh(s, t, Out).(stop := false, w := NotRunning, busy := None, fault := s.fault || s.futex != 0)
  }

  /** The owner of a queue moves on, and changes it. */
  function SetOwn(s: State, t: Tid, p: Pc, q: St.Queue): State {
    s.(th := s.th[t := p], qs := s.qs[t := q])
  }

  /** A step of defer_rcu on the thread's own queue, which is there. */
  function OnQueue(s: State, t: Tid, op: DeferOp): State
    requires CanDefer(s, t, op) && !op.CallDefer? && Mapped(s.qs, t)
  {
    var p, q := s.th[t], s.qs[t];
    match op
    case TestRoom =>
      if St.TooFull(q.head, q.tail) then
        SetTh(s, t, WantLock(Flush(p.c))).(fault := s.fault || Minus(q.head, q.tail) > SIZE)
      else
        SetOwn(s, t, Filling(St.Start(q, p.c)), St.Started(q, p.c))
    case StartFilling =>
      SetOwn(s, t, Filling(St.Start(q, p.c)), St.Started(q, p.c))
      .(fault := s.fault || Minus(q.head, q.tail) != 0)
    case StoreWord => SetOwn(s, t, Filling(St.StoredNext(p.o)), St.StoreNext(q, p.o))
    case PublishHead => SetOwn(s, t, WakeRead(false), St.Publish(q, p.o))
  }

  function ApplyDefer(s: State, t: Tid, op: DeferOp): State
    requires CanDefer(s, t, op)
  {
    if op.CallDefer? then SetTh(s, t, LoadTail(op.c))
    else if Mapped(s.qs, t) then OnQueue(s, t, op)
    else s.(fault := true)
  }

  function ApplyWake(s: State, t: Tid, op: WakeOp): State
    requires CanWake(s, t, op)
  {
    var stopper := s.th[t].stopper;
    match op
    case ReadFutexToWake => SetTh(s, t, if s.futex == -1 then WakeSet(stopper) else Woken(stopper))
    case SetFutex => SetTh(s, t, WakeCall(stopper)).(futex := 0)
    case CallWake => SetTh(s, t, Woken(stopper)).(w := if s.w == Asleep then TestEmpty else s.w)
  }

  function ApplyLock(s: State, t: Tid, op: LockOp): State
    requires CanLock(s, t, op)
  {
    var p := s.th[t];
    match op
    case CallBarrier => SetTh(s, t, if s.reg == {} then p else WantLock(Barrier(p)))
    case CallOwnBarrier => SetTh(s, t, WantLock(OwnBarrier))
    case TakeMutex =>
      SetTh(s, t, Locked(p.k)).(
        job := Snap(Thread(t), Scope(s, t, p.k), map[], 0),
        reg := if p.k == Unregister then s.reg - {t} else s.reg)
  }

  /** Where the holder of the mutex goes on after unlocking it. */
  function Unlocked(p: Pc, reg: set<Tid>): Pc {
    if !p.Locked? then p
    else
      match p.k
      case Flush(c) => Flushed(c)
      case OwnBarrier => Idle
      case Barrier(back) => back
      case Unregister => Unregistered(reg == {})
  }

  /** What becomes of the queue of the thread that unlocks. */
  function Released(q: St.Queue, p: Pc): St.Queue {
    if p == Locked(Unregister) then q.(ring := []) else q
  }

  /** The end of a job. Unregistering frees the queue before it unlocks. */
  function Finish(s: State, who: Who): State {
    match who
    case Worker => s.(job := Free, w := DecFutex)
    case Thread(t) =>
      if t in s.th then
        var s' := SetTh(s, t, Unlocked(s.th[t], s.reg)).(job := Free);
        if t in s.qs then s'.(qs := s.qs[t := Released(s.qs[t], s.th[t])]) else s'
      else s
  }

  /** One head loaded, with the items behind it. */
  function Loaded(job: Job, u: Tid, q: St.Queue): Job
    requires job.Snap?
  {
    Snap(job.who, job.left - {u}, job.goal[u := St.Goal(q.head, |q.calls|)], job.items + Minus(q.head, q.tail))
  }

  function LoadHead(s: State, u: Tid): State
    requires s.job.Snap?
  {
    if Mapped(s.qs, u) then s.(job := Loaded(s.job, u, s.qs[u])) else s.(fault := true)
  }

  function Beginning(job: Job, u: Tid, tail: Word): Job
    requires job.NextQueue?
  {
    Drain(job.who, job.goal, job.left - {u}, u, St.At(tail, St.First))
  }

  function BeginDrain(s: State, u: Tid): State
    requires s.job.NextQueue?
  {
    if Mapped(s.qs, u) then s.(job := Beginning(s.job, u, s.qs[u].tail)) else s.(fault := true)
  }

  function DrainedJob(job: Job, d: St.Drainer): Job
    requires job.Drain?
  {
    if d == St.Away then NextQueue(job.who, job.goal, job.left) else job.(d := d)
  }

  function DrainOnce(s: State): State
    requires s.job.Drain? && s.job.t in s.job.goal && s.job.d.At?
  {
    var t, d, goal := s.job.t, s.job.d, s.job.goal[s.job.t].head;
    if Mapped(s.qs, t) then
      s.(qs := s.qs[t := St.Drained(s.qs[t], d, goal)], job := DrainedJob(s.job, St.DrainedTo(s.qs[t], d, goal)))
    else s.(fault := true)
  }

  function CountOne(s: State, u: Tid): State
    requires s.job.Count?
  {
    if Mapped(s.qs, u) then
      s.(job := Count(s.job.left - {u}, s.job.items + Minus(s.qs[u].head, s.qs[u].tail)))
    else s.(fault := true)
  }

  function JobApply(s: State, u: Tid): State
    requires JobEnabled(s, u)
  {
    match s.job
    case Snap(who, left, goal, items) =>
      if left != {} then LoadHead(s, u)
      else if items == 0 then Finish(s, who)
      else s.(job := Sync(who, goal))
    case Sync(who, goal) => s.(gp := GP.Apply(s.gp, GP.Begin), job := InSync(who, goal))
    case InSync(who, goal) => s.(gp := GP.Apply(s.gp, GP.End), job := NextQueue(who, goal, goal.Keys))
    case NextQueue(who, goal, left) => if left == {} then Finish(s, who) else BeginDrain(s, u)
    case Drain(_, _, _, _, _) => DrainOnce(s)
    case Count(left, items) =>
      if left != {} then CountOne(s, u)
      else s.(job := Free, w := if items != 0 then SetZero else ReadFutex)
  }

  function WorkerApply(s: State): State
    requires WorkerEnabled(s)
  {
    match s.w
    case DecFutex => s.(futex := Decremented(s.futex), w := TestStop)
    case TestStop => s.(w := if s.stop then ExitFutex else WantCount)
    case ExitFutex => s.(futex := 0, w := Exited)
    case WantCount => s.(w := Counting, job := Count(s.reg, 0))
    case SetZero => s.(futex := 0, w := TestEmpty)
    case ReadFutex => s.(w := if s.futex == -1 then FutexWait else TestEmpty)
    case FutexWait => s.(w := if s.futex == -1 then Asleep else TestEmpty)
    case TestEmpty => s.(w := if s.reg == {} then DecFutex else WantBarrier)
    case WantBarrier => s.(w := InBarrier, job := Snap(Worker, s.reg, map[], 0))
  }

  function Apply(s: State, a: Action): State
    requires Enabled(s, a)
  {
    match a
    case RegisterStep(t, op) => ApplyRegister(s, t, op)
    case UnregisterStep(t, op) => ApplyUnregister(s, t, op)
    case DeferStep(t, op) => ApplyDefer(s, t, op)
    case WakeStep(t, op) => ApplyWake(s, t, op)
    case LockStep(t, op) => ApplyLock(s, t, op)
    case JobStep(v) => JobApply(s, v)
    case WorkerStep => WorkerApply(s)
    case Reader(e) => s.(gp := GP.Apply(s.gp, e))
    case OtherGracePeriod(e) => s.(gp := GP.Apply(s.gp, e))
  }

  predicate Init(s: State) {
    && s.qs == map[] && s.reg == {} && s.job == Free
    && s.futex == 0 && !s.stop && s.w == NotRunning
    && (forall t <- s.th :: s.th[t] == New || s.th[t] == Out)
    && s.busy == None && !s.fault
  }

  ghost predicate Next(s: State, s': State) {
    exists a :: Enabled(s, a) && s' == Apply(s, a)
  }

  ghost predicate StepAt(tr: seq<State>, i: nat)
    requires i + 1 < |tr|
  {
    Next(tr[i], tr[i + 1])
  }

  ghost predicate Run(tr: seq<State>) {
    && tr != []
    && Init(tr[0])
    && forall i: nat :: i + 1 < |tr| ==> StepAt(tr, i)
  }
}
