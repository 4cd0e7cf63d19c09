/**
 The two-flip grace-period algorithm (urcu.c, RCU_MB flavour).

 Every access to the global counter, to a reader's counter and to the lists is
 one atomic step; any number of threads run in any interleaving. A reader that
 opens an outermost section loads the global counter and stores it in two steps,
 so it may be paused in between with a stale phase, for any length of time.
 */
module ParityRcu {
  import GP = GracePeriod
  import opened Sequences

  type Tid = GP.Tid
  type Ctr = nat

  // RCU_GP_COUNT and RCU_GP_CTR_PHASE for a 64-bit long.
  const COUNT: nat := 1
  const PHASE: nat := 0x1_0000_0000

  /** ctr & RCU_GP_CTR_NEST_MASK */
  function Nest(c: Ctr): nat { c % PHASE }

  /** The RCU_GP_CTR_PHASE bit of a counter. */
  function Phase(c: Ctr): nat { (c / PHASE) % 2 }

  /** ctr ^ RCU_GP_CTR_PHASE */
  function Flip(c: Ctr): Ctr {
    if Phase(c) == 0 then c + PHASE else c - PHASE
  }

  /** rcu_gp_ongoing */
  predicate Ongoing(c: Ctr, gp: Ctr) {
    Nest(c) != 0 && Phase(c) != Phase(gp)
  }

  /** What a thread is doing: nothing of this module, between the load of the
      global counter and its store, waiting for rcu_gp_lock inside
      synchronize_rcu, or running a grace period. */
  datatype Pc = Idle | LockLoaded(v: Ctr) | SyncCalled | Syncing

  datatype Thread = Thread(ctr: Ctr, pc: Pc)

  /** The holder of rcu_gp_lock and how far it is: about to flip for pass 1 or 2,
      scanning the registry at `pos`, or about to release the lock. */
  datatype Writer =
    | NoWriter
    | Flipping(owner: Tid, pass: nat)
    | Scanning(owner: Tid, pass: nat, pos: nat)
    | Leaving(owner: Tid)

  /** `awaited` is a history variable: the threads inside a section when the lock
      was taken that have not left it. No step tests it. */
  datatype State = State(
    gp: Ctr,
    th: map<Tid, Thread>,
    registry: seq<Tid>,
    qs: seq<Tid>,
    w: Writer,
    awaited: set<Tid>)

  datatype Action =
    | Register(t: Tid)
    | Unregister(t: Tid)
    | LockLoad(t: Tid)
    | LockStore(t: Tid)
    | LockNested(t: Tid)
    | Unlock(t: Tid)
    | CallSync(t: Tid)
    | AcquireGpLock(t: Tid)
    | FlipPhase
    | ScanOne
    | EndPass
    | Release

  predicate Registered(s: State, t: Tid) {
    t in s.registry || t in s.qs
  }

  function Inside(s: State): set<Tid> {
    set t | t in s.th && Nest(s.th[t].ctr) != 0
  }

  predicate IdleThread(s: State, t: Tid) {
    t in s.th && s.th[t].pc == Idle
  }

  /** When a step can be taken. Only registered threads read, a thread leaves the
      registry outside sections, and sections nest less deep than the mask. */
  predicate Enabled(s: State, a: Action) {
    match a
    case Register(t) =>
      IdleThread(s, t) && s.w == NoWriter && !Registered(s, t) && Nest(s.th[t].ctr) == 0
    case Unregister(t) =>
      IdleThread(s, t) && s.w == NoWriter && Registered(s, t) && Nest(s.th[t].ctr) == 0
    case LockLoad(t) =>
      IdleThread(s, t) && Registered(s, t) && Nest(s.th[t].ctr) == 0
    case LockStore(t) =>
      t in s.th && s.th[t].pc.LockLoaded?
    case LockNested(t) =>
      IdleThread(s, t) && 0 < Nest(s.th[t].ctr) < PHASE - COUNT
    case Unlock(t) =>
      IdleThread(s, t) && Nest(s.th[t].ctr) != 0
    case CallSync(t) =>
      IdleThread(s, t)
    case AcquireGpLock(t) =>
      t in s.th && s.th[t].pc == SyncCalled && s.w == NoWriter
    case FlipPhase => s.w.Flipping?
    case ScanOne => s.w.Scanning? && s.w.pos < |s.registry|
    case EndPass => s.w.Scanning? && s.w.pos == |s.registry|
    case Release => s.w.Leaving? && s.w.owner in s.th
  }

  function SetThread(s: State, t: Tid, th: Thread): State {
    s.(th := s.th[t := th])
  }

  function Apply(s: State, a: Action): State
    requires Enabled(s, a)
  {
    match a
    case Register(t) => s.(registry := [t] + s.registry)
    case Unregister(t) => s.(registry := Without(s.registry, t))
    case LockLoad(t) => SetThread(s, t, s.th[t].(pc := LockLoaded(s.gp)))
    case LockStore(t) => SetThread(s, t, Thread(s.th[t].pc.v, Idle))
    case LockNested(t) => SetThread(s, t, s.th[t].(ctr := s.th[t].ctr + COUNT))
    case Unlock(t) =>
      var s1 := SetThread(s, t, s.th[t].(ctr := s.th[t].ctr - COUNT));
      if Nest(s.th[t].ctr) == COUNT then s1.(awaited := s.awaited - {t}) else s1
    case CallSync(t) => SetThread(s, t, s.th[t].(pc := SyncCalled))
    case AcquireGpLock(t) =>
      var s1 := SetThread(s, t, s.th[t].(pc := Syncing)).(awaited := Inside(s));
      s1.(w := if s.registry == [] then Leaving(t) else Flipping(t, 1))
    case FlipPhase =>
      s.(gp := Flip(s.gp), w := Scanning(s.w.owner, s.w.pass, 0))
    case ScanOne =>
      var r := s.registry[s.w.pos];
      if r in s.th && Ongoing(s.th[r].ctr, s.gp) then
        s.(w := s.w.(pos := s.w.pos + 1))
      else
        s.(registry := Drop(s.registry, s.w.pos), qs := [r] + s.qs)
    case EndPass =>
      if s.registry != [] then
        s.(w := s.w.(pos := 0))
      else
        s.(registry := s.qs, qs := [],
           w := if s.w.pass == 1 then Flipping(s.w.owner, 2) else Leaving(s.w.owner))
    case Release =>
      SetThread(s, s.w.owner, s.th[s.w.owner].(pc := Idle)).(w := NoWriter)
  }

  predicate Init(s: State) {
    && s.gp == COUNT
    && (forall t <- s.th :: s.th[t] == Thread(0, Idle))
    && s.registry == s.qs == []
    && s.w == NoWriter
    && s.awaited == {}
  }

  ghost predicate Next(s: State, s': State) {
    exists a :: Enabled(s, a) && s' == Apply(s, a)
  }

  ghost predicate StepAt(tr: seq<State>, i: nat)
    requires i + 1 < |tr|
  {
    Next(tr[i], tr[i + 1])
  }

  ghost predicate Run(tr: seq<State>) {
    && tr != []
    && Init(tr[0])
    && forall i: nat :: i + 1 < |tr| ==> StepAt(tr, i)
  }

  // ---------------------------------------------------------------- invariant

  ghost predicate GoodCtr(c: Ctr) { c < 2 * PHASE }

  ghost predicate GoodGp(c: Ctr) { c == COUNT || c == COUNT + PHASE }

  ghost predicate ThreadInv(s: State, t: Tid)
    requires t in s.th
  {
    && GoodCtr(s.th[t].ctr)
    && (Nest(s.th[t].ctr) != 0 ==> Registered(s, t))
    && (s.th[t].pc.LockLoaded? ==>
          GoodGp(s.th[t].pc.v) && Nest(s.th[t].ctr) == 0 && Registered(s, t))
  }

  /** Where the writer stands with a reader it still has to wait for. */
  ghost predicate Blocked(s: State, t: Tid)
    requires t in s.th
  {
    var same := Phase(s.th[t].ctr) == Phase(s.gp);
    && Nest(s.th[t].ctr) != 0
    && match s.w
       case NoWriter => false
       case Flipping(_, pass) => pass == 2 ==> same
       case Scanning(_, pass, _) =>
         if pass == 1 then same || t !in s.qs else !same && t !in s.qs
       case Leaving(_) => false
  }

  ghost predicate WriterInv(s: State) {
    match s.w
    case NoWriter => s.qs == []
    case Flipping(o, pass) => s.qs == [] && pass in {1, 2} && o in s.th && s.th[o].pc == Syncing
    case Scanning(o, pass, pos) =>
      pos <= |s.registry| && pass in {1, 2} && o in s.th && s.th[o].pc == Syncing
    case Leaving(o) => s.qs == [] && o in s.th && s.th[o].pc == Syncing
  }

  ghost predicate Inv(s: State) {
    && GoodGp(s.gp)
    && WriterInv(s)
    && (forall t <- s.th :: ThreadInv(s, t))
    && (forall t <- s.awaited :: t in s.th && Blocked(s, t))
  }

  /** Nesting and un-nesting by one never carry into the phase bit. */
  lemma CountArithmetic(c: Ctr)
    requires GoodCtr(c)
    ensures Nest(c) < PHASE - COUNT ==>
              GoodCtr(c + COUNT) && Nest(c + COUNT) == Nest(c) + COUNT && Phase(c + COUNT) == Phase(c)
    ensures Nest(c) != 0 ==>
              COUNT <= c && Nest(c - COUNT) == Nest(c) - COUNT && Phase(c - COUNT) == Phase(c)
  {
  }

  /** A step that changes nothing but one reader, and at most stops awaiting it. */
  lemma ReaderKeepsInv(s: State, s': State, t: Tid)
    requires Inv(s) && t in s.th && s.th[t].pc != Syncing && t in s'.th && ThreadInv(s', t)
    requires s' == SetThread(s, t, s'.th[t]).(awaited := s'.awaited) && s'.awaited <= s.awaited
    requires t in s'.awaited ==> Blocked(s', t)
    ensures Inv(s')
  {
    assert forall u <- s.th :: u != t ==> s'.th[u] == s.th[u] && Registered(s', u) == Registered(s, u);
  }

  lemma LockStepKeepsInv(s: State, a: Action)
    requires Inv(s) && Enabled(s, a) && (a.LockLoad? || a.LockStore?)
    ensures Inv(Apply(s, a))
  {
    assert a.t !in s.awaited;
    ReaderKeepsInv(s, Apply(s, a), a.t);
  }

  lemma LockNestedKeepsInv(s: State, t: Tid)
    requires Inv(s) && Enabled(s, LockNested(t))
    ensures Inv(Apply(s, LockNested(t)))
  {
    CountArithmetic(s.th[t].ctr);
    assert ThreadInv(s, t);
    ReaderKeepsInv(s, Apply(s, LockNested(t)), t);
  }

  lemma UnlockKeepsInv(s: State, t: Tid)
    requires Inv(s) && Enabled(s, Unlock(t))
    ensures Inv(Apply(s, Unlock(t)))
  {
    CountArithmetic(s.th[t].ctr);
    assert ThreadInv(s, t);
    ReaderKeepsInv(s, Apply(s, Unlock(t)), t);
  }

  lemma WriterStepKeepsInv(s: State, a: Action)
    requires Inv(s) && Enabled(s, a)
    requires a.AcquireGpLock? || a.FlipPhase? || a.EndPass? || a.Release? || a.CallSync?
    ensures Inv(Apply(s, a))
  {
  }

  lemma ScanOneKeepsInv(s: State)
    requires Inv(s) && Enabled(s, ScanOne)
    ensures Inv(Apply(s, ScanOne))
  {
    var s' := Apply(s, ScanOne);
    forall t | Registered(s, t)
      ensures Registered(s', t)
    {
      if t in s.registry && t != s.registry[s.w.pos] {
        DropAt(s.registry, s.w.pos);
      }
    }
  }

  lemma RegistryStepKeepsInv(s: State, a: Action)
    requires Inv(s) && Enabled(s, a) && (a.Register? || a.Unregister?)
    ensures Inv(Apply(s, a))
  {
    forall u ensures u in Without(s.registry, a.t) <==> u in s.registry && u != a.t {
      WithoutKeeps(s.registry, a.t, u);
    }
  }

  lemma StepKeepsInv(s: State, a: Action)
    requires Inv(s) && Enabled(s, a)
    ensures Inv(Apply(s, a))
  {
    match a
    case Register(_) => RegistryStepKeepsInv(s, a);
    case Unregister(_) => RegistryStepKeepsInv(s, a);
    case ScanOne => ScanOneKeepsInv(s);
    case LockLoad(_) => LockStepKeepsInv(s, a);
    case LockStore(_) => LockStepKeepsInv(s, a);
    case LockNested(t) => LockNestedKeepsInv(s, t);
    case Unlock(t) => UnlockKeepsInv(s, t);
    case _ => WriterStepKeepsInv(s, a);
  }

  // --------------------------------------------------------------- refinement

  /** The abstract grace period a state stands for. */
  function Abs(s: State): GP.Spec {
    GP.Spec(Inside(s), s.w != NoWriter, s.awaited)
  }

  function EventOf(s: State, a: Action): GP.Event {
    match a
    case LockStore(t) => GP.Enter(t)
    case Unlock(t) =>
      if t in s.th && Nest(s.th[t].ctr) == COUNT then GP.Exit(t) else GP.Stutter
    case AcquireGpLock(_) => GP.Begin
    case Release => GP.End
    case _ => GP.Stutter
  }

  lemma InsideAfter(s: State, s': State, t: Tid)
    requires t in s.th && t in s'.th && s'.th == s.th[t := s'.th[t]]
    ensures Nest(s'.th[t].ctr) != 0 ==> Inside(s') == Inside(s) + {t}
    ensures Nest(s'.th[t].ctr) == 0 ==> Inside(s') == Inside(s) - {t}
  {
  }

  predicate NestStep(a: Action) { a.LockStore? || a.LockNested? || a.Unlock? }

  lemma NestRefines(s: State, a: Action)
    requires Inv(s) && Enabled(s, a) && NestStep(a)
    ensures GP.Enabled(Abs(s), EventOf(s, a)) && Abs(Apply(s, a)) == GP.Apply(Abs(s), EventOf(s, a))
  {
    CountArithmetic(s.th[a.t].ctr);
    InsideAfter(s, Apply(s, a), a.t);
  }

  /** Every step of the algorithm is one step of the abstract grace period. */
  lemma Refines(s: State, a: Action)
    requires Inv(s) && Enabled(s, a)
    ensures GP.Next(Abs(s), Abs(Apply(s, a)))
  {
    var s' := Apply(s, a);
    if NestStep(a) {
      NestRefines(s, a);
    } else {
      match a {
        case LockLoad(t) => InsideAfter(s, s', t);
        case CallSync(t) => InsideAfter(s, s', t);
        case AcquireGpLock(t) => InsideAfter(s, s', t);
        case Release => InsideAfter(s, s', s.w.owner);
        case _ =>
      }
    }
    var e := EventOf(s, a);
    assert GP.Enabled(Abs(s), e) && Abs(s') == GP.Apply(Abs(s), e);
  }

  lemma {:induction false} RunKeepsInv(tr: seq<State>, k: nat)
    requires Run(tr) && k < |tr|
    ensures Inv(tr[k])
  {
    if k == 0 {
    } else {
      RunKeepsInv(tr, k - 1);
      assert StepAt(tr, k - 1);
      var a :| Enabled(tr[k - 1], a) && tr[k] == Apply(tr[k - 1], a);
      StepKeepsInv(tr[k - 1], a);
    }
  }

  function AbsRun(tr: seq<State>): seq<GP.Spec> {
    seq(|tr|, i requires 0 <= i < |tr| => Abs(tr[i]))
  }

  lemma RunRefines(tr: seq<State>)
    requires Run(tr)
    ensures GP.Run(AbsRun(tr))
  {
    forall i: nat | i + 1 < |tr|
      ensures GP.StepAt(AbsRun(tr), i)
    {
      RunKeepsInv(tr, i);
      assert StepAt(tr, i);
      var a :| Enabled(tr[i], a) && tr[i + 1] == Apply(tr[i], a);
      Refines(tr[i], a);
    }
  }

  /** One call of synchronize_rcu in a run: called at or before state `c`, the
      lock taken at step `i` and released at step `j`. */
  ghost predicate Synchronize(tr: seq<State>, c: nat, i: nat, j: nat) {
    && c <= i < j
    && j + 1 < |tr|
    && tr[i].w == NoWriter
    && (forall m: nat :: i < m <= j ==> tr[m].w != NoWriter)
    && tr[j + 1].w == NoWriter
  }

  /** Grace-period safety: for every run, every call and every thread, whatever
      phase it read and whenever it stored it, there is a moment between the call
      and the return at which the thread is in no section. */
  lemma SectionsEnd(tr: seq<State>, c: nat, i: nat, j: nat, t: Tid)
    requires Run(tr) && Synchronize(tr, c, i, j)
    ensures exists k: nat :: c <= k <= j && t !in Inside(tr[k])
  {
    RunRefines(tr);
    var ab := AbsRun(tr);
    assert GP.Period(ab, i, j);
    GP.SectionsEnd(ab, i, j, t);
    var k: nat :| i <= k <= j && t !in ab[k].inside;
    assert t !in Inside(tr[k]);
  }

  // ------------------------------------------------------- calls and returns

  ghost predicate Takes(tr: seq<State>, acts: seq<Action>, i: nat)
    requires i < |acts| && i + 1 < |tr|
  {
    Enabled(tr[i], acts[i]) && tr[i + 1] == Apply(tr[i], acts[i])
  }

  /** A run together with the actions that make it. */
  ghost predicate Follows(tr: seq<State>, acts: seq<Action>) {
    && |tr| == |acts| + 1
    && Init(tr[0])
    && forall i: nat :: i < |acts| ==> Takes(tr, acts, i)
  }

  lemma FollowsRuns(tr: seq<State>, acts: seq<Action>)
    requires Follows(tr, acts)
    ensures Run(tr)
  {
    forall i: nat | i + 1 < |tr|
      ensures StepAt(tr, i)
    {
      assert Takes(tr, acts, i);
    }
  }

  function DepthChange(a: Action, t: Tid): int {
    match a
    case LockStore(u) => if u == t then 1 else 0
    case LockNested(u) => if u == t then 1 else 0
    case Unlock(u) => if u == t then -1 else 0
    case _ => 0
  }

  /** How many sections a thread has open, by its calls alone: completed locks minus
      unlocks. */
  function Depth(acts: seq<Action>, t: Tid): int {
    if acts == [] then 0 else Depth(acts[..|acts| - 1], t) + DepthChange(acts[|acts| - 1], t)
  }

  /** Whether a thread has begun to open an outermost section and not finished. */
  function Opening(acts: seq<Action>, t: Tid): bool {
    if acts == [] then false
    else
      var a := acts[|acts| - 1];
      if a == LockLoad(t) then true
      else if a == LockStore(t) then false
      else Opening(acts[..|acts| - 1], t)
  }

  lemma OneMoreAction(acts: seq<Action>, k: nat, t: Tid)
    requires k < |acts|
    ensures Depth(acts[..k + 1], t) == Depth(acts[..k], t) + DepthChange(acts[k], t)
    ensures Opening(acts[..k + 1], t) ==
            if acts[k] == LockLoad(t) then true
            else if acts[k] == LockStore(t) then false
            else Opening(acts[..k], t)
  {
    assert acts[..k + 1][..k] == acts[..k];
  }

  lemma StepCountsDepth(s: State, a: Action, t: Tid)
    requires Inv(s) && Enabled(s, a) && t in s.th
    ensures t in Apply(s, a).th
    ensures Nest(Apply(s, a).th[t].ctr) == Nest(s.th[t].ctr) + DepthChange(a, t)
    ensures Apply(s, a).th[t].pc.LockLoaded? <==>
            a == LockLoad(t) || (s.th[t].pc.LockLoaded? && a != LockStore(t))
  {
    match a
    case LockNested(u) => CountArithmetic(s.th[u].ctr);
    case Unlock(u) => CountArithmetic(s.th[u].ctr);
    case _ => assert ThreadInv(s, t);
  }

  /** The reader's word counts its open sections: in every reachable state the nesting
      level in it is the number of locks completed minus the number of unlocks. */
  lemma {:induction false} NestIsDepth(tr: seq<State>, acts: seq<Action>, k: nat, t: Tid)
    requires Follows(tr, acts) && k < |tr| && t in tr[0].th
    ensures t in tr[k].th && Nest(tr[k].th[t].ctr) == Depth(acts[..k], t)
    ensures tr[k].th[t].pc.LockLoaded? <==> Opening(acts[..k], t)
  {
    if k == 0 {
    } else {
      NestIsDepth(tr, acts, k - 1, t);
      FollowsRuns(tr, acts);
      RunKeepsInv(tr, k - 1);
      assert Takes(tr, acts, k - 1);
      StepCountsDepth(tr[k - 1], acts[k - 1], t);
      OneMoreAction(acts, k - 1, t);
    }
  }

  /** Grace-period safety in terms of the calls: no whole grace period fits into a
      section, from the return of its outermost lock to its outermost unlock. */
  lemma NoPeriodInSection(tr: seq<State>, acts: seq<Action>, c: nat, i: nat, j: nat, t: Tid)
    requires Follows(tr, acts) && Synchronize(tr, c, i, j) && t in tr[0].th
    ensures exists k: nat :: c <= k <= j && Depth(acts[..k], t) == 0
  {
    FollowsRuns(tr, acts);
    SectionsEnd(tr, c, i, j, t);
    var k: nat :| c <= k <= j && t !in Inside(tr[k]);
    NestIsDepth(tr, acts, k, t);
  }

  ghost predicate Holds(s: State, t: Tid) {
    s.w != NoWriter && s.w.owner == t && t in s.th && s.th[t].pc == Syncing
  }

  /** A caller of synchronize_rcu waits until it takes the lock, and holds it until it
      releases it. */
  lemma SyncStep(s: State, a: Action, t: Tid)
    requires Inv(s) && Enabled(s, a) && t in s.th
    ensures var s' := Apply(s, a);
            && t in s'.th
            && (a == CallSync(t) ==> s'.th[t].pc == SyncCalled)
            && (s.th[t].pc == SyncCalled ==> s'.th[t].pc == SyncCalled || (s.w == NoWriter && Holds(s', t)))
            && (Holds(s, t) ==> Holds(s', t) || s'.w == NoWriter)
  {
  }

  /** How far the call of synchronize_rcu at step `i` is at state `k`: waiting for the
      lock, holding it since step `a`, or through a whole grace period. */
  ghost predicate Waiting(tr: seq<State>, i: nat, k: nat, t: Tid) {
    && i < k < |tr| && t in tr[k].th
    && (|| tr[k].th[t].pc == SyncCalled
        || (Holds(tr[k], t) && exists a: nat :: Locked(tr, i, a, k))
        || exists a: nat, b: nat :: b < k && Synchronize(tr, i, a, b))
  }

  ghost predicate Locked(tr: seq<State>, i: nat, a: nat, k: nat) {
    && i <= a < k < |tr| && tr[a].w == NoWriter
    && forall m: nat :: a < m <= k ==> tr[m].w != NoWriter
  }

  lemma WaitingStep(tr: seq<State>, acts: seq<Action>, i: nat, k: nat, t: Tid)
    requires Follows(tr, acts) && k + 1 < |tr| && Waiting(tr, i, k, t)
    ensures Waiting(tr, i, k + 1, t)
  {
    FollowsRuns(tr, acts);
    RunKeepsInv(tr, k);
    assert Takes(tr, acts, k);
    SyncStep(tr[k], acts[k], t);
    if a: nat, b: nat :| b < k && Synchronize(tr, i, a, b) {
    } else if tr[k].th[t].pc == SyncCalled {
      assert tr[k + 1].th[t].pc != SyncCalled ==> Locked(tr, i, k, k + 1);
    } else {
      var a: nat :| Locked(tr, i, a, k);
      if Holds(tr[k + 1], t) {
        assert Locked(tr, i, a, k + 1);
      } else {
        assert Synchronize(tr, i, a, k);
      }
    }
  }

  lemma {:induction false} CallKeepsWaiting(tr: seq<State>, acts: seq<Action>, i: nat, k: nat, t: Tid)
    requires Follows(tr, acts) && i < k < |tr| && acts[i] == CallSync(t)
    ensures Waiting(tr, i, k, t)
  {
    if k == i + 1 {
      FollowsRuns(tr, acts);
      RunKeepsInv(tr, i);
      assert Takes(tr, acts, i);
      SyncStep(tr[i], acts[i], t);
    } else {
      CallKeepsWaiting(tr, acts, i, k - 1, t);
      WaitingStep(tr, acts, i, k - 1, t);
    }
  }

  /** synchronize_rcu from call to return: when the caller goes on, every thread has been
      in no section at some moment since the call. */
  lemma SynchronizeReturns(tr: seq<State>, acts: seq<Action>, i: nat, j: nat, t: Tid, u: Tid)
    requires Follows(tr, acts) && i < j < |tr| && acts[i] == CallSync(t)
    requires t in tr[j].th && tr[j].th[t].pc == Idle && u in tr[0].th
    ensures exists k: nat :: i <= k <= j && Depth(acts[..k], u) == 0
  {
    CallKeepsWaiting(tr, acts, i, j, t);
    var a: nat, b: nat :| b < j && Synchronize(tr, i, a, b);
    NoPeriodInSection(tr, acts, i, a, b, u);
  }

  // ----------------------------------------------------------------- progress

  /** The threads that can still hold up the current scan: inside a section of
      the old phase, or about to store the old phase into their counter. */
  function Blockers(s: State): set<Tid> {
    set t | t in s.th && t in s.registry
            && (Ongoing(s.th[t].ctr, s.gp)
                || (s.th[t].pc.LockLoaded? && Phase(s.th[t].pc.v) != Phase(s.gp)))
  }

  /** During one pass nobody becomes a blocker: a section opened after the flip
      reads the new phase. Leaving an outermost section of the old phase removes
      its thread for good, so at most one section per thread delays a pass. */
  lemma BlockersOnlyLeave(s: State, a: Action)
    requires Inv(s) && Enabled(s, a)
    requires s.w.Scanning? && Apply(s, a).w.Scanning?
    ensures Blockers(Apply(s, a)) <= Blockers(s)
    ensures a.Unlock? && Nest(s.th[a.t].ctr) == COUNT ==> a.t !in Blockers(Apply(s, a))
    ensures a.LockLoad? ==> a.t !in Blockers(Apply(s, a))
  {
    match a
    case LockNested(t) => CountArithmetic(s.th[t].ctr);
    case Unlock(t) => CountArithmetic(s.th[t].ctr);
    case _ =>
  }

  /** Upper bound on the writer's own steps left in a pass nobody holds up. */
  function StepsLeft(s: State): nat
    requires s.w.Scanning? && s.w.pos <= |s.registry|
  {
    (if s.w.pos == 0 then 0 else |s.registry| + 1) + (|s.registry| - s.w.pos)
  }

  predicate WriterStep(a: Action) {
    a.FlipPhase? || a.ScanOne? || a.EndPass? || a.Release?
  }

  /** Once the blockers are gone the pass ends: each step of the writer uses up
      one of finitely many steps, no step of a reader adds any, and with none
      left the writer's next step finishes the pass. */
  lemma PassEnds(s: State, a: Action)
    requires Inv(s) && Enabled(s, a) && s.w.Scanning? && Blockers(s) == {}
    ensures var s' := Apply(s, a);
            if !WriterStep(a) then s'.w == s.w && s'.registry == s.registry
            else if StepsLeft(s) == 0 then s'.w.Flipping? || s'.w.Leaving?
            else s'.w.Scanning? && s'.w.pos <= |s'.registry| && StepsLeft(s') < StepsLeft(s)
  {
    if a == ScanOne {
      var r := s.registry[s.w.pos];
      assert r !in Blockers(s);
    }
  }

  /** The parts of a grace period still to come. */
  function PartsLeft(w: Writer): nat
    requires w != NoWriter
  {
    match w
    case Flipping(_, pass) => if pass == 1 then 4 else 2
    case Scanning(_, pass, _) => if pass == 1 then 3 else 1
    case Leaving(_) => 0
  }

  /** A grace period ends: unless a reader holds up the current pass, every step of its
      writer uses up one of finitely many steps, and the last releases the lock and lets
      the caller go on. */
  lemma PeriodAdvances(s: State, a: Action)
    requires Inv(s) && Enabled(s, a) && WriterStep(a)
    requires s.w.Scanning? ==> Blockers(s) == {}
    ensures var s' := Apply(s, a);
            if s.w.Leaving? then s'.w == NoWriter && s'.th[s.w.owner].pc == Idle
            else
              && s'.w != NoWriter && s'.w.owner == s.w.owner
              && (|| PartsLeft(s'.w) < PartsLeft(s.w)
                  || (s.w.Scanning? && s'.w.Scanning? && PartsLeft(s'.w) == PartsLeft(s.w)
                      && s'.w.pos <= |s'.registry| && StepsLeft(s') < StepsLeft(s)))
  {
    if s.w.Scanning? {
      PassEnds(s, a);
    }
  }

  /** Nobody else is stuck: a reader can finish its lock, nest deeper, and unlock, and a
      caller of synchronize_rcu can take the lock once it is free. */
  lemma ThreadCanStep(s: State, t: Tid)
    requires Inv(s) && t in s.th && s.th[t].pc != Syncing
    ensures s.th[t].pc.LockLoaded? ==> Enabled(s, LockStore(t))
    ensures s.th[t].pc == SyncCalled && s.w == NoWriter ==> Enabled(s, AcquireGpLock(t))
    ensures s.th[t].pc == Idle ==> Enabled(s, CallSync(t))
    ensures s.th[t].pc == Idle && Nest(s.th[t].ctr) != 0 ==>
              Enabled(s, Unlock(t)) && (Nest(s.th[t].ctr) < PHASE - COUNT ==> Enabled(s, LockNested(t)))
    ensures s.th[t].pc == Idle && Nest(s.th[t].ctr) == 0 ==>
              if Registered(s, t) then Enabled(s, LockLoad(t)) && (s.w == NoWriter ==> Enabled(s, Unregister(t)))
              else s.w == NoWriter ==> Enabled(s, Register(t))
  {
  }

  /** Whoever holds the lock can take a step. */
  lemma WriterCanStep(s: State)
    requires Inv(s) && s.w != NoWriter
    ensures exists a :: WriterStep(a) && Enabled(s, a)
  {
    match s.w
    case Flipping(_, _) => assert Enabled(s, FlipPhase);
    case Scanning(_, _, pos) => assert Enabled(s, if pos < |s.registry| then ScanOne else EndPass);
    case Leaving(_) => assert Enabled(s, Release);
  }

  /** How often a thread is on the registry or on the list of quiescent readers. */
  function Listed(s: State, t: Tid): nat {
    multiset(s.registry)[t] + multiset(s.qs)[t]
  }

  /** The two lists share no thread, and neither has one twice. */
  ghost predicate Partition(s: State) {
    forall t :: Listed(s, t) <= 1
  }

  /** A reader moved to the other list is still listed as often. */
  lemma ScanOneKeepsListed(s: State, t: Tid)
    requires Enabled(s, ScanOne)
    ensures Listed(Apply(s, ScanOne), t) == Listed(s, t)
  {
    DropCounts(s.registry, s.w.pos);
  }

  /** Only registration changes how often a thread is listed. */
  lemma StepKeepsListed(s: State, a: Action, t: Tid)
    requires WriterInv(s) && Enabled(s, a)
    ensures Listed(Apply(s, a), t) == if a == Register(t) then 1 else if a == Unregister(t) then 0 else Listed(s, t)
  {
    match a
    case Register(u) => assert t == u ==> Listed(s, t) == 0;
    case Unregister(u) => WithoutKeeps(s.registry, u, t);
    case ScanOne => ScanOneKeepsListed(s, t);
    case EndPass => assert multiset(s.registry)[t] == 0 <==> t !in s.registry;
    case _ => assert Apply(s, a).registry == s.registry && Apply(s, a).qs == s.qs;
  }

  lemma StepAtKeepsListed(tr: seq<State>, k: nat, t: Tid)
    requires Run(tr) && k + 1 < |tr|
    ensures Listed(tr[k], t) <= 1 ==> Listed(tr[k + 1], t) <= 1
    ensures tr[k].w != NoWriter || tr[k + 1].w != NoWriter ==> Listed(tr[k + 1], t) == Listed(tr[k], t)
  {
    RunKeepsInv(tr, k);
    assert StepAt(tr, k);
    var a :| Enabled(tr[k], a) && tr[k + 1] == Apply(tr[k], a);
    StepKeepsListed(tr[k], a, t);
  }

  /** The registry and the list of quiescent readers partition the registered readers
      in every reachable state. */
  lemma {:induction false} ReadersPartitioned(tr: seq<State>, k: nat)
    requires Run(tr) && k < |tr|
    ensures Partition(tr[k])
  {
    if k == 0 {
    } else {
      ReadersPartitioned(tr, k - 1);
      forall t
        ensures Listed(tr[k], t) <= 1
      {
        StepAtKeepsListed(tr, k - 1, t);
      }
    }
  }

  /** The registered readers stay the same from the moment the lock is taken. */
  lemma {:induction false} ListedThroughout(tr: seq<State>, i: nat, m: nat, t: Tid)
    requires Run(tr) && i <= m < |tr|
    requires forall k: nat :: i < k < m ==> tr[k].w != NoWriter
    requires i < m ==> tr[i].w == NoWriter && tr[i + 1].w != NoWriter
    ensures Listed(tr[m], t) == Listed(tr[i], t)
  {
    if i == m {
    } else {
      ListedThroughout(tr, i, m - 1, t);
      StepAtKeepsListed(tr, m - 1, t);
    }
  }

  /** A grace period never loses, invents or repeats a registered reader: at its end
      the registry holds exactly the readers it held when the lock was taken. */
  lemma GracePeriodKeepsReaders(tr: seq<State>, c: nat, i: nat, j: nat)
    requires Run(tr) && Synchronize(tr, c, i, j)
    ensures multiset(tr[j + 1].registry) == multiset(tr[i].registry)
    ensures tr[i].qs == tr[j + 1].qs == []
  {
    RunKeepsInv(tr, i);
    RunKeepsInv(tr, j + 1);
    forall t
      ensures multiset(tr[j + 1].registry)[t] == multiset(tr[i].registry)[t]
    {
      ListedThroughout(tr, i, j + 1, t);
    }
  }

  // ------------------------------------------------- why there are two flips

  ghost predicate Reachable(s: State) {
    exists tr: seq<State> :: Run(tr) && tr[|tr| - 1] == s
  }

  lemma Reach(s: State, a: Action, s': State)
    requires Reachable(s) && Enabled(s, a) && s' == Apply(s, a)
    ensures Reachable(s')
  {
    var tr: seq<State> :| Run(tr) && tr[|tr| - 1] == s;
    var tr' := tr + [s'];
    forall i: nat | i + 1 < |tr'|
      ensures StepAt(tr', i)
    {
      if i + 1 < |tr| {
        assert StepAt(tr, i);
      }
    }
    assert Run(tr') && tr'[|tr'| - 1] == s';
  }

  /** A state of two threads: reader 0 and writer 1. */
  function Two(gp: Ctr, reader: Thread, writer: Pc, registry: seq<Tid>, qs: seq<Tid>, w: Writer,
               awaited: set<Tid>): State {
    State(gp, map[0 := reader, 1 := Thread(0, writer)], registry, qs, w, awaited)
  }

  /** Writer 1 calls synchronize_rcu, takes the lock and flips the phase. */
  lemma StartGracePeriod(gp: Ctr, reader: Thread, awaited: set<Tid>)
    requires Reachable(Two(gp, reader, Idle, [0], [], NoWriter, {}))
    requires awaited == if Nest(reader.ctr) != 0 then {0} else {}
    ensures Reachable(Two(Flip(gp), reader, Syncing, [0], [], Scanning(1, 1, 0), awaited))
  {
    var s0 := Two(gp, reader, Idle, [0], [], NoWriter, {});
    var s1 := Two(gp, reader, SyncCalled, [0], [], NoWriter, {});
    var s2 := Two(gp, reader, Syncing, [0], [], Flipping(1, 1), awaited);
    var s3 := Two(Flip(gp), reader, Syncing, [0], [], Scanning(1, 1, 0), awaited);
    Reach(s0, CallSync(1), s1);
    assert Inside(s1) == awaited;
    Reach(s1, AcquireGpLock(1), s2);
    Reach(s2, FlipPhase, s3);
  }

  /** A pass over a reader that does not look ongoing. */
  lemma FinishPass(gp: Ctr, reader: Thread, pass: nat, awaited: set<Tid>)
    requires Reachable(Two(gp, reader, Syncing, [0], [], Scanning(1, pass, 0), awaited))
    requires !Ongoing(reader.ctr, gp)
    ensures Reachable(Two(gp, reader, Syncing, [0], [],
                          if pass == 1 then Flipping(1, 2) else Leaving(1), awaited))
  {
    var s0 := Two(gp, reader, Syncing, [0], [], Scanning(1, pass, 0), awaited);
    var s1 := Two(gp, reader, Syncing, [], [0], Scanning(1, pass, 0), awaited);
    var s2 := Two(gp, reader, Syncing, [0], [],
                  if pass == 1 then Flipping(1, 2) else Leaving(1), awaited);
    Reach(s0, ScanOne, s1);
    Reach(s1, EndPass, s2);
  }

  lemma ReaderRegistered()
    ensures Reachable(Two(COUNT, Thread(0, Idle), Idle, [0], [], NoWriter, {}))
  {
    var s0 := Two(COUNT, Thread(0, Idle), Idle, [], [], NoWriter, {});
    assert Run([s0]) && [s0][|[s0]| - 1] == s0;
    Reach(s0, Register(0), Two(COUNT, Thread(0, Idle), Idle, [0], [], NoWriter, {}));
  }

  /** The second half of a grace period over a reader that is in no section. */
  lemma SecondPass(gp: Ctr, reader: Thread)
    requires Reachable(Two(gp, reader, Syncing, [0], [], Scanning(1, 1, 0), {}))
    requires Nest(reader.ctr) == 0
    ensures Reachable(Two(Flip(gp), reader, Idle, [0], [], NoWriter, {}))
  {
    FinishPass(gp, reader, 1, {});
    var s1 := Two(gp, reader, Syncing, [0], [], Flipping(1, 2), {});
    var s2 := Two(Flip(gp), reader, Syncing, [0], [], Scanning(1, 2, 0), {});
    Reach(s1, FlipPhase, s2);
    FinishPass(Flip(gp), reader, 2, {});
    var s3 := Two(Flip(gp), reader, Syncing, [0], [], Leaving(1), {});
    Reach(s3, Release, Two(Flip(gp), reader, Idle, [0], [], NoWriter, {}));
  }

  /** Reader 0 loads the new phase between the two flips of a grace period and is
      paused before storing it until that grace period is over. */
  lemma PausedBetweenFlips()
    ensures Reachable(Two(COUNT, Thread(0, LockLoaded(COUNT + PHASE)), Idle, [0], [], NoWriter, {}))
  {
    var idle, loaded := Thread(0, Idle), Thread(0, LockLoaded(COUNT + PHASE));
    ReaderRegistered();
    StartGracePeriod(COUNT, idle, {});
    Reach(Two(COUNT + PHASE, idle, Syncing, [0], [], Scanning(1, 1, 0), {}), LockLoad(0),
          Two(COUNT + PHASE, loaded, Syncing, [0], [], Scanning(1, 1, 0), {}));
    SecondPass(COUNT + PHASE, loaded);
  }

  /** One flip is not enough: there is a run in which the first pass of a grace
      period completes while a section that was in progress at its start, holding
      the phase the flip has just made current, is still in progress. */
  lemma OneFlipMissesAReader()
    ensures exists s :: Reachable(s) && s.w == Flipping(1, 2) && 0 in s.awaited && 0 in Inside(s)
  {
    PausedBetweenFlips();
    var loaded, inside := Thread(0, LockLoaded(COUNT + PHASE)), Thread(COUNT + PHASE, Idle);
    Reach(Two(COUNT, loaded, Idle, [0], [], NoWriter, {}), LockStore(0),
          Two(COUNT, inside, Idle, [0], [], NoWriter, {}));
    StartGracePeriod(COUNT, inside, {0});
    FinishPass(COUNT + PHASE, inside, 1, {0});
    var s := Two(COUNT + PHASE, inside, Syncing, [0], [], Flipping(1, 2), {0});
    assert 0 in Inside(s);
  }
}
