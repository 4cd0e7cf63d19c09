/**
 The quiescent-state grace-period algorithm (urcu-qsbr.c) in both word sizes.

 With 64-bit longs one increment of the global counter is a whole grace period;
 with shorter longs the counter has two values and is flipped twice. A thread that
 reports a quiescent state or comes online loads the global counter and stores it
 in two steps, so it may be paused in between with an old value.
 */
module QsbrRcu {
  import GP = GracePeriod
  import opened Sequences

  type Tid = GP.Tid
  type Ctr = nat

  datatype Width = Bits64 | Bits32

  // RCU_GP_ONLINE and RCU_GP_CTR.
  const ONLINE: nat := 1
  const GP_CTR: nat := 2

  /** How many values the global counter takes before it repeats. */
  function Period(width: Width): nat {
    if width.Bits64? then 0x8000_0000_0000_0000 else 2
  }

  /** The store that opens a pass: rcu_gp_ctr + RCU_GP_CTR in a 64-bit word, or
      rcu_gp_ctr ^ RCU_GP_CTR. */
  function NextGp(width: Width, gp: Ctr): Ctr {
    if width.Bits64? then (gp + GP_CTR) % 0x1_0000_0000_0000_0000
    else if (gp / GP_CTR) % 2 == 0 then gp + GP_CTR
    else gp - GP_CTR
  }

  function Passes(width: Width): nat { if width.Bits64? then 1 else 2 }

  /** rcu_gp_ongoing */
  predicate Ongoing(c: Ctr, gp: Ctr) { c != 0 && c != gp }

  /** What a thread is doing. `seen` counts the increments of the global counter
      before the load, which the code does not keep. */
  datatype Pc =
    | Idle
    | QuiescentLoaded(v: Ctr, seen: nat)
    | OnlineLoaded(v: Ctr, seen: nat)
    | Onlining
    | SyncCalled(wasOnline: bool)
    | Syncing(wasOnline: bool)

  datatype Thread = Thread(ctr: Ctr, seen: nat, pc: Pc)

  datatype Writer =
    | NoWriter
    | Flipping(owner: Tid, pass: nat)
    | Scanning(owner: Tid, pass: nat, pos: nat)
    | Leaving(owner: Tid)

  /** `epoch`, `Thread.seen` and `awaited` are history variables. */
  datatype State = State(
    width: Width,
    gp: Ctr,
    epoch: nat,
    th: map<Tid, Thread>,
    registry: seq<Tid>,
    qs: seq<Tid>,
    w: Writer,
    awaited: set<Tid>)

  datatype Action =
    | Register(t: Tid)
    | Unregister(t: Tid)
    | OnlineLoad(t: Tid)
    | OnlineStore(t: Tid)
    | Offline(t: Tid)
    | QuiescentLoad(t: Tid)
    | QuiescentStore(t: Tid)
    | CallSync(t: Tid)
    | AcquireGpLock(t: Tid)
    | FlipCounter
    | ScanOne
    | EndPass
    | Release

  predicate Registered(s: State, t: Tid) {
    t in s.registry || t in s.qs
  }

  /** Online and not reporting a quiescent state: the thread may hold references. */
  predicate InSection(th: Thread) {
    th.ctr != 0 && !th.pc.QuiescentLoaded?
  }

  function Inside(s: State): set<Tid> {
    set t | t in s.th && InSection(s.th[t])
  }

  predicate IdleThread(s: State, t: Tid) {
    t in s.th && s.th[t].pc == Idle
  }

  predicate Enabled(s: State, a: Action) {
    match a
    case Register(t) =>
      IdleThread(s, t) && s.w == NoWriter && !Registered(s, t) && s.th[t].ctr == 0
    case Unregister(t) =>
      IdleThread(s, t) && s.w == NoWriter && Registered(s, t) && s.th[t].ctr == 0
    case OnlineLoad(t) =>
      t in s.th && Registered(s, t)
      && (s.th[t].pc == Onlining || (s.th[t].pc == Idle && s.th[t].ctr == 0))
    case OnlineStore(t) => t in s.th && s.th[t].pc.OnlineLoaded?
    case Offline(t) => IdleThread(s, t)
    case QuiescentLoad(t) => IdleThread(s, t) && Registered(s, t)
    case QuiescentStore(t) => t in s.th && s.th[t].pc.QuiescentLoaded?
    case CallSync(t) => IdleThread(s, t)
    case AcquireGpLock(t) => t in s.th && s.th[t].pc.SyncCalled? && s.w == NoWriter
    case FlipCounter => s.w.Flipping?
    case ScanOne => s.w.Scanning? && s.w.pos < |s.registry|
    case EndPass => s.w.Scanning? && s.w.pos == |s.registry|
    case Release => s.w.Leaving? && s.w.owner in s.th && s.th[s.w.owner].pc.Syncing?
  }

  function SetThread(s: State, t: Tid, th: Thread): State {
    s.(th := s.th[t := th])
  }

  function Apply(s: State, a: Action): State
    requires Enabled(s, a)
  {
    match a
    case Register(t) => s.(registry := [t] + s.registry)
    case Unregister(t) => s.(registry := Without(s.registry, t))
    case OnlineLoad(t) => SetThread(s, t, s.th[t].(pc := OnlineLoaded(s.gp, s.epoch)))
    case OnlineStore(t) => SetThread(s, t, Thread(s.th[t].pc.v, s.th[t].pc.seen, Idle))
    case Offline(t) =>
      SetThread(s, t, s.th[t].(ctr := 0)).(awaited := s.awaited - {t})
    case QuiescentLoad(t) =>
      SetThread(s, t, s.th[t].(pc := QuiescentLoaded(s.gp, s.epoch))).(awaited := s.awaited - {t})
    case QuiescentStore(t) => SetThread(s, t, Thread(s.th[t].pc.v, s.th[t].pc.seen, Idle))
    case CallSync(t) =>
      // The caller goes offline so as not to wait for itself.
      SetThread(s, t, Thread(0, s.th[t].seen, SyncCalled(s.th[t].ctr != 0)))
      .(awaited := s.awaited - {t})
    case AcquireGpLock(t) =>
      var s1 := SetThread(s, t, s.th[t].(pc := Syncing(s.th[t].pc.wasOnline))).(awaited := Inside(s));
      s1.(w := if s.registry == [] then Leaving(t) else Flipping(t, 1))
    case FlipCounter =>
      s.(gp := NextGp(s.width, s.gp), epoch := s.epoch + 1, w := Scanning(s.w.owner, s.w.pass, 0))
    case ScanOne =>
      var r := s.registry[s.w.pos];
      if r in s.th && Ongoing(s.th[r].ctr, s.gp) then
        s.(w := s.w.(pos := s.w.pos + 1))
      else
        s.(registry := Drop(s.registry, s.w.pos), qs := [r] + s.qs)
    case EndPass =>
      if s.registry != [] then
        s.(w := s.w.(pos := 0))
      else
        s.(registry := s.qs, qs := [],
           w := if s.w.pass < Passes(s.width) then Flipping(s.w.owner, s.w.pass + 1)
                else Leaving(s.w.owner))
    case Release =>
      var o := s.w.owner;
      SetThread(s, o, s.th[o].(pc := if s.th[o].pc.wasOnline then Onlining else Idle)).(w := NoWriter)
  }

  predicate Init(s: State) {
    && s.gp == ONLINE
    && s.epoch == 0
    && (forall t <- s.th :: s.th[t] == Thread(0, 0, Idle))
    && s.registry == s.qs == []
    && s.w == NoWriter
    && s.awaited == {}
  }

  ghost predicate Next(s: State, s': State) {
    exists a :: Enabled(s, a) && s' == Apply(s, a)
  }

  ghost predicate StepAt(tr: seq<State>, i: nat)
    requires i + 1 < |tr|
  {
    Next(tr[i], tr[i + 1])
  }

  ghost predicate Run(tr: seq<State>) {
    && tr != []
    && Init(tr[0])
    && forall i: nat :: i + 1 < |tr| ==> StepAt(tr, i)
  }

  // ---------------------------------------------------------------- invariant

  /** The value of the global counter after `e` increments. */
  function Word(width: Width, e: nat): Ctr {
    ONLINE + GP_CTR * (e % Period(width))
  }

  lemma NextWord(width: Width, e: nat)
    ensures NextGp(width, Word(width, e)) == Word(width, e + 1)
    ensures Word(width, e) != 0 && Word(width, e) != Word(width, e + 1)
  {
  }

  /** Counter values alias exactly when their ages differ by a whole period. */
  lemma WordsAlias(width: Width, e: nat, f: nat)
    ensures Word(width, e) == Word(width, f) <==> (e - f) % Period(width) == 0
  {
    match width
    case Bits64 => LongPeriods(e, f);
    case Bits32 => Parities(e, f);
  }

  lemma LongPeriods(e: nat, f: nat)
    ensures e % 0x8000_0000_0000_0000 == f % 0x8000_0000_0000_0000 <==> (e - f) % 0x8000_0000_0000_0000 == 0
  {
  }

  lemma Parities(e: nat, f: nat)
    ensures e % 2 == f % 2 <==> (e - f) % 2 == 0
  {
  }

  /** The caller of synchronize_rcu was online and will be again. */
  predicate ComesBack(p: Pc) {
    p.Onlining? || ((p.SyncCalled? || p.Syncing?) && p.wasOnline)
  }

  ghost predicate ThreadInv(s: State, t: Tid)
    requires t in s.th
  {
    var th := s.th[t];
    && (th.ctr != 0 ==> th.ctr == Word(s.width, th.seen) && th.seen <= s.epoch && Registered(s, t))
    && (th.pc.QuiescentLoaded? || th.pc.OnlineLoaded? ==>
          th.pc.v == Word(s.width, th.pc.seen) && th.pc.seen <= s.epoch && Registered(s, t))
    && (th.pc.SyncCalled? || th.pc.Syncing? || th.pc.Onlining? || th.pc.OnlineLoaded? ==>
          th.ctr == 0)
    && (ComesBack(th.pc) ==> Registered(s, t))
  }

  /** Where the writer stands with a reader it still has to wait for. Only the
      last line of the 64-bit version lets a reader through. */
  ghost predicate Blocked(s: State, t: Tid)
    requires t in s.th
  {
    var th := s.th[t];
    && InSection(th)
    && match s.w
       case NoWriter => false
       case Flipping(_, pass) => pass == 1 || (pass == 2 && s.width.Bits32? && th.ctr == s.gp)
       case Scanning(_, pass, _) =>
         if pass == 1 then (th.ctr == s.gp || t !in s.qs) && th.seen < s.epoch
         else s.width.Bits32? && th.ctr != s.gp && t !in s.qs
       case Leaving(_) => s.width.Bits64? && th.ctr == s.gp && th.seen < s.epoch
  }

  ghost predicate WriterInv(s: State) {
    match s.w
    case NoWriter => s.qs == []
    case Flipping(o, pass) =>
      s.qs == [] && 1 <= pass <= Passes(s.width) && o in s.th && s.th[o].pc.Syncing?
    case Scanning(o, pass, pos) =>
      pos <= |s.registry| && 1 <= pass <= Passes(s.width) && o in s.th && s.th[o].pc.Syncing?
    case Leaving(o) => s.qs == [] && o in s.th && s.th[o].pc.Syncing?
  }

  /** The history variable may keep readers the writer failed to wait for. */
  ghost predicate Inv(s: State) {
    && s.gp == Word(s.width, s.epoch)
    && WriterInv(s)
    && (forall t <- s.th :: ThreadInv(s, t))
    && (s.w != NoWriter ==> forall t <- s.awaited :: t in s.th && Blocked(s, t))
  }

  predicate WriterStep(a: Action) {
    a.FlipCounter? || a.ScanOne? || a.EndPass?
  }

  predicate LockStep(a: Action) { a.AcquireGpLock? || a.Release? }

  lemma LockStepKeepsInv(s: State, a: Action)
    requires Inv(s) && Enabled(s, a) && LockStep(a)
    ensures Inv(Apply(s, a))
  {
    NextWord(s.width, s.epoch);
  }

  /** A step that changes nothing but one thread, and at most stops awaiting it. */
  lemma OneThreadKeepsInv(s: State, s': State, t: Tid)
    requires Inv(s) && t in s.th && !s.th[t].pc.Syncing? && t in s'.th && ThreadInv(s', t)
    requires s' == SetThread(s, t, s'.th[t]).(awaited := s'.awaited) && s'.awaited <= s.awaited
    requires s.w != NoWriter && t in s'.awaited ==> Blocked(s', t)
    ensures Inv(s')
  {
    assert forall u <- s.th :: u != t ==> s'.th[u] == s.th[u] && Registered(s', u) == Registered(s, u);
  }

  lemma ThreadStepKeepsInv(s: State, a: Action)
    requires Inv(s) && Enabled(s, a) && !WriterStep(a) && !LockStep(a) && !a.Register? && !a.Unregister?
    ensures Inv(Apply(s, a))
  {
    NextWord(s.width, s.epoch);
    assert ThreadInv(s, a.t);
    OneThreadKeepsInv(s, Apply(s, a), a.t);
  }

  lemma FlipKeepsInv(s: State)
    requires Inv(s) && Enabled(s, FlipCounter)
    ensures Inv(Apply(s, FlipCounter))
  {
    NextWord(s.width, s.epoch);
    forall t | t in s.awaited && s.width.Bits32? {
      WordsAlias(Bits32, s.th[t].seen, s.epoch);
    }
  }

  lemma ScanOneKeepsInv(s: State)
    requires Inv(s) && Enabled(s, ScanOne)
    ensures Inv(Apply(s, ScanOne))
  {
    var s' := Apply(s, ScanOne);
    forall t | Registered(s, t)
      ensures Registered(s', t)
    {
      if t in s.registry && t != s.registry[s.w.pos] {
        DropAt(s.registry, s.w.pos);
      }
    }
  }

  lemma EndPassKeepsInv(s: State)
    requires Inv(s) && Enabled(s, EndPass)
    ensures Inv(Apply(s, EndPass))
  {
    assert forall t | t in s.awaited :: Registered(s, t);
  }

  lemma RegistryStepKeepsInv(s: State, a: Action)
    requires Inv(s) && Enabled(s, a) && (a.Register? || a.Unregister?)
    ensures Inv(Apply(s, a))
  {
    forall u ensures u in Without(s.registry, a.t) <==> u in s.registry && u != a.t {
      WithoutKeeps(s.registry, a.t, u);
    }
  }

  lemma StepKeepsInv(s: State, a: Action)
    requires Inv(s) && Enabled(s, a)
    ensures Inv(Apply(s, a))
  {
    match a
    case Register(_) => RegistryStepKeepsInv(s, a);
    case Unregister(_) => RegistryStepKeepsInv(s, a);
    case FlipCounter => FlipKeepsInv(s);
    case ScanOne => ScanOneKeepsInv(s);
    case EndPass => EndPassKeepsInv(s);
    case AcquireGpLock(_) => LockStepKeepsInv(s, a);
    case Release => LockStepKeepsInv(s, a);
    case _ => ThreadStepKeepsInv(s, a);
  }

  lemma {:induction false} RunKeepsInv(tr: seq<State>, k: nat)
    requires Run(tr) && k < |tr|
    ensures Inv(tr[k]) && tr[k].width == tr[0].width
  {
    if k == 0 {
      assert Word(tr[0].width, 0) == ONLINE;
    } else {
      RunKeepsInv(tr, k - 1);
      assert StepAt(tr, k - 1);
      var a :| Enabled(tr[k - 1], a) && tr[k] == Apply(tr[k - 1], a);
      StepKeepsInv(tr[k - 1], a);
    }
  }

  // ------------------------------------------------------------------- safety

  /** One call of synchronize_rcu in a run: called at or before state `c`, the
      lock taken at step `i` and released at step `j`. */
  ghost predicate Synchronize(tr: seq<State>, c: nat, i: nat, j: nat) {
    && c <= i < j
    && j + 1 < |tr|
    && tr[i].w == NoWriter
    && (forall m: nat :: i < m <= j ==> tr[m].w != NoWriter)
    && tr[j + 1].w == NoWriter
  }

  /** The reader already holds the value the next flip will store. */
  predicate Aliased(s: State, t: Tid) {
    t in s.th && s.width.Bits64? && s.th[t].ctr == NextGp(s.width, s.gp)
  }

  /** One step under which a reader stays in its section leaves its counter alone
      and keeps it awaited; taking the lock makes it awaited. */
  lemma StepKeepsAwaited(s: State, a: Action, t: Tid)
    requires Inv(s) && Enabled(s, a)
    requires t in Inside(s) && t in Inside(Apply(s, a)) && Apply(s, a).w != NoWriter
    requires s.w != NoWriter ==> t in s.awaited
    ensures t in Apply(s, a).awaited && Apply(s, a).th[t].ctr == s.th[t].ctr
    ensures s.w == NoWriter ==> Apply(s, a).w.Flipping? && Apply(s, a).gp == s.gp
    ensures s.width.Bits64? && s.w != NoWriter ==>
              && (Apply(s, a).w.Flipping? ==> s.w.Flipping?)
              && Apply(s, a).gp == if s.w.Flipping? && !Apply(s, a).w.Flipping?
                                   then NextGp(s.width, s.gp) else s.gp
  {
    assert Registered(s, t);
  }

  lemma StepAtKeepsAwaited(tr: seq<State>, m: nat, t: Tid)
    requires Run(tr) && m + 1 < |tr| && t in Inside(tr[m]) && t in Inside(tr[m + 1]) && tr[m + 1].w != NoWriter
    requires tr[m].w != NoWriter ==> t in tr[m].awaited
    ensures t in tr[m + 1].awaited && tr[m + 1].th[t].ctr == tr[m].th[t].ctr && tr[m + 1].width == tr[m].width
    ensures tr[m].w == NoWriter ==> tr[m + 1].w.Flipping? && tr[m + 1].gp == tr[m].gp
    ensures tr[m].width.Bits64? && tr[m].w != NoWriter ==>
              && (tr[m + 1].w.Flipping? ==> tr[m].w.Flipping?)
              && tr[m + 1].gp == if tr[m].w.Flipping? && !tr[m + 1].w.Flipping?
                                 then NextGp(tr[m].width, tr[m].gp) else tr[m].gp
  {
    RunKeepsInv(tr, m);
    assert StepAt(tr, m);
    var a :| Enabled(tr[m], a) && tr[m + 1] == Apply(tr[m], a);
    StepKeepsAwaited(tr[m], a, t);
  }

  /** A reader that never leaves its section during a grace period keeps its
      counter value and stays awaited, and the 64-bit counter moves once. */
  lemma {:induction false} StillAwaited(tr: seq<State>, i: nat, k: nat, t: Tid)
    requires Run(tr) && i < k < |tr|
    requires tr[i].w == NoWriter && forall m: nat :: i < m <= k ==> tr[m].w != NoWriter
    requires forall m: nat :: i <= m <= k ==> t in Inside(tr[m])
    ensures t in tr[i].th && t in tr[k].th
    ensures t in tr[k].awaited && tr[k].th[t].ctr == tr[i].th[t].ctr && tr[k].width == tr[i].width
    ensures tr[k].width.Bits64? ==>
              tr[k].gp == if tr[k].w.Flipping? then tr[i].gp else NextGp(tr[i].width, tr[i].gp)
  {
    if k == i + 1 {
    } else {
      StillAwaited(tr, i, k - 1, t);
    }
    RunKeepsInv(tr, i);
    assert t in Inside(tr[k - 1]) && t in Inside(tr[k]);
    StepAtKeepsAwaited(tr, k - 1, t);
  }

  /** Grace-period safety, reader by reader and for both word sizes: every thread
      is outside a section at some moment between call and return, unless its
      64-bit counter has aged a whole period when the call takes the lock. */
  lemma SectionsEnd(tr: seq<State>, c: nat, i: nat, j: nat, t: Tid)
    requires Run(tr) && Synchronize(tr, c, i, j)
    requires !Aliased(tr[i], t)
    ensures exists k: nat :: c <= k <= j && t !in Inside(tr[k])
  {
    RunKeepsInv(tr, j);
    RunKeepsInv(tr, i);
    assert StepAt(tr, j);
    assert tr[j].w.Leaving?;
    if forall k: nat :: i <= k <= j ==> t in Inside(tr[k]) {
      StillAwaited(tr, i, j, t);
    }
  }

  /** When a reader can be aliased: its counter was loaded a non-zero multiple of
      2^63 increments ago, so never in a run of fewer increments. */
  lemma AliasedIffWholePeriod(s: State, t: Tid)
    requires Inv(s) && s.width.Bits64? && t in s.th && s.th[t].ctr != 0
    ensures Aliased(s, t) <==> (s.epoch + 1 - s.th[t].seen) % Period(Bits64) == 0
    ensures s.epoch + 1 < Period(Bits64) ==> !Aliased(s, t)
  {
    NextWord(Bits64, s.epoch);
    WordsAlias(Bits64, s.epoch + 1, s.th[t].seen);
    assert ThreadInv(s, t);
  }

  /** When the counter moves, an aliased reader, and only such a one, does not look
      ongoing. */
  lemma AliasedIsNotWaitedFor(s: State, t: Tid)
    requires Inv(s) && s.w.Flipping? && t in Inside(s) && s.width.Bits64?
    ensures Aliased(s, t) <==>
              !Ongoing(s.th[t].ctr, Apply(s, FlipCounter).gp)
  {
    NextWord(s.width, s.epoch);
  }

  // ------------------------------------------------------- calls and returns

  ghost predicate Takes(tr: seq<State>, acts: seq<Action>, i: nat)
    requires i < |acts| && i + 1 < |tr|
  {
    Enabled(tr[i], acts[i]) && tr[i + 1] == Apply(tr[i], acts[i])
  }

  /** A run together with the actions that make it. */
  ghost predicate Follows(tr: seq<State>, acts: seq<Action>) {
    && |tr| == |acts| + 1
    && Init(tr[0])
    && forall i: nat :: i < |acts| ==> Takes(tr, acts, i)
  }

  lemma FollowsRuns(tr: seq<State>, acts: seq<Action>)
    requires Follows(tr, acts)
    ensures Run(tr)
  {
    forall i: nat | i + 1 < |tr|
      ensures StepAt(tr, i)
    {
      assert Takes(tr, acts, i);
    }
  }

  /** The call a thread is in the middle of, between its load and its store. */
  datatype Loading = Neither | GoingOnline | Reporting

  /** What a thread has done by its calls alone: `online` between going online or
      reporting a quiescent state and the next call that ends the section. */
  datatype View = View(online: bool, loading: Loading)

  function Seen(v: View, a: Action, t: Tid): View {
    match a
    case OnlineLoad(u) => if u == t then v.(loading := GoingOnline) else v
    case OnlineStore(u) => if u == t then View(true, Neither) else v
    case QuiescentLoad(u) => if u == t then View(false, Reporting) else v
    case QuiescentStore(u) => if u == t then View(true, Neither) else v
    case Offline(u) => if u == t then v.(online := false) else v
    case CallSync(u) => if u == t then v.(online := false) else v
    case _ => v
  }

  function ViewOf(acts: seq<Action>, t: Tid): View {
    if acts == [] then View(false, Neither) else Seen(ViewOf(acts[..|acts| - 1], t), acts[|acts| - 1], t)
  }

  function LoadingOf(p: Pc): Loading {
    if p.OnlineLoaded? then GoingOnline else if p.QuiescentLoaded? then Reporting else Neither
  }

  function StateView(th: Thread): View {
    View(InSection(th), LoadingOf(th.pc))
  }

  lemma StepSeen(s: State, a: Action, t: Tid)
    requires Inv(s) && Enabled(s, a) && t in s.th
    ensures t in Apply(s, a).th && StateView(Apply(s, a).th[t]) == Seen(StateView(s.th[t]), a, t)
  {
    assert ThreadInv(s, t);
    NextWord(s.width, s.epoch);
    if s.th[t].pc.OnlineLoaded? || s.th[t].pc.QuiescentLoaded? {
      NextWord(s.width, s.th[t].pc.seen);
    }
  }

  /** The thread's word says what its calls say: in every reachable state it is in its
      section exactly if it has come online or reported last, and not gone offline or
      into synchronize_rcu since. */
  lemma {:induction false} InsideIsOnline(tr: seq<State>, acts: seq<Action>, k: nat, t: Tid)
    requires Follows(tr, acts) && k < |tr| && t in tr[0].th
    ensures t in tr[k].th && StateView(tr[k].th[t]) == ViewOf(acts[..k], t)
    ensures t in Inside(tr[k]) <==> ViewOf(acts[..k], t).online
  {
    if k == 0 {
    } else {
      InsideIsOnline(tr, acts, k - 1, t);
      FollowsRuns(tr, acts);
      RunKeepsInv(tr, k - 1);
      assert Takes(tr, acts, k - 1);
      StepSeen(tr[k - 1], acts[k - 1], t);
      assert acts[..k][..k - 1] == acts[..k - 1];
    }
  }

  predicate WasOnline(s: State, t: Tid) {
    t in s.th && s.th[t].ctr != 0
  }

  ghost predicate Holds(s: State, t: Tid) {
    s.w != NoWriter && s.w.owner == t && t in s.th && s.th[t].pc.Syncing?
  }

  /** A caller of synchronize_rcu waits until it takes the lock, holds it until it
      releases it, and then comes back online if it was. */
  lemma SyncStep(s: State, a: Action, t: Tid)
    requires Inv(s) && Enabled(s, a) && t in s.th
    ensures t in Apply(s, a).th
    ensures var s', th, th' := Apply(s, a), s.th[t], Apply(s, a).th[t];
            && (a == CallSync(t) ==> th'.pc == SyncCalled(th.ctr != 0))
            && (th.pc.SyncCalled? ==>
                  th' == th || (s.w == NoWriter && th'.pc == Syncing(th.pc.wasOnline) && Holds(s', t)))
            && (Holds(s, t) ==>
                  || (Holds(s', t) && th'.pc == th.pc)
                  || (s'.w == NoWriter && th'.pc == (if th.pc.wasOnline then Onlining else Idle) && th'.ctr == 0))
            && (th.pc.Onlining? ==>
                  th' == th || (a == OnlineLoad(t) && th'.pc.OnlineLoaded? && th'.pc.v == s.gp != 0))
            && (th.pc.OnlineLoaded? ==> th' == th || (th'.pc == Idle && th'.ctr == th.pc.v))
  {
    NextWord(s.width, s.epoch);
    assert ThreadInv(s, t);
  }

  ghost predicate Locked(tr: seq<State>, i: nat, a: nat, k: nat) {
    && i <= a < k < |tr| && tr[a].w == NoWriter
    && forall m: nat :: a < m <= k ==> tr[m].w != NoWriter
  }

  /** At some step `l` since the release at step `b` the thread loaded the value `v`. */
  ghost predicate LoadedSince(tr: seq<State>, acts: seq<Action>, b: nat, k: nat, t: Tid, v: Ctr) {
    exists l: nat :: b < l < k && l < |acts| && l < |tr| && acts[l] == OnlineLoad(t) && v == tr[l].gp != 0
  }

  /** How far the call of synchronize_rcu at step `i` is at state `k`: waiting for the
      lock, holding it, or through a grace period and on its way back online. */
  ghost predicate Waiting(tr: seq<State>, acts: seq<Action>, i: nat, k: nat, t: Tid, was: bool) {
    && i < k < |tr| && t in tr[k].th
    && var p := tr[k].th[t].pc;
       || p == SyncCalled(was)
       || (p == Syncing(was) && Holds(tr[k], t) && exists a: nat :: Locked(tr, i, a, k))
       || (was && p == Onlining && exists a: nat, b: nat :: b < k && Synchronize(tr, i, a, b))
       || (was && p.OnlineLoaded? &&
           exists a: nat, b: nat :: Synchronize(tr, i, a, b) && LoadedSince(tr, acts, b, k, t, p.v))
  }

  /** The call of synchronize_rcu at step `i` has returned at state `k`, its grace period
      from step `a` to step `b`. */
  ghost predicate Returned(tr: seq<State>, acts: seq<Action>, i: nat, a: nat, b: nat, k: nat, t: Tid, was: bool) {
    && b < k < |tr| && Synchronize(tr, i, a, b)
    && t in tr[k].th
    && if was then t in Inside(tr[k]) && LoadedSince(tr, acts, b, k, t, tr[k].th[t].ctr) else tr[k].th[t].ctr == 0
  }

  ghost predicate ReturnedBy(tr: seq<State>, acts: seq<Action>, i: nat, k: nat, t: Tid, was: bool) {
    exists a: nat, b: nat :: Returned(tr, acts, i, a, b, k, t, was)
  }

  lemma WaitingStep(tr: seq<State>, acts: seq<Action>, i: nat, k: nat, t: Tid, was: bool)
    requires Follows(tr, acts) && k + 1 < |tr| && Waiting(tr, acts, i, k, t, was)
    ensures t in tr[k + 1].th
    ensures if tr[k + 1].th[t].pc == Idle then ReturnedBy(tr, acts, i, k + 1, t, was)
            else Waiting(tr, acts, i, k + 1, t, was)
  {
    FollowsRuns(tr, acts);
    RunKeepsInv(tr, k);
    assert Takes(tr, acts, k);
    SyncStep(tr[k], acts[k], t);
    var p, p' := tr[k].th[t].pc, tr[k + 1].th[t].pc;
    if p.SyncCalled? {
      assert p' != p ==> Locked(tr, i, k, k + 1);
    } else if p.Syncing? {
      var a: nat :| Locked(tr, i, a, k);
      if Holds(tr[k + 1], t) {
        assert Locked(tr, i, a, k + 1);
      } else {
        assert Synchronize(tr, i, a, k);
        assert !was ==> Returned(tr, acts, i, a, k, k + 1, t, was);
      }
    } else if p == Onlining {
      var a: nat, b: nat :| b < k && Synchronize(tr, i, a, b);
      assert p' != p ==> LoadedSince(tr, acts, b, k + 1, t, p'.v);
    } else {
      var a: nat, b: nat :| Synchronize(tr, i, a, b) && LoadedSince(tr, acts, b, k, t, p.v);
      assert LoadedSince(tr, acts, b, k + 1, t, p.v);
      assert p' == Idle ==> Returned(tr, acts, i, a, b, k + 1, t, was);
    }
  }

  lemma {:induction false} CallKeepsWaiting(tr: seq<State>, acts: seq<Action>, i: nat, k: nat, t: Tid)
    requires Follows(tr, acts) && i < k < |tr| && acts[i] == CallSync(t)
    requires forall m: nat :: i < m <= k ==> t in tr[m].th && tr[m].th[t].pc != Idle
    ensures Waiting(tr, acts, i, k, t, WasOnline(tr[i], t))
  {
    assert Takes(tr, acts, i);
    if k == i + 1 {
      FollowsRuns(tr, acts);
      RunKeepsInv(tr, i);
      SyncStep(tr[i], acts[i], t);
    } else {
      CallKeepsWaiting(tr, acts, i, k - 1, t);
      WaitingStep(tr, acts, i, k - 1, t, WasOnline(tr[i], t));
    }
  }

  /** synchronize_rcu from call to return, for both word sizes: when the caller first goes
      on, a whole grace period has passed since the call, and the caller is online again,
      with a value it loaded after releasing the lock, if it was online at the call, and
      offline if it was not. */
  lemma SynchronizeReturns(tr: seq<State>, acts: seq<Action>, i: nat, j: nat, t: Tid)
    requires Follows(tr, acts) && i < j < |tr| && acts[i] == CallSync(t)
    requires forall m: nat :: i < m < j ==> t in tr[m].th && tr[m].th[t].pc != Idle
    requires t in tr[j].th && tr[j].th[t].pc == Idle
    ensures exists a: nat, b: nat :: Returned(tr, acts, i, a, b, j, t, WasOnline(tr[i], t))
  {
    FollowsRuns(tr, acts);
    RunKeepsInv(tr, i);
    assert Takes(tr, acts, i);
    SyncStep(tr[i], acts[i], t);
    CallKeepsWaiting(tr, acts, i, j - 1, t);
    WaitingStep(tr, acts, i, j - 1, t, WasOnline(tr[i], t));
  }

  /** The grace period of a call in terms of the calls of the readers: unless it held the
      value the next flip stores when the lock was taken, every thread has been offline or
      in a quiescent state since. */
  lemma NoPeriodInSection(tr: seq<State>, acts: seq<Action>, c: nat, i: nat, j: nat, u: Tid)
    requires Follows(tr, acts) && Synchronize(tr, c, i, j) && u in tr[0].th && !Aliased(tr[i], u)
    ensures exists k: nat :: c <= k <= j && !ViewOf(acts[..k], u).online
  {
    FollowsRuns(tr, acts);
    SectionsEnd(tr, c, i, j, u);
    var k: nat :| c <= k <= j && u !in Inside(tr[k]);
    InsideIsOnline(tr, acts, k, u);
  }

  // ----------------------------------------------------------------- progress

  /** The threads that can still hold up the current scan: in a section that began before
      the flip, or about to store a value from before it. */
  function Blockers(s: State): set<Tid> {
    set t | t in s.th && t in s.registry
            && (Ongoing(s.th[t].ctr, s.gp)
                || ((s.th[t].pc.OnlineLoaded? || s.th[t].pc.QuiescentLoaded?) && s.th[t].pc.v != s.gp))
  }

  /** During one pass nobody becomes a blocker, and who goes offline or reports a quiescent
      state with the new value is none any more. */
  lemma BlockersOnlyLeave(s: State, a: Action)
    requires Inv(s) && Enabled(s, a)
    requires s.w.Scanning? && Apply(s, a).w.Scanning?
    ensures Blockers(Apply(s, a)) <= Blockers(s)
    ensures a.Offline? || a.CallSync? ==> a.t !in Blockers(Apply(s, a))
    ensures a.QuiescentStore? && s.th[a.t].pc.v == s.gp ==> a.t !in Blockers(Apply(s, a))
  {
  }

  /** The parts of a grace period still to come. */
  function PartsLeft(width: Width, w: Writer): nat
    requires w != NoWriter
  {
    match w
    case Flipping(_, pass) => if pass == 1 then 4 else 2
    case Scanning(_, pass, _) => if pass == 1 && width.Bits32? then 3 else 1
    case Leaving(_) => 0
  }

  /** Upper bound on the writer's own steps left in a pass nobody holds up. */
  function StepsLeft(s: State): nat
    requires s.w.Scanning? && s.w.pos <= |s.registry|
  {
    (if s.w.pos == 0 then 0 else |s.registry| + 1) + (|s.registry| - s.w.pos)
  }

  /** A grace period ends: unless a reader holds up the current pass, every step of its
      writer uses up one of finitely many steps, and the last releases the lock and lets
      the caller go on. */
  lemma PeriodAdvances(s: State, a: Action)
    requires Inv(s) && Enabled(s, a) && (WriterStep(a) || a == Release)
    requires s.w.Scanning? ==> Blockers(s) == {}
    ensures var s' := Apply(s, a);
            if s.w.Leaving? then s'.w == NoWriter && s'.th[s.w.owner].pc in {Idle, Onlining}
            else
              && s'.w != NoWriter && s'.w.owner == s.w.owner
              && (|| PartsLeft(s'.width, s'.w) < PartsLeft(s.width, s.w)
                  || (s.w.Scanning? && s'.w.Scanning? && s'.w.pass == s.w.pass
                      && s'.w.pos <= |s'.registry| && StepsLeft(s') < StepsLeft(s)))
  {
    if a == ScanOne {
      assert s.registry[s.w.pos] !in Blockers(s);
    }
  }

  /** Nobody else is stuck: a thread can finish what it has begun, and a caller of
      synchronize_rcu can take the lock once it is free. */
  lemma ThreadCanStep(s: State, t: Tid)
    requires Inv(s) && t in s.th && !s.th[t].pc.Syncing?
    ensures match s.th[t].pc
            case Idle =>
              && Enabled(s, Offline(t)) && Enabled(s, CallSync(t))
              && (Registered(s, t) ==> Enabled(s, QuiescentLoad(t)))
              && (s.th[t].ctr == 0 && Registered(s, t) ==> Enabled(s, OnlineLoad(t)))
            case QuiescentLoaded(_, _) => Enabled(s, QuiescentStore(t))
            case OnlineLoaded(_, _) => Enabled(s, OnlineStore(t))
            case Onlining => Enabled(s, OnlineLoad(t))
            case SyncCalled(_) => s.w == NoWriter ==> Enabled(s, AcquireGpLock(t))
            case Syncing(_) => true
  {
    assert ThreadInv(s, t);
  }

  /** Whoever holds the lock can take a step. */
  lemma WriterCanStep(s: State)
    requires Inv(s) && s.w != NoWriter
    ensures exists a :: (WriterStep(a) || a == Release) && Enabled(s, a)
  {
    match s.w
    case Flipping(_, _) => assert Enabled(s, FlipCounter);
    case Scanning(_, _, pos) => assert Enabled(s, if pos < |s.registry| then ScanOne else EndPass);
    case Leaving(_) => assert Enabled(s, Release);
  }

  // ------------------------------------------ the converse: an aliased reader

  /** The run `tr`, from its state `i` on, is inside one grace period, which took the
      lock at step `i`, and `t` has been in its section all the while. */
  ghost predicate Around(tr: seq<State>, i: nat, t: Tid) {
    && Run(tr) && i < |tr|
    && tr[i].w == NoWriter
    && (forall m: nat :: i < m < |tr| ==> tr[m].w != NoWriter)
    && forall m: nat :: i <= m < |tr| ==> t in Inside(tr[m])
  }

  lemma OneMore(tr: seq<State>, a: Action) returns (tr': seq<State>)
    requires Run(tr) && Enabled(tr[|tr| - 1], a)
    ensures tr' == tr + [Apply(tr[|tr| - 1], a)] && Run(tr')
  {
    tr' := tr + [Apply(tr[|tr| - 1], a)];
    forall k: nat | k + 1 < |tr'|
      ensures StepAt(tr', k)
    {
      if k + 1 < |tr| {
        assert StepAt(tr, k);
      }
    }
  }

  lemma Onward(tr: seq<State>, i: nat, t: Tid, a: Action) returns (tr': seq<State>)
    requires Around(tr, i, t) && Enabled(tr[|tr| - 1], a)
    requires Apply(tr[|tr| - 1], a).w != NoWriter && t in Inside(Apply(tr[|tr| - 1], a))
    ensures tr' == tr + [Apply(tr[|tr| - 1], a)] && Around(tr', i, t)
  {
    tr' := OneMore(tr, a);
  }

  /** The 64-bit counter has moved to the value `t` holds; the registry remains. */
  predicate Passing(s: State, t: Tid) {
    && s.width.Bits64? && s.w.Scanning? && s.w.pass == 1 && s.w.pos == 0
    && t in Inside(s) && s.th[t].ctr == s.gp
  }

  /** A reader that holds the scan up goes offline, after finishing the report of a
      quiescent state if it is in the middle of one. */
  lemma SendOffline(tr: seq<State>, i: nat, t: Tid, r: Tid) returns (tr': seq<State>)
    requires Around(tr, i, t) && Passing(tr[|tr| - 1], t) && r in tr[|tr| - 1].th
    requires Ongoing(tr[|tr| - 1].th[r].ctr, tr[|tr| - 1].gp)
    ensures tr <= tr' && Around(tr', i, t) && Passing(tr'[|tr'| - 1], t)
    ensures tr'[|tr'| - 1].registry == tr[|tr| - 1].registry
    ensures r in tr'[|tr'| - 1].th && tr'[|tr'| - 1].th[r].ctr == 0
  {
    RunKeepsInv(tr, |tr| - 1);
    assert ThreadInv(tr[|tr| - 1], r);
    tr' := tr;
    if tr[|tr| - 1].th[r].pc.QuiescentLoaded? {
      tr' := Onward(tr', i, t, QuiescentStore(r));
    }
    tr' := Onward(tr', i, t, Offline(r));
  }

  /** The pass moves one reader after the other to the quiescent list, the aliased
      one among them. */
  lemma {:induction false} EmptyRegistry(tr: seq<State>, i: nat, t: Tid) returns (tr': seq<State>)
    requires Around(tr, i, t) && Passing(tr[|tr| - 1], t)
    ensures tr <= tr' && Around(tr', i, t) && Passing(tr'[|tr'| - 1], t)
    ensures tr'[|tr'| - 1].registry == []
    decreases |tr[|tr| - 1].registry|
  {
    var s := tr[|tr| - 1];
    if s.registry == [] {
      tr' := tr;
    } else {
      var r := s.registry[0];
      tr' := tr;
      if r in s.th && Ongoing(s.th[r].ctr, s.gp) {
        tr' := SendOffline(tr, i, t, r);
      }
      tr' := Onward(tr', i, t, ScanOne);
      tr' := EmptyRegistry(tr', i, t);
    }
  }

  /** The lock is taken and the counter moves to the value `t` holds. */
  lemma MoveCounter(tr: seq<State>, o: Tid, t: Tid) returns (tr': seq<State>)
    requires Run(tr) && tr[|tr| - 1].w == NoWriter && t in Inside(tr[|tr| - 1]) && Aliased(tr[|tr| - 1], t)
    requires o in tr[|tr| - 1].th && tr[|tr| - 1].th[o].pc.SyncCalled?
    ensures tr < tr' && Around(tr', |tr| - 1, t) && Passing(tr'[|tr'| - 1], t)
  {
    var s := tr[|tr| - 1];
    RunKeepsInv(tr, |tr| - 1);
    assert ThreadInv(s, t) && ThreadInv(s, o) && t in s.registry;
    tr' := Onward(tr, |tr| - 1, t, AcquireGpLock(o));
    tr' := Onward(tr', |tr| - 1, t, FlipCounter);
  }

  /** Some continuation of the run is one grace period, from lock to release, around
      the section `t` is in now. */
  ghost predicate CanBeMissed(tr: seq<State>, t: Tid) {
    exists all: seq<State> :: MissedBy(tr, all, t)
  }

  ghost predicate MissedBy(tr: seq<State>, all: seq<State>, t: Tid) {
    && 0 < |tr| < |all| - 1 && tr <= all && Run(all)
    && Synchronize(all, |tr| - 1, |tr| - 1, |all| - 2)
    && forall m: nat :: |tr| - 1 <= m < |all| ==> t in Inside(all[m])
  }

  lemma AliasedIsMissed(tr: seq<State>, o: Tid, t: Tid)
    requires Run(tr) && tr[|tr| - 1].w == NoWriter && t in Inside(tr[|tr| - 1]) && Aliased(tr[|tr| - 1], t)
    requires o in tr[|tr| - 1].th && tr[|tr| - 1].th[o].pc.SyncCalled?
    ensures CanBeMissed(tr, t)
  {
    var i := |tr| - 1;
    var all := MoveCounter(tr, o, t);
    all := EmptyRegistry(all, i, t);
    all := Onward(all, i, t, EndPass);
    RunKeepsInv(all, |all| - 1);
    var last := all[|all| - 1];
    assert ThreadInv(last, t);
    ghost var held := all;
    all := OneMore(all, Release);
    assert all[|all| - 1].w == NoWriter && t in Inside(all[|all| - 1]);
    assert forall m: nat :: m < |held| ==> all[m] == held[m];
    assert MissedBy(tr, all, t);
  }

  /** Exactly the aliased readers can be missed. In any run of either version, with a
      thread about to take the lock, a reader in its section can stay there through
      the whole grace period if and only if it already holds the value the next flip
      will store. */
  lemma MissedIffAliased(tr: seq<State>, o: Tid, t: Tid)
    requires Run(tr) && tr[|tr| - 1].w == NoWriter && t in Inside(tr[|tr| - 1])
    requires o in tr[|tr| - 1].th && tr[|tr| - 1].th[o].pc.SyncCalled?
    ensures CanBeMissed(tr, t) <==> Aliased(tr[|tr| - 1], t)
  {
    if Aliased(tr[|tr| - 1], t) {
      AliasedIsMissed(tr, o, t);
    } else if CanBeMissed(tr, t) {
      var all: seq<State> :| MissedBy(tr, all, t);
      var i := |tr| - 1;
      assert all[i] == tr[i];
      SectionsEnd(all, i, i, |all| - 2, t);
    }
  }

  // --------------------------------------------------------------- refinement

  function Abs(s: State): GP.Spec {
    GP.Spec(Inside(s), s.w != NoWriter, s.awaited)
  }

  function EventOf(s: State, a: Action): GP.Event {
    match a
    case OnlineStore(t) => GP.Enter(t)
    case QuiescentStore(t) => GP.Enter(t)
    case Offline(t) => if t in Inside(s) then GP.Exit(t) else GP.Stutter
    case CallSync(t) => if t in Inside(s) then GP.Exit(t) else GP.Stutter
    case QuiescentLoad(t) => if t in Inside(s) then GP.Exit(t) else GP.Stutter
    case AcquireGpLock(_) => GP.Begin
    case Release => GP.End
    case _ => GP.Stutter
  }

  lemma InsideAfter(s: State, s': State, t: Tid)
    requires t in s.th && t in s'.th && s'.th == s.th[t := s'.th[t]]
    ensures InSection(s'.th[t]) ==> Inside(s') == Inside(s) + {t}
    ensures !InSection(s'.th[t]) ==> Inside(s') == Inside(s) - {t}
  {
  }

  /** A reader still awaited when the lock is about to be released was aliased. */
  lemma NobodyAwaitedAtTheEnd(s: State)
    requires Inv(s) && s.w.Leaving?
    requires s.width.Bits32? || s.epoch < Period(Bits64)
    ensures s.awaited == {}
  {
    if s.width.Bits64? {
      forall t | t in s.awaited
        ensures false
      {
        WordsAlias(Bits64, s.th[t].seen, s.epoch);
      }
    }
  }

  /** Every step is one step of the abstract grace period, always with 32-bit
      longs and for the first 2^63 increments with 64-bit longs. */
  lemma Refines(s: State, a: Action)
    requires Inv(s) && Enabled(s, a)
    requires s.w != NoWriter || s.awaited == {}
    requires s.width.Bits32? || s.epoch < Period(Bits64)
    ensures GP.Next(Abs(s), Abs(Apply(s, a)))
    ensures Apply(s, a).w == NoWriter ==> Apply(s, a).awaited == {}
  {
    var s' := Apply(s, a);
    match a {
      case OnlineLoad(t) => InsideAfter(s, s', t);
      case OnlineStore(t) => InsideAfter(s, s', t);
      case Offline(t) => InsideAfter(s, s', t);
      case QuiescentLoad(t) => InsideAfter(s, s', t);
      case QuiescentStore(t) => InsideAfter(s, s', t);
      case CallSync(t) => InsideAfter(s, s', t);
      case AcquireGpLock(t) => InsideAfter(s, s', t);
      case Release =>
        NobodyAwaitedAtTheEnd(s);
        InsideAfter(s, s', s.w.owner);
      case _ =>
    }
    var e := EventOf(s, a);
    assert GP.Enabled(Abs(s), e) && Abs(s') == GP.Apply(Abs(s), e);
  }

  // ---------------------------------------- what a wrapped 64-bit counter does

  ghost predicate Reachable(s: State) {
    exists tr: seq<State> :: Run(tr) && tr[|tr| - 1] == s
  }

  lemma Reach(s: State, a: Action, s': State)
    requires Reachable(s) && Enabled(s, a) && s' == Apply(s, a)
    ensures Reachable(s')
  {
    var tr: seq<State> :| Run(tr) && tr[|tr| - 1] == s;
    var tr' := tr + [s'];
    forall i: nat | i + 1 < |tr'|
      ensures StepAt(tr', i)
    {
      if i + 1 < |tr| {
        assert StepAt(tr, i);
      }
    }
    assert Run(tr') && tr'[|tr'| - 1] == s';
  }

  /** A 64-bit state of two threads: reader 0 and the offline writer 1. */
  function Two(e: nat, reader: Thread, writer: Pc, registry: seq<Tid>, qs: seq<Tid>, w: Writer,
               awaited: set<Tid>): State {
    State(Bits64, Word(Bits64, e), e, map[0 := reader, 1 := Thread(0, 0, writer)], registry, qs, w, awaited)
  }

  lemma ReaderPaused()
    ensures Reachable(Two(0, Thread(0, 0, OnlineLoaded(ONLINE, 0)), Idle, [0], [], NoWriter, {}))
  {
    var s0 := Two(0, Thread(0, 0, Idle), Idle, [], [], NoWriter, {});
    var s1 := Two(0, Thread(0, 0, Idle), Idle, [0], [], NoWriter, {});
    assert Run([s0]) && [s0][|[s0]| - 1] == s0;
    Reach(s0, Register(0), s1);
    Reach(s1, OnlineLoad(0), Two(0, Thread(0, 0, OnlineLoaded(ONLINE, 0)), Idle, [0], [], NoWriter, {}));
  }

  /** Writer 1 calls synchronize_rcu, takes the lock and moves the counter. */
  lemma StartGracePeriod(e: nat, reader: Thread, awaited: set<Tid>)
    requires Reachable(Two(e, reader, Idle, [0], [], NoWriter, {}))
    requires awaited == if InSection(reader) then {0} else {}
    ensures Reachable(Two(e + 1, reader, Syncing(false), [0], [], Scanning(1, 1, 0), awaited))
  {
    var s1 := Two(e, reader, SyncCalled(false), [0], [], NoWriter, {});
    var s2 := Two(e, reader, Syncing(false), [0], [], Flipping(1, 1), awaited);
    Reach(Two(e, reader, Idle, [0], [], NoWriter, {}), CallSync(1), s1);
    assert Inside(s1) == awaited;
    Reach(s1, AcquireGpLock(1), s2);
    NextWord(Bits64, e);
    Reach(s2, FlipCounter, Two(e + 1, reader, Syncing(false), [0], [], Scanning(1, 1, 0), awaited));
  }

  /** The pass over a reader that does not look ongoing. */
  lemma FinishPass(e: nat, reader: Thread, awaited: set<Tid>)
    requires Reachable(Two(e, reader, Syncing(false), [0], [], Scanning(1, 1, 0), awaited))
    requires !Ongoing(reader.ctr, Word(Bits64, e))
    ensures Reachable(Two(e, reader, Syncing(false), [0], [], Leaving(1), awaited))
  {
    var s1 := Two(e, reader, Syncing(false), [], [0], Scanning(1, 1, 0), awaited);
    Reach(Two(e, reader, Syncing(false), [0], [], Scanning(1, 1, 0), awaited), ScanOne, s1);
    Reach(s1, EndPass, Two(e, reader, Syncing(false), [0], [], Leaving(1), awaited));
  }

  /** Any number of grace periods can pass while reader 0 is coming online. */
  lemma {:induction false} PausedForPeriods(e: nat)
    ensures Reachable(Two(e, Thread(0, 0, OnlineLoaded(ONLINE, 0)), Idle, [0], [], NoWriter, {}))
  {
    var reader := Thread(0, 0, OnlineLoaded(ONLINE, 0));
    if e == 0 {
      ReaderPaused();
    } else {
      PausedForPeriods(e - 1);
      StartGracePeriod(e - 1, reader, {});
      FinishPass(e, reader, {});
      Reach(Two(e, reader, Syncing(false), [0], [], Leaving(1), {}), Release,
            Two(e, reader, Idle, [0], [], NoWriter, {}));
    }
  }

  /** The 64-bit version does miss a reader once its counter has wrapped: after
      2^63 - 1 grace periods the paused reader goes online with the value the next
      grace period will publish, and that grace period ends around it. */
  lemma WrappedCounterMissesAReader()
    ensures exists s :: && Reachable(s) && s.epoch == Period(Bits64)
                        && s.w == Leaving(1) && 0 in s.awaited && 0 in Inside(s)
  {
    var p := Period(Bits64);
    var paused, online := Thread(0, 0, OnlineLoaded(ONLINE, 0)), Thread(ONLINE, 0, Idle);
    PausedForPeriods(p - 1);
    Reach(Two(p - 1, paused, Idle, [0], [], NoWriter, {}), OnlineStore(0),
          Two(p - 1, online, Idle, [0], [], NoWriter, {}));
    StartGracePeriod(p - 1, online, {0});
    FinishPass(p, online, {0});
    var s := Two(p, online, Syncing(false), [0], [], Leaving(1), {0});
    assert 0 in Inside(s);
  }
}
