/**
 The reader/writer lock of furwock.h: a gate semaphore, a signed counter, and a
 semaphore the writer waits on, which furwock_init takes down in advance.

 Every access to the counter is one step; inside the two semaphores a thread
 takes the steps of module Futex.
 */
module Furwock {
  import Fx = Futex

  type Tid = Fx.Tid

  /** Where a thread is in the operations of the lock. In the four `...Gate` and
      the two `Wait...` positions it is inside a function of a semaphore. */
  datatype Ctl =
    | Idle
    // furwock_read_down, furwock_read_trydown
    | ReadGate
    | ReadTryGate
    | ReadTryCount
    | ReadTrySkipped
    | ReadGateUp
    | Reading
    // furwock_read_up
    | WaitUp
    // furwock_write_down, furwock_write_trydown
    | WriteGate
    | WriteTryGate
    | WriteWait
    | Writing
    // furwock_write_up
    | WriteReset
    | WriteGateUp

  datatype State = State(gate: Fx.Sem, wait: Fx.Sem, count: int, ctl: map<Tid, Ctl>)

  datatype Action =
    | CallReadDown(t: Tid)
    | CallReadTry(t: Tid)
    | ReadCount(t: Tid)
    | ReadTryTest(t: Tid)
    | ReadTryFail(t: Tid)
    | ReadEnter(t: Tid)
    | ReadLeave(t: Tid)
    | ReadLeft(t: Tid)
    | CallWriteDown(t: Tid)
    | CallWriteTry(t: Tid)
    | WriteTryFail(t: Tid)
    | WriteDec(t: Tid)
    | WriteWoken(t: Tid)
    | WriteStoreZero(t: Tid)
    | WriteOpenGate(t: Tid)
    | WriteLeft(t: Tid)
    | GateStep(t: Tid, fa: Fx.Action)
    | WaitStep(t: Tid, fa: Fx.Action)

  /** The steps a semaphore takes by itself. */
  predicate Internal(fa: Fx.Action) {
    fa.Step? || fa.WakeOne? || fa.WakeNone?
  }

  /** What a step does to one of the two semaphores: nothing, or one of its actions. */
  datatype Use = NoUse | Use(fa: Fx.Action)

  /** What a step does: the thread's next position, the counter, and the semaphores. */
  datatype Effect = Effect(c: Ctl, count: int, gate: Use, wait: Use)

  function Does(c: Ctl, count: int, a: Action): Effect {
    match a
    case CallReadDown(t) => Effect(ReadGate, count, Use(Fx.CallDown(t)), NoUse)
    case CallReadTry(t) => Effect(ReadTryGate, count, Use(Fx.CallTry(t)), NoUse)
    case ReadCount(t) => Effect(ReadGateUp, count + 1, Use(Fx.CallUp(t)), NoUse)
    case ReadTryTest(t) =>
      if count >= 0 then Effect(ReadTryCount, count, NoUse, NoUse)
      else Effect(ReadTrySkipped, count, Use(Fx.CallUp(t)), NoUse)
    case ReadTryFail(_) => Effect(Idle, count, NoUse, NoUse)
    case ReadEnter(_) => Effect(Reading, count, NoUse, NoUse)
    case ReadLeave(t) =>
      if count - 1 < 0 then Effect(WaitUp, count - 1, NoUse, Use(Fx.CallUpAnon(t)))
      else Effect(Idle, count - 1, NoUse, NoUse)
    case ReadLeft(_) => Effect(Idle, count, NoUse, NoUse)
    case CallWriteDown(t) => Effect(WriteGate, count, Use(Fx.CallDown(t)), NoUse)
    case CallWriteTry(t) => Effect(WriteTryGate, count, Use(Fx.CallTry(t)), NoUse)
    case WriteTryFail(_) => Effect(Idle, count, NoUse, NoUse)
    case WriteDec(t) =>
      if count - 1 < 0 then Effect(Writing, count - 1, NoUse, NoUse)
      else Effect(WriteWait, count - 1, NoUse, Use(Fx.CallDown(t)))
    case WriteWoken(t) => Effect(Writing, count, NoUse, Use(Fx.Adopt(t)))
    case WriteStoreZero(_) => Effect(WriteReset, 0, NoUse, NoUse)
    case WriteOpenGate(t) => Effect(WriteGateUp, count, Use(Fx.CallUp(t)), NoUse)
    case WriteLeft(_) => Effect(Idle, count, NoUse, NoUse)
    case GateStep(_, fa) => Effect(c, count, Use(fa), NoUse)
    case WaitStep(_, fa) => Effect(c, count, NoUse, Use(fa))
  }

  /** Where a thread is, in the lock and in both semaphores, when it takes a step. */
  predicate CanDo(c: Ctl, gate: Fx.Pc, wait: Fx.Pc, a: Action) {
    match a
    case CallReadDown(_) => c == Idle && gate == Fx.Out
    case CallReadTry(_) => c == Idle && gate == Fx.Out
    case ReadCount(_) => c in {ReadGate, ReadTryCount} && gate == Fx.Got
    case ReadTryTest(_) => c == ReadTryGate && gate == Fx.Got
    case ReadTryFail(_) => c == ReadTryGate && gate == Fx.Out
    case ReadEnter(_) => c == ReadGateUp && gate == Fx.Out
    case ReadLeave(_) => c == Reading
    case ReadLeft(_) => c == WaitUp && wait == Fx.Out
    case CallWriteDown(_) => c == Idle && gate == Fx.Out
    case CallWriteTry(_) => c == Idle && gate == Fx.Out
    case WriteTryFail(_) => c == WriteTryGate && gate == Fx.Out
    case WriteDec(_) => c in {WriteGate, WriteTryGate} && gate == Fx.Got
    case WriteWoken(_) => c == WriteWait && wait == Fx.Got
    case WriteStoreZero(_) => c == Writing
    case WriteOpenGate(_) => c == WriteReset && gate == Fx.Got
    case WriteLeft(_) => c == WriteGateUp && gate == Fx.Out
    case GateStep(t, fa) => fa.t == t && Internal(fa)
    case WaitStep(t, fa) => fa.t == t && Internal(fa)
  }

  ghost predicate Enabled(s: State, a: Action) {
    && a.t in s.ctl && a.t in s.gate.pc && a.t in s.wait.pc
    && CanDo(s.ctl[a.t], s.gate.pc[a.t], s.wait.pc[a.t], a)
    && (a.GateStep? ==> Fx.Enabled(s.gate, a.fa))
    && (a.WaitStep? ==> Fx.Enabled(s.wait, a.fa))
  }

  predicate Usable(f: Fx.Sem, u: Use) {
    u.Use? ==>
      && u.fa.t in f.pc
      && (u.fa.Step? ==> Fx.Stepping(f.pc[u.fa.t]))
      && (u.fa.WakeOne? ==> u.fa.u in f.pc)
  }

  function Used(f: Fx.Sem, u: Use): Fx.Sem
    requires Usable(f, u)
  {
    if u.Use? then Fx.Apply(f, u.fa) else f
  }

  function Outcome(s: State, t: Tid, e: Effect): State
    requires Usable(s.gate, e.gate) && Usable(s.wait, e.wait)
  {
    State(Used(s.gate, e.gate), Used(s.wait, e.wait), e.count, s.ctl[t := e.c])
  }

  ghost function Apply(s: State, a: Action): State
    requires Enabled(s, a)
  {
    Outcome(s, a.t, Does(s.ctl[a.t], s.count, a))
  }

  /** furwock_init: the gate is free; the wait semaphore has been taken down. */
  ghost predicate Init(s: State) {
    && s.gate.pc.Keys == s.wait.pc.Keys == s.ctl.Keys
    && |s.ctl| < 0x4000_0000
    && Fx.Init(s.gate)
    && s.wait.count == 0 && s.wait.anon && (forall t <- s.wait.pc :: s.wait.pc[t] == Fx.Out)
    && s.count == 0
    && forall t <- s.ctl :: s.ctl[t] == Idle
  }

  ghost predicate Next(s: State, s': State) {
    exists a :: Enabled(s, a) && s' == Apply(s, a)
  }

  ghost predicate StepAt(tr: seq<State>, i: nat)
    requires i + 1 < |tr|
  {
    Next(tr[i], tr[i + 1])
  }

  ghost predicate Run(tr: seq<State>) {
    && tr != []
    && Init(tr[0])
    && forall i: nat :: i + 1 < |tr| ==> StepAt(tr, i)
  }

  // ---------------------------------------------------------------- invariant

  predicate InDown(p: Fx.Pc) {
    p.Test? || p.Dec? || p.Slow? || p.Asleep? || p.Awake? || p.PassStore? || p.Mark? || p.Got?
  }

  predicate InTry(p: Fx.Pc) {
    p.TryTest? || p.TryDec? || p.Got? || p.Out?
  }

  predicate InUp(p: Fx.Pc) {
    p.Inc? || p.StoreOne? || p.Wake? || p.Out?
  }

  /** A thread is where its operation says in both semaphores. */
  predicate Placed(c: Ctl, gate: Fx.Pc, wait: Fx.Pc) {
    match c
    case Idle => gate.Out? && wait.Out?
    case ReadGate => InDown(gate) && wait.Out?
    case ReadTryGate => InTry(gate) && wait.Out?
    case ReadTryCount => gate.Got? && wait.Out?
    case ReadTrySkipped => false
    case ReadGateUp => InUp(gate) && wait.Out?
    case Reading => gate.Out? && wait.Out?
    case WaitUp => gate.Out? && InUp(wait)
    case WriteGate => InDown(gate) && wait.Out?
    case WriteTryGate => InTry(gate) && wait.Out?
    case WriteWait => gate.Got? && InDown(wait)
    case Writing => gate.Got? && wait.Out?
    case WriteReset => gate.Got? && wait.Out?
    case WriteGateUp => InUp(gate) && wait.Out?
  }

  /** Readers the counter includes. */
  function Counted(ctl: map<Tid, Ctl>): set<Tid> {
    set t | t in ctl && ctl[t] in {ReadGateUp, Reading}
  }

  /** Writers that have decremented the counter and not reset it. */
  function Claiming(ctl: map<Tid, Ctl>): set<Tid> {
    set t | t in ctl && ctl[t] in {WriteWait, Writing}
  }

  /** A writer that waits although all readers have left. */
  ghost predicate Ready(ctl: map<Tid, Ctl>) {
    Counted(ctl) == {} && exists t <- ctl :: ctl[t] == WriteWait
  }

  ghost predicate WriterReady(s: State) { Ready(s.ctl) }

  ghost predicate SameThreads(s: State) {
    s.gate.pc.Keys == s.wait.pc.Keys == s.ctl.Keys
  }

  ghost predicate PlacedInv(s: State) {
    SameThreads(s) && forall t <- s.ctl :: Placed(s.ctl[t], s.gate.pc[t], s.wait.pc[t])
  }

  /** The counter is the number of counted readers, minus one while a writer has
      decremented it and not reset it; the wait semaphore has been given back, or is
      about to be, exactly while a writer waits for no reader any more. */
  ghost predicate CountOk(ctl: map<Tid, Ctl>, count: int, gateAnon: bool, waitAnon: bool) {
    && !gateAnon
    && count == |Counted(ctl)| - |Claiming(ctl)|
    && (waitAnon <==> !Ready(ctl))
    && forall t <- ctl :: ctl[t] == Writing ==> Counted(ctl) == {}
  }

  ghost predicate CountInv(s: State) {
    CountOk(s.ctl, s.count, s.gate.anon, s.wait.anon)
  }

  ghost predicate LockInv(s: State) {
    PlacedInv(s) && CountInv(s)
  }

  ghost predicate Inv(s: State) {
    Fx.Inv(s.gate) && Fx.Inv(s.wait) && LockInv(s)
  }

  /** What the lock needs to know of its semaphores: each has at most one taker. */
  ghost predicate LockPre(s: State) {
    LockInv(s) && Fx.ExclusionInv(s.gate) && Fx.ExclusionInv(s.wait)
  }

  /** Two threads cannot both hold the gate. */
  lemma GateIsExclusive(s: State, t: Tid, u: Tid)
    requires LockPre(s) && t in s.gate.pc && u in s.gate.pc
    requires Fx.IsTaker(s.gate.pc[t]) && Fx.IsTaker(s.gate.pc[u])
    ensures t == u
  {
    assert t in Fx.Takers(s.gate) && u in Fx.Takers(s.gate);
  }

  /** The writers that claim the lock, seen from a thread that holds the gate. */
  lemma ClaimingByGateHolder(s: State, t: Tid)
    requires LockPre(s) && t in s.ctl && s.gate.pc[t] == Fx.Got
    ensures Claiming(s.ctl) == if s.ctl[t] in {WriteWait, Writing} then {t} else {}
  {
    forall u | u in Claiming(s.ctl)
      ensures u == t
    {
      assert Placed(s.ctl[u], s.gate.pc[u], s.wait.pc[u]);
      GateIsExclusive(s, t, u);
    }
  }

  lemma SetsAfter(ctl: map<Tid, Ctl>, t: Tid, c: Ctl)
    requires t in ctl
    ensures Counted(ctl[t := c]) == if c in {ReadGateUp, Reading} then Counted(ctl) + {t} else Counted(ctl) - {t}
    ensures Claiming(ctl[t := c]) == if c in {WriteWait, Writing} then Claiming(ctl) + {t} else Claiming(ctl) - {t}
  {
  }

  /** A thread that is in neither set before and after changes neither. */
  lemma SetsUnchanged(ctl: map<Tid, Ctl>, t: Tid, c: Ctl)
    requires t in ctl && ctl[t] !in {ReadGateUp, Reading, WriteWait, Writing}
    requires c !in {ReadGateUp, Reading, WriteWait, Writing}
    ensures Counted(ctl[t := c]) == Counted(ctl)
    ensures Claiming(ctl[t := c]) == Claiming(ctl)
  {
    SetsAfter(ctl, t, c);
  }

  /** With no writer claiming the lock the counter is not negative, so the guard
      in furwock_read_trydown never skips the increment. */
  lemma GuardNeverSkips(s: State, t: Tid)
    requires LockPre(s) && t in s.ctl && s.ctl[t] in {ReadGate, ReadTryGate, ReadTryCount, WriteGate, WriteTryGate}
    requires s.gate.pc[t] == Fx.Got
    ensures s.count >= 0 && Claiming(s.ctl) == {} && s.wait.anon
  {
    ClaimingByGateHolder(s, t);
    assert forall u <- s.ctl :: s.ctl[u] == WriteWait ==> u in Claiming(s.ctl);
  }

  /** The last reader out, and only it, finds the counter negative; then exactly
      one writer waits and the wait semaphore is still down. */
  lemma LastReaderOut(s: State, t: Tid)
    requires LockPre(s) && t in s.ctl && s.ctl[t] == Reading
    ensures s.count - 1 < 0 <==> Counted(s.ctl) == {t} && exists u <- s.ctl :: s.ctl[u] == WriteWait
    ensures s.wait.anon
  {
    assert t in Counted(s.ctl);
    if Claiming(s.ctl) != {} {
      var u :| u in Claiming(s.ctl);
      assert Placed(s.ctl[u], s.gate.pc[u], s.wait.pc[u]);
      ClaimingByGateHolder(s, u);
    }
    assert forall u <- s.ctl :: s.ctl[u] == WriteWait ==> u in Claiming(s.ctl);
    assert |Counted(s.ctl) - {t}| == |Counted(s.ctl)| - 1;
  }

  // Places.

  /** What one action of a semaphore makes of the thread that takes it. */
  function PcAfter(count: int, p: Fx.Pc, u: Use): Fx.Pc
    requires u.Use? && u.fa.Step? ==> Fx.Stepping(p)
  {
    if u.Use? then Fx.Moved(count, p, u.fa).p else p
  }

  lemma InternalKeepsPlace(count: int, p: Fx.Pc, fa: Fx.Action)
    requires Internal(fa) && Fx.CanMove(p, fa)
    ensures var p' := Fx.Moved(count, p, fa).p;
            && (InDown(p) ==> InDown(p')) && (InTry(p) ==> InTry(p')) && (InUp(p) ==> InUp(p'))
            && !p.Out? && !p.Got?
  {
  }

  /** The thread that steps is where it should be afterwards. */
  lemma MoverPlaced(c: Ctl, gate: Fx.Pc, wait: Fx.Pc, count: int, gateCount: int, waitCount: int, a: Action)
    requires Placed(c, gate, wait) && CanDo(c, gate, wait, a) && (a.ReadTryTest? ==> count >= 0)
    requires a.GateStep? ==> Fx.CanMove(gate, a.fa)
    requires a.WaitStep? ==> Fx.CanMove(wait, a.fa)
    ensures var e := Does(c, count, a);
            Placed(e.c, PcAfter(gateCount, gate, e.gate), PcAfter(waitCount, wait, e.wait))
  {
    if a.GateStep? {
      InternalKeepsPlace(gateCount, gate, a.fa);
    } else if a.WaitStep? {
      InternalKeepsPlace(waitCount, wait, a.fa);
    }
  }

  // The semaphores.

  /** Every step is at most one legal action of each semaphore. */
  ghost predicate LegalUse(f: Fx.Sem, u: Use, t: Tid) {
    u.Use? ==> u.fa.t == t && Fx.Enabled(f, u.fa)
  }

  /** Where the thread is in a semaphore allows the use its step makes of it. */
  predicate MayUse(p: Fx.Pc, u: Use, t: Tid) {
    u.Use? ==> u.fa.t == t && Fx.CanMove(p, u.fa) && !u.fa.WakeOne? && !u.fa.WakeNone?
  }

  lemma UsesFit(c: Ctl, gate: Fx.Pc, wait: Fx.Pc, count: int, a: Action)
    requires Placed(c, gate, wait) && CanDo(c, gate, wait, a)
    ensures var e := Does(c, count, a);
            && (!a.GateStep? ==> MayUse(gate, e.gate, a.t) && (e.gate.Use? ==> !e.gate.fa.CallUpAnon?))
            && (!a.WaitStep? ==> MayUse(wait, e.wait, a.t) && (e.wait.Use? && e.wait.fa.CallUpAnon? ==> a.ReadLeave?))
  {
  }

  lemma UsesAreLegal(s: State, a: Action)
    requires LockPre(s) && Enabled(s, a)
    ensures LegalUse(s.gate, Does(s.ctl[a.t], s.count, a).gate, a.t)
    ensures LegalUse(s.wait, Does(s.ctl[a.t], s.count, a).wait, a.t)
  {
    assert Placed(s.ctl[a.t], s.gate.pc[a.t], s.wait.pc[a.t]);
    UsesFit(s.ctl[a.t], s.gate.pc[a.t], s.wait.pc[a.t], s.count, a);
    if a.ReadLeave? {
      LastReaderOut(s, a.t);
    }
  }

  // Where everybody is afterwards.

  /** A use of a semaphore moves the one thread, and may wake another. */
  lemma UseMoves(f: Fx.Sem, u: Use, t: Tid)
    requires t in f.pc && LegalUse(f, u, t)
    ensures Used(f, u).pc.Keys == f.pc.Keys && Used(f, u).pc[t] == PcAfter(f.count, f.pc[t], u)
    ensures forall v <- f.pc :: v != t ==>
              Used(f, u).pc[v] == f.pc[v] || (f.pc[v] == Fx.Asleep && Used(f, u).pc[v] == Fx.Awake)
  {
  }

  /** A step leaves everybody in place if it does so for the thread that takes it. */
  lemma EffectKeepsPlaces(s: State, t: Tid, e: Effect)
    requires PlacedInv(s) && t in s.ctl && LegalUse(s.gate, e.gate, t) && LegalUse(s.wait, e.wait, t)
    requires Placed(e.c, PcAfter(s.gate.count, s.gate.pc[t], e.gate), PcAfter(s.wait.count, s.wait.pc[t], e.wait))
    ensures PlacedInv(Outcome(s, t, e))
  {
    var s' := Outcome(s, t, e);
    UseMoves(s.gate, e.gate, t);
    UseMoves(s.wait, e.wait, t);
    forall v | v in s.ctl && v != t
      ensures Placed(s'.ctl[v], s'.gate.pc[v], s'.wait.pc[v])
    {
      assert Placed(s.ctl[v], s.gate.pc[v], s.wait.pc[v]);
      WakingKeepsPlace(s.ctl[v], s.gate.pc[v], s.wait.pc[v], s'.gate.pc[v], s'.wait.pc[v]);
    }
  }

  lemma WakingKeepsPlace(c: Ctl, gate: Fx.Pc, wait: Fx.Pc, gate': Fx.Pc, wait': Fx.Pc)
    requires Placed(c, gate, wait)
    requires gate' == gate || (gate == Fx.Asleep && gate' == Fx.Awake)
    requires wait' == wait || (wait == Fx.Asleep && wait' == Fx.Awake)
    ensures Placed(c, gate', wait')
  {
  }

  lemma PlacesKept(s: State, a: Action)
    requires LockPre(s) && Enabled(s, a)
    ensures PlacedInv(Apply(s, a))
  {
    var t, e := a.t, Does(s.ctl[a.t], s.count, a);
    assert Placed(s.ctl[t], s.gate.pc[t], s.wait.pc[t]);
    if a.ReadTryTest? {
      GuardNeverSkips(s, t);
    }
    MoverPlaced(s.ctl[t], s.gate.pc[t], s.wait.pc[t], s.count, s.gate.count, s.wait.count, a);
    UsesAreLegal(s, a);
    EffectKeepsPlaces(s, t, e);
  }

  // The counter.

  /** A thread that is neither counted nor claims, before and after. */
  lemma NeutralKeepsCount(ctl: map<Tid, Ctl>, count: int, waitAnon: bool, t: Tid, c: Ctl)
    requires CountOk(ctl, count, false, waitAnon) && t in ctl
    requires ctl[t] !in {ReadGateUp, Reading, WriteWait, Writing} && c !in {ReadGateUp, Reading, WriteWait, Writing}
    ensures CountOk(ctl[t := c], count, false, waitAnon)
  {
    SetsUnchanged(ctl, t, c);
    assert forall u <- ctl :: (ctl[t := c][u] == WriteWait) == (ctl[u] == WriteWait);
  }

  lemma SizesAfter(ctl: map<Tid, Ctl>, t: Tid, c: Ctl)
    requires t in ctl && ctl[t] !in {WriteWait, Writing} && c !in {WriteWait, Writing}
    ensures Claiming(ctl[t := c]) == Claiming(ctl)
    ensures |Counted(ctl[t := c])| == |Counted(ctl)|
              + (if c in {ReadGateUp, Reading} then 1 else 0)
              - (if ctl[t] in {ReadGateUp, Reading} then 1 else 0)
    ensures c !in {ReadGateUp, Reading} ==> Counted(ctl[t := c]) == Counted(ctl) - {t}
    ensures forall u <- ctl :: (ctl[t := c][u] == WriteWait) == (ctl[u] == WriteWait)
  {
    SetsAfter(ctl, t, c);
    assert t !in Claiming(ctl);
    if t in Counted(ctl) {
      assert Counted(ctl) - {t} + {t} == Counted(ctl);
    } else {
      assert Counted(ctl) - {t} == Counted(ctl);
    }
  }

  lemma ReadInKeepsCount(ctl: map<Tid, Ctl>, count: int, t: Tid)
    requires CountOk(ctl, count, false, true) && t in ctl && ctl[t] in {ReadGate, ReadTryCount} && Claiming(ctl) == {}
    ensures CountOk(ctl[t := ReadGateUp], count + 1, false, true)
  {
    var ctl' := ctl[t := ReadGateUp];
    SizesAfter(ctl, t, ReadGateUp);
    assert forall u <- ctl' :: ctl'[u] in {WriteWait, Writing} ==> u in Claiming(ctl');
  }

  lemma ReadEnterKeepsCount(ctl: map<Tid, Ctl>, count: int, waitAnon: bool, t: Tid)
    requires CountOk(ctl, count, false, waitAnon) && t in ctl && ctl[t] == ReadGateUp
    ensures CountOk(ctl[t := Reading], count, false, waitAnon)
  {
    SizesAfter(ctl, t, Reading);
    SetsAfter(ctl, t, Reading);
    assert t in Counted(ctl);
    assert Counted(ctl[t := Reading]) == Counted(ctl);
  }

  lemma ReadLeaveKeepsCount(ctl: map<Tid, Ctl>, count: int, t: Tid, c: Ctl)
    requires CountOk(ctl, count, false, true) && t in ctl && ctl[t] == Reading && c in {Idle, WaitUp}
    requires count - 1 < 0 <==> Counted(ctl) == {t} && exists u <- ctl :: ctl[u] == WriteWait
    ensures CountOk(ctl[t := c], count - 1, false, count - 1 >= 0)
  {
    var ctl' := ctl[t := c];
    SizesAfter(ctl, t, c);
    assert t in Counted(ctl);
    assert Counted(ctl') == {} <==> Counted(ctl) == {t};
    assert Ready(ctl') <==> count - 1 < 0;
  }

  lemma WriteDecKeepsCount(ctl: map<Tid, Ctl>, count: int, t: Tid)
    requires CountOk(ctl, count, false, true) && t in ctl && ctl[t] in {WriteGate, WriteTryGate}
    requires Claiming(ctl) == {} && count >= 0
    ensures CountOk(ctl[t := if count - 1 < 0 then Writing else WriteWait], count - 1, false, true)
  {
    var ctl' := ctl[t := if count - 1 < 0 then Writing else WriteWait];
    SetsAfter(ctl, t, ctl'[t]);
    assert Counted(ctl') == Counted(ctl) && Claiming(ctl') == {t};
    assert forall u <- ctl' :: ctl'[u] in {WriteWait, Writing} ==> u in Claiming(ctl');
    assert count == 0 <==> Counted(ctl) == {};
  }

  lemma WriteWokenKeepsCount(ctl: map<Tid, Ctl>, count: int, t: Tid)
    requires CountOk(ctl, count, false, false) && t in ctl && ctl[t] == WriteWait && Claiming(ctl) == {t}
    ensures CountOk(ctl[t := Writing], count, false, true)
  {
    var ctl' := ctl[t := Writing];
    SetsAfter(ctl, t, Writing);
    assert Counted(ctl') == Counted(ctl) == {} && Claiming(ctl') == {t};
    assert forall u <- ctl' :: ctl'[u] == WriteWait ==> u in Claiming(ctl');
  }

  lemma WriteStoreZeroKeepsCount(ctl: map<Tid, Ctl>, count: int, waitAnon: bool, t: Tid)
    requires CountOk(ctl, count, false, waitAnon) && t in ctl && ctl[t] == Writing && Claiming(ctl) == {t}
    ensures CountOk(ctl[t := WriteReset], 0, false, waitAnon)
  {
    var ctl' := ctl[t := WriteReset];
    SetsAfter(ctl, t, WriteReset);
    assert Counted(ctl') == {} && Claiming(ctl') == {};
    assert forall u <- ctl :: ctl[u] in {WriteWait, Writing} ==> u in Claiming(ctl);
    assert forall u <- ctl' :: ctl'[u] in {WriteWait, Writing} ==> u in Claiming(ctl');
  }

  /** The steps that change the counter, or who claims the lock. */
  predicate Counts(a: Action) {
    || a.ReadCount? || a.ReadEnter? || a.ReadLeave? || a.WriteDec? || a.WriteWoken? || a.WriteStoreZero?
  }

  lemma CountingKeepsCount(s: State, a: Action)
    requires LockPre(s) && Enabled(s, a) && Counts(a)
    ensures var e := Does(s.ctl[a.t], s.count, a);
            CountOk(s.ctl[a.t := e.c], e.count, false,
                    if a.ReadLeave? then s.count - 1 >= 0 else if a.WriteWoken? then true else s.wait.anon)
  {
    var t := a.t;
    assert Placed(s.ctl[t], s.gate.pc[t], s.wait.pc[t]);
    match a
    case ReadCount(_) =>
      GuardNeverSkips(s, t);
      ReadInKeepsCount(s.ctl, s.count, t);
    case ReadEnter(_) => ReadEnterKeepsCount(s.ctl, s.count, s.wait.anon, t);
    case ReadLeave(_) =>
      LastReaderOut(s, t);
      ReadLeaveKeepsCount(s.ctl, s.count, t, Does(s.ctl[t], s.count, a).c);
    case WriteDec(_) =>
      GuardNeverSkips(s, t);
      WriteDecKeepsCount(s.ctl, s.count, t);
    case WriteWoken(_) =>
      ClaimingByGateHolder(s, t);
      assert t in Fx.Takers(s.wait);
      WriteWokenKeepsCount(s.ctl, s.count, t);
    case WriteStoreZero(_) =>
      ClaimingByGateHolder(s, t);
      WriteStoreZeroKeepsCount(s.ctl, s.count, s.wait.anon, t);
  }

  /** On whose behalf the semaphores are down afterwards. */
  lemma AnonsAfter(s: State, a: Action)
    requires Enabled(s, a)
    ensures Apply(s, a).gate.anon == s.gate.anon
    ensures Apply(s, a).wait.anon ==
            if a.ReadLeave? then s.count - 1 >= 0 && s.wait.anon else if a.WriteWoken? then true else s.wait.anon
  {
  }

  lemma CountKept(s: State, a: Action)
    requires LockPre(s) && Enabled(s, a)
    ensures CountInv(Apply(s, a))
  {
    AnonsAfter(s, a);
    if Counts(a) {
      if a.ReadLeave? {
        LastReaderOut(s, a.t);
      }
      CountingKeepsCount(s, a);
    } else if a.GateStep? || a.WaitStep? {
      assert s.ctl[a.t := s.ctl[a.t]] == s.ctl;
    } else {
      NeutralKeepsCount(s.ctl, s.count, s.wait.anon, a.t, Does(s.ctl[a.t], s.count, a).c);
    }
  }

  lemma UseKeepsInv(f: Fx.Sem, u: Use, t: Tid)
    requires Fx.Inv(f) && LegalUse(f, u, t)
    ensures Usable(f, u) && Fx.Inv(Used(f, u))
  {
    if u.Use? {
      Fx.StepKeepsInv(f, u.fa);
    }
  }

  lemma StepKeepsInv(s: State, a: Action)
    requires Inv(s) && Enabled(s, a)
    ensures Inv(Apply(s, a))
  {
    UsesAreLegal(s, a);
    UseKeepsInv(s.gate, Does(s.ctl[a.t], s.count, a).gate, a.t);
    UseKeepsInv(s.wait, Does(s.ctl[a.t], s.count, a).wait, a.t);
    PlacesKept(s, a);
    CountKept(s, a);
  }

  lemma InitGivesInv(s: State)
    requires Init(s)
    ensures Inv(s)
  {
    assert Fx.Decs(s.gate) == {} && Fx.Decs(s.wait) == {};
    assert Fx.Takers(s.gate) == {} && Fx.Takers(s.wait) == {};
    assert |s.gate.pc| == |s.gate.pc.Keys| && |s.wait.pc| == |s.wait.pc.Keys| && |s.ctl| == |s.ctl.Keys|;
    assert Counted(s.ctl) == {} && Claiming(s.ctl) == {};
  }

  lemma StepAtKeepsInv(tr: seq<State>, i: nat)
    requires i + 1 < |tr| && StepAt(tr, i) && Inv(tr[i])
    ensures Inv(tr[i + 1])
  {
    var a :| Enabled(tr[i], a) && tr[i + 1] == Apply(tr[i], a);
    StepKeepsInv(tr[i], a);
  }

  lemma {:induction false} RunKeepsInv(tr: seq<State>, k: nat)
    requires Run(tr) && k < |tr|
    ensures Inv(tr[k])
  {
    InitGivesInv(tr[0]);
    for i := 0 to k
      invariant Inv(tr[i])
    {
      StepAtKeepsInv(tr, i);
    }
  }

  // ----------------------------------------------------------------- theorems

  /** Reader/writer exclusion in every reachable state: a thread in its write
      section excludes every other reader and writer. */
  lemma WriterExcludes(tr: seq<State>, k: nat, t: Tid, u: Tid)
    requires Run(tr) && k < |tr|
    requires t in tr[k].ctl && tr[k].ctl[t] == Writing
    requires u in tr[k].ctl && u != t
    ensures tr[k].ctl[u] != Reading && tr[k].ctl[u] != Writing
  {
    RunKeepsInv(tr, k);
    var s := tr[k];
    assert Placed(s.ctl[t], s.gate.pc[t], s.wait.pc[t]);
    ClaimingByGateHolder(s, t);
    assert u !in Claiming(s.ctl) && u !in Counted(s.ctl);
  }

  /** At most one writer claims the lock. */
  lemma ClaimingIsOne(s: State)
    requires LockPre(s)
    ensures |Claiming(s.ctl)| == if Claiming(s.ctl) == {} then 0 else 1
  {
    if t :| t in Claiming(s.ctl) {
      assert Placed(s.ctl[t], s.gate.pc[t], s.wait.pc[t]);
      ClaimingByGateHolder(s, t);
    }
  }

  /** The counter in every reachable state: the readers counted in, minus one if a
      writer has decremented it and not yet reset it. */
  lemma CounterMeaning(tr: seq<State>, k: nat)
    requires Run(tr) && k < |tr|
    ensures tr[k].count == |Counted(tr[k].ctl)| - (if Claiming(tr[k].ctl) == {} then 0 else 1)
  {
    RunKeepsInv(tr, k);
    ClaimingIsOne(tr[k]);
  }

  /** The ways a token for the waiting writer can exist: the semaphore is up, some
      thread is about to put it up, or the writer has just taken it down. */
  function TokenPlaces(f: Fx.Sem): nat {
    (if f.count == 1 then 1 else 0) + |Fx.Takers(f)|
  }

  /** The wait semaphore gets exactly one token for a writer that waits while no
      reader is counted, and none otherwise. */
  lemma OneTokenPerWaitingWriter(tr: seq<State>, k: nat)
    requires Run(tr) && k < |tr|
    ensures TokenPlaces(tr[k].wait) == if WriterReady(tr[k]) then 1 else 0
  {
    RunKeepsInv(tr, k);
    var f := tr[k].wait;
    if Fx.Takers(f) != {} {
      var t :| t in Fx.Takers(f);
      assert Fx.Takers(f) == {t};
    }
  }

  /** A successful furwock_read_trydown is always counted. */
  lemma TryNeverSkips(tr: seq<State>, k: nat, t: Tid)
    requires Run(tr) && k < |tr| && t in tr[k].ctl
    ensures tr[k].ctl[t] != ReadTrySkipped
  {
    RunKeepsInv(tr, k);
    assert Placed(tr[k].ctl[t], tr[k].gate.pc[t], tr[k].wait.pc[t]);
  }

  /** Both semaphores in every reachable state: no sleeper is stranded, the count
      stays within minus the number of threads and 1, and FUTEX_PASSED is never
      seen. */
  lemma SemaphoresSafe(tr: seq<State>, k: nat)
    requires Run(tr) && k < |tr|
    ensures Fx.SleepInv(tr[k].gate) && Fx.SleepInv(tr[k].wait)
    ensures -|tr[k].ctl| <= tr[k].gate.count <= 1 && -|tr[k].ctl| <= tr[k].wait.count <= 1
    ensures forall t <- tr[k].ctl ::
              Fx.At(tr[k].gate, t) != Fx.PassStore && Fx.At(tr[k].wait, t) != Fx.PassStore
  {
    RunKeepsInv(tr, k);
    assert |tr[k].ctl| == |tr[k].ctl.Keys| == |tr[k].gate.pc.Keys| == |tr[k].wait.pc.Keys|;
  }

  predicate Sleeps(s: State, t: Tid) {
    Fx.At(s.gate, t) == Fx.Asleep || Fx.At(s.wait, t) == Fx.Asleep
  }

  /** A thread inside an operation or a section that does not sleep can step. */
  lemma CanStep(s: State, t: Tid)
    requires PlacedInv(s) && t in s.ctl && s.ctl[t] != Idle && !Sleeps(s, t)
    ensures exists a: Action :: a.t == t && Enabled(s, a)
  {
    assert Placed(s.ctl[t], s.gate.pc[t], s.wait.pc[t]);
    if Fx.Stepping(s.gate.pc[t]) {
      assert Enabled(s, GateStep(t, Fx.Step(t)));
    } else if Fx.Stepping(s.wait.pc[t]) {
      assert Enabled(s, WaitStep(t, Fx.Step(t)));
    } else if s.gate.pc[t] == Fx.Wake {
      SemCanWake(s.gate, t);
      var fa: Fx.Action :| fa.t == t && Internal(fa) && Fx.Enabled(s.gate, fa);
      assert Enabled(s, GateStep(t, fa));
    } else if s.wait.pc[t] == Fx.Wake {
      SemCanWake(s.wait, t);
      var fa: Fx.Action :| fa.t == t && Internal(fa) && Fx.Enabled(s.wait, fa);
      assert Enabled(s, WaitStep(t, fa));
    } else {
      ControlCanStep(s, t);
    }
  }

  lemma SemCanWake(f: Fx.Sem, t: Tid)
    requires t in f.pc && f.pc[t] == Fx.Wake
    ensures exists fa: Fx.Action :: fa.t == t && Internal(fa) && Fx.Enabled(f, fa)
  {
    if u :| u in f.pc && f.pc[u] == Fx.Asleep {
      assert Fx.Enabled(f, Fx.WakeOne(t, u));
    } else {
      assert Fx.Enabled(f, Fx.WakeNone(t));
    }
  }

  lemma ControlCanStep(s: State, t: Tid)
    requires PlacedInv(s) && t in s.ctl && s.ctl[t] != Idle
    requires s.gate.pc[t] in {Fx.Out, Fx.Got} && s.wait.pc[t] in {Fx.Out, Fx.Got}
    ensures exists a: Action :: a.t == t && Enabled(s, a)
  {
    assert Placed(s.ctl[t], s.gate.pc[t], s.wait.pc[t]);
    match s.ctl[t]
    case ReadGate => assert Enabled(s, ReadCount(t));
    case ReadTryGate => assert Enabled(s, ReadTryTest(t)) || Enabled(s, ReadTryFail(t));
    case ReadTryCount => assert Enabled(s, ReadCount(t));
    case ReadGateUp => assert Enabled(s, ReadEnter(t));
    case Reading => assert Enabled(s, ReadLeave(t));
    case WaitUp => assert Enabled(s, ReadLeft(t));
    case WriteGate => assert Enabled(s, WriteDec(t));
    case WriteTryGate => assert Enabled(s, WriteDec(t)) || Enabled(s, WriteTryFail(t));
    case WriteWait => assert Enabled(s, WriteWoken(t));
    case Writing => assert Enabled(s, WriteStoreZero(t));
    case WriteReset => assert Enabled(s, WriteOpenGate(t));
    case WriteGateUp => assert Enabled(s, WriteLeft(t));
  }

  /** When no reader is left, a sleeping writer's semaphore has somebody at it. */
  lemma SomebodyAtWait(s: State, w: Tid) returns (u: Tid)
    requires PlacedInv(s) && CountInv(s) && Fx.ExclusionInv(s.wait) && Fx.SleepInv(s.wait)
    requires w in s.ctl && s.ctl[w] == WriteWait && s.wait.pc[w] == Fx.Asleep && Counted(s.ctl) == {}
    ensures u in s.wait.pc && (Fx.OwesWake(s.wait.pc[u]) || Fx.IsWoken(s.wait.pc[u]) || Fx.IsTaker(s.wait.pc[u]))
  {
    assert WriterReady(s);
    if s.wait.count == 1 {
      u :| u in s.wait.pc && (Fx.OwesWake(s.wait.pc[u]) || Fx.IsWoken(s.wait.pc[u]));
    } else {
      u :| u in Fx.Takers(s.wait);
    }
  }

  /** While a writer sleeps on the wait semaphore somebody else is awake. */
  lemma AwakeWhileWriterSleeps(s: State, w: Tid) returns (u: Tid)
    requires Inv(s) && w in s.ctl && s.wait.pc[w] == Fx.Asleep
    ensures u in s.ctl && s.ctl[u] != Idle && !Sleeps(s, u)
  {
    assert Placed(s.ctl[w], s.gate.pc[w], s.wait.pc[w]);
    if r :| r in Counted(s.ctl) {
      assert Placed(s.ctl[r], s.gate.pc[r], s.wait.pc[r]);
      u := r;
    } else {
      u := SomebodyAtWait(s, w);
      assert Placed(s.ctl[u], s.gate.pc[u], s.wait.pc[u]);
      if s.ctl[u] == WriteWait {
        GateIsExclusive(s, u, w);
      }
    }
  }

  /** While a thread sleeps on the gate somebody else is awake. */
  lemma AwakeWhileThreadSleeps(s: State, t: Tid) returns (u: Tid)
    requires Inv(s) && t in s.ctl && s.gate.pc[t] == Fx.Asleep
    ensures u in s.ctl && s.ctl[u] != Idle && !Sleeps(s, u)
  {
    if s.gate.count < 0 {
      u :| u in Fx.Takers(s.gate);
    } else {
      u :| u in s.gate.pc && (Fx.OwesWake(s.gate.pc[u]) || Fx.IsWoken(s.gate.pc[u]));
    }
    assert Placed(s.ctl[u], s.gate.pc[u], s.wait.pc[u]);
    if s.wait.pc[u] == Fx.Asleep {
      u := AwakeWhileWriterSleeps(s, u);
    }
  }

  /** No deadlock, and no sleeper left behind: whenever some thread sleeps in a
      semaphore, some other thread is in the middle of an operation or of a section
      and can take a step. */
  lemma SomebodyCanStep(tr: seq<State>, k: nat, t: Tid)
    requires Run(tr) && k < |tr| && t in tr[k].ctl && Sleeps(tr[k], t)
    ensures exists u, a: Action :: u in tr[k].ctl && u != t && a.t == u && Enabled(tr[k], a)
                                   && tr[k].ctl[u] != Idle
  {
    RunKeepsInv(tr, k);
    var s := tr[k];
    var u: Tid;
    if s.wait.pc[t] == Fx.Asleep {
      u := AwakeWhileWriterSleeps(s, t);
    } else {
      u := AwakeWhileThreadSleeps(s, t);
    }
    CanStep(s, u);
  }

  // ------------------------------------------------------- calls and returns

  ghost predicate Takes(tr: seq<State>, acts: seq<Action>, i: nat)
    requires i < |acts| && i + 1 < |tr|
  {
    Enabled(tr[i], acts[i]) && tr[i + 1] == Apply(tr[i], acts[i])
  }

  /** A run together with the actions that make it. */
  ghost predicate Follows(tr: seq<State>, acts: seq<Action>) {
    && |tr| == |acts| + 1
    && Init(tr[0])
    && forall i: nat :: i < |acts| ==> Takes(tr, acts, i)
  }

  lemma FollowsRuns(tr: seq<State>, acts: seq<Action>)
    requires Follows(tr, acts)
    ensures Run(tr)
  {
    forall i: nat | i + 1 < |tr|
      ensures StepAt(tr, i)
    {
      assert Takes(tr, acts, i);
    }
  }

  predicate IsTry(a: Action) { a.CallReadTry? || a.CallWriteTry? }

  predicate IsCall(a: Action) { a.CallReadDown? || a.CallWriteDown? || IsTry(a) }

  predicate IsRead(a: Action) { a.CallReadDown? || a.CallReadTry? }

  function Section(a: Action): Ctl { if IsRead(a) then Reading else Writing }

  /** The positions of a call before its section. */
  predicate Entering(a: Action, c: Ctl) {
    match a
    case CallReadDown(_) => c in {ReadGate, ReadGateUp}
    case CallReadTry(_) => c in {ReadTryGate, ReadTryCount, ReadGateUp}
    case CallWriteDown(_) => c in {WriteGate, WriteWait}
    case CallWriteTry(_) => c in {WriteTryGate, WriteWait}
    case _ => false
  }

  /** The trydown of the gate has returned failure. */
  predicate Failed(c: Ctl, gate: Fx.Pc) {
    c in {ReadTryGate, WriteTryGate} && gate == Fx.Out
  }

  /** A call goes on towards its section, unless it is a trydown that failed. */
  lemma EnterStep(c: Ctl, count: int, gate: Fx.Pc, wait: Fx.Pc, call: Action, a: Action)
    requires IsCall(call) && Placed(c, gate, wait) && CanDo(c, gate, wait, a) && (a.ReadTryTest? ==> count >= 0)
    requires if a == call then c == Idle else Entering(call, c)
    ensures var c' := Does(c, count, a).c;
            Entering(call, c') || c' == Section(call) || (IsTry(call) && Failed(c, gate) && c' == Idle)
    ensures a == call ==> c != Section(call)
  {
  }

  /** The trydown of the gate fails only while the gate is taken. */
  lemma GateTryStep(s: State, a: Action, t: Tid)
    requires LockPre(s) && Enabled(s, a) && t in s.ctl && !Failed(s.ctl[t], s.gate.pc[t])
    ensures t in Apply(s, a).ctl && t in Apply(s, a).gate.pc
    ensures Failed(Apply(s, a).ctl[t], Apply(s, a).gate.pc[t]) ==> !Fx.Free(s.gate)
  {
    var e := Does(s.ctl[a.t], s.count, a);
    UsesAreLegal(s, a);
    UseMoves(s.gate, e.gate, a.t);
    if a.t == t {
      assert Placed(s.ctl[t], s.gate.pc[t], s.wait.pc[t]);
      TryMoves(s.ctl[t], s.count, s.gate.count, s.gate.pc[t], s.wait.pc[t], a);
    } else {
      assert Apply(s, a).ctl[t] == s.ctl[t];
    }
  }

  /** The gate's count is not 1 when a thread's trydown of it fails. */
  lemma TryMoves(c: Ctl, count: int, gateCount: int, gate: Fx.Pc, wait: Fx.Pc, a: Action)
    requires Placed(c, gate, wait) && CanDo(c, gate, wait, a) && (a.GateStep? ==> Fx.CanMove(gate, a.fa))
    requires !Failed(c, gate)
    ensures var e := Does(c, count, a);
            Failed(e.c, PcAfter(gateCount, gate, e.gate)) ==> gateCount != 1
  {
  }

  ghost predicate Reached(tr: seq<State>, i: nat, k: nat, t: Tid, c: Ctl) {
    exists m: nat :: i < m <= k && m < |tr| && t in tr[m].ctl && tr[m].ctl[t] == c
  }

  ghost predicate GateTaken(tr: seq<State>, i: nat, k: nat) {
    exists m: nat :: i <= m < k && m < |tr| && !Fx.Free(tr[m].gate)
  }

  /** How far the call at step `i` is at state `k`: at or through its section, a trydown
      that has met a taken gate, or on its way in. */
  ghost predicate Underway(tr: seq<State>, call: Action, i: nat, k: nat) {
    && i < k < |tr| && call.t in tr[k].ctl && call.t in tr[k].gate.pc
    && (|| Reached(tr, i, k, call.t, Section(call))
        || (IsTry(call) && GateTaken(tr, i, k))
        || (Entering(call, tr[k].ctl[call.t]) && !Failed(tr[k].ctl[call.t], tr[k].gate.pc[call.t])))
  }

  /** Where the steps of a run leave the position of a thread. */
  lemma ControlAfter(tr: seq<State>, acts: seq<Action>, k: nat, t: Tid)
    requires Follows(tr, acts) && k < |acts| && t in tr[k].ctl
    ensures t in tr[k].gate.pc && t in tr[k].wait.pc && t in tr[k + 1].ctl && t in tr[k + 1].gate.pc
    ensures Placed(tr[k].ctl[t], tr[k].gate.pc[t], tr[k].wait.pc[t])
    ensures acts[k].t != t ==> tr[k + 1].ctl[t] == tr[k].ctl[t]
    ensures acts[k].t == t ==>
              && CanDo(tr[k].ctl[t], tr[k].gate.pc[t], tr[k].wait.pc[t], acts[k])
              && (acts[k].ReadTryTest? ==> tr[k].count >= 0)
              && tr[k + 1].ctl[t] == Does(tr[k].ctl[t], tr[k].count, acts[k]).c
  {
    FollowsRuns(tr, acts);
    RunKeepsInv(tr, k);
    assert Takes(tr, acts, k);
    StepAtKeepsInv(tr, k);
    if acts[k].ReadTryTest? {
      GuardNeverSkips(tr[k], acts[k].t);
    }
  }

  /** One step of a thread on its way in. */
  lemma MovesToward(tr: seq<State>, acts: seq<Action>, call: Action, k: nat)
    requires Follows(tr, acts) && k < |acts| && IsCall(call) && call.t in tr[k].ctl && call.t in tr[k].gate.pc
    requires || acts[k] == call
             || (Entering(call, tr[k].ctl[call.t]) && !Failed(tr[k].ctl[call.t], tr[k].gate.pc[call.t]))
    ensures call.t in tr[k + 1].ctl && call.t in tr[k + 1].gate.pc
    ensures var c', gate' := tr[k + 1].ctl[call.t], tr[k + 1].gate.pc[call.t];
            && (Entering(call, c') || c' == Section(call))
            && (Failed(c', gate') ==> !Fx.Free(tr[k].gate))
  {
    var t, s, a := call.t, tr[k], acts[k];
    ControlAfter(tr, acts, k, t);
    if a.t == t {
      EnterStep(s.ctl[t], s.count, s.gate.pc[t], s.wait.pc[t], call, a);
    }
    StepMeetsGate(tr, acts, k, t);
  }

  lemma StepMeetsGate(tr: seq<State>, acts: seq<Action>, k: nat, t: Tid)
    requires Follows(tr, acts) && k < |acts| && t in tr[k].ctl && t in tr[k].gate.pc
    requires !Failed(tr[k].ctl[t], tr[k].gate.pc[t])
    ensures t in tr[k + 1].ctl && t in tr[k + 1].gate.pc
    ensures Failed(tr[k + 1].ctl[t], tr[k + 1].gate.pc[t]) ==> !Fx.Free(tr[k].gate)
  {
    FollowsRuns(tr, acts);
    RunKeepsInv(tr, k);
    assert Takes(tr, acts, k);
    GateTryStep(tr[k], acts[k], t);
  }

  lemma UnderwayStep(tr: seq<State>, acts: seq<Action>, call: Action, i: nat, k: nat)
    requires Follows(tr, acts) && i <= k && k + 1 < |tr| && IsCall(call)
    requires if k == i then acts[i] == call else Underway(tr, call, i, k)
    ensures Underway(tr, call, i, k + 1)
  {
    var t := call.t;
    assert Takes(tr, acts, k);
    if k > i && Reached(tr, i, k, t, Section(call)) {
      ControlAfter(tr, acts, k, t);
      assert Reached(tr, i, k + 1, t, Section(call));
    } else if k > i && IsTry(call) && GateTaken(tr, i, k) {
      ControlAfter(tr, acts, k, t);
      assert GateTaken(tr, i, k + 1);
    } else {
      MovesToward(tr, acts, call, k);
      assert tr[k + 1].ctl[t] == Section(call) ==> Reached(tr, i, k + 1, t, Section(call));
      assert !Fx.Free(tr[k].gate) ==> GateTaken(tr, i, k + 1);
      if Entering(call, tr[k + 1].ctl[t]) && Failed(tr[k + 1].ctl[t], tr[k + 1].gate.pc[t]) {
        OnlyTriesFail(call, tr[k + 1].ctl[t], tr[k + 1].gate.pc[t]);
      }
    }
  }

  lemma OnlyTriesFail(call: Action, c: Ctl, gate: Fx.Pc)
    requires IsCall(call) && Entering(call, c) && Failed(c, gate)
    ensures IsTry(call)
  {
  }

  lemma {:induction false} CallIsUnderway(tr: seq<State>, acts: seq<Action>, i: nat, k: nat)
    requires Follows(tr, acts) && i < k < |tr| && IsCall(acts[i])
    ensures Underway(tr, acts[i], i, k)
  {
    if k == i + 1 {
    } else {
      CallIsUnderway(tr, acts, i, k - 1);
    }
    UnderwayStep(tr, acts, acts[i], i, k - 1);
  }

  /** The four ways in, from call to return: a thread that has called one of them and is
      outside again has been in the section it asked for, unless the call was a trydown
      and the gate was not free at some moment since. */
  lemma CallReturns(tr: seq<State>, acts: seq<Action>, i: nat, j: nat)
    requires Follows(tr, acts) && i < j < |tr| && IsCall(acts[i])
    requires acts[i].t in tr[j].ctl && tr[j].ctl[acts[i].t] == Idle
    ensures Reached(tr, i, j, acts[i].t, Section(acts[i])) || (IsTry(acts[i]) && GateTaken(tr, i, j))
  {
    CallIsUnderway(tr, acts, i, j);
  }

  /** The positions of a call and of the section it opens, until it is outside again. */
  predicate OnPath(call: Action, c: Ctl) {
    || Entering(call, c) || c == Section(call)
    || (if IsRead(call) then c == WaitUp else c in {WriteReset, WriteGateUp})
  }

  lemma PathStep(c: Ctl, count: int, gate: Fx.Pc, wait: Fx.Pc, call: Action, a: Action)
    requires IsCall(call) && Placed(c, gate, wait) && CanDo(c, gate, wait, a) && (a.ReadTryTest? ==> count >= 0)
    requires a == call || OnPath(call, c)
    ensures OnPath(call, Does(c, count, a).c) || Does(c, count, a).c == Idle
  {
  }

  lemma {:induction false} StaysOnPath(tr: seq<State>, acts: seq<Action>, i: nat, k: nat)
    requires Follows(tr, acts) && i < k < |tr| && IsCall(acts[i])
    requires !Reached(tr, i, k, acts[i].t, Idle)
    ensures acts[i].t in tr[k].ctl && OnPath(acts[i], tr[k].ctl[acts[i].t])
  {
    var t, s := acts[i].t, tr[k - 1];
    if k == i + 1 {
      assert Takes(tr, acts, i);
    } else {
      StaysOnPath(tr, acts, i, k - 1);
    }
    ControlAfter(tr, acts, k - 1, t);
    if acts[k - 1].t == t {
      PathStep(s.ctl[t], s.count, s.gate.pc[t], s.wait.pc[t], acts[i], acts[k - 1]);
    }
  }

  /** A trydown never sleeps on the gate, and that of a reader on neither semaphore, from
      its call until the thread is outside the lock again. */
  lemma TryNeverSleeps(tr: seq<State>, acts: seq<Action>, i: nat, k: nat)
    requires Follows(tr, acts) && i < k < |tr| && IsTry(acts[i])
    requires !Reached(tr, i, k, acts[i].t, Idle)
    ensures Fx.At(tr[k].gate, acts[i].t) != Fx.Asleep
    ensures acts[i].CallReadTry? ==> Fx.At(tr[k].wait, acts[i].t) != Fx.Asleep
  {
    var t := acts[i].t;
    StaysOnPath(tr, acts, i, k);
    FollowsRuns(tr, acts);
    RunKeepsPlaces(tr, k, t);
  }

  lemma RunKeepsPlaces(tr: seq<State>, k: nat, t: Tid)
    requires Run(tr) && k < |tr| && t in tr[k].ctl
    ensures t in tr[k].gate.pc && t in tr[k].wait.pc
    ensures Placed(tr[k].ctl[t], tr[k].gate.pc[t], tr[k].wait.pc[t])
  {
    RunKeepsInv(tr, k);
  }

  /** Steps outside the semaphores left to a thread until it is outside the lock. */
  function ControlLeft(c: Ctl): nat {
    match c
    case Idle => 0
    case ReadGate => 4
    case ReadTryGate => 5
    case ReadTryCount => 4
    case ReadTrySkipped => 1
    case ReadGateUp => 3
    case Reading => 2
    case WaitUp => 1
    case WriteGate => 5
    case WriteTryGate => 5
    case WriteWait => 4
    case Writing => 3
    case WriteReset => 2
    case WriteGateUp => 1
  }

  /** Between two uses of a semaphore every step of an operation brings it nearer to its
      end: a lock and its unlock take at most five such steps. */
  lemma ControlAdvances(c: Ctl, count: int, gate: Fx.Pc, wait: Fx.Pc, a: Action)
    requires Placed(c, gate, wait) && CanDo(c, gate, wait, a) && (a.ReadTryTest? ==> count >= 0) && !IsCall(a)
    ensures var c' := Does(c, count, a).c;
            if a.GateStep? || a.WaitStep? then c' == c else ControlLeft(c') < ControlLeft(c) <= 5
  {
  }
}
