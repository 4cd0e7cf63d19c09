/**
 The user-space semaphore of usersem.h and usersem.c, with the atomic primitives
 of i386.h.

 Each load, store, atomic operation and system call on the count is one step.
 FUTEX_WAIT returns on a wake or because the count had changed; there is no
 timeout. The state of a thread inside futex_down, futex_trydown and futex_up is
 its position in that code together with its local variables.
 */
module Futex {
  type Tid = nat

  const FUTEX_PASSED: int := -0x4000_0000

  datatype Pc =
    | Out
    // futex_down_timeout: before the sign test and before the decrement of
    // __futex_down, before the system call of __futex_down_slow, asleep in it,
    // before the test and the store that follow it, before the final store of -1.
    | Test(woken: bool)
    | Dec(woken: bool)
    | Slow(woken: bool, val: int)
    | Asleep
    | Awake
    | PassStore
    | Mark
    | Got
    // futex_trydown
    | TryTest
    | TryDec
    // futex_up: before the increment, before the store of 1, before FUTEX_WAKE.
    | Inc
    | StoreOne
    | Wake

  /** `anon` says that the semaphore is down on behalf of no thread in particular,
      as after furwock_init; it is bookkeeping no step of the code reads. */
  datatype Sem = Sem(count: int, pc: map<Tid, Pc>, anon: bool)

  datatype Action =
    | CallDown(t: Tid)
    | CallTry(t: Tid)
    | CallUp(t: Tid)
    | CallUpAnon(t: Tid)
    | Adopt(t: Tid)
    | Step(t: Tid)
    | WakeOne(t: Tid, u: Tid)
    | WakeNone(t: Tid)

  function At(f: Sem, t: Tid): Pc {
    if t in f.pc then f.pc[t] else Out
  }

  predicate Stepping(p: Pc) {
    !p.Out? && !p.Got? && !p.Asleep? && !p.Wake?
  }

  ghost predicate NobodyAsleep(f: Sem) {
    forall u <- f.pc :: f.pc[u] != Asleep
  }

  /** Where a thread is when it takes an action. */
  predicate CanMove(p: Pc, a: Action) {
    match a
    case CallDown(_) => p == Out
    case CallTry(_) => p == Out
    case CallUp(_) => p == Got
    case CallUpAnon(_) => p == Out
    case Adopt(_) => p == Got
    case Step(_) => Stepping(p)
    case WakeOne(_, _) => p == Wake
    case WakeNone(_) => p == Wake
  }

  ghost predicate Enabled(f: Sem, a: Action) {
    && a.t in f.pc && CanMove(f.pc[a.t], a)
    && (a.CallUpAnon? ==> f.anon)
    && (a.WakeOne? ==> a.u in f.pc && f.pc[a.u] == Asleep)
    && (a.WakeNone? ==> NobodyAsleep(f))
  }

  function Set(f: Sem, t: Tid, count: int, p: Pc): Sem {
    f.(count := count, pc := f.pc[t := p])
  }

  /** The count and the thread's position after a step. */
  datatype After = After(count: int, p: Pc)

  /** One step of a thread that is inside one of the three functions. */
  function Advance(c: int, p: Pc): After
    requires Stepping(p)
  {
    match p
    case Test(woken) => After(c, if c < 0 then Slow(woken, c) else Dec(woken))
    case Dec(woken) => After(c - 1, if c - 1 != 0 then Slow(woken, -1) else if woken then Mark else Got)
    case Slow(woken, val) => After(c, if c == val then Asleep else Test(woken))
    case Awake => After(c, if c <= FUTEX_PASSED then PassStore else Test(true))
    case PassStore => After(-1, Got)
    case Mark => After(-1, Got)
    case TryTest => After(c, if c < 0 then Out else TryDec)
    case TryDec => After(c - 1, if c - 1 != 0 then Out else Got)
    case Inc => After(c + 1, if c + 1 > 0 then Out else StoreOne)
    case StoreOne => After(1, Wake)
  }

  /** What any action makes of the thread that takes it. */
  function Moved(c: int, p: Pc, a: Action): After
    requires a.Step? ==> Stepping(p)
  {
    match a
    case CallDown(_) => After(c, Test(false))
    case CallTry(_) => After(c, TryTest)
    case CallUp(_) => After(c, Inc)
    case CallUpAnon(_) => After(c, Inc)
    case Adopt(_) => After(c, Out)
    case Step(_) => Advance(c, p)
    case WakeOne(_, _) => After(c, Out)
    case WakeNone(_) => After(c, Out)
  }

  function AnonAfter(anon: bool, a: Action): bool {
    if a.CallUpAnon? then false else if a.Adopt? then true else anon
  }

  function Apply(f: Sem, a: Action): Sem
    requires a.t in f.pc
    requires a.Step? ==> Stepping(f.pc[a.t])
    requires a.WakeOne? ==> a.u in f.pc
  {
    var m := Moved(f.count, f.pc[a.t], a);
    var f' := Set(f, a.t, m.count, m.p).(anon := AnonAfter(f.anon, a));
    if a.WakeOne? then f'.(pc := f'.pc[a.u := Awake]) else f'
  }

  /** futex_init: the count is 1 and no thread is in any of the functions. */
  ghost predicate Init(f: Sem) {
    f.count == 1 && !f.anon && forall t <- f.pc :: f.pc[t] == Out
  }

  // ------------------------------------------------------------- exclusion

  /** From a successful decrement to the store or increment that gives it back. */
  predicate IsTaker(p: Pc) {
    p.Mark? || p.Got? || p.PassStore? || p.Inc? || p.StoreOne?
  }

  function Takers(f: Sem): set<Tid> {
    set t | t in f.pc && IsTaker(f.pc[t])
  }

  /** The semaphore is free exactly when its count is 1; otherwise exactly one
      thread, or nobody in particular, has it. */
  ghost predicate ExclusionInv(f: Sem) {
    && f.count <= 1
    && (f.count == 1 <==> Takers(f) == {} && !f.anon)
    && (f.anon ==> Takers(f) == {})
    && forall t <- Takers(f), u <- Takers(f) :: t == u
  }

  // ----------------------------------------------------------------- bound

  predicate IsDec(p: Pc) { p.Dec? || p.TryDec? }

  /** The threads that saw a count of at least 0 and have yet to decrement. */
  function Decs(f: Sem): set<Tid> {
    set t | t in f.pc && IsDec(f.pc[t])
  }

  /** The count never drops below minus the number of threads, even counting the
      decrements that are already decided. */
  ghost predicate BoundInv(f: Sem) {
    f.count - |Decs(f)| >= -|f.pc|
  }

  ghost predicate FewThreads(f: Sem) { |f.pc| < 0x4000_0000 }

  ghost predicate LocalInv(f: Sem) {
    forall t <- f.pc :: !f.pc[t].PassStore? && (f.pc[t].Slow? ==> f.pc[t].val < 0)
  }

  // ----------------------------------------------------- no stranded sleeper

  predicate OwesWake(p: Pc) { p.StoreOne? || p.Wake? }

  /** Woken, and has neither gone back to sleep nor stored -1 yet. */
  predicate IsWoken(p: Pc) {
    p.Awake? || p.Mark? || ((p.Test? || p.Dec? || p.Slow?) && p.woken)
  }

  ghost predicate SomebodyAsleep(f: Sem) { exists t <- f.pc :: f.pc[t] == Asleep }

  ghost predicate SomebodyActs(f: Sem) { exists u <- f.pc :: OwesWake(f.pc[u]) || IsWoken(f.pc[u]) }

  /** Whenever a thread sleeps, the count is negative, so that the next release
      takes the slow path, or a release in its slow path still owes a wake, or a
      woken thread has yet to restore the negative count. */
  ghost predicate SleepInv(f: Sem) {
    SomebodyAsleep(f) ==> f.count < 0 || SomebodyActs(f)
  }

  ghost predicate Inv(f: Sem) {
    && FewThreads(f)
    && ExclusionInv(f)
    && BoundInv(f)
    && LocalInv(f)
    && SleepInv(f)
  }

  lemma DecsAfter(f: Sem, t: Tid, count: int, p: Pc)
    requires t in f.pc
    ensures IsDec(p) ==> Decs(Set(f, t, count, p)) == Decs(f) + {t}
    ensures !IsDec(p) ==> Decs(Set(f, t, count, p)) == Decs(f) - {t}
    ensures |Set(f, t, count, p).pc| == |f.pc|
  {
    assert Set(f, t, count, p).pc.Keys == f.pc.Keys;
  }

  /** Threads about to decrement are threads. */
  lemma DecsAreThreads(f: Sem)
    ensures |Decs(f)| <= |f.pc|
  {
    SubsetSize(Decs(f), f.pc.Keys);
  }

  lemma {:induction false} SubsetSize(a: set<Tid>, b: set<Tid>)
    requires a <= b
    ensures |a| <= |b|
    ensures a != b ==> |a| < |b|
  {
    if a == {} {
    } else {
      var x :| x in a;
      SubsetSize(a - {x}, b - {x});
    }
  }

  lemma BoundKeptByOne(f: Sem, t: Tid, count: int, p: Pc)
    requires BoundInv(f) && t in f.pc
    requires IsDec(p) ==> !IsDec(f.pc[t]) && count == f.count >= 0
    requires !IsDec(p) ==> count >= -1 || count >= f.count || (IsDec(f.pc[t]) && count == f.count - 1)
    ensures BoundInv(Set(f, t, count, p))
  {
    var f' := Set(f, t, count, p);
    DecsAfter(f, t, count, p);
    DecsAreThreads(f');
    if !IsDec(p) {
      SubsetSize(Decs(f'), f'.pc.Keys);
      assert t in f'.pc.Keys && t !in Decs(f');
    }
  }

  /** What one move may do to the count, as the bound needs it. */
  lemma MoveBound(c: int, p: Pc, a: Action)
    requires CanMove(p, a)
    ensures var m := Moved(c, p, a);
            if IsDec(m.p) then !IsDec(p) && m.count == c >= 0
            else m.count >= -1 || m.count >= c || (IsDec(p) && m.count == c - 1)
  {
  }

  lemma BoundKept(f: Sem, a: Action)
    requires BoundInv(f) && FewThreads(f) && Enabled(f, a)
    ensures BoundInv(Apply(f, a)) && FewThreads(Apply(f, a))
  {
    var m := Moved(f.count, f.pc[a.t], a);
    var f1 := Set(f, a.t, m.count, m.p);
    MoveBound(f.count, f.pc[a.t], a);
    BoundKeptByOne(f, a.t, m.count, m.p);
    assert f1.pc.Keys == f.pc.Keys;
    if a.WakeOne? {
      DecsAfter(f1, a.u, m.count, Awake);
      assert Decs(Set(f1, a.u, m.count, Awake)) == Decs(f1);
    }
    assert Decs(Apply(f, a)) == Decs(f1) && |Apply(f, a).pc| == |f.pc|;
  }

  /** Only the stepping thread, and the one it wakes, change position. */
  lemma OthersStay(f: Sem, a: Action, u: Tid)
    requires Enabled(f, a) && u in f.pc && u != a.t
    ensures u in Apply(f, a).pc
    ensures Apply(f, a).pc[u] == if a.WakeOne? && u == a.u then Awake else f.pc[u]
  {
  }

  lemma TakersAfter(f: Sem, t: Tid, count: int, p: Pc)
    requires t in f.pc
    ensures IsTaker(p) ==> Takers(Set(f, t, count, p)) == Takers(f) + {t}
    ensures !IsTaker(p) ==> Takers(Set(f, t, count, p)) == Takers(f) - {t}
  {
  }

  lemma ExclusionKept(f: Sem, a: Action)
    requires ExclusionInv(f) && LocalInv(f) && Enabled(f, a) && f.count > FUTEX_PASSED
    ensures ExclusionInv(Apply(f, a))
  {
    var f' := Apply(f, a);
    if a.WakeOne? {
      assert Takers(f') == Takers(f);
    } else {
      TakersAfter(f, a.t, f'.count, f'.pc[a.t]);
      assert Takers(f') == Takers(Set(f, a.t, f'.count, f'.pc[a.t]));
      assert a.t in Takers(f) <==> IsTaker(f.pc[a.t]);
      if Takers(f) != {} {
        var w :| w in Takers(f);
        assert Takers(f) == {w};
      }
      assert if IsTaker(f'.pc[a.t]) then Takers(f') == {a.t} && !f'.anon
             else Takers(f') == Takers(f) - {a.t};
    }
  }

  /** With fewer than 2^30 threads the count never falls to FUTEX_PASSED, so the
      branch of a direct hand-over is never taken, and 32 bits hold the count. */
  lemma CountInRange(f: Sem)
    requires Inv(f)
    ensures FUTEX_PASSED < f.count <= 1
  {
  }

  lemma LocalKept(f: Sem, a: Action)
    requires LocalInv(f) && Enabled(f, a) && f.count > FUTEX_PASSED
    ensures LocalInv(Apply(f, a))
  {
    var f' := Apply(f, a);
    forall u | u in f.pc && u != a.t
      ensures f'.pc[u] == if a.WakeOne? && u == a.u then Awake else f.pc[u]
    {
      OthersStay(f, a, u);
    }
  }

  /** What one move may do to the count, as the sleepers need it: whoever takes a
      negative count up owes a wake, and nobody forgets to wake. */
  lemma MoveSleep(c: int, p: Pc, a: Action)
    requires CanMove(p, a) && (p.Slow? ==> p.val < 0)
    ensures var m := Moved(c, p, a);
            && (m.p == Asleep ==> m.count < 0)
            && (m.count >= 0 && c < 0 ==> OwesWake(m.p))
            && (OwesWake(p) || IsWoken(p) ==>
                  OwesWake(m.p) || IsWoken(m.p) || m.count < 0 || a.WakeOne? || a.WakeNone?)
  {
  }

  lemma SleepKept(f: Sem, a: Action)
    requires SleepInv(f) && LocalInv(f) && Enabled(f, a)
    ensures SleepInv(Apply(f, a))
  {
    var f', m := Apply(f, a), Moved(f.count, f.pc[a.t], a);
    MoveSleep(f.count, f.pc[a.t], a);
    if a.WakeOne? {
      assert IsWoken(f'.pc[a.u]);
    } else if OwesWake(m.p) || IsWoken(m.p) {
      assert f'.pc[a.t] == m.p;
    } else if SomebodyAsleep(f') && f'.count >= 0 {
      var s :| s in f'.pc && f'.pc[s] == Asleep;
      assert s != a.t && f.pc[s] == Asleep && SomebodyAsleep(f);
      var u :| u in f.pc && (OwesWake(f.pc[u]) || IsWoken(f.pc[u]));
      assert u != a.t && u in f'.pc && f'.pc[u] == f.pc[u];
      assert SomebodyActs(f');
    }
  }

  lemma StepKeepsInv(f: Sem, a: Action)
    requires Inv(f) && Enabled(f, a)
    ensures Inv(Apply(f, a))
  {
    CountInRange(f);
    BoundKept(f, a);
    ExclusionKept(f, a);
    LocalKept(f, a);
    SleepKept(f, a);
  }

  // ------------------------------------------------- what the functions achieve

  ghost predicate Free(f: Sem) { Takers(f) == {} && !f.anon }

  /** futex_trydown fails only when the semaphore is not free. */
  lemma TryFailsOnlyIfTaken(f: Sem, t: Tid)
    requires Inv(f) && t in f.pc && (f.pc[t] == TryTest || f.pc[t] == TryDec)
    ensures Enabled(f, Step(t)) && (Apply(f, Step(t)).pc[t] == Out ==> !Free(f))
  {
  }

  predicate AtRest(p: Pc) { !Stepping(p) }

  /** Steps left to a thread nobody interferes with. */
  function AloneLeft(c: int, p: Pc): nat {
    match p
    case Test(_) => if c >= 0 then 4 else 3
    case Dec(_) => if c >= 0 then 3 else 6
    case Slow(_, val) => if c == val then 1 else 5
    case Awake => if c <= FUTEX_PASSED then 2 else 6
    case PassStore => 1
    case Mark => 1
    case TryTest => 2
    case TryDec => 1
    case Inc => 2
    case StoreOne => 1
    case _ => 0
  }

  /** The count and the position a thread reaches when only it takes steps. */
  function Alone(c: int, p: Pc): After
    requires c <= 1
    decreases AloneLeft(c, p)
  {
    if AtRest(p) then After(c, p)
    else
      var m := Advance(c, p);
      if m.count > 1 then m else Alone(m.count, m.p)
  }

  lemma AloneDown(c: int, woken: bool)
    requires c <= 1
    ensures Alone(c, Test(woken)) ==
            if c == 1 then After(if woken then -1 else 0, Got) else After(if c == 0 then -1 else c, Asleep)
  {
    if c < 0 {
      assert Alone(c, Test(woken)) == Alone(c, Slow(woken, c)) == Alone(c, Asleep);
    } else {
      assert Alone(c, Test(woken)) == Alone(c, Dec(woken));
      if c == 0 {
        assert Alone(c, Dec(woken)) == Alone(-1, Slow(woken, -1)) == Alone(-1, Asleep);
      } else if woken {
        assert Alone(c, Dec(woken)) == Alone(0, Mark) == Alone(-1, Got);
      } else {
        assert Alone(c, Dec(woken)) == Alone(0, Got);
      }
    }
  }

  /** What the three functions do without interference. Down takes a free semaphore and
      otherwise sleeps, with a negative count left behind; trydown takes a free one and
      otherwise fails; up frees it, at a count of exactly 1, and owes a wake exactly when
      it found the count negative. */
  lemma AloneOutcome(c: int)
    requires FUTEX_PASSED < c <= 1
    ensures Alone(c, Test(false)) ==
            if c == 1 then After(0, Got) else After(if c == 0 then -1 else c, Asleep)
    ensures Alone(c, TryTest) ==
            if c == 1 then After(0, Got) else After(if c == 0 then -1 else c, Out)
    ensures c <= 0 ==> Alone(c, Inc) == After(1, if c == 0 then Out else Wake)
    ensures Alone(c, Awake) == if c == 1 then After(-1, Got) else After(if c == 0 then -1 else c, Asleep)
  {
    AloneDown(c, false);
    AloneDown(c, true);
    assert Alone(c, Awake) == Alone(c, Test(true));
    if c >= 0 {
      assert Alone(c, TryTest) == Alone(c, TryDec) == Alone(c - 1, if c == 1 then Got else Out);
    } else {
      assert Alone(c, TryTest) == Alone(c, Out);
      assert Alone(c, Inc) == Alone(c + 1, StoreOne) == Alone(1, Wake);
    }
    assert c == 0 ==> Alone(c, Inc) == Alone(1, Out);
  }
}
