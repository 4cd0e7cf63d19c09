/**
 What a grace period promises, with no algorithm in it.

 A thread is either inside a read-side critical section or not. A grace period
 begins, and may end only when every thread that was inside at its beginning has
 been outside at least once since. The parity and the quiescent-state algorithms
 are both shown to refine this machine; the callback queues and the hash table
 are built on it.
 */
module GracePeriod {
  type Tid = nat

  /** `awaited` holds the threads that were inside when the grace period began and
      have not left that section yet. */
  datatype Spec = Spec(inside: set<Tid>, running: bool, awaited: set<Tid>)

  datatype Event =
    | Enter(t: Tid)
    | Exit(t: Tid)
    | Begin
    | End
    | Stutter

  predicate Enabled(s: Spec, e: Event) {
    match e
    case Enter(t) => t !in s.inside
    case Exit(t) => t in s.inside
    case Begin => !s.running
    case End => s.running && s.awaited == {}
    case Stutter => true
  }

  function Apply(s: Spec, e: Event): Spec
    requires Enabled(s, e)
  {
    match e
    case Enter(t) => s.(inside := s.inside + {t})
    case Exit(t) => s.(inside := s.inside - {t}, awaited := s.awaited - {t})
    case Begin => s.(running := true, awaited := s.inside)
    case End => s.(running := false)
    case Stutter => s
  }

  ghost predicate Next(s: Spec, s': Spec) {
    exists e :: Enabled(s, e) && s' == Apply(s, e)
  }

  ghost predicate StepAt(tr: seq<Spec>, i: nat)
    requires i + 1 < |tr|
  {
    Next(tr[i], tr[i + 1])
  }

  ghost predicate Run(tr: seq<Spec>) {
    forall i: nat :: i + 1 < |tr| ==> StepAt(tr, i)
  }

  /** One grace period of a run: it begins at step `i` and ends at step `j`. */
  ghost predicate Period(tr: seq<Spec>, i: nat, j: nat) {
    && i < j
    && j + 1 < |tr|
    && !tr[i].running
    && (forall m: nat :: i < m <= j ==> tr[m].running)
    && !tr[j + 1].running
  }

  /** While a thread stays inside, a running grace period keeps awaiting it. */
  lemma {:induction false} StillAwaited(tr: seq<Spec>, i: nat, k: nat, t: Tid)
    requires Run(tr) && i < k < |tr|
    requires !tr[i].running && forall m: nat :: i < m <= k ==> tr[m].running
    requires forall m: nat :: i <= m <= k ==> t in tr[m].inside
    ensures t in tr[k].awaited
  {
    assert StepAt(tr, k - 1);
    if k == i + 1 {
    } else {
      StillAwaited(tr, i, k - 1, t);
    }
  }

  /** The promise, over whole runs: a section in progress when a grace period
      begins is over, at least for a moment, before the grace period ends. */
  lemma SectionsEnd(tr: seq<Spec>, i: nat, j: nat, t: Tid)
    requires Run(tr) && Period(tr, i, j)
    ensures exists k: nat :: i <= k <= j && t !in tr[k].inside
  {
    assert StepAt(tr, j);
    if forall k: nat :: i <= k <= j ==> t in tr[k].inside {
      StillAwaited(tr, i, j, t);
    }
  }
}
