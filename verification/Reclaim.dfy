/**
 What call_rcu promises, with no queue in it: callbacks queue up in order, a worker
 takes everything queued, waits for one whole grace period and runs what it took,
 in order. The worker of call_rcu refines this machine; the hash table uses it.
 */
module Reclaim {
  import GP = GracePeriod

  type Node = nat

  datatype Phase = Draining | Taken | Syncing

  datatype Rec = Rec(waiting: seq<Node>, batch: seq<Node>, phase: Phase, gp: GP.Spec)

  datatype Event =
    | Queue(n: Node)
    | Take
    | BeginSync
    | EndSync
    | RunFirst
    | Reader(e: GP.Event)
    | OtherGracePeriod(e: GP.Event)
    | Stutter

  predicate Enabled(r: Rec, e: Event) {
    match e
    case Queue(_) => true
    case Take => r.phase == Draining && r.batch == []
    case BeginSync => r.phase == Taken && GP.Enabled(r.gp, GP.Begin)
    case EndSync => r.phase == Syncing && GP.Enabled(r.gp, GP.End)
    case RunFirst => r.phase == Draining && r.batch != []
    case Reader(ge) => (ge.Enter? || ge.Exit?) && GP.Enabled(r.gp, ge)
    case OtherGracePeriod(ge) => (ge.Begin? || ge.End?) && r.phase != Syncing && GP.Enabled(r.gp, ge)
    case Stutter => true
  }

  function Apply(r: Rec, e: Event): Rec
    requires Enabled(r, e)
  {
    match e
    case Queue(n) => r.(waiting := r.waiting + [n])
    case Take => r.(waiting := [], batch := r.waiting, phase := Taken)
    case BeginSync => r.(gp := GP.Apply(r.gp, GP.Begin), phase := Syncing)
    case EndSync => r.(gp := GP.Apply(r.gp, GP.End), phase := Draining)
    case RunFirst => r.(batch := r.batch[1..])
    case Reader(ge) => r.(gp := GP.Apply(r.gp, ge))
    case OtherGracePeriod(ge) => r.(gp := GP.Apply(r.gp, ge))
    case Stutter => r
  }
}
