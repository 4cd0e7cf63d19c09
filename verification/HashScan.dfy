/**
 Lock-free scans of a bucket of the multicore hash table, end to end: readers walk
 the next pointers inside read-side sections while writers append and delete nodes
 and hand the deleted ones to call_rcu, whose worker frees them.

 A writer's append or delete is one step for a reader, because the macros publish
 each with a single store to a next pointer; handing the node to call_rcu is a
 later step. A reader's loads are one step each.
 */
module HashScan {
  import opened BucketList
  import opened Sequences
  import Rc = Reclaim
  import GP = GracePeriod

  type Tid = GP.Tid

  /** The bucket and the memory of its nodes. `chain`, `limbo`, `stamp`, `del` and
      `clock` are history variables: the nodes in the bucket in order, the deleted
      ones not freed yet, and when each was appended and deleted. `fault` records an
      access to a link that is no longer memory. */
  datatype Table = Table(
    key: nat,
    mem: Mem,
    fault: bool,
    chain: seq<Node>,
    limbo: set<Node>,
    stamp: map<Node, nat>,
    del: map<Node, nat>,
    clock: nat)

  /** MCHASH_BUCKET_SCAN: before the test of hash_link_p, or in the loop body. The
      clock at the first load and the nodes visited are history. */
  datatype Scan =
    | NoScan
    | At(p: Ptr, start: nat, visited: seq<Node>)
    | Body(n: Node, start: nat, visited: seq<Node>)

  /** `unlinked` holds nodes whose deleter has yet to call call_rcu; `since` is
      when each reader entered its section. */
  datatype State = State(
    tb: Table,
    unlinked: set<Node>,
    rec: Rc.Rec,
    since: map<Tid, nat>,
    scan: map<Tid, Scan>)

  datatype Action =
    | AppendNode(n: Node)
    | UnlinkNode(i: nat)
    | CallRcu(n: Node)
    | Worker(e: Rc.Event)
    | Enter(r: Tid)
    | Exit(r: Tid)
    | ScanStart(r: Tid)
    | Visit(r: Tid)
    | Advance(r: Tid)

  predicate WorkerEvent(e: Rc.Event) {
    e.Take? || e.BeginSync? || e.EndSync? || e.RunFirst? || e.OtherGracePeriod?
  }

  predicate ScanOver(sc: Scan) { sc == NoScan || (sc.At? && sc.p == Null) }

  predicate Enabled(s: State, a: Action) {
    match a
    case AppendNode(n) => Link(n) !in s.tb.mem.next && Link(n) !in s.tb.mem.prev
    case UnlinkNode(i) => i < |s.tb.chain|
    case CallRcu(n) => n in s.unlinked
    case Worker(e) => WorkerEvent(e) && Rc.Enabled(s.rec, e)
    case Enter(r) => Rc.Enabled(s.rec, Rc.Reader(GP.Enter(r)))
    case Exit(r) => Rc.Enabled(s.rec, Rc.Reader(GP.Exit(r))) && r in s.scan && ScanOver(s.scan[r])
    case ScanStart(r) => r in s.rec.gp.inside && r in s.scan && ScanOver(s.scan[r])
    case Visit(r) => r in s.scan && s.scan[r].At? && s.scan[r].p.Link?
    case Advance(r) => r in s.scan && s.scan[r].Body?
  }

  function Load(tb: Table, p: Ptr): Ptr {
    if p in tb.mem.next then tb.mem.next[p] else Null
  }

  function Touch(tb: Table, p: Ptr): Table {
    tb.(fault := tb.fault || p !in tb.mem.next)
  }

  /** A writer's loads and stores go to memory that is there: for an append the head
      and the node it points back to, for a delete the node and its neighbours. */
  predicate AppendTouches(tb: Table) {
    Head(tb.key) in tb.mem.prev && OrHead(tb.mem.prev[Head(tb.key)], tb.key) in tb.mem.next
  }

  predicate UnlinkTouches(tb: Table, n: Node) {
    && Link(n) in tb.mem.next && Link(n) in tb.mem.prev
    && OrHead(tb.mem.prev[Link(n)], tb.key) in tb.mem.next
    && OrHead(tb.mem.next[Link(n)], tb.key) in tb.mem.prev
  }

  function DoAppend(tb: Table, n: Node): Table
    requires Head(tb.key) in tb.mem.prev
  {
    tb.(mem := Append(tb.mem, tb.key, n), chain := tb.chain + [n],
        stamp := tb.stamp[n := tb.clock], clock := tb.clock + 1)
  }

  function DoUnlink(tb: Table, i: nat): Table
    requires i < |tb.chain| && Link(tb.chain[i]) in tb.mem.next && Link(tb.chain[i]) in tb.mem.prev
  {
    var n := tb.chain[i];
    tb.(mem := Unlink(tb.mem, tb.key, n), chain := Drop(tb.chain, i), limbo := tb.limbo + {n},
        del := tb.del[n := tb.clock], clock := tb.clock + 1)
  }

  /** The free callback: the node stops being memory. */
  function DoFree(tb: Table, n: Node): Table {
    tb.(mem := Mem(tb.mem.next - {Link(n)}, tb.mem.prev - {Link(n)}), limbo := tb.limbo - {n})
  }

  function Apply(s: State, a: Action): State
    requires Enabled(s, a)
  {
    match a
    case AppendNode(n) => s.(tb := if AppendTouches(s.tb) then DoAppend(s.tb, n) else s.tb.(fault := true))
    case UnlinkNode(i) =>
      if UnlinkTouches(s.tb, s.tb.chain[i]) then
        s.(tb := DoUnlink(s.tb, i), unlinked := s.unlinked + {s.tb.chain[i]})
      else
        s.(tb := s.tb.(fault := true))
    case CallRcu(n) =>
      s.(unlinked := s.unlinked - {n}, rec := Rc.Apply(s.rec, Rc.Queue(n)))
    case Worker(e) =>
      var s1 := s.(rec := Rc.Apply(s.rec, e));
      if e.RunFirst? then s1.(tb := DoFree(s.tb, s.rec.batch[0])) else s1
    case Enter(r) =>
      s.(rec := Rc.Apply(s.rec, Rc.Reader(GP.Enter(r))),
         since := s.since[r := s.tb.clock], scan := s.scan[r := NoScan])
    case Exit(r) =>
      s.(rec := Rc.Apply(s.rec, Rc.Reader(GP.Exit(r))),
         since := s.since - {r}, scan := s.scan - {r})
    case ScanStart(r) =>
      s.(scan := s.scan[r := At(Load(s.tb, Head(s.tb.key)), s.tb.clock, [])],
         tb := Touch(s.tb, Head(s.tb.key)))
    case Visit(r) =>
      var sc := s.scan[r];
      s.(scan := s.scan[r := Body(sc.p.n, sc.start, sc.visited + [sc.p.n])], tb := Touch(s.tb, sc.p))
    case Advance(r) =>
      var sc := s.scan[r];
      s.(scan := s.scan[r := At(Load(s.tb, Link(sc.n)), sc.start, sc.visited)], tb := Touch(s.tb, Link(sc.n)))
  }

  /** An empty bucket and an idle worker. */
  predicate Init(s: State) {
    && s.tb.mem == Mem(map[Head(s.tb.key) := Null], map[Head(s.tb.key) := Null])
    && !s.tb.fault && s.tb.chain == [] && s.tb.limbo == {}
    && s.unlinked == {}
    && s.rec.waiting == [] && s.rec.batch == [] && s.rec.phase == Rc.Draining
    && s.rec.gp.inside == {} && s.since == map[] && s.scan == map[]
  }

  ghost predicate Next(s: State, s': State) {
    exists a :: Enabled(s, a) && s' == Apply(s, a)
  }

  ghost predicate StepAt(tr: seq<State>, i: nat)
    requires i + 1 < |tr|
  {
    Next(tr[i], tr[i + 1])
  }

  ghost predicate Run(tr: seq<State>) {
    && tr != []
    && Init(tr[0])
    && forall i: nat :: i + 1 < |tr| ==> StepAt(tr, i)
  }

  // ------------------------------------------------------ the bucket's memory

  predicate Alive(tb: Table, n: Node) {
    n in tb.chain || n in tb.limbo
  }

  /** When a node was appended, and when it was deleted. */
  function Stamp(tb: Table, n: Node): nat { if n in tb.stamp then tb.stamp[n] else 0 }

  function Del(tb: Table, n: Node): nat { if n in tb.del then tb.del[n] else 0 }

  ghost predicate TimesOk(tb: Table, n: Node) {
    && (Alive(tb, n) ==> Stamp(tb, n) < tb.clock)
    && (n in tb.limbo ==> Stamp(tb, n) < Del(tb, n) < tb.clock)
  }

  ghost predicate Sorted(tb: Table) {
    forall i, j :: 0 <= i < j < |tb.chain| ==> Stamp(tb, tb.chain[i]) < Stamp(tb, tb.chain[j])
  }

  /** Memory holds exactly the bucket's nodes and the deleted ones not freed yet. */
  ghost predicate MemoryOk(tb: Table, n: Node) {
    && (Link(n) in tb.mem.next <==> Alive(tb, n))
    && (Link(n) in tb.mem.prev <==> Alive(tb, n))
    && !(n in tb.chain && n in tb.limbo)
  }

  ghost predicate TableInv(tb: Table) {
    && Lists(tb.mem, tb.key, tb.chain)
    && (forall n :: MemoryOk(tb, n) && TimesOk(tb, n))
    && Sorted(tb)
    && !tb.fault
  }

  /** A deleted node still leads back to what followed it: its next pointer shows a
      node that was appended later and deleted later, and skips no node of the
      bucket that was there when it was deleted. */
  ghost predicate LeadsOn(tb: Table, d: Node) {
    d in tb.limbo && Link(d) in tb.mem.next ==>
      match tb.mem.next[Link(d)]
      case Head(_) => false
      case Null => forall x <- tb.chain :: !(Stamp(tb, d) < Stamp(tb, x) < Del(tb, d))
      case Link(e) =>
        && Alive(tb, e) && Stamp(tb, d) < Stamp(tb, e) < Del(tb, d)
        && (e in tb.limbo ==> Del(tb, d) < Del(tb, e))
        && forall x <- tb.chain :: Stamp(tb, d) < Stamp(tb, x) < Del(tb, d) ==>
             x == e || Stamp(tb, e) < Stamp(tb, x)
  }

  lemma AppendInMemory(tb: Table)
    requires TableInv(tb)
    ensures AppendTouches(tb)
  {
    if tb.chain != [] {
      assert LinkOk(tb.mem, tb.key, tb.chain, |tb.chain| - 1);
    }
  }

  lemma UnlinkInMemory(tb: Table, i: nat)
    requires TableInv(tb) && i < |tb.chain|
    ensures UnlinkTouches(tb, tb.chain[i])
  {
    assert LinkOk(tb.mem, tb.key, tb.chain, i);
    if i > 0 {
      assert LinkOk(tb.mem, tb.key, tb.chain, i - 1);
    }
    if i + 1 < |tb.chain| {
      assert LinkOk(tb.mem, tb.key, tb.chain, i + 1);
    }
  }

  ghost predicate SameNext(tb: Table, tb': Table, d: Node) {
    Link(d) in tb.mem.next && Link(d) in tb'.mem.next && tb'.mem.next[Link(d)] == tb.mem.next[Link(d)]
  }

  lemma AppendKeepsNext(tb: Table, n: Node, d: Node)
    requires TableInv(tb) && Head(tb.key) in tb.mem.prev && d in tb.limbo
    ensures SameNext(tb, DoAppend(tb, n), d) || d == n
  {
    assert MemoryOk(tb, d);
    if tb.chain != [] {
      assert LinkOk(tb.mem, tb.key, tb.chain, |tb.chain| - 1);
    }
  }

  lemma UnlinkKeepsDeleted(tb: Table, i: nat, d: Node)
    requires TableInv(tb) && i < |tb.chain| && d in tb.limbo
    requires Link(tb.chain[i]) in tb.mem.next && Link(tb.chain[i]) in tb.mem.prev
    ensures SameNext(tb, DoUnlink(tb, i), d)
  {
    assert MemoryOk(tb, d);
    assert LinkOk(tb.mem, tb.key, tb.chain, i);
  }

  lemma AppendKeepsTable(tb: Table, n: Node)
    requires TableInv(tb) && !Alive(tb, n)
    ensures Head(tb.key) in tb.mem.prev && TableInv(DoAppend(tb, n))
  {
    var tb' := DoAppend(tb, n);
    assert MemoryOk(tb, n);
    AppendLists(tb.mem, tb.key, tb.chain, n);
    if tb.chain != [] {
      assert LinkOk(tb.mem, tb.key, tb.chain, |tb.chain| - 1);
    }
    forall x
      ensures MemoryOk(tb', x) && TimesOk(tb', x)
    {
      assert MemoryOk(tb, x) && TimesOk(tb, x);
    }
    forall i, j | 0 <= i < j < |tb'.chain|
      ensures Stamp(tb', tb'.chain[i]) < Stamp(tb', tb'.chain[j])
    {
      assert TimesOk(tb, tb'.chain[i]) && tb'.chain[i] in tb.chain;
      assert j < |tb.chain| ==> TimesOk(tb, tb'.chain[j]) && tb'.chain[j] in tb.chain;
    }
  }

  lemma AppendKeepsLead(tb: Table, n: Node, d: Node)
    requires TableInv(tb) && !Alive(tb, n) && LeadsOn(tb, d) && d in tb.limbo
    requires Head(tb.key) in tb.mem.prev
    ensures LeadsOn(DoAppend(tb, n), d)
  {
    assert TimesOk(tb, d);
    AppendKeepsNext(tb, n, d);
  }

  lemma UnlinkKeepsMemory(tb: Table, i: nat, x: Node)
    requires Lists(tb.mem, tb.key, tb.chain) && i < |tb.chain| && MemoryOk(tb, x)
    requires Link(tb.chain[i]) in tb.mem.next && Link(tb.chain[i]) in tb.mem.prev
    ensures MemoryOk(DoUnlink(tb, i), x)
  {
    DropAt(tb.chain, i);
    assert LinkOk(tb.mem, tb.key, tb.chain, i);
    if i > 0 {
      assert LinkOk(tb.mem, tb.key, tb.chain, i - 1);
    }
    if i + 1 < |tb.chain| {
      assert LinkOk(tb.mem, tb.key, tb.chain, i + 1);
    }
  }

  lemma UnlinkKeepsTimes(tb: Table, i: nat)
    requires TableInv(tb) && i < |tb.chain|
    requires Link(tb.chain[i]) in tb.mem.next && Link(tb.chain[i]) in tb.mem.prev
    ensures forall x :: TimesOk(DoUnlink(tb, i), x)
  {
    forall x
      ensures TimesOk(DoUnlink(tb, i), x)
    {
      assert MemoryOk(tb, x) && TimesOk(tb, x);
      assert x in Drop(tb.chain, i) ==> x in tb.chain;
    }
  }

  lemma DropKeepsOrder(tb: Table, i: nat)
    requires Sorted(tb) && i < |tb.chain|
    ensures Sorted(tb.(chain := Drop(tb.chain, i)))
  {
    DropAt(tb.chain, i);
  }

  lemma UnlinkKeepsTable(tb: Table, i: nat)
    requires TableInv(tb) && i < |tb.chain|
    ensures Link(tb.chain[i]) in tb.mem.next && Link(tb.chain[i]) in tb.mem.prev
    ensures TableInv(DoUnlink(tb, i))
  {
    UnlinkLists(tb.mem, tb.key, tb.chain, i);
    assert LinkOk(tb.mem, tb.key, tb.chain, i);
    UnlinkKeepsTimes(tb, i);
    DropKeepsOrder(tb, i);
    forall x
      ensures MemoryOk(DoUnlink(tb, i), x)
    {
      assert MemoryOk(tb, x);
      UnlinkKeepsMemory(tb, i, x);
    }
  }

  lemma UnlinkKeepsLead(tb: Table, i: nat, d: Node)
    requires TableInv(tb) && i < |tb.chain| && LeadsOn(tb, d) && d in tb.limbo
    requires Link(tb.chain[i]) in tb.mem.next && Link(tb.chain[i]) in tb.mem.prev
    ensures LeadsOn(DoUnlink(tb, i), d)
  {
    assert TimesOk(tb, d);
    DropAt(tb.chain, i);
    UnlinkKeepsDeleted(tb, i, d);
  }

  lemma UnlinkedLeadsOn(tb: Table, i: nat)
    requires TableInv(tb) && i < |tb.chain|
    requires Link(tb.chain[i]) in tb.mem.next && Link(tb.chain[i]) in tb.mem.prev
    ensures LeadsOn(DoUnlink(tb, i), tb.chain[i])
  {
    UnlinkKeepsNext(tb.mem, tb.key, tb.chain, i);
    DropAt(tb.chain, i);
    SuccessorStamp(tb, i);
    assert TimesOk(tb, tb.chain[i]);
    if i + 1 < |tb.chain| {
      assert TimesOk(tb, tb.chain[i + 1]);
    }
  }

  lemma FreeKeepsTable(tb: Table, n: Node)
    requires TableInv(tb) && n in tb.limbo
    ensures TableInv(DoFree(tb, n))
  {
    var tb' := DoFree(tb, n);
    assert MemoryOk(tb, n);
    assert forall x <- tb.chain :: MemoryOk(tb, x);
    OtherBucket(tb.mem, tb'.mem, tb.key, tb.chain);
    forall x
      ensures MemoryOk(tb', x) && TimesOk(tb', x)
    {
      assert MemoryOk(tb, x) && TimesOk(tb, x);
    }
  }

  lemma FreeKeepsLead(tb: Table, n: Node, d: Node)
    requires TableInv(tb) && n in tb.limbo && d in tb.limbo && d != n && LeadsOn(tb, d)
    requires Link(d) in tb.mem.next ==> tb.mem.next[Link(d)] != Link(n)
    ensures LeadsOn(DoFree(tb, n), d)
  {
    assert TimesOk(tb, d) && MemoryOk(tb, d) && MemoryOk(tb, n);
  }

  // ---------------------------------------------------------------- the readers

  /** In the bucket, or deleted no earlier than `start`. */
  ghost predicate Present(tb: Table, n: Node, start: nat) {
    n in tb.chain || (n in tb.limbo && start <= Del(tb, n))
  }

  ghost predicate VisitedOk(tb: Table, start: nat, vs: seq<Node>) {
    && (forall v <- vs :: Present(tb, v, start))
    && forall i, j :: 0 <= i < j < |vs| ==> Stamp(tb, vs[i]) < Stamp(tb, vs[j])
  }

  /** Of the nodes that were in the bucket at the first load and still are, all
      have been visited but `p` and what was appended after it. */
  ghost predicate Ahead(tb: Table, start: nat, vs: seq<Node>, p: Ptr) {
    forall x <- tb.chain :: Stamp(tb, x) < start ==>
      x in vs || (p.Link? && (x == p.n || Stamp(tb, p.n) < Stamp(tb, x)))
  }

  ghost predicate ScanOk(tb: Table, since: nat, sc: Scan) {
    match sc
    case NoScan => true
    case At(p, start, vs) =>
      && since <= start <= tb.clock && VisitedOk(tb, start, vs) && Ahead(tb, start, vs, p)
      && !p.Head?
      && (p.Link? ==> Present(tb, p.n, start) && forall v <- vs :: Stamp(tb, v) < Stamp(tb, p.n))
    case Body(c, start, vs) =>
      && since <= start <= tb.clock && VisitedOk(tb, start, vs) && Ahead(tb, start, vs, Link(c))
      && vs != [] && vs[|vs| - 1] == c
  }

  lemma AppendKeepsScan(tb: Table, n: Node, since: nat, sc: Scan)
    requires !Alive(tb, n) && ScanOk(tb, since, sc) && Head(tb.key) in tb.mem.prev
    ensures ScanOk(DoAppend(tb, n), since, sc)
  {
    var tb' := DoAppend(tb, n);
    if !sc.NoScan? {
      forall v | Present(tb, v, sc.start)
        ensures Present(tb', v, sc.start) && Stamp(tb', v) == Stamp(tb, v)
      {
      }
      assert forall i | 0 <= i < |sc.visited| :: Present(tb, sc.visited[i], sc.start);
    }
  }

  lemma UnlinkKeepsScan(tb: Table, i: nat, since: nat, sc: Scan)
    requires i < |tb.chain| && Distinct(tb.chain) && tb.chain[i] !in tb.limbo && ScanOk(tb, since, sc)
    requires Link(tb.chain[i]) in tb.mem.next && Link(tb.chain[i]) in tb.mem.prev
    ensures ScanOk(DoUnlink(tb, i), since, sc)
  {
    var tb' := DoUnlink(tb, i);
    DropAt(tb.chain, i);
    if !sc.NoScan? {
      forall v | Present(tb, v, sc.start)
        ensures Present(tb', v, sc.start) && Stamp(tb', v) == Stamp(tb, v)
      {
      }
      assert forall x <- tb'.chain :: x in tb.chain;
      assert forall i | 0 <= i < |sc.visited| :: Present(tb, sc.visited[i], sc.start);
    }
  }

  lemma FreeKeepsScan(tb: Table, n: Node, since: nat, sc: Scan)
    requires n in tb.limbo && n !in tb.chain && Del(tb, n) < since && ScanOk(tb, since, sc)
    ensures ScanOk(DoFree(tb, n), since, sc)
  {
    var tb' := DoFree(tb, n);
    if !sc.NoScan? {
      forall v | Present(tb, v, sc.start)
        ensures Present(tb', v, sc.start)
      {
      }
    }
  }

  /** The first load of a scan. */
  lemma StartsScan(tb: Table, since: nat)
    requires TableInv(tb) && since <= tb.clock
    ensures Head(tb.key) in tb.mem.next
    ensures ScanOk(tb, since, At(Load(tb, Head(tb.key)), tb.clock, []))
  {
    forall x | x in tb.chain
      ensures x == tb.chain[0] || Stamp(tb, tb.chain[0]) < Stamp(tb, x)
    {
      var j :| 0 <= j < |tb.chain| && tb.chain[j] == x;
    }
  }

  /** The body of the loop at a node. */
  lemma Visits(tb: Table, since: nat, sc: Scan)
    requires TableInv(tb) && ScanOk(tb, since, sc) && sc.At? && sc.p.Link?
    ensures sc.p in tb.mem.next
    ensures ScanOk(tb, since, Body(sc.p.n, sc.start, sc.visited + [sc.p.n]))
  {
    assert MemoryOk(tb, sc.p.n);
  }

  /** The load of the next pointer after the body: from a node of the bucket it
      meets the successor, from a deleted one it is led on. */
  lemma Advances(tb: Table, since: nat, sc: Scan)
    requires TableInv(tb) && ScanOk(tb, since, sc) && sc.Body?
    requires forall d <- tb.limbo :: since <= Del(tb, d) ==> LeadsOn(tb, d)
    ensures Link(sc.n) in tb.mem.next
    ensures ScanOk(tb, since, At(Load(tb, Link(sc.n)), sc.start, sc.visited))
  {
    var c := sc.n;
    assert c in sc.visited && Present(tb, c, sc.start);
    assert MemoryOk(tb, c);
    VisitedBefore(tb, sc);
    if c in tb.chain {
      AdvancesInChain(tb, since, sc);
    } else {
      assert LeadsOn(tb, c) && TimesOk(tb, c);
    }
  }

  lemma VisitedBefore(tb: Table, sc: Scan)
    requires sc.Body? && VisitedOk(tb, sc.start, sc.visited)
    requires sc.visited != [] && sc.visited[|sc.visited| - 1] == sc.n
    ensures forall v <- sc.visited :: Stamp(tb, v) <= Stamp(tb, sc.n)
  {
    forall v | v in sc.visited
      ensures Stamp(tb, v) <= Stamp(tb, sc.n)
    {
      var j :| 0 <= j < |sc.visited| && sc.visited[j] == v;
    }
  }

  lemma SuccessorStamp(tb: Table, k: nat)
    requires Sorted(tb) && k < |tb.chain|
    ensures forall x <- tb.chain :: Stamp(tb, tb.chain[k]) < Stamp(tb, x) ==>
              k + 1 < |tb.chain| && (x == tb.chain[k + 1] || Stamp(tb, tb.chain[k + 1]) < Stamp(tb, x))
  {
    forall x | x in tb.chain && Stamp(tb, tb.chain[k]) < Stamp(tb, x)
      ensures k + 1 < |tb.chain| && (x == tb.chain[k + 1] || Stamp(tb, tb.chain[k + 1]) < Stamp(tb, x))
    {
      var j :| 0 <= j < |tb.chain| && tb.chain[j] == x;
    }
  }

  lemma AdvancesInChain(tb: Table, since: nat, sc: Scan)
    requires Lists(tb.mem, tb.key, tb.chain) && Sorted(tb)
    requires ScanOk(tb, since, sc) && sc.Body? && sc.n in tb.chain
    requires forall v <- sc.visited :: Stamp(tb, v) <= Stamp(tb, sc.n)
    ensures ScanOk(tb, since, At(Load(tb, Link(sc.n)), sc.start, sc.visited))
  {
    var k :| 0 <= k < |tb.chain| && tb.chain[k] == sc.n;
    assert LinkOk(tb.mem, tb.key, tb.chain, k);
    SuccessorStamp(tb, k);
    assert sc.n in sc.visited;
  }

  // ------------------------------------------------------------- reclamation

  /** The deleted nodes are where they should be, each once: with their deleter,
      queued, or in the worker's batch. */
  ghost predicate PlacesInv(limbo: set<Node>, unlinked: set<Node>, rec: Rc.Rec) {
    && (forall d :: d in limbo <==> d in unlinked || d in rec.batch || d in rec.waiting)
    && (forall d <- unlinked :: d !in rec.batch && d !in rec.waiting)
    && Distinct(rec.batch) && Distinct(rec.waiting)
    && forall d <- rec.batch :: d !in rec.waiting
  }

  /** The worker cannot free `d` before reader `r` leaves its section. */
  ghost predicate Held(rec: Rc.Rec, d: Node, r: Tid) {
    d in rec.batch ==> rec.phase == Rc.Taken || (rec.phase == Rc.Syncing && r in rec.gp.awaited)
  }

  ghost predicate HeldInv(s: State) {
    forall r <- s.since, d <- s.tb.limbo :: s.since[r] <= Del(s.tb, d) ==> Held(s.rec, d, r)
  }

  ghost predicate LeadInv(s: State) {
    forall r <- s.since, d <- s.tb.limbo :: s.since[r] <= Del(s.tb, d) ==> LeadsOn(s.tb, d)
  }

  ghost predicate ReadersInv(s: State) {
    && s.since.Keys == s.rec.gp.inside && s.scan.Keys == s.rec.gp.inside
    && forall r <- s.since :: s.since[r] <= s.tb.clock
  }

  ghost predicate ScanInv(s: State) {
    forall r <- s.scan :: r in s.since ==> ScanOk(s.tb, s.since[r], s.scan[r])
  }

  ghost predicate Inv(s: State) {
    && TableInv(s.tb)
    && PlacesInv(s.tb.limbo, s.unlinked, s.rec)
    && ReadersInv(s)
    && HeldInv(s)
    && LeadInv(s)
    && ScanInv(s)
  }

  lemma AppendKeepsInv(s: State, n: Node)
    requires Inv(s) && Enabled(s, AppendNode(n))
    ensures Inv(Apply(s, AppendNode(n)))
  {
    var s' := Apply(s, AppendNode(n));
    assert MemoryOk(s.tb, n);
    AppendInMemory(s.tb);
    AppendKeepsTable(s.tb, n);
    forall r, d | r in s.since && d in s.tb.limbo && s.since[r] <= Del(s.tb, d)
      ensures LeadsOn(s'.tb, d)
    {
      AppendKeepsLead(s.tb, n, d);
    }
    forall r | r in s.scan
      ensures ScanOk(s'.tb, s.since[r], s.scan[r])
    {
      AppendKeepsScan(s.tb, n, s.since[r], s.scan[r]);
    }
  }

  lemma UnlinkKeepsInv(s: State, i: nat)
    requires Inv(s) && Enabled(s, UnlinkNode(i))
    ensures Inv(Apply(s, UnlinkNode(i)))
  {
    var s' := Apply(s, UnlinkNode(i));
    var n := s.tb.chain[i];
    assert MemoryOk(s.tb, n);
    UnlinkInMemory(s.tb, i);
    UnlinkKeepsTable(s.tb, i);
    UnlinkedLeadsOn(s.tb, i);
    forall r, d | r in s.since && d in s.tb.limbo && s.since[r] <= Del(s.tb, d)
      ensures LeadsOn(s'.tb, d)
    {
      UnlinkKeepsLead(s.tb, i, d);
    }
    forall r | r in s.scan
      ensures ScanOk(s'.tb, s.since[r], s.scan[r])
    {
      UnlinkKeepsScan(s.tb, i, s.since[r], s.scan[r]);
    }
  }

  lemma QueueKeepsInv(s: State, n: Node)
    requires Inv(s) && Enabled(s, CallRcu(n))
    ensures Inv(Apply(s, CallRcu(n)))
  {
    assert n !in s.rec.waiting;
  }

  lemma WorkerKeepsInv(s: State, e: Rc.Event)
    requires Inv(s) && Enabled(s, Worker(e)) && !e.RunFirst?
    ensures Inv(Apply(s, Worker(e)))
  {
  }

  /** What the worker frees next was deleted before every present reader entered. */
  lemma FreedIsOld(s: State)
    requires Inv(s) && Rc.Enabled(s.rec, Rc.RunFirst)
    ensures var n := s.rec.batch[0];
            && n in s.tb.limbo && n !in s.tb.chain
            && forall r <- s.since :: Del(s.tb, n) < s.since[r]
  {
    var n := s.rec.batch[0];
    assert n in s.rec.batch;
    assert MemoryOk(s.tb, n);
  }

  lemma FreeKeepsPlaces(limbo: set<Node>, unlinked: set<Node>, rec: Rc.Rec)
    requires PlacesInv(limbo, unlinked, rec) && rec.batch != []
    ensures PlacesInv(limbo - {rec.batch[0]}, unlinked, rec.(batch := rec.batch[1..]))
  {
    assert rec.batch[0] in rec.batch;
    forall d
      ensures d in rec.batch[1..] <==> d in rec.batch && d != rec.batch[0]
    {
      if d in rec.batch && d != rec.batch[0] {
        var j :| 0 <= j < |rec.batch| && rec.batch[j] == d;
        assert rec.batch[1..][j - 1] == d;
      }
    }
  }

  lemma FreeKeepsInv(s: State)
    requires Inv(s) && Rc.Enabled(s.rec, Rc.RunFirst)
    ensures Inv(Apply(s, Worker(Rc.RunFirst)))
  {
    var s' := Apply(s, Worker(Rc.RunFirst));
    var n := s.rec.batch[0];
    FreedIsOld(s);
    FreeKeepsTable(s.tb, n);
    FreeKeepsPlaces(s.tb.limbo, s.unlinked, s.rec);
    forall r, d | r in s.since && d in s'.tb.limbo && s.since[r] <= Del(s.tb, d)
      ensures LeadsOn(s'.tb, d)
    {
      FreeKeepsLead(s.tb, n, d);
    }
    forall r | r in s.scan
      ensures ScanOk(s'.tb, s.since[r], s.scan[r])
    {
      FreeKeepsScan(s.tb, n, s.since[r], s.scan[r]);
    }
  }

  lemma ExitKeepsInv(s: State, r: Tid)
    requires Inv(s) && Enabled(s, Exit(r))
    ensures Inv(Apply(s, Exit(r)))
  {
  }

  lemma EnterKeepsInv(s: State, r: Tid)
    requires Inv(s) && Enabled(s, Enter(r))
    ensures Inv(Apply(s, Enter(r)))
  {
    forall d | d in s.tb.limbo
      ensures Del(s.tb, d) < s.tb.clock
    {
      assert TimesOk(s.tb, d);
    }
  }

  lemma ScanStepKeepsInv(s: State, a: Action)
    requires Inv(s) && Enabled(s, a) && (a.ScanStart? || a.Visit? || a.Advance?)
    ensures Inv(Apply(s, a))
  {
    var r := a.r;
    match a
    case ScanStart(_) => StartsScan(s.tb, s.since[r]);
    case Visit(_) => Visits(s.tb, s.since[r], s.scan[r]);
    case Advance(_) => Advances(s.tb, s.since[r], s.scan[r]);
    assert Apply(s, a).tb == s.tb;
  }

  lemma StepKeepsInv(s: State, a: Action)
    requires Inv(s) && Enabled(s, a)
    ensures Inv(Apply(s, a))
  {
    match a
    case AppendNode(n) => AppendKeepsInv(s, n);
    case UnlinkNode(i) => UnlinkKeepsInv(s, i);
    case CallRcu(n) => QueueKeepsInv(s, n);
    case Worker(e) =>
      if e.RunFirst? {
        FreeKeepsInv(s);
      } else {
        WorkerKeepsInv(s, e);
      }
    case Enter(r) => EnterKeepsInv(s, r);
    case Exit(r) => ExitKeepsInv(s, r);
    case _ => ScanStepKeepsInv(s, a);
  }

  // ---------------------------------------------------------------- theorems

  lemma StepAtKeepsInv(tr: seq<State>, i: nat)
    requires i + 1 < |tr| && StepAt(tr, i) && Inv(tr[i])
    ensures Inv(tr[i + 1])
  {
    var a :| Enabled(tr[i], a) && tr[i + 1] == Apply(tr[i], a);
    StepKeepsInv(tr[i], a);
  }

  lemma {:induction false} RunKeepsInv(tr: seq<State>, k: nat)
    requires Run(tr) && k < |tr|
    ensures Inv(tr[k])
  {
    assert forall n :: MemoryOk(tr[0].tb, n) && TimesOk(tr[0].tb, n);
    for i := 0 to k
      invariant Inv(tr[i])
    {
      StepAtKeepsInv(tr, i);
    }
  }

  /** No reader ever follows a pointer into freed memory. */
  lemma NeverTouchesFreed(tr: seq<State>, k: nat, r: Tid)
    requires Run(tr) && k < |tr|
    ensures !tr[k].tb.fault
    ensures r in tr[k].scan && tr[k].scan[r].Body? ==> Link(tr[k].scan[r].n) in tr[k].tb.mem.next
    ensures r in tr[k].scan && tr[k].scan[r].At? && tr[k].scan[r].p != Null ==>
              tr[k].scan[r].p in tr[k].tb.mem.next
  {
    RunKeepsInv(tr, k);
    var s := tr[k];
    if r in s.scan {
      assert ScanOk(s.tb, s.since[r], s.scan[r]);
      match s.scan[r]
      case NoScan =>
      case At(p, _, _) => if p.Link? { assert MemoryOk(s.tb, p.n); }
      case Body(n, start, vs) =>
        assert n in vs && Present(s.tb, n, start);
        assert MemoryOk(s.tb, n);
    }
  }

  /** One scan of a run: reader `r` makes its first load at step `i`, and at state
      `j`, for the first time, the loop is over. */
  ghost predicate ScanOf(tr: seq<State>, r: Tid, i: nat, j: nat) {
    && i < j < |tr|
    && r in tr[i + 1].scan && tr[i + 1].scan[r].At?
    && tr[i + 1].scan[r].start == tr[i].tb.clock && tr[i + 1].scan[r].visited == []
    && (forall m: nat :: i < m < j ==> r in tr[m].scan && !ScanOver(tr[m].scan[r]))
    && r in tr[j].scan && tr[j].scan[r].At? && tr[j].scan[r].p == Null
  }

  lemma StepKeepsStart(s: State, a: Action, r: Tid)
    requires Enabled(s, a) && r in s.scan && !ScanOver(s.scan[r])
    requires r in Apply(s, a).scan && Apply(s, a).scan[r] != NoScan
    ensures Apply(s, a).scan[r].start == s.scan[r].start
  {
  }

  lemma {:induction false} StartStays(tr: seq<State>, r: Tid, i: nat, j: nat, k: nat)
    requires Run(tr) && ScanOf(tr, r, i, j) && i < k <= j
    ensures r in tr[k].scan && tr[k].scan[r] != NoScan && tr[k].scan[r].start == tr[i].tb.clock
  {
    if k == i + 1 {
    } else {
      StartStays(tr, r, i, j, k - 1);
      assert StepAt(tr, k - 1);
      var a :| Enabled(tr[k - 1], a) && tr[k] == Apply(tr[k - 1], a);
      StepKeepsStart(tr[k - 1], a, r);
    }
  }

  /** What a step may do to a node: it keeps its times while it stays where it is,
      and enters limbo only from the bucket, deleted now. */
  ghost predicate Ages(tb: Table, tb': Table, x: Node) {
    && tb.clock <= tb'.clock
    && (x in tb.chain ==> Stamp(tb', x) == Stamp(tb, x) && Alive(tb', x))
    && (x in tb'.limbo ==>
          if x in tb.limbo then Del(tb', x) == Del(tb, x) else x in tb.chain && Del(tb', x) == tb.clock)
  }

  /** A step leaves the table alone, or is the one change its action stands for. */
  lemma TableAfter(s: State, a: Action)
    requires Inv(s) && Enabled(s, a)
    ensures match a
            case AppendNode(n) => Head(s.tb.key) in s.tb.mem.prev && Apply(s, a).tb == DoAppend(s.tb, n)
            case UnlinkNode(i) =>
              && Link(s.tb.chain[i]) in s.tb.mem.next && Link(s.tb.chain[i]) in s.tb.mem.prev
              && Apply(s, a).tb == DoUnlink(s.tb, i)
            case Worker(e) => Apply(s, a).tb == if e.RunFirst? then DoFree(s.tb, s.rec.batch[0]) else s.tb
            case _ => Apply(s, a).tb == s.tb
  {
    match a
    case AppendNode(_) => AppendInMemory(s.tb);
    case UnlinkNode(i) => UnlinkInMemory(s.tb, i);
    case ScanStart(_) =>
    case Visit(r) => Visits(s.tb, s.since[r], s.scan[r]);
    case Advance(r) => Advances(s.tb, s.since[r], s.scan[r]);
    case _ =>
  }

  lemma UnlinkAges(tb: Table, i: nat, x: Node)
    requires i < |tb.chain| && Distinct(tb.chain) && !(x in tb.chain && x in tb.limbo)
    requires Link(tb.chain[i]) in tb.mem.next && Link(tb.chain[i]) in tb.mem.prev
    ensures Ages(tb, DoUnlink(tb, i), x)
  {
    DropAt(tb.chain, i);
  }

  lemma StepOnNode(s: State, a: Action, x: Node)
    requires Inv(s) && Enabled(s, a)
    ensures Ages(s.tb, Apply(s, a).tb, x)
  {
    TableAfter(s, a);
    assert MemoryOk(s.tb, x);
    if a.UnlinkNode? {
      UnlinkAges(s.tb, a.i, x);
    }
  }

  lemma StepAtOnNode(tr: seq<State>, m: nat, x: Node)
    requires Run(tr) && m + 1 < |tr|
    ensures Ages(tr[m].tb, tr[m + 1].tb, x)
  {
    RunKeepsInv(tr, m);
    assert StepAt(tr, m);
    var a :| Enabled(tr[m], a) && tr[m + 1] == Apply(tr[m], a);
    StepOnNode(tr[m], a, x);
  }

  lemma {:induction false} StampStays(tr: seq<State>, i: nat, j: nat, x: Node)
    requires Run(tr) && i <= j < |tr|
    requires forall m: nat :: i <= m <= j ==> x in tr[m].tb.chain
    ensures Stamp(tr[j].tb, x) == Stamp(tr[i].tb, x)
  {
    if i == j {
    } else {
      StampStays(tr, i, j - 1, x);
      StepAtOnNode(tr, j - 1, x);
    }
  }

  lemma DeletedBefore(tr: seq<State>, m: nat, v: Node)
    requires Run(tr) && m < |tr| && v in tr[m].tb.limbo
    ensures Del(tr[m].tb, v) < tr[m].tb.clock
  {
    RunKeepsInv(tr, m);
    assert TimesOk(tr[m].tb, v);
  }

  lemma {:induction false} WasInBucket(tr: seq<State>, i: nat, m: nat, v: Node)
    requires Run(tr) && i <= m < |tr| && Present(tr[m].tb, v, tr[i].tb.clock)
    ensures exists k: nat :: i <= k <= m && v in tr[k].tb.chain
  {
    if v in tr[m].tb.chain {
    } else {
      DeletedBefore(tr, m, v);
      assert i < m;
      StepAtOnNode(tr, m - 1, v);
      WasInBucket(tr, i, m - 1, v);
    }
  }

  /** A complete scan, interleaved with any appends, deletes, grace periods, frees
      and other readers, visits every node that is in the bucket throughout, no node
      twice, and only nodes that were in the bucket at some moment of the scan. */
  lemma ScanIsExact(tr: seq<State>, r: Tid, i: nat, j: nat)
    requires Run(tr) && ScanOf(tr, r, i, j)
    ensures var vs := tr[j].scan[r].visited;
            && (forall x | (forall m: nat :: i <= m <= j ==> x in tr[m].tb.chain) :: x in vs)
            && Distinct(vs)
            && (forall v <- vs :: exists k: nat :: i <= k <= j && v in tr[k].tb.chain)
  {
    RunKeepsInv(tr, i);
    RunKeepsInv(tr, j);
    StartStays(tr, r, i, j, j);
    var s := tr[j];
    var vs := s.scan[r].visited;
    assert ScanOk(s.tb, s.since[r], s.scan[r]);
    forall x | forall m: nat :: i <= m <= j ==> x in tr[m].tb.chain
      ensures x in vs
    {
      StampStays(tr, i, j, x);
      assert x in tr[i].tb.chain && x in tr[j].tb.chain;
      assert TimesOk(tr[i].tb, x);
    }
    forall v | v in vs
      ensures exists k: nat :: i <= k <= j && v in tr[k].tb.chain
    {
      WasInBucket(tr, i, j, v);
    }
  }

  lemma {:induction false} DeletedLater(tr: seq<State>, i: nat, m: nat, n: Node)
    requires Run(tr) && i <= m < |tr| && n in tr[i].tb.chain
    ensures tr[i].tb.clock <= tr[m].tb.clock
    ensures n in tr[m].tb.limbo ==> tr[i].tb.clock <= Del(tr[m].tb, n)
  {
    if i == m {
      RunKeepsInv(tr, m);
      assert MemoryOk(tr[m].tb, n);
    } else {
      DeletedLater(tr, i, m - 1, n);
      StepAtOnNode(tr, m - 1, n);
    }
  }

  lemma {:induction false} SinceStays(tr: seq<State>, i: nat, m: nat, r: Tid)
    requires Run(tr) && i <= m < |tr|
    requires forall k: nat :: i <= k <= m ==> r in tr[k].rec.gp.inside
    ensures r in tr[i].since && r in tr[m].since && tr[m].since[r] == tr[i].since[r]
  {
    if i == m {
      RunKeepsInv(tr, m);
    } else {
      SinceStays(tr, i, m - 1, r);
      assert StepAt(tr, m - 1);
      assert r in tr[m - 1].rec.gp.inside;
      var a :| Enabled(tr[m - 1], a) && tr[m] == Apply(tr[m - 1], a);
      StepKeepsSince(tr[m - 1], a, r);
    }
  }

  lemma StepKeepsSince(s: State, a: Action, r: Tid)
    requires Enabled(s, a) && r in s.since && r in s.rec.gp.inside && r in Apply(s, a).rec.gp.inside
    ensures r in Apply(s, a).since && Apply(s, a).since[r] == s.since[r]
  {
  }

  /** A node is freed only after a grace period that follows its deletion: between
      any moment at which it was in the bucket and the moment it is about to be
      freed, every thread has been outside a read-side section. */
  lemma FreedAfterGracePeriod(tr: seq<State>, i: nat, j: nat, n: Node, r: Tid)
    requires Run(tr) && i <= j < |tr| && n in tr[i].tb.chain
    requires Rc.Enabled(tr[j].rec, Rc.RunFirst) && tr[j].rec.batch[0] == n
    ensures exists m: nat :: i <= m <= j && r !in tr[m].rec.gp.inside
  {
    RunKeepsInv(tr, i);
    RunKeepsInv(tr, j);
    DeletedLater(tr, i, j, n);
    FreedIsOld(tr[j]);
    if forall m: nat :: i <= m <= j ==> r in tr[m].rec.gp.inside {
      SinceStays(tr, i, j, r);
    }
  }

  lemma StepKeepsNext(s: State, a: Action, d: Node)
    requires Inv(s) && Enabled(s, a) && d in s.tb.limbo && d in Apply(s, a).tb.limbo
    ensures SameNext(s.tb, Apply(s, a).tb, d)
  {
    TableAfter(s, a);
    assert MemoryOk(s.tb, d);
    match a
    case AppendNode(n) => AppendKeepsNext(s.tb, n, d);
    case UnlinkNode(i) => UnlinkKeepsDeleted(s.tb, i, d);
    case _ =>
  }

  /** A deleted node keeps its next pointer until it is freed, through any appends,
      deletes, frees of other nodes and scans. */
  lemma {:induction false} DeletedKeepsNext(tr: seq<State>, i: nat, j: nat, d: Node)
    requires Run(tr) && i <= j < |tr| && forall m: nat :: i <= m <= j ==> d in tr[m].tb.limbo
    ensures SameNext(tr[i].tb, tr[j].tb, d)
  {
    if i == j {
      RunKeepsInv(tr, i);
      assert MemoryOk(tr[i].tb, d);
    } else {
      DeletedKeepsNext(tr, i, j - 1, d);
      RunKeepsInv(tr, j - 1);
      assert StepAt(tr, j - 1);
      var a :| Enabled(tr[j - 1], a) && tr[j] == Apply(tr[j - 1], a);
      StepKeepsNext(tr[j - 1], a, d);
    }
  }

  // ------------------------------------------------------- calls and returns

  ghost predicate Takes(tr: seq<State>, acts: seq<Action>, i: nat)
    requires i < |acts| && i + 1 < |tr|
  {
    Enabled(tr[i], acts[i]) && tr[i + 1] == Apply(tr[i], acts[i])
  }

  /** A run together with the actions that make it. */
  ghost predicate Follows(tr: seq<State>, acts: seq<Action>) {
    && |tr| == |acts| + 1
    && Init(tr[0])
    && forall i: nat :: i < |acts| ==> Takes(tr, acts, i)
  }

  lemma FollowsRuns(tr: seq<State>, acts: seq<Action>)
    requires Follows(tr, acts)
    ensures Run(tr)
  {
    forall i: nat | i + 1 < |tr|
      ensures StepAt(tr, i)
    {
      assert Takes(tr, acts, i);
    }
  }

  /** What the bucket holds after the first `k` steps, by the appends and deletes alone. */
  function Contents(acts: seq<Action>, k: nat): seq<Node>
    requires k <= |acts|
  {
    if k == 0 then []
    else
      var c := Contents(acts, k - 1);
      match acts[k - 1]
      case AppendNode(n) => c + [n]
      case UnlinkNode(i) => if i < |c| then Drop(c, i) else c
      case _ => c
  }

  /** The nodes handed to call_rcu in the first `k` steps. */
  function Handed(acts: seq<Action>, k: nat): seq<Node>
    requires k <= |acts|
  {
    if k == 0 then [] else Handed(acts, k - 1) + HandedAt(acts[k - 1])
  }

  function HandedAt(a: Action): seq<Node> { if a.CallRcu? then [a.n] else [] }

  function FreedAt(s: State, a: Action): seq<Node> {
    if a == Worker(Rc.RunFirst) && s.rec.batch != [] then [s.rec.batch[0]] else []
  }

  /** The nodes freed in the first `k` steps. */
  function Freed(tr: seq<State>, acts: seq<Action>, k: nat): seq<Node>
    requires k <= |acts| <= |tr|
  {
    if k == 0 then [] else Freed(tr, acts, k - 1) + FreedAt(tr[k - 1], acts[k - 1])
  }

  /** Whether a thread has entered a read-side section and not left it. */
  function Entered(acts: seq<Action>, k: nat, r: Tid): bool
    requires k <= |acts|
  {
    if k == 0 then false
    else if acts[k - 1] == Enter(r) then true
    else if acts[k - 1] == Exit(r) then false
    else Entered(acts, k - 1, r)
  }

  lemma StepChangesChain(s: State, a: Action)
    requires Inv(s) && Enabled(s, a)
    ensures Apply(s, a).tb.chain ==
            match a
            case AppendNode(n) => s.tb.chain + [n]
            case UnlinkNode(i) => Drop(s.tb.chain, i)
            case _ => s.tb.chain
  {
    TableAfter(s, a);
  }

  lemma StepHands(s: State, a: Action)
    requires Enabled(s, a)
    ensures FreedAt(s, a) + Apply(s, a).rec.batch + Apply(s, a).rec.waiting
            == s.rec.batch + s.rec.waiting + HandedAt(a)
  {
    if a == Worker(Rc.RunFirst) {
      assert s.rec.batch == [s.rec.batch[0]] + s.rec.batch[1..];
    }
  }

  lemma Regrouped<T>(before: seq<T>, out: seq<T>, b: seq<T>, w: seq<T>, b': seq<T>, w': seq<T>, more: seq<T>)
    requires out + b' + w' == b + w + more
    ensures before + b + w + more == before + out + b' + w'
  {
    assert before + b + w + more == before + (b + w + more);
    assert before + out + b' + w' == before + (out + b' + w');
  }

  lemma StepEnters(s: State, a: Action, r: Tid)
    requires Enabled(s, a)
    ensures r in Apply(s, a).rec.gp.inside <==> a == Enter(r) || (r in s.rec.gp.inside && a != Exit(r))
  {
  }

  /** The bucket holds what its appends and deletes have left in it. */
  lemma {:induction false} BucketIsHistory(tr: seq<State>, acts: seq<Action>, k: nat)
    requires Follows(tr, acts) && k < |tr|
    ensures tr[k].tb.chain == Contents(acts, k)
  {
    if k == 0 {
    } else {
      BucketIsHistory(tr, acts, k - 1);
      FollowsRuns(tr, acts);
      RunKeepsInv(tr, k - 1);
      assert Takes(tr, acts, k - 1);
      StepChangesChain(tr[k - 1], acts[k - 1]);
    }
  }

  /** Deleted nodes are freed once each, in the order in which they were handed to
      call_rcu, and those not freed yet are with the worker or queued. */
  lemma {:induction false} HandedAreFreed(tr: seq<State>, acts: seq<Action>, k: nat)
    requires Follows(tr, acts) && k < |tr|
    ensures Handed(acts, k) == Freed(tr, acts, k) + tr[k].rec.batch + tr[k].rec.waiting
  {
    if k == 0 {
    } else {
      HandedAreFreed(tr, acts, k - 1);
      assert Takes(tr, acts, k - 1);
      StepHands(tr[k - 1], acts[k - 1]);
      var s, s' := tr[k - 1].rec, tr[k].rec;
      Regrouped(Freed(tr, acts, k - 1), FreedAt(tr[k - 1], acts[k - 1]), s.batch, s.waiting, s'.batch, s'.waiting,
                HandedAt(acts[k - 1]));
    }
  }

  lemma {:induction false} InsideIsEntered(tr: seq<State>, acts: seq<Action>, k: nat, r: Tid)
    requires Follows(tr, acts) && k < |tr|
    ensures r in tr[k].rec.gp.inside <==> Entered(acts, k, r)
  {
    if k == 0 {
    } else {
      InsideIsEntered(tr, acts, k - 1, r);
      assert Takes(tr, acts, k - 1);
      StepEnters(tr[k - 1], acts[k - 1], r);
    }
  }

  /** The node a step of reader `r` visits. */
  function VisitedAt(s: State, a: Action, r: Tid): seq<Node> {
    if a == Visit(r) && r in s.scan && s.scan[r].At? && s.scan[r].p.Link? then [s.scan[r].p.n] else []
  }

  /** The nodes reader `r` has visited in the steps from `i` to before `k`. */
  function VisitedSince(tr: seq<State>, acts: seq<Action>, r: Tid, i: nat, k: nat): seq<Node>
    requires i <= k <= |acts| <= |tr|
  {
    if k == i then []
    else VisitedSince(tr, acts, r, i, k - 1) + VisitedAt(tr[k - 1], acts[k - 1], r)
  }

  lemma StepVisits(s: State, a: Action, r: Tid)
    requires ReadersInv(s) && Enabled(s, a) && r in s.scan && (a == ScanStart(r) || !ScanOver(s.scan[r]))
    ensures r in Apply(s, a).scan && Apply(s, a).scan[r] != NoScan
    ensures a == ScanStart(r) ==>
              Apply(s, a).scan[r].At? && Apply(s, a).scan[r].visited == [] && Apply(s, a).scan[r].start == s.tb.clock
    ensures a != ScanStart(r) ==> Apply(s, a).scan[r].visited == s.scan[r].visited + VisitedAt(s, a, r)
  {
  }

  /** The scan that reader `r` starts at step `i` is not over before state `k`. */
  ghost predicate Scanning(tr: seq<State>, acts: seq<Action>, r: Tid, i: nat, k: nat) {
    && i < k < |tr| && i < |acts| && acts[i] == ScanStart(r)
    && forall m: nat :: i < m < k ==> r in tr[m].scan && !ScanOver(tr[m].scan[r])
  }

  lemma {:induction false} VisitsAreHistory(tr: seq<State>, acts: seq<Action>, r: Tid, i: nat, k: nat)
    requires Follows(tr, acts) && Scanning(tr, acts, r, i, k)
    ensures r in tr[k].scan && tr[k].scan[r] != NoScan
    ensures tr[k].scan[r].visited == VisitedSince(tr, acts, r, i, k)
  {
    ReadersAt(tr, acts, k - 1);
    assert Takes(tr, acts, k - 1);
    if k == i + 1 {
      assert VisitedSince(tr, acts, r, i, k) == [];
    } else {
      VisitsAreHistory(tr, acts, r, i, k - 1);
    }
    StepVisits(tr[k - 1], acts[k - 1], r);
  }

  lemma ReadersAt(tr: seq<State>, acts: seq<Action>, k: nat)
    requires Follows(tr, acts) && k < |tr|
    ensures ReadersInv(tr[k])
  {
    FollowsRuns(tr, acts);
    RunKeepsInv(tr, k);
  }

  /** A completed scan is one that ScanIsExact speaks of. */
  lemma ScanIsScanOf(tr: seq<State>, acts: seq<Action>, r: Tid, i: nat, j: nat)
    requires Follows(tr, acts) && Scanning(tr, acts, r, i, j) && r in tr[j].scan && ScanOver(tr[j].scan[r])
    ensures ScanOf(tr, r, i, j) && tr[j].scan[r].visited == VisitedSince(tr, acts, r, i, j)
  {
    VisitsAreHistory(tr, acts, r, i, j);
    ReadersAt(tr, acts, i);
    assert Takes(tr, acts, i);
    StepVisits(tr[i], acts[i], r);
  }

  ghost predicate Throughout(acts: seq<Action>, i: nat, j: nat, x: Node)
    requires j <= |acts|
  {
    forall m: nat :: i <= m <= j ==> x in Contents(acts, m)
  }

  ghost predicate Sometime(acts: seq<Action>, i: nat, j: nat, x: Node)
    requires j <= |acts|
  {
    exists m: nat :: i <= m <= j && x in Contents(acts, m)
  }

  /** MCHASH_BUCKET_SCAN from start to end, in terms of the calls: the nodes the reader
      visits include every node in the bucket throughout, none twice, and only nodes that
      were in the bucket at some moment. */
  lemma ScanReturns(tr: seq<State>, acts: seq<Action>, r: Tid, i: nat, j: nat)
    requires Follows(tr, acts) && Scanning(tr, acts, r, i, j) && r in tr[j].scan && ScanOver(tr[j].scan[r])
    ensures var vs := VisitedSince(tr, acts, r, i, j);
            && (forall x :: Throughout(acts, i, j, x) ==> x in vs)
            && Distinct(vs)
            && (forall v <- vs :: Sometime(acts, i, j, v))
  {
    FollowsRuns(tr, acts);
    ScanIsScanOf(tr, acts, r, i, j);
    ScanIsExact(tr, r, i, j);
    BucketsAreHistory(tr, acts);
    var vs := tr[j].scan[r].visited;
    forall x | Throughout(acts, i, j, x)
      ensures x in vs
    {
      assert forall m: nat :: i <= m <= j ==> x in tr[m].tb.chain;
    }
    forall v | v in vs
      ensures Sometime(acts, i, j, v)
    {
      var k: nat :| i <= k <= j && v in tr[k].tb.chain;
      assert v in Contents(acts, k);
    }
  }

  lemma BucketsAreHistory(tr: seq<State>, acts: seq<Action>)
    requires Follows(tr, acts)
    ensures forall m: nat :: m < |tr| ==> tr[m].tb.chain == Contents(acts, m)
  {
    forall m: nat | m < |tr|
      ensures tr[m].tb.chain == Contents(acts, m)
    {
      BucketIsHistory(tr, acts, m);
    }
  }

  /** How far a scan still has to go: the ticks of the clock between its node and now. */
  function ScanLeft(s: State, r: Tid): int {
    if r !in s.scan then 0
    else
      match s.scan[r]
      case NoScan => 0
      case At(p, _, _) => if p.Link? then 2 * (s.tb.clock - Stamp(s.tb, p.n)) else 0
      case Body(n, _, _) => 2 * (s.tb.clock - Stamp(s.tb, n)) - 1
  }

  /** A scan ends: each of its steps brings it nearer to its end, so that only appends and
      deletes, which tick the clock, can make it longer. */
  lemma ScanAdvances(s: State, a: Action, r: Tid)
    requires Inv(s) && Enabled(s, a) && (a == Visit(r) || a == Advance(r))
    ensures 0 <= ScanLeft(Apply(s, a), r) < ScanLeft(s, r)
  {
    ScanStepKeepsInv(s, a);
    TableAfter(s, a);
    OnTheClock(s, r);
    OnTheClock(Apply(s, a), r);
    if a == Advance(r) {
      assert s.scan[r].n in s.scan[r].visited;
    }
  }

  /** A scan in progress can go on. */
  lemma ScanCanStep(s: State, r: Tid)
    requires Inv(s) && r in s.scan && !ScanOver(s.scan[r])
    ensures Enabled(s, if s.scan[r].At? then Visit(r) else Advance(r))
  {
    assert ScanOk(s.tb, s.since[r], s.scan[r]);
  }

  lemma OnTheClock(s: State, r: Tid)
    requires Inv(s) && r in s.scan
    ensures s.scan[r].At? && s.scan[r].p.Link? ==> Stamp(s.tb, s.scan[r].p.n) < s.tb.clock
    ensures s.scan[r].Body? ==> Stamp(s.tb, s.scan[r].n) < s.tb.clock
    ensures s.scan[r].At? && s.scan[r].p.Link? ==>
              forall v <- s.scan[r].visited :: Stamp(s.tb, v) < Stamp(s.tb, s.scan[r].p.n)
    ensures s.scan[r].Body? ==> s.scan[r].n in s.scan[r].visited
  {
    assert ScanOk(s.tb, s.since[r], s.scan[r]);
    match s.scan[r]
    case NoScan =>
    case At(p, _, _) => if p.Link? { assert TimesOk(s.tb, p.n); }
    case Body(n, _, vs) =>
      assert n in vs;
      assert TimesOk(s.tb, n);
  }
}
