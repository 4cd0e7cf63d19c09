/**
 The multicore hash table of mchash.h and mchash.c as an object: buckets of doubly
 linked nodes, an indirection array with its free queue, and safe references made
 of an index and a magic number.

 Each macro holds the lock of what it changes, so each is one method here. The
 links of heads and nodes are memory indexed by address.
 */
module McHash {
  import opened BucketList
  import opened Sequences
  import Sq = SlotQueue

  // MCHASH_MAX_HASHBUCKET_CACHE_NODES, and the range of uint32_t.
  const CACHED: nat := 10
  const WORD32: nat := 0x1_0000_0000

  // How many magic numbers there are: the counter skips 0.
  const MAGICS: nat := 0xFFFF_FFFF

  /** The magic number the `a`-th append uses, counting from 0. */
  function MagicOf(a: nat): nat { 1 + a % MAGICS }

  /** The update of magic_no after an append. */
  function NextMagic(m: nat): nat {
    if (m + 1) % WORD32 == 0 then 1 else (m + 1) % WORD32
  }

  lemma NextMagicOf(a: nat)
    ensures NextMagic(MagicOf(a)) == MagicOf(a + 1)
    ensures 0 < MagicOf(a) < WORD32
  {
  }

  /** Two appends use the same magic number exactly when their distance is a
      multiple of 2^32 - 1. */
  lemma MagicsRepeat(a: nat, b: nat)
    ensures MagicOf(a) == MagicOf(b) <==> (b - a) % MAGICS == 0
  {
  }

  // ------------------------------------------------------------------- slots

  /** Buckets and indirection array. `born` says which append filled a slot. */
  datatype Slots = Slots(
    chains: seq<seq<Node>>,
    keyOf: map<Node, nat>,
    indexOf: map<Node, nat>,
    node: seq<Ptr>,
    magic: seq<nat>,
    free: seq<nat>,
    born: seq<nat>,
    appends: nat)

  ghost predicate Live(sl: Slots, n: Node) {
    exists k: nat :: k < |sl.chains| && n in sl.chains[k]
  }

  /** A slot is in the free queue, with magic 0, or holds a node of a bucket. */
  ghost predicate SlotOk(sl: Slots, e: nat)
    requires e < |sl.node| == |sl.magic| == |sl.born|
  {
    if e in sl.free then sl.node[e] == Null && sl.magic[e] == 0
    else
      && sl.node[e].Link? && sl.born[e] < sl.appends && sl.magic[e] == MagicOf(sl.born[e])
      && var n := sl.node[e].n;
         && n in sl.indexOf && sl.indexOf[n] == e
         && n in sl.keyOf && sl.keyOf[n] < |sl.chains| && n in sl.chains[sl.keyOf[n]]
  }

  /** No node is in the slot. */
  ghost predicate Empty(sl: Slots, e: nat) {
    e < |sl.node| && sl.node[e] == Null
  }

  lemma SomeEmptyIff(sl: Slots)
    requires SlotsOk(sl)
    ensures (exists e: nat :: e < |sl.node| && Empty(sl, e)) <==> sl.free != []
  {
    forall e: nat | e < |sl.node|
      ensures Empty(sl, e) <==> e in sl.free
    {
      assert SlotOk(sl, e);
    }
    if sl.free != [] {
      assert sl.free[0] in sl.free && Empty(sl, sl.free[0]);
    }
  }

  /** A node of a bucket knows its bucket and its slot. */
  ghost predicate NodeOk(sl: Slots, k: nat, n: Node)
    requires k < |sl.chains|
  {
    n in sl.chains[k] ==>
      && n in sl.keyOf && sl.keyOf[n] == k
      && n in sl.indexOf && sl.indexOf[n] < |sl.node| && sl.node[sl.indexOf[n]] == Link(n)
  }

  ghost predicate SlotsOk(sl: Slots) {
    && |sl.node| == |sl.magic| == |sl.born|
    && (forall e: nat :: e < |sl.node| ==> SlotOk(sl, e))
    && (forall k: nat, n :: k < |sl.chains| ==> NodeOk(sl, k, n))
    && (forall i: nat :: i < |sl.free| ==> sl.free[i] < |sl.node|)
    && sl.indexOf.Keys == sl.keyOf.Keys
    && (forall n <- sl.keyOf :: sl.keyOf[n] < |sl.chains| && sl.indexOf[n] < |sl.node|)
  }

  function Filled(sl: Slots, key: nat, n: Node): Slots
    requires key < |sl.chains| && sl.free != []
    requires sl.free[0] < |sl.node| == |sl.magic| == |sl.born|
  {
    var e := sl.free[0];
    Slots(sl.chains[key := sl.chains[key] + [n]], sl.keyOf[n := key], sl.indexOf[n := e],
          sl.node[e := Link(n)], sl.magic[e := MagicOf(sl.appends)], sl.free[1..],
          sl.born[e := sl.appends], sl.appends + 1)
  }

  function Emptied(sl: Slots, key: nat, i: nat, e: nat): Slots
    requires key < |sl.chains| && i < |sl.chains[key]|
    requires e < |sl.node| == |sl.magic|
  {
    sl.(chains := sl.chains[key := Drop(sl.chains[key], i)],
        node := sl.node[e := Null], magic := sl.magic[e := 0], free := sl.free + [e])
  }

  /** The slots of a new table: all free, in the order of the array. */
  function NewSlots(buckets: nat, maxNodes: nat): Slots {
    Slots(seq(buckets, _ => []), map[], map[], seq(maxNodes, _ => Null), seq(maxNodes, _ => 0),
          seq(maxNodes, i => i), seq(maxNodes, _ => 0), 0)
  }

  lemma NewSlotsOk(buckets: nat, maxNodes: nat)
    ensures SlotsOk(NewSlots(buckets, maxNodes)) && InAppendOrder(NewSlots(buckets, maxNodes))
  {
    var sl := NewSlots(buckets, maxNodes);
    forall e: nat | e < maxNodes
      ensures SlotOk(sl, e)
    {
      assert sl.free[e] == e;
    }
  }

  lemma FilledOk(sl: Slots, key: nat, n: Node)
    requires SlotsOk(sl) && key < |sl.chains| && sl.free != [] && Distinct(sl.free) && !Live(sl, n)
    ensures SlotsOk(Filled(sl, key, n))
  {
    var sl', e := Filled(sl, key, n), sl.free[0];
    assert SlotOk(sl, e);
    forall f: nat | f < |sl'.node|
      ensures SlotOk(sl', f)
    {
      assert SlotOk(sl, f);
      assert f in sl.free <==> f in sl'.free || f == e;
    }
    forall k: nat, x | k < |sl'.chains|
      ensures NodeOk(sl', k, x)
    {
      assert NodeOk(sl, k, x);
      if x in sl.chains[k] {
        assert x != n && SlotOk(sl, sl.indexOf[x]);
      }
    }
  }

  lemma EmptiedOk(sl: Slots, key: nat, i: nat, e: nat)
    requires SlotsOk(sl) && key < |sl.chains| && i < |sl.chains[key]| && e < |sl.node|
    requires sl.node[e] == Link(sl.chains[key][i]) && Distinct(sl.chains[key])
    ensures SlotsOk(Emptied(sl, key, i, e))
  {
    var sl', n := Emptied(sl, key, i, e), sl.chains[key][i];
    DropAt(sl.chains[key], i);
    forall f: nat | f < |sl'.node|
      ensures SlotOk(sl', f)
    {
      assert SlotOk(sl, f) && SlotOk(sl, e);
    }
    forall k: nat, x | k < |sl'.chains|
      ensures NodeOk(sl', k, x)
    {
      assert NodeOk(sl, k, x) && NodeOk(sl, key, n) && SlotOk(sl, e);
    }
  }

  // -------------------------------------------------------- safe references

  /** One append or one deletion. */
  ghost predicate TableStep(sl: Slots, sl': Slots) {
    && SlotsOk(sl) && Distinct(sl.free)
    && ((exists key: nat, n: Node :: IsAppend(sl, sl', key, n))
        || (exists key: nat, i: nat, e: nat :: IsDelete(sl, sl', key, i, e)))
  }

  ghost predicate IsAppend(sl: Slots, sl': Slots, key: nat, n: Node)
    requires SlotsOk(sl)
  {
    key < |sl.chains| && sl.free != [] && !Live(sl, n) && sl' == Filled(sl, key, n)
  }

  ghost predicate IsDelete(sl: Slots, sl': Slots, key: nat, i: nat, e: nat)
    requires SlotsOk(sl)
  {
    && key < |sl.chains| && i < |sl.chains[key]| && e < |sl.node|
    && sl.node[e] == Link(sl.chains[key][i]) && sl' == Emptied(sl, key, i, e)
  }

  ghost predicate TableRun(tr: seq<Slots>) {
    forall i: nat :: i + 1 < |tr| ==> StepAt(tr, i)
  }

  ghost predicate StepAt(tr: seq<Slots>, i: nat)
    requires i + 1 < |tr|
  {
    TableStep(tr[i], tr[i + 1])
  }

  /** A reference made by append `a` matches a slot exactly when the slot is taken
      by an append a multiple of 2^32 - 1 away, among them `a` itself. */
  lemma RefMatches(sl: Slots, e: nat, a: nat)
    requires SlotsOk(sl) && e < |sl.node|
    ensures sl.magic[e] == MagicOf(a) <==> e !in sl.free && (sl.born[e] - a) % MAGICS == 0
  {
    assert SlotOk(sl, e);
    if e !in sl.free {
      MagicsRepeat(a, sl.born[e]);
    }
  }

  /** What has happened to the slot that append `a` of node `n` took. */
  ghost predicate SlotHistory(sl: Slots, e: nat, a: nat, n: Node, released: bool)
    requires |sl.node| == |sl.born|
  {
    && e < |sl.node| && a < sl.appends
    && (!released ==> e !in sl.free && sl.born[e] == a && sl.node[e] == Link(n))
    && (released && e !in sl.free ==> a < sl.born[e])
  }

  lemma StepKeepsHistory(sl: Slots, sl': Slots, e: nat, a: nat, n: Node, released: bool)
    requires TableStep(sl, sl') && SlotHistory(sl, e, a, n, released)
    ensures |sl'.node| == |sl'.born| && SlotHistory(sl', e, a, n, released || e in sl'.free)
  {
    if key: nat, x: Node :| IsAppend(sl, sl', key, x) {
      assert sl.free[0] in sl.free;
      assert forall f :: f in sl'.free ==> f in sl.free;
      assert e in sl.free ==> e in sl'.free || e == sl.free[0];
    } else {
      var key: nat, i: nat, f: nat :| IsDelete(sl, sl', key, i, f);
      assert e in sl'.free <==> e in sl.free || e == f;
    }
  }

  ghost predicate Released(tr: seq<Slots>, i: nat, j: nat, e: nat)
    requires j < |tr|
  {
    exists m: nat :: i < m <= j && e in tr[m].free
  }

  lemma {:induction false} HistoryOf(tr: seq<Slots>, i: nat, j: nat, key: nat, n: Node)
    requires TableRun(tr) && i < j < |tr| && SlotsOk(tr[i]) && IsAppend(tr[i], tr[i + 1], key, n)
    ensures |tr[j].node| == |tr[j].born|
    ensures SlotHistory(tr[j], tr[i].free[0], tr[i].appends, n, Released(tr, i, j, tr[i].free[0]))
  {
    var e, a := tr[i].free[0], tr[i].appends;
    assert StepAt(tr, i);
    if j == i + 1 {
      assert e !in tr[j].free;
    } else {
      HistoryOf(tr, i, j - 1, key, n);
      assert StepAt(tr, j - 1);
      StepKeepsHistory(tr[j - 1], tr[j], e, a, n, Released(tr, i, j - 1, e));
      assert Released(tr, i, j, e) <==> Released(tr, i, j - 1, e) || e in tr[j].free;
    }
  }

  /** Safe references survive reuse. In any run of appends and deletions, the pair
      of index and magic number an append returned matches its slot, and yields the
      very node, for as long as the node is in the table; after the node's deletion,
      through any number of reuses of the slot, a match needs a distance of a
      non-zero multiple of 2^32 - 1 appends. */
  lemma SafeReference(tr: seq<Slots>, i: nat, j: nat, key: nat, n: Node)
    requires TableRun(tr) && i < j < |tr| && SlotsOk(tr[i]) && SlotsOk(tr[j])
    requires IsAppend(tr[i], tr[i + 1], key, n)
    ensures var e, a := tr[i].free[0], tr[i].appends;
            && e < |tr[j].node|
            && (!Released(tr, i, j, e) ==> tr[j].magic[e] == MagicOf(a) && tr[j].node[e] == Link(n))
            && (Released(tr, i, j, e) && tr[j].magic[e] == MagicOf(a) ==>
                  && e !in tr[j].free
                  && tr[j].born[e] - a >= MAGICS && (tr[j].born[e] - a) % MAGICS == 0)
  {
    HistoryOf(tr, i, j, key, n);
    RefMatches(tr[j], tr[i].free[0], tr[i].appends);
  }

  // A table of one bucket and one slot: node 7 is appended and deleted once, then
  // node 8 again and again.

  function First(): Node { 7 }

  function Later(): Node { 8 }

  /** The `n`-th node appended, counting from 0. */
  function NthNode(n: nat): Node { if n == 0 then First() else Later() }

  /** The nodes that have been in the table, and what their links say. */
  function Known(n: nat): map<Node, nat> {
    if n == 0 then map[] else if n == 1 then map[First() := 0] else map[First() := 0, Later() := 0]
  }

  /** After `n` appends and as many deletions. */
  function EmptyAfter(n: nat): Slots {
    Slots([[]], Known(n), Known(n), [Null], [0], [0], [if n == 0 then 0 else n - 1], n)
  }

  /** After `n + 1` appends and `n` deletions. */
  function FullAfter(n: nat): Slots {
    Slots([[NthNode(n)]], Known(n + 1), Known(n + 1), [Link(NthNode(n))], [MagicOf(n)], [], [n], n + 1)
  }

  lemma AppendsOne(n: nat)
    ensures SlotsOk(EmptyAfter(n)) && IsAppend(EmptyAfter(n), FullAfter(n), 0, NthNode(n))
    ensures TableStep(EmptyAfter(n), FullAfter(n))
  {
    var sl := EmptyAfter(n);
    assert forall e: nat :: e < 1 ==> SlotOk(sl, e);
    var full, x := Filled(sl, 0, NthNode(n)), NthNode(n);
    assert Known(n)[x := 0] == Known(n + 1) && sl.chains[0] + [x] == [x];
    assert full.chains == [[x]] && full.node == [Link(x)] && full.magic == [MagicOf(n)];
    assert full.free == [] && full.born == [n];
    assert IsAppend(sl, FullAfter(n), 0, x);
  }

  lemma DeletesOne(n: nat)
    ensures SlotsOk(FullAfter(n)) && TableStep(FullAfter(n), EmptyAfter(n + 1))
  {
    var sl := FullAfter(n);
    assert forall e: nat :: e < 1 ==> SlotOk(sl, e);
    var empty := Emptied(sl, 0, 0, 0);
    assert Drop(sl.chains[0], 0) == [];
    assert empty.chains == [[]];
    assert empty.node == [Null] && empty.magic == [0] && empty.free == [0];
    assert empty == EmptyAfter(n + 1);
    assert IsDelete(sl, EmptyAfter(n + 1), 0, 0, 0);
  }

  /** `n` reuses of the slot. */
  function Reuses(n: nat): seq<Slots> {
    seq(2 * n + 2, i requires 0 <= i => if i % 2 == 0 then EmptyAfter(i / 2) else FullAfter(i / 2))
  }

  lemma ReusesAt(n: nat, k: nat)
    requires k <= n
    ensures |Reuses(n)| == 2 * n + 2
    ensures Reuses(n)[2 * k] == EmptyAfter(k) && Reuses(n)[2 * k + 1] == FullAfter(k)
    ensures n > 0 ==> Released(Reuses(n), 0, 2 * n + 1, 0)
  {
    if n > 0 {
      assert Reuses(n)[2] == EmptyAfter(1) && 0 in EmptyAfter(1).free;
    }
  }

  lemma ReusesStep(n: nat, i: nat)
    requires i + 1 < |Reuses(n)|
    ensures StepAt(Reuses(n), i)
  {
    var k := i / 2;
    ReusesAt(n, k);
    if i == 2 * k {
      AppendsOne(k);
    } else {
      ReusesAt(n, k + 1);
      DeletesOne(k);
    }
  }

  lemma ReusesRun(n: nat)
    ensures TableRun(Reuses(n))
  {
    forall i: nat | i + 1 < |Reuses(n)|
      ensures StepAt(Reuses(n), i)
    {
      ReusesStep(n, i);
    }
  }

  /** A run in which the reference from the first append to an empty table of one
      slot matches that slot again at state `j`, after the node's deletion, exactly
      2^32 - 1 appends later, and yields another node. */
  ghost predicate FalseMatch(tr: seq<Slots>, j: nat) {
    && TableRun(tr) && 1 < j < |tr| && tr[0] == NewSlots(1, 1)
    && SlotsOk(tr[0]) && IsAppend(tr[0], tr[1], 0, First()) && Released(tr, 0, j, 0)
    && |tr[j].magic| == |tr[j].node| == |tr[j].born| == 1
    && tr[j].magic[0] == MagicOf(0) && tr[j].born[0] == MAGICS && tr[j].node[0] == Link(Later())
  }

  /** The bound of SafeReference is met. */
  lemma ReferenceMatchesAgain()
    ensures exists tr: seq<Slots>, j: nat :: FalseMatch(tr, j)
  {
    ReusesRun(MAGICS);
    AppendsOne(0);
    ReusesAt(MAGICS, 0);
    ReusesAt(MAGICS, MAGICS);
    assert FalseMatch(Reuses(MAGICS), 2 * MAGICS + 1);
  }

  /** Each bucket keeps its nodes in the order in which they were appended. */
  ghost predicate InAppendOrder(sl: Slots)
    requires SlotsOk(sl)
  {
    forall k: nat, i, j :: k < |sl.chains| && 0 <= i < j < |sl.chains[k]| ==> Earlier(sl, k, i, j)
  }

  ghost predicate Earlier(sl: Slots, k: nat, i: nat, j: nat)
    requires SlotsOk(sl) && k < |sl.chains| && i < |sl.chains[k]| && j < |sl.chains[k]|
  {
    var x, y := sl.chains[k][i], sl.chains[k][j];
    x in sl.indexOf && y in sl.indexOf && sl.born[sl.indexOf[x]] < sl.born[sl.indexOf[y]]
  }

  lemma AppendKeepsOrder(sl: Slots, key: nat, n: Node)
    requires SlotsOk(sl) && InAppendOrder(sl) && key < |sl.chains| && sl.free != []
    requires Distinct(sl.free) && !Live(sl, n)
    ensures SlotsOk(Filled(sl, key, n)) && InAppendOrder(Filled(sl, key, n))
  {
    FilledOk(sl, key, n);
    var sl', e := Filled(sl, key, n), sl.free[0];
    assert e in sl.free;
    forall k: nat, i, j | k < |sl'.chains| && 0 <= i < j < |sl'.chains[k]|
      ensures Earlier(sl', k, i, j)
    {
      NotInFreeSlot(sl, k, i);
      if j < |sl.chains[k]| {
        NotInFreeSlot(sl, k, j);
        assert Earlier(sl, k, i, j);
      }
    }
  }

  lemma NotInFreeSlot(sl: Slots, k: nat, i: nat)
    requires SlotsOk(sl) && k < |sl.chains| && i < |sl.chains[k]| && sl.free != []
    ensures var x := sl.chains[k][i];
            x in sl.indexOf && sl.indexOf[x] != sl.free[0] && sl.born[sl.indexOf[x]] < sl.appends
  {
    var x := sl.chains[k][i];
    assert NodeOk(sl, k, x) && SlotOk(sl, sl.indexOf[x]);
    assert sl.free[0] in sl.free && SlotOk(sl, sl.free[0]);
  }

  lemma DeleteKeepsOrder(sl: Slots, key: nat, i: nat, e: nat)
    requires SlotsOk(sl) && InAppendOrder(sl) && key < |sl.chains| && i < |sl.chains[key]|
    requires e < |sl.node| && sl.node[e] == Link(sl.chains[key][i]) && Distinct(sl.chains[key])
    ensures SlotsOk(Emptied(sl, key, i, e)) && InAppendOrder(Emptied(sl, key, i, e))
  {
    EmptiedOk(sl, key, i, e);
    DropAt(sl.chains[key], i);
    var sl' := Emptied(sl, key, i, e);
    forall k: nat, a, b | k < |sl'.chains| && 0 <= a < b < |sl'.chains[k]|
      ensures Earlier(sl', k, a, b)
    {
      assert if k == key then Earlier(sl, k, Shift(i, a), Shift(i, b)) else Earlier(sl, k, a, b);
    }
  }

  lemma OrderGivesDistinct(sl: Slots, k: nat)
    requires SlotsOk(sl) && InAppendOrder(sl) && k < |sl.chains|
    ensures Distinct(sl.chains[k])
  {
    forall i, j | 0 <= i < j < |sl.chains[k]|
      ensures sl.chains[k][i] != sl.chains[k][j]
    {
      assert Earlier(sl, k, i, j);
    }
  }

  lemma StepKeepsOrder(sl: Slots, sl': Slots)
    requires TableStep(sl, sl') && InAppendOrder(sl)
    ensures SlotsOk(sl') && InAppendOrder(sl')
  {
    if key: nat, x: Node :| IsAppend(sl, sl', key, x) {
      AppendKeepsOrder(sl, key, x);
    } else {
      var key: nat, i: nat, e: nat :| IsDelete(sl, sl', key, i, e);
      OrderGivesDistinct(sl, key);
      DeleteKeepsOrder(sl, key, i, e);
    }
  }

  /** After any run of appends and deletions of a new table, every bucket holds its
      nodes in the order in which they were appended. */
  lemma {:induction false} RunKeepsOrder(tr: seq<Slots>, k: nat, buckets: nat, maxNodes: nat)
    requires TableRun(tr) && k < |tr| && tr[0] == NewSlots(buckets, maxNodes)
    ensures SlotsOk(tr[k]) && InAppendOrder(tr[k])
  {
    if k == 0 {
      NewSlotsOk(buckets, maxNodes);
    } else {
      RunKeepsOrder(tr, k - 1, buckets, maxNodes);
      assert StepAt(tr, k - 1);
      StepKeepsOrder(tr[k - 1], tr[k]);
    }
  }

  ghost predicate AllLists(mem: Mem, chains: seq<seq<Node>>) {
    forall k: nat :: k < |chains| ==> Lists(mem, k, chains[k])
  }

  /** No node is in two buckets. */
  lemma BucketsDisjoint(sl: Slots, k: nat, l: nat, n: Node)
    requires SlotsOk(sl) && k < |sl.chains| && l < |sl.chains| && n in sl.chains[k] && n in sl.chains[l]
    ensures k == l
  {
    assert NodeOk(sl, k, n) && NodeOk(sl, l, n);
  }

  lemma FilledLists(sl: Slots, mem: Mem, key: nat, n: Node)
    requires SlotsOk(sl) && AllLists(mem, sl.chains) && key < |sl.chains| && sl.free != [] && !Live(sl, n)
    requires Head(key) in mem.prev
    ensures AllLists(Append(mem, key, n), Filled(sl, key, n).chains)
  {
    var mem', chains' := Append(mem, key, n), Filled(sl, key, n).chains;
    assert Lists(mem, key, sl.chains[key]);
    forall k: nat | k < |chains'|
      ensures Lists(mem', k, chains'[k])
    {
      if k == key {
        AppendLists(mem, key, sl.chains[key], n);
      } else {
        assert Lists(mem, k, sl.chains[k]);
        forall x | x in sl.chains[k]
          ensures x != n && x !in sl.chains[key]
          ensures Link(x) in mem.next && Link(x) in mem.prev
        {
          if x in sl.chains[key] { BucketsDisjoint(sl, k, key, x); }
          var i :| 0 <= i < |sl.chains[k]| && sl.chains[k][i] == x;
          assert LinkOk(mem, k, sl.chains[k], i);
        }
        OtherBucket(mem, mem', k, sl.chains[k]);
      }
    }
  }

  lemma EmptiedLists(sl: Slots, mem: Mem, key: nat, i: nat, e: nat)
    requires SlotsOk(sl) && AllLists(mem, sl.chains) && key < |sl.chains| && i < |sl.chains[key]|
    requires e < |sl.node|
    ensures var n := sl.chains[key][i];
            && Link(n) in mem.next && Link(n) in mem.prev
            && AllLists(Unlink(mem, key, n), Emptied(sl, key, i, e).chains)
  {
    assert Lists(mem, key, sl.chains[key]);
    UnlinkLists(mem, key, sl.chains[key], i);
    var n := sl.chains[key][i];
    var mem', chains' := Unlink(mem, key, n), Emptied(sl, key, i, e).chains;
    assert LinkOk(mem, key, sl.chains[key], i);
    forall k: nat | k < |chains'|
      ensures Lists(mem', k, chains'[k])
    {
      if k != key {
        assert Lists(mem, k, sl.chains[k]);
        forall x | x in sl.chains[k]
          ensures x !in sl.chains[key]
          ensures Link(x) in mem.next && Link(x) in mem.prev
        {
          if x in sl.chains[key] { BucketsDisjoint(sl, k, key, x); }
          var j :| 0 <= j < |sl.chains[k]| && sl.chains[k][j] == x;
          assert LinkOk(mem, k, sl.chains[k], j);
        }
        OtherBucket(mem, mem', k, sl.chains[k]);
      }
    }
  }

  // ----------------------------------------------------------- the whole table

  /** What the bucket counters really hold: appending adds 2, one in the macro and
      one in the function it calls, deleting subtracts 1. */
  ghost predicate Counted(count: seq<nat>, chains: seq<seq<Node>>, added: seq<nat>) {
    |count| == |added| == |chains|
    && forall k :: 0 <= k < |chains| ==> count[k] == (|chains[k]| + added[k]) % WORD32
  }

  /** A uint32_t counter of a bucket, incremented. */
  function Bumped(count: seq<nat>, key: nat): seq<nat>
    requires key < |count|
  {
    count[key := (count[key] + 1) % WORD32]
  }

  lemma CountedAfterAppend(count: seq<nat>, chains: seq<seq<Node>>, added: seq<nat>, key: nat, n: Node)
    requires Counted(count, chains, added) && key < |chains|
    ensures Counted(Bumped(Bumped(count, key), key),
                    chains[key := chains[key] + [n]], added[key := added[key] + 1])
  {
    BumpedWord(|chains[key]| + added[key]);
    BumpedWord(|chains[key]| + added[key] + 1);
  }

  lemma BumpedWord(x: nat)
    ensures (x % WORD32 + 1) % WORD32 == (x + 1) % WORD32
  {
  }

  lemma CountedAfterDelete(count: seq<nat>, chains: seq<seq<Node>>, added: seq<nat>, key: nat, i: nat)
    requires Counted(count, chains, added) && key < |chains| && i < |chains[key]|
    ensures Counted(count[key := (count[key] - 1) % WORD32], chains[key := Drop(chains[key], i)], added)
  {
  }

  /** How a deletion by reference ends; the last stands for following a NULL pointer,
      where the model stops before the source reads through it. */
  datatype RefDeletion = Deleted | NoMatch | NullFollowed

  class Table {
    const buckets: nat
    const maxNodes: nat

    // next_p and prev_p of the bucket heads and of the nodes' links.
    var next: map<Ptr, Ptr>
    var prev: map<Ptr, Ptr>
    // key and index in the nodes' links.
    var keyOf: map<Node, nat>
    var indexOf: map<Node, nat>
    // count and prefetch_nodes of the buckets.
    const count: array<nat>
    const prefetch: array2<Ptr>
    // The indirection array and its free queue.
    const entryNext: array<int>
    const entryPrev: array<int>
    const magic: array<nat>
    const node: array<Ptr>
    var freeFirst: int
    var freeLast: int
    var magicNo: nat
    var activeNodes: nat

    ghost var chains: seq<seq<Node>>
    ghost var free: seq<nat>
    ghost var born: seq<nat>
    ghost var appends: nat
    ghost var added: seq<nat>

    ghost predicate Apart() {
      entryNext != entryPrev && magic != count
      && magic as object !in {entryNext as object, entryPrev}
      && count as object !in {entryNext as object, entryPrev}
    }

    function Memory(): Mem
      reads this`next, this`prev
    {
      Mem(next, prev)
    }

    ghost function AllSlots(): Slots
      reads this`chains, this`keyOf, this`indexOf, this`free, this`born, this`appends, magic, node
    {
      Slots(chains, keyOf, indexOf, node[..], magic[..], free, born, appends)
    }

    ghost function Queue(): Sq.FreeQ
      reads this`freeFirst, this`freeLast, entryNext, entryPrev
    {
      Sq.FreeQ(entryNext[..], entryPrev[..], freeFirst, freeLast)
    }

    /** The prefetch array of a bucket shows its first nodes, padded with zeros. */
    ghost predicate Prefetched(k: nat, c: seq<Node>)
      requires k < prefetch.Length0 && prefetch.Length1 == CACHED
      reads prefetch
    {
      forall i :: 0 <= i < CACHED ==> prefetch[k, i] == if i < |c| then Link(c[i]) else Null
    }

    ghost predicate Shape()
      reads this`chains
    {
      && Apart()
      && |chains| == buckets == count.Length == prefetch.Length0 && prefetch.Length1 == CACHED
      && node.Length == magic.Length == entryNext.Length == entryPrev.Length == maxNodes
      && 0 < maxNodes < WORD32
    }

    ghost predicate RowsOk()
      requires Shape()
      reads this`chains, prefetch
    {
      forall k: nat :: k < buckets ==> Prefetched(k, chains[k])
    }

    ghost predicate Valid()
      reads this, count, prefetch, entryNext, entryPrev, magic, node
    {
      && Shape()
      && SlotsOk(AllSlots()) && InAppendOrder(AllSlots())
      && AllLists(Memory(), chains)
      && Sq.Queues(Queue(), free)
      && magicNo == MagicOf(appends)
      && activeNodes == maxNodes - |free|
      && RowsOk()
      && Counted(count[..], chains, added)
    }

    /** mchash_update_prefetch_nodes */
    method UpdatePrefetch(key: nat, ghost c: seq<Node>)
      requires Shape() && key < buckets && Lists(Memory(), key, c)
      modifies prefetch
      ensures Prefetched(key, c)
      ensures forall k, i :: 0 <= k < buckets && 0 <= i < CACHED && k != key ==>
                prefetch[k, i] == old(prefetch[k, i])
    {
      var p := next[Head(key)];
      var ii := 0;
      while ii < CACHED && p != Null
        invariant 0 <= ii <= CACHED && ii <= |c|
        invariant p == if ii < |c| then Link(c[ii]) else Null
        invariant forall i :: 0 <= i < ii ==> prefetch[key, i] == Link(c[i])
        invariant forall k, i :: 0 <= k < buckets && 0 <= i < CACHED && k != key ==>
                    prefetch[k, i] == old(prefetch[k, i])
      {
        assert LinkOk(Memory(), key, c, ii);
        prefetch[key, ii] := p;
        p := next[p];
        ii := ii + 1;
      }
      while ii < CACHED
        invariant 0 <= ii <= CACHED
        invariant |c| < CACHED ==> |c| <= ii
        invariant forall i :: 0 <= i < ii ==> prefetch[key, i] == if i < |c| then Link(c[i]) else Null
        invariant forall k, i :: 0 <= k < buckets && 0 <= i < CACHED && k != key ==>
                    prefetch[k, i] == old(prefetch[k, i])
      {
        prefetch[key, ii] := Null;
        ii := ii + 1;
      }
    }

    /** mchash_insert_node_in_middle, for an insertion that makes the bucket `c`. */
    method InsertNode(key: nat, before: Ptr, n: Node, after: Ptr, ghost c: seq<Node>)
      requires Shape() && key < buckets
      requires Lists(InsertInMiddle(Memory(), key, before, n, after), key, c)
      modifies this`next, this`prev, prefetch, count
      ensures Memory() == InsertInMiddle(old(Memory()), key, before, n, after)
      ensures Prefetched(key, c)
      ensures forall k, i :: 0 <= k < buckets && 0 <= i < CACHED && k != key ==>
                prefetch[k, i] == old(prefetch[k, i])
      ensures count[..] == Bumped(old(count[..]), key)
    {
      next := next[Link(n) := after];
      prev := prev[Link(n) := before];
      var b := if before == Null then Head(key) else before;
      next := next[b := Link(n)];
      var a := if after == Null then Head(key) else after;
      prev := prev[a := Link(n)];
      UpdatePrefetch(key, c);
      count[key] := (count[key] + 1) % WORD32;
    }

    /** The unlinking stores of the two delete macros, with what follows under the
        bucket's lock. */
    method UnlinkNode(key: nat, n: Node, ghost c: seq<Node>)
      requires Shape() && key < buckets && Link(n) in next && Link(n) in prev
      requires Lists(Unlink(Memory(), key, n), key, c)
      modifies this`next, this`prev, prefetch, count
      ensures Memory() == Unlink(old(Memory()), key, n)
      ensures Prefetched(key, c)
      ensures forall k, i :: 0 <= k < buckets && 0 <= i < CACHED && k != key ==>
                prefetch[k, i] == old(prefetch[k, i])
      ensures count[..] == old(count[..])[key := (old(count[key]) - 1) % WORD32]
    {
      var after := next[Link(n)];
      var before := prev[Link(n)];
      if before == Null {
        before := Head(key);
      }
      next := next[before := after];
      if after == Null {
        after := Head(key);
      }
      prev := prev[after := before];
      count[key] := (count[key] - 1) % WORD32;
      UpdatePrefetch(key, c);
    }

    /** The free queue's first entry, taken under the table's lock. */
    method TakeEntry() returns (e: nat)
      requires Shape() && Sq.Queues(Queue(), free) && freeFirst != Sq.NIL
      modifies this`freeFirst, this`freeLast, entryPrev
      ensures old(free) != [] && e == old(free)[0] && e < maxNodes
      ensures Sq.Queues(Queue(), old(free)[1..])
    {
      Sq.PopQueues(Queue(), free);
      ghost var q := Sq.Pop(Queue());
      assert Sq.EntryOk(Queue(), free, 0);
      e := freeFirst;
      freeFirst := entryNext[e];
      if freeFirst == Sq.NIL {
        freeLast := Sq.NIL;
      } else {
        entryPrev[freeFirst] := Sq.NIL;
      }
      assert Queue() == q;
    }

    /** An entry put back behind the last, under the table's lock. */
    method ReturnEntry(e: nat)
      requires Shape() && Sq.Queues(Queue(), free) && e < maxNodes && e !in free
      modifies this`freeFirst, this`freeLast, entryNext, entryPrev
      ensures Sq.Queues(Queue(), old(free) + [e])
    {
      Sq.PushQueues(Queue(), free, e);
      ghost var q := Sq.Push(Queue(), e);
      entryNext[e] := Sq.NIL;
      if freeLast != Sq.NIL {
        entryPrev[e] := freeLast;
        entryNext[freeLast] := e;
        freeLast := e;
      } else {
        entryPrev[e] := Sq.NIL;
        freeLast := e;
        freeFirst := e;
      }
      assert Queue() == q;
    }

    /** What MCHASH_APPEND_NODE writes to its slot under the table's lock. */
    method FillSlot(e: nat, n: Node)
      requires Shape() && e < maxNodes && magicNo == MagicOf(appends)
      modifies this`magicNo, this`activeNodes, this`indexOf, magic, node
      ensures magicNo == MagicOf(appends + 1) && activeNodes == old(activeNodes) + 1
      ensures indexOf == old(indexOf)[n := e]
      ensures magic[..] == old(magic[..])[e := MagicOf(appends)]
      ensures node[..] == old(node[..])[e := Link(n)]
    {
      NextMagicOf(appends);
      magic[e] := magicNo;
      magicNo := magicNo + 1;
      if magicNo == WORD32 {
        magicNo := 1;
      }
      activeNodes := activeNodes + 1;
      node[e] := Link(n);
      indexOf := indexOf[n := e];
    }

    /** The insertion MCHASH_APPEND_NODE makes under the bucket's lock. */
    method JoinList(key: nat, n: Node)
      requires Shape() && key < buckets && RowsOk() && Head(key) in prev
      requires Lists(Append(Memory(), key, n), key, chains[key] + [n])
      modifies this`next, this`prev, this`chains, prefetch, count
      ensures chains == old(chains)[key := old(chains[key]) + [n]]
      ensures Memory() == Append(old(Memory()), key, n)
      ensures Shape() && RowsOk()
      ensures count[..] == Bumped(old(count[..]), key)
    {
      ghost var c := chains[key] + [n];
      InsertNode(key, prev[Head(key)], n, Null, c);
      chains := chains[key := c];
      assert Prefetched(key, c);
    }

    /** What MCHASH_APPEND_NODE does under the bucket's lock. */
    method JoinBucket(key: nat, n: Node)
      requires Shape() && key < buckets && RowsOk() && Counted(count[..], chains, added)
      requires Head(key) in prev
      requires Lists(Append(Memory(), key, n), key, chains[key] + [n])
      modifies this`next, this`prev, this`keyOf, this`chains, this`added, prefetch, count
      ensures AllSlots() == old(AllSlots()).(
                chains := old(chains)[key := old(chains[key]) + [n]], keyOf := old(keyOf)[n := key])
      ensures Memory() == Append(old(Memory()), key, n)
      ensures Shape() && RowsOk() && Counted(count[..], chains, added)
      ensures added == old(added)[key := old(added[key]) + 1]
    {
      CountedAfterAppend(count[..], chains, added, key, n);
      JoinAndCount(key, n);
      keyOf := keyOf[n := key];
      added := added[key := added[key] + 1];
    }

    /** The insertion, and the macro's own increment of the bucket counter. */
    method JoinAndCount(key: nat, n: Node)
      requires Shape() && key < buckets && RowsOk() && Head(key) in prev
      requires Lists(Append(Memory(), key, n), key, chains[key] + [n])
      modifies this`next, this`prev, this`chains, prefetch, count
      ensures chains == old(chains)[key := old(chains[key]) + [n]]
      ensures Memory() == Append(old(Memory()), key, n)
      ensures Shape() && RowsOk()
      ensures count[..] == Bumped(Bumped(old(count[..]), key), key)
    {
      JoinList(key, n);
      CountAgain(key);
    }

    /** The macro's own increment of the bucket counter. */
    method CountAgain(key: nat)
      requires key < count.Length
      modifies count
      ensures count[..] == Bumped(old(count[..]), key)
    {
      count[key] := (count[key] + 1) % WORD32;
    }

    /** What MCHASH_APPEND_NODE does under the table's lock. */
    method FillFirst(n: Node) returns (e: nat, ref: nat)
      requires Shape() && Sq.Queues(Queue(), free) && freeFirst != Sq.NIL && magicNo == MagicOf(appends)
      requires |born| == maxNodes
      modifies this`freeFirst, this`freeLast, this`magicNo, this`activeNodes, this`indexOf
      modifies this`free, this`born, this`appends, entryPrev, magic, node
      ensures old(free) != [] && e == old(free)[0] < maxNodes && ref == MagicOf(old(appends)) != 0
      ensures Sq.Queues(Queue(), free) && magicNo == MagicOf(appends)
      ensures activeNodes == old(activeNodes) + 1 && |old(free)| == |free| + 1
      ensures AllSlots() == old(AllSlots()).(
                indexOf := old(indexOf)[n := e], node := old(node[..])[e := Link(n)],
                magic := old(magic[..])[e := MagicOf(old(appends))], free := old(free)[1..],
                born := old(born)[e := old(appends)], appends := old(appends) + 1)
    {
      e := TakeEntry();
      FillSlot(e, n);
      ref := magic[e];
      free, born, appends := free[1..], born[e := appends], appends + 1;
    }

    /** MCHASH_APPEND_NODE once the free queue is known not to be empty. */
    method AppendToSlot(key: nat, n: Node) returns (index: nat, ref: nat)
      requires Shape() && key < buckets && RowsOk() && Counted(count[..], chains, added)
      requires Sq.Queues(Queue(), free) && freeFirst != Sq.NIL && magicNo == MagicOf(appends)
      requires Head(key) in prev && Lists(Append(Memory(), key, n), key, chains[key] + [n])
      requires |born| == maxNodes
      modifies this, count, prefetch, entryPrev, magic, node
      ensures Shape() && RowsOk() && Counted(count[..], chains, added)
      ensures Sq.Queues(Queue(), free) && magicNo == MagicOf(appends)
      ensures activeNodes == old(activeNodes) + 1 && |old(free)| == |free| + 1
      ensures old(free) != [] && old(free)[0] < maxNodes
      ensures AllSlots() == Filled(old(AllSlots()), key, n)
      ensures Memory() == Append(old(Memory()), key, n)
      ensures index == old(free)[0] && ref == MagicOf(old(appends)) != 0
      ensures added == old(added)[key := old(added[key]) + 1]
    {
      index, ref := FillFirst(n);
      JoinBucket(key, n);
    }

    /** MCHASH_APPEND_NODE. The node must not be in the table. It fails only when
        every slot is taken; otherwise the node joins the end of its bucket, in the
        slot that has been free longest, under a new magic number. */
    method AppendNode(key: nat, n: Node) returns (index: nat, ref: nat, ok: bool)
      requires Valid() && key < buckets && !Live(AllSlots(), n)
      modifies this, count, prefetch, entryPrev, magic, node
      ensures Valid()
      ensures ok <==> exists e: nat :: e < maxNodes && Empty(old(AllSlots()), e)
      ensures ok ==> IsAppend(old(AllSlots()), AllSlots(), key, n)
      ensures ok ==> Head(key) in old(prev) && Memory() == Append(old(Memory()), key, n)
      ensures ok ==> old(free) != [] && index == old(free)[0] && ref == MagicOf(old(appends)) != 0
      ensures key < |old(added)| && added == if ok then old(added)[key := old(added[key]) + 1] else old(added)
      ensures !ok ==> AllSlots() == old(AllSlots()) && Memory() == old(Memory())
    {
      SomeEmptyIff(AllSlots());
      if freeFirst == Sq.NIL {
        return 0, 0, false;
      }
      ghost var full := AppendFits(key, n);
      index, ref := AppendToSlot(key, n);
      ok := true;
      Restored(full);
    }

    /** A table whose parts are known to be in order is in order. */
    lemma Restored(sl: Slots)
      requires Shape() && SlotsOk(sl) && InAppendOrder(sl)
      requires AllLists(Memory(), sl.chains) && Sq.Queues(Queue(), sl.free)
      requires AllSlots() == sl && magicNo == MagicOf(sl.appends) && activeNodes == maxNodes - |sl.free|
      requires RowsOk() && Counted(count[..], sl.chains, added)
      ensures Valid()
    {
    }

    /** The lemmas an append rests on, for the present table. */
    ghost method AppendFits(key: nat, n: Node) returns (full: Slots)
      requires Valid() && key < buckets && free != [] && !Live(AllSlots(), n)
      ensures free[0] < maxNodes && full == Filled(AllSlots(), key, n) && SlotsOk(full) && InAppendOrder(full)
      ensures Head(key) in prev && AllLists(Append(Memory(), key, n), full.chains)
      ensures Lists(Append(Memory(), key, n), key, chains[key] + [n])
    {
      assert free[0] < maxNodes;
      assert Lists(Memory(), key, chains[key]);
      full := Filled(AllSlots(), key, n);
      AppendKeepsOrder(AllSlots(), key, n);
      FilledLists(AllSlots(), Memory(), key, n);
      assert full.chains[key] == chains[key] + [n];
    }

    /** What the delete macros do under the bucket's lock. */
    method LeaveBucket(key: nat, ghost i: nat, n: Node)
      requires Shape() && key < buckets && RowsOk() && Counted(count[..], chains, added)
      requires i < |chains[key]| && Link(n) in next && Link(n) in prev
      requires Lists(Unlink(Memory(), key, n), key, Drop(chains[key], i))
      modifies this`next, this`prev, this`chains, prefetch, count
      ensures AllSlots() == old(AllSlots()).(chains := old(chains)[key := Drop(old(chains[key]), i)])
      ensures Memory() == Unlink(old(Memory()), key, n)
      ensures Shape() && RowsOk() && Counted(count[..], chains, added)
    {
      ghost var c := Drop(chains[key], i);
      CountedAfterDelete(count[..], chains, added, key, i);
      UnlinkNode(key, n, c);
      chains := chains[key := c];
    }

    /** What the delete macros do to the slot, and its return to the free queue. */
    method EmptySlot(e: nat)
      requires Shape() && Sq.Queues(Queue(), free) && e < maxNodes && e !in free && activeNodes > 0
      modifies this`freeFirst, this`freeLast, this`activeNodes, this`free, entryNext, entryPrev, magic, node
      ensures Sq.Queues(Queue(), free) && activeNodes == old(activeNodes) - 1 && |free| == |old(free)| + 1
      ensures AllSlots() == old(AllSlots()).(
                node := old(node[..])[e := Null], magic := old(magic[..])[e := 0], free := old(free) + [e])
    {
      magic[e] := 0;
      node[e] := Null;
      activeNodes := activeNodes - 1;
      ReturnEntry(e);
      free := free + [e];
    }

    /** The stores of both delete macros once the slot is known to hold the node. */
    method RemoveStores(key: nat, ghost i: nat, e: nat, n: Node)
      requires Shape() && key < buckets && RowsOk() && Counted(count[..], chains, added)
      requires Sq.Queues(Queue(), free) && e < maxNodes && e !in free && activeNodes > 0
      requires i < |chains[key]| && n == chains[key][i] && Link(n) in next && Link(n) in prev
      requires Lists(Unlink(Memory(), key, n), key, Drop(chains[key], i))
      modifies this, count, prefetch, entryNext, entryPrev, magic, node
      ensures Shape() && RowsOk() && Counted(count[..], chains, added)
      ensures Sq.Queues(Queue(), free) && activeNodes == old(activeNodes) - 1 && |free| == |old(free)| + 1
      ensures AllSlots() == Emptied(old(AllSlots()), key, i, e) && magicNo == old(magicNo)
      ensures Memory() == Unlink(old(Memory()), key, n)
      ensures added == old(added)
    {
      LeaveBucket(key, i, n);
      EmptySlot(e);
    }

    /** The lemmas a deletion rests on, for the present table. */
    ghost method DeleteFits(key: nat, i: nat, e: nat) returns (less: Slots)
      requires Valid() && key < buckets && i < |chains[key]|
      requires e < maxNodes && node[e] == Link(chains[key][i])
      ensures less == Emptied(AllSlots(), key, i, e) && SlotsOk(less) && InAppendOrder(less)
      ensures var n := chains[key][i];
              && Link(n) in next && Link(n) in prev
              && AllLists(Unlink(Memory(), key, n), less.chains)
              && Lists(Unlink(Memory(), key, n), key, Drop(chains[key], i))
      ensures e !in free && activeNodes > 0
    {
      assert Lists(Memory(), key, chains[key]);
      assert SlotOk(AllSlots(), e);
      less := Emptied(AllSlots(), key, i, e);
      DeleteKeepsOrder(AllSlots(), key, i, e);
      EmptiedLists(AllSlots(), Memory(), key, i, e);
      assert less.chains[key] == Drop(chains[key], i);
      FreeFewer(free, maxNodes, e);
    }

    /** Both delete macros once the slot is known to hold the node. */
    method RemoveFrom(key: nat, ghost i: nat, e: nat, n: Node)
      requires Valid() && key < buckets && i < |chains[key]|
      requires e < maxNodes && n == chains[key][i] && node[e] == Link(n)
      modifies this, count, prefetch, entryNext, entryPrev, magic, node
      ensures Valid()
      ensures AllSlots() == Emptied(old(AllSlots()), key, i, e)
      ensures Link(n) in old(next) && Link(n) in old(prev)
      ensures Memory() == Unlink(old(Memory()), key, n)
      ensures added == old(added)
    {
      ghost var less := DeleteFits(key, i, e);
      RemoveStores(key, i, e, n);
      Restored(less);
    }

    /** MCHASH_DELETE_NODE, for a node that has been appended at some time. */
    method DeleteNode(n: Node) returns (ok: bool)
      requires Valid() && n in indexOf
      modifies this, count, prefetch, entryNext, entryPrev, magic, node
      ensures Valid()
      ensures ok <==> Live(old(AllSlots()), n)
      ensures ok ==> DeletedFrom(old(AllSlots()), AllSlots(), n)
      ensures ok ==> Unlinked(old(Memory()), Memory(), old(keyOf), n)
      ensures !ok ==> AllSlots() == old(AllSlots()) && Memory() == old(Memory())
      ensures added == old(added)
    {
      var key, e := keyOf[n], indexOf[n];
      assert SlotOk(AllSlots(), e);
      assert forall k: nat :: k < buckets && n in chains[k] ==> NodeOk(AllSlots(), k, n);
      if node[e] != Link(n) {
        return false;
      }
      ghost var i :| 0 <= i < |chains[key]| && chains[key][i] == n;
      ghost var sl := AllSlots();
      assert IsDelete(sl, Emptied(sl, key, i, e), key, i, e);
      RemoveFrom(key, i, e, n);
      ok := true;
    }

    /** MCHASH_DELETE_NODE_BY_REF. No append returns magic number 0; given it with a
        free slot the source follows that slot's NULL node pointer. */
    method DeleteByRef(index: nat, ref: nat) returns (r: RefDeletion)
      requires Valid() && index < maxNodes
      modifies this, count, prefetch, entryNext, entryPrev, magic, node
      ensures Valid()
      ensures r == if old(magic[index]) != ref then NoMatch else if ref == 0 then NullFollowed else Deleted
      ensures r == Deleted ==>
                old(node[index]).Link? && DeletedFrom(old(AllSlots()), AllSlots(), old(node[index]).n)
      ensures r == Deleted ==> Unlinked(old(Memory()), Memory(), old(keyOf), old(node[index]).n)
      ensures r != Deleted ==> AllSlots() == old(AllSlots()) && Memory() == old(Memory())
      ensures added == old(added)
    {
      assert SlotOk(AllSlots(), index);
      if magic[index] != ref {
        return NoMatch;
      }
      if node[index] == Null {
        return NullFollowed;
      }
      var n := node[index].n;
      var key := keyOf[n];
      ghost var i :| 0 <= i < |chains[key]| && chains[key][i] == n;
      ghost var sl := AllSlots();
      assert IsDelete(sl, Emptied(sl, key, i, index), key, i, index);
      RemoveFrom(key, i, index, n);
      r := Deleted;
    }

    /** MCHASH_ACCESS_NODE */
    method AccessNode(index: nat, ref: nat) returns (p: Ptr, ok: bool)
      requires Valid() && index < maxNodes
      ensures ok <==> magic[index] == ref
      ensures ok ==> p == node[index]
      ensures ok ==> if ref == 0 then p == Null else p.Link? && Live(AllSlots(), p.n)
    {
      assert SlotOk(AllSlots(), index);
      p, ok := Null, false;
      if ref == magic[index] {
        p, ok := node[index], true;
      }
    }

    /** MCHASH_BUCKET_NODE_COUNT. The count is too high by the number of appends
        the bucket has seen. */
    method BucketNodeCount(key: nat) returns (c: nat)
      requires Valid() && key < buckets
      ensures c == (|chains[key]| + added[key]) % WORD32
    {
      c := count[key];
    }

    /** mchash_table_delete, which refuses as long as any bucket holds a node. */
    method TableDelete() returns (ok: bool)
      requires Valid()
      ensures ok <==> forall k: nat :: k < buckets ==> chains[k] == []
    {
      ok := activeNodes == 0;
      AllFreeIff(AllSlots());
    }

    /** The loop of mchash_table_create over the indirection array. */
    method InitEntries()
      requires Apart() && 0 < maxNodes
      requires node.Length == magic.Length == entryNext.Length == entryPrev.Length == maxNodes
      modifies entryNext, entryPrev, magic, node
      ensures node[..] == seq(maxNodes, _ => Null) && magic[..] == seq(maxNodes, _ => 0)
      ensures Sq.Queues(Sq.FreeQ(entryNext[..], entryPrev[..], 0, maxNodes - 1), seq(maxNodes, i => i))
    {
      var ii := 0;
      while ii < maxNodes
        invariant 0 <= ii <= maxNodes
        invariant forall e :: 0 <= e < ii ==> node[e] == Null && magic[e] == 0
        invariant forall e :: 0 <= e < ii ==>
                    && entryNext[e] == (if e + 1 < maxNodes then e + 1 else Sq.NIL)
                    && entryPrev[e] == (if e == 0 then Sq.NIL else e - 1)
      {
        if ii != maxNodes - 1 {
          entryNext[ii] := ii + 1;
        } else {
          entryNext[ii] := Sq.NIL;
        }
        if ii != 0 {
          entryPrev[ii] := ii - 1;
        } else {
          entryPrev[ii] := Sq.NIL;
        }
        node[ii] := Null;
        magic[ii] := 0;
        ii := ii + 1;
      }
      ghost var q, all := Sq.FreeQ(entryNext[..], entryPrev[..], 0, maxNodes - 1), seq(maxNodes, i => i);
      assert forall i: nat :: i < maxNodes ==> Sq.EntryOk(q, all, i);
    }

    /** The loops of mchash_table_create over the buckets. */
    method InitBuckets()
      requires count.Length == prefetch.Length0 == buckets && prefetch.Length1 == CACHED
      requires next == prev == map[]
      modifies this`next, this`prev, count, prefetch
      ensures AllLists(Memory(), seq(buckets, _ => []))
      ensures count[..] == seq(buckets, _ => 0)
      ensures forall k: nat :: k < buckets ==> Prefetched(k, [])
    {
      var ii := 0;
      while ii < buckets
        invariant 0 <= ii <= buckets
        invariant forall k: nat :: k < ii ==>
                    Head(k) in next && next[Head(k)] == Null && Head(k) in prev && prev[Head(k)] == Null
        invariant forall k :: 0 <= k < ii ==> count[k] == 0
        invariant forall k, j :: 0 <= k < ii && 0 <= j < CACHED ==> prefetch[k, j] == Null
      {
        prev := prev[Head(ii) := Null];
        next := next[Head(ii) := Null];
        count[ii] := 0;
        var jj := 0;
        while jj < CACHED
          modifies prefetch
          invariant 0 <= jj <= CACHED
          invariant forall j :: 0 <= j < jj ==> prefetch[ii, j] == Null
          invariant forall k, j :: 0 <= k < ii && 0 <= j < CACHED ==> prefetch[k, j] == Null
        {
          prefetch[ii, jj] := Null;
          jj := jj + 1;
        }
        ii := ii + 1;
      }
    }

    /** mchash_table_create */
    constructor (buckets: nat, maxNodes: nat)
      requires buckets > 0 && 0 < maxNodes < WORD32
      ensures Valid() && this.buckets == buckets && this.maxNodes == maxNodes
      ensures AllSlots() == NewSlots(buckets, maxNodes) && added == seq(buckets, _ => 0)
      ensures fresh(count) && fresh(prefetch) && fresh(entryNext) && fresh(entryPrev)
      ensures fresh(magic) && fresh(node)
    {
      this.buckets, this.maxNodes := buckets, maxNodes;
      next, prev, keyOf, indexOf := map[], map[], map[], map[];
      count := new nat[buckets];
      prefetch := new Ptr[buckets, CACHED];
      entryNext := new int[maxNodes];
      entryPrev := new int[maxNodes];
      magic := new nat[maxNodes];
      node := new Ptr[maxNodes];
      freeLast, freeFirst := maxNodes - 1, 0;
      magicNo, activeNodes := 1, 0;
      chains, free := seq(buckets, _ => []), seq(maxNodes, i => i);
      born, appends, added := seq(maxNodes, _ => 0), 0, seq(buckets, _ => 0);
      new;
      Init();
    }

    /** The part of mchash_table_create that fills the allocated memory. */
    method Init()
      requires Shape() && chains == seq(buckets, _ => []) && free == seq(maxNodes, i => i)
      requires next == prev == map[] && keyOf == indexOf == map[]
      requires freeFirst == 0 && freeLast == maxNodes - 1 && magicNo == 1 && activeNodes == 0
      requires born == seq(maxNodes, _ => 0) && appends == 0 && added == seq(buckets, _ => 0)
      modifies this`next, this`prev, count, prefetch, entryNext, entryPrev, magic, node
      ensures Valid() && AllSlots() == NewSlots(buckets, maxNodes)
    {
      InitEntries();
      InitBuckets();
      NewSlotsOk(buckets, maxNodes);
      Restored(NewSlots(buckets, maxNodes));
    }
  }

  /** The memory after the stores that take a node out of its bucket. */
  ghost predicate Unlinked(mem: Mem, mem': Mem, keyOf: map<Node, nat>, n: Node) {
    && n in keyOf && Link(n) in mem.next && Link(n) in mem.prev
    && mem' == Unlink(mem, keyOf[n], n)
  }

  /** The slots after the deletion of one node, from its bucket and its slot. */
  ghost predicate DeletedFrom(sl: Slots, sl': Slots, n: Node) {
    && SlotsOk(sl) && n in sl.keyOf && n in sl.indexOf
    && exists i: nat :: IsDelete(sl, sl', sl.keyOf[n], i, sl.indexOf[n]) && sl.chains[sl.keyOf[n]][i] == n
  }

  /** One append to a new table, and the counter of its bucket says 2. */
  method CountsTwo() returns (c: nat)
    ensures c == 2
  {
    var table := new Table(1, 1);
    assert Empty(table.AllSlots(), 0);
    var index, ref, ok := table.AppendNode(0, 7);
    assert table.added[0] == 1;
    c := table.BucketNodeCount(0);
  }

  /** The bucket counter that the interface documents as the number of nodes is
      right exactly when the bucket has seen a multiple of 2^32 appends, in
      practice before the first. */
  lemma CountIsRightIff(count: seq<nat>, chains: seq<seq<Node>>, added: seq<nat>, key: nat)
    requires Counted(count, chains, added) && key < |chains| && |chains[key]| < WORD32
    ensures count[key] == |chains[key]| <==> added[key] % WORD32 == 0
  {
  }

  /** All slots are free exactly when no bucket holds a node. */
  lemma AllFreeIff(sl: Slots)
    requires SlotsOk(sl) && Distinct(sl.free) && |sl.free| <= |sl.node|
    ensures |sl.free| == |sl.node| <==> forall k: nat :: k < |sl.chains| ==> sl.chains[k] == []
  {
    if e: nat :| e < |sl.node| && e !in sl.free {
      assert SlotOk(sl, e);
      FreeFewer(sl.free, |sl.node|, e);
    } else {
      forall k: nat | k < |sl.chains|
        ensures sl.chains[k] == []
      {
        if sl.chains[k] != [] {
          FilledNotFree(sl, k, 0);
        }
      }
      AllAreMany(sl.free, |sl.node|);
    }
  }

  lemma FilledNotFree(sl: Slots, k: nat, i: nat)
    requires SlotsOk(sl) && k < |sl.chains| && i < |sl.chains[k]|
    ensures exists e: nat :: e < |sl.node| && e !in sl.free
  {
    var n := sl.chains[k][i];
    assert NodeOk(sl, k, n) && SlotOk(sl, sl.indexOf[n]);
  }

  lemma {:induction false} AllAreMany(free: seq<nat>, slots: nat)
    requires forall e: nat :: e < slots ==> e in free
    ensures |free| >= slots
  {
    if slots == 0 {
    } else {
      var top: nat := slots - 1;
      assert top in free;
      var k :| 0 <= k < |free| && free[k] == top;
      var rest := free[..k] + free[k + 1..];
      forall e: nat | e < top
        ensures e in rest
      {
        assert e in free;
      }
      AllAreMany(rest, top);
    }
  }

  /** Distinct free slots that miss a slot are fewer than the slots. */
  lemma FreeFewer(free: seq<nat>, slots: nat, e: nat)
    requires Distinct(free) && (forall i: nat :: i < |free| ==> free[i] < slots) && e < slots && e !in free
    ensures |free| < slots
  {
    DistinctBelow(free, slots - 1, e);
  }

  lemma {:induction false} DistinctBelow(free: seq<nat>, top: nat, e: nat)
    requires Distinct(free) && (forall i: nat :: i < |free| ==> free[i] <= top) && e <= top && e !in free
    ensures |free| <= top
  {
    if top == 0 {
      assert forall x <- free :: x == e;
      assert |free| > 0 ==> exists x :: x in free;
    } else if top in free {
      var k :| 0 <= k < |free| && free[k] == top;
      DistinctBelow(free[..k] + free[k + 1..], top - 1, e);
    } else if e == top {
      if |free| > 0 {
        DistinctBelow(free[1..], top - 1, free[0]);
      }
    } else {
      DistinctBelow(free, top - 1, e);
    }
  }
}
