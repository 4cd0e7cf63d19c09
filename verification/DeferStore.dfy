/**
 One defer queue shared by two: its owner, who tests the tail, stores the words of a
 call one at a time and then publishes them by storing the head; and whoever drains
 it under the mutex, who loads the words one at a time up to a head taken earlier
 and then stores the tail. Each store or load is one step, and the two interleave.
 */
module DeferStore {
  import opened DeferCodec
  import opened DeferRing

  /** struct defer_queue. The last six are history variables: the calls published so
      far, their words, and where each record begins and the last one ends; the calls
      that ran; and how many of them had run, and from which position on words were
      left, at the last store to the tail. */
  datatype Queue = Queue(
    head: Word,
    lastIn: Word,
    tail: Word,
    lastOut: Word,
    ring: seq<Word>,
    calls: seq<Call>,
    words: seq<Word>,
    marks: seq<nat>,
    ran: seq<Call>,
    low: nat,
    from: nat)

  /** The owner inside defer_rcu: `n` of the words `e` are stored, `h` is its local
      head. */
  datatype Owner = Resting | Storing(c: Call, e: seq<Word>, n: nat, h: Word)

  /** What the drain loop loads next. */
  datatype Form = First | Function | Data

  datatype Drainer = Away | At(i: Word, form: Form)

  /** A head loaded by a drainer, and how many calls had been published then. */
  datatype Goal = Goal(head: Word, n: nat)

  function NewQueue(): Queue {
    Queue(0, 0, 0, 0, seq(SIZE, _ => 0), [], [], [0], [], 0, 0)
  }

  function MarkAt(marks: seq<nat>, k: nat): nat { if k < |marks| then marks[k] else 0 }

  // ------------------------------------------------------------------- steps

  predicate TooFull(h: Word, t: Word) { Minus(h, t) >= SIZE - 2 }

  function Start(q: Queue, c: Call): Owner {
    Storing(c, Encode(q.lastIn, c), 0, q.head)
  }

  function Started(q: Queue, c: Call): Queue {
    q.(lastIn := c.fct)
  }

  predicate CanStore(q: Queue, o: Owner) {
    o.Storing? && o.n < |o.e| && |q.ring| == SIZE
  }

  function StoreNext(q: Queue, o: Owner): Queue
    requires CanStore(q, o)
  {
    q.(ring := q.ring[Slot(o.h) := o.e[o.n]])
  }

  function StoredNext(o: Owner): Owner
    requires o.Storing?
  {
    o.(n := o.n + 1, h := Inc(o.h))
  }

  function Publish(q: Queue, o: Owner): Queue
    requires o.Storing?
  {
    q.(head := o.h, calls := q.calls + [o.c], words := q.words + o.e, marks := q.marks + [|q.words + o.e|])
  }

  predicate AtEnd(d: Drainer, goal: Word) {
    d.At? && d.form == First && d.i == goal
  }

  function Run(q: Queue, p: Word): Queue {
    q.(ran := q.ran + [Call(q.lastOut, p)])
  }

  /** One step of rcu_defer_barrier_queue: one load and what follows it, or the store
      to the tail. */
  function Drained(q: Queue, d: Drainer, goal: Word): Queue
    requires d.At? && |q.ring| == SIZE
  {
    var p := q.ring[Slot(d.i)];
    match d.form
    case First =>
      if d.i == goal then q.(tail := d.i, low := |q.ran|, from := MarkAt(q.marks, |q.ran|))
      else if IsFctBit(p) then q.(lastOut := ClearFctBit(p))
      else if p == MARK then q
      else Run(q, p)
    case Function => q.(lastOut := p)
    case Data => Run(q, p)
  }

  function DrainedTo(q: Queue, d: Drainer, goal: Word): Drainer
    requires d.At? && |q.ring| == SIZE
  {
    var p := q.ring[Slot(d.i)];
    match d.form
    case First =>
      if d.i == goal then Away
      else At(Inc(d.i), if IsFctBit(p) then Data else if p == MARK then Function else First)
    case Function => At(Inc(d.i), Data)
    case Data => At(Inc(d.i), First)
  }

  // --------------------------------------------------------------- invariants

  /** last_fct_in before call `k`. */
  function Before(calls: seq<Call>, k: nat): Word
    requires k <= |calls|
  {
    if k == 0 then 0 else calls[k - 1].fct
  }

  predicate RecordOk(calls: seq<Call>, words: seq<Word>, marks: seq<nat>, k: nat)
    requires k < |calls| && |marks| == |calls| + 1
  {
    && marks[k] < marks[k + 1] <= |words|
    && ReadsAs(words, marks[k], marks[k + 1], Before(calls, k), calls[k])
  }

  /** The words are those of the calls, record by record. */
  ghost predicate Marked(calls: seq<Call>, words: seq<Word>, marks: seq<nat>) {
    && |marks| == |calls| + 1 && marks[0] == 0 && marks[|calls|] == |words|
    && forall k: nat :: k < |calls| ==> RecordOk(calls, words, marks, k)
  }

  ghost predicate Encoded(q: Queue) {
    q.words == Words(q.calls) && Marked(q.calls, q.words, q.marks)
  }

  ghost predicate Shape(q: Queue) {
    && |q.ring| == SIZE
    && q.low <= |q.ran| <= |q.calls| && q.ran == q.calls[..|q.ran|]
    && |q.marks| == |q.calls| + 1 && q.from == q.marks[q.low]
    && q.head == AsWord(|q.words|) && q.tail == AsWord(q.from)
    && q.from <= |q.words| <= q.from + SIZE
  }

  /** Every word not yet given up by the tail is in the ring, with those the owner has
      stored but not published. */
  ghost predicate OwnerOk(q: Queue, o: Owner) {
    match o
    case Resting => q.lastIn == Before(q.calls, |q.calls|) && Holds(q.ring, q.from, q.words)
    case Storing(c, e, n, h) =>
      && q.lastIn == c.fct && e == Encode(Before(q.calls, |q.calls|), c) && n <= |e|
      && h == AsWord(|q.words| + n) && |q.words| + |e| <= q.from + SIZE
      && Holds(q.ring, q.from, q.words + e[..n])
  }

  ghost predicate GoalOk(q: Queue, g: Goal) {
    |q.ran| <= g.n <= |q.calls| < |q.marks| && g.head == AsWord(q.marks[g.n])
  }

  ghost predicate DrainerOk(q: Queue, d: Drainer, n: nat) {
    |q.ran| <= n <= |q.calls| < |q.marks| && Reading(q.calls, q.words, q.marks, |q.ran|, q.low, q.lastOut, d, n)
  }

  /** `k` calls have run. The drainer stands at a record boundary, or in the middle of
      a record whose earlier words it has understood. */
  predicate Reading(calls: seq<Call>, words: seq<Word>, marks: seq<nat>, k: nat, low: nat, last: Word, d: Drainer,
                    n: nat)
    requires k <= n <= |calls| < |marks|
  {
    match d
    case Away => low == k && last == Before(calls, k)
    case At(i, First) => i == AsWord(marks[k]) && last == Before(calls, k)
    case At(i, Function) => k < n && Midway(words, calls[k], marks[k], marks[k + 1], i, 2)
    case At(i, Data) => k < n && Midway(words, calls[k], marks[k], marks[k + 1], i, 1) && last == calls[k].fct
  }

  /** `left` words of the record of `c`, which lies between `begin` and `end`, are still
      to be loaded, from `i` on: its function and its data, or its data. */
  predicate Midway(words: seq<Word>, c: Call, begin: nat, end: nat, i: Word, left: nat) {
    && begin + left < end <= |words| && 0 < left <= 2 && i == AsWord(end - left)
    && words[end - 1] == c.data && (left == 2 ==> words[end - 2] == c.fct)
  }

  ghost predicate Inv(q: Queue, o: Owner, d: Drainer, n: nat) {
    Shape(q) && Encoded(q) && OwnerOk(q, o) && DrainerOk(q, d, n)
  }

  lemma NewQueueInv()
    ensures Inv(NewQueue(), Resting, Away, 0)
  {
  }

  lemma {:induction false} MarksGrow(calls: seq<Call>, words: seq<Word>, marks: seq<nat>, m: nat, n: nat)
    requires Marked(calls, words, marks) && m <= n <= |calls|
    ensures marks[m] + (n - m) <= marks[n] <= |words|
    decreases n - m
  {
    if m == n {
      if n < |calls| {
        assert RecordOk(calls, words, marks, n);
      }
    } else {
      assert RecordOk(calls, words, marks, m);
      MarksGrow(calls, words, marks, m + 1, n);
    }
  }

  /** What the words head and tail say; the first assertion of defer_rcu holds. */
  lemma TestIsExact(q: Queue)
    requires Shape(q) && Encoded(q)
    ensures Minus(q.head, q.tail) == |q.words| - q.from <= SIZE
    ensures q.head == q.tail <==> q.low == |q.calls|
  {
    MarksGrow(q.calls, q.words, q.marks, q.low, |q.calls|);
    Distance(q.from, |q.words|);
  }

  // The owner's steps.

  lemma StartKeepsInv(q: Queue, d: Drainer, n: nat, c: Call)
    requires Inv(q, Resting, d, n) && !TooFull(q.head, q.tail)
    ensures Inv(Started(q, c), Start(q, c), d, n)
  {
    TestIsExact(q);
    RecordRoundTrip(q.lastIn, c, []);
    assert q.words + Encode(q.lastIn, c)[..0] == q.words;
  }

  lemma StoreKeepsOwner(q: Queue, o: Owner)
    requires OwnerOk(q, o) && CanStore(q, o)
    ensures OwnerOk(StoreNext(q, o), StoredNext(o))
  {
    var w := q.words + o.e[..o.n];
    SlotOfWord(|w|);
    StoreHolds(q.ring, q.from, w, o.e[o.n]);
    assert w + [o.e[o.n]] == q.words + o.e[..o.n + 1];
  }

  /** Each store keeps the ring in order, whatever the drainer is doing. */
  lemma StoreKeepsInv(q: Queue, o: Owner, d: Drainer, n: nat)
    requires Inv(q, o, d, n) && CanStore(q, o)
    ensures Inv(StoreNext(q, o), StoredNext(o), d, n)
  {
    StoreKeepsOwner(q, o);
  }

  lemma RecordStays(calls: seq<Call>, words: seq<Word>, marks: seq<nat>, c: Call, e: seq<Word>, k: nat)
    requires k < |calls| && |marks| == |calls| + 1 && RecordOk(calls, words, marks, k)
    ensures RecordOk(calls + [c], words + e, marks + [|words + e|], k)
  {
  }

  lemma RecordAdded(words: seq<Word>, last: Word, c: Call)
    ensures var e := Encode(last, c); ReadsAs(words + e, |words|, |words + e|, last, c) && e != []
  {
  }

  lemma PublishKeepsMarks(calls: seq<Call>, words: seq<Word>, marks: seq<nat>, c: Call)
    requires Marked(calls, words, marks)
    ensures var e := Encode(Before(calls, |calls|), c);
            Marked(calls + [c], words + e, marks + [|words + e|])
  {
    var e := Encode(Before(calls, |calls|), c);
    RecordAdded(words, Before(calls, |calls|), c);
    forall k: nat | k < |calls| + 1
      ensures RecordOk(calls + [c], words + e, marks + [|words + e|], k)
    {
      if k < |calls| {
        RecordStays(calls, words, marks, c, e, k);
      }
    }
  }

  lemma PublishKeepsWords(q: Queue, o: Owner)
    requires q.words == Words(q.calls) && OwnerOk(q, o) && o.Storing?
    ensures Publish(q, o).words == Words(Publish(q, o).calls)
  {
    OneMoreCall(q.calls, o.c);
  }

  lemma PublishKeepsOwner(q: Queue, o: Owner)
    requires Shape(q) && OwnerOk(q, o) && o.Storing? && o.n == |o.e|
    ensures Shape(Publish(q, o)) && OwnerOk(Publish(q, o), Resting)
  {
    assert o.e[..o.n] == o.e;
    assert q.ran == (q.calls + [o.c])[..|q.ran|];
  }

  lemma PublishKeepsDrainer(q: Queue, o: Owner, d: Drainer, n: nat)
    requires Marked(q.calls, q.words, q.marks) && DrainerOk(q, d, n) && o.Storing?
    ensures DrainerOk(Publish(q, o), d, n)
  {
  }

  lemma PublishKeepsGoal(q: Queue, o: Owner, g: Goal)
    requires GoalOk(q, g) && o.Storing?
    ensures GoalOk(Publish(q, o), g)
  {
  }

  lemma PublishKeepsInv(q: Queue, o: Owner, d: Drainer, n: nat)
    requires Inv(q, o, d, n) && o.Storing? && o.n == |o.e|
    ensures Inv(Publish(q, o), Resting, d, n)
  {
    PublishKeepsMarks(q.calls, q.words, q.marks, o.c);
    PublishKeepsWords(q, o);
    PublishKeepsOwner(q, o);
    PublishKeepsDrainer(q, o, d, n);
  }

  // The drainer's steps.

  /** The loads see what was stored, whatever the owner has added meanwhile. */
  lemma LoadsWhatWasStored(q: Queue, o: Owner, k: nat)
    requires OwnerOk(q, o) && q.from <= k < |q.words|
    ensures |q.ring| == SIZE && q.ring[Slot(AsWord(k))] == q.words[k]
  {
    if o.Storing? {
      LoadHeld(q.ring, q.from, q.words + o.e[..o.n], k);
    } else {
      LoadHeld(q.ring, q.from, q.words, k);
    }
  }

  lemma BeginDrain(q: Queue, o: Owner, n: nat, g: Goal)
    requires Inv(q, o, Away, n) && GoalOk(q, g)
    ensures Inv(q, o, At(q.tail, First), g.n)
  {
  }

  lemma RunsNext(q: Queue, p: Word)
    requires Shape(q) && |q.ran| < |q.calls| && Call(q.lastOut, p) == q.calls[|q.ran|]
    ensures Shape(Run(q, p)) && Run(q, p).ran == q.ran + [q.calls[|q.ran|]]
  {
    OneLonger(q.calls, |q.ran|);
  }

  /** The loads of a record: its first word tells the form, the later ones bring the
      function and the data. */
  lemma FirstLoad(q: Queue, o: Owner, i: Word)
    requires Shape(q) && Marked(q.calls, q.words, q.marks) && OwnerOk(q, o) && |q.ran| < |q.calls|
    requires i == AsWord(q.marks[|q.ran|])
    ensures var k := |q.ran|;
            && RecordOk(q.calls, q.words, q.marks, k)
            && q.ring[Slot(i)] == q.words[q.marks[k]] && Inc(i) == AsWord(q.marks[k] + 1)
  {
    MarksGrow(q.calls, q.words, q.marks, q.low, |q.ran|);
    assert RecordOk(q.calls, q.words, q.marks, |q.ran|);
    SlotOfWord(q.marks[|q.ran|]);
    LoadsWhatWasStored(q, o, q.marks[|q.ran|]);
  }

  lemma LaterLoad(q: Queue, o: Owner, c: Call, begin: nat, end: nat, i: Word, left: nat)
    requires OwnerOk(q, o) && q.from <= begin && Midway(q.words, c, begin, end, i, left)
    ensures |q.ring| == SIZE && q.ring[Slot(i)] == q.words[end - left]
    ensures left == 2 ==> Midway(q.words, c, begin, end, Inc(i), 1)
    ensures left == 1 ==> Inc(i) == AsWord(end)
  {
    SlotOfWord(end - left);
    LoadsWhatWasStored(q, o, end - left);
  }

  /** After a step on the way to `g` the drainer is one word further, and has run at
      most the next call. */
  ghost predicate WellDrained(q: Queue, d: Drainer, g: Goal)
    requires d.At? && |q.ring| == SIZE
  {
    var q', d' := Drained(q, d, g.head), DrainedTo(q, d, g.head);
    && Shape(q') && DrainerOk(q', d', g.n) && d'.At? && d'.i == Inc(d.i)
    && (q'.ran == q.ran || (|q.ran| < g.n <= |q.calls| && q'.ran == q.ran + [q.calls[|q.ran|]]))
  }

  lemma FirstLoadKeeps(q: Queue, o: Owner, d: Drainer, g: Goal)
    requires Shape(q) && Marked(q.calls, q.words, q.marks) && OwnerOk(q, o) && DrainerOk(q, d, g.n)
    requires |q.ran| < g.n && d.At? && d.form == First && d.i != g.head
    ensures WellDrained(q, d, g)
  {
    FirstLoad(q, o, d.i);
    if !IsFctBit(q.ring[Slot(d.i)]) && q.ring[Slot(d.i)] != MARK {
      RunsNext(q, q.ring[Slot(d.i)]);
    }
  }

  lemma FunctionLoadKeeps(q: Queue, o: Owner, d: Drainer, g: Goal)
    requires Shape(q) && Marked(q.calls, q.words, q.marks) && OwnerOk(q, o) && DrainerOk(q, d, g.n)
    requires d.At? && d.form == Function
    ensures WellDrained(q, d, g)
  {
    var k := |q.ran|;
    MarksGrow(q.calls, q.words, q.marks, q.low, k);
    LaterLoad(q, o, q.calls[k], q.marks[k], q.marks[k + 1], d.i, 2);
  }

  lemma DataLoadKeeps(q: Queue, o: Owner, d: Drainer, g: Goal)
    requires Shape(q) && Marked(q.calls, q.words, q.marks) && OwnerOk(q, o) && DrainerOk(q, d, g.n)
    requires d.At? && d.form == Data
    ensures WellDrained(q, d, g)
  {
    var k := |q.ran|;
    MarksGrow(q.calls, q.words, q.marks, q.low, k);
    LaterLoad(q, o, q.calls[k], q.marks[k], q.marks[k + 1], d.i, 1);
    RunsNext(q, q.ring[Slot(d.i)]);
  }

  /** The loop test, i != head, is exact: between boundaries the ring holds, equal words
      are equal boundaries, although the loop moves by one, two or three words. */
  lemma LoopTest(q: Queue, g: Goal, k: nat)
    requires Shape(q) && Marked(q.calls, q.words, q.marks) && GoalOk(q, g) && |q.ran| <= k <= g.n
    ensures q.from <= q.marks[k] <= q.marks[g.n] <= q.from + SIZE
    ensures AsWord(q.marks[k]) == g.head <==> k == g.n
    ensures Minus(g.head, AsWord(q.marks[k])) == q.marks[g.n] - q.marks[k]
  {
    MarksGrow(q.calls, q.words, q.marks, q.low, k);
    MarksGrow(q.calls, q.words, q.marks, k, g.n);
    Distance(q.marks[k], q.marks[g.n]);
  }

  lemma LoadKeepsDrainer(q: Queue, o: Owner, d: Drainer, g: Goal)
    requires Shape(q) && Marked(q.calls, q.words, q.marks) && OwnerOk(q, o) && DrainerOk(q, d, g.n)
    requires GoalOk(q, g) && d.At? && !AtEnd(d, g.head)
    ensures WellDrained(q, d, g)
  {
    match d.form
    case First =>
      LoopTest(q, g, |q.ran|);
      FirstLoadKeeps(q, o, d, g);
    case Function => FunctionLoadKeeps(q, o, d, g);
    case Data => DataLoadKeeps(q, o, d, g);
  }

  /** The loop test fails exactly when everything up to the goal has run; the store to
      the tail then gives the words up. */
  lemma TailStoreKeepsInv(q: Queue, o: Owner, d: Drainer, g: Goal)
    requires Inv(q, o, d, g.n) && GoalOk(q, g) && AtEnd(d, g.head)
    ensures |q.ran| == g.n && DrainedTo(q, d, g.head) == Away
    ensures Inv(Drained(q, d, g.head), o, Away, g.n)
    ensures q.head == q.tail ==> Drained(q, d, g.head).tail == q.tail
  {
    LoopTest(q, g, |q.ran|);
    TestIsExact(q);
    MarksGrow(q.calls, q.words, q.marks, g.n, |q.calls|);
    if o.Storing? {
      HoldsLater(q.ring, q.from, q.marks[g.n], q.words + o.e[..o.n]);
    } else {
      HoldsLater(q.ring, q.from, q.marks[g.n], q.words);
    }
  }

  lemma LoadTouchesLittle(q: Queue, o: Owner, d: Drainer, goal: Word)
    requires d.At? && |q.ring| == SIZE && !AtEnd(d, goal) && Encoded(q) && OwnerOk(q, o)
    ensures var q' := Drained(q, d, goal);
            && Encoded(q') && OwnerOk(q', o)
            && q'.calls == q.calls && q'.marks == q.marks && q'.head == q.head && q'.tail == q.tail
  {
  }

  /** Every step of the drain loop keeps the ring in order, whatever the owner is
      doing, and runs at most the next published call. */
  lemma DrainKeepsInv(q: Queue, o: Owner, d: Drainer, g: Goal)
    requires Inv(q, o, d, g.n) && GoalOk(q, g) && d.At?
    ensures var q', d' := Drained(q, d, g.head), DrainedTo(q, d, g.head);
            && Inv(q', o, d', g.n) && GoalOk(q', g)
            && (d' == Away <==> AtEnd(d, g.head)) && (d' == Away ==> |q'.ran| == g.n)
            && q'.calls == q.calls && q'.head == q.head
            && (q'.ran == q.ran || (|q.ran| < g.n && q'.ran == q.ran + [q.calls[|q.ran|]]))
            && (q.head == q.tail ==> q'.tail == q.tail)
  {
    if AtEnd(d, g.head) {
      TailStoreKeepsInv(q, o, d, g);
    } else {
      LoadKeepsDrainer(q, o, d, g);
      LoadTouchesLittle(q, o, d, g.head);
    }
  }

  /** Where the drainer is, as a position. */
  lemma Position(q: Queue, d: Drainer, g: Goal) returns (pos: nat)
    requires Shape(q) && Marked(q.calls, q.words, q.marks) && DrainerOk(q, d, g.n) && GoalOk(q, g) && d.At?
    ensures d.i == AsWord(pos) && q.from <= pos <= q.marks[g.n] <= q.from + SIZE
    ensures d.form != First ==> pos < q.marks[g.n]
  {
    var k := |q.ran|;
    LoopTest(q, g, k);
    if d.form == First {
      pos := q.marks[k];
    } else {
      LoopTest(q, g, k + 1);
      pos := q.marks[k + 1] - if d.form == Function then 2 else 1;
    }
  }

  /** The drain loop ends, and exactly at the head it was given: although it tests
      `i != head` only between records and moves by one to three words, every load
      brings it one word closer, and it never steps over the head. */
  lemma DrainLoopEnds(q: Queue, o: Owner, d: Drainer, g: Goal)
    requires Inv(q, o, d, g.n) && GoalOk(q, g) && d.At? && !AtEnd(d, g.head)
    ensures DrainedTo(q, d, g.head).At?
    ensures Minus(g.head, DrainedTo(q, d, g.head).i) == Minus(g.head, d.i) - 1
  {
    var pos := Position(q, d, g);
    LoadKeepsDrainer(q, o, d, g);
    SlotOfWord(pos);
    Distance(pos, q.marks[g.n]);
    assert pos < q.marks[g.n];
    Distance(pos + 1, q.marks[g.n]);
  }

  /** No store of the owner touches a word that a drainer may still have to load. */
  lemma NeverOverwrites(q: Queue, o: Owner, k: nat)
    requires OwnerOk(q, o) && CanStore(q, o) && q.from <= k < |q.words|
    ensures Slot(o.h) != Slot(AsWord(k))
  {
    SlotOfWord(|q.words| + o.n);
    SlotOfWord(k);
    DifferentSlots(k, |q.words| + o.n);
  }

  /** Once everything published has run, decoder and encoder agree on the function. */
  lemma FunctionsAgree(q: Queue, n: nat)
    requires Inv(q, Resting, Away, n) && |q.ran| == |q.calls|
    ensures q.lastOut == q.lastIn && q.ran == q.calls && q.head == q.tail
  {
    assert q.calls[..|q.calls|] == q.calls;
    TestIsExact(q);
  }
}
