/**
 The free queue of the hash table's indirection array: a doubly linked list threaded
 through the array entries by index, taken from the front and refilled at the back.
 */
module SlotQueue {
  import opened Sequences

  // A NULL pointer to an entry.
  const NIL: int := -1

  /** The next_p and prev_p fields of the entries, and the two of free_q. */
  datatype FreeQ = FreeQ(next: seq<int>, prev: seq<int>, first: int, last: int)

  ghost predicate EntryOk(q: FreeQ, free: seq<nat>, i: nat)
    requires i < |free|
  {
    && free[i] < |q.next| == |q.prev|
    && q.next[free[i]] == (if i + 1 < |free| then free[i + 1] else NIL)
    && q.prev[free[i]] == (if i == 0 then NIL else free[i - 1])
  }

  /** The queue holds exactly the entries `free`, front to back. */
  ghost predicate Queues(q: FreeQ, free: seq<nat>) {
    && |q.next| == |q.prev|
    && Distinct(free)
    && (forall i: nat :: i < |free| ==> EntryOk(q, free, i))
    && q.first == (if free == [] then NIL else free[0])
    && q.last == (if free == [] then NIL else free[|free| - 1])
  }

  predicate HasFirst(q: FreeQ) {
    0 <= q.first < |q.next| == |q.prev| && NIL <= q.next[q.first] < |q.next|
  }

  /** MCHASH_APPEND_NODE takes the first entry. */
  function Pop(q: FreeQ): FreeQ
    requires HasFirst(q)
  {
    var first := q.next[q.first];
    if first == NIL then q.(first := first, last := NIL)
    else q.(first := first, prev := q.prev[first := NIL])
  }

  /** The delete macros put an entry back behind the last. */
  function Push(q: FreeQ, e: nat): FreeQ
    requires e < |q.next| == |q.prev| && NIL <= q.last < |q.next|
  {
    if q.last != NIL then
      FreeQ(q.next[e := NIL][q.last := e], q.prev[e := q.last], q.first, e)
    else
      FreeQ(q.next[e := NIL], q.prev[e := NIL], e, e)
  }

  lemma PopQueues(q: FreeQ, free: seq<nat>)
    requires Queues(q, free) && free != []
    ensures HasFirst(q) && Queues(Pop(q), free[1..])
  {
    assert EntryOk(q, free, 0);
    if |free| > 1 {
      assert EntryOk(q, free, 1);
    }
    var rest := free[1..];
    forall i: nat | i < |rest|
      ensures EntryOk(Pop(q), rest, i)
    {
      assert EntryOk(q, free, i + 1);
    }
  }

  lemma PushQueues(q: FreeQ, free: seq<nat>, e: nat)
    requires Queues(q, free) && e < |q.next| && e !in free
    ensures NIL <= q.last < |q.next| && Queues(Push(q, e), free + [e])
  {
    if free != [] {
      assert EntryOk(q, free, |free| - 1);
    }
    var all := free + [e];
    forall i: nat | i < |all|
      ensures EntryOk(Push(q, e), all, i)
    {
      if i < |free| {
        assert EntryOk(q, free, i);
      }
    }
  }
}
