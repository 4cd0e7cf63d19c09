/**
 The per-thread queue of urcu-defer-impl.h as an object, as its owner sees it when
 nobody else drains it: struct defer_queue with its array, defer_rcu and the loop
 of rcu_defer_barrier_queue. Running a callback appends it to `ran`.
 */
module DeferQueue {
  import opened DeferCodec
  import opened DeferRing

  class Queue {
    var head: Word
    var lastIn: Word
    var tail: Word
    var lastOut: Word
    const q: array<Word>
    var ran: seq<Call>

    // All calls ever deferred, and how many of them have run.
    ghost var calls: seq<Call>
    ghost var done: nat

    ghost predicate Valid()
      reads this, q
    {
      && q.Length == SIZE
      && done <= |calls|
      && head == AsWord(|Words(calls)|) && lastIn == LastFct(calls)
      && tail == AsWord(Boundary(calls, done)) && lastOut == LastFct(calls[..done])
      && Holds(q[..], Boundary(calls, done), Words(calls))
      && ran == calls[..done]
    }

    /** rcu_defer_register_thread, for a thread that was not registered before. */
    constructor ()
      ensures Valid() && calls == [] && ran == [] && fresh(q)
    {
      head, lastIn, tail, lastOut := 0, 0, 0, 0;
      q := new Word[SIZE](_ => 0);
      ran, calls, done := [], [], 0;
    }

    /** `_CMM_STORE_SHARED(q[head++ & DEFER_QUEUE_MASK], x)` */
    method Put(h: Word, x: Word, ghost from: nat, ghost w: seq<Word>) returns (h': Word)
      requires Holds(q[..], from, w) && |w| < from + SIZE && h == AsWord(|w|)
      modifies q
      ensures Holds(q[..], from, w + [x]) && h' == AsWord(|w + [x]|)
    {
      SlotOfWord(|w|);
      StoreHolds(q[..], from, w, x);
      q[Slot(h)] := x;
      h' := Inc(h);
    }

    /** The encoding part of defer_rcu. */
    method PutCall(h: Word, fct: Word, p: Word, ghost from: nat, ghost w: seq<Word>) returns (h': Word)
      requires Holds(q[..], from, w) && |w| + 3 <= from + SIZE && h == AsWord(|w|)
      modifies q, this`lastIn
      ensures lastIn == fct
      ensures Holds(q[..], from, w + Encode(old(lastIn), Call(fct, p)))
      ensures h' == AsWord(|w + Encode(old(lastIn), Call(fct, p))|)
    {
      ghost var e := Encode(lastIn, Call(fct, p));
      ghost var v := w;
      h' := h;
      if lastIn != fct || IsFctBit(p) || p == MARK {
        lastIn := fct;
        if IsFctBit(fct) || fct == MARK {
          h' := Put(h', MARK, from, v);
          v := v + [MARK];
          h' := Put(h', fct, from, v);
          v := v + [fct];
        } else {
          h' := Put(h', SetFctBit(fct), from, v);
          v := v + [SetFctBit(fct)];
        }
      }
      h' := Put(h', p, from, v);
      assert v + [p] == w + e;
    }

    /** The first part of defer_rcu: a queue too full for three words is emptied.
        Both assertions of the source hold. */
    method MakeRoom(h: Word)
      requires Valid() && h == head
      modifies this`tail, this`lastOut, this`ran, this`done
      ensures Valid() && |Words(calls)| + 3 <= Boundary(calls, done) + SIZE
      ensures if |Words(calls)| - Boundary(calls, old(done)) >= SIZE - 2
              then done == |calls| else done == old(done)
    {
      var t := tail;
      Distance(Boundary(calls, done), |Words(calls)|);
      if Minus(h, t) >= SIZE - 2 {
        assert Minus(h, t) <= SIZE;
        BarrierThread();
        assert Minus(h, tail) == 0;
      }
    }

    /** defer_rcu: the call joins the stream, and everything deferred earlier has run
        if the queue was too full. */
    method DeferRcu(fct: Word, p: Word)
      requires Valid()
      modifies this, q
      ensures Valid() && calls == old(calls) + [Call(fct, p)]
      ensures if |Words(old(calls))| - Boundary(old(calls), old(done)) >= SIZE - 2
              then done == |old(calls)| else done == old(done)
    {
      var h := head;
      MakeRoom(h);
      ghost var all := calls + [Call(fct, p)];
      OneMoreCall(calls, Call(fct, p));
      h := PutCall(h, fct, p, Boundary(calls, done), Words(calls));
      head := h;
      calls := all;
    }

    /** rcu_defer_barrier_thread: everything deferred so far has run on return. */
    method BarrierThread()
      requires Valid()
      modifies this`tail, this`lastOut, this`ran, this`done
      ensures Valid() && done == |calls| && ran == calls && tail == head
    {
      assert calls[..|calls|] == calls;
      BoundariesGrow(calls, done, |calls|);
      Distance(Boundary(calls, done), |Words(calls)|);
      var h := head;
      var numItems := Minus(h, tail);
      if numItems == 0 {
        return;
      }
      BarrierQueue(h, |calls|);
    }

    /** `CMM_LOAD_SHARED(queue->q[i++ & DEFER_QUEUE_MASK])` at position `k`. */
    method Get(i: Word, ghost from: nat, ghost w: seq<Word>, ghost k: nat) returns (p: Word, i': Word)
      requires Holds(q[..], from, w) && from <= k < |w| && i == AsWord(k)
      ensures p == w[k] && i' == AsWord(k + 1)
    {
      LoadHeld(q[..], from, w, k);
      SlotOfWord(k);
      p := q[Slot(i)];
      i' := Inc(i);
    }

    /** The body of the loop of rcu_defer_barrier_queue, where a call `c` is stored at
        position `k`. */
    method RunRecord(i: Word, ghost from: nat, ghost w: seq<Word>, ghost k: nat, ghost end: nat, ghost c: Call)
      returns (i': Word)
      requires Holds(q[..], from, w) && from <= k && i == AsWord(k) && ReadsAs(w, k, end, lastOut, c)
      modifies this`lastOut, this`ran
      ensures i' == AsWord(end) && lastOut == c.fct && ran == old(ran) + [c]
    {
      var p: Word;
      p, i' := Get(i, from, w, k);
      if IsFctBit(p) {
        lastOut := ClearFctBit(p);
        p, i' := Get(i', from, w, k + 1);
      } else if p == MARK {
        p, i' := Get(i', from, w, k + 1);
        lastOut := p;
        p, i' := Get(i', from, w, k + 2);
      }
      ran := ran + [Call(lastOut, p)];
    }

    /** One turn of that loop on the way to the boundary of record `n`: it ends at the
        next boundary, which is the head only if it is that one. */
    method Turn(i: Word, ghost m: nat, ghost n: nat) returns (i': Word)
      requires done <= m < n <= |calls| && Holds(q[..], Boundary(calls, done), Words(calls))
      requires i == AsWord(Boundary(calls, m)) && lastOut == LastFct(calls[..m]) && ran == calls[..m]
      modifies this`lastOut, this`ran
      ensures i' == AsWord(Boundary(calls, m + 1))
      ensures i' == AsWord(Boundary(calls, n)) <==> m + 1 == n
      ensures lastOut == LastFct(calls[..m + 1]) && ran == calls[..m + 1]
    {
      BoundariesGrow(calls, done, m);
      LoopTestIsExact(calls, done, m + 1, n);
      OneLonger(calls, m);
      WordsAt(calls, m);
      i' := RunRecord(i, Boundary(calls, done), Words(calls), Boundary(calls, m), Boundary(calls, m + 1), calls[m]);
    }

    /** The loop of rcu_defer_barrier_queue, for a head taken when `n` calls had been
        deferred. It ends exactly there. */
    method Drain(h: Word, ghost n: nat) returns (i: Word)
      requires Valid() && done <= n <= |calls| && h == AsWord(Boundary(calls, n))
      requires tail == h <==> done == n
      modifies this`lastOut, this`ran
      ensures i == h && lastOut == LastFct(calls[..n]) && ran == calls[..n]
    {
      i := tail;
      ghost var m := done;
      while i != h
        invariant done <= m <= n && i == AsWord(Boundary(calls, m)) && (i == h <==> m == n)
        invariant lastOut == LastFct(calls[..m]) && ran == calls[..m]
        decreases n - m
      {
        i := Turn(i, m, n);
        m := m + 1;
      }
    }

    /** The store to the tail after the loop gives the words up. */
    method StoreTail(i: Word, ghost n: nat)
      requires q.Length == SIZE && done <= n <= |calls| && i == AsWord(Boundary(calls, n))
      requires head == AsWord(|Words(calls)|) && lastIn == LastFct(calls)
      requires Holds(q[..], Boundary(calls, n), Words(calls))
      requires lastOut == LastFct(calls[..n]) && ran == calls[..n]
      modifies this`tail, this`done
      ensures Valid() && done == n && tail == i
    {
      tail := i;
      done := n;
    }

    /** rcu_defer_barrier_queue: it runs the calls deferred before the head was taken
        that had not run yet, in order. */
    method BarrierQueue(h: Word, ghost n: nat)
      requires Valid() && done <= n <= |calls| && h == AsWord(Boundary(calls, n))
      modifies this`tail, this`lastOut, this`ran, this`done
      ensures Valid() && done == n && tail == h
      ensures ran == old(ran) + calls[old(done)..n]
      ensures n == |calls| ==> lastOut == lastIn
    {
      StaysHeld(q[..], calls, done, n);
      SplitAt(calls, done, n);
      var i := Drain(h, n);
      StoreTail(i, n);
    }
  }

  /** The words from a later boundary on are still held, and boundaries are told apart
      by their words. */
  lemma StaysHeld(ring: seq<Word>, calls: seq<Call>, done: nat, n: nat)
    requires done <= n <= |calls| && Holds(ring, Boundary(calls, done), Words(calls))
    ensures Holds(ring, Boundary(calls, n), Words(calls))
    ensures AsWord(Boundary(calls, done)) == AsWord(Boundary(calls, n)) <==> done == n
  {
    LoopTestIsExact(calls, done, done, n);
    HoldsLater(ring, Boundary(calls, done), Boundary(calls, n), Words(calls));
  }

  lemma SplitAt(calls: seq<Call>, done: nat, n: nat)
    requires done <= n <= |calls|
    ensures calls[..n] == calls[..done] + calls[done..n]
    ensures n == |calls| ==> calls[..n] == calls
  {
  }
}
