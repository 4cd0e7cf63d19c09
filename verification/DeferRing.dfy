/**
 The ring of urcu-defer-impl.h: 4096 words, indexed by head and tail words that
 wrap at 2^64 and are masked to a slot. A position is the number of words stored
 before; head and tail are positions of which only the lowest 64 bits are kept.
 */
module DeferRing {
  import opened DeferCodec

  // DEFER_QUEUE_SIZE
  const SIZE: nat := 4096

  /** `x + 1` and `x - y` of unsigned long. */
  function Inc(x: Word): Word { (x + 1) % WORDS }

  function Minus(x: Word, y: Word): Word { (x - y) % WORDS }

  /** The word that stands for a position. */
  function AsWord(pos: nat): Word { pos % WORDS }

  /** `x & DEFER_QUEUE_MASK` */
  function Slot(x: Word): nat { x % SIZE }

  lemma SlotOfWord(pos: nat)
    ensures Slot(AsWord(pos)) == pos % SIZE
    ensures Inc(AsWord(pos)) == AsWord(pos + 1)
  {
    MaskedPosition(pos);
    NextPosition(pos);
  }

  lemma MaskedPosition(pos: nat)
    ensures AsWord(pos) % SIZE == pos % SIZE
  {
    var turns := pos / WORDS;
    assert pos == SIZE * (0x10_0000_0000_0000 * turns) + AsWord(pos);
    WholeRings(AsWord(pos), 0x10_0000_0000_0000 * turns);
  }

  lemma NextPosition(pos: nat)
    ensures Inc(AsWord(pos)) == AsWord(pos + 1)
  {
  }

  lemma WholeRings(pos: nat, rings: nat)
    ensures (SIZE * rings + pos) % SIZE == pos % SIZE
  {
  }

  /** Positions no further apart than the ring tell their distance by their words. */
  lemma Distance(from: nat, to: nat)
    requires from <= to < from + WORDS
    ensures Minus(AsWord(to), AsWord(from)) == to - from
    ensures AsWord(to) == AsWord(from) <==> to == from
  {
  }

  /** The ring holds the words of the positions from `from` to the end of `w`. */
  ghost predicate Holds(ring: seq<Word>, from: nat, w: seq<Word>) {
    && |ring| == SIZE
    && from <= |w| <= from + SIZE
    && forall k: nat :: from <= k < |w| ==> HeldAt(ring, w, k)
  }

  ghost predicate HeldAt(ring: seq<Word>, w: seq<Word>, k: nat)
    requires |ring| == SIZE && k < |w|
  {
    ring[k % SIZE] == w[k]
  }

  /** Storing one word at the end overwrites no word that is still held. */
  lemma StoreHolds(ring: seq<Word>, from: nat, w: seq<Word>, x: Word)
    requires Holds(ring, from, w) && |w| < from + SIZE
    ensures Holds(ring[|w| % SIZE := x], from, w + [x])
  {
    var ring' := ring[|w| % SIZE := x];
    forall k: nat | from <= k < |w| + 1
      ensures HeldAt(ring', w + [x], k)
    {
      if k < |w| {
        assert HeldAt(ring, w, k);
        DifferentSlots(k, |w|);
      }
    }
  }

  lemma DifferentSlots(k: nat, l: nat)
    requires k < l < k + SIZE
    ensures k % SIZE != l % SIZE
  {
  }

  lemma OneLonger(calls: seq<Call>, m: nat)
    requires m < |calls|
    ensures calls[..m] + [calls[m]] == calls[..m + 1]
  {
  }

  lemma HoldsLater(ring: seq<Word>, from: nat, later: nat, w: seq<Word>)
    requires Holds(ring, from, w) && from <= later <= |w|
    ensures Holds(ring, later, w)
  {
  }

  /** Loading the word of a position that is still held. */
  lemma LoadHeld(ring: seq<Word>, from: nat, w: seq<Word>, k: nat)
    requires Holds(ring, from, w) && from <= k < |w|
    ensures ring[Slot(AsWord(k))] == w[k]
  {
    SlotOfWord(k);
    assert HeldAt(ring, w, k);
  }

  /** The test of the drain loop, `i != head`, is exact: between record boundaries
      that the ring holds, equal words are equal boundaries, although the loop moves
      by one, two or three words. */
  lemma LoopTestIsExact(calls: seq<Call>, done: nat, m: nat, n: nat)
    requires done <= m <= n <= |calls| && |Words(calls)| <= Boundary(calls, done) + SIZE
    ensures Boundary(calls, done) <= Boundary(calls, m) <= Boundary(calls, n) <= |Words(calls)|
    ensures AsWord(Boundary(calls, m)) == AsWord(Boundary(calls, n)) <==> m == n
    ensures Minus(AsWord(Boundary(calls, n)), AsWord(Boundary(calls, m))) == Boundary(calls, n) - Boundary(calls, m)
    ensures n - m <= Boundary(calls, n) - Boundary(calls, m) <= SIZE
  {
    BoundariesGrow(calls, done, m);
    BoundariesGrow(calls, m, n);
    Distance(Boundary(calls, m), Boundary(calls, n));
  }
}
