/**
 How urcu-defer-impl.h stores a stream of (function, data) pairs as words: the
 function is stored only when it changes, with its lowest bit set, and a marker
 word announces functions that cannot be stored so.

 A word is an unsigned long of 64 bits.
 */
module DeferCodec {
  const WORDS: nat := 0x1_0000_0000_0000_0000

  type Word = w: nat | w < WORDS

  // DQ_FCT_MARK
  const MARK: Word := WORDS - 2

  datatype Call = Call(fct: Word, data: Word)

  // DQ_IS_FCT_BIT, DQ_SET_FCT_BIT and DQ_CLEAR_FCT_BIT
  predicate IsFctBit(w: Word) { w % 2 == 1 }

  function SetFctBit(w: Word): Word { if IsFctBit(w) then w else w + 1 }

  function ClearFctBit(w: Word): Word { if IsFctBit(w) then w - 1 else w }

  /** What defer_rcu stores for one call when `last` is last_fct_in. */
  function Encode(last: Word, c: Call): seq<Word> {
    if last != c.fct || IsFctBit(c.data) || c.data == MARK then
      if IsFctBit(c.fct) || c.fct == MARK then [MARK, c.fct, c.data] else [SetFctBit(c.fct), c.data]
    else
      [c.data]
  }

  /** last_fct_in after some calls. */
  function LastFct(calls: seq<Call>): Word {
    if calls == [] then 0 else calls[|calls| - 1].fct
  }

  /** All words stored for some calls, from an empty queue on. */
  function Words(calls: seq<Call>): seq<Word> {
    if calls == [] then []
    else
      var before := calls[..|calls| - 1];
      Words(before) + Encode(LastFct(before), calls[|calls| - 1])
  }

  /** One turn of the loop of rcu_defer_barrier_queue: the call it makes and how
      many words it reads; none when the words end in the middle of a record. */
  datatype Turn = Turn(call: Call, used: nat) | Cut

  function Decode(last: Word, w: seq<Word>): Turn {
    if |w| == 0 then Cut
    else if IsFctBit(w[0]) then
      if |w| < 2 then Cut else Turn(Call(ClearFctBit(w[0]), w[1]), 2)
    else if w[0] == MARK then
      if |w| < 3 then Cut else Turn(Call(w[1], w[2]), 3)
    else
      Turn(Call(last, w[0]), 1)
  }

  /** The whole loop over `w`, if it ends exactly at the end of `w`. */
  datatype Result = Calls(calls: seq<Call>) | Overrun

  function DecodeAll(last: Word, w: seq<Word>): Result
    decreases |w|
  {
    if w == [] then Calls([])
    else
      match Decode(last, w)
      case Cut => Overrun
      case Turn(c, used) =>
        match DecodeAll(c.fct, w[used..])
        case Overrun => Overrun
        case Calls(more) => Calls([c] + more)
  }

  /** A record is one to three words, and decoding it gives the call back whatever
      follows: odd functions, odd data and the marker in either place included. */
  lemma RecordRoundTrip(last: Word, c: Call, more: seq<Word>)
    ensures 1 <= |Encode(last, c)| <= 3
    ensures Decode(last, Encode(last, c) + more) == Turn(c, |Encode(last, c)|)
  {
  }

  /** Deferring one more call stores one more record and moves no boundary. */
  lemma OneMoreCall(calls: seq<Call>, c: Call)
    ensures Words(calls + [c]) == Words(calls) + Encode(LastFct(calls), c)
    ensures LastFct(calls + [c]) == c.fct
    ensures forall n: nat :: n <= |calls| ==> (calls + [c])[..n] == calls[..n]
  {
    assert (calls + [c])[..|calls|] == calls;
  }

  /** The words of the first `n` calls: where record `n` begins. */
  function Boundary(calls: seq<Call>, n: nat): nat
    requires n <= |calls|
  {
    |Words(calls[..n])|
  }

  lemma {:induction false} WordsPrefix(calls: seq<Call>, n: nat)
    requires n <= |calls|
    ensures Boundary(calls, n) <= |Words(calls)|
    ensures Words(calls)[..Boundary(calls, n)] == Words(calls[..n])
    decreases |calls|
  {
    if n < |calls| {
      var before := calls[..|calls| - 1];
      WordsPrefix(before, n);
      assert before[..n] == calls[..n];
    } else {
      assert calls[..n] == calls;
    }
  }

  /** The words stored for call `n`. */
  function Record(calls: seq<Call>, n: nat): seq<Word>
    requires n < |calls|
  {
    Encode(LastFct(calls[..n]), calls[n])
  }

  /** The words between two boundaries are the one record. */
  lemma RecordAt(calls: seq<Call>, n: nat)
    requires n < |calls|
    ensures Boundary(calls, n + 1) == Boundary(calls, n) + |Record(calls, n)|
    ensures Boundary(calls, n + 1) <= |Words(calls)|
    ensures Words(calls)[Boundary(calls, n)..Boundary(calls, n + 1)] == Record(calls, n)
    ensures LastFct(calls[..n + 1]) == calls[n].fct
  {
    var next := calls[..n + 1];
    assert next[..n] == calls[..n] && next[n] == calls[n];
    WordsPrefix(calls, n + 1);
    assert Words(next) == Words(calls[..n]) + Encode(LastFct(calls[..n]), calls[n]);
    assert Words(calls)[Boundary(calls, n)..Boundary(calls, n + 1)] == Words(next)[Boundary(calls, n)..];
  }

  /** Later boundaries lie further on, at least one word for every call. */
  lemma {:induction false} BoundariesGrow(calls: seq<Call>, m: nat, n: nat)
    requires m <= n <= |calls|
    ensures Boundary(calls, m) + (n - m) <= Boundary(calls, n) <= |Words(calls)|
    decreases n - m
  {
    if m < n {
      RecordAt(calls, m);
      BoundariesGrow(calls, m + 1, n);
    } else {
      WordsPrefix(calls, n);
    }
  }

  /** Reading from the boundary of record `n` gives call `n`. */
  lemma TurnAt(calls: seq<Call>, n: nat)
    requires n < |calls|
    ensures Boundary(calls, n) < |Words(calls)|
    ensures var w, last := Words(calls)[Boundary(calls, n)..], LastFct(calls[..n]);
            && Decode(last, w) == Turn(calls[n], |Record(calls, n)|)
            && LastFct(calls[..n + 1]) == calls[n].fct
  {
    RecordAt(calls, n);
    var last, from, to := LastFct(calls[..n]), Boundary(calls, n), Boundary(calls, n + 1);
    RecordRoundTrip(last, calls[n], Words(calls)[to..]);
    Split(Words(calls), from, to);
  }

  lemma Split(w: seq<Word>, from: nat, to: nat)
    requires from <= to <= |w|
    ensures w[from..] == w[from..to] + w[to..]
    ensures w[from..][to - from..] == w[to..]
  {
  }

  /** The words from position `k` up to `end` are read as the call `c`. */
  predicate ReadsAs(w: seq<Word>, k: nat, end: nat, last: Word, c: Call) {
    && k < |w|
    && if IsFctBit(w[k]) then
         k + 1 < |w| && end == k + 2 && c == Call(ClearFctBit(w[k]), w[k + 1])
       else if w[k] == MARK then
         k + 2 < |w| && end == k + 3 && c == Call(w[k + 1], w[k + 2])
       else
         end == k + 1 && c == Call(last, w[k])
  }

  lemma WordsAt(calls: seq<Call>, n: nat)
    requires n < |calls|
    ensures ReadsAs(Words(calls), Boundary(calls, n), Boundary(calls, n + 1), LastFct(calls[..n]), calls[n])
    ensures LastFct(calls[..n + 1]) == calls[n].fct
  {
    TurnAt(calls, n);
    RecordAt(calls, n);
    var w, k := Words(calls), Boundary(calls, n);
    var v := w[k..];
    assert v[0] == w[k] && |v| == |w| - k;
    assert |v| > 1 ==> v[1] == w[k + 1];
    assert |v| > 2 ==> v[2] == w[k + 2];
  }

  lemma OneMore(last: Word, w: seq<Word>, c: Call, used: nat, more: seq<Call>)
    requires used <= |w| && Decode(last, w) == Turn(c, used) && DecodeAll(c.fct, w[used..]) == Calls(more)
    ensures DecodeAll(last, w) == Calls([c] + more)
  {
  }

  lemma {:induction false} DecodeFrom(calls: seq<Call>, n: nat)
    requires n <= |calls|
    ensures Boundary(calls, n) <= |Words(calls)|
    ensures DecodeAll(LastFct(calls[..n]), Words(calls)[Boundary(calls, n)..]) == Calls(calls[n..])
    decreases |calls| - n
  {
    WordsPrefix(calls, n);
    if n < |calls| {
      TurnAt(calls, n);
      RecordAt(calls, n);
      BoundariesGrow(calls, n, n + 1);
      BoundariesGrow(calls, n + 1, |calls|);
      DecodeFrom(calls, n + 1);
      var w := Words(calls)[Boundary(calls, n)..];
      Split(Words(calls), Boundary(calls, n), Boundary(calls, n + 1));
      OneMore(LastFct(calls[..n]), w, calls[n], |Record(calls, n)|, calls[n + 1..]);
      assert calls[n..] == [calls[n]] + calls[n + 1..];
    } else {
      assert calls[..n] == calls;
    }
  }

  /** The round trip: for every sequence of calls the loop ends exactly at the last
      word, having made exactly these calls in this order. */
  lemma RoundTrip(calls: seq<Call>)
    ensures DecodeAll(0, Words(calls)) == Calls(calls)
  {
    DecodeFrom(calls, 0);
    assert calls[..0] == [] && Words(calls)[0..] == Words(calls) && calls[0..] == calls;
  }

  /** No two sequences of calls are stored alike. */
  lemma StoredDifferently(a: seq<Call>, b: seq<Call>)
    requires Words(a) == Words(b)
    ensures a == b
  {
    RoundTrip(a);
    RoundTrip(b);
  }

  /** The marker cannot be told from a function with its lowest bit set, which is
      why the marker has to be the complement of that bit: no stored function word
      equals it, and a data word stored alone is neither. */
  lemma FirstWordTellsTheForm(last: Word, c: Call)
    ensures var e := Encode(last, c);
            && (|e| == 1 <==> !IsFctBit(e[0]) && e[0] != MARK)
            && (|e| == 2 <==> IsFctBit(e[0]))
            && (|e| == 3 <==> e[0] == MARK)
  {
  }
}
