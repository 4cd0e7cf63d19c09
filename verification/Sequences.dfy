/**
 Sequences without repetition, and sequences with something taken out: the lists of
 registered readers, of free slots and of a bucket's nodes.
 */
module Sequences {
  ghost predicate Distinct<T>(c: seq<T>) {
    forall i, j :: 0 <= i < j < |c| ==> c[i] != c[j]
  }

  /** `c` without the element at position `i`. */
  function Drop<T>(c: seq<T>, i: nat): seq<T>
    requires i < |c|
  {
    c[..i] + c[i + 1..]
  }

  /** The old position of what is at position `j` once position `i` is dropped. */
  function Shift(i: nat, j: nat): nat {
    if j < i then j else j + 1
  }

  lemma DropAt<T>(c: seq<T>, i: nat)
    requires i < |c|
    ensures |Drop(c, i)| == |c| - 1
    ensures forall j: nat :: j < |c| - 1 ==> Drop(c, i)[j] == c[Shift(i, j)]
    ensures Distinct(c) ==> Distinct(Drop(c, i)) && c[i] !in Drop(c, i)
    ensures forall x :: x in c && x != c[i] ==> x in Drop(c, i)
    ensures forall x :: x in Drop(c, i) ==> x in c
  {
  }

  lemma DropCounts<T>(c: seq<T>, i: nat)
    requires i < |c|
    ensures multiset(c) == multiset(Drop(c, i)) + multiset{c[i]}
  {
    assert c == c[..i] + [c[i]] + c[i + 1..];
  }

  /** `q` without any occurrence of `t`. */
  function Without<T(==)>(q: seq<T>, t: T): seq<T> {
    if q == [] then [] else (if q[0] == t then [] else [q[0]]) + Without(q[1..], t)
  }

  lemma {:induction false} WithoutKeeps<T>(q: seq<T>, t: T, u: T)
    ensures u in Without(q, t) <==> u in q && u != t
    ensures multiset(Without(q, t))[u] == if u == t then 0 else multiset(q)[u]
  {
    if q == [] {
    } else {
      WithoutKeeps(q[1..], t, u);
      assert q == [q[0]] + q[1..];
    }
  }
}
