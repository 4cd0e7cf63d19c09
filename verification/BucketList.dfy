/**
 The doubly linked buckets of mchash.h as memory: what the pointer stores of
 mchash_insert_node_in_middle and of the delete macros do, and what list they
 leave behind.

 A bucket's head is itself a link, and a NULL neighbour stands for it, so the back
 pointer of a first node, or of an empty bucket's head, may be either.
 */
module BucketList {
  import opened Sequences

  type Node = nat

  datatype Ptr = Null | Head(key: nat) | Link(n: Node)

  /** The next_p and prev_p fields of the links that may be accessed. */
  datatype Mem = Mem(next: map<Ptr, Ptr>, prev: map<Ptr, Ptr>)

  function OrHead(p: Ptr, key: nat): Ptr {
    if p == Null then Head(key) else p
  }

  /** mchash_insert_node_in_middle */
  function InsertInMiddle(m: Mem, key: nat, before: Ptr, n: Node, after: Ptr): Mem {
    Mem(m.next[Link(n) := after][OrHead(before, key) := Link(n)],
        m.prev[Link(n) := before][OrHead(after, key) := Link(n)])
  }

  /** The insertion MCHASH_APPEND_NODE makes: behind the head's back pointer. */
  function Append(m: Mem, key: nat, n: Node): Mem
    requires Head(key) in m.prev
  {
    InsertInMiddle(m, key, m.prev[Head(key)], n, Null)
  }

  /** The stores of the delete macros: both neighbours bypass the node. */
  function Unlink(m: Mem, key: nat, n: Node): Mem
    requires Link(n) in m.next && Link(n) in m.prev
  {
    var before, after := OrHead(m.prev[Link(n)], key), m.next[Link(n)];
    Mem(m.next[before := after], m.prev[OrHead(after, key) := before])
  }

  function FirstOf(c: seq<Node>): Ptr {
    if c == [] then Null else Link(c[0])
  }

  function NextAt(c: seq<Node>, i: nat): Ptr {
    if i + 1 < |c| then Link(c[i + 1]) else Null
  }

  /** The links of the chain at position `i`. */
  ghost predicate LinkOk(m: Mem, key: nat, c: seq<Node>, i: nat)
    requires i < |c|
  {
    && Link(c[i]) in m.next && m.next[Link(c[i])] == NextAt(c, i)
    && Link(c[i]) in m.prev
    && if i == 0 then m.prev[Link(c[i])] in {Null, Head(key)} else m.prev[Link(c[i])] == Link(c[i - 1])
  }

  /** The bucket `key` lists exactly `c`, forwards to NULL and backwards. */
  ghost predicate Lists(m: Mem, key: nat, c: seq<Node>) {
    && Head(key) in m.next && m.next[Head(key)] == FirstOf(c)
    && Head(key) in m.prev
    && (if c == [] then m.prev[Head(key)] in {Null, Head(key)} else m.prev[Head(key)] == Link(c[|c| - 1]))
    && Distinct(c)
    && forall i: nat :: i < |c| ==> LinkOk(m, key, c, i)
  }

  lemma AppendLists(m: Mem, key: nat, c: seq<Node>, n: Node)
    requires Lists(m, key, c) && n !in c
    ensures Lists(Append(m, key, n), key, c + [n])
  {
    var m', c' := Append(m, key, n), c + [n];
    forall i: nat | i < |c'|
      ensures LinkOk(m', key, c', i)
    {
      if i < |c| {
        assert LinkOk(m, key, c, i);
      }
    }
    assert Distinct(c');
  }

  lemma UnlinkLists(m: Mem, key: nat, c: seq<Node>, i: nat)
    requires Lists(m, key, c) && i < |c|
    ensures Link(c[i]) in m.next && Link(c[i]) in m.prev
    ensures Lists(Unlink(m, key, c[i]), key, Drop(c, i))
  {
    assert LinkOk(m, key, c, i);
    var m', c' := Unlink(m, key, c[i]), Drop(c, i);
    DropAt(c, i);
    forall j: nat | j < |c'|
      ensures LinkOk(m', key, c', j)
    {
      assert LinkOk(m, key, c, Shift(i, j));
    }
    if |c'| > 0 {
      assert LinkOk(m, key, c, Shift(i, 0));
      assert LinkOk(m, key, c, Shift(i, |c'| - 1));
    }
  }

  /** A deleted node keeps its next pointer. */
  lemma UnlinkKeepsNext(m: Mem, key: nat, c: seq<Node>, i: nat)
    requires Lists(m, key, c) && i < |c|
    ensures Link(c[i]) in m.next && Link(c[i]) in m.prev
    ensures Link(c[i]) in Unlink(m, key, c[i]).next
    ensures Unlink(m, key, c[i]).next[Link(c[i])] == NextAt(c, i)
  {
    assert LinkOk(m, key, c, i);
    if i > 0 {
      assert LinkOk(m, key, c, i - 1);
    }
  }

  /** Stores to a bucket leave the lists of other buckets alone. */
  lemma OtherBucket(m: Mem, m': Mem, key: nat, c: seq<Node>)
    requires Lists(m, key, c)
    requires Head(key) in m'.next && m'.next[Head(key)] == m.next[Head(key)]
    requires Head(key) in m'.prev && m'.prev[Head(key)] == m.prev[Head(key)]
    requires forall n <- c :: Link(n) in m'.next && Link(n) in m.next && m'.next[Link(n)] == m.next[Link(n)]
    requires forall n <- c :: Link(n) in m'.prev && Link(n) in m.prev && m'.prev[Link(n)] == m.prev[Link(n)]
    ensures Lists(m', key, c)
  {
    forall i: nat | i < |c|
      ensures LinkOk(m', key, c, i)
    {
      assert LinkOk(m, key, c, i);
    }
  }

  /** The nodes met from `p` by at most `n` next pointers. */
  function Follow(m: Mem, p: Ptr, n: nat): seq<Node>
    decreases n
  {
    if n == 0 || !p.Link? || p !in m.next then [] else [p.n] + Follow(m, m.next[p], n - 1)
  }

  lemma {:induction false} FollowFrom(m: Mem, key: nat, c: seq<Node>, i: nat, n: nat)
    requires Lists(m, key, c) && i < |c| && n >= |c| - i
    ensures Follow(m, Link(c[i]), n) == c[i..]
    decreases |c| - i
  {
    assert LinkOk(m, key, c, i);
    if i + 1 == |c| {
    } else {
      FollowFrom(m, key, c, i + 1, n - 1);
    }
  }

  /** Walking a bucket forwards from its head meets exactly its list and then NULL,
      however far one is willing to go: the chain has no cycle. */
  lemma ForwardWalk(m: Mem, key: nat, c: seq<Node>, n: nat)
    requires Lists(m, key, c) && n >= |c|
    ensures Head(key) in m.next && Follow(m, m.next[Head(key)], n) == c
  {
    if c != [] {
      FollowFrom(m, key, c, 0, n);
    }
  }
}
