/** The intrusive circular doubly linked list (list.c). A ring is the list head followed by the
    elements in order. */
module Lists {
  import opened Sequences

  class Node {
    var prev: Node?
    var next: Node?

    constructor ()
      ensures prev == null && next == null
    {
      prev, next := null, null;
    }
  }

  function After(n: nat, i: nat): nat {
    if i + 1 < n then i + 1 else 0
  }

  /** Following `next` from the head visits the ring in order and comes back; `prev` undoes `next`. */
  ghost predicate Ring(r: seq<Node>)
    reads r
  {
    && |r| > 0 && Distinct(r)
    && (forall i :: 0 <= i < |r| ==> r[i].next == r[After(|r|, i)])
    && (forall i :: 0 <= i < |r| ==> r[After(|r|, i)].prev == r[i])
  }

  method Init(list: Node)
    modifies list
    ensures Ring([list])
  {
    list.prev := list;
    list.next := list;
  }

  /** The links of a ring with `elm` spliced in behind position `k`. */
  lemma Relinked(r: seq<Node>, k: nat, elm: Node)
    requires k < |r| && Distinct(r) && elm !in r
    requires r[k].next == elm && elm.prev == r[k]
    requires elm.next == r[After(|r|, k)] && r[After(|r|, k)].prev == elm
    requires forall i :: 0 <= i < |r| && i != k ==> r[i].next == r[After(|r|, i)]
    requires forall i :: 0 <= i < |r| && i != k ==> r[After(|r|, i)].prev == r[i]
    ensures Ring(InsertedAt(r, k + 1, elm))
  {
    var t := InsertedAt(r, k + 1, elm);
    forall i | 0 <= i < |t|
      ensures t[i].next == t[After(|t|, i)] && t[After(|t|, i)].prev == t[i]
    {
      if i < k {
        assert t[i] == r[i];
      } else if i > k + 1 {
        assert t[i] == r[i - 1];
        assert After(|r|, i - 1) == if i == |t| - 1 then 0 else i;
      }
    }
  }

  method Insert(list: Node, elm: Node, ghost r: seq<Node>, ghost k: nat)
    requires Ring(r) && k < |r| && r[k] == list && elm !in r
    modifies r, elm
    ensures Ring(InsertedAt(r, k + 1, elm))
  {
    elm.prev := list;
    elm.next := list.next;
    list.next := elm;
    elm.next.prev := elm;
    Relinked(r, k, elm);
  }

  /** Inserting before an element is inserting behind its predecessor. */
  method InsertBefore(cur: Node, elm: Node, ghost r: seq<Node>, ghost k: nat)
    requires Ring(r) && 0 < k < |r| && r[k] == cur && elm !in r
    modifies r, elm
    ensures Ring(InsertedAt(r, k, elm))
  {
    assert After(|r|, k - 1) == k;
    Insert(cur.prev, elm, r, k - 1);
  }

  /** Inserting behind the predecessor of the head appends. */
  method Append(head: Node, elm: Node, ghost r: seq<Node>)
    requires Ring(r) && r[0] == head && elm !in r
    modifies r, elm
    ensures Ring(r + [elm])
  {
    assert After(|r|, |r| - 1) == 0;
    Insert(head.prev, elm, r, |r| - 1);
    assert InsertedAt(r, |r|, elm) == r + [elm];
  }

  /** The links of a ring closed over position `k`. */
  lemma Bridged(r: seq<Node>, k: nat)
    requires 0 < k < |r| && Distinct(r)
    requires r[k - 1].next == r[After(|r|, k)] && r[After(|r|, k)].prev == r[k - 1]
    requires forall i :: 0 <= i < |r| && i != k - 1 && i != k ==> r[i].next == r[After(|r|, i)]
    requires forall i :: 0 <= i < |r| && i != k - 1 && i != k ==> r[After(|r|, i)].prev == r[i]
    ensures Ring(Dropped(r, k))
  {
    var t := Dropped(r, k);
    forall i | 0 <= i < |t|
      ensures t[i].next == t[After(|t|, i)] && t[After(|t|, i)].prev == t[i]
    {
      if i < k {
        assert t[i] == r[i];
      } else {
        assert t[i] == r[i + 1];
        assert After(|r|, i + 1) == if i == |t| - 1 then 0 else i + 2;
      }
    }
  }

  method Remove(elm: Node, ghost r: seq<Node>, ghost k: nat)
    requires Ring(r) && 0 < k < |r| && r[k] == elm
    modifies r
    ensures Ring(Dropped(r, k)) && elm.next == null && elm.prev == null
  {
    assert After(|r|, k - 1) == k;
    elm.prev.next := elm.next;
    elm.next.prev := elm.prev;
    elm.next := null;
    elm.prev := null;
    Bridged(r, k);
  }

  method Length(list: Node, ghost r: seq<Node>) returns (count: nat)
    requires Ring(r) && r[0] == list
    ensures count == |r| - 1
  {
    count := 0;
    var e := list.next;
    while e != list
      invariant count <= |r| - 1 && e == r[After(|r|, count)]
      decreases |r| - count
    {
      e := e.next;
      count := count + 1;
    }
  }

  method Empty(list: Node, ghost r: seq<Node>) returns (b: bool)
    requires Ring(r) && r[0] == list
    ensures b <==> |r| == 1
  {
    b := list.next == list;
  }

  /** The links alone determine the sequence: two rings from the same head are the same. */
  lemma RingIsDetermined(r: seq<Node>, t: seq<Node>)
    requires Ring(r) && Ring(t) && r[0] == t[0]
    ensures r == t
  {
    var n := if |r| < |t| then |r| else |t|;
    forall i | 0 <= i < n
      ensures r[i] == t[i]
    {
      SamePrefix(r, t, i);
    }
    assert r[n - 1].next == r[After(|r|, n - 1)] && t[n - 1].next == t[After(|t|, n - 1)];
  }

  lemma {:induction false} SamePrefix(r: seq<Node>, t: seq<Node>, i: nat)
    requires Ring(r) && Ring(t) && r[0] == t[0] && i < |r| && i < |t|
    ensures r[i] == t[i]
  {
    if i > 0 {
      SamePrefix(r, t, i - 1);
      assert r[i - 1].next == r[i] && t[i - 1].next == t[i];
    }
  }
}
