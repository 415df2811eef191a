/** The intrusive list: a ring of nodes through a sentinel, changed in place, which stands for a sequence. */
module List {

  /** What a listed object inherits: two links, which start at the object itself. */
  class ListHook {
    var prev: ListHook
    var next: ListHook

    constructor ()
      ensures prev == this && next == this
    {
      prev, next := this, this;
    }
  }

  class List {
    const head: ListHook
    var size: int
    /** The elements, first to last. */
    ghost var nodes: seq<ListHook>

    /** The sentinel, then the elements. */
    ghost function Ring(): (r: seq<ListHook>)
      reads this
      ensures |r| == |nodes| + 1 && r[0] == head
    {
      [head] + nodes
    }

    ghost function Repr(): set<object>
      reads this
    {
      {this} + set n: object | n in Ring()
    }

    static ghost function After<T>(ring: seq<T>, k: nat): T
      requires k < |ring|
    {
      if k + 1 < |ring| then ring[k + 1] else ring[0]
    }

    static ghost function Before<T>(ring: seq<T>, k: nat): T
      requires k < |ring|
    {
      if k > 0 then ring[k - 1] else ring[|ring| - 1]
    }

    static ghost predicate Distinct<T>(ring: seq<T>) {
      forall i: nat, j: nat | i < j < |ring| :: ring[i] != ring[j]
    }

    /** `next` goes to the next node around the ring and `prev` to the one before. */
    static ghost predicate JoinedAt(ring: seq<ListHook>, k: nat)
      requires k < |ring|
      reads ring
    {
      ring[k].next == After(ring, k) && ring[k].prev == Before(ring, k)
    }

    static ghost predicate Joined(ring: seq<ListHook>)
      reads ring
    {
      forall k: nat | k < |ring| :: JoinedAt(ring, k)
    }

    ghost predicate Linked()
      reads Repr()
    {
      Distinct(Ring()) && Joined(Ring())
    }

    ghost predicate Valid()
      reads Repr()
    {
      Linked() && size == |nodes|
    }

    constructor ()
      ensures Valid() && nodes == [] && fresh(Repr())
    {
      head := new ListHook();
      size := 0;
      nodes := [];
    }

    predicate Empty()
      requires Valid()
      reads Repr()
      ensures Empty() <==> nodes == []
    {
      size == 0
    }

    function Size(): (n: int)
      requires Valid()
      reads Repr()
      ensures n == |nodes|
    {
      size
    }

    static ghost function Inserted<T>(s: seq<T>, k: nat, x: T): seq<T>
      requires k <= |s|
    {
      s[..k] + [x] + s[k..]
    }

    static ghost function Removed<T>(s: seq<T>, k: nat): seq<T>
      requires k < |s|
    {
      s[..k] + s[k + 1..]
    }

    static lemma DistinctInserted<T>(ring: seq<T>, k: nat, x: T)
      requires Distinct(ring) && k <= |ring| && x !in ring
      ensures Distinct(Inserted(ring, k, x))
    {
    }

    static lemma DistinctRemoved<T>(ring: seq<T>, k: nat)
      requires Distinct(ring) && k < |ring|
      ensures Distinct(Removed(ring, k)) && ring[k] !in Removed(ring, k)
    {
    }

    /** The neighbours around a ring after an insertion behind position k. */
    static lemma InsertedNeighbours<T>(ring: seq<T>, k: nat, x: T, i: nat)
      requires k < |ring| && i <= |ring|
      ensures var r := Inserted(ring, k + 1, x);
        && r[i] == (if i <= k then ring[i] else if i == k + 1 then x else ring[i - 1])
        && After(r, i) == (if i < k then After(ring, i) else if i == k then x else After(ring, i - 1))
        && Before(r, i) == (if i == 0 then (if k + 1 == |ring| then x else Before(ring, 0))
                            else if i <= k then Before(ring, i)
                            else if i == k + 1 then ring[k] else if i == k + 2 then x else Before(ring, i - 1))
    {
    }

    /** The neighbours around a ring after the removal of position k + 1. */
    static lemma RemovedNeighbours<T>(ring: seq<T>, k: nat, i: nat)
      requires k + 1 < |ring| && i + 1 < |ring|
      ensures var r := Removed(ring, k + 1);
        && r[i] == (if i <= k then ring[i] else ring[i + 1])
        && After(r, i) == (if i < k then After(ring, i) else After(ring, i + 1))
        && Before(r, i) == (if i == 0 then (if k + 2 == |ring| then ring[k] else Before(ring, 0))
                            else if i <= k then Before(ring, i)
                            else if i == k + 1 then ring[k] else Before(ring, i + 1))
    {
    }

    /** Links a node between a node of the ring and the one after it. */
    method Add(newNode: ListHook, prevNode: ListHook, nextNode: ListHook, ghost k: nat)
      requires Linked() && newNode !in Ring()
      requires k <= |nodes| && prevNode == Ring()[k] && nextNode == After(Ring(), k)
      modifies Ring(), newNode, `nodes
      ensures Linked() && nodes == Inserted(old(nodes), k, newNode)
    {
      ghost var ring := Ring();
      nextNode.prev := newNode;
      newNode.next := nextNode;
      newNode.prev := prevNode;
      prevNode.next := newNode;
      nodes := Inserted(nodes, k, newNode);
      ghost var r := Inserted(ring, k + 1, newNode);
      assert Ring() == r;
      DistinctInserted(ring, k + 1, newNode);
      forall i: nat | i < |r| ensures JoinedAt(r, i) {
        InsertedNeighbours(ring, k, newNode, i);
        if i != k + 1 {
          assert old(JoinedAt(ring, if i <= k then i else i - 1));
        }
      }
    }

    /** Any node that is not in the list may be added, whatever its links hold. */
    method PushBack(elem: ListHook)
      requires Valid() && elem !in Ring()
      modifies Repr(), elem
      ensures Valid() && nodes == old(nodes) + [elem]
    {
      assert JoinedAt(Ring(), 0);
      Add(elem, head.prev, head, |nodes|);
      size := size + 1;
    }

    method PushFront(elem: ListHook)
      requires Valid() && elem !in Ring()
      modifies Repr(), elem
      ensures Valid() && nodes == [elem] + old(nodes)
    {
      assert JoinedAt(Ring(), 0);
      Add(elem, head, head.next, 0);
      size := size + 1;
    }

    /** The node that leaves keeps its own links. */
    method Erase(elem: ListHook, ghost k: nat)
      requires Valid() && k < |nodes| && nodes[k] == elem
      modifies Repr()
      ensures Valid() && nodes == Removed(old(nodes), k)
      ensures elem !in Ring() && elem.prev == old(elem.prev) && elem.next == old(elem.next)
    {
      ghost var ring := Ring();
      assert ring[k + 1] == elem && JoinedAt(ring, k + 1);
      elem.prev.next := elem.next;
      elem.next.prev := elem.prev;
      size := size - 1;
      nodes := Removed(nodes, k);
      ghost var r := Removed(ring, k + 1);
      assert Ring() == r;
      DistinctRemoved(ring, k + 1);
      forall i: nat | i < |r| ensures JoinedAt(r, i) {
        RemovedNeighbours(ring, k, i);
        assert old(JoinedAt(ring, if i <= k then i else i + 1));
      }
    }

    method PopFront() returns (ret: ListHook)
      requires Valid() && nodes != []
      modifies Repr()
      ensures Valid() && ret == old(nodes)[0] && nodes == old(nodes)[1..] && ret !in Ring()
    {
      assert JoinedAt(Ring(), 0);
      ret := head.next;
      Erase(head.next, 0);
    }

    method PopBack() returns (ret: ListHook)
      requires Valid() && nodes != []
      modifies Repr()
      ensures Valid() && ret == old(nodes)[|old(nodes)| - 1] && nodes == old(nodes)[..|old(nodes)| - 1]
      ensures ret !in Ring()
    {
      assert JoinedAt(Ring(), 0);
      ret := head.prev;
      Erase(head.prev, |nodes| - 1);
    }

    /** The node reached from the sentinel along `next`: the elements in order, and the sentinel again. */
    ghost function Forward(k: nat): (n: ListHook)
      requires Linked() && k <= |nodes| + 1
      reads Repr()
      ensures n == if k <= |nodes| then Ring()[k] else head
    {
      if k == 0 then head
      else
        assert JoinedAt(Ring(), k - 1);
        Forward(k - 1).next
    }

    /** The node reached from the sentinel along `prev`: the elements in reverse, and the sentinel again. */
    ghost function Backward(k: nat): (n: ListHook)
      requires Linked() && k <= |nodes| + 1
      reads Repr()
      ensures n == if 0 < k <= |nodes| then nodes[|nodes| - k] else head
    {
      if k == 0 then head
      else
        assert JoinedAt(Ring(), if k == 1 then 0 else |nodes| + 2 - k);
        Backward(k - 1).prev
    }

    /** `prev` and `next` undo each other at every node of the ring, the sentinel included. */
    lemma LinksAreInverse(n: ListHook)
      requires Linked() && n in Ring()
      ensures n.next in Ring() && n.prev in Ring() && n.next.prev == n && n.prev.next == n
    {
      var ring := Ring();
      var k: nat :| k < |ring| && ring[k] == n;
      assert JoinedAt(ring, k);
      assert JoinedAt(ring, if k + 1 < |ring| then k + 1 else 0);
      assert JoinedAt(ring, if k > 0 then k - 1 else |ring| - 1);
    }
  }

  /** The first element of one list goes to the end of another, as in a cascade of the timer; a list that shares
      no node with the two is as before. */
  method MoveFront(from: List, to: List, ghost other: List) returns (elem: ListHook)
    requires from.Valid() && to.Valid() && other.Valid() && from.nodes != []
    requires from.Repr() !! to.Repr() && other.Repr() !! from.Repr() + to.Repr()
    modifies from.Repr(), to.Repr()
    ensures from.Valid() && to.Valid() && elem == old(from.nodes)[0]
    ensures from.nodes == old(from.nodes)[1..] && to.nodes == old(to.nodes) + [elem]
    ensures other.Valid() && other.nodes == old(other.nodes)
    ensures from.Repr() !! to.Repr() && other.Repr() !! from.Repr() + to.Repr()
  {
    assert from.Ring()[1] in from.Repr();
    assert forall n | n in to.Ring() :: n in to.Repr();
    elem := from.PopFront();
    to.PushBack(elem);
  }
}
