/** IntrusiveList: a singly linked list with head, tail and count, linking nodes embedded in elements. */
module IntrusiveList {
  class LinkNode {
    var next: LinkNode?

    constructor ()
      ensures next == null
    {
      next := null;
    }

    method Unlink()
      modifies this
      ensures next == null
    {
      next := null;
    }
  }

  class List {
    var head: LinkNode?
    var tail: LinkNode?
    var count: int
    ghost var nodes: seq<LinkNode>

    ghost predicate At(i: nat)
      reads this, nodes
    {
      i < |nodes| && nodes[i].next == if i + 1 < |nodes| then nodes[i + 1] else null
    }

    ghost predicate Valid()
      reads this, nodes
    {
      && count == |nodes|
      && head == (if nodes == [] then null else nodes[0])
      && tail == (if nodes == [] then null else nodes[|nodes| - 1])
      && (forall i, j :: 0 <= i < j < |nodes| ==> nodes[i] != nodes[j])
      && forall i: nat :: i < |nodes| ==> At(i)
    }

    constructor ()
      ensures Valid() && nodes == []
    {
      head, tail, count, nodes := null, null, 0, [];
    }

    /** The nodes met by following next from a node; null when the walk has ended. */
    ghost function Walk(n: nat): LinkNode?
      requires Valid()
      reads this, nodes
    {
      if n == 0 then head
      else
        var before := Walk(n - 1);
        if before == null || before !in nodes then null else before.next
    }

    /** From mHead, next reaches the contents in order, then null, and mTail is the last one reached. */
    lemma {:induction false} WalkIsContents(n: nat)
      requires Valid()
      ensures Walk(n) == (if n < |nodes| then nodes[n] else null)
      ensures n + 1 == |nodes| ==> Walk(n) == tail
    {
      if n > 0 {
        WalkIsContents(n - 1);
        if n - 1 < |nodes| {
          assert At(n - 1);
        }
      }
    }

    method PushFront(node: LinkNode)
      requires Valid() && node !in nodes && count < 0x7FFF_FFFF
      modifies this, node
      ensures Valid() && nodes == [node] + old(nodes)
    {
      node.next := head;
      head := node;
      count := count + 1;
      if count == 1 {
        tail := node;
      }
      nodes := [node] + nodes;
      forall i: nat | i < |nodes| ensures At(i) {
        if i > 0 {
          assert old(At(i - 1));
        }
      }
    }

    method PopFront()
      requires Valid() && nodes != []
      modifies this, head
      ensures Valid() && nodes == old(nodes)[1..] && old(head).next == null
    {
      assert At(0);
      var next := head.next;
      head.Unlink();
      head := next;
      count := count - 1;
      if count == 0 {
        tail := null;
      }
      nodes := nodes[1..];
      forall i: nat | i < |nodes| ensures At(i) {
        assert old(At(i + 1));
      }
    }

    /**
     The element's own next pointer is left as it is, so the list stays well formed exactly when
     the element was not linked to anything.
     */
    method PushBack(node: LinkNode)
      requires Valid() && node !in nodes && count < 0x7FFF_FFFF
      modifies this, nodes`next
      ensures nodes == old(nodes) + [node] && count == |nodes| && tail == node
      ensures Valid() <==> node.next == null
    {
      if tail != null {
        tail.next := node;
      }
      tail := node;
      count := count + 1;
      if count == 1 {
        head := node;
      }
      nodes := nodes + [node];
      if node.next == null {
        forall i: nat | i < |nodes| ensures At(i) {
          if i < |nodes| - 1 {
            assert old(At(i));
          }
        }
      } else {
        assert !At(|nodes| - 1);
      }
    }

    method Swap(that: List)
      requires Valid() && that.Valid()
      modifies this, that
      ensures Valid() && that.Valid()
      ensures nodes == old(that.nodes) && that.nodes == old(nodes)
    {
      head, that.head := that.head, head;
      tail, that.tail := that.tail, tail;
      count, that.count := that.count, count;
      nodes, that.nodes := that.nodes, nodes;
      forall i: nat | i < |nodes| ensures At(i) {
        assert old(that.At(i));
      }
      forall i: nat | i < |that.nodes| ensures that.At(i) {
        assert old(At(i));
      }
    }

    method Clear() returns (deleted: seq<LinkNode>)
      requires Valid()
      modifies this, nodes
      ensures Valid() && nodes == [] && deleted == old(nodes)
    {
      deleted := [];
      while count != 0
        invariant Valid() && |deleted| + |nodes| == |old(nodes)|
        invariant deleted == old(nodes)[..|deleted|] && nodes == old(nodes)[|deleted|..]
        decreases count
      {
        deleted := deleted + [head];
        PopFront();
      }
    }
  }
}
