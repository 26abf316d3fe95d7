/**
 IntrusiveDList: a circular doubly linked list through a sentinel root, linking nodes embedded in
 their elements. An element is identified with its embedded node.
 */
module IntrusiveDList {
  class DLinkNode {
    var prev: DLinkNode
    var next: DLinkNode

    constructor ()
      ensures prev == this && next == this
    {
      prev, next := this, this;
    }

    /** Splice the node out of whatever ring it is in, and leave it linked to itself. */
    method Unlink()
      modifies this, next`prev, prev`next
      ensures next == this && prev == this
      ensures old(next) != this ==> old(next).prev == old(prev)
      ensures old(prev) != this ==> old(prev).next == old(next)
    {
      next.prev := prev;
      prev.next := next;
      next := this;
      prev := this;
    }
  }

  /** Linked to itself, as the constructor and Unlink leave a node. */
  ghost predicate Loose(node: DLinkNode)
    reads node
  {
    node.next == node && node.prev == node
  }

  ghost predicate Distinct(s: seq<DLinkNode>) {
    forall i, j :: 0 <= i < j < |s| ==> s[i] != s[j]
  }

  class List {
    var root: DLinkNode
    var count: int
    ghost var ring: seq<DLinkNode>   // the root and then the elements in order

    ghost function Succ(i: nat): DLinkNode
      requires i < |ring|
      reads this
    {
      if i + 1 < |ring| then ring[i + 1] else ring[0]
    }

    ghost function Pred(i: nat): DLinkNode
      requires i < |ring|
      reads this
    {
      if i > 0 then ring[i - 1] else ring[|ring| - 1]
    }

    ghost predicate At(i: nat)
      reads this, ring
    {
      i < |ring| && ring[i].next == Succ(i) && ring[i].prev == Pred(i)
    }

    ghost predicate Valid()
      reads this, ring
    {
      && |ring| > 0 && ring[0] == root && count == |ring| - 1
      && Distinct(ring)
      && forall i: nat :: i < |ring| ==> At(i)
    }

    /** The abstract list. */
    ghost function Contents(): seq<DLinkNode>
      reads this
    {
      if ring == [] then [] else ring[1..]
    }

    constructor ()
      ensures Valid() && Contents() == [] && fresh(root) && ring == [root]
    {
      root := new DLinkNode();
      count := 0;
      ring := [root];
      new;
      assert At(0);
    }

    /** Following next, or prev, from any node of the ring goes to its neighbour and back again. */
    lemma Inverse(i: nat)
      requires Valid() && i < |ring|
      ensures ring[i].next in ring && ring[i].prev in ring
      ensures ring[i].next.prev == ring[i] && ring[i].prev.next == ring[i]
    {
      assert At(i);
      assert At(if i + 1 < |ring| then i + 1 else 0);
      assert At(if i > 0 then i - 1 else |ring| - 1);
    }

    // ---- iterators ----

    function Begin(): DLinkNode
      reads this, root
    {
      root.next
    }

    function End(): DLinkNode
      reads this
    {
      root
    }

    // ---- insertion ----

    /** The ring with a node inserted before position k, where position 0 is the end. */
    static ghost function Inserted(ring: seq<DLinkNode>, k: nat, node: DLinkNode): seq<DLinkNode>
      requires k < |ring|
    {
      if k == 0 then ring + [node] else ring[..k] + [node] + ring[k..]
    }

    /** What the four assignments of insert do to a ring. */
    twostate lemma InsertKeepsRing(k: nat, new node: DLinkNode)
      requires old(Valid()) && k < |old(ring)| && node !in old(ring) && root == old(root)
      requires count == old(count) + 1 && ring == Inserted(old(ring), k, node)
      requires var before := old(Pred(k));
               && node.next == old(ring)[k] && node.prev == before
               && before.next == node && old(ring)[k].prev == node
               && (forall n :: n in old(ring) && n != before ==> n.next == old(n.next))
               && (forall n :: n in old(ring) && n != old(ring)[k] ==> n.prev == old(n.prev))
      ensures Valid()
    {
      var m := if k == 0 then |old(ring)| else k;
      forall i: nat | i < |ring| ensures At(i) {
        if i < m {
          assert old(At(i));
        } else if i > m {
          assert ring[i] == old(ring)[i - 1];
          assert old(At(i - 1));
        }
      }
    }

    method Insert(curr: DLinkNode, node: DLinkNode, ghost k: nat) returns (it: DLinkNode)
      requires Valid() && k < |ring| && ring[k] == curr && node !in ring && count < 0x7FFF_FFFF
      modifies this`count, this`ring, node, curr`prev, curr.prev`next
      ensures Valid() && root == old(root) && ring == Inserted(old(ring), k, node)
      ensures it == node
    {
      assert At(k);
      node.prev := curr.prev;
      node.next := curr;
      curr.prev.next := node;
      curr.prev := node;
      count := count + 1;
      ring := Inserted(ring, k, node);
      InsertKeepsRing(k, node);
      it := node;
    }

    method PushFront(node: DLinkNode)
      requires Valid() && node !in ring && count < 0x7FFF_FFFF
      modifies this`count, this`ring, node, ring
      ensures Valid() && root == old(root) && Contents() == [node] + old(Contents())
    {
      assert At(0) && At(if |ring| == 1 then 0 else 1);
      var _ := Insert(Begin(), node, if |ring| == 1 then 0 else 1);
    }

    method PushBack(node: DLinkNode)
      requires Valid() && node !in ring && count < 0x7FFF_FFFF
      modifies this`count, this`ring, node, ring
      ensures Valid() && root == old(root) && Contents() == old(Contents()) + [node]
    {
      assert At(0);
      var _ := Insert(End(), node, 0);
    }

    // ---- removal ----

    static ghost function Removed(ring: seq<DLinkNode>, k: nat): seq<DLinkNode>
      requires 0 < k < |ring|
    {
      ring[..k] + ring[k + 1..]
    }

    twostate lemma RemoveKeepsRing(k: nat)
      requires old(Valid()) && 0 < k < |old(ring)| && root == old(root)
      requires count == old(count) - 1 && ring == Removed(old(ring), k)
      requires var before, after := old(Pred(k)), old(Succ(k));
               && before.next == after && after.prev == before
               && (forall n :: n in ring && n != before ==> n.next == old(n.next))
               && (forall n :: n in ring && n != after ==> n.prev == old(n.prev))
      ensures Valid()
    {
      forall i: nat | i < |ring| ensures At(i) {
        if i < k {
          assert old(At(i));
        } else {
          assert ring[i] == old(ring)[i + 1];
          assert old(At(i + 1));
        }
      }
    }

    /** Unlink the element at position k and count it out; shared by every removal. */
    method Remove(node: DLinkNode, ghost k: nat)
      requires Valid() && 0 < k < |ring| && ring[k] == node
      modifies this`count, this`ring, ring
      ensures Valid() && root == old(root) && ring == Removed(old(ring), k)
      ensures Loose(node) && node !in ring
    {
      assert At(k) && At(k - 1) && At(if k + 1 < |ring| then k + 1 else 0);
      node.Unlink();
      count := count - 1;
      ring := Removed(ring, k);
      RemoveKeepsRing(k);
    }

    method PopFront()
      requires Valid() && Contents() != []
      modifies this`count, this`ring, ring
      ensures Valid() && root == old(root) && Contents() == old(Contents())[1..] && Loose(old(Contents())[0])
    {
      assert At(0);
      Remove(root.next, 1);
    }

    method PopBack()
      requires Valid() && Contents() != []
      modifies this`count, this`ring, ring
      ensures Valid() && root == old(root) && Contents() == old(Contents())[..|old(Contents())| - 1]
      ensures Loose(old(Contents())[|old(Contents())| - 1])
    {
      assert At(0);
      Remove(root.prev, |ring| - 1);
    }

    /**
     Erase returns the iterator after the erased element, which it deletes if AutoDelete is set; the
     destructor's own Unlink finds the node linked to itself. Erasing the end does nothing.
     */
    method Erase(it: DLinkNode, autoDelete: bool, ghost k: nat) returns (after: DLinkNode, deleted: seq<DLinkNode>)
      requires Valid() && k < |ring| && ring[k] == it
      modifies this`count, this`ring, ring
      ensures Valid() && root == old(root)
      ensures k == 0 ==> ring == old(ring) && after == it && deleted == []
      ensures k > 0 ==> ring == Removed(old(ring), k) && after == old(Succ(k)) && Loose(it)
      ensures k > 0 ==> deleted == if autoDelete then [it] else []
    {
      deleted := [];
      if it == End() {
        return it, deleted;
      }
      assert At(k);
      after := it.next;
      Remove(it, k);
      if autoDelete {
        deleted := [it];
        it.Unlink();
      }
    }

    method UnlinkElement(node: DLinkNode, ghost k: nat)
      requires Valid() && 0 < k < |ring| && ring[k] == node
      modifies this`count, this`ring, ring
      ensures Valid() && root == old(root) && ring == Removed(old(ring), k) && Loose(node)
    {
      Remove(node, k);
    }

    static lemma FirstErased(orig: seq<DLinkNode>, ring: seq<DLinkNode>, k: nat)
      requires 1 + k < |orig| && |ring| > 1 && ring == ring[..1] + orig[1 + k..]
      ensures Removed(ring, 1) == ring[..1] + orig[2 + k..] && ring[1] == orig[1 + k]
      ensures orig[1..2 + k] == orig[1..1 + k] + [orig[1 + k]]
    {
      assert ring[2..] == orig[2 + k..];
    }

    method Clear(autoDelete: bool) returns (deleted: seq<DLinkNode>)
      requires Valid()
      modifies this`count, this`ring, ring
      ensures Valid() && root == old(root) && Contents() == [] && count == 0
      ensures deleted == if autoDelete then old(Contents()) else []
    {
      deleted := [];
      ghost var erased: seq<DLinkNode> := [];
      assert At(0);
      var it := Begin();
      while it != End()
        invariant |erased| < |old(ring)| && erased == old(ring)[1..1 + |erased|]
        invariant Valid() && root == old(root) && ring == [root] + old(ring)[1 + |erased|..]
        invariant it == if |ring| == 1 then root else ring[1]
        invariant deleted == if autoDelete then erased else []
        decreases |ring|
      {
        FirstErased(old(ring), ring, |erased|);
        erased := erased + [it];
        var gone;
        it, gone := Erase(it, autoDelete, 1);
        deleted := deleted + gone;
      }
    }

    method Swap(that: List)
      requires Valid() && that.Valid()
      modifies this, that
      ensures Valid() && that.Valid()
      ensures Contents() == old(that.Contents()) && that.Contents() == old(Contents())
      ensures root == old(that.root) && that.root == old(root)
    {
      root, that.root := that.root, root;
      count, that.count := that.count, count;
      ring, that.ring := that.ring, ring;
      forall i: nat | i < |ring| ensures At(i) {
        assert old(that.At(i));
      }
      forall i: nat | i < |that.ring| ensures that.At(i) {
        assert old(At(i));
      }
    }
  }
}
