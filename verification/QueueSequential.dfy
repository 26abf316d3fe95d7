/**
 LockFreeQueue used by one thread at a time, with the code's 16-bit tags. Without interference every
 compare-exchange finds the value just read, so the retry loops around them run once.
 */
module QueueSequential {
  import opened Element
  import opened TaggedPointer

  datatype Link = Link(node: Node?, tag: int)

  datatype Role = Live(position: nat) | Free(depth: nat)

  class Node {
    var prev: Link
    var next: Link
    var nextFree: Node?
    var value: Value

    /** `new Node` leaves every field but mNextFreeNode as it finds it. */
    constructor (prev: Link, next: Link, value: Value)
      ensures this.prev == prev && this.next == next && this.nextFree == null && this.value == value
    {
      this.prev, this.next, this.nextFree, this.value := prev, next, null, value;
    }
  }

  class LockFreeQueue {
    var head: Link
    var tail: Link
    var free: Link
    var size: int
    ghost var hist: seq<Node>          // the node linked at each position
    ghost var vals: seq<Value>         // the element pushed at each position
    ghost var front: nat               // the position of mHead
    ghost var pool: seq<Node>          // the free list, bottom first
    ghost var role: map<Node, Role>    // where each allocated node is

    // ---- the representation, one position at a time ----

    /** The live node at position p: behind the head it points back under its own tag and holds
        the element pushed there. */
    ghost predicate At(p: nat)
      reads this, role.Keys
    {
      && p < |hist| == |vals| && hist[p] in role && role[hist[p]] == Live(p)
      && (p > front ==> hist[p].next == Link(hist[p - 1], TagAt(p)) && hist[p].value == vals[p])
    }

    /** The mPrev of the node at position p: exactly right, or at least never wrong under a matching
        tag and not the mark of a released node. */
    ghost predicate HintAt(exact: bool, p: nat)
      reads this, role.Keys
    {
      && p + 1 < |hist| && hist[p] in role
      && (if exact then hist[p].prev == Link(hist[p + 1], TagAt(p))
          else && hist[p].prev.tag != INVALID_TAG
               && (hist[p].prev.tag == TagAt(p) ==> hist[p].prev.node == hist[p + 1]))
    }

    ghost function Below(i: nat): Node?
      requires i <= |pool|
      reads this
    {
      if i == 0 then null else pool[i - 1]
    }

    ghost predicate FreeAt(i: nat)
      reads this, role.Keys
    {
      i < |pool| && pool[i] in role && role[pool[i]] == Free(i) && pool[i].nextFree == Below(i)
    }

    ghost predicate RoleAt(n: Node)
      reads this
    {
      n in role &&
      match role[n]
      case Live(p) => front <= p < |hist| && hist[p] == n
      case Free(i) => i < |pool| && pool[i] == n
    }

    ghost predicate Ends()
      reads this
    {
      && front < |hist| == |vals|
      && head == Link(hist[front], TagAt(front))
      && tail == Link(hist[|hist| - 1], TagAt(|hist| - 1))
    }

    ghost predicate Chain()
      reads this, role.Keys
    {
      forall p: nat :: front <= p < |hist| ==> At(p)
    }

    ghost predicate Pool()
      reads this, role.Keys
    {
      free.node == Below(|pool|) && forall i: nat :: i < |pool| ==> FreeAt(i)
    }

    /** Every allocated node is live or free, and nowhere else. */
    ghost predicate Roles()
      reads this
    {
      forall n :: n in role ==> RoleAt(n)
    }

    ghost predicate Shape()
      reads this, role.Keys
    {
      Ends() && Chain() && Pool() && Roles()
    }

    ghost predicate Valid()
      reads this, role.Keys
    {
      Shape() && size == |Contents()| % 0x1_0000_0000_0000_0000
    }

    /** Single-threaded use keeps every mPrev exact. Pop makes do with hints that never lie under a
        matching tag and that are not marked invalid. */
    ghost predicate Hints(exact: bool)
      reads this, role.Keys
    {
      forall p: nat :: front <= p < |hist| - 1 ==> HintAt(exact, p)
    }

    lemma ExactHintsSuffice()
      requires Hints(true)
      ensures Hints(false)
    {
      forall p: nat | front <= p < |hist| - 1 ensures HintAt(false, p) {
        assert HintAt(true, p);
        TagAtValid(p);
      }
    }

    /** The abstract queue. */
    ghost function Contents(): seq<Value>
      reads this
    {
      if front < |vals| then vals[front + 1..] else []
    }

    // ---- frames ----

    /** The chain survives whatever leaves the live nodes' mNext and mValue alone. */
    twostate lemma ChainKept()
      requires old(Chain()) && hist == old(hist) && vals == old(vals) && front == old(front)
      requires forall n :: n in old(role) && old(role[n]).Live? ==>
                 n in role && role[n] == old(role[n]) && n.next == old(n.next) && n.value == old(n.value)
      ensures Chain()
    {
      forall p: nat | front <= p < |hist| ensures At(p) {
        assert old(At(p));
      }
    }

    twostate lemma HintsKept(exact: bool)
      requires old(Hints(exact)) && old(Chain()) && hist == old(hist) && front == old(front)
      requires forall n :: n in old(role) && old(role[n]).Live? ==> n in role && n.prev == old(n.prev)
      ensures Hints(exact)
    {
      forall p: nat | front <= p < |hist| - 1 ensures HintAt(exact, p) {
        assert old(HintAt(exact, p)) && old(At(p));
      }
    }

    twostate lemma PoolKept()
      requires old(Pool()) && pool == old(pool) && free == old(free)
      requires forall n :: n in old(role) && old(role[n]).Free? ==>
                 n in role && role[n] == old(role[n]) && n.nextFree == old(n.nextFree)
      ensures Pool()
    {
      forall i: nat | i < |pool| ensures FreeAt(i) {
        assert old(FreeAt(i));
      }
    }

    // ---- FixList ----

    /** Walk from the tail to the head and rewrite every mPrev; nothing else changes. */
    method FixList(tail: Link, head: Link) returns (steps: nat)
      requires Ends() && Chain() && tail == this.tail && head == this.head
      modifies role.Keys`prev
      ensures Chain() && Hints(true)
      ensures forall n :: n in role && (role[n].Free? || n == tail.node) ==> n.prev == old(n.prev)
      ensures steps == |Contents()|
    {
      var current := tail;
      ghost var k := |hist| - 1;
      steps := 0;
      while head == this.head && current != head
        invariant front <= k < |hist| && steps == |hist| - 1 - k
        invariant current == Link(hist[k], TagAt(k))
        invariant Chain()
        invariant forall p: nat :: k <= p < |hist| - 1 ==> HintAt(true, p)
        invariant forall n :: n in role && (role[n].Free? || n == tail.node) ==> n.prev == old(n.prev)
        decreases k
      {
        assert At(k) && At(k - 1) && At(|hist| - 1);
        TagAtValid(k - 1);
        label before:
        var next := current.node.next;
        next.node.prev := Link(current.node, PrevTag(current.tag));
        ChainKept@before();
        forall p: nat | k <= p < |hist| - 1 ensures HintAt(true, p) {
          assert old@before(HintAt(true, p)) && At(p);
        }
        current := Link(next.node, PrevTag(current.tag));
        k, steps := k - 1, steps + 1;
        assert HintAt(true, k);
      }
      assert At(k) && At(front);
    }

    // ---- the free list ----

    /** AcquireNode: take the top of the free list, or allocate when it is empty and the caller asks. */
    method AcquireNode(allocate: bool) returns (node: Node?)
      requires Shape()
      modifies this`free, this`pool, this`role
      ensures Shape()
      ensures node == null <==> old(pool) == [] && !allocate
      ensures node != null ==> node !in role && (node in old(role) || fresh(node))
      ensures if old(pool) == [] then pool == [] && role == old(role)
              else |pool| == |old(pool)| - 1 && pool == old(pool)[..|pool|] &&
                   node == old(pool)[|pool|] && role == old(role) - {node}
      ensures free.tag == if old(pool) == [] then old(free.tag) else NextTag(old(free.tag))
      ensures forall exact :: old(Hints(exact)) ==> Hints(exact)
    {
      node := free.node;
      if node == null {
        assert pool == [];
        if allocate {
          var prev: Link, next: Link, value: Value := *, *, *;
          node := new Node(prev, next, value);
        }
      } else {
        assert FreeAt(|pool| - 1);
        free := Link(node.nextFree, NextTag(free.tag));
        pool, role := pool[..|pool| - 1], role - {node};
        ChainKept();
        forall i: nat | i < |pool| ensures FreeAt(i) {
          assert old(FreeAt(i));
        }
        forall n | n in role ensures RoleAt(n) {
          assert old(RoleAt(n));
        }
        forall exact | old(Hints(exact)) ensures Hints(exact) {
          HintsKept(exact);
        }
      }
    }

    /** ReleaseNode: clear the node and put it on top of the free list. */
    method ReleaseNode(node: Node)
      requires Shape() && node !in role
      modifies this`free, this`pool, this`role, node
      ensures Shape()
      ensures pool == old(pool) + [node] && role == old(role)[node := Free(|old(pool)|)]
      ensures node.value == BLANK && node.prev == Link(null, 0xdead) && node.next == old(node.next)
      ensures free == Link(node, NextTag(old(free.tag)))
      ensures forall exact :: old(Hints(exact)) ==> Hints(exact)
    {
      node.value := BLANK;
      node.prev := Link(null, INVALID_TAG);
      node.nextFree := free.node;
      free := Link(node, NextTag(free.tag));
      pool, role := pool + [node], role[node := Free(|pool|)];
      ChainKept();
      forall i: nat | i < |pool| ensures FreeAt(i) {
        if i < |pool| - 1 {
          assert old(FreeAt(i));
        }
      }
      forall n | n in role ensures RoleAt(n) {
        if n != node {
          assert old(RoleAt(n));
        }
      }
      forall exact | old(Hints(exact)) ensures Hints(exact) {
        HintsKept(exact);
      }
    }

    // ---- the operations ----

    constructor ()
      ensures Valid() && Hints(true) && Contents() == [] && fresh(role.Keys)
    {
      var prev: Link, next: Link, value: Value := *, *, *;
      var node := new Node(prev, next, value);
      node.next := Link(null, 0xFFFF);
      node.prev := Link(node, 0xFFFF);
      head := Link(node, 0);
      tail := Link(node, 0);
      free := Link(null, 0xFFFF);
      size := 0;
      hist, vals, front := [node], [value], 0;
      pool, role := [], map[node := Live(0)];
      new;
      assert At(0) && RoleAt(node);
    }

    /** Node has just been linked behind the tail; of the old hints only the old tail's has changed. */
    twostate predicate Extends(new node: Node, new e: Value)
      requires |old(hist)| > 0
      reads this, node, role.Keys
    {
      && node !in old(role) && front == old(front)
      && hist == old(hist) + [node] && vals == old(vals) + [e]
      && role == old(role)[node := Live(|old(hist)|)]
      && (forall n :: n in old(role) ==>
            && n.next == old(n.next) && n.value == old(n.value) && n.nextFree == old(n.nextFree)
            && (n == old(hist)[|old(hist)| - 1] || n.prev == old(n.prev)))
      && node.next == Link(old(hist)[|old(hist)| - 1], TagAt(|old(hist)|)) && node.value == e
      && hist[|old(hist)| - 1] in role && hist[|old(hist)| - 1].prev == Link(node, TagAt(|old(hist)| - 1))
    }

    twostate lemma ChainGrows(new node: Node, new e: Value)
      requires old(Ends()) && old(Chain()) && Extends(node, e)
      ensures Chain()
    {
      forall p: nat | front <= p < |hist| ensures At(p) {
        if p < |old(hist)| {
          assert old(At(p));
        }
      }
    }

    twostate lemma HintsGrow(new node: Node, new e: Value, exact: bool)
      requires old(Ends()) && old(Hints(exact)) && old(Chain()) && Extends(node, e)
      ensures Hints(exact)
    {
      TagAtValid(|old(hist)| - 1);
      forall p: nat | front <= p < |hist| - 1 ensures HintAt(exact, p) {
        assert old(At(p)) && old(At(|hist| - 1));
        if p < |old(hist)| - 1 {
          assert old(HintAt(exact, p));
        }
      }
    }

    twostate lemma RolesGrow(new node: Node, new e: Value)
      requires old(Ends()) && old(Roles()) && Extends(node, e) && pool == old(pool)
      ensures Roles()
    {
      forall n | n in role ensures RoleAt(n) {
        if n != node {
          assert old(RoleAt(n));
        }
      }
    }

    static lemma CountUp(n: nat)
      ensures (n % WORD + 1) % WORD == (n + 1) % WORD
    {
    }

    twostate lemma SizeGrows(new e: Value)
      requires old(size) == |old(Contents())| % WORD && size == (old(size) + 1) % WORD
      requires front == old(front) < |old(vals)| && vals == old(vals) + [e]
      ensures size == |Contents()| % WORD
    {
      CountUp(|old(Contents())|);
    }

    twostate lemma ValidGrows(new node: Node, new e: Value)
      requires old(Valid()) && Extends(node, e) && pool == old(pool) && free == old(free) && head == old(head)
      requires tail == Link(node, TagAt(|old(hist)|)) && size == (old(size) + 1) % WORD
      ensures Valid() && forall exact :: old(Hints(exact)) ==> Hints(exact)
    {
      ChainGrows(node, e);
      RolesGrow(node, e);
      PoolKept();
      SizeGrows(e);
      forall exact | old(Hints(exact)) ensures Hints(exact) {
        HintsGrow(node, e, exact);
      }
    }

    /** Push from its reading of mTail on, given the tag of the new tail. */
    method LinkNode(node: Node, e: Value, last: Link, tag: int)
      requires |hist| > 0 && node !in role && hist[|hist| - 1] in role
      requires last == tail == Link(hist[|hist| - 1], TagAt(|hist| - 1)) && tag == TagAt(|hist|)
      modifies this`tail, this`size, this`hist, this`vals, this`role, role.Keys`prev, node
      ensures Extends(node, e) && tail == Link(node, tag) && size == (old(size) + 1) % WORD
    {
      node.value := e;
      node.next := Link(last.node, tag);
      tail := Link(node, tag);
      last.node.prev := Link(node, last.tag);
      size := (size + 1) % WORD;
      hist, vals, role := hist + [node], vals + [e], role[node := Live(|hist|)];
    }

    /** Push after AcquireNode. */
    method PushNode(node: Node, e: Value)
      requires Valid() && node !in role
      modifies this`tail, this`size, this`hist, this`vals, this`role, role.Keys`prev, node
      ensures Valid() && front == old(front) && vals == old(vals) + [e]
      ensures role.Keys == old(role.Keys) + {node}
      ensures forall exact :: old(Hints(exact)) ==> Hints(exact)
    {
      assert At(|hist| - 1);
      TagAtValid(|hist| - 1);
      LinkNode(node, e, tail, NextTag(tail.tag));
      ValidGrows(node, e);
    }

    method Push(e: Value) returns (count: int)
      requires Valid()
      modifies this, role.Keys
      ensures Valid() && Contents() == old(Contents()) + [e]
      ensures count == |Contents()| % 0x1_0000_0000_0000_0000
      ensures forall exact :: old(Hints(exact)) ==> Hints(exact)
      ensures old(role.Keys) <= role.Keys && fresh(role.Keys - old(role.Keys))
      ensures if old(pool) == [] then pool == [] else |pool| == |old(pool)| - 1 && role.Keys == old(role.Keys)
    {
      var node := AcquireForPush();
      PushNode(node, e);
      count := size;
      ContentsGrow(e);
    }

    twostate lemma ContentsGrow(new e: Value)
      requires front == old(front) < |old(vals)| && vals == old(vals) + [e]
      ensures Contents() == old(Contents()) + [e]
    {
    }

    /** AcquireNode as Push calls it. */
    method AcquireForPush() returns (node: Node)
      requires Valid()
      modifies this`free, this`pool, this`role
      ensures Valid() && node !in role && (node in old(role) || fresh(node))
      ensures role.Keys == old(role.Keys) - {node}
      ensures if old(pool) == [] then pool == [] && fresh(node) else pool + [node] == old(pool) && node in old(role)
      ensures forall exact :: old(Hints(exact)) ==> Hints(exact)
    {
      node := AcquireNode(true);
    }

    /** The head has moved on to the next node, and the old head is in nobody's hands but ours. */
    twostate predicate Advances(new node: Node)
      requires old(front) < |old(hist)|
      reads this
    {
      && node == old(hist)[old(front)] && front == old(front) + 1 < |hist|
      && hist == old(hist) && vals == old(vals) && pool == old(pool) && free == old(free) && tail == old(tail)
      && head == Link(hist[front], TagAt(front))
      && role == old(role) - {node}
    }

    twostate lemma ShapeShrinks(new node: Node)
      requires old(Shape()) && Advances(node)
      requires forall n :: n in role ==> unchanged(n)
      ensures Shape() && forall exact :: old(Hints(exact)) ==> Hints(exact)
    {
      var first := old(front);
      assert old(At(first));
      forall p: nat | front <= p < |hist| ensures At(p) {
        assert old(At(p));
      }
      forall n | n in old(role) && old(role[n]).Free?
        ensures n in role && role[n] == old(role[n]) && n.nextFree == old(n.nextFree)
      {
        assert n != node;
      }
      PoolKept();
      forall n | n in role ensures RoleAt(n) {
        assert old(RoleAt(n));
      }
      forall exact | old(Hints(exact)) ensures Hints(exact) {
        forall p: nat | front <= p < |hist| - 1 ensures HintAt(exact, p) {
          assert old(HintAt(exact, p)) && old(At(p));
        }
      }
    }

    /** The compare-exchange of mHead, given the node that mPrev names. */
    method AdvanceHead(first: Link, second: Node)
      requires Shape() && front < |hist| - 1 && first == head && second == hist[front + 1]
      modifies this`head, this`front, this`role
      ensures Shape() && front == old(front) + 1
      ensures first.node in old(role) && role == old(role) - {first.node}
      ensures forall exact :: old(Hints(exact)) ==> Hints(exact)
    {
      assert At(front);
      TagAtValid(front);
      head := Link(second, NextTag(first.tag));
      front, role := front + 1, role - {first.node};
      ShapeShrinks(first.node);
    }

    static lemma CountDown(n: nat)
      requires n > 0
      ensures (n % WORD - 1) % WORD == (n - 1) % WORD
    {
    }

    /** The shape does not depend on mSize. */
    twostate lemma SizeIsApart()
      requires old(Shape()) && head == old(head) && tail == old(tail) && free == old(free)
      requires hist == old(hist) && vals == old(vals) && front == old(front) && pool == old(pool) && role == old(role)
      requires forall n :: n in role ==> unchanged(n)
      ensures Shape() && forall exact :: old(Hints(exact)) ==> Hints(exact)
    {
      ChainKept();
      PoolKept();
      forall n | n in role ensures RoleAt(n) {
        assert old(RoleAt(n));
      }
      forall exact | old(Hints(exact)) ensures Hints(exact) {
        HintsKept(exact);
      }
    }

    /** The compare-exchange of mHead and the release of the node it leaves. */
    method UnlinkFirst(first: Link, second: Node)
      requires Shape() && front < |hist| - 1 && first == head && second == hist[front + 1]
      modifies this`head, this`front, this`free, this`pool, this`role, first.node
      ensures Shape() && front == old(front) + 1 && role.Keys == old(role.Keys)
      ensures pool == old(pool) + [first.node] && first.node.value == BLANK
      ensures forall exact :: old(Hints(exact)) ==> Hints(exact)
    {
      AdvanceHead(first, second);
      ReleaseNode(first.node);
    }

    /** Pop from its compare-exchange of mHead on. */
    method TakeFirst(first: Link, second: Node)
      requires Valid() && front < |hist| - 1 && first == head && second == hist[front + 1]
      modifies this`head, this`front, this`free, this`pool, this`role, this`size, first.node
      ensures Valid() && vals == old(vals) && front == old(front) + 1
      ensures role.Keys == old(role.Keys) && pool == old(pool) + [first.node] && first.node.value == BLANK
      ensures forall exact :: old(Hints(exact)) ==> Hints(exact)
    {
      CountDown(|Contents()|);
      UnlinkFirst(first, second);
      label released:
      size := (size - 1) % WORD;
      SizeIsApart@released();
    }

    /** Pop's call of FixList restores every hint and keeps the rest. */
    method Repair(last: Link, first: Link)
      requires Valid() && last == tail && first == head
      modifies role.Keys`prev
      ensures Valid() && Hints(true)
    {
      var _ := FixList(last, first);
      PoolKept();
    }

    /** What Pop's reads of mHead, mTail and the head's mPrev tell. */
    lemma HeadFacts()
      requires Ends() && Chain() && Hints(false)
      ensures head.node in role && (tail == head <==> Contents() == [])
      ensures tail != head ==>
                && head.node.prev.tag != INVALID_TAG
                && (Hints(true) ==> head.node.prev.tag == head.tag)
                && (head.node.prev.tag == head.tag ==>
                      && head.node.prev.node == hist[front + 1] && hist[front + 1] in role
                      && hist[front + 1].value == vals[front + 1])
    {
      assert At(front) && At(|hist| - 1);
      if tail != head {
        assert At(front + 1) && HintAt(false, front);
        assert Hints(true) ==> HintAt(true, front);
      }
    }

    /**
     Pop. The tag match fails, and FixList runs, only when the head's mPrev is not the one that
     single-threaded use leaves there; the loop then runs once more.
     */
    method Pop() returns (ok: bool, v: Value, repairs: nat)
      requires Valid() && Hints(false)
      modifies this, role.Keys
      ensures Valid() && Hints(false) && role.Keys == old(role.Keys)
      ensures ok <==> old(Contents()) != []
      ensures ok ==> old(Contents()) == [v] + Contents()
      ensures !ok ==> Contents() == []
      ensures pool == if ok then old(pool) + [old(head.node)] else old(pool)
      ensures repairs <= 1
      ensures old(Hints(true)) ==> Hints(true) && repairs == 0
    {
      v, repairs := BLANK, 0;
      while true
        invariant Valid() && Hints(false) && role == old(role) && vals == old(vals) && front == old(front)
        invariant pool == old(pool) && head == old(head)
        invariant repairs <= 1 && (repairs == 1 ==> Hints(true))
        invariant old(Hints(true)) ==> Hints(true) && repairs == 0
        decreases 1 - repairs
      {
        HeadFacts();
        var first, last := head, tail;
        var prev := first.node.prev;
        if last == first {
          return false, v, repairs;
        }
        if prev.tag == INVALID_TAG {
          assert false;
        } else if prev.tag != first.tag {
          Repair(last, first);
          ExactHintsSuffice();
          repairs := repairs + 1;
        } else {
          v := prev.node.value;
          TakeFirst(first, prev.node);
          return true, v, repairs;
        }
      }
    }

    // ---- the destructor ----

    method PopAll()
      requires Valid() && Hints(false)
      modifies this, role.Keys
      ensures Valid() && Contents() == [] && role.Keys == old(role.Keys)
    {
      var more := true;
      while more
        invariant Valid() && Hints(false) && role.Keys == old(role.Keys)
        invariant !more ==> Contents() == []
        decreases more, |Contents()|
      {
        var ok, _, _ := Pop();
        more := ok;
      }
    }

    /** Take nodes off the free list until it is empty. */
    method DeletePool() returns (deleted: seq<Node>)
      requires Shape()
      modifies this`free, this`pool, this`role
      ensures Shape() && pool == []
      ensures forall i, j :: 0 <= i < j < |deleted| ==> deleted[i] != deleted[j]
      ensures forall n :: n in deleted ==> n !in role
      ensures forall n :: n in old(role) <==> n in role || n in deleted
    {
      deleted := [];
      var node := AcquireNode(false);
      while node != null
        invariant Shape() && (node == null ==> pool == [])
        invariant forall i, j :: 0 <= i < j < |deleted| ==> deleted[i] != deleted[j]
        invariant forall n :: n in deleted ==> n !in role && n != node
        invariant node != null ==> node !in role
        invariant forall n :: n in old(role) <==> n in role || n in deleted || n == node
        decreases node != null, |pool|
      {
        deleted := deleted + [node];
        node := AcquireNode(false);
      }
    }

    /** The destructor: pop everything, then delete the free nodes, then the last head node. */
    method Destroy() returns (deleted: seq<Node>)
      requires Valid() && Hints(false)
      modifies this, role.Keys
      ensures forall i, j :: 0 <= i < j < |deleted| ==> deleted[i] != deleted[j]
      ensures forall n :: n in deleted <==> n in old(role)
    {
      PopAll();
      deleted := DeletePool();
      LastNode();
      deleted := deleted + [head.node];
    }

    lemma LastNode()
      requires Shape() && Contents() == [] && pool == []
      ensures head.node in role && forall n :: n in role ==> n == head.node
    {
      assert At(front);
      forall n | n in role ensures n == head.node {
        assert RoleAt(n);
      }
    }
  }
}
