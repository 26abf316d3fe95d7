/**
 LockFreeStack as a concurrent program over its node array: a stack and a free list, both Treiber
 lists with tagged heads, and one atomic step per shared access.
 The tag modulus is a parameter: 0 means unbounded tags, 2^32 is the modulus of the code.
 */
module StackModel {
  import opened Element

  /** kLockFreeNullPointer. */
  const NIL: nat := 0xFFFF_FFFF

  const SIZE_MODULUS: int := 0x1_0000_0000_0000_0000

  const TAG_MODULUS: nat := 0x1_0000_0000

  datatype Ptr = Ptr(index: nat, tag: nat)

  datatype Node = Node(next: nat, nextFree: nat, value: Value)

  datatype Local =
    | Idle
      // AcquireNode, called by Push
    | AcqTop(elem: Value)
    | AcqNext(elem: Value, top: Ptr)
    | AcqCas(elem: Value, top: Ptr, after: nat)
    | PushFull(elem: Value)
      // Push
    | PushValue(elem: Value, node: nat)
    | PushTop(elem: Value, node: nat)
    | PushNext(elem: Value, node: nat, top: Ptr)
    | PushCas(elem: Value, node: nat, top: Ptr)
    | PushCount(elem: Value)
      // Pop
    | PopTop
    | PopNext(top: Ptr)
    | PopCas(top: Ptr, after: nat)
    | PopEmpty
    | PopValue(node: nat)
      // ReleaseNode, called by Pop
    | RelClear(got: Value, node: nat)
    | RelTop(got: Value, node: nat)
    | RelNext(got: Value, node: nat, top: Ptr)
    | RelCas(got: Value, node: nat, top: Ptr)
    | PopCount(got: Value)

  datatype State = State(nodes: seq<Node>, head: Ptr, free: Ptr, size: int, threads: seq<Local>)

  datatype Choice = Go | CallPush(elem: Value) | CallPop

  /** Reads of indices outside the array are given a value, and shown never to happen. */
  function Load(nodes: seq<Node>, i: nat): Node {
    if i < |nodes| then nodes[i] else Node(NIL, NIL, BLANK)
  }

  function Store(nodes: seq<Node>, i: nat, n: Node): seq<Node> {
    if i < |nodes| then nodes[i := n] else nodes
  }

  /** The tag of the new head: the old tag plus one, which is 0 again at m. */
  function Bump(m: nat, tag: nat): nat {
    if tag + 1 == m then 0 else tag + 1
  }

  predicate Enabled(s: State, t: nat, c: Choice) {
    t < |s.threads| && (s.threads[t].Idle? <==> !c.Go?)
  }

  function Goto(s: State, t: nat, l: Local): State
    requires t < |s.threads|
  {
    s.(threads := s.threads[t := l])
  }

  /** One step of thread t with tag modulus m. */
  function Exec(m: nat, s: State, t: nat, c: Choice): State
    requires Enabled(s, t, c)
  {
    match s.threads[t]
    case Idle => Goto(s, t, if c.CallPush? then AcqTop(c.elem) else PopTop)
    case AcqTop(e) => Goto(s, t, if s.free.index == NIL then PushFull(e) else AcqNext(e, s.free))
    case AcqNext(e, top) => Goto(s, t, AcqCas(e, top, Load(s.nodes, top.index).nextFree))
    case AcqCas(e, top, after) =>
      if s.free == top
      then Goto(s, t, PushValue(e, top.index)).(free := Ptr(after, Bump(m, top.tag)))
      else Goto(s, t, AcqTop(e))
    case PushFull(e) => Goto(s, t, Idle)
    case PushValue(e, n) =>
      Goto(s, t, PushTop(e, n)).(nodes := Store(s.nodes, n, Load(s.nodes, n).(value := e)))
    case PushTop(e, n) => Goto(s, t, PushNext(e, n, s.head))
    case PushNext(e, n, top) =>
      Goto(s, t, PushCas(e, n, top)).(nodes := Store(s.nodes, n, Load(s.nodes, n).(next := top.index)))
    case PushCas(e, n, top) =>
      if s.head == top
      then Goto(s, t, PushCount(e)).(head := Ptr(n, Bump(m, top.tag)))
      else Goto(s, t, PushTop(e, n))
    case PushCount(e) => Goto(s, t, Idle).(size := (s.size + 1) % SIZE_MODULUS)
    case PopTop => Goto(s, t, if s.head.index == NIL then PopEmpty else PopNext(s.head))
    case PopNext(top) => Goto(s, t, PopCas(top, Load(s.nodes, top.index).next))
    case PopCas(top, after) =>
      if s.head == top
      then Goto(s, t, PopValue(top.index)).(head := Ptr(after, Bump(m, top.tag)))
      else Goto(s, t, PopTop)
    case PopEmpty => Goto(s, t, Idle)
    case PopValue(n) => Goto(s, t, RelClear(Load(s.nodes, n).value, n))
    case RelClear(got, n) =>
      Goto(s, t, RelTop(got, n)).(nodes := Store(s.nodes, n, Load(s.nodes, n).(value := BLANK)))
    case RelTop(got, n) => Goto(s, t, RelNext(got, n, s.free))
    case RelNext(got, n, top) =>
      Goto(s, t, RelCas(got, n, top)).(nodes := Store(s.nodes, n, Load(s.nodes, n).(nextFree := top.index)))
    case RelCas(got, n, top) =>
      if s.free == top
      then Goto(s, t, PopCount(got)).(free := Ptr(n, Bump(m, top.tag)))
      else Goto(s, t, RelTop(got, n))
    case PopCount(got) => Goto(s, t, Idle).(size := (s.size - 1) % SIZE_MODULUS)
  }

  // ---- the constructor ----

  function Top(list: seq<nat>): nat {
    if list == [] then NIL else list[|list| - 1]
  }

  /** `order` lists every index below n once. */
  predicate Permutation(order: seq<nat>, n: nat) {
    && |order| == n
    && (forall k :: 0 <= k < n ==> order[k] < n)
    && (forall j, k :: 0 <= j < k < n ==> order[j] != order[k])
    && (forall i :: 0 <= i < n ==> i in order)
  }

  /** The free list that releasing the nodes in the given order builds. */
  predicate Threaded(nodes: seq<Node>, order: seq<nat>) {
    forall k :: 0 <= k < |order| ==> Load(nodes, order[k]).nextFree == Top(order[..k])
  }

  /** The stack as its constructor leaves it for some shuffled order, with every thread idle; Normalize aborts
      on sizes outside 1 .. 2^24 - 1. */
  predicate Initial(m: nat, s: State, order: seq<nat>) {
    && 0 < |s.nodes| < 0x100_0000
    && Permutation(order, |s.nodes|) && Threaded(s.nodes, order)
    && s.free == Ptr(Top(order), if m == 0 then |order| else |order| % m)
    && s.head == Ptr(NIL, 0) && s.size == 0
    && forall t :: 0 <= t < |s.threads| ==> s.threads[t] == Idle
  }

  /** The constructor: release every node, in shuffled order, into an empty free list. */
  method Construct(size: nat, order: seq<nat>, buffer: array<Node>, threads: nat) returns (s: State)
    requires 0 < size < 0x100_0000 && buffer.Length == size && Permutation(order, size)
    modifies buffer
    ensures Initial(TAG_MODULUS, s, order) && |s.threads| == threads
    ensures s.nodes == buffer[..]
  {
    var free := Ptr(NIL, 0);
    for k := 0 to size
      invariant free == Ptr(Top(order[..k]), k)
      invariant forall j :: 0 <= j < k ==> buffer[order[j]].nextFree == Top(order[..j])
    {
      buffer[order[k]] := Node(0, free.index, BLANK);
      free := Ptr(order[k], Bump(TAG_MODULUS, free.tag));
      assert order[..k + 1][k] == order[k];
    }
    assert order[..size] == order;
    s := State(buffer[..], Ptr(NIL, 0), free, 0, seq(threads, i => Idle));
  }
}
