/**
 LockFreeQueue as a concurrent program: shared memory, one program counter per thread, and one
 atomic step per shared read, shared write, compare-exchange or counter update.
 Tags are unbounded integers here; the 16-bit tags are the subject of QueueSequential.
 */
module QueueModel {
  import opened Element

  const NULL: nat := 0

  /** The unbounded counterparts of tags 0xFFFF (the tag before 0) and kInvalidTag. */
  const BEFORE_ZERO: int := -1
  const INVALID_TAG: int := -2

  /** The number of values of size_t. */
  const SIZE_MODULUS: int := 0x1_0000_0000_0000_0000

  /** A tagged pointer. */
  datatype Ptr = Ptr(addr: nat, tag: int)

  datatype Node = Node(prev: Ptr, next: Ptr, nextFree: nat, value: Value)

  /** The program counter and local variables of a thread; the name says which step comes next. */
  datatype Local =
    | Idle
      // AcquireNode, called by Push
    | AcqTop(elem: Value)
    | AcqNew(elem: Value)
    | AcqNext(elem: Value, top: Ptr)
    | AcqCas(elem: Value, top: Ptr, after: nat)
      // Push
    | PushValue(elem: Value, node: nat)
    | PushTail(elem: Value, node: nat)
    | PushNext(elem: Value, node: nat, tail: Ptr)
    | PushCas(elem: Value, node: nat, tail: Ptr)
    | PushLink(elem: Value, node: nat, tail: Ptr)
    | PushCount(elem: Value)
      // Pop
    | PopHead
    | PopTail(head: Ptr)
    | PopPrev(head: Ptr, tail: Ptr)
    | PopCheck(head: Ptr, tail: Ptr, prev: Ptr)
    | PopValue(head: Ptr, prev: Ptr)
    | PopCas(head: Ptr, prev: Ptr, got: Value)
      // ReleaseNode, called by Pop
    | RelClear(got: Value, node: nat)
    | RelTop(got: Value, node: nat)
    | RelPrev(got: Value, node: nat, top: Ptr)
    | RelNext(got: Value, node: nat, top: Ptr)
    | RelCas(got: Value, node: nat, top: Ptr)
    | PopCount(got: Value)
      // FixList, called by Pop
    | FixCheck(head: Ptr, current: Ptr)
    | FixNext(head: Ptr, current: Ptr)
    | FixLink(head: Ptr, current: Ptr, next: Ptr)

  datatype State = State(
    mem: map<nat, Node>,
    head: Ptr,
    tail: Ptr,
    free: Ptr,
    size: int,
    threads: seq<Local>)

  /** What the environment decides at a step: the call to make, or the memory that `new` returns. */
  datatype Choice = Go | CallPush(elem: Value) | CallPop | Allocate(addr: nat, garbage: Node)

  /** Reads of addresses outside the allocated nodes are given a value, and shown never to happen. */
  function Load(mem: map<nat, Node>, a: nat): Node {
    if a in mem then mem[a] else Node(Ptr(NULL, BEFORE_ZERO), Ptr(NULL, BEFORE_ZERO), NULL, BLANK)
  }

  function SetPrev(mem: map<nat, Node>, a: nat, p: Ptr): map<nat, Node> {
    mem[a := Load(mem, a).(prev := p)]
  }

  function SetNext(mem: map<nat, Node>, a: nat, p: Ptr): map<nat, Node> {
    mem[a := Load(mem, a).(next := p)]
  }

  function SetNextFree(mem: map<nat, Node>, a: nat, b: nat): map<nat, Node> {
    mem[a := Load(mem, a).(nextFree := b)]
  }

  function SetValue(mem: map<nat, Node>, a: nat, v: Value): map<nat, Node> {
    mem[a := Load(mem, a).(value := v)]
  }

  predicate Enabled(s: State, t: nat, c: Choice) {
    t < |s.threads| &&
    match s.threads[t]
    case Idle => c.CallPush? || c.CallPop?
    case AcqNew(_) => c.Allocate? && c.addr != NULL && c.addr !in s.mem
    case _ => c.Go?
  }

  function Goto(s: State, t: nat, l: Local): State
    requires t < |s.threads|
  {
    s.(threads := s.threads[t := l])
  }

  /** The branch taken after Pop has re-read mHead. */
  function Decide(s: State, head: Ptr, tail: Ptr, prev: Ptr): Local {
    if head != s.head then PopHead
    else if tail == head then Idle
    else if prev.tag == INVALID_TAG then PopHead
    else if prev.tag != head.tag then FixCheck(head, tail)
    else PopValue(head, prev)
  }

  /** One step of thread t. */
  function Exec(s: State, t: nat, c: Choice): State
    requires Enabled(s, t, c)
  {
    match s.threads[t]
    case Idle =>
      Goto(s, t, if c.CallPush? then AcqTop(c.elem) else PopHead)
    case AcqTop(e) =>
      Goto(s, t, if s.free.addr == NULL then AcqNew(e) else AcqNext(e, s.free))
    case AcqNew(e) =>
      Goto(s, t, PushValue(e, c.addr)).(mem := s.mem[c.addr := c.garbage.(nextFree := NULL)])
    case AcqNext(e, top) =>
      Goto(s, t, AcqCas(e, top, Load(s.mem, top.addr).nextFree))
    case AcqCas(e, top, after) =>
      if s.free == top
      then Goto(s, t, PushValue(e, top.addr)).(free := Ptr(after, top.tag + 1))
      else Goto(s, t, AcqTop(e))
    case PushValue(e, n) =>
      Goto(s, t, PushTail(e, n)).(mem := SetValue(s.mem, n, e))
    case PushTail(e, n) =>
      Goto(s, t, PushNext(e, n, s.tail))
    case PushNext(e, n, tail) =>
      Goto(s, t, PushCas(e, n, tail)).(mem := SetNext(s.mem, n, Ptr(tail.addr, tail.tag + 1)))
    case PushCas(e, n, tail) =>
      if s.tail == tail
      then Goto(s, t, PushLink(e, n, tail)).(tail := Ptr(n, tail.tag + 1))
      else Goto(s, t, PushTail(e, n))
    case PushLink(e, n, tail) =>
      Goto(s, t, PushCount(e)).(mem := SetPrev(s.mem, tail.addr, Ptr(n, tail.tag)))
    case PushCount(e) =>
      Goto(s, t, Idle).(size := (s.size + 1) % SIZE_MODULUS)
    case PopHead =>
      Goto(s, t, PopTail(s.head))
    case PopTail(head) =>
      Goto(s, t, PopPrev(head, s.tail))
    case PopPrev(head, tail) =>
      Goto(s, t, PopCheck(head, tail, Load(s.mem, head.addr).prev))
    case PopCheck(head, tail, prev) =>
      Goto(s, t, Decide(s, head, tail, prev))
    case PopValue(head, prev) =>
      Goto(s, t, PopCas(head, prev, Load(s.mem, prev.addr).value))
    case PopCas(head, prev, got) =>
      if s.head == head
      then Goto(s, t, RelClear(got, head.addr)).(head := Ptr(prev.addr, head.tag + 1))
      else Goto(s, t, PopHead)
    case RelClear(got, n) =>
      Goto(s, t, RelTop(got, n)).(mem := SetValue(s.mem, n, BLANK))
    case RelTop(got, n) =>
      Goto(s, t, RelPrev(got, n, s.free))
    case RelPrev(got, n, top) =>
      Goto(s, t, RelNext(got, n, top)).(mem := SetPrev(s.mem, n, Ptr(NULL, INVALID_TAG)))
    case RelNext(got, n, top) =>
      Goto(s, t, RelCas(got, n, top)).(mem := SetNextFree(s.mem, n, top.addr))
    case RelCas(got, n, top) =>
      if s.free == top
      then Goto(s, t, PopCount(got)).(free := Ptr(n, top.tag + 1))
      else Goto(s, t, RelTop(got, n))
    case PopCount(got) =>
      Goto(s, t, Idle).(size := (s.size - 1) % SIZE_MODULUS)
    case FixCheck(head, current) =>
      Goto(s, t, if head == s.head && current != head then FixNext(head, current) else PopHead)
    case FixNext(head, current) =>
      Goto(s, t, FixLink(head, current, Load(s.mem, current.addr).next))
    case FixLink(head, current, next) =>
      Goto(s, t, FixCheck(head, Ptr(next.addr, current.tag - 1)))
        .(mem := SetPrev(s.mem, next.addr, Ptr(current.addr, current.tag - 1)))
  }

  /** The queue as its constructor leaves it, with every thread about to make a call. */
  predicate Initial(s: State) {
    && s.head.addr != NULL
    && s.mem.Keys == {s.head.addr}
    && s.mem[s.head.addr].prev == Ptr(s.head.addr, BEFORE_ZERO)
    && s.mem[s.head.addr].next == Ptr(NULL, BEFORE_ZERO)
    && s.head.tag == 0 && s.tail == s.head
    && s.free == Ptr(NULL, BEFORE_ZERO)
    && s.size == 0
    && forall t :: 0 <= t < |s.threads| ==> s.threads[t] == Idle
  }

  /** The node that the next step of a thread dereferences, NULL when it touches none. */
  function Accessed(l: Local): nat {
    match l
    case AcqNext(_, top) => top.addr
    case PushValue(_, n) => n
    case PushNext(_, n, _) => n
    case PushLink(_, _, tail) => tail.addr
    case PopPrev(head, _) => head.addr
    case PopValue(_, prev) => prev.addr
    case RelClear(_, n) => n
    case RelPrev(_, n, _) => n
    case RelNext(_, n, _) => n
    case FixNext(_, current) => current.addr
    case FixLink(_, _, next) => next.addr
    case _ => NULL
  }

  predicate Dereferences(l: Local) {
    l.AcqNext? || l.PushValue? || l.PushNext? || l.PushLink? || l.PopPrev? || l.PopValue? ||
    l.RelClear? || l.RelPrev? || l.RelNext? || l.FixNext? || l.FixLink?
  }
}
