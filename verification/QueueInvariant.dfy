/**
 What every reachable state of the queue satisfies. With unbounded tags the tag of mHead and of
 mTail is a position in the history of all nodes ever linked at the tail, so a tagged pointer
 names one moment of one node's life even after the node has been recycled.
 */
module QueueInvariant {
  import opened Element
  import opened QueueModel

  /** Where an allocated node is: each node has exactly one role. */
  datatype Role = Live(position: nat) | Free(depth: nat) | Owned(thread: nat)

  /** History variables: no step of the program reads them. */
  datatype Ghost = Ghost(
    hist: seq<nat>,          // the node linked at each position, the constructor's node first
    vals: seq<Value>,        // the element pushed at each position
    front: nat,              // the position of mHead
    pool: seq<nat>,          // the free list, bottom first
    role: map<nat, Role>,
    uninit: set<nat>)        // nodes whose mPrev nobody has written since `new Node`

  /** The abstract queue. */
  function Contents(g: Ghost): seq<Value>
    requires g.front < |g.vals|
  {
    g.vals[g.front + 1..]
  }

  /** The node that a thread holds between taking it and giving it up. */
  function Holds(l: Local): nat {
    match l
    case PushValue(_, n) => n
    case PushTail(_, n) => n
    case PushNext(_, n, _) => n
    case PushCas(_, n, _) => n
    case RelClear(_, n) => n
    case RelTop(_, n) => n
    case RelPrev(_, n, _) => n
    case RelNext(_, n, _) => n
    case RelCas(_, n, _) => n
    case _ => NULL
  }

  predicate Holding(l: Local) {
    l.PushValue? || l.PushTail? || l.PushNext? || l.PushCas? ||
    l.RelClear? || l.RelTop? || l.RelPrev? || l.RelNext? || l.RelCas?
  }

  /** Pointer p is the node that was linked at position p.tag. */
  predicate Named(g: Ghost, p: Ptr) {
    0 <= p.tag < |g.hist| && g.hist[p.tag] == p.addr
  }

  // ---- the shared invariant, clause by clause ----

  predicate EndsOk(s: State, g: Ghost) {
    && |g.hist| == |g.vals| && g.front < |g.hist|
    && s.head == Ptr(g.hist[g.front], g.front)
    && s.tail == Ptr(g.hist[|g.hist| - 1], |g.hist| - 1)
  }

  predicate AllocOk(s: State, g: Ghost) {
    && NULL !in s.mem
    && g.role.Keys == s.mem.Keys
    && (forall p :: 0 <= p < |g.hist| ==> g.hist[p] in s.mem)
    && (forall i :: 0 <= i < |g.pool| ==> g.pool[i] in s.mem)
  }

  /** A node's role says where it really is. */
  predicate RoleTrue(s: State, g: Ghost, a: nat)
    requires a in g.role
  {
    match g.role[a]
    case Live(p) => g.front <= p < |g.hist| && g.hist[p] == a
    case Free(i) => i < |g.pool| && g.pool[i] == a
    case Owned(u) => u < |s.threads| && Holds(s.threads[u]) == a
  }

  /** The role map and the three places a node can be agree in both directions. */
  predicate RolesOk(s: State, g: Ghost) {
    && (forall p :: g.front <= p < |g.hist| ==> g.hist[p] in g.role && g.role[g.hist[p]] == Live(p))
    && (forall i :: 0 <= i < |g.pool| ==> g.pool[i] in g.role && g.role[g.pool[i]] == Free(i))
    && (forall a :: a in g.role ==> RoleTrue(s, g, a))
  }

  function Top(pool: seq<nat>): nat {
    if pool == [] then NULL else pool[|pool| - 1]
  }

  predicate PoolOk(s: State, g: Ghost) {
    && s.free.addr == Top(g.pool)
    && forall i :: 0 <= i < |g.pool| ==> Load(s.mem, g.pool[i]).nextFree == Top(g.pool[..i])
  }

  predicate NextOk(s: State, g: Ghost) {
    && (forall p :: g.front < p < |g.hist| ==>
          Load(s.mem, g.hist[p]).next == Ptr(g.hist[p - 1], p))
    && (forall p :: 0 < p < |g.hist| ==> Load(s.mem, g.hist[p]).next.addr in s.mem)
  }

  /** An mPrev field is either out of use or names a true pair of neighbours of the history. */
  predicate HintOk(g: Ghost, prev: Ptr) {
    prev.tag < |g.hist| - 1 && (0 <= prev.tag ==> prev.addr == g.hist[prev.tag + 1])
  }

  predicate PrevOk(s: State, g: Ghost) {
    forall a :: a in s.mem && a !in g.uninit ==> HintOk(g, s.mem[a].prev)
  }

  predicate ValuesOk(s: State, g: Ghost) {
    forall p :: g.front < p < |g.hist| && p < |g.vals| ==> Load(s.mem, g.hist[p]).value == g.vals[p]
  }

  predicate SharedInv(s: State, g: Ghost) {
    && EndsOk(s, g) && AllocOk(s, g) && RolesOk(s, g) && PoolOk(s, g)
    && NextOk(s, g) && PrevOk(s, g) && ValuesOk(s, g)
  }

  // ---- the invariant of one thread ----

  predicate Mine(g: Ghost, t: nat, n: nat) {
    n in g.role && g.role[n] == Owned(t)
  }

  /** A remembered free-list head: either the list has changed since, or it is still this head. */
  predicate TopOk(s: State, top: Ptr) {
    top.tag <= s.free.tag && (top.tag == s.free.tag ==> top == s.free)
  }

  /** A remembered mHead. */
  predicate HeadOk(g: Ghost, head: Ptr) {
    Named(g, head) && head.tag <= g.front
  }

  /** A pointer read from mPrev under an unchanged mHead names the node after the head. */
  predicate SecondOk(g: Ghost, head: Ptr, prev: Ptr) {
    0 <= head.tag < |g.hist| - 1 && prev == Ptr(g.hist[head.tag + 1], head.tag)
  }

  /** What thread t knows when its program counter and locals are l. */
  predicate Knows(s: State, g: Ghost, t: nat, l: Local) {
    match l
    case Idle => true
    case AcqTop(_) => true
    case AcqNew(_) => true
    case AcqNext(_, top) => top.addr in s.mem && TopOk(s, top)
    case AcqCas(_, top, after) =>
      && top.addr in s.mem && TopOk(s, top)
      && (top == s.free ==> after == s.mem[top.addr].nextFree)
    case PushValue(_, n) => Mine(g, t, n)
    case PushTail(e, n) => Mine(g, t, n) && Load(s.mem, n).value == e
    case PushNext(e, n, tail) => Mine(g, t, n) && Load(s.mem, n).value == e && Named(g, tail)
    case PushCas(e, n, tail) =>
      && Mine(g, t, n) && Load(s.mem, n).value == e && Named(g, tail)
      && Load(s.mem, n).next == Ptr(tail.addr, tail.tag + 1)
    case PushLink(_, n, tail) =>
      Named(g, tail) && tail.tag + 1 < |g.hist| && g.hist[tail.tag + 1] == n
    case PushCount(_) => true
    case PopHead => true
    case PopTail(head) => HeadOk(g, head)
    case PopPrev(head, tail) => HeadOk(g, head) && Named(g, tail) && head.tag <= tail.tag
    case PopCheck(head, tail, prev) =>
      && HeadOk(g, head) && Named(g, tail) && head.tag <= tail.tag
      && (g.front == head.tag && prev.tag == head.tag ==> SecondOk(g, head, prev))
    case PopValue(head, prev) => HeadOk(g, head) && SecondOk(g, head, prev)
    case PopCas(head, prev, got) =>
      && HeadOk(g, head) && SecondOk(g, head, prev)
      && (g.front == head.tag ==> |g.vals| == |g.hist| && got == g.vals[head.tag + 1])
    case RelClear(_, n) => Mine(g, t, n)
    case RelTop(_, n) => Mine(g, t, n)
    case RelPrev(_, n, top) => Mine(g, t, n) && TopOk(s, top)
    case RelNext(_, n, top) => Mine(g, t, n) && TopOk(s, top)
    case RelCas(_, n, top) => Mine(g, t, n) && TopOk(s, top) && Load(s.mem, n).nextFree == top.addr
    case PopCount(_) => true
    case FixCheck(head, current) =>
      HeadOk(g, head) && head.tag <= current.tag && (head.tag < g.front || Named(g, current))
    case FixNext(head, current) => HeadOk(g, head) && head.tag < current.tag && Named(g, current)
    case FixLink(head, current, next) =>
      && HeadOk(g, head) && head.tag < current.tag && Named(g, current) && next.addr in s.mem
      && (head.tag < g.front || next.addr == g.hist[current.tag - 1])
  }

  predicate Inv(s: State, g: Ghost) {
    SharedInv(s, g) && forall t :: 0 <= t < |s.threads| ==> Knows(s, g, t, s.threads[t])
  }

  /**
   The hypothesis on `new Node`, whose mPrev is uninitialised: as long as nobody has written the
   field, its tag differs from the tag under which the node is linked.
   */
  predicate FreshTagsDiffer(s: State, g: Ghost) {
    forall a :: a in g.uninit && a in g.role && a in s.mem && g.role[a].Live? ==>
      s.mem[a].prev.tag != g.role[a].position
  }

  /** The history variables after thread t's step. */
  function Track(s: State, g: Ghost, t: nat, c: Choice): Ghost
    requires Enabled(s, t, c)
  {
    match s.threads[t]
    case AcqNew(_) => g.(role := g.role[c.addr := Owned(t)], uninit := g.uninit + {c.addr})
    case AcqCas(_, top, _) =>
      if s.free == top && g.pool != []
      then g.(pool := g.pool[..|g.pool| - 1], role := g.role[top.addr := Owned(t)])
      else g
    case PushCas(e, n, tail) =>
      if s.tail == tail
      then g.(hist := g.hist + [n], vals := g.vals + [e], role := g.role[n := Live(|g.hist|)])
      else g
    case PushLink(_, _, tail) => g.(uninit := g.uninit - {tail.addr})
    case PopCas(head, _, _) =>
      if s.head == head
      then g.(front := g.front + 1, role := g.role[head.addr := Owned(t)])
      else g
    case RelPrev(_, n, _) => g.(uninit := g.uninit - {n})
    case RelCas(_, n, top) =>
      if s.free == top
      then g.(pool := g.pool + [n], role := g.role[n := Free(|g.pool|)])
      else g
    case FixLink(_, _, next) => g.(uninit := g.uninit - {next.addr})
    case _ => g
  }

  /** The history variables of a queue just constructed. */
  function Start(s: State): Ghost {
    Ghost([s.head.addr], [BLANK], 0, [], map[s.head.addr := Live(0)], {})
  }
}
