/** What every reachable state of the stack with unbounded tags satisfies. */
module StackInvariant {
  import opened Element
  import opened StackModel

  datatype Role = Stacked(depth: nat) | Free(depth: nat) | Owned(thread: nat)

  /** History variables: the two lists, bottom first, and where each node is. */
  datatype Ghost = Ghost(stack: seq<nat>, pool: seq<nat>, role: seq<Role>)

  function Contents(s: State, g: Ghost): seq<Value> {
    seq(|g.stack|, i requires 0 <= i < |g.stack| => Load(s.nodes, g.stack[i]).value)
  }

  predicate Holding(l: Local) {
    l.PushValue? || l.PushTop? || l.PushNext? || l.PushCas? ||
    l.PopValue? || l.RelClear? || l.RelTop? || l.RelNext? || l.RelCas?
  }

  /** The node that a thread holds, NIL if none. */
  function Holds(l: Local): nat {
    if Holding(l) then l.node else NIL
  }

  predicate RoleTrue(s: State, g: Ghost, i: nat)
    requires i < |g.role|
  {
    match g.role[i]
    case Stacked(d) => d < |g.stack| && g.stack[d] == i
    case Free(d) => d < |g.pool| && g.pool[d] == i
    case Owned(u) => u < |s.threads| && Holds(s.threads[u]) == i
  }

  predicate RolesOk(s: State, g: Ghost) {
    && |g.role| == |s.nodes| < NIL
    && (forall d :: 0 <= d < |g.stack| ==> g.stack[d] < |g.role| && g.role[g.stack[d]] == Stacked(d))
    && (forall d :: 0 <= d < |g.pool| ==> g.pool[d] < |g.role| && g.role[g.pool[d]] == Free(d))
    && (forall i :: 0 <= i < |g.role| ==> RoleTrue(s, g, i))
  }

  /** Both lists are linked from their head down to NIL. */
  predicate StackOk(s: State, g: Ghost) {
    && s.head.index == Top(g.stack)
    && forall d :: 0 <= d < |g.stack| ==> Load(s.nodes, g.stack[d]).next == Top(g.stack[..d])
  }

  predicate PoolOk(s: State, g: Ghost) {
    && s.free.index == Top(g.pool)
    && forall d :: 0 <= d < |g.pool| ==> Load(s.nodes, g.pool[d]).nextFree == Top(g.pool[..d])
  }

  predicate SharedInv(s: State, g: Ghost) {
    RolesOk(s, g) && StackOk(s, g) && PoolOk(s, g)
  }

  predicate Mine(g: Ghost, t: nat, n: nat) {
    n < |g.role| && g.role[n] == Owned(t)
  }

  /** A remembered list head: either the list has changed since, or it is still this head. */
  predicate Remembered(current: Ptr, top: Ptr) {
    top.tag <= current.tag && (top.tag == current.tag ==> top == current)
  }

  /** What thread t knows when its program counter and locals are l. */
  predicate Knows(s: State, g: Ghost, t: nat, l: Local) {
    match l
    case AcqNext(_, top) => top.index < |s.nodes| && Remembered(s.free, top)
    case AcqCas(_, top, after) =>
      && top.index < |s.nodes| && Remembered(s.free, top)
      && (top == s.free ==> after == s.nodes[top.index].nextFree)
    case PushValue(_, n) => Mine(g, t, n)
    case PushTop(e, n) => Mine(g, t, n) && Load(s.nodes, n).value == e
    case PushNext(e, n, top) => Mine(g, t, n) && Load(s.nodes, n).value == e && Remembered(s.head, top)
    case PushCas(e, n, top) =>
      && Mine(g, t, n) && Load(s.nodes, n).value == e && Remembered(s.head, top)
      && Load(s.nodes, n).next == top.index
    case PopNext(top) => top.index < |s.nodes| && Remembered(s.head, top)
    case PopCas(top, after) =>
      && top.index < |s.nodes| && Remembered(s.head, top)
      && (top == s.head ==> after == s.nodes[top.index].next)
    case PopValue(n) => Mine(g, t, n)
    case RelClear(_, n) => Mine(g, t, n)
    case RelTop(_, n) => Mine(g, t, n)
    case RelNext(_, n, top) => Mine(g, t, n) && Remembered(s.free, top)
    case RelCas(_, n, top) => Mine(g, t, n) && Remembered(s.free, top) && Load(s.nodes, n).nextFree == top.index
    case _ => true
  }

  predicate Inv(s: State, g: Ghost) {
    SharedInv(s, g) && forall t :: 0 <= t < |s.threads| ==> Knows(s, g, t, s.threads[t])
  }

  function DropLast(list: seq<nat>): seq<nat> {
    if list == [] then [] else list[..|list| - 1]
  }

  /** The history variables after thread t's step. */
  function Track(s: State, g: Ghost, t: nat, c: Choice): Ghost
    requires Enabled(s, t, c)
  {
    match s.threads[t]
    case AcqCas(_, top, _) =>
      if s.free == top && top.index < |g.role|
      then g.(pool := DropLast(g.pool), role := g.role[top.index := Owned(t)])
      else g
    case PushCas(_, n, top) =>
      if s.head == top && n < |g.role|
      then g.(stack := g.stack + [n], role := g.role[n := Stacked(|g.stack|)])
      else g
    case PopCas(top, _) =>
      if s.head == top && top.index < |g.role|
      then g.(stack := DropLast(g.stack), role := g.role[top.index := Owned(t)])
      else g
    case RelCas(_, n, top) =>
      if s.free == top && n < |g.role|
      then g.(pool := g.pool + [n], role := g.role[n := Free(|g.pool|)])
      else g
    case _ => g
  }

  function Position(order: seq<nat>, i: nat): (k: nat)
    requires i in order
    ensures k < |order| && order[k] == i
  {
    if order[0] == i then 0 else 1 + Position(order[1..], i)
  }

  /** The history variables of a stack just constructed. */
  function Start(order: seq<nat>, n: nat): Ghost
    requires Permutation(order, n)
  {
    Ghost([], order, seq(n, i requires 0 <= i < n => Free(Position(order, i))))
  }
}
