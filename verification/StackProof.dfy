/** Every step with unbounded tags keeps the stack invariant. */
module StackProof {
  import opened Element
  import opened StackModel
  import opened StackInvariant

  // ---- what other threads may rely on ----

  predicate OthersStay(s: State, s': State, t: nat) {
    && |s'.threads| == |s.threads|
    && forall u :: 0 <= u < |s.threads| && u != t ==> s'.threads[u] == s.threads[u]
  }

  /** Nodes held by threads other than t do not change. */
  predicate Respects(s: State, g: Ghost, s': State, g': Ghost, t: nat) {
    && |s'.nodes| == |s.nodes| == |g.role| == |g'.role|
    && forall i :: 0 <= i < |g.role| && g.role[i].Owned? && g.role[i].thread != t ==>
         g'.role[i] == g.role[i] && s'.nodes[i] == s.nodes[i]
  }

  /** A list head moves only with its tag. */
  predicate HeadsMove(s: State, s': State) {
    && s.head.tag <= s'.head.tag
    && (s'.head.tag == s.head.tag ==>
          && s'.head == s.head
          && Load(s'.nodes, s.head.index).next == Load(s.nodes, s.head.index).next)
    && s.free.tag <= s'.free.tag
    && (s'.free.tag == s.free.tag ==>
          && s'.free == s.free
          && Load(s'.nodes, s.free.index).nextFree == Load(s.nodes, s.free.index).nextFree)
  }

  predicate Evolves(s: State, g: Ghost, s': State, g': Ghost, t: nat) {
    OthersStay(s, s', t) && Respects(s, g, s', g', t) && HeadsMove(s, s')
  }

  lemma Stable(s: State, g: Ghost, s': State, g': Ghost, t: nat, u: nat, l: Local)
    requires Evolves(s, g, s', g', t) && Knows(s, g, u, l) && u != t
    ensures Knows(s', g', u, l)
  {
  }

  /** The obligations of one step of thread t. */
  predicate Kept(s: State, g: Ghost, t: nat, s': State, g': Ghost) {
    && t < |s'.threads|
    && SharedInv(s', g') && Knows(s', g', t, s'.threads[t]) && Evolves(s, g, s', g', t)
  }

  predicate Steps(s: State, g: Ghost, t: nat, c: Choice, s': State, g': Ghost) {
    && t < |s.threads| == |s'.threads| && Enabled(s, t, c) && Knows(s, g, t, s.threads[t])
    && s' == Exec(0, s, t, c) && g' == Track(s, g, t, c)
  }

  // ---- steps that leave the lists alone ----

  /** Thread t moves, keeping what it holds, and may rewrite the node it holds. */
  predicate Moves(s: State, g: Ghost, t: nat, l: Local, s': State) {
    && t < |s.threads| && Holds(l) == Holds(s.threads[t])
    && s' == Goto(s, t, l).(size := s'.size, nodes := s'.nodes)
    && |s'.nodes| == |s.nodes| == |g.role|
    && forall i :: 0 <= i < |s.nodes| && g.role[i] != Owned(t) ==> s'.nodes[i] == s.nodes[i]
  }

  lemma MoveRoles(s: State, g: Ghost, t: nat, l: Local, s': State)
    requires RolesOk(s, g) && Moves(s, g, t, l, s')
    ensures RolesOk(s', g)
  {
    forall i | 0 <= i < |g.role| ensures RoleTrue(s', g, i) {
      assert RoleTrue(s, g, i);
    }
  }

  lemma MoveLists(s: State, g: Ghost, t: nat, l: Local, s': State)
    requires RolesOk(s, g) && StackOk(s, g) && PoolOk(s, g) && Moves(s, g, t, l, s')
    ensures StackOk(s', g) && PoolOk(s', g)
  {
  }

  lemma MoveEvolves(s: State, g: Ghost, t: nat, l: Local, s': State)
    requires RolesOk(s, g) && StackOk(s, g) && PoolOk(s, g) && Moves(s, g, t, l, s')
    ensures Evolves(s, g, s', g, t)
  {
    assert s.head.index < |s.nodes| ==> g.role[s.head.index].Stacked?;
    assert s.free.index < |s.nodes| ==> g.role[s.free.index].Free?;
  }

  lemma MoveKeeps(s: State, g: Ghost, t: nat, l: Local, s': State)
    requires SharedInv(s, g) && Moves(s, g, t, l, s') && Knows(s', g, t, l)
    ensures Kept(s, g, t, s', g)
  {
    MoveRoles(s, g, t, l, s');
    MoveLists(s, g, t, l, s');
    MoveEvolves(s, g, t, l, s');
  }

  /** The step is a compare-exchange that finds the value it expects. */
  predicate Succeeds(s: State, l: Local) {
    match l
    case AcqCas(_, top, _) => s.free == top
    case PushCas(_, _, top) => s.head == top
    case PopCas(top, _) => s.head == top
    case RelCas(_, _, top) => s.free == top
    case _ => false
  }

  lemma LearnTops(s: State, g: Ghost)
    requires RolesOk(s, g) && StackOk(s, g) && PoolOk(s, g)
    ensures s.head.index != NIL ==> s.head.index < |s.nodes|
    ensures s.free.index != NIL ==> s.free.index < |s.nodes|
  {
  }

  predicate Writing(l: Local) {
    l.PushValue? || l.PushNext? || l.RelClear? || l.RelNext?
  }

  lemma WriteMoves(s: State, g: Ghost, t: nat, c: Choice, s': State, g': Ghost)
    requires |g.role| == |s.nodes| && Steps(s, g, t, c, s', g') && Writing(s.threads[t])
    ensures Moves(s, g, t, s'.threads[t], s') && g' == g && Knows(s', g, t, s'.threads[t])
  {
  }

  lemma ReadMoves(s: State, g: Ghost, t: nat, c: Choice, s': State, g': Ghost)
    requires |g.role| == |s.nodes| && Steps(s, g, t, c, s', g')
    requires !Succeeds(s, s.threads[t]) && !Writing(s.threads[t])
    ensures Moves(s, g, t, s'.threads[t], s') && g' == g && s'.nodes == s.nodes
  {
    assert s'.nodes == s.nodes;
  }

  lemma ReadLearns(s: State, g: Ghost, t: nat, c: Choice, s': State, g': Ghost)
    requires Steps(s, g, t, c, s', g') && !Succeeds(s, s.threads[t]) && !Writing(s.threads[t])
    requires s.head.index != NIL ==> s.head.index < |s.nodes|
    requires s.free.index != NIL ==> s.free.index < |s.nodes|
    ensures Knows(s, g, t, s'.threads[t])
  {
    match s.threads[t] {
      case AcqTop(e) => assert s'.threads[t] == PushFull(e) || s'.threads[t] == AcqNext(e, s.free);
      case PopTop => assert s'.threads[t] == PopEmpty || s'.threads[t] == PopNext(s.head);
      case AcqNext(e, top) => assert s'.threads[t] == AcqCas(e, top, s.nodes[top.index].nextFree);
      case PopNext(top) => assert s'.threads[t] == PopCas(top, s.nodes[top.index].next);
      case _ =>
    }
  }

  lemma ReadKnows(s: State, g: Ghost, t: nat, l: Local, s': State)
    requires Knows(s, g, t, l) && s'.nodes == s.nodes && s'.head == s.head && s'.free == s.free
    ensures Knows(s', g, t, l)
  {
  }

  // ---- the four successful compare-exchanges ----

  /** Thread t gives node n to the stack (list = stack) or to the free list. */
  predicate Gives(s: State, g: Ghost, t: nat, n: nat, toStack: bool, s': State, g': Ghost) {
    && t < |s.threads| && OthersStay(s, s', t) && Mine(g, t, n) && |g.role| == |s.nodes|
    && (if toStack
        then && s' == s.(head := Ptr(n, s.head.tag + 1), threads := s'.threads)
             && g' == g.(stack := g.stack + [n], role := g.role[n := Stacked(|g.stack|)])
             && Load(s.nodes, n).next == s.head.index
        else && s' == s.(free := Ptr(n, s.free.tag + 1), threads := s'.threads)
             && g' == g.(pool := g.pool + [n], role := g.role[n := Free(|g.pool|)])
             && Load(s.nodes, n).nextFree == s.free.index)
  }

  lemma GiveRoles(s: State, g: Ghost, t: nat, n: nat, toStack: bool, s': State, g': Ghost)
    requires RolesOk(s, g) && Gives(s, g, t, n, toStack, s', g')
    ensures RolesOk(s', g')
  {
    assert RoleTrue(s, g, n);
    forall i | 0 <= i < |g'.role| ensures RoleTrue(s', g', i) {
      assert RoleTrue(s, g, i);
    }
  }

  lemma GiveLists(s: State, g: Ghost, t: nat, n: nat, toStack: bool, s': State, g': Ghost)
    requires StackOk(s, g) && PoolOk(s, g) && Gives(s, g, t, n, toStack, s', g')
    ensures StackOk(s', g') && PoolOk(s', g')
  {
    if toStack {
      forall d | 0 <= d < |g'.stack| ensures Load(s'.nodes, g'.stack[d]).next == Top(g'.stack[..d]) {
        assert g'.stack[..d] == g.stack[..d];
      }
    } else {
      forall d | 0 <= d < |g'.pool| ensures Load(s'.nodes, g'.pool[d]).nextFree == Top(g'.pool[..d]) {
        assert g'.pool[..d] == g.pool[..d];
      }
    }
  }

  lemma GiveKeeps(s: State, g: Ghost, t: nat, n: nat, toStack: bool, s': State, g': Ghost)
    requires SharedInv(s, g) && Gives(s, g, t, n, toStack, s', g')
    ensures SharedInv(s', g') && Evolves(s, g, s', g', t)
  {
    GiveRoles(s, g, t, n, toStack, s', g');
    GiveLists(s, g, t, n, toStack, s', g');
  }

  /** Thread t takes the top node n of the stack or of the free list. */
  predicate Takes(s: State, g: Ghost, t: nat, n: nat, fromStack: bool, s': State, g': Ghost) {
    && t < |s.threads| && OthersStay(s, s', t) && |g.role| == |s.nodes| && n < |g.role|
    && !Holding(s.threads[t]) && Holds(s'.threads[t]) == n
    && (if fromStack
        then && g.stack != [] && n == Top(g.stack)
             && s' == s.(head := Ptr(s.nodes[n].next, s.head.tag + 1), threads := s'.threads)
             && g' == g.(stack := DropLast(g.stack), role := g.role[n := Owned(t)])
        else && g.pool != [] && n == Top(g.pool)
             && s' == s.(free := Ptr(s.nodes[n].nextFree, s.free.tag + 1), threads := s'.threads)
             && g' == g.(pool := DropLast(g.pool), role := g.role[n := Owned(t)]))
  }

  lemma TakeRoles(s: State, g: Ghost, t: nat, n: nat, fromStack: bool, s': State, g': Ghost)
    requires RolesOk(s, g) && Takes(s, g, t, n, fromStack, s', g')
    ensures RolesOk(s', g')
  {
    forall i | 0 <= i < |g'.role| ensures RoleTrue(s', g', i) {
      if i != n { assert RoleTrue(s, g, i); }
    }
  }

  lemma TakeLists(s: State, g: Ghost, t: nat, n: nat, fromStack: bool, s': State, g': Ghost)
    requires StackOk(s, g) && PoolOk(s, g) && Takes(s, g, t, n, fromStack, s', g')
    ensures StackOk(s', g') && PoolOk(s', g')
  {
    if fromStack {
      forall d | 0 <= d < |g'.stack| ensures Load(s'.nodes, g'.stack[d]).next == Top(g'.stack[..d]) {
        assert g'.stack[..d] == g.stack[..d];
      }
    } else {
      forall d | 0 <= d < |g'.pool| ensures Load(s'.nodes, g'.pool[d]).nextFree == Top(g'.pool[..d]) {
        assert g'.pool[..d] == g.pool[..d];
      }
    }
  }

  lemma TakeEvolves(s: State, g: Ghost, t: nat, n: nat, fromStack: bool, s': State, g': Ghost)
    requires RolesOk(s, g) && Takes(s, g, t, n, fromStack, s', g')
    ensures Evolves(s, g, s', g', t)
  {
  }

  lemma TakeKeeps(s: State, g: Ghost, t: nat, n: nat, fromStack: bool, s': State, g': Ghost)
    requires SharedInv(s, g) && Takes(s, g, t, n, fromStack, s', g')
    ensures SharedInv(s', g') && Evolves(s, g, s', g', t)
  {
    TakeRoles(s, g, t, n, fromStack, s', g');
    TakeLists(s, g, t, n, fromStack, s', g');
    TakeEvolves(s, g, t, n, fromStack, s', g');
  }

  lemma LearnGiven(s: State, g: Ghost, t: nat, c: Choice, s': State, g': Ghost)
    requires Steps(s, g, t, c, s', g') && Succeeds(s, s.threads[t]) && |g.role| == |s.nodes|
    requires s.threads[t].PushCas? || s.threads[t].RelCas?
    ensures Gives(s, g, t, s.threads[t].node, s.threads[t].PushCas?, s', g')
    ensures Knows(s', g', t, s'.threads[t])
  {
  }

  lemma LearnTaken(s: State, g: Ghost, t: nat, c: Choice, s': State, g': Ghost)
    requires Steps(s, g, t, c, s', g') && Succeeds(s, s.threads[t])
    requires |g.role| == |s.nodes| < NIL && s.head.index == Top(g.stack) && s.free.index == Top(g.pool)
    requires s.threads[t].PopCas? || s.threads[t].AcqCas?
    ensures Takes(s, g, t, s.threads[t].top.index, s.threads[t].PopCas?, s', g')
    ensures Knows(s', g', t, s'.threads[t])
  {
  }

  /** Every step keeps the obligations of the thread that makes it. */
  lemma StepKept(s: State, g: Ghost, t: nat, c: Choice, s': State, g': Ghost)
    requires SharedInv(s, g) && Steps(s, g, t, c, s', g')
    ensures Kept(s, g, t, s', g')
  {
    var l := s.threads[t];
    if !Succeeds(s, l) {
      LearnTops(s, g);
      if Writing(l) {
        WriteMoves(s, g, t, c, s', g');
      } else {
        ReadMoves(s, g, t, c, s', g');
        ReadLearns(s, g, t, c, s', g');
        ReadKnows(s, g, t, s'.threads[t], s');
      }
      MoveKeeps(s, g, t, s'.threads[t], s');
    } else if l.PushCas? || l.RelCas? {
      LearnGiven(s, g, t, c, s', g');
      GiveKeeps(s, g, t, l.node, l.PushCas?, s', g');
    } else {
      LearnTaken(s, g, t, c, s', g');
      TakeKeeps(s, g, t, l.top.index, l.PopCas?, s', g');
    }
  }

  lemma SameThreads(m: nat, s: State, t: nat, c: Choice)
    requires Enabled(s, t, c)
    ensures |Exec(m, s, t, c).threads| == |s.threads|
  {
  }

  lemma OthersKeep(s: State, g: Ghost, t: nat, s': State, g': Ghost)
    requires Kept(s, g, t, s', g')
    requires forall u :: 0 <= u < |s.threads| ==> Knows(s, g, u, s.threads[u])
    ensures forall u :: 0 <= u < |s'.threads| ==> Knows(s', g', u, s'.threads[u])
  {
    forall u | 0 <= u < |s'.threads| ensures Knows(s', g', u, s'.threads[u]) {
      if u != t {
        Stable(s, g, s', g', t, u, s.threads[u]);
      }
    }
  }

  /** The invariant is inductive. */
  lemma InvInductive(s: State, g: Ghost, t: nat, c: Choice, s': State, g': Ghost)
    requires Inv(s, g) && Enabled(s, t, c) && s' == Exec(0, s, t, c) && g' == Track(s, g, t, c)
    ensures Inv(s', g')
  {
    SameThreads(0, s, t, c);
    assert Steps(s, g, t, c, s', g');
    StepKept(s, g, t, c, s', g');
    OthersKeep(s, g, t, s', g');
  }

  lemma StartRoles(s: State, order: seq<nat>)
    requires |s.nodes| < NIL && Permutation(order, |s.nodes|)
    ensures RolesOk(s, Start(order, |s.nodes|))
  {
    var g := Start(order, |s.nodes|);
    forall d | 0 <= d < |order| ensures g.role[order[d]] == Free(d) {
      assert order[Position(order, order[d])] == order[d];
    }
    forall i | 0 <= i < |g.role| ensures RoleTrue(s, g, i) {
      assert g.role[i] == Free(Position(order, i));
    }
  }

  /** The constructor establishes it. */
  lemma InvInitial(s: State, order: seq<nat>)
    requires Initial(0, s, order)
    ensures Inv(s, Start(order, |s.nodes|))
  {
    StartRoles(s, order);
  }
}
