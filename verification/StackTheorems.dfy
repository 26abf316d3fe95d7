/** What holds of every run of the stack with unbounded tags. */
module StackTheorems {
  import opened Element
  import opened StackModel
  import opened StackInvariant
  import opened StackProof
  import A = AtomicContainer

  type Schedule = seq<(nat, Choice)>

  /** A run with tag modulus m of a stack whose constructor released the nodes in the given order. */
  predicate IsRun(m: nat, order: seq<nat>, run: seq<State>, sched: Schedule) {
    && |run| == |sched| + 1
    && Initial(m, run[0], order)
    && forall i :: 0 <= i < |sched| ==>
         Enabled(run[i], sched[i].0, sched[i].1) && run[i + 1] == Exec(m, run[i], sched[i].0, sched[i].1)
  }

  function History(order: seq<nat>, run: seq<State>, sched: Schedule, n: nat): Ghost
    requires IsRun(0, order, run, sched) && n <= |sched|
  {
    if n == 0 then Start(order, |run[0].nodes|)
    else Track(run[n - 1], History(order, run, sched, n - 1), sched[n - 1].0, sched[n - 1].1)
  }

  predicate InvAt(order: seq<nat>, run: seq<State>, sched: Schedule, n: nat)
    requires IsRun(0, order, run, sched) && n <= |sched|
  {
    Inv(run[n], History(order, run, sched, n))
  }

  lemma {:induction false} RunInvariant(order: seq<nat>, run: seq<State>, sched: Schedule, n: nat)
    requires IsRun(0, order, run, sched) && n <= |sched|
    ensures InvAt(order, run, sched, n)
  {
    if n == 0 {
      InvStarts(order, run, sched);
    } else {
      RunInvariant(order, run, sched, n - 1);
      Advance(order, run, sched, n - 1);
    }
  }

  lemma InvStarts(order: seq<nat>, run: seq<State>, sched: Schedule)
    requires IsRun(0, order, run, sched)
    ensures InvAt(order, run, sched, 0)
  {
    InvInitial(run[0], order);
  }

  lemma Advance(order: seq<nat>, run: seq<State>, sched: Schedule, n: nat)
    requires IsRun(0, order, run, sched) && n < |sched| && InvAt(order, run, sched, n)
    ensures InvAt(order, run, sched, n + 1)
  {
    InvInductive(run[n], History(order, run, sched, n), sched[n].0, sched[n].1,
                 run[n + 1], History(order, run, sched, n + 1));
  }

  // ---- refinement of the atomic LIFO ----

  function StatusOf(s: State, l: Local): A.Status {
    match l
    case Idle => A.Quiet
    case AcqTop(e) => A.Pushing(e)
    case AcqNext(e, _) => A.Pushing(e)
    case AcqCas(e, _, _) => A.Pushing(e)
    case PushFull(e) => A.Pushing(e)
    case PushValue(e, _) => A.Pushing(e)
    case PushTop(e, _) => A.Pushing(e)
    case PushNext(e, _, _) => A.Pushing(e)
    case PushCas(e, _, _) => A.Pushing(e)
    case PushCount(e) => A.Pushed(e)
    case PopEmpty => A.Popping(true)
    case PopValue(n) => A.Popped(Load(s.nodes, n).value)
    case RelClear(v, _) => A.Popped(v)
    case RelTop(v, _) => A.Popped(v)
    case RelNext(v, _, _) => A.Popped(v)
    case RelCas(v, _, _) => A.Popped(v)
    case PopCount(v) => A.Popped(v)
    case _ => A.Popping(false)
  }

  function Abstract(s: State, g: Ghost): A.Container {
    A.Container(Contents(s, g),
                seq(|s.threads|, i requires 0 <= i < |s.threads| => StatusOf(s, s.threads[i])))
  }

  /** What thread t's step does to the abstract stack, read off the program state alone. */
  function ActionOf(s: State, t: nat, c: Choice): A.Action
    requires Enabled(s, t, c)
  {
    match s.threads[t]
    case Idle => if c.CallPush? then A.CallPush(c.elem) else A.CallPop
    case PushFull(_) => A.Refuse
    case PushCas(e, _, top) => if s.head == top then A.Insert(e) else A.Internal
    case PushCount(_) => A.ReturnPush
    case PopTop => if s.head.index == NIL then A.SeeEmpty else A.Internal
    case PopEmpty => A.ReturnEmpty
    case PopCas(top, _) => if s.head == top then A.Remove(Load(s.nodes, top.index).value) else A.Internal
    case PopCount(v) => A.ReturnPop(v)
    case _ => A.Internal
  }

  lemma StatusFollows(s: State, t: nat, c: Choice, s': State)
    requires Enabled(s, t, c) && s' == Exec(0, s, t, c) && |s'.threads| == |s.threads|
    ensures A.StatusStep(StatusOf(s, s.threads[t]), ActionOf(s, t, c), StatusOf(s', s'.threads[t]))
  {
    match s.threads[t] {
      case PopCas(top, after) =>
      case PopValue(n) =>
      case _ =>
    }
  }

  /** A step changes no node but the one its thread holds, and no other thread. */
  predicate Frames(s: State, g: Ghost, t: nat, s': State) {
    && |s'.nodes| == |s.nodes| == |g.role| && OthersStay(s, s', t)
    && forall i :: 0 <= i < |s.nodes| && g.role[i] != Owned(t) ==> s'.nodes[i] == s.nodes[i]
  }

  lemma StepFrames(s: State, g: Ghost, t: nat, c: Choice, s': State)
    requires |s.nodes| == |g.role| && Enabled(s, t, c) && Knows(s, g, t, s.threads[t])
    requires s' == Exec(0, s, t, c)
    ensures Frames(s, g, t, s')
  {
  }

  lemma StatusesMove(s: State, g: Ghost, t: nat, s': State, g': Ghost)
    requires t < |s.threads| && Frames(s, g, t, s')
    requires forall u :: 0 <= u < |s.threads| ==> Knows(s, g, u, s.threads[u])
    ensures Abstract(s', g').status == Abstract(s, g).status[t := StatusOf(s', s'.threads[t])]
  {
    var a, a' := Abstract(s, g), Abstract(s', g');
    forall u | 0 <= u < |a.status| && u != t ensures a'.status[u] == a.status[u] {
      assert Knows(s, g, u, s.threads[u]);
    }
  }

  /** How an action moves the ghost stack. */
  predicate Tracked(act: A.Action, s: State, g: Ghost, s': State, g': Ghost) {
    match act
    case Insert(v) =>
      exists n: nat :: n < |s.nodes| && g'.stack == g.stack + [n] && Load(s'.nodes, n).value == v
    case Remove(v) =>
      g.stack != [] && g'.stack == g.stack[..|g.stack| - 1] && v == Load(s.nodes, Top(g.stack)).value
    case SeeEmpty => g'.stack == g.stack && Top(g.stack) == NIL
    case _ => g'.stack == g.stack
  }

  lemma TrackStack(s: State, g: Ghost, t: nat, c: Choice, s': State, g': Ghost)
    requires s.head.index == Top(g.stack) && |s.nodes| == |g.role| < NIL && Steps(s, g, t, c, s', g')
    ensures Tracked(ActionOf(s, t, c), s, g, s', g')
  {
    if s.threads[t].PushCas? {
      assert s.threads[t].node < |s.nodes|;
    }
  }

  lemma ContentsFollow(act: A.Action, s: State, g: Ghost, s': State, g': Ghost)
    requires Tracked(act, s, g, s', g') && (Top(g.stack) == NIL ==> g.stack == [])
    requires forall d :: 0 <= d < |g.stack| ==> Load(s'.nodes, g.stack[d]) == Load(s.nodes, g.stack[d])
    ensures A.ContentsStep(A.Lifo, Contents(s, g), act, Contents(s', g'))
  {
  }

  lemma ContentsMove(s: State, g: Ghost, t: nat, c: Choice, s': State, g': Ghost)
    requires RolesOk(s, g) && StackOk(s, g) && Steps(s, g, t, c, s', g') && Frames(s, g, t, s')
    ensures A.ContentsStep(A.Lifo, Contents(s, g), ActionOf(s, t, c), Contents(s', g'))
  {
    forall d | 0 <= d < |g.stack| ensures Load(s'.nodes, g.stack[d]) == Load(s.nodes, g.stack[d]) {
      assert g.role[g.stack[d]] == Stacked(d);
    }
    TopIsNode(g.stack, |g.role|);
    TrackStack(s, g, t, c, s', g');
    ContentsFollow(ActionOf(s, t, c), s, g, s', g');
  }

  lemma StepRefines(s: State, g: Ghost, t: nat, c: Choice, s': State, g': Ghost)
    requires RolesOk(s, g) && StackOk(s, g)
    requires forall u :: 0 <= u < |s.threads| ==> Knows(s, g, u, s.threads[u])
    requires Enabled(s, t, c) && s' == Exec(0, s, t, c) && g' == Track(s, g, t, c)
    ensures A.Step(A.Lifo, Abstract(s, g), t, ActionOf(s, t, c), Abstract(s', g'))
  {
    SameThreads(0, s, t, c);
    StepFrames(s, g, t, c, s');
    StatusFollows(s, t, c, s');
    StatusesMove(s, g, t, s', g');
    ContentsMove(s, g, t, c, s', g');
  }

  function Abstraction(order: seq<nat>, run: seq<State>, sched: Schedule): seq<A.Container>
    requires IsRun(0, order, run, sched)
  {
    seq(|run|, i requires 0 <= i < |run| => Abstract(run[i], History(order, run, sched, i)))
  }

  function Events(m: nat, order: seq<nat>, run: seq<State>, sched: Schedule): seq<A.Event>
    requires IsRun(m, order, run, sched)
  {
    seq(|sched|, i requires 0 <= i < |sched| => (sched[i].0, ActionOf(run[i], sched[i].0, sched[i].1)))
  }

  /** Linearizability: every run with unbounded tags is a run of the atomic LIFO stack. */
  lemma StackLinearizable(order: seq<nat>, run: seq<State>, sched: Schedule)
    requires IsRun(0, order, run, sched)
    ensures A.IsTrace(A.Lifo, Abstraction(order, run, sched), Events(0, order, run, sched))
  {
    var states, events := Abstraction(order, run, sched), Events(0, order, run, sched);
    assert states[0] == Abstract(run[0], Start(order, |run[0].nodes|));
    forall i | 0 <= i < |events| ensures A.Step(A.Lifo, states[i], events[i].0, events[i].1, states[i + 1]) {
      RunInvariant(order, run, sched, i);
      StepRefines(run[i], History(order, run, sched, i), sched[i].0, sched[i].1,
                  run[i + 1], History(order, run, sched, i + 1));
    }
  }

  // ---- partition, capacity and size ----

  function Members(list: seq<nat>): set<nat> {
    set d | 0 <= d < |list| :: list[d]
  }

  function Held(s: State): set<nat> {
    set t | 0 <= t < |s.threads| && Holding(s.threads[t]) :: Holds(s.threads[t])
  }

  /** The array splits into the stack, the free list and the nodes threads hold, each list without
      repetition, linked from its head and ended by NIL. */
  ghost predicate Partitioned(s: State, g: Ghost) {
    && (forall i: nat :: i < |s.nodes| <==> i in Members(g.stack) + Members(g.pool) + Held(s))
    && Members(g.stack) !! Members(g.pool) && Members(g.stack) !! Held(s) && Members(g.pool) !! Held(s)
    && (forall d, e :: 0 <= d < e < |g.stack| ==> g.stack[d] != g.stack[e])
    && (forall d, e :: 0 <= d < e < |g.pool| ==> g.pool[d] != g.pool[e])
    && (forall t, u :: 0 <= t < u < |s.threads| && Holding(s.threads[t]) && Holding(s.threads[u]) ==>
          Holds(s.threads[t]) != Holds(s.threads[u]))
    && StackOk(s, g) && PoolOk(s, g)
  }

  lemma RolesPartition(s: State, g: Ghost)
    requires RolesOk(s, g) && StackOk(s, g) && PoolOk(s, g)
    requires forall t :: 0 <= t < |s.threads| && Holding(s.threads[t]) ==> Mine(g, t, Holds(s.threads[t]))
    ensures Partitioned(s, g)
  {
    forall i | 0 <= i < |s.nodes| ensures i in Members(g.stack) + Members(g.pool) + Held(s) {
      assert RoleTrue(s, g, i);
    }
  }

  lemma HeldRoles(s: State, g: Ghost)
    requires forall t :: 0 <= t < |s.threads| ==> Knows(s, g, t, s.threads[t])
    ensures forall t :: 0 <= t < |s.threads| && Holding(s.threads[t]) ==> Mine(g, t, Holds(s.threads[t]))
  {
    forall t | 0 <= t < |s.threads| && Holding(s.threads[t]) ensures Mine(g, t, Holds(s.threads[t])) {
      assert Knows(s, g, t, s.threads[t]);
    }
  }

  lemma NodesConserved(order: seq<nat>, run: seq<State>, sched: Schedule, n: nat)
    requires IsRun(0, order, run, sched) && n <= |sched|
    ensures Partitioned(run[n], History(order, run, sched, n))
  {
    RunInvariant(order, run, sched, n);
    HeldRoles(run[n], History(order, run, sched, n));
    RolesPartition(run[n], History(order, run, sched, n));
  }

  /** Every node is stacked or held by a thread. */
  ghost predicate Full(s: State, g: Ghost) {
    forall i: nat :: i < |s.nodes| <==> i in Members(g.stack) + Held(s)
  }

  /** Push gives up only at a moment when no node is free: all are stacked or held by a thread. */
  lemma RefusedOnlyWhenFull(order: seq<nat>, run: seq<State>, sched: Schedule, n: nat)
    requires IsRun(0, order, run, sched) && n < |sched| && sched[n].0 < |run[n].threads|
    requires sched[n].0 < |run[n + 1].threads| && run[n].threads[sched[n].0].AcqTop?
    requires run[n + 1].threads[sched[n].0].PushFull?
    ensures Full(run[n], History(order, run, sched, n))
  {
    NodesConserved(order, run, sched, n);
    RunInvariant(order, run, sched, n);
    var g := History(order, run, sched, n);
    NilMeansEmpty(run[n], g);
    assert Members(g.stack) + Members(g.pool) + Held(run[n]) == Members(g.stack) + Held(run[n]);
  }

  lemma TopIsNode(list: seq<nat>, n: nat)
    requires forall d :: 0 <= d < |list| ==> list[d] < n
    ensures list != [] ==> Top(list) < n
  {
  }

  lemma NilMeansEmpty(s: State, g: Ghost)
    requires RolesOk(s, g) && PoolOk(s, g) && s.free.index == NIL
    ensures g.pool == []
  {
    TopIsNode(g.pool, |g.role|);
  }

  /** The counter update a thread still owes. */
  function Due(s: State, l: Local): int {
    match StatusOf(s, l)
    case Pushed(_) => 1
    case Popped(_) => -1
    case _ => 0
  }

  function Owed(s: State, threads: seq<Local>): int {
    if threads == [] then 0 else Due(s, threads[0]) + Owed(s, threads[1..])
  }

  lemma {:induction false} OwedUpdate(s: State, s': State, threads: seq<Local>, t: nat, l: Local)
    requires t < |threads|
    ensures Owed(s', threads[t := l]) == Owed(s, threads) - Due(s, threads[t]) + Due(s', l)
    decreases |threads|
  {
    if t == 0 {
      assert threads[t := l][1..] == threads[1..];
      OwedSame(s, s', threads[1..]);
    } else {
      assert threads[t := l][1..] == threads[1..][t - 1 := l];
      OwedUpdate(s, s', threads[1..], t - 1, l);
      assert Due(s, threads[0]) == Due(s', threads[0]);
    }
  }

  lemma {:induction false} OwedSame(s: State, s': State, threads: seq<Local>)
    ensures Owed(s, threads) == Owed(s', threads)
  {
    if threads != [] {
      assert Due(s, threads[0]) == Due(s', threads[0]);
      OwedSame(s, s', threads[1..]);
    }
  }

  lemma {:induction false} OwedIdle(s: State, threads: seq<Local>)
    requires forall t :: 0 <= t < |threads| ==> threads[t] == Idle
    ensures Owed(s, threads) == 0
  {
    if threads != [] {
      OwedIdle(s, threads[1..]);
    }
  }

  /** mSize, modulo 2^64, is the stack length corrected by the updates still owed. */
  predicate SizeOk(s: State, g: Ghost) {
    s.size == (|g.stack| - Owed(s, s.threads)) % 0x1_0000_0000_0000_0000
  }

  function Counted(l: Local): int {
    if l.PushCount? then 1 else if l.PopCount? then -1 else 0
  }

  lemma CounterMoves(s: State, t: nat, c: Choice, s': State)
    requires Enabled(s, t, c) && s' == Exec(0, s, t, c)
    ensures s'.size == if Counted(s.threads[t]) == 0 then s.size else (s.size + Counted(s.threads[t])) % SIZE_MODULUS
    ensures t < |s'.threads| && s'.threads == s.threads[t := s'.threads[t]]
  {
  }

  lemma DebtMoves(s: State, g: Ghost, t: nat, c: Choice, s': State, g': Ghost)
    requires s.head.index == Top(g.stack) && |s.nodes| == |g.role| < NIL && Steps(s, g, t, c, s', g')
    ensures |g'.stack| - |g.stack| == Due(s', s'.threads[t]) - Due(s, s.threads[t]) + Counted(s.threads[t])
  {
    TrackStack(s, g, t, c, s', g');
    StatusFollows(s, t, c, s');
  }

  lemma SizeStep(s: State, g: Ghost, t: nat, c: Choice, s': State, g': Ghost)
    requires s.head.index == Top(g.stack) && |s.nodes| == |g.role| < NIL && SizeOk(s, g)
    requires Steps(s, g, t, c, s', g')
    ensures SizeOk(s', g')
  {
    CounterMoves(s, t, c, s');
    OwedUpdate(s, s', s.threads, t, s'.threads[t]);
    DebtMoves(s, g, t, c, s', g');
  }

  lemma {:induction false} SizeAccounts(order: seq<nat>, run: seq<State>, sched: Schedule, n: nat)
    requires IsRun(0, order, run, sched) && n <= |sched|
    ensures SizeOk(run[n], History(order, run, sched, n))
  {
    if n == 0 {
      OwedIdle(run[0], run[0].threads);
    } else {
      SizeAccounts(order, run, sched, n - 1);
      RunInvariant(order, run, sched, n - 1);
      SameThreads(0, run[n - 1], sched[n - 1].0, sched[n - 1].1);
      SizeStep(run[n - 1], History(order, run, sched, n - 1), sched[n - 1].0, sched[n - 1].1,
               run[n], History(order, run, sched, n));
    }
  }
}
