/**
 How many tags the stack needs: a compare-exchange that comes after its remembered head has changed
 exactly as often as there are tags can make a node the top of the stack that another thread holds.
 */
module StackTagLimit {
  import opened Element
  import opened StackModel
  import opened StackInvariant
  import opened StackTheorems
  import opened StackBoundedTags
  import opened Arithmetic
  import P = StackProof
  import A = AtomicContainer

  /** The top of the stack is in no thread's hands. */
  predicate TopUnheld(s: State) {
    s.head.index != NIL ==> forall t :: 0 <= t < |s.threads| ==> Holds(s.threads[t]) != s.head.index
  }

  // ---- runs of four threads over three nodes, by their last state ----

  const ORDER: seq<nat> := [2, 1, 0]

  /** The age of the head that thread u remembers, if it remembers one. */
  predicate AgeOk(run: seq<State>, sched: Schedule, s: State, ages: seq<nat>, u: nat)
    requires |run| == |sched| + 1 && u < |ages| == |s.threads|
  {
    Watches(s.threads[u]).Nothing? || Stale(run, sched, u, |sched|) == ages[u]
  }

  /** A run with m tags that pushes only e ends in s, with these ages of the heads that threads remember. */
  ghost predicate EndsIn(m: nat, run: seq<State>, sched: Schedule, s: State, e: Value, ages: seq<nat>) {
    && IsRun(m, ORDER, run, sched) && TagsOutlast(m + 1, run, sched) && run[|sched|] == s && |s.threads| == |ages|
    && (forall u :: 0 <= u < |ages| ==> AgeOk(run, sched, s, ages, u))
    && forall i :: 0 <= i < |sched| && sched[i].1.CallPush? ==> sched[i].1.elem == e
  }

  ghost predicate Reachable(m: nat, s: State, e: Value, ages: seq<nat>) {
    exists run, sched :: EndsIn(m, run, sched, s, e, ages)
  }

  /** Staleness looks back only. */
  lemma {:induction false} StalePrefix(run: seq<State>, sched: Schedule, run': seq<State>, sched': Schedule, t: nat, n: nat)
    requires |run| == |sched| + 1 && |run'| == |sched'| + 1 && n <= |sched| <= |sched'|
    requires forall i :: 0 <= i < |run| ==> run'[i] == run[i]
    ensures Stale(run', sched', t, n) == Stale(run, sched, t, n)
  {
    if n > 0 {
      StalePrefix(run, sched, run', sched', t, n - 1);
    }
  }

  function AgeAfter(s: State, s': State, t: nat, age: nat): nat
    requires t < |s.threads|
  {
    var w := Watches(s.threads[t]);
    if w.Nothing? then 0 else age + if HeadOf(s', w) != HeadOf(s, w) then 1 else 0
  }

  function AgesAfter(s: State, s': State, ages: seq<nat>): (r: seq<nat>)
    requires |s.threads| == |ages|
    ensures |r| == |ages| && forall u :: 0 <= u < |r| ==> r[u] == AgeAfter(s, s', u, ages[u])
  {
    seq(|ages|, u requires 0 <= u < |ages| => AgeAfter(s, s', u, ages[u]))
  }

  lemma StillOutlast(m: nat, run: seq<State>, sched: Schedule, s: State, t: nat, c: Choice, s': State)
    requires |run| == |sched| + 1 && run[|sched|] == s && TagsOutlast(m + 1, run, sched)
    requires t < |s.threads| && Exchanging(s.threads[t]) ==> Stale(run, sched, t, |sched|) <= m
    ensures TagsOutlast(m + 1, run + [s'], sched + [(t, c)])
  {
    var run', sched' := run + [s'], sched + [(t, c)];
    forall n | 0 <= n < |sched'| && sched'[n].0 < |run'[n].threads| && Exchanging(run'[n].threads[sched'[n].0])
      ensures Stale(run', sched', sched'[n].0, n) < m + 1
    {
      OutlastAt(m, run, sched, s, t, c, s', n);
    }
  }

  lemma OutlastAt(m: nat, run: seq<State>, sched: Schedule, s: State, t: nat, c: Choice, s': State, n: nat)
    requires |run| == |sched| + 1 && run[|sched|] == s && TagsOutlast(m + 1, run, sched) && n <= |sched|
    requires t < |s.threads| && Exchanging(s.threads[t]) ==> Stale(run, sched, t, |sched|) <= m
    requires var u := (sched + [(t, c)])[n].0; u < |run[n].threads| && Exchanging(run[n].threads[u])
    ensures Stale(run + [s'], sched + [(t, c)], (sched + [(t, c)])[n].0, n) < m + 1
  {
    var sched' := sched + [(t, c)];
    StalePrefix(run, sched, run + [s'], sched', sched'[n].0, n);
    if n < |sched| {
      assert sched'[n] == sched[n];
    }
  }

  lemma StillRun(m: nat, run: seq<State>, sched: Schedule, s: State, t: nat, c: Choice, s': State)
    requires IsRun(m, ORDER, run, sched) && run[|sched|] == s && Enabled(s, t, c) && s' == Exec(m, s, t, c)
    ensures IsRun(m, ORDER, run + [s'], sched + [(t, c)])
  {
  }

  lemma StaleNext(run: seq<State>, sched: Schedule, s: State, s': State, t: nat, c: Choice, u: nat)
    requires |run| == |sched| + 1 && run[|sched|] == s && u < |s.threads|
    ensures Stale(run + [s'], sched + [(t, c)], u, |sched| + 1) == AgeAfter(s, s', u, Stale(run, sched, u, |sched|))
  {
    StalePrefix(run, sched, run + [s'], sched + [(t, c)], u, |sched|);
  }

  lemma AgeNext(run: seq<State>, sched: Schedule, s: State, ages: seq<nat>, s': State, t: nat, c: Choice, u: nat)
    requires |run| == |sched| + 1 && run[|sched|] == s && u < |ages| == |s.threads| == |s'.threads| && AgeOk(run, sched, s, ages, u)
    ensures AgeOk(run + [s'], sched + [(t, c)], s', AgesAfter(s, s', ages), u)
  {
    StaleNext(run, sched, s, s', t, c, u);
  }

  lemma ExtendRun(m: nat, run: seq<State>, sched: Schedule, s: State, e: Value, ages: seq<nat>, t: nat, c: Choice, s': State)
    requires EndsIn(m, run, sched, s, e, ages) && Enabled(s, t, c) && s' == Exec(m, s, t, c) && (c.CallPush? ==> c.elem == e)
    requires Exchanging(s.threads[t]) ==> ages[t] <= m
    ensures EndsIn(m, run + [s'], sched + [(t, c)], s', e, AgesAfter(s, s', ages))
  {
    P.SameThreads(m, s, t, c);
    StillRun(m, run, sched, s, t, c, s');
    assert AgeOk(run, sched, s, ages, t);
    StillOutlast(m, run, sched, s, t, c, s');
    var run', sched' := run + [s'], sched + [(t, c)];
    forall u | 0 <= u < |ages| ensures AgeOk(run', sched', s', AgesAfter(s, s', ages), u) {
      AgeNext(run, sched, s, ages, s', t, c, u);
    }
  }

  lemma Extend(m: nat, s: State, e: Value, ages: seq<nat>, t: nat, c: Choice, s': State)
    requires Reachable(m, s, e, ages) && |ages| == |s.threads| && Enabled(s, t, c) && s' == Exec(m, s, t, c)
    requires (Exchanging(s.threads[t]) ==> ages[t] <= m) && (c.CallPush? ==> c.elem == e)
    ensures Reachable(m, s', e, AgesAfter(s, s', ages))
  {
    var run, sched :| EndsIn(m, run, sched, s, e, ages);
    ExtendRun(m, run, sched, s, e, ages, t, c, s');
  }

  /** Only the ages of remembered heads matter. */
  lemma Forget(m: nat, s: State, e: Value, ages: seq<nat>, ages': seq<nat>)
    requires Reachable(m, s, e, ages) && |ages'| == |ages| == |s.threads|
    requires forall u :: 0 <= u < |ages| && !Watches(s.threads[u]).Nothing? ==> ages'[u] == ages[u]
    ensures Reachable(m, s, e, ages')
  {
    var run, sched :| EndsIn(m, run, sched, s, e, ages);
    forall u | 0 <= u < |ages'| ensures AgeOk(run, sched, s, ages', u) {
      assert AgeOk(run, sched, s, ages, u);
    }
    assert EndsIn(m, run, sched, s, e, ages');
  }

  // ---- steps of one thread while the others stand still, thread 0 perhaps remembering the stack's head ----

  function Ages(age: nat): seq<nat> {
    [age, 0, 0, 0]
  }

  predicate Calm(s: State, t: nat) {
    && |s.threads| == 4 && 0 < t < 4 && !Watches(s.threads[0]).Pool?
    && forall u :: 0 < u < 4 && u != t ==> Watches(s.threads[u]).Nothing?
  }

  /** Thread t can be given the word: the others stand still and what it remembers is up to date. */
  ghost predicate Ready(m: nat, s: State, e: Value, age: nat, t: nat, pc: Local) {
    Calm(s, t) && Reachable(m, s, e, Ages(age)) && s.threads[t] == pc
  }

  /** A step that changes neither head. */
  lemma Go1(m: nat, s: State, e: Value, age: nat, t: nat, pc: Local, c: Choice, s': State, pc': Local)
    requires Ready(m, s, e, age, t, pc) && Enabled(s, t, c) && s' == Exec(m, s, t, c) && (c.CallPush? ==> c.elem == e)
    requires s'.head == s.head && s'.free == s.free && s'.threads == s.threads[t := pc']
    ensures Ready(m, s', e, age, t, pc')
  {
    Extend(m, s, e, Ages(age), t, c, s');
    StillAges(s, s', age, t);
    Forget(m, s', e, AgesAfter(s, s', Ages(age)), Ages(age));
  }

  lemma StillAges(s: State, s': State, age: nat, t: nat)
    requires Calm(s, t) && |s'.threads| == 4 && s'.threads == s.threads[t := s'.threads[t]] && s'.head == s.head && s'.free == s.free
    ensures forall u :: 0 <= u < 4 && !Watches(s'.threads[u]).Nothing? ==> AgesAfter(s, s', Ages(age))[u] == Ages(age)[u]
  {
  }

  function Later(s: State, age: nat): nat {
    if |s.threads| == 4 && Watches(s.threads[0]).Nothing? then age else age + 1
  }

  lemma SwapAges(s: State, s': State, age: nat, t: nat)
    requires Calm(s, t) && |s'.threads| == 4 && s'.threads == s.threads[t := s'.threads[t]] && Watches(s'.threads[t]).Nothing?
    ensures s'.head == s.head ==>
              forall u :: 0 <= u < 4 && !Watches(s'.threads[u]).Nothing? ==> AgesAfter(s, s', Ages(age))[u] == Ages(age)[u]
    ensures s'.head != s.head ==>
              forall u :: 0 <= u < 4 && !Watches(s'.threads[u]).Nothing? ==> AgesAfter(s, s', Ages(age))[u] == Ages(Later(s, age))[u]
  {
  }

  /** An exchange of the free list's head. */
  lemma SwapFree(m: nat, s: State, e: Value, age: nat, t: nat, pc: Local, s': State, pc': Local)
    requires Ready(m, s, e, age, t, pc) && Exchanging(pc) && s' == Exec(m, s, t, Go) && s'.head == s.head
    requires s'.threads == s.threads[t := pc'] && Watches(pc').Nothing?
    ensures Ready(m, s', e, age, t, pc')
  {
    Extend(m, s, e, Ages(age), t, Go, s');
    SwapAges(s, s', age, t);
    Forget(m, s', e, AgesAfter(s, s', Ages(age)), Ages(age));
  }

  /** An exchange of the stack's head. */
  lemma SwapHead(m: nat, s: State, e: Value, age: nat, t: nat, pc: Local, s': State, pc': Local)
    requires Ready(m, s, e, age, t, pc) && Exchanging(pc) && s' == Exec(m, s, t, Go) && s'.head != s.head
    requires s'.threads == s.threads[t := pc'] && Watches(pc').Nothing?
    ensures Ready(m, s', e, Later(s, age), t, pc')
  {
    Extend(m, s, e, Ages(age), t, Go, s');
    SwapAges(s, s', age, t);
    Forget(m, s', e, AgesAfter(s, s', Ages(age)), Ages(Later(s, age)));
  }

  // ---- whole operations ----

  lemma AcquireReads(m: nat, s: State, e: Value, age: nat, t: nat, n: nat)
    requires Ready(m, s, e, age, t, Idle) && s.free.index == n < |s.nodes| && n != NIL
    ensures Ready(m, Goto(s, t, AcqCas(e, s.free, s.nodes[n].nextFree)), e, age, t, AcqCas(e, s.free, s.nodes[n].nextFree))
  {
    var pc1, pc2, pc3 := AcqTop(e), AcqNext(e, s.free), AcqCas(e, s.free, s.nodes[n].nextFree);
    Go1(m, s, e, age, t, Idle, CallPush(e), Goto(s, t, pc1), pc1);
    Go1(m, Goto(s, t, pc1), e, age, t, pc1, Go, Goto(s, t, pc2), pc2);
    Go1(m, Goto(s, t, pc2), e, age, t, pc2, Go, Goto(s, t, pc3), pc3);
  }

  /** AcquireNode, called by Push. */
  lemma Acquire(m: nat, s: State, e: Value, age: nat, t: nat, n: nat) returns (r: State)
    requires Ready(m, s, e, age, t, Idle) && s.free.index == n < |s.nodes| && n != NIL
    ensures r == Goto(s, t, PushValue(e, n)).(free := r.free) && r.free.index == s.nodes[n].nextFree
    ensures Ready(m, r, e, age, t, PushValue(e, n))
  {
    AcquireReads(m, s, e, age, t, n);
    var s1 := Goto(s, t, AcqCas(e, s.free, s.nodes[n].nextFree));
    r := Goto(s, t, PushValue(e, n)).(free := Ptr(s.nodes[n].nextFree, Bump(m, s.free.tag)));
    SwapFree(m, s1, e, age, t, s1.threads[t], r, PushValue(e, n));
  }

  /** The node as Push leaves it. */
  function Stored(nodes: seq<Node>, n: nat, e: Value, next: nat): seq<Node>
    requires n < |nodes|
  {
    nodes[n := nodes[n].(value := e, next := next)]
  }

  lemma FinishWrites(m: nat, s: State, e: Value, age: nat, t: nat, n: nat)
    requires Ready(m, s, e, age, t, PushValue(e, n)) && n < |s.nodes|
    ensures Ready(m, Goto(s, t, PushCas(e, n, s.head)).(nodes := Stored(s.nodes, n, e, s.head.index)), e, age, t, PushCas(e, n, s.head))
  {
    var pc1, pc2, pc3 := PushTop(e, n), PushNext(e, n, s.head), PushCas(e, n, s.head);
    var nodes := s.nodes[n := s.nodes[n].(value := e)];
    Go1(m, s, e, age, t, s.threads[t], Go, Goto(s, t, pc1).(nodes := nodes), pc1);
    Go1(m, Goto(s, t, pc1).(nodes := nodes), e, age, t, pc1, Go, Goto(s, t, pc2).(nodes := nodes), pc2);
    assert nodes[n := nodes[n].(next := s.head.index)] == Stored(s.nodes, n, e, s.head.index);
    Go1(m, Goto(s, t, pc2).(nodes := nodes), e, age, t, pc2, Go,
        Goto(s, t, pc3).(nodes := Stored(s.nodes, n, e, s.head.index)), pc3);
  }

  /** Push from there on. */
  lemma Finish(m: nat, s: State, e: Value, age: nat, t: nat, n: nat) returns (r: State)
    requires Ready(m, s, e, age, t, PushValue(e, n)) && n < |s.nodes| && s.head.index != n
    ensures r == Goto(s, t, Idle).(nodes := Stored(s.nodes, n, e, s.head.index), head := Ptr(n, Bump(m, s.head.tag)), size := r.size)
    ensures Ready(m, r, e, Later(s, age), t, Idle)
  {
    FinishWrites(m, s, e, age, t, n);
    var s1 := Goto(s, t, PushCas(e, n, s.head)).(nodes := Stored(s.nodes, n, e, s.head.index));
    var s2 := Goto(s1, t, PushCount(e)).(head := Ptr(n, Bump(m, s.head.tag)));
    SwapHead(m, s1, e, age, t, s1.threads[t], s2, PushCount(e));
    r := Exec(m, s2, t, Go);
    Go1(m, s2, e, Later(s, age), t, PushCount(e), Go, r, Idle);
  }

  lemma TakeReads(m: nat, s: State, e: Value, age: nat, t: nat, n: nat)
    requires Ready(m, s, e, age, t, Idle) && s.head.index == n < |s.nodes| && n != NIL
    ensures Ready(m, Goto(s, t, PopCas(s.head, s.nodes[n].next)), e, age, t, PopCas(s.head, s.nodes[n].next))
  {
    var pc1, pc2, pc3 := PopTop, PopNext(s.head), PopCas(s.head, s.nodes[n].next);
    Go1(m, s, e, age, t, Idle, CallPop, Goto(s, t, pc1), pc1);
    Go1(m, Goto(s, t, pc1), e, age, t, pc1, Go, Goto(s, t, pc2), pc2);
    Go1(m, Goto(s, t, pc2), e, age, t, pc2, Go, Goto(s, t, pc3), pc3);
  }

  /** Pop up to ReleaseNode. */
  lemma Take(m: nat, s: State, e: Value, age: nat, t: nat, n: nat) returns (r: State)
    requires Ready(m, s, e, age, t, Idle) && s.head.index == n < |s.nodes| && n != NIL && s.nodes[n].next != n
    ensures r == Goto(s, t, RelClear(s.nodes[n].value, n)).(head := Ptr(s.nodes[n].next, Bump(m, s.head.tag)))
    ensures Ready(m, r, e, Later(s, age), t, RelClear(s.nodes[n].value, n))
  {
    TakeReads(m, s, e, age, t, n);
    var s1 := Goto(s, t, PopCas(s.head, s.nodes[n].next));
    var s2 := Goto(s, t, PopValue(n)).(head := Ptr(s.nodes[n].next, Bump(m, s.head.tag)));
    SwapHead(m, s1, e, age, t, s1.threads[t], s2, PopValue(n));
    r := Goto(s2, t, RelClear(s.nodes[n].value, n));
    Go1(m, s2, e, Later(s, age), t, PopValue(n), Go, r, RelClear(s.nodes[n].value, n));
  }

  /** The node as ReleaseNode leaves it. */
  function Freed(nodes: seq<Node>, n: nat, next: nat): seq<Node>
    requires n < |nodes|
  {
    nodes[n := nodes[n].(value := BLANK, nextFree := next)]
  }

  lemma ReleaseReads(m: nat, s: State, e: Value, age: nat, t: nat, v: Value, n: nat)
    requires Ready(m, s, e, age, t, RelClear(v, n)) && n < |s.nodes|
    ensures Ready(m, Goto(s, t, RelCas(v, n, s.free)).(nodes := Freed(s.nodes, n, s.free.index)), e, age, t, RelCas(v, n, s.free))
  {
    var pc1, pc2, pc3 := RelTop(v, n), RelNext(v, n, s.free), RelCas(v, n, s.free);
    var nodes := s.nodes[n := s.nodes[n].(value := BLANK)];
    Go1(m, s, e, age, t, s.threads[t], Go, Goto(s, t, pc1).(nodes := nodes), pc1);
    Go1(m, Goto(s, t, pc1).(nodes := nodes), e, age, t, pc1, Go, Goto(s, t, pc2).(nodes := nodes), pc2);
    assert nodes[n := nodes[n].(nextFree := s.free.index)] == Freed(s.nodes, n, s.free.index);
    Go1(m, Goto(s, t, pc2).(nodes := nodes), e, age, t, pc2, Go,
        Goto(s, t, pc3).(nodes := Freed(s.nodes, n, s.free.index)), pc3);
  }

  /** ReleaseNode, up to the return of Pop. */
  lemma ReleaseNode(m: nat, s: State, e: Value, age: nat, t: nat, v: Value, n: nat) returns (r: State)
    requires Ready(m, s, e, age, t, RelClear(v, n)) && n < |s.nodes|
    ensures r == Goto(s, t, PopCount(v)).(nodes := Freed(s.nodes, n, s.free.index), free := r.free) && r.free.index == n
    ensures Ready(m, r, e, age, t, PopCount(v))
  {
    ReleaseReads(m, s, e, age, t, v, n);
    var s1 := Goto(s, t, RelCas(v, n, s.free)).(nodes := Freed(s.nodes, n, s.free.index));
    r := Goto(s1, t, PopCount(v)).(free := Ptr(n, Bump(m, s.free.tag)));
    SwapFree(m, s1, e, age, t, s1.threads[t], r, PopCount(v));
  }

  lemma Release(m: nat, s: State, e: Value, age: nat, t: nat, v: Value, n: nat) returns (r: State)
    requires Ready(m, s, e, age, t, RelClear(v, n)) && n < |s.nodes|
    ensures r == Goto(s, t, Idle).(nodes := Freed(s.nodes, n, s.free.index), free := r.free, size := r.size)
    ensures r.free.index == n && Ready(m, r, e, age, t, Idle)
  {
    var s1 := ReleaseNode(m, s, e, age, t, v, n);
    r := Exec(m, s1, t, Go);
    Go1(m, s1, e, age, t, PopCount(v), Go, r, Idle);
  }

  // ---- scenes: reachable states in which no thread but 0 remembers anything ----

  ghost predicate Scene(m: nat, s: State, e: Value, age: nat, threads: seq<Local>, head: Ptr, f: nat, nodes: seq<Node>) {
    && Reachable(m, s, e, Ages(age)) && s.threads == threads && s.head == head && s.free.index == f && s.nodes == nodes
    && |threads| == 4 && (forall u :: 0 < u < 4 ==> Watches(threads[u]).Nothing?) && !Watches(threads[0]).Pool?
  }

  function Next(threads: seq<Local>, age: nat): nat
    requires |threads| > 0
  {
    if Watches(threads[0]).Nothing? then age else age + 1
  }

  /** Thread t acquires the top node n of the free list for a Push, and stops. */
  lemma SceneHold(m: nat, s: State, e: Value, age: nat, threads: seq<Local>, head: Ptr, n: nat, nodes: seq<Node>, t: nat)
    returns (r: State)
    requires Scene(m, s, e, age, threads, head, n, nodes) && 0 < t < 4 && threads[t] == Idle && n < |nodes| < NIL
    ensures Scene(m, r, e, age, threads[t := PushValue(e, n)], head, nodes[n].nextFree, nodes)
  {
    r := Acquire(m, s, e, age, t, n);
  }

  /** Thread t pushes the node that it holds. */
  lemma SceneFinish(m: nat, s: State, e: Value, age: nat, threads: seq<Local>, head: Ptr, f: nat, nodes: seq<Node>, t: nat, n: nat, tag: nat)
    returns (r: State)
    requires Scene(m, s, e, age, threads, head, f, nodes) && 0 < t < 4 && threads[t] == PushValue(e, n)
    requires n < |nodes| && head.index != n && tag == Bump(m, head.tag)
    ensures Scene(m, r, e, Next(threads, age), threads[t := Idle], Ptr(n, tag), f, Stored(nodes, n, e, head.index))
  {
    r := Finish(m, s, e, age, t, n);
  }

  /** A whole Push by thread 1. */
  lemma ScenePush(m: nat, s: State, e: Value, age: nat, threads: seq<Local>, head: Ptr, n: nat, nodes: seq<Node>, tag: nat)
    returns (r: State)
    requires Scene(m, s, e, age, threads, head, n, nodes) && threads[1] == Idle
    requires n < |nodes| < NIL && head.index != n && tag == Bump(m, head.tag)
    ensures Scene(m, r, e, Next(threads, age), threads, Ptr(n, tag), nodes[n].nextFree, Stored(nodes, n, e, head.index))
  {
    r := SceneHold(m, s, e, age, threads, head, n, nodes, 1);
    r := SceneFinish(m, r, e, age, threads[1 := PushValue(e, n)], head, nodes[n].nextFree, nodes, 1, n, tag);
    assert threads[1 := PushValue(e, n)][1 := Idle] == threads;
  }

  /** A whole Pop by thread 1. */
  lemma ScenePop(m: nat, s: State, e: Value, age: nat, threads: seq<Local>, n: nat, was: nat, f: nat, nodes: seq<Node>, tag: nat)
    returns (r: State)
    requires Scene(m, s, e, age, threads, Ptr(n, was), f, nodes) && threads[1] == Idle
    requires n < |nodes| < NIL && nodes[n].next != n && tag == Bump(m, was)
    ensures Scene(m, r, e, Next(threads, age), threads, Ptr(nodes[n].next, tag), n, Freed(nodes, n, f))
  {
    r := Take(m, s, e, age, 1, n);
    r := Release(m, r, e, Next(threads, age), 1, nodes[n].value, n);
    assert threads[1 := RelClear(nodes[n].value, n)][1 := Idle] == threads;
  }

  // ---- the failing run: node 0 under node 1, and thread 0 about to pop node 1 ----

  function Idles(): seq<Local> {
    [Idle, Idle, Idle, Idle]
  }

  const WAIT: Local := PopCas(Ptr(1, 2), 0)

  /** The nodes of the first part of the run, by the values of nodes 0 and 1. */
  function Early(a: Value, b: Value): seq<Node> {
    [Node(NIL, 1, a), Node(0, 2, b), Node(0, NIL, BLANK)]
  }

  lemma Constructed(m: nat, e: Value) returns (s: State)
    requires m > 3
    ensures Scene(m, s, e, 0, Idles(), Ptr(NIL, 0), 0, [Node(0, 1, BLANK), Node(0, 2, BLANK), Node(0, NIL, BLANK)])
  {
    s := State([Node(0, 1, BLANK), Node(0, 2, BLANK), Node(0, NIL, BLANK)], Ptr(NIL, 0), Ptr(0, 3), 0, Idles());
    Division(3, m, 0, 3);
    FreshInitial(m, s);
    assert EndsIn(m, [s], [], s, e, Ages(0));
  }

  lemma FreshInitial(m: nat, s: State)
    requires m > 3 && 3 % m == 3
    requires s == State([Node(0, 1, BLANK), Node(0, 2, BLANK), Node(0, NIL, BLANK)], Ptr(NIL, 0), Ptr(0, 3), 0, Idles())
    ensures Initial(m, s, ORDER)
  {
    assert ORDER[0] == 2 && ORDER[1] == 1 && ORDER[2] == 0;
    assert ORDER[..0] == [] && ORDER[..1] == [2] && ORDER[..2] == [2, 1];
  }

  lemma TwoPushed(m: nat, e: Value) returns (s: State)
    requires m > 3
    ensures Scene(m, s, e, 0, Idles(), Ptr(1, 2), 2, Early(e, e))
  {
    s := Constructed(m, e);
    s := ScenePush(m, s, e, 0, Idles(), Ptr(NIL, 0), 0, [Node(0, 1, BLANK), Node(0, 2, BLANK), Node(0, NIL, BLANK)], 1);
    assert s.nodes == Early(e, BLANK);
    s := ScenePush(m, s, e, 0, Idles(), Ptr(0, 1), 1, Early(e, BLANK), 2);
    assert s.nodes == Early(e, e);
  }

  /** A step of thread 0 that changes neither head. */
  lemma ZeroMoves(m: nat, s: State, e: Value, c: Choice, s': State)
    requires |s.threads| == 4 && Reachable(m, s, e, Ages(0)) && Enabled(s, 0, c) && s' == Exec(m, s, 0, c) && !c.CallPush?
    requires s'.head == s.head && s'.free == s.free && !Exchanging(s.threads[0])
    ensures Reachable(m, s', e, Ages(0))
  {
    Extend(m, s, e, Ages(0), 0, c, s');
    assert AgesAfter(s, s', Ages(0)) == Ages(0);
  }

  /** Thread 0 makes its reads. */
  lemma PopBegins(m: nat, s: State, e: Value, f: nat, nodes: seq<Node>) returns (r: State)
    requires Scene(m, s, e, 0, Idles(), Ptr(1, 2), f, nodes) && 1 < |nodes| < NIL && nodes[1].next == 0
    ensures Scene(m, r, e, 0, Idles()[0 := WAIT], Ptr(1, 2), f, nodes)
  {
    var s1, s2 := Goto(s, 0, PopTop), Goto(s, 0, PopNext(s.head));
    ZeroMoves(m, s, e, CallPop, s1);
    ZeroMoves(m, s1, e, Go, s2);
    r := Goto(s, 0, WAIT);
    ZeroMoves(m, s2, e, Go, r);
  }

  /** The two nodes come off. */
  lemma TwoPopped(m: nat, s: State, e: Value, t3: nat, t4: nat) returns (r: State)
    requires Scene(m, s, e, 0, Idles()[0 := WAIT], Ptr(1, 2), 2, Early(e, e)) && t3 == Bump(m, 2) && t4 == Bump(m, t3)
    ensures Scene(m, r, e, 2, Idles()[0 := WAIT], Ptr(NIL, t4), 0, Early(BLANK, BLANK))
  {
    r := ScenePop(m, s, e, 0, Idles()[0 := WAIT], 1, 2, 2, Early(e, e), t3);
    assert r.nodes == Early(e, BLANK);
    r := ScenePop(m, r, e, 1, Idles()[0 := WAIT], 0, t3, 1, Early(e, BLANK), t4);
    assert r.nodes == Early(BLANK, BLANK);
  }

  /** Threads 2 and 3 acquire them. */
  lemma TwoHeld(m: nat, s: State, e: Value, tag: nat) returns (r: State)
    requires Scene(m, s, e, 2, Idles()[0 := WAIT], Ptr(NIL, tag), 0, Early(BLANK, BLANK))
    ensures Scene(m, r, e, 2, [WAIT, Idle, PushValue(e, 0), PushValue(e, 1)], Ptr(NIL, tag), 2, Early(BLANK, BLANK))
  {
    r := SceneHold(m, s, e, 2, Idles()[0 := WAIT], Ptr(NIL, tag), 0, Early(BLANK, BLANK), 2);
    assert r.threads == [WAIT, Idle, PushValue(e, 0), Idle];
    r := SceneHold(m, r, e, 2, [WAIT, Idle, PushValue(e, 0), Idle], Ptr(NIL, tag), 1, Early(BLANK, BLANK), 3);
    assert r.threads == [WAIT, Idle, PushValue(e, 0), PushValue(e, 1)];
  }

  function Waiters(e: Value): seq<Local> {
    [WAIT, Idle, PushValue(e, 0), Idle]
  }

  function Late(x: nat, b: Value, e: Value): seq<Node> {
    [Node(NIL, 1, BLANK), Node(2, x, b), Node(NIL, NIL, e)]
  }

  /** Node 2 goes on, and then thread 3 puts node 1 back; thread 2 keeps node 0. */
  lemma TwoPushedBack(m: nat, s: State, e: Value, t4: nat, t5: nat, t6: nat) returns (r: State)
    requires Scene(m, s, e, 2, [WAIT, Idle, PushValue(e, 0), PushValue(e, 1)], Ptr(NIL, t4), 2, Early(BLANK, BLANK))
    requires t5 == Bump(m, t4) && t6 == Bump(m, t5)
    ensures Scene(m, r, e, 4, Waiters(e), Ptr(1, t6), NIL, Late(2, e, e))
  {
    var threads := [WAIT, Idle, PushValue(e, 0), PushValue(e, 1)];
    r := ScenePush(m, s, e, 2, threads, Ptr(NIL, t4), 2, Early(BLANK, BLANK), t5);
    var more := [Node(NIL, 1, BLANK), Node(0, 2, BLANK), Node(NIL, NIL, e)];
    assert r.nodes == more;
    r := SceneFinish(m, r, e, 3, threads, Ptr(2, t5), NIL, more, 3, 1, t6);
    assert r.nodes == Late(2, e, e) && r.threads == Waiters(e);
  }

  /** Popping node 1 and pushing it again changes nothing but the tag. */
  lemma Again(m: nat, s: State, e: Value, age: nat, x: nat, t0: nat, t1: nat, t2: nat) returns (r: State)
    requires Scene(m, s, e, age, Waiters(e), Ptr(1, t0), NIL, Late(x, e, e)) && t1 == Bump(m, t0) && t2 == Bump(m, t1)
    ensures Scene(m, r, e, age + 2, Waiters(e), Ptr(1, t2), NIL, Late(NIL, e, e))
  {
    r := ScenePop(m, s, e, age, Waiters(e), 1, t0, NIL, Late(x, e, e), t1);
    assert r.nodes == Late(NIL, BLANK, e);
    r := ScenePush(m, r, e, age + 1, Waiters(e), Ptr(2, t1), 1, Late(NIL, BLANK, e), t2);
    assert r.nodes == Late(NIL, e, e);
  }

  /** The tag after so many changes that thread 0 has missed. */
  function TagNow(m: nat, age: nat): nat
    requires m > 0
  {
    (2 + age) % m
  }

  lemma TagAfter(m: nat, age: nat)
    requires m > 1
    ensures Bump(m, TagNow(m, age)) == TagNow(m, age + 1)
  {
    BumpWraps(m, 2 + age);
  }

  lemma FourTags(m: nat)
    requires m > 3
    ensures Bump(m, Bump(m, Bump(m, Bump(m, 2)))) == TagNow(m, 4)
  {
    Division(2, m, 0, 2);
    TagAfter(m, 0);
    TagAfter(m, 1);
    TagAfter(m, 2);
    TagAfter(m, 3);
  }

  ghost predicate Waiting(m: nat, s: State, e: Value, age: nat, x: nat)
    requires m > 0
  {
    Scene(m, s, e, age, Waiters(e), Ptr(1, TagNow(m, age)), NIL, Late(x, e, e))
  }

  lemma WaitStarts(m: nat, e: Value) returns (r: State)
    requires m > 3
    ensures Waiting(m, r, e, 4, 2)
  {
    var t3 := Bump(m, 2);
    var t4 := Bump(m, t3);
    var t5 := Bump(m, t4);
    r := TwoPushed(m, e);
    r := PopBegins(m, r, e, 2, Early(e, e));
    r := TwoPopped(m, r, e, t3, t4);
    r := TwoHeld(m, r, e, t4);
    r := TwoPushedBack(m, r, e, t4, t5, Bump(m, t5));
    FourTags(m);
  }

  lemma WaitMore(m: nat, s: State, e: Value, age: nat, x: nat, to: nat) returns (r: State)
    requires m > 3 && Waiting(m, s, e, age, x) && to == age + 2
    ensures Waiting(m, r, e, to, NIL)
  {
    TagAfter(m, age);
    TagAfter(m, age + 1);
    r := Again(m, s, e, age, x, TagNow(m, age), TagNow(m, age + 1), TagNow(m, to));
  }

  lemma {:induction false} WaitOn(m: nat, e: Value, k: nat) returns (r: State, age: nat, x: nat)
    requires m > 3
    ensures age == 4 + 2 * k && Waiting(m, r, e, age, x)
  {
    if k == 0 {
      age, x := 4, 2;
      r := WaitStarts(m, e);
    } else {
      r, age, x := WaitOn(m, e, k - 1);
      r := WaitMore(m, r, e, age, x, age + 2);
      age, x := age + 2, NIL;
    }
  }

  /** After m changes the tag that thread 0 remembers is back. */
  lemma FullCircle(m: nat, age: nat)
    requires m > 3 && age == m
    ensures TagNow(m, age) == 2
  {
    Division(2 + m, m, 1, 2);
  }

  /** The exchange succeeds, though node 0 is in thread 2's hands. */
  lemma Deceived(m: nat, s: State, e: Value, age: nat, x: nat) returns (s': State)
    requires age <= m && Scene(m, s, e, age, Waiters(e), Ptr(1, 2), NIL, Late(x, e, e))
    ensures !TopUnheld(s') && s'.head.index == 0 && s'.nodes == Late(x, e, e)
    ensures Ready(m, s', e, age, 1, Idle) && Watches(s'.threads[0]).Nothing?
  {
    s' := Exec(m, s, 0, Go);
    Extend(m, s, e, Ages(age), 0, Go, s');
    Forget(m, s', e, AgesAfter(s, s', Ages(age)), Ages(age));
    assert s'.threads[2] == PushValue(e, 0);
  }

  lemma LateState(m: nat, e: Value, k: nat) returns (s: State, age: nat, x: nat)
    requires m == 4 + 2 * k
    ensures !TopUnheld(s) && s.head.index == 0 && s.nodes == Late(x, e, e) && Ready(m, s, e, age, 1, Idle)
  {
    s, age, x := WaitOn(m, e, k);
    FullCircle(m, age);
    s := Deceived(m, s, e, age, x);
  }

  /** With an even number m of tags, m changes of the head deceive the exchange. */
  lemma LateExchange(m: nat, e: Value) returns (run: seq<State>, sched: Schedule)
    requires m > 3 && m % 2 == 0
    ensures IsRun(m, ORDER, run, sched) && TagsOutlast(m + 1, run, sched)
    ensures !TopUnheld(run[|sched|])
  {
    var s, age, x := LateState(m, e, m / 2 - 2);
    run, sched :| EndsIn(m, run, sched, s, e, Ages(age));
  }

  /** Thread 1 then pops the node that thread 2 has yet to fill. */
  lemma BlankTaken(m: nat, e: Value, k: nat) returns (s: State, age: nat)
    requires m == 4 + 2 * k
    ensures Ready(m, s, e, age, 1, PopCount(BLANK))
  {
    var s0, x;
    s0, age, x := LateState(m, e, k);
    s := Take(m, s0, e, age, 1, 0);
    age := Later(s0, age);
    s := ReleaseNode(m, s, e, age, 1, BLANK, 0);
  }

  lemma LateReturn(m: nat, e: Value) returns (run: seq<State>, sched: Schedule)
    requires m > 3 && m % 2 == 0
    ensures |sched| > 0 && IsRun(m, ORDER, run, sched) && TagsOutlast(m + 1, run, sched)
    ensures forall i :: 0 <= i < |sched| && sched[i].1.CallPush? ==> sched[i].1.elem == e
    ensures var last := |sched| - 1; ActionOf(run[last], sched[last].0, sched[last].1) == A.ReturnPop(BLANK)
  {
    var s, age := BlankTaken(m, e, m / 2 - 2);
    run, sched :| EndsIn(m, run, sched, s, e, Ages(age));
    ExtendRun(m, run, sched, s, e, Ages(age), 1, Go, Exec(m, s, 1, Go));
    run, sched := run + [Exec(m, s, 1, Go)], sched + [(1, Go)];
  }

  /** Nobody pushed what it returns, so the history is not linearizable. */
  lemma LateNotLinearizable(m: nat, e: Value) returns (run: seq<State>, sched: Schedule)
    requires m > 3 && m % 2 == 0 && e != BLANK
    ensures IsRun(m, ORDER, run, sched) && TagsOutlast(m + 1, run, sched)
    ensures !A.Linearizable(A.Lifo, Events(m, ORDER, run, sched))
  {
    run, sched := LateReturn(m, e);
    var events := Events(m, ORDER, run, sched);
    forall i | 0 <= i < |events| ensures events[i].1 != A.CallPush(BLANK) {
      assert Enabled(run[i], sched[i].0, sched[i].1);
    }
    A.CountNone(events, A.CallPush(BLANK));
    A.CountSome(events, A.ReturnPop(BLANK), |sched| - 1);
    if A.Linearizable(A.Lifo, events) {
      A.PushesCover(A.Lifo, events, BLANK);
    }
  }

  // ---- the exact limit ----

  lemma PartitionedTop(s: State, g: Ghost)
    requires Partitioned(s, g)
    ensures TopUnheld(s)
  {
    if s.head.index != NIL {
      assert s.head.index in Members(g.stack);
      forall t | 0 <= t < |s.threads| ensures Holds(s.threads[t]) != s.head.index {
        if Holding(s.threads[t]) {
          assert Holds(s.threads[t]) in Held(s);
        }
      }
    }
  }

  /** Every run whose exchanges come before `limit` head changes keeps the top of the stack to itself. */
  ghost predicate SafeWithin(limit: nat) {
    forall order, run, sched :: IsRun(TAG_MODULUS, order, run, sched) && TagsOutlast(limit, run, sched) ==>
      TopUnheld(run[|sched|])
  }

  /** Thirty-two tag bits stand exactly 2^32 - 1 missed changes. */
  lemma TagLimitExact(limit: nat)
    ensures SafeWithin(limit) <==> limit <= 0x1_0000_0000
  {
    if limit <= TAG_MODULUS {
      forall order, run, sched | IsRun(TAG_MODULUS, order, run, sched) && TagsOutlast(limit, run, sched)
        ensures TopUnheld(run[|sched|])
      {
        var g := BoundedStackAccounts(order, run, sched, |sched|);
        PartitionedTop(run[|sched|], g);
      }
    } else {
      var run, sched := LateExchange(TAG_MODULUS, BLANK);
      assert TagsOutlast(limit, run, sched);
    }
  }

  /** Every run whose exchanges come before `limit` head changes is linearizable. */
  ghost predicate LinearizableWithin(limit: nat) {
    forall order, run, sched :: IsRun(TAG_MODULUS, order, run, sched) && TagsOutlast(limit, run, sched) ==>
      A.Linearizable(A.Lifo, Events(TAG_MODULUS, order, run, sched))
  }

  /** So is linearizability. */
  lemma LinearizableExact(limit: nat, e: Value)
    requires e != BLANK
    ensures LinearizableWithin(limit) <==> limit <= 0x1_0000_0000
  {
    if limit <= TAG_MODULUS {
      forall order, run, sched | IsRun(TAG_MODULUS, order, run, sched) && TagsOutlast(limit, run, sched)
        ensures A.Linearizable(A.Lifo, Events(TAG_MODULUS, order, run, sched))
      {
        var states := BoundedStackLinearizable(order, run, sched);
        A.TraceLinearizable(A.Lifo, states, Events(TAG_MODULUS, order, run, sched));
      }
    } else {
      var run, sched := LateNotLinearizable(TAG_MODULUS, e);
      assert TagsOutlast(limit, run, sched);
    }
  }
}
