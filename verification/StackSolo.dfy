/**
 One thread of the stack running alone: from every reachable state, wherever the other threads have stopped,
 its Pop and its Push end after a fixed number of steps, and with the right result.
 */
module StackSolo {
  import opened Element
  import opened StackModel
  import opened StackInvariant
  import opened StackTheorems
  import opened StackProof
  import B = StackBoundedTags
  import A = AtomicContainer

  // ---- a thread alone ----

  function ChoiceAt(c: Choice, i: nat): Choice {
    if i == 0 then c else Go
  }

  /** Steps of thread t alone, the first of them a call. */
  predicate SoloPath(m: nat, path: seq<State>, t: nat, c: Choice) {
    && |path| >= 2
    && forall i :: 0 <= i < |path| - 1 ==>
         Enabled(path[i], t, ChoiceAt(c, i)) && path[i + 1] == Exec(m, path[i], t, ChoiceAt(c, i))
  }

  /** The path leads to shared memory s with thread t at pc and the other threads where they were. */
  predicate Leads(m: nat, path: seq<State>, t: nat, c: Choice, s: State, pc: Local) {
    && SoloPath(m, path, t, c) && t < |s.threads| && s.threads == path[0].threads
    && path[|path| - 1] == Goto(s, t, pc)
  }

  lemma Start(m: nat, s: State, t: nat, c: Choice) returns (path: seq<State>)
    requires t < |s.threads| && s.threads[t] == Idle && !c.Go?
    ensures Leads(m, path, t, c, s, if c.CallPush? then AcqTop(c.elem) else PopTop) && path[0] == s && |path| == 2
  {
    path := [s, Exec(m, s, t, c)];
  }

  /** One more step, from shared memory s to shared memory s'. */
  lemma Onward(m: nat, path: seq<State>, t: nat, c: Choice, s: State, pc: Local, s': State, pc': Local)
    returns (path': seq<State>)
    requires Leads(m, path, t, c, s, pc) && !pc.Idle? && s'.threads == s.threads
    requires Exec(m, Goto(s, t, pc), t, Go) == Goto(s'.(threads := Goto(s, t, pc).threads), t, pc')
    ensures path' == path + [Goto(s', t, pc')] && Leads(m, path', t, c, s', pc')
  {
    assert s.threads[t := pc][t := pc'] == s.threads[t := pc'];
    path' := path + [Goto(s', t, pc')];
    forall i | 0 <= i < |path'| - 1
      ensures Enabled(path'[i], t, ChoiceAt(c, i)) && path'[i + 1] == Exec(m, path'[i], t, ChoiceAt(c, i))
    {
      if i < |path| - 1 {
        assert path'[i] == path[i] && path'[i + 1] == path[i + 1];
      }
    }
  }

  /** The call leads to its return, which is this action, and to shared memory s with thread t idle again. */
  predicate Completes(m: nat, path: seq<State>, t: nat, c: Choice, act: A.Action, s: State) {
    && SoloPath(m, path, t, c) && |path| >= 3 && path[|path| - 1] == s && s.threads == path[0].threads
    && ActionOf(path[|path| - 2], t, Go) == act
  }

  lemma Return(m: nat, path: seq<State>, t: nat, c: Choice, s: State, pc: Local, s': State) returns (path': seq<State>)
    requires Leads(m, path, t, c, s, pc) && (pc.PushFull? || pc.PushCount? || pc.PopEmpty? || pc.PopCount?)
    requires s.threads[t] == Idle && s'.threads == s.threads
    requires Exec(m, Goto(s, t, pc), t, Go) == Goto(s'.(threads := Goto(s, t, pc).threads), t, Idle)
    ensures path' == path + [s']
    ensures Completes(m, path', t, c, ActionOf(Goto(s, t, pc), t, Go), s')
  {
    assert s.threads[t := Idle] == s.threads;
    path' := Onward(m, path, t, c, s, pc, s', Idle);
  }

  // ---- Pop ----

  /** Pop up to the exchange of mHead. */
  lemma TakeTop(m: nat, s: State, t: nat, n: nat, next: nat) returns (path: seq<State>)
    requires t < |s.threads| && s.threads[t] == Idle && s.head.index == n != NIL && Load(s.nodes, n).next == next
    ensures Leads(m, path, t, CallPop, s.(head := Ptr(next, Bump(m, s.head.tag))), PopValue(n)) && path[0] == s && |path| == 5
  {
    path := Start(m, s, t, CallPop);
    path := Onward(m, path, t, CallPop, s, PopTop, s, PopNext(s.head));
    path := Onward(m, path, t, CallPop, s, PopNext(s.head), s, PopCas(s.head, next));
    path := Onward(m, path, t, CallPop, s, PopCas(s.head, next), s.(head := Ptr(next, Bump(m, s.head.tag))), PopValue(n));
  }

  /** ReleaseNode, from where the value has been read. */
  lemma GiveBack(m: nat, path0: seq<State>, s: State, t: nat, n: nat, v: Value) returns (path: seq<State>, s': State)
    requires Leads(m, path0, t, CallPop, s, RelClear(v, n)) && n < |s.nodes|
    ensures s' == s.(free := Ptr(n, Bump(m, s.free.tag)), nodes := s.nodes[n := Node(s.nodes[n].next, s.free.index, BLANK)])
    ensures Leads(m, path, t, CallPop, s', PopCount(v)) && path0 <= path && |path| == |path0| + 4
  {
    var s1 := s.(nodes := s.nodes[n := s.nodes[n].(value := BLANK)]);
    path := Onward(m, path0, t, CallPop, s, RelClear(v, n), s1, RelTop(v, n));
    path := Onward(m, path, t, CallPop, s1, RelTop(v, n), s1, RelNext(v, n, s.free));
    var s2 := s1.(nodes := s.nodes[n := Node(s.nodes[n].next, s.free.index, BLANK)]);
    assert s1.nodes[n := s1.nodes[n].(nextFree := s.free.index)] == s2.nodes;
    path := Onward(m, path, t, CallPop, s1, RelNext(v, n, s.free), s2, RelCas(v, n, s.free));
    s' := s2.(free := Ptr(n, Bump(m, s.free.tag)));
    path := Onward(m, path, t, CallPop, s2, RelCas(v, n, s.free), s', PopCount(v));
  }

  /** The shared memory after a Pop of node n by a thread alone. */
  function PoppedOnce(m: nat, s: State, n: nat): State
    requires n < |s.nodes|
  {
    s.(head := Ptr(s.nodes[n].next, Bump(m, s.head.tag)), free := Ptr(n, Bump(m, s.free.tag)),
       nodes := s.nodes[n := Node(s.nodes[n].next, s.free.index, BLANK)], size := (s.size - 1) % SIZE_MODULUS)
  }

  lemma PopPath(m: nat, s: State, t: nat, n: nat) returns (path: seq<State>)
    requires t < |s.threads| && s.threads[t] == Idle && s.head.index == n < |s.nodes| && n != NIL
    ensures Completes(m, path, t, CallPop, A.ReturnPop(s.nodes[n].value), PoppedOnce(m, s, n)) && path[0] == s && |path| == 11
  {
    var v := s.nodes[n].value;
    path := TakeTop(m, s, t, n, s.nodes[n].next);
    var s1 := s.(head := Ptr(s.nodes[n].next, Bump(m, s.head.tag)));
    path := Onward(m, path, t, CallPop, s1, PopValue(n), s1, RelClear(v, n));
    var s2;
    path, s2 := GiveBack(m, path, s1, t, n, v);
    path := Return(m, path, t, CallPop, s2, PopCount(v), PoppedOnce(m, s, n));
  }

  lemma EmptyPath(m: nat, s: State, t: nat) returns (path: seq<State>)
    requires t < |s.threads| && s.threads[t] == Idle && s.head.index == NIL
    ensures Completes(m, path, t, CallPop, A.ReturnEmpty, s) && path[0] == s && |path| == 4
  {
    path := Start(m, s, t, CallPop);
    path := Onward(m, path, t, CallPop, s, PopTop, s, PopEmpty);
    path := Return(m, path, t, CallPop, s, PopEmpty, s);
  }

  // ---- Push ----

  lemma FullPath(m: nat, s: State, t: nat, e: Value) returns (path: seq<State>)
    requires t < |s.threads| && s.threads[t] == Idle && s.free.index == NIL
    ensures Completes(m, path, t, CallPush(e), A.Refuse, s) && path[0] == s && |path| == 4
  {
    path := Start(m, s, t, CallPush(e));
    path := Onward(m, path, t, CallPush(e), s, AcqTop(e), s, PushFull(e));
    path := Return(m, path, t, CallPush(e), s, PushFull(e), s);
  }

  /** AcquireNode. */
  lemma TakeFree(m: nat, s: State, t: nat, n: nat, e: Value) returns (path: seq<State>)
    requires t < |s.threads| && s.threads[t] == Idle && s.free.index == n != NIL && n < |s.nodes|
    ensures Leads(m, path, t, CallPush(e), s.(free := Ptr(s.nodes[n].nextFree, Bump(m, s.free.tag))), PushValue(e, n))
    ensures path[0] == s && |path| == 5
  {
    var after := s.nodes[n].nextFree;
    path := Start(m, s, t, CallPush(e));
    path := Onward(m, path, t, CallPush(e), s, AcqTop(e), s, AcqNext(e, s.free));
    path := Onward(m, path, t, CallPush(e), s, AcqNext(e, s.free), s, AcqCas(e, s.free, after));
    path := Onward(m, path, t, CallPush(e), s, AcqCas(e, s.free, after), s.(free := Ptr(after, Bump(m, s.free.tag))), PushValue(e, n));
  }

  /** From the acquired node to the exchange of mHead. */
  lemma PutTop(m: nat, path0: seq<State>, s: State, t: nat, n: nat, e: Value) returns (path: seq<State>, s': State)
    requires Leads(m, path0, t, CallPush(e), s, PushValue(e, n)) && n < |s.nodes|
    ensures s' == s.(head := Ptr(n, Bump(m, s.head.tag)), nodes := s.nodes[n := Node(s.head.index, s.nodes[n].nextFree, e)])
    ensures Leads(m, path, t, CallPush(e), s', PushCount(e)) && path0 <= path && |path| == |path0| + 4
  {
    var s1 := s.(nodes := s.nodes[n := s.nodes[n].(value := e)]);
    path := Onward(m, path0, t, CallPush(e), s, PushValue(e, n), s1, PushTop(e, n));
    path := Onward(m, path, t, CallPush(e), s1, PushTop(e, n), s1, PushNext(e, n, s.head));
    var s2 := s1.(nodes := s.nodes[n := Node(s.head.index, s.nodes[n].nextFree, e)]);
    assert s1.nodes[n := s1.nodes[n].(next := s.head.index)] == s2.nodes;
    path := Onward(m, path, t, CallPush(e), s1, PushNext(e, n, s.head), s2, PushCas(e, n, s.head));
    s' := s2.(head := Ptr(n, Bump(m, s.head.tag)));
    path := Onward(m, path, t, CallPush(e), s2, PushCas(e, n, s.head), s', PushCount(e));
  }

  /** The shared memory after a Push onto node n by a thread alone. */
  function PushedOnce(m: nat, s: State, n: nat, e: Value): State
    requires n < |s.nodes|
  {
    s.(head := Ptr(n, Bump(m, s.head.tag)), free := Ptr(s.nodes[n].nextFree, Bump(m, s.free.tag)),
       nodes := s.nodes[n := Node(s.head.index, s.nodes[n].nextFree, e)], size := (s.size + 1) % SIZE_MODULUS)
  }

  lemma PushPath(m: nat, s: State, t: nat, n: nat, e: Value) returns (path: seq<State>)
    requires t < |s.threads| && s.threads[t] == Idle && s.free.index == n < |s.nodes| && n != NIL
    ensures Completes(m, path, t, CallPush(e), A.ReturnPush, PushedOnce(m, s, n, e)) && path[0] == s && |path| == 10
  {
    path := TakeFree(m, s, t, n, e);
    var s1 := s.(free := Ptr(s.nodes[n].nextFree, Bump(m, s.free.tag)));
    var s2;
    path, s2 := PutTop(m, path, s1, t, n, e);
    path := Return(m, path, t, CallPush(e), s2, PushCount(e), PushedOnce(m, s, n, e));
  }

  // ---- what the two paths do to the lists ----

  function Last(list: seq<nat>): nat
    requires list != []
  {
    list[|list| - 1]
  }

  lemma PlacesOf(s: State, g: Ghost)
    requires Partitioned(s, g)
    ensures forall d :: 0 <= d < |g.stack| ==> g.stack[d] < |s.nodes|
    ensures forall d :: 0 <= d < |g.pool| ==> g.pool[d] < |s.nodes|
    ensures forall d, e :: 0 <= d < |g.stack| && 0 <= e < |g.pool| ==> g.stack[d] != g.pool[e]
  {
    forall d | 0 <= d < |g.stack| ensures g.stack[d] < |s.nodes| {
      assert g.stack[d] in Members(g.stack) + Members(g.pool) + Held(s);
    }
    forall d | 0 <= d < |g.pool| ensures g.pool[d] < |s.nodes| {
      assert g.pool[d] in Members(g.stack) + Members(g.pool) + Held(s);
    }
    forall d, e | 0 <= d < |g.stack| && 0 <= e < |g.pool| ensures g.stack[d] != g.pool[e] {
      assert g.stack[d] in Members(g.stack) && g.pool[e] in Members(g.pool);
    }
  }

  /** The two lists of the shared memory, from their heads. */
  predicate Lists(s: State, g: Ghost) {
    StackOk(s, g) && PoolOk(s, g)
  }

  /** The top of the stack becomes the top of the free list. */
  function Popped(g: Ghost): Ghost
    requires g.stack != []
  {
    g.(stack := DropLast(g.stack), pool := g.pool + [Last(g.stack)])
  }

  /** Node n gets on one list and off the other; the rest of both lists is as before. */
  predicate MovesNode(s: State, s': State, n: nat) {
    n < |s.nodes| == |s'.nodes| && forall i :: 0 <= i < |s.nodes| && i != n ==> s'.nodes[i] == s.nodes[i]
  }

  lemma StackShorter(s: State, g: Ghost, s': State, g': Ghost)
    requires Partitioned(s, g) && g.stack != [] && g'.stack == DropLast(g.stack) && MovesNode(s, s', Last(g.stack))
    requires s'.head.index == Load(s.nodes, Last(g.stack)).next
    ensures StackOk(s', g') && Contents(s', g') == Contents(s, g)[..|g.stack| - 1]
  {
    PlacesOf(s, g);
    forall d | 0 <= d < |g'.stack| ensures Load(s'.nodes, g'.stack[d]) == Load(s.nodes, g.stack[d]) {
      assert g.stack[d] != Last(g.stack);
    }
    forall d | 0 <= d <= |g'.stack| ensures g'.stack[..d] == g.stack[..d] {
    }
  }

  lemma StackSame(s: State, g: Ghost, s': State, n: nat)
    requires Partitioned(s, g) && g.pool != [] && n == Last(g.pool) && MovesNode(s, s', n)
    ensures forall d :: 0 <= d < |g.stack| ==> Load(s'.nodes, g.stack[d]) == Load(s.nodes, g.stack[d])
  {
    PlacesOf(s, g);
    forall d | 0 <= d < |g.stack| ensures Load(s'.nodes, g.stack[d]) == Load(s.nodes, g.stack[d]) {
      assert g.stack[d] != n;
    }
  }

  lemma StackLonger(s: State, g: Ghost, s': State, g': Ghost, n: nat, e: Value)
    requires Partitioned(s, g) && g.pool != [] && n == Last(g.pool) && g'.stack == g.stack + [n] && MovesNode(s, s', n)
    requires s'.head.index == n && s'.nodes[n].next == s.head.index && s'.nodes[n].value == e
    ensures StackOk(s', g') && Contents(s', g') == Contents(s, g) + [e]
  {
    StackSame(s, g, s', n);
    LongerLinks(s, g, s', g', n);
    LongerContents(s, g, s', g', n);
  }

  lemma LongerLinks(s: State, g: Ghost, s': State, g': Ghost, n: nat)
    requires StackOk(s, g) && g'.stack == g.stack + [n] && n < |s'.nodes|
    requires forall d :: 0 <= d < |g.stack| ==> Load(s'.nodes, g.stack[d]) == Load(s.nodes, g.stack[d])
    requires s'.head.index == n && s'.nodes[n].next == s.head.index
    ensures StackOk(s', g')
  {
    forall d | 0 <= d < |g'.stack| ensures Load(s'.nodes, g'.stack[d]).next == Top(g'.stack[..d]) {
      assert g'.stack[..d] == g.stack[..d];
      assert g.stack[..|g.stack|] == g.stack;
    }
  }

  lemma LongerContents(s: State, g: Ghost, s': State, g': Ghost, n: nat)
    requires g'.stack == g.stack + [n] && n < |s'.nodes|
    requires forall d :: 0 <= d < |g.stack| ==> Load(s'.nodes, g.stack[d]) == Load(s.nodes, g.stack[d])
    ensures Contents(s', g') == Contents(s, g) + [s'.nodes[n].value]
  {
  }

  lemma PoolShorter(s: State, g: Ghost, s': State, g': Ghost)
    requires Partitioned(s, g) && g.pool != [] && g'.pool == DropLast(g.pool) && MovesNode(s, s', Last(g.pool))
    requires s'.free.index == Load(s.nodes, Last(g.pool)).nextFree
    ensures PoolOk(s', g')
  {
    PlacesOf(s, g);
    forall d | 0 <= d < |g'.pool| ensures Load(s'.nodes, g'.pool[d]) == Load(s.nodes, g.pool[d]) {
      assert g.pool[d] != Last(g.pool);
    }
    forall d | 0 <= d <= |g'.pool| ensures g'.pool[..d] == g.pool[..d] {
    }
  }

  lemma PoolLonger(s: State, g: Ghost, s': State, g': Ghost, n: nat)
    requires Partitioned(s, g) && g.stack != [] && n == Last(g.stack) && g'.pool == g.pool + [n] && MovesNode(s, s', n)
    requires s'.free.index == n && s'.nodes[n].nextFree == s.free.index
    ensures PoolOk(s', g')
  {
    PlacesOf(s, g);
    forall d | 0 <= d < |g.pool| ensures Load(s'.nodes, g'.pool[d]) == Load(s.nodes, g.pool[d]) {
      assert g.pool[d] != n;
    }
    forall d | 0 <= d <= |g.pool| ensures g'.pool[..d] == g.pool[..d] {
    }
    assert g.pool[..|g.pool|] == g.pool;
  }

  lemma PoppedLists(m: nat, s: State, g: Ghost)
    requires Partitioned(s, g) && g.stack != [] && Last(g.stack) < |s.nodes|
    ensures Lists(PoppedOnce(m, s, Last(g.stack)), Popped(g))
    ensures Contents(PoppedOnce(m, s, Last(g.stack)), Popped(g)) == Contents(s, g)[..|g.stack| - 1]
  {
    var s', g' := PoppedOnce(m, s, Last(g.stack)), Popped(g);
    StackShorter(s, g, s', g');
    PoolLonger(s, g, s', g', Last(g.stack));
  }

  /** The top of the free list becomes the top of the stack. */
  function Pushed(g: Ghost): Ghost
    requires g.pool != []
  {
    g.(pool := DropLast(g.pool), stack := g.stack + [Last(g.pool)])
  }

  lemma PushedLists(m: nat, s: State, g: Ghost, e: Value)
    requires Partitioned(s, g) && g.pool != [] && Last(g.pool) < |s.nodes|
    ensures Lists(PushedOnce(m, s, Last(g.pool), e), Pushed(g))
    ensures Contents(PushedOnce(m, s, Last(g.pool), e), Pushed(g)) == Contents(s, g) + [e]
  {
    var s', g' := PushedOnce(m, s, Last(g.pool), e), Pushed(g);
    StackLonger(s, g, s', g', Last(g.pool), e);
    PoolShorter(s, g, s', g');
  }

  // ---- the operations of a thread alone ----

  /** Pop ends: it returns false if the stack is empty, and otherwise takes the top and returns its value. */
  lemma PopAlone(m: nat, s: State, g: Ghost, t: nat) returns (path: seq<State>, s': State, g': Ghost)
    requires Partitioned(s, g) && |s.nodes| < NIL && t < |s.threads| && s.threads[t] == Idle
    ensures path != [] && path[0] == s && |path| <= 11
    ensures g.stack == [] ==> Completes(m, path, t, CallPop, A.ReturnEmpty, s')
    ensures g.stack != [] ==> Completes(m, path, t, CallPop, A.ReturnPop(Contents(s, g)[|g.stack| - 1]), s')
    ensures Lists(s', g')
    ensures Contents(s', g') == if g.stack == [] then [] else Contents(s, g)[..|g.stack| - 1]
    ensures |g'.stack| + |g'.pool| == |g.stack| + |g.pool|
  {
    PlacesOf(s, g);
    if g.stack == [] {
      path := EmptyPath(m, s, t);
      s', g' := s, g;
    } else {
      var n := Last(g.stack);
      path := PopPath(m, s, t, n);
      s', g' := PoppedOnce(m, s, n), Popped(g);
      PoppedLists(m, s, g);
    }
  }

  /** Push ends: it gives up if no node is free, and otherwise the element is on top. */
  lemma PushAlone(m: nat, s: State, g: Ghost, t: nat, e: Value) returns (path: seq<State>, s': State, g': Ghost)
    requires Partitioned(s, g) && |s.nodes| < NIL && t < |s.threads| && s.threads[t] == Idle
    ensures path != [] && path[0] == s && |path| <= 10
    ensures Completes(m, path, t, CallPush(e), if g.pool == [] then A.Refuse else A.ReturnPush, s')
    ensures Lists(s', g') && Contents(s', g') == if g.pool == [] then Contents(s, g) else Contents(s, g) + [e]
    ensures |g'.stack| + |g'.pool| == |g.stack| + |g.pool|
  {
    PlacesOf(s, g);
    if g.pool == [] {
      path := FullPath(m, s, t, e);
      s', g' := s, g;
    } else {
      var n := Last(g.pool);
      path := PushPath(m, s, t, n, e);
      s', g' := PushedOnce(m, s, n, e), Pushed(g);
      PushedLists(m, s, g, e);
    }
  }

  // ---- from every reachable state ----

  lemma {:induction false} SizeFixed(m: nat, order: seq<nat>, run: seq<State>, sched: Schedule, n: nat)
    requires IsRun(m, order, run, sched) && n <= |sched|
    ensures |run[n].nodes| == |run[0].nodes| < 0x100_0000
  {
    if n > 0 {
      SizeFixed(m, order, run, sched, n - 1);
    }
  }

  /** The run goes on along a path. */
  function Calls(t: nat, c: Choice, n: nat): Schedule {
    seq(n, i requires 0 <= i < n => (t, ChoiceAt(c, i)))
  }

  lemma RunOn(m: nat, order: seq<nat>, run: seq<State>, sched: Schedule, path: seq<State>, t: nat, c: Choice)
    requires IsRun(m, order, run, sched) && SoloPath(m, path, t, c) && path[0] == run[|sched|]
    ensures IsRun(m, order, run + path[1..], sched + Calls(t, c, |path| - 1))
  {
    var run', sched' := run + path[1..], sched + Calls(t, c, |path| - 1);
    forall i | 0 <= i < |sched'|
      ensures Enabled(run'[i], sched'[i].0, sched'[i].1) && run'[i + 1] == Exec(m, run'[i], sched'[i].0, sched'[i].1)
    {
      if i >= |sched| {
        assert run'[i] == path[i - |sched|] && run'[i + 1] == path[i - |sched| + 1];
      }
    }
  }

  /** The state at the end of a run of the stack, with the lists in it; 0 and 2^32 are the tag moduli. */
  ghost predicate Reached(m: nat, order: seq<nat>, run: seq<State>, sched: Schedule, t: nat) {
    && IsRun(m, order, run, sched) && t < |run[|sched|].threads| && run[|sched|].threads[t] == Idle
    && (m == 0 || (m == TAG_MODULUS && B.TagsOutlast(m, run, sched)))
  }

  lemma ListsAt(m: nat, order: seq<nat>, run: seq<State>, sched: Schedule, t: nat) returns (g: Ghost)
    requires Reached(m, order, run, sched, t)
    ensures Partitioned(run[|sched|], g) && |run[|sched|].nodes| < NIL
  {
    SizeFixed(m, order, run, sched, |sched|);
    if m == 0 {
      NodesConserved(order, run, sched, |sched|);
      g := History(order, run, sched, |sched|);
    } else {
      g := B.BoundedStackAccounts(order, run, sched, |sched|);
    }
  }

  /** The run goes on, by steps of t alone, to the return of t's operation with this action, in state s. */
  ghost predicate GoesOn(m: nat, order: seq<nat>, run: seq<State>, sched: Schedule, t: nat, c: Choice, act: A.Action,
                         n: nat, s: State) {
    exists run', sched' :: IsRun(m, order, run', sched') && Extends(run, sched, run', sched', t, c, n, s)
                           && Events(m, order, run', sched')[|sched'| - 1] == (t, act)
  }

  predicate Extends(run: seq<State>, sched: Schedule, run': seq<State>, sched': Schedule, t: nat, c: Choice, n: nat, s: State) {
    run <= run' && sched' == sched + Calls(t, c, n) && n > 0 && |run'| == |sched'| + 1 && run'[|sched'|] == s
  }

  lemma LastEvent(m: nat, order: seq<nat>, run: seq<State>, sched: Schedule, t: nat, act: A.Action)
    requires IsRun(m, order, run, sched) && sched != [] && sched[|sched| - 1].0 == t && Enabled(run[|sched| - 1], t, Go)
    requires sched[|sched| - 1].1 == Go && ActionOf(run[|sched| - 1], t, Go) == act
    ensures Events(m, order, run, sched)[|sched| - 1] == (t, act)
  {
  }

  lemma PathGoesOn(m: nat, order: seq<nat>, run: seq<State>, sched: Schedule, t: nat, c: Choice, act: A.Action,
                   path: seq<State>, s: State)
    requires IsRun(m, order, run, sched) && Completes(m, path, t, c, act, s) && path[0] == run[|sched|]
    ensures GoesOn(m, order, run, sched, t, c, act, |path| - 1, s)
  {
    RunOn(m, order, run, sched, path, t, c);
    var run', sched' := run + path[1..], sched + Calls(t, c, |path| - 1);
    assert run'[|sched'| - 1] == path[|path| - 2];
    LastEvent(m, order, run', sched', t, act);
    assert Extends(run, sched, run', sched', t, c, |path| - 1, s);
  }

  /**
   A thread that goes on alone finishes its Pop in at most ten steps, wherever the others stand: with false exactly
   when the stack is empty, and otherwise with the top, which is gone afterwards.
   */
  lemma PopEnds(m: nat, order: seq<nat>, run: seq<State>, sched: Schedule, t: nat)
    returns (g: Ghost, n: nat, s': State, g': Ghost)
    requires Reached(m, order, run, sched, t)
    ensures var s := run[|sched|];
            && Partitioned(s, g) && Lists(s', g') && s'.threads == s.threads && n <= 10
            && (if g.stack == []
                then GoesOn(m, order, run, sched, t, CallPop, A.ReturnEmpty, n, s') && Contents(s', g') == []
                else GoesOn(m, order, run, sched, t, CallPop, A.ReturnPop(Contents(s, g)[|g.stack| - 1]), n, s')
                     && Contents(s', g') == Contents(s, g)[..|g.stack| - 1])
  {
    g := ListsAt(m, order, run, sched, t);
    var path;
    path, s', g' := PopAlone(m, run[|sched|], g, t);
    n := |path| - 1;
    var act := if g.stack == [] then A.ReturnEmpty else A.ReturnPop(Contents(run[|sched|], g)[|g.stack| - 1]);
    PathGoesOn(m, order, run, sched, t, CallPop, act, path, s');
  }

  /**
   So does its Push, in at most nine steps: it gives up exactly when no node is free, that is when all are stacked or
   in a thread's hands, and otherwise its element is on top afterwards.
   */
  lemma PushEnds(m: nat, order: seq<nat>, run: seq<State>, sched: Schedule, t: nat, e: Value)
    returns (g: Ghost, n: nat, s': State, g': Ghost)
    requires Reached(m, order, run, sched, t)
    ensures var s := run[|sched|];
            && Partitioned(s, g) && Lists(s', g') && s'.threads == s.threads && n <= 9
            && (if Full(s, g)
                then GoesOn(m, order, run, sched, t, CallPush(e), A.Refuse, n, s') && Contents(s', g') == Contents(s, g)
                else GoesOn(m, order, run, sched, t, CallPush(e), A.ReturnPush, n, s')
                     && Contents(s', g') == Contents(s, g) + [e])
  {
    g := ListsAt(m, order, run, sched, t);
    var path;
    path, s', g' := PushAlone(m, run[|sched|], g, t, e);
    n := |path| - 1;
    FullMeans(run[|sched|], g);
    PathGoesOn(m, order, run, sched, t, CallPush(e), if g.pool == [] then A.Refuse else A.ReturnPush, path, s');
  }

  lemma FullMeans(s: State, g: Ghost)
    requires Partitioned(s, g)
    ensures Full(s, g) <==> g.pool == []
  {
    if g.pool == [] {
      assert Members(g.stack) + Members(g.pool) + Held(s) == Members(g.stack) + Held(s);
    } else {
      PlacesOf(s, g);
      assert g.pool[0] in Members(g.pool) && g.pool[0] !in Members(g.stack) + Held(s);
    }
  }

  // ---- progress from everywhere, and under interference ----

  /** How many steps thread t still needs if no other thread moves a list head. */
  function Remaining(s: State, l: Local): nat {
    match l
    case Idle => 0
    case AcqTop(_) => 8
    case AcqNext(_, top) => if s.free == top then 7 else 10
    case AcqCas(_, top, _) => if s.free == top then 6 else 9
    case PushFull(_) => 1
    case PushValue(_, _) => 5
    case PushTop(_, _) => 4
    case PushNext(_, _, top) => if s.head == top then 3 else 6
    case PushCas(_, _, top) => if s.head == top then 2 else 5
    case PushCount(_) => 1
    case PopTop => 9
    case PopNext(top) => if s.head == top then 8 else 11
    case PopCas(top, _) => if s.head == top then 7 else 10
    case PopEmpty => 1
    case PopValue(_) => 6
    case RelClear(_, _) => 5
    case RelTop(_, _) => 4
    case RelNext(_, _, top) => if s.free == top then 3 else 6
    case RelCas(_, _, top) => if s.free == top then 2 else 5
    case PopCount(_) => 1
  }

  /** A step of the thread itself brings it nearer to its return. */
  lemma RemainingFalls(m: nat, s: State, t: nat)
    requires Enabled(s, t, Go)
    ensures var s' := Exec(m, s, t, Go);
            |s'.threads| == |s.threads| && Remaining(s', s'.threads[t]) < Remaining(s, s.threads[t]) <= 11
  {
  }

  /** From any state at all, a thread that goes on alone finishes what it is at. */
  lemma {:induction false} EndsAlone(m: nat, s: State, t: nat) returns (path: seq<State>)
    requires t < |s.threads|
    ensures path != [] && path[0] == s && |path| <= 1 + Remaining(s, s.threads[t]) <= 1 + 11
    ensures forall i :: 0 <= i < |path| - 1 ==> Enabled(path[i], t, Go) && path[i + 1] == Exec(m, path[i], t, Go)
    ensures t < |path[|path| - 1].threads| && path[|path| - 1].threads[t] == Idle
    decreases Remaining(s, s.threads[t])
  {
    if s.threads[t] == Idle {
      path := [s];
    } else {
      RemainingFalls(m, s, t);
      var more := EndsAlone(m, Exec(m, s, t, Go), t);
      path := [s] + more;
    }
  }

  /** How many of the steps from n0 to n are thread t's. */
  function StepsOf(sched: Schedule, t: nat, n0: nat, n: nat): nat
    requires n0 <= n <= |sched|
  {
    if n == n0 then 0 else StepsOf(sched, t, n0, n - 1) + if sched[n - 1].0 == t then 1 else 0
  }

  /** How many of them are another thread's successful exchanges. */
  function Defeats(run: seq<State>, sched: Schedule, t: nat, n0: nat, n: nat): nat
    requires n0 <= n <= |sched| < |run|
  {
    if n == n0 then 0
    else Defeats(run, sched, t, n0, n - 1) +
         if sched[n - 1].0 != t && (run[n].head != run[n - 1].head || run[n].free != run[n - 1].free) then 1 else 0
  }

  /** Thread t is inside one operation from step n0 on. */
  predicate Busy(run: seq<State>, t: nat, n0: nat, n: nat)
    requires n0 <= n < |run|
  {
    forall i :: n0 <= i < n ==> t < |run[i].threads| && run[i].threads[t] != Idle
  }

  lemma OthersDelay(m: nat, s: State, t: nat, u: nat, c: Choice)
    requires Enabled(s, u, c) && t < |s.threads| && t != u
    ensures var s' := Exec(m, s, u, c);
            && |s'.threads| == |s.threads| && s'.threads[t] == s.threads[t]
            && Remaining(s', s'.threads[t]) <= 11
            && (s'.head == s.head && s'.free == s.free ==> Remaining(s', s'.threads[t]) == Remaining(s, s.threads[t]))
  {
  }

  lemma MostIsMost(s: State, l: Local)
    ensures Remaining(s, l) <= 11
  {
  }

  /** One step: whatever it is, it is paid for. */
  lemma Paid(m: nat, s: State, u: nat, c: Choice, s': State, t: nat)
    requires Enabled(s, u, c) && s' == Exec(m, s, u, c) && t < |s.threads| && s.threads[t] != Idle
    ensures |s'.threads| == |s.threads|
    ensures Remaining(s', s'.threads[t]) + (if u == t then 1 else 0) <=
            Remaining(s, s.threads[t]) + (if u != t && (s'.head != s.head || s'.free != s.free) then 11 else 0)
  {
    if u == t {
      RemainingFalls(m, s, t);
    } else {
      OthersDelay(m, s, t, u, c);
    }
  }

  /** Step i leaves thread t nearer to its return, unless it is another thread's successful exchange. */
  predicate PaidAt(run: seq<State>, sched: Schedule, t: nat, i: nat)
    requires i < |sched| < |run|
  {
    var s, s' := run[i], run[i + 1];
    && t < |s.threads| == |s'.threads|
    && Remaining(s', s'.threads[t]) + (if sched[i].0 == t then 1 else 0) <=
         Remaining(s, s.threads[t]) + (if sched[i].0 != t && (s'.head != s.head || s'.free != s.free) then 11 else 0)
  }

  lemma AllPaid(m: nat, order: seq<nat>, run: seq<State>, sched: Schedule, t: nat, n0: nat, n: nat)
    requires IsRun(m, order, run, sched) && n0 <= n <= |sched| && Busy(run, t, n0, n)
    ensures forall i :: n0 <= i < n ==> PaidAt(run, sched, t, i)
  {
    forall i | n0 <= i < n ensures PaidAt(run, sched, t, i) {
      Paid(m, run[i], sched[i].0, sched[i].1, run[i + 1], t);
    }
  }

  lemma {:induction false} Sum(run: seq<State>, sched: Schedule, t: nat, n0: nat, n: nat)
    requires n0 <= n <= |sched| < |run| && t < |run[n0].threads|
    requires forall i :: n0 <= i < n ==> PaidAt(run, sched, t, i)
    ensures t < |run[n].threads|
    ensures StepsOf(sched, t, n0, n) + Remaining(run[n], run[n].threads[t]) <= 11 + 11 * Defeats(run, sched, t, n0, n)
  {
    if n > n0 {
      Sum(run, sched, t, n0, n - 1);
      assert PaidAt(run, sched, t, n - 1);
    } else {
      MostIsMost(run[n], run[n].threads[t]);
    }
  }

  /**
   Lock-freedom: an operation takes at most eleven steps of its own, and eleven more for every time that
   another thread's exchange has got in between.
   */
  lemma LockFree(m: nat, order: seq<nat>, run: seq<State>, sched: Schedule, t: nat, n0: nat, n: nat)
    requires IsRun(m, order, run, sched) && n0 <= n <= |sched| && t < |run[n0].threads| && Busy(run, t, n0, n)
    ensures StepsOf(sched, t, n0, n) <= 11 + 11 * Defeats(run, sched, t, n0, n)
  {
    AllPaid(m, order, run, sched, t, n0, n);
    Sum(run, sched, t, n0, n);
  }
}
