/**
 A run of the queue with m wrapping tags in which mTail moves m times and mFreeNodeHead three times, and
 an element that was pushed once is returned twice.
 */
module QueueTagRun {
  import opened Element
  import opened QueueModel
  import opened QueueTheorems
  import opened QueueWrappedModel
  import opened QueueWrappedSteps
  import A = AtomicContainer

  // ---- thread 0 stops before the exchange of its Pop; thread 1 fills the queue ----

  /** The allocated nodes are 1 to k. */
  ghost predicate Nodes(s: State, k: nat) {
    forall a :: a in s.mem <==> 1 <= a <= k
  }

  /** The node at position p is p + 1, and its mPrev is exact. */
  ghost predicate Chain(s: State, n: nat, v: Value) {
    && s.tail == Ptr(n + 1, n) && s.free.addr == NULL && Nodes(s, n + 1)
    && (forall a :: 1 <= a <= n ==> s.mem[a].prev == Ptr(a + 1, a - 1))
    && (n >= 1 ==> s.mem[2].value == v)
  }

  predicate IdleFrom(s: State, t: nat) {
    forall u :: t <= u < |s.threads| ==> s.threads[u] == Idle
  }

  function First(m: int): Node {
    Node(Ptr(1, m - 1), Ptr(NULL, m - 1), NULL, BLANK)
  }

  /** The very first step calls Push of v. */
  lemma FirstCall(m: int, v: Value, e: Value) returns (s: State)
    requires m >= 3
    ensures s == State(map[1 := First(m)], Ptr(1, 0), Ptr(1, 0), Ptr(NULL, m - 1), 0, s.threads)
    ensures |s.threads| == m + 1 && s.threads[1] == AcqTop(v) && (forall u :: 0 <= u <= m && u != 1 ==> s.threads[u] == Idle)
    ensures Reaches(m, s, Counted(v, e, 0, 0, false))
  {
    var s0 := State(map[1 := First(m)], Ptr(1, 0), Ptr(1, 0), Ptr(NULL, m - 1), 0, seq(m + 1, _ => Idle));
    s := Goto(s0, 1, AcqTop(v));
    var run, sched := [s0, s], [(1, CallPush(v))];
    assert IsWrappedRun(m, run, sched);
    assert run[1].tail == run[0].tail && run[1].free == run[0].free;
    assert TailMoves(run, 0) == 0 == FreeMoves(run, 0);
    assert TailMoves(run, 1) == 0 == FreeMoves(run, 1);
    assert EndsIn(m, run, sched, s, Counted(v, e, 0, 0, false));
  }

  /** The queue after a push of node n. */
  function Pushed(s: State, e: Value, n: nat, tag: int): State
    requires s.tail.addr in s.mem
  {
    s.(tail := Ptr(n, tag),
       mem := s.mem[n := Fresh(e, Ptr(s.tail.addr, tag))][s.tail.addr := s.mem[s.tail.addr].(prev := Ptr(n, s.tail.tag))])
  }

  /** Thread 0 has stopped inside its Pop and the chain has n elements. */
  ghost predicate Filling(m: int, s: State, n: nat, v: Value) {
    Chain(s, n, v) && s.head == Ptr(1, 0) && |s.threads| == m + 1 && Stopped(s, v) && IdleFrom(s, 1)
  }

  /** A push makes the chain one longer. */
  lemma ChainGrows(m: int, s: State, n: nat, v: Value, e: Value, s': State)
    requires Filling(m, s, n, v) && n >= 1 && s' == Pushed(s, e, n + 2, n + 1).(size := s'.size)
    ensures Filling(m, s', n + 1, v)
  {
  }

  lemma FirstLinked(m: int, v: Value, e: Value) returns (s: State)
    requires m >= 3
    ensures s.mem == map[1 := First(m), 2 := Fresh(v, Ptr(1, 1))] && s.head == Ptr(1, 0) && s.tail == Ptr(2, 1) && s.free.addr == NULL
    ensures |s.threads| == m + 1 && s.threads[1] == PushLink(v, 2, Ptr(1, 0))
    ensures forall u :: 0 <= u <= m && u != 1 ==> s.threads[u] == Idle
    ensures Reaches(m, s, Counted(v, e, 1, 0, false))
  {
    var s0 := FirstCall(m, v, e);
    s := LinkNew(m, s0, v, 1, Counted(v, e, 0, 0, false), 2);
    assert s.mem == map[1 := First(m), 2 := Fresh(v, Ptr(1, 1))];
  }

  lemma FirstShape(m: int, s: State, v: Value, r: State)
    requires m >= 3 && s.mem == map[1 := First(m), 2 := Fresh(v, Ptr(1, 1))] && s.tail == Ptr(2, 1) && s.free.addr == NULL
    requires |s.threads| == m + 1 && forall u :: 0 <= u <= m && u != 1 ==> s.threads[u] == Idle
    requires r == Goto(s, 1, Idle).(mem := s.mem[1 := s.mem[1].(prev := Ptr(2, 0))], size := r.size)
    ensures Chain(r, 1, v) && |r.threads| == m + 1 && IdleFrom(r, 0)
  {
  }

  lemma FirstPushed(m: int, v: Value, e: Value) returns (s: State)
    requires m >= 3
    ensures Chain(s, 1, v) && s.head == Ptr(1, 0) && |s.threads| == m + 1 && IdleFrom(s, 0)
    ensures Reaches(m, s, Counted(v, e, 1, 0, false))
  {
    var s1 := FirstLinked(m, v, e);
    s := Finish(m, s1, v, 1, Counted(v, e, 1, 0, false), 2, Ptr(1, 0));
    FirstShape(m, s1, v, s);
  }

  /** Thread 0 is about to exchange mHead, having read v. */
  predicate Stopped(s: State, v: Value) {
    |s.threads| > 0 && s.threads[0] == PopCas(Ptr(1, 0), Ptr(2, 0), v)
  }

  lemma PopStops(m: int, v: Value, e: Value) returns (s: State)
    requires m >= 3
    ensures Filling(m, s, 1, v)
    ensures Reaches(m, s, Counted(v, e, 1, 0, false))
  {
    var s0 := FirstPushed(m, v, e);
    var y := Counted(v, e, 1, 0, false);
    PopCalls(m, s0, 0, y);
    var s1 := Goto(s0, 0, PopHead);
    PopExchange(m, s1, 0, y, Ptr(2, 0), v);
    s := Goto(s1, 0, PopCas(Ptr(1, 0), Ptr(2, 0), v));
  }

  /** Thread 1 pushes until there are n elements. */
  lemma {:induction false} Filled(m: int, n: nat, v: Value, e: Value) returns (s: State)
    requires 1 <= n < m && m >= 3
    ensures Filling(m, s, n, v)
    ensures Reaches(m, s, Counted(v, e, n, 0, false))
  {
    if n == 1 {
      s := PopStops(m, v, e);
    } else {
      var s0 := Filled(m, n - 1, v, e);
      s := PushOne(m, s0, n - 1, v, e);
    }
  }

  lemma ChainReady(m: int, s: State, n: nat, v: Value)
    requires Filling(m, s, n, v) && m >= 1
    ensures At(s, 1, Idle) && s.tail == Ptr(n + 1, n) && s.tail.addr in s.mem && s.free.addr == NULL && n + 2 !in s.mem
  {
  }

  lemma PushOne(m: int, s: State, n: nat, v: Value, e: Value) returns (r: State)
    requires 1 <= n && n + 1 < m && Filling(m, s, n, v) && Reaches(m, s, Counted(v, e, n, 0, false))
    ensures Filling(m, r, n + 1, v)
    ensures Reaches(m, r, Counted(v, e, n + 1, 0, false))
  {
    ChainReady(m, s, n, v);
    var y, y' := Counted(v, e, n, 0, false), Counted(v, e, n + 1, 0, false);
    assert y' == y.(tails := y.tails + 1);
    r := PushFresh(m, s, e, 1, y, n + 2, n + 1);
    ChainGrows(m, s, n, v, e, r);
  }

  /** A whole push of a fresh node. */
  lemma PushFresh(m: int, s: State, e: Value, t: nat, y: Tally, n: nat, tag: int) returns (r: State)
    requires At(s, t, Idle) && Reaches(m, s, y) && y.Counted? && e == y.rest && s.tail.addr in s.mem
    requires s.free.addr == NULL && n != NULL && n !in s.mem && tag == Next(m, s.tail.tag)
    ensures r == Pushed(s, e, n, tag).(size := r.size) && Reaches(m, r, y.(tails := y.tails + 1))
  {
    assert TailMoved(y) == y.(tails := y.tails + 1);
    var s1 := LinkFresh(m, s, e, t, y, n);
    r := Finish(m, s1, e, t, TailMoved(y), n, s.tail);
    assert r.threads == s.threads;
  }

  // ---- thread 1 pops v, and pushes the recycled node 1 under tag 0 ----

  /** Node 1 is linked again behind node m; thread 0 still holds what it read. */
  ghost predicate Trap(m: int, s: State, v: Value) {
    && m >= 3 && |s.threads| == m + 1 && Stopped(s, v) && s.tail == Ptr(1, 0) && s.free.addr == NULL
    && Nodes(s, m)
    && (forall a :: 2 <= a < m ==> s.mem[a].prev == Ptr(a + 1, a - 1)) && s.mem[m].prev == Ptr(1, m - 1)
  }

  /** The queue of m - 1 elements after node 1 has been recycled. */
  ghost predicate Recycled(m: int, s: State, v: Value) {
    && m >= 3 && |s.threads| == m + 1 && Stopped(s, v) && IdleFrom(s, 1) && s.head == Ptr(2, 1) && s.tail == Ptr(m, m - 1)
    && s.free.addr == 1 && Nodes(s, m) && s.mem[1].nextFree == NULL
    && forall a :: 2 <= a < m ==> s.mem[a].prev == Ptr(a + 1, a - 1)
  }

  lemma RecycledShape(m: int, s: State, v: Value, r: State)
    requires m >= 3 && Filling(m, s, m - 1, v)
    requires r == Popped(m, s, 1, 2).(size := r.size)
    ensures Recycled(m, r, v)
  {
  }

  /** A whole Pop in a counted run. */
  lemma PopCounted(m: int, s: State, t: nat, y: Tally, prev: Ptr, got: Value) returns (r: State)
    requires At(s, t, Idle) && Reaches(m, s, y) && m >= 2 && y.Counted? && s.head != s.tail && s.head.addr in s.mem
    requires prev == s.mem[s.head.addr].prev && prev.tag == s.head.tag != INVALID_TAG && got == Load(s.mem, prev.addr).value
    ensures r == Popped(m, s, t, prev.addr).(size := r.size)
    ensures Reaches(m, r, y.(frees := y.frees + 1, returned := y.returned || got == y.first))
  {
    assert Returned(FreeMoved(Aged(y, 13)), got) == y.(frees := y.frees + 1, returned := y.returned || got == y.first);
    r := Pop(m, s, t, y, prev);
  }

  lemma PopReady(m: int, s: State, v: Value)
    requires m >= 3 && Filling(m, s, m - 1, v)
    ensures At(s, 1, Idle) && s.head != s.tail && s.head.addr in s.mem && s.mem[s.head.addr].prev == Ptr(2, 0)
    ensures Load(s.mem, 2).value == v
  {
  }

  lemma PopFirst(m: int, v: Value, e: Value) returns (s: State)
    requires m >= 3
    ensures Recycled(m, s, v) && Reaches(m, s, Counted(v, e, m - 1, 1, true))
  {
    var s0 := Filled(m, m - 1, v, e);
    PopReady(m, s0, v);
    var y, y' := Counted(v, e, m - 1, 0, false), Counted(v, e, m - 1, 1, true);
    assert y' == y.(frees := y.frees + 1, returned := y.returned || v == y.first);
    s := PopCounted(m, s0, 1, y, Ptr(2, 0), v);
    RecycledShape(m, s0, v, s);
  }

  lemma TrapShape(m: int, s: State, v: Value, e: Value, r: State, tail: Ptr, tag: int)
    requires Recycled(m, s, v) && s.tail == tail && tag == Next(m, tail.tag)
    requires r.threads == s.threads[1 := Idle] && r.tail == Ptr(1, tag) && r.free.addr == s.mem[1].nextFree
    requires r.mem == s.mem[1 := s.mem[1].(next := Ptr(tail.addr, tag), value := e)]
                           [tail.addr := s.mem[tail.addr].(prev := Ptr(1, tail.tag))]
    ensures Trap(m, r, v) && IdleFrom(r, 1)
  {
  }

  lemma PushAgain(m: int, s: State, y: Tally, e: Value, tail: Ptr) returns (r: State)
    requires At(s, 1, Idle) && Reaches(m, s, y) && m >= 2 && y.Counted? && e == y.rest
    requires s.free.addr == 1 && 1 in s.mem && s.tail == tail && tail.addr in s.mem && tail.addr != 1
    ensures r.head == s.head && r.tail == Ptr(1, Next(m, tail.tag)) && r.free.addr == s.mem[1].nextFree
    ensures r.threads == s.threads[1 := Idle] && Reaches(m, r, y.(tails := y.tails + 1, frees := y.frees + 1))
    ensures r.mem == s.mem[1 := s.mem[1].(next := Ptr(tail.addr, Next(m, tail.tag)), value := e)]
                      [tail.addr := s.mem[tail.addr].(prev := Ptr(1, tail.tag))]
  {
    assert TailMoved(FreeMoved(Aged(y, 10))) == y.(tails := y.tails + 1, frees := y.frees + 1);
    r := PushRecycled(m, s, e, 1, y, 1, tail);
  }

  lemma RecycledReady(m: int, s: State, v: Value)
    requires Recycled(m, s, v)
    ensures At(s, 1, Idle) && s.free.addr == 1 && 1 in s.mem && s.tail == Ptr(m, m - 1) && m in s.mem
  {
  }

  lemma TrapSet(m: int, v: Value, e: Value) returns (s: State)
    requires m >= 3
    ensures Trap(m, s, v) && s.head == Ptr(2, 1) && IdleFrom(s, 1) && Reaches(m, s, Counted(v, e, m, 2, true))
  {
    var s0 := PopFirst(m, v, e);
    RecycledReady(m, s0, v);
    var y, y' := Counted(v, e, m - 1, 1, true), Counted(v, e, m, 2, true);
    assert y' == y.(tails := y.tails + 1, frees := y.frees + 1);
    s := PushAgain(m, s0, y, e, s0.tail);
    TrapShape(m, s0, v, e, s, s0.tail, 0);
  }

  // ---- m - 1 pops bring the head back to node 1 and tag 0; each stops before its release ----

  lemma TakeOne(m: int, s: State, t: nat, y: Tally, prev: Ptr) returns (r: State)
    requires m >= 3 && At(s, t, Idle) && Reaches(m, s, y) && s.head != s.tail
    requires prev == Load(s.mem, s.head.addr).prev && prev.tag == s.head.tag != INVALID_TAG && y.Counted?
    ensures r.mem == s.mem && r.tail == s.tail && r.free == s.free && r.head == Ptr(prev.addr, Next(m, s.head.tag))
    ensures |r.threads| == |s.threads| && (forall u :: 0 <= u < |s.threads| && u != t ==> r.threads[u] == s.threads[u])
    ensures Reaches(m, r, y)
  {
    var got := Load(s.mem, prev.addr).value;
    PopCalls(m, s, t, y);
    var s1 := Goto(s, t, PopHead);
    PopExchange(m, s1, t, y, prev, got);
    var s2 := Goto(s1, t, PopCas(s.head, prev, got));
    PopTakes(m, s2, t, y, prev, got);
    r := Taken(m, s2, t, prev, got);
  }

  lemma {:induction false} Drained(m: int, q: nat, v: Value, e: Value) returns (s: State)
    requires m >= 3 && 1 <= q < m
    ensures Trap(m, s, v) && s.head == Ptr(q + 1, q) && IdleFrom(s, q + 1) && Reaches(m, s, Counted(v, e, m, 2, true))
  {
    if q == 1 {
      s := TrapSet(m, v, e);
      assert IdleFrom(s, 2);
    } else {
      var s0 := Drained(m, q - 1, v, e);
      assert s0.mem[q].prev == Ptr(q + 1, q - 1);
      s := TakeOne(m, s0, q, Counted(v, e, m, 2, true), Ptr(q + 1, q - 1));
    }
  }

  lemma LastHint(m: int, s: State, v: Value)
    requires Trap(m, s, v) && s.head == Ptr(m, m - 1) && IdleFrom(s, m)
    ensures At(s, m, Idle) && 1 in s.mem && s.head != s.tail && Load(s.mem, s.head.addr).prev == Ptr(1, m - 1)
  {
  }

  /** The last of them. */
  lemma RoundTrip(m: int, v: Value, e: Value) returns (s: State)
    requires m >= 3
    ensures |s.threads| == m + 1 && Stopped(s, v) && s.head == Ptr(1, 0) && 1 in s.mem
    ensures Reaches(m, s, Counted(v, e, m, 2, true))
  {
    var s0 := Drained(m, m - 1, v, e);
    LastHint(m, s0, v);
    s := TakeOne(m, s0, m, Counted(v, e, m, 2, true), Ptr(1, m - 1));
  }

  /** Thread 0's exchange succeeds, and it is about to return v once more. */
  lemma AboutToReturn(m: int, v: Value, e: Value) returns (s: State)
    requires m >= 3
    ensures At(s, 0, PopCount(v)) && Reaches(m, s, Counted(v, e, m, 3, true))
  {
    s := RoundTrip(m, v, e);
    s := PopToReturn(m, s, 0, Counted(v, e, m, 2, true), Ptr(2, 0), v);
  }

  /** It returns; `first` is where v was returned before. */
  lemma ReturnedTwice(m: int, v: Value, e: Value) returns (run: seq<State>, sched: Schedule, first: nat)
    requires m >= 3
    ensures |sched| > 0 && IsWrappedRun(m, run, sched) && EndsIn(m, run, sched, run[|sched|], Counted(v, e, m, 3, true))
    ensures first < |sched| - 1 && ActionOf(run[first], sched[first].0, sched[first].1) == A.ReturnPop(v)
    ensures var last := |sched| - 1; ActionOf(run[last], sched[last].0, sched[last].1) == A.ReturnPop(v)
  {
    var s := AboutToReturn(m, v, e);
    var y := Counted(v, e, m, 3, true);
    run, sched :| EndsIn(m, run, sched, s, y);
    first :| 0 <= first < |sched| && ActionOf(run[first], sched[first].0, sched[first].1) == A.ReturnPop(v);
    run, sched := ReturnsNow(m, run, sched, s, y, v, first);
  }

  lemma ReturnsNow(m: int, run: seq<State>, sched: Schedule, s: State, y: Tally, v: Value, first: nat)
    returns (run': seq<State>, sched': Schedule)
    requires y.Counted? && y.returned && EndsIn(m, run, sched, s, y) && At(s, 0, PopCount(v)) && first < |sched|
    requires ActionOf(run[first], sched[first].0, sched[first].1) == A.ReturnPop(v)
    ensures |sched'| == |sched| + 1 && IsWrappedRun(m, run', sched') && EndsIn(m, run', sched', run'[|sched'|], y)
    ensures ActionOf(run'[first], sched'[first].0, sched'[first].1) == A.ReturnPop(v)
    ensures ActionOf(run'[|sched|], sched'[|sched|].0, sched'[|sched|].1) == A.ReturnPop(v)
  {
    var s' := ExecWrapped(m, s, 0, Go);
    ExtendRun(m, run, sched, s, y, 0, Go, s');
    run', sched' := run + [s'], sched + [(0, Go)];
    assert run'[first] == run[first] && sched'[first] == sched[first];
  }

  lemma PushedOnce(m: int, run: seq<State>, sched: Schedule, y: Tally)
    requires y.Counted? && y.first != y.rest && IsWrappedRun(m, run, sched) && EndsIn(m, run, sched, run[|sched|], y)
    ensures A.Count(WrappedEvents(m, run, sched), A.CallPush(y.first)) <= 1
  {
    var events := WrappedEvents(m, run, sched);
    forall i | 0 < i < |events| ensures events[i].1 != A.CallPush(y.first) {
      assert Enabled(run[i], sched[i].0, sched[i].1);
    }
    A.CountFirst(events, A.CallPush(y.first));
  }

  /** m moves of mTail are too many: a history in which v is pushed once and returned twice. */
  lemma LateExchange(m: int, v: Value, e: Value) returns (run: seq<State>, sched: Schedule)
    requires m >= 3 && v != e
    ensures IsWrappedRun(m, run, sched) && InvalidGarbage(sched)
    ensures TailMoves(run, |sched|) == m && FreeMoves(run, |sched|) == 3
    ensures !A.Linearizable(A.Fifo, WrappedEvents(m, run, sched))
  {
    var first;
    run, sched, first := ReturnedTwice(m, v, e);
    var events := WrappedEvents(m, run, sched);
    A.CountTwo(events, A.ReturnPop(v), first, |sched| - 1);
    PushedOnce(m, run, sched, Counted(v, e, m, 3, true));
    if A.Linearizable(A.Fifo, events) {
      A.PushesCover(A.Fifo, events, v);
    }
  }
}
