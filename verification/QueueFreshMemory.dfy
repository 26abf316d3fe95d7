/**
 What `new Node` may leave in mPrev. The field is uninitialised, and the queue is linearizable for
 all memory that `new` may return exactly when no garbage tag can be the tag of a linked node.
 */
module QueueFreshMemory {
  import opened Element
  import opened QueueModel
  import opened QueueInvariant
  import opened QueueProof
  import opened QueueTheorems
  import A = AtomicContainer

  /** Every mPrev that `new` returns has a tag from G. */
  ghost predicate GarbageFrom(sched: Schedule, G: iset<int>) {
    forall i :: 0 <= i < |sched| && sched[i].1.Allocate? ==> sched[i].1.garbage.prev.tag in G
  }

  /** The calls and returns of the run are those of some run of the atomic FIFO queue. */
  ghost predicate Linearizable(run: seq<State>, sched: Schedule)
    requires IsRun(run, sched)
  {
    A.Linearizable(A.Fifo, Events(run, sched))
  }

  ghost predicate SafeGarbage(G: iset<int>) {
    forall run, sched :: IsRun(run, sched) && GarbageFrom(sched, G) ==> Linearizable(run, sched)
  }

  // ---- garbage tags below 1 do no harm ----

  /** An mPrev that nobody has written has a tag below 1, and its node, once linked, a tag of 1 or more. */
  predicate LowTags(s: State, g: Ghost) {
    forall a :: a in g.uninit && a in s.mem ==> s.mem[a].prev.tag < 1
  }

  predicate LinkedLater(g: Ghost) {
    && g.hist != []
    && forall a :: a in g.uninit && a in g.role && g.role[a].Live? ==> g.role[a].position >= 1
  }

  predicate Young(s: State, g: Ghost) {
    LowTags(s, g) && LinkedLater(g)
  }

  lemma LowTagsStep(s: State, g: Ghost, t: nat, c: Choice)
    requires LowTags(s, g) && Enabled(s, t, c) && (c.Allocate? ==> c.garbage.prev.tag < 1)
    ensures LowTags(Exec(s, t, c), Track(s, g, t, c))
  {
  }

  lemma LinkedLaterStep(s: State, g: Ghost, t: nat, c: Choice)
    requires LinkedLater(g) && Enabled(s, t, c)
    ensures LinkedLater(Track(s, g, t, c))
  {
  }

  predicate LowGarbage(sched: Schedule) {
    forall i :: 0 <= i < |sched| && sched[i].1.Allocate? ==> sched[i].1.garbage.prev.tag < 1
  }

  lemma {:induction false} YoungAlways(run: seq<State>, sched: Schedule, n: nat)
    requires IsRun(run, sched) && LowGarbage(sched) && n <= |sched|
    ensures Young(run[n], History(run, sched, n))
  {
    if n > 0 {
      YoungAlways(run, sched, n - 1);
      var s, g, t, c := run[n - 1], History(run, sched, n - 1), sched[n - 1].0, sched[n - 1].1;
      LowTagsStep(s, g, t, c);
      LinkedLaterStep(s, g, t, c);
    }
  }

  /** The hypothesis of the queue theorems, from what `new` returns alone. */
  lemma LowGarbageOk(run: seq<State>, sched: Schedule)
    requires IsRun(run, sched) && LowGarbage(sched)
    ensures FreshMemoryOk(run, sched)
  {
    forall i | 0 <= i <= |sched| ensures FreshAt(run, sched, i) {
      YoungAlways(run, sched, i);
    }
  }

  // ---- a garbage tag k of 1 or more does: runs that push only e and get only tag k from `new` ----

  ghost predicate EndsIn(run: seq<State>, sched: Schedule, s: State, e: Value, k: int) {
    && IsRun(run, sched) && run[|sched|] == s
    && (forall i :: 0 <= i < |sched| && sched[i].1.CallPush? ==> sched[i].1.elem == e)
    && (forall i :: 0 <= i < |sched| && sched[i].1.Allocate? ==> sched[i].1.garbage.prev.tag == k)
  }

  ghost predicate Reaches(s: State, e: Value, k: int) {
    exists run, sched :: EndsIn(run, sched, s, e, k)
  }

  lemma ExtendRun(run: seq<State>, sched: Schedule, s: State, e: Value, k: int, t: nat, c: Choice)
    requires EndsIn(run, sched, s, e, k) && Enabled(s, t, c)
    requires (c.CallPush? ==> c.elem == e) && (c.Allocate? ==> c.garbage.prev.tag == k)
    ensures EndsIn(run + [Exec(s, t, c)], sched + [(t, c)], Exec(s, t, c), e, k)
  {
  }

  lemma Extend(s: State, e: Value, k: int, t: nat, c: Choice, s': State)
    requires Reaches(s, e, k) && Enabled(s, t, c) && s' == Exec(s, t, c)
    requires (c.CallPush? ==> c.elem == e) && (c.Allocate? ==> c.garbage.prev.tag == k)
    ensures Reaches(s', e, k)
  {
    var run, sched :| EndsIn(run, sched, s, e, k);
    ExtendRun(run, sched, s, e, k, t, c);
  }

  /** Thread t alone allocates a node for its Push. */
  lemma Acquire(s: State, e: Value, k: int, t: nat, n: nat, garbage: Node)
    requires Reaches(s, e, k) && t < |s.threads| && s.threads[t] == Idle && s.free.addr == NULL
    requires n != NULL && n !in s.mem && garbage.prev.tag == k
    ensures Reaches(Goto(s, t, PushValue(e, n)).(mem := s.mem[n := garbage.(nextFree := NULL)]), e, k)
  {
    var s1 := Goto(s, t, AcqTop(e));
    Extend(s, e, k, t, CallPush(e), s1);
    var s2 := Goto(s, t, AcqNew(e));
    Extend(s1, e, k, t, Go, s2);
    Extend(s2, e, k, t, Allocate(n, garbage),
           Goto(s, t, PushValue(e, n)).(mem := s.mem[n := garbage.(nextFree := NULL)]));
  }

  /** Thread t alone links its node behind the tail, and stops before it writes the old tail's mPrev. */
  function Linked(s: State, e: Value, t: nat, n: nat): State
    requires t < |s.threads| && n in s.mem
  {
    Goto(s, t, PushLink(e, n, s.tail)).(
      tail := Ptr(n, s.tail.tag + 1),
      mem := s.mem[n := s.mem[n].(next := Ptr(s.tail.addr, s.tail.tag + 1), value := e)])
  }

  lemma Link(s: State, e: Value, k: int, t: nat, n: nat)
    requires Reaches(s, e, k) && t < |s.threads| && s.threads[t] == PushValue(e, n) && n in s.mem
    ensures Reaches(Linked(s, e, t, n), e, k)
  {
    var m1 := s.mem[n := s.mem[n].(value := e)];
    var s1 := Goto(s, t, PushTail(e, n)).(mem := m1);
    Extend(s, e, k, t, Go, s1);
    var s2 := Goto(s, t, PushNext(e, n, s.tail)).(mem := m1);
    Extend(s1, e, k, t, Go, s2);
    var s3 := Goto(s, t, PushCas(e, n, s.tail)).(mem := Linked(s, e, t, n).mem);
    Extend(s2, e, k, t, Go, s3);
    Extend(s3, e, k, t, Go, Linked(s, e, t, n));
  }

  /** Thread t alone writes the old tail's mPrev and returns. */
  lemma Finish(s: State, e: Value, k: int, t: nat, n: nat, tail: Ptr) returns (s': State)
    requires Reaches(s, e, k) && t < |s.threads| && s.threads[t] == PushLink(e, n, tail) && tail.addr in s.mem
    ensures Reaches(s', e, k)
    ensures s' == Goto(s, t, Idle).(mem := s.mem[tail.addr := s.mem[tail.addr].(prev := Ptr(n, tail.tag))], size := s'.size)
  {
    var s1 := Goto(s, t, PushCount(e)).(mem := s.mem[tail.addr := s.mem[tail.addr].(prev := Ptr(n, tail.tag))]);
    Extend(s, e, k, t, Go, s1);
    s' := Exec(s1, t, Go);
    Extend(s1, e, k, t, Go, s');
  }

  /** Pop's reads of mHead and mTail. */
  lemma PopReadsEnds(s: State, e: Value, k: int, t: nat)
    requires Reaches(s, e, k) && t < |s.threads| && s.threads[t] == Idle
    ensures Reaches(Goto(s, t, PopPrev(s.head, s.tail)), e, k)
  {
    var s1 := Goto(s, t, PopHead);
    Extend(s, e, k, t, CallPop, s1);
    var s2 := Goto(s, t, PopTail(s.head));
    Extend(s1, e, k, t, Go, s2);
    Extend(s2, e, k, t, Go, Goto(s, t, PopPrev(s.head, s.tail)));
  }

  /** Pop's read of the head's mPrev, and the decision to believe it. */
  lemma PopBelieves(s: State, e: Value, k: int, t: nat, prev: Ptr)
    requires Reaches(s, e, k) && t < |s.threads| && s.threads[t] == Idle && s.tail != s.head
    requires prev == Load(s.mem, s.head.addr).prev && prev.tag == s.head.tag != INVALID_TAG
    ensures Reaches(Goto(s, t, PopValue(s.head, prev)), e, k)
  {
    PopReadsEnds(s, e, k, t);
    var s1 := Goto(s, t, PopPrev(s.head, s.tail));
    var s2 := Goto(s, t, PopCheck(s.head, s.tail, prev));
    Extend(s1, e, k, t, Go, s2);
    Extend(s2, e, k, t, Go, Goto(s, t, PopValue(s.head, prev)));
  }

  /** Before and after the exchange of a Pop that believes what mPrev names. */
  function Believing(s: State, t: nat, prev: Ptr): State
    requires t < |s.threads|
  {
    Goto(s, t, PopCas(s.head, prev, Load(s.mem, prev.addr).value))
  }

  function Believed(s: State, t: nat, prev: Ptr): State
    requires t < |s.threads|
  {
    Goto(s, t, RelClear(Load(s.mem, prev.addr).value, s.head.addr)).(head := Ptr(prev.addr, s.head.tag + 1))
  }

  lemma Exchange(s: State, t: nat, prev: Ptr)
    requires t < |s.threads|
    ensures Enabled(Believing(s, t, prev), t, Go) && Exec(Believing(s, t, prev), t, Go) == Believed(s, t, prev)
    ensures ActionOf(Believing(s, t, prev), t, Go) == A.Remove(Load(s.mem, prev.addr).value)
  {
  }

  /**
   A Pop that finds a matching tag in the head node believes it: whatever node the mPrev names
   becomes the new head, and whatever that node holds is the element removed.
   */
  lemma PopMatching(s: State, e: Value, k: int, t: nat, prev: Ptr)
    requires Reaches(s, e, k) && t < |s.threads| && s.threads[t] == Idle && s.tail != s.head
    requires prev == Load(s.mem, s.head.addr).prev && prev.tag == s.head.tag != INVALID_TAG
    ensures Reaches(Believing(s, t, prev), e, k) && Reaches(Believed(s, t, prev), e, k)
    ensures Enabled(Believing(s, t, prev), t, Go) && Exec(Believing(s, t, prev), t, Go) == Believed(s, t, prev)
    ensures ActionOf(Believing(s, t, prev), t, Go) == A.Remove(Load(s.mem, prev.addr).value)
  {
    PopBelieves(s, e, k, t, prev);
    Extend(Goto(s, t, PopValue(s.head, prev)), e, k, t, Go, Believing(s, t, prev));
    Exchange(s, t, prev);
    Extend(Believing(s, t, prev), e, k, t, Go, Believed(s, t, prev));
  }

  // ---- the failing run ----

  /** The node linked at position p is p + 1. From `new` every mPrev comes as (1, k). */
  ghost predicate Chained(s: State, k: nat, n: nat, junk: Value) {
    && s.tail == Ptr(n + 1, n) && s.free.addr == NULL && |s.threads| == k + 3
    && (forall a :: a in s.mem <==> 1 <= a <= n + 1)
    && (forall a :: 1 <= a <= n ==> s.mem[a].prev == Ptr(a + 1, a - 1))
    && (n > 0 ==> s.mem[n + 1].prev == Ptr(1, k))
    && s.mem[1].value == junk
  }

  predicate IdleFrom(s: State, t: nat) {
    forall u :: t <= u < |s.threads| ==> s.threads[u] == Idle
  }

  function Garbage(k: int): Node {
    Node(Ptr(1, k), Ptr(NULL, BEFORE_ZERO), NULL, BLANK)
  }

  lemma Constructed(k: nat, e: Value, junk: Value) returns (s: State)
    ensures Reaches(s, e, k) && Chained(s, k, 0, junk) && IdleFrom(s, 0) && s.head == Ptr(1, 0)
  {
    var node := Node(Ptr(1, BEFORE_ZERO), Ptr(NULL, BEFORE_ZERO), NULL, junk);
    s := State(map[1 := node], Ptr(1, 0), Ptr(1, 0), Ptr(NULL, BEFORE_ZERO), 0, seq(k + 3, _ => Idle));
    assert EndsIn([s], [], s, e, k);
  }

  /** Thread t links one more node and stops before it writes the old tail's mPrev. */
  lemma LinkOne(s: State, e: Value, k: nat, n: nat, junk: Value, t: nat) returns (s': State)
    requires Reaches(s, e, k) && Chained(s, k, n, junk) && t < k + 3 && s.threads[t] == Idle
    ensures Reaches(s', e, k) && s'.head == s.head && s'.tail == Ptr(n + 2, n + 1) && s'.free == s.free
    ensures s'.threads == s.threads[t := PushLink(e, n + 2, s.tail)]
    ensures n + 2 in s'.mem && s'.mem == s.mem[n + 2 := s'.mem[n + 2]] && s'.mem[n + 2].prev == Ptr(1, k)
  {
    Acquire(s, e, k, t, n + 2, Garbage(k));
    var s1 := Goto(s, t, PushValue(e, n + 2)).(mem := s.mem[n + 2 := Garbage(k)]);
    Link(s1, e, k, t, n + 2);
    s' := Linked(s1, e, t, n + 2);
  }

  lemma {:induction false} PushMany(k: nat, n: nat, e: Value, junk: Value) returns (s: State)
    ensures Reaches(s, e, k) && Chained(s, k, n, junk) && IdleFrom(s, 0) && s.head == Ptr(1, 0)
  {
    if n == 0 {
      s := Constructed(k, e, junk);
    } else {
      var s0 := PushMany(k, n - 1, e, junk);
      var s1 := LinkOne(s0, e, k, n - 1, junk, 0);
      s := Finish(s1, e, k, 0, n + 1, s0.tail);
      ChainGrows(s0, s1, s, k, n - 1, junk);
    }
  }

  lemma ChainGrows(s0: State, s1: State, s: State, k: nat, n: nat, junk: Value)
    requires Chained(s0, k, n, junk)
    requires s1.mem.Keys == s0.mem.Keys + {n + 2} && s1.mem == s0.mem[n + 2 := s1.mem[n + 2]] && s1.mem[n + 2].prev == Ptr(1, k)
    requires n + 1 in s1.mem && s.mem == s1.mem[n + 1 := s1.mem[n + 1].(prev := Ptr(n + 2, n))]
    requires s.tail == Ptr(n + 2, n + 1) && s.free.addr == NULL && |s.threads| == k + 3
    ensures Chained(s, k, n + 1, junk)
  {
  }

  /** k nodes are linked, and the push of one more stops before it writes the mPrev of the k-th. */
  predicate Trapped(s: State, k: nat, q: nat, junk: Value) {
    && s.head == Ptr(q + 1, q) && s.tail == Ptr(k + 2, k + 1) && |s.threads| == k + 3
    && (forall a :: 1 <= a <= k + 1 ==> a in s.mem)
    && (forall a :: 1 <= a <= k ==> s.mem[a].prev == Ptr(a + 1, a - 1))
    && s.mem[k + 1].prev == Ptr(1, k) && s.mem[1].value == junk
  }

  lemma TrapSet(k: nat, e: Value, junk: Value) returns (s: State)
    requires k >= 1
    ensures Reaches(s, e, k) && Trapped(s, k, 0, junk) && IdleFrom(s, 2)
  {
    var s0 := PushMany(k, k, e, junk);
    s := LinkOne(s0, e, k, k, junk, 1);
  }

  /** q pops, each stopped before it clears its node. */
  lemma {:induction false} PopMany(k: nat, q: nat, e: Value, junk: Value) returns (s: State)
    requires k >= 1 && q <= k
    ensures Reaches(s, e, k) && Trapped(s, k, q, junk) && IdleFrom(s, 2 + q)
  {
    if q == 0 {
      s := TrapSet(k, e, junk);
    } else {
      var s0 := PopMany(k, q - 1, e, junk);
      assert s0.mem[q].prev == Ptr(q + 1, q - 1);
      PopMatching(s0, e, k, 1 + q, Ptr(q + 1, q - 1));
      s := Believed(s0, 1 + q, Ptr(q + 1, q - 1));
    }
  }

  /** A Pop that has made its exchange clears the node and reads mFreeNodeHead. */
  lemma Clear(s: State, e: Value, k: int, t: nat, got: Value, h: nat) returns (s': State)
    requires Reaches(s, e, k) && t < |s.threads| && s.threads[t] == RelClear(got, h)
    ensures Reaches(s', e, k) && s'.threads == s.threads[t := RelPrev(got, h, s'.free)]
  {
    var s1 := Goto(s, t, RelTop(got, h)).(mem := SetValue(s.mem, h, BLANK));
    Extend(s, e, k, t, Go, s1);
    s' := Goto(s1, t, RelPrev(got, h, s1.free));
    Extend(s1, e, k, t, Go, s');
  }

  /** It releases the node, and is about to return. */
  lemma Release(s: State, e: Value, k: int, t: nat, got: Value, h: nat) returns (s': State)
    requires Reaches(s, e, k) && t < |s.threads| && s.threads[t] == RelPrev(got, h, s.free)
    ensures Reaches(s', e, k) && s'.threads == s.threads[t := PopCount(got)]
  {
    var s1 := Goto(s, t, RelNext(got, h, s.free)).(mem := SetPrev(s.mem, h, Ptr(NULL, INVALID_TAG)));
    Extend(s, e, k, t, Go, s1);
    var s2 := Goto(s1, t, RelCas(got, h, s.free)).(mem := SetNextFree(s1.mem, h, s.free.addr));
    Extend(s1, e, k, t, Go, s2);
    s' := Goto(s2, t, PopCount(got)).(free := Ptr(h, s.free.tag + 1));
    Extend(s2, e, k, t, Go, s');
  }

  /** With garbage tag k, k + 1 pushes of e and k + 1 pops: the last pop is about to return `junk`. */
  lemma JunkTaken(k: nat, e: Value, junk: Value) returns (s: State)
    requires k >= 1
    ensures Reaches(s, e, k) && |s.threads| == k + 3 && s.threads[k + 2] == PopCount(junk)
  {
    s := PopMany(k, k, e, junk);
    var h := s.head.addr;
    PopMatching(s, e, k, k + 2, Ptr(1, k));
    s := Believed(s, k + 2, Ptr(1, k));
    s := Clear(s, e, k, k + 2, junk, h);
    s := Release(s, e, k, k + 2, junk, h);
  }

  /** And returns it. */
  lemma JunkPopped(k: nat, e: Value, junk: Value) returns (run: seq<State>, sched: Schedule)
    requires k >= 1
    ensures |sched| > 0 && |run| == |sched| + 1 && EndsIn(run, sched, run[|sched|], e, k)
    ensures var last := |sched| - 1; ActionOf(run[last], sched[last].0, sched[last].1) == A.ReturnPop(junk)
  {
    var s := JunkTaken(k, e, junk);
    run, sched :| EndsIn(run, sched, s, e, k);
    ExtendRun(run, sched, s, e, k, k + 2, Go);
    run, sched := run + [Exec(s, k + 2, Go)], sched + [(k + 2, Go)];
  }

  /** In a linearizable run every value that a Pop removes was pushed before. */
  lemma RemovedWasPushed(run: seq<State>, sched: Schedule, states: seq<A.Container>, n: nat, v: Value)
    requires IsRun(run, sched) && n < |sched| && A.IsTrace(A.Fifo, states, Events(run, sched))
    requires ActionOf(run[n], sched[n].0, sched[n].1) == A.Remove(v)
    ensures exists i :: 0 <= i < n && sched[i].1 == CallPush(v)
  {
    var events := Events(run, sched);
    assert A.Step(A.Fifo, states[n], events[n].0, events[n].1, states[n + 1]);
    var i := A.ContainedWasPushed(A.Fifo, states, events, n, v);
    CallsAreScheduled(run[i], sched[i].0, sched[i].1, v);
  }

  lemma CallsAreScheduled(s: State, t: nat, c: Choice, v: Value)
    requires Enabled(s, t, c) && ActionOf(s, t, c) == A.CallPush(v)
    ensures c == CallPush(v)
  {
  }

  /** A run that pushes only e calls no Push of anything else. */
  lemma OnlyPushes(run: seq<State>, sched: Schedule, e: Value, k: int, v: Value)
    requires IsRun(run, sched) && EndsIn(run, sched, run[|sched|], e, k) && v != e
    ensures A.Count(Events(run, sched), A.CallPush(v)) == 0
  {
    forall i | 0 <= i < |sched| ensures Events(run, sched)[i].1 != A.CallPush(v) {
      if Events(run, sched)[i].1 == A.CallPush(v) {
        CallsAreScheduled(run[i], sched[i].0, sched[i].1, v);
      }
    }
    A.CountNone(Events(run, sched), A.CallPush(v));
  }

  /** A Pop returns a value that nobody pushed, and the history is not linearizable. */
  lemma UninitialisedPrevBreaksFifo(k: nat, e: Value, junk: Value) returns (run: seq<State>, sched: Schedule)
    requires k >= 1 && junk != e
    ensures IsRun(run, sched) && GarbageFrom(sched, iset{k}) && !Linearizable(run, sched)
    ensures |sched| > 0 && Events(run, sched)[|sched| - 1].1 == A.ReturnPop(junk)
    ensures forall i :: 0 <= i < |sched| && sched[i].1.CallPush? ==> sched[i].1.elem == e
  {
    run, sched := JunkPopped(k, e, junk);
    OnlyPushes(run, sched, e, k, junk);
    A.CountSome(Events(run, sched), A.ReturnPop(junk), |sched| - 1);
    if Linearizable(run, sched) {
      A.PushesCover(A.Fifo, Events(run, sched), junk);
    }
  }

  /** All runs with garbage tags from G are linearizable if and only if G holds no tag of 1 or more. */
  lemma GarbageExact(G: iset<int>, e: Value, junk: Value)
    requires e != junk
    ensures SafeGarbage(G) <==> forall k :: k in G ==> k < 1
  {
    if k :| k in G && k >= 1 {
      var run, sched := UninitialisedPrevBreaksFifo(k, e, junk);
      assert GarbageFrom(sched, G);
    } else {
      forall run, sched | IsRun(run, sched) && GarbageFrom(sched, G) ensures Linearizable(run, sched) {
        LowGarbageOk(run, sched);
        QueueLinearizable(run, sched);
        A.TraceLinearizable(A.Fifo, Abstraction(run, sched), Events(run, sched));
      }
    }
  }
}
