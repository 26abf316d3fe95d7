/**
 However promptly every operation finishes, a delayed write of mPrev can rest in a recycled node until
 its tag comes round again, and then Pop believes it.
 */
module QueueWrappedTags {
  import opened Element
  import opened QueueModel
  import opened QueueTheorems
  import opened QueueWrappedModel
  import opened QueueWrappedSteps
  import A = AtomicContainer

  function First(m: int): Node {
    Node(Ptr(1, m - 1), Ptr(NULL, m - 1), NULL, BLANK)
  }

  lemma Constructed(m: int, e: Value) returns (s: State)
    requires m >= 2
    ensures s == State(map[1 := First(m)], Ptr(1, 0), Ptr(1, 0), Ptr(NULL, m - 1), 0, [Idle, Idle])
    ensures At(s, 1, Idle) && Reaches(m, s, Hurried(e, 0))
  {
    s := State(map[1 := First(m)], Ptr(1, 0), Ptr(1, 0), Ptr(NULL, m - 1), 0, [Idle, Idle]);
    assert EndsIn(m, [s], [], s, Hurried(e, 0));
  }

  /** Thread 1 links node 2 and stops. */
  lemma OneLinked(m: int, e: Value) returns (s: State)
    requires m >= 4
    ensures s == State(map[1 := First(m), 2 := Fresh(e, Ptr(1, 1))], Ptr(1, 0), Ptr(2, 1), Ptr(NULL, m - 1), s.size,
                       [Idle, PushLink(e, 2, Ptr(1, 0))])
    ensures At(s, 0, Idle) && Reaches(m, s, Hurried(e, 7))
  {
    s := Constructed(m, e);
    s := LinkFresh(m, s, e, 1, Hurried(e, 0), 2);
    assert s.mem == map[1 := First(m), 2 := Fresh(e, Ptr(1, 1))];
    assert s.threads == [Idle, PushLink(e, 2, Ptr(1, 0))];
  }

  /** Thread 0 pushes node 3. */
  lemma PushThree(m: int, s: State, e: Value) returns (r: State)
    requires m >= 4 && At(s, 0, Idle) && Reaches(m, s, Hurried(e, 7)) && s.tail == Ptr(2, 1) && s.free.addr == NULL && s.mem.Keys == {1, 2}
    ensures r == s.(tail := Ptr(3, 2), size := r.size,
                    mem := s.mem[3 := Fresh(e, Ptr(2, 2))][2 := s.mem[2].(prev := Ptr(3, 1))])
    ensures At(r, 0, Idle) && Reaches(m, r, Hurried(e, 16))
  {
    var s1 := LinkFresh(m, s, e, 0, Hurried(e, 7), 3);
    r := Finish(m, s1, e, 0, Hurried(e, 14), 3, Ptr(2, 1));
    assert r.threads == s.threads;
  }

  lemma TwoLinked(m: int, e: Value) returns (s: State)
    requires m >= 4
    ensures s.mem.Keys == {1, 2, 3} && s.head == Ptr(1, 0) && s.tail == Ptr(3, 2) && s.free.addr == NULL
    ensures s.threads == [Idle, PushLink(e, 2, Ptr(1, 0))] && At(s, 0, Idle) && Reaches(m, s, Hurried(e, 16))
    ensures s.mem[1].prev == Ptr(1, m - 1) && s.mem[2].prev == Ptr(3, 1)
    ensures s.mem[2].next == Ptr(1, 1) && s.mem[3].next == Ptr(2, 2)
  {
    s := OneLinked(m, e);
    s := PushThree(m, s, e);
  }

  /** Thread 0 begins a Pop, whose FixList does what thread 1 has yet to do. */
  lemma Repaired(m: int, s: State, e: Value) returns (r: State)
    requires m >= 4 && At(s, 0, Idle) && Reaches(m, s, Hurried(e, 16)) && s.head == Ptr(1, 0) && s.tail == Ptr(3, 2)
    requires 1 in s.mem && 2 in s.mem && 3 in s.mem && s.mem[1].prev == Ptr(1, m - 1)
    requires s.mem[2].prev == Ptr(3, 1) && s.mem[2].next == Ptr(1, 1) && s.mem[3].next == Ptr(2, 2)
    ensures r == Goto(s, 0, PopHead).(mem := s.mem[1 := s.mem[1].(prev := Ptr(2, 0))]) && At(r, 0, PopHead) && Reaches(m, r, Hurried(e, 28))
  {
    PopCalls(m, s, 0, Hurried(e, 16));
    var s1 := Goto(s, 0, PopHead);
    PopDoubts(m, s1, 0, Hurried(e, 17), Ptr(1, m - 1));
    var s2 := Goto(s, 0, FixCheck(Ptr(1, 0), Ptr(3, 2)));
    assert Goto(s1, 0, FixCheck(Ptr(1, 0), Ptr(3, 2))) == s2;
    r := RepairWalk(m, s2, e);
    assert r.threads == s.threads[0 := PopHead];
  }

  lemma RepairWalk(m: int, s: State, e: Value) returns (r: State)
    requires m >= 4 && At(s, 0, FixCheck(Ptr(1, 0), Ptr(3, 2))) && Reaches(m, s, Hurried(e, 21)) && s.head == Ptr(1, 0)
    requires 1 in s.mem && 2 in s.mem && 3 in s.mem
    requires s.mem[2].prev == Ptr(3, 1) && s.mem[2].next == Ptr(1, 1) && s.mem[3].next == Ptr(2, 2)
    ensures r == Goto(s, 0, PopHead).(mem := s.mem[1 := s.mem[1].(prev := Ptr(2, 0))]) && At(r, 0, PopHead) && Reaches(m, r, Hurried(e, 28))
  {
    FixTurn(m, s, 0, Hurried(e, 21), Ptr(3, 2), Ptr(2, 2));
    var s1 := Fixed(m, s, 0, Ptr(3, 2), 2);
    assert s1.mem == s.mem;
    FixTurn(m, s1, 0, Hurried(e, 24), Ptr(2, 1), Ptr(1, 1));
    var s2 := Fixed(m, s1, 0, Ptr(2, 1), 1);
    FixEnds(m, s2, 0, Hurried(e, 27));
    r := Goto(s2, 0, PopHead);
    assert r.threads == s.threads[0 := PopHead];
  }

  /** The repaired Pop recycles node 1. */
  lemma FirstPopped(m: int, s: State, e: Value) returns (r: State)
    requires m >= 4 && At(s, 0, PopHead) && Reaches(m, s, Hurried(e, 28)) && s.head == Ptr(1, 0) && s.tail == Ptr(3, 2) && s.free.addr == NULL
    requires 1 in s.mem && 2 in s.mem && s.mem[1].prev == Ptr(2, 0)
    ensures r.head == Ptr(2, 1) && r.tail == s.tail && r.free.addr == 1 && r.threads == s.threads[0 := Idle]
    ensures r.mem == s.mem[1 := Freed(s.mem[1], NULL)] && At(r, 0, Idle) && Reaches(m, r, Hurried(e, 40))
  {
    var got := s.mem[2].value;
    PopExchange(m, s, 0, Hurried(e, 28), Ptr(2, 0), got);
    var s1 := Goto(s, 0, PopCas(Ptr(1, 0), Ptr(2, 0), got));
    r := PopFinishes(m, s1, 0, Hurried(e, 33), Ptr(2, 0), got);
    assert r.threads == s.threads[0 := Idle];
  }

  /**
   Both threads are idle. Node 1 is at the bottom of the free list, and thread 1's write has put tag 0
   into its mPrev. Nodes x and y, which are 2 and 3, hold the queue of one element.
   */
  ghost predicate Cycle(m: int, s: State, e: Value, c: nat, x: nat, y: nat) {
    && At(s, 0, Idle) && Reaches(m, s, Hurried(e, 0)) && s.threads == [Idle, Idle] && ((x == 2 && y == 3) || (x == 3 && y == 2))
    && 1 <= c <= m - 2 && s.head == Ptr(x, c) && s.tail == Ptr(y, c + 1) && s.free.addr == 1
    && s.mem.Keys == {1, 2, 3} && s.mem[x].prev == Ptr(y, c) && s.mem[1].prev == Ptr(2, 0) && s.mem[1].nextFree == NULL
  }

  lemma CycleStarts(m: int, e: Value) returns (s: State)
    requires m >= 4
    ensures Cycle(m, s, e, 1, 2, 3)
  {
    s := TwoLinked(m, e);
    s := Repaired(m, s, e);
    s := FirstPopped(m, s, e);
    s := Finish(m, s, e, 1, Hurried(e, 40), 2, Ptr(1, 0));
    Rest(m, s, e, 42);
  }

  /** One Pop and one Push by thread 0: the two nodes change places, and the tags move on. */
  lemma CycleTurns(m: int, s: State, e: Value, c: nat, x: nat, y: nat) returns (r: State)
    requires Cycle(m, s, e, c, x, y) && c < m - 2
    ensures Cycle(m, r, e, c + 1, y, x)
  {
    var s1 := Pop(m, s, 0, Hurried(e, 0), Ptr(y, c));
    r := PushRecycled(m, s1, e, 0, Hurried(e, 13), x, Ptr(y, c + 1));
    Rest(m, r, e, 23);
  }

  lemma {:induction false} CycleAt(m: int, e: Value, c: nat) returns (s: State, x: nat, y: nat)
    requires 1 <= c <= m - 2 && m >= 4
    ensures Cycle(m, s, e, c, x, y)
  {
    if c == 1 {
      x, y := 2, 3;
      s := CycleStarts(m, e);
    } else {
      var s1, x1, y1 := CycleAt(m, e, c - 1);
      x, y := y1, x1;
      s := CycleTurns(m, s1, e, c - 1, x1, y1);
    }
  }

  /** Node 1 is linked again, under tag 0. */
  lemma OneReturns(m: int, s: State, e: Value, x: nat, y: nat) returns (r: State)
    requires m >= 4 && Cycle(m, s, e, m - 2, x, y)
    ensures r.head == Ptr(x, m - 2) && r.tail == Ptr(1, 0) && r.free.addr == NULL && At(r, 1, Idle) && Reaches(m, r, Hurried(e, 0))
    ensures r.threads == [Idle, Idle] && r.mem.Keys == {1, 2, 3} && r.mem[x].prev == Ptr(y, m - 2)
    ensures r.mem[y].prev == Ptr(1, m - 1) && r.mem[1].prev == Ptr(2, 0)
  {
    r := PushRecycled(m, s, e, 0, Hurried(e, 0), 1, Ptr(y, m - 1));
    Rest(m, r, e, 10);
  }

  /** The push behind it has yet to write its mPrev. */
  lemma TrapSet(m: int, s: State, e: Value, x: nat, y: nat) returns (r: State)
    requires m >= 4 && Cycle(m, s, e, m - 2, x, y)
    ensures r.head == Ptr(x, m - 2) && r.tail == Ptr(4, 1) && At(r, 0, Idle) && Reaches(m, r, Hurried(e, 7))
    ensures r.mem.Keys == {1, 2, 3, 4} && r.mem[x].prev == Ptr(y, m - 2)
    ensures r.mem[y].prev == Ptr(1, m - 1) && r.mem[1].prev == Ptr(2, 0)
  {
    var s1 := OneReturns(m, s, e, x, y);
    r := LinkFresh(m, s1, e, 1, Hurried(e, 0), 4);
  }

  /** Two pops bring node 1 to the head, and clear nodes 2 and 3. */
  lemma TwoPopped(m: int, s: State, e: Value, x: nat, y: nat) returns (r: State)
    requires m >= 4 && At(s, 0, Idle) && Reaches(m, s, Hurried(e, 7)) && s.head == Ptr(x, m - 2) && s.tail == Ptr(4, 1)
    requires (x == 2 && y == 3) || (x == 3 && y == 2)
    requires s.mem.Keys == {1, 2, 3, 4} && s.mem[x].prev == Ptr(y, m - 2)
    requires s.mem[y].prev == Ptr(1, m - 1) && s.mem[1].prev == Ptr(2, 0)
    ensures At(r, 0, Idle) && Reaches(m, r, Hurried(e, 33)) && r.head == Ptr(1, 0) && r.tail == Ptr(4, 1)
    ensures r.mem.Keys == {1, 2, 3, 4} && r.mem[1].prev == Ptr(2, 0) && r.mem[2].value == BLANK
  {
    var s1 := Pop(m, s, 0, Hurried(e, 7), Ptr(y, m - 2));
    r := Pop(m, s1, 0, Hurried(e, 20), Ptr(1, m - 1));
  }

  /** The next Pop believes the old mPrev, and is about to return a value that nobody pushed. */
  lemma Believed(m: int, s: State, e: Value) returns (r: State)
    requires At(s, 0, Idle) && Reaches(m, s, Hurried(e, 33)) && s.head == Ptr(1, 0) && s.tail == Ptr(4, 1)
    requires s.mem.Keys == {1, 2, 3, 4} && s.mem[1].prev == Ptr(2, 0) && s.mem[2].value == BLANK && m >= 2
    ensures At(r, 0, PopCount(BLANK)) && Reaches(m, r, Hurried(e, 45))
  {
    PopCalls(m, s, 0, Hurried(e, 33));
    var s1 := Goto(s, 0, PopHead);
    PopExchange(m, s1, 0, Hurried(e, 34), Ptr(2, 0), BLANK);
    var s2 := Goto(s1, 0, PopCas(Ptr(1, 0), Ptr(2, 0), BLANK));
    r := PopToReturn(m, s2, 0, Hurried(e, 39), Ptr(2, 0), BLANK);
  }

  lemma Deceived(m: int, e: Value) returns (s: State)
    requires m >= 4
    ensures At(s, 0, PopCount(BLANK)) && Reaches(m, s, Hurried(e, 45))
  {
    var s0, x, y := CycleAt(m, e, m - 2);
    var s1 := TrapSet(m, s0, e, x, y);
    var s2 := TwoPopped(m, s1, e, x, y);
    s := Believed(m, s2, e);
  }

  /** And returns it. */
  lemma DeceivedRun(m: int, e: Value) returns (run: seq<State>, sched: Schedule)
    requires m >= 4
    ensures |sched| > 0 && |run| == |sched| + 1 && EndsIn(m, run, sched, run[|sched|], Hurried(e, 46))
    ensures var last := |sched| - 1; ActionOf(run[last], sched[last].0, sched[last].1) == A.ReturnPop(BLANK)
  {
    var s := Deceived(m, e);
    run, sched :| EndsIn(m, run, sched, s, Hurried(e, 45));
    var s' := ExecWrapped(m, s, 0, Go);
    ExtendRun(m, run, sched, s, Hurried(e, 45), 0, Go, s');
    run, sched := run + [s'], sched + [(0, Go)];
  }

  lemma OnlyPushes(m: int, run: seq<State>, sched: Schedule, e: Value, v: Value)
    requires IsWrappedRun(m, run, sched) && v != e
    requires forall i :: 0 <= i < |sched| && sched[i].1.CallPush? ==> sched[i].1.elem == e
    ensures A.Count(WrappedEvents(m, run, sched), A.CallPush(v)) == 0
  {
    var events := WrappedEvents(m, run, sched);
    forall i | 0 <= i < |events| ensures events[i].1 != A.CallPush(v) {
      assert Enabled(run[i], sched[i].0, sched[i].1);
    }
    A.CountNone(events, A.CallPush(v));
  }

  /**
   For any number of tags from 4 on, a run of two threads in which no operation is under way for more
   than 48 steps, `new` returns only harmless mPrev fields and a Pop returns a value that nobody pushed,
   so that its history is not linearizable.
   */
  lemma PromptnessIsNotEnough(m: int, e: Value) returns (run: seq<State>, sched: Schedule)
    requires m >= 4 && e != BLANK
    ensures IsWrappedRun(m, run, sched) && InvalidGarbage(sched) && Prompt(run, BOUND)
    ensures forall i :: 0 <= i < |sched| && sched[i].1.CallPush? ==> sched[i].1.elem == e
    ensures |sched| > 0 && WrappedEvents(m, run, sched)[|sched| - 1].1 == A.ReturnPop(BLANK)
    ensures !A.Linearizable(A.Fifo, WrappedEvents(m, run, sched))
  {
    run, sched := DeceivedRun(m, e);
    OnlyPushes(m, run, sched, e, BLANK);
    var events := WrappedEvents(m, run, sched);
    A.CountSome(events, A.ReturnPop(BLANK), |sched| - 1);
    if A.Linearizable(A.Fifo, events) {
      A.PushesCover(A.Fifo, events, BLANK);
    }
  }
}
