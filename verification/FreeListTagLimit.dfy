/**
 How many tags the free list needs: a compare-exchange that comes after its remembered head has
 changed exactly as often as there are tags can put an element on the list that a client owns.
 */
module FreeListTagLimit {
  import opened Element
  import opened FreeListModel
  import opened FreeListProof
  import opened FreeListBoundedTags
  import opened Arithmetic
  import T = StackModel
  import B = StackBoundedTags
  import A = AtomicContainer

  /** What Pop would hand out next belongs to the list. */
  predicate HeadListed(s: State) {
    s.head.addr != NULL ==> 0 <= s.head.addr < |s.owner| && s.owner[s.head.addr] == Listed
  }

  // ---- runs of two threads, by their last state ----

  /** The age of the head that thread u remembers, if it remembers one. */
  predicate AgeOk(run: seq<State>, sched: Moves, s: State, ages: seq<nat>, u: nat)
    requires |run| == |sched| + 1 && u < |ages| == |s.threads|
  {
    !Watches(s.threads[u]) || Stale(run, sched, u, |sched|) == ages[u]
  }

  /** Step i returns element 1 from a Pop. */
  predicate ReturnsOne(run: seq<State>, sched: Moves, i: nat)
    requires i < |run| && i < |sched|
  {
    sched[i].0 < |run[i].threads| && run[i].threads[sched[i].0] == PopCount(1)
  }

  /**
   A run with m tags ends in s, with these ages of the heads that the two threads remember. Only its first
   step can be a call of Push with element 1; `back` says that a Pop has returned that element.
   */
  ghost predicate EndsIn(m: nat, run: seq<State>, sched: Moves, s: State, ages: seq<nat>, back: bool) {
    && IsRun(m, run, sched) && TagsOutlast(m + 1, run, sched) && run[|sched|] == s && |s.threads| == |ages|
    && (forall u :: 0 <= u < |ages| ==> AgeOk(run, sched, s, ages, u))
    && (forall i :: 0 < i < |sched| ==> sched[i].1 != CallPush(1))
    && (back ==> exists i :: 0 <= i < |sched| && ReturnsOne(run, sched, i))
  }

  ghost predicate Reachable(m: nat, s: State, ages: seq<nat>, back: bool) {
    exists run, sched :: EndsIn(m, run, sched, s, ages, back)
  }

  /** Staleness looks back only. */
  lemma {:induction false} StalePrefix(run: seq<State>, sched: Moves, run': seq<State>, sched': Moves, t: nat, n: nat)
    requires |run| == |sched| + 1 && |run'| == |sched'| + 1 && n <= |sched| <= |sched'|
    requires forall i :: 0 <= i < |run| ==> run'[i] == run[i]
    ensures Stale(run', sched', t, n) == Stale(run, sched, t, n)
  {
    if n > 0 {
      StalePrefix(run, sched, run', sched', t, n - 1);
    }
  }

  function AgeAfter(s: State, s': State, t: nat, age: nat): nat
    requires t < |s.threads|
  {
    if Watches(s.threads[t]) then age + (if s'.head != s.head then 1 else 0) else 0
  }

  function AgesAfter(s: State, s': State, ages: seq<nat>): (r: seq<nat>)
    requires |s.threads| == |ages|
    ensures |r| == |ages| && forall u :: 0 <= u < |r| ==> r[u] == AgeAfter(s, s', u, ages[u])
  {
    seq(|ages|, u requires 0 <= u < |ages| => AgeAfter(s, s', u, ages[u]))
  }

  lemma StillRun(m: nat, run: seq<State>, sched: Moves, s: State, t: nat, c: Input, s': State)
    requires IsRun(m, run, sched) && run[|sched|] == s && Allowed(s, t, c) && s' == Run(m, s, t, c)
    ensures IsRun(m, run + [s'], sched + [(t, c)])
  {
  }

  lemma StaleNext(run: seq<State>, sched: Moves, s: State, s': State, t: nat, c: Input, u: nat)
    requires |run| == |sched| + 1 && run[|sched|] == s && u < |s.threads|
    ensures Stale(run + [s'], sched + [(t, c)], u, |sched| + 1) == AgeAfter(s, s', u, Stale(run, sched, u, |sched|))
  {
    StalePrefix(run, sched, run + [s'], sched + [(t, c)], u, |sched|);
  }

  lemma AgeNext(run: seq<State>, sched: Moves, s: State, ages: seq<nat>, s': State, t: nat, c: Input, u: nat)
    requires |run| == |sched| + 1 && run[|sched|] == s && u < |ages| == |s.threads| == |s'.threads| && AgeOk(run, sched, s, ages, u)
    ensures AgeOk(run + [s'], sched + [(t, c)], s', AgesAfter(s, s', ages), u)
  {
    StaleNext(run, sched, s, s', t, c, u);
  }

  lemma OutlastAt(m: nat, run: seq<State>, sched: Moves, s: State, t: nat, c: Input, s': State, n: nat)
    requires |run| == |sched| + 1 && run[|sched|] == s && TagsOutlast(m + 1, run, sched) && n <= |sched|
    requires t < |s.threads| && Exchanging(s.threads[t]) ==> Stale(run, sched, t, |sched|) <= m
    requires var u := (sched + [(t, c)])[n].0; u < |run[n].threads| && Exchanging(run[n].threads[u])
    ensures Stale(run + [s'], sched + [(t, c)], (sched + [(t, c)])[n].0, n) < m + 1
  {
    var sched' := sched + [(t, c)];
    StalePrefix(run, sched, run + [s'], sched', sched'[n].0, n);
    if n < |sched| {
      assert sched'[n] == sched[n];
    }
  }

  lemma StillOutlast(m: nat, run: seq<State>, sched: Moves, s: State, t: nat, c: Input, s': State)
    requires |run| == |sched| + 1 && run[|sched|] == s && TagsOutlast(m + 1, run, sched)
    requires t < |s.threads| && Exchanging(s.threads[t]) ==> Stale(run, sched, t, |sched|) <= m
    ensures TagsOutlast(m + 1, run + [s'], sched + [(t, c)])
  {
    var run', sched' := run + [s'], sched + [(t, c)];
    forall n | 0 <= n < |sched'| && sched'[n].0 < |run'[n].threads| && Exchanging(run'[n].threads[sched'[n].0])
      ensures Stale(run', sched', sched'[n].0, n) < m + 1
    {
      OutlastAt(m, run, sched, s, t, c, s', n);
    }
  }

  lemma StillBack(run: seq<State>, sched: Moves, s: State, t: nat, c: Input, s': State, i: nat)
    requires |run| == |sched| + 1 && i < |sched| && ReturnsOne(run, sched, i)
    ensures ReturnsOne(run + [s'], sched + [(t, c)], i)
  {
  }

  lemma ExtendRun(m: nat, run: seq<State>, sched: Moves, s: State, ages: seq<nat>, back: bool, t: nat, c: Input, s': State)
    requires EndsIn(m, run, sched, s, ages, back) && Allowed(s, t, c) && s' == Run(m, s, t, c) && c != CallPush(1)
    requires (Exchanging(s.threads[t]) ==> ages[t] <= m) && |s'.threads| == |s.threads|
    ensures EndsIn(m, run + [s'], sched + [(t, c)], s', AgesAfter(s, s', ages), back || s.threads[t] == PopCount(1))
  {
    StillRun(m, run, sched, s, t, c, s');
    assert AgeOk(run, sched, s, ages, t);
    StillOutlast(m, run, sched, s, t, c, s');
    var run', sched' := run + [s'], sched + [(t, c)];
    forall u | 0 <= u < |ages| ensures AgeOk(run', sched', s', AgesAfter(s, s', ages), u) {
      AgeNext(run, sched, s, ages, s', t, c, u);
    }
    if back {
      var i :| 0 <= i < |sched| && ReturnsOne(run, sched, i);
      StillBack(run, sched, s, t, c, s', i);
    } else if s.threads[t] == PopCount(1) {
      assert ReturnsOne(run', sched', |sched|);
    }
  }

  lemma Extend(m: nat, s: State, ages: seq<nat>, back: bool, t: nat, c: Input, s': State)
    requires Reachable(m, s, ages, back) && |ages| == |s.threads| && Allowed(s, t, c) && s' == Run(m, s, t, c)
    requires (Exchanging(s.threads[t]) ==> ages[t] <= m) && c != CallPush(1)
    ensures Reachable(m, s', AgesAfter(s, s', ages), back || s.threads[t] == PopCount(1))
  {
    SameThreads(m, s, t, c);
    var run, sched :| EndsIn(m, run, sched, s, ages, back);
    ExtendRun(m, run, sched, s, ages, back, t, c, s');
  }

  /** Only the ages of remembered heads matter. */
  lemma Forget(m: nat, s: State, ages: seq<nat>, back: bool, ages': seq<nat>)
    requires Reachable(m, s, ages, back) && |ages'| == |ages| == |s.threads|
    requires forall u :: 0 <= u < |ages| && Watches(s.threads[u]) ==> ages'[u] == ages[u]
    ensures Reachable(m, s, ages', back)
  {
    var run, sched :| EndsIn(m, run, sched, s, ages, back);
    forall u | 0 <= u < |ages'| ensures AgeOk(run, sched, s, ages', u) {
      assert AgeOk(run, sched, s, ages, u);
    }
    assert EndsIn(m, run, sched, s, ages', back);
  }

  // ---- steps of thread 1, while thread 0 stands still ----

  function Ages(age: nat): seq<nat> {
    [age, 0]
  }

  ghost predicate Ready(m: nat, s: State, age: nat, back: bool, pc: Pc) {
    |s.threads| == 2 && s.threads[1] == pc && Reachable(m, s, Ages(age), back)
  }

  /** A step that leaves the head alone and is no return. */
  lemma Go1(m: nat, s: State, age: nat, back: bool, pc: Pc, c: Input, s': State, pc': Pc)
    requires Ready(m, s, age, back, pc) && Allowed(s, 1, c) && s' == Run(m, s, 1, c) && c != CallPush(1)
    requires s'.head == s.head && s'.threads == s.threads[1 := pc'] && !Exchanging(pc) && !pc.PopCount?
    ensures Ready(m, s', age, back, pc')
  {
    Extend(m, s, Ages(age), back, 1, c, s');
    Forget(m, s', AgesAfter(s, s', Ages(age)), back, Ages(age));
  }

  /** The return of a Pop. */
  lemma Return(m: nat, s: State, age: nat, back: bool, e: int, s': State)
    requires Ready(m, s, age, back, PopCount(e)) && s' == Run(m, s, 1, Go)
    ensures Ready(m, s', age, back || e == 1, Idle)
  {
    Extend(m, s, Ages(age), back, 1, Go, s');
    Forget(m, s', AgesAfter(s, s', Ages(age)), back || e == 1, Ages(age));
  }

  function Older(s: State, age: nat): nat {
    if |s.threads| == 2 && Watches(s.threads[0]) then age + 1 else age
  }

  /** An exchange of the head. */
  lemma Swap(m: nat, s: State, age: nat, back: bool, pc: Pc, s': State, pc': Pc)
    requires Ready(m, s, age, back, pc) && Exchanging(pc) && Allowed(s, 1, Go) && s' == Run(m, s, 1, Go)
    requires s'.head != s.head && s'.threads == s.threads[1 := pc'] && !Watches(pc')
    ensures Ready(m, s', Older(s, age), back, pc')
  {
    Extend(m, s, Ages(age), back, 1, Go, s');
    Forget(m, s', AgesAfter(s, s', Ages(age)), back, Ages(Older(s, age)));
  }

  // ---- whole operations of thread 1 ----

  /** The list after a Push or a Pop, but for the counter. */
  function Pushed(s: State, e: int, tag: nat): State
    requires 0 <= e < |s.links| && e < |s.owner|
  {
    s.(links := s.links[e := LinkOf(s.head.addr)], owner := s.owner[e := Listed], head := Head(e, tag))
  }

  function Popped(s: State, below: int, tag: nat): State
    requires 0 <= s.head.addr < |s.owner|
  {
    s.(owner := s.owner[s.head.addr := Client(1)], head := Head(below, tag))
  }

  /** Thread 1 before the exchange of its Push, and of its Pop. */
  function Linking(s: State, e: int): State
    requires 0 <= e < |s.links| && |s.threads| == 2
  {
    At(s, 1, PushCas(e, s.head)).(links := s.links[e := LinkOf(s.head.addr)])
  }

  /** A Push from its reading of mHead on. */
  lemma LinkingReached(m: nat, s: State, age: nat, back: bool, e: int)
    requires Ready(m, s, age, back, PushTop(e)) && IsElem(s, e)
    ensures Ready(m, Linking(s, e), age, back, PushCas(e, s.head))
  {
    Go1(m, s, age, back, PushTop(e), Go, At(s, 1, PushLink(e, s.head)), PushLink(e, s.head));
    Go1(m, At(s, 1, PushLink(e, s.head)), age, back, PushLink(e, s.head), Go, Linking(s, e), PushCas(e, s.head));
  }

  lemma PushEnds(m: nat, s: State, age: nat, back: bool, e: int, tag: nat) returns (r: State)
    requires Ready(m, s, age, back, PushTop(e)) && IsElem(s, e) && e < |s.owner| && s.head.addr != e && tag == T.Bump(m, s.head.tag)
    ensures r == At(Pushed(s, e, tag), 1, Idle).(size := r.size) && Ready(m, r, Older(s, age), back, Idle)
  {
    LinkingReached(m, s, age, back, e);
    var s' := At(Pushed(s, e, tag), 1, PushCount(e));
    Swap(m, Linking(s, e), age, back, PushCas(e, s.head), s', PushCount(e));
    r := Run(m, s', 1, Go);
    Go1(m, s', Older(s, age), back, PushCount(e), Go, r, Idle);
  }

  lemma Push(m: nat, s: State, age: nat, back: bool, e: int, tag: nat) returns (r: State)
    requires Ready(m, s, age, back, Idle) && Mine(s, 1, e) && e != 1 && s.head.addr != e && tag == T.Bump(m, s.head.tag)
    ensures r == Pushed(s, e, tag).(size := r.size) && Ready(m, r, Older(s, age), back, Idle)
  {
    Go1(m, s, age, back, Idle, CallPush(e), At(s, 1, PushTop(e)), PushTop(e));
    r := PushEnds(m, At(s, 1, PushTop(e)), age, back, e, tag);
    assert s.threads[1 := PushTop(e)][1 := Idle] == s.threads;
  }

  lemma UnlinkingReached(m: nat, s: State, age: nat, back: bool, after: int)
    requires Ready(m, s, age, back, Idle) && IsElem(s, s.head.addr) && after == ObjectOf(s.links[s.head.addr])
    ensures Ready(m, At(s, 1, PopCas(s.head, after)), age, back, PopCas(s.head, after))
  {
    Go1(m, s, age, back, Idle, CallPop, At(s, 1, PopTop), PopTop);
    Go1(m, At(s, 1, PopTop), age, back, PopTop, Go, At(s, 1, PopNext(s.head)), PopNext(s.head));
    Go1(m, At(s, 1, PopNext(s.head)), age, back, PopNext(s.head), Go, At(s, 1, PopCas(s.head, after)), PopCas(s.head, after));
  }

  /** A Pop up to its return. */
  lemma Taken(m: nat, s: State, age: nat, back: bool, after: int, tag: nat)
    requires Ready(m, s, age, back, Idle) && IsElem(s, s.head.addr) && s.head.addr < |s.owner|
    requires after == ObjectOf(s.links[s.head.addr]) && after != s.head.addr && tag == T.Bump(m, s.head.tag)
    ensures Ready(m, At(Popped(s, after, tag), 1, PopCount(s.head.addr)), Older(s, age), back, PopCount(s.head.addr))
  {
    UnlinkingReached(m, s, age, back, after);
    var s' := At(Popped(s, after, tag), 1, PopCount(s.head.addr));
    Swap(m, At(s, 1, PopCas(s.head, after)), age, back, PopCas(s.head, after), s', PopCount(s.head.addr));
  }

  lemma Pop(m: nat, s: State, age: nat, back: bool, after: int, tag: nat) returns (r: State)
    requires Ready(m, s, age, back, Idle) && IsElem(s, s.head.addr) && s.head.addr < |s.owner|
    requires after == ObjectOf(s.links[s.head.addr]) && after != s.head.addr && tag == T.Bump(m, s.head.tag)
    ensures r == Popped(s, after, tag).(size := r.size) && Ready(m, r, Older(s, age), back || s.head.addr == 1, Idle)
  {
    Taken(m, s, age, back, after, tag);
    var s' := At(Popped(s, after, tag), 1, PopCount(s.head.addr));
    r := Run(m, s', 1, Go);
    assert s'.threads[1 := Idle] == s.threads;
    Return(m, s', Older(s, age), back, s.head.addr, r);
  }

  // ---- the failing run: element 1 under element 2, then thread 0 begins to pop 2 ----

  /** A reachable state with three elements, at which thread 1 is between calls. */
  ghost predicate Scene(m: nat, s: State, age: nat, back: bool, pc: Pc, head: Head, owner: seq<Owner>) {
    && Ready(m, s, age, back, Idle) && s.threads[0] == pc
    && s.head == head && s.owner == owner && |s.links| == 4 == |owner|
  }

  function Next(pc: Pc, age: nat): nat {
    if Watches(pc) then age + 1 else age
  }

  lemma ScenePush(m: nat, s: State, age: nat, back: bool, pc: Pc, head: Head, owner: seq<Owner>, e: int, tag: nat) returns (r: State)
    requires Scene(m, s, age, back, pc, head, owner) && 2 <= e < 4 && owner[e] == Client(1) && head.addr != e
    requires tag == T.Bump(m, head.tag)
    ensures Scene(m, r, Next(pc, age), back, pc, Head(e, tag), owner[e := Listed])
    ensures r.links == s.links[e := LinkOf(head.addr)]
  {
    r := Push(m, s, age, back, e, tag);
  }

  lemma ScenePop(m: nat, s: State, age: nat, back: bool, pc: Pc, head: Head, owner: seq<Owner>, below: int, tag: nat) returns (r: State)
    requires Scene(m, s, age, back, pc, head, owner) && 1 <= head.addr < 4 && s.links[head.addr] == LinkOf(below)
    requires below != head.addr && tag == T.Bump(m, head.tag)
    ensures Scene(m, r, Next(pc, age), back || head.addr == 1, pc, Head(below, tag), owner[head.addr := Client(1)])
    ensures r.links == s.links
  {
    r := Pop(m, s, age, back, below, tag);
  }

  const WAIT: Pc := PopCas(Head(2, 2), 1)

  function Owners(first: Owner, second: Owner, third: Owner): seq<Owner> {
    [Client(1), first, second, third]
  }

  /** The first step is a call of Push with element 1. */
  lemma FirstCall(m: nat) returns (s: State)
    requires m > 1
    ensures s == State([0, 0, 0, 0], Owners(Client(1), Client(1), Client(1)), Head(NULL, 0), 0, [Idle, PushTop(1)])
    ensures Ready(m, s, 0, false, PushTop(1))
  {
    var s0 := State([0, 0, 0, 0], Owners(Client(1), Client(1), Client(1)), Head(NULL, 0), 0, [Idle, Idle]);
    s := At(s0, 1, PushTop(1));
    var run, sched := [s0, s], [(1, CallPush(1))];
    assert IsRun(m, run, sched);
    assert EndsIn(m, run, sched, s, Ages(0), false);
  }

  lemma OnePushed(m: nat) returns (s: State)
    requires m >= 4
    ensures Scene(m, s, 0, false, Idle, Head(1, 1), Owners(Listed, Client(1), Client(1))) && s.links[1] == LinkOf(NULL)
  {
    s := FirstCall(m);
    s := PushEnds(m, s, 0, false, 1, 1);
    assert s.owner == Owners(Listed, Client(1), Client(1));
  }

  /** Elements 1 and 2 are on the list. */
  lemma TwoPushed(m: nat) returns (s: State)
    requires m >= 4
    ensures Scene(m, s, 0, false, Idle, Head(2, 2), Owners(Listed, Listed, Client(1)))
    ensures s.links[1] == LinkOf(NULL) && s.links[2] == LinkOf(1)
  {
    s := OnePushed(m);
    s := ScenePush(m, s, 0, false, Idle, Head(1, 1), Owners(Listed, Client(1), Client(1)), 2, 2);
    assert s.owner == Owners(Listed, Listed, Client(1));
  }

  /** A step of thread 0 that leaves the head alone. */
  lemma ZeroMoves(m: nat, s: State, c: Input, s': State)
    requires |s.threads| == 2 && Reachable(m, s, Ages(0), false) && Allowed(s, 0, c) && s' == Run(m, s, 0, c) && c != CallPush(1)
    requires s'.head == s.head && !Exchanging(s.threads[0]) && !s.threads[0].PopCount?
    ensures Reachable(m, s', Ages(0), false)
  {
    Extend(m, s, Ages(0), false, 0, c, s');
    assert AgesAfter(s, s', Ages(0)) == Ages(0);
  }

  /** Thread 0 stops before its exchange. */
  lemma PopBegins(m: nat, s: State, owner: seq<Owner>) returns (r: State)
    requires Scene(m, s, 0, false, Idle, Head(2, 2), owner) && s.links[2] == LinkOf(1)
    ensures Scene(m, r, 0, false, WAIT, Head(2, 2), owner) && r.links == s.links
  {
    ZeroMoves(m, s, CallPop, At(s, 0, PopTop));
    ZeroMoves(m, At(s, 0, PopTop), Go, At(s, 0, PopNext(Head(2, 2))));
    r := At(s, 0, WAIT);
    ZeroMoves(m, At(s, 0, PopNext(Head(2, 2))), Go, r);
  }

  /** The tag after so many changes that thread 0 has missed. */
  function TagNow(m: nat, age: nat): nat
    requires m > 0
  {
    (2 + age) % m
  }

  lemma TagAfter(m: nat, age: nat)
    requires m > 1
    ensures T.Bump(m, TagNow(m, age)) == TagNow(m, age + 1)
  {
    B.BumpWraps(m, 2 + age);
  }

  /** Both elements come off. */
  lemma TwoPopped(m: nat, s: State, t0: nat, t1: nat, t2: nat) returns (w: State)
    requires Scene(m, s, 0, false, WAIT, Head(2, t0), Owners(Listed, Listed, Client(1)))
    requires t1 == T.Bump(m, t0) && t2 == T.Bump(m, t1)
    requires s.links[1] == LinkOf(NULL) && s.links[2] == LinkOf(1)
    ensures Scene(m, w, 2, true, WAIT, Head(NULL, t2), Owners(Client(1), Client(1), Client(1))) && w.links[1] == LinkOf(NULL)
  {
    w := ScenePop(m, s, 0, false, WAIT, Head(2, t0), Owners(Listed, Listed, Client(1)), 1, t1);
    assert w.owner == Owners(Listed, Client(1), Client(1));
    w := ScenePop(m, w, 1, false, WAIT, Head(1, t1), Owners(Listed, Client(1), Client(1)), NULL, t2);
    assert w.owner == Owners(Client(1), Client(1), Client(1));
  }

  /** Thread 0 is about to exchange; element 2 is back on the list, above 3, and 1 is at client 1. */
  ghost predicate Waiting(m: nat, s: State, age: nat, tag: nat) {
    && Scene(m, s, age, true, WAIT, Head(2, tag), Owners(Client(1), Listed, Listed))
    && s.links[1] == LinkOf(NULL) && s.links[2] == LinkOf(3)
  }

  /** Element 3 goes on, and 2 goes back on. */
  lemma TwoPushedBack(m: nat, s: State, t2: nat, t3: nat, t4: nat) returns (w: State)
    requires Scene(m, s, 2, true, WAIT, Head(NULL, t2), Owners(Client(1), Client(1), Client(1))) && s.links[1] == LinkOf(NULL)
    requires t3 == T.Bump(m, t2) && t4 == T.Bump(m, t3)
    ensures Waiting(m, w, 4, t4)
  {
    w := ScenePush(m, s, 2, true, WAIT, Head(NULL, t2), Owners(Client(1), Client(1), Client(1)), 3, t3);
    assert w.owner == Owners(Client(1), Client(1), Listed);
    w := ScenePush(m, w, 3, true, WAIT, Head(3, t3), Owners(Client(1), Client(1), Listed), 2, t4);
    assert w.owner == Owners(Client(1), Listed, Listed);
  }

  /** Element 2 comes off once more. */
  lemma Off(m: nat, s: State, age: nat, t0: nat, t1: nat) returns (w: State)
    requires Waiting(m, s, age, t0) && t1 == T.Bump(m, t0)
    ensures Scene(m, w, age + 1, true, WAIT, Head(3, t1), Owners(Client(1), Client(1), Listed)) && w.links[1] == LinkOf(NULL)
  {
    w := ScenePop(m, s, age, true, WAIT, Head(2, t0), Owners(Client(1), Listed, Listed), 3, t1);
    assert w.owner == Owners(Client(1), Client(1), Listed);
  }

  /** And goes on again; nothing has changed but the tag. */
  lemma On(m: nat, s: State, age: nat, t1: nat, t2: nat) returns (w: State)
    requires Scene(m, s, age, true, WAIT, Head(3, t1), Owners(Client(1), Client(1), Listed)) && s.links[1] == LinkOf(NULL)
    requires t2 == T.Bump(m, t1)
    ensures Waiting(m, w, age + 1, t2)
  {
    w := ScenePush(m, s, age, true, WAIT, Head(3, t1), Owners(Client(1), Client(1), Listed), 2, t2);
    assert w.owner == Owners(Client(1), Listed, Listed);
  }

  lemma FourTags(m: nat)
    requires m >= 4
    ensures T.Bump(m, T.Bump(m, T.Bump(m, T.Bump(m, 2)))) == TagNow(m, 4)
  {
    Division(2, m, 0, 2);
    TagAfter(m, 0);
    TagAfter(m, 1);
    TagAfter(m, 2);
    TagAfter(m, 3);
  }

  lemma WaitStarts(m: nat) returns (w: State)
    requires m >= 4
    ensures Waiting(m, w, 4, TagNow(m, 4))
  {
    w := TwoPushed(m);
    w := PopBegins(m, w, Owners(Listed, Listed, Client(1)));
    var t1 := T.Bump(m, 2);
    var t2 := T.Bump(m, t1);
    var t3 := T.Bump(m, t2);
    w := TwoPopped(m, w, 2, t1, t2);
    w := TwoPushedBack(m, w, t2, t3, T.Bump(m, t3));
    FourTags(m);
  }

  lemma WaitMore(m: nat, s: State, age: nat, to: nat) returns (w: State)
    requires m >= 4 && Waiting(m, s, age, TagNow(m, age)) && to == age + 2
    ensures Waiting(m, w, to, TagNow(m, to))
  {
    TagAfter(m, age);
    TagAfter(m, age + 1);
    w := Off(m, s, age, TagNow(m, age), TagNow(m, age + 1));
    w := On(m, w, age + 1, TagNow(m, age + 1), TagNow(m, to));
  }

  lemma {:induction false} WaitOn(m: nat, k: nat) returns (w: State, age: nat)
    requires m >= 4
    ensures age == 4 + 2 * k && Waiting(m, w, age, TagNow(m, age))
  {
    if k == 0 {
      age := 4;
      w := WaitStarts(m);
    } else {
      w, age := WaitOn(m, k - 1);
      w := WaitMore(m, w, age, age + 2);
      age := age + 2;
    }
  }

  /** After m changes the tag that thread 0 remembers is back. */
  lemma FullCircle(m: nat, age: nat)
    requires m >= 4 && age == m
    ensures TagNow(m, age) == 2
  {
    Division(2 + m, m, 1, 2);
  }

  /** The exchange succeeds, though element 1 is at client 1. */
  lemma Deceived(m: nat, s: State, age: nat) returns (s': State)
    requires age <= m && Waiting(m, s, age, 2)
    ensures !HeadListed(s') && Ready(m, s', age, true, Idle)
    ensures s'.head.addr == 1 && |s'.links| == 4 == |s'.owner| && s'.links[1] == LinkOf(NULL)
  {
    s' := Run(m, s, 0, Go);
    Extend(m, s, Ages(age), true, 0, Go, s');
    Forget(m, s', AgesAfter(s, s', Ages(age)), true, Ages(age));
    assert s'.head.addr == 1 && s'.owner[1] == Client(1);
  }

  lemma LateState(m: nat, k: nat) returns (s: State, age: nat)
    requires m == 4 + 2 * k
    ensures !HeadListed(s) && Ready(m, s, age, true, Idle)
    ensures s.head.addr == 1 && |s.links| == 4 == |s.owner| && s.links[1] == LinkOf(NULL)
  {
    s, age := WaitOn(m, k);
    FullCircle(m, age);
    s := Deceived(m, s, age);
  }

  /** With an even number m of tags, m changes of the head deceive the exchange. */
  lemma LateExchange(m: nat) returns (run: seq<State>, sched: Moves)
    requires m >= 4 && m % 2 == 0
    ensures IsRun(m, run, sched) && TagsOutlast(m + 1, run, sched)
    ensures !HeadListed(run[|sched|])
  {
    var s, age := LateState(m, m / 2 - 2);
    run, sched :| EndsIn(m, run, sched, s, Ages(age), true);
  }

  /** Thread 1 then pops element 1 for the second time. */
  lemma TakenAgain(m: nat, k: nat) returns (s: State, age: nat)
    requires m == 4 + 2 * k
    ensures Ready(m, s, age, true, PopCount(1))
  {
    var s0;
    s0, age := LateState(m, k);
    Taken(m, s0, age, true, NULL, T.Bump(m, s0.head.tag));
    s := At(Popped(s0, NULL, T.Bump(m, s0.head.tag)), 1, PopCount(1));
    age := Older(s0, age);
  }

  /** The run goes on by the return of thread 1's Pop. */
  lemma Finish(m: nat, run: seq<State>, sched: Moves, s: State, ages: seq<nat>, first: nat, s': State)
    requires EndsIn(m, run, sched, s, ages, true) && first < |sched| && ReturnsOne(run, sched, first)
    requires |s.threads| == 2 && s.threads[1] == PopCount(1) && Allowed(s, 1, Go) && s' == Run(m, s, 1, Go)
    ensures IsRun(m, run + [s'], sched + [(1, Go)]) && TagsOutlast(m + 1, run + [s'], sched + [(1, Go)])
    ensures ReturnsOne(run + [s'], sched + [(1, Go)], first) && ReturnsOne(run + [s'], sched + [(1, Go)], |sched|)
    ensures forall i :: 0 < i < |sched + [(1, Go)]| ==> (sched + [(1, Go)])[i].1 != CallPush(1)
  {
    StillRun(m, run, sched, s, 1, Go, s');
    StillOutlast(m, run, sched, s, 1, Go, s');
    StillBack(run, sched, s, 1, Go, s', first);
  }

  lemma LateReturn(m: nat) returns (run: seq<State>, sched: Moves, first: nat)
    requires m >= 4 && m % 2 == 0
    ensures IsRun(m, run, sched) && TagsOutlast(m + 1, run, sched) && first < |sched| - 1
    ensures ReturnsOne(run, sched, first) && ReturnsOne(run, sched, |sched| - 1)
    ensures forall i :: 0 < i < |sched| ==> sched[i].1 != CallPush(1)
  {
    var s, age := TakenAgain(m, m / 2 - 2);
    run, sched :| EndsIn(m, run, sched, s, Ages(age), true);
    first :| 0 <= first < |sched| && ReturnsOne(run, sched, first);
    var s' := Run(m, s, 1, Go);
    Finish(m, run, sched, s, Ages(age), first, s');
    run, sched := run + [s'], sched + [(1, Go)];
  }

  lemma PushName(name: int -> Value, s: State, t: nat, c: Input)
    requires Allowed(s, t, c) && c != CallPush(1) && forall a :: a != 1 ==> name(a) != name(1)
    ensures ActionOf(name, s, t, c) != A.CallPush(name(1))
  {
  }

  lemma ReturnName(name: int -> Value, s: State, t: nat, c: Input)
    requires Allowed(s, t, c) && s.threads[t] == PopCount(1)
    ensures ActionOf(name, s, t, c) == A.ReturnPop(name(1))
  {
  }

  lemma PushedOnce(m: nat, name: int -> Value, run: seq<State>, sched: Moves)
    requires IsRun(m, run, sched) && forall i :: 0 < i < |sched| ==> sched[i].1 != CallPush(1)
    requires forall a :: a != 1 ==> name(a) != name(1)
    ensures A.Count(Events(name, m, run, sched), A.CallPush(name(1))) <= 1
  {
    var events := Events(name, m, run, sched);
    forall i | 0 < i < |events| ensures events[i].1 != A.CallPush(name(1)) {
      PushName(name, run[i], sched[i].0, sched[i].1);
    }
    A.CountFirst(events, A.CallPush(name(1)));
  }

  lemma ReturnedTwice(m: nat, name: int -> Value, run: seq<State>, sched: Moves, first: nat, last: nat)
    requires IsRun(m, run, sched) && first < last < |sched| && ReturnsOne(run, sched, first) && ReturnsOne(run, sched, last)
    ensures A.Count(Events(name, m, run, sched), A.ReturnPop(name(1))) >= 2
  {
    ReturnName(name, run[first], sched[first].0, sched[first].1);
    ReturnName(name, run[last], sched[last].0, sched[last].1);
    A.CountTwo(Events(name, m, run, sched), A.ReturnPop(name(1)), first, last);
  }

  /** Element 1 was pushed once and is returned twice, so the history is not linearizable. */
  lemma LateNotLinearizable(m: nat, name: int -> Value) returns (run: seq<State>, sched: Moves)
    requires m >= 4 && m % 2 == 0 && forall a :: a != 1 ==> name(a) != name(1)
    ensures IsRun(m, run, sched) && TagsOutlast(m + 1, run, sched)
    ensures !A.Linearizable(A.Lifo, Events(name, m, run, sched))
  {
    var first;
    run, sched, first := LateReturn(m);
    PushedOnce(m, name, run, sched);
    ReturnedTwice(m, name, run, sched, first, |sched| - 1);
    if A.Linearizable(A.Lifo, Events(name, m, run, sched)) {
      A.PushesCover(A.Lifo, Events(name, m, run, sched), name(1));
    }
  }

  // ---- the exact limit ----

  lemma TimelyIsSafe(name: int -> Value, run: seq<State>, sched: Moves)
    requires IsRun(TAGS_16, run, sched) && TagsOutlast(TAGS_16, run, sched)
    ensures HeadListed(run[|sched|])
  {
    var shadow := BoundedTagsSimulate(name, TAGS_16, run, sched);
    RunInvariant(shadow, sched, |sched|);
    var s := shadow[|sched|];
    assert Wrap(TAGS_16, s) == run[|sched|];
  }

  /** Every run whose exchanges come before `limit` head changes hands out only elements of the list. */
  ghost predicate SafeWithin(limit: nat) {
    forall run, sched :: IsRun(TAGS_16, run, sched) && TagsOutlast(limit, run, sched) ==> HeadListed(run[|sched|])
  }

  /** Sixteen tag bits stand exactly 2^16 - 1 missed changes. */
  lemma TagLimitExact(limit: nat)
    ensures SafeWithin(limit) <==> limit <= 0x1_0000
  {
    if limit <= TAGS_16 {
      forall run, sched | IsRun(TAGS_16, run, sched) && TagsOutlast(limit, run, sched)
        ensures HeadListed(run[|sched|])
      {
        TimelyIsSafe(_ => BLANK, run, sched);
      }
    } else {
      var run, sched := LateExchange(TAGS_16);
      assert TagsOutlast(limit, run, sched);
    }
  }

  /** Every run whose exchanges come before `limit` head changes is linearizable, under any naming of the elements. */
  ghost predicate LinearizableWithin(limit: nat) {
    forall name, run, sched :: IsRun(TAGS_16, run, sched) && TagsOutlast(limit, run, sched) ==>
      A.Linearizable(A.Lifo, Events(name, TAGS_16, run, sched))
  }

  /** The same limit is exact for linearizability. */
  lemma LinearizableExact(limit: nat, one: Value, other: Value)
    requires one != other
    ensures LinearizableWithin(limit) <==> limit <= 0x1_0000
  {
    if limit <= TAGS_16 {
      forall name, run, sched | IsRun(TAGS_16, run, sched) && TagsOutlast(limit, run, sched)
        ensures A.Linearizable(A.Lifo, Events(name, TAGS_16, run, sched))
      {
        var states := BoundedFreeListLinearizable(name, run, sched);
        A.TraceLinearizable(A.Lifo, states, Events(name, TAGS_16, run, sched));
      }
    } else {
      var name := (a: int) => if a == 1 then one else other;
      var run, sched := LateNotLinearizable(TAGS_16, name);
      assert TagsOutlast(limit, run, sched);
    }
  }
}
