/**
 When operations of the queue come to an end. A Push is delayed only by another thread's successful exchange. A Pop
 that goes on alone ends from every reachable state in which no push has linked its node without writing the mPrev
 before it; in the other states it spins on purpose.
 */
module QueueProgress {
  import opened Element
  import opened QueueModel
  import opened QueueInvariant
  import opened QueueProof
  import opened QueueTheorems
  import opened QueueDestructor
  import A = AtomicContainer

  // ---- Push ----

  predicate InPush(l: Local) {
    l.AcqTop? || l.AcqNew? || l.AcqNext? || l.AcqCas? || l.PushValue? || l.PushTail? || l.PushNext? || l.PushCas? ||
    l.PushLink? || l.PushCount?
  }

  /** How many steps a Push still needs if no other thread moves mTail or mFreeNodeHead. */
  function ToPush(s: State, l: Local): nat {
    match l
    case AcqTop(_) => 9
    case AcqNew(_) => 7
    case AcqNext(_, top) => if s.free == top then 8 else 11
    case AcqCas(_, top, _) => if s.free == top then 7 else 10
    case PushValue(_, _) => 6
    case PushTail(_, _) => 5
    case PushNext(_, _, tail) => if s.tail == tail then 4 else 7
    case PushCas(_, _, tail) => if s.tail == tail then 3 else 6
    case PushLink(_, _, _) => 2
    case PushCount(_) => 1
    case _ => 0
  }

  /** Whatever memory `new` returns, a step of the thread itself brings its Push nearer to the return. */
  lemma ToPushFalls(s: State, t: nat, c: Choice)
    requires Enabled(s, t, c) && InPush(s.threads[t])
    ensures var s' := Exec(s, t, c);
            && |s'.threads| == |s.threads| && ToPush(s', s'.threads[t]) < ToPush(s, s.threads[t]) <= 11
            && (InPush(s'.threads[t]) || (s'.threads[t] == Idle && ActionOf(s, t, c) == A.ReturnPush))
  {
  }

  /** The choice that thread t's step needs: memory for `new`, and nothing otherwise. */
  function PushChoice(l: Local, addr: nat, garbage: Node): Choice {
    if l.AcqNew? then Allocate(addr, garbage) else Go
  }

  /** From any state at all, a Push that goes on alone returns. */
  lemma {:induction false} PushEndsAlone(s: State, t: nat, addr: nat, garbage: Node) returns (path: seq<State>)
    requires t < |s.threads| && InPush(s.threads[t]) && (Acquiring(s.threads[t]) ==> addr != NULL && addr !in s.mem)
    ensures 2 <= |path| <= 12 && |path| <= 1 + ToPush(s, s.threads[t]) && path[0] == s
    ensures forall i :: 0 <= i < |path| - 1 ==>
              && t < |path[i].threads| && Enabled(path[i], t, PushChoice(path[i].threads[t], addr, garbage))
              && path[i + 1] == Exec(path[i], t, PushChoice(path[i].threads[t], addr, garbage))
    ensures var last := path[|path| - 2]; Enabled(last, t, Go) && ActionOf(last, t, Go) == A.ReturnPush
    ensures t < |path[|path| - 1].threads| && path[|path| - 1].threads[t] == Idle
    decreases ToPush(s, s.threads[t])
  {
    var c := PushChoice(s.threads[t], addr, garbage);
    var s' := Exec(s, t, c);
    ToPushFalls(s, t, c);
    if s'.threads[t] == Idle {
      path := [s, s'];
    } else {
      KeysUntilNew(s, t, c);
      var more := PushEndsAlone(s', t, addr, garbage);
      path := [s] + more;
    }
  }

  /** In AcquireNode, which may come to call `new`. */
  predicate Acquiring(l: Local) {
    l.AcqTop? || l.AcqNew? || l.AcqNext? || l.AcqCas?
  }

  lemma KeysUntilNew(s: State, t: nat, c: Choice)
    requires Enabled(s, t, c) && InPush(s.threads[t])
    ensures var s' := Exec(s, t, c);
            |s'.threads| == |s.threads| && (Acquiring(s'.threads[t]) ==> Acquiring(s.threads[t]) && s'.mem == s.mem)
  {
  }

  /** How many of the steps from n0 to n are thread t's. */
  function StepsOf(sched: Schedule, t: nat, n0: nat, n: nat): nat
    requires n0 <= n <= |sched|
  {
    if n == n0 then 0 else StepsOf(sched, t, n0, n - 1) + if sched[n - 1].0 == t then 1 else 0
  }

  /** How many of them are another thread's moves of mTail or mFreeNodeHead. */
  function Defeats(run: seq<State>, sched: Schedule, t: nat, n0: nat, n: nat): nat
    requires n0 <= n <= |sched| < |run|
  {
    if n == n0 then 0
    else Defeats(run, sched, t, n0, n - 1) +
         if sched[n - 1].0 != t && (run[n].tail != run[n - 1].tail || run[n].free != run[n - 1].free) then 1 else 0
  }

  /** Thread t is inside one Push from step n0 on. */
  predicate Pushing(run: seq<State>, t: nat, n0: nat, n: nat)
    requires n0 <= n < |run|
  {
    forall i :: n0 <= i < n ==> t < |run[i].threads| && InPush(run[i].threads[t])
  }

  lemma OthersDelay(s: State, t: nat, u: nat, c: Choice)
    requires Enabled(s, u, c) && t < |s.threads| && t != u
    ensures var s' := Exec(s, u, c);
            && |s'.threads| == |s.threads| && s'.threads[t] == s.threads[t] && ToPush(s', s'.threads[t]) <= 11
            && (s'.tail == s.tail && s'.free == s.free ==> ToPush(s', s'.threads[t]) == ToPush(s, s.threads[t]))
  {
  }

  /** One step: whatever it is, it is paid for. */
  lemma Paid(s: State, u: nat, c: Choice, s': State, t: nat)
    requires Enabled(s, u, c) && s' == Exec(s, u, c) && t < |s.threads| && InPush(s.threads[t])
    ensures |s'.threads| == |s.threads|
    ensures ToPush(s', s'.threads[t]) + (if u == t then 1 else 0) <=
            ToPush(s, s.threads[t]) + (if u != t && (s'.tail != s.tail || s'.free != s.free) then 11 else 0)
  {
    if u == t {
      ToPushFalls(s, t, c);
    } else {
      OthersDelay(s, t, u, c);
    }
  }

  /** Step i leaves thread t nearer to its return, unless it is another thread's successful exchange. */
  predicate PaidAt(run: seq<State>, sched: Schedule, t: nat, i: nat)
    requires i < |sched| < |run|
  {
    var s, s' := run[i], run[i + 1];
    && t < |s.threads| == |s'.threads|
    && ToPush(s', s'.threads[t]) + (if sched[i].0 == t then 1 else 0) <=
         ToPush(s, s.threads[t]) + (if sched[i].0 != t && (s'.tail != s.tail || s'.free != s.free) then 11 else 0)
  }

  lemma AllPaid(run: seq<State>, sched: Schedule, t: nat, n0: nat, n: nat)
    requires IsRun(run, sched) && n0 <= n <= |sched| && Pushing(run, t, n0, n)
    ensures forall i :: n0 <= i < n ==> PaidAt(run, sched, t, i)
  {
    forall i | n0 <= i < n ensures PaidAt(run, sched, t, i) {
      Paid(run[i], sched[i].0, sched[i].1, run[i + 1], t);
    }
  }

  lemma AtMostEleven(s: State, l: Local)
    ensures ToPush(s, l) <= 11
  {
  }

  lemma {:induction false} Sum(run: seq<State>, sched: Schedule, t: nat, n0: nat, n: nat)
    requires n0 <= n <= |sched| < |run| && t < |run[n0].threads|
    requires forall i :: n0 <= i < n ==> PaidAt(run, sched, t, i)
    ensures t < |run[n].threads|
    ensures StepsOf(sched, t, n0, n) + ToPush(run[n], run[n].threads[t]) <= 11 + 11 * Defeats(run, sched, t, n0, n)
  {
    if n > n0 {
      Sum(run, sched, t, n0, n - 1);
      assert PaidAt(run, sched, t, n - 1);
    } else {
      AtMostEleven(run[n], run[n].threads[t]);
    }
  }

  /**
   Push is lock-free: it takes at most eleven steps of its own, and eleven more for every time that another
   thread's exchange has got in between.
   */
  lemma PushLockFree(run: seq<State>, sched: Schedule, t: nat, n0: nat, n: nat)
    requires IsRun(run, sched) && n0 <= n <= |sched| && t < |run[n0].threads| && Pushing(run, t, n0, n)
    ensures StepsOf(sched, t, n0, n) <= 11 + 11 * Defeats(run, sched, t, n0, n)
  {
    AllPaid(run, sched, t, n0, n);
    Sum(run, sched, t, n0, n);
  }

  // ---- Pop ----

  /** Before the exchange of mHead. */
  predicate InSearch(l: Local) {
    l.PopHead? || l.PopTail? || l.PopPrev? || l.PopCheck? || l.PopValue? || l.PopCas? || l.FixCheck? || l.FixNext? ||
    l.FixLink?
  }

  /** After it. */
  predicate InRelease(l: Local) {
    l.RelClear? || l.RelTop? || l.RelPrev? || l.RelNext? || l.RelCas? || l.PopCount?
  }

  predicate InPop(l: Local) {
    InSearch(l) || InRelease(l)
  }

  function Distance(from: Ptr, to: Ptr): nat {
    if from.tag <= to.tag then to.tag - from.tag else 0
  }

  /** The steps of a Pop from its first read on: fewest when the queue is empty, most when FixList has to walk it. */
  function FromHead(s: State): nat {
    if s.head == s.tail then 4
    else if Load(s.mem, s.head.addr).prev.tag == s.head.tag then 12
    else 17 + 3 * Distance(s.head, s.tail)
  }

  /** The same from the test of a hint on. */
  function FromCheck(head: Ptr, tail: Ptr, prev: Ptr): nat {
    if tail == head then 1 else if prev.tag == head.tag then 9 else 14 + 3 * Distance(head, tail)
  }

  /** How many steps a Pop still needs if no other thread moves. */
  function ToPop(s: State, l: Local): nat {
    match l
    case PopHead => FromHead(s)
    case PopTail(head) => if head == s.head then FromHead(s) - 1 else FromHead(s) + 3
    case PopPrev(head, tail) =>
      if head == s.head then 1 + FromCheck(head, tail, Load(s.mem, head.addr).prev) else FromHead(s) + 2
    case PopCheck(head, tail, prev) =>
      if head != s.head || (tail != head && prev.tag == INVALID_TAG) then FromHead(s) + 1 else FromCheck(head, tail, prev)
    case PopValue(head, _) => if head == s.head then 8 else FromHead(s) + 2
    case PopCas(head, _, _) => if head == s.head then 7 else FromHead(s) + 1
    case RelClear(_, _) => 6
    case RelTop(_, _) => 5
    case RelPrev(_, _, top) => if s.free == top then 4 else 8
    case RelNext(_, _, top) => if s.free == top then 3 else 7
    case RelCas(_, _, top) => if s.free == top then 2 else 6
    case PopCount(_) => 1
    case FixCheck(head, current) =>
      if head == s.head && current != head then 13 + 3 * Distance(head, current) else FromHead(s) + 1
    case FixNext(head, current) =>
      if head == s.head then 12 + 3 * Distance(head, current) else 20 + 3 * Distance(s.head, s.tail)
    case FixLink(head, current, _) =>
      if head == s.head then 11 + 3 * Distance(head, current) else 19 + 3 * Distance(s.head, s.tail)
    case _ => 0
  }

  /** The first node is not marked invalid, unless the queue is empty. */
  predicate HeadSound(s: State) {
    s.head == s.tail || Load(s.mem, s.head.addr).prev.tag != INVALID_TAG
  }

  /** The step of thread t brings its Pop nearer to the return. */
  predicate Nearer(s: State, t: nat)
    requires Enabled(s, t, Go)
  {
    var s' := Exec(s, t, Go);
    |s'.threads| == |s.threads| && ToPop(s', s'.threads[t]) < ToPop(s, s.threads[t])
  }

  lemma ReleaseNearer(s: State, t: nat)
    requires Enabled(s, t, Go) && InRelease(s.threads[t])
    ensures Nearer(s, t)
  {
  }

  lemma ReadNearer(s: State, g: Ghost, t: nat)
    requires Enabled(s, t, Go) && EndsOk(s, g) && Knows(s, g, t, s.threads[t]) && HeadSound(s)
    requires var l := s.threads[t]; l.PopHead? || l.PopTail? || l.PopPrev?
    ensures Nearer(s, t)
  {
  }

  lemma DecideNearer(s: State, g: Ghost, t: nat)
    requires Enabled(s, t, Go) && EndsOk(s, g) && Knows(s, g, t, s.threads[t])
    requires var l := s.threads[t]; l.PopCheck? || l.PopValue? || l.PopCas?
    ensures Nearer(s, t)
  {
  }

  lemma WalkNearer(s: State, g: Ghost, t: nat)
    requires Enabled(s, t, Go) && EndsOk(s, g) && Knows(s, g, t, s.threads[t])
    requires s.threads[t].FixCheck? || s.threads[t].FixNext?
    ensures Nearer(s, t)
  {
  }

  /** The last link that FixList writes makes the first hint match. */
  lemma LinkNearer(s: State, g: Ghost, t: nat)
    requires Enabled(s, t, Go) && EndsOk(s, g) && Knows(s, g, t, s.threads[t]) && s.threads[t].FixLink?
    ensures Nearer(s, t)
  {
  }

  lemma ToPopFalls(s: State, g: Ghost, t: nat)
    requires Enabled(s, t, Go) && EndsOk(s, g) && Knows(s, g, t, s.threads[t]) && HeadSound(s) && InPop(s.threads[t])
    ensures Nearer(s, t)
  {
    var l := s.threads[t];
    if InRelease(l) {
      ReleaseNearer(s, t);
    } else if l.PopHead? || l.PopTail? || l.PopPrev? {
      ReadNearer(s, g, t);
    } else if l.PopCheck? || l.PopValue? || l.PopCas? {
      DecideNearer(s, g, t);
    } else if l.FixCheck? || l.FixNext? {
      WalkNearer(s, g, t);
    } else {
      LinkNearer(s, g, t);
    }
  }

  /** What a Pop alone relies on. */
  predicate Ready(s: State, g: Ghost, t: nat)
    requires t < |s.threads|
  {
    Inv(s, g) && FreshTagsDiffer(s, g) && InPop(s.threads[t]) && (HeadSound(s) || InRelease(s.threads[t]))
  }

  lemma SearchLeads(s: State, t: nat)
    requires Enabled(s, t, Go) && InSearch(s.threads[t])
    ensures var s' := Exec(s, t, Go); |s'.threads| == |s.threads| && (InPop(s'.threads[t]) || s'.threads[t] == Idle)
  {
    match s.threads[t] {
      case PopCheck(head, tail, prev) => assert Exec(s, t, Go).threads[t] == Decide(s, head, tail, prev);
      case _ =>
    }
  }

  lemma ReleaseLeads(s: State, t: nat)
    requires Enabled(s, t, Go) && InRelease(s.threads[t])
    ensures var s' := Exec(s, t, Go); |s'.threads| == |s.threads| && (InRelease(s'.threads[t]) || s'.threads[t] == Idle)
  {
  }

  /** No step before the exchange marks the first node invalid. */
  lemma HeadStaysSound(s: State, g: Ghost, t: nat)
    requires Enabled(s, t, Go) && Knows(s, g, t, s.threads[t]) && HeadSound(s)
    requires InSearch(s.threads[t])
    ensures var s' := Exec(s, t, Go); |s'.threads| == |s.threads| && (HeadSound(s') || InRelease(s'.threads[t]))
  {
  }

  lemma ReadyStep(s: State, g: Ghost, t: nat, s': State, g': Ghost)
    requires Enabled(s, t, Go) && Ready(s, g, t) && s' == Exec(s, t, Go) && g' == Track(s, g, t, Go)
    ensures t < |s'.threads| && (Ready(s', g', t) || s'.threads[t] == Idle)
  {
    InvInductive(s, g, t, Go, s', g');
    FreshKept(s, g, t, Go);
    StaysInPop(s, g, t);
  }

  lemma StaysInPop(s: State, g: Ghost, t: nat)
    requires Enabled(s, t, Go) && Ready(s, g, t)
    ensures var s' := Exec(s, t, Go);
            && |s'.threads| == |s.threads|
            && (s'.threads[t] == Idle || (InPop(s'.threads[t]) && (HeadSound(s') || InRelease(s'.threads[t]))))
  {
    assert Knows(s, g, t, s.threads[t]);
    if InRelease(s.threads[t]) {
      ReleaseLeads(s, t);
    } else {
      SearchLeads(s, t);
      HeadStaysSound(s, g, t);
    }
  }

  /** The action by which a Pop returns. */
  predicate ReturnsFromPop(s: State, t: nat)
    requires Enabled(s, t, Go)
  {
    ActionOf(s, t, Go).ReturnEmpty? || ActionOf(s, t, Go).ReturnPop?
  }

  lemma PopLeaves(s: State, t: nat)
    requires Enabled(s, t, Go) && InPop(s.threads[t])
    ensures var s' := Exec(s, t, Go); |s'.threads| == |s.threads| && (s'.threads[t] == Idle ==> ReturnsFromPop(s, t))
  {
  }

  /** One step of a Pop alone. */
  lemma PopStep(s: State, g: Ghost, t: nat) returns (s': State, g': Ghost)
    requires t < |s.threads| && Ready(s, g, t)
    ensures Enabled(s, t, Go) && s' == Exec(s, t, Go) && t < |s'.threads|
    ensures ToPop(s', s'.threads[t]) < ToPop(s, s.threads[t])
    ensures Ready(s', g', t) || (s'.threads[t] == Idle && ReturnsFromPop(s, t))
  {
    s', g' := Exec(s, t, Go), Track(s, g, t, Go);
    ReadyNearer(s, g, t);
    PopLeaves(s, t);
    ReadyStep(s, g, t, s', g');
  }

  lemma ReadyNearer(s: State, g: Ghost, t: nat)
    requires Enabled(s, t, Go) && Ready(s, g, t)
    ensures Nearer(s, t)
  {
    assert Knows(s, g, t, s.threads[t]);
    if InRelease(s.threads[t]) {
      ReleaseNearer(s, t);
    } else {
      ToPopFalls(s, g, t);
    }
  }

  /** Steps of thread t alone, the last of them its return from Pop. */
  predicate PopsAlone(path: seq<State>, t: nat) {
    && |path| >= 2
    && (forall i :: 0 <= i < |path| - 1 ==> Enabled(path[i], t, Go) && path[i + 1] == Exec(path[i], t, Go))
    && ReturnsFromPop(path[|path| - 2], t)
    && t < |path[|path| - 1].threads| && path[|path| - 1].threads[t] == Idle
  }

  lemma Longer(s: State, t: nat, path: seq<State>)
    requires PopsAlone(path, t) && Enabled(s, t, Go) && path[0] == Exec(s, t, Go)
    ensures PopsAlone([s] + path, t)
  {
  }

  lemma Shortest(s: State, t: nat, s': State)
    requires Enabled(s, t, Go) && s' == Exec(s, t, Go) && ReturnsFromPop(s, t) && t < |s'.threads| && s'.threads[t] == Idle
    ensures PopsAlone([s, s'], t)
  {
  }

  /** The thread's next step, with at most `left` steps to go after it. */
  lemma {:induction false} PopPath(s: State, g: Ghost, t: nat, left: nat) returns (path: seq<State>)
    requires t < |s.threads| && Ready(s, g, t) && ToPop(s, s.threads[t]) <= left
    ensures PopsAlone(path, t) && path[0] == s && |path| <= 1 + left
    decreases left
  {
    var s', g' := PopStep(s, g, t);
    if s'.threads[t] == Idle {
      Shortest(s, t, s');
      path := [s, s'];
    } else {
      var more := PopPath(s', g', t, left - 1);
      Longer(s, t, more);
      path := [s] + more;
    }
  }

  lemma ToPopBound(s: State, g: Ghost, t: nat, l: Local)
    requires EndsOk(s, g) && Knows(s, g, t, l)
    ensures ToPop(s, l) <= 20 + 3 * |Contents(g)|
  {
  }

  /**
   From every reachable state in which the first node is not marked invalid, wherever all the threads stand, a Pop that
   goes on alone returns, within a bound that grows with the length of the queue only.
   */
  lemma PopEndsAlone(run: seq<State>, sched: Schedule, n: nat, t: nat) returns (path: seq<State>)
    requires IsRun(run, sched) && FreshMemoryOk(run, sched) && n <= |sched| && HeadSound(run[n])
    requires t < |run[n].threads| && InPop(run[n].threads[t])
    ensures PopsAlone(path, t) && path[0] == run[n]
    ensures var g := History(run, sched, n); g.front < |g.vals| && |path| <= 21 + 3 * |Contents(g)|
  {
    var s, g := run[n], History(run, sched, n);
    RunInvariant(run, sched, n);
    assert FreshAt(run, sched, n);
    path := PopPath(s, g, t, ToPop(s, s.threads[t]));
    assert Knows(s, g, t, s.threads[t]);
    ToPopBound(s, g, t, s.threads[t]);
  }

  /** No thread has linked a node without writing the mPrev before it. */
  predicate NoneLinking(s: State) {
    forall u :: 0 <= u < |s.threads| ==> !s.threads[u].PushLink?
  }

  /** So it is while no push is between its exchange of mTail and its write of mPrev. */
  lemma NoneLinkingSound(run: seq<State>, sched: Schedule, n: nat)
    requires IsRun(run, sched) && FreshMemoryOk(run, sched) && n <= |sched| && NoneLinking(run[n])
    ensures HeadSound(run[n])
  {
    RunInvariant(run, sched, n);
    MarksAlways(run, sched, n);
    FirstUnmarked(run[n], History(run, sched, n));
  }

  lemma FirstUnmarked(s: State, g: Ghost)
    requires EndsOk(s, g) && MarksExplained(s, g) && NoneLinking(s)
    ensures HeadSound(s)
  {
    assert s.head.addr == g.hist[g.front];
    assert !Linking(s, g.front);
  }

  // ---- otherwise Pop spins ----

  /** Thread t has gone round Pop's loop and found the invalid tag again; nothing else has changed. */
  predicate Spinning(s: State, s0: State, t: nat) {
    && t < |s0.threads| && |s.threads| == |s0.threads| && s == s0.(threads := s.threads)
    && (s.threads[t] == PopHead || s.threads[t] == PopTail(s.head) || s.threads[t] == PopPrev(s.head, s.tail)
        || s.threads[t] == PopCheck(s.head, s.tail, Load(s.mem, s.head.addr).prev))
  }

  lemma SpinsOn(s: State, s0: State, t: nat)
    requires Spinning(s, s0, t) && !HeadSound(s0) && Enabled(s, t, Go)
    ensures Spinning(Exec(s, t, Go), s0, t)
  {
  }

  lemma {:induction false} NeverEnds(path: seq<State>, t: nat, i: nat)
    requires PopsAlone(path, t) && i < |path| && t < |path[0].threads| && path[0].threads[t] == PopHead && !HeadSound(path[0])
    ensures Spinning(path[i], path[0], t)
  {
    if i > 0 {
      NeverEnds(path, t, i - 1);
      SpinsOn(path[i - 1], path[0], t);
    }
  }

  /** A thread at the start of its Pop ends it alone exactly when the first node is not marked invalid. */
  lemma PopEndsExactly(run: seq<State>, sched: Schedule, n: nat, t: nat)
    requires IsRun(run, sched) && FreshMemoryOk(run, sched) && n <= |sched|
    requires t < |run[n].threads| && run[n].threads[t] == PopHead
    ensures (exists path :: PopsAlone(path, t) && path[0] == run[n]) <==> HeadSound(run[n])
  {
    if HeadSound(run[n]) {
      var path := PopEndsAlone(run, sched, n, t);
    } else if path :| PopsAlone(path, t) && path[0] == run[n] {
      NeverEnds(path, t, |path| - 1);
      assert false;
    }
  }
}
