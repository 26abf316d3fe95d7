/** What holds of every run of the concurrent queue. */
module QueueTheorems {
  import opened Element
  import opened QueueModel
  import opened QueueInvariant
  import opened QueueProof
  import A = AtomicContainer

  // ---- runs ----

  /** Who moves at each step, and what the environment decides. */
  type Schedule = seq<(nat, Choice)>

  predicate IsRun(run: seq<State>, sched: Schedule) {
    && |run| == |sched| + 1
    && Initial(run[0])
    && forall i :: 0 <= i < |sched| ==>
         Enabled(run[i], sched[i].0, sched[i].1) && run[i + 1] == Exec(run[i], sched[i].0, sched[i].1)
  }

  /** The history variables after n steps. */
  function History(run: seq<State>, sched: Schedule, n: nat): Ghost
    requires IsRun(run, sched) && n <= |sched|
  {
    if n == 0 then Start(run[0])
    else Track(run[n - 1], History(run, sched, n - 1), sched[n - 1].0, sched[n - 1].1)
  }

  /** After n steps no uninitialised mPrev carries the tag under which its node is linked. */
  predicate FreshAt(run: seq<State>, sched: Schedule, n: nat)
    requires IsRun(run, sched) && n <= |sched|
  {
    FreshTagsDiffer(run[n], History(run, sched, n))
  }

  predicate FreshMemoryOk(run: seq<State>, sched: Schedule)
    requires IsRun(run, sched)
  {
    forall i :: 0 <= i <= |sched| ==> FreshAt(run, sched, i)
  }

  predicate InvAt(run: seq<State>, sched: Schedule, n: nat)
    requires IsRun(run, sched) && n <= |sched|
  {
    Inv(run[n], History(run, sched, n))
  }

  lemma Advance(run: seq<State>, sched: Schedule, n: nat)
    requires IsRun(run, sched) && n < |sched|
    requires FreshAt(run, sched, n) && InvAt(run, sched, n)
    ensures InvAt(run, sched, n + 1)
  {
    InvInductive(run[n], History(run, sched, n), sched[n].0, sched[n].1, run[n + 1], History(run, sched, n + 1));
  }

  lemma {:induction false} RunInvariant(run: seq<State>, sched: Schedule, n: nat)
    requires IsRun(run, sched) && FreshMemoryOk(run, sched) && n <= |sched|
    ensures InvAt(run, sched, n)
  {
    if n == 0 {
      InvInitial(run[0]);
    } else {
      RunInvariant(run, sched, n - 1);
      assert FreshAt(run, sched, n - 1);
      Advance(run, sched, n - 1);
    }
  }

  // ---- refinement of the atomic FIFO ----

  function StatusOf(l: Local): A.Status {
    match l
    case Idle => A.Quiet
    case AcqTop(e) => A.Pushing(e)
    case AcqNew(e) => A.Pushing(e)
    case AcqNext(e, _) => A.Pushing(e)
    case AcqCas(e, _, _) => A.Pushing(e)
    case PushValue(e, _) => A.Pushing(e)
    case PushTail(e, _) => A.Pushing(e)
    case PushNext(e, _, _) => A.Pushing(e)
    case PushCas(e, _, _) => A.Pushing(e)
    case PushLink(e, _, _) => A.Pushed(e)
    case PushCount(e) => A.Pushed(e)
    case PopPrev(head, tail) => A.Popping(tail == head)
    case PopCheck(head, tail, _) => A.Popping(tail == head)
    case RelClear(v, _) => A.Popped(v)
    case RelTop(v, _) => A.Popped(v)
    case RelPrev(v, _, _) => A.Popped(v)
    case RelNext(v, _, _) => A.Popped(v)
    case RelCas(v, _, _) => A.Popped(v)
    case PopCount(v) => A.Popped(v)
    case _ => A.Popping(false)
  }

  function Abstract(s: State, g: Ghost): A.Container {
    A.Container(if g.front < |g.vals| then Contents(g) else [],
                seq(|s.threads|, i requires 0 <= i < |s.threads| => StatusOf(s.threads[i])))
  }

  /** What thread t's step does to the abstract queue, read off the program state alone. */
  function ActionOf(s: State, t: nat, c: Choice): A.Action
    requires Enabled(s, t, c)
  {
    match s.threads[t]
    case Idle => if c.CallPush? then A.CallPush(c.elem) else A.CallPop
    case PushCas(e, _, tail) => if s.tail == tail then A.Insert(e) else A.Internal
    case PushCount(_) => A.ReturnPush
    case PopTail(head) => if s.tail == head then A.SeeEmpty else A.Internal
    case PopCheck(head, tail, prev) =>
      if tail != head then A.Internal else if head == s.head then A.ReturnEmpty else A.Forget
    case PopCas(head, _, got) => if s.head == head then A.Remove(got) else A.Internal
    case PopCount(v) => A.ReturnPop(v)
    case _ => A.Internal
  }

  lemma StatusMoves(s: State, g: Ghost, t: nat, s': State, g': Ghost)
    requires t < |s.threads| && |s'.threads| == |s.threads|
    requires forall u :: 0 <= u < |s.threads| && u != t ==> s'.threads[u] == s.threads[u]
    ensures Abstract(s', g').status == Abstract(s, g).status[t := StatusOf(s'.threads[t])]
  {
  }

  lemma StatusFollows(s: State, t: nat, c: Choice)
    requires Enabled(s, t, c)
    ensures A.StatusStep(StatusOf(s.threads[t]), ActionOf(s, t, c), StatusOf(Exec(s, t, c).threads[t]))
  {
    match s.threads[t] {
      case PopCheck(head, tail, prev) =>
      case _ =>
    }
  }

  lemma OneThreadMoves(s: State, t: nat, c: Choice)
    requires Enabled(s, t, c)
    ensures |Exec(s, t, c).threads| == |s.threads|
    ensures Exec(s, t, c).threads == s.threads[t := Exec(s, t, c).threads[t]]
  {
  }

  lemma StepRefines(s: State, g: Ghost, t: nat, c: Choice)
    requires EndsOk(s, g) && Enabled(s, t, c) && Knows(s, g, t, s.threads[t])
    ensures A.Step(A.Fifo, Abstract(s, g), t, ActionOf(s, t, c), Abstract(Exec(s, t, c), Track(s, g, t, c)))
  {
    StatusFollows(s, t, c);
    OneThreadMoves(s, t, c);
    StatusMoves(s, g, t, Exec(s, t, c), Track(s, g, t, c));
    ContentsMove(s, g, t, c);
  }

  lemma ContentsMove(s: State, g: Ghost, t: nat, c: Choice)
    requires EndsOk(s, g) && Enabled(s, t, c) && Knows(s, g, t, s.threads[t])
    ensures var g' := Track(s, g, t, c);
            g'.front < |g'.vals| && A.ContentsStep(A.Fifo, Contents(g), ActionOf(s, t, c), Contents(g'))
  {
  }

  function Abstraction(run: seq<State>, sched: Schedule): seq<A.Container>
    requires IsRun(run, sched)
  {
    seq(|run|, i requires 0 <= i < |run| => Abstract(run[i], History(run, sched, i)))
  }

  function Events(run: seq<State>, sched: Schedule): seq<A.Event>
    requires IsRun(run, sched)
  {
    seq(|sched|, i requires 0 <= i < |sched| => (sched[i].0, ActionOf(run[i], sched[i].0, sched[i].1)))
  }

  /** Linearizability: every run is a run of the atomic FIFO queue. */
  lemma QueueLinearizable(run: seq<State>, sched: Schedule)
    requires IsRun(run, sched) && FreshMemoryOk(run, sched)
    ensures A.IsTrace(A.Fifo, Abstraction(run, sched), Events(run, sched))
  {
    var states, events := Abstraction(run, sched), Events(run, sched);
    assert states[0] == Abstract(run[0], Start(run[0]));
    forall i | 0 <= i < |events| ensures A.Step(A.Fifo, states[i], events[i].0, events[i].1, states[i + 1]) {
      RunInvariant(run, sched, i);
      StepRefines(run[i], History(run, sched, i), sched[i].0, sched[i].1);
    }
  }

  // ---- the hint, the memory and the nodes ----

  predicate HintTrue(s: State, g: Ghost, p: nat)
    requires p < |g.hist|
  {
    && g.hist[p] in s.mem
    && (s.mem[g.hist[p]].prev.tag == p ==>
          p + 1 < |g.hist| && s.mem[g.hist[p]].prev.addr == g.hist[p + 1])
  }

  lemma LiveHintTrue(s: State, g: Ghost, p: nat)
    requires AllocOk(s, g) && RolesOk(s, g) && PrevOk(s, g) && FreshTagsDiffer(s, g)
    requires g.front <= p < |g.hist|
    ensures HintTrue(s, g, p)
  {
    assert g.role[g.hist[p]] == Live(p);
  }

  /** The optimistic hint: a live node whose mPrev tag matches its own tag has a true mPrev. */
  lemma HintsNeverLie(run: seq<State>, sched: Schedule, n: nat, p: nat)
    requires IsRun(run, sched) && FreshMemoryOk(run, sched) && n <= |sched|
    requires var g := History(run, sched, n); g.front <= p < |g.hist|
    ensures HintTrue(run[n], History(run, sched, n), p)
  {
    RunInvariant(run, sched, n);
    assert FreshAt(run, sched, n);
    LiveHintTrue(run[n], History(run, sched, n), p);
  }

  lemma KnownAddress(s: State, g: Ghost, t: nat, l: Local)
    requires AllocOk(s, g) && Knows(s, g, t, l) && Dereferences(l)
    ensures Accessed(l) in s.mem
  {
  }

  /** No step reads or writes memory outside the allocated nodes. */
  lemma NoWildAccess(run: seq<State>, sched: Schedule, n: nat, t: nat)
    requires IsRun(run, sched) && FreshMemoryOk(run, sched) && n <= |sched| && t < |run[n].threads|
    requires Dereferences(run[n].threads[t])
    ensures Accessed(run[n].threads[t]) in run[n].mem
  {
    RunInvariant(run, sched, n);
    KnownAddress(run[n], History(run, sched, n), t, run[n].threads[t]);
  }

  function Segment(g: Ghost): set<nat> {
    set p | g.front <= p < |g.hist| :: g.hist[p]
  }

  function Pooled(g: Ghost): set<nat> {
    set i | 0 <= i < |g.pool| :: g.pool[i]
  }

  function Held(s: State): set<nat> {
    set t | 0 <= t < |s.threads| && Holding(s.threads[t]) :: Holds(s.threads[t])
  }

  /** Each allocated node is in exactly one place, and in that place once. */
  predicate Partitioned(s: State, g: Ghost) {
    && s.mem.Keys == Segment(g) + Pooled(g) + Held(s)
    && Segment(g) !! Pooled(g) && Segment(g) !! Held(s) && Pooled(g) !! Held(s)
    && (forall p, q :: g.front <= p < q < |g.hist| ==> g.hist[p] != g.hist[q])
    && (forall i, j :: 0 <= i < j < |g.pool| ==> g.pool[i] != g.pool[j])
    && (forall t, u :: 0 <= t < u < |s.threads| && Holding(s.threads[t]) && Holding(s.threads[u]) ==>
          Holds(s.threads[t]) != Holds(s.threads[u]))
  }

  lemma HeldRole(s: State, g: Ghost, t: nat)
    requires Inv(s, g) && t < |s.threads| && Holding(s.threads[t])
    ensures Mine(g, t, Holds(s.threads[t]))
  {
    assert Knows(s, g, t, s.threads[t]);
  }

  lemma RolesPartition(s: State, g: Ghost)
    requires AllocOk(s, g) && RolesOk(s, g)
    requires forall t :: 0 <= t < |s.threads| && Holding(s.threads[t]) ==> Mine(g, t, Holds(s.threads[t]))
    ensures Partitioned(s, g)
  {
    forall a | a in s.mem ensures a in Segment(g) + Pooled(g) + Held(s) {
      assert RoleTrue(s, g, a);
    }
  }

  /** Node conservation: no run loses, duplicates or shares a node. */
  lemma NodesConserved(run: seq<State>, sched: Schedule, n: nat)
    requires IsRun(run, sched) && FreshMemoryOk(run, sched) && n <= |sched|
    ensures Partitioned(run[n], History(run, sched, n))
  {
    RunInvariant(run, sched, n);
    var s, g := run[n], History(run, sched, n);
    forall t | 0 <= t < |s.threads| && Holding(s.threads[t]) ensures Mine(g, t, Holds(s.threads[t])) {
      HeldRole(s, g, t);
    }
    RolesPartition(s, g);
  }

  // ---- size accounting ----

  /** The counter update a thread still owes: +1 after its push took effect, -1 after its pop did. */
  function Due(l: Local): int {
    match StatusOf(l)
    case Pushed(_) => 1
    case Popped(_) => -1
    case _ => 0
  }

  function Owed(threads: seq<Local>): int {
    if threads == [] then 0 else Due(threads[0]) + Owed(threads[1..])
  }

  lemma {:induction false} OwedUpdate(threads: seq<Local>, t: nat, l: Local)
    requires t < |threads|
    ensures Owed(threads[t := l]) == Owed(threads) - Due(threads[t]) + Due(l)
  {
    if t == 0 {
      assert threads[t := l][1..] == threads[1..];
    } else {
      assert threads[t := l][1..] == threads[1..][t - 1 := l];
      OwedUpdate(threads[1..], t - 1, l);
    }
  }

  lemma {:induction false} OwedIdle(threads: seq<Local>)
    requires forall t :: 0 <= t < |threads| ==> threads[t] == Idle
    ensures Owed(threads) == 0
  {
    if threads != [] {
      OwedIdle(threads[1..]);
    }
  }

  /** mSize, modulo 2^64, is the queue length corrected by the updates still owed. */
  predicate SizeOk(s: State, g: Ghost) {
    g.front < |g.vals| && s.size == (|Contents(g)| - Owed(s.threads)) % 0x1_0000_0000_0000_0000
  }

  function Counted(l: Local): int {
    if l.PushCount? then 1 else if l.PopCount? then -1 else 0
  }

  lemma CounterMoves(s: State, t: nat, c: Choice)
    requires Enabled(s, t, c)
    ensures var n := Counted(s.threads[t]);
            Exec(s, t, c).size == if n == 0 then s.size else (s.size + n) % SIZE_MODULUS
  {
  }

  /** What a step does to the length is what it adds to its debt or pays to the counter. */
  lemma DebtMoves(s: State, g: Ghost, t: nat, c: Choice)
    requires EndsOk(s, g) && Enabled(s, t, c) && Knows(s, g, t, s.threads[t])
    ensures var g' := Track(s, g, t, c);
            && g'.front < |g'.vals|
            && |Contents(g')| - |Contents(g)| ==
                 Due(Exec(s, t, c).threads[t]) - Due(s.threads[t]) + Counted(s.threads[t])
  {
    ContentsMove(s, g, t, c);
    StatusFollows(s, t, c);
  }

  lemma SizeStep(s: State, g: Ghost, t: nat, c: Choice)
    requires EndsOk(s, g) && Enabled(s, t, c) && Knows(s, g, t, s.threads[t]) && SizeOk(s, g)
    ensures SizeOk(Exec(s, t, c), Track(s, g, t, c))
  {
    OneThreadMoves(s, t, c);
    OwedUpdate(s.threads, t, Exec(s, t, c).threads[t]);
    CounterMoves(s, t, c);
    DebtMoves(s, g, t, c);
  }

  lemma {:induction false} SizeAccounts(run: seq<State>, sched: Schedule, n: nat)
    requires IsRun(run, sched) && FreshMemoryOk(run, sched) && n <= |sched|
    ensures SizeOk(run[n], History(run, sched, n))
  {
    if n == 0 {
      OwedIdle(run[0].threads);
    } else {
      SizeAccounts(run, sched, n - 1);
      RunInvariant(run, sched, n - 1);
      SizeStep(run[n - 1], History(run, sched, n - 1), sched[n - 1].0, sched[n - 1].1);
    }
  }

  /** What Push returns: the counter after its own increment. */
  function PushResult(s: State): int {
    (s.size + 1) % SIZE_MODULUS
  }

  lemma {:induction false} OwedAlone(threads: seq<Local>, t: nat)
    requires t < |threads| && forall u :: 0 <= u < |threads| && u != t ==> threads[u] == Idle
    ensures Owed(threads) == Due(threads[t])
  {
    if t == 0 {
      OwedIdle(threads[1..]);
    } else {
      OwedAlone(threads[1..], t - 1);
    }
  }

  predicate Undisturbed(s: State, t: nat) {
    forall u :: 0 <= u < |s.threads| && u != t ==> s.threads[u] == Idle
  }

  /** The queue length less what the other threads still owe the counter. */
  predicate CountTrue(s: State, g: Ghost, count: int) {
    g.front < |g.vals| && count == (|Contents(g)| - (Owed(s.threads) - 1)) % 0x1_0000_0000_0000_0000
  }

  lemma CountFollows(s: State, g: Ghost)
    requires SizeOk(s, g)
    ensures CountTrue(s, g, PushResult(s))
  {
    var n := |Contents(g)| - Owed(s.threads);
    assert (n % SIZE_MODULUS + 1) % SIZE_MODULUS == (n + 1) % SIZE_MODULUS;
  }

  /** Push returns the length less what others owe: the very length when no other operation is under way. */
  lemma PushReturnsCount(run: seq<State>, sched: Schedule, n: nat, t: nat)
    requires IsRun(run, sched) && FreshMemoryOk(run, sched) && n <= |sched|
    requires t < |run[n].threads| && run[n].threads[t].PushCount?
    ensures CountTrue(run[n], History(run, sched, n), PushResult(run[n]))
    ensures Undisturbed(run[n], t) ==> PushResult(run[n]) == |Contents(History(run, sched, n))| % 0x1_0000_0000_0000_0000
  {
    SizeAccounts(run, sched, n);
    CountFollows(run[n], History(run, sched, n));
    if Undisturbed(run[n], t) {
      OwedAlone(run[n].threads, t);
    }
  }
}
