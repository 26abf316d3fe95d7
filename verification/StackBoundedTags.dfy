/**
 The stack with the code's wrapping tags. A run whose every compare-exchange comes before the
 remembered head has changed as often as there are tags behaves as with unbounded tags.
 */
module StackBoundedTags {
  import opened Element
  import opened StackModel
  import opened StackInvariant
  import opened StackTheorems
  import P = StackProof
  import A = AtomicContainer
  import opened Arithmetic

  // ---- forgetting the high part of every tag ----

  function WrapPtr(m: nat, p: Ptr): Ptr
    requires m > 0
  {
    Ptr(p.index, p.tag % m)
  }

  function WrapLocal(m: nat, l: Local): Local
    requires m > 0
  {
    match l
    case AcqNext(e, top) => AcqNext(e, WrapPtr(m, top))
    case AcqCas(e, top, after) => AcqCas(e, WrapPtr(m, top), after)
    case PushNext(e, n, top) => PushNext(e, n, WrapPtr(m, top))
    case PushCas(e, n, top) => PushCas(e, n, WrapPtr(m, top))
    case PopNext(top) => PopNext(WrapPtr(m, top))
    case PopCas(top, after) => PopCas(WrapPtr(m, top), after)
    case RelNext(v, n, top) => RelNext(v, n, WrapPtr(m, top))
    case RelCas(v, n, top) => RelCas(v, n, WrapPtr(m, top))
    case _ => l
  }

  function Wrap(m: nat, s: State): State
    requires m > 0
  {
    State(s.nodes, WrapPtr(m, s.head), WrapPtr(m, s.free), s.size,
          seq(|s.threads|, i requires 0 <= i < |s.threads| => WrapLocal(m, s.threads[i])))
  }

  /** The list whose head a thread remembers, if any. */
  datatype Watch = Nothing | Stack | Pool

  function Watches(l: Local): Watch {
    match l
    case AcqNext(_, _) => Pool
    case AcqCas(_, _, _) => Pool
    case PushNext(_, _, _) => Stack
    case PushCas(_, _, _) => Stack
    case PopNext(_) => Stack
    case PopCas(_, _) => Stack
    case RelNext(_, _, _) => Pool
    case RelCas(_, _, _) => Pool
    case _ => Nothing
  }

  function HeadOf(s: State, w: Watch): Ptr {
    if w.Pool? then s.free else s.head
  }

  function TopOf(l: Local): Ptr
    requires !Watches(l).Nothing?
  {
    l.top
  }

  predicate Exchanging(l: Local) {
    l.AcqCas? || l.PushCas? || l.PopCas? || l.RelCas?
  }

  /** The wrapped comparison of thread t's compare-exchange comes out as the unwrapped one. */
  predicate Distinguishes(m: nat, s: State, l: Local)
    requires m > 0
  {
    Exchanging(l) ==>
      var now, top := HeadOf(s, Watches(l)), TopOf(l);
      WrapPtr(m, now) == WrapPtr(m, top) ==> now == top
  }

  lemma BumpWraps(m: nat, tag: nat)
    requires m > 1
    ensures Bump(m, tag % m) == Bump(0, tag) % m != tag % m
  {
    NextRemainder(tag, m);
  }

  lemma WrapGoto(m: nat, s: State, t: nat, l: Local)
    requires m > 0 && t < |s.threads|
    ensures Wrap(m, Goto(s, t, l)) == Goto(Wrap(m, s), t, WrapLocal(m, l))
  {
    assert Wrap(m, s).threads[t := WrapLocal(m, l)] == Wrap(m, Goto(s, t, l)).threads;
  }

  /** The fields of the wrapped state. */
  lemma WrapFields(m: nat, s: State, t: nat)
    requires m > 0 && t < |s.threads|
    ensures |Wrap(m, s).threads| == |s.threads| && Wrap(m, s).threads[t] == WrapLocal(m, s.threads[t])
  {
  }

  lemma QuietCommutes(m: nat, s: State, t: nat, c: Choice)
    requires m > 1 && Enabled(s, t, c) && !Exchanging(s.threads[t])
    ensures Enabled(Wrap(m, s), t, c)
    ensures Exec(m, Wrap(m, s), t, c) == Wrap(m, Exec(0, s, t, c))
  {
    WrapFields(m, s, t);
    WrapGoto(m, s, t, Exec(0, s, t, c).threads[t]);
  }

  lemma ExchangeCommutes(m: nat, s: State, t: nat, c: Choice)
    requires m > 1 && Enabled(s, t, c) && Distinguishes(m, s, s.threads[t]) && Exchanging(s.threads[t])
    ensures Enabled(Wrap(m, s), t, c)
    ensures Exec(m, Wrap(m, s), t, c) == Wrap(m, Exec(0, s, t, c))
  {
    WrapFields(m, s, t);
    WrapGoto(m, s, t, Exec(0, s, t, c).threads[t]);
    BumpWraps(m, TopOf(s.threads[t]).tag);
  }

  lemma ActionCommutes(m: nat, s: State, t: nat, c: Choice)
    requires m > 1 && Enabled(s, t, c) && Enabled(Wrap(m, s), t, c) && Distinguishes(m, s, s.threads[t])
    ensures ActionOf(Wrap(m, s), t, c) == ActionOf(s, t, c)
  {
    WrapFields(m, s, t);
  }

  /** One wrapped step is the wrapped image of one unbounded step. */
  lemma StepCommutes(m: nat, s: State, t: nat, c: Choice)
    requires m > 1 && Enabled(s, t, c) && Distinguishes(m, s, s.threads[t])
    ensures Enabled(Wrap(m, s), t, c)
    ensures Exec(m, Wrap(m, s), t, c) == Wrap(m, Exec(0, s, t, c))
    ensures ActionOf(Wrap(m, s), t, c) == ActionOf(s, t, c)
  {
    if Exchanging(s.threads[t]) {
      ExchangeCommutes(m, s, t, c);
    } else {
      QuietCommutes(m, s, t, c);
    }
    ActionCommutes(m, s, t, c);
  }

  // ---- how stale a remembered head may get ----

  /** How often the head that thread t remembers after n steps has changed since t read it. */
  function Stale(run: seq<State>, sched: Schedule, t: nat, n: nat): nat
    requires |run| == |sched| + 1 && n <= |sched|
  {
    if n == 0 || t >= |run[n - 1].threads| then 0
    else
      var w := Watches(run[n - 1].threads[t]);
      if w.Nothing? then 0
      else Stale(run, sched, t, n - 1) + if HeadOf(run[n], w) != HeadOf(run[n - 1], w) then 1 else 0
  }

  predicate Uniform(run: seq<State>) {
    forall i :: 0 <= i < |run| ==> |run[i].threads| == |run[0].threads|
  }

  lemma RunUniform(m: nat, order: seq<nat>, run: seq<State>, sched: Schedule)
    requires IsRun(m, order, run, sched)
    ensures Uniform(run)
  {
    forall i | 0 <= i < |run| ensures |run[i].threads| == |run[0].threads| {
      RunUniformAt(m, order, run, sched, i);
    }
  }

  lemma {:induction false} RunUniformAt(m: nat, order: seq<nat>, run: seq<State>, sched: Schedule, n: nat)
    requires IsRun(m, order, run, sched) && n <= |sched|
    ensures |run[n].threads| == |run[0].threads|
  {
    if n > 0 {
      RunUniformAt(m, order, run, sched, n - 1);
      P.SameThreads(m, run[n - 1], sched[n - 1].0, sched[n - 1].1);
    }
  }

  /** Every compare-exchange comes before its remembered head has changed m times. */
  predicate TagsOutlast(m: nat, run: seq<State>, sched: Schedule)
    requires |run| == |sched| + 1
  {
    forall n :: 0 <= n < |sched| && sched[n].0 < |run[n].threads| && Exchanging(run[n].threads[sched[n].0]) ==>
      Stale(run, sched, sched[n].0, n) < m
  }

  // ---- the shadow run with unbounded tags ----

  /** The run of the same schedule with unbounded tags. */
  function Shadow(order: seq<nat>, run: seq<State>, sched: Schedule, n: nat): State
    requires |run| == |sched| + 1 && n <= |sched|
  {
    if n == 0 then run[0].(free := Ptr(run[0].free.index, |order|))
    else
      var s := Shadow(order, run, sched, n - 1);
      if Enabled(s, sched[n - 1].0, sched[n - 1].1) then Exec(0, s, sched[n - 1].0, sched[n - 1].1) else s
  }

  /** The shadow's tags count the head changes that the thread has missed. */
  predicate AgesTrue(run: seq<State>, sched: Schedule, s: State, n: nat)
    requires |run| == |sched| + 1 && n <= |sched| && |s.threads| == |run[0].threads|
  {
    forall t :: 0 <= t < |s.threads| && !Watches(s.threads[t]).Nothing? ==>
      HeadOf(s, Watches(s.threads[t])).tag == TopOf(s.threads[t]).tag + Stale(run, sched, t, n)
  }

  /** A head with a small enough age is told apart by its wrapped tag. */
  lemma YoungDistinguished(m: nat, s: State, l: Local, age: nat)
    requires m > 1 && Exchanging(l) && age < m
    requires HeadOf(s, Watches(l)).tag == TopOf(l).tag + age
    ensures Distinguishes(m, s, l)
  {
    var now, top := HeadOf(s, Watches(l)).tag, TopOf(l).tag;
    if now % m == top % m {
      NearbyDiffer(top, age, m);
    }
  }

  /** How one unbounded step moves a head: the tag grows by one exactly when the head changes. */
  predicate HeadStep(s: State, s': State, w: Watch) {
    HeadOf(s', w) == HeadOf(s, w) || HeadOf(s', w).tag == HeadOf(s, w).tag + 1
  }

  lemma HeadsStep(s: State, t: nat, c: Choice, s': State, w: Watch)
    requires Enabled(s, t, c) && s' == Exec(0, s, t, c)
    ensures HeadStep(s, s', w)
  {
  }

  lemma WrappedHeadStep(m: nat, s: State, s': State, w: Watch)
    requires m > 1 && HeadStep(s, s', w)
    ensures HeadOf(Wrap(m, s'), w) != HeadOf(Wrap(m, s), w) <==> HeadOf(s', w) != HeadOf(s, w)
  {
    BumpWraps(m, HeadOf(s, w).tag);
  }

  /** A thread that starts to remember a head has just read it; otherwise it keeps what it has. */
  lemma WatchMoves(s: State, t: nat, c: Choice, s': State, u: nat)
    requires Enabled(s, t, c) && s' == Exec(0, s, t, c) && u < |s.threads| == |s'.threads|
    requires !Watches(s'.threads[u]).Nothing?
    ensures var w := Watches(s'.threads[u]);
            if Watches(s.threads[u]).Nothing?
            then TopOf(s'.threads[u]) == HeadOf(s, w) == HeadOf(s', w)
            else Watches(s.threads[u]) == w && TopOf(s'.threads[u]) == TopOf(s.threads[u])
  {
  }

  /** The age of a remembered head grows with each change that the thread misses. */
  lemma StaleStep(m: nat, run: seq<State>, sched: Schedule, s: State, s': State, n: nat, u: nat)
    requires m > 1 && |run| == |sched| + 1 && n < |sched| && u < |s.threads|
    requires Wrap(m, s) == run[n] && Wrap(m, s') == run[n + 1]
    ensures var w := Watches(s.threads[u]);
            HeadStep(s, s', w) ==>
              Stale(run, sched, u, n + 1) ==
                if w.Nothing? then 0
                else Stale(run, sched, u, n) + if HeadOf(s', w) != HeadOf(s, w) then 1 else 0
  {
    var w := Watches(s.threads[u]);
    WrapFields(m, s, u);
    if HeadStep(s, s', w) {
      WrappedHeadStep(m, s, s', w);
    }
  }

  lemma AgesStep(m: nat, run: seq<State>, sched: Schedule, s: State, s': State, n: nat)
    requires m > 1 && |run| == |sched| + 1 && n < |sched|
    requires Enabled(s, sched[n].0, sched[n].1) && s' == Exec(0, s, sched[n].0, sched[n].1)
    requires |s.threads| == |s'.threads| == |run[0].threads|
    requires Wrap(m, s) == run[n] && Wrap(m, s') == run[n + 1] && AgesTrue(run, sched, s, n)
    ensures AgesTrue(run, sched, s', n + 1)
  {
    forall u | 0 <= u < |s'.threads| && !Watches(s'.threads[u]).Nothing?
      ensures HeadOf(s', Watches(s'.threads[u])).tag == TopOf(s'.threads[u]).tag + Stale(run, sched, u, n + 1)
    {
      WatchMoves(s, sched[n].0, sched[n].1, s', u);
      HeadsStep(s, sched[n].0, sched[n].1, s', Watches(s.threads[u]));
      StaleStep(m, run, sched, s, s', n, u);
    }
  }

  predicate Shadowed(m: nat, order: seq<nat>, run: seq<State>, sched: Schedule, n: nat)
    requires m > 1 && |run| == |sched| + 1 && n <= |sched|
  {
    var s := Shadow(order, run, sched, n);
    Wrap(m, s) == run[n] && |s.threads| == |run[0].threads| && AgesTrue(run, sched, s, n)
  }

  lemma ShadowStep(m: nat, order: seq<nat>, run: seq<State>, sched: Schedule, n: nat)
    requires m > 1 && IsRun(m, order, run, sched) && TagsOutlast(m, run, sched)
    requires n < |sched| && Shadowed(m, order, run, sched, n)
    ensures var s := Shadow(order, run, sched, n);
            && Enabled(s, sched[n].0, sched[n].1)
            && Shadow(order, run, sched, n + 1) == Exec(0, s, sched[n].0, sched[n].1)
            && ActionOf(run[n], sched[n].0, sched[n].1) == ActionOf(s, sched[n].0, sched[n].1)
    ensures Shadowed(m, order, run, sched, n + 1)
  {
    var s, t, c := Shadow(order, run, sched, n), sched[n].0, sched[n].1;
    assert Enabled(run[n], t, c);
    WrapFields(m, s, t);
    if Exchanging(s.threads[t]) {
      YoungDistinguished(m, s, s.threads[t], Stale(run, sched, t, n));
    }
    StepCommutes(m, s, t, c);
    P.SameThreads(0, s, t, c);
    RunUniform(m, order, run, sched);
    AgesStep(m, run, sched, s, Exec(0, s, t, c), n);
  }

  lemma {:induction false} ShadowFollows(m: nat, order: seq<nat>, run: seq<State>, sched: Schedule, n: nat)
    requires m > 1 && IsRun(m, order, run, sched) && TagsOutlast(m, run, sched) && n <= |sched|
    ensures Shadowed(m, order, run, sched, n)
  {
    if n == 0 {
      ShadowStart(m, order, run, sched);
    } else {
      ShadowFollows(m, order, run, sched, n - 1);
      ShadowStep(m, order, run, sched, n - 1);
    }
  }

  lemma ShadowStart(m: nat, order: seq<nat>, run: seq<State>, sched: Schedule)
    requires m > 1 && IsRun(m, order, run, sched)
    ensures Shadowed(m, order, run, sched, 0)
  {
    var s := Shadow(order, run, sched, 0);
    assert 0 % m == 0 by { Division(0, m, 0, 0); }
    assert Wrap(m, s).threads == run[0].threads;
  }

  /** Every run with m tags and timely exchanges is the wrapped image of a run with unbounded tags,
      step by step and action by action. */
  lemma BoundedTagsSimulate(m: nat, order: seq<nat>, run: seq<State>, sched: Schedule)
    returns (shadow: seq<State>)
    requires m > 1 && IsRun(m, order, run, sched) && TagsOutlast(m, run, sched)
    ensures IsRun(0, order, shadow, sched)
    ensures forall i :: 0 <= i < |run| ==> Wrap(m, shadow[i]) == run[i]
    ensures Events(0, order, shadow, sched) == Events(m, order, run, sched)
  {
    shadow := seq(|run|, i requires 0 <= i < |run| => Shadow(order, run, sched, i));
    forall i | 0 <= i < |run| ensures Wrap(m, shadow[i]) == run[i] {
      ShadowFollows(m, order, run, sched, i);
    }
    forall i | 0 <= i < |sched|
      ensures Enabled(shadow[i], sched[i].0, sched[i].1)
      ensures shadow[i + 1] == Exec(0, shadow[i], sched[i].0, sched[i].1)
      ensures ActionOf(run[i], sched[i].0, sched[i].1) == ActionOf(shadow[i], sched[i].0, sched[i].1)
    {
      ShadowFollows(m, order, run, sched, i);
      ShadowStep(m, order, run, sched, i);
    }
  }

  /** Linearizability of the code's stack, with its 32-bit tags. */
  lemma BoundedStackLinearizable(order: seq<nat>, run: seq<State>, sched: Schedule)
    returns (states: seq<A.Container>)
    requires IsRun(TAG_MODULUS, order, run, sched) && TagsOutlast(TAG_MODULUS, run, sched)
    ensures A.IsTrace(A.Lifo, states, Events(TAG_MODULUS, order, run, sched))
  {
    var shadow := BoundedTagsSimulate(TAG_MODULUS, order, run, sched);
    StackLinearizable(order, shadow, sched);
    states := Abstraction(order, shadow, sched);
  }

  // ---- the other theorems, with the code's tags ----

  lemma WrapHolds(m: nat, s: State)
    requires m > 0
    ensures |Wrap(m, s).threads| == |s.threads|
    ensures forall t :: 0 <= t < |s.threads| ==>
              && Holding(Wrap(m, s).threads[t]) == Holding(s.threads[t])
              && Holds(Wrap(m, s).threads[t]) == Holds(s.threads[t])
  {
  }

  lemma SameHeld(m: nat, s: State)
    requires m > 0
    ensures Held(Wrap(m, s)) == Held(s)
  {
    WrapHolds(m, s);
  }

  lemma WrapPartitioned(m: nat, s: State, g: Ghost)
    requires m > 0 && Partitioned(s, g)
    ensures Partitioned(Wrap(m, s), g)
  {
    WrapHolds(m, s);
    SameHeld(m, s);
  }

  lemma {:induction false} WrapOwed(m: nat, s: State, threads: seq<Local>, wrapped: seq<Local>)
    requires m > 0 && |wrapped| == |threads| && forall t :: 0 <= t < |threads| ==> wrapped[t] == WrapLocal(m, threads[t])
    ensures Owed(Wrap(m, s), wrapped) == Owed(s, threads)
    decreases |threads|
  {
    if threads != [] {
      assert StatusOf(Wrap(m, s), wrapped[0]) == StatusOf(s, threads[0]);
      WrapOwed(m, s, threads[1..], wrapped[1..]);
    }
  }

  lemma WrapSize(m: nat, s: State, g: Ghost)
    requires m > 0 && SizeOk(s, g)
    ensures SizeOk(Wrap(m, s), g)
  {
    WrapOwed(m, s, s.threads, Wrap(m, s).threads);
  }

  /** Partition and size accounting for the code's stack, whatever the step. */
  lemma BoundedStackAccounts(order: seq<nat>, run: seq<State>, sched: Schedule, n: nat) returns (g: Ghost)
    requires IsRun(TAG_MODULUS, order, run, sched) && TagsOutlast(TAG_MODULUS, run, sched) && n <= |sched|
    ensures Partitioned(run[n], g) && SizeOk(run[n], g)
  {
    var shadow := BoundedTagsSimulate(TAG_MODULUS, order, run, sched);
    g := History(order, shadow, sched, n);
    NodesConserved(order, shadow, sched, n);
    WrapPartitioned(TAG_MODULUS, shadow[n], g);
    SizeAccounts(order, shadow, sched, n);
    WrapSize(TAG_MODULUS, shadow[n], g);
  }

  /** Push of the code's stack gives up only when every node is stacked or held by a thread. */
  lemma BoundedRefusedOnlyWhenFull(order: seq<nat>, run: seq<State>, sched: Schedule, n: nat) returns (g: Ghost)
    requires IsRun(TAG_MODULUS, order, run, sched) && TagsOutlast(TAG_MODULUS, run, sched) && n < |sched|
    requires sched[n].0 < |run[n].threads| && run[n].threads[sched[n].0].AcqTop?
    requires sched[n].0 < |run[n + 1].threads| && run[n + 1].threads[sched[n].0].PushFull?
    ensures Partitioned(run[n], g) && Full(run[n], g)
  {
    var shadow := BoundedTagsSimulate(TAG_MODULUS, order, run, sched);
    g := History(order, shadow, sched, n);
    var t := sched[n].0;
    WrapFields(TAG_MODULUS, shadow[n], t);
    WrapFields(TAG_MODULUS, shadow[n + 1], t);
    RefusedOnlyWhenFull(order, shadow, sched, n);
    NodesConserved(order, shadow, sched, n);
    WrapPartitioned(TAG_MODULUS, shadow[n], g);
    SameHeld(TAG_MODULUS, shadow[n]);
    assert Full(Wrap(TAG_MODULUS, shadow[n]), g);
  }
}
