/**
 The free list with the code's wrapping 16-bit tags. A run whose every compare-exchange comes before
 the remembered head has changed as often as there are tags behaves as with unbounded tags.
 */
module FreeListBoundedTags {
  import opened Element
  import opened FreeListModel
  import opened FreeListProof
  import T = StackModel
  import B = StackBoundedTags
  import A = AtomicContainer
  import opened Arithmetic

  // ---- forgetting the high part of every tag ----

  function WrapHead(m: nat, h: Head): Head
    requires m > 0
  {
    Head(h.addr, h.tag % m)
  }

  function WrapPc(m: nat, l: Pc): Pc
    requires m > 0
  {
    match l
    case PushLink(e, top) => PushLink(e, WrapHead(m, top))
    case PushCas(e, top) => PushCas(e, WrapHead(m, top))
    case PopNext(top) => PopNext(WrapHead(m, top))
    case PopCas(top, after) => PopCas(WrapHead(m, top), after)
    case _ => l
  }

  function Wrap(m: nat, s: State): State
    requires m > 0
  {
    s.(head := WrapHead(m, s.head),
       threads := seq(|s.threads|, i requires 0 <= i < |s.threads| => WrapPc(m, s.threads[i])))
  }

  predicate Watches(l: Pc) {
    l.PushLink? || l.PushCas? || l.PopNext? || l.PopCas?
  }

  predicate Exchanging(l: Pc) {
    l.PushCas? || l.PopCas?
  }

  /** The wrapped comparison of a compare-exchange comes out as the unwrapped one. */
  predicate Distinguishes(m: nat, s: State, l: Pc)
    requires m > 0
  {
    Exchanging(l) ==> (WrapHead(m, s.head) == WrapHead(m, l.top) ==> s.head == l.top)
  }

  lemma WrapFields(m: nat, s: State, t: nat)
    requires m > 0 && t < |s.threads|
    ensures |Wrap(m, s).threads| == |s.threads| && Wrap(m, s).threads[t] == WrapPc(m, s.threads[t])
  {
  }

  lemma WrapAt(m: nat, s: State, t: nat, l: Pc)
    requires m > 0 && t < |s.threads|
    ensures Wrap(m, At(s, t, l)) == At(Wrap(m, s), t, WrapPc(m, l))
  {
    assert Wrap(m, s).threads[t := WrapPc(m, l)] == Wrap(m, At(s, t, l)).threads;
  }

  lemma WrapAllowed(m: nat, s: State, t: nat, c: Input)
    requires m > 0 && t < |s.threads|
    ensures Allowed(Wrap(m, s), t, c) <==> Allowed(s, t, c)
  {
    WrapFields(m, s, t);
  }

  lemma QuietCommutes(m: nat, s: State, t: nat, c: Input)
    requires m > 1 && Allowed(s, t, c) && Allowed(Wrap(m, s), t, c) && !Exchanging(s.threads[t])
    ensures Run(m, Wrap(m, s), t, c) == Wrap(m, Run(0, s, t, c))
  {
    WrapFields(m, s, t);
    SameThreads(0, s, t, c);
    WrapAt(m, s, t, Run(0, s, t, c).threads[t]);
  }

  lemma ExchangeCommutes(m: nat, s: State, t: nat, c: Input)
    requires m > 1 && Allowed(s, t, c) && Allowed(Wrap(m, s), t, c)
    requires Exchanging(s.threads[t]) && Distinguishes(m, s, s.threads[t])
    ensures Run(m, Wrap(m, s), t, c) == Wrap(m, Run(0, s, t, c))
  {
    WrapFields(m, s, t);
    SameThreads(0, s, t, c);
    WrapAt(m, s, t, Run(0, s, t, c).threads[t]);
    B.BumpWraps(m, s.threads[t].top.tag);
  }

  /** One wrapped step is the wrapped image of one unbounded step. */
  lemma StepCommutes(name: int -> Value, m: nat, s: State, t: nat, c: Input)
    requires m > 1 && Allowed(s, t, c) && Distinguishes(m, s, s.threads[t])
    ensures Allowed(Wrap(m, s), t, c)
    ensures Run(m, Wrap(m, s), t, c) == Wrap(m, Run(0, s, t, c))
    ensures ActionOf(name, Wrap(m, s), t, c) == ActionOf(name, s, t, c)
  {
    WrapAllowed(m, s, t, c);
    WrapFields(m, s, t);
    if Exchanging(s.threads[t]) {
      ExchangeCommutes(m, s, t, c);
    } else {
      QuietCommutes(m, s, t, c);
    }
  }

  // ---- how stale a remembered head may get ----

  /** How often the head has changed since thread t read the one it remembers after n steps. */
  function Stale(run: seq<State>, sched: Moves, t: nat, n: nat): nat
    requires |run| == |sched| + 1 && n <= |sched|
  {
    if n == 0 || t >= |run[n - 1].threads| || !Watches(run[n - 1].threads[t]) then 0
    else Stale(run, sched, t, n - 1) + if run[n].head != run[n - 1].head then 1 else 0
  }

  /** Every compare-exchange comes before its remembered head has changed m times. */
  predicate TagsOutlast(m: nat, run: seq<State>, sched: Moves)
    requires |run| == |sched| + 1
  {
    forall n :: 0 <= n < |sched| && sched[n].0 < |run[n].threads| && Exchanging(run[n].threads[sched[n].0]) ==>
      Stale(run, sched, sched[n].0, n) < m
  }

  // ---- the shadow run with unbounded tags ----

  function Shadow(run: seq<State>, sched: Moves, n: nat): State
    requires |run| == |sched| + 1 && n <= |sched|
  {
    if n == 0 then run[0]
    else
      var s := Shadow(run, sched, n - 1);
      if Allowed(s, sched[n - 1].0, sched[n - 1].1) then Run(0, s, sched[n - 1].0, sched[n - 1].1) else s
  }

  /** The shadow's tags count the head changes that a thread has missed. */
  predicate AgesTrue(run: seq<State>, sched: Moves, s: State, n: nat)
    requires |run| == |sched| + 1 && n <= |sched|
  {
    forall t :: 0 <= t < |s.threads| && Watches(s.threads[t]) ==>
      s.head.tag == s.threads[t].top.tag + Stale(run, sched, t, n)
  }

  lemma YoungDistinguished(m: nat, s: State, l: Pc, age: nat)
    requires m > 1 && Exchanging(l) && age < m && s.head.tag == l.top.tag + age
    ensures Distinguishes(m, s, l)
  {
    var now, top := s.head.tag, l.top.tag;
    if now % m == top % m {
      NearbyDiffer(top, age, m);
    }
  }

  /** The head's tag grows by one exactly when the head changes. */
  predicate HeadStep(s: State, s': State) {
    s'.head == s.head || s'.head.tag == s.head.tag + 1
  }

  lemma WatchMoves(s: State, t: nat, c: Input, s': State, u: nat)
    requires Allowed(s, t, c) && s' == Run(0, s, t, c) && u < |s.threads| == |s'.threads| && Watches(s'.threads[u])
    ensures if Watches(s.threads[u]) then s'.threads[u].top == s.threads[u].top
            else s'.threads[u].top == s.head == s'.head
    ensures HeadStep(s, s')
  {
  }

  lemma WrappedHeadStep(m: nat, s: State, s': State)
    requires m > 1 && HeadStep(s, s')
    ensures Wrap(m, s').head != Wrap(m, s).head <==> s'.head != s.head
  {
    B.BumpWraps(m, s.head.tag);
  }

  lemma AgesStep(m: nat, run: seq<State>, sched: Moves, s: State, s': State, n: nat)
    requires m > 1 && |run| == |sched| + 1 && n < |sched|
    requires Allowed(s, sched[n].0, sched[n].1) && s' == Run(0, s, sched[n].0, sched[n].1)
    requires |s.threads| == |s'.threads|
    requires Wrap(m, s) == run[n] && Wrap(m, s') == run[n + 1] && AgesTrue(run, sched, s, n)
    ensures AgesTrue(run, sched, s', n + 1)
  {
    forall u | 0 <= u < |s'.threads| && Watches(s'.threads[u])
      ensures s'.head.tag == s'.threads[u].top.tag + Stale(run, sched, u, n + 1)
    {
      WatchMoves(s, sched[n].0, sched[n].1, s', u);
      WrapFields(m, s, u);
      WrappedHeadStep(m, s, s');
    }
  }

  predicate Shadowed(m: nat, run: seq<State>, sched: Moves, n: nat)
    requires m > 1 && |run| == |sched| + 1 && n <= |sched|
  {
    var s := Shadow(run, sched, n);
    Wrap(m, s) == run[n] && AgesTrue(run, sched, s, n)
  }

  lemma ShadowStep(name: int -> Value, m: nat, run: seq<State>, sched: Moves, n: nat)
    requires m > 1 && IsRun(m, run, sched) && TagsOutlast(m, run, sched)
    requires n < |sched| && Shadowed(m, run, sched, n)
    ensures var s := Shadow(run, sched, n);
            && Allowed(s, sched[n].0, sched[n].1)
            && Shadow(run, sched, n + 1) == Run(0, s, sched[n].0, sched[n].1)
            && ActionOf(name, run[n], sched[n].0, sched[n].1) == ActionOf(name, s, sched[n].0, sched[n].1)
    ensures Shadowed(m, run, sched, n + 1)
  {
    var s, t, c := Shadow(run, sched, n), sched[n].0, sched[n].1;
    assert Allowed(run[n], t, c);
    WrapAllowed(m, s, t, c);
    WrapFields(m, s, t);
    if Exchanging(s.threads[t]) {
      YoungDistinguished(m, s, s.threads[t], Stale(run, sched, t, n));
    }
    StepCommutes(name, m, s, t, c);
    SameThreads(0, s, t, c);
    AgesStep(m, run, sched, s, Run(0, s, t, c), n);
  }

  lemma {:induction false} ShadowFollows(name: int -> Value, m: nat, run: seq<State>, sched: Moves, n: nat)
    requires m > 1 && IsRun(m, run, sched) && TagsOutlast(m, run, sched) && n <= |sched|
    ensures Shadowed(m, run, sched, n)
  {
    if n == 0 {
      assert 0 % m == 0 by { Division(0, m, 0, 0); }
      assert Wrap(m, run[0]).threads == run[0].threads;
    } else {
      ShadowFollows(name, m, run, sched, n - 1);
      ShadowStep(name, m, run, sched, n - 1);
    }
  }

  /** Every run with m tags and timely exchanges is the wrapped image of a run with unbounded tags,
      step by step and action by action. */
  lemma BoundedTagsSimulate(name: int -> Value, m: nat, run: seq<State>, sched: Moves) returns (shadow: seq<State>)
    requires m > 1 && IsRun(m, run, sched) && TagsOutlast(m, run, sched)
    ensures IsRun(0, shadow, sched)
    ensures forall i :: 0 <= i < |run| ==> Wrap(m, shadow[i]) == run[i]
    ensures Events(name, 0, shadow, sched) == Events(name, m, run, sched)
  {
    shadow := seq(|run|, i requires 0 <= i < |run| => Shadow(run, sched, i));
    forall i | 0 <= i < |run| ensures Wrap(m, shadow[i]) == run[i] {
      ShadowFollows(name, m, run, sched, i);
    }
    forall i | 0 <= i < |sched|
      ensures Allowed(shadow[i], sched[i].0, sched[i].1)
      ensures shadow[i + 1] == Run(0, shadow[i], sched[i].0, sched[i].1)
      ensures ActionOf(name, run[i], sched[i].0, sched[i].1) == ActionOf(name, shadow[i], sched[i].0, sched[i].1)
    {
      ShadowFollows(name, m, run, sched, i);
      ShadowStep(name, m, run, sched, i);
    }
  }

  /** Linearizability of the code's free list, with its 16-bit tags. */
  lemma BoundedFreeListLinearizable(name: int -> Value, run: seq<State>, sched: Moves) returns (states: seq<A.Container>)
    requires IsRun(TAGS_16, run, sched) && TagsOutlast(TAGS_16, run, sched)
    ensures A.IsTrace(A.Lifo, states, Events(name, TAGS_16, run, sched))
  {
    var shadow := BoundedTagsSimulate(name, TAGS_16, run, sched);
    FreeListLinearizable(name, shadow, sched);
    states := Abstraction(name, shadow, sched);
  }

  lemma {:induction false} WrapOwed(m: nat, threads: seq<Pc>, wrapped: seq<Pc>)
    requires m > 0 && |wrapped| == |threads| && forall t :: 0 <= t < |threads| ==> wrapped[t] == WrapPc(m, threads[t])
    ensures Owed(wrapped) == Owed(threads)
  {
    if threads != [] {
      WrapOwed(m, threads[1..], wrapped[1..]);
    }
  }

  lemma WrapShape(m: nat, s: State, stack: seq<int>)
    requires m > 0 && OwnersOk(s, stack) && Linked(s, stack)
    ensures OwnersOk(Wrap(m, s), stack) && Linked(Wrap(m, s), stack)
  {
  }

  lemma WrapSize(m: nat, s: State, stack: seq<int>)
    requires m > 0 && SizeOk(s, stack)
    ensures SizeOk(Wrap(m, s), stack)
  {
    WrapOwed(m, s.threads, Wrap(m, s).threads);
  }

  lemma ShadowAccounts(shadow: seq<State>, sched: Moves, n: nat) returns (stack: seq<int>)
    requires IsRun(0, shadow, sched) && n <= |sched|
    ensures OwnersOk(shadow[n], stack) && Linked(shadow[n], stack) && SizeOk(shadow[n], stack)
  {
    stack := History(shadow, sched, n);
    RunInvariant(shadow, sched, n);
    SizeAccounts(shadow, sched, n);
  }

  /** Conservation and size accounting for the code's free list: the elements not at a client are those
      on the list, which is linked from the head down to null, and mSize counts them. */
  lemma BoundedFreeListAccounts(run: seq<State>, sched: Moves, n: nat) returns (stack: seq<int>)
    requires IsRun(TAGS_16, run, sched) && TagsOutlast(TAGS_16, run, sched) && n <= |sched|
    ensures OwnersOk(run[n], stack) && Linked(run[n], stack) && SizeOk(run[n], stack)
  {
    var shadow := BoundedTagsSimulate(_ => BLANK, TAGS_16, run, sched);
    stack := ShadowAccounts(shadow, sched, n);
    WrapShape(TAGS_16, shadow[n], stack);
    WrapSize(TAGS_16, shadow[n], stack);
  }
}
