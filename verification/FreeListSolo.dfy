/**
 One thread of the free list running alone: from every reachable state, wherever the other threads have stopped,
 its Pop and its Push end after a fixed number of steps, and with the right result.
 */
module FreeListSolo {
  import opened Element
  import opened FreeListModel
  import opened FreeListProof
  import T = StackModel
  import B = FreeListBoundedTags
  import A = AtomicContainer

  // ---- a thread alone ----

  function InputAt(c: Input, i: nat): Input {
    if i == 0 then c else Go
  }

  /** Steps of thread t alone, the first of them a call. */
  predicate SoloPath(m: nat, path: seq<State>, t: nat, c: Input) {
    && |path| >= 2
    && forall i :: 0 <= i < |path| - 1 ==>
         Allowed(path[i], t, InputAt(c, i)) && path[i + 1] == Run(m, path[i], t, InputAt(c, i))
  }

  /** The path leads to shared memory s with thread t at pc and the other threads where they were. */
  predicate Leads(m: nat, path: seq<State>, t: nat, c: Input, s: State, pc: Pc) {
    && SoloPath(m, path, t, c) && t < |s.threads| && s.threads == path[0].threads
    && path[|path| - 1] == At(s, t, pc)
  }

  lemma Start(m: nat, s: State, t: nat, c: Input) returns (path: seq<State>)
    requires Allowed(s, t, c) && s.threads[t] == Idle && (c.CallPush? || c.CallPop?)
    ensures Leads(m, path, t, c, s, if c.CallPush? then PushTop(c.elem) else PopTop) && path[0] == s && |path| == 2
  {
    path := [s, Run(m, s, t, c)];
  }

  /** One more step, from shared memory s to shared memory s'. */
  lemma Onward(m: nat, path: seq<State>, t: nat, c: Input, s: State, pc: Pc, s': State, pc': Pc) returns (path': seq<State>)
    requires Leads(m, path, t, c, s, pc) && !pc.Idle? && s'.threads == s.threads
    requires Run(m, At(s, t, pc), t, Go) == At(s'.(threads := At(s, t, pc).threads), t, pc')
    ensures path' == path + [At(s', t, pc')] && Leads(m, path', t, c, s', pc')
  {
    assert s.threads[t := pc][t := pc'] == s.threads[t := pc'];
    path' := path + [At(s', t, pc')];
    forall i | 0 <= i < |path'| - 1
      ensures Allowed(path'[i], t, InputAt(c, i)) && path'[i + 1] == Run(m, path'[i], t, InputAt(c, i))
    {
      if i < |path| - 1 {
        assert path'[i] == path[i] && path'[i + 1] == path[i + 1];
      }
    }
  }

  /** The call leads to its return, which is this action, and to shared memory s with thread t idle again. */
  predicate Completes(name: int -> Value, m: nat, path: seq<State>, t: nat, c: Input, act: A.Action, s: State) {
    && SoloPath(m, path, t, c) && |path| >= 3 && path[|path| - 1] == s && s.threads == path[0].threads
    && ActionOf(name, path[|path| - 2], t, Go) == act
  }

  lemma Return(name: int -> Value, m: nat, path: seq<State>, t: nat, c: Input, s: State, pc: Pc, s': State)
    returns (path': seq<State>)
    requires Leads(m, path, t, c, s, pc) && (pc.PushCount? || pc.PopEmpty? || pc.PopCount?)
    requires s.threads[t] == Idle && s'.threads == s.threads
    requires Run(m, At(s, t, pc), t, Go) == At(s'.(threads := At(s, t, pc).threads), t, Idle)
    ensures path' == path + [s'] && Completes(name, m, path', t, c, ActionOf(name, At(s, t, pc), t, Go), s')
  {
    assert s.threads[t := Idle] == s.threads;
    path' := Onward(m, path, t, c, s, pc, s', Idle);
  }

  // ---- the two operations ----

  lemma EmptyPath(name: int -> Value, m: nat, s: State, t: nat) returns (path: seq<State>)
    requires t < |s.threads| && s.threads[t] == Idle && s.head.addr == NULL
    ensures Completes(name, m, path, t, CallPop, A.ReturnEmpty, s) && path[0] == s && |path| == 4
  {
    path := Start(m, s, t, CallPop);
    path := Onward(m, path, t, CallPop, s, PopTop, s, PopEmpty);
    path := Return(name, m, path, t, CallPop, s, PopEmpty, s);
  }

  /** The list after element e has been popped by thread t. */
  function PoppedOnce(m: nat, s: State, t: nat, e: int): State
    requires IsElem(s, e) && e < |s.owner|
  {
    s.(head := Head(ObjectOf(s.links[e]), T.Bump(m, s.head.tag)), owner := s.owner[e := Client(t)],
       size := (s.size - 1) % T.SIZE_MODULUS)
  }

  lemma PopPath(name: int -> Value, m: nat, s: State, t: nat, e: int) returns (path: seq<State>)
    requires t < |s.threads| && s.threads[t] == Idle && s.head.addr == e && IsElem(s, e) && e < |s.owner|
    ensures Completes(name, m, path, t, CallPop, A.ReturnPop(name(e)), PoppedOnce(m, s, t, e)) && path[0] == s && |path| == 6
  {
    var after := ObjectOf(s.links[e]);
    var s1 := s.(head := Head(after, T.Bump(m, s.head.tag)), owner := s.owner[e := Client(t)]);
    path := Start(m, s, t, CallPop);
    path := Onward(m, path, t, CallPop, s, PopTop, s, PopNext(s.head));
    path := Onward(m, path, t, CallPop, s, PopNext(s.head), s, PopCas(s.head, after));
    path := Onward(m, path, t, CallPop, s, PopCas(s.head, after), s1, PopCount(e));
    path := Return(name, m, path, t, CallPop, s1, PopCount(e), PoppedOnce(m, s, t, e));
  }

  /** The list after element e has been pushed. */
  function PushedOnce(m: nat, s: State, e: int): State
    requires IsElem(s, e) && e < |s.owner|
  {
    s.(head := Head(e, T.Bump(m, s.head.tag)), owner := s.owner[e := Listed], links := s.links[e := LinkOf(s.head.addr)],
       size := (s.size + 1) % T.SIZE_MODULUS)
  }

  lemma PushPath(name: int -> Value, m: nat, s: State, t: nat, e: int) returns (path: seq<State>)
    requires t < |s.threads| && s.threads[t] == Idle && Mine(s, t, e)
    ensures Completes(name, m, path, t, CallPush(e), A.ReturnPush, PushedOnce(m, s, e)) && path[0] == s && |path| == 6
  {
    var s1 := s.(links := s.links[e := LinkOf(s.head.addr)]);
    var s2 := s1.(head := Head(e, T.Bump(m, s.head.tag)), owner := s.owner[e := Listed]);
    path := Start(m, s, t, CallPush(e));
    path := Onward(m, path, t, CallPush(e), s, PushTop(e), s, PushLink(e, s.head));
    path := Onward(m, path, t, CallPush(e), s, PushLink(e, s.head), s1, PushCas(e, s.head));
    path := Onward(m, path, t, CallPush(e), s1, PushCas(e, s.head), s2, PushCount(e));
    path := Return(name, m, path, t, CallPush(e), s2, PushCount(e), PushedOnce(m, s, e));
  }

  // ---- what they do to the list ----

  lemma PoppedList(m: nat, s: State, stack: seq<int>, t: nat, e: int)
    requires OwnersOk(s, stack) && Linked(s, stack) && stack != [] && t < |s.threads| && e == Last(stack)
    ensures IsElem(s, e) && e < |s.owner|
    ensures var s' := PoppedOnce(m, s, t, e); OwnersOk(s', DropLast(stack)) && Linked(s', DropLast(stack))
  {
    var s' := PoppedOnce(m, s, t, e);
    var less := DropLast(stack);
    assert stack == less + [e];
    var s0 := s.(head := Head(ObjectOf(LinkAt(s, e)), s.head.tag + 1), owner := s.owner[e := Client(t)]);
    PopOwners(s, stack, less, t, e, s0);
    PopLinks(s, stack, less, t, e, s0);
  }

  lemma PushedList(m: nat, s: State, stack: seq<int>, t: nat, e: int)
    requires OwnersOk(s, stack) && Linked(s, stack) && t < |s.threads| && Mine(s, t, e)
    ensures var s' := PushedOnce(m, s, e); OwnersOk(s', stack + [e]) && Linked(s', stack + [e])
  {
    var s1 := s.(links := s.links[e := LinkOf(s.head.addr)]);
    var s0 := s1.(head := Head(e, s.head.tag + 1), owner := s.owner[e := Listed]);
    PushOwners(s1, stack, t, e, s0);
    PushLinks(s1, stack, t, e, s0);
  }

  // ---- from every reachable state ----

  /** The run goes on along a path. */
  function Calls(t: nat, c: Input, n: nat): Moves {
    seq(n, i requires 0 <= i < n => (t, InputAt(c, i)))
  }

  lemma RunOn(m: nat, run: seq<State>, sched: Moves, path: seq<State>, t: nat, c: Input)
    requires IsRun(m, run, sched) && SoloPath(m, path, t, c) && path[0] == run[|sched|]
    ensures IsRun(m, run + path[1..], sched + Calls(t, c, |path| - 1))
  {
    var run', sched' := run + path[1..], sched + Calls(t, c, |path| - 1);
    forall i | 0 <= i < |sched'|
      ensures Allowed(run'[i], sched'[i].0, sched'[i].1) && run'[i + 1] == Run(m, run'[i], sched'[i].0, sched'[i].1)
    {
      if i >= |sched| {
        assert run'[i] == path[i - |sched|] && run'[i + 1] == path[i - |sched| + 1];
      }
    }
  }

  /** The state at the end of a run of the free list; 0 and 2^16 are the tag moduli. */
  ghost predicate Reached(m: nat, run: seq<State>, sched: Moves, t: nat) {
    && IsRun(m, run, sched) && t < |run[|sched|].threads| && run[|sched|].threads[t] == Idle
    && (m == 0 || (m == TAGS_16 && B.TagsOutlast(m, run, sched)))
  }

  lemma ListAt(m: nat, run: seq<State>, sched: Moves, t: nat) returns (stack: seq<int>)
    requires Reached(m, run, sched, t)
    ensures OwnersOk(run[|sched|], stack) && Linked(run[|sched|], stack)
  {
    if m == 0 {
      RunInvariant(run, sched, |sched|);
      stack := History(run, sched, |sched|);
    } else {
      stack := B.BoundedFreeListAccounts(run, sched, |sched|);
    }
  }

  predicate Extends(run: seq<State>, sched: Moves, run': seq<State>, sched': Moves, t: nat, c: Input, n: nat, s: State) {
    run <= run' && sched' == sched + Calls(t, c, n) && n > 0 && |run'| == |sched'| + 1 && run'[|sched'|] == s
  }

  /** The run goes on, by n steps of t alone, to the return of t's operation with this action, in state s. */
  ghost predicate GoesOn(name: int -> Value, m: nat, run: seq<State>, sched: Moves, t: nat, c: Input, act: A.Action, n: nat,
                         s: State) {
    exists run', sched' :: IsRun(m, run', sched') && Extends(run, sched, run', sched', t, c, n, s)
                           && Events(name, m, run', sched')[|sched'| - 1] == (t, act)
  }

  lemma LastEvent(name: int -> Value, m: nat, run: seq<State>, sched: Moves, t: nat, act: A.Action)
    requires IsRun(m, run, sched) && sched != [] && sched[|sched| - 1] == (t, Go) && Allowed(run[|sched| - 1], t, Go)
    requires ActionOf(name, run[|sched| - 1], t, Go) == act
    ensures Events(name, m, run, sched)[|sched| - 1] == (t, act)
  {
  }

  lemma PathGoesOn(name: int -> Value, m: nat, run: seq<State>, sched: Moves, t: nat, c: Input, act: A.Action,
                   path: seq<State>, s: State)
    requires IsRun(m, run, sched) && Completes(name, m, path, t, c, act, s) && path[0] == run[|sched|]
    ensures GoesOn(name, m, run, sched, t, c, act, |path| - 1, s)
  {
    RunOn(m, run, sched, path, t, c);
    var run', sched' := run + path[1..], sched + Calls(t, c, |path| - 1);
    assert run'[|sched'| - 1] == path[|path| - 2];
    LastEvent(name, m, run', sched', t, act);
    assert Extends(run, sched, run', sched', t, c, |path| - 1, s);
  }

  /**
   A thread that goes on alone finishes its Pop in at most five steps, wherever the others stand: with null exactly
   when the list is empty, and otherwise with the element on top, which it owns afterwards.
   */
  lemma PopEnds(name: int -> Value, m: nat, run: seq<State>, sched: Moves, t: nat)
    returns (stack: seq<int>, n: nat, s': State)
    requires Reached(m, run, sched, t)
    ensures var s := run[|sched|];
            && OwnersOk(s, stack) && Linked(s, stack) && s'.threads == s.threads && n <= 5
            && (if stack == []
                then GoesOn(name, m, run, sched, t, CallPop, A.ReturnEmpty, n, s') && s' == s
                else GoesOn(name, m, run, sched, t, CallPop, A.ReturnPop(name(Last(stack))), n, s') && Mine(s', t, Last(stack))
                     && OwnersOk(s', DropLast(stack)) && Linked(s', DropLast(stack)))
  {
    var s := run[|sched|];
    stack := ListAt(m, run, sched, t);
    if stack == [] {
      n := EmptyEnds(name, m, run, sched, t);
      s' := s;
    } else {
      PoppedList(m, s, stack, t, Last(stack));
      n := TopEnds(name, m, run, sched, t, Last(stack));
      s' := PoppedOnce(m, s, t, Last(stack));
    }
  }

  lemma EmptyEnds(name: int -> Value, m: nat, run: seq<State>, sched: Moves, t: nat) returns (n: nat)
    requires IsRun(m, run, sched) && t < |run[|sched|].threads| && run[|sched|].threads[t] == Idle
    requires run[|sched|].head.addr == NULL
    ensures n <= 5 && GoesOn(name, m, run, sched, t, CallPop, A.ReturnEmpty, n, run[|sched|])
  {
    var path := EmptyPath(name, m, run[|sched|], t);
    n := |path| - 1;
    PathGoesOn(name, m, run, sched, t, CallPop, A.ReturnEmpty, path, run[|sched|]);
  }

  lemma TopEnds(name: int -> Value, m: nat, run: seq<State>, sched: Moves, t: nat, e: int) returns (n: nat)
    requires IsRun(m, run, sched) && t < |run[|sched|].threads| && run[|sched|].threads[t] == Idle
    requires run[|sched|].head.addr == e && IsElem(run[|sched|], e) && e < |run[|sched|].owner|
    ensures n <= 5 && GoesOn(name, m, run, sched, t, CallPop, A.ReturnPop(name(e)), n, PoppedOnce(m, run[|sched|], t, e))
  {
    var path := PopPath(name, m, run[|sched|], t, e);
    n := |path| - 1;
    PathGoesOn(name, m, run, sched, t, CallPop, A.ReturnPop(name(e)), path, PoppedOnce(m, run[|sched|], t, e));
  }

  /** So does its Push of an element that it owns, and the element is on top afterwards. */
  lemma PushEnds(name: int -> Value, m: nat, run: seq<State>, sched: Moves, t: nat, e: int)
    returns (stack: seq<int>, n: nat, s': State)
    requires Reached(m, run, sched, t) && Mine(run[|sched|], t, e)
    ensures var s := run[|sched|];
            && OwnersOk(s, stack) && Linked(s, stack) && s'.threads == s.threads && n <= 5
            && GoesOn(name, m, run, sched, t, CallPush(e), A.ReturnPush, n, s')
            && OwnersOk(s', stack + [e]) && Linked(s', stack + [e])
  {
    var s := run[|sched|];
    stack := ListAt(m, run, sched, t);
    PushedList(m, s, stack, t, e);
    var path := PushPath(name, m, s, t, e);
    n, s' := |path| - 1, PushedOnce(m, s, e);
    PathGoesOn(name, m, run, sched, t, CallPush(e), A.ReturnPush, path, s');
  }

  // ---- progress from everywhere, and under interference ----

  /** How many steps thread t still needs if no other thread moves the head. */
  function Remaining(s: State, l: Pc): nat {
    match l
    case Idle => 0
    case PushTop(_) => 4
    case PushLink(_, top) => if s.head == top then 3 else 6
    case PushCas(_, top) => if s.head == top then 2 else 5
    case PushCount(_) => 1
    case PopTop => 4
    case PopNext(top) => if s.head == top then 3 else 6
    case PopCas(top, _) => if s.head == top then 2 else 5
    case PopEmpty => 1
    case PopCount(_) => 1
  }

  /** A step of the thread itself brings it nearer to its return. */
  lemma RemainingFalls(m: nat, s: State, t: nat)
    requires Allowed(s, t, Go)
    ensures var s' := Run(m, s, t, Go);
            |s'.threads| == |s.threads| && Remaining(s', s'.threads[t]) < Remaining(s, s.threads[t]) <= 6
  {
  }

  /** From any state at all, a thread that goes on alone finishes what it is at. */
  lemma {:induction false} EndsAlone(m: nat, s: State, t: nat) returns (path: seq<State>)
    requires t < |s.threads|
    ensures path != [] && path[0] == s && |path| <= 1 + Remaining(s, s.threads[t]) <= 1 + 6
    ensures forall i :: 0 <= i < |path| - 1 ==> Allowed(path[i], t, Go) && path[i + 1] == Run(m, path[i], t, Go)
    ensures t < |path[|path| - 1].threads| && path[|path| - 1].threads[t] == Idle
    decreases Remaining(s, s.threads[t])
  {
    if s.threads[t] == Idle {
      path := [s];
    } else {
      RemainingFalls(m, s, t);
      var more := EndsAlone(m, Run(m, s, t, Go), t);
      path := [s] + more;
    }
  }

  /** How many of the steps from n0 to n are thread t's. */
  function StepsOf(sched: Moves, t: nat, n0: nat, n: nat): nat
    requires n0 <= n <= |sched|
  {
    if n == n0 then 0 else StepsOf(sched, t, n0, n - 1) + if sched[n - 1].0 == t then 1 else 0
  }

  /** How many of them are another thread's successful exchanges. */
  function Defeats(run: seq<State>, sched: Moves, t: nat, n0: nat, n: nat): nat
    requires n0 <= n <= |sched| < |run|
  {
    if n == n0 then 0
    else Defeats(run, sched, t, n0, n - 1) + if sched[n - 1].0 != t && run[n].head != run[n - 1].head then 1 else 0
  }

  /** Thread t is inside one operation from step n0 on. */
  predicate Busy(run: seq<State>, t: nat, n0: nat, n: nat)
    requires n0 <= n < |run|
  {
    forall i :: n0 <= i < n ==> t < |run[i].threads| && run[i].threads[t] != Idle
  }

  lemma OthersDelay(m: nat, s: State, t: nat, u: nat, c: Input)
    requires Allowed(s, u, c) && t < |s.threads| && t != u
    ensures var s' := Run(m, s, u, c);
            && |s'.threads| == |s.threads| && s'.threads[t] == s.threads[t] && Remaining(s', s'.threads[t]) <= 6
            && (s'.head == s.head ==> Remaining(s', s'.threads[t]) == Remaining(s, s.threads[t]))
  {
  }

  lemma MostIsMost(s: State, l: Pc)
    ensures Remaining(s, l) <= 6
  {
  }

  /** One step: whatever it is, it is paid for. */
  lemma Paid(m: nat, s: State, u: nat, c: Input, s': State, t: nat)
    requires Allowed(s, u, c) && s' == Run(m, s, u, c) && t < |s.threads| && s.threads[t] != Idle
    ensures |s'.threads| == |s.threads|
    ensures Remaining(s', s'.threads[t]) + (if u == t then 1 else 0) <=
            Remaining(s, s.threads[t]) + (if u != t && s'.head != s.head then 6 else 0)
  {
    if u == t {
      RemainingFalls(m, s, t);
    } else {
      OthersDelay(m, s, t, u, c);
    }
  }

  /** Step i leaves thread t nearer to its return, unless it is another thread's successful exchange. */
  predicate PaidAt(run: seq<State>, sched: Moves, t: nat, i: nat)
    requires i < |sched| < |run|
  {
    var s, s' := run[i], run[i + 1];
    && t < |s.threads| == |s'.threads|
    && Remaining(s', s'.threads[t]) + (if sched[i].0 == t then 1 else 0) <=
         Remaining(s, s.threads[t]) + (if sched[i].0 != t && s'.head != s.head then 6 else 0)
  }

  lemma AllPaid(m: nat, run: seq<State>, sched: Moves, t: nat, n0: nat, n: nat)
    requires IsRun(m, run, sched) && n0 <= n <= |sched| && Busy(run, t, n0, n)
    ensures forall i :: n0 <= i < n ==> PaidAt(run, sched, t, i)
  {
    forall i | n0 <= i < n ensures PaidAt(run, sched, t, i) {
      Paid(m, run[i], sched[i].0, sched[i].1, run[i + 1], t);
    }
  }

  lemma {:induction false} Sum(run: seq<State>, sched: Moves, t: nat, n0: nat, n: nat)
    requires n0 <= n <= |sched| < |run| && t < |run[n0].threads|
    requires forall i :: n0 <= i < n ==> PaidAt(run, sched, t, i)
    ensures t < |run[n].threads|
    ensures StepsOf(sched, t, n0, n) + Remaining(run[n], run[n].threads[t]) <= 6 + 6 * Defeats(run, sched, t, n0, n)
  {
    if n > n0 {
      Sum(run, sched, t, n0, n - 1);
      assert PaidAt(run, sched, t, n - 1);
    } else {
      MostIsMost(run[n], run[n].threads[t]);
    }
  }

  /**
   Lock-freedom: an operation takes at most six steps of its own, and six more for every time that another
   thread's exchange has got in between.
   */
  lemma LockFree(m: nat, run: seq<State>, sched: Moves, t: nat, n0: nat, n: nat)
    requires IsRun(m, run, sched) && n0 <= n <= |sched| && t < |run[n0].threads| && Busy(run, t, n0, n)
    ensures StepsOf(sched, t, n0, n) <= 6 + 6 * Defeats(run, sched, t, n0, n)
  {
    AllPaid(m, run, sched, t, n0, n);
    Sum(run, sched, t, n0, n);
  }
}
