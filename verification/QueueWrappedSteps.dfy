/** The concurrent queue with m tags that wrap. */
module QueueWrappedModel {
  import opened QueueModel
  import opened QueueTheorems
  import A = AtomicContainer

  function Next(m: int, tag: int): int {
    if tag + 1 == m then 0 else tag + 1
  }

  function Prev(m: int, tag: int): int {
    if tag == 0 then m - 1 else tag - 1
  }

  /** One step; only the steps that compute a tag differ from those with unbounded tags. */
  function ExecWrapped(m: int, s: State, t: nat, c: Choice): State
    requires Enabled(s, t, c)
  {
    match s.threads[t]
    case AcqCas(e, top, after) =>
      if s.free == top
      then Goto(s, t, PushValue(e, top.addr)).(free := Ptr(after, Next(m, top.tag)))
      else Goto(s, t, AcqTop(e))
    case PushNext(e, n, tail) =>
      Goto(s, t, PushCas(e, n, tail)).(mem := SetNext(s.mem, n, Ptr(tail.addr, Next(m, tail.tag))))
    case PushCas(e, n, tail) =>
      if s.tail == tail
      then Goto(s, t, PushLink(e, n, tail)).(tail := Ptr(n, Next(m, tail.tag)))
      else Goto(s, t, PushTail(e, n))
    case PopCas(head, prev, got) =>
      if s.head == head
      then Goto(s, t, RelClear(got, head.addr)).(head := Ptr(prev.addr, Next(m, head.tag)))
      else Goto(s, t, PopHead)
    case RelCas(got, n, top) =>
      if s.free == top
      then Goto(s, t, PopCount(got)).(free := Ptr(n, Next(m, top.tag)))
      else Goto(s, t, RelTop(got, n))
    case FixLink(head, current, next) =>
      Goto(s, t, FixCheck(head, Ptr(next.addr, Prev(m, current.tag))))
        .(mem := SetPrev(s.mem, next.addr, Ptr(current.addr, Prev(m, current.tag))))
    case _ => Exec(s, t, c)
  }

  /** The constructor's state; the tag before 0 is m - 1. */
  predicate WrappedInitial(m: int, s: State) {
    && s.head.addr != NULL && s.mem.Keys == {s.head.addr}
    && s.mem[s.head.addr].prev == Ptr(s.head.addr, m - 1) && s.mem[s.head.addr].next == Ptr(NULL, m - 1)
    && s.head.tag == 0 && s.tail == s.head && s.free == Ptr(NULL, m - 1) && s.size == 0
    && forall t :: 0 <= t < |s.threads| ==> s.threads[t] == Idle
  }

  predicate IsWrappedRun(m: int, run: seq<State>, sched: Schedule) {
    && |run| == |sched| + 1 && WrappedInitial(m, run[0])
    && forall i :: 0 <= i < |sched| ==>
         Enabled(run[i], sched[i].0, sched[i].1) && run[i + 1] == ExecWrapped(m, run[i], sched[i].0, sched[i].1)
  }

  function WrappedEvents(m: int, run: seq<State>, sched: Schedule): seq<A.Event>
    requires IsWrappedRun(m, run, sched)
  {
    seq(|sched|, i requires 0 <= i < |sched| => (sched[i].0, ActionOf(run[i], sched[i].0, sched[i].1)))
  }

  /** Every mPrev that `new` returns carries the invalid tag, so it can do no harm. */
  predicate InvalidGarbage(sched: Schedule) {
    forall i :: 0 <= i < |sched| && sched[i].1.Allocate? ==> sched[i].1.garbage.prev.tag == INVALID_TAG
  }

  /** How many steps of the whole system thread t's operation has taken so far. */
  function Delay(run: seq<State>, t: nat, n: nat): nat
    requires n < |run|
  {
    if n == 0 || t >= |run[n].threads| || run[n].threads[t] == Idle then 0 else 1 + Delay(run, t, n - 1)
  }

  /** No operation is ever under way for more than `bound` steps. */
  predicate Prompt(run: seq<State>, bound: nat) {
    forall n, t :: 0 <= n < |run| && 0 <= t < |run[n].threads| ==> Delay(run, t, n) <= bound
  }

  /** How often mTail and mFreeNodeHead have moved in the first n steps. */
  function TailMoves(run: seq<State>, n: nat): nat
    requires n < |run|
  {
    if n == 0 then 0 else TailMoves(run, n - 1) + if run[n].tail != run[n - 1].tail then 1 else 0
  }

  function FreeMoves(run: seq<State>, n: nat): nat
    requires n < |run|
  {
    if n == 0 then 0 else FreeMoves(run, n - 1) + if run[n].free != run[n - 1].free then 1 else 0
  }
}

/** Whole operations of one thread in the queue with m tags, and what a run keeps count of meanwhile. */
module QueueWrappedSteps {
  import opened Element
  import opened QueueModel
  import opened QueueTheorems
  import opened QueueWrappedModel
  import A = AtomicContainer

  const BOUND: nat := 48

  /**
   What is kept count of. A hurried run pushes only e, no operation that is over took more than BOUND
   steps, or more than `age`, and no operation has been under way for more than `age` steps. A counted run pushes `first` at most once, as its first step, and otherwise only
   `rest`; its two heads have moved so often, and `returned` says that a Pop has returned `first`.
   */
  datatype Tally =
    | Hurried(e: Value, age: nat)
    | Counted(first: Value, rest: Value, tails: nat, frees: nat, returned: bool)

  function Aged(y: Tally, k: nat): Tally {
    if y.Hurried? then y.(age := y.age + k) else y
  }

  function TailMoved(y: Tally): Tally {
    if y.Hurried? then y else y.(tails := y.tails + 1)
  }

  function FreeMoved(y: Tally): Tally {
    if y.Hurried? then y else y.(frees := y.frees + 1)
  }

  function Returned(y: Tally, v: Value): Tally {
    if y.Hurried? then y else y.(returned := y.returned || v == y.first)
  }

  /** What may be pushed at step i. */
  predicate MayPush(y: Tally, i: nat, v: Value) {
    if y.Hurried? then v == y.e else v == y.rest || (i == 0 && v == y.first)
  }

  function Limit(age: nat): nat {
    if age > BOUND then age else BOUND
  }

  ghost predicate Tallies(run: seq<State>, sched: Schedule, s: State, y: Tally)
    requires |run| == |sched| + 1 && forall i :: 0 <= i < |sched| ==> Enabled(run[i], sched[i].0, sched[i].1)
  {
    match y
    case Hurried(_, age) =>
      Prompt(run, Limit(age)) && forall u :: 0 <= u < |s.threads| ==> Delay(run, u, |sched|) <= age
    case Counted(first, _, tails, frees, returned) =>
      && TailMoves(run, |sched|) == tails && FreeMoves(run, |sched|) == frees
      && (returned ==>
            exists i :: 0 <= i < |sched| && ActionOf(run[i], sched[i].0, sched[i].1) == A.ReturnPop(first))
  }

  ghost predicate EndsIn(m: int, run: seq<State>, sched: Schedule, s: State, y: Tally) {
    && m >= 2 && IsWrappedRun(m, run, sched) && run[|sched|] == s && InvalidGarbage(sched)
    && (forall i :: 0 <= i < |sched| && sched[i].1.CallPush? ==> MayPush(y, i, sched[i].1.elem))
    && Tallies(run, sched, s, y)
  }

  ghost predicate Reaches(m: int, s: State, y: Tally) {
    exists run, sched :: EndsIn(m, run, sched, s, y)
  }

  // ---- the tallies after one more step ----

  lemma {:induction false} DelayPrefix(run: seq<State>, s': State, t: nat, n: nat)
    requires n < |run|
    ensures Delay(run + [s'], t, n) == Delay(run, t, n)
  {
    if n > 0 {
      DelayPrefix(run, s', t, n - 1);
    }
  }

  lemma DelayNext(run: seq<State>, s': State, t: nat)
    requires run != []
    ensures Delay(run + [s'], t, |run|) <= 1 + Delay(run, t, |run| - 1)
  {
    DelayPrefix(run, s', t, |run| - 1);
  }

  lemma PromptAt(run: seq<State>, s': State, t: nat, n: nat, age: nat)
    requires run != [] && Prompt(run, Limit(age)) && n <= |run| && t < |(run + [s'])[n].threads|
    requires t < |s'.threads| ==> Delay(run, t, |run| - 1) <= age
    ensures Delay(run + [s'], t, n) <= Limit(age + 1)
  {
    if n < |run| {
      DelayPrefix(run, s', t, n);
    } else {
      DelayNext(run, s', t);
    }
  }

  lemma StillPrompt(run: seq<State>, s': State, age: nat, last: nat)
    requires last + 1 == |run| && Prompt(run, Limit(age))
    requires forall t :: 0 <= t < |s'.threads| ==> Delay(run, t, last) <= age
    ensures Prompt(run + [s'], Limit(age + 1))
  {
    var run' := run + [s'];
    forall n, t | 0 <= n < |run'| && 0 <= t < |run'[n].threads| ensures Delay(run', t, n) <= Limit(age + 1) {
      PromptAt(run, s', t, n, age);
    }
  }

  lemma {:induction false} MovesPrefix(run: seq<State>, s': State, n: nat)
    requires n < |run|
    ensures TailMoves(run + [s'], n) == TailMoves(run, n) && FreeMoves(run + [s'], n) == FreeMoves(run, n)
  {
    if n > 0 {
      MovesPrefix(run, s', n - 1);
    }
  }

  lemma MovesNext(run: seq<State>, s: State, s': State, last: nat)
    requires last + 1 == |run| && run[last] == s
    ensures TailMoves(run + [s'], last + 1) == TailMoves(run, last) + if s'.tail != s.tail then 1 else 0
    ensures FreeMoves(run + [s'], last + 1) == FreeMoves(run, last) + if s'.free != s.free then 1 else 0
  {
    MovesPrefix(run, s', last);
  }

  /** The tally after a step. */
  function Next1(y: Tally, s: State, s': State, act: A.Action): Tally {
    match y
    case Hurried(e, age) => Hurried(e, age + 1)
    case Counted(first, rest, tails, frees, returned) =>
      Counted(first, rest, tails + (if s'.tail != s.tail then 1 else 0), frees + (if s'.free != s.free then 1 else 0),
              returned || act == A.ReturnPop(first))
  }

  lemma HurriedNext(run: seq<State>, sched: Schedule, s: State, y: Tally, t: nat, c: Choice, s': State)
    requires |run| == |sched| + 1 && forall i :: 0 <= i < |sched| ==> Enabled(run[i], sched[i].0, sched[i].1)
    requires run[|sched|] == s && Enabled(s, t, c) && |s'.threads| == |s.threads|
    requires y.Hurried? && Tallies(run, sched, s, y)
    requires forall i :: 0 <= i <= |sched| ==>
               Enabled((run + [s'])[i], (sched + [(t, c)])[i].0, (sched + [(t, c)])[i].1)
    ensures Tallies(run + [s'], sched + [(t, c)], s', Hurried(y.e, y.age + 1))
  {
    StillPrompt(run, s', y.age, |sched|);
    var run', n := run + [s'], |sched| + 1;
    forall u | 0 <= u < |s'.threads| ensures Delay(run', u, n) <= y.age + 1 {
      DelayNext(run, s', u);
    }
  }

  lemma CountedNext(run: seq<State>, sched: Schedule, s: State, y: Tally, t: nat, c: Choice, s': State)
    requires |run| == |sched| + 1 && forall i :: 0 <= i < |sched| ==> Enabled(run[i], sched[i].0, sched[i].1)
    requires run[|sched|] == s && Enabled(s, t, c)
    requires y.Counted? && Tallies(run, sched, s, y)
    requires forall i :: 0 <= i <= |sched| ==>
               Enabled((run + [s'])[i], (sched + [(t, c)])[i].0, (sched + [(t, c)])[i].1)
    ensures Tallies(run + [s'], sched + [(t, c)], s', Next1(y, s, s', ActionOf(s, t, c)))
  {
    MovesNext(run, s, s', |sched|);
    var run', sched' := run + [s'], sched + [(t, c)];
    if y.returned {
      var i :| 0 <= i < |sched| && ActionOf(run[i], sched[i].0, sched[i].1) == A.ReturnPop(y.first);
      assert ActionOf(run'[i], sched'[i].0, sched'[i].1) == A.ReturnPop(y.first);
    } else if ActionOf(s, t, c) == A.ReturnPop(y.first) {
      assert ActionOf(run'[|sched|], sched'[|sched|].0, sched'[|sched|].1) == A.ReturnPop(y.first);
    }
  }

  predicate Fair(c: Choice, y: Tally) {
    (c.CallPush? ==> MayPush(y, 1, c.elem)) && (c.Allocate? ==> c.garbage.prev.tag == INVALID_TAG)
  }

  lemma StillRun(m: int, run: seq<State>, sched: Schedule, s: State, t: nat, c: Choice, s': State)
    requires IsWrappedRun(m, run, sched) && run[|sched|] == s && Enabled(s, t, c) && s' == ExecWrapped(m, s, t, c)
    ensures IsWrappedRun(m, run + [s'], sched + [(t, c)])
  {
  }

  lemma StillFair(sched: Schedule, y: Tally, y': Tally, t: nat, c: Choice)
    requires InvalidGarbage(sched) && forall i :: 0 <= i < |sched| && sched[i].1.CallPush? ==> MayPush(y, i, sched[i].1.elem)
    requires Fair(c, y) && forall i: nat, v :: MayPush(y, i, v) ==> MayPush(y', i, v)
    ensures InvalidGarbage(sched + [(t, c)])
    ensures var sched' := sched + [(t, c)];
            forall i :: 0 <= i < |sched'| && sched'[i].1.CallPush? ==> MayPush(y', i, sched'[i].1.elem)
  {
  }

  lemma ExtendRun(m: int, run: seq<State>, sched: Schedule, s: State, y: Tally, t: nat, c: Choice, s': State)
    requires EndsIn(m, run, sched, s, y) && Enabled(s, t, c) && Fair(c, y) && s' == ExecWrapped(m, s, t, c)
    requires |s'.threads| == |s.threads|
    ensures EndsIn(m, run + [s'], sched + [(t, c)], s', Next1(y, s, s', ActionOf(s, t, c)))
  {
    StillRun(m, run, sched, s, t, c, s');
    StillFair(sched, y, Next1(y, s, s', ActionOf(s, t, c)), t, c);
    if y.Hurried? {
      HurriedNext(run, sched, s, y, t, c, s');
    } else {
      CountedNext(run, sched, s, y, t, c, s');
    }
  }

  // ---- steps of one thread ----

  lemma Moves(m: int, s: State, t: nat, y: Tally, c: Choice, s': State, act: A.Action)
    requires Reaches(m, s, y) && Enabled(s, t, c) && Fair(c, y) && |s'.threads| == |s.threads|
    requires s' == ExecWrapped(m, s, t, c) && act == ActionOf(s, t, c)
    ensures Reaches(m, s', Next1(y, s, s', act))
  {
    var run, sched :| EndsIn(m, run, sched, s, y);
    ExtendRun(m, run, sched, s, y, t, c, s');
  }

  lemma NoReturn(s: State, t: nat, c: Choice)
    requires Enabled(s, t, c) && !s.threads[t].PopCount?
    ensures !ActionOf(s, t, c).ReturnPop?
  {
  }

  /** A step of thread t to a named state that moves neither mTail nor mFreeNodeHead. */
  lemma Move(m: int, s: State, t: nat, y: Tally, s': State)
    requires Reaches(m, s, y) && Enabled(s, t, Go) && s' == ExecWrapped(m, s, t, Go) && !s.threads[t].PopCount?
    requires |s'.threads| == |s.threads| && s'.tail == s.tail && s'.free == s.free
    ensures Reaches(m, s', Aged(y, 1))
  {
    NoReturn(s, t, Go);
    Moves(m, s, t, y, Go, s', ActionOf(s, t, Go));
  }

  /** A call, or an allocation. */
  lemma Choose(m: int, s: State, t: nat, y: Tally, c: Choice, s': State)
    requires Reaches(m, s, y) && Enabled(s, t, c) && Fair(c, y) && s' == ExecWrapped(m, s, t, c) && !s.threads[t].PopCount?
    requires |s'.threads| == |s.threads| && s'.tail == s.tail && s'.free == s.free
    ensures Reaches(m, s', Aged(y, 1))
  {
    NoReturn(s, t, c);
    Moves(m, s, t, y, c, s', ActionOf(s, t, c));
  }

  /** A step of which only that it is no return is known. */
  lemma Step1(m: int, s: State, t: nat, y: Tally, s': State) returns (act: A.Action)
    requires Reaches(m, s, y) && Enabled(s, t, Go) && s' == ExecWrapped(m, s, t, Go) && !s.threads[t].PopCount?
    requires |s'.threads| == |s.threads|
    ensures !act.ReturnPop? && Reaches(m, s', Next1(y, s, s', act))
  {
    NoReturn(s, t, Go);
    act := ActionOf(s, t, Go);
    Moves(m, s, t, y, Go, s', act);
  }

  lemma TailStep(m: int, s: State, y: Tally, s': State, act: A.Action)
    requires !act.ReturnPop? && Reaches(m, s', Next1(y, s, s', act)) && s'.tail != s.tail && s'.free == s.free
    ensures Reaches(m, s', TailMoved(Aged(y, 1)))
  {
  }

  lemma FreeStep(m: int, s: State, y: Tally, s': State, act: A.Action)
    requires !act.ReturnPop? && Reaches(m, s', Next1(y, s, s', act)) && s'.tail == s.tail && s'.free != s.free
    ensures Reaches(m, s', FreeMoved(Aged(y, 1)))
  {
  }

  lemma GotoTwice(s: State, t: nat, a: Local, b: Local)
    requires t < |s.threads|
    ensures Goto(Goto(s, t, a), t, b) == Goto(s, t, b)
  {
  }

  lemma MoveReturn(m: int, s: State, t: nat, y: Tally, s': State, got: Value)
    requires Reaches(m, s, y) && t < |s.threads| && s.threads[t] == PopCount(got) && s' == ExecWrapped(m, s, t, Go)
    requires |s'.threads| == |s.threads| && s'.tail == s.tail && s'.free == s.free
    ensures Reaches(m, s', Returned(Aged(y, 1), got))
  {
    Moves(m, s, t, y, Go, s', A.ReturnPop(got));
  }

  lemma IdleDelay(run: seq<State>, t: nat, n: nat)
    requires n < |run| && t < |run[n].threads| && run[n].threads[t] == Idle
    ensures Delay(run, t, n) == 0
  {
  }

  lemma RestRun(m: int, run: seq<State>, sched: Schedule, s: State, e: Value, age: nat)
    requires EndsIn(m, run, sched, s, Hurried(e, age)) && s.threads == [Idle, Idle] && age <= BOUND
    ensures EndsIn(m, run, sched, s, Hurried(e, 0))
  {
    IdleDelay(run, 0, |sched|);
    IdleDelay(run, 1, |sched|);
  }

  /** When both threads are idle, no operation is under way. */
  lemma Rest(m: int, s: State, e: Value, age: nat)
    requires Reaches(m, s, Hurried(e, age)) && s.threads == [Idle, Idle] && age <= BOUND
    ensures Reaches(m, s, Hurried(e, 0))
  {
    var run, sched :| EndsIn(m, run, sched, s, Hurried(e, age));
    RestRun(m, run, sched, s, e, age);
  }

  predicate At(s: State, t: nat, pc: Local) {
    t < |s.threads| && s.threads[t] == pc
  }

  // ---- Pop, one thread alone ----

  lemma PopReadsEnds(m: int, s: State, t: nat, y: Tally)
    requires At(s, t, PopHead) && Reaches(m, s, y)
    ensures Reaches(m, Goto(s, t, PopPrev(s.head, s.tail)), Aged(y, 2))
  {
    var pc1, pc2 := PopTail(s.head), PopPrev(s.head, s.tail);
    Move(m, s, t, y, Goto(s, t, pc1));
    Move(m, Goto(s, t, pc1), t, Aged(y, 1), Goto(s, t, pc2));
  }

  lemma PopReads(m: int, s: State, t: nat, y: Tally, prev: Ptr)
    requires At(s, t, PopHead) && Reaches(m, s, y) && prev == Load(s.mem, s.head.addr).prev
    ensures Reaches(m, Goto(s, t, PopCheck(s.head, s.tail, prev)), Aged(y, 3))
  {
    PopReadsEnds(m, s, t, y);
    var pc2, pc3 := PopPrev(s.head, s.tail), PopCheck(s.head, s.tail, prev);
    Move(m, Goto(s, t, pc2), t, Aged(y, 2), Goto(s, t, pc3));
  }

  /** With a hint whose tag matches. */
  lemma PopDecides(m: int, s: State, t: nat, y: Tally, prev: Ptr)
    requires At(s, t, PopCheck(s.head, s.tail, prev)) && Reaches(m, s, y)
    requires s.head != s.tail && prev.tag == s.head.tag != INVALID_TAG
    ensures Reaches(m, Goto(s, t, PopValue(s.head, prev)), Aged(y, 1))
  {
    Move(m, s, t, y, Goto(s, t, PopValue(s.head, prev)));
  }

  lemma PopBelieves(m: int, s: State, t: nat, y: Tally, prev: Ptr, got: Value)
    requires At(s, t, PopCheck(s.head, s.tail, prev)) && Reaches(m, s, y)
    requires s.head != s.tail && prev.tag == s.head.tag != INVALID_TAG && got == Load(s.mem, prev.addr).value
    ensures Reaches(m, Goto(s, t, PopCas(s.head, prev, got)), Aged(y, 2))
  {
    PopDecides(m, s, t, y, prev);
    var pc1, pc2 := PopValue(s.head, prev), PopCas(s.head, prev, got);
    Move(m, Goto(s, t, pc1), t, Aged(y, 1), Goto(s, t, pc2));
  }

  function Taken(m: int, s: State, t: nat, prev: Ptr, got: Value): State
    requires t < |s.threads|
  {
    Goto(s, t, RelClear(got, s.head.addr)).(head := Ptr(prev.addr, Next(m, s.head.tag)))
  }

  lemma PopTakes(m: int, s: State, t: nat, y: Tally, prev: Ptr, got: Value)
    requires At(s, t, PopCas(s.head, prev, got)) && Reaches(m, s, y)
    ensures Reaches(m, Taken(m, s, t, prev, got), Aged(y, 1))
  {
    Move(m, s, t, y, Taken(m, s, t, prev, got));
  }

  function Cleared(s: State, t: nat, h: nat, got: Value): State
    requires t < |s.threads| && h in s.mem
  {
    Goto(s, t, RelPrev(got, h, s.free)).(mem := s.mem[h := s.mem[h].(value := BLANK)])
  }

  lemma PopBlanks(m: int, s: State, t: nat, y: Tally, h: nat, got: Value, mem: map<nat, Node>)
    requires At(s, t, RelClear(got, h)) && Reaches(m, s, y) && h in s.mem && mem == s.mem[h := s.mem[h].(value := BLANK)]
    ensures Reaches(m, Goto(s, t, RelTop(got, h)).(mem := mem), Aged(y, 1))
  {
    Move(m, s, t, y, Goto(s, t, RelTop(got, h)).(mem := mem));
  }

  lemma PopClears(m: int, s: State, t: nat, y: Tally, h: nat, got: Value)
    requires At(s, t, RelClear(got, h)) && Reaches(m, s, y) && h in s.mem
    ensures Reaches(m, Cleared(s, t, h, got), Aged(y, 2))
  {
    var mem := s.mem[h := s.mem[h].(value := BLANK)];
    PopBlanks(m, s, t, y, h, got, mem);
    Move(m, Goto(s, t, RelTop(got, h)).(mem := mem), t, Aged(y, 1), Cleared(s, t, h, got));
  }

  /** The node as ReleaseNode leaves it. */
  function Freed(n: Node, next: nat): Node {
    Node(Ptr(NULL, INVALID_TAG), n.next, next, BLANK)
  }

  function Marked(s: State, t: nat, h: nat, got: Value): State
    requires t < |s.threads| && h in s.mem
  {
    Goto(s, t, RelCas(got, h, s.free)).(mem := s.mem[h := Freed(s.mem[h], s.free.addr)])
  }

  lemma PopInvalid(m: int, s: State, t: nat, y: Tally, h: nat, got: Value, mem: map<nat, Node>)
    requires At(s, t, RelPrev(got, h, s.free)) && Reaches(m, s, y) && h in s.mem
    requires mem == s.mem[h := s.mem[h].(prev := Ptr(NULL, INVALID_TAG))]
    ensures Reaches(m, Goto(s, t, RelNext(got, h, s.free)).(mem := mem), Aged(y, 1))
  {
    Move(m, s, t, y, Goto(s, t, RelNext(got, h, s.free)).(mem := mem));
  }

  lemma MarkedShape(mem: map<nat, Node>, h: nat, next: nat)
    requires h in mem && mem[h].value == BLANK
    ensures var half := mem[h := mem[h].(prev := Ptr(NULL, INVALID_TAG))];
            half[h := half[h].(nextFree := next)] == mem[h := Freed(mem[h], next)]
  {
  }

  lemma PopMarks(m: int, s: State, t: nat, y: Tally, h: nat, got: Value)
    requires At(s, t, RelPrev(got, h, s.free)) && Reaches(m, s, y) && h in s.mem && s.mem[h].value == BLANK
    ensures Reaches(m, Marked(s, t, h, got), Aged(y, 2))
  {
    var mem := s.mem[h := s.mem[h].(prev := Ptr(NULL, INVALID_TAG))];
    PopInvalid(m, s, t, y, h, got, mem);
    MarkedShape(s.mem, h, s.free.addr);
    Move(m, Goto(s, t, RelNext(got, h, s.free)).(mem := mem), t, Aged(y, 1), Marked(s, t, h, got));
  }

  lemma PopReleases(m: int, s: State, t: nat, y: Tally, h: nat, got: Value)
    requires At(s, t, RelCas(got, h, s.free)) && Reaches(m, s, y) && m >= 2
    ensures Reaches(m, Goto(s, t, PopCount(got)).(free := Ptr(h, Next(m, s.free.tag))), FreeMoved(Aged(y, 1)))
  {
    var s1 := Goto(s, t, PopCount(got)).(free := Ptr(h, Next(m, s.free.tag)));
    var act := Step1(m, s, t, y, s1);
    FreeStep(m, s, y, s1, act);
  }

  lemma PopReturns(m: int, s: State, t: nat, y: Tally, got: Value) returns (r: State)
    requires At(s, t, PopCount(got)) && Reaches(m, s, y)
    ensures r == Goto(s, t, Idle).(size := r.size) && Reaches(m, r, Returned(Aged(y, 1), got))
  {
    r := ExecWrapped(m, s, t, Go);
    MoveReturn(m, s, t, y, r, got);
  }

  lemma PopEnds(m: int, s: State, t: nat, y: Tally, h: nat, got: Value) returns (r: State)
    requires At(s, t, RelCas(got, h, s.free)) && Reaches(m, s, y) && m >= 2
    ensures r == Goto(s, t, Idle).(free := Ptr(h, Next(m, s.free.tag)), size := r.size)
    ensures Reaches(m, r, Returned(FreeMoved(Aged(y, 2)), got))
  {
    PopReleases(m, s, t, y, h, got);
    var s1 := Goto(s, t, PopCount(got)).(free := Ptr(h, Next(m, s.free.tag)));
    r := PopReturns(m, s1, t, FreeMoved(Aged(y, 1)), got);
    GotoTwice(s, t, PopCount(got), Idle);
  }

  /** The queue after the head node has been taken off and recycled. */
  function Popped(m: int, s: State, t: nat, d: nat): State
    requires t < |s.threads| && s.head.addr in s.mem
  {
    var h := s.head.addr;
    Goto(s, t, Idle).(head := Ptr(d, Next(m, s.head.tag)), free := Ptr(h, Next(m, s.free.tag)),
                      mem := s.mem[h := Freed(s.mem[h], s.free.addr)])
  }

  /** The four stages together. */
  lemma FinishShape(m: int, s: State, t: nat, prev: Ptr, got: Value)
    requires t < |s.threads| && s.head.addr in s.mem
    ensures var h := s.head.addr;
            var s3 := Marked(Cleared(Taken(m, s, t, prev, got), t, h, got), t, h, got);
            Goto(s3, t, Idle).(free := Ptr(h, Next(m, s3.free.tag))) == Popped(m, s, t, prev.addr)
  {
    var h := s.head.addr;
    var s3 := Marked(Cleared(Taken(m, s, t, prev, got), t, h, got), t, h, got);
    assert s3.mem == s.mem[h := Freed(s.mem[h], s.free.addr)];
    assert s3.threads[t := Idle] == s.threads[t := Idle];
  }

  lemma PopFinishes(m: int, s: State, t: nat, y: Tally, prev: Ptr, got: Value) returns (r: State)
    requires At(s, t, PopCas(s.head, prev, got)) && Reaches(m, s, y) && m >= 2 && s.head.addr in s.mem
    ensures r == Popped(m, s, t, prev.addr).(size := r.size)
    ensures Reaches(m, r, Returned(FreeMoved(Aged(y, 7)), got))
  {
    var h := s.head.addr;
    PopTakes(m, s, t, y, prev, got);
    var s1 := Taken(m, s, t, prev, got);
    PopClears(m, s1, t, Aged(y, 1), h, got);
    var s2 := Cleared(s1, t, h, got);
    PopMarks(m, s2, t, Aged(y, 3), h, got);
    r := PopEnds(m, Marked(s2, t, h, got), t, Aged(y, 5), h, got);
    FinishShape(m, s, t, prev, got);
  }

  /** From the exchange up to the return. */
  lemma PopToReturn(m: int, s: State, t: nat, y: Tally, prev: Ptr, got: Value) returns (r: State)
    requires At(s, t, PopCas(s.head, prev, got)) && Reaches(m, s, y) && m >= 2 && s.head.addr in s.mem
    ensures At(r, t, PopCount(got)) && Reaches(m, r, FreeMoved(Aged(y, 6)))
  {
    var h := s.head.addr;
    PopTakes(m, s, t, y, prev, got);
    var s1 := Taken(m, s, t, prev, got);
    PopClears(m, s1, t, Aged(y, 1), h, got);
    var s2 := Cleared(s1, t, h, got);
    PopMarks(m, s2, t, Aged(y, 3), h, got);
    var s3 := Marked(s2, t, h, got);
    PopReleases(m, s3, t, Aged(y, 5), h, got);
    r := Goto(s3, t, PopCount(got)).(free := Ptr(h, Next(m, s3.free.tag)));
  }

  /** A Pop with a hint that matches, from PopHead to its exchange. */
  lemma PopExchange(m: int, s: State, t: nat, y: Tally, prev: Ptr, got: Value)
    requires At(s, t, PopHead) && Reaches(m, s, y) && s.head != s.tail
    requires prev == Load(s.mem, s.head.addr).prev && prev.tag == s.head.tag != INVALID_TAG
    requires got == Load(s.mem, prev.addr).value
    ensures Reaches(m, Goto(s, t, PopCas(s.head, prev, got)), Aged(y, 5))
  {
    PopReads(m, s, t, y, prev);
    var s1 := Goto(s, t, PopCheck(s.head, s.tail, prev));
    PopBelieves(m, s1, t, Aged(y, 3), prev, got);
    assert Goto(s1, t, PopCas(s.head, prev, got)) == Goto(s, t, PopCas(s.head, prev, got));
  }

  lemma PopCalls(m: int, s: State, t: nat, y: Tally)
    requires At(s, t, Idle) && Reaches(m, s, y)
    ensures Reaches(m, Goto(s, t, PopHead), Aged(y, 1))
  {
    Choose(m, s, t, y, CallPop, Goto(s, t, PopHead));
  }

  /** A whole Pop with a hint that matches: thirteen steps. */
  lemma Pop(m: int, s: State, t: nat, y: Tally, prev: Ptr) returns (r: State)
    requires At(s, t, Idle) && Reaches(m, s, y) && s.head != s.tail && s.head.addr in s.mem && m >= 2
    requires prev == s.mem[s.head.addr].prev && prev.tag == s.head.tag != INVALID_TAG
    ensures r == Popped(m, s, t, prev.addr).(size := r.size)
    ensures Reaches(m, r, Returned(FreeMoved(Aged(y, 13)), Load(s.mem, prev.addr).value))
  {
    var got := Load(s.mem, prev.addr).value;
    PopCalls(m, s, t, y);
    var s1 := Goto(s, t, PopHead);
    PopExchange(m, s1, t, Aged(y, 1), prev, got);
    var s2 := Goto(s1, t, PopCas(s.head, prev, got));
    r := PopFinishes(m, s2, t, Aged(y, 6), prev, got);
    assert r.threads == s.threads[t := Idle];
  }

  // ---- Push, one thread alone ----

  function Rest1(y: Tally): Value {
    if y.Hurried? then y.e else y.rest
  }

  lemma PushCalls(m: int, s: State, e: Value, t: nat, y: Tally)
    requires At(s, t, Idle) && Reaches(m, s, y) && e == Rest1(y)
    ensures Reaches(m, Goto(s, t, AcqTop(e)), Aged(y, 1))
  {
    Choose(m, s, t, y, CallPush(e), Goto(s, t, AcqTop(e)));
  }

  /** A node is acquired from the free list: four steps with the call. */
  lemma AcquireTop(m: int, s: State, e: Value, t: nat, y: Tally)
    requires At(s, t, Idle) && Reaches(m, s, y) && e == Rest1(y) && s.free.addr != NULL
    ensures Reaches(m, Goto(s, t, AcqNext(e, s.free)), Aged(y, 2))
  {
    PushCalls(m, s, e, t, y);
    Move(m, Goto(s, t, AcqTop(e)), t, Aged(y, 1), Goto(s, t, AcqNext(e, s.free)));
  }

  lemma AcquireReads(m: int, s: State, e: Value, t: nat, y: Tally, n: nat, after: nat)
    requires At(s, t, Idle) && Reaches(m, s, y) && e == Rest1(y) && s.free.addr == n != NULL && after == Load(s.mem, n).nextFree
    ensures Reaches(m, Goto(s, t, AcqCas(e, s.free, after)), Aged(y, 3))
  {
    AcquireTop(m, s, e, t, y);
    Move(m, Goto(s, t, AcqNext(e, s.free)), t, Aged(y, 2), Goto(s, t, AcqCas(e, s.free, after)));
  }

  lemma Acquire(m: int, s: State, e: Value, t: nat, y: Tally, n: nat, after: nat) returns (r: State)
    requires At(s, t, Idle) && Reaches(m, s, y) && e == Rest1(y) && s.free.addr == n != NULL && after == Load(s.mem, n).nextFree && m >= 2
    ensures r == Goto(s, t, PushValue(e, n)).(free := Ptr(after, Next(m, s.free.tag)))
    ensures Reaches(m, r, FreeMoved(Aged(y, 4)))
  {
    AcquireReads(m, s, e, t, y, n, after);
    var s1 := Goto(s, t, AcqCas(e, s.free, after));
    r := Goto(s, t, PushValue(e, n)).(free := Ptr(after, Next(m, s.free.tag)));
    var act := Step1(m, s1, t, Aged(y, 3), r);
    FreeStep(m, s1, Aged(y, 3), r, act);
  }

  function Garbage(): Node {
    Node(Ptr(NULL, INVALID_TAG), Ptr(NULL, INVALID_TAG), NULL, BLANK)
  }

  /** Or freshly allocated: two steps after the call. */
  lemma Allocated(m: int, s: State, e: Value, t: nat, y: Tally, n: nat) returns (r: State)
    requires At(s, t, AcqTop(e)) && Reaches(m, s, y) && s.free.addr == NULL && n != NULL && n !in s.mem
    ensures r == Goto(s, t, PushValue(e, n)).(mem := s.mem[n := Garbage()]) && Reaches(m, r, Aged(y, 2))
  {
    var pc1 := AcqNew(e);
    Move(m, s, t, y, Goto(s, t, pc1));
    r := Goto(s, t, PushValue(e, n)).(mem := s.mem[n := Garbage()]);
    Choose(m, Goto(s, t, pc1), t, Aged(y, 1), Allocate(n, Garbage()), r);
  }

  lemma PushStores(m: int, s: State, e: Value, t: nat, y: Tally, n: nat, mem: map<nat, Node>)
    requires At(s, t, PushValue(e, n)) && Reaches(m, s, y) && n in s.mem && mem == s.mem[n := s.mem[n].(value := e)]
    ensures Reaches(m, Goto(s, t, PushTail(e, n)).(mem := mem), Aged(y, 1))
  {
    Move(m, s, t, y, Goto(s, t, PushTail(e, n)).(mem := mem));
  }

  lemma PushPrepares(m: int, s: State, e: Value, t: nat, y: Tally, n: nat)
    requires At(s, t, PushValue(e, n)) && Reaches(m, s, y) && n in s.mem
    ensures Reaches(m, Goto(s, t, PushNext(e, n, s.tail)).(mem := s.mem[n := s.mem[n].(value := e)]), Aged(y, 2))
  {
    var mem := s.mem[n := s.mem[n].(value := e)];
    PushStores(m, s, e, t, y, n, mem);
    Move(m, Goto(s, t, PushTail(e, n)).(mem := mem), t, Aged(y, 1), Goto(s, t, PushNext(e, n, s.tail)).(mem := mem));
  }

  /** The queue with node n behind the tail, the old tail's mPrev not yet written. */
  function Linked(m: int, s: State, e: Value, t: nat, n: nat): State
    requires t < |s.threads| && n in s.mem
  {
    Goto(s, t, PushLink(e, n, s.tail)).(
      tail := Ptr(n, Next(m, s.tail.tag)),
      mem := s.mem[n := s.mem[n].(next := Ptr(s.tail.addr, Next(m, s.tail.tag)), value := e)])
  }

  lemma PushPoints(m: int, s: State, e: Value, t: nat, y: Tally, n: nat)
    requires At(s, t, PushValue(e, n)) && Reaches(m, s, y) && n in s.mem
    ensures Reaches(m, Goto(s, t, PushCas(e, n, s.tail)).(mem := Linked(m, s, e, t, n).mem), Aged(y, 3))
  {
    PushPrepares(m, s, e, t, y, n);
    var mem, mem' := s.mem[n := s.mem[n].(value := e)], Linked(m, s, e, t, n).mem;
    assert mem[n := mem[n].(next := Ptr(s.tail.addr, Next(m, s.tail.tag)))] == mem';
    Move(m, Goto(s, t, PushNext(e, n, s.tail)).(mem := mem), t, Aged(y, 2), Goto(s, t, PushCas(e, n, s.tail)).(mem := mem'));
  }

  lemma Link(m: int, s: State, e: Value, t: nat, y: Tally, n: nat) returns (r: State)
    requires At(s, t, PushValue(e, n)) && Reaches(m, s, y) && n in s.mem && n != s.tail.addr
    ensures r == Linked(m, s, e, t, n) && Reaches(m, r, TailMoved(Aged(y, 4)))
  {
    PushPoints(m, s, e, t, y, n);
    r := Linked(m, s, e, t, n);
    LinkExchanges(m, Goto(s, t, PushCas(e, n, s.tail)).(mem := r.mem), e, t, Aged(y, 3), n);
    GotoTwice(s, t, PushCas(e, n, s.tail), PushLink(e, n, s.tail));
  }

  lemma LinkExchanges(m: int, s: State, e: Value, t: nat, y: Tally, n: nat)
    requires At(s, t, PushCas(e, n, s.tail)) && Reaches(m, s, y) && n != s.tail.addr
    ensures Reaches(m, Goto(s, t, PushLink(e, n, s.tail)).(tail := Ptr(n, Next(m, s.tail.tag))), TailMoved(Aged(y, 1)))
  {
    var r := Goto(s, t, PushLink(e, n, s.tail)).(tail := Ptr(n, Next(m, s.tail.tag)));
    var act := Step1(m, s, t, y, r);
    TailStep(m, s, y, r, act);
  }

  /** The write of the old tail's mPrev, and the return. */
  lemma Finish(m: int, s: State, e: Value, t: nat, y: Tally, n: nat, tail: Ptr) returns (r: State)
    requires At(s, t, PushLink(e, n, tail)) && Reaches(m, s, y) && tail.addr in s.mem
    ensures r == Goto(s, t, Idle).(mem := s.mem[tail.addr := s.mem[tail.addr].(prev := Ptr(n, tail.tag))], size := r.size)
    ensures Reaches(m, r, Aged(y, 2))
  {
    var s1 := Goto(s, t, PushCount(e)).(mem := s.mem[tail.addr := s.mem[tail.addr].(prev := Ptr(n, tail.tag))]);
    Move(m, s, t, y, s1);
    r := ExecWrapped(m, s1, t, Go);
    Move(m, s1, t, Aged(y, 1), r);
  }

  // ---- FixList, one thread alone ----

  /** One turn of the walk. */
  function Fixed(m: int, s: State, t: nat, current: Ptr, next: nat): State
    requires t < |s.threads| && next in s.mem
  {
    Goto(s, t, FixCheck(s.head, Ptr(next, Prev(m, current.tag)))).(
      mem := s.mem[next := s.mem[next].(prev := Ptr(current.addr, Prev(m, current.tag)))])
  }

  lemma FixChecks(m: int, s: State, t: nat, y: Tally, current: Ptr)
    requires At(s, t, FixCheck(s.head, current)) && Reaches(m, s, y) && current != s.head
    ensures Reaches(m, Goto(s, t, FixNext(s.head, current)), Aged(y, 1))
  {
    Move(m, s, t, y, Goto(s, t, FixNext(s.head, current)));
  }

  lemma FixReads(m: int, s: State, t: nat, y: Tally, current: Ptr, next: Ptr)
    requires At(s, t, FixNext(s.head, current)) && Reaches(m, s, y) && next == Load(s.mem, current.addr).next
    ensures Reaches(m, Goto(s, t, FixLink(s.head, current, next)), Aged(y, 1))
  {
    Move(m, s, t, y, Goto(s, t, FixLink(s.head, current, next)));
  }

  lemma FixWrites(m: int, s: State, t: nat, y: Tally, current: Ptr, next: Ptr)
    requires At(s, t, FixLink(s.head, current, next)) && Reaches(m, s, y) && next.addr in s.mem
    ensures Reaches(m, Fixed(m, s, t, current, next.addr), Aged(y, 1))
  {
    Move(m, s, t, y, Fixed(m, s, t, current, next.addr));
  }

  lemma FixTurn(m: int, s: State, t: nat, y: Tally, current: Ptr, next: Ptr)
    requires At(s, t, FixCheck(s.head, current)) && Reaches(m, s, y) && current != s.head
    requires next == Load(s.mem, current.addr).next && next.addr in s.mem
    ensures Reaches(m, Fixed(m, s, t, current, next.addr), Aged(y, 3))
  {
    FixChecks(m, s, t, y, current);
    FixReads(m, Goto(s, t, FixNext(s.head, current)), t, Aged(y, 1), current, next);
    GotoTwice(s, t, FixNext(s.head, current), FixLink(s.head, current, next));
    FixWrites(m, Goto(s, t, FixLink(s.head, current, next)), t, Aged(y, 2), current, next);
    GotoTwice(s, t, FixLink(s.head, current, next), FixCheck(s.head, Ptr(next.addr, Prev(m, current.tag))));
  }

  /** A Pop that finds no match goes to FixList. */
  lemma PopDoubts(m: int, s: State, t: nat, y: Tally, prev: Ptr)
    requires At(s, t, PopHead) && Reaches(m, s, y) && s.head != s.tail
    requires prev == Load(s.mem, s.head.addr).prev && prev.tag != s.head.tag && prev.tag != INVALID_TAG
    ensures Reaches(m, Goto(s, t, FixCheck(s.head, s.tail)), Aged(y, 4))
  {
    PopReads(m, s, t, y, prev);
    var pc3, pc4 := PopCheck(s.head, s.tail, prev), FixCheck(s.head, s.tail);
    Move(m, Goto(s, t, pc3), t, Aged(y, 3), Goto(s, t, pc4));
  }

  lemma FixEnds(m: int, s: State, t: nat, y: Tally)
    requires At(s, t, FixCheck(s.head, s.head)) && Reaches(m, s, y)
    ensures Reaches(m, Goto(s, t, PopHead), Aged(y, 1))
  {
    Move(m, s, t, y, Goto(s, t, PopHead));
  }

  // ---- whole pushes ----

  function Fresh(e: Value, next: Ptr): Node {
    Node(Ptr(NULL, INVALID_TAG), next, NULL, e)
  }

  lemma FreshShape(mem: map<nat, Node>, e: Value, n: nat, next: Ptr)
    ensures mem[n := Garbage()][n := Garbage().(next := next, value := e)] == mem[n := Fresh(e, next)]
  {
  }

  /** The push of a fresh node, from its call up to the write of the old tail's mPrev. */
  lemma LinkNew(m: int, s: State, e: Value, t: nat, y: Tally, n: nat) returns (r: State)
    requires At(s, t, AcqTop(e)) && Reaches(m, s, y) && s.free.addr == NULL && n != NULL && n !in s.mem && n != s.tail.addr
    ensures r == Goto(s, t, PushLink(e, n, s.tail)).(tail := Ptr(n, Next(m, s.tail.tag)),
                   mem := s.mem[n := Fresh(e, Ptr(s.tail.addr, Next(m, s.tail.tag)))])
    ensures Reaches(m, r, TailMoved(Aged(y, 6)))
  {
    var s1 := Allocated(m, s, e, t, y, n);
    r := Link(m, s1, e, t, Aged(y, 2), n);
    FreshShape(s.mem, e, n, Ptr(s.tail.addr, Next(m, s.tail.tag)));
    GotoTwice(s, t, PushValue(e, n), PushLink(e, n, s.tail));
  }

  lemma LinkFresh(m: int, s: State, e: Value, t: nat, y: Tally, n: nat) returns (r: State)
    requires At(s, t, Idle) && Reaches(m, s, y) && e == Rest1(y)
    requires s.free.addr == NULL && n != NULL && n !in s.mem && n != s.tail.addr
    ensures r == Goto(s, t, PushLink(e, n, s.tail)).(tail := Ptr(n, Next(m, s.tail.tag)),
                   mem := s.mem[n := Fresh(e, Ptr(s.tail.addr, Next(m, s.tail.tag)))])
    ensures Reaches(m, r, TailMoved(Aged(y, 7)))
  {
    PushCalls(m, s, e, t, y);
    r := LinkNew(m, Goto(s, t, AcqTop(e)), e, t, Aged(y, 1), n);
    GotoTwice(s, t, AcqTop(e), PushLink(e, n, s.tail));
  }

  /** The push of the node on top of the free list, up to the write of the old tail's mPrev. */
  lemma LinkRecycled(m: int, s: State, e: Value, t: nat, y: Tally, n: nat) returns (r: State)
    requires At(s, t, Idle) && Reaches(m, s, y) && m >= 2 && e == Rest1(y) && s.free.addr == n != NULL && n in s.mem && n != s.tail.addr
    ensures r == Goto(s, t, PushLink(e, n, s.tail)).(tail := Ptr(n, Next(m, s.tail.tag)),
                   free := Ptr(s.mem[n].nextFree, Next(m, s.free.tag)),
                   mem := s.mem[n := s.mem[n].(next := Ptr(s.tail.addr, Next(m, s.tail.tag)), value := e)])
    ensures Reaches(m, r, TailMoved(FreeMoved(Aged(y, 8))))
  {
    var s1 := Acquire(m, s, e, t, y, n, s.mem[n].nextFree);
    r := Link(m, s1, e, t, FreeMoved(Aged(y, 4)), n);
    GotoTwice(s, t, PushValue(e, n), PushLink(e, n, s.tail));
  }

  /** A whole push of the node on top of the free list. */
  lemma PushRecycled(m: int, s: State, e: Value, t: nat, y: Tally, n: nat, tail: Ptr) returns (r: State)
    requires At(s, t, Idle) && Reaches(m, s, y) && m >= 2 && e == Rest1(y) && s.free.addr == n != NULL && n in s.mem
    requires s.tail == tail && tail.addr in s.mem && tail.addr != n
    ensures r.head == s.head && r.tail == Ptr(n, Next(m, tail.tag)) && r.free.addr == s.mem[n].nextFree
    ensures r.threads == s.threads[t := Idle] && Reaches(m, r, TailMoved(FreeMoved(Aged(y, 10))))
    ensures r.mem == s.mem[n := s.mem[n].(next := Ptr(tail.addr, Next(m, tail.tag)), value := e)]
                      [tail.addr := s.mem[tail.addr].(prev := Ptr(n, tail.tag))]
  {
    var s1 := LinkRecycled(m, s, e, t, y, n);
    r := Finish(m, s1, e, t, TailMoved(FreeMoved(Aged(y, 8))), n, tail);
    GotoTwice(s, t, PushLink(e, n, s.tail), Idle);
  }
}
