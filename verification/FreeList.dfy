/**
 FreeList as a concurrent program: a Treiber list of elements that belong to the clients, linked
 through a member at a fixed offset, with a tagged head and one atomic step per shared access.
 The tag modulus is a parameter: 0 means unbounded tags, 2^16 is the modulus of the code.
 */
module FreeListModel {
  import T = StackModel

  const NULL: int := 0

  const TAGS_16: nat := 0x1_0000

  /** Where the link member sits inside an element. */
  const OFFSET: int

  datatype Head = Head(addr: int, tag: nat)

  datatype Pc =
    | Idle
    | PushTop(elem: int)
    | PushLink(elem: int, top: Head)
    | PushCas(elem: int, top: Head)
    | PushCount(elem: int)
    | PopTop
    | PopNext(top: Head)
    | PopCas(top: Head, after: int)
    | PopEmpty
    | PopCount(elem: int)

  /** Who may use an element: one client thread, or the list. */
  datatype Owner = Client(thread: nat) | Listed

  /** Elements live at addresses 1 to |links| - 1; links[a] is the link member of the one at a. */
  datatype State = State(links: seq<int>, owner: seq<Owner>, head: Head, size: int, threads: seq<Pc>)

  /** Between calls a client may hand an element over, or use its link member for something else. */
  datatype Input = Go | CallPush(elem: int) | CallPop | HandOver(elem: int, to: nat) | Scribble(elem: int, junk: int)

  /** The address of the link member, and the element it belongs to. Null gets an offset as well. */
  function LinkOf(a: int): int {
    a + OFFSET
  }

  function ObjectOf(l: int): int {
    l - OFFSET
  }

  predicate IsElem(s: State, a: int) {
    1 <= a < |s.links|
  }

  predicate Mine(s: State, t: nat, a: int) {
    IsElem(s, a) && a < |s.owner| && s.owner[a] == Client(t)
  }

  /** A client passes in, hands over and rewrites only what is its own. */
  predicate Allowed(s: State, t: nat, c: Input) {
    && t < |s.threads| && (s.threads[t].Idle? <==> !c.Go?)
    && match c
       case CallPush(e) => Mine(s, t, e)
       case HandOver(e, _) => Mine(s, t, e)
       case Scribble(e, _) => Mine(s, t, e)
       case _ => true
  }

  /** Reads of addresses without an element are given a value, and shown never to happen. */
  function LinkAt(s: State, a: int): int {
    if IsElem(s, a) then s.links[a] else 0
  }

  function SetLink(s: State, a: int, l: int): State {
    if IsElem(s, a) then s.(links := s.links[a := l]) else s
  }

  function SetOwner(s: State, a: int, o: Owner): State {
    if 0 <= a < |s.owner| then s.(owner := s.owner[a := o]) else s
  }

  function At(s: State, t: nat, l: Pc): State
    requires t < |s.threads|
  {
    s.(threads := s.threads[t := l])
  }

  /** One step of thread t with tag modulus m. */
  function Run(m: nat, s: State, t: nat, c: Input): State
    requires Allowed(s, t, c)
  {
    match s.threads[t]
    case Idle =>
      (match c
       case CallPush(e) => At(s, t, PushTop(e))
       case CallPop => At(s, t, PopTop)
       case HandOver(e, to) => SetOwner(s, e, Client(to))
       case Scribble(e, junk) => SetLink(s, e, junk)
       case Go => s)
    case PushTop(e) => At(s, t, PushLink(e, s.head))
    case PushLink(e, top) => At(SetLink(s, e, LinkOf(top.addr)), t, PushCas(e, top))
    case PushCas(e, top) =>
      if s.head == top
      then At(SetOwner(s, e, Listed), t, PushCount(e)).(head := Head(e, T.Bump(m, top.tag)))
      else At(s, t, PushTop(e))
    case PushCount(e) => At(s, t, Idle).(size := (s.size + 1) % T.SIZE_MODULUS)
    case PopTop => At(s, t, if s.head.addr == NULL then PopEmpty else PopNext(s.head))
    case PopNext(top) => At(s, t, PopCas(top, ObjectOf(LinkAt(s, top.addr))))
    case PopCas(top, after) =>
      if s.head == top
      then At(SetOwner(s, top.addr, Client(t)), t, PopCount(top.addr)).(head := Head(after, T.Bump(m, top.tag)))
      else At(s, t, PopTop)
    case PopEmpty => At(s, t, Idle)
    case PopCount(e) => At(s, t, Idle).(size := (s.size - 1) % T.SIZE_MODULUS)
  }

  /** An empty list, with every element at some client and every thread idle. */
  predicate Fresh(s: State) {
    && |s.owner| == |s.links| && s.head == Head(NULL, 0) && s.size == 0
    && (forall a :: 0 <= a < |s.owner| ==> s.owner[a].Client?)
    && (forall t :: 0 <= t < |s.threads| ==> s.threads[t] == Idle)
  }

  type Moves = seq<(nat, Input)>

  predicate IsRun(m: nat, run: seq<State>, sched: Moves) {
    && |run| == |sched| + 1 && Fresh(run[0])
    && forall i :: 0 <= i < |sched| ==>
         Allowed(run[i], sched[i].0, sched[i].1) && run[i + 1] == Run(m, run[i], sched[i].0, sched[i].1)
  }
}

/** Every run of the free list with unbounded tags is a run of the atomic LIFO. */
module FreeListProof {
  import opened Element
  import T = StackModel
  import opened FreeListModel
  import A = AtomicContainer

  // ---- the invariant; `stack` is the list, bottom first ----

  function Last(stack: seq<int>): int {
    if stack == [] then NULL else stack[|stack| - 1]
  }

  predicate OwnersOk(s: State, stack: seq<int>) {
    && |s.owner| == |s.links|
    && (forall d :: 0 <= d < |stack| ==> IsElem(s, stack[d]) && s.owner[stack[d]] == Listed)
    && (forall d, e :: 0 <= d < e < |stack| ==> stack[d] != stack[e])
    && (forall a :: 1 <= a < |s.owner| && s.owner[a] == Listed ==> a in stack)
  }

  predicate Linked(s: State, stack: seq<int>) {
    && s.head.addr == Last(stack)
    && forall d :: 0 <= d < |stack| ==> LinkAt(s, stack[d]) == LinkOf(Last(stack[..d]))
  }

  /** A remembered head: either the list has changed since, or it is still this head. */
  predicate Remembered(now: Head, top: Head) {
    top.tag <= now.tag && (top.tag == now.tag ==> top == now)
  }

  predicate Knows(s: State, t: nat, l: Pc) {
    match l
    case PushTop(e) => Mine(s, t, e)
    case PushLink(e, top) => Mine(s, t, e) && Remembered(s.head, top)
    case PushCas(e, top) => Mine(s, t, e) && Remembered(s.head, top) && LinkAt(s, e) == LinkOf(top.addr)
    case PopNext(top) => IsElem(s, top.addr) && Remembered(s.head, top)
    case PopCas(top, after) =>
      && IsElem(s, top.addr) && Remembered(s.head, top)
      && (top == s.head ==> LinkOf(after) == LinkAt(s, top.addr))
    case _ => true
  }

  predicate Inv(s: State, stack: seq<int>) {
    OwnersOk(s, stack) && Linked(s, stack) && forall t :: 0 <= t < |s.threads| ==> Knows(s, t, s.threads[t])
  }

  function DropLast(stack: seq<int>): seq<int> {
    if stack == [] then [] else stack[..|stack| - 1]
  }

  function Track(s: State, stack: seq<int>, t: nat, c: Input): seq<int>
    requires Allowed(s, t, c)
  {
    match s.threads[t]
    case PushCas(e, top) => if s.head == top then stack + [e] else stack
    case PopCas(top, _) => if s.head == top then DropLast(stack) else stack
    case _ => stack
  }

  // ---- the invariant is inductive ----

  predicate OthersStay(s: State, s': State, t: nat) {
    && |s'.threads| == |s.threads|
    && forall u :: 0 <= u < |s.threads| && u != t ==> s'.threads[u] == s.threads[u]
  }

  /** Other clients' elements are untouched, and the head moves only with its tag. */
  predicate Evolves(s: State, s': State, t: nat) {
    && OthersStay(s, s', t)
    && |s'.links| == |s.links| == |s.owner| == |s'.owner|
    && (forall a :: 1 <= a < |s.links| && s.owner[a].Client? && s.owner[a].thread != t ==>
          s'.owner[a] == s.owner[a] && s'.links[a] == s.links[a])
    && s.head.tag <= s'.head.tag
    && (s'.head.tag == s.head.tag ==> s'.head == s.head && LinkAt(s', s.head.addr) == LinkAt(s, s.head.addr))
  }

  lemma Stable(s: State, s': State, t: nat, u: nat, l: Pc)
    requires Evolves(s, s', t) && Knows(s, u, l) && u != t
    ensures Knows(s', u, l)
  {
  }

  /** The step is a compare-exchange that finds the value it expects. */
  predicate Succeeds(s: State, l: Pc) {
    match l
    case PushCas(_, top) => s.head == top
    case PopCas(top, _) => s.head == top
    case _ => false
  }

  /** Thread t moves, and may rewrite or hand over its own elements. */
  predicate Private(s: State, t: nat, s': State) {
    && OthersStay(s, s', t) && s'.head == s.head
    && |s'.links| == |s.links| == |s.owner| == |s'.owner|
    && forall a :: 1 <= a < |s.links| ==>
         && (s.owner[a] != Client(t) ==> s'.owner[a] == s.owner[a] && s'.links[a] == s.links[a])
         && (s.owner[a] == Client(t) ==> s'.owner[a] != Listed)
  }

  lemma PrivateKeeps(s: State, stack: seq<int>, t: nat, s': State)
    requires OwnersOk(s, stack) && Linked(s, stack) && Private(s, t, s')
    ensures OwnersOk(s', stack) && Linked(s', stack) && Evolves(s, s', t)
  {
    assert s.head.addr != NULL ==> IsElem(s, s.head.addr) && s.owner[s.head.addr] == Listed;
  }

  lemma PrivateStep(s: State, t: nat, c: Input, s': State)
    requires |s.owner| == |s.links| && Allowed(s, t, c) && s' == Run(0, s, t, c) && t < |s'.threads|
    requires Knows(s, t, s.threads[t]) && !Succeeds(s, s.threads[t])
    requires s.head.addr != NULL ==> IsElem(s, s.head.addr)
    ensures Private(s, t, s') && Knows(s', t, s'.threads[t])
  {
  }

  predicate Pushes(s: State, t: nat, e: int, s': State) {
    && t < |s.threads| && OthersStay(s, s', t) && |s.owner| == |s.links| && Mine(s, t, e)
    && LinkAt(s, e) == LinkOf(s.head.addr)
    && s' == s.(head := Head(e, s.head.tag + 1), owner := s.owner[e := Listed], threads := s'.threads)
  }

  lemma PushOwners(s: State, stack: seq<int>, t: nat, e: int, s': State)
    requires OwnersOk(s, stack) && Pushes(s, t, e, s')
    ensures OwnersOk(s', stack + [e])
  {
    var more := stack + [e];
    assert more[|stack|] == e;
    forall a | 1 <= a < |s'.owner| && s'.owner[a] == Listed ensures a in more {
      assert a == e || a in stack;
    }
  }

  lemma PushLinks(s: State, stack: seq<int>, t: nat, e: int, s': State)
    requires OwnersOk(s, stack) && Linked(s, stack) && Pushes(s, t, e, s')
    ensures Linked(s', stack + [e])
  {
    var more := stack + [e];
    forall d | 0 <= d < |more| ensures LinkAt(s', more[d]) == LinkOf(Last(more[..d])) {
      assert more[..d] == stack[..d];
    }
  }

  lemma PushKeeps(s: State, stack: seq<int>, t: nat, e: int, s': State)
    requires OwnersOk(s, stack) && Linked(s, stack) && Pushes(s, t, e, s')
    ensures OwnersOk(s', stack + [e]) && Linked(s', stack + [e]) && Evolves(s, s', t)
  {
    PushOwners(s, stack, t, e, s');
    PushLinks(s, stack, t, e, s');
  }

  predicate Pops(s: State, t: nat, e: int, s': State) {
    && t < |s.threads| && OthersStay(s, s', t) && |s.owner| == |s.links| && IsElem(s, e) && s.head.addr == e
    && s' == s.(head := Head(ObjectOf(LinkAt(s, e)), s.head.tag + 1), owner := s.owner[e := Client(t)],
                threads := s'.threads)
  }

  lemma PopOwners(s: State, stack: seq<int>, less: seq<int>, t: nat, e: int, s': State)
    requires OwnersOk(s, stack) && Pops(s, t, e, s') && stack == less + [e]
    ensures OwnersOk(s', less)
  {
    assert stack[|less|] == e;
    assert forall d :: 0 <= d < |less| ==> stack[d] == less[d];
    forall a | 1 <= a < |s'.owner| && s'.owner[a] == Listed ensures a in less {
      assert a in stack;
    }
  }

  lemma PopLinks(s: State, stack: seq<int>, less: seq<int>, t: nat, e: int, s': State)
    requires Linked(s, stack) && Pops(s, t, e, s') && stack == less + [e]
    ensures Linked(s', less)
  {
    assert stack[|less|] == e && stack[..|less|] == less;
    forall d | 0 <= d < |less| ensures LinkAt(s', less[d]) == LinkOf(Last(less[..d])) {
      assert less[..d] == stack[..d] && stack[d] == less[d];
    }
  }

  lemma PopKeeps(s: State, stack: seq<int>, t: nat, e: int, s': State)
    requires OwnersOk(s, stack) && Linked(s, stack) && Pops(s, t, e, s')
    ensures stack != [] && OwnersOk(s', DropLast(stack)) && Linked(s', DropLast(stack)) && Evolves(s, s', t)
  {
    assert stack == DropLast(stack) + [e];
    PopOwners(s, stack, DropLast(stack), t, e, s');
    PopLinks(s, stack, DropLast(stack), t, e, s');
  }

  lemma ExchangeShape(s: State, t: nat, c: Input, s': State)
    requires |s.owner| == |s.links| && Allowed(s, t, c) && s' == Run(0, s, t, c)
    requires Knows(s, t, s.threads[t]) && Succeeds(s, s.threads[t])
    ensures match s.threads[t]
            case PushCas(e, _) => Pushes(s, t, e, s')
            case PopCas(top, _) => Pops(s, t, top.addr, s')
    ensures t < |s'.threads| && Knows(s', t, s'.threads[t])
  {
  }

  lemma SameThreads(m: nat, s: State, t: nat, c: Input)
    requires Allowed(s, t, c)
    ensures |Run(m, s, t, c).threads| == |s.threads|
  {
  }

  lemma StepKeeps(s: State, stack: seq<int>, t: nat, c: Input, s': State)
    requires OwnersOk(s, stack) && Linked(s, stack) && Allowed(s, t, c) && s' == Run(0, s, t, c)
    requires Knows(s, t, s.threads[t]) && |s'.threads| == |s.threads|
    ensures OwnersOk(s', Track(s, stack, t, c)) && Linked(s', Track(s, stack, t, c)) && Evolves(s, s', t)
    ensures Knows(s', t, s'.threads[t])
  {
    if !Succeeds(s, s.threads[t]) {
      PrivateStep(s, t, c, s');
      PrivateKeeps(s, stack, t, s');
    } else {
      ExchangeShape(s, t, c, s');
      match s.threads[t] {
        case PushCas(e, _) => PushKeeps(s, stack, t, e, s');
        case PopCas(top, _) => PopKeeps(s, stack, t, top.addr, s');
      }
    }
  }

  lemma InvInductive(s: State, stack: seq<int>, t: nat, c: Input, s': State)
    requires Inv(s, stack) && Allowed(s, t, c) && s' == Run(0, s, t, c)
    ensures Inv(s', Track(s, stack, t, c))
  {
    SameThreads(0, s, t, c);
    StepKeeps(s, stack, t, c, s');
    forall u | 0 <= u < |s'.threads| ensures Knows(s', u, s'.threads[u]) {
      if u != t {
        Stable(s, s', t, u, s.threads[u]);
      }
    }
  }

  // ---- whole runs ----

  function History(run: seq<State>, sched: Moves, n: nat): seq<int>
    requires IsRun(0, run, sched) && n <= |sched|
  {
    if n == 0 then [] else Track(run[n - 1], History(run, sched, n - 1), sched[n - 1].0, sched[n - 1].1)
  }

  predicate InvAt(run: seq<State>, sched: Moves, n: nat)
    requires IsRun(0, run, sched) && n <= |sched|
  {
    Inv(run[n], History(run, sched, n))
  }

  /**
   In every reachable state the elements that are not at a client are exactly those on the list, each
   once, and the list is linked from the head down to null through the offset members.
   */
  lemma {:induction false} RunInvariant(run: seq<State>, sched: Moves, n: nat)
    requires IsRun(0, run, sched) && n <= |sched|
    ensures InvAt(run, sched, n)
  {
    if n > 0 {
      RunInvariant(run, sched, n - 1);
      InvAdvances(run, sched, n - 1);
    }
  }

  lemma InvAdvances(run: seq<State>, sched: Moves, n: nat)
    requires IsRun(0, run, sched) && n < |sched| && InvAt(run, sched, n)
    ensures InvAt(run, sched, n + 1)
  {
    InvInductive(run[n], History(run, sched, n), sched[n].0, sched[n].1, run[n + 1]);
  }

  // ---- refinement of the atomic LIFO; an arbitrary function names the elements ----

  function StatusOf(name: int -> Value, l: Pc): A.Status {
    match l
    case Idle => A.Quiet
    case PushTop(e) => A.Pushing(name(e))
    case PushLink(e, _) => A.Pushing(name(e))
    case PushCas(e, _) => A.Pushing(name(e))
    case PushCount(e) => A.Pushed(name(e))
    case PopEmpty => A.Popping(true)
    case PopCount(e) => A.Popped(name(e))
    case _ => A.Popping(false)
  }

  function Names(name: int -> Value, stack: seq<int>): (r: seq<Value>)
    ensures |r| == |stack| && forall i :: 0 <= i < |r| ==> r[i] == name(stack[i])
  {
    if stack == [] then [] else Names(name, stack[..|stack| - 1]) + [name(stack[|stack| - 1])]
  }

  function Abstract(name: int -> Value, s: State, stack: seq<int>): A.Container {
    A.Container(Names(name, stack),
                seq(|s.threads|, i requires 0 <= i < |s.threads| => StatusOf(name, s.threads[i])))
  }

  /** What thread t's step does to the abstract list, read off the program state alone. */
  function ActionOf(name: int -> Value, s: State, t: nat, c: Input): A.Action
    requires Allowed(s, t, c)
  {
    match s.threads[t]
    case Idle =>
      if c.CallPush? then A.CallPush(name(c.elem)) else if c.CallPop? then A.CallPop else A.Internal
    case PushCas(e, top) => if s.head == top then A.Insert(name(e)) else A.Internal
    case PushCount(_) => A.ReturnPush
    case PopTop => if s.head.addr == NULL then A.SeeEmpty else A.Internal
    case PopEmpty => A.ReturnEmpty
    case PopCas(top, _) => if s.head == top then A.Remove(name(top.addr)) else A.Internal
    case PopCount(e) => A.ReturnPop(name(e))
    case _ => A.Internal
  }

  lemma StatusMoves(name: int -> Value, s: State, t: nat, c: Input, s': State)
    requires Allowed(s, t, c) && s' == Run(0, s, t, c) && |s'.threads| == |s.threads|
    ensures A.StatusStep(StatusOf(name, s.threads[t]), ActionOf(name, s, t, c), StatusOf(name, s'.threads[t]))
    ensures OthersStay(s, s', t)
  {
  }

  lemma ContentsMove(name: int -> Value, s: State, stack: seq<int>, t: nat, c: Input)
    requires OwnersOk(s, stack) && Linked(s, stack) && Allowed(s, t, c) && Knows(s, t, s.threads[t])
    ensures A.ContentsStep(A.Lifo, Names(name, stack), ActionOf(name, s, t, c), Names(name, Track(s, stack, t, c)))
  {
  }

  lemma StepRefines(name: int -> Value, s: State, stack: seq<int>, t: nat, c: Input, s': State, stack': seq<int>)
    requires OwnersOk(s, stack) && Linked(s, stack) && Allowed(s, t, c) && Knows(s, t, s.threads[t])
    requires s' == Run(0, s, t, c) && stack' == Track(s, stack, t, c)
    ensures A.Step(A.Lifo, Abstract(name, s, stack), t, ActionOf(name, s, t, c), Abstract(name, s', stack'))
  {
    SameThreads(0, s, t, c);
    StatusMoves(name, s, t, c, s');
    ContentsMove(name, s, stack, t, c);
    var a, a' := Abstract(name, s, stack), Abstract(name, s', stack');
    assert a'.status == a.status[t := a'.status[t]];
  }

  function Abstraction(name: int -> Value, run: seq<State>, sched: Moves): seq<A.Container>
    requires IsRun(0, run, sched)
  {
    seq(|run|, i requires 0 <= i < |run| => Abstract(name, run[i], History(run, sched, i)))
  }

  function Events(name: int -> Value, m: nat, run: seq<State>, sched: Moves): seq<A.Event>
    requires IsRun(m, run, sched)
  {
    seq(|sched|, i requires 0 <= i < |sched| => (sched[i].0, ActionOf(name, run[i], sched[i].0, sched[i].1)))
  }

  lemma FreeListLinearizable(name: int -> Value, run: seq<State>, sched: Moves)
    requires IsRun(0, run, sched)
    ensures A.IsTrace(A.Lifo, Abstraction(name, run, sched), Events(name, 0, run, sched))
  {
    var states, events := Abstraction(name, run, sched), Events(name, 0, run, sched);
    forall i | 0 <= i < |events| ensures A.Step(A.Lifo, states[i], events[i].0, events[i].1, states[i + 1]) {
      RunInvariant(run, sched, i);
      StepRefines(name, run[i], History(run, sched, i), sched[i].0, sched[i].1, run[i + 1], History(run, sched, i + 1));
    }
  }

  // ---- size accounting ----

  /** The counter update a thread still owes: +1 after its push took effect, -1 after its pop did. */
  function Due(l: Pc): int {
    if l.PushCount? then 1 else if l.PopCount? then -1 else 0
  }

  function Owed(threads: seq<Pc>): int {
    if threads == [] then 0 else Due(threads[0]) + Owed(threads[1..])
  }

  lemma {:induction false} OwedUpdate(threads: seq<Pc>, t: nat, l: Pc)
    requires t < |threads|
    ensures Owed(threads[t := l]) == Owed(threads) - Due(threads[t]) + Due(l)
  {
    if t == 0 {
      assert threads[t := l][1..] == threads[1..];
    } else {
      assert threads[t := l][1..] == threads[1..][t - 1 := l];
      OwedUpdate(threads[1..], t - 1, l);
    }
  }

  lemma {:induction false} OwedIdle(threads: seq<Pc>)
    requires forall t :: 0 <= t < |threads| ==> threads[t] == Idle
    ensures Owed(threads) == 0
  {
    if threads != [] {
      OwedIdle(threads[1..]);
    }
  }

  /** mSize, modulo 2^64, is the length of the list corrected by the updates still owed. */
  predicate SizeOk(s: State, stack: seq<int>) {
    s.size == (|stack| - Owed(s.threads)) % 0x1_0000_0000_0000_0000
  }

  lemma CounterMoves(s: State, t: nat, c: Input)
    requires Allowed(s, t, c)
    ensures var n := Due(s.threads[t]);
            Run(0, s, t, c).size == if n == 0 then s.size else (s.size + n) % T.SIZE_MODULUS
    ensures var s' := Run(0, s, t, c); t < |s'.threads| && s'.threads == s.threads[t := s'.threads[t]]
  {
  }

  /** What a step does to the length is what it adds to its debt or pays to the counter. */
  lemma DebtMoves(s: State, stack: seq<int>, t: nat, c: Input, s': State)
    requires Linked(s, stack) && Allowed(s, t, c) && Knows(s, t, s.threads[t]) && s' == Run(0, s, t, c)
    requires t < |s'.threads|
    ensures |Track(s, stack, t, c)| - |stack| == Due(s'.threads[t])
  {
  }

  lemma CountOn(length: int, n: int)
    ensures (length % T.SIZE_MODULUS + n) % T.SIZE_MODULUS == (length + n) % T.SIZE_MODULUS
  {
  }

  lemma SizeStep(s: State, stack: seq<int>, t: nat, c: Input, s': State)
    requires Linked(s, stack) && Allowed(s, t, c) && Knows(s, t, s.threads[t]) && s' == Run(0, s, t, c)
    requires SizeOk(s, stack)
    ensures SizeOk(s', Track(s, stack, t, c))
  {
    CounterMoves(s, t, c);
    OwedUpdate(s.threads, t, s'.threads[t]);
    DebtMoves(s, stack, t, c, s');
    CountOn(|stack| - Owed(s.threads), Due(s.threads[t]));
    assert |Track(s, stack, t, c)| - Owed(s'.threads) == |stack| - Owed(s.threads) + Due(s.threads[t]);
  }

  predicate SizeAt(run: seq<State>, sched: Moves, n: nat)
    requires IsRun(0, run, sched) && n <= |sched|
  {
    SizeOk(run[n], History(run, sched, n))
  }

  lemma SizeAdvances(run: seq<State>, sched: Moves, n: nat)
    requires IsRun(0, run, sched) && n < |sched| && InvAt(run, sched, n) && SizeAt(run, sched, n)
    ensures SizeAt(run, sched, n + 1)
  {
    SizeStep(run[n], History(run, sched, n), sched[n].0, sched[n].1, run[n + 1]);
  }

  lemma {:induction false} SizeAccounts(run: seq<State>, sched: Moves, n: nat)
    requires IsRun(0, run, sched) && n <= |sched|
    ensures SizeAt(run, sched, n)
  {
    if n == 0 {
      OwedIdle(run[0].threads);
    } else {
      SizeAccounts(run, sched, n - 1);
      RunInvariant(run, sched, n - 1);
      SizeAdvances(run, sched, n - 1);
    }
  }
}
