/** Element values and the canonical atomic container that the lock-free containers are compared with. */
module Element {
  /** The element type T of the containers: values are only ever copied. */
  type Value(==, 0, !new)

  /** The default-constructed element T(). */
  const BLANK: Value
}

/**
 The canonical atomic container: every operation is a call, one atomic effect and a return.
 A concurrent container is linearizable exactly when its calls and returns are those of a run
 of this machine, because the effect is the linearization point.
 */
module AtomicContainer {
  import opened Element

  /** Which end a Pop takes from. Insertion is always at the back. */
  datatype Order = Fifo | Lifo

  datatype Status =
    | Quiet
    | Pushing(v: Value)
    | Pushed(v: Value)
    | Popping(sawEmpty: bool)
    | Popped(v: Value)

  datatype Container = Container(contents: seq<Value>, status: seq<Status>)

  datatype Action =
    | Internal
    | CallPush(v: Value)
    | CallPop
    | Insert(v: Value)
    | Remove(v: Value)
    | SeeEmpty
    | Forget
    | Refuse
    | ReturnPush
    | ReturnPop(v: Value)
    | ReturnEmpty

  /** How the status of the acting thread moves. */
  predicate StatusStep(before: Status, act: Action, after: Status) {
    match act
    case Internal => after == before
    case CallPush(v) => before == Quiet && after == Pushing(v)
    case CallPop => before == Quiet && after == Popping(false)
    case Insert(v) => before == Pushing(v) && after == Pushed(v)
    case Remove(v) => before.Popping? && after == Popped(v)
    case SeeEmpty => before.Popping? && after == Popping(true)
    case Forget => before.Popping? && after == Popping(false)
    case Refuse => before.Pushing? && after == Quiet
    case ReturnPush => before.Pushed? && after == Quiet
    case ReturnPop(v) => before == Popped(v) && after == Quiet
    case ReturnEmpty => before == Popping(true) && after == Quiet
  }

  /** How the contents move: an element goes in at the back and comes out at the end of the order. */
  predicate ContentsStep(order: Order, before: seq<Value>, act: Action, after: seq<Value>) {
    match act
    case Insert(v) => after == before + [v]
    case Remove(v) => if order.Fifo? then before == [v] + after else before == after + [v]
    case SeeEmpty => before == [] == after
    case _ => after == before
  }

  /** One step of the atomic container by thread t. */
  predicate Step(order: Order, a: Container, t: nat, act: Action, a': Container) {
    && t < |a.status| == |a'.status|
    && a'.status == a.status[t := a'.status[t]]
    && StatusStep(a.status[t], act, a'.status[t])
    && ContentsStep(order, a.contents, act, a'.contents)
  }

  /** An event: the thread that acts and what it does. */
  type Event = (nat, Action)

  /** A run of the atomic container from the empty container with every thread quiet. */
  predicate IsTrace(order: Order, states: seq<Container>, events: seq<Event>) {
    && |states| == |events| + 1
    && states[0].contents == []
    && (forall t :: 0 <= t < |states[0].status| ==> states[0].status[t] == Quiet)
    && forall i :: 0 <= i < |events| ==> Step(order, states[i], events[i].0, events[i].1, states[i + 1])
  }

  predicate NoEffect(act: Action) {
    act.Internal? || act.SeeEmpty? || act.Forget?
  }

  /** The call that begins the operation a thread is in, and the effect the operation has had. */
  function CallOf(status: Status): Action {
    match status
    case Pushing(v) => CallPush(v)
    case Pushed(v) => CallPush(v)
    case _ => CallPop
  }

  function EffectOf(status: Status): Action {
    match status
    case Pushed(v) => Insert(v)
    case Popped(v) => Remove(v)
    case Popping(true) => SeeEmpty
    case _ => Internal
  }

  /**
   After n events thread t is inside an operation that was called at event `call` and, if its status
   says so, took effect exactly once, at event `point` (`point` is `call` while nothing has happened).
   */
  predicate Explains(states: seq<Container>, events: seq<Event>, t: nat, n: nat, call: nat, point: nat)
    requires |states| == |events| + 1 && n <= |events| && t < |states[n].status|
  {
    var status := states[n].status[t];
    && call <= point < n
    && events[call] == (t, CallOf(status))
    && (point == call <==> EffectOf(status).Internal?)
    && (call < point ==> events[point] == (t, EffectOf(status)))
    && (EffectOf(status).SeeEmpty? ==> states[point].contents == [])
    && forall m :: call < m < n && m != point && events[m].0 == t ==> NoEffect(events[m].1)
  }

  /** Linearizability: the single effect of every operation lies between its call and its return. */
  lemma {:induction false} EffectWithinOperation(
      order: Order, states: seq<Container>, events: seq<Event>, t: nat, n: nat)
    returns (call: nat, point: nat)
    requires IsTrace(order, states, events) && n <= |events|
    requires t < |states[n].status| && states[n].status[t] != Quiet
    ensures Explains(states, events, t, n, call, point)
    decreases n
  {
    SameThreads(order, states, events, n);
    var (u, act) := events[n - 1];
    assert Step(order, states[n - 1], u, act, states[n]);
    if u == t && (act.CallPush? || act.CallPop?) {
      call, point := n - 1, n - 1;
    } else {
      call, point := EffectWithinOperation(order, states, events, t, n - 1);
      if u == t && (act.Insert? || act.Remove? || act.SeeEmpty?) {
        point := n - 1;
      } else if u == t && act.Forget? {
        point := call;
      }
    }
  }

  lemma {:induction false} SameThreads(order: Order, states: seq<Container>, events: seq<Event>, n: nat)
    requires IsTrace(order, states, events) && n <= |events|
    ensures |states[n].status| == |states[0].status|
  {
    if n > 0 {
      SameThreads(order, states, events, n - 1);
      assert Step(order, states[n - 1], events[n - 1].0, events[n - 1].1, states[n]);
    }
  }

  /** Nothing comes out that was not pushed. */
  lemma {:induction false} ContainedWasPushed(
      order: Order, states: seq<Container>, events: seq<Event>, n: nat, v: Value)
    returns (call: nat)
    requires IsTrace(order, states, events) && n <= |events| && v in states[n].contents
    ensures call < n && events[call].1 == CallPush(v)
    decreases n
  {
    var (u, act) := events[n - 1];
    assert Step(order, states[n - 1], u, act, states[n]);
    if v in states[n - 1].contents {
      call := ContainedWasPushed(order, states, events, n - 1, v);
    } else {
      var point;
      call, point := EffectWithinOperation(order, states, events, u, n - 1);
    }
  }

  // ---- histories: what the callers see ----

  /** Calls and returns. */
  predicate External(act: Action) {
    !NoEffect(act) && !act.Insert? && !act.Remove?
  }

  function Visible(events: seq<Event>): seq<Event> {
    if events == [] then []
    else
      var last := events[|events| - 1];
      Visible(events[..|events| - 1]) + if External(last.1) then [last] else []
  }

  /** The calls and returns are those of some run of the atomic container. */
  ghost predicate Linearizable(order: Order, events: seq<Event>) {
    exists states, effects :: IsTrace(order, states, effects) && Visible(effects) == Visible(events)
  }

  lemma TraceLinearizable(order: Order, states: seq<Container>, events: seq<Event>)
    requires IsTrace(order, states, events)
    ensures Linearizable(order, events)
  {
  }

  /** How often an action occurs. */
  function Count(events: seq<Event>, act: Action): nat {
    if events == [] then 0
    else Count(events[..|events| - 1], act) + if events[|events| - 1].1 == act then 1 else 0
  }

  lemma {:induction false} CountVisible(events: seq<Event>, act: Action)
    requires External(act)
    ensures Count(Visible(events), act) == Count(events, act)
  {
    if events != [] {
      var less, last := events[..|events| - 1], events[|events| - 1];
      CountVisible(less, act);
      if External(last.1) {
        assert (Visible(less) + [last])[..|Visible(less)|] == Visible(less);
      } else {
        assert Visible(less) + [] == Visible(less);
      }
    }
  }

  /** What a thread is about to insert or about to return. */
  function Weight(status: Status, v: Value): nat {
    if status == Pushing(v) || status == Popped(v) then 1 else 0
  }

  function Weights(status: seq<Status>, v: Value): nat {
    if status == [] then 0 else Weight(status[0], v) + Weights(status[1..], v)
  }

  lemma {:induction false} WeightsUpdate(status: seq<Status>, t: nat, s: Status, v: Value)
    requires t < |status|
    ensures Weights(status[t := s], v) == Weights(status, v) - Weight(status[t], v) + Weight(s, v)
  {
    if t == 0 {
      assert status[t := s][1..] == status[1..];
    } else {
      assert status[t := s][1..] == status[1..][t - 1 := s];
      WeightsUpdate(status[1..], t - 1, s, v);
    }
  }

  lemma {:induction false} WeightsQuiet(status: seq<Status>, v: Value)
    requires forall t :: 0 <= t < |status| ==> status[t] == Quiet
    ensures Weights(status, v) == 0
  {
    if status != [] {
      WeightsQuiet(status[1..], v);
    }
  }

  /** How often v is in the container or in a thread's hands. */
  function Present(a: Container, v: Value): nat {
    multiset(a.contents)[v] + Weights(a.status, v)
  }

  lemma ContentsBalance(order: Order, before: seq<Value>, act: Action, after: seq<Value>, v: Value)
    requires ContentsStep(order, before, act, after)
    ensures multiset(after)[v] + (if act == Remove(v) then 1 else 0) == multiset(before)[v] + if act == Insert(v) then 1 else 0
  {
    match act {
      case Insert(w) =>
      case Remove(w) =>
        if order.Fifo? {
          assert before == [w] + after;
        } else {
          assert before == after + [w];
        }
      case _ =>
    }
  }

  lemma StatusBalance(before: Status, act: Action, after: Status, v: Value)
    requires StatusStep(before, act, after)
    ensures Weight(after, v) + (if act == Insert(v) || act == ReturnPop(v) then 1 else 0) <=
            Weight(before, v) + if act == Remove(v) || act == CallPush(v) then 1 else 0
  {
  }

  lemma StepBalance(order: Order, a: Container, t: nat, act: Action, a': Container, v: Value)
    requires Step(order, a, t, act, a')
    ensures Present(a', v) + (if act == ReturnPop(v) then 1 else 0) <= Present(a, v) + if act == CallPush(v) then 1 else 0
  {
    ContentsBalance(order, a.contents, act, a'.contents, v);
    StatusBalance(a.status[t], act, a'.status[t], v);
    WeightsUpdate(a.status, t, a'.status[t], v);
  }

  lemma {:induction false} Balance(order: Order, states: seq<Container>, events: seq<Event>, n: nat, v: Value)
    requires IsTrace(order, states, events) && n <= |events|
    ensures Count(events[..n], ReturnPop(v)) + Present(states[n], v) <= Count(events[..n], CallPush(v))
  {
    if n == 0 {
      WeightsQuiet(states[0].status, v);
    } else {
      Balance(order, states, events, n - 1, v);
      assert events[..n][..n - 1] == events[..n - 1];
      StepBalance(order, states[n - 1], events[n - 1].0, events[n - 1].1, states[n], v);
    }
  }

  /** In a linearizable history no value is returned more often than it was pushed. */
  lemma PushesCover(order: Order, events: seq<Event>, v: Value)
    requires Linearizable(order, events)
    ensures Count(events, ReturnPop(v)) <= Count(events, CallPush(v))
  {
    var states, effects :| IsTrace(order, states, effects) && Visible(effects) == Visible(events);
    Balance(order, states, effects, |effects|, v);
    assert effects[..|effects|] == effects;
    CountVisible(effects, ReturnPop(v));
    CountVisible(effects, CallPush(v));
    CountVisible(events, ReturnPop(v));
    CountVisible(events, CallPush(v));
  }

  lemma {:induction false} CountNone(events: seq<Event>, act: Action)
    requires forall i :: 0 <= i < |events| ==> events[i].1 != act
    ensures Count(events, act) == 0
  {
    if events != [] {
      CountNone(events[..|events| - 1], act);
    }
  }

  /** An action that only the first event can be occurs at most once. */
  lemma {:induction false} CountFirst(events: seq<Event>, act: Action)
    requires forall i :: 0 < i < |events| ==> events[i].1 != act
    ensures Count(events, act) <= 1
  {
    if |events| > 1 {
      CountFirst(events[..|events| - 1], act);
    }
  }

  lemma {:induction false} CountSome(events: seq<Event>, act: Action, i: nat)
    requires i < |events| && events[i].1 == act
    ensures Count(events, act) >= 1
  {
    if i < |events| - 1 {
      CountSome(events[..|events| - 1], act, i);
    }
  }

  lemma {:induction false} CountTwo(events: seq<Event>, act: Action, i: nat, j: nat)
    requires i < j < |events| && events[i].1 == act && events[j].1 == act
    ensures Count(events, act) >= 2
  {
    if j < |events| - 1 {
      CountTwo(events[..|events| - 1], act, i, j);
    } else {
      CountSome(events[..|events| - 1], act, i);
    }
  }
}
