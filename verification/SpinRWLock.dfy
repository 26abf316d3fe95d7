/**
 SpinRWLock: a 32-bit quota that readers lower by 1 and writers by the whole quota. A try first
 subtracts and, when the result is negative, adds its charge back in a second atomic step.
 A thread holds the lock at most once at a time.
 */
module SpinRWLock {
  const QUOTA: int := 0x0100_0000
  const READ: int := 1
  const WRITE: int := 0x0100_0000

  /** The value of a C int after arithmetic that may wrap. */
  function Wrap32(x: int): int {
    (x + 0x8000_0000) % 0x1_0000_0000 - 0x8000_0000
  }

  /** A failed try is in its Undo state until it has given its charge back. */
  datatype Local = Idle | Reading | Writing | UndoRead | UndoWrite

  datatype State = State(quota: int, threads: seq<Local>)

  /** Release is ReadUnlock or WriteUnlock for a holder and the second half of a failed try otherwise. */
  datatype Move = TryRead | TryWrite | Release

  function Charge(l: Local): int {
    match l
    case Idle => 0
    case Reading => READ
    case UndoRead => READ
    case Writing => WRITE
    case UndoWrite => WRITE
  }

  predicate Enabled(s: State, t: nat, m: Move) {
    t < |s.threads| && (s.threads[t].Idle? <==> !m.Release?)
  }

  function Exec(s: State, t: nat, m: Move): State
    requires Enabled(s, t, m)
  {
    match m
    case TryRead =>
      var q := Wrap32(s.quota - READ);
      State(q, s.threads[t := if q >= 0 then Reading else UndoRead])
    case TryWrite =>
      var q := Wrap32(s.quota - WRITE);
      State(q, s.threads[t := if q >= 0 then Writing else UndoWrite])
    case Release =>
      State(Wrap32(s.quota + Charge(s.threads[t])), s.threads[t := Idle])
  }

  predicate Initial(s: State) {
    s.quota == QUOTA && forall t :: 0 <= t < |s.threads| ==> s.threads[t] == Idle
  }

  type Schedule = seq<(nat, Move)>

  predicate IsRun(run: seq<State>, sched: Schedule) {
    && |run| == |sched| + 1 && Initial(run[0])
    && forall i :: 0 <= i < |sched| ==>
         Enabled(run[i], sched[i].0, sched[i].1) && run[i + 1] == Exec(run[i], sched[i].0, sched[i].1)
  }

  // ---- what the lock promises ----

  predicate Holder(l: Local) {
    l.Reading? || l.Writing?
  }

  /** A writer excludes every other holder. */
  predicate Exclusive(s: State) {
    forall t, u :: 0 <= t < |s.threads| && 0 <= u < |s.threads| && t != u && s.threads[t].Writing? ==>
      !Holder(s.threads[u])
  }

  /** The operations between their first step and the return of their charge. */
  function Outstanding(threads: seq<Local>): nat {
    if threads == [] then 0
    else (if threads[0].Idle? then 0 else 1) + Outstanding(threads[1..])
  }

  predicate Bounded(run: seq<State>, k: nat) {
    forall i :: 0 <= i < |run| ==> Outstanding(run[i].threads) <= k
  }

  // ---- charges ----

  function Total(threads: seq<Local>): int {
    if threads == [] then 0 else Charge(threads[0]) + Total(threads[1..])
  }

  lemma {:induction false} TotalUpdate(threads: seq<Local>, t: nat, l: Local)
    requires t < |threads|
    ensures Total(threads[t := l]) == Total(threads) - Charge(threads[t]) + Charge(l)
  {
    if t == 0 {
      assert threads[t := l][1..] == threads[1..];
    } else {
      assert threads[t := l][1..] == threads[1..][t - 1 := l];
      TotalUpdate(threads[1..], t - 1, l);
    }
  }

  lemma {:induction false} TotalAtLeast(threads: seq<Local>, t: nat)
    requires t < |threads|
    ensures Total(threads) >= Charge(threads[t]) >= 0
    decreases |threads|
  {
    if t > 0 {
      TotalAtLeast(threads[1..], t - 1);
    } else if |threads| > 1 {
      TotalAtLeast(threads[1..], 0);
    }
  }

  lemma TotalOfTwo(threads: seq<Local>, t: nat, u: nat)
    requires t < |threads| && u < |threads| && t != u
    ensures Total(threads) >= Charge(threads[t]) + Charge(threads[u])
  {
    TotalUpdate(threads, t, Idle);
    TotalAtLeast(threads[t := Idle], u);
  }

  lemma {:induction false} TotalOfIdle(threads: seq<Local>)
    requires forall t :: 0 <= t < |threads| ==> threads[t] == Idle
    ensures Total(threads) == 0
  {
    if threads != [] {
      TotalOfIdle(threads[1..]);
    }
  }

  lemma {:induction false} TotalBounded(threads: seq<Local>)
    ensures 0 <= Total(threads) <= Outstanding(threads) * WRITE
  {
    if threads != [] {
      TotalBounded(threads[1..]);
    }
  }

  // ---- the invariant ----

  /** The quota is exact: the initial quota less the charges not yet given back. */
  predicate QuotaExact(s: State) {
    s.quota == QUOTA - Total(s.threads)
  }

  lemma StepKeeps(s: State, t: nat, m: Move)
    requires QuotaExact(s) && Exclusive(s) && Enabled(s, t, m)
    requires Outstanding(Exec(s, t, m).threads) <= 129
    ensures QuotaExact(Exec(s, t, m)) && Exclusive(Exec(s, t, m))
  {
    var s' := Exec(s, t, m);
    TotalUpdate(s.threads, t, s'.threads[t]);
    TotalBounded(s'.threads);
    forall v, u | 0 <= v < |s'.threads| && 0 <= u < |s'.threads| && v != u && s'.threads[v].Writing?
      ensures !Holder(s'.threads[u])
    {
      TotalOfTwo(s'.threads, v, u);
    }
  }

  lemma {:induction false} RunKeeps(run: seq<State>, sched: Schedule, n: nat)
    requires IsRun(run, sched) && Bounded(run, 129) && n <= |sched|
    ensures QuotaExact(run[n]) && Exclusive(run[n])
  {
    if n == 0 {
      TotalOfIdle(run[0].threads);
    } else {
      RunKeeps(run, sched, n - 1);
      assert Outstanding(run[n].threads) <= 129;
      StepKeeps(run[n - 1], sched[n - 1].0, sched[n - 1].1);
    }
  }

  /** In every run, bounded or not, the quota is exact modulo 2^32. */
  lemma {:induction false} QuotaModulo(run: seq<State>, sched: Schedule, n: nat)
    requires IsRun(run, sched) && n <= |sched|
    ensures run[n].quota == Wrap32(QUOTA - Total(run[n].threads))
  {
    if n == 0 {
      TotalOfIdle(run[0].threads);
    } else {
      QuotaModulo(run, sched, n - 1);
      var s, t, s' := run[n - 1], sched[n - 1].0, run[n];
      TotalUpdate(s.threads, t, s'.threads[t]);
      WrapAdd(QUOTA - Total(s.threads), Charge(s.threads[t]) - Charge(s'.threads[t]));
    }
  }

  lemma WrapAdd(a: int, b: int)
    ensures Wrap32(Wrap32(a) + b) == Wrap32(a + b)
  {
  }

  /** Nothing leaks: once every operation is over, the whole quota is back, however many there were. */
  lemma QuietQuotaRestored(run: seq<State>, sched: Schedule, n: nat)
    requires IsRun(run, sched) && n <= |sched|
    requires forall t :: 0 <= t < |run[n].threads| ==> run[n].threads[t] == Idle
    ensures run[n].quota == QUOTA
  {
    QuotaModulo(run, sched, n);
    TotalOfIdle(run[n].threads);
  }

  // ---- when a try succeeds ----

  /** Read operations that hold the lock or have yet to undo their charge. */
  function Readers(threads: seq<Local>): nat {
    if threads == [] then 0
    else (if threads[0].Reading? || threads[0].UndoRead? then 1 else 0) + Readers(threads[1..])
  }

  predicate NoWriter(threads: seq<Local>) {
    forall u :: 0 <= u < |threads| ==> !threads[u].Writing? && !threads[u].UndoWrite?
  }

  lemma {:induction false} TotalOfReaders(threads: seq<Local>)
    requires NoWriter(threads)
    ensures Total(threads) == Readers(threads)
  {
    if threads != [] {
      TotalOfReaders(threads[1..]);
    }
  }

  lemma {:induction false} TotalZero(threads: seq<Local>)
    requires Total(threads) <= 0
    ensures forall u :: 0 <= u < |threads| ==> threads[u] == Idle
  {
    forall u | 0 <= u < |threads| ensures threads[u] == Idle {
      TotalAtLeast(threads, u);
    }
  }

  /** Charges that the int still holds apart: at most those of 129 writers. */
  predicate Fits(s: State, m: Move) {
    Total(s.threads) + (if m.TryRead? then 1 else 0x100_0000) <= 129 * 0x100_0000
  }

  /** With at most 129 operations, this one included, the charges fit. */
  lemma FewFit(s: State, m: Move)
    requires Outstanding(s.threads) <= 128
    ensures Fits(s, m)
  {
    TotalBounded(s.threads);
  }

  /** A read is admitted exactly when no write holds or is undoing and fewer than 2^24 reads hold or are undoing. */
  lemma ReadAdmitted(run: seq<State>, sched: Schedule, n: nat, t: nat)
    requires IsRun(run, sched) && n <= |sched| && Enabled(run[n], t, TryRead) && Fits(run[n], TryRead)
    ensures Exec(run[n], t, TryRead).threads[t].Reading? <==>
              NoWriter(run[n].threads) && Readers(run[n].threads) < 0x100_0000
    ensures !Exec(run[n], t, TryRead).threads[t].Reading? ==> Exec(run[n], t, TryRead).threads[t].UndoRead?
  {
    var threads := run[n].threads;
    QuotaModulo(run, sched, n);
    if NoWriter(threads) {
      TotalOfReaders(threads);
    } else {
      var u :| 0 <= u < |threads| && (threads[u].Writing? || threads[u].UndoWrite?);
      TotalAtLeast(threads, u);
    }
  }

  /** A write is admitted exactly when every thread is idle. */
  lemma WriteAdmitted(run: seq<State>, sched: Schedule, n: nat, t: nat)
    requires IsRun(run, sched) && n <= |sched| && Enabled(run[n], t, TryWrite) && Fits(run[n], TryWrite)
    ensures Exec(run[n], t, TryWrite).threads[t].Writing? <==>
              forall u :: 0 <= u < |run[n].threads| ==> run[n].threads[u] == Idle
    ensures !Exec(run[n], t, TryWrite).threads[t].Writing? ==> Exec(run[n], t, TryWrite).threads[t].UndoWrite?
  {
    var threads := run[n].threads;
    QuotaModulo(run, sched, n);
    if forall u :: 0 <= u < |threads| ==> threads[u] == Idle {
      TotalOfIdle(threads);
    } else {
      var u :| 0 <= u < |threads| && threads[u] != Idle;
      TotalAtLeast(threads, u);
    }
  }

  /** Unlocking, or undoing, ends the operation and gives its charge back; nobody else is touched by any step. */
  lemma ReleaseFrees(run: seq<State>, sched: Schedule, n: nat, t: nat, m: Move)
    requires IsRun(run, sched) && n <= |sched| && Enabled(run[n], t, m)
    ensures var s := Exec(run[n], t, m);
      && |s.threads| == |run[n].threads| && (forall u :: 0 <= u < |s.threads| && u != t ==> s.threads[u] == run[n].threads[u])
      && (m.Release? ==> s.threads[t] == Idle && Wrap32(s.quota - Charge(run[n].threads[t])) == run[n].quota)
  {
    QuotaModulo(run, sched, n);
    WrapAdd(run[n].quota + Charge(run[n].threads[t]), -Charge(run[n].threads[t]));
  }

  /** Readers share: while there is no writer, another reader joins those who hold the lock. */
  lemma ReadersShare(run: seq<State>, sched: Schedule, n: nat, t: nat, u: nat)
    requires IsRun(run, sched) && n <= |sched| && t < |run[n].threads| && run[n].threads[t].Reading?
    requires NoWriter(run[n].threads) && Readers(run[n].threads) < 0x100_0000 && Enabled(run[n], u, TryRead)
    ensures var s := Exec(run[n], u, TryRead); s.threads[t].Reading? && s.threads[u].Reading?
  {
    TotalOfReaders(run[n].threads);
    ReadAdmitted(run, sched, n, u);
  }

  // ---- the bound is tight ----

  ghost predicate SafeUpTo(k: nat) {
    forall run: seq<State>, sched: Schedule :: IsRun(run, sched) && Bounded(run, k) ==>
      forall i :: 0 <= i < |run| ==> Exclusive(run[i])
  }

  /** 130 threads of which the first j have tried to write: the first and the last succeed. */
  function Crowd(j: nat): State {
    State(Wrap32(QUOTA - j * WRITE),
          seq(130, i => if i >= j then Idle else if i == 0 || i == 129 then Writing else UndoWrite))
  }

  lemma CrowdStep(j: nat)
    requires j < 130
    ensures Enabled(Crowd(j), j, TryWrite) && Exec(Crowd(j), j, TryWrite) == Crowd(j + 1)
  {
    assert Exec(Crowd(j), j, TryWrite).threads == Crowd(j + 1).threads;
  }

  lemma {:induction false} OutstandingAtMost(threads: seq<Local>)
    ensures Outstanding(threads) <= |threads|
  {
    if threads != [] {
      OutstandingAtMost(threads[1..]);
    }
  }

  lemma TwoWriters() returns (run: seq<State>, sched: Schedule)
    ensures IsRun(run, sched) && Bounded(run, 130)
    ensures |run| == 131 && !Exclusive(run[130])
  {
    run, sched := seq(131, j requires 0 <= j < 131 => Crowd(j)), seq(130, j => (j, TryWrite));
    forall i | 0 <= i < |sched|
      ensures Enabled(run[i], sched[i].0, sched[i].1) && run[i + 1] == Exec(run[i], sched[i].0, sched[i].1)
    {
      CrowdStep(i);
    }
    forall i | 0 <= i < |run| ensures Outstanding(run[i].threads) <= 130 {
      OutstandingAtMost(run[i].threads);
    }
    assert run[130].threads[0].Writing? && run[130].threads[129].Writing?;
  }

  /** A writer excludes all others in every run with k outstanding operations exactly when k <= 129. */
  lemma ExclusionBound(k: nat)
    ensures SafeUpTo(k) <==> k <= 129
  {
    if k <= 129 {
      forall run: seq<State>, sched: Schedule, i | IsRun(run, sched) && Bounded(run, k) && 0 <= i < |run|
        ensures Exclusive(run[i])
      {
        RunKeeps(run, sched, i);
      }
    } else {
      var run, sched := TwoWriters();
      assert Bounded(run, k);
    }
  }
}
