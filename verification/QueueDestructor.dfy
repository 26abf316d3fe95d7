/**
 The destructor after concurrent use: at rest no Pop can spin on an invalid tag, one thread's pops
 empty the queue, and the free list and the last head node are then every node, each once.
 */
module QueueDestructor {
  import opened Element
  import opened QueueModel
  import opened QueueInvariant
  import opened QueueProof
  import opened QueueTheorems
  import A = AtomicContainer

  // ---- only a push that has not finished leaves an invalid tag behind ----

  predicate Linking(s: State, p: nat) {
    exists t :: 0 <= t < |s.threads| && s.threads[t].PushLink? && s.threads[t].tail.tag == p
  }

  /** A live node before the tail is marked invalid only while the push behind it has yet to write its mPrev. */
  predicate MarksExplained(s: State, g: Ghost) {
    forall p :: g.front <= p < |g.hist| - 1 && Load(s.mem, g.hist[p]).prev.tag == INVALID_TAG ==> Linking(s, p)
  }

  /** A step that writes no mPrev and links no node. */
  predicate Ordinary(l: Local) {
    !l.PushCas? && !l.PushLink? && !l.RelPrev? && !l.FixLink? && !l.AcqNew?
  }

  lemma OrdinaryKeeps(s: State, g: Ghost, t: nat, c: Choice, s': State, g': Ghost)
    requires Enabled(s, t, c) && s' == Exec(s, t, c) && g' == Track(s, g, t, c) && Ordinary(s.threads[t])
    ensures g'.hist == g.hist && g'.front >= g.front
    ensures forall a :: Load(s'.mem, a).prev == Load(s.mem, a).prev
    ensures forall u :: 0 <= u < |s.threads| && s.threads[u].PushLink? ==> u < |s'.threads| && s'.threads[u] == s.threads[u]
  {
  }

  /** What the steps that write an mPrev write, and where. */
  lemma WriterKeeps(s: State, g: Ghost, t: nat, c: Choice, s': State, g': Ghost)
    requires Enabled(s, t, c) && s' == Exec(s, t, c) && g' == Track(s, g, t, c) && Knows(s, g, t, s.threads[t])
    requires AllocOk(s, g) && RolesOk(s, g)
    requires s.threads[t].RelPrev? || s.threads[t].FixLink? || s.threads[t].AcqNew?
    ensures g'.hist == g.hist && g'.front == g.front
    ensures forall p :: g.front <= p < |g.hist| ==>
              var before, after := Load(s.mem, g.hist[p]).prev, Load(s'.mem, g.hist[p]).prev;
              after == before || after.tag != INVALID_TAG
    ensures forall u :: 0 <= u < |s.threads| && s.threads[u].PushLink? ==> u < |s'.threads| && s'.threads[u] == s.threads[u]
  {
  }

  lemma LinkKeeps(s: State, g: Ghost, t: nat, c: Choice, s': State, g': Ghost)
    requires Enabled(s, t, c) && s' == Exec(s, t, c) && g' == Track(s, g, t, c) && Knows(s, g, t, s.threads[t])
    requires MarksExplained(s, g) && s.threads[t].PushLink?
    ensures MarksExplained(s', g')
  {
    forall p | g'.front <= p < |g'.hist| - 1 && Load(s'.mem, g'.hist[p]).prev.tag == INVALID_TAG ensures Linking(s', p) {
      var u :| 0 <= u < |s.threads| && s.threads[u].PushLink? && s.threads[u].tail.tag == p;
      assert u != t && s'.threads[u] == s.threads[u];
    }
  }

  lemma JoinKeeps(s: State, g: Ghost, t: nat, c: Choice, s': State, g': Ghost)
    requires Enabled(s, t, c) && s' == Exec(s, t, c) && g' == Track(s, g, t, c) && EndsOk(s, g)
    requires MarksExplained(s, g) && s.threads[t].PushCas?
    ensures MarksExplained(s', g')
  {
    forall p | g'.front <= p < |g'.hist| - 1 && Load(s'.mem, g'.hist[p]).prev.tag == INVALID_TAG ensures Linking(s', p) {
      if p == |g.hist| - 1 {
        assert s'.threads[t].PushLink? && s'.threads[t].tail.tag == p;
      } else {
        var u :| 0 <= u < |s.threads| && s.threads[u].PushLink? && s.threads[u].tail.tag == p;
        assert s'.threads[u] == s.threads[u];
      }
    }
  }

  lemma MarksStep(s: State, g: Ghost, t: nat, c: Choice, s': State, g': Ghost)
    requires Enabled(s, t, c) && s' == Exec(s, t, c) && g' == Track(s, g, t, c) && Knows(s, g, t, s.threads[t])
    requires EndsOk(s, g) && AllocOk(s, g) && RolesOk(s, g) && MarksExplained(s, g)
    ensures MarksExplained(s', g')
  {
    if s.threads[t].PushLink? {
      LinkKeeps(s, g, t, c, s', g');
    } else if s.threads[t].PushCas? {
      JoinKeeps(s, g, t, c, s', g');
    } else {
      if Ordinary(s.threads[t]) {
        OrdinaryKeeps(s, g, t, c, s', g');
      } else {
        WriterKeeps(s, g, t, c, s', g');
      }
      forall p | g'.front <= p < |g'.hist| - 1 && Load(s'.mem, g'.hist[p]).prev.tag == INVALID_TAG ensures Linking(s', p) {
        var u :| 0 <= u < |s.threads| && s.threads[u].PushLink? && s.threads[u].tail.tag == p;
        assert s'.threads[u] == s.threads[u];
      }
    }
  }

  predicate MarksAt(run: seq<State>, sched: Schedule, n: nat)
    requires IsRun(run, sched) && n <= |sched|
  {
    MarksExplained(run[n], History(run, sched, n))
  }

  lemma {:induction false} MarksAlways(run: seq<State>, sched: Schedule, n: nat)
    requires IsRun(run, sched) && FreshMemoryOk(run, sched) && n <= |sched|
    ensures MarksAt(run, sched, n)
  {
    if n > 0 {
      MarksAlways(run, sched, n - 1);
      RunInvariant(run, sched, n - 1);
      MarksStep(run[n - 1], History(run, sched, n - 1), sched[n - 1].0, sched[n - 1].1, run[n], History(run, sched, n));
    }
  }

  predicate Quiet(s: State) {
    forall t :: 0 <= t < |s.threads| ==> s.threads[t] == Idle
  }

  /** At rest no live node before the tail is marked invalid, so no Pop spins. */
  lemma QuietUnmarked(run: seq<State>, sched: Schedule, n: nat, p: nat)
    requires IsRun(run, sched) && FreshMemoryOk(run, sched) && n <= |sched| && Quiet(run[n])
    requires var g := History(run, sched, n); g.front <= p < |g.hist| - 1
    ensures Load(run[n].mem, History(run, sched, n).hist[p]).prev.tag != INVALID_TAG
  {
    MarksAlways(run, sched, n);
  }

  // ---- one thread's pops, from a run that has come to rest ----

  predicate Alone(s: State, t: nat) {
    t < |s.threads| && forall u :: 0 <= u < |s.threads| && u != t ==> s.threads[u] == Idle
  }

  /** What sched adds to sched0 is thread t making calls of Pop. */
  predicate PopsOnly(sched0: Schedule, sched: Schedule, t: nat) {
    && sched0 <= sched
    && forall i :: |sched0| <= i < |sched| ==> sched[i].0 == t && (sched[i].1.Go? || sched[i].1.CallPop?)
  }

  ghost predicate SoloRun(run0: seq<State>, sched0: Schedule, t: nat, run: seq<State>, sched: Schedule, s: State, g: Ghost) {
    && IsRun(run, sched) && FreshMemoryOk(run, sched) && run0 <= run && PopsOnly(sched0, sched, t)
    && run[|sched|] == s && History(run, sched, |sched|) == g
  }

  /** The run goes on, by pops of thread t alone, to state s with history variables g. */
  ghost predicate Solo(run0: seq<State>, sched0: Schedule, t: nat, s: State, g: Ghost) {
    && Alone(s, t) && run0 != [] && s.mem.Keys == run0[|run0| - 1].mem.Keys
    && exists run, sched :: SoloRun(run0, sched0, t, run, sched, s, g)
  }

  lemma SoloFacts(run0: seq<State>, sched0: Schedule, t: nat, s: State, g: Ghost)
    requires Solo(run0, sched0, t, s, g)
    ensures Inv(s, g) && MarksExplained(s, g) && FreshTagsDiffer(s, g)
  {
    var run, sched :| SoloRun(run0, sched0, t, run, sched, s, g);
    RunInvariant(run, sched, |sched|);
    MarksAlways(run, sched, |sched|);
    assert FreshAt(run, sched, |sched|);
  }

  /** Only allocating or linking a node can break the promise about uninitialised fields. */
  lemma FreshKept(s: State, g: Ghost, t: nat, c: Choice)
    requires Enabled(s, t, c) && FreshTagsDiffer(s, g) && !s.threads[t].PushCas? && !s.threads[t].AcqNew?
    ensures FreshTagsDiffer(Exec(s, t, c), Track(s, g, t, c))
  {
  }

  lemma {:induction false} HistoryPrefix(run: seq<State>, sched: Schedule, run': seq<State>, sched': Schedule, n: nat)
    requires IsRun(run, sched) && IsRun(run', sched') && run <= run' && sched <= sched' && n <= |sched|
    ensures History(run', sched', n) == History(run, sched, n)
  {
    if n > 0 {
      HistoryPrefix(run, sched, run', sched', n - 1);
    }
  }

  lemma FreshPrefix(run: seq<State>, sched: Schedule, run': seq<State>, sched': Schedule, n: nat)
    requires IsRun(run, sched) && FreshMemoryOk(run, sched) && IsRun(run', sched')
    requires run <= run' && sched <= sched' && n <= |sched|
    ensures FreshAt(run', sched', n)
  {
    HistoryPrefix(run, sched, run', sched', n);
    assert FreshAt(run, sched, n);
  }

  lemma ExtendFresh(run: seq<State>, sched: Schedule, run': seq<State>, sched': Schedule)
    requires IsRun(run, sched) && FreshMemoryOk(run, sched) && IsRun(run', sched')
    requires run <= run' && sched <= sched' && |sched'| == |sched| + 1 && FreshAt(run', sched', |sched'|)
    ensures FreshMemoryOk(run', sched')
  {
    forall i | 0 <= i <= |sched| ensures FreshAt(run', sched', i) {
      FreshPrefix(run, sched, run', sched', i);
    }
  }

  lemma StillRun(run: seq<State>, sched: Schedule, s: State, t: nat, c: Choice, s': State)
    requires IsRun(run, sched) && run[|sched|] == s && Enabled(s, t, c) && s' == Exec(s, t, c)
    ensures IsRun(run + [s'], sched + [(t, c)])
  {
  }

  lemma HistoryNext(run: seq<State>, sched: Schedule, s: State, g: Ghost, t: nat, c: Choice, s': State)
    requires IsRun(run, sched) && run[|sched|] == s && g == History(run, sched, |sched|)
    requires Enabled(s, t, c) && IsRun(run + [s'], sched + [(t, c)])
    ensures History(run + [s'], sched + [(t, c)], |sched| + 1) == Track(s, g, t, c)
  {
    HistoryPrefix(run, sched, run + [s'], sched + [(t, c)], |sched|);
  }

  lemma ExtendSolo(run0: seq<State>, sched0: Schedule, t: nat, run: seq<State>, sched: Schedule, s: State, g: Ghost,
                   c: Choice, s': State, g': Ghost)
    requires SoloRun(run0, sched0, t, run, sched, s, g) && Enabled(s, t, c) && (c.Go? || c.CallPop?)
    requires s' == Exec(s, t, c) && g' == Track(s, g, t, c) && FreshTagsDiffer(s', g')
    ensures SoloRun(run0, sched0, t, run + [s'], sched + [(t, c)], s', g')
  {
    StillRun(run, sched, s, t, c, s');
    HistoryNext(run, sched, s, g, t, c, s');
    ExtendFresh(run, sched, run + [s'], sched + [(t, c)]);
  }

  predicate PopCode(l: Local) {
    !l.PushCas? && !l.AcqNew?
  }

  /** Pop neither allocates nor frees. */
  lemma KeysKept(s: State, g: Ghost, t: nat, c: Choice)
    requires Enabled(s, t, c) && AllocOk(s, g) && Knows(s, g, t, s.threads[t]) && !s.threads[t].AcqNew?
    ensures Exec(s, t, c).mem.Keys == s.mem.Keys
  {
    if Dereferences(s.threads[t]) {
      KnownAddress(s, g, t, s.threads[t]);
    }
  }

  lemma AloneKept(s: State, t: nat, c: Choice)
    requires Alone(s, t) && Enabled(s, t, c)
    ensures Alone(Exec(s, t, c), t)
  {
    OneThreadMoves(s, t, c);
  }

  lemma AdvanceFacts(s: State, g: Ghost, t: nat, c: Choice)
    requires Alone(s, t) && Inv(s, g) && FreshTagsDiffer(s, g) && Enabled(s, t, c) && PopCode(s.threads[t])
    ensures Alone(Exec(s, t, c), t) && Exec(s, t, c).mem.Keys == s.mem.Keys
    ensures FreshTagsDiffer(Exec(s, t, c), Track(s, g, t, c))
  {
    FreshKept(s, g, t, c);
    AloneKept(s, t, c);
    KeysKept(s, g, t, c);
  }

  lemma AdvanceRun(run0: seq<State>, sched0: Schedule, t: nat, s: State, g: Ghost, c: Choice, s': State, g': Ghost)
    requires Solo(run0, sched0, t, s, g) && Enabled(s, t, c) && (c.Go? || c.CallPop?)
    requires s' == Exec(s, t, c) && g' == Track(s, g, t, c) && FreshTagsDiffer(s', g')
    ensures exists run, sched :: SoloRun(run0, sched0, t, run, sched, s', g')
  {
    var run, sched :| SoloRun(run0, sched0, t, run, sched, s, g);
    ExtendSolo(run0, sched0, t, run, sched, s, g, c, s', g');
  }

  /** One more step of thread t. */
  lemma Advance(run0: seq<State>, sched0: Schedule, t: nat, s: State, g: Ghost, c: Choice)
    requires Solo(run0, sched0, t, s, g) && Enabled(s, t, c) && (c.Go? || c.CallPop?) && PopCode(s.threads[t])
    ensures Solo(run0, sched0, t, Exec(s, t, c), Track(s, g, t, c))
  {
    SoloFacts(run0, sched0, t, s, g);
    AdvanceFacts(s, g, t, c);
    AdvanceRun(run0, sched0, t, s, g, c, Exec(s, t, c), Track(s, g, t, c));
  }

  /** Where thread t is, with the queue as it was when its Pop began. */
  ghost predicate At(run0: seq<State>, sched0: Schedule, t: nat, s: State, g: Ghost, pc: Local, o: Ghost) {
    && Solo(run0, sched0, t, s, g) && s.threads[t] == pc
    && g.hist == o.hist && g.vals == o.vals && g.front == o.front && EndsOk(s, g)
  }

  /** A step of thread t inside its Pop, to a state that the caller names. */
  lemma Move(run0: seq<State>, sched0: Schedule, t: nat, s: State, g: Ghost, pc: Local, o: Ghost, s': State) returns (g': Ghost)
    requires At(run0, sched0, t, s, g, pc, o) && PopCode(pc) && !pc.PopCas? && !pc.PushLink? && !pc.Idle?
    requires s' == Exec(s, t, Go)
    ensures t < |s'.threads| && At(run0, sched0, t, s', g', s'.threads[t], o)
  {
    g' := Track(s, g, t, Go);
    Advance(run0, sched0, t, s, g, Go);
    SoloEnds(run0, sched0, t, s', g');
  }

  // ---- the repair walk ----

  function Named(o: Ghost, p: nat): Ptr
    requires p < |o.hist|
  {
    Ptr(o.hist[p], p)
  }

  /** The two ends of the queue by their positions. */
  lemma EndsNamed(run0: seq<State>, sched0: Schedule, t: nat, s: State, g: Ghost, pc: Local, o: Ghost)
    requires At(run0, sched0, t, s, g, pc, o)
    ensures o.front < |o.hist| && s.head == Named(o, o.front) && s.tail == Named(o, |o.hist| - 1)
  {
  }

  predicate Repaired(s: State, o: Ghost) {
    o.front + 1 < |o.hist| && Load(s.mem, o.hist[o.front]).prev == Ptr(o.hist[o.front + 1], o.front)
  }

  /** Where FixList goes from position k: to k - 1, with the mPrev there rewritten. */
  function Fixed(s: State, t: nat, o: Ghost, k: nat): State
    requires t < |s.threads| && 0 < k < |o.hist| && o.front < |o.hist|
  {
    Goto(s, t, FixCheck(Named(o, o.front), Named(o, k - 1))).(mem := SetPrev(s.mem, o.hist[k - 1], Ptr(o.hist[k], k - 1)))
  }

  lemma FixReads(run0: seq<State>, sched0: Schedule, t: nat, s: State, g: Ghost, o: Ghost, k: nat) returns (s': State, g': Ghost)
    requires o.front < k < |o.hist| && At(run0, sched0, t, s, g, FixCheck(Named(o, o.front), Named(o, k)), o)
    ensures s' == Goto(s, t, FixNext(Named(o, o.front), Named(o, k)))
    ensures At(run0, sched0, t, s', g', FixNext(Named(o, o.front), Named(o, k)), o)
  {
    s' := Goto(s, t, FixNext(Named(o, o.front), Named(o, k)));
    g' := Move(run0, sched0, t, s, g, s.threads[t], o, s');
  }

  lemma FixFollows(run0: seq<State>, sched0: Schedule, t: nat, s: State, g: Ghost, o: Ghost, k: nat)
    returns (s': State, g': Ghost, next: Ptr)
    requires o.front < k < |o.hist| && At(run0, sched0, t, s, g, FixNext(Named(o, o.front), Named(o, k)), o)
    ensures s' == Goto(s, t, FixLink(Named(o, o.front), Named(o, k), next)) && next.addr == o.hist[k - 1]
    ensures At(run0, sched0, t, s', g', FixLink(Named(o, o.front), Named(o, k), next), o)
  {
    next := Load(s.mem, o.hist[k]).next;
    s' := Goto(s, t, FixLink(Named(o, o.front), Named(o, k), next));
    g' := Move(run0, sched0, t, s, g, s.threads[t], o, s');
    SoloFacts(run0, sched0, t, s', g');
    assert Knows(s', g', t, s'.threads[t]);
  }

  lemma FixWrites(run0: seq<State>, sched0: Schedule, t: nat, s: State, g: Ghost, o: Ghost, k: nat, next: Ptr)
    returns (s': State, g': Ghost)
    requires o.front < k < |o.hist| && At(run0, sched0, t, s, g, FixLink(Named(o, o.front), Named(o, k), next), o)
    requires next.addr == o.hist[k - 1]
    ensures s' == Fixed(s, t, o, k) && At(run0, sched0, t, s', g', FixCheck(Named(o, o.front), Named(o, k - 1)), o)
  {
    s' := Fixed(s, t, o, k);
    g' := Move(run0, sched0, t, s, g, s.threads[t], o, s');
  }

  /** One turn of FixList. */
  lemma FixOne(run0: seq<State>, sched0: Schedule, t: nat, s: State, g: Ghost, o: Ghost, k: nat) returns (s': State, g': Ghost)
    requires o.front < k < |o.hist| && At(run0, sched0, t, s, g, FixCheck(Named(o, o.front), Named(o, k)), o)
    ensures At(run0, sched0, t, s', g', FixCheck(Named(o, o.front), Named(o, k - 1)), o)
    ensures k - 1 == o.front ==> Repaired(s', o)
  {
    var s1, g1 := FixReads(run0, sched0, t, s, g, o, k);
    var s2, g2, next := FixFollows(run0, sched0, t, s1, g1, o, k);
    s', g' := FixWrites(run0, sched0, t, s2, g2, o, k, next);
  }

  lemma {:induction false} FixAll(run0: seq<State>, sched0: Schedule, t: nat, s: State, g: Ghost, o: Ghost, k: nat)
    returns (s': State, g': Ghost)
    requires o.front < k < |o.hist| && At(run0, sched0, t, s, g, FixCheck(Named(o, o.front), Named(o, k)), o)
    ensures At(run0, sched0, t, s', g', PopHead, o) && Repaired(s', o)
    decreases k
  {
    s', g' := FixOne(run0, sched0, t, s, g, o, k);
    if k - 1 > o.front {
      s', g' := FixAll(run0, sched0, t, s', g', o, k - 1);
    } else {
      s', g' := FixStops(run0, sched0, t, s', g', o);
    }
  }

  lemma FixStops(run0: seq<State>, sched0: Schedule, t: nat, s: State, g: Ghost, o: Ghost) returns (s': State, g': Ghost)
    requires Repaired(s, o) && At(run0, sched0, t, s, g, FixCheck(Named(o, o.front), Named(o, o.front)), o)
    ensures At(run0, sched0, t, s', g', PopHead, o) && Repaired(s', o)
  {
    s' := Goto(s, t, PopHead);
    g' := Move(run0, sched0, t, s, g, s.threads[t], o, s');
  }

  // ---- one Pop ----

  /** From PopHead, the three reads. */
  lemma ReadAll(run0: seq<State>, sched0: Schedule, t: nat, s: State, g: Ghost, o: Ghost) returns (s': State, g': Ghost)
    requires At(run0, sched0, t, s, g, PopHead, o)
    ensures s' == Goto(s, t, PopCheck(s.head, s.tail, Load(s.mem, s.head.addr).prev))
    ensures At(run0, sched0, t, s', g', PopCheck(s.head, s.tail, Load(s.mem, s.head.addr).prev), o)
  {
    var s1 := Goto(s, t, PopTail(s.head));
    var g1 := Move(run0, sched0, t, s, g, s.threads[t], o, s1);
    var s2 := Goto(s, t, PopPrev(s.head, s.tail));
    var g2 := Move(run0, sched0, t, s1, g1, s1.threads[t], o, s2);
    s' := Goto(s, t, PopCheck(s.head, s.tail, Load(s.mem, s.head.addr).prev));
    g' := Move(run0, sched0, t, s2, g2, s2.threads[t], o, s');
  }

  /** With a true hint, up to the exchange of mHead. */
  lemma Believe(run0: seq<State>, sched0: Schedule, t: nat, s: State, g: Ghost, o: Ghost, prev: Ptr)
    returns (s': State, g': Ghost, got: Value)
    requires s.head != s.tail && prev.tag == s.head.tag != INVALID_TAG
    requires At(run0, sched0, t, s, g, PopCheck(s.head, s.tail, prev), o)
    ensures At(run0, sched0, t, s', g', PopCas(s'.head, prev, got), o)
  {
    var s1 := Goto(s, t, PopValue(s.head, prev));
    var g1 := Move(run0, sched0, t, s, g, s.threads[t], o, s1);
    got := Load(s.mem, prev.addr).value;
    s' := Goto(s, t, PopCas(s.head, prev, got));
    g' := Move(run0, sched0, t, s1, g1, s1.threads[t], o, s');
  }

  /** With a hint that does not match, through FixList and back. */
  lemma Repair(run0: seq<State>, sched0: Schedule, t: nat, s: State, g: Ghost, o: Ghost, prev: Ptr) returns (s': State, g': Ghost)
    requires o.front + 1 < |o.hist| && At(run0, sched0, t, s, g, PopCheck(s.head, s.tail, prev), o)
    requires prev.tag != s.head.tag && prev.tag != INVALID_TAG
    ensures At(run0, sched0, t, s', g', PopHead, o) && Repaired(s', o)
  {
    var s1, g1 := Doubt(run0, sched0, t, s, g, o, prev);
    s', g' := FixAll(run0, sched0, t, s1, g1, o, |o.hist| - 1);
  }

  lemma Doubt(run0: seq<State>, sched0: Schedule, t: nat, s: State, g: Ghost, o: Ghost, prev: Ptr) returns (s': State, g': Ghost)
    requires o.front + 1 < |o.hist| && At(run0, sched0, t, s, g, PopCheck(s.head, s.tail, prev), o)
    requires prev.tag != s.head.tag && prev.tag != INVALID_TAG
    ensures At(run0, sched0, t, s', g', FixCheck(Named(o, o.front), Named(o, |o.hist| - 1)), o)
  {
    EndsNamed(run0, sched0, t, s, g, s.threads[t], o);
    DoubtShape(s, t, prev);
    s' := Goto(s, t, FixCheck(s.head, s.tail));
    g' := Move(run0, sched0, t, s, g, s.threads[t], o, s');
  }

  lemma DoubtShape(s: State, t: nat, prev: Ptr)
    requires t < |s.threads| && s.threads[t] == PopCheck(s.head, s.tail, prev) && s.head != s.tail
    requires prev.tag != s.head.tag && prev.tag != INVALID_TAG
    ensures Exec(s, t, Go) == Goto(s, t, FixCheck(s.head, s.tail))
  {
  }

  /** The Pop up to the exchange, whatever the hint was. */
  lemma PopToExchange(run0: seq<State>, sched0: Schedule, t: nat, s: State, g: Ghost, o: Ghost)
    returns (s': State, g': Ghost, prev: Ptr, got: Value)
    requires o.front + 1 < |o.hist| && At(run0, sched0, t, s, g, PopHead, o)
    requires Load(s.mem, s.head.addr).prev.tag != INVALID_TAG
    ensures At(run0, sched0, t, s', g', PopCas(s'.head, prev, got), o)
  {
    prev := Load(s.mem, s.head.addr).prev;
    var s1, g1 := ReadAll(run0, sched0, t, s, g, o);
    if prev.tag != s.head.tag {
      var s2, g2 := Repair(run0, sched0, t, s1, g1, o, prev);
      prev := Load(s2.mem, s2.head.addr).prev;
      s1, g1 := ReadAll(run0, sched0, t, s2, g2, o);
    }
    s', g', got := Believe(run0, sched0, t, s1, g1, o, prev);
  }

  lemma TakeShape(s: State, g: Ghost, t: nat, prev: Ptr, got: Value, s': State)
    requires t < |s.threads| && s.threads[t] == PopCas(s.head, prev, got)
    requires s' == Goto(s, t, RelClear(got, s.head.addr)).(head := Ptr(prev.addr, s.head.tag + 1))
    ensures Enabled(s, t, Go) && Exec(s, t, Go) == s'
    ensures var g' := Track(s, g, t, Go); g'.hist == g.hist && g'.vals == g.vals && g'.front == g.front + 1
  {
  }

  /** The exchange of mHead: the front moves on. */
  lemma Take(run0: seq<State>, sched0: Schedule, t: nat, s: State, g: Ghost, o: Ghost, prev: Ptr, got: Value)
    returns (s': State, g': Ghost, o': Ghost)
    requires At(run0, sched0, t, s, g, PopCas(s.head, prev, got), o)
    ensures o' == o.(front := o.front + 1)
    ensures At(run0, sched0, t, s', g', RelClear(got, s.head.addr), o')
  {
    s' := Goto(s, t, RelClear(got, s.head.addr)).(head := Ptr(prev.addr, s.head.tag + 1));
    TakeShape(s, g, t, prev, got, s');
    g', o' := Track(s, g, t, Go), o.(front := o.front + 1);
    Advance(run0, sched0, t, s, g, Go);
    SoloEnds(run0, sched0, t, s', g');
  }

  lemma SoloEnds(run0: seq<State>, sched0: Schedule, t: nat, s: State, g: Ghost)
    requires Solo(run0, sched0, t, s, g)
    ensures EndsOk(s, g)
  {
    SoloFacts(run0, sched0, t, s, g);
  }

  /** ReleaseNode up to its reading of mFreeNodeHead. */
  lemma Clear(run0: seq<State>, sched0: Schedule, t: nat, s: State, g: Ghost, o: Ghost, got: Value, n: nat)
    returns (s': State, g': Ghost)
    requires At(run0, sched0, t, s, g, RelClear(got, n), o)
    ensures At(run0, sched0, t, s', g', RelPrev(got, n, s'.free), o)
  {
    var s1 := Goto(s, t, RelTop(got, n)).(mem := SetValue(s.mem, n, BLANK));
    var g1 := Move(run0, sched0, t, s, g, s.threads[t], o, s1);
    s' := Goto(s1, t, RelPrev(got, n, s1.free));
    g' := Move(run0, sched0, t, s1, g1, s1.threads[t], o, s');
  }

  lemma Mark(run0: seq<State>, sched0: Schedule, t: nat, s: State, g: Ghost, o: Ghost, got: Value, n: nat)
    returns (s': State, g': Ghost)
    requires At(run0, sched0, t, s, g, RelPrev(got, n, s.free), o)
    ensures At(run0, sched0, t, s', g', RelNext(got, n, s'.free), o)
  {
    s' := Goto(s, t, RelNext(got, n, s.free)).(mem := SetPrev(s.mem, n, Ptr(NULL, INVALID_TAG)));
    g' := Move(run0, sched0, t, s, g, s.threads[t], o, s');
  }

  lemma Hook(run0: seq<State>, sched0: Schedule, t: nat, s: State, g: Ghost, o: Ghost, got: Value, n: nat)
    returns (s': State, g': Ghost)
    requires At(run0, sched0, t, s, g, RelNext(got, n, s.free), o)
    ensures At(run0, sched0, t, s', g', RelCas(got, n, s'.free), o)
  {
    s' := Goto(s, t, RelCas(got, n, s.free)).(mem := SetNextFree(s.mem, n, s.free.addr));
    g' := Move(run0, sched0, t, s, g, s.threads[t], o, s');
  }

  lemma Release(run0: seq<State>, sched0: Schedule, t: nat, s: State, g: Ghost, o: Ghost, got: Value, n: nat)
    returns (s': State, g': Ghost)
    requires At(run0, sched0, t, s, g, RelCas(got, n, s.free), o)
    ensures At(run0, sched0, t, s', g', PopCount(got), o)
  {
    s' := Goto(s, t, PopCount(got)).(free := Ptr(n, s.free.tag + 1));
    g' := Move(run0, sched0, t, s, g, s.threads[t], o, s');
  }

  lemma CountOut(run0: seq<State>, sched0: Schedule, t: nat, s: State, g: Ghost, o: Ghost, got: Value)
    returns (s': State, g': Ghost)
    requires At(run0, sched0, t, s, g, PopCount(got), o)
    ensures At(run0, sched0, t, s', g', Idle, o) && Returns(s, t, s', got)
  {
    s' := Exec(s, t, Go);
    g' := Move(run0, sched0, t, s, g, s.threads[t], o, s');
  }

  /** The call of Pop. */
  lemma Call(run0: seq<State>, sched0: Schedule, t: nat, s: State, g: Ghost, o: Ghost) returns (s': State, g': Ghost)
    requires At(run0, sched0, t, s, g, Idle, o)
    ensures s' == Goto(s, t, PopHead) && At(run0, sched0, t, s', g', PopHead, o)
  {
    s', g' := Goto(s, t, PopHead), Track(s, g, t, CallPop);
    Advance(run0, sched0, t, s, g, CallPop);
    SoloEnds(run0, sched0, t, s', g');
  }

  /** At rest the head's mPrev is not marked invalid, unless the queue is empty. */
  lemma HeadUnmarked(run0: seq<State>, sched0: Schedule, t: nat, s: State, g: Ghost, o: Ghost)
    requires At(run0, sched0, t, s, g, Idle, o) && o.front + 1 < |o.hist|
    ensures Load(s.mem, s.head.addr).prev.tag != INVALID_TAG
  {
    SoloFacts(run0, sched0, t, s, g);
    assert forall p :: !Linking(s, p);
  }

  /** What a Pop is about to exchange for is the value pushed behind the front. */
  lemma HoldsFront(run0: seq<State>, sched0: Schedule, t: nat, s: State, g: Ghost, o: Ghost, prev: Ptr, got: Value)
    requires At(run0, sched0, t, s, g, PopCas(s.head, prev, got), o)
    ensures o.front + 1 < |o.vals| && got == o.vals[o.front + 1]
  {
    SoloFacts(run0, sched0, t, s, g);
    assert Knows(s, g, t, s.threads[t]);
  }

  /** The step from state `last` is thread t's return from Pop with this value. */
  predicate Returns(last: State, t: nat, s': State, got: Value) {
    Enabled(last, t, Go) && s' == Exec(last, t, Go) && ActionOf(last, t, Go) == A.ReturnPop(got)
  }

  /** One whole Pop from rest to rest takes the front and returns its value. */
  lemma PopOne(run0: seq<State>, sched0: Schedule, t: nat, s: State, g: Ghost, o: Ghost)
    returns (last: State, s': State, g': Ghost, o': Ghost, got: Value)
    requires At(run0, sched0, t, s, g, Idle, o) && o.front + 1 < |o.hist|
    ensures o' == o.(front := o.front + 1) && At(run0, sched0, t, s', g', Idle, o')
    ensures o.front + 1 < |o.vals| && got == o.vals[o.front + 1] && Returns(last, t, s', got)
  {
    HeadUnmarked(run0, sched0, t, s, g, o);
    var s1, g1 := Call(run0, sched0, t, s, g, o);
    var s2, g2, prev;
    s2, g2, prev, got := PopToExchange(run0, sched0, t, s1, g1, o);
    HoldsFront(run0, sched0, t, s2, g2, o, prev, got);
    var s3, g3;
    s3, g3, o' := Take(run0, sched0, t, s2, g2, o, prev, got);
    var s4, g4 := Clear(run0, sched0, t, s3, g3, o', got, s2.head.addr);
    var s5, g5 := Mark(run0, sched0, t, s4, g4, o', got, s2.head.addr);
    var s6, g6 := Hook(run0, sched0, t, s5, g5, o', got, s2.head.addr);
    var s7, g7 := Release(run0, sched0, t, s6, g6, o', got, s2.head.addr);
    s', g' := CountOut(run0, sched0, t, s7, g7, o', got);
    last := s7;
  }

  /** The Pop that finds the queue empty and returns false. */
  lemma PopFails(run0: seq<State>, sched0: Schedule, t: nat, s: State, g: Ghost, o: Ghost)
    returns (last: State, s': State, g': Ghost)
    requires At(run0, sched0, t, s, g, Idle, o) && o.front + 1 == |o.hist|
    ensures At(run0, sched0, t, s', g', Idle, o)
    ensures Enabled(last, t, Go) && s' == Exec(last, t, Go) && ActionOf(last, t, Go) == A.ReturnEmpty
  {
    EndsNamed(run0, sched0, t, s, g, Idle, o);
    var s1, g1 := Call(run0, sched0, t, s, g, o);
    var s2, g2 := ReadAll(run0, sched0, t, s1, g1, o);
    last := s2;
    s', g' := SeeEmpty(run0, sched0, t, s2, g2, o, Load(s1.mem, s1.head.addr).prev);
  }

  lemma SeeEmpty(run0: seq<State>, sched0: Schedule, t: nat, s: State, g: Ghost, o: Ghost, prev: Ptr) returns (s': State, g': Ghost)
    requires At(run0, sched0, t, s, g, PopCheck(s.head, s.tail, prev), o) && s.head == s.tail
    ensures At(run0, sched0, t, s', g', Idle, o) && s' == Exec(s, t, Go)
  {
    s' := Goto(s, t, Idle);
    g' := Move(run0, sched0, t, s, g, s.threads[t], o, s');
  }

  /** The first loop of the destructor: pops until one returns false. */
  lemma {:induction false} PopAll(run0: seq<State>, sched0: Schedule, t: nat, s: State, g: Ghost, o: Ghost)
    returns (s': State, g': Ghost)
    requires At(run0, sched0, t, s, g, Idle, o) && o.front < |o.hist|
    ensures At(run0, sched0, t, s', g', Idle, o.(front := |o.hist| - 1))
    decreases |o.hist| - o.front
  {
    if o.front + 1 == |o.hist| {
      var _, s1, g1 := PopFails(run0, sched0, t, s, g, o);
      s', g' := s1, g1;
    } else {
      var _, s1, g1, o1, _ := PopOne(run0, sched0, t, s, g, o);
      s', g' := PopAll(run0, sched0, t, s1, g1, o1);
    }
  }

  // ---- what is left to delete ----

  /** Following mNextFreeNode from a node meets exactly these nodes, and then null. */
  predicate Walks(mem: map<nat, Node>, from: nat, nodes: seq<nat>)
    decreases |nodes|
  {
    if nodes == [] then from == NULL
    else from == nodes[0] && from != NULL && from in mem && Walks(mem, mem[from].nextFree, nodes[1..])
  }

  function Reversed(s: seq<nat>): (r: seq<nat>)
    ensures |r| == |s| && forall i :: 0 <= i < |s| ==> r[i] == s[|s| - 1 - i]
  {
    if s == [] then [] else [s[|s| - 1]] + Reversed(s[..|s| - 1])
  }

  lemma {:induction false} PoolWalk(mem: map<nat, Node>, pool: seq<nat>)
    requires NULL !in mem && forall i :: 0 <= i < |pool| ==> pool[i] in mem && Load(mem, pool[i]).nextFree == Top(pool[..i])
    ensures Walks(mem, Top(pool), Reversed(pool))
  {
    if pool != [] {
      var less := pool[..|pool| - 1];
      forall i | 0 <= i < |less| ensures less[i] in mem && Load(mem, less[i]).nextFree == Top(less[..i]) {
        assert less[..i] == pool[..i];
      }
      PoolWalk(mem, less);
      assert Reversed(pool)[1..] == Reversed(less);
    }
  }

  /** The nodes deleted, each allocated node once: first those of the free list, then the last head. */
  predicate DeletesAll(s: State, deleted: seq<nat>) {
    && deleted != [] && Walks(s.mem, s.free.addr, deleted[..|deleted| - 1]) && deleted[|deleted| - 1] == s.head.addr
    && (forall i, j :: 0 <= i < j < |deleted| ==> deleted[i] != deleted[j])
    && (forall a :: a in deleted ==> a in s.mem) && (forall a :: a in s.mem ==> a in deleted)
  }

  lemma PlaceInReverse(pool: seq<nat>, last: nat, a: nat)
    requires a in pool || a == last
    ensures a in Reversed(pool) + [last]
  {
    if a in pool {
      var i :| 0 <= i < |pool| && pool[i] == a;
      assert Reversed(pool)[|pool| - 1 - i] == a;
    }
  }

  lemma ReversedDistinct(pool: seq<nat>, last: nat)
    requires (forall i, j :: 0 <= i < j < |pool| ==> pool[i] != pool[j]) && last !in pool
    ensures var all := Reversed(pool) + [last]; forall i, j :: 0 <= i < j < |all| ==> all[i] != all[j]
    ensures forall a :: a in Reversed(pool) ==> a in pool
  {
  }

  /** When every node is the head node or pooled, the two loops delete every node. */
  lemma PoolDeleted(s: State, pool: seq<nat>) returns (deleted: seq<nat>)
    requires Walks(s.mem, s.free.addr, Reversed(pool)) && s.head.addr !in pool
    requires forall i, j :: 0 <= i < j < |pool| ==> pool[i] != pool[j]
    requires forall a :: a in s.mem <==> a in pool || a == s.head.addr
    ensures DeletesAll(s, deleted)
  {
    deleted := Reversed(pool) + [s.head.addr];
    assert deleted[..|deleted| - 1] == Reversed(pool);
    ReversedDistinct(pool, s.head.addr);
    forall a | a in s.mem ensures a in deleted {
      PlaceInReverse(pool, s.head.addr, a);
    }
  }

  lemma PooledIsPool(g: Ghost, a: nat)
    ensures a in Pooled(g) <==> a in g.pool
  {
  }

  /** At rest and empty, every node is the head node or pooled. */
  lemma RestPlaces(s: State, g: Ghost)
    requires EndsOk(s, g) && Partitioned(s, g) && Quiet(s) && g.front + 1 == |g.hist|
    ensures s.head.addr !in g.pool && forall a :: a in s.mem <==> a in g.pool || a == s.head.addr
  {
    assert Held(s) == {} && Segment(g) == {s.head.addr};
    forall a ensures a in s.mem <==> a in g.pool || a == s.head.addr {
      PooledIsPool(g, a);
      assert a in s.mem.Keys <==> a in Segment(g) + Pooled(g) + Held(s);
    }
    PooledIsPool(g, s.head.addr);
  }

  lemma RestDeleted(s: State, g: Ghost) returns (deleted: seq<nat>)
    requires EndsOk(s, g) && AllocOk(s, g) && PoolOk(s, g) && Partitioned(s, g)
    requires Quiet(s) && g.front + 1 == |g.hist|
    ensures DeletesAll(s, deleted)
  {
    PoolWalk(s.mem, g.pool);
    RestPlaces(s, g);
    deleted := PoolDeleted(s, g.pool);
  }

  lemma AtRest(run: seq<State>, sched: Schedule, t: nat, s: State, g: Ghost)
    requires IsRun(run, sched) && FreshMemoryOk(run, sched) && t < |run[|sched|].threads|
    requires s == run[|sched|] && g == History(run, sched, |sched|) && Quiet(s)
    ensures At(run, sched, t, s, g, Idle, g)
  {
    assert SoloRun(run, sched, t, run, sched, s, g);
    SoloFacts(run, sched, t, s, g);
  }

  lemma SoloDeleted(run: seq<State>, sched: Schedule, s: State, g: Ghost) returns (deleted: seq<nat>)
    requires IsRun(run, sched) && FreshMemoryOk(run, sched) && s == run[|sched|] && g == History(run, sched, |sched|)
    requires Quiet(s) && g.front + 1 == |g.hist|
    ensures DeletesAll(s, deleted)
  {
    RunInvariant(run, sched, |sched|);
    NodesConserved(run, sched, |sched|);
    deleted := RestDeleted(s, g);
  }

  /**
   The destructor of a queue that any run has left at rest: its pops end, and then the free list and
   the last head node are exactly the nodes that were allocated, each once.
   */
  lemma DestructorDeletesOnce(run: seq<State>, sched: Schedule, t: nat)
    returns (run': seq<State>, sched': Schedule, deleted: seq<nat>)
    requires IsRun(run, sched) && FreshMemoryOk(run, sched) && Quiet(run[|sched|]) && t < |run[|sched|].threads|
    ensures IsRun(run', sched') && run <= run' && PopsOnly(sched, sched', t)
    ensures var s, g := run'[|sched'|], History(run', sched', |sched'|);
            && Quiet(s) && g.front + 1 == |g.hist| == |g.vals| && Contents(g) == []
            && s.mem.Keys == run[|sched|].mem.Keys && DeletesAll(s, deleted)
  {
    var s0, g0 := run[|sched|], History(run, sched, |sched|);
    AtRest(run, sched, t, s0, g0);
    var s, g := PopAll(run, sched, t, s0, g0, g0);
    run', sched' :| SoloRun(run, sched, t, run', sched', s, g);
    deleted := SoloDeleted(run', sched', s, g);
  }
}
