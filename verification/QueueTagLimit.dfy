/**
 When the concurrent queue with m wrapping tags is right: every run in which mTail and mFreeNodeHead each
 move fewer than `limit` times is linearizable if and only if limit is at most m.
 */
module QueueTagLimit {
  import opened Element
  import opened QueueModel
  import opened QueueInvariant
  import opened QueueTheorems
  import opened QueueWrappedModel
  import F = QueueFreshMemory
  import R = QueueTagRun
  import A = AtomicContainer

  // ---- a state with wrapped tags and the state with unbounded tags that it stands for ----

  /** The tag before 0 is m - 1; all others are themselves, as long as they are below m. */
  function WrapTag(m: int, tag: int): int {
    if tag == BEFORE_ZERO then m - 1 else tag
  }

  function WrapPtr(m: int, p: Ptr): Ptr {
    Ptr(p.addr, WrapTag(m, p.tag))
  }

  /** Of mNext only the address is ever used. */
  predicate NodeRel(m: int, n: Node, w: Node) {
    w.prev == WrapPtr(m, n.prev) && w.next.addr == n.next.addr && w.nextFree == n.nextFree && w.value == n.value
  }

  function WrapLocal(m: int, l: Local): Local {
    match l
    case AcqNext(e, top) => AcqNext(e, WrapPtr(m, top))
    case AcqCas(e, top, after) => AcqCas(e, WrapPtr(m, top), after)
    case PushNext(e, n, tail) => PushNext(e, n, WrapPtr(m, tail))
    case PushCas(e, n, tail) => PushCas(e, n, WrapPtr(m, tail))
    case PushLink(e, n, tail) => PushLink(e, n, WrapPtr(m, tail))
    case PopTail(head) => PopTail(WrapPtr(m, head))
    case PopPrev(head, tail) => PopPrev(WrapPtr(m, head), WrapPtr(m, tail))
    case PopCheck(head, tail, prev) => PopCheck(WrapPtr(m, head), WrapPtr(m, tail), WrapPtr(m, prev))
    case PopValue(head, prev) => PopValue(WrapPtr(m, head), WrapPtr(m, prev))
    case PopCas(head, prev, got) => PopCas(WrapPtr(m, head), WrapPtr(m, prev), got)
    case RelPrev(got, n, top) => RelPrev(got, n, WrapPtr(m, top))
    case RelNext(got, n, top) => RelNext(got, n, WrapPtr(m, top))
    case RelCas(got, n, top) => RelCas(got, n, WrapPtr(m, top))
    case FixCheck(head, current) => FixCheck(WrapPtr(m, head), WrapPtr(m, current))
    case FixNext(head, current) => FixNext(WrapPtr(m, head), WrapPtr(m, current))
    case FixLink(head, current, next) => FixLink(WrapPtr(m, head), WrapPtr(m, current), next)
    case _ => l
  }

  predicate LocalRel(m: int, l: Local, w: Local) {
    if l.FixLink? && w.FixLink?
    then w == FixLink(WrapPtr(m, l.head), WrapPtr(m, l.current), w.next) && w.next.addr == l.next.addr
    else w == WrapLocal(m, l)
  }

  predicate MemRel(m: int, mem: map<nat, Node>, wem: map<nat, Node>) {
    wem.Keys == mem.Keys && forall a :: a in mem ==> NodeRel(m, mem[a], wem[a])
  }

  predicate ThreadsRel(m: int, threads: seq<Local>, wreads: seq<Local>) {
    |wreads| == |threads| && forall t :: 0 <= t < |threads| ==> LocalRel(m, threads[t], wreads[t])
  }

  predicate Rel(m: int, s: State, w: State) {
    && MemRel(m, s.mem, w.mem) && ThreadsRel(m, s.threads, w.threads) && w.size == s.size
    && w.head == WrapPtr(m, s.head) && w.tail == WrapPtr(m, s.tail) && w.free == WrapPtr(m, s.free)
  }

  // ---- the constructor's tag stays on the first node until it is rewritten ----

  predicate Leaving(l: Local, a: nat) {
    (l.RelClear? || l.RelTop? || l.RelPrev?) && l.node == a
  }

  /** Who carries the tag before 0: the first node, before its first release. */
  predicate FirstAt(s: State, g: Ghost, a: nat)
    requires a in s.mem
  {
    s.mem[a].prev.tag == BEFORE_ZERO ==>
      && |g.hist| > 0 && a == g.hist[0] && (forall p :: 0 < p < |g.hist| ==> g.hist[p] != a)
      && a in g.role
      && (g.role[a] == Live(0) ||
          (g.role[a].Owned? && g.role[a].thread < |s.threads| && Leaving(s.threads[g.role[a].thread], a)))
  }

  predicate FirstMarked(s: State, g: Ghost) {
    && (forall a :: a in s.mem ==> FirstAt(s, g, a))
    && forall t :: 0 <= t < |s.threads| && s.threads[t].PopCheck? && s.threads[t].prev.tag == BEFORE_ZERO ==>
         s.threads[t].head.tag == 0
  }

  /** A step of thread t with unbounded tags. */
  predicate StepOf(s: State, g: Ghost, t: nat, c: Choice, s': State, g': Ghost) {
    && Enabled(s, t, c) && Knows(s, g, t, s.threads[t]) && s' == Exec(s, t, c) && g' == Track(s, g, t, c)
    && t < |s'.threads| && s'.threads == s.threads[t := s'.threads[t]]
    && (c.Allocate? ==> c.garbage.prev.tag == INVALID_TAG)
  }

  /** A step that leaves mPrev, positions and roles alone. */
  predicate Plain(s: State, l: Local) {
    match l
    case AcqNew(_) => false
    case AcqCas(_, top, _) => s.free != top
    case PushCas(_, _, tail) => s.tail != tail
    case PushLink(_, _, _) => false
    case PopCas(head, _, _) => s.head != head
    case RelPrev(_, _, _) => false
    case RelCas(_, _, top) => s.free != top
    case FixLink(_, _, _) => false
    case _ => true
  }

  lemma PlainShape(s: State, g: Ghost, t: nat, c: Choice, s': State, g': Ghost)
    requires Enabled(s, t, c) && s' == Exec(s, t, c) && g' == Track(s, g, t, c) && Plain(s, s.threads[t])
    ensures g' == g && forall a :: Load(s'.mem, a).prev == Load(s.mem, a).prev
    ensures t < |s'.threads| && (Leaving(s.threads[t], Holds(s.threads[t])) ==>
              Leaving(s'.threads[t], Holds(s.threads[t])))
  {
  }

  lemma PlainNode(s: State, g: Ghost, t: nat, c: Choice, s': State, g': Ghost, a: nat)
    requires AllocOk(s, g) && StepOf(s, g, t, c, s', g') && Plain(s, s.threads[t])
    requires a in s'.mem && a in s.mem && FirstAt(s, g, a)
    ensures FirstAt(s', g', a)
  {
    PlainShape(s, g, t, c, s', g');
  }

  /** The steps that write an mPrev never write the tag before 0. */
  lemma WriteNode(s: State, g: Ghost, t: nat, c: Choice, s': State, g': Ghost, a: nat)
    requires AllocOk(s, g) && StepOf(s, g, t, c, s', g')
    requires s.threads[t].AcqNew? || s.threads[t].PushLink? || s.threads[t].RelPrev? || s.threads[t].FixLink?
    requires a in s'.mem && (a in s.mem ==> FirstAt(s, g, a))
    ensures FirstAt(s', g', a)
  {
  }

  /** The exchanges move a node, and never a node with the tag before 0 into the hands of a Push. */
  lemma GainNode(s: State, g: Ghost, t: nat, c: Choice, s': State, g': Ghost, a: nat)
    requires EndsOk(s, g) && AllocOk(s, g) && RolesOk(s, g) && PoolOk(s, g)
    requires StepOf(s, g, t, c, s', g') && !Plain(s, s.threads[t])
    requires s.threads[t].AcqCas? || s.threads[t].PushCas?
    requires a in s'.mem && a in s.mem && FirstAt(s, g, a)
    ensures FirstAt(s', g', a)
  {
    match s.threads[t] {
      case AcqCas(_, top, _) =>
        assert g.pool != [] && top.addr == g.pool[|g.pool| - 1] && g.role[top.addr].Free?;
      case PushCas(_, n, _) =>
        assert g.role[n] == Owned(t);
    }
  }

  lemma LoseNode(s: State, g: Ghost, t: nat, c: Choice, s': State, g': Ghost, a: nat)
    requires EndsOk(s, g) && AllocOk(s, g) && RolesOk(s, g) && PoolOk(s, g)
    requires StepOf(s, g, t, c, s', g') && !Plain(s, s.threads[t])
    requires s.threads[t].PopCas? || s.threads[t].RelCas?
    requires a in s'.mem && a in s.mem && FirstAt(s, g, a)
    ensures FirstAt(s', g', a)
  {
    match s.threads[t] {
      case PopCas(head, _, _) =>
        assert g.role[head.addr] == Live(g.front);
      case RelCas(_, n, _) =>
        assert g.role[n] == Owned(t);
    }
  }

  lemma KeysStay(s: State, g: Ghost, t: nat, c: Choice)
    requires AllocOk(s, g) && Enabled(s, t, c) && Knows(s, g, t, s.threads[t]) && !s.threads[t].AcqNew?
    ensures Exec(s, t, c).mem.Keys == s.mem.Keys
  {
    if Dereferences(s.threads[t]) {
      KnownAddress(s, g, t, s.threads[t]);
    }
  }

  lemma FirstNode(s: State, g: Ghost, t: nat, c: Choice, s': State, g': Ghost, a: nat)
    requires EndsOk(s, g) && AllocOk(s, g) && RolesOk(s, g) && PoolOk(s, g) && StepOf(s, g, t, c, s', g')
    requires a in s'.mem && (a in s.mem ==> FirstAt(s, g, a))
    ensures FirstAt(s', g', a)
  {
    if !s.threads[t].AcqNew? {
      KeysStay(s, g, t, c);
    }
    if Plain(s, s.threads[t]) {
      PlainNode(s, g, t, c, s', g', a);
    } else if s.threads[t].AcqNew? || s.threads[t].PushLink? || s.threads[t].RelPrev? || s.threads[t].FixLink? {
      WriteNode(s, g, t, c, s', g', a);
    } else if s.threads[t].AcqCas? || s.threads[t].PushCas? {
      GainNode(s, g, t, c, s', g', a);
    } else {
      LoseNode(s, g, t, c, s', g', a);
    }
  }

  lemma FirstLocals(s: State, g: Ghost, t: nat, c: Choice, s': State)
    requires AllocOk(s, g) && Enabled(s, t, c) && Knows(s, g, t, s.threads[t])
    requires s' == Exec(s, t, c) && FirstMarked(s, g) && s'.threads == s.threads[t := s'.threads[t]]
    ensures forall u :: 0 <= u < |s'.threads| && s'.threads[u].PopCheck? && s'.threads[u].prev.tag == BEFORE_ZERO ==>
              s'.threads[u].head.tag == 0
  {
    if s.threads[t].PopPrev? {
      assert s.threads[t].head.addr in s.mem && FirstAt(s, g, s.threads[t].head.addr);
    }
  }

  lemma FirstStep(s: State, g: Ghost, t: nat, c: Choice, s': State, g': Ghost)
    requires EndsOk(s, g) && AllocOk(s, g) && RolesOk(s, g) && PoolOk(s, g)
    requires Enabled(s, t, c) && Knows(s, g, t, s.threads[t])
    requires s' == Exec(s, t, c) && g' == Track(s, g, t, c) && FirstMarked(s, g)
    requires c.Allocate? ==> c.garbage.prev.tag == INVALID_TAG
    ensures FirstMarked(s', g')
  {
    OneThreadMoves(s, t, c);
    FirstLocals(s, g, t, c, s');
    forall a | a in s'.mem ensures FirstAt(s', g', a) {
      FirstNode(s, g, t, c, s', g', a);
    }
  }

  // ---- the two programs keep step ----

  /** The step does not take mTail to tag m, or mFreeNodeHead to tag m - 1. */
  predicate InRange(m: int, s': State) {
    s'.tail.tag < m && s'.free.tag < m - 1
  }

  /** What the wrapped comparisons of a step need to know. */
  predicate Clear(m: int, s: State, l: Local) {
    match l
    case AcqCas(_, top, _) => top.tag < m - 1 && BEFORE_ZERO <= s.free.tag < m - 1
    case RelCas(_, _, top) => top.tag < m - 1 && BEFORE_ZERO <= s.free.tag < m - 1
    case PushNext(_, _, tail) => 0 <= tail.tag
    case PushCas(_, _, tail) => 0 <= tail.tag && 0 <= s.tail.tag
    case PushLink(_, _, tail) => 0 <= tail.tag
    case PopTail(head) => 0 <= head.tag && 0 <= s.tail.tag
    case PopCheck(head, tail, prev) =>
      0 <= head.tag && 0 <= tail.tag && 0 <= s.head.tag && (prev.tag == BEFORE_ZERO ==> head.tag < m - 1)
    case PopCas(head, _, _) => 0 <= head.tag && 0 <= s.head.tag && (s.head == head ==> head.tag + 1 < m)
    case FixCheck(head, current) => 0 <= head.tag && 0 <= s.head.tag && 0 <= current.tag
    case FixLink(_, current, _) => 1 <= current.tag
    case _ => true
  }

  lemma WrapInjective(m: int, p: Ptr, q: Ptr)
    requires (0 <= p.tag && 0 <= q.tag) || (p.tag < m - 1 && q.tag < m - 1)
    ensures WrapPtr(m, p) == WrapPtr(m, q) <==> p == q
  {
  }

  lemma EnabledRel(m: int, s: State, w: State, t: nat, c: Choice)
    requires Rel(m, s, w) && Enabled(s, t, c)
    ensures Enabled(w, t, c)
  {
  }

  lemma LoadRel(m: int, s: State, w: State, a: nat)
    requires Rel(m, s, w) && a in s.mem
    ensures NodeRel(m, Load(s.mem, a), Load(w.mem, a))
  {
  }

  predicate Exchanging(l: Local) {
    l.AcqCas? || l.PushCas? || l.PopCas? || l.RelCas?
  }

  predicate Reading(l: Local) {
    l.AcqNext? || l.PopPrev? || l.PopValue? || l.FixNext?
  }

  predicate Comparing(l: Local) {
    l.PopCheck? || l.FixCheck? || l.FixLink?
  }

  /** What is common to the steps of the two programs. */
  predicate Together(m: int, s: State, w: State, t: nat, c: Choice, s': State, w': State) {
    && m >= 2 && Rel(m, s, w) && Enabled(s, t, c) && Enabled(w, t, c) && Clear(m, s, s.threads[t])
    && s' == Exec(s, t, c) && w' == ExecWrapped(m, w, t, c)
    && (Dereferences(s.threads[t]) ==> Accessed(s.threads[t]) in s.mem)
    && (c.Allocate? ==> c.garbage.prev.tag == INVALID_TAG)
  }

  predicate HeadsRel(m: int, s: State, w: State) {
    w.head == WrapPtr(m, s.head) && w.tail == WrapPtr(m, s.tail) && w.free == WrapPtr(m, s.free) && w.size == s.size
  }

  lemma Own(m: int, s: State, w: State, t: nat)
    requires Rel(m, s, w) && t < |s.threads|
    ensures t < |w.threads| && LocalRel(m, s.threads[t], w.threads[t])
  {
  }

  lemma HeadsStay(s: State, t: nat, c: Choice)
    requires Enabled(s, t, c) && !Exchanging(s.threads[t])
    ensures var s' := Exec(s, t, c); s'.head == s.head && s'.tail == s.tail && s'.free == s.free
    ensures Exec(s, t, c).size == if s.threads[t].PushCount? then (s.size + 1) % SIZE_MODULUS
                                  else if s.threads[t].PopCount? then (s.size - 1) % SIZE_MODULUS else s.size
  {
  }

  lemma WrappedHeadsStay(m: int, w: State, t: nat, c: Choice)
    requires Enabled(w, t, c) && !Exchanging(w.threads[t])
    ensures var w' := ExecWrapped(m, w, t, c); w'.head == w.head && w'.tail == w.tail && w'.free == w.free
    ensures ExecWrapped(m, w, t, c).size == if w.threads[t].PushCount? then (w.size + 1) % SIZE_MODULUS
                                            else if w.threads[t].PopCount? then (w.size - 1) % SIZE_MODULUS else w.size
  {
  }

  lemma SameKind(m: int, l: Local, w: Local)
    requires LocalRel(m, l, w)
    ensures Exchanging(l) == Exchanging(w) && l.PushCount? == w.PushCount? && l.PopCount? == w.PopCount?
  {
  }

  /** The four exchanges, compared and made with wrapped tags. */
  lemma AcquireRel(m: int, s: State, w: State, t: nat, c: Choice, s': State, w': State)
    requires Together(m, s, w, t, c, s', w') && s.threads[t].AcqCas? && InRange(m, s')
    ensures HeadsRel(m, s', w') && |s'.threads| == |s.threads| == |w'.threads| && LocalRel(m, s'.threads[t], w'.threads[t])
    ensures ActionOf(w, t, c) == ActionOf(s, t, c) && MemRel(m, s'.mem, w'.mem)
  {
    Own(m, s, w, t);
    WrapInjective(m, s.free, s.threads[t].top);
  }

  lemma ReleaseRel(m: int, s: State, w: State, t: nat, c: Choice, s': State, w': State)
    requires Together(m, s, w, t, c, s', w') && s.threads[t].RelCas? && InRange(m, s')
    ensures HeadsRel(m, s', w') && |s'.threads| == |s.threads| == |w'.threads| && LocalRel(m, s'.threads[t], w'.threads[t])
    ensures ActionOf(w, t, c) == ActionOf(s, t, c) && MemRel(m, s'.mem, w'.mem)
  {
    Own(m, s, w, t);
    WrapInjective(m, s.free, s.threads[t].top);
  }

  lemma PushRel(m: int, s: State, w: State, t: nat, c: Choice, s': State, w': State)
    requires Together(m, s, w, t, c, s', w') && s.threads[t].PushCas? && InRange(m, s')
    ensures HeadsRel(m, s', w') && |s'.threads| == |s.threads| == |w'.threads| && LocalRel(m, s'.threads[t], w'.threads[t])
    ensures ActionOf(w, t, c) == ActionOf(s, t, c) && MemRel(m, s'.mem, w'.mem)
  {
    Own(m, s, w, t);
    WrapInjective(m, s.tail, s.threads[t].tail);
  }

  lemma PopRel(m: int, s: State, w: State, t: nat, c: Choice, s': State, w': State)
    requires Together(m, s, w, t, c, s', w') && s.threads[t].PopCas? && InRange(m, s')
    ensures HeadsRel(m, s', w') && |s'.threads| == |s.threads| == |w'.threads| && LocalRel(m, s'.threads[t], w'.threads[t])
    ensures ActionOf(w, t, c) == ActionOf(s, t, c) && MemRel(m, s'.mem, w'.mem)
  {
    Own(m, s, w, t);
    WrapInjective(m, s.head, s.threads[t].head);
  }

  lemma ExchangeRel(m: int, s: State, w: State, t: nat, c: Choice, s': State, w': State)
    requires Together(m, s, w, t, c, s', w') && Exchanging(s.threads[t]) && InRange(m, s')
    ensures HeadsRel(m, s', w') && |s'.threads| == |s.threads| == |w'.threads| && LocalRel(m, s'.threads[t], w'.threads[t])
    ensures ActionOf(w, t, c) == ActionOf(s, t, c) && MemRel(m, s'.mem, w'.mem)
  {
    match s.threads[t] {
      case AcqCas(_, _, _) => AcquireRel(m, s, w, t, c, s', w');
      case RelCas(_, _, _) => ReleaseRel(m, s, w, t, c, s', w');
      case PushCas(_, _, _) => PushRel(m, s, w, t, c, s', w');
      case PopCas(_, _, _) => PopRel(m, s, w, t, c, s', w');
    }
  }

  /** The three steps that compare or lower tags. */
  lemma DecideRel(m: int, s: State, w: State, t: nat, c: Choice, s': State, w': State)
    requires Together(m, s, w, t, c, s', w') && s.threads[t].PopCheck?
    ensures |s'.threads| == |s.threads| == |w'.threads| && LocalRel(m, s'.threads[t], w'.threads[t])
    ensures ActionOf(w, t, c) == ActionOf(s, t, c) && MemRel(m, s'.mem, w'.mem)
  {
    Own(m, s, w, t);
    WrapInjective(m, s.head, s.threads[t].head);
    WrapInjective(m, s.threads[t].tail, s.threads[t].head);
  }

  lemma FixCheckRel(m: int, s: State, w: State, t: nat, c: Choice, s': State, w': State)
    requires Together(m, s, w, t, c, s', w') && s.threads[t].FixCheck?
    ensures |s'.threads| == |s.threads| == |w'.threads| && LocalRel(m, s'.threads[t], w'.threads[t])
    ensures ActionOf(w, t, c) == ActionOf(s, t, c) && MemRel(m, s'.mem, w'.mem)
  {
    Own(m, s, w, t);
    WrapInjective(m, s.head, s.threads[t].head);
    WrapInjective(m, s.threads[t].current, s.threads[t].head);
  }

  lemma FixLinkRel(m: int, s: State, w: State, t: nat, c: Choice, s': State, w': State)
    requires Together(m, s, w, t, c, s', w') && s.threads[t].FixLink?
    ensures |s'.threads| == |s.threads| == |w'.threads| && LocalRel(m, s'.threads[t], w'.threads[t])
    ensures ActionOf(w, t, c) == ActionOf(s, t, c) && MemRel(m, s'.mem, w'.mem)
  {
    Own(m, s, w, t);
    LoadRel(m, s, w, s.threads[t].next.addr);
  }

  /** The four steps that read a node. */
  lemma ReadPopRel(m: int, s: State, w: State, t: nat, c: Choice, s': State, w': State)
    requires Together(m, s, w, t, c, s', w') && (s.threads[t].PopPrev? || s.threads[t].PopValue?)
    ensures |s'.threads| == |s.threads| == |w'.threads| && LocalRel(m, s'.threads[t], w'.threads[t])
    ensures ActionOf(w, t, c) == ActionOf(s, t, c) && MemRel(m, s'.mem, w'.mem)
  {
    Own(m, s, w, t);
    LoadRel(m, s, w, Accessed(s.threads[t]));
  }

  lemma ReadLinkRel(m: int, s: State, w: State, t: nat, c: Choice, s': State, w': State)
    requires Together(m, s, w, t, c, s', w') && (s.threads[t].AcqNext? || s.threads[t].FixNext?)
    ensures |s'.threads| == |s.threads| == |w'.threads| && LocalRel(m, s'.threads[t], w'.threads[t])
    ensures ActionOf(w, t, c) == ActionOf(s, t, c) && MemRel(m, s'.mem, w'.mem)
  {
    Own(m, s, w, t);
    LoadRel(m, s, w, Accessed(s.threads[t]));
  }

  predicate InPop(l: Local) {
    l.PopHead? || l.PopTail? || l.PopCount?
  }

  predicate InRelease(l: Local) {
    l.RelClear? || l.RelTop? || l.RelPrev? || l.RelNext?
  }

  /** All other steps. */
  lemma OtherPop(m: int, s: State, w: State, t: nat, c: Choice, s': State, w': State)
    requires Together(m, s, w, t, c, s', w') && InPop(s.threads[t])
    requires !Reading(s.threads[t]) && !Comparing(s.threads[t]) && !Exchanging(s.threads[t])
    ensures |s'.threads| == |s.threads| == |w'.threads| && LocalRel(m, s'.threads[t], w'.threads[t])
  {
    Own(m, s, w, t);
  }

  lemma OtherClear(m: int, s: State, w: State, t: nat, c: Choice, s': State, w': State)
    requires Together(m, s, w, t, c, s', w') && InRelease(s.threads[t]) && (s.threads[t].RelClear? || s.threads[t].RelTop?)
    requires !Reading(s.threads[t]) && !Comparing(s.threads[t]) && !Exchanging(s.threads[t])
    ensures |s'.threads| == |s.threads| == |w'.threads| && LocalRel(m, s'.threads[t], w'.threads[t])
  {
    Own(m, s, w, t);
  }

  lemma OtherMark(m: int, s: State, w: State, t: nat, c: Choice, s': State, w': State)
    requires Enabled(s, t, c) && Enabled(w, t, c) && s' == Exec(s, t, c) && w' == ExecWrapped(m, w, t, c)
    requires LocalRel(m, s.threads[t], w.threads[t]) && (s.threads[t].RelPrev? || s.threads[t].RelNext?)
    ensures |s'.threads| == |s.threads| && |w'.threads| == |w.threads| && LocalRel(m, s'.threads[t], w'.threads[t])
  {
    MarkRel(m, s.threads[t], w.threads[t]);
    MarkGoes(s, t, c);
    MarkGoes(w, t, c);
  }

  lemma MarkRel(m: int, l: Local, w: Local)
    requires LocalRel(m, l, w) && (l.RelPrev? || l.RelNext?)
    ensures (w.RelPrev? || w.RelNext?) && LocalRel(m, Marked(l), Marked(w))
  {
  }

  function Marked(l: Local): Local
    requires l.RelPrev? || l.RelNext?
  {
    match l
    case RelPrev(got, n, top) => RelNext(got, n, top)
    case RelNext(got, n, top) => RelCas(got, n, top)
  }

  lemma MarkGoes(s: State, t: nat, c: Choice)
    requires Enabled(s, t, c) && (s.threads[t].RelPrev? || s.threads[t].RelNext?)
    ensures Exec(s, t, c).threads == s.threads[t := Marked(s.threads[t])]
  {
  }

  lemma OtherPush(m: int, s: State, w: State, t: nat, c: Choice, s': State, w': State)
    requires Together(m, s, w, t, c, s', w') && !InPop(s.threads[t]) && !InRelease(s.threads[t])
    requires !Reading(s.threads[t]) && !Comparing(s.threads[t]) && !Exchanging(s.threads[t])
    ensures |s'.threads| == |s.threads| == |w'.threads| && LocalRel(m, s'.threads[t], w'.threads[t])
  {
    Own(m, s, w, t);
  }

  lemma OtherAction(m: int, s: State, w: State, t: nat, c: Choice, s': State, w': State)
    requires Together(m, s, w, t, c, s', w')
    requires !Reading(s.threads[t]) && !Comparing(s.threads[t]) && !Exchanging(s.threads[t])
    ensures ActionOf(w, t, c) == ActionOf(s, t, c)
  {
    Own(m, s, w, t);
    if s.threads[t].PopTail? {
      WrapInjective(m, s.tail, s.threads[t].head);
    }
  }

  lemma OtherMem(m: int, s: State, w: State, t: nat, c: Choice, s': State, w': State)
    requires Together(m, s, w, t, c, s', w')
    requires !Reading(s.threads[t]) && !Comparing(s.threads[t]) && !Exchanging(s.threads[t])
    ensures MemRel(m, s'.mem, w'.mem)
  {
    Own(m, s, w, t);
  }

  lemma HeadsTogether(m: int, s: State, w: State, t: nat, c: Choice, s': State, w': State)
    requires Together(m, s, w, t, c, s', w') && !Exchanging(s.threads[t])
    ensures HeadsRel(m, s', w')
  {
    Own(m, s, w, t);
    SameKind(m, s.threads[t], w.threads[t]);
    HeadsStay(s, t, c);
    WrappedHeadsStay(m, w, t, c);
  }

  /** One step of both programs, as thread t and the shared memory see it. */
  lemma ThreadRel(m: int, s: State, w: State, t: nat, c: Choice, s': State, w': State)
    requires Together(m, s, w, t, c, s', w') && InRange(m, s')
    ensures HeadsRel(m, s', w') && MemRel(m, s'.mem, w'.mem) && ActionOf(w, t, c) == ActionOf(s, t, c)
    ensures |s'.threads| == |s.threads| == |w'.threads| && LocalRel(m, s'.threads[t], w'.threads[t])
  {
    if Exchanging(s.threads[t]) {
      ExchangeRel(m, s, w, t, c, s', w');
    } else {
      HeadsTogether(m, s, w, t, c, s', w');
      if Reading(s.threads[t]) {
        if s.threads[t].PopPrev? || s.threads[t].PopValue? {
          ReadPopRel(m, s, w, t, c, s', w');
        } else {
          ReadLinkRel(m, s, w, t, c, s', w');
        }
      } else if s.threads[t].PopCheck? {
        DecideRel(m, s, w, t, c, s', w');
      } else if s.threads[t].FixCheck? {
        FixCheckRel(m, s, w, t, c, s', w');
      } else if s.threads[t].FixLink? {
        FixLinkRel(m, s, w, t, c, s', w');
      } else {
        if InPop(s.threads[t]) {
          OtherPop(m, s, w, t, c, s', w');
        } else if InRelease(s.threads[t]) {
          if s.threads[t].RelClear? || s.threads[t].RelTop? {
            OtherClear(m, s, w, t, c, s', w');
          } else {
            Own(m, s, w, t);
            OtherMark(m, s, w, t, c, s', w');
          }
        } else {
          OtherPush(m, s, w, t, c, s', w');
        }
        OtherAction(m, s, w, t, c, s', w');
        OtherMem(m, s, w, t, c, s', w');
      }
    }
  }

  predicate Special(l: Local) {
    Exchanging(l) || l.PushNext? || l.FixLink?
  }

  lemma SpecialOthers(m: int, w: State, t: nat, c: Choice)
    requires Enabled(w, t, c) && Special(w.threads[t])
    ensures |ExecWrapped(m, w, t, c).threads| == |w.threads|
    ensures ExecWrapped(m, w, t, c).threads == w.threads[t := ExecWrapped(m, w, t, c).threads[t]]
  {
  }

  lemma WrappedOthers(m: int, w: State, t: nat, c: Choice)
    requires Enabled(w, t, c)
    ensures |ExecWrapped(m, w, t, c).threads| == |w.threads|
    ensures ExecWrapped(m, w, t, c).threads == w.threads[t := ExecWrapped(m, w, t, c).threads[t]]
  {
    if Special(w.threads[t]) {
      SpecialOthers(m, w, t, c);
    } else {
      OneThreadMoves(w, t, c);
    }
  }

  /** The two programs keep step. */
  lemma StepRel(m: int, s: State, w: State, t: nat, c: Choice, s': State, w': State)
    requires Together(m, s, w, t, c, s', w') && InRange(m, s')
    ensures Rel(m, s', w') && ActionOf(w, t, c) == ActionOf(s, t, c)
  {
    ThreadRel(m, s, w, t, c, s', w');
    OneThreadMoves(s, t, c);
    WrappedOthers(m, w, t, c);
  }

  /** mTail moves in both programs or in neither, and so does mFreeNodeHead. */
  predicate MoveAlike(s: State, w: State, s': State, w': State) {
    && (s'.tail != s.tail <==> w'.tail != w.tail) && (s'.free != s.free <==> w'.free != w.free)
    && s'.tail.tag == s.tail.tag + (if s'.tail != s.tail then 1 else 0)
    && s'.free.tag == s.free.tag + (if s'.free != s.free then 1 else 0)
  }

  lemma FreeMovesAlike(m: int, s: State, w: State, t: nat, c: Choice, s': State, w': State)
    requires Together(m, s, w, t, c, s', w') && (s.threads[t].AcqCas? || s.threads[t].RelCas?)
    ensures MoveAlike(s, w, s', w')
  {
    Own(m, s, w, t);
    WrapInjective(m, s.free, s.threads[t].top);
  }

  lemma EndMovesAlike(m: int, s: State, w: State, t: nat, c: Choice, s': State, w': State)
    requires Together(m, s, w, t, c, s', w') && (s.threads[t].PushCas? || s.threads[t].PopCas?)
    ensures MoveAlike(s, w, s', w')
  {
    Own(m, s, w, t);
    match s.threads[t] {
      case PushCas(_, _, tail) => WrapInjective(m, s.tail, tail);
      case PopCas(head, _, _) => WrapInjective(m, s.head, head);
    }
  }

  lemma MovesTogether(m: int, s: State, w: State, t: nat, c: Choice, s': State, w': State)
    requires Together(m, s, w, t, c, s', w')
    ensures MoveAlike(s, w, s', w')
  {
    if s.threads[t].AcqCas? || s.threads[t].RelCas? {
      FreeMovesAlike(m, s, w, t, c, s', w');
    } else if s.threads[t].PushCas? || s.threads[t].PopCas? {
      EndMovesAlike(m, s, w, t, c, s', w');
    } else {
      Own(m, s, w, t);
      SameKind(m, s.threads[t], w.threads[t]);
      HeadsStay(s, t, c);
      WrappedHeadsStay(m, w, t, c);
    }
  }

  /** What the comparisons need follows from the invariant of the unbounded program. */
  lemma InvClear(m: int, s: State, g: Ghost, t: nat)
    requires m >= 2 && EndsOk(s, g) && t < |s.threads| && Knows(s, g, t, s.threads[t]) && FirstMarked(s, g)
    requires s.tail.tag < m && BEFORE_ZERO <= s.free.tag < m - 1
    ensures Clear(m, s, s.threads[t])
  {
  }

  // ---- whole runs ----

  lemma {:induction false} MovesMonotone(run: seq<State>, i: nat, j: nat)
    requires i <= j < |run|
    ensures TailMoves(run, i) <= TailMoves(run, j) && FreeMoves(run, i) <= FreeMoves(run, j)
    decreases j
  {
    if i < j {
      MovesMonotone(run, i, j - 1);
    }
  }

  /** The state with unbounded tags that the constructor's state stands for. */
  function Unwrapped(s: State): State
    requires s.head.addr in s.mem
  {
    var h := s.head.addr;
    s.(free := Ptr(NULL, BEFORE_ZERO),
       mem := map[h := s.mem[h].(prev := Ptr(h, BEFORE_ZERO), next := Ptr(NULL, BEFORE_ZERO))])
  }

  lemma StartRel(m: int, w: State)
    requires m >= 2 && WrappedInitial(m, w)
    ensures w.head.addr in w.mem && Initial(Unwrapped(w)) && Rel(m, Unwrapped(w), w)
    ensures FirstMarked(Unwrapped(w), Start(Unwrapped(w)))
  {
    assert w.head.addr in w.mem.Keys;
  }

  /** A run with unbounded tags whose first n steps the wrapped run follows. */
  ghost predicate Shadows(m: int, run: seq<State>, sched: Schedule, shadow: seq<State>, n: nat) {
    && n <= |sched| && |run| == |sched| + 1 && IsRun(shadow, sched[..n])
    && (forall i :: 0 <= i <= n ==> Rel(m, shadow[i], run[i]))
    && (forall i :: 0 <= i < n ==>
          && Enabled(run[i], sched[i].0, sched[i].1) && Enabled(shadow[i], sched[i].0, sched[i].1)
          && ActionOf(run[i], sched[i].0, sched[i].1) == ActionOf(shadow[i], sched[i].0, sched[i].1))
  }

  /** What is known of its last state. */
  ghost predicate Tracked(run: seq<State>, sched: Schedule, shadow: seq<State>, n: nat, s: State, g: Ghost)
    requires n <= |sched| && n < |run|
  {
    && IsRun(shadow, sched[..n]) && s == shadow[n] && g == History(shadow, sched[..n], n)
    && Inv(s, g) && FirstMarked(s, g)
    && s.tail.tag == TailMoves(run, n) && s.free.tag == FreeMoves(run, n) - 1
  }

  lemma EnabledBack(m: int, s: State, w: State, t: nat, c: Choice)
    requires Rel(m, s, w) && Enabled(w, t, c)
    ensures Enabled(s, t, c)
  {
    Own(m, s, w, t);
  }

  /** The step of the shadow. */
  lemma ShadowStep(m: int, s: State, g: Ghost, w: State, t: nat, c: Choice, s': State, w': State)
    requires m >= 2 && Inv(s, g) && FirstMarked(s, g) && Rel(m, s, w) && Enabled(s, t, c) && Enabled(w, t, c)
    requires s.tail.tag < m && BEFORE_ZERO <= s.free.tag < m - 1
    requires s' == Exec(s, t, c) && w' == ExecWrapped(m, w, t, c) && (c.Allocate? ==> c.garbage.prev.tag == INVALID_TAG)
    ensures Together(m, s, w, t, c, s', w')
  {
    InvClear(m, s, g, t);
    if Dereferences(s.threads[t]) {
      KnownAddress(s, g, t, s.threads[t]);
    }
  }

  lemma StepTogether(m: int, run: seq<State>, sched: Schedule, shadow: seq<State>, n: nat, s: State, g: Ghost, s': State)
    requires m >= 2 && IsWrappedRun(m, run, sched) && InvalidGarbage(sched) && n < |sched|
    requires TailMoves(run, n + 1) < m && FreeMoves(run, n + 1) < m
    requires Shadows(m, run, sched, shadow, n) && Tracked(run, sched, shadow, n, s, g)
    requires Enabled(s, sched[n].0, sched[n].1) && s' == Exec(s, sched[n].0, sched[n].1)
    ensures Rel(m, s', run[n + 1]) && s'.tail.tag == TailMoves(run, n + 1) && s'.free.tag == FreeMoves(run, n + 1) - 1
    ensures ActionOf(run[n], sched[n].0, sched[n].1) == ActionOf(s, sched[n].0, sched[n].1)
    ensures FirstMarked(s', Track(s, g, sched[n].0, sched[n].1))
  {
    var t, c, w, w' := sched[n].0, sched[n].1, run[n], run[n + 1];
    ShadowStep(m, s, g, w, t, c, s', w');
    MovesTogether(m, s, w, t, c, s', w');
    StepRel(m, s, w, t, c, s', w');
    FirstStep(s, g, t, c, s', Track(s, g, t, c));
  }

  lemma {:induction false} HistoryPrefix(run: seq<State>, sched: Schedule, run': seq<State>, sched': Schedule, n: nat)
    requires IsRun(run, sched) && IsRun(run', sched') && run <= run' && sched <= sched' && n <= |sched|
    ensures History(run', sched', n) == History(run, sched, n)
  {
    if n > 0 {
      HistoryPrefix(run, sched, run', sched', n - 1);
    }
  }

  lemma ExtendShadow(shadow: seq<State>, sched: Schedule, n: nat, s: State, g: Ghost, s': State)
    requires n < |sched| && IsRun(shadow, sched[..n]) && s == shadow[n] && g == History(shadow, sched[..n], n)
    requires Enabled(s, sched[n].0, sched[n].1) && s' == Exec(s, sched[n].0, sched[n].1)
    ensures IsRun(shadow + [s'], sched[..n + 1])
    ensures History(shadow + [s'], sched[..n + 1], n + 1) == Track(s, g, sched[n].0, sched[n].1)
  {
    var shadow' := shadow + [s'];
    assert IsRun(shadow', sched[..n + 1]);
    HistoryPrefix(shadow, sched[..n], shadow', sched[..n + 1], n);
  }

  lemma ShadowInv(shadow: seq<State>, sched: Schedule, n: nat)
    requires n <= |sched| && IsRun(shadow, sched[..n]) && InvalidGarbage(sched)
    ensures Inv(shadow[n], History(shadow, sched[..n], n))
  {
    F.LowGarbageOk(shadow, sched[..n]);
    RunInvariant(shadow, sched[..n], n);
  }

  lemma {:induction false} ShadowRun(m: int, run: seq<State>, sched: Schedule, n: nat)
    returns (shadow: seq<State>, s: State, g: Ghost)
    requires m >= 2 && IsWrappedRun(m, run, sched) && InvalidGarbage(sched) && n <= |sched|
    requires TailMoves(run, n) < m && FreeMoves(run, n) < m
    ensures Shadows(m, run, sched, shadow, n) && Tracked(run, sched, shadow, n, s, g)
  {
    if n == 0 {
      StartRel(m, run[0]);
      s := Unwrapped(run[0]);
      shadow, g := [s], Start(s);
      ShadowInv(shadow, sched, 0);
    } else {
      MovesMonotone(run, n - 1, n);
      var before, s0, g0 := ShadowRun(m, run, sched, n - 1);
      shadow, s, g := ShadowNext(m, run, sched, n - 1, before, s0, g0);
    }
  }

  lemma ShadowNext(m: int, run: seq<State>, sched: Schedule, n: nat, before: seq<State>, s0: State, g0: Ghost)
    returns (shadow: seq<State>, s: State, g: Ghost)
    requires m >= 2 && IsWrappedRun(m, run, sched) && InvalidGarbage(sched) && n < |sched|
    requires TailMoves(run, n + 1) < m && FreeMoves(run, n + 1) < m
    requires Shadows(m, run, sched, before, n) && Tracked(run, sched, before, n, s0, g0)
    ensures Shadows(m, run, sched, shadow, n + 1) && Tracked(run, sched, shadow, n + 1, s, g)
  {
    var t, c := sched[n].0, sched[n].1;
    EnabledBack(m, s0, run[n], t, c);
    s, g := Exec(s0, t, c), Track(s0, g0, t, c);
    StepTogether(m, run, sched, before, n, s0, g0, s);
    shadow := before + [s];
    ExtendShadow(before, sched, n, s0, g0, s);
    ShadowInv(shadow, sched, n + 1);
    ShadowsNext(m, run, sched, n, before, s);
  }

  lemma ShadowsNext(m: int, run: seq<State>, sched: Schedule, n: nat, before: seq<State>, s: State)
    requires n < |sched| && Shadows(m, run, sched, before, n) && IsRun(before + [s], sched[..n + 1]) && Rel(m, s, run[n + 1])
    requires Enabled(run[n], sched[n].0, sched[n].1) && Enabled(before[n], sched[n].0, sched[n].1)
    requires ActionOf(run[n], sched[n].0, sched[n].1) == ActionOf(before[n], sched[n].0, sched[n].1)
    ensures Shadows(m, run, sched, before + [s], n + 1)
  {
  }

  /** Below m moves the wrapped run is linearizable. */
  lemma FewMovesLinearizable(m: int, run: seq<State>, sched: Schedule)
    requires m >= 2 && IsWrappedRun(m, run, sched) && InvalidGarbage(sched)
    requires TailMoves(run, |sched|) < m && FreeMoves(run, |sched|) < m
    ensures A.Linearizable(A.Fifo, WrappedEvents(m, run, sched))
  {
    var shadow, s, g := ShadowRun(m, run, sched, |sched|);
    assert sched[..|sched|] == sched;
    SameEvents(m, run, sched, shadow);
    ShadowLinearizable(shadow, sched);
  }

  lemma SameEvents(m: int, run: seq<State>, sched: Schedule, shadow: seq<State>)
    requires IsWrappedRun(m, run, sched) && IsRun(shadow, sched) && Shadows(m, run, sched, shadow, |sched|)
    ensures Events(shadow, sched) == WrappedEvents(m, run, sched)
  {
  }

  lemma ShadowLinearizable(shadow: seq<State>, sched: Schedule)
    requires IsRun(shadow, sched) && InvalidGarbage(sched)
    ensures A.Linearizable(A.Fifo, Events(shadow, sched))
  {
    F.LowGarbageOk(shadow, sched);
    QueueLinearizable(shadow, sched);
    A.TraceLinearizable(A.Fifo, Abstraction(shadow, sched), Events(shadow, sched));
  }

  lemma SameHolds(m: int, s: State, w: State)
    requires Rel(m, s, w)
    ensures |w.threads| == |s.threads|
    ensures forall t :: 0 <= t < |s.threads| ==>
              Holding(w.threads[t]) == Holding(s.threads[t]) && Holds(w.threads[t]) == Holds(s.threads[t])
  {
    forall t | 0 <= t < |s.threads|
      ensures Holding(w.threads[t]) == Holding(s.threads[t]) && Holds(w.threads[t]) == Holds(s.threads[t])
    {
      Own(m, s, w, t);
    }
  }

  lemma SameHeld(m: int, s: State, w: State)
    requires Rel(m, s, w)
    ensures Held(w) == Held(s)
  {
    SameHolds(m, s, w);
  }

  lemma PartitionedRel(m: int, s: State, w: State, g: Ghost)
    requires Rel(m, s, w) && Partitioned(s, g)
    ensures Partitioned(w, g)
  {
    SameHolds(m, s, w);
    SameHeld(m, s, w);
  }

  lemma {:induction false} SameOwed(m: int, threads: seq<Local>, wreads: seq<Local>)
    requires ThreadsRel(m, threads, wreads)
    ensures Owed(wreads) == Owed(threads)
  {
    if threads != [] {
      assert LocalRel(m, threads[0], wreads[0]);
      SameOwed(m, threads[1..], wreads[1..]);
    }
  }

  lemma SameAccess(m: int, s: State, w: State, t: nat)
    requires Rel(m, s, w) && t < |s.threads|
    ensures t < |w.threads| && Dereferences(w.threads[t]) == Dereferences(s.threads[t])
    ensures Accessed(w.threads[t]) == Accessed(s.threads[t])
  {
    Own(m, s, w, t);
  }

  /** The tag m - 1 of the constructor does not pass for the position m - 1. */
  lemma HintRel(m: int, s: State, w: State, g: Ghost, p: nat)
    requires m >= 2 && Rel(m, s, w) && AllocOk(s, g) && FirstMarked(s, g) && g.front <= p < |g.hist| && HintTrue(s, g, p)
    ensures HintTrue(w, g, p)
  {
    var a := g.hist[p];
    assert a in s.mem && NodeRel(m, s.mem[a], w.mem[a]) && FirstAt(s, g, a);
  }

  /** No step of any thread is about to touch memory outside the allocated nodes. */
  predicate AccessOk(s: State) {
    forall t :: 0 <= t < |s.threads| && Dereferences(s.threads[t]) ==> Accessed(s.threads[t]) in s.mem
  }

  predicate HintsTrue(s: State, g: Ghost) {
    forall p :: g.front <= p < |g.hist| ==> HintTrue(s, g, p)
  }

  /** From the tail, mNext leads to the head, and the nodes met hold the contents. */
  predicate ChainOk(s: State, g: Ghost) {
    EndsOk(s, g) && ValuesOk(s, g) && forall p :: g.front < p < |g.hist| ==> Load(s.mem, g.hist[p]).next.addr == g.hist[p - 1]
  }

  /** What holds of the memory, the counter and the threads with unbounded tags. */
  ghost predicate Sound(s: State, g: Ghost) {
    ChainOk(s, g) && PoolOk(s, g) && Partitioned(s, g) && SizeOk(s, g) && HintsTrue(s, g) && AccessOk(s)
  }

  lemma ShadowSound(shadow: seq<State>, sched: Schedule, n: nat)
    requires IsRun(shadow, sched) && InvalidGarbage(sched) && n <= |sched|
    ensures Sound(shadow[n], History(shadow, sched, n))
  {
    var s, g := shadow[n], History(shadow, sched, n);
    F.LowGarbageOk(shadow, sched);
    RunInvariant(shadow, sched, n);
    NodesConserved(shadow, sched, n);
    SizeAccounts(shadow, sched, n);
    forall p | g.front <= p < |g.hist| ensures HintTrue(s, g, p) {
      HintsNeverLie(shadow, sched, n, p);
    }
    forall t | 0 <= t < |s.threads| && Dereferences(s.threads[t]) ensures Accessed(s.threads[t]) in s.mem {
      NoWildAccess(shadow, sched, n, t);
    }
  }

  lemma ChainRel(m: int, s: State, w: State, g: Ghost)
    requires Rel(m, s, w) && AllocOk(s, g) && ChainOk(s, g)
    ensures ChainOk(w, g)
  {
  }

  lemma PoolRel(m: int, s: State, w: State, g: Ghost)
    requires Rel(m, s, w) && AllocOk(s, g) && PoolOk(s, g)
    ensures PoolOk(w, g)
  {
  }

  lemma SizeRel(m: int, s: State, w: State, g: Ghost)
    requires Rel(m, s, w) && SizeOk(s, g)
    ensures SizeOk(w, g)
  {
    SameOwed(m, s.threads, w.threads);
  }

  lemma HintsRel(m: int, s: State, w: State, g: Ghost)
    requires m >= 2 && Rel(m, s, w) && AllocOk(s, g) && FirstMarked(s, g) && HintsTrue(s, g)
    ensures HintsTrue(w, g)
  {
    forall p | g.front <= p < |g.hist| ensures HintTrue(w, g, p) {
      HintRel(m, s, w, g, p);
    }
  }

  lemma AccessRel(m: int, s: State, w: State)
    requires Rel(m, s, w) && AccessOk(s)
    ensures AccessOk(w)
  {
    forall t | 0 <= t < |w.threads| && Dereferences(w.threads[t]) ensures Accessed(w.threads[t]) in w.mem {
      SameAccess(m, s, w, t);
    }
  }

  lemma SoundRel(m: int, s: State, w: State, g: Ghost)
    requires m >= 2 && Rel(m, s, w) && AllocOk(s, g) && FirstMarked(s, g) && Sound(s, g)
    ensures Sound(w, g)
  {
    ChainRel(m, s, w, g);
    PoolRel(m, s, w, g);
    PartitionedRel(m, s, w, g);
    SizeRel(m, s, w, g);
    HintsRel(m, s, w, g);
    AccessRel(m, s, w);
  }

  /** Below m moves: node conservation, size accounting, true hints and no wild access with wrapping tags. */
  lemma FewMovesSound(m: int, run: seq<State>, sched: Schedule, n: nat) returns (g: Ghost)
    requires m >= 2 && IsWrappedRun(m, run, sched) && InvalidGarbage(sched) && n <= |sched|
    requires TailMoves(run, n) < m && FreeMoves(run, n) < m
    ensures Sound(run[n], g)
  {
    var shadow, s;
    shadow, s, g := ShadowRun(m, run, sched, n);
    ShadowSound(shadow, sched[..n], n);
    SoundRel(m, s, run[n], g);
  }

  // ---- the exact limit ----

  /** Every run in which mTail and mFreeNodeHead each move fewer than `limit` times is linearizable. */
  ghost predicate SafeWithin(m: int, limit: nat) {
    forall run, sched :: IsWrappedRun(m, run, sched) && InvalidGarbage(sched)
                         && TailMoves(run, |sched|) < limit && FreeMoves(run, |sched|) < limit ==>
      A.Linearizable(A.Fifo, WrappedEvents(m, run, sched))
  }

  /** m tags stand exactly m - 1 moves of mTail and of mFreeNodeHead. */
  lemma TagLimitExact(m: int, limit: nat, v: Value, e: Value)
    requires m >= 3 && v != e
    ensures SafeWithin(m, limit) <==> limit <= m
  {
    if limit <= m {
      forall run, sched | IsWrappedRun(m, run, sched) && InvalidGarbage(sched)
                          && TailMoves(run, |sched|) < limit && FreeMoves(run, |sched|) < limit
        ensures A.Linearizable(A.Fifo, WrappedEvents(m, run, sched))
      {
        FewMovesLinearizable(m, run, sched);
      }
    } else {
      var run, sched := R.LateExchange(m, v, e);
    }
  }
}
