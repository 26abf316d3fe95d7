/** Every step keeps the queue invariant: each step respects the other threads (Evolves), and what
    a thread knows survives any such step (Stable). */
module QueueProof {
  import opened Element
  import opened QueueModel
  import opened QueueInvariant

  predicate Grows(s: State, g: Ghost, s': State, g': Ghost) {
    && g.hist <= g'.hist && g.vals <= g'.vals && g.front <= g'.front
    && |g'.hist| == |g'.vals|
    && s.mem.Keys <= s'.mem.Keys
  }

  /** Nodes held by threads other than t keep everything but mPrev. */
  predicate Respects(s: State, g: Ghost, s': State, g': Ghost, t: nat) {
    forall a :: a in g.role && a in s.mem && g.role[a].Owned? && g.role[a].thread != t ==>
      && a in g'.role && g'.role[a] == g.role[a] && a in s'.mem
      && s'.mem[a] == s.mem[a].(prev := s'.mem[a].prev)
  }

  /** The free-list head moves only with its tag. */
  predicate FreeMoves(s: State, s': State) {
    && s.free.tag <= s'.free.tag
    && (s'.free.tag == s.free.tag ==>
          && s'.free == s.free
          && Load(s'.mem, s.free.addr).nextFree == Load(s.mem, s.free.addr).nextFree)
  }

  predicate OthersStay(s: State, s': State, t: nat) {
    && |s'.threads| == |s.threads|
    && forall u :: 0 <= u < |s.threads| && u != t ==> s'.threads[u] == s.threads[u]
  }

  /** Everything another thread may rely on across a step of thread t. */
  predicate Evolves(s: State, g: Ghost, s': State, g': Ghost, t: nat) {
    OthersStay(s, s', t) && Grows(s, g, s', g') && Respects(s, g, s', g', t) && FreeMoves(s, s')
  }

  lemma StableNames(s: State, g: Ghost, s': State, g': Ghost, u: nat, l: Local)
    requires Grows(s, g, s', g') && Knows(s, g, u, l)
    requires !l.AcqNext? && !l.AcqCas? && !Holding(l)
    ensures Knows(s', g', u, l)
  {
  }

  lemma StableHeld(s: State, g: Ghost, s': State, g': Ghost, t: nat, u: nat, l: Local)
    requires AllocOk(s, g) && Evolves(s, g, s', g', t) && Knows(s, g, u, l) && u != t
    requires Holding(l) || l.AcqNext? || l.AcqCas?
    ensures Knows(s', g', u, l)
  {
  }

  lemma Stable(s: State, g: Ghost, s': State, g': Ghost, t: nat, u: nat)
    requires u < |s.threads| && u != t
    requires AllocOk(s, g) && Knows(s, g, u, s.threads[u])
    requires Evolves(s, g, s', g', t)
    ensures Knows(s', g', u, s'.threads[u])
  {
    var l := s.threads[u];
    if Holding(l) || l.AcqNext? || l.AcqCas? {
      StableHeld(s, g, s', g', t, u, l);
    } else {
      StableNames(s, g, s', g', u, l);
    }
  }

  /** The obligations of one step of thread t. */
  predicate Kept(s: State, g: Ghost, t: nat, s': State, g': Ghost) {
    && t < |s'.threads|
    && SharedInv(s', g') && Knows(s', g', t, s'.threads[t]) && Evolves(s, g, s', g', t)
  }

  /** Thread t moves between two points holding the same node; memory stays, the counter may move. */
  predicate Moves(s: State, t: nat, l: Local, s': State) {
    && t < |s.threads| && Holds(l) == Holds(s.threads[t])
    && s' == Goto(s, t, l).(size := s'.size)
  }

  lemma MoveRoles(s: State, g: Ghost, t: nat, l: Local, s': State)
    requires EndsOk(s, g) && AllocOk(s, g) && RolesOk(s, g) && Moves(s, t, l, s')
    ensures EndsOk(s', g) && AllocOk(s', g) && RolesOk(s', g)
  {
    forall a | a in g.role ensures RoleTrue(s', g, a) {
      assert RoleTrue(s, g, a);
    }
  }

  lemma MoveLinks(s: State, g: Ghost, t: nat, l: Local, s': State)
    requires PoolOk(s, g) && NextOk(s, g) && PrevOk(s, g) && ValuesOk(s, g) && Moves(s, t, l, s')
    ensures PoolOk(s', g) && NextOk(s', g) && PrevOk(s', g) && ValuesOk(s', g)
  {
  }

  lemma MoveEvolves(s: State, g: Ghost, t: nat, l: Local, s': State)
    requires EndsOk(s, g) && AllocOk(s, g) && Moves(s, t, l, s')
    ensures Evolves(s, g, s', g, t)
  {
  }

  lemma LocalStep(s: State, g: Ghost, t: nat, l: Local, s': State)
    requires SharedInv(s, g) && Moves(s, t, l, s') && Knows(s', g, t, l)
    ensures Kept(s, g, t, s', g)
  {
    MoveRoles(s, g, t, l, s');
    MoveLinks(s, g, t, l, s');
    MoveEvolves(s, g, t, l, s');
  }

  /** Thread t makes a step. */
  predicate Steps(s: State, g: Ghost, t: nat, c: Choice, s': State, g': Ghost) {
    && t < |s.threads| == |s'.threads| && Enabled(s, t, c) && Knows(s, g, t, s.threads[t])
    && s' == Exec(s, t, c) && g' == Track(s, g, t, c)
  }

  // ---- what the reading steps learn ----

  lemma LearnFree(s: State, g: Ghost, t: nat, e: Value)
    requires AllocOk(s, g) && PoolOk(s, g)
    ensures s.free.addr != NULL ==> Knows(s, g, t, AcqNext(e, s.free))
  {
  }

  lemma LearnCheck(s: State, g: Ghost, t: nat, head: Ptr, tail: Ptr, prev: Ptr)
    requires EndsOk(s, g) && Knows(s, g, t, PopCheck(head, tail, prev))
    ensures Knows(s, g, t, Decide(s, head, tail, prev))
  {
  }

  lemma LearnPrev(s: State, g: Ghost, t: nat, head: Ptr, tail: Ptr)
    requires EndsOk(s, g) && AllocOk(s, g) && RolesOk(s, g) && PrevOk(s, g)
    requires FreshTagsDiffer(s, g) && Knows(s, g, t, PopPrev(head, tail))
    ensures Knows(s, g, t, PopCheck(head, tail, Load(s.mem, head.addr).prev))
  {
    if g.front == head.tag {
      assert g.role[g.hist[g.front]] == Live(g.front);
    }
  }

  lemma LearnValue(s: State, g: Ghost, t: nat, head: Ptr, prev: Ptr)
    requires EndsOk(s, g) && ValuesOk(s, g) && Knows(s, g, t, PopValue(head, prev))
    ensures Knows(s, g, t, PopCas(head, prev, Load(s.mem, prev.addr).value))
  {
  }

  lemma LearnFixCheck(s: State, g: Ghost, t: nat, head: Ptr, current: Ptr)
    requires EndsOk(s, g) && Knows(s, g, t, FixCheck(head, current))
    requires head == s.head && current != head
    ensures Knows(s, g, t, FixNext(head, current))
  {
  }

  lemma LearnFixNext(s: State, g: Ghost, t: nat, head: Ptr, current: Ptr)
    requires EndsOk(s, g) && AllocOk(s, g) && NextOk(s, g) && Knows(s, g, t, FixNext(head, current))
    ensures Knows(s, g, t, FixLink(head, current, Load(s.mem, current.addr).next))
  {
  }

  predicate Reading(l: Local) {
    l.Idle? || l.AcqTop? || l.AcqNext? || l.PushTail? || l.PopHead? || l.PopTail? || l.PopPrev? ||
    l.PopCheck? || l.PopValue? || l.RelTop? || l.FixCheck? || l.FixNext?
  }

  lemma LearnSimply(s: State, g: Ghost, t: nat, c: Choice, s': State, g': Ghost)
    requires EndsOk(s, g) && Steps(s, g, t, c, s', g')
    requires var l := s.threads[t];
             l.Idle? || l.AcqNext? || l.PushTail? || l.PopHead? || l.PopTail? || l.RelTop?
    ensures Knows(s, g, t, s'.threads[t])
  {
  }

  lemma Learn(s: State, g: Ghost, t: nat, c: Choice, s': State, g': Ghost)
    requires SharedInv(s, g) && FreshTagsDiffer(s, g) && Steps(s, g, t, c, s', g') && Reading(s.threads[t])
    ensures Knows(s, g, t, s'.threads[t])
  {
    match s.threads[t] {
      case AcqTop(e) => LearnFree(s, g, t, e);
      case PopPrev(head, tail) => LearnPrev(s, g, t, head, tail);
      case PopCheck(head, tail, prev) => LearnCheck(s, g, t, head, tail, prev);
      case PopValue(head, prev) => LearnValue(s, g, t, head, prev);
      case FixCheck(head, current) =>
        if head == s.head && current != head {
          LearnFixCheck(s, g, t, head, current);
        }
      case FixNext(head, current) => LearnFixNext(s, g, t, head, current);
      case _ => LearnSimply(s, g, t, c, s', g');
    }
  }

  lemma ReadingMoves(s: State, g: Ghost, t: nat, c: Choice, s': State, g': Ghost)
    requires Steps(s, g, t, c, s', g') && Reading(s.threads[t])
    ensures Moves(s, t, s'.threads[t], s') && g' == g
  {
  }

  lemma MovedKnows(s: State, g: Ghost, t: nat, l: Local, s': State)
    requires Moves(s, t, l, s') && Knows(s, g, t, l)
    ensures Knows(s', g, t, l)
  {
  }

  lemma KeepReading(s: State, g: Ghost, t: nat, c: Choice, s': State, g': Ghost)
    requires SharedInv(s, g) && FreshTagsDiffer(s, g) && Steps(s, g, t, c, s', g') && Reading(s.threads[t])
    ensures Kept(s, g, t, s', g')
  {
    Learn(s, g, t, c, s', g');
    ReadingMoves(s, g, t, c, s', g');
    MovedKnows(s, g, t, s'.threads[t], s');
    LocalStep(s, g, t, s'.threads[t], s');
  }

  // ---- the writing steps ----
  /** Node n becomes v and thread t moves to l; only mPrev initialisation changes in the ghost. */
  predicate Overwrite(s: State, g: Ghost, t: nat, n: nat, v: Node, l: Local, s': State, g': Ghost) {
    && t < |s.threads| && n in s.mem && n in g.role
    && s' == Goto(s, t, l).(mem := s.mem[n := v])
    && g' == g.(uninit := g'.uninit)
    && Holds(l) == Holds(s.threads[t])
  }

  lemma PoolFrame(s: State, g: Ghost, t: nat, n: nat, v: Node, l: Local, s': State, g': Ghost)
    requires RolesOk(s, g) && PoolOk(s, g) && Overwrite(s, g, t, n, v, l, s', g')
    requires v.nextFree == s.mem[n].nextFree || !g.role[n].Free?
    ensures PoolOk(s', g')
  {
  }

  lemma NextFrame(s: State, g: Ghost, t: nat, n: nat, v: Node, l: Local, s': State, g': Ghost)
    requires RolesOk(s, g) && NextOk(s, g) && Overwrite(s, g, t, n, v, l, s', g')
    requires v.next == s.mem[n].next || (!g.role[n].Live? && v.next.addr in s.mem)
    ensures NextOk(s', g')
  {
  }

  lemma PrevFrame(s: State, g: Ghost, t: nat, n: nat, v: Node, l: Local, s': State, g': Ghost)
    requires PrevOk(s, g) && Overwrite(s, g, t, n, v, l, s', g')
    requires (g'.uninit == g.uninit && v.prev == s.mem[n].prev) ||
             (g'.uninit == g.uninit - {n} && HintOk(g, v.prev))
    ensures PrevOk(s', g')
  {
  }

  lemma ValuesFrame(s: State, g: Ghost, t: nat, n: nat, v: Node, l: Local, s': State, g': Ghost)
    requires RolesOk(s, g) && ValuesOk(s, g) && Overwrite(s, g, t, n, v, l, s', g')
    requires v.value == s.mem[n].value || !g.role[n].Live?
    ensures ValuesOk(s', g')
  {
  }

  lemma RolesFrame(s: State, g: Ghost, t: nat, n: nat, v: Node, l: Local, s': State, g': Ghost)
    requires RolesOk(s, g) && AllocOk(s, g) && EndsOk(s, g) && Overwrite(s, g, t, n, v, l, s', g')
    ensures RolesOk(s', g') && AllocOk(s', g') && EndsOk(s', g')
  {
  }

  lemma EvolvesFrame(s: State, g: Ghost, t: nat, n: nat, v: Node, l: Local, s': State, g': Ghost)
    requires AllocOk(s, g) && EndsOk(s, g) && RolesOk(s, g) && PoolOk(s, g)
    requires Overwrite(s, g, t, n, v, l, s', g')
    requires v == s.mem[n].(prev := v.prev) || g.role[n] == Owned(t)
    ensures Evolves(s, g, s', g', t)
  {
  }

  /** Each field changes only where the node's role allows it, and thread t knows what it must. */
  predicate Legal(s: State, g: Ghost, t: nat, n: nat, v: Node, l: Local, s': State, g': Ghost) {
    && Overwrite(s, g, t, n, v, l, s', g')
    && (v == s.mem[n].(prev := v.prev) || g.role[n] == Owned(t))
    && (v.next == s.mem[n].next || v.next.addr in s.mem)
    && ((g'.uninit == g.uninit && v.prev == s.mem[n].prev) ||
        (g'.uninit == g.uninit - {n} && HintOk(g, v.prev)))
    && Knows(s', g', t, l)
  }

  lemma OverwriteKeeps(s: State, g: Ghost, t: nat, n: nat, v: Node, l: Local, s': State, g': Ghost)
    requires SharedInv(s, g) && Legal(s, g, t, n, v, l, s', g')
    ensures Kept(s, g, t, s', g')
  {
    PoolFrame(s, g, t, n, v, l, s', g');
    NextFrame(s, g, t, n, v, l, s', g');
    PrevFrame(s, g, t, n, v, l, s', g');
    ValuesFrame(s, g, t, n, v, l, s', g');
    RolesFrame(s, g, t, n, v, l, s', g');
    EvolvesFrame(s, g, t, n, v, l, s', g');
  }

  predicate Writing(l: Local) {
    l.PushValue? || l.PushNext? || l.PushLink? || l.RelClear? || l.RelPrev? || l.RelNext? || l.FixLink?
  }

  lemma LearnFixLink(s: State, g: Ghost, t: nat, head: Ptr, current: Ptr, next: Ptr)
    requires Knows(s, g, t, FixLink(head, current, next))
    ensures Knows(s, g, t, FixCheck(head, Ptr(next.addr, current.tag - 1)))
    ensures HintOk(g, Ptr(current.addr, current.tag - 1))
  {
  }

  /** Push's and FixList's delayed mPrev writes are legal wherever the node is by now. */
  lemma HintWriteLegal(s: State, g: Ghost, t: nat, c: Choice, s': State, g': Ghost)
    requires AllocOk(s, g) && Steps(s, g, t, c, s', g')
    requires s.threads[t].PushLink? || s.threads[t].FixLink?
    ensures var n := Accessed(s.threads[t]); n in s'.mem && Legal(s, g, t, n, s'.mem[n], s'.threads[t], s', g')
  {
    if s.threads[t].FixLink? {
      LearnFixLink(s, g, t, s.threads[t].head, s.threads[t].current, s.threads[t].next);
    }
  }

  lemma HeldWriteLegal(s: State, g: Ghost, t: nat, c: Choice, s': State, g': Ghost)
    requires AllocOk(s, g) && Steps(s, g, t, c, s', g')
    requires Writing(s.threads[t]) && !s.threads[t].PushLink? && !s.threads[t].FixLink?
    ensures var n := Accessed(s.threads[t]); n in s'.mem && Legal(s, g, t, n, s'.mem[n], s'.threads[t], s', g')
  {
  }

  lemma KeepWriting(s: State, g: Ghost, t: nat, c: Choice, s': State, g': Ghost)
    requires SharedInv(s, g) && Steps(s, g, t, c, s', g') && Writing(s.threads[t])
    ensures Kept(s, g, t, s', g')
  {
    if s.threads[t].PushLink? || s.threads[t].FixLink? {
      HintWriteLegal(s, g, t, c, s', g');
    } else {
      HeldWriteLegal(s, g, t, c, s', g');
    }
    var n := Accessed(s.threads[t]);
    OverwriteKeeps(s, g, t, n, s'.mem[n], s'.threads[t], s', g');
  }

  // ---- allocation and the four successful compare-exchanges ----
  /** Thread t allocates node n with arbitrary contents. */
  predicate Allocates(s: State, g: Ghost, t: nat, n: nat, v: Node, s': State, g': Ghost) {
    && t < |s.threads| && n != NULL && n !in s.mem && OthersStay(s, s', t)
    && !Holding(s.threads[t]) && Holds(s'.threads[t]) == n
    && s' == s.(mem := s.mem[n := v], threads := s'.threads)
    && g' == g.(role := g.role[n := Owned(t)], uninit := g.uninit + {n})
  }

  lemma AllocateRoles(s: State, g: Ghost, t: nat, n: nat, v: Node, s': State, g': Ghost)
    requires EndsOk(s, g) && AllocOk(s, g) && RolesOk(s, g) && Allocates(s, g, t, n, v, s', g')
    ensures EndsOk(s', g') && AllocOk(s', g') && RolesOk(s', g')
  {
    forall a | a in g'.role ensures RoleTrue(s', g', a) {
      if a != n { assert RoleTrue(s, g, a); }
    }
  }

  lemma AllocateLinks(s: State, g: Ghost, t: nat, n: nat, v: Node, s': State, g': Ghost)
    requires EndsOk(s, g) && AllocOk(s, g) && PoolOk(s, g) && NextOk(s, g) && PrevOk(s, g) && ValuesOk(s, g)
    requires Allocates(s, g, t, n, v, s', g')
    ensures PoolOk(s', g') && NextOk(s', g') && PrevOk(s', g') && ValuesOk(s', g')
  {
  }

  lemma AllocateEvolves(s: State, g: Ghost, t: nat, n: nat, v: Node, s': State, g': Ghost)
    requires EndsOk(s, g) && AllocOk(s, g) && PoolOk(s, g) && Allocates(s, g, t, n, v, s', g')
    ensures Evolves(s, g, s', g', t)
  {
  }

  lemma AllocateKeeps(s: State, g: Ghost, t: nat, n: nat, v: Node, s': State, g': Ghost)
    requires SharedInv(s, g) && Allocates(s, g, t, n, v, s', g')
    ensures SharedInv(s', g') && Evolves(s, g, s', g', t)
  {
    AllocateRoles(s, g, t, n, v, s', g');
    AllocateLinks(s, g, t, n, v, s', g');
    AllocateEvolves(s, g, t, n, v, s', g');
  }

  /** Thread t links its node n at the tail. */
  predicate Links(s: State, g: Ghost, t: nat, n: nat, e: Value, s': State, g': Ghost) {
    && t < |s.threads| && OthersStay(s, s', t) && Mine(g, t, n)
    && s' == s.(tail := Ptr(n, |g.hist|), threads := s'.threads)
    && g' == g.(hist := g.hist + [n], vals := g.vals + [e], role := g.role[n := Live(|g.hist|)])
  }

  lemma LinkRoles(s: State, g: Ghost, t: nat, n: nat, e: Value, s': State, g': Ghost)
    requires EndsOk(s, g) && AllocOk(s, g) && RolesOk(s, g) && Links(s, g, t, n, e, s', g')
    ensures EndsOk(s', g') && AllocOk(s', g') && RolesOk(s', g')
  {
    assert RoleTrue(s, g, n);
    forall a | a in g'.role ensures RoleTrue(s', g', a) {
      if a != n { assert RoleTrue(s, g, a); }
    }
  }

  lemma LinkLinks(s: State, g: Ghost, t: nat, n: nat, e: Value, s': State, g': Ghost)
    requires EndsOk(s, g) && AllocOk(s, g) && PoolOk(s, g) && NextOk(s, g) && PrevOk(s, g) && ValuesOk(s, g)
    requires Links(s, g, t, n, e, s', g')
    requires Load(s.mem, n).next == Ptr(s.tail.addr, |g.hist|) && Load(s.mem, n).value == e
    ensures PoolOk(s', g') && NextOk(s', g') && PrevOk(s', g') && ValuesOk(s', g')
  {
  }

  lemma LinkEvolves(s: State, g: Ghost, t: nat, n: nat, e: Value, s': State, g': Ghost)
    requires EndsOk(s, g) && AllocOk(s, g) && PoolOk(s, g) && Links(s, g, t, n, e, s', g')
    ensures Evolves(s, g, s', g', t)
  {
  }

  lemma LinkKeeps(s: State, g: Ghost, t: nat, n: nat, e: Value, s': State, g': Ghost)
    requires SharedInv(s, g) && Links(s, g, t, n, e, s', g')
    requires Load(s.mem, n).next == Ptr(s.tail.addr, |g.hist|) && Load(s.mem, n).value == e
    ensures SharedInv(s', g') && Evolves(s, g, s', g', t)
  {
    LinkRoles(s, g, t, n, e, s', g');
    LinkLinks(s, g, t, n, e, s', g');
    LinkEvolves(s, g, t, n, e, s', g');
  }

  /** Thread t advances mHead and takes the node it leaves behind. */
  predicate Takes(s: State, g: Ghost, t: nat, n: nat, s': State, g': Ghost) {
    && t < |s.threads| && OthersStay(s, s', t) && g.front + 1 < |g.hist|
    && !Holding(s.threads[t]) && Holds(s'.threads[t]) == n == g.hist[g.front]
    && s' == s.(head := Ptr(g.hist[g.front + 1], g.front + 1), threads := s'.threads)
    && g' == g.(front := g.front + 1, role := g.role[n := Owned(t)])
  }

  lemma TakeEnds(s: State, g: Ghost, t: nat, n: nat, s': State, g': Ghost)
    requires EndsOk(s, g) && AllocOk(s, g) && RolesOk(s, g) && Takes(s, g, t, n, s', g')
    ensures EndsOk(s', g') && AllocOk(s', g')
  {
  }

  lemma TakeRoles(s: State, g: Ghost, t: nat, n: nat, s': State, g': Ghost)
    requires EndsOk(s, g) && AllocOk(s, g) && RolesOk(s, g) && Takes(s, g, t, n, s', g')
    ensures RolesOk(s', g')
  {
    forall a | a in g'.role ensures RoleTrue(s', g', a) {
      if a != n { assert RoleTrue(s, g, a); }
    }
  }

  lemma TakeLinks(s: State, g: Ghost, t: nat, n: nat, s': State, g': Ghost)
    requires EndsOk(s, g) && AllocOk(s, g) && PoolOk(s, g) && NextOk(s, g) && PrevOk(s, g) && ValuesOk(s, g)
    requires Takes(s, g, t, n, s', g')
    ensures PoolOk(s', g') && NextOk(s', g') && PrevOk(s', g') && ValuesOk(s', g')
  {
  }

  lemma TakeEvolves(s: State, g: Ghost, t: nat, n: nat, s': State, g': Ghost)
    requires EndsOk(s, g) && AllocOk(s, g) && RolesOk(s, g) && Takes(s, g, t, n, s', g')
    ensures Evolves(s, g, s', g', t)
  {
  }

  lemma TakeKeeps(s: State, g: Ghost, t: nat, n: nat, s': State, g': Ghost)
    requires SharedInv(s, g) && Takes(s, g, t, n, s', g')
    ensures SharedInv(s', g') && Evolves(s, g, s', g', t)
  {
    TakeEnds(s, g, t, n, s', g');
    TakeRoles(s, g, t, n, s', g');
    TakeLinks(s, g, t, n, s', g');
    TakeEvolves(s, g, t, n, s', g');
  }

  /** Thread t takes the node on top of the free list. */
  predicate Acquires(s: State, g: Ghost, t: nat, n: nat, s': State, g': Ghost) {
    && t < |s.threads| && OthersStay(s, s', t) && g.pool != []
    && !Holding(s.threads[t]) && Holds(s'.threads[t]) == n == Top(g.pool)
    && s' == s.(free := Ptr(Load(s.mem, n).nextFree, s.free.tag + 1), threads := s'.threads)
    && g' == g.(pool := g.pool[..|g.pool| - 1], role := g.role[n := Owned(t)])
  }

  lemma AcquireRoles(s: State, g: Ghost, t: nat, n: nat, s': State, g': Ghost)
    requires EndsOk(s, g) && AllocOk(s, g) && RolesOk(s, g) && Acquires(s, g, t, n, s', g')
    ensures EndsOk(s', g') && AllocOk(s', g') && RolesOk(s', g')
  {
    forall a | a in g'.role ensures RoleTrue(s', g', a) {
      if a != n { assert RoleTrue(s, g, a); }
    }
  }

  lemma AcquirePool(s: State, g: Ghost, t: nat, n: nat, s': State, g': Ghost)
    requires PoolOk(s, g) && Acquires(s, g, t, n, s', g')
    ensures PoolOk(s', g')
  {
    forall i | 0 <= i < |g'.pool|
      ensures Load(s'.mem, g'.pool[i]).nextFree == Top(g'.pool[..i])
    {
      assert g'.pool[..i] == g.pool[..i];
    }
  }

  lemma AcquireLinks(s: State, g: Ghost, t: nat, n: nat, s': State, g': Ghost)
    requires EndsOk(s, g) && AllocOk(s, g) && NextOk(s, g) && PrevOk(s, g) && ValuesOk(s, g)
    requires Acquires(s, g, t, n, s', g')
    ensures NextOk(s', g') && PrevOk(s', g') && ValuesOk(s', g')
  {
  }

  lemma AcquireEvolves(s: State, g: Ghost, t: nat, n: nat, s': State, g': Ghost)
    requires EndsOk(s, g) && AllocOk(s, g) && RolesOk(s, g) && Acquires(s, g, t, n, s', g')
    ensures Evolves(s, g, s', g', t)
  {
  }

  lemma AcquireKeeps(s: State, g: Ghost, t: nat, n: nat, s': State, g': Ghost)
    requires SharedInv(s, g) && Acquires(s, g, t, n, s', g')
    ensures SharedInv(s', g') && Evolves(s, g, s', g', t)
  {
    AcquireRoles(s, g, t, n, s', g');
    AcquirePool(s, g, t, n, s', g');
    AcquireLinks(s, g, t, n, s', g');
    AcquireEvolves(s, g, t, n, s', g');
  }

  /** Thread t puts its node n on top of the free list. */
  predicate Releases(s: State, g: Ghost, t: nat, n: nat, s': State, g': Ghost) {
    && t < |s.threads| && OthersStay(s, s', t) && Mine(g, t, n)
    && s' == s.(free := Ptr(n, s.free.tag + 1), threads := s'.threads)
    && g' == g.(pool := g.pool + [n], role := g.role[n := Free(|g.pool|)])
  }

  lemma ReleaseRoles(s: State, g: Ghost, t: nat, n: nat, s': State, g': Ghost)
    requires EndsOk(s, g) && AllocOk(s, g) && RolesOk(s, g) && Releases(s, g, t, n, s', g')
    ensures EndsOk(s', g') && AllocOk(s', g') && RolesOk(s', g')
  {
    assert RoleTrue(s, g, n);
    forall a | a in g'.role ensures RoleTrue(s', g', a) {
      if a != n { assert RoleTrue(s, g, a); }
    }
  }

  lemma ReleasePool(s: State, g: Ghost, t: nat, n: nat, s': State, g': Ghost)
    requires PoolOk(s, g) && Releases(s, g, t, n, s', g') && Load(s.mem, n).nextFree == s.free.addr
    ensures PoolOk(s', g')
  {
    forall i | 0 <= i < |g'.pool|
      ensures Load(s'.mem, g'.pool[i]).nextFree == Top(g'.pool[..i])
    {
      assert g'.pool[..i] == g.pool[..i];
    }
  }

  lemma ReleaseLinks(s: State, g: Ghost, t: nat, n: nat, s': State, g': Ghost)
    requires EndsOk(s, g) && AllocOk(s, g) && NextOk(s, g) && PrevOk(s, g) && ValuesOk(s, g)
    requires Releases(s, g, t, n, s', g')
    ensures NextOk(s', g') && PrevOk(s', g') && ValuesOk(s', g')
  {
  }

  lemma ReleaseEvolves(s: State, g: Ghost, t: nat, n: nat, s': State, g': Ghost)
    requires EndsOk(s, g) && AllocOk(s, g) && PoolOk(s, g) && Releases(s, g, t, n, s', g')
    ensures Evolves(s, g, s', g', t)
  {
  }

  lemma ReleaseKeeps(s: State, g: Ghost, t: nat, n: nat, s': State, g': Ghost)
    requires SharedInv(s, g) && Releases(s, g, t, n, s', g') && Load(s.mem, n).nextFree == s.free.addr
    ensures SharedInv(s', g') && Evolves(s, g, s', g', t)
  {
    ReleaseRoles(s, g, t, n, s', g');
    ReleasePool(s, g, t, n, s', g');
    ReleaseLinks(s, g, t, n, s', g');
    ReleaseEvolves(s, g, t, n, s', g');
  }

  // What a successful compare-exchange by thread t does, from what thread t knows.

  lemma LearnLinked(s: State, g: Ghost, t: nat, c: Choice, s': State, g': Ghost)
    requires EndsOk(s, g) && Steps(s, g, t, c, s', g')
    requires s.threads[t].PushCas? && s.tail == s.threads[t].tail
    ensures Links(s, g, t, s.threads[t].node, s.threads[t].elem, s', g') && Knows(s', g', t, s'.threads[t])
    ensures Load(s.mem, s.threads[t].node).next == Ptr(s.tail.addr, |g.hist|)
    ensures Load(s.mem, s.threads[t].node).value == s.threads[t].elem
  {
  }

  lemma LearnTaken(s: State, g: Ghost, t: nat, c: Choice, s': State, g': Ghost)
    requires EndsOk(s, g) && Steps(s, g, t, c, s', g')
    requires s.threads[t].PopCas? && s.head == s.threads[t].head
    ensures Takes(s, g, t, s.head.addr, s', g') && Knows(s', g', t, s'.threads[t])
  {
  }

  lemma LearnAcquired(s: State, g: Ghost, t: nat, c: Choice, s': State, g': Ghost)
    requires AllocOk(s, g) && PoolOk(s, g) && Steps(s, g, t, c, s', g')
    requires s.threads[t].AcqCas? && s.free == s.threads[t].top
    ensures Acquires(s, g, t, s.free.addr, s', g') && Knows(s', g', t, s'.threads[t])
  {
  }

  lemma LearnReleased(s: State, g: Ghost, t: nat, c: Choice, s': State, g': Ghost)
    requires Steps(s, g, t, c, s', g') && s.threads[t].RelCas? && s.free == s.threads[t].top
    ensures Releases(s, g, t, s.threads[t].node, s', g') && Knows(s', g', t, s'.threads[t])
    ensures Load(s.mem, s.threads[t].node).nextFree == s.free.addr
  {
  }

  lemma LearnAllocated(s: State, g: Ghost, t: nat, c: Choice, s': State, g': Ghost)
    requires Steps(s, g, t, c, s', g') && s.threads[t].AcqNew?
    ensures Allocates(s, g, t, c.addr, c.garbage.(nextFree := NULL), s', g') && Knows(s', g', t, s'.threads[t])
  {
  }

  /** The step is a compare-exchange that finds another value than it expects. */
  predicate Fails(s: State, l: Local) {
    match l
    case AcqCas(_, top, _) => s.free != top
    case PushCas(_, _, tail) => s.tail != tail
    case PopCas(head, _, _) => s.head != head
    case RelCas(_, _, top) => s.free != top
    case _ => false
  }

  /** A failed exchange goes back to the start of its loop; a counter update ends its operation. */
  lemma SideStepMoves(s: State, g: Ghost, t: nat, c: Choice, s': State, g': Ghost)
    requires Steps(s, g, t, c, s', g')
    requires Fails(s, s.threads[t]) || s.threads[t].PushCount? || s.threads[t].PopCount?
    ensures Moves(s, t, s'.threads[t], s') && g' == g && Knows(s', g, t, s'.threads[t])
  {
  }

  lemma KeepExchange(s: State, g: Ghost, t: nat, c: Choice, s': State, g': Ghost)
    requires SharedInv(s, g) && Steps(s, g, t, c, s', g')
    requires !Reading(s.threads[t]) && !Writing(s.threads[t])
    ensures Kept(s, g, t, s', g')
  {
    var l := s.threads[t];
    if Fails(s, l) || l.PushCount? || l.PopCount? {
      SideStepMoves(s, g, t, c, s', g');
      LocalStep(s, g, t, s'.threads[t], s');
    } else if l.PushCas? {
      LearnLinked(s, g, t, c, s', g');
      LinkKeeps(s, g, t, l.node, l.elem, s', g');
    } else if l.PopCas? {
      LearnTaken(s, g, t, c, s', g');
      TakeKeeps(s, g, t, s.head.addr, s', g');
    } else if l.AcqCas? {
      LearnAcquired(s, g, t, c, s', g');
      AcquireKeeps(s, g, t, s.free.addr, s', g');
    } else if l.RelCas? {
      LearnReleased(s, g, t, c, s', g');
      ReleaseKeeps(s, g, t, l.node, s', g');
    } else {
      LearnAllocated(s, g, t, c, s', g');
      AllocateKeeps(s, g, t, c.addr, c.garbage.(nextFree := NULL), s', g');
    }
  }

  /** Every step keeps the obligations of the thread that makes it. */
  lemma StepKept(s: State, g: Ghost, t: nat, c: Choice, s': State, g': Ghost)
    requires SharedInv(s, g) && FreshTagsDiffer(s, g) && Steps(s, g, t, c, s', g')
    ensures Kept(s, g, t, s', g')
  {
    if Reading(s.threads[t]) {
      KeepReading(s, g, t, c, s', g');
    } else if Writing(s.threads[t]) {
      KeepWriting(s, g, t, c, s', g');
    } else {
      KeepExchange(s, g, t, c, s', g');
    }
  }

  lemma SameThreads(s: State, t: nat, c: Choice)
    requires Enabled(s, t, c)
    ensures |Exec(s, t, c).threads| == |s.threads|
  {
  }

  lemma OthersKeep(s: State, g: Ghost, t: nat, s': State, g': Ghost)
    requires AllocOk(s, g) && Kept(s, g, t, s', g')
    requires forall u :: 0 <= u < |s.threads| ==> Knows(s, g, u, s.threads[u])
    ensures forall u :: 0 <= u < |s'.threads| ==> Knows(s', g', u, s'.threads[u])
  {
    forall u | 0 <= u < |s'.threads| ensures Knows(s', g', u, s'.threads[u]) {
      if u != t {
        Stable(s, g, s', g', t, u);
      }
    }
  }

  /** The invariant is inductive. */
  lemma InvInductive(s: State, g: Ghost, t: nat, c: Choice, s': State, g': Ghost)
    requires Inv(s, g) && FreshTagsDiffer(s, g)
    requires Enabled(s, t, c) && s' == Exec(s, t, c) && g' == Track(s, g, t, c)
    ensures Inv(s', g')
  {
    SameThreads(s, t, c);
    assert Steps(s, g, t, c, s', g');
    StepKept(s, g, t, c, s', g');
    OthersKeep(s, g, t, s', g');
  }

  /** The constructor establishes it. */
  lemma InvInitial(s: State)
    requires Initial(s)
    ensures Inv(s, Start(s))
  {
  }
}
