/** The lock-free free list as a step system: threads that allocate, threads that free, and a step for each
    access to `m_head` or to the link of a block. */
module FreeListSteps {
  import opened Options

  /** A thread in `freelistAlloc`: before its first load, before the test of what it loaded, before the load of
      the link, before the compare-and-swap. */
  datatype Alloc = LoadHead | Test(seen: Option<nat>) | LoadNext(cur: nat) | Swap(cur: nat, nx: Option<nat>)

  /** A thread in `freelistFree` with its block: before the first load, before the compare-and-swap. */
  datatype Free = SetNext(b: nat) | Publish(b: nat)

  /** Blocks are numbered as they are made by the caller of an allocation that found the list empty. History:
      the blocks in use, the chain of freed blocks as the swaps build it, and whether a block was ever handed
      out while in use. */
  datatype State = State(
    head: Option<nat>, next: map<nat, Option<nat>>, allocs: map<nat, Alloc>, frees: map<nat, Free>,
    allocCalls: nat, freeCalls: nat, blocks: nat, inUse: set<nat>, chain: seq<nat>, doubled: bool)

  function Init(): State {
    State(None, map[], map[], map[], 0, 0, 0, {}, [], false)
  }

  /** A weak swap may fail without a reason. Whoever has a block in use may write anything to its first word,
      where a freed block has its link. */
  datatype Action =
    | StartAlloc(t: nat) | StepAlloc(t: nat, spurious: bool)
    | StartFree(t: nat, b: nat) | StepFree(t: nat, spurious: bool)
    | Overwrite(b: nat, word: Option<nat>)

  predicate Enabled(s: State, a: Action) {
    match a
    case StartAlloc(t) => t !in s.allocs
    case StepAlloc(t, _) => t in s.allocs && (s.allocs[t].LoadNext? ==> s.allocs[t].cur in s.next)
    case StartFree(t, b) => t !in s.frees && b in s.inUse
    case StepFree(t, _) => t in s.frees && (s.frees[t].Publish? ==> s.frees[t].b in s.next)
    case Overwrite(b, _) => b in s.inUse
  }

  function Hand(s: State, t: nat, b: nat): State {
    s.(allocs := s.allocs - {t}, inUse := s.inUse + {b}, doubled := s.doubled || b in s.inUse)
  }

  function AllocNext(s: State, t: nat, spurious: bool): State
    requires Enabled(s, StepAlloc(t, spurious))
  {
    match s.allocs[t]
    case LoadHead => s.(allocs := s.allocs[t := Test(s.head)])
    case Test(None) => Hand(s.(blocks := s.blocks + 1), t, s.blocks)
    case Test(Some(cur)) => s.(allocs := s.allocs[t := LoadNext(cur)])
    case LoadNext(cur) => s.(allocs := s.allocs[t := Swap(cur, s.next[cur])])
    case Swap(cur, nx) =>
      if s.head == Some(cur) && !spurious then
        Hand(s.(head := nx, chain := if s.chain != [] then s.chain[1..] else []), t, cur)
      else
        s.(allocs := s.allocs[t := Test(s.head)])
  }

  function FreeNext(s: State, t: nat, spurious: bool): State
    requires Enabled(s, StepFree(t, spurious))
  {
    match s.frees[t]
    case SetNext(b) => s.(frees := s.frees[t := Publish(b)], next := s.next[b := s.head])
    case Publish(b) =>
      if s.head == s.next[b] && !spurious then
        s.(head := Some(b), frees := s.frees - {t}, chain := [b] + s.chain)
      else
        s.(next := s.next[b := s.head])
  }

  function Next(s: State, a: Action): State
    requires Enabled(s, a)
  {
    match a
    case StartAlloc(t) => s.(allocs := s.allocs[t := LoadHead], allocCalls := s.allocCalls + 1)
    case StepAlloc(t, spurious) => AllocNext(s, t, spurious)
    case StartFree(t, b) =>
      s.(frees := s.frees[t := SetNext(b)], freeCalls := s.freeCalls + 1, inUse := s.inUse - {b})
    case StepFree(t, spurious) => FreeNext(s, t, spurious)
    case Overwrite(b, word) => s.(next := s.next[b := word])
  }

  /** A run of enabled steps. */
  predicate IsRun(s: State, actions: seq<Action>)
    decreases |actions|
  {
    actions == [] || (Enabled(s, actions[0]) && IsRun(Next(s, actions[0]), actions[1..]))
  }

  function Run(s: State, actions: seq<Action>): State
    requires IsRun(s, actions)
    decreases |actions|
  {
    if actions == [] then s else Run(Next(s, actions[0]), actions[1..])
  }

  /** A run in which no thread enters `freelistAlloc` while another is inside. */
  predicate OneAllocator(s: State, actions: seq<Action>)
    requires IsRun(s, actions)
    decreases |actions|
  {
    actions == [] ||
    ((actions[0].StartAlloc? ==> s.allocs == map[]) && OneAllocator(Next(s, actions[0]), actions[1..]))
  }

  // ---------- What a run with one allocator at a time keeps ----------

  function LinkAfter(chain: seq<nat>, n: nat): Option<nat>
    requires n < |chain|
  {
    if n + 1 < |chain| then Some(chain[n + 1]) else None
  }

  /** The links from `m_head` run through the chain and end. */
  ghost predicate ChainOk(s: State) {
    && s.head == (if s.chain == [] then None else Some(s.chain[0]))
    && (forall n: nat | n < |s.chain| :: s.chain[n] in s.next && s.next[s.chain[n]] == LinkAfter(s.chain, n))
    && (forall m: nat, n: nat | m < n < |s.chain| :: s.chain[m] != s.chain[n])
  }

  ghost predicate Freeing(s: State, b: nat) {
    exists t :: t in s.frees && s.frees[t].b == b
  }

  /** A block that was made is in the chain, in use, or in the hand of a thread that frees it, and only one of
      these; other numbers are nowhere. */
  ghost predicate BlockOk(s: State, b: nat) {
    && (b < s.blocks <==> b in s.chain || b in s.inUse || Freeing(s, b))
    && !(b in s.chain && b in s.inUse)
    && !(b in s.chain && Freeing(s, b))
    && !(b in s.inUse && Freeing(s, b))
  }

  ghost predicate BlocksOk(s: State) {
    forall b: nat :: BlockOk(s, b)
  }

  /** Threads that free hold different blocks, and have written the link before they publish. */
  ghost predicate FreesOk(s: State) {
    && (forall t, u | t in s.frees && u in s.frees && t != u :: s.frees[t].b != s.frees[u].b)
    && (forall t | t in s.frees && s.frees[t].Publish? :: s.frees[t].b in s.next)
  }

  /** What an allocating thread has seen of the chain is still there. */
  ghost predicate Fresh(s: State, a: Alloc) {
    match a
    case LoadHead => true
    case Test(seen) => seen.Some? ==> seen.value in s.chain
    case LoadNext(cur) => cur in s.chain
    case Swap(cur, nx) => cur in s.chain && cur in s.next && s.next[cur] == nx
  }

  /** At most one thread allocates. */
  ghost predicate AllocOk(s: State) {
    s.allocs == map[] || exists t :: Alone(s, t)
  }

  ghost predicate Alone(s: State, t: nat) {
    t in s.allocs && s.allocs == map[t := s.allocs[t]] && Fresh(s, s.allocs[t])
  }

  ghost predicate Counted(s: State) {
    s.allocCalls == s.freeCalls + |s.inUse| + |s.allocs|
  }

  ghost predicate Inv(s: State) {
    ChainOk(s) && BlocksOk(s) && FreesOk(s) && !s.doubled && Counted(s)
  }

  /** A swap that takes the head puts there what is still the link of the block it takes. */
  predicate Current(s: State, a: Action)
    requires Enabled(s, a)
  {
    a.StepAlloc? && Takes(s, a.t, a.spurious) ==>
      s.allocs[a.t].cur in s.next && s.next[s.allocs[a.t].cur] == s.allocs[a.t].nx
  }

  predicate Takes(s: State, t: nat, spurious: bool)
    requires t in s.allocs
  {
    s.allocs[t].Swap? && s.head == Some(s.allocs[t].cur) && !spurious
  }

  lemma InitInv()
    ensures Inv(Init()) && AllocOk(Init())
  {
    var s := Init();
    forall b: nat ensures BlockOk(s, b) {
      assert !Freeing(s, b);
    }
  }

  lemma SameBlocks(s: State, r: State)
    requires ChainOk(s) && BlocksOk(s) && FreesOk(s)
    requires r.head == s.head && r.next == s.next && r.chain == s.chain
    requires r.inUse == s.inUse && r.frees == s.frees && r.blocks == s.blocks
    ensures ChainOk(r) && BlocksOk(r) && FreesOk(r)
  {
    forall b: nat ensures BlockOk(r, b) {
      assert BlockOk(s, b);
      assert Freeing(s, b) <==> Freeing(r, b);
    }
  }

  lemma StartAllocKeeps(s: State, t: nat)
    requires Inv(s) && Enabled(s, StartAlloc(t))
    ensures Inv(Next(s, StartAlloc(t)))
  {
    var r := Next(s, StartAlloc(t));
    assert Counted(r) by {
      assert r.allocs.Keys == s.allocs.Keys + {t};
    }
    SameBlocks(s, r);
  }

  /** Steps of an allocation that hand out nothing. */
  lemma AllocStepKeeps(s: State, t: nat, spurious: bool)
    requires Inv(s) && Enabled(s, StepAlloc(t, spurious))
    requires s.allocs[t] != Test(None) && !Takes(s, t, spurious)
    ensures Inv(AllocNext(s, t, spurious))
  {
    var r := AllocNext(s, t, spurious);
    assert Counted(r) by {
      assert r.allocs.Keys == s.allocs.Keys;
    }
    SameBlocks(s, r);
  }

  lemma NewBlockKeeps(s: State, t: nat, spurious: bool)
    requires Inv(s) && Enabled(s, StepAlloc(t, spurious)) && s.allocs[t] == Test(None)
    ensures Inv(AllocNext(s, t, spurious))
  {
    var r := AllocNext(s, t, spurious);
    assert r.allocs.Keys == s.allocs.Keys - {t};
    assert BlockOk(s, s.blocks);
    NewBlockOk(s, r);
    assert ChainOk(r);
  }

  lemma NewBlockOk(s: State, r: State)
    requires BlocksOk(s) && r.chain == s.chain && r.frees == s.frees
    requires r.inUse == s.inUse + {s.blocks} && r.blocks == s.blocks + 1
    ensures BlocksOk(r)
  {
    assert BlockOk(s, s.blocks);
    forall b: nat ensures BlockOk(r, b) {
      assert BlockOk(s, b);
      assert Freeing(s, b) <==> Freeing(r, b);
    }
  }

  /** The swap that takes the head is harmless exactly when it is current. */
  lemma HandKeepsIff(s: State, t: nat)
    requires Inv(s) && Enabled(s, StepAlloc(t, false)) && Takes(s, t, false)
    ensures Inv(AllocNext(s, t, false)) <==> Current(s, StepAlloc(t, false))
  {
    var r := AllocNext(s, t, false);
    assert LinkAfter(s.chain, 0) == s.next[s.allocs[t].cur];
    assert ChainOk(r) ==> r.head == LinkAfter(s.chain, 0);
    if Current(s, StepAlloc(t, false)) {
      TailOk(s, r);
      HandedOk(s, r);
      assert BlockOk(s, s.chain[0]);
      assert r.allocs.Keys == s.allocs.Keys - {t};
    }
  }

  lemma HandedOk(s: State, r: State)
    requires BlocksOk(s) && s.chain != [] && s.chain[0] !in r.chain && r.chain == s.chain[1..]
    requires r.inUse == s.inUse + {s.chain[0]} && r.blocks == s.blocks && r.frees == s.frees
    ensures BlocksOk(r)
  {
    forall b: nat ensures BlockOk(r, b) {
      assert BlockOk(s, b) && BlockOk(s, s.chain[0]);
      assert b in s.chain <==> b == s.chain[0] || b in r.chain;
      assert Freeing(s, b) <==> Freeing(r, b);
    }
  }

  lemma TailOk(s: State, r: State)
    requires ChainOk(s) && s.chain != [] && r.next == s.next
    requires r.chain == s.chain[1..] && r.head == LinkAfter(s.chain, 0)
    ensures ChainOk(r) && s.chain[0] !in r.chain
  {
    forall m: nat | m < |r.chain| ensures r.chain[m] in r.next && r.next[r.chain[m]] == LinkAfter(r.chain, m) {
      assert r.chain[m] == s.chain[m + 1];
    }
  }

  lemma StartFreeKeeps(s: State, t: nat, b: nat)
    requires Inv(s) && Enabled(s, StartFree(t, b))
    ensures Inv(Next(s, StartFree(t, b)))
  {
    var r := Next(s, StartFree(t, b));
    assert BlockOk(s, b);
    forall c: nat ensures BlockOk(r, c) && (c == b || (Freeing(r, c) <==> Freeing(s, c))) {
      assert BlockOk(s, c);
      FreeingStarts(s, t, b, r, c);
    }
    forall u | u in s.frees ensures s.frees[u].b != b {
      assert Freeing(s, s.frees[u].b);
    }
  }

  lemma FreeingStarts(s: State, t: nat, b: nat, r: State, c: nat)
    requires t !in s.frees && r.frees == s.frees[t := SetNext(b)]
    ensures Freeing(r, c) <==> c == b || Freeing(s, c)
  {
    assert r.frees[t].b == b;
    if u :| u in s.frees && s.frees[u].b == c {
      assert r.frees[u].b == c;
    }
  }

  /** Writing the link of a block that is not in the chain disturbs nothing. */
  lemma LinkKeeps(s: State, t: nat, spurious: bool)
    requires Inv(s) && Enabled(s, StepFree(t, spurious))
    requires s.frees[t].SetNext? || s.head != s.next[s.frees[t].b] || spurious
    ensures Inv(FreeNext(s, t, spurious))
  {
    var r := FreeNext(s, t, spurious);
    var b := s.frees[t].b;
    assert r.frees == s.frees[t := Publish(b)];
    assert r.next == s.next[b := s.head];
    assert Freeing(s, b);
    assert BlockOk(s, b);
    forall c: nat ensures BlockOk(r, c) {
      assert BlockOk(s, c);
      FreeingStays(s, t, r, c);
    }
    assert forall n: nat | n < |s.chain| :: s.chain[n] != b;
  }

  lemma FreeingStays(s: State, t: nat, r: State, c: nat)
    requires t in s.frees && r.frees == s.frees[t := Publish(s.frees[t].b)]
    ensures Freeing(r, c) <==> Freeing(s, c)
  {
    if u :| u in s.frees && s.frees[u].b == c {
      assert r.frees[u].b == c;
    }
    if u :| u in r.frees && r.frees[u].b == c {
      assert s.frees[u].b == c;
    }
  }

  lemma PublishKeeps(s: State, t: nat)
    requires Inv(s) && Enabled(s, StepFree(t, false)) && s.frees[t].Publish? && s.head == s.next[s.frees[t].b]
    ensures Inv(FreeNext(s, t, false))
  {
    var r := FreeNext(s, t, false);
    var b := s.frees[t].b;
    assert Freeing(s, b);
    assert BlockOk(s, b);
    PushOk(s, b, r);
    forall c: nat ensures BlockOk(r, c) {
      assert BlockOk(s, c);
      assert c in r.chain <==> c == b || c in s.chain;
      FreeingEnds(s, t, r, c);
    }
  }

  lemma PushOk(s: State, b: nat, r: State)
    requires ChainOk(s) && b !in s.chain && b in s.next && s.head == s.next[b]
    requires r.next == s.next && r.chain == [b] + s.chain && r.head == Some(b)
    ensures ChainOk(r)
  {
    forall n: nat | n < |r.chain| ensures r.chain[n] in r.next && r.next[r.chain[n]] == LinkAfter(r.chain, n) {
      if n > 0 {
        assert r.chain[n] == s.chain[n - 1];
      }
    }
  }

  lemma FreeingEnds(s: State, t: nat, r: State, c: nat)
    requires FreesOk(s) && t in s.frees && r.frees == s.frees - {t}
    ensures Freeing(r, c) <==> c != s.frees[t].b && Freeing(s, c)
  {
    if c != s.frees[t].b && Freeing(s, c) {
      var u :| u in s.frees && s.frees[u].b == c;
      assert r.frees[u].b == c;
    }
    if u :| u in r.frees && r.frees[u].b == c {
      assert s.frees[u].b == c;
    }
  }

  /** Writing to a block in use touches no link of the chain. */
  lemma OverwriteKeeps(s: State, b: nat, word: Option<nat>)
    requires Inv(s) && b in s.inUse
    ensures Inv(Next(s, Overwrite(b, word)))
  {
    var r := Next(s, Overwrite(b, word));
    assert BlockOk(s, b);
    assert forall n: nat | n < |s.chain| :: s.chain[n] != b;
    forall c: nat ensures BlockOk(r, c) {
      assert BlockOk(s, c);
      assert Freeing(s, c) <==> Freeing(r, c);
    }
  }

  /** One step of any thread, with any number of threads inside both functions: the invariant survives exactly
      when the step is not a stale swap. */
  lemma NextKeepsIff(s: State, a: Action)
    requires Inv(s) && Enabled(s, a)
    ensures Inv(Next(s, a)) <==> Current(s, a)
  {
    match a
    case StartAlloc(t) => StartAllocKeeps(s, t);
    case StepAlloc(t, spurious) =>
      if s.allocs[t] == Test(None) {
        NewBlockKeeps(s, t, spurious);
      } else if Takes(s, t, spurious) {
        HandKeepsIff(s, t);
      } else {
        AllocStepKeeps(s, t, spurious);
      }
    case StartFree(t, b) => StartFreeKeeps(s, t, b);
    case StepFree(t, spurious) =>
      if s.frees[t].Publish? && s.head == s.next[s.frees[t].b] && !spurious {
        PublishKeeps(s, t);
      } else {
        LinkKeeps(s, t, spurious);
      }
    case Overwrite(b, word) => OverwriteKeeps(s, b, word);
  }

  /** A run in which every swap that takes the head is current. */
  predicate AllCurrent(s: State, actions: seq<Action>)
    requires IsRun(s, actions)
    decreases |actions|
  {
    actions == [] || (Current(s, actions[0]) && AllCurrent(Next(s, actions[0]), actions[1..]))
  }

  lemma {:induction false} RunKeeps(s: State, actions: seq<Action>)
    requires Inv(s) && IsRun(s, actions) && AllCurrent(s, actions)
    ensures Inv(Run(s, actions))
    decreases |actions|
  {
    if actions != [] {
      NextKeepsIff(s, actions[0]);
      RunKeeps(Next(s, actions[0]), actions[1..]);
    }
  }

  // ---------- One allocating thread at a time ----------

  /** The thread inside `freelistAlloc` is the only one. */
  lemma OnlyAlloc(s: State, t: nat)
    requires AllocOk(s) && t in s.allocs
    ensures Alone(s, t) && s.allocs - {t} == map[]
  {
    var u: nat :| Alone(s, u);
    assert t in s.allocs.Keys && s.allocs.Keys == {u};
  }

  /** Every step keeps what the only allocating thread has seen, so its swap is current. */
  lemma StaysCurrent(s: State, a: Action)
    requires Inv(s) && AllocOk(s) && Enabled(s, a) && (a.StartAlloc? ==> s.allocs == map[])
    ensures Current(s, a) && AllocOk(Next(s, a))
  {
    match a
    case StartAlloc(t) => assert Alone(Next(s, a), t);
    case StepAlloc(t, spurious) => AllocStaysFresh(s, t, spurious);
    case StartFree(t, b) => KeepAlone(s, Next(s, a));
    case StepFree(t, spurious) =>
      assert Freeing(s, s.frees[t].b);
      assert BlockOk(s, s.frees[t].b);
      KeepAlone(s, Next(s, a));
    case Overwrite(b, word) =>
      assert BlockOk(s, b);
      KeepAlone(s, Next(s, a));
  }

  lemma AllocStaysFresh(s: State, t: nat, spurious: bool)
    requires Inv(s) && AllocOk(s) && Enabled(s, StepAlloc(t, spurious))
    ensures Current(s, StepAlloc(t, spurious)) && AllocOk(AllocNext(s, t, spurious))
  {
    var r := AllocNext(s, t, spurious);
    OnlyAlloc(s, t);
    HeadInChain(s);
    if t in r.allocs {
      FreshStep(s, t, spurious);
      AloneStep(s, t, r);
    } else {
      assert r.allocs == map[];
    }
  }

  lemma HeadInChain(s: State)
    requires ChainOk(s)
    ensures s.head.Some? ==> s.head.value in s.chain && s.head.value in s.next
  {
    if s.head.Some? {
      assert s.head.value == s.chain[0];
    }
  }

  lemma FreshStep(s: State, t: nat, spurious: bool)
    requires Enabled(s, StepAlloc(t, spurious)) && Fresh(s, s.allocs[t]) && t in AllocNext(s, t, spurious).allocs
    requires s.head.Some? ==> s.head.value in s.chain
    ensures var r := AllocNext(s, t, spurious); Fresh(r, r.allocs[t])
  {
  }

  lemma AloneStep(s: State, t: nat, r: State)
    requires Alone(s, t) && t in r.allocs && r.allocs == s.allocs[t := r.allocs[t]] && Fresh(r, r.allocs[t])
    ensures AllocOk(r)
  {
    assert r.allocs == map[t := r.allocs[t]];
    assert Alone(r, t);
  }

  lemma KeepAlone(s: State, r: State)
    requires AllocOk(s) && r.allocs == s.allocs
    requires forall b | b in s.chain :: b in r.chain
    requires forall b | b in s.chain && b in s.next :: b in r.next && r.next[b] == s.next[b]
    ensures AllocOk(r)
  {
    if s.allocs != map[] {
      var t: nat :| Alone(s, t);
      assert Alone(r, t);
    }
  }

  lemma {:induction false} OneAllocatorIsCurrent(s: State, actions: seq<Action>)
    requires Inv(s) && AllocOk(s) && IsRun(s, actions) && OneAllocator(s, actions)
    ensures AllCurrent(s, actions)
    decreases |actions|
  {
    if actions != [] {
      StaysCurrent(s, actions[0]);
      NextKeepsIff(s, actions[0]);
      OneAllocatorIsCurrent(Next(s, actions[0]), actions[1..]);
    }
  }

  /** Made, not handed out, and given back completely. */
  ghost predicate Freed(s: State, b: nat) {
    b < s.blocks && b !in s.inUse && !Freeing(s, b)
  }

  /** With any number of threads inside both functions, as long as no stale swap takes the head: no block is
      handed out while in use; the chain from `m_head` has no cycle; it holds exactly the blocks that are
      neither in use nor just being freed; and the two call counters differ by the blocks in use and the
      pending allocations. */
  lemma CurrentRunsAreSafe(actions: seq<Action>)
    requires IsRun(Init(), actions) && AllCurrent(Init(), actions)
    ensures var s := Run(Init(), actions);
      && !s.doubled
      && ChainOk(s)
      && (forall b: nat :: b in s.chain <==> Freed(s, b))
      && s.allocCalls == s.freeCalls + |s.inUse| + |s.allocs|
  {
    InitInv();
    RunKeeps(Init(), actions);
    var s := Run(Init(), actions);
    forall b: nat ensures b in s.chain <==> Freed(s, b) {
      assert BlockOk(s, b);
    }
  }

  /** One thread at a time in `freelistAlloc` is enough, with any number in `freelistFree`. */
  lemma OneAllocatorIsSafe(actions: seq<Action>)
    requires IsRun(Init(), actions) && OneAllocator(Init(), actions)
    ensures AllCurrent(Init(), actions)
    ensures var s := Run(Init(), actions);
      !s.doubled && ChainOk(s) && (forall b: nat :: b in s.chain <==> Freed(s, b))
  {
    InitInv();
    OneAllocatorIsCurrent(Init(), actions);
    CurrentRunsAreSafe(actions);
  }

  // ---------- What the two counters say ----------

  /** Calls of `freelistAlloc` less calls of `freelistFree`: at least the blocks in use and the pending
      allocations, and more exactly if a block has been handed out while in use. */
  ghost predicate Balance(s: State) {
    var held := s.freeCalls + |s.inUse| + |s.allocs|;
    s.allocCalls >= held && (s.allocCalls == held <==> !s.doubled)
  }

  lemma HandBalance(s: State, t: nat, b: nat)
    requires Balance(s) && t in s.allocs
    ensures Balance(Hand(s, t, b))
  {
    assert (s.allocs - {t}).Keys == s.allocs.Keys - {t};
    if b in s.inUse {
      assert s.inUse + {b} == s.inUse;
    }
  }

  lemma AllocBalance(s: State, t: nat, spurious: bool)
    requires Balance(s) && Enabled(s, StepAlloc(t, spurious))
    ensures Balance(AllocNext(s, t, spurious))
  {
    if s.allocs[t] == Test(None) {
      HandBalance(s.(blocks := s.blocks + 1), t, s.blocks);
    } else if Takes(s, t, spurious) {
      var m := s.(head := s.allocs[t].nx, chain := if s.chain != [] then s.chain[1..] else []);
      HandBalance(m, t, s.allocs[t].cur);
    } else {
      var r := AllocNext(s, t, spurious);
      assert r == s.(allocs := r.allocs) && r.allocs.Keys == s.allocs.Keys;
    }
  }

  lemma FreeBalance(s: State, t: nat, spurious: bool)
    requires Balance(s) && Enabled(s, StepFree(t, spurious))
    ensures Balance(FreeNext(s, t, spurious))
  {
    var r := FreeNext(s, t, spurious);
    assert r == s.(head := r.head, next := r.next, frees := r.frees, chain := r.chain);
  }

  lemma NextBalance(s: State, a: Action)
    requires Balance(s) && Enabled(s, a)
    ensures Balance(Next(s, a))
  {
    match a
    case StartAlloc(t) => assert Next(s, a).allocs.Keys == s.allocs.Keys + {t};
    case StepAlloc(t, spurious) => AllocBalance(s, t, spurious);
    case StartFree(t, b) =>
    case StepFree(t, spurious) => FreeBalance(s, t, spurious);
    case Overwrite(b, word) =>
  }

  lemma {:induction false} RunBalance(s: State, actions: seq<Action>)
    requires Balance(s) && IsRun(s, actions)
    ensures Balance(Run(s, actions))
    decreases |actions|
  {
    if actions != [] {
      NextBalance(s, actions[0]);
      RunBalance(Next(s, actions[0]), actions[1..]);
    }
  }

  /** In every run, safe or not, with any number of threads: the counters that `statistic` returns differ by the
      blocks in use and the pending allocations if and only if no block was ever handed out while in use. */
  lemma StatisticBalance(actions: seq<Action>)
    requires IsRun(Init(), actions)
    ensures var s := Run(Init(), actions);
      && s.allocCalls >= s.freeCalls + |s.inUse| + |s.allocs|
      && (s.allocCalls - s.freeCalls == |s.inUse| + |s.allocs| <==> !s.doubled)
  {
    RunBalance(Init(), actions);
  }

  // ---------- Two allocating threads ----------

  lemma RunCons(s: State, a: Action, rest: seq<Action>)
    requires Enabled(s, a) && IsRun(Next(s, a), rest)
    ensures IsRun(s, [a] + rest) && Run(s, [a] + rest) == Run(Next(s, a), rest)
  {
    assert ([a] + rest)[1..] == rest;
  }

  lemma {:induction false} RunAppend(s: State, a: seq<Action>, b: seq<Action>)
    requires IsRun(s, a) && IsRun(Run(s, a), b)
    ensures IsRun(s, a + b) && Run(s, a + b) == Run(Run(s, a), b)
    decreases |a|
  {
    if a == [] {
      assert a + b == b;
    } else {
      RunAppend(Next(s, a[0]), a[1..], b);
      RunCons(s, a[0], a[1..] + b);
      assert [a[0]] + (a[1..] + b) == a + b;
    }
  }

  /** A call that finds the list empty: the caller makes a new block. */
  lemma AllocNew(s: State, t: nat) returns (actions: seq<Action>)
    requires t !in s.allocs && s.head.None?
    ensures IsRun(s, actions)
    ensures Run(s, actions) ==
      s.(allocCalls := s.allocCalls + 1, blocks := s.blocks + 1, inUse := s.inUse + {s.blocks},
         doubled := s.doubled || s.blocks in s.inUse)
  {
    var step := StepAlloc(t, false);
    var s1 := Next(s, StartAlloc(t));
    var s2 := AllocNext(s1, t, false);
    var s3 := AllocNext(s2, t, false);
    assert s3.allocs == s.allocs;
    assert IsRun(s3, []);
    RunCons(s2, step, []);
    RunCons(s1, step, [step] + []);
    RunCons(s, StartAlloc(t), [step] + ([step] + []));
    actions := [StartAlloc(t)] + ([step] + ([step] + []));
  }

  /** A call up to its swap. */
  lemma AllocUpToSwap(s: State, t: nat, cur: nat) returns (actions: seq<Action>)
    requires t !in s.allocs && s.head == Some(cur) && cur in s.next
    ensures IsRun(s, actions)
    ensures Run(s, actions) ==
      s.(allocCalls := s.allocCalls + 1, allocs := s.allocs[t := Swap(cur, s.next[cur])])
  {
    var step := StepAlloc(t, false);
    var s1 := Next(s, StartAlloc(t));
    var s2 := AllocNext(s1, t, false);
    var s3 := AllocNext(s2, t, false);
    var s4 := AllocNext(s3, t, false);
    assert s4.allocs == s.allocs[t := Swap(cur, s.next[cur])];
    assert IsRun(s4, []);
    RunCons(s3, step, []);
    RunCons(s2, step, [step] + []);
    RunCons(s1, step, [step] + ([step] + []));
    RunCons(s, StartAlloc(t), [step] + ([step] + ([step] + [])));
    actions := [StartAlloc(t)] + ([step] + ([step] + ([step] + [])));
  }

  lemma OneStep(s: State, a: Action)
    requires Enabled(s, a)
    ensures IsRun(s, [a]) && Run(s, [a]) == Next(s, a)
  {
    assert IsRun(Next(s, a), []);
    RunCons(s, a, []);
    assert [a] + [] == [a];
  }

  function Taken(s: State, cur: nat): State
    requires cur in s.next
  {
    s.(allocCalls := s.allocCalls + 1, head := s.next[cur], inUse := s.inUse + {cur},
       chain := if s.chain != [] then s.chain[1..] else [], doubled := s.doubled || cur in s.inUse)
  }

  /** A call that takes the head with nobody in between. */
  lemma AllocHead(s: State, t: nat, cur: nat) returns (actions: seq<Action>)
    requires t !in s.allocs && s.head == Some(cur) && cur in s.next
    ensures IsRun(s, actions) && Run(s, actions) == Taken(s, cur)
  {
    var a := AllocUpToSwap(s, t, cur);
    var s1 := Run(s, a);
    OneStep(s1, StepAlloc(t, false));
    RunAppend(s, a, [StepAlloc(t, false)]);
    actions := a + [StepAlloc(t, false)];
    assert s1.allocs - {t} == s.allocs;
  }

  function Returned(s: State, b: nat): State {
    s.(freeCalls := s.freeCalls + 1, head := Some(b), next := s.next[b := s.head], inUse := s.inUse - {b},
       chain := [b] + s.chain)
  }

  /** A call of `freelistFree` with nobody in between. */
  lemma FreeAlone(s: State, t: nat, b: nat) returns (actions: seq<Action>)
    requires t !in s.frees && b in s.inUse
    ensures IsRun(s, actions) && Run(s, actions) == Returned(s, b)
  {
    var step := StepFree(t, false);
    var s1 := Next(s, StartFree(t, b));
    var s2 := FreeNext(s1, t, false);
    var s3 := FreeNext(s2, t, false);
    assert s3.frees == s.frees;
    assert IsRun(s3, []);
    RunCons(s2, step, []);
    RunCons(s1, step, [step] + []);
    RunCons(s, StartFree(t, b), [step] + ([step] + []));
    actions := [StartFree(t, b)] + ([step] + ([step] + []));
  }

  /** Two blocks are made and freed, so that the chain is 0, 1. */
  lemma TwoFreed() returns (actions: seq<Action>)
    ensures IsRun(Init(), actions)
    ensures Run(Init(), actions) ==
      State(Some(0), map[1 := None, 0 := Some(1)], map[], map[], 2, 2, 2, {}, [0, 1], false)
  {
    var s0 := Init();
    var a := AllocNew(s0, 0);
    var s1 := Run(s0, a);
    var b := AllocNew(s1, 0);
    RunAppend(s0, a, b);
    var s2 := Run(s1, b);
    var c := FreeAlone(s2, 0, 1);
    RunAppend(s0, a + b, c);
    var s3 := Run(s2, c);
    var d := FreeAlone(s3, 0, 0);
    RunAppend(s0, a + b + c, d);
    actions := a + b + c + d;
    assert Returned(s3, 0).inUse == {};
  }

  /** While one thread waits before its swap of block 0 for block 1, another takes both and gives 0 back. */
  lemma GoneAndBack(s: State) returns (actions: seq<Action>)
    requires s.head == Some(0) && s.next == map[1 := None, 0 := Some(1)] && s.inUse == {} && s.chain == [0, 1]
    requires 2 !in s.allocs && 0 !in s.frees && !s.doubled
    ensures IsRun(s, actions)
    ensures Run(s, actions) ==
      s.(allocCalls := s.allocCalls + 2, freeCalls := s.freeCalls + 1, next := map[1 := None, 0 := None],
         inUse := {1}, chain := [0])
  {
    var a := AllocHead(s, 2, 0);
    var s1 := Run(s, a);
    var b := AllocHead(s1, 2, 1);
    RunAppend(s, a, b);
    var s2 := Run(s1, b);
    var c := FreeAlone(s2, 0, 0);
    RunAppend(s, a + b, c);
    actions := a + b + c;
    assert s2.inUse - {0} == {1};
  }

  /** With two threads inside `freelistAlloc` the same block can be handed out twice without being freed in
      between: one thread waits before its swap, the head goes away and comes back with another link, and the
      swap installs the link it read before, which leads to a block in use. */
  lemma TwoAllocatorsDouble() returns (actions: seq<Action>)
    ensures IsRun(Init(), actions) && Run(Init(), actions).doubled
    ensures !AllCurrent(Init(), actions) && !OneAllocator(Init(), actions)
  {
    var a := TwoFreed();
    var s1 := Run(Init(), a);
    var b := AllocUpToSwap(s1, 1, 0);
    RunAppend(Init(), a, b);
    var s2 := Run(s1, b);
    var c := GoneAndBack(s2);
    RunAppend(Init(), a + b, c);
    var s3 := Run(s2, c);
    var d := StaleTwice(s3);
    RunAppend(Init(), a + b + c, d);
    actions := a + b + c + d;
    if AllCurrent(Init(), actions) {
      CurrentRunsAreSafe(actions);
    }
    if OneAllocator(Init(), actions) {
      OneAllocatorIsSafe(actions);
    }
  }

  lemma StaleTwice(s: State) returns (actions: seq<Action>)
    requires s.head == Some(0) && 1 in s.next && 1 in s.inUse && 1 in s.allocs && s.allocs[1] == Swap(0, Some(1))
    ensures IsRun(s, actions) && Run(s, actions).doubled
  {
    OneStep(s, StepAlloc(1, false));
    var s1 := Next(s, StepAlloc(1, false));
    assert 1 !in s1.allocs;
    var b := AllocHead(s1, 1, 1);
    RunAppend(s, [StepAlloc(1, false)], b);
    actions := [StepAlloc(1, false)] + b;
  }
}
