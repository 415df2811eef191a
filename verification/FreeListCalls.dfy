/** What one call of the free list does from beginning to end, among any steps of other threads. A call is described
    by its own accesses only, each with the state before and after it and whether a weak swap failed for no reason;
    the program counters of the step system are not mentioned. */
module FreeListCalls {
  import opened Options
  import opened FreeListSteps

  datatype Access = Access(before: State, after: State, spurious: bool)

  /** The accesses that thread `t` makes in `freelistAlloc`. */
  function AllocAccesses(s: State, t: nat, actions: seq<Action>): seq<Access>
    requires IsRun(s, actions)
    decreases |actions|
  {
    if actions == [] then []
    else
      var a := actions[0];
      var rest := AllocAccesses(Next(s, a), t, actions[1..]);
      if a.StepAlloc? && a.t == t then [Access(s, Next(s, a), a.spurious)] + rest else rest
  }

  lemma Regroup(m: seq<Access>, x: Access, rest: seq<Access>)
    ensures m + ([x] + rest) == m + [x] + rest
  {
  }

  /** The accesses go round: a load of the head, or a swap that fails and loads it; the test of it; the load of the
      link. This is the head loaded last before the access of number `n`. */
  function Loaded(m: seq<Access>, n: nat): Option<nat>
    requires 0 < n <= |m|
  {
    m[(n - 1) / 3 * 3].before.head
  }

  /** The access of number `n` is the last of the call: the test of a head that was null, or a swap that finds the
      head loaded before and does not fail for no reason. */
  predicate Ends(m: seq<Access>, n: nat)
    requires n < |m|
  {
    if n % 3 == 1 then Loaded(m, n).None?
    else n % 3 == 0 && n > 0 && m[n].before.head == Loaded(m, n) && !m[n].spurious
  }

  /** What the access of number `n` does. The last one of a call that found the list empty makes a new block; a swap
      that succeeds hands out the head and replaces it by the link that was loaded from it; no other writes. */
  ghost predicate AllocWrites(m: seq<Access>, n: nat)
    requires n < |m|
  {
    var b, a := m[n].before, m[n].after;
    && a.next == b.next && a.frees == b.frees && a.allocCalls == b.allocCalls && a.freeCalls == b.freeCalls
    && if !Ends(m, n) then
         a.head == b.head && a.inUse == b.inUse && a.blocks == b.blocks && a.doubled == b.doubled
       else if n % 3 == 1 then
         a.head == b.head && a.blocks == b.blocks + 1 && a.inUse == b.inUse + {b.blocks}
       else
         && Loaded(m, n).Some? && Loaded(m, n).value in m[n - 1].before.next
         && a.head == m[n - 1].before.next[Loaded(m, n).value]
         && a.blocks == b.blocks && a.inUse == b.inUse + {Loaded(m, n).value}
  }

  /** Where a thread is after the accesses `m` of an allocation that has not ended. */
  ghost predicate Going(a: Alloc, m: seq<Access>) {
    if m == [] then a == LoadHead
    else if |m| % 3 == 1 then a == Test(m[|m| - 1].before.head)
    else if |m| % 3 == 2 then Loaded(m, |m|).Some? && a == LoadNext(Loaded(m, |m|).value)
    else
      && Loaded(m, |m|).Some? && Loaded(m, |m|).value in m[|m| - 1].before.next
      && a == Swap(Loaded(m, |m|).value, m[|m| - 1].before.next[Loaded(m, |m|).value])
  }

  ghost predicate AllocAt(s: State, t: nat, m: seq<Access>) {
    && (forall n: nat | n < |m| :: AllocWrites(m, n))
    && (forall n: nat | n < |m| - 1 :: !Ends(m, n))
    && (if m != [] && Ends(m, |m| - 1) then t !in s.allocs else t in s.allocs && Going(s.allocs[t], m))
  }

  lemma OthersStep(s: State, t: nat, m: seq<Access>, a: Action)
    requires AllocAt(s, t, m) && Enabled(s, a) && !(a.StepAlloc? && a.t == t) && a != StartAlloc(t)
    ensures AllocAt(Next(s, a), t, m)
  {
  }

  /** More accesses do not change what is said of the earlier ones. */
  lemma Earlier(m: seq<Access>, x: Access, n: nat)
    requires n < |m|
    ensures Ends(m + [x], n) == Ends(m, n) && AllocWrites(m + [x], n) == AllocWrites(m, n)
    ensures n > 0 ==> Loaded(m + [x], n) == Loaded(m, n)
  {
  }

  lemma OwnWrites(s: State, t: nat, m: seq<Access>, spurious: bool)
    requires t in s.allocs && Going(s.allocs[t], m) && Enabled(s, StepAlloc(t, spurious))
    ensures AllocWrites(m + [Access(s, AllocNext(s, t, spurious), spurious)], |m|)
  {
    var m' := m + [Access(s, AllocNext(s, t, spurious), spurious)];
    assert m != [] ==> Loaded(m', |m|) == Loaded(m, |m|);
  }

  lemma OwnGoing(s: State, t: nat, m: seq<Access>, spurious: bool)
    requires t in s.allocs && Going(s.allocs[t], m) && Enabled(s, StepAlloc(t, spurious))
    ensures var r := AllocNext(s, t, spurious);
      var m' := m + [Access(s, r, spurious)];
      if Ends(m', |m|) then t !in r.allocs else t in r.allocs && Going(r.allocs[t], m')
  {
    var m' := m + [Access(s, AllocNext(s, t, spurious), spurious)];
    assert m != [] ==> Loaded(m', |m|) == Loaded(m, |m|);
  }

  lemma OwnAccess(s: State, t: nat, m: seq<Access>, spurious: bool)
    requires AllocAt(s, t, m) && Enabled(s, StepAlloc(t, spurious))
    ensures AllocAt(Next(s, StepAlloc(t, spurious)), t, m + [Access(s, Next(s, StepAlloc(t, spurious)), spurious)])
  {
    var r := Next(s, StepAlloc(t, spurious));
    var m' := m + [Access(s, r, spurious)];
    OwnWrites(s, t, m, spurious);
    OwnGoing(s, t, m, spurious);
    forall n: nat | n < |m| ensures Ends(m', n) == Ends(m, n) && AllocWrites(m', n) {
      Earlier(m, Access(s, r, spurious), n);
    }
    hide Ends, AllocWrites, Going, AllocNext;
  }

  lemma {:induction false} AllocProgress(s: State, t: nat, m: seq<Access>, actions: seq<Action>)
    requires AllocAt(s, t, m) && IsRun(s, actions) && StartAlloc(t) !in actions
    ensures AllocAt(Run(s, actions), t, m + AllocAccesses(s, t, actions))
    decreases |actions|
  {
    hide AllocAt, Next, Enabled;
    if actions == [] {
      assert m + [] == m;
    } else {
      var a, r, rest := actions[0], Next(s, actions[0]), actions[1..];
      if a.StepAlloc? && a.t == t {
        OwnAccess(s, t, m, a.spurious);
        AllocProgress(r, t, m + [Access(s, r, a.spurious)], rest);
        Regroup(m, Access(s, r, a.spurious), AllocAccesses(r, t, rest));
      } else {
        OthersStep(s, t, m, a);
        AllocProgress(r, t, m, rest);
      }
    }
  }

  /** A call of `freelistAlloc`, among any steps of other threads: it is over with the first access that ends it, and
      what each access writes is as stated; so it hands out the head of the list as it is at its swap, returns null
      only after a load that found the list empty, and tries again after a swap that failed. */
  lemma AllocCall(s: State, t: nat, actions: seq<Action>)
    requires Enabled(s, StartAlloc(t)) && IsRun(Next(s, StartAlloc(t)), actions) && StartAlloc(t) !in actions
    ensures var m := AllocAccesses(Next(s, StartAlloc(t)), t, actions);
      && (t !in Run(Next(s, StartAlloc(t)), actions).allocs <==> m != [] && Ends(m, |m| - 1))
      && (forall n: nat | n < |m| - 1 :: !Ends(m, n))
      && (forall n: nat | n < |m| :: AllocWrites(m, n))
  {
    var m := AllocAccesses(Next(s, StartAlloc(t)), t, actions);
    AllocProgress(Next(s, StartAlloc(t)), t, [], actions);
    assert [] + m == m;
  }

  // ---------- Giving a block back ----------

  /** The accesses that thread `t` makes in `freelistFree`. */
  function FreeAccesses(s: State, t: nat, actions: seq<Action>): seq<Access>
    requires IsRun(s, actions)
    decreases |actions|
  {
    if actions == [] then []
    else
      var a := actions[0];
      var rest := FreeAccesses(Next(s, a), t, actions[1..]);
      if a.StepFree? && a.t == t then [Access(s, Next(s, a), a.spurious)] + rest else rest
  }

  /** The access of number `n` is the swap that publishes the block: the head is what the block links to. */
  predicate Publishes(b: nat, m: seq<Access>, n: nat)
    requires n < |m|
  {
    var s := m[n].before;
    n > 0 && b in s.next && s.head == s.next[b] && !m[n].spurious
  }

  /** What the access of number `n` does: the successful swap makes the block the head, every other access makes it
      link to the head. */
  ghost predicate FreeWrites(b: nat, m: seq<Access>, n: nat)
    requires n < |m|
  {
    var s, r := m[n].before, m[n].after;
    && r.allocs == s.allocs && r.inUse == s.inUse && r.blocks == s.blocks && r.doubled == s.doubled
    && r.allocCalls == s.allocCalls && r.freeCalls == s.freeCalls
    && if Publishes(b, m, n) then
         r.head == Some(b) && r.next == s.next && r.chain == [b] + s.chain
       else
         r.head == s.head && r.next == s.next[b := s.head] && r.chain == s.chain
  }

  ghost predicate FreeAt(s: State, t: nat, b: nat, m: seq<Access>) {
    && (forall n: nat | n < |m| :: FreeWrites(b, m, n))
    && (forall n: nat | n < |m| - 1 :: !Publishes(b, m, n))
    && (if m != [] && Publishes(b, m, |m| - 1) then t !in s.frees
        else t in s.frees && s.frees[t] == if m == [] then SetNext(b) else Publish(b))
  }

  lemma OthersDuringFree(s: State, t: nat, b: nat, m: seq<Access>, a: Action)
    requires FreeAt(s, t, b, m) && Enabled(s, a) && !(a.StepFree? && a.t == t) && !(a.StartFree? && a.t == t)
    ensures FreeAt(Next(s, a), t, b, m)
  {
  }

  lemma OwnFree(s: State, t: nat, b: nat, m: seq<Access>, spurious: bool)
    requires FreeAt(s, t, b, m) && Enabled(s, StepFree(t, spurious))
    ensures FreeAt(Next(s, StepFree(t, spurious)), t, b, m + [Access(s, Next(s, StepFree(t, spurious)), spurious)])
  {
    var m' := m + [Access(s, Next(s, StepFree(t, spurious)), spurious)];
    assert FreeWrites(b, m', |m|);
    forall n: nat | n < |m| ensures Publishes(b, m', n) == Publishes(b, m, n) && FreeWrites(b, m', n) {
      assert FreeWrites(b, m, n);
    }
  }

  lemma {:induction false} FreeProgress(s: State, t: nat, b: nat, m: seq<Access>, actions: seq<Action>)
    requires FreeAt(s, t, b, m) && IsRun(s, actions) && forall a | a in actions && a.StartFree? :: a.t != t
    ensures FreeAt(Run(s, actions), t, b, m + FreeAccesses(s, t, actions))
    decreases |actions|
  {
    hide FreeAt, Next, Enabled;
    if actions == [] {
      assert m + [] == m;
    } else {
      var a, r, rest := actions[0], Next(s, actions[0]), actions[1..];
      if a.StepFree? && a.t == t {
        OwnFree(s, t, b, m, a.spurious);
        FreeProgress(r, t, b, m + [Access(s, r, a.spurious)], rest);
        Regroup(m, Access(s, r, a.spurious), FreeAccesses(r, t, rest));
      } else {
        OthersDuringFree(s, t, b, m, a);
        FreeProgress(r, t, b, m, rest);
      }
    }
  }

  /** A call of `freelistFree`, among any steps of other threads: it is over with the swap that publishes the block,
      and not before; until then each access makes the block link to the head as it then is. */
  lemma FreeCall(s: State, t: nat, b: nat, actions: seq<Action>)
    requires Enabled(s, StartFree(t, b)) && IsRun(Next(s, StartFree(t, b)), actions)
    requires forall a | a in actions && a.StartFree? :: a.t != t
    ensures var m := FreeAccesses(Next(s, StartFree(t, b)), t, actions);
      && (t !in Run(Next(s, StartFree(t, b)), actions).frees <==> m != [] && Publishes(b, m, |m| - 1))
      && (forall n: nat | n < |m| - 1 :: !Publishes(b, m, n))
      && (forall n: nat | n < |m| :: FreeWrites(b, m, n))
  {
    var m := FreeAccesses(Next(s, StartFree(t, b)), t, actions);
    FreeProgress(Next(s, StartFree(t, b)), t, b, [], actions);
    assert [] + m == m;
  }
}
