/** What one call of the deque does from beginning to end, among any steps of the others: how many accesses it
    takes, when it fails, and what it returns. A call is described by its own accesses only, each with the state
    before and after it; the program counters of the step system are not mentioned. */
module DequeCalls {
  import opened Deque
  import opened DequeInvariant
  import opened DequeLedger

  /** One access of a call. */
  datatype Access = Access(before: State, after: State)

  /** The accesses of thief `t` in a trace. */
  function ThiefAccesses(s: State, t: nat, actions: seq<Action>): seq<Access>
    requires Shape(s) && IsTrace(s, actions)
    decreases |actions|
  {
    if actions == [] then []
    else
      var r := Next(s, actions[0]);
      var rest := ThiefAccesses(r, t, actions[1..]);
      if actions[0] == ThiefStep(t) then [Access(s, r)] + rest else rest
  }

  /** The accesses of the owner in a trace. */
  function OwnerAccesses(s: State, actions: seq<Action>): seq<Access>
    requires Shape(s) && IsTrace(s, actions)
    decreases |actions|
  {
    if actions == [] then []
    else
      var r := Next(s, actions[0]);
      var rest := OwnerAccesses(r, actions[1..]);
      if actions[0].OwnerStep? then [Access(s, r)] + rest else rest
  }

  lemma Regroup(m: seq<Access>, x: Access, rest: seq<Access>)
    ensures m + ([x] + rest) == m + [x] + rest
  {
  }

  /** Every state in a list of accesses has an array that is not empty. */
  ghost predicate Proper(m: seq<Access>) {
    forall k: nat | k < |m| :: Shape(m[k].before) && Shape(m[k].after)
  }

  // ---------- Steal ----------

  /** The bottom that a steal loaded is at or below the top that it loaded. */
  predicate SawNothing(m: seq<Access>)
    requires |m| >= 2
  {
    m[1].before.bottom <= m[0].before.top
  }

  /** The item a steal has read: in the array it loaded, at the top it loaded. */
  function Stolen(m: seq<Access>): nat
    requires Proper(m) && |m| >= 4 && |m[2].before.arrays| <= |m[3].before.arrays|
  {
    Cell(m[3].before.arrays[|m[2].before.arrays| - 1], m[0].before.top)
  }

  /** What the accesses of a steal have in common: top only moves up, and no array disappears. */
  ghost predicate Ordered(m: seq<Access>, s: State) {
    && Proper(m)
    && (forall k: nat | k < |m| ::
      m[0].before.top <= m[k].before.top <= s.top && |m[0].before.arrays| <= |m[k].before.arrays| <= |s.arrays|)
    && (|m| >= 4 ==> |m[2].before.arrays| <= |m[3].before.arrays|)
  }

  /** Where a thief is after the accesses `m` of its call. */
  ghost predicate ThiefAt(p: Thief, m: seq<Access>)
    requires Proper(m) && (|m| >= 4 ==> |m[2].before.arrays| <= |m[3].before.arrays|)
  {
    match |m|
    case 0 => p == StealTop
    case 1 => p == StealBottom(m[0].before.top)
    case 2 => p == if SawNothing(m) then Absent else StealArray(m[0].before.top)
    case 3 => !SawNothing(m) && p == StealGet(m[0].before.top, |m[2].before.arrays| - 1)
    case 4 => !SawNothing(m) && p == StealCas(m[0].before.top, Stolen(m))
    case _ => !SawNothing(m) && |m| == 5 && p == Absent
  }

  /** What the access of number `k` of a steal does: none writes anything but the fifth, which delivers the item
      read and moves top up, if top is still what the first one loaded. */
  ghost predicate StealWrites(m: seq<Access>, k: nat)
    requires Proper(m) && k < |m| && (|m| >= 4 ==> |m[2].before.arrays| <= |m[3].before.arrays|)
  {
    var b, a := m[k].before, m[k].after;
    var wins := k == 4 && b.top == m[0].before.top;
    && a.bottom == b.bottom && a.arrays == b.arrays && a.owner == b.owner
    && a.top == (if wins then b.top + 1 else b.top)
    && a.delivered == (if wins then b.delivered + [Stolen(m)] else b.delivered)
  }

  /** The state of a call of steal after the accesses `m`. */
  ghost predicate Stealing(s: State, t: nat, m: seq<Access>) {
    && IndexInv(s) && Ordered(m, s) && ThiefAt(ThiefOf(s, t), m)
    && (forall k: nat | k < |m| :: StealWrites(m, k))
  }

  lemma ArraysStay(s: State, a: Action)
    requires Shape(s) && Enabled(s, a)
    ensures |s.arrays| <= |Next(s, a).arrays|
  {
  }

  lemma OthersStep(s: State, t: nat, m: seq<Access>, a: Action)
    requires Stealing(s, t, m) && Enabled(s, a) && a != ThiefStep(t) && a != CallSteal(t)
    ensures Stealing(Next(s, a), t, m)
  {
    NextIndex(s, a);
    TopMovesUp(s, a);
    ArraysStay(s, a);
    assert ThiefOf(Next(s, a), t) == ThiefOf(s, t);
  }

  lemma OwnAccess(s: State, t: nat, m: seq<Access>)
    requires Stealing(s, t, m) && Enabled(s, ThiefStep(t))
    ensures Stealing(Next(s, ThiefStep(t)), t, m + [Access(s, Next(s, ThiefStep(t)))])
  {
    var r := Next(s, ThiefStep(t));
    var m' := m + [Access(s, r)];
    NextIndex(s, ThiefStep(t));
    TopMovesUp(s, ThiefStep(t));
    assert Ordered(m', r);
    assert |m| >= 4 ==> Stolen(m') == Stolen(m);
    forall k: nat | k < |m'| ensures StealWrites(m', k) {
      if k < |m| {
        assert StealWrites(m, k);
      }
    }
  }

  lemma {:induction false} StealProgress(s: State, t: nat, m: seq<Access>, actions: seq<Action>)
    requires Stealing(s, t, m) && IsTrace(s, actions) && CallSteal(t) !in actions
    ensures Stealing(Trace(s, actions), t, m + ThiefAccesses(s, t, actions))
    decreases |actions|
  {
    assert Shape(s);
    hide Stealing, Next;
    if actions == [] {
      assert m + [] == m;
    } else {
      var a, r, rest := actions[0], Next(s, actions[0]), actions[1..];
      if a == ThiefStep(t) {
        OwnAccess(s, t, m);
        StealProgress(r, t, m + [Access(s, r)], rest);
        Regroup(m, Access(s, r), ThiefAccesses(r, t, rest));
      } else {
        OthersStep(s, t, m, a);
        StealProgress(r, t, m, rest);
      }
    }
  }

  /** A call of steal, among any steps of the others and whatever the growths do: it is over after its second
      access if bottom was then at or below the top loaded first, and otherwise after its fifth; until it is over
      its next access can be made; and it writes only by a successful swap, which delivers what it has read. */
  lemma StealCall(s: State, t: nat, actions: seq<Action>)
    requires IndexInv(s) && ThiefOf(s, t).Absent?
    requires IsTrace(Next(s, CallSteal(t)), actions) && CallSteal(t) !in actions
    ensures var m := ThiefAccesses(Next(s, CallSteal(t)), t, actions);
      var r := Trace(Next(s, CallSteal(t)), actions);
      && |m| <= 5
      && (|m| >= 3 ==> m[1].before.bottom > m[0].before.top)
      && (ThiefOf(r, t).Absent? <==> (|m| == 2 && m[1].before.bottom <= m[0].before.top) || |m| == 5)
      && (!ThiefOf(r, t).Absent? ==> Enabled(r, ThiefStep(t)))
      && Ordered(m, r)
      && (forall k: nat | k < |m| :: StealWrites(m, k))
  {
    NextIndex(s, CallSteal(t));
    StealProgress(Next(s, CallSteal(t)), t, [], actions);
    assert [] + ThiefAccesses(Next(s, CallSteal(t)), t, actions) == ThiefAccesses(Next(s, CallSteal(t)), t, actions);
    assert ThiefIndex(Trace(Next(s, CallSteal(t)), actions), ThiefOf(Trace(Next(s, CallSteal(t)), actions), t));
  }

  /** When a steal returns false: exactly when bottom was at or below the top it had loaded, and then the deque had
      no item at that moment, or when top was no longer the same at the swap, and then somebody else took the item
      at that index during the call. Otherwise it delivers one item, in its last access. */
  lemma StealFailsIff(s: State, t: nat, actions: seq<Action>)
    requires IndexInv(s) && ThiefOf(s, t).Absent?
    requires IsTrace(Next(s, CallSteal(t)), actions) && CallSteal(t) !in actions
    requires ThiefOf(Trace(Next(s, CallSteal(t)), actions), t).Absent?
    ensures var m := ThiefAccesses(Next(s, CallSteal(t)), t, actions);
      && (|m| == 2 || |m| == 5)
      && (forall k: nat | k < |m| - 1 :: m[k].after.delivered == m[k].before.delivered)
      && (m[|m| - 1].after.delivered == m[|m| - 1].before.delivered
          <==> |m| == 2 || m[4].before.top != m[0].before.top)
      && (|m| == 2 <==> m[1].before.bottom <= m[0].before.top)
      && (|m| == 2 ==> Shape(m[1].before) && Live(m[1].before) == [])
      && (|m| == 5 ==> m[0].before.top <= m[4].before.top)
  {
    StealCall(s, t, actions);
    var m := ThiefAccesses(Next(s, CallSteal(t)), t, actions);
    forall k: nat | k < |m| - 1 ensures m[k].after.delivered == m[k].before.delivered {
      assert StealWrites(m, k);
    }
    assert StealWrites(m, |m| - 1);
    assert m[0].before.top <= m[1].before.top;
  }

  /** The accesses a thief still has before it. */
  function ThiefLeft(p: Thief): nat {
    match p
    case StealTop => 5
    case StealBottom(_) => 4
    case StealArray(_) => 3
    case StealGet(_, _) => 2
    case StealCas(_, _) => 1
    case Absent => 0
  }

  /** Only the thief's own access brings its call nearer to the end, and every one does. */
  lemma StealNearer(s: State, t: nat, a: Action)
    requires Shape(s) && Enabled(s, a) && a != CallSteal(t)
    ensures a == ThiefStep(t) ==> ThiefLeft(ThiefOf(Next(s, a), t)) < ThiefLeft(ThiefOf(s, t))
    ensures a != ThiefStep(t) ==> ThiefLeft(ThiefOf(Next(s, a), t)) == ThiefLeft(ThiefOf(s, t))
  {
  }

  // ---------- Pop ----------

  /** The index a pop works on, and the top it has loaded. */
  function Index(m: seq<Access>): int
    requires |m| >= 1
  {
    m[0].before.bottom - 1
  }

  function Loaded(m: seq<Access>): int
    requires |m| >= 2
  {
    m[1].before.top
  }

  /** The item a pop has read. */
  function Popped(m: seq<Access>): nat
    requires Proper(m) && |m| >= 4
  {
    Cell(Tasks(m[3].before), Index(m))
  }

  /** Where the owner is after the accesses `m` of a pop. */
  ghost predicate PopAt(o: Owner, m: seq<Access>)
    requires Proper(m)
  {
    match |m|
    case 0 => o == PopDec
    case 1 => o == PopTop
    case 2 => o == PopCompare(Loaded(m))
    case 3 => o == if Index(m) < Loaded(m) then PopRestore(Loaded(m)) else PopGet(Loaded(m))
    case 4 => o == if Index(m) < Loaded(m) then Resting else PopTest(Loaded(m), Popped(m))
    case 5 => Index(m) >= Loaded(m) && o == if Index(m) > Loaded(m) then Resting else PopCas(Loaded(m), Popped(m))
    case 6 =>
      && Index(m) == Loaded(m)
      && o == if m[5].before.top == Loaded(m) then PopStore(Loaded(m), Popped(m)) else Resting
    case _ => Index(m) == Loaded(m) == m[5].before.top && |m| == 7 && o == Resting
  }

  /** What the access of number `k` of a pop does. The first takes one from bottom; the fourth puts bottom back to
      the top loaded if it is below; the fifth delivers the item read if bottom is above the top loaded; the sixth
      moves top up if it is still the one loaded; and the seventh puts bottom there too and delivers the item. */
  ghost predicate PopWrites(m: seq<Access>, k: nat)
    requires Proper(m) && k < |m|
  {
    var b, a := m[k].before, m[k].after;
    && a.arrays == b.arrays && a.thieves == b.thieves && a.stranded == b.stranded
    && a.bottom == (if k == 0 then b.bottom - 1
                    else if k == 3 && Index(m) < Loaded(m) then Loaded(m)
                    else if k == 6 then Loaded(m) + 1
                    else b.bottom)
    && a.top == (if k == 5 && b.top == Loaded(m) then b.top + 1 else b.top)
    && a.delivered == (if (k == 4 && Index(m) > Loaded(m)) || k == 6 then b.delivered + [Popped(m)]
                       else b.delivered)
  }

  /** The bottom after the accesses `m` of a pop. */
  function PopBottom(m: seq<Access>, start: int): int {
    if |m| == 0 then start
    else if |m| == 4 && Index(m) < Loaded(m) then Loaded(m)
    else if |m| == 7 then Loaded(m) + 1
    else Index(m)
  }

  /** The state of a pop called when bottom was `start`, after the accesses `m`. */
  ghost predicate Taking(s: State, start: int, m: seq<Access>) {
    && Shape(s) && Proper(m) && PopAt(s.owner, m)
    && s.bottom == PopBottom(m, start)
    && (forall k: nat | k < |m| :: m[k].before.bottom == if k == 0 then start else start - 1)
    && (forall k: nat | k < |m| :: PopWrites(m, k))
  }

  lemma ThievesDuringPop(s: State, start: int, m: seq<Access>, a: Action)
    requires Taking(s, start, m) && Enabled(s, a) && !a.OwnerStep? && !a.CallPop? && !a.CallPush?
    ensures Taking(Next(s, a), start, m)
  {
  }

  lemma PopMoves(s: State, start: int, m: seq<Access>, junk: seq<nat>)
    requires Taking(s, start, m) && Enabled(s, OwnerStep(junk))
    ensures var r := Next(s, OwnerStep(junk)); var m' := m + [Access(s, r)];
      Proper(m') && PopAt(r.owner, m') && r.bottom == PopBottom(m', start)
  {
    assert |m| >= 4 ==> Popped(m + [Access(s, Next(s, OwnerStep(junk)))]) == Popped(m);
  }

  lemma PopAccess(s: State, start: int, m: seq<Access>, junk: seq<nat>)
    requires Taking(s, start, m) && Enabled(s, OwnerStep(junk))
    ensures Taking(Next(s, OwnerStep(junk)), start, m + [Access(s, Next(s, OwnerStep(junk)))])
  {
    var r := Next(s, OwnerStep(junk));
    var m' := m + [Access(s, r)];
    PopMoves(s, start, m, junk);
    assert |m| >= 4 ==> Popped(m') == Popped(m);
    assert PopWrites(m', |m|);
    forall k: nat | k < |m| ensures PopWrites(m', k) {
      assert PopWrites(m, k);
    }
  }

  lemma {:induction false} PopProgress(s: State, start: int, m: seq<Access>, actions: seq<Action>)
    requires Taking(s, start, m) && IsTrace(s, actions) && CallPop !in actions && CallPush !in actions
    ensures Taking(Trace(s, actions), start, m + OwnerAccesses(s, actions))
    decreases |actions|
  {
    assert Shape(s);
    hide Taking, Next;
    if actions == [] {
      assert m + [] == m;
    } else {
      var a, r, rest := actions[0], Next(s, actions[0]), actions[1..];
      if a.OwnerStep? {
        PopAccess(s, start, m, a.junk);
        PopProgress(r, start, m + [Access(s, r)], rest);
        Regroup(m, Access(s, r), OwnerAccesses(r, rest));
      } else {
        ThievesDuringPop(s, start, m, a);
        PopProgress(r, start, m, rest);
      }
    }
  }

  /** What the state of a pop says of its end. */
  lemma PopOver(s: State, start: int, m: seq<Access>)
    requires Taking(s, start, m)
    ensures |m| <= 7
    ensures |m| >= 5 ==> start - 1 >= m[1].before.top
    ensures |m| >= 6 ==> start - 1 == m[1].before.top
    ensures s.owner.Resting? <==>
      || (|m| == 4 && start - 1 < m[1].before.top)
      || (|m| == 5 && start - 1 > m[1].before.top)
      || (|m| == 6 && m[5].before.top != m[1].before.top)
      || |m| == 7
    ensures !s.owner.Resting? ==> forall junk: seq<nat> :: Enabled(s, OwnerStep(junk))
  {
  }

  /** A call of pop, among any steps of the thieves: it is over after four accesses if bottom, once decremented, is
      below the top it loads; after five if it is above; and otherwise after six or seven, as its swap fails or
      succeeds. Until then its next access can be made. */
  lemma PopCall(s: State, actions: seq<Action>)
    requires Shape(s) && s.owner.Resting?
    requires IsTrace(Next(s, CallPop), actions) && CallPop !in actions && CallPush !in actions
    ensures var m := OwnerAccesses(Next(s, CallPop), actions);
      var r := Trace(Next(s, CallPop), actions);
      && |m| <= 7
      && (|m| >= 5 ==> s.bottom - 1 >= m[1].before.top)
      && (|m| >= 6 ==> s.bottom - 1 == m[1].before.top)
      && (r.owner.Resting? <==>
          || (|m| == 4 && s.bottom - 1 < m[1].before.top)
          || (|m| == 5 && s.bottom - 1 > m[1].before.top)
          || (|m| == 6 && m[5].before.top != m[1].before.top)
          || |m| == 7)
      && (!r.owner.Resting? ==> forall junk: seq<nat> :: Enabled(r, OwnerStep(junk)))
      && Proper(m)
      && (forall k: nat | k < |m| :: PopWrites(m, k))
      && (forall k: nat | k < |m| :: m[k].before.bottom == if k == 0 then s.bottom else s.bottom - 1)
      && r.bottom == PopBottom(m, s.bottom)
  {
    assert Taking(Next(s, CallPop), s.bottom, []);
    hide PopAt, PopWrites, Next;
    var m := OwnerAccesses(Next(s, CallPop), actions);
    PopProgress(Next(s, CallPop), s.bottom, [], actions);
    assert [] + m == m;
    PopOver(Trace(Next(s, CallPop), actions), s.bottom, m);
  }

  /** When a pop returns false: exactly when bottom, once decremented, was below the top it loaded, and then the
      deque had no item at that moment and bottom is put back to that top, or when it was equal to it and a thief
      moved top before the swap, and then bottom stays decremented. Otherwise it delivers one item, in its last
      access. */
  lemma PopFailsIff(s: State, actions: seq<Action>)
    requires Shape(s) && s.owner.Resting?
    requires IsTrace(Next(s, CallPop), actions) && CallPop !in actions && CallPush !in actions
    requires Trace(Next(s, CallPop), actions).owner.Resting?
    ensures var m := OwnerAccesses(Next(s, CallPop), actions);
      var r := Trace(Next(s, CallPop), actions);
      && 4 <= |m| <= 7
      && (forall k: nat | k < |m| - 1 :: m[k].after.delivered == m[k].before.delivered)
      && (m[|m| - 1].after.delivered == m[|m| - 1].before.delivered
          <==> |m| == 4 || (|m| == 6 && m[5].before.top != m[1].before.top))
      && (|m| == 4 <==> s.bottom - 1 < m[1].before.top)
      && (|m| == 4 ==> r.bottom == m[1].before.top && Shape(m[1].before) && Live(m[1].before) == [])
      && (|m| == 5 || |m| == 6 ==> r.bottom == s.bottom - 1)
      && (|m| == 7 ==> r.bottom == m[1].before.top + 1 == s.bottom)
  {
    var m := OwnerAccesses(Next(s, CallPop), actions);
    PopCall(s, actions);
    assert |m| >= 4;
    forall k: nat | k < |m| - 1 ensures m[k].after.delivered == m[k].before.delivered {
      assert PopWrites(m, k);
    }
    assert PopWrites(m, |m| - 1);
  }

  // ---------- Push ----------

  /** The bottom that a push loaded is above the top that it loaded, by the capacity less one or more. */
  predicate Full(m: seq<Access>)
    requires Proper(m) && |m| >= 3
  {
    m[0].before.bottom > m[1].before.top &&
    m[0].before.bottom - m[1].before.top >= |Tasks(m[2].before)| - 1
  }

  /** What the access of number `k` of a push of `x` does. The third replaces a full array by one twice as long
      that begins with its content, the fourth writes the item at the bottom loaded, the fifth adds one to bottom. */
  ghost predicate PushWrites(x: nat, m: seq<Access>, k: nat)
    requires Proper(m) && k < |m|
  {
    var b, a := m[k].before, m[k].after;
    && a.top == b.top && a.delivered == b.delivered && a.thieves == b.thieves
    && a.bottom == (if k == 4 then b.bottom + 1 else b.bottom)
    && (if k == 2 && Full(m) then
          && |a.arrays| == |b.arrays| + 1 && a.arrays[..|b.arrays|] == b.arrays
          && |Tasks(a)| == 2 * |Tasks(b)| && Tasks(a)[..|Tasks(b)|] == Tasks(b)
        else if k == 3 then
          a.arrays == b.arrays[|b.arrays| - 1 := Tasks(b)[m[0].before.bottom % |Tasks(b)| := x]]
        else
          a.arrays == b.arrays)
  }

  /** Where the owner is after the accesses `m` of a push of `x`. */
  ghost predicate PushAt(o: Owner, x: nat, m: seq<Access>) {
    match |m|
    case 0 => o == PushBottom(x)
    case 1 => o == PushTop(x, m[0].before.bottom)
    case 2 => o == PushCheck(x, m[0].before.bottom, m[1].before.top)
    case 3 => o == PushPut(x, m[0].before.bottom)
    case 4 => o == PushInc(x, m[0].before.bottom)
    case _ => |m| == 5 && o == Resting
  }

  /** The state of a push of `x` called when bottom was `start`, after the accesses `m`. */
  ghost predicate Putting(s: State, x: nat, start: int, m: seq<Access>) {
    && Shape(s) && Proper(m) && PushAt(s.owner, x, m)
    && s.bottom == (if |m| == 5 then start + 1 else start)
    && (forall k: nat | k < |m| :: m[k].before.bottom == start)
    && (forall k: nat | k < |m| :: PushWrites(x, m, k))
  }

  lemma ThievesDuringPush(s: State, x: nat, start: int, m: seq<Access>, a: Action)
    requires Putting(s, x, start, m) && Enabled(s, a) && !a.OwnerStep? && !a.CallPop? && !a.CallPush?
    ensures Putting(Next(s, a), x, start, m)
  {
  }

  lemma PushAccess(s: State, x: nat, start: int, m: seq<Access>, junk: seq<nat>)
    requires Putting(s, x, start, m) && Enabled(s, OwnerStep(junk))
    ensures Putting(Next(s, OwnerStep(junk)), x, start, m + [Access(s, Next(s, OwnerStep(junk)))])
  {
    var r := Next(s, OwnerStep(junk));
    var m' := m + [Access(s, r)];
    assert |m| >= 3 ==> Full(m') == Full(m);
    assert PushWrites(x, m', |m|);
    forall k: nat | k < |m| ensures PushWrites(x, m', k) {
      assert PushWrites(x, m, k);
    }
  }

  lemma {:induction false} PushProgress(s: State, x: nat, start: int, m: seq<Access>, actions: seq<Action>)
    requires Putting(s, x, start, m) && IsTrace(s, actions) && CallPop !in actions && CallPush !in actions
    ensures Putting(Trace(s, actions), x, start, m + OwnerAccesses(s, actions))
    decreases |actions|
  {
    assert Shape(s);
    hide Putting, Next;
    if actions == [] {
      assert m + [] == m;
    } else {
      var a, r, rest := actions[0], Next(s, actions[0]), actions[1..];
      if a.OwnerStep? {
        PushAccess(s, x, start, m, a.junk);
        PushProgress(r, x, start, m + [Access(s, r)], rest);
        Regroup(m, Access(s, r), OwnerAccesses(r, rest));
      } else {
        ThievesDuringPush(s, x, start, m, a);
        PushProgress(r, x, start, m, rest);
      }
    }
  }

  /** A call of push, among any steps of the thieves: it is over after its fifth access and not before, until then
      its next access can be made, whatever a doubled array contains in its upper half, and its accesses write the
      item of the call and no other. */
  lemma PushCall(s: State, actions: seq<Action>)
    requires Shape(s) && s.owner.Resting?
    requires IsTrace(Next(s, CallPush), actions) && CallPop !in actions && CallPush !in actions
    ensures var m := OwnerAccesses(Next(s, CallPush), actions);
      var r := Trace(Next(s, CallPush), actions);
      && |m| <= 5
      && (r.owner.Resting? <==> |m| == 5)
      && (!r.owner.Resting? ==>
          forall junk: seq<nat> | |junk| == |Tasks(r)| :: Enabled(r, OwnerStep(junk)))
      && Proper(m)
      && (forall k: nat | k < |m| :: m[k].before.bottom == s.bottom)
      && (forall k: nat | k < |m| :: PushWrites(s.pushed, m, k))
  {
    var m := OwnerAccesses(Next(s, CallPush), actions);
    PushProgress(Next(s, CallPush), s.pushed, s.bottom, [], actions);
    assert [] + m == m;
  }
}
