/** Runs that show how the deque falls short of the obvious guarantees: an item can be stranded, and a growth
    can lose one. */
module DequeExamples {
  import opened Deque
  import opened DequeInvariant
  import opened DequeLedger

  lemma RunCons(s: State, a: Action, rest: seq<Action>)
    requires Shape(s) && Enabled(s, a) && GrowthOk(s, a) && IsRun(Next(s, a), rest)
    ensures IsRun(s, [a] + rest) && Run(s, [a] + rest) == Run(Next(s, a), rest)
  {
    assert ([a] + rest)[1..] == rest;
  }

  lemma {:induction false} RunAppend(s: State, a: seq<Action>, b: seq<Action>)
    requires Shape(s) && IsRun(s, a) && IsRun(Run(s, a), b)
    ensures IsRun(s, a + b) && Run(s, a + b) == Run(Run(s, a), b)
    decreases |a|
  {
    if a == [] {
      assert a + b == b;
    } else {
      RunAppend(Next(s, a[0]), a[1..], b);
      RunCons(s, a[0], a[1..] + b);
      assert [a[0]] + (a[1..] + b) == a + b;
    }
  }

  /** Owner steps taken one after the other, none of them a growth. */
  ghost predicate Quiet(s: State, n: nat)
    requires Shape(s)
    decreases n
  {
    n > 0 ==> !s.owner.Resting? && !Growing(s) && Quiet(OwnerNext(s, []), n - 1)
  }

  function Owned(s: State, n: nat): (r: State)
    requires Shape(s) && Quiet(s, n)
    ensures Shape(r)
    decreases n
  {
    if n == 0 then s else Owned(OwnerNext(s, []), n - 1)
  }

  lemma {:induction false} OwnerAlone(s: State, n: nat) returns (actions: seq<Action>)
    requires Shape(s) && Quiet(s, n)
    ensures IsRun(s, actions) && Run(s, actions) == Owned(s, n)
    decreases n
  {
    if n == 0 {
      actions := [];
    } else {
      var rest := OwnerAlone(OwnerNext(s, []), n - 1);
      RunCons(s, OwnerStep([]), rest);
      actions := [OwnerStep([])] + rest;
    }
  }

  /** The state after a push that meets nobody and does not grow the array. */
  function Pushed(s: State): State
    requires Shape(s)
  {
    s.(bottom := s.bottom + 1, pushed := s.pushed + 1,
       arrays := s.arrays[|s.arrays| - 1 := Put(Tasks(s), s.bottom, s.pushed)],
       stranded := if s.bottom < s.top then s.stranded + [s.pushed] else s.stranded)
  }

  lemma OneStep(s: State, a: Action)
    requires Shape(s) && Enabled(s, a) && GrowthOk(s, a)
    ensures IsRun(s, [a]) && Run(s, [a]) == Next(s, a)
  {
    assert IsRun(Next(s, a), []);
    RunCons(s, a, []);
    assert [a] + [] == [a];
  }

  /** A push up to the growth test. */
  lemma PushUpToGrowth(s: State) returns (actions: seq<Action>)
    requires Shape(s) && s.owner.Resting?
    ensures IsRun(s, actions)
    ensures Run(s, actions) == s.(owner := PushCheck(s.pushed, s.bottom, s.top), pushed := s.pushed + 1)
  {
    var s1 := Next(s, CallPush);
    var s2 := OwnerNext(s1, []);
    var s3 := OwnerNext(s2, []);
    assert Quiet(s3, 0) && Owned(s3, 0) == s3;
    assert Quiet(s2, 1) && Owned(s2, 1) == s3;
    assert Quiet(s1, 2) && Owned(s1, 2) == s3;
    var rest := OwnerAlone(s1, 2);
    RunCons(s, CallPush, rest);
    actions := [CallPush] + rest;
  }

  /** What is left of a push after the growth test. */
  lemma FinishPush(s: State, x: nat, ob: int) returns (actions: seq<Action>)
    requires Shape(s) && s.owner == PushPut(x, ob) && s.bottom == ob
    ensures IsRun(s, actions)
    ensures Run(s, actions) ==
      s.(owner := Resting, bottom := ob + 1, arrays := s.arrays[|s.arrays| - 1 := Put(Tasks(s), ob, x)],
         stranded := if ob < s.top then s.stranded + [x] else s.stranded)
  {
    OneStep(s, OwnerStep([]));
    var s1 := Next(s, OwnerStep([]));
    OneStep(s1, OwnerStep([]));
    RunAppend(s, [OwnerStep([])], [OwnerStep([])]);
    actions := [OwnerStep([])] + [OwnerStep([])];
  }

  /** A push up to its write, when the array is not replaced. */
  lemma PushUpToPut(s: State) returns (actions: seq<Action>)
    requires Shape(s) && s.owner.Resting? && s.bottom - s.top < |Tasks(s)| - 1
    ensures IsRun(s, actions)
    ensures Run(s, actions) == s.(owner := PushPut(s.pushed, s.bottom), pushed := s.pushed + 1)
  {
    var a := PushUpToGrowth(s);
    OneStep(Run(s, a), OwnerStep([]));
    RunAppend(s, a, [OwnerStep([])]);
    actions := a + [OwnerStep([])];
  }

  lemma PushAlone(s: State) returns (actions: seq<Action>)
    requires Shape(s) && s.owner.Resting? && s.bottom - s.top < |Tasks(s)| - 1
    ensures IsRun(s, actions) && Run(s, actions) == Pushed(s)
  {
    var a := PushUpToPut(s);
    var b := FinishPush(Run(s, a), s.pushed, s.bottom);
    RunAppend(s, a, b);
    actions := a + b;
  }

  /** A thief that has read the item at the front and has only its swap left. */
  lemma StealUpToSwap(s: State, t: nat) returns (actions: seq<Action>)
    requires Shape(s) && ThiefOf(s, t).Absent? && s.top < s.bottom
    ensures IsRun(s, actions)
    ensures Run(s, actions) == s.(thieves := s.thieves[t := StealCas(s.top, Cell(Tasks(s), s.top))])
  {
    var s1 := Next(s, CallSteal(t));
    var s2 := Next(s1, ThiefStep(t));
    var s3 := Next(s2, ThiefStep(t));
    var s4 := Next(s3, ThiefStep(t));
    var s5 := Next(s4, ThiefStep(t));
    assert IsRun(s5, []);
    RunCons(s4, ThiefStep(t), []);
    RunCons(s3, ThiefStep(t), [ThiefStep(t)]);
    RunCons(s2, ThiefStep(t), [ThiefStep(t)] + [ThiefStep(t)]);
    RunCons(s1, ThiefStep(t), [ThiefStep(t)] + ([ThiefStep(t)] + [ThiefStep(t)]));
    RunCons(s, CallSteal(t), [ThiefStep(t)] + ([ThiefStep(t)] + ([ThiefStep(t)] + [ThiefStep(t)])));
    actions := [CallSteal(t)] + ([ThiefStep(t)] + ([ThiefStep(t)] + ([ThiefStep(t)] + [ThiefStep(t)])));
    assert s5 == s.(thieves := s.thieves[t := StealCas(s.top, Cell(Tasks(s), s.top))]);
  }

  /** A pop up to its swap for the last item. */
  lemma PopUpToSwap(s: State) returns (actions: seq<Action>)
    requires Shape(s) && s.owner.Resting? && s.bottom == s.top + 1
    ensures IsRun(s, actions)
    ensures Run(s, actions) == s.(bottom := s.top, owner := PopCas(s.top, Cell(Tasks(s), s.top)))
  {
    var s1 := Next(s, CallPop);
    var s2 := OwnerNext(s1, []);
    var s3 := OwnerNext(s2, []);
    var s4 := OwnerNext(s3, []);
    var s5 := OwnerNext(s4, []);
    var s6 := OwnerNext(s5, []);
    assert Quiet(s6, 0) && Owned(s6, 0) == s6;
    assert Quiet(s5, 1) && Owned(s5, 1) == s6;
    assert Quiet(s4, 2) && Owned(s4, 2) == s6;
    assert Quiet(s3, 3) && Owned(s3, 3) == s6;
    assert Quiet(s2, 4) && Owned(s2, 4) == s6;
    assert Quiet(s1, 5) && Owned(s1, 5) == s6;
    var rest := OwnerAlone(s1, 5);
    RunCons(s, CallPop, rest);
    actions := [CallPop] + rest;
    assert s6 == s.(bottom := s.top, owner := PopCas(s.top, Cell(Tasks(s), s.top)));
  }

  lemma StealAlone(s: State, t: nat) returns (actions: seq<Action>)
    requires Shape(s) && ThiefOf(s, t).Absent? && s.top < s.bottom
    ensures IsRun(s, actions)
    ensures Run(s, actions) == s.(top := s.top + 1, delivered := s.delivered + [Cell(Tasks(s), s.top)],
                                  thieves := s.thieves[t := Absent])
  {
    var a := StealUpToSwap(s, t);
    OneStep(Run(s, a), ThiefStep(t));
    RunAppend(s, a, [ThiefStep(t)]);
    actions := a + [ThiefStep(t)];
  }

  /** A pop and a steal race for the last item, and the pop loses. */
  lemma LosingPop(s: State, t: nat) returns (actions: seq<Action>)
    requires Shape(s) && s.owner.Resting? && ThiefOf(s, t).Absent? && s.bottom == s.top + 1
    ensures IsRun(s, actions)
    ensures Run(s, actions) == s.(bottom := s.top, top := s.top + 1, thieves := s.thieves[t := Absent],
                                  delivered := s.delivered + [Cell(Tasks(s), s.top)])
  {
    var a := StealUpToSwap(s, t);
    var s1 := Run(s, a);
    var b := PopUpToSwap(s1);
    RunAppend(s, a, b);
    var s2 := Run(s1, b);
    var c := LostSwap(s2, t);
    RunAppend(s, a + b, c);
    actions := a + b + c;
  }

  lemma LostSwap(s: State, t: nat) returns (actions: seq<Action>)
    requires Shape(s) && s.owner.PopCas? && ThiefOf(s, t).StealCas?
    requires s.top == s.owner.ot == ThiefOf(s, t).i
    ensures IsRun(s, actions)
    ensures Run(s, actions) == s.(owner := Resting, top := s.top + 1, thieves := s.thieves[t := Absent],
                                  delivered := s.delivered + [ThiefOf(s, t).v])
  {
    OneStep(s, ThiefStep(t));
    OneStep(Next(s, ThiefStep(t)), OwnerStep([]));
    RunAppend(s, [ThiefStep(t)], [OwnerStep([])]);
    actions := [ThiefStep(t)] + [OwnerStep([])];
  }

  /** An item that is lost to everybody: push, race a pop against a steal for it, let the pop lose, and push
      again. Both operations are over, no thief is about, and item 1 is neither delivered nor live. */
  lemma StrandedItem(data: seq<nat>) returns (actions: seq<Action>)
    requires |data| >= 2
    ensures IsRun(Init(data), actions)
    ensures var r := Run(Init(data), actions);
      && r.owner.Resting? && (forall t: nat :: ThiefOf(r, t).Absent?)
      && r.pushed == 2 && r.delivered == [0] && r.stranded == [1] && Live(r) == []
  {
    var s0 := Init(data);
    var a := PushAlone(s0);
    var s1 := Run(s0, a);
    var b := LosingPop(s1, 0);
    RunAppend(s0, a, b);
    var s2 := Run(s1, b);
    var c := PushAlone(s2);
    RunAppend(s0, a + b, c);
    actions := a + b + c;
  }

  /** Pushes up to a given bottom. */
  lemma {:induction false} Fill(s: State, bottom: int) returns (actions: seq<Action>)
    requires Shape(s) && s.owner.Resting? && s.top <= s.bottom <= bottom && bottom - s.top <= |Tasks(s)| - 1
    ensures IsRun(s, actions)
    ensures var r := Run(s, actions);
      && r == s.(bottom := bottom, pushed := s.pushed + (bottom - s.bottom), arrays := r.arrays)
      && |Tasks(r)| == |Tasks(s)|
    decreases bottom - s.bottom
  {
    if s.bottom == bottom {
      actions := [];
    } else {
      var a := PushAlone(s);
      var b := Fill(Pushed(s), bottom);
      RunAppend(s, a, b);
      actions := a + b;
    }
  }

  /** A run that steals the first item and then fills the array. */
  lemma FullAtTwo(data: seq<nat>) returns (actions: seq<Action>)
    requires |data| >= 2
    ensures IsRun(Init(data), actions)
    ensures var r := Run(Init(data), actions);
      && r.owner.Resting? && r.top == 2 && r.bottom == |data| + 1 && |Tasks(r)| == |data|
      && r.pushed == |data| && r.delivered == [0]
  {
    var s0 := Init(data);
    var a := PushAlone(s0);
    var s1 := Run(s0, a);
    var b := StealAlone(s1, 0);
    RunAppend(s0, a, b);
    var s2 := Run(s1, b);
    var c := Fill(s2, |data| + 1);
    RunAppend(s0, a + b, c);
    actions := a + b + c;
  }

  /** For every initial capacity N there is a run to a growth that violates the growth condition: one item has
      been stolen, the window is [2, N + 1), and whatever the new half of the array holds in its first slot
      takes the place of the live item at index N. */
  lemma LossyGrowth(data: seq<nat>) returns (actions: seq<Action>)
    requires |data| >= 2
    ensures IsRun(Init(data), actions)
    ensures var r := Run(Init(data), actions);
      && Growing(r) && r.top == 2 && r.bottom == |data| + 1 && |Tasks(r)| == |data|
      && r.owner == PushCheck(|data|, |data| + 1, 2) && r.delivered == [0]
      && !WindowFits(|data|, r.top, r.bottom)
      && (forall junk: seq<nat> | |junk| == |data| :: Cell(Tasks(Next(r, OwnerStep(junk))), |data|) == junk[0])
  {
    var a := FullAtTwo(data);
    var s := Run(Init(data), a);
    var b := PushUpToGrowth(s);
    RunAppend(Init(data), a, b);
    actions := a + b;
    var r := Run(s, b);
    CapacityBit(|data|);
    assert |data| / |data| % 2 != 0;
    forall junk: seq<nat> | |junk| == |data| ensures Cell(Tasks(Next(r, OwnerStep(junk))), |data|) == junk[0] {
      DoubledCell(Tasks(r), junk, |data|);
    }
  }

  lemma CapacityBit(n: nat)
    requires n > 0
    ensures n / n % 2 == 1 && n % n == 0
  {
  }

  // ---------- A growth that violates the condition delivers an item twice ----------

  lemma {:induction false} TraceAppend(s: State, a: seq<Action>, b: seq<Action>)
    requires Shape(s) && IsTrace(s, a) && IsTrace(Trace(s, a), b)
    ensures IsTrace(s, a + b) && Trace(s, a + b) == Trace(Trace(s, a), b)
    decreases |a|
  {
    if a == [] {
      assert a + b == b;
    } else {
      assert (a + b)[0] == a[0] && (a + b)[1..] == a[1..] + b;
      TraceAppend(Next(s, a[0]), a[1..], b);
    }
  }

  lemma TraceOne(s: State, a: Action)
    requires Shape(s) && Enabled(s, a)
    ensures IsTrace(s, [a]) && Trace(s, [a]) == Next(s, a)
  {
    assert [a][1..] == [];
    assert IsTrace(Next(s, a), []);
  }

  /** A pop that meets nobody and leaves an item behind. */
  lemma PopAlone(s: State) returns (actions: seq<Action>)
    requires Shape(s) && s.owner.Resting? && s.bottom > s.top + 1
    ensures IsRun(s, actions)
    ensures Run(s, actions) == s.(bottom := s.bottom - 1, delivered := s.delivered + [Cell(Tasks(s), s.bottom - 1)])
  {
    var s1 := Next(s, CallPop);
    var s2 := OwnerNext(s1, []);
    var s3 := OwnerNext(s2, []);
    var s4 := OwnerNext(s3, []);
    var s5 := OwnerNext(s4, []);
    var s6 := OwnerNext(s5, []);
    assert Quiet(s6, 0) && Owned(s6, 0) == s6;
    assert Quiet(s5, 1) && Owned(s5, 1) == s6;
    assert Quiet(s4, 2) && Owned(s4, 2) == s6;
    assert Quiet(s3, 3) && Owned(s3, 3) == s6;
    assert Quiet(s2, 4) && Owned(s2, 4) == s6;
    assert Quiet(s1, 5) && Owned(s1, 5) == s6;
    var rest := OwnerAlone(s1, 5);
    RunCons(s, CallPop, rest);
    actions := [CallPop] + rest;
    assert s6 == s.(bottom := s.bottom - 1, delivered := s.delivered + [Cell(Tasks(s), s.bottom - 1)]);
  }

  /** A pop that meets nobody and takes the last item. */
  lemma PopLast(s: State) returns (actions: seq<Action>)
    requires Shape(s) && s.owner.Resting? && s.bottom == s.top + 1
    ensures IsRun(s, actions)
    ensures Run(s, actions) == s.(top := s.top + 1, delivered := s.delivered + [Cell(Tasks(s), s.top)])
  {
    var a := PopUpToSwap(s);
    var s1 := Run(s, a);
    OneStep(s1, OwnerStep([]));
    var s2 := Next(s1, OwnerStep([]));
    OneStep(s2, OwnerStep([]));
    RunAppend(s1, [OwnerStep([])], [OwnerStep([])]);
    RunAppend(s, a, [OwnerStep([])] + [OwnerStep([])]);
    actions := a + ([OwnerStep([])] + [OwnerStep([])]);
  }

  /** The two pops after a push: the pushed item, and what stands at the index below it. */
  lemma PopTwice(s: State) returns (actions: seq<Action>)
    requires Shape(s) && s.owner.Resting? && s.bottom >= s.top + 2
    ensures IsRun(s, actions)
    ensures var r := Run(s, actions);
      && r.owner.Resting?
      && r.delivered == s.delivered + [Cell(Tasks(s), s.bottom - 1)] + [Cell(Tasks(s), s.bottom - 2)]
  {
    var a := PopAlone(s);
    var s1 := Run(s, a);
    var b := LastOrNot(s1);
    RunAppend(s, a, b);
    actions := a + b;
  }

  lemma LastOrNot(s: State) returns (actions: seq<Action>)
    requires Shape(s) && s.owner.Resting? && s.bottom > s.top
    ensures IsRun(s, actions)
    ensures var r := Run(s, actions);
      r.owner.Resting? && r.delivered == s.delivered + [Cell(Tasks(s), s.bottom - 1)]
  {
    if s.bottom == s.top + 1 {
      actions := PopLast(s);
    } else {
      actions := PopAlone(s);
    }
  }

  /** For every initial capacity N there is a sequence of enabled steps that delivers item 0 twice: the growth
      after one steal reads the first slot of the new half, which happens to hold 0, where item N - 1 was. */
  lemma DeliveredTwice(data: seq<nat>) returns (actions: seq<Action>)
    requires |data| >= 2
    ensures IsTrace(Init(data), actions)
    ensures var r := Trace(Init(data), actions);
      r.owner.Resting? && r.delivered == [0, |data|, 0] && !Ledger(r)
  {
    var a := LossyGrowth(data);
    var s1 := Run(Init(data), a);
    RunIsTrace(Init(data), a);
    var junk := seq(|data|, _ => 0);
    var s2 := Next(s1, OwnerStep(junk));
    TraceOne(s1, OwnerStep(junk));
    TraceAppend(Init(data), a, [OwnerStep(junk)]);
    var b := AfterGrowth(s2, |data|);
    RunIsTrace(s2, b);
    TraceAppend(Init(data), a + [OwnerStep(junk)], b);
    actions := a + [OwnerStep(junk)] + b;
    NotTwice(Trace(Init(data), actions), |data|);
  }

  lemma AfterGrowth(s: State, n: nat) returns (actions: seq<Action>)
    requires n >= 2 && Shape(s) && s.owner == PushPut(n, n + 1) && s.bottom == n + 1 && s.top == 2
    requires |Tasks(s)| == 2 * n && Cell(Tasks(s), n) == 0
    ensures IsRun(s, actions)
    ensures var r := Run(s, actions); r.owner.Resting? && r.delivered == s.delivered + [n] + [0]
  {
    var a := FinishPush(s, n, n + 1);
    var s1 := Run(s, a);
    PutBeside(Tasks(s), n);
    var b := PopTwice(s1);
    RunAppend(s, a, b);
    actions := a + b;
  }

  lemma PutBeside(data: seq<nat>, n: nat)
    requires n >= 2 && |data| == 2 * n
    ensures Cell(Put(data, n + 1, n), n + 1) == n && Cell(Put(data, n + 1, n), n) == Cell(data, n)
  {
    InRange(n + 1, |data|);
    InRange(n, |data|);
  }

  lemma NotTwice(s: State, n: nat)
    requires Shape(s) && s.delivered == [0, n, 0]
    ensures !Ledger(s)
  {
    TimesTwice(s.delivered, 0, 2);
    assert Places(s, 0) >= 2;
  }
}
