/** The ledger of the deque and its refinement: where every pushed item is in every reachable state, and the
    simple double-ended queue that the interleaved steps implement. */
module DequeLedger {
  import opened Deque
  import opened DequeInvariant

  lemma WindowHead(data: seq<nat>, top: int, bottom: int)
    requires data != [] && top < bottom
    ensures Window(data, top, bottom) == [Cell(data, top)] + Window(data, top + 1, bottom)
  {
  }

  lemma WindowLast(data: seq<nat>, top: int, bottom: int)
    requires data != [] && top <= bottom
    ensures Window(data, top, bottom + 1) == Window(data, top, bottom) + [Cell(data, bottom)]
  {
  }

  // ---------- Refinement ----------

  /** A double-ended queue, and the item its owner has popped but not returned yet. */
  datatype Abstract = Abstract(items: seq<nat>, owed: seq<nat>)

  datatype Event =
    | Silent | Append(x: nat) | Stranded(x: nat) | TakeBack(x: nat) | FoundEmpty | Return(x: nat) | TakeFront(x: nat)

  /** When an event is possible for the queue. */
  predicate Allowed(q: Abstract, e: Event) {
    match e
    case TakeBack(x) => q.owed == [] && q.items != [] && q.items[|q.items| - 1] == x
    case FoundEmpty => q.items == []
    case Return(x) => q.owed == [x]
    case TakeFront(x) => q.items != [] && q.items[0] == x
    case _ => true
  }

  /** What an event does to the queue. */
  function After(q: Abstract, e: Event): Abstract
    requires Allowed(q, e)
  {
    match e
    case Append(x) => q.(items := q.items + [x])
    case TakeBack(x) => Abstract(q.items[..|q.items| - 1], [x])
    case Return(x) => q.(owed := [])
    case TakeFront(x) => q.(items := q.items[1..])
    case _ => q
  }

  ghost predicate Effect(q: Abstract, e: Event, r: Abstract) {
    Allowed(q, e) && r == After(q, e)
  }

  /** A history of events that the queue can go through. */
  predicate Replays(q: Abstract, events: seq<Event>)
    decreases |events|
  {
    events == [] || (Allowed(q, events[0]) && Replays(After(q, events[0]), events[1..]))
  }

  function Replay(q: Abstract, events: seq<Event>): Abstract
    requires Replays(q, events)
    decreases |events|
  {
    if events == [] then q else Replay(After(q, events[0]), events[1..])
  }

  /** A pop has loaded a top below bottom: its outcome is settled from that moment. */
  predicate Settled(s: State) {
    Decided(s.owner) && OwnerTop(s.owner) < s.bottom
  }

  function Abstraction(s: State): Abstract
    requires Shape(s)
  {
    if Settled(s) then Abstract(Live(s), [Cell(Tasks(s), s.bottom)])
    else if Popping(s.owner) then Abstract(Window(Tasks(s), s.top, s.bottom + 1), [])
    else if s.owner.PopStore? then Abstract(Live(s), [s.owner.v])
    else Abstract(Live(s), [])
  }

  /** The linearization points: the increment of a push, the load of top of a pop that sees more than one
      item or none, and the compare-and-swap otherwise. */
  function EventOf(s: State, a: Action): Event
    requires Shape(s) && Enabled(s, a)
  {
    match a
    case OwnerStep(_) =>
      (match s.owner
       case PushInc(x, ob) => if s.bottom < s.top then Stranded(x) else Append(x)
       case PopTop =>
         if s.top < s.bottom then TakeBack(Cell(Tasks(s), s.bottom))
         else if s.top > s.bottom then FoundEmpty
         else Silent
       case PopCas(ot, v) => if s.top == ot then TakeBack(v) else FoundEmpty
       case PopTest(ot, v) => if s.bottom > ot then Return(v) else Silent
       case PopStore(ot, v) => Return(v)
       case _ => Silent)
    case ThiefStep(t) =>
      var p := ThiefOf(s, t);
      if p.StealCas? && p.i == s.top then TakeFront(p.v) else Silent
    case _ => Silent
  }

  lemma PushRefines(s: State, junk: seq<nat>)
    requires Inv(s) && Enabled(s, OwnerStep(junk)) && GrowthOk(s, OwnerStep(junk)) && Pushing(s.owner)
    ensures Effect(Abstraction(s), EventOf(s, OwnerStep(junk)), Abstraction(OwnerNext(s, junk)))
  {
    match s.owner
    case PushCheck(x, ob, ot) =>
      if Growing(s) {
        GrowthKeepsWindow(Tasks(s), junk, s.top, s.bottom);
      }
    case PushPut(x, ob) =>
      PutKeepsWindow(Tasks(s), s.bottom, x, s.top);
    case PushInc(x, ob) =>
      if s.top <= s.bottom {
        WindowLast(Tasks(s), s.top, s.bottom);
      }
    case _ =>
  }

  lemma PopRefines(s: State, junk: seq<nat>)
    requires Shape(s) && Bounds(s) && Enabled(s, OwnerStep(junk)) && !Pushing(s.owner)
    ensures Effect(Abstraction(s), EventOf(s, OwnerStep(junk)), Abstraction(OwnerNext(s, junk)))
  {
    if s.owner.PopTop? {
      PopLoadsTop(s, junk);
    } else if s.owner.PopCas? {
      PopSwaps(s, junk);
    }
  }

  /** The two steps that can settle a pop. */
  lemma PopLoadsTop(s: State, junk: seq<nat>)
    requires Shape(s) && Bounds(s) && Enabled(s, OwnerStep(junk)) && s.owner.PopTop?
    ensures Effect(Abstraction(s), EventOf(s, OwnerStep(junk)), Abstraction(OwnerNext(s, junk)))
  {
    var r := OwnerNext(s, junk);
    assert r == s.(owner := PopCompare(s.top));
    if s.top <= s.bottom {
      WindowLast(Tasks(s), s.top, s.bottom);
      var longer := Window(Tasks(s), s.top, s.bottom + 1);
      assert longer[..|longer| - 1] == Window(Tasks(s), s.top, s.bottom);
    }
  }

  lemma PopSwaps(s: State, junk: seq<nat>)
    requires Shape(s) && Bounds(s) && Enabled(s, OwnerStep(junk)) && s.owner.PopCas?
    ensures Effect(Abstraction(s), EventOf(s, OwnerStep(junk)), Abstraction(OwnerNext(s, junk)))
  {
    var r := OwnerNext(s, junk);
    var v := s.owner.v;
    if s.top == s.owner.ot {
      assert Window(Tasks(s), s.top, s.bottom + 1) == [v];
      assert Abstraction(s) == Abstract([v], []) && Abstraction(r) == Abstract([], [v]);
    } else {
      assert Abstraction(s) == Abstract([], []) && Abstraction(r) == Abstract([], []);
    }
  }

  lemma ThiefRefines(s: State, t: nat)
    requires Inv(s) && Enabled(s, ThiefStep(t))
    ensures Effect(Abstraction(s), EventOf(s, ThiefStep(t)), Abstraction(ThiefNext(s, t)))
  {
    var p := ThiefOf(s, t);
    assert ThiefOk(s, p);
    if p.StealCas? && p.i == s.top {
      if s.top < s.bottom {
        WindowHead(Tasks(s), s.top, s.bottom);
      }
      if s.top <= s.bottom {
        WindowHead(Tasks(s), s.top, s.bottom + 1);
      }
    }
  }

  /** Each step of the deque is a step of the simple queue: a push appends at the back (unless it strands its
      item), a successful pop takes and returns the back, a successful steal takes the front, a failed pop has
      met the queue empty, and all other steps, failed steals among them, change nothing. */
  lemma Refinement(s: State, a: Action)
    requires Inv(s) && Enabled(s, a) && GrowthOk(s, a)
    ensures Effect(Abstraction(s), EventOf(s, a), Abstraction(Next(s, a)))
  {
    match a
    case OwnerStep(junk) => if Pushing(s.owner) { PushRefines(s, junk); } else { PopRefines(s, junk); }
    case ThiefStep(t) => ThiefRefines(s, t);
    case _ =>
  }

  function Events(s: State, actions: seq<Action>): seq<Event>
    requires Shape(s) && IsRun(s, actions)
    decreases |actions|
  {
    if actions == [] then [] else [EventOf(s, actions[0])] + Events(Next(s, actions[0]), actions[1..])
  }

  /** Every interleaving is a history of the simple queue. */
  lemma {:induction false} RunRefines(s: State, actions: seq<Action>)
    requires Inv(s) && IsRun(s, actions)
    ensures Replays(Abstraction(s), Events(s, actions))
    ensures Replay(Abstraction(s), Events(s, actions)) == Abstraction(Run(s, actions))
    decreases |actions|
  {
    if actions != [] {
      var a := actions[0];
      NextKeeps(s, a);
      Refinement(s, a);
      RunRefines(Next(s, a), actions[1..]);
      assert Events(s, actions)[1..] == Events(Next(s, a), actions[1..]);
    }
  }

  // ---------- The ledger ----------

  function Live(s: State): seq<nat>
    requires Shape(s)
  {
    Window(Tasks(s), s.top, s.bottom)
  }

  /** The item a pop in progress has set apart, unless a thief has taken it. */
  function Reserved(s: State): seq<nat>
    requires Shape(s)
  {
    if Popping(s.owner) && s.top <= s.bottom then [Cell(Tasks(s), s.bottom)]
    else if s.owner.PopStore? then [s.owner.v]
    else []
  }

  function InPush(s: State): seq<nat> {
    if Pushing(s.owner) then [s.owner.x] else []
  }

  /** How often an item occurs in a sequence. */
  function Times(s: seq<nat>, x: nat): nat {
    if s == [] then 0 else (if s[0] == x then 1 else 0) + Times(s[1..], x)
  }

  lemma {:induction false} TimesOfSum(a: seq<nat>, b: seq<nat>, x: nat)
    ensures Times(a + b, x) == Times(a, x) + Times(b, x)
    decreases |a|
  {
    if a == [] {
      assert a + b == b;
    } else {
      TimesOfSum(a[1..], b, x);
      assert (a + b)[1..] == a[1..] + b;
    }
  }

  lemma TimesOfAppend(a: seq<nat>, y: nat, x: nat)
    ensures Times(a + [y], x) == Times(a, x) + Times([y], x)
    ensures Times([y], x) == if x == y then 1 else 0
  {
    assert [y][1..] == [];
    TimesOfSum(a, [y], x);
  }

  /** In how many places an item is: delivered, live in [top, bottom), reserved by a pop in progress, in
      progress in a push, or stranded. */
  function Places(s: State, x: nat): nat
    requires Shape(s)
  {
    Times(s.delivered, x) + Times(Live(s), x) + Times(Reserved(s), x) + Times(InPush(s), x) + Times(s.stranded, x)
  }

  /** Every item pushed is in exactly one place, and no other item is anywhere. */
  ghost predicate Ledger(s: State)
    requires Shape(s)
  {
    forall x: nat :: Places(s, x) == if x < s.pushed then 1 else 0
  }

  /** What the abstract queue holds and owes is what is live and what is reserved. */
  lemma AbstractionHolds(s: State, x: nat)
    requires Shape(s) && Bounds(s)
    ensures var q := Abstraction(s);
      Times(q.items, x) + Times(q.owed, x) == Times(Live(s), x) + Times(Reserved(s), x)
  {
    if Popping(s.owner) && !Settled(s) {
      if s.top <= s.bottom {
        WindowLast(Tasks(s), s.top, s.bottom);
        TimesOfSum(Live(s), [Cell(Tasks(s), s.bottom)], x);
      } else {
        assert Abstraction(s).items == [] && Live(s) == [] && Reserved(s) == [];
      }
    }
  }

  /** What a step delivers, strands or begins to push, by its event. */
  ghost predicate Books(s: State, a: Action, e: Event, r: State) {
    && r.delivered == (if e.Return? || e.TakeFront? then s.delivered + [e.x] else s.delivered)
    && r.stranded == (if e.Stranded? then s.stranded + [e.x] else s.stranded)
    && r.pushed == (if a.CallPush? then s.pushed + 1 else s.pushed)
    && (if a.CallPush? then InPush(s) == [] && InPush(r) == [s.pushed] && e.Silent?
        else if e.Append? || e.Stranded? then InPush(s) == [e.x] && InPush(r) == []
        else InPush(r) == InPush(s))
  }

  lemma NextBooks(s: State, a: Action)
    requires Inv(s) && Enabled(s, a)
    ensures Books(s, a, EventOf(s, a), Next(s, a))
  {
  }

  function Total(s: State, q: Abstract, x: nat): nat {
    Times(s.delivered, x) + (Times(q.items, x) + Times(q.owed, x)) + Times(InPush(s), x) + Times(s.stranded, x)
  }

  lemma TotalKept(s: State, a: Action, q: Abstract, e: Event, r: State, q': Abstract, x: nat)
    requires Effect(q, e, q') && Books(s, a, e, r)
    ensures Total(r, q', x) == Total(s, q, x) + if a.CallPush? && x == s.pushed then 1 else 0
  {
    match e
    case Silent => if a.CallPush? { TimesOfAppend([], s.pushed, x); }
    case Append(y) => TimesOfAppend(q.items, y, x);
    case Stranded(y) => TimesOfAppend(s.stranded, y, x);
    case TakeBack(y) =>
      assert q.items == q'.items + [y];
      TimesOfAppend(q'.items, y, x);
    case FoundEmpty =>
    case Return(y) => TimesOfAppend(s.delivered, y, x);
    case TakeFront(y) => TimesOfAppend(s.delivered, y, x);
  }

  lemma NextLedger(s: State, a: Action)
    requires Inv(s) && Enabled(s, a) && GrowthOk(s, a) && Ledger(s)
    ensures Ledger(Next(s, a))
  {
    var r := Next(s, a);
    NextKeeps(s, a);
    NextBooks(s, a);
    Refinement(s, a);
    forall x: nat ensures Places(r, x) == if x < r.pushed then 1 else 0 {
      assert Places(s, x) == if x < s.pushed then 1 else 0;
      AbstractionHolds(s, x);
      AbstractionHolds(r, x);
      TotalKept(s, a, Abstraction(s), EventOf(s, a), r, Abstraction(r), x);
    }
  }

  lemma {:induction false} RunLedger(s: State, actions: seq<Action>)
    requires Inv(s) && Ledger(s) && IsRun(s, actions)
    ensures Inv(Run(s, actions)) && Ledger(Run(s, actions))
    decreases |actions|
  {
    if actions != [] {
      NextKeeps(s, actions[0]);
      NextLedger(s, actions[0]);
      RunLedger(Next(s, actions[0]), actions[1..]);
    }
  }

  lemma TimesAt(s: seq<nat>, n: nat)
    requires n < |s|
    ensures Times(s, s[n]) >= 1
  {
    assert s == s[..n] + ([s[n]] + s[n + 1..]);
    TimesOfSum(s[..n], [s[n]] + s[n + 1..], s[n]);
  }

  lemma TimesTwice(s: seq<nat>, m: nat, n: nat)
    requires m < n < |s| && s[m] == s[n]
    ensures Times(s, s[m]) >= 2
  {
    assert s == s[..n] + s[n..];
    TimesOfSum(s[..n], s[n..], s[m]);
    TimesAt(s[..n], m);
    TimesAt(s[n..], 0);
  }

  lemma HeldOnce(s: State)
    requires Shape(s) && Ledger(s)
    ensures forall n: nat | n < |s.delivered| :: s.delivered[n] < s.pushed
    ensures forall m: nat, n: nat | m < n < |s.delivered| :: s.delivered[m] != s.delivered[n]
  {
    forall x: nat ensures Times(s.delivered, x) <= if x < s.pushed then 1 else 0 {
      assert Places(s, x) == if x < s.pushed then 1 else 0;
    }
    forall n: nat | n < |s.delivered| ensures s.delivered[n] < s.pushed {
      TimesAt(s.delivered, n);
    }
    forall m: nat, n: nat | m < n < |s.delivered| ensures s.delivered[m] != s.delivered[n] {
      if s.delivered[m] == s.delivered[n] {
        TimesTwice(s.delivered, m, n);
      }
    }
  }

  lemma InitLedger(data: seq<nat>)
    requires |data| >= 2
    ensures Inv(Init(data)) && Ledger(Init(data))
  {
    InitInv(data);
    assert Live(Init(data)) == [];
  }

  lemma RunOnce(s: State, actions: seq<Action>)
    requires Inv(s) && Ledger(s) && IsRun(s, actions)
    ensures var r := Run(s, actions);
      && Ledger(r)
      && (forall n: nat | n < |r.delivered| :: r.delivered[n] < r.pushed)
      && (forall m: nat, n: nat | m < n < |r.delivered| :: r.delivered[m] != r.delivered[n])
  {
    RunLedger(s, actions);
    HeldOnce(Run(s, actions));
  }

  /** In every run whose growths meet the growth condition, with any number of thieves: the items pushed split
      into delivered, live in [top, bottom), reserved by a pop in progress, in progress in a push, and
      stranded; hence each is delivered at most once, and nothing is delivered that was not pushed. */
  lemma AtMostOnce(data: seq<nat>, actions: seq<Action>)
    requires |data| >= 2 && IsRun(Init(data), actions)
    ensures var r := Run(Init(data), actions);
      && Ledger(r)
      && (forall n: nat | n < |r.delivered| :: r.delivered[n] < r.pushed)
      && (forall m: nat, n: nat | m < n < |r.delivered| :: r.delivered[m] != r.delivered[n])
  {
    InitLedger(data);
    RunOnce(Init(data), actions);
  }

  /** In every trace, whatever its growths do: between the operations of the owner bottom is at least top - 1, in
      a pop at least top - 2, and it is never negative; top only moves up, one step at a time. */
  lemma IndexBounds(data: seq<nat>, actions: seq<Action>)
    requires |data| >= 2 && IsTrace(Init(data), actions)
    ensures var s := Trace(Init(data), actions);
      && s.bottom >= 0 && s.top >= 1
      && s.bottom >= s.top - 2
      && (s.owner.Resting? || Pushing(s.owner) ==> s.bottom >= s.top - 1 && s.bottom >= 1)
    ensures forall a | Enabled(Trace(Init(data), actions), a) ::
      var s := Trace(Init(data), actions); s.top <= Next(s, a).top <= s.top + 1
  {
    InitInv(data);
    TraceIndex(Init(data), actions);
    var s := Trace(Init(data), actions);
    forall a | Enabled(s, a) ensures s.top <= Next(s, a).top <= s.top + 1 {
      TopMovesUp(s, a);
    }
  }

  lemma TopMovesUp(s: State, a: Action)
    requires IndexInv(s) && Enabled(s, a)
    ensures s.top <= Next(s, a).top <= s.top + 1
  {
    if a.ThiefStep? {
      assert ThiefIndex(s, ThiefOf(s, a.t));
    }
  }

  // ---------- Stranding ----------

  /** The next push, or the push in progress, will put its item below `top`. */
  ghost predicate Hollow(s: State) {
    (s.owner.Resting? || Pushing(s.owner)) && s.bottom < s.top
  }

  /** Only a pop that loses its swap makes the deque hollow. */
  lemma HollowOrigin(s: State, a: Action)
    requires IndexInv(s) && Enabled(s, a) && !Hollow(s)
    ensures Hollow(Next(s, a)) ==>
      a.OwnerStep? && s.owner.PopCas? && s.top == s.owner.ot + 1 && Next(s, a).bottom == s.top - 1
  {
    if a.ThiefStep? {
      assert ThiefIndex(s, ThiefOf(s, a.t));
    }
  }

  /** An item is stranded only by the end of a push into a hollow deque, and the next push is not. */
  lemma StrandedOnlyHollow(s: State, a: Action)
    requires IndexInv(s) && Enabled(s, a) && Next(s, a).stranded != s.stranded
    ensures s.owner.PushInc? && Hollow(s) && s.bottom == s.top - 1 && !Hollow(Next(s, a))
    ensures Next(s, a).stranded == s.stranded + [s.owner.x]
  {
  }

  /** A trace that ends with the end of the push in progress; thieves may move all along. */
  predicate RestOfPush(s: State, actions: seq<Action>)
    requires Shape(s) && IsTrace(s, actions)
    decreases |actions|
  {
    && actions != [] && Pushing(s.owner)
    && if s.owner.PushInc? && actions[0].OwnerStep? then actions == [actions[0]]
       else RestOfPush(Next(s, actions[0]), actions[1..])
  }

  /** During a push, whether bottom is below top does not change, and the push carries its item along. */
  lemma PushStep(s: State, a: Action)
    requires IndexInv(s) && Enabled(s, a) && Pushing(s.owner) && !(s.owner.PushInc? && a.OwnerStep?)
    ensures var r := Next(s, a);
      && Pushing(r.owner) && r.owner.x == s.owner.x && r.stranded == s.stranded
      && r.bottom == s.bottom && (r.bottom < r.top <==> s.bottom < s.top)
  {
    if a.ThiefStep? {
      assert ThiefIndex(s, ThiefOf(s, a.t));
    }
  }

  lemma {:induction false} RestStrands(s: State, actions: seq<Action>)
    requires IndexInv(s) && IsTrace(s, actions) && RestOfPush(s, actions)
    ensures Trace(s, actions).stranded == if s.bottom < s.top then s.stranded + [s.owner.x] else s.stranded
    decreases |actions|
  {
    var r := Next(s, actions[0]);
    if s.owner.PushInc? && actions[0].OwnerStep? {
      assert actions[1..] == [];
    } else {
      PushStep(s, actions[0]);
      NextIndex(s, actions[0]);
      RestStrands(r, actions[1..]);
    }
  }

  /** The exact condition for a push to strand its item, in every interleaving and whatever its growth does: it
      does if and only if bottom is below top when it is called. */
  lemma StrandedIff(s: State, actions: seq<Action>)
    requires IndexInv(s) && s.owner.Resting? && IsTrace(Next(s, CallPush), actions)
    requires RestOfPush(Next(s, CallPush), actions)
    ensures Trace(Next(s, CallPush), actions).stranded ==
      if s.bottom < s.top then s.stranded + [s.pushed] else s.stranded
  {
    NextIndex(s, CallPush);
    RestStrands(Next(s, CallPush), actions);
  }

  // ---------- Growth while nothing has been taken from the front ----------

  /** While top is still 1, every growth meets the growth condition. */
  lemma GrowthOkAtTopOne(s: State, a: Action)
    requires Inv(s) && Enabled(s, a) && s.top == 1
    ensures GrowthOk(s, a)
  {
    if a.OwnerStep? && Growing(s) {
      forall i: int | s.top <= i < s.bottom ensures i / |Tasks(s)| % 2 == 0 {
        assert 0 <= i < |Tasks(s)|;
        assert i / |Tasks(s)| == 0;
      }
    }
  }

  /** A trace in which nothing is taken from the front. */
  predicate TopStaysOne(s: State, actions: seq<Action>)
    requires Shape(s) && IsTrace(s, actions)
    decreases |actions|
  {
    s.top == 1 && (actions == [] || TopStaysOne(Next(s, actions[0]), actions[1..]))
  }

  lemma {:induction false} TopOneIsRun(s: State, actions: seq<Action>)
    requires Inv(s) && IsTrace(s, actions) && TopStaysOne(s, actions)
    ensures IsRun(s, actions) && Run(s, actions) == Trace(s, actions)
    decreases |actions|
  {
    if actions != [] {
      GrowthOkAtTopOne(s, actions[0]);
      NextKeeps(s, actions[0]);
      TopOneIsRun(Next(s, actions[0]), actions[1..]);
    }
  }

  /** As long as top stays 1, the ledger holds and each item is delivered at most once, without any condition on
      the growths. */
  lemma AtMostOnceAtTopOne(data: seq<nat>, actions: seq<Action>)
    requires |data| >= 2 && IsTrace(Init(data), actions) && TopStaysOne(Init(data), actions)
    ensures var r := Trace(Init(data), actions);
      && Ledger(r)
      && (forall m: nat, n: nat | m < n < |r.delivered| :: r.delivered[m] != r.delivered[n])
  {
    InitInv(data);
    TopOneIsRun(Init(data), actions);
    AtMostOnce(data, actions);
  }

  // ---------- The growth condition is exact ----------

  /** A growth keeps the ledger, whatever the new half of the array holds, if and only if it meets the growth
      condition. */
  lemma GrowthKeepsLedgerIff(s: State)
    requires Inv(s) && Ledger(s) && Growing(s)
    ensures (forall junk: seq<nat> | |junk| == |Tasks(s)| :: Ledger(Next(s, OwnerStep(junk))))
      <==> WindowFits(|Tasks(s)|, s.top, s.bottom)
  {
    if WindowFits(|Tasks(s)|, s.top, s.bottom) {
      forall junk: seq<nat> | |junk| == |Tasks(s)| ensures Ledger(Next(s, OwnerStep(junk))) {
        NextLedger(s, OwnerStep(junk));
      }
    } else {
      var i: int :| s.top <= i < s.bottom && i / |Tasks(s)| % 2 != 0;
      var junk := seq(|Tasks(s)|, _ => s.pushed);
      GrowthLosesLedger(s, junk, i);
    }
  }

  /** Filled with a number that was never pushed, the new half puts that number in the window. */
  lemma GrowthLosesLedger(s: State, junk: seq<nat>, i: int)
    requires Inv(s) && Growing(s) && |junk| == |Tasks(s)| && forall n: nat | n < |junk| :: junk[n] == s.pushed
    requires s.top <= i < s.bottom && i / |Tasks(s)| % 2 != 0
    ensures !Ledger(Next(s, OwnerStep(junk)))
  {
    var r := Next(s, OwnerStep(junk));
    DoubledCell(Tasks(s), junk, i);
    assert Live(r)[i - s.top] == s.pushed;
    TimesAt(Live(r), i - s.top);
    assert Places(r, s.pushed) >= 1;
  }
}
