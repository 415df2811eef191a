/** Exclusion without any condition on growths: which push an operation takes is settled by the indices alone, so a
    growth that corrupts the array corrupts the values read and never lets two operations take one push. */
module DequeExclusion {
  import opened Deque
  import opened DequeInvariant
  import opened DequeLedger

  /** The queue of push numbers that the indices describe: still inside, set apart by a pop, taken (in the order
      of delivery), and stranded. */
  datatype Numbers = Numbers(items: seq<nat>, owed: seq<nat>, taken: seq<nat>, lost: seq<nat>)

  /** When an event is possible, whatever values it carries. */
  predicate Possible(q: Numbers, e: Event) {
    match e
    case TakeBack(_) => q.owed == [] && q.items != []
    case FoundEmpty => q.items == []
    case Return(_) => |q.owed| == 1
    case TakeFront(_) => q.items != []
    case _ => true
  }

  /** What an event does to the numbers; the values it has read from the array are not looked at. */
  function Number(q: Numbers, e: Event): Numbers
    requires Possible(q, e)
  {
    match e
    case Append(x) => q.(items := q.items + [x])
    case Stranded(x) => q.(lost := q.lost + [x])
    case TakeBack(_) => q.(items := q.items[..|q.items| - 1], owed := [q.items[|q.items| - 1]])
    case Return(_) => q.(owed := [], taken := q.taken + q.owed)
    case TakeFront(_) => q.(items := q.items[1..], taken := q.taken + [q.items[0]])
    case _ => q
  }

  /** The numbers are as many as the indices say. */
  ghost predicate Sizes(s: State, q: Numbers)
    requires Shape(s)
  {
    && |q.items| == |Abstraction(s).items| && |q.owed| == |Abstraction(s).owed|
    && |q.taken| == |s.delivered| && |q.lost| == |s.stranded|
  }

  lemma PushSizes(s: State, q: Numbers, junk: seq<nat>)
    requires Shape(s) && Bounds(s) && Enabled(s, OwnerStep(junk)) && Sizes(s, q) && Pushing(s.owner)
    ensures Possible(q, EventOf(s, OwnerStep(junk)))
    ensures Sizes(OwnerNext(s, junk), Number(q, EventOf(s, OwnerStep(junk))))
  {
  }

  lemma PopSizes(s: State, q: Numbers, junk: seq<nat>)
    requires Shape(s) && Bounds(s) && Enabled(s, OwnerStep(junk)) && Sizes(s, q) && !Pushing(s.owner)
    ensures Possible(q, EventOf(s, OwnerStep(junk)))
    ensures Sizes(OwnerNext(s, junk), Number(q, EventOf(s, OwnerStep(junk))))
  {
  }

  lemma ThiefSizes(s: State, q: Numbers, t: nat)
    requires IndexInv(s) && Enabled(s, ThiefStep(t)) && Sizes(s, q)
    ensures Possible(q, EventOf(s, ThiefStep(t)))
    ensures Sizes(ThiefNext(s, t), Number(q, EventOf(s, ThiefStep(t))))
  {
    assert ThiefIndex(s, ThiefOf(s, t));
  }

  lemma NextSizes(s: State, q: Numbers, a: Action)
    requires IndexInv(s) && Enabled(s, a) && Sizes(s, q)
    ensures Possible(q, EventOf(s, a)) && Sizes(Next(s, a), Number(q, EventOf(s, a)))
  {
    match a
    case OwnerStep(junk) => if Pushing(s.owner) { PushSizes(s, q, junk); } else { PopSizes(s, q, junk); }
    case ThiefStep(t) => ThiefSizes(s, q, t);
    case _ =>
  }

  function Total(s: State, q: Numbers, x: nat): nat {
    Times(q.items, x) + Times(q.owed, x) + Times(q.taken, x) + Times(q.lost, x) + Times(InPush(s), x)
  }

  /** Each push begun is in exactly one place. */
  ghost predicate Balanced(s: State, q: Numbers) {
    forall x: nat :: Total(s, q, x) == if x < s.pushed then 1 else 0
  }

  /** What a step does to the push in progress, by its event. */
  ghost predicate Begins(s: State, a: Action, e: Event, r: State) {
    && r.pushed == (if a.CallPush? then s.pushed + 1 else s.pushed)
    && (if a.CallPush? then InPush(s) == [] && InPush(r) == [s.pushed] && e.Silent?
        else if e.Append? || e.Stranded? then InPush(s) == [e.x] && InPush(r) == []
        else InPush(r) == InPush(s))
  }

  lemma NextBegins(s: State, a: Action)
    requires IndexInv(s) && Enabled(s, a)
    ensures Begins(s, a, EventOf(s, a), Next(s, a))
  {
  }

  lemma NumberKeepsTotal(s: State, a: Action, q: Numbers, e: Event, r: State, x: nat)
    requires Possible(q, e) && Begins(s, a, e, r)
    ensures Total(r, Number(q, e), x) == Total(s, q, x) + if a.CallPush? && x == s.pushed then 1 else 0
  {
    match e
    case Silent => if a.CallPush? { TimesOfAppend([], s.pushed, x); }
    case Append(y) => TimesOfAppend(q.items, y, x);
    case Stranded(y) => TimesOfAppend(q.lost, y, x);
    case TakeBack(_) =>
      var rest := q.items[..|q.items| - 1];
      assert q.items == rest + [q.items[|q.items| - 1]];
      TimesOfAppend(rest, q.items[|q.items| - 1], x);
    case FoundEmpty =>
    case Return(_) => TimesOfSum(q.taken, q.owed, x);
    case TakeFront(_) => TimesOfAppend(q.taken, q.items[0], x);
  }

  lemma NextBalanced(s: State, q: Numbers, a: Action)
    requires IndexInv(s) && Enabled(s, a) && Possible(q, EventOf(s, a)) && Balanced(s, q)
    ensures Balanced(Next(s, a), Number(q, EventOf(s, a)))
  {
    var e := EventOf(s, a);
    var r := Next(s, a);
    NextBegins(s, a);
    forall x: nat ensures Total(r, Number(q, e), x) == if x < r.pushed then 1 else 0 {
      NumberKeepsTotal(s, a, q, e, r, x);
      assert Total(s, q, x) == if x < s.pushed then 1 else 0;
    }
  }

  /** The numbers after a trace. An event that is not possible would leave them; there is none. */
  function Numbering(s: State, q: Numbers, actions: seq<Action>): Numbers
    requires Shape(s) && IsTrace(s, actions)
    decreases |actions|
  {
    if actions == [] then q
    else
      var e := EventOf(s, actions[0]);
      Numbering(Next(s, actions[0]), if Possible(q, e) then Number(q, e) else q, actions[1..])
  }

  lemma {:induction false} TraceNumbers(s: State, q: Numbers, actions: seq<Action>)
    requires IndexInv(s) && IsTrace(s, actions) && Sizes(s, q) && Balanced(s, q)
    ensures Sizes(Trace(s, actions), Numbering(s, q, actions)) && Balanced(Trace(s, actions), Numbering(s, q, actions))
    decreases |actions|
  {
    if actions != [] {
      var a := actions[0];
      NextSizes(s, q, a);
      NextBalanced(s, q, a);
      NextIndex(s, a);
      TraceNumbers(Next(s, a), Number(q, EventOf(s, a)), actions[1..]);
    }
  }

  function NoNumbers(): Numbers {
    Numbers([], [], [], [])
  }

  lemma InitNumbers(data: seq<nat>)
    requires |data| >= 2
    ensures IndexInv(Init(data)) && Sizes(Init(data), NoNumbers()) && Balanced(Init(data), NoNumbers())
  {
    InitInv(data);
  }

  lemma TakenOnce(s: State, q: Numbers)
    requires Balanced(s, q)
    ensures forall m: nat | m < |q.taken| :: q.taken[m] < s.pushed
    ensures forall m: nat, n: nat | m < n < |q.taken| :: q.taken[m] != q.taken[n]
  {
    forall m: nat | m < |q.taken| ensures q.taken[m] < s.pushed {
      TimesAt(q.taken, m);
      assert Total(s, q, q.taken[m]) >= 1;
    }
    forall x: nat ensures Times(q.taken, x) <= 1 {
      assert Total(s, q, x) == if x < s.pushed then 1 else 0;
    }
    forall m: nat, n: nat | m < n < |q.taken| ensures q.taken[m] != q.taken[n] {
      if q.taken[m] == q.taken[n] {
        TimesTwice(q.taken, m, n);
      }
    }
  }

  /** In every trace, whatever its growths do: the deliveries take pushes that were begun, each at most once. */
  lemma EachPushTakenOnce(data: seq<nat>, actions: seq<Action>)
    requires |data| >= 2 && IsTrace(Init(data), actions)
    ensures var r := Trace(Init(data), actions);
      var taken := Numbering(Init(data), NoNumbers(), actions).taken;
      && |taken| == |r.delivered|
      && (forall m: nat | m < |taken| :: taken[m] < r.pushed)
      && (forall m: nat, n: nat | m < n < |taken| :: taken[m] != taken[n])
  {
    InitNumbers(data);
    TraceNumbers(Init(data), NoNumbers(), actions);
    TakenOnce(Trace(Init(data), actions), Numbering(Init(data), NoNumbers(), actions));
  }

  /** The numbers and the values agree. */
  ghost predicate Agrees(s: State, q: Numbers)
    requires Shape(s)
  {
    Abstraction(s) == Abstract(q.items, q.owed) && q.taken == s.delivered && q.lost == s.stranded
  }

  lemma NextAgrees(s: State, q: Numbers, a: Action)
    requires Inv(s) && Enabled(s, a) && GrowthOk(s, a) && Agrees(s, q)
    ensures Possible(q, EventOf(s, a)) && Agrees(Next(s, a), Number(q, EventOf(s, a)))
  {
    Refinement(s, a);
    NextBooks(s, a);
  }

  /** While the growths meet the growth condition, what is delivered is what is taken. */
  lemma {:induction false} RunAgrees(s: State, q: Numbers, actions: seq<Action>)
    requires Inv(s) && IsRun(s, actions) && IsTrace(s, actions) && Agrees(s, q)
    ensures Agrees(Run(s, actions), Numbering(s, q, actions))
    decreases |actions|
  {
    if actions != [] {
      NextKeeps(s, actions[0]);
      NextAgrees(s, q, actions[0]);
      RunAgrees(Next(s, actions[0]), Number(q, EventOf(s, actions[0])), actions[1..]);
    }
  }

  /** In a run whose growths meet the growth condition, the values delivered are the pushes taken. */
  lemma TakenIsDelivered(data: seq<nat>, actions: seq<Action>)
    requires |data| >= 2 && IsTrace(Init(data), actions)
    ensures IsRun(Init(data), actions) ==>
      Numbering(Init(data), NoNumbers(), actions).taken == Trace(Init(data), actions).delivered
  {
    if IsRun(Init(data), actions) {
      RunIsTrace(Init(data), actions);
      InitInv(data);
      assert Abstraction(Init(data)) == Abstract([], []);
      RunAgrees(Init(data), NoNumbers(), actions);
    }
  }
}
