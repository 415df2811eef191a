/** The work-stealing deque as a step system: one owner pushes and pops, any number of thieves steal, and a
    step is one load, store or compare-and-swap of a shared word. An item is represented by the number of its
    push, since the queue only copies items. */
module Deque {

  /** The owner, by the next shared access of its operation. `ob` and `ot` are the bottom and the top it has
      loaded, `v` the element it has read. */
  datatype Owner =
    | Resting
    | PushBottom(x: nat) | PushTop(x: nat, ob: int) | PushCheck(x: nat, ob: int, ot: int)
    | PushPut(x: nat, ob: int) | PushInc(x: nat, ob: int)
    | PopDec | PopTop | PopCompare(ot: int) | PopRestore(ot: int) | PopGet(ot: int)
    | PopTest(ot: int, v: nat) | PopCas(ot: int, v: nat) | PopStore(ot: int, v: nat)

  /** A thief, likewise; `g` is the array it holds a pointer to. */
  datatype Thief =
    | Absent
    | StealTop | StealBottom(i: int) | StealArray(i: int) | StealGet(i: int, g: nat) | StealCas(i: int, v: nat)

  /** `arrays` are all the circular arrays there have been; the last is `m_tasks`. The other fields after
      `thieves` are history: the number of pushes begun, the items returned by pops and steals, and the items
      that a push left below `top`. */
  datatype State = State(
    bottom: int, top: int, arrays: seq<seq<nat>>, owner: Owner, thieves: map<nat, Thief>,
    pushed: nat, delivered: seq<nat>, stranded: seq<nat>)

  /** `junk` is what the allocation of a doubled array finds in its upper half. */
  datatype Action = CallPush | CallPop | OwnerStep(junk: seq<nat>) | CallSteal(t: nat) | ThiefStep(t: nat)

  function Init(data: seq<nat>): State {
    State(1, 1, [data], Resting, map[], 0, [], [])
  }

  function Tasks(s: State): seq<nat>
    requires s.arrays != []
  {
    s.arrays[|s.arrays| - 1]
  }

  function ThiefOf(s: State, t: nat): Thief {
    if t in s.thieves then s.thieves[t] else Absent
  }

  /** `CirculQueue::get` and `put`: an index is taken modulo the capacity. */
  function Cell(data: seq<nat>, i: int): nat
    requires data != []
  {
    data[i % |data|]
  }

  function Put(data: seq<nat>, i: int, x: nat): (r: seq<nat>)
    requires data != []
  {
    data[i % |data| := x]
  }

  /** `new_double_capacity`: the copy goes by physical slot. */
  function Doubled(data: seq<nat>, junk: seq<nat>): (r: seq<nat>)
    requires |junk| == |data|
  {
    data + junk
  }

  /** The step in which a push replaces the array. */
  predicate Growing(s: State)
    requires s.arrays != []
  {
    s.owner.PushCheck? && s.owner.ob > s.owner.ot && s.owner.ob - s.owner.ot >= |Tasks(s)| - 1
  }

  /** No index in the window has the bit of the capacity set. */
  ghost predicate WindowFits(capacity: nat, top: int, bottom: int)
    requires capacity > 0
  {
    forall i: int {:trigger i / capacity} | top <= i < bottom :: i / capacity % 2 == 0
  }

  predicate Enabled(s: State, a: Action)
    requires s.arrays != []
  {
    match a
    case CallPush => s.owner.Resting?
    case CallPop => s.owner.Resting?
    case OwnerStep(junk) => !s.owner.Resting? && (Growing(s) ==> |junk| == |Tasks(s)|)
    case CallSteal(t) => ThiefOf(s, t).Absent?
    case ThiefStep(t) =>
      !ThiefOf(s, t).Absent? && (ThiefOf(s, t).StealGet? ==> ThiefOf(s, t).g < |s.arrays|)
  }

  ghost predicate Shape(s: State) {
    s.arrays != [] && forall g: nat | g < |s.arrays| :: s.arrays[g] != []
  }

  function OwnerNext(s: State, junk: seq<nat>): (r: State)
    requires Shape(s) && Enabled(s, OwnerStep(junk))
    ensures Shape(r)
  {
    var last := |s.arrays| - 1;
    match s.owner
    // push
    case PushBottom(x) => s.(owner := PushTop(x, s.bottom))
    case PushTop(x, ob) => s.(owner := PushCheck(x, ob, s.top))
    case PushCheck(x, ob, ot) =>
      if Growing(s) then
        s.(owner := PushPut(x, ob), arrays := s.arrays + [Doubled(Tasks(s), junk)])
      else
        s.(owner := PushPut(x, ob))
    case PushPut(x, ob) =>
      s.(owner := PushInc(x, ob), arrays := s.arrays[last := Put(Tasks(s), ob, x)])
    case PushInc(x, ob) =>
      s.(owner := Resting, bottom := s.bottom + 1,
         stranded := if s.bottom < s.top then s.stranded + [x] else s.stranded)
    // pop
    case PopDec => s.(owner := PopTop, bottom := s.bottom - 1)
    case PopTop => s.(owner := PopCompare(s.top))
    case PopCompare(ot) => s.(owner := if s.bottom < ot then PopRestore(ot) else PopGet(ot))
    case PopRestore(ot) => s.(owner := Resting, bottom := ot)
    case PopGet(ot) => s.(owner := PopTest(ot, Cell(Tasks(s), s.bottom)))
    case PopTest(ot, v) =>
      if s.bottom > ot then s.(owner := Resting, delivered := s.delivered + [v]) else s.(owner := PopCas(ot, v))
    case PopCas(ot, v) =>
      if s.top == ot then s.(owner := PopStore(ot, v), top := ot + 1) else s.(owner := Resting)
    case PopStore(ot, v) => s.(owner := Resting, bottom := ot + 1, delivered := s.delivered + [v])
    case Resting => s
  }

  function ThiefNext(s: State, t: nat): (r: State)
    requires Shape(s) && Enabled(s, ThiefStep(t))
    ensures Shape(r)
  {
    match ThiefOf(s, t)
    case StealTop => s.(thieves := s.thieves[t := StealBottom(s.top)])
    case StealBottom(i) => s.(thieves := s.thieves[t := if s.bottom <= i then Absent else StealArray(i)])
    case StealArray(i) => s.(thieves := s.thieves[t := StealGet(i, |s.arrays| - 1)])
    case StealGet(i, g) => s.(thieves := s.thieves[t := StealCas(i, Cell(s.arrays[g], i))])
    case StealCas(i, v) =>
      if s.top == i then
        s.(thieves := s.thieves[t := Absent], top := i + 1, delivered := s.delivered + [v])
      else
        s.(thieves := s.thieves[t := Absent])
    case Absent => s
  }

  function Next(s: State, a: Action): (r: State)
    requires Shape(s) && Enabled(s, a)
    ensures Shape(r)
  {
    match a
    case CallPush => s.(owner := PushBottom(s.pushed), pushed := s.pushed + 1)
    case CallPop => s.(owner := PopDec)
    case OwnerStep(junk) => OwnerNext(s, junk)
    case CallSteal(t) => s.(thieves := s.thieves[t := StealTop])
    case ThiefStep(t) => ThiefNext(s, t)
  }

  /** The growth condition: an array is replaced only while the window survives the copy. */
  ghost predicate GrowthOk(s: State, a: Action)
    requires Shape(s)
  {
    a.OwnerStep? && Growing(s) ==> WindowFits(|Tasks(s)|, s.top, s.bottom)
  }

  /** A run of enabled steps in which every growth meets the growth condition. */
  ghost predicate IsRun(s: State, actions: seq<Action>)
    requires Shape(s)
    decreases |actions|
  {
    actions == [] ||
    (Enabled(s, actions[0]) && GrowthOk(s, actions[0]) && IsRun(Next(s, actions[0]), actions[1..]))
  }

  function Run(s: State, actions: seq<Action>): (r: State)
    requires Shape(s) && IsRun(s, actions)
    ensures Shape(r)
    decreases |actions|
  {
    if actions == [] then s else Run(Next(s, actions[0]), actions[1..])
  }

  /** Any sequence of enabled steps, whatever its growths do to the window. */
  predicate IsTrace(s: State, actions: seq<Action>)
    requires Shape(s)
    decreases |actions|
  {
    actions == [] || (Enabled(s, actions[0]) && IsTrace(Next(s, actions[0]), actions[1..]))
  }

  function Trace(s: State, actions: seq<Action>): (r: State)
    requires Shape(s) && IsTrace(s, actions)
    ensures Shape(r)
    decreases |actions|
  {
    if actions == [] then s else Trace(Next(s, actions[0]), actions[1..])
  }

  lemma {:induction false} RunIsTrace(s: State, actions: seq<Action>)
    requires Shape(s) && IsRun(s, actions)
    ensures IsTrace(s, actions) && Trace(s, actions) == Run(s, actions)
    decreases |actions|
  {
    if actions != [] {
      RunIsTrace(Next(s, actions[0]), actions[1..]);
    }
  }
}
