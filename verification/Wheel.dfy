/** The timer wheel as a value: what each operation of the timer does to the 512 slot lists,
    the table of pending timers and the tick counter. */
module Wheel {
  import opened WheelArith

  /** A linked timer; `linked` is history, the tick at which it was put where it is. */
  datatype Entry = Entry(id: nat, expired: int, linked: nat)

  /** How far `update` has got in the current tick. `Cascading(n)`: the near slot of this tick has been
      executed and level `n` is the next to cascade (4: none is left). `Ticked`: the counter has moved on. */
  datatype Phase = Idle | Cascading(next: nat) | Ticked

  /** History of one insertion: the tick at that moment, the first tick whose near slot was still to be
      executed, and the expiry computed for the timer. */
  datatype Birth = Birth(tick: nat, from: nat, expired: int)

  datatype Firing = Firing(id: nat, tick: nat)

  /** `live` are the ids with a non-null pointer in `m_map`; `born`, `fired` and `stopped` are history. */
  datatype State = State(
    jiffies: nat, ids: nat, size: int, slots: seq<seq<Entry>>, live: set<nat>,
    born: map<nat, Birth>, fired: seq<Firing>, stopped: set<nat>)

  function Init(): (w: State) {
    State(0, 0, 0, seq(SLOTS, _ => []), {}, map[], [], {})
  }

  /** The first tick whose near slot is still to be executed. */
  function ExecuteFrom(jiffies: nat, ph: Phase): nat {
    if ph.Cascading? then jiffies + 1 else jiffies
  }

  /** The first tick whose cascade of `level` is still to come. */
  function CascadeFrom(jiffies: nat, ph: Phase, level: nat): nat {
    if ph.Cascading? && level < ph.next then jiffies + 1 else jiffies
  }

  /** The phase after the near slot has been executed at the start of `update`. */
  function AfterExecute(jiffies: nat): Phase {
    Cascading(if jiffies % TVR_SIZE == 0 then 0 else WHEEL_BUCKETS)
  }

  /** The phase after level `level` has been cascaded: on to the next level exactly when the index was 0. */
  function AfterCascade(jiffies: nat, level: nat): Phase
    requires level < WHEEL_BUCKETS
  {
    Cascading(if CascadeIndex(jiffies, level) == 0 then level + 1 else WHEEL_BUCKETS)
  }

  function PushBack(slots: seq<seq<Entry>>, k: nat, e: Entry): (r: seq<seq<Entry>>)
    requires k < |slots|
  {
    slots[k := slots[k] + [e]]
  }

  function PopFront(slots: seq<seq<Entry>>, k: nat): (r: seq<seq<Entry>>)
    requires k < |slots| && slots[k] != []
  {
    slots[k := slots[k][1..]]
  }

  /** `addTimerEntry` and the table update, as done under the list lock at the end of `startTimer`. */
  function Insert(w: State, ph: Phase, id: nat, expired: int): State
    requires |w.slots| == SLOTS
  {
    w.(slots := PushBack(w.slots, SlotFor(w.jiffies, expired), Entry(id, expired, w.jiffies)),
       live := w.live + {id},
       born := w.born[id := Birth(w.jiffies, ExecuteFrom(w.jiffies, ph), expired)])
  }

  function StartTimer(w: State, ticks: int): (r: State)
    requires |w.slots| == SLOTS
  {
    Insert(w.(ids := w.ids + 1, size := w.size + 1), Idle, w.ids, w.jiffies + ticks)
  }

  function StopTimer(w: State, id: nat): (r: State) {
    if id in w.live then
      w.(live := w.live - {id}, size := w.size - 1, stopped := w.stopped + {id})
    else
      w
  }

  /** One turn of the loop of `execute`: unlink the front entry, and call it unless it is canceled. */
  function ExecuteOne(w: State): (r: State)
    requires |w.slots| == SLOTS && w.slots[w.jiffies % TVR_SIZE] != []
    ensures |r.slots| == SLOTS && r.jiffies == w.jiffies && r.born == w.born
  {
    var k := w.jiffies % TVR_SIZE;
    var e := w.slots[k][0];
    var rest := w.(slots := PopFront(w.slots, k));
    if e.id in w.live then
      rest.(live := w.live - {e.id}, size := w.size - 1, fired := w.fired + [Firing(e.id, w.jiffies)])
    else
      rest
  }

  function Execute(w: State): (r: State)
    requires |w.slots| == SLOTS
    ensures |r.slots| == SLOTS && r.slots[w.jiffies % TVR_SIZE] == []
    ensures r.jiffies == w.jiffies && r.ids == w.ids && r.born == w.born && r.stopped == w.stopped
    ensures w.fired <= r.fired
    ensures forall n :: |w.fired| <= n < |r.fired| ==> r.fired[n].tick == w.jiffies
    decreases |w.slots[w.jiffies % TVR_SIZE]|
  {
    if w.slots[w.jiffies % TVR_SIZE] == [] then w else Execute(ExecuteOne(w))
  }

  /** The slot that `update` cascades on a level at the current tick. */
  function CascadeSlot(w: State, level: nat): (k: nat)
    requires level < WHEEL_BUCKETS
    ensures TVR_SIZE <= k < SLOTS && LevelOf(k) == level && IndexOf(k) == CascadeIndex(w.jiffies, level)
  {
    BucketSlot(level, CascadeIndex(w.jiffies, level))
  }

  /** One turn of the loop of `cascade`: unlink the front entry and, unless it is canceled, add it again. */
  function CascadeOne(w: State, level: nat): (r: State)
    requires |w.slots| == SLOTS && level < WHEEL_BUCKETS && w.slots[CascadeSlot(w, level)] != []
    ensures |r.slots| == SLOTS && r == w.(slots := r.slots)
  {
    var k := CascadeSlot(w, level);
    var e := w.slots[k][0];
    var rest := PopFront(w.slots, k);
    if e.id in w.live then
      w.(slots := PushBack(rest, SlotFor(w.jiffies, e.expired), Entry(e.id, e.expired, w.jiffies)))
    else
      w.(slots := rest)
  }

  /** At a tick aligned to the level, no expiry whatever is put back into the slot being cascaded:
      it goes to another level, or to another slot of this one. */
  lemma ReaddedElsewhere(jiffies: nat, level: nat, expired: int)
    requires level < WHEEL_BUCKETS && jiffies % Width(level) == 0
    ensures SlotFor(jiffies, expired) != BucketSlot(level, CascadeIndex(jiffies, level))
  {
    if expired - jiffies >= TVR_SIZE {
      BucketPlacement(jiffies, expired);
      var k := SlotFor(jiffies, expired);
      if LevelOf(k) == level && IndexOf(k) == CascadeIndex(jiffies, level) {
        NextCascadeUnique(jiffies, level, IndexOf(k), BlockStart(Clamped(expired, jiffies), level));
        NextCascadeNow(jiffies, level, IndexOf(k));
      }
    }
  }

  /** The whole of `cascade`, called as `update` calls it: at a tick aligned to the level. */
  function Cascade(w: State, level: nat): (r: State)
    requires |w.slots| == SLOTS && level < WHEEL_BUCKETS && w.jiffies % Width(level) == 0
    ensures |r.slots| == SLOTS && r == w.(slots := r.slots)
    ensures r.slots[CascadeSlot(w, level)] == []
    decreases |w.slots[CascadeSlot(w, level)]|
  {
    if w.slots[CascadeSlot(w, level)] == [] then
      w
    else
      var e := w.slots[CascadeSlot(w, level)][0];
      ReaddedElsewhere(w.jiffies, level, e.expired);
      Cascade(CascadeOne(w, level), level)
  }

  /** Level `level` cascades, and the next level does too when the index was 0. */
  function CascadeChain(w: State, level: nat): (r: State)
    requires |w.slots| == SLOTS && level <= WHEEL_BUCKETS
    requires level < WHEEL_BUCKETS ==> w.jiffies % Width(level) == 0
    ensures |r.slots| == SLOTS && r == w.(slots := r.slots)
    decreases WHEEL_BUCKETS - level
  {
    if level == WHEEL_BUCKETS then
      w
    else
      var r := Cascade(w, level);
      if CascadeIndex(w.jiffies, level) == 0 then
        NextLevelAligned(w.jiffies, level);
        CascadeChain(r, level + 1)
      else
        r
  }

  /** An aligned tick with index 0 is aligned to the next level as well. */
  lemma NextLevelAligned(jiffies: nat, level: nat)
    requires level < WHEEL_BUCKETS && jiffies % Width(level) == 0
    ensures level + 1 < WHEEL_BUCKETS ==>
      (CascadeIndex(jiffies, level) == 0 <==> jiffies % Width(level + 1) == 0)
  {
    match level
    case 0 => AlignedAbove(0x100, jiffies);
    case 1 => AlignedAbove(0x4000, jiffies);
    case 2 => AlignedAbove(0x10_0000, jiffies);
    case _ =>
  }

  function Update(w: State): (r: State)
    requires |w.slots| == SLOTS
    ensures |r.slots| == SLOTS && r.jiffies == w.jiffies + 1
  {
    var executed := Execute(w);
    var cascaded := if w.jiffies % TVR_SIZE == 0 then CascadeChain(executed, 0) else executed;
    Execute(cascaded.(jiffies := w.jiffies + 1))
  }

  datatype Op = Start(ticks: int) | Stop(id: nat) | Tick

  function Apply(w: State, op: Op): (r: State)
    requires |w.slots| == SLOTS
    ensures |r.slots| == SLOTS
  {
    match op
    case Start(ticks) => StartTimer(w, ticks)
    case Stop(id) => StopTimer(w, id)
    case Tick => Update(w)
  }

  /** A run of whole operations from a given state. */
  function Run(w: State, ops: seq<Op>): (r: State)
    requires |w.slots| == SLOTS
    ensures |r.slots| == SLOTS
    decreases |ops|
  {
    if ops == [] then w else Run(Apply(w, ops[0]), ops[1..])
  }
}
