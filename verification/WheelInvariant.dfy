/** What every section of the timer keeps. The heart is that the tick at which an entry will be executed is
    a function of where it is linked, and that no section changes it: an entry is born with its firing tick. */
module WheelInvariant {
  import opened WheelArith
  import opened Wheel

  /** The tick at which a timer fires, from what was known when it was inserted. */
  function FiringTick(b: Birth): int {
    if b.expired < b.tick then
      NextExecution(b.from, b.tick % TVR_SIZE)
    else if b.expired - b.tick < TVR_SIZE then
      NextExecution(b.from, b.expired % TVR_SIZE)
    else
      CascadedTick(b.expired)
  }

  /** An entry that comes down from a bucket fires at its expiry, unless that is a multiple of 256: the near
      slot of that tick has been executed before the cascade, and comes round again 256 ticks later. */
  function CascadedTick(expired: int): int {
    if expired % TVR_SIZE == 0 then expired + TVR_SIZE else expired
  }

  /** The tick at which an entry linked in slot `k` will be executed. */
  function DueTick(jiffies: nat, ph: Phase, k: nat, expired: int): int
    requires k < SLOTS
  {
    if k < TVR_SIZE then NextExecution(ExecuteFrom(jiffies, ph), k) else CascadedTick(expired)
  }

  /** Where an entry may be linked. A bucket slot is next reached at the start of the block of the expiry or,
      when the expiry was too far ahead at the moment of linking, of the clamped expiry in the top bucket. */
  ghost predicate Placed(jiffies: nat, ph: Phase, k: nat, expired: int, linked: nat)
    requires k < SLOTS
  {
    k >= TVR_SIZE ==>
      var level := LevelOf(k);
      var t := NextCascade(CascadeFrom(jiffies, ph, level), level, IndexOf(k));
      && t == BlockStart(Clamped(expired, linked), level) && t <= expired
      && (expired - linked > MAX_TVAL ==> level == 3)
  }

  ghost predicate EntryOk(w: State, ph: Phase, k: nat, e: Entry)
    requires k < SLOTS
  {
    && e.id in w.born
    && w.born[e.id].expired == e.expired
    && (e.id in w.live || e.id in w.stopped)
    && w.born[e.id].tick <= e.linked <= w.jiffies
    && Placed(w.jiffies, ph, k, e.expired, e.linked)
    && DueTick(w.jiffies, ph, k, e.expired) == FiringTick(w.born[e.id])
  }

  ghost predicate EntriesOk(w: State, ph: Phase)
    requires |w.slots| == SLOTS
  {
    forall k: nat, n: nat {:trigger EntryOk(w, ph, k, w.slots[k][n])} | k < SLOTS && n < |w.slots[k]| ::
      EntryOk(w, ph, k, w.slots[k][n])
  }

  /** No id is linked twice, in one slot or in two. */
  ghost predicate Unique(slots: seq<seq<Entry>>) {
    forall k1: nat, n1: nat, k2: nat, n2: nat
      | k1 < |slots| && n1 < |slots[k1]| && k2 < |slots| && n2 < |slots[k2]| && slots[k1][n1].id == slots[k2][n2].id
      :: k1 == k2 && n1 == n2
  }

  ghost predicate Linked(slots: seq<seq<Entry>>, id: nat) {
    exists k: nat, n: nat :: k < |slots| && n < |slots[k]| && slots[k][n].id == id
  }

  ghost predicate WasFired(fired: seq<Firing>, id: nat) {
    exists n: nat :: n < |fired| && fired[n].id == id
  }

  /** Every inserted timer is pending, stopped or fired, and only one of these; it fired once, on its tick. */
  ghost predicate HistoryOk(w: State) {
    && w.live !! w.stopped
    && w.live + w.stopped <= w.born.Keys
    && (forall id | id in w.born :: id in w.live || id in w.stopped || WasFired(w.fired, id))
    && (forall n: nat | n < |w.fired| ::
          && w.fired[n].id in w.born
          && w.fired[n].id !in w.live + w.stopped
          && w.fired[n].tick == FiringTick(w.born[w.fired[n].id])
          && w.fired[n].tick <= w.jiffies)
    && (forall m: nat, n: nat | m < n < |w.fired| :: w.fired[m].id != w.fired[n].id)
  }

  ghost predicate PhaseOk(jiffies: nat, ph: Phase) {
    ph.Cascading? ==> ph.next <= WHEEL_BUCKETS && (ph.next < WHEEL_BUCKETS ==> jiffies % Width(ph.next) == 0)
  }

  ghost predicate Inv(w: State, ph: Phase) {
    && |w.slots| == SLOTS
    && PhaseOk(w.jiffies, ph)
    && EntriesOk(w, ph)
    && Unique(w.slots)
    && (forall id | id in w.live :: Linked(w.slots, id))
    && HistoryOk(w)
  }

  // ---------- Linking and unlinking ----------

  lemma PopUnique(slots: seq<seq<Entry>>, k: nat)
    requires Unique(slots) && k < |slots| && slots[k] != []
    ensures Unique(PopFront(slots, k)) && !Linked(PopFront(slots, k), slots[k][0].id)
    ensures forall id | Linked(slots, id) && id != slots[k][0].id :: Linked(PopFront(slots, k), id)
  {
    var r := PopFront(slots, k);
    forall k1: nat, n1: nat | k1 < |r| && n1 < |r[k1]|
      ensures r[k1][n1] == slots[k1][if k1 == k then n1 + 1 else n1] && r[k1][n1].id != slots[k][0].id
    {
    }
    forall k1: nat, n1: nat, k2: nat, n2: nat
      | k1 < |r| && n1 < |r[k1]| && k2 < |r| && n2 < |r[k2]| && r[k1][n1].id == r[k2][n2].id
      ensures k1 == k2 && n1 == n2
    {
      assert slots[k1][if k1 == k then n1 + 1 else n1].id == slots[k2][if k2 == k then n2 + 1 else n2].id;
    }
    forall id | Linked(slots, id) && id != slots[k][0].id ensures Linked(r, id) {
      var k1: nat, n1: nat :| k1 < |slots| && n1 < |slots[k1]| && slots[k1][n1].id == id;
      assert r[k1][if k1 == k then n1 - 1 else n1].id == id;
    }
  }

  lemma PushUnique(slots: seq<seq<Entry>>, k: nat, e: Entry)
    requires Unique(slots) && k < |slots| && !Linked(slots, e.id)
    ensures Unique(PushBack(slots, k, e)) && Linked(PushBack(slots, k, e), e.id)
    ensures forall id | Linked(slots, id) :: Linked(PushBack(slots, k, e), id)
  {
    var r := PushBack(slots, k, e);
    forall k1: nat, n1: nat | k1 < |r| && n1 < |r[k1]|
      ensures (k1 == k && n1 == |slots[k]| && r[k1][n1] == e)
        || (n1 < |slots[k1]| && r[k1][n1] == slots[k1][n1] && r[k1][n1].id != e.id)
    {
    }
    assert r[k][|slots[k]|].id == e.id;
    forall id | Linked(slots, id) ensures Linked(r, id) {
      var k1: nat, n1: nat :| k1 < |slots| && n1 < |slots[k1]| && slots[k1][n1].id == id;
      assert r[k1][n1].id == id;
    }
  }

  /** Unlinking keeps the property of each remaining entry. */
  lemma PopEntries(w: State, r: State, ph: Phase, k: nat)
    requires |w.slots| == SLOTS && k < SLOTS && w.slots[k] != [] && EntriesOk(w, ph)
    requires r.slots == PopFront(w.slots, k) && r.jiffies == w.jiffies && r.born == w.born
    requires forall id | id != w.slots[k][0].id && (id in w.live || id in w.stopped) :: id in r.live || id in r.stopped
    requires Unique(w.slots)
    ensures EntriesOk(r, ph)
  {
    PopUnique(w.slots, k);
    forall k1: nat, n1: nat | k1 < SLOTS && n1 < |r.slots[k1]| ensures EntryOk(r, ph, k1, r.slots[k1][n1]) {
      var n := if k1 == k then n1 + 1 else n1;
      assert r.slots[k1][n1] == w.slots[k1][n];
      assert EntryOk(w, ph, k1, w.slots[k1][n]);
      assert Linked(r.slots, r.slots[k1][n1].id);
    }
  }

  // ---------- The arithmetic of one insertion ----------

  /** Linking at any phase puts the entry where it will be executed at its firing tick. */
  lemma InsertedRight(jiffies: nat, ph: Phase, expired: int)
    requires PhaseOk(jiffies, ph)
    ensures var k := SlotFor(jiffies, expired);
      && Placed(jiffies, ph, k, expired, jiffies)
      && DueTick(jiffies, ph, k, expired) == FiringTick(Birth(jiffies, ExecuteFrom(jiffies, ph), expired))
  {
    if expired - jiffies >= TVR_SIZE {
      BucketPlaced(jiffies, ph, expired);
    }
  }

  lemma BucketPlaced(jiffies: nat, ph: Phase, expired: int)
    requires PhaseOk(jiffies, ph) && expired - jiffies >= TVR_SIZE
    ensures SlotFor(jiffies, expired) >= TVR_SIZE
    ensures Placed(jiffies, ph, SlotFor(jiffies, expired), expired, jiffies)
  {
    BucketPlacement(jiffies, expired);
    var k := SlotFor(jiffies, expired);
    var level := LevelOf(k);
    NextCascadeUnique(CascadeFrom(jiffies, ph, level), level, IndexOf(k), BlockStart(Clamped(expired, jiffies), level));
  }

  /** An entry taken out of a bucket at a tick that reaches its slot keeps its tick when added again. */
  lemma ReaddedRight(jiffies: nat, level: nat, expired: int)
    requires level < WHEEL_BUCKETS && jiffies % Width(level) == 0 && jiffies <= expired
    ensures var k := SlotFor(jiffies, expired);
      && Placed(jiffies, Cascading(level), k, expired, jiffies)
      && DueTick(jiffies, Cascading(level), k, expired) == CascadedTick(expired)
  {
    assert jiffies % TVR_SIZE == 0 by { WidthMultiple(jiffies, level); }
    if expired - jiffies >= TVR_SIZE {
      BucketPlaced(jiffies, Cascading(level), expired);
    }
  }

  /** Where a cascade puts the entries it takes down: one that is not clamped goes to a lower level or to the near
      slots; a clamped one is in the top bucket, and goes to another slot. */
  lemma ReaddedLower(jiffies: nat, level: nat, expired: int, linked: nat)
    requires level < WHEEL_BUCKETS && jiffies % Width(level) == 0
    requires Placed(jiffies, Cascading(level), BucketSlot(level, CascadeIndex(jiffies, level)), expired, linked)
    ensures var k := SlotFor(jiffies, expired);
      && k != BucketSlot(level, CascadeIndex(jiffies, level))
      && (expired - linked <= MAX_TVAL ==> k < TVR_SIZE || LevelOf(k) < level)
      && (expired - linked > MAX_TVAL ==> level == 3)
  {
    ReaddedElsewhere(jiffies, level, expired);
    NextCascadeNow(jiffies, level, CascadeIndex(jiffies, level));
    if expired - linked <= MAX_TVAL {
      NearLevels(jiffies, level, expired);
    }
  }

  /** An expiry within one block of a level belongs below that level. */
  lemma NearLevels(jiffies: nat, level: nat, expired: int)
    requires level < WHEEL_BUCKETS && jiffies == BlockStart(expired, level) && jiffies <= expired
    ensures var k := SlotFor(jiffies, expired); k < TVR_SIZE || LevelOf(k) < level
  {
    assert 0 <= expired - jiffies < Width(level);
  }

  lemma WidthMultiple(t: nat, level: nat)
    requires level < WHEEL_BUCKETS && t % Width(level) == 0
    ensures t % TVR_SIZE == 0
  {
    match level
    case 0 =>
    case 1 =>
    case 2 =>
    case _ =>
  }

  // ---------- The sections ----------

  lemma InitInv()
    ensures Inv(Init(), Idle)
  {
  }

  lemma InsertKeeps(w: State, ph: Phase, id: nat, expired: int)
    requires Inv(w, ph) && id !in w.born
    ensures Inv(Insert(w, ph, id, expired), ph)
  {
    var r := Insert(w, ph, id, expired);
    var k := SlotFor(w.jiffies, expired);
    InsertedRight(w.jiffies, ph, expired);
    assert !Linked(w.slots, id) by {
      forall k1: nat, n1: nat | k1 < SLOTS && n1 < |w.slots[k1]| ensures w.slots[k1][n1].id != id {
        assert EntryOk(w, ph, k1, w.slots[k1][n1]);
      }
    }
    PushUnique(w.slots, k, Entry(id, expired, w.jiffies));
    forall k1: nat, n1: nat | k1 < SLOTS && n1 < |r.slots[k1]| ensures EntryOk(r, ph, k1, r.slots[k1][n1]) {
      if k1 == k && n1 == |w.slots[k]| {
        assert r.slots[k1][n1] == Entry(id, expired, w.jiffies);
      } else {
        assert r.slots[k1][n1] == w.slots[k1][n1];
        assert EntryOk(w, ph, k1, w.slots[k1][n1]);
      }
    }
  }

  /** The invariant does not look at the counters of ids and of pending timers. */
  lemma CountersApart(w: State, v: State, ph: Phase)
    requires Inv(w, ph) && v == w.(ids := v.ids, size := v.size)
    ensures Inv(v, ph)
  {
    forall k: nat, n: nat | k < SLOTS && n < |v.slots[k]| ensures EntryOk(v, ph, k, v.slots[k][n]) {
      assert EntryOk(w, ph, k, w.slots[k][n]);
    }
  }

  lemma StopKeeps(w: State, ph: Phase, id: nat)
    requires Inv(w, ph)
    ensures Inv(StopTimer(w, id), ph)
  {
    var r := StopTimer(w, id);
    forall k: nat, n: nat | k < SLOTS && n < |r.slots[k]| ensures EntryOk(r, ph, k, r.slots[k][n]) {
      assert EntryOk(w, ph, k, w.slots[k][n]);
    }
  }

  /** While the near slot of the current tick may be executed, one turn of `execute` keeps the invariant. */
  lemma ExecuteOneKeeps(w: State, ph: Phase)
    requires Inv(w, ph) && !ph.Cascading? && w.slots[w.jiffies % TVR_SIZE] != []
    ensures Inv(ExecuteOne(w), ph)
  {
    var k := w.jiffies % TVR_SIZE;
    var e := w.slots[k][0];
    var r := ExecuteOne(w);
    assert EntryOk(w, ph, k, e);
    PopUnique(w.slots, k);
    PopEntries(w, r, ph, k);
    DueNow(w.jiffies, ph, e.expired);
    FiringHistory(w, r, e.id);
  }

  /** An entry in the near slot of the current tick is due at this tick. */
  lemma DueNow(jiffies: nat, ph: Phase, expired: int)
    requires !ph.Cascading?
    ensures DueTick(jiffies, ph, jiffies % TVR_SIZE, expired) == jiffies
  {
  }

  /** A callback at its tick turns a pending timer into a fired one. */
  lemma FiringHistory(w: State, r: State, id: nat)
    requires HistoryOk(w) && id in w.born && r.born == w.born && r.stopped == w.stopped && r.jiffies == w.jiffies
    requires id in w.live ==> FiringTick(w.born[id]) == w.jiffies
    requires r.live == w.live - {id} && r.fired == if id in w.live then w.fired + [Firing(id, w.jiffies)] else w.fired
    ensures HistoryOk(r)
  {
    if id in w.live {
      assert r.fired[|w.fired|].id == id;
      forall i | i in r.born ensures i in r.live || i in r.stopped || WasFired(r.fired, i) {
        if WasFired(w.fired, i) {
          var n: nat :| n < |w.fired| && w.fired[n].id == i;
          assert r.fired[n].id == i;
        }
      }
    } else {
      assert r.live == w.live;
    }
  }

  lemma {:induction false} ExecuteKeeps(w: State, ph: Phase)
    requires Inv(w, ph) && !ph.Cascading?
    ensures Inv(Execute(w), ph)
    decreases |w.slots[w.jiffies % TVR_SIZE]|
  {
    if w.slots[w.jiffies % TVR_SIZE] != [] {
      ExecuteOneKeeps(w, ph);
      ExecuteKeeps(ExecuteOne(w), ph);
    }
  }

  /** Once the near slot of the tick is empty, nothing waits for this tick any more. */
  lemma LeaveExecute(w: State)
    requires Inv(w, Idle) && w.slots[w.jiffies % TVR_SIZE] == []
    ensures Inv(w, AfterExecute(w.jiffies))
  {
    var ph := AfterExecute(w.jiffies);
    forall k: nat, n: nat | k < SLOTS && n < |w.slots[k]| ensures EntryOk(w, ph, k, w.slots[k][n]) {
      assert EntryOk(w, Idle, k, w.slots[k][n]);
      LeaveExecutePlace(w.jiffies, k, w.slots[k][n].expired, w.slots[k][n].linked);
    }
  }

  lemma LeaveExecutePlace(jiffies: nat, k: nat, expired: int, linked: nat)
    requires k < SLOTS && k != jiffies % TVR_SIZE
    ensures var ph := AfterExecute(jiffies);
      && (Placed(jiffies, Idle, k, expired, linked) ==> Placed(jiffies, ph, k, expired, linked))
      && DueTick(jiffies, ph, k, expired) == DueTick(jiffies, Idle, k, expired)
  {
    if k < TVR_SIZE {
      NextExecutionStable(jiffies, k);
    } else if jiffies % TVR_SIZE != 0 {
      Unaligned(jiffies, 0, LevelOf(k), IndexOf(k));
    }
  }

  lemma NextExecutionStable(from: nat, k: nat)
    requires k < TVR_SIZE && k != from % TVR_SIZE
    ensures NextExecution(from + 1, k) == NextExecution(from, k)
  {
  }

  lemma {:induction false} AlignedBelow(t: nat, level: nat, higher: nat)
    requires level <= higher < WHEEL_BUCKETS && t % Width(higher) == 0
    ensures t % Width(level) == 0
  {
    if level < higher {
      var q := t / Width(higher);
      match higher {
        case 1 => assert t == 0x100 * (64 * q);
        case 2 => assert t == 0x4000 * (64 * q);
        case _ => assert t == 0x10_0000 * (64 * q);
      }
      AlignedBelow(t, level, higher - 1);
    }
  }

  /** A tick not aligned to a level reaches no slot of that level or of a higher one. */
  lemma Unaligned(t: nat, level: nat, higher: nat, i: nat)
    requires level <= higher < WHEEL_BUCKETS && i < TVN_SIZE && t % Width(level) != 0
    ensures NextCascade(t + 1, higher, i) == NextCascade(t, higher, i)
  {
    if t % Width(higher) == 0 {
      AlignedBelow(t, level, higher);
    }
    NextCascadeStable(t, higher, i);
  }

  lemma CascadeOneKeeps(w: State, level: nat)
    requires level < WHEEL_BUCKETS && Inv(w, Cascading(level)) && w.slots[CascadeSlot(w, level)] != []
    ensures Inv(CascadeOne(w, level), Cascading(level))
  {
    var ph := Cascading(level);
    var k := CascadeSlot(w, level);
    var e := w.slots[k][0];
    var r := CascadeOne(w, level);
    var rest := w.(slots := PopFront(w.slots, k));
    assert EntryOk(w, ph, k, e);
    PopUnique(w.slots, k);
    PopEntries(w, rest, ph, k);
    if e.id in w.live {
      NextCascadeNow(w.jiffies, level, IndexOf(k));
      ReaddedRight(w.jiffies, level, e.expired);
      var k' := SlotFor(w.jiffies, e.expired);
      var e' := Entry(e.id, e.expired, w.jiffies);
      PushUnique(rest.slots, k', e');
      forall k1: nat, n1: nat | k1 < SLOTS && n1 < |r.slots[k1]| ensures EntryOk(r, ph, k1, r.slots[k1][n1]) {
        if k1 == k' && n1 == |rest.slots[k']| {
          assert r.slots[k1][n1] == e';
        } else {
          assert r.slots[k1][n1] == rest.slots[k1][n1];
          assert EntryOk(rest, ph, k1, rest.slots[k1][n1]);
        }
      }
    }
  }

  lemma {:induction false} CascadeKeeps(w: State, level: nat)
    requires level < WHEEL_BUCKETS && Inv(w, Cascading(level))
    ensures Inv(Cascade(w, level), Cascading(level))
    decreases |w.slots[CascadeSlot(w, level)]|
  {
    if w.slots[CascadeSlot(w, level)] != [] {
      var e := w.slots[CascadeSlot(w, level)][0];
      ReaddedElsewhere(w.jiffies, level, e.expired);
      CascadeOneKeeps(w, level);
      CascadeKeeps(CascadeOne(w, level), level);
    }
  }

  lemma LeaveCascade(w: State, level: nat)
    requires level < WHEEL_BUCKETS && Inv(w, Cascading(level)) && w.slots[CascadeSlot(w, level)] == []
    ensures Inv(w, AfterCascade(w.jiffies, level))
  {
    var ph := AfterCascade(w.jiffies, level);
    NextLevelAligned(w.jiffies, level);
    forall k: nat, n: nat | k < SLOTS && n < |w.slots[k]| ensures EntryOk(w, ph, k, w.slots[k][n]) {
      assert EntryOk(w, Cascading(level), k, w.slots[k][n]);
      if k >= TVR_SIZE && LevelOf(k) == level {
        assert k != CascadeSlot(w, level);
        NextCascadeStable(w.jiffies, level, IndexOf(k));
      } else if k >= TVR_SIZE && LevelOf(k) > level && CascadeIndex(w.jiffies, level) != 0 {
        Unaligned(w.jiffies, level + 1, LevelOf(k), IndexOf(k));
      }
    }
  }

  lemma {:induction false} CascadeChainKeeps(w: State, level: nat)
    requires level <= WHEEL_BUCKETS && Inv(w, Cascading(level))
    ensures Inv(CascadeChain(w, level), Cascading(WHEEL_BUCKETS))
    decreases WHEEL_BUCKETS - level
  {
    if level < WHEEL_BUCKETS {
      CascadeKeeps(w, level);
      LeaveCascade(Cascade(w, level), level);
      if CascadeIndex(w.jiffies, level) == 0 {
        NextLevelAligned(w.jiffies, level);
        CascadeChainKeeps(Cascade(w, level), level + 1);
      }
    }
  }

  /** `m_jiffies++`: the phase before it speaks of the next tick already. */
  lemma TickKeeps(w: State)
    requires Inv(w, Cascading(WHEEL_BUCKETS))
    ensures Inv(w.(jiffies := w.jiffies + 1), Ticked)
  {
    var r := w.(jiffies := w.jiffies + 1);
    forall k: nat, n: nat | k < SLOTS && n < |r.slots[k]| ensures EntryOk(r, Ticked, k, r.slots[k][n]) {
      assert EntryOk(w, Cascading(WHEEL_BUCKETS), k, w.slots[k][n]);
    }
  }

  lemma TickedIsIdle(w: State)
    requires Inv(w, Ticked)
    ensures Inv(w, Idle)
  {
    forall k: nat, n: nat | k < SLOTS && n < |w.slots[k]| ensures EntryOk(w, Idle, k, w.slots[k][n]) {
      assert EntryOk(w, Ticked, k, w.slots[k][n]);
    }
  }

  /** The three parts of `update` up to the increment. */
  function Sections(w: State): (r: State)
    requires |w.slots| == SLOTS
    ensures |r.slots| == SLOTS && r.jiffies == w.jiffies
    ensures Update(w) == Execute(r.(jiffies := w.jiffies + 1))
  {
    var executed := Execute(w);
    if w.jiffies % TVR_SIZE == 0 then CascadeChain(executed, 0) else executed
  }

  lemma SectionsKeep(w: State)
    requires Inv(w, Idle)
    ensures Inv(Sections(w), Cascading(WHEEL_BUCKETS))
  {
    ExecuteKeeps(w, Idle);
    LeaveExecute(Execute(w));
    if w.jiffies % TVR_SIZE == 0 {
      CascadeChainKeeps(Execute(w), 0);
    }
  }

  lemma UpdateKeeps(w: State)
    requires Inv(w, Idle)
    ensures Inv(Update(w), Idle)
  {
    SectionsKeep(w);
    TickKeeps(Sections(w));
    ExecuteKeeps(Sections(w).(jiffies := w.jiffies + 1), Ticked);
    TickedIsIdle(Update(w));
  }
}
