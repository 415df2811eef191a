/** The timer as the program has it: entries on the heap, linked in 512 lists, found through a table of
    pointers, marked as canceled in place and recycled through a free list. */
module Timer {
  import opened WheelArith
  import opened Wheel
  import opened WheelInvariant

  class TimerEntry {
    var canceled: bool
    var id: int
    var expired: int

    constructor ()
      ensures !canceled && id == -1
    {
      canceled, id, expired := false, -1, 0;
    }
  }

  class Timer {
    var size: int
    var jiffies: nat
    var ids: nat
    const lists: array<seq<TimerEntry>>
    var table: map<int, TimerEntry?>
    var free: seq<TimerEntry>
    /** The invocations of callbacks, which is all that the environment sees of a firing. */
    var calls: seq<Firing>

    /** The values the lists stand for, and the history of the run. */
    ghost var slots: seq<seq<Entry>>
    ghost var live: set<nat>
    ghost var born: map<nat, Birth>
    ghost var stopped: set<nat>
    /** The slot of each linked entry. */
    ghost var place: map<TimerEntry, nat>
    /** Every entry ever allocated. */
    ghost var entries: set<TimerEntry>

    ghost function Model(): State
      reads this
    {
      State(jiffies, ids, size, slots, live, born, calls, stopped)
    }

    /** The lists hold the entries that `slots` names, in order, and no entry is linked twice. */
    ghost predicate ListsOk()
      reads this`slots, this`place, lists, place.Keys
    {
      && lists.Length == SLOTS && |slots| == SLOTS
      && (forall k: nat | k < SLOTS :: |lists[k]| == |slots[k]|)
      && (forall k: nat, n: nat | k < SLOTS && n < |lists[k]| ::
            && lists[k][n] in place && place[lists[k][n]] == k
            && lists[k][n].id == slots[k][n].id && lists[k][n].expired == slots[k][n].expired)
      && (forall k: nat, m: nat, n: nat | k < SLOTS && m < n < |lists[k]| :: lists[k][m] != lists[k][n])
    }

    /** Among the known entries, the table points at those that are pending and at nothing else; the flag
        marks the others. A null pointer in the table stands for no entry. */
    ghost predicate TableOk(known: set<TimerEntry>)
      reads this`table, this`live, this`ids, known
    {
      && (forall id: int :: id in table && table[id] != null <==> id >= 0 && id in live)
      && (forall id: int | id in table && table[id] != null :: table[id] in known && table[id].id == id)
      && (forall e | e in known :: 0 <= e.id < ids && (e.canceled <==> e.id !in live))
      && (forall e | e in known && !e.canceled :: e.id in table && table[e.id] == e)
    }

    /** The free list holds each recycled entry once, and no known entry. */
    ghost predicate FreeOk(known: set<TimerEntry>)
      reads this`free
    {
      && (forall n: nat | n < |free| :: free[n] !in known)
      && (forall m: nat, n: nat | m < n < |free| :: free[m] != free[n])
    }

    /** Every entry ever allocated is linked, free, or in the hand of the operation under way, and only one of
        these. */
    ghost predicate Conserved(hand: set<TimerEntry>)
      reads this`free, this`place, this`entries
    {
      && entries == place.Keys + (set e | e in free) + hand
      && hand !! place.Keys && hand !! (set e | e in free)
    }

    ghost predicate ValidBut(hand: set<TimerEntry>)
      reads this, lists, entries
    {
      Conserved(hand) && ListsOk() && TableOk(place.Keys) && FreeOk(place.Keys)
    }

    ghost predicate Valid()
      reads this, lists, entries
    {
      ValidBut({})
    }

    constructor ()
      ensures Valid() && Model() == Init()
      ensures fresh(entries) && fresh(lists)
    {
      size, jiffies, ids, table, free, calls := 0, 0, 0, map[], [], [];
      lists := new seq<TimerEntry>[SLOTS](_ => []);
      slots, live, born, stopped, place, entries := Init().slots, {}, map[], {}, map[], {};
    }

    /** Takes an entry from the free list, or makes one only if there is none: an entry that is linked nowhere. */
    method Alloc() returns (e: TimerEntry)
      requires Valid()
      modifies this`free, this`entries
      ensures ValidBut({e}) && entries == old(entries) + {e}
      ensures old(free) != [] ==> old(free) == free + [e] && entries == old(entries)
      ensures old(free) == [] ==> fresh(e) && free == []
    {
      if free != [] {
        e := free[|free| - 1];
        free := free[..|free| - 1];
      } else {
        e := new TimerEntry();
        entries := entries + {e};
      }
      assert entries == old(entries) + {e};
      assert (set o | o in old(free)) == (set o | o in free) + if e in old(entries) then {e} else {};
    }

    /** Chooses the slot by the distance of the expiry and links the entry at its end. */
    method AddTimerEntry(e: TimerEntry)
      requires ListsOk() && e !in place && e.id >= 0
      modifies lists, this`slots, this`place
      ensures ListsOk()
      ensures slots == Wheel.PushBack(old(slots), SlotFor(jiffies, e.expired), Entry(e.id, e.expired, jiffies))
      ensures place == old(place)[e := SlotFor(jiffies, e.expired)]
    {
      var k := ChooseSlot(e.expired);
      PushBack(k, e);
    }

    method ChooseSlot(expired: int) returns (k: nat)
      ensures k == SlotFor(jiffies, expired)
    {
      var expires := expired;
      var idx := expires - jiffies;
      if 0 <= idx < TVR_SIZE {
        k := expires % TVR_SIZE;
      } else if 0 <= idx < 0x4000 {
        k := BucketSlot(0, expires / 0x100 % TVN_SIZE);
      } else if 0 <= idx < 0x10_0000 {
        k := BucketSlot(1, expires / 0x4000 % TVN_SIZE);
      } else if 0 <= idx < 0x400_0000 {
        k := BucketSlot(2, expires / 0x10_0000 % TVN_SIZE);
      } else if idx < 0 {
        k := jiffies % TVR_SIZE;
      } else {
        if idx > MAX_TVAL {
          idx := MAX_TVAL;
          expires := idx + jiffies;
        }
        k := BucketSlot(3, expires / 0x400_0000 % TVN_SIZE);
      }
    }

    method PushBack(k: nat, e: TimerEntry)
      requires ListsOk() && k < SLOTS && e !in place && e.id >= 0
      modifies lists, this`slots, this`place
      ensures ListsOk()
      ensures slots == Wheel.PushBack(old(slots), k, Entry(e.id, e.expired, jiffies))
      ensures place == old(place)[e := k]
    {
      lists[k] := lists[k] + [e];
      slots := Wheel.PushBack(slots, k, Entry(e.id, e.expired, jiffies));
      place := place[e := k];
    }

    method PopFront(k: nat) returns (e: TimerEntry)
      requires ListsOk() && k < SLOTS && lists[k] != []
      modifies lists, this`slots, this`place
      ensures ListsOk()
      ensures e in old(place) && e == old(lists[k][0])
      ensures e.id == old(slots)[k][0].id && e.expired == old(slots)[k][0].expired
      ensures slots == Wheel.PopFront(old(slots), k)
      ensures place == old(place) - {e}
    {
      e := lists[k][0];
      lists[k] := lists[k][1..];
      slots := Wheel.PopFront(slots, k);
      place := place - {e};
    }

    /** An entry has been taken from its list, and the table still knows it. */
    ghost predicate Unlinked(e: TimerEntry)
      reads this, lists, entries
    {
      && e in entries && e !in place && Conserved({e}) && ListsOk() && TableOk(place.Keys + {e}) && FreeOk(place.Keys)
    }

    /** Takes the first entry of a list. */
    method TakeFront(k: nat) returns (e: TimerEntry)
      requires Valid() && k < SLOTS && lists[k] != []
      modifies lists, this`slots, this`place
      ensures Unlinked(e) && slots == Wheel.PopFront(old(slots), k)
      ensures e == old(lists[k][0])
      ensures 0 <= e.id == old(slots)[k][0].id && e.expired == old(slots)[k][0].expired
    {
      ghost var known := place.Keys;
      e := PopFront(k);
      assert place.Keys == known - {e} && known == place.Keys + {e};
    }

    /** Invokes the callback of a pending entry and removes it from the table. */
    method Fire(e: TimerEntry)
      requires Unlinked(e) && !e.canceled
      modifies this`table, this`live, this`calls, this`size
      ensures ValidBut({e})
      ensures live == old(live) - {e.id} && size == old(size) - 1
      ensures 0 <= e.id && calls == old(calls) + [Firing(e.id, jiffies)]
    {
      calls := calls + [Firing(e.id, jiffies)];
      size := size - 1;
      table := table - {e.id};
      live := live - {e.id};
    }

    /** Puts an entry that is no longer linked on the free list. */
    method Recycle(e: TimerEntry)
      requires ValidBut({e})
      modifies this`free
      ensures Valid() && free == old(free) + [e]
    {
      free := free + [e];
      assert (set o | o in free) == (set o | o in old(free)) + {e};
    }

    /** Fills an unlinked entry in with the next id and the expiry. */
    method Fill(e: TimerEntry, ticks: int)
      requires ValidBut({e})
      modifies e, this`ids, this`size
      ensures ValidBut({e})
      ensures !e.canceled && e.id == old(ids) && e.expired == jiffies + ticks
      ensures ids == old(ids) + 1 && size == old(size) + 1
    {
      e.canceled := false;
      e.id := ids;
      ids := ids + 1;
      e.expired := jiffies + ticks;
      size := size + 1;
    }

    /** Enters a filled-in entry in the table. */
    method Register(e: TimerEntry, ghost known: set<TimerEntry>)
      requires TableOk(known) && e !in known && !e.canceled && 0 <= e.id < ids && e.id !in live
      requires forall o | o in known :: o.id != e.id
      modifies this`table, this`live, this`born
      ensures TableOk(known + {e})
      ensures live == old(live) + {e.id}
      ensures born == old(born)[e.id := Birth(jiffies, jiffies, e.expired)]
    {
      table := table[e.id := e];
      live := live + {e.id};
      born := born[e.id := Birth(jiffies, jiffies, e.expired)];
    }

    /** The part of `startTimer` done under the list lock. */
    method Insert(e: TimerEntry)
      requires ValidBut({e}) && !e.canceled && 0 <= e.id < ids && e.id !in live
      requires forall o | o in place :: o.id != e.id
      modifies lists, this`slots, this`place, this`table, this`live, this`born
      ensures Valid()
      ensures Model() == Wheel.Insert(old(Model()), Idle, e.id, e.expired)
    {
      ghost var known := place.Keys;
      AddTimerEntry(e);
      assert place.Keys == known + {e};
      Register(e, known);
    }

    /** The part of `startTimer` done before the list lock is taken. */
    method NewEntry(ticks: int) returns (e: TimerEntry)
      requires Valid()
      modifies this`free, this`entries, this`ids, this`size, entries
      ensures ValidBut({e}) && entries == old(entries) + {e}
      ensures if old(free) != [] then old(free) == free + [e] && entries == old(entries) else fresh(e) && free == []
      ensures !e.canceled && e.id == old(ids) && e.expired == jiffies + ticks
      ensures forall o | o in place :: o.id != e.id
      ensures e.id !in live
      ensures ids == old(ids) + 1 && size == old(size) + 1
    {
      e := Alloc();
      Fill(e, ticks);
    }

    method StartTimer(ticks: int) returns (id: int)
      requires Valid()
      modifies this, lists, entries
      ensures Valid() && fresh(entries - old(entries))
      ensures old(free) != [] ==> entries == old(entries) && free == old(free)[..|old(free)| - 1]
      ensures old(free) == [] ==> free == []
      ensures id == old(ids) && Model() == Wheel.StartTimer(old(Model()), ticks)
    {
      hide TableOk, FreeOk, Conserved, SlotFor;
      var e := NewEntry(ticks);
      Insert(e);
      id := e.id;
    }

    /** Looks an id up. An id that is not in the table is entered with a null pointer. */
    method Lookup(id: int) returns (e: TimerEntry?)
      requires TableOk(place.Keys)
      modifies this`table
      ensures TableOk(place.Keys)
      ensures table == if id in old(table) then old(table) else old(table)[id := null]
      ensures e != null <==> id >= 0 && id in live
      ensures e != null ==> table == old(table) && e in place && !e.canceled && e.id == id
    {
      if id !in table {
        table := table[id := null];
      }
      e := table[id];
    }

    method StopTimer(id: int) returns (found: bool)
      requires Valid()
      modifies this`table, this`size, this`live, this`stopped, entries
      ensures Valid()
      ensures found <==> id >= 0 && id in old(live)
      ensures table == if found then old(table) - {id}
                       else if id in old(table) then old(table) else old(table)[id := null]
      ensures Model() == if id >= 0 then Wheel.StopTimer(old(Model()), id) else old(Model())
    {
      assert place.Keys <= entries;
      var e := Lookup(id);
      found := e != null;
      if found {
        Cancel(e);
        size := size - 1;
        stopped := stopped + {id};
        assert Model() == Wheel.StopTimer(old(Model()), id);
      } else {
        assert Model() == old(Model());
      }
    }

    /** Marks a pending entry, which stays linked, and takes it out of the table. */
    method Cancel(e: TimerEntry)
      requires ListsOk() && TableOk(place.Keys) && e in place && !e.canceled
      modifies this`table, this`live, e`canceled
      ensures ListsOk() && TableOk(place.Keys) && e.canceled
      ensures 0 <= e.id && table == old(table) - {e.id} && live == old(live) - {e.id}
    {
      e.canceled := true;
      table := table - {e.id};
      live := live - {e.id};
    }

    /** What `execute` does with an entry it has unlinked. */
    method Settle(e: TimerEntry) returns (fired: nat)
      requires Unlinked(e)
      modifies this`table, this`live, this`calls, this`size, this`free
      ensures Valid() && free == old(free) + [e] && 0 <= e.id
      ensures if e.id in old(live) then
                && live == old(live) - {e.id} && size == old(size) - 1 && fired == 1
                && calls == old(calls) + [Firing(e.id, jiffies)]
              else
                live == old(live) && size == old(size) && fired == 0 && calls == old(calls)
    {
      fired := 0;
      if !e.canceled {
        Fire(e);
        fired := 1;
      }
      Recycle(e);
    }

    /** One turn of the loop of `execute`: the front entry goes to the free list, called or not. */
    method ExecuteFront() returns (fired: nat)
      requires Valid() && lists[jiffies % TVR_SIZE] != []
      modifies this`slots, this`place, this`table, this`live, this`calls, this`size, this`free, lists
      ensures Valid() && free == old(free) + [old(lists[jiffies % TVR_SIZE][0])]
      ensures Model() == ExecuteOne(old(Model()))
      ensures fired == |calls| - |old(calls)|
    {
      ghost var was := Model();
      var e := TakeFront(jiffies % TVR_SIZE);
      fired := Settle(e);
      assert Model() == was.(slots := slots, live := live, size := size, fired := calls);
    }

    method Execute() returns (fired: nat)
      requires Valid()
      modifies this, lists
      ensures Valid() && entries == old(entries)
      ensures Model() == Wheel.Execute(old(Model()))
      ensures fired == |calls| - |old(calls)|
    {
      fired := 0;
      while lists[jiffies % TVR_SIZE] != []
        invariant Valid() && entries == old(entries) && jiffies == old(jiffies)
        invariant Wheel.Execute(Model()) == Wheel.Execute(old(Model()))
        invariant fired == |calls| - |old(calls)|
        decreases |lists[jiffies % TVR_SIZE]|
      {
        var n := ExecuteFront();
        fired := fired + n;
      }
    }

    /** One turn of the loop of `cascade`: a live entry is linked again, a canceled one goes to the free list. */
    method CascadeFront(level: nat)
      requires Valid() && level < WHEEL_BUCKETS && lists[BucketSlot(level, CascadeIndex(jiffies, level))] != []
      modifies this`slots, this`place, this`free, lists
      ensures Valid()
      ensures var e := old(lists[BucketSlot(level, CascadeIndex(jiffies, level))][0]);
        free == if e.canceled then old(free) + [e] else old(free)
      ensures Model() == CascadeOne(old(Model()), level)
    {
      var e := TakeFront(BucketSlot(level, CascadeIndex(jiffies, level)));
      if !e.canceled {
        Relink(e);
      } else {
        Recycle(e);
      }
    }

    /** Puts a live entry back that was taken from its list. */
    method Relink(e: TimerEntry)
      requires Unlinked(e) && !e.canceled
      modifies lists, this`slots, this`place
      ensures Valid()
      ensures slots == Wheel.PushBack(old(slots), SlotFor(jiffies, e.expired), Entry(e.id, e.expired, jiffies))
    {
      ghost var known := place.Keys + {e};
      AddTimerEntry(e);
      assert place.Keys == known;
    }

    method Cascade(level: nat, index: nat) returns (more: bool)
      requires Valid()
      requires level < WHEEL_BUCKETS && jiffies % Width(level) == 0 && index == CascadeIndex(jiffies, level)
      modifies this`slots, this`place, this`free, lists
      ensures Valid()
      ensures Model() == Wheel.Cascade(old(Model()), level)
      ensures more <==> index == 0
    {
      while lists[BucketSlot(level, index)] != []
        invariant Valid()
        invariant Wheel.Cascade(Model(), level) == Wheel.Cascade(old(Model()), level)
        decreases |lists[BucketSlot(level, index)]|
      {
        ReaddedElsewhere(jiffies, level, slots[BucketSlot(level, index)][0].expired);
        CascadeFront(level);
      }
      more := index == 0;
    }

    /** The chain of cascades: each level is cascaded while the index of the level below was 0. */
    method CascadeLevels()
      requires Valid() && jiffies % TVR_SIZE == 0
      modifies this`slots, this`place, this`free, lists
      ensures Valid()
      ensures Model() == CascadeChain(old(Model()), 0)
    {
      var more := Cascade(0, CascadeIndex(jiffies, 0));
      NextLevelAligned(jiffies, 0);
      if more {
        more := Cascade(1, CascadeIndex(jiffies, 1));
        NextLevelAligned(jiffies, 1);
        if more {
          more := Cascade(2, CascadeIndex(jiffies, 2));
          NextLevelAligned(jiffies, 2);
          if more {
            more := Cascade(3, CascadeIndex(jiffies, 3));
          }
        }
      }
    }

    /** `update` up to the increment: the near slot of the tick, then the cascades of an aligned tick. */
    method RunSections() returns (fired: nat)
      requires Valid()
      modifies this, lists
      ensures Valid() && entries == old(entries)
      ensures Model() == Sections(old(Model()))
      ensures fired == |calls| - |old(calls)|
    {
      fired := Execute();
      if jiffies % TVR_SIZE == 0 {
        CascadeLevels();
      }
    }

    method Update() returns (fired: nat)
      requires Valid()
      modifies this, lists
      ensures Valid() && entries == old(entries)
      ensures Model() == Wheel.Update(old(Model()))
      ensures fired == |calls| - |old(calls)|
    {
      fired := RunSections();
      jiffies := jiffies + 1;
      var n := Execute();
      fired := fired + n;
    }
  }
}
