/** The order of callbacks: timers started at one tick with one delay are called in the order in which they were
    started. */
module WheelOrder {
  import opened WheelArith
  import opened Wheel
  import opened WheelInvariant
  import opened WheelRuns

  ghost predicate StandsAt(slots: seq<seq<Entry>>, id: nat, k: nat, n: nat) {
    k < |slots| && n < |slots[k]| && slots[k][n].id == id
  }

  /** Both are linked, in one list, the first before the second. */
  ghost predicate Before(slots: seq<seq<Entry>>, a: nat, b: nat) {
    exists k: nat, m: nat, n: nat :: m < n && StandsAt(slots, a, k, m) && StandsAt(slots, b, k, n)
  }

  ghost predicate InOrder(slots: seq<seq<Entry>>, a: nat, b: nat) {
    Before(slots, a, b) || !Linked(slots, a) || !Linked(slots, b)
  }

  /** In the middle of a cascade the first may have been put down already, where the second will follow. */
  ghost predicate Passing(w: State, level: nat, a: nat, b: nat)
    requires |w.slots| == SLOTS && level < WHEEL_BUCKETS
  {
    exists m: nat, n: nat ::
      && StandsAt(w.slots, b, CascadeSlot(w, level), n)
      && StandsAt(w.slots, a, SlotFor(w.jiffies, w.slots[CascadeSlot(w, level)][n].expired), m)
  }

  /** A callback of the second comes after that of the first, or the first has been stopped. */
  ghost predicate CalledInOrder(w: State, a: nat, b: nat) {
    forall n: nat | n < |w.fired| && w.fired[n].id == b ::
      a in w.stopped || exists m: nat :: m < n && w.fired[m].id == a
  }

  /** Two timers that expire together and stand in order. */
  ghost predicate Pair(w: State, a: nat, b: nat) {
    && a != b && a in w.born && b in w.born && w.born[a].expired == w.born[b].expired
    && CalledInOrder(w, a, b)
  }

  // ---------- The lists ----------

  lemma OnlyOnce(slots: seq<seq<Entry>>, id: nat, k1: nat, n1: nat, k2: nat, n2: nat)
    requires Unique(slots) && StandsAt(slots, id, k1, n1) && StandsAt(slots, id, k2, n2)
    ensures k1 == k2 && n1 == n2
  {
  }

  /** Taking the front of a list keeps two others in order. */
  lemma PopOrder(slots: seq<seq<Entry>>, k: nat, a: nat, b: nat)
    requires Unique(slots) && k < |slots| && slots[k] != [] && InOrder(slots, a, b)
    ensures InOrder(PopFront(slots, k), a, b)
  {
    var r := PopFront(slots, k);
    PopUnique(slots, k);
    StaysAway(slots, k, a);
    StaysAway(slots, k, b);
    if Before(slots, a, b) && slots[k][0].id != a && slots[k][0].id != b {
      var k1: nat, m: nat, n: nat :| m < n && StandsAt(slots, a, k1, m) && StandsAt(slots, b, k1, n);
      var d := if k1 == k then 1 else 0;
      assert StandsAt(r, a, k1, m - d) && StandsAt(r, b, k1, n - d);
    }
  }

  lemma StaysAway(slots: seq<seq<Entry>>, k: nat, id: nat)
    requires k < |slots| && slots[k] != []
    ensures !Linked(slots, id) ==> !Linked(PopFront(slots, k), id)
  {
    var r := PopFront(slots, k);
    forall k1: nat, n: nat | StandsAt(r, id, k1, n) ensures Linked(slots, id) {
      assert slots[k1][if k1 == k then n + 1 else n].id == id;
    }
  }

  /** So does putting another entry at the end of a list. */
  lemma PushOrder(slots: seq<seq<Entry>>, k: nat, e: Entry, a: nat, b: nat)
    requires k < |slots| && e.id != a && e.id != b && InOrder(slots, a, b)
    ensures InOrder(PushBack(slots, k, e), a, b)
  {
    var r := PushBack(slots, k, e);
    PushAway(slots, k, e, a);
    PushAway(slots, k, e, b);
    if Before(slots, a, b) {
      var k1: nat, m: nat, n: nat :| m < n && StandsAt(slots, a, k1, m) && StandsAt(slots, b, k1, n);
      assert StandsAt(r, a, k1, m) && StandsAt(r, b, k1, n);
    }
  }

  lemma PushAway(slots: seq<seq<Entry>>, k: nat, e: Entry, id: nat)
    requires k < |slots| && e.id != id
    ensures !Linked(slots, id) ==> !Linked(PushBack(slots, k, e), id)
  {
    var r := PushBack(slots, k, e);
    forall k1: nat, n: nat | StandsAt(r, id, k1, n) ensures Linked(slots, id) {
      assert slots[k1][n].id == id;
    }
  }

  /** What is at the front of a list comes first of the two. */
  lemma FrontIsFirst(slots: seq<seq<Entry>>, k: nat, a: nat, b: nat)
    requires Unique(slots) && InOrder(slots, a, b) && StandsAt(slots, b, k, 0)
    ensures !Linked(slots, a)
  {
    assert Linked(slots, b);
    forall k1: nat, m: nat, n: nat | StandsAt(slots, a, k1, m) && StandsAt(slots, b, k1, n) ensures n <= m {
      OnlyOnce(slots, b, k, 0, k1, n);
    }
  }

  // ---------- Execution ----------

  lemma ExecuteOneOrder(w: State, ph: Phase, a: nat, b: nat)
    requires Inv(w, ph) && !ph.Cascading? && w.slots[w.jiffies % TVR_SIZE] != []
    requires Pair(w, a, b) && InOrder(w.slots, a, b)
    ensures Pair(ExecuteOne(w), a, b) && InOrder(ExecuteOne(w).slots, a, b)
  {
    var k := w.jiffies % TVR_SIZE;
    var r := ExecuteOne(w);
    PopOrder(w.slots, k, a, b);
    if w.slots[k][0].id == b && b in w.live {
      FrontIsFirst(w.slots, k, a, b);
      assert a in w.stopped || WasFired(w.fired, a);
    }
    LogOrder(w, r, a, b);
  }

  lemma LogOrder(w: State, r: State, a: nat, b: nat)
    requires CalledInOrder(w, a, b) && r.stopped == w.stopped
    requires r.fired == w.fired
      || (exists f: Firing :: r.fired == w.fired + [f] && (f.id == b ==> a in w.stopped || WasFired(w.fired, a)))
    ensures CalledInOrder(r, a, b)
  {
    forall n: nat | n < |r.fired| && r.fired[n].id == b
      ensures a in r.stopped || exists m: nat :: m < n && r.fired[m].id == a
    {
      if n < |w.fired| {
        if m: nat :| m < n && w.fired[m].id == a {
          assert r.fired[m].id == a;
        }
      } else if a !in w.stopped {
        var m: nat :| m < |w.fired| && w.fired[m].id == a;
        assert r.fired[m].id == a;
      }
    }
  }

  lemma {:induction false} ExecuteOrder(w: State, ph: Phase, a: nat, b: nat)
    requires Inv(w, ph) && !ph.Cascading? && Pair(w, a, b) && InOrder(w.slots, a, b)
    ensures Pair(Execute(w), a, b) && InOrder(Execute(w).slots, a, b)
    decreases |w.slots[w.jiffies % TVR_SIZE]|
  {
    if w.slots[w.jiffies % TVR_SIZE] != [] {
      ExecuteOneOrder(w, ph, a, b);
      ExecuteOneKeeps(w, ph);
      ExecuteOrder(ExecuteOne(w), ph, a, b);
    }
  }

  // ---------- Cascades ----------

  lemma ExpiresTogether(w: State, ph: Phase, a: nat, b: nat, k1: nat, n1: nat, k2: nat, n2: nat)
    requires Inv(w, ph) && Pair(w, a, b) && StandsAt(w.slots, a, k1, n1) && StandsAt(w.slots, b, k2, n2)
    ensures w.slots[k1][n1].expired == w.slots[k2][n2].expired
  {
    assert EntryOk(w, ph, k1, w.slots[k1][n1]) && EntryOk(w, ph, k2, w.slots[k2][n2]);
  }

  /** The first is taken down while the second follows in the same list. */
  lemma FirstPasses(w: State, level: nat, a: nat, b: nat)
    requires level < WHEEL_BUCKETS && Inv(w, Cascading(level)) && Pair(w, a, b) && InOrder(w.slots, a, b)
    requires StandsAt(w.slots, a, CascadeSlot(w, level), 0)
    ensures var r := CascadeOne(w, level); InOrder(r.slots, a, b) || Passing(r, level, a, b)
  {
    var k := CascadeSlot(w, level);
    var e := w.slots[k][0];
    var rest := PopFront(w.slots, k);
    var r := CascadeOne(w, level);
    PopUnique(w.slots, k);
    StaysAway(w.slots, k, b);
    if a in w.live {
      ReaddedElsewhere(w.jiffies, level, e.expired);
      PushAway(rest, SlotFor(w.jiffies, e.expired), Entry(a, e.expired, w.jiffies), b);
      if Before(w.slots, a, b) {
        var k1: nat, m: nat, n: nat :| m < n && StandsAt(w.slots, a, k1, m) && StandsAt(w.slots, b, k1, n);
        OnlyOnce(w.slots, a, k, 0, k1, m);
        ExpiresTogether(w, Cascading(level), a, b, k, 0, k, n);
        assert CascadeSlot(r, level) == k && r.slots[k][n - 1] == w.slots[k][n];
        assert StandsAt(r.slots, b, k, n - 1);
        assert StandsAt(r.slots, a, SlotFor(w.jiffies, e.expired), |rest[SlotFor(w.jiffies, e.expired)]|);
      }
    }
  }

  /** The second is taken down, and goes behind the first. */
  lemma SecondFollows(w: State, level: nat, a: nat, b: nat)
    requires level < WHEEL_BUCKETS && Inv(w, Cascading(level)) && a != b
    requires InOrder(w.slots, a, b) || Passing(w, level, a, b)
    requires StandsAt(w.slots, b, CascadeSlot(w, level), 0)
    ensures InOrder(CascadeOne(w, level).slots, a, b)
  {
    var k := CascadeSlot(w, level);
    var e := w.slots[k][0];
    var to := SlotFor(w.jiffies, e.expired);
    var rest := PopFront(w.slots, k);
    var r := CascadeOne(w, level);
    PopUnique(w.slots, k);
    StaysAway(w.slots, k, a);
    if b in w.live {
      ReaddedElsewhere(w.jiffies, level, e.expired);
      PushAway(rest, to, Entry(b, e.expired, w.jiffies), a);
      if Passing(w, level, a, b) {
        var m: nat, n: nat :|
          StandsAt(w.slots, b, k, n) && StandsAt(w.slots, a, SlotFor(w.jiffies, w.slots[k][n].expired), m);
        OnlyOnce(w.slots, b, k, 0, k, n);
        assert StandsAt(r.slots, a, to, m) && StandsAt(r.slots, b, to, |rest[to]|);
      } else {
        FrontIsFirst(w.slots, k, a, b);
      }
    }
  }

  /** Another entry is taken down. */
  lemma OtherPasses(w: State, level: nat, a: nat, b: nat)
    requires level < WHEEL_BUCKETS && Inv(w, Cascading(level)) && w.slots[CascadeSlot(w, level)] != []
    requires w.slots[CascadeSlot(w, level)][0].id != a && w.slots[CascadeSlot(w, level)][0].id != b
    requires InOrder(w.slots, a, b) || Passing(w, level, a, b)
    ensures var r := CascadeOne(w, level); InOrder(r.slots, a, b) || Passing(r, level, a, b)
  {
    var k := CascadeSlot(w, level);
    var e := w.slots[k][0];
    var rest := PopFront(w.slots, k);
    var r := CascadeOne(w, level);
    if InOrder(w.slots, a, b) {
      PopOrder(w.slots, k, a, b);
      if e.id in w.live {
        PushOrder(rest, SlotFor(w.jiffies, e.expired), Entry(e.id, e.expired, w.jiffies), a, b);
      }
    } else {
      ReaddedElsewhere(w.jiffies, level, e.expired);
      var m: nat, n: nat :|
        StandsAt(w.slots, b, k, n) && StandsAt(w.slots, a, SlotFor(w.jiffies, w.slots[k][n].expired), m);
      ReaddedElsewhere(w.jiffies, level, w.slots[k][n].expired);
      assert CascadeSlot(r, level) == k && r.slots[k][n - 1] == w.slots[k][n];
      assert StandsAt(r.slots, b, k, n - 1);
      assert StandsAt(r.slots, a, SlotFor(w.jiffies, w.slots[k][n].expired), m);
    }
  }

  lemma CascadeOneOrder(w: State, level: nat, a: nat, b: nat)
    requires level < WHEEL_BUCKETS && Inv(w, Cascading(level)) && w.slots[CascadeSlot(w, level)] != []
    requires Pair(w, a, b) && (InOrder(w.slots, a, b) || Passing(w, level, a, b))
    ensures var r := CascadeOne(w, level); Pair(r, a, b) && (InOrder(r.slots, a, b) || Passing(r, level, a, b))
  {
    var k := CascadeSlot(w, level);
    if StandsAt(w.slots, b, k, 0) {
      SecondFollows(w, level, a, b);
    } else if StandsAt(w.slots, a, k, 0) {
      if Passing(w, level, a, b) {
        PassedIsGone(w, level, a, b);
      }
      FirstPasses(w, level, a, b);
    } else {
      OtherPasses(w, level, a, b);
    }
  }

  /** The first has left the list by the time it stands where the second will follow. */
  lemma PassedIsGone(w: State, level: nat, a: nat, b: nat)
    requires level < WHEEL_BUCKETS && Inv(w, Cascading(level)) && Passing(w, level, a, b)
    ensures !StandsAt(w.slots, a, CascadeSlot(w, level), 0)
  {
    var k := CascadeSlot(w, level);
    var m: nat, n: nat :|
      StandsAt(w.slots, b, k, n) && StandsAt(w.slots, a, SlotFor(w.jiffies, w.slots[k][n].expired), m);
    ReaddedElsewhere(w.jiffies, level, w.slots[k][n].expired);
    if StandsAt(w.slots, a, k, 0) {
      OnlyOnce(w.slots, a, k, 0, SlotFor(w.jiffies, w.slots[k][n].expired), m);
    }
  }

  lemma {:induction false} CascadeOrder(w: State, level: nat, a: nat, b: nat)
    requires level < WHEEL_BUCKETS && Inv(w, Cascading(level)) && Pair(w, a, b)
    requires InOrder(w.slots, a, b) || Passing(w, level, a, b)
    ensures Pair(Cascade(w, level), a, b) && InOrder(Cascade(w, level).slots, a, b)
    decreases |w.slots[CascadeSlot(w, level)]|
  {
    if w.slots[CascadeSlot(w, level)] != [] {
      var e := w.slots[CascadeSlot(w, level)][0];
      ReaddedElsewhere(w.jiffies, level, e.expired);
      CascadeOneOrder(w, level, a, b);
      CascadeOneKeeps(w, level);
      CascadeOrder(CascadeOne(w, level), level, a, b);
    }
  }

  lemma {:induction false} ChainOrder(w: State, level: nat, a: nat, b: nat)
    requires level <= WHEEL_BUCKETS && Inv(w, Cascading(level)) && Pair(w, a, b) && InOrder(w.slots, a, b)
    ensures Pair(CascadeChain(w, level), a, b) && InOrder(CascadeChain(w, level).slots, a, b)
    decreases WHEEL_BUCKETS - level
  {
    if level < WHEEL_BUCKETS {
      CascadeOrder(w, level, a, b);
      CascadeKeeps(w, level);
      LeaveCascade(Cascade(w, level), level);
      if CascadeIndex(w.jiffies, level) == 0 {
        NextLevelAligned(w.jiffies, level);
        ChainOrder(Cascade(w, level), level + 1, a, b);
      }
    }
  }

  // ---------- Runs ----------

  lemma SectionsOrder(w: State, a: nat, b: nat)
    requires Inv(w, Idle) && Pair(w, a, b) && InOrder(w.slots, a, b)
    ensures Pair(Sections(w), a, b) && InOrder(Sections(w).slots, a, b)
  {
    ExecuteOrder(w, Idle, a, b);
    ExecuteKeeps(w, Idle);
    LeaveExecute(Execute(w));
    if w.jiffies % TVR_SIZE == 0 {
      ChainOrder(Execute(w), 0, a, b);
    }
  }

  lemma UpdateOrder(w: State, a: nat, b: nat)
    requires Inv(w, Idle) && Pair(w, a, b) && InOrder(w.slots, a, b)
    ensures Pair(Update(w), a, b) && InOrder(Update(w).slots, a, b)
  {
    hide Execute, Update, CascadeChain;
    SectionsOrder(w, a, b);
    SectionsKeep(w);
    TickKeeps(Sections(w));
    ExecuteOrder(Sections(w).(jiffies := w.jiffies + 1), Ticked, a, b);
  }

  lemma StartOrder(w: State, ticks: int, a: nat, b: nat)
    requires Between(w) && Pair(w, a, b) && InOrder(w.slots, a, b)
    ensures Pair(StartTimer(w, ticks), a, b) && InOrder(StartTimer(w, ticks).slots, a, b)
  {
    hide SlotFor;
    PushOrder(w.slots, SlotFor(w.jiffies, w.jiffies + ticks), Entry(w.ids, w.jiffies + ticks, w.jiffies), a, b);
  }

  lemma ApplyOrder(w: State, op: Op, a: nat, b: nat)
    requires Between(w) && Pair(w, a, b) && InOrder(w.slots, a, b)
    ensures Pair(Apply(w, op), a, b) && InOrder(Apply(w, op).slots, a, b)
  {
    match op
    case Start(ticks) => StartOrder(w, ticks, a, b);
    case Stop(id) =>
    case Tick => UpdateOrder(w, a, b);
  }

  lemma {:induction false} RunOrder(w: State, ops: seq<Op>, a: nat, b: nat)
    requires Between(w) && Pair(w, a, b) && InOrder(w.slots, a, b)
    ensures Pair(Run(w, ops), a, b)
    decreases |ops|
  {
    if ops != [] {
      ApplyOrder(w, ops[0], a, b);
      ApplyBetween(w, ops[0]);
      RunOrder(Apply(w, ops[0]), ops[1..], a, b);
    }
  }

  // ---------- Two starts at one tick ----------

  /** An entry stays where it is as long as only starts and stops follow. */
  lemma {:induction false} StaysLinked(w: State, ops: seq<Op>, id: nat, k: nat, n: nat)
    requires Between(w) && StandsAt(w.slots, id, k, n) && Tick !in ops
    ensures StandsAt(Run(w, ops).slots, id, k, n) && Run(w, ops).jiffies == w.jiffies
    decreases |ops|
  {
    if ops != [] {
      ApplyBetween(w, ops[0]);
      StaysPut(w, ops[0], id, k, n);
      StaysLinked(Apply(w, ops[0]), ops[1..], id, k, n);
    }
  }

  lemma StaysPut(w: State, op: Op, id: nat, k: nat, n: nat)
    requires |w.slots| == SLOTS && StandsAt(w.slots, id, k, n) && !op.Tick?
    ensures StandsAt(Apply(w, op).slots, id, k, n) && Apply(w, op).jiffies == w.jiffies
  {
    hide SlotFor;
  }

  lemma FirstStart(w: State, ticks: int)
    requires Between(w)
    ensures var s := Apply(w, Start(ticks));
      var k := SlotFor(w.jiffies, w.jiffies + ticks);
      && Between(s) && s.jiffies == w.jiffies && StandsAt(s.slots, w.ids, k, |w.slots[k]|)
      && w.ids in s.born && s.born[w.ids].expired == w.jiffies + ticks
  {
    StartBetween(w, ticks);
  }

  /** The second start puts its entry behind that of the first. */
  lemma SecondStart(w: State, ticks: int, a: nat, m: nat)
    requires Between(w) && a in w.born && w.born[a].expired == w.jiffies + ticks
    requires StandsAt(w.slots, a, SlotFor(w.jiffies, w.jiffies + ticks), m)
    ensures var r := StartTimer(w, ticks); Between(r) && Pair(r, a, w.ids) && InOrder(r.slots, a, w.ids)
  {
    StartBetween(w, ticks);
    Behind(w, ticks, a, m);
    NeverFired(w);
    assert a != w.ids;
  }

  lemma Behind(w: State, ticks: int, a: nat, m: nat)
    requires |w.slots| == SLOTS && StandsAt(w.slots, a, SlotFor(w.jiffies, w.jiffies + ticks), m)
    ensures var r := StartTimer(w, ticks);
      InOrder(r.slots, a, w.ids) && r.born == w.born[w.ids := Birth(w.jiffies, w.jiffies, w.jiffies + ticks)]
      && r.fired == w.fired && r.stopped == w.stopped
  {
    hide SlotFor;
    var k := SlotFor(w.jiffies, w.jiffies + ticks);
    var r := StartTimer(w, ticks);
    assert StandsAt(r.slots, a, k, m) && StandsAt(r.slots, w.ids, k, |w.slots[k]|);
  }

  lemma NeverFired(w: State)
    requires Between(w)
    ensures forall n: nat | n < |w.fired| :: w.fired[n].id != w.ids
  {
    forall n: nat | n < |w.fired| ensures w.fired[n].id != w.ids {
      FiredIsBorn(w, n);
    }
  }

  /** From the first start to the second. */
  lemma BothLinked(w: State, ticks: int, mid: seq<Op>)
    requires Between(w) && Tick !in mid
    ensures var v := Run(Apply(w, Start(ticks)), mid);
      var r := Apply(v, Start(ticks));
      Between(r) && Pair(r, w.ids, v.ids) && InOrder(r.slots, w.ids, v.ids)
  {
    hide Run, SlotFor;
    var s := Apply(w, Start(ticks));
    FirstStart(w, ticks);
    var k := SlotFor(w.jiffies, w.jiffies + ticks);
    StaysLinked(s, mid, w.ids, k, |w.slots[k]|);
    RunHistory(s, mid, w.ids);
    RunBetween(s, mid);
    SecondStart(Run(s, mid), ticks, w.ids, |w.slots[k]|);
  }

  /** First started, first called. In any run in which two timers are started at the same tick with the same delay,
      a callback of the later one comes after that of the earlier one, unless the earlier one was stopped. */
  lemma FirstStartedFirstCalled(pre: seq<Op>, ticks: int, mid: seq<Op>, post: seq<Op>)
    requires Tick !in mid
    ensures var a := Run(Init(), pre).ids;
      var b := Run(Init(), pre + [Start(ticks)] + mid).ids;
      a != b && CalledInOrder(Run(Init(), pre + [Start(ticks)] + mid + [Start(ticks)] + post), a, b)
  {
    hide Run, Apply, Between, InOrder, CalledInOrder;
    var w := Run(Init(), pre);
    RunAround(pre, Start(ticks), mid);
    var v := Run(Apply(w, Start(ticks)), mid);
    BothLinked(w, ticks, mid);
    RunAround(pre + [Start(ticks)] + mid, Start(ticks), post);
    RunOrder(Apply(v, Start(ticks)), post, w.ids, v.ids);
  }
}
