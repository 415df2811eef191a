/** Whole runs of the timer: when each timer fires, what `stopTimer` means, and how the counts add up. */
module WheelRuns {
  import opened WheelArith
  import opened Wheel
  import opened WheelInvariant

  /** The tick at which a timer started at tick `j` with expiry `e` fires. */
  function FireAt(j: nat, e: int): int {
    if e < j then j
    else if e - j < TVR_SIZE || e % TVR_SIZE != 0 then e
    else e + TVR_SIZE
  }

  /** The ticks at which the callback of a timer was invoked, in order. */
  function FiredTicks(fired: seq<Firing>, id: nat): seq<nat> {
    if fired == [] then [] else (if fired[0].id == id then [fired[0].tick] else []) + FiredTicks(fired[1..], id)
  }

  /** The number of calls of `update` in a run. */
  function Updates(ops: seq<Op>): nat {
    if ops == [] then 0 else (if ops[0].Tick? then 1 else 0) + Updates(ops[1..])
  }

  ghost predicate Accounts(w: State) {
    && w.size == |w.live|
    && w.ids == |w.fired| + |w.stopped| + w.size
  }

  /** Every id handed out was inserted, by a whole `startTimer` between two updates. */
  ghost predicate BornWhole(w: State) {
    && (forall id: nat :: id in w.born <==> id < w.ids)
    && (forall id: nat | id in w.born :: w.born[id].from == w.born[id].tick <= w.jiffies)
  }

  /** The near slot of the current tick was emptied by the last update. */
  ghost predicate Fresh(w: State)
    requires |w.slots| == SLOTS
  {
    var near := w.slots[w.jiffies % TVR_SIZE];
    forall n: nat | n < |near| :: near[n].id in w.born && w.born[near[n].id].tick == w.jiffies
  }

  /** A timer fires in an update that ends at a later tick than the one it was started at. */
  ghost predicate FiredLater(w: State) {
    forall n: nat | n < |w.fired| :: w.fired[n].id in w.born && w.born[w.fired[n].id].tick < w.jiffies
  }

  /** What holds between whole operations, on top of the invariant of the sections. */
  ghost predicate Between(w: State) {
    Inv(w, Idle) && Accounts(w) && BornWhole(w) && Fresh(w) && FiredLater(w)
  }

  lemma {:induction false} ExecuteAccounts(w: State)
    requires |w.slots| == SLOTS && Accounts(w)
    ensures Accounts(Execute(w))
    decreases |w.slots[w.jiffies % TVR_SIZE]|
  {
    if w.slots[w.jiffies % TVR_SIZE] != [] {
      ExecuteAccounts(ExecuteOne(w));
    }
  }

  lemma UpdateAccounts(w: State)
    requires |w.slots| == SLOTS && Accounts(w)
    ensures Accounts(Update(w))
  {
    ExecuteAccounts(w);
    ExecuteAccounts(Sections(w).(jiffies := w.jiffies + 1));
  }

  lemma UpdateFrame(w: State)
    requires |w.slots| == SLOTS
    ensures var r := Update(w);
      r.jiffies == w.jiffies + 1 && r.ids == w.ids && r.born == w.born && r.stopped == w.stopped && w.fired <= r.fired
    ensures Update(w).slots[(w.jiffies + 1) % TVR_SIZE] == []
  {
  }

  lemma UpdateBetween(w: State)
    requires Between(w)
    ensures Between(Update(w))
  {
    UpdateKeeps(w);
    UpdateAccounts(w);
    UpdateFrame(w);
    var r := Update(w);
    forall n: nat | n < |r.fired| ensures r.fired[n].id in r.born && r.born[r.fired[n].id].tick < r.jiffies {
      FiredIsBorn(r, n);
    }
  }

  lemma FiredIsBorn(w: State, n: nat)
    requires HistoryOk(w) && n < |w.fired|
    ensures w.fired[n].id in w.born && w.fired[n].tick == FiringTick(w.born[w.fired[n].id])
  {
  }

  lemma StartBetween(w: State, ticks: int)
    requires Between(w)
    ensures Between(StartTimer(w, ticks))
  {
    StartInv(w, ticks);
    StartCounts(w, ticks);
    StartFresh(w, ticks);
  }

  lemma StartInv(w: State, ticks: int)
    requires Inv(w, Idle) && w.ids !in w.born
    ensures Inv(StartTimer(w, ticks), Idle)
  {
    var v := w.(ids := w.ids + 1, size := w.size + 1);
    CountersApart(w, v, Idle);
    InsertKeeps(v, Idle, w.ids, w.jiffies + ticks);
  }

  lemma StartCounts(w: State, ticks: int)
    requires |w.slots| == SLOTS && w.live <= w.born.Keys && Accounts(w) && BornWhole(w) && FiredLater(w)
    ensures var r := StartTimer(w, ticks);
      && Accounts(r) && BornWhole(r) && FiredLater(r)
      && r.born[w.ids] == Birth(w.jiffies, w.jiffies, w.jiffies + ticks) && r.stopped == w.stopped
  {
    var r := StartTimer(w, ticks);
    assert w.ids !in w.live;
    assert |r.live| == |w.live| + 1;
  }

  lemma StartFresh(w: State, ticks: int)
    requires |w.slots| == SLOTS && Fresh(w) && w.ids !in w.born
    ensures Fresh(StartTimer(w, ticks))
  {
    var r := StartTimer(w, ticks);
    var near := w.slots[w.jiffies % TVR_SIZE];
    var e := Entry(w.ids, w.jiffies + ticks, w.jiffies);
    assert r.slots[w.jiffies % TVR_SIZE] == near || r.slots[w.jiffies % TVR_SIZE] == near + [e];
  }

  lemma StopBetween(w: State, id: nat)
    requires Between(w)
    ensures Between(StopTimer(w, id))
  {
    StopKeeps(w, Idle, id);
  }

  lemma ApplyBetween(w: State, op: Op)
    requires Between(w)
    ensures Between(Apply(w, op))
  {
    match op
    case Start(ticks) => StartBetween(w, ticks);
    case Stop(id) => StopBetween(w, id);
    case Tick => UpdateBetween(w);
  }

  lemma {:induction false} RunBetween(w: State, ops: seq<Op>)
    requires Between(w)
    ensures Between(Run(w, ops))
    decreases |ops|
  {
    if ops != [] {
      ApplyBetween(w, ops[0]);
      RunBetween(Apply(w, ops[0]), ops[1..]);
    }
  }

  lemma InitBetween()
    ensures Between(Init())
  {
    InitInv();
  }

  lemma {:induction false} RunSplit(w: State, a: seq<Op>, b: seq<Op>)
    requires |w.slots| == SLOTS
    ensures Run(w, a + b) == Run(Run(w, a), b)
    decreases |a|
  {
    if a == [] {
      assert a + b == b;
    } else {
      assert (a + b)[0] == a[0] && (a + b)[1..] == a[1..] + b;
      RunSplit(Apply(w, a[0]), a[1..], b);
    }
  }

  /** What one operation does to the history of an inserted timer. */
  lemma ApplyHistory(w: State, op: Op, id: nat)
    requires Between(w) && id in w.born
    ensures var r := Apply(w, op);
      && id in r.born && r.born[id] == w.born[id]
      && r.jiffies == w.jiffies + Updates([op])
      && (id in w.stopped ==> id in r.stopped)
      && (id !in w.stopped && op != Stop(id) ==> id !in r.stopped)
  {
    if op.Tick? {
      UpdateFrame(w);
    }
  }

  /** A run keeps the history of an inserted timer, and stops it only by a `Stop` of its own id. */
  lemma {:induction false} RunHistory(w: State, ops: seq<Op>, id: nat)
    requires Between(w) && id in w.born
    ensures var r := Run(w, ops);
      && id in r.born && r.born[id] == w.born[id]
      && r.jiffies == w.jiffies + Updates(ops)
      && (id in w.stopped ==> id in r.stopped)
      && (id !in w.stopped && Stop(id) !in ops ==> id !in r.stopped)
    decreases |ops|
  {
    if ops != [] {
      ApplyBetween(w, ops[0]);
      ApplyHistory(w, ops[0], id);
      RunHistory(Apply(w, ops[0]), ops[1..], id);
    }
  }

  lemma {:induction false} TicksOf(fired: seq<Firing>, id: nat, tick: nat)
    requires forall m: nat, n: nat | m < n < |fired| :: fired[m].id != fired[n].id
    requires forall n: nat | n < |fired| && fired[n].id == id :: fired[n].tick == tick
    ensures FiredTicks(fired, id) == if WasFired(fired, id) then [tick] else []
    decreases |fired|
  {
    if fired != [] {
      var rest := fired[1..];
      TicksOf(rest, id, tick);
      if fired[0].id == id {
        assert !WasFired(rest, id) by {
          forall n: nat | n < |rest| ensures rest[n].id != id {
            assert rest[n] == fired[n + 1];
          }
        }
      } else {
        forall n: nat | n < |fired| && fired[n].id == id ensures WasFired(rest, id) {
          assert rest[n - 1].id == id;
        }
        forall n: nat | n < |rest| && rest[n].id == id ensures WasFired(fired, id) {
          assert fired[n + 1].id == id;
        }
      }
    }
  }

  /** An entry still linked between updates was started at this very tick or is due later. */
  lemma LinkedIsEarly(w: State, k: nat, n: nat)
    requires Between(w) && k < SLOTS && n < |w.slots[k]|
    ensures w.slots[k][n].id in w.born
    ensures var b := w.born[w.slots[k][n].id]; b.tick == w.jiffies || w.jiffies < FiringTick(b)
  {
    var e := w.slots[k][n];
    assert EntryOk(w, Idle, k, e);
    if k >= TVR_SIZE {
      NextCascadeReaches(w.jiffies, LevelOf(k), IndexOf(k));
      WidthMultiple(NextCascade(w.jiffies, LevelOf(k), IndexOf(k)), LevelOf(k));
    }
  }

  /** A timer whose tick an update has reached is no longer pending. */
  lemma ReachedIsGone(w: State, id: nat)
    requires Between(w) && id in w.born && w.born[id].tick < w.jiffies && FiringTick(w.born[id]) <= w.jiffies
    ensures id !in w.live
  {
    if id in w.live {
      var k: nat, n: nat :| k < SLOTS && n < |w.slots[k]| && w.slots[k][n].id == id;
      LinkedIsEarly(w, k, n);
    }
  }

  lemma RunOne(w: State, op: Op)
    requires |w.slots| == SLOTS
    ensures Run(w, [op]) == Apply(w, op)
  {
    assert Run(Apply(w, op), [op][1..]) == Apply(w, op);
  }

  /** A run with one operation singled out. */
  lemma RunAround(pre: seq<Op>, op: Op, post: seq<Op>)
    ensures var before := Run(Init(), pre);
      var after := Run(Init(), pre + [op] + post);
      && Between(before) && Between(Apply(before, op)) && Between(after)
      && after == Run(Apply(before, op), post)
  {
    var before := Run(Init(), pre);
    InitBetween();
    RunBetween(Init(), pre);
    ApplyBetween(before, op);
    var next := Apply(before, op);
    RunBetween(next, post);
    RunOne(before, op);
    RunSplit(Init(), pre, [op]);
    RunSplit(Init(), pre + [op], post);
  }

  lemma FireAtIsFiringTick(b: Birth, j: nat, e: int)
    requires b == Birth(j, j, e)
    ensures FiringTick(b) == FireAt(j, e)
  {
  }

  lemma TicksOfBorn(w: State, id: nat)
    requires HistoryOk(w) && id in w.born
    ensures FiredTicks(w.fired, id) ==
      if WasFired(w.fired, id) then [FiringTick(w.born[id])] else []
    ensures WasFired(w.fired, id) ==> FiringTick(w.born[id]) <= w.jiffies
  {
    forall n: nat | n < |w.fired| && w.fired[n].id == id ensures w.fired[n].tick == FiringTick(w.born[id]) {
      FiredIsBorn(w, n);
    }
    TicksOf(w.fired, id, FiringTick(w.born[id]));
  }

  /** Between operations, the callback of a timer started by a whole `startTimer` and not stopped has been
      invoked just when an update has reached its tick. */
  lemma FiredOnTime(w: State, id: nat)
    requires Between(w) && id in w.born && id !in w.stopped
    ensures var due := FiringTick(w.born[id]);
      FiredTicks(w.fired, id) == if w.born[id].tick < w.jiffies && due <= w.jiffies then [due] else []
  {
    if w.born[id].tick < w.jiffies && FiringTick(w.born[id]) <= w.jiffies {
      ReachedIsGone(w, id);
      assert WasFired(w.fired, id);
    }
    TicksOfBorn(w, id);
  }

  lemma FiresAfter(started: State, id: nat, post: seq<Op>)
    requires Between(started) && id in started.born && started.born[id].tick == started.jiffies
    requires id !in started.stopped && Stop(id) !in post
    ensures var after := Run(started, post);
      var due := FiringTick(started.born[id]);
      && after.jiffies == started.jiffies + Updates(post)
      && FiredTicks(after.fired, id) == if Updates(post) > 0 && due <= after.jiffies then [due] else []
  {
    RunBetween(started, post);
    RunHistory(started, post, id);
    FiredOnTime(Run(started, post), id);
  }

  lemma FiresAt(started: State, id: nat, j: nat, e: int, post: seq<Op>)
    requires Between(started) && id in started.born && started.born[id] == Birth(j, j, e) && j == started.jiffies
    requires id !in started.stopped && Stop(id) !in post
    ensures var after := Run(started, post);
      && after.jiffies == j + Updates(post)
      && FiredTicks(after.fired, id) ==
        if Updates(post) > 0 && FireAt(j, e) <= after.jiffies then [FireAt(j, e)] else []
  {
    FireAtIsFiringTick(started.born[id], j, e);
    FiresAfter(started, id, post);
  }

  /** The state right after a timer was started in a run. */
  lemma StartInRun(pre: seq<Op>, ticks: int, post: seq<Op>) returns (started: State)
    ensures var before := Run(Init(), pre);
      && Between(started)
      && Run(Init(), pre + [Start(ticks)] + post) == Run(started, post)
      && started.jiffies == before.jiffies
      && before.ids in started.born && before.ids !in started.stopped
      && started.born[before.ids] == Birth(before.jiffies, before.jiffies, before.jiffies + ticks)
  {
    var before := Run(Init(), pre);
    RunAround(pre, Start(ticks), post);
    StartCounts(before, ticks);
    assert before.ids !in before.born;
    started := Apply(before, Start(ticks));
  }

  /** The firing tick theorem. In any run in which a timer is started at tick `j` and never stopped, its
      callback has been invoked exactly once, at tick FireAt(j, j + ticks), as soon as an update has
      reached that tick, and not at all before. */
  lemma {:induction false} ExactFiring(pre: seq<Op>, ticks: int, post: seq<Op>)
    requires Stop(Run(Init(), pre).ids) !in post
    ensures var before := Run(Init(), pre);
      var after := Run(Init(), pre + [Start(ticks)] + post);
      var u := Updates(post);
      var due := FireAt(before.jiffies, before.jiffies + ticks);
      && after.jiffies == before.jiffies + u
      && FiredTicks(after.fired, before.ids) == if u > 0 && due <= after.jiffies then [due] else []
  {
    hide Run, FiredTicks;
    var before := Run(Init(), pre);
    var started := StartInRun(pre, ticks, post);
    FiresAt(started, before.ids, before.jiffies, before.jiffies + ticks, post);
  }

  /** Over every run of whole operations: started = fired + stopped + m_size; the ids with an entry in the table
      are exactly those started and neither fired nor stopped; each of these is linked in one of the 512 lists,
      and no id is linked twice. */
  lemma Conservation(ops: seq<Op>)
    ensures var w := Run(Init(), ops);
      && w.ids == |w.fired| + |w.stopped| + w.size
      && w.size == |w.live|
      && (forall id: nat :: id in w.live <==> id < w.ids && !WasFired(w.fired, id) && id !in w.stopped)
      && (forall id | id in w.live :: Linked(w.slots, id)) && Unique(w.slots)
  {
    InitBetween();
    RunBetween(Init(), ops);
    var w := Run(Init(), ops);
    forall id: nat | id in w.live ensures !WasFired(w.fired, id) {
      assert HistoryOk(w);
    }
  }

  /** A timer that `stopTimer` took out of the table never fires, however the run goes on. */
  lemma StoppedNeverFires(pre: seq<Op>, id: nat, post: seq<Op>)
    requires id in Run(Init(), pre).live
    ensures FiredTicks(Run(Init(), pre + [Stop(id)] + post).fired, id) == []
  {
    RunAround(pre, Stop(id), post);
    var stopped := StopTimer(Run(Init(), pre), id);
    RunHistory(stopped, post, id);
    var after := Run(stopped, post);
    forall n: nat | n < |after.fired| ensures after.fired[n].id != id {
      assert HistoryOk(after);
    }
    TicksOf(after.fired, id, 0);
  }

  /** An entry whose expiry was more than 2^32 - 1 ticks ahead when it was put where it is. */
  predicate IsClamped(e: Entry) {
    e.expired - e.linked > MAX_TVAL
  }

  /** Between updates, the cascade reaches a bucket slot that holds an entry within one revolution of the level:
      an entry that is not clamped is in the slot its expiry names, and is reached exactly at the start of the
      block of its expiry; a clamped entry is in the top bucket, and is reached strictly before its expiry. An
      entry is linked no earlier than its timer was started, so a timer whose delay needed no clamp is never
      clamped. */
  lemma PlacementInvariant(ops: seq<Op>, k: nat, n: nat)
    requires TVR_SIZE <= k < SLOTS && n < |Run(Init(), ops).slots[k]|
    ensures var w := Run(Init(), ops);
      var level := LevelOf(k);
      var e := w.slots[k][n];
      var t := NextCascade(w.jiffies, level, IndexOf(k));
      && e.id in w.born && w.born[e.id].tick <= e.linked <= w.jiffies
      && Reaches(t, level, IndexOf(k))
      && w.jiffies <= t < w.jiffies + TVN_SIZE * Width(level)
      && (!IsClamped(e) ==> t == BlockStart(e.expired, level) && IndexOf(k) == e.expired / Width(level) % TVN_SIZE)
      && (IsClamped(e) ==> level == 3 && t == BlockStart(e.linked + MAX_TVAL, 3) && t < e.expired)
  {
    InitBetween();
    RunBetween(Init(), ops);
    var w := Run(Init(), ops);
    assert EntryOk(w, Idle, k, w.slots[k][n]);
    PlacedMeans(w.jiffies, k, w.slots[k][n]);
  }

  lemma PlacedMeans(jiffies: nat, k: nat, e: Entry)
    requires TVR_SIZE <= k < SLOTS && Placed(jiffies, Idle, k, e.expired, e.linked)
    ensures var level := LevelOf(k);
      var t := NextCascade(jiffies, level, IndexOf(k));
      && Reaches(t, level, IndexOf(k))
      && jiffies <= t < jiffies + TVN_SIZE * Width(level)
      && (!IsClamped(e) ==> t == BlockStart(e.expired, level) && IndexOf(k) == e.expired / Width(level) % TVN_SIZE)
      && (IsClamped(e) ==> level == 3 && t == BlockStart(e.linked + MAX_TVAL, 3) && t < e.expired)
  {
    NextCascadeReaches(jiffies, LevelOf(k), IndexOf(k));
    BlockReaches(Clamped(e.expired, e.linked), LevelOf(k));
  }
}
