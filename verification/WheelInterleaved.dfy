/** The timer under interleaving: `update` one loop turn at a time, `startTimer` split between computing the
    expiry and linking the entry, and `stopTimer` at any moment. */
module WheelInterleaved {
  import opened WheelArith
  import opened Wheel
  import opened WheelInvariant

  /** `starting` maps the id of a timer whose `startTimer` has not reached the lock to its expiry;
      `locked` says that a section of `update` is in the middle of its loop, holding the list lock. */
  datatype Timing = Timing(w: State, ph: Phase, locked: bool, starting: map<nat, int>)

  datatype Action = BeginStart(ticks: int) | FinishStart(id: nat) | Cancel(id: nat) | Advance

  function Begin(): Timing {
    Timing(Init(), Idle, false, map[])
  }

  predicate Enabled(s: Timing, a: Action) {
    a.FinishStart? ==> a.id in s.starting && !s.locked
  }

  ghost predicate Shape(s: Timing) {
    |s.w.slots| == SLOTS && PhaseOk(s.w.jiffies, s.ph)
  }

  /** One turn of the thread that runs `update`: a loop turn of a section, the end of a section, or the
      increment of the counter. */
  function AdvanceUpdate(s: Timing): (r: Timing)
    requires Shape(s)
    ensures Shape(r)
  {
    match s.ph
    case Cascading(level) =>
      if level == WHEEL_BUCKETS then
        s.(w := s.w.(jiffies := s.w.jiffies + 1), ph := Ticked)
      else if s.w.slots[CascadeSlot(s.w, level)] != [] then
        s.(w := CascadeOne(s.w, level), locked := true)
      else
        NextLevelAligned(s.w.jiffies, level);
        s.(ph := AfterCascade(s.w.jiffies, level), locked := false)
    case _ =>
      if s.w.slots[s.w.jiffies % TVR_SIZE] != [] then
        s.(w := ExecuteOne(s.w), locked := true)
      else
        s.(ph := if s.ph.Idle? then AfterExecute(s.w.jiffies) else Idle, locked := false)
  }

  function Next(s: Timing, a: Action): (r: Timing)
    requires Shape(s) && Enabled(s, a)
    ensures Shape(r)
  {
    match a
    case BeginStart(ticks) =>
      s.(w := s.w.(ids := s.w.ids + 1, size := s.w.size + 1),
         starting := s.starting[s.w.ids := s.w.jiffies + ticks])
    case FinishStart(id) =>
      s.(w := Insert(s.w, s.ph, id, s.starting[id]), starting := s.starting - {id})
    case Cancel(id) =>
      s.(w := StopTimer(s.w, id))
    case Advance =>
      AdvanceUpdate(s)
  }

  /** A run; a step that is not enabled waits, which leaves the state as it is. */
  function Steps(s: Timing, actions: seq<Action>): (r: Timing)
    requires Shape(s)
    ensures Shape(r)
    decreases |actions|
  {
    if actions == [] then s
    else Steps(if Enabled(s, actions[0]) then Next(s, actions[0]) else s, actions[1..])
  }

  ghost predicate Counts(s: Timing) {
    && s.w.size == |s.w.live| + |s.starting|
    && s.w.ids == |s.w.fired| + |s.w.stopped| + s.w.size
  }

  /** Each id handed out was inserted or is being started. */
  ghost predicate Births(s: Timing) {
    && s.starting.Keys !! s.w.born.Keys
    && (forall id: nat :: id in s.w.born || id in s.starting <==> id < s.w.ids)
    && (forall id: nat | id in s.w.born ::
          s.w.born[id].tick <= s.w.born[id].from <= s.w.born[id].tick + 1 && s.w.born[id].tick <= s.w.jiffies)
  }

  /** The invariant of the sections, and the counts with the timers that are being started. */
  ghost predicate Safe(s: Timing) {
    Inv(s.w, s.ph) && Births(s) && Counts(s)
  }

  lemma AdvanceKeeps(s: Timing)
    requires Inv(s.w, s.ph)
    ensures Inv(AdvanceUpdate(s).w, AdvanceUpdate(s).ph)
  {
    if s.ph.Cascading? {
      AdvanceCascade(s, s.ph.next);
    } else {
      AdvanceExecute(s);
    }
  }

  lemma AdvanceCascade(s: Timing, level: nat)
    requires Inv(s.w, s.ph) && s.ph == Cascading(level)
    ensures Inv(AdvanceUpdate(s).w, AdvanceUpdate(s).ph)
  {
    if level == WHEEL_BUCKETS {
      TickKeeps(s.w);
    } else if s.w.slots[CascadeSlot(s.w, level)] != [] {
      CascadeOneKeeps(s.w, level);
    } else {
      LeaveCascade(s.w, level);
    }
  }

  lemma AdvanceExecute(s: Timing)
    requires Inv(s.w, s.ph) && !s.ph.Cascading?
    ensures Inv(AdvanceUpdate(s).w, AdvanceUpdate(s).ph)
  {
    if s.w.slots[s.w.jiffies % TVR_SIZE] != [] {
      ExecuteOneKeeps(s.w, s.ph);
    } else if s.ph.Idle? {
      LeaveExecute(s.w);
    } else {
      TickedIsIdle(s.w);
    }
  }

  lemma AdvanceCounts(s: Timing)
    requires Shape(s) && Births(s) && Counts(s)
    ensures Births(AdvanceUpdate(s)) && Counts(AdvanceUpdate(s))
  {
    if !s.ph.Cascading? && s.w.slots[s.w.jiffies % TVR_SIZE] != [] {
      var r := ExecuteOne(s.w);
      var e := s.w.slots[s.w.jiffies % TVR_SIZE][0];
      if e.id in s.w.live {
        assert |r.live| == |s.w.live| - 1;
      }
    }
  }

  lemma BeginSafe(s: Timing, ticks: int)
    requires Safe(s)
    ensures Safe(Next(s, BeginStart(ticks)))
  {
    CountersApart(s.w, Next(s, BeginStart(ticks)).w, s.ph);
    BeginCounts(s, ticks);
  }

  lemma BeginCounts(s: Timing, ticks: int)
    requires Shape(s) && Births(s) && Counts(s)
    ensures Births(Next(s, BeginStart(ticks))) && Counts(Next(s, BeginStart(ticks)))
  {
    var r := Next(s, BeginStart(ticks));
    assert s.w.ids !in s.starting;
    assert r.starting.Keys == s.starting.Keys + {s.w.ids};
    assert |r.starting| == |r.starting.Keys| == |s.starting.Keys| + 1;
  }

  lemma FinishSafe(s: Timing, id: nat)
    requires Safe(s) && Enabled(s, FinishStart(id))
    ensures Safe(Next(s, FinishStart(id)))
  {
    InsertKeeps(s.w, s.ph, id, s.starting[id]);
    FinishCounts(s, Next(s, FinishStart(id)), id);
  }

  lemma FinishCounts(s: Timing, r: Timing, id: nat)
    requires Births(s) && Counts(s) && s.w.live <= s.w.born.Keys && id in s.starting
    requires r.starting == s.starting - {id} && r.w.live == s.w.live + {id}
    requires id in r.w.born && r.w.born == s.w.born[id := r.w.born[id]] && r.w.jiffies == s.w.jiffies
    requires s.w.jiffies == r.w.born[id].tick <= r.w.born[id].from <= s.w.jiffies + 1
    requires r.w.size == s.w.size && r.w.ids == s.w.ids && r.w.fired == s.w.fired && r.w.stopped == s.w.stopped
    ensures Births(r) && Counts(r)
  {
    assert id !in s.w.live;
    assert r.starting.Keys == s.starting.Keys - {id};
    assert |r.starting| == |r.starting.Keys| == |s.starting.Keys| - 1;
  }

  lemma NextSafe(s: Timing, a: Action)
    requires Safe(s) && Enabled(s, a)
    ensures Safe(Next(s, a))
  {
    match a
    case BeginStart(ticks) => BeginSafe(s, ticks);
    case FinishStart(id) => FinishSafe(s, id);
    case Cancel(id) => StopKeeps(s.w, s.ph, id);
    case Advance => AdvanceKeeps(s); AdvanceCounts(s);
  }

  lemma {:induction false} StepsSafe(s: Timing, actions: seq<Action>)
    requires Safe(s)
    ensures Safe(Steps(s, actions))
    decreases |actions|
  {
    if actions != [] {
      if Enabled(s, actions[0]) {
        NextSafe(s, actions[0]);
        StepsSafe(Next(s, actions[0]), actions[1..]);
      } else {
        StepsSafe(s, actions[1..]);
      }
    }
  }

  lemma BeginIsSafe()
    ensures Safe(Begin())
  {
    InitInv();
  }

  /** The later of the expiry and the tick at which the entry was linked. */
  function Latest(b: Birth): int {
    if b.expired > b.tick then b.expired else b.tick
  }

  /** A firing tick is never before the expiry nor before the insertion, and at most one revolution after
      the later of the two. */
  lemma FiringTickBounds(b: Birth)
    requires b.tick <= b.from <= b.tick + 1
    ensures Latest(b) <= FiringTick(b) <= Latest(b) + TVR_SIZE
  {
  }

  lemma LinkedNotLate(s: Timing, k: nat, n: nat)
    requires Safe(s) && k < SLOTS && n < |s.w.slots[k]|
    ensures s.w.slots[k][n].id in s.w.born
    ensures s.w.jiffies <= FiringTick(s.w.born[s.w.slots[k][n].id])
  {
    var e := s.w.slots[k][n];
    assert EntryOk(s.w, s.ph, k, e);
    if k >= TVR_SIZE {
      NextCascadeReaches(CascadeFrom(s.w.jiffies, s.ph, LevelOf(k)), LevelOf(k), IndexOf(k));
    }
  }

  /** In every interleaving: a timer fires at most once, at the tick that its expiry and the moment of its
      insertion fix, which is never before either of them and at most 256 ticks after the later; a timer that was
      neither stopped nor called has not passed that tick; a stopped timer is never called. The counts add up with
      the timers that are being started. */
  lemma InterleavedBound(actions: seq<Action>)
    ensures var s := Steps(Begin(), actions);
      && (forall n: nat | n < |s.w.fired| ::
            && s.w.fired[n].id in s.w.born
            && var b := s.w.born[s.w.fired[n].id];
               s.w.fired[n].tick == FiringTick(b) && Latest(b) <= FiringTick(b) <= Latest(b) + TVR_SIZE)
      && (forall m: nat, n: nat | m < n < |s.w.fired| :: s.w.fired[m].id != s.w.fired[n].id)
      && (forall id: nat | id in s.w.born && id !in s.w.stopped && !WasFired(s.w.fired, id) ::
            s.w.jiffies <= FiringTick(s.w.born[id]) <= Latest(s.w.born[id]) + TVR_SIZE)
      && (forall id: nat | id in s.w.stopped :: !WasFired(s.w.fired, id))
      && s.w.ids == |s.w.fired| + |s.w.stopped| + s.w.size
      && s.w.size == |s.w.live| + |s.starting|
  {
    var s := Steps(Begin(), actions);
    BeginIsSafe();
    StepsSafe(Begin(), actions);
    forall n: nat | n < |s.w.fired|
      ensures s.w.fired[n].id in s.w.born
      ensures var b := s.w.born[s.w.fired[n].id];
        s.w.fired[n].tick == FiringTick(b) && Latest(b) <= FiringTick(b) <= Latest(b) + TVR_SIZE
    {
      assert HistoryOk(s.w);
      FiringTickBounds(s.w.born[s.w.fired[n].id]);
    }
    forall id: nat | id in s.w.born && id !in s.w.stopped && !WasFired(s.w.fired, id)
      ensures s.w.jiffies <= FiringTick(s.w.born[id]) <= Latest(s.w.born[id]) + TVR_SIZE
    {
      var k: nat, n: nat :| k < SLOTS && n < |s.w.slots[k]| && s.w.slots[k][n].id == id;
      LinkedNotLate(s, k, n);
      FiringTickBounds(s.w.born[id]);
    }
  }

  // ---------- The delay that was asked for ----------

  /** What a step does to a timer whose id is handed out: an expiry that waits for its insertion stays, and an
      insertion is not undone or changed. */
  lemma NextHistory(s: Timing, a: Action, id: nat)
    requires Shape(s) && Births(s) && Enabled(s, a) && id < s.w.ids
    ensures var r := Next(s, a);
      && id < r.w.ids
      && (id in r.starting ==> id in s.starting && r.starting[id] == s.starting[id])
      && (id in s.w.born ==> id in r.w.born && r.w.born[id] == s.w.born[id])
      && (id in s.w.stopped ==> id in r.w.stopped)
      && (id in r.w.stopped ==> id in s.w.stopped || a == Cancel(id))
  {
  }

  lemma {:induction false} StepsHistory(s: Timing, actions: seq<Action>, id: nat)
    requires Safe(s) && id < s.w.ids
    ensures var r := Steps(s, actions);
      && id < r.w.ids
      && (id in r.starting ==> id in s.starting && r.starting[id] == s.starting[id])
      && (id in s.w.born ==> id in r.w.born && r.w.born[id] == s.w.born[id])
      && (id in r.w.stopped ==> id in s.w.stopped || Cancel(id) in actions)
    decreases |actions|
  {
    if actions != [] {
      if Enabled(s, actions[0]) {
        NextSafe(s, actions[0]);
        NextHistory(s, actions[0], id);
        StepsHistory(Next(s, actions[0]), actions[1..], id);
      } else {
        StepsHistory(s, actions[1..], id);
      }
    }
  }

  lemma {:induction false} StepsSplit(s: Timing, a: seq<Action>, b: seq<Action>)
    requires Shape(s)
    ensures Steps(s, a + b) == Steps(Steps(s, a), b)
    decreases |a|
  {
    if a == [] {
      assert a + b == b;
    } else {
      assert (a + b)[0] == a[0] && (a + b)[1..] == a[1..] + b;
      StepsSplit(if Enabled(s, a[0]) then Next(s, a[0]) else s, a[1..], b);
    }
  }

  lemma StepsOne(s: Timing, a: Action)
    requires Shape(s)
    ensures Steps(s, [a]) == if Enabled(s, a) then Next(s, a) else s
  {
    assert [a][1..] == [];
  }

  /** Until it is linked, a timer waits with the expiry computed at its start. */
  lemma WaitsAsAsked(s: Timing, ticks: int, mid: seq<Action>)
    requires Safe(s)
    ensures var m := Steps(Next(s, BeginStart(ticks)), mid);
      Safe(m) && s.w.ids < m.w.ids && (s.w.ids in m.starting ==> m.starting[s.w.ids] == s.w.jiffies + ticks)
  {
    NextSafe(s, BeginStart(ticks));
    StepsHistory(Next(s, BeginStart(ticks)), mid, s.w.ids);
    StepsSafe(Next(s, BeginStart(ticks)), mid);
  }

  /** A timer that is linked keeps the history of that moment. */
  lemma StaysAsLinked(m: Timing, id: nat, post: seq<Action>)
    requires Safe(m) && Enabled(m, FinishStart(id)) && id < m.w.ids
    ensures var r := Steps(Next(m, FinishStart(id)), post);
      && Safe(r) && id in r.w.born
      && r.w.born[id] == Birth(m.w.jiffies, ExecuteFrom(m.w.jiffies, m.ph), m.starting[id])
      && (id in r.w.stopped ==> Cancel(id) in post)
  {
    var f := Next(m, FinishStart(id));
    NextSafe(m, FinishStart(id));
    NotYetStopped(m, id);
    StepsHistory(f, post, id);
    StepsSafe(f, post);
  }

  /** The history of a timer from the computation of its expiry: it is the tick at that moment plus the delay, and
      it is what the timer is inserted with, whatever happens in between. */
  lemma BornAsAsked(s: Timing, ticks: int, mid: seq<Action>, post: seq<Action>)
    requires Safe(s)
    requires Enabled(Steps(Next(s, BeginStart(ticks)), mid), FinishStart(s.w.ids))
    ensures var id := s.w.ids;
      var m := Steps(Next(s, BeginStart(ticks)), mid);
      var r := Steps(Next(m, FinishStart(id)), post);
      && Safe(r) && id in r.w.born
      && r.w.born[id] == Birth(m.w.jiffies, ExecuteFrom(m.w.jiffies, m.ph), s.w.jiffies + ticks)
      && (id in r.w.stopped ==> Cancel(id) in post)
  {
    hide Next, Steps;
    WaitsAsAsked(s, ticks, mid);
    StaysAsLinked(Steps(Next(s, BeginStart(ticks)), mid), s.w.ids, post);
  }

  lemma NotYetStopped(s: Timing, id: nat)
    requires Safe(s) && id in s.starting
    ensures id !in s.w.stopped && id !in s.w.born
  {
    assert HistoryOk(s.w);
  }

  /** The run that a start cut in two is part of. */
  function StartedRun(pre: seq<Action>, ticks: int, mid: seq<Action>, id: nat, post: seq<Action>): seq<Action> {
    pre + ([BeginStart(ticks)] + (mid + ([FinishStart(id)] + post)))
  }

  lemma StartedSteps(pre: seq<Action>, ticks: int, mid: seq<Action>, id: nat, post: seq<Action>)
    ensures Steps(Begin(), StartedRun(pre, ticks, mid, id, post)) ==
      Steps(Steps(Steps(Steps(Steps(Begin(), pre), [BeginStart(ticks)]), mid), [FinishStart(id)]), post)
  {
    hide Next;
    StepsSplit(Begin(), pre, [BeginStart(ticks)] + (mid + ([FinishStart(id)] + post)));
    var s := Steps(Begin(), pre);
    StepsSplit(s, [BeginStart(ticks)], mid + ([FinishStart(id)] + post));
    var b := Steps(s, [BeginStart(ticks)]);
    StepsSplit(b, mid, [FinishStart(id)] + post);
    StepsSplit(Steps(b, mid), [FinishStart(id)], post);
  }

  /** When a start cut in two fires. Take any run in which a timer computes its expiry at tick `j`, with a delay of
      `ticks`, and is linked at tick `t`, with anything before, between and after. Its callback is invoked at most
      once; never before tick j + ticks nor before tick `t`, and at most 256 ticks after the later of the two; and
      unless it is stopped, it has been invoked as soon as that time is over. */
  lemma InterleavedStart(pre: seq<Action>, ticks: int, mid: seq<Action>, post: seq<Action>)
    requires var s := Steps(Begin(), pre);
      Enabled(Steps(Next(s, BeginStart(ticks)), mid), FinishStart(s.w.ids))
    ensures var s := Steps(Begin(), pre);
      var id := s.w.ids;
      var m := Steps(Next(s, BeginStart(ticks)), mid);
      var r := Steps(Begin(), StartedRun(pre, ticks, mid, id, post));
      var later := if s.w.jiffies + ticks > m.w.jiffies then s.w.jiffies + ticks else m.w.jiffies;
      && id in r.w.born
      && r.w.born[id] == Birth(m.w.jiffies, ExecuteFrom(m.w.jiffies, m.ph), s.w.jiffies + ticks)
      && (forall n: nat | n < |r.w.fired| && r.w.fired[n].id == id ::
            r.w.fired[n].tick == FiringTick(r.w.born[id]) && later <= r.w.fired[n].tick <= later + TVR_SIZE)
      && (forall k: nat, n: nat | k < n < |r.w.fired| :: r.w.fired[k].id != r.w.fired[n].id)
      && (Cancel(id) !in post && r.w.jiffies > later + TVR_SIZE ==> WasFired(r.w.fired, id))
  {
    var s := Steps(Begin(), pre);
    var id := s.w.ids;
    BeginIsSafe();
    StepsSafe(Begin(), pre);
    BornAsAsked(s, ticks, mid, post);
    StartedSteps(pre, ticks, mid, id, post);
    StepsOne(s, BeginStart(ticks));
    StepsOne(Steps(Next(s, BeginStart(ticks)), mid), FinishStart(id));
    InterleavedBound(StartedRun(pre, ticks, mid, id, post));
  }

  lemma TwoHalves(w: State, starting: map<nat, int>, ticks: int)
    requires |w.slots| == SLOTS && w.ids !in starting
    ensures var b := Next(Timing(w, Idle, false, starting), BeginStart(ticks));
      Enabled(b, FinishStart(w.ids))
      && Next(b, FinishStart(w.ids)) == Timing(StartTimer(w, ticks), Idle, false, starting)
  {
    hide SlotFor;
    assert starting[w.ids := w.jiffies + ticks] - {w.ids} == starting;
  }

  /** The two halves of a start, with nothing in between and no update under way, are the whole operation. */
  lemma StartIsBeginFinish(w: State, starting: map<nat, int>, ticks: int)
    requires |w.slots| == SLOTS && w.ids !in starting
    ensures Steps(Timing(w, Idle, false, starting), [BeginStart(ticks)] + [FinishStart(w.ids)]) ==
      Timing(StartTimer(w, ticks), Idle, false, starting)
  {
    hide Next, StartTimer;
    var s := Timing(w, Idle, false, starting);
    TwoHalves(w, starting, ticks);
    StepsOne(s, BeginStart(ticks));
    StepsOne(Next(s, BeginStart(ticks)), FinishStart(w.ids));
    StepsSplit(s, [BeginStart(ticks)], [FinishStart(w.ids)]);
  }

  // ---------- Whole operations are interleaved runs in which nobody else moves ----------

  function Advances(n: nat): seq<Action> {
    seq(n, _ => Advance)
  }

  lemma AdvanceFirst(s: Timing, n: nat)
    requires Shape(s)
    ensures Steps(s, Advances(n + 1)) == Steps(AdvanceUpdate(s), Advances(n))
  {
    assert Advances(n + 1)[1..] == Advances(n);
  }

  lemma {:induction false} AdvanceMore(s: Timing, m: nat, n: nat)
    requires Shape(s)
    ensures Steps(s, Advances(m + n)) == Steps(Steps(s, Advances(m)), Advances(n))
    decreases m
  {
    if m > 0 {
      AdvanceFirst(s, m - 1 + n);
      AdvanceFirst(s, m - 1);
      AdvanceMore(AdvanceUpdate(s), m - 1, n);
    }
  }

  lemma {:induction false} ExecuteAdvances(s: Timing) returns (n: nat)
    requires Shape(s) && !s.ph.Cascading?
    ensures Steps(s, Advances(n)) == Timing(
      Execute(s.w), if s.ph.Idle? then AfterExecute(s.w.jiffies) else Idle, false, s.starting)
    decreases |s.w.slots[s.w.jiffies % TVR_SIZE]|
  {
    if s.w.slots[s.w.jiffies % TVR_SIZE] == [] {
      n := 1;
      AdvanceFirst(s, 0);
    } else {
      var m := ExecuteAdvances(AdvanceUpdate(s));
      n := m + 1;
      AdvanceFirst(s, m);
    }
  }

  lemma {:induction false} CascadeAdvances(s: Timing, level: nat) returns (n: nat)
    requires Shape(s) && s.ph == Cascading(level) && level < WHEEL_BUCKETS
    ensures Steps(s, Advances(n)) ==
      Timing(Cascade(s.w, level), AfterCascade(s.w.jiffies, level), false, s.starting)
    decreases |s.w.slots[CascadeSlot(s.w, level)]|
  {
    if s.w.slots[CascadeSlot(s.w, level)] == [] {
      n := 1;
      AdvanceFirst(s, 0);
    } else {
      ReaddedElsewhere(s.w.jiffies, level, s.w.slots[CascadeSlot(s.w, level)][0].expired);
      var m := CascadeAdvances(AdvanceUpdate(s), level);
      n := m + 1;
      AdvanceFirst(s, m);
    }
  }

  lemma {:induction false} ChainAdvances(s: Timing, level: nat) returns (n: nat)
    requires Shape(s) && s.ph == Cascading(level) && !s.locked
    ensures Steps(s, Advances(n)) ==
      Timing(CascadeChain(s.w, level), Cascading(WHEEL_BUCKETS), false, s.starting)
    decreases WHEEL_BUCKETS - level
  {
    if level == WHEEL_BUCKETS {
      n := 0;
    } else {
      n := CascadeAdvances(s, level);
      if CascadeIndex(s.w.jiffies, level) == 0 {
        NextLevelAligned(s.w.jiffies, level);
        var m := ChainAdvances(Steps(s, Advances(n)), level + 1);
        AdvanceMore(s, n, m);
        n := n + m;
      }
    }
  }

  lemma SectionsAdvance(s: Timing) returns (n: nat)
    requires Shape(s) && s.ph == Idle && !s.locked
    ensures Steps(s, Advances(n)) == Timing(Sections(s.w), Cascading(WHEEL_BUCKETS), false, s.starting)
  {
    n := ExecuteAdvances(s);
    if s.w.jiffies % TVR_SIZE == 0 {
      var m := ChainAdvances(Steps(s, Advances(n)), 0);
      AdvanceMore(s, n, m);
      n := n + m;
    }
  }

  lemma TickAdvance(s: Timing) returns (n: nat)
    requires Shape(s) && s.ph == Cascading(WHEEL_BUCKETS) && !s.locked
    ensures Steps(s, Advances(n)) ==
      Timing(Execute(s.w.(jiffies := s.w.jiffies + 1)), Idle, false, s.starting)
  {
    var m := ExecuteAdvances(AdvanceUpdate(s));
    AdvanceFirst(s, m);
    n := m + 1;
  }

  /** `update` run without interference has the effect of the whole operation. */
  lemma UpdateIsAdvances(w: State, starting: map<nat, int>) returns (n: nat)
    requires |w.slots| == SLOTS
    ensures Steps(Timing(w, Idle, false, starting), Advances(n)) == Timing(Update(w), Idle, false, starting)
  {
    var s := Timing(w, Idle, false, starting);
    var m := SectionsAdvance(s);
    var l := TickAdvance(Steps(s, Advances(m)));
    AdvanceMore(s, m, l);
    n := m + l;
  }
}
