/** The counter of blocked tasks: in every run it is the number of parked tasks less the number of wakes that came
    through a used-up entry. */
module ProcessorBlocks {
  import opened Options
  import opened Processor
  import opened ProcessorInvariant

  /** The entry still has the suspend id of its task. */
  predicate IsCurrent(s: State, e: Entry) {
    e.t in s.tasks && s.tasks[e.t].suspendId == e.id
  }

  /** The entries of a set that were handed out on a processor. */
  function Of(s: State, es: set<Entry>, i: nat): set<Entry> {
    set e | e in es && e in s.origin && s.origin[e] == i
  }

  /** The entries handed out on a processor that are used up. */
  function Used(s: State, i: nat): set<Entry> {
    set e | e in s.origin && s.origin[e] == i && !IsCurrent(s, e)
  }

  /** The wakes on a processor past their compare-and-swap. */
  function Post(s: State, i: nat): set<nat> {
    set w | w in s.wakers && s.wakers[w].p == i && !s.wakers[w].WakeCas?
  }

  /** A wake on the processor whose compare-and-swap finds the entry used up. */
  predicate StaleWake(s: State, a: Action, i: nat) {
    a.StepWake? && Enabled(s, a) && s.wakers[a.w].WakeCas? && s.wakers[a.w].p == i && !IsCurrent(s, s.wakers[a.w].e)
  }

  function StaleWakes(s: State, actions: seq<Action>, i: nat): nat
    decreases |actions|
  {
    if actions == [] then 0
    else
      (if StaleWake(s, actions[0], i) then 1 else 0)
      + StaleWakes(if Enabled(s, actions[0]) then Next(s, actions[0]) else s, actions[1..], i)
  }

  /** The counter, after `k` stale wakes. */
  ghost predicate Balance(s: State, i: nat, k: nat) {
    i < |s.procs| && s.procs[i].blocks == |Of(s, s.counted, i)| - |Used(s, i)| + |Post(s, i)| - k
  }

  /** An entry is counted unless its task is about to block with it. */
  ghost predicate StagesOk(s: State) {
    && s.counted <= s.origin.Keys
    && (forall e | e in s.origin && e !in s.counted ::
          s.origin[e] < |s.procs| && s.procs[s.origin[e]].stage == Suspending(e))
    && (forall i: nat | i < |s.procs| && s.procs[i].stage.Suspending? :: s.procs[i].stage.e !in s.counted)
  }

  // ---------- The steps of a processor ----------

  /** No operation of a processor uses an entry up or revives one. */
  lemma OpCurrent(s: State, i: nat, op: Op, e: Entry)
    requires Inv(s) && i < |s.procs| && OpEnabled(s, i, op) && e in s.origin
    ensures IsCurrent(OpNext(s, i, op), e) <==> IsCurrent(s, e)
  {
    assert EntryOk(s, e);
    assert ProcOk(s, i);
  }

  /** A step that leaves entries, counts, wakes and stages alone. */
  ghost predicate Plain(s: State, r: State) {
    && r.origin == s.origin && r.counted == s.counted && r.wakers == s.wakers && |r.procs| == |s.procs|
    && (forall i: nat | i < |s.procs| :: r.procs[i].blocks == s.procs[i].blocks)
    && (forall i: nat | i < |s.procs| ::
          r.procs[i].stage == s.procs[i].stage || (s.procs[i].stage.Blocking? && r.procs[i].stage.Free?))
  }

  lemma PlainPicks(s: State, i: nat, op: Op)
    requires i < |s.procs| && ProcOk(s, i) && OpEnabled(s, i, op) && (op.AddTask? || op.PickWakeup? || op.PickReady?)
    ensures Plain(s, OpNext(s, i, op))
  {
  }

  lemma PlainOps(s: State, i: nat, op: Op)
    requires i < |s.procs| && ProcOk(s, i) && OpEnabled(s, i, op) && !op.Register? && !op.BeginBlock?
    requires !op.AddTask? && !op.PickWakeup? && !op.PickReady?
    ensures Plain(s, OpNext(s, i, op))
  {
  }

  lemma PlainBalance(s: State, r: State, j: nat, k: nat)
    requires Plain(s, r) && Balance(s, j, k)
    requires forall e | e in s.origin :: IsCurrent(r, e) <==> IsCurrent(s, e)
    ensures Balance(r, j, k)
  {
    assert Of(r, r.counted, j) == Of(s, s.counted, j);
    assert Used(r, j) == Used(s, j);
    assert Post(r, j) == Post(s, j);
  }

  lemma PlainStages(s: State, r: State)
    requires Plain(s, r) && StagesOk(s)
    ensures StagesOk(r)
  {
  }

  /** The entry a task registers with is new. */
  lemma RegisterFresh(s: State, i: nat)
    requires Inv(s) && i < |s.procs| && OpEnabled(s, i, Register)
    ensures var e := OpNext(s, i, Register).procs[i].stage.e; e !in s.origin && IsCurrent(s, e)
  {
    var e := OpNext(s, i, Register).procs[i].stage.e;
    assert ProcOk(s, i);
    if e in s.origin {
      NotFreeAndCurrent(s, i, e);
    }
  }

  lemma NotFreeAndCurrent(s: State, i: nat, e: Entry)
    requires Inv(s) && i < |s.procs| && s.procs[i].running == Some(e.t) && s.procs[i].stage.Free?
    ensures e in s.origin ==> !IsCurrent(s, e)
  {
    assert ProcOk(s, i);
    if e in s.origin {
      assert EntryOk(s, e);
    }
  }

  lemma RegisterStep(s: State, i: nat, j: nat, k: nat)
    requires Inv(s) && StagesOk(s) && i < |s.procs| && OpEnabled(s, i, Register) && Balance(s, j, k)
    ensures StagesOk(OpNext(s, i, Register)) && Balance(OpNext(s, i, Register), j, k)
  {
    var r := OpNext(s, i, Register);
    RegisterFresh(s, i);
    assert ProcOk(s, i);
    assert Of(r, r.counted, j) == Of(s, s.counted, j);
    assert Used(r, j) == Used(s, j);
    assert Post(r, j) == Post(s, j);
  }

  lemma BeginBlockStep(s: State, i: nat, j: nat, k: nat)
    requires Inv(s) && StagesOk(s) && i < |s.procs| && OpEnabled(s, i, BeginBlock) && Balance(s, j, k)
    ensures StagesOk(OpNext(s, i, BeginBlock)) && Balance(OpNext(s, i, BeginBlock), j, k)
  {
    BeginBlockStages(s, i);
    BeginBlockBalance(s, i, j, k);
  }

  lemma BeginBlockBalance(s: State, i: nat, j: nat, k: nat)
    requires i < |s.procs| && ProcOk(s, i) && StagesOk(s) && OpEnabled(s, i, BeginBlock) && Balance(s, j, k)
    ensures Balance(OpNext(s, i, BeginBlock), j, k)
  {
    var r := OpNext(s, i, BeginBlock);
    var e := s.procs[i].stage.e;
    CountOne(s, r, e, j);
    assert Used(r, j) == Used(s, j);
    assert Post(r, j) == Post(s, j);
  }

  lemma CountOne(s: State, r: State, e: Entry, j: nat)
    requires r.origin == s.origin && r.counted == s.counted + {e} && e in s.origin && e !in s.counted
    ensures |Of(r, r.counted, j)| == |Of(s, s.counted, j)| + if s.origin[e] == j then 1 else 0
  {
    assert Of(r, r.counted, j) == Of(s, s.counted, j) + if s.origin[e] == j then {e} else {};
  }

  lemma BeginBlockStages(s: State, i: nat)
    requires Inv(s) && StagesOk(s) && i < |s.procs| && OpEnabled(s, i, BeginBlock)
    ensures StagesOk(OpNext(s, i, BeginBlock))
  {
    var r := OpNext(s, i, BeginBlock);
    assert ProcOk(s, i);
    forall j: nat | j < |r.procs| && r.procs[j].stage.Suspending? ensures r.procs[j].stage.e !in r.counted {
      assert ProcOk(s, j);
    }
  }

  lemma OpStep(s: State, i: nat, op: Op, j: nat, k: nat)
    requires Inv(s) && StagesOk(s) && i < |s.procs| && OpEnabled(s, i, op) && Balance(s, j, k)
    ensures StagesOk(OpNext(s, i, op)) && Balance(OpNext(s, i, op), j, k)
  {
    match op
    case Register => RegisterStep(s, i, j, k);
    case BeginBlock => BeginBlockStep(s, i, j, k);
    case _ =>
      PlainIs(s, i, op);
      PlainStages(s, OpNext(s, i, op));
      PlainBalance(s, OpNext(s, i, op), j, k);
  }

  lemma PlainIs(s: State, i: nat, op: Op)
    requires Inv(s) && i < |s.procs| && OpEnabled(s, i, op) && !op.Register? && !op.BeginBlock?
    ensures var r := OpNext(s, i, op);
      Plain(s, r) && forall e | e in s.origin :: IsCurrent(r, e) <==> IsCurrent(s, e)
  {
    assert ProcOk(s, i);
    if op.AddTask? || op.PickWakeup? || op.PickReady? {
      PlainPicks(s, i, op);
    } else {
      PlainOps(s, i, op);
    }
    forall e | e in s.origin ensures IsCurrent(OpNext(s, i, op), e) <==> IsCurrent(s, e) {
      OpCurrent(s, i, op, e);
    }
  }

  // ---------- The steps of a wake ----------

  /** Steps of a wake leave the stages and the counted entries alone. */
  lemma WakeStages(s: State, r: State)
    requires StagesOk(s) && r.origin == s.origin && r.counted == s.counted && |r.procs| == |s.procs|
    requires forall i: nat | i < |s.procs| :: r.procs[i].stage == s.procs[i].stage
    ensures StagesOk(r)
  {
  }

  lemma StartStep(s: State, w: nat, e: Entry, j: nat, k: nat)
    requires StagesOk(s) && Enabled(s, StartWake(w, e)) && Balance(s, j, k)
    ensures StagesOk(Next(s, StartWake(w, e))) && Balance(Next(s, StartWake(w, e)), j, k)
  {
    var r := Next(s, StartWake(w, e));
    assert Of(r, r.counted, j) == Of(s, s.counted, j);
    assert Used(r, j) == Used(s, j);
    assert Post(r, j) == Post(s, j);
  }

  /** What a step of a wake leaves alone. */
  lemma WakeFrame(s: State, w: nat)
    requires Enabled(s, StepWake(w))
    ensures var r := WakeNext(s, w);
      && r.origin == s.origin && r.counted == s.counted && r.woken == s.woken && |r.procs| == |s.procs|
      && (forall i: nat | i < |s.procs| :: r.procs[i].stage == s.procs[i].stage)
  {
  }

  /** What it does to the wakes. */
  lemma WakeWakers(s: State, w: nat)
    requires Enabled(s, StepWake(w))
    ensures var r := WakeNext(s, w);
      && (forall v | v != w :: (v in r.wakers <==> v in s.wakers) && (v in s.wakers ==> r.wakers[v] == s.wakers[v]))
      && (w in r.wakers <==> !s.wakers[w].WakeDec?)
      && (w in r.wakers ==> r.wakers[w].p == s.wakers[w].p && !r.wakers[w].WakeCas?)
  {
  }

  lemma WakeCounter(s: State, w: nat, j: nat)
    requires Enabled(s, StepWake(w)) && j < |s.procs|
    ensures WakeNext(s, w).procs[j].blocks ==
      s.procs[j].blocks - if s.wakers[w].WakeDec? && s.wakers[w].p == j then 1 else 0
  {
  }

  /** What a step of a wake does to the suspend ids. */
  lemma WakeTasks(s: State, w: nat)
    requires Enabled(s, StepWake(w))
    ensures var e := s.wakers[w].e;
      WakeNext(s, w).tasks == if s.wakers[w].WakeCas? && IsCurrent(s, e)
                              then s.tasks[e.t := s.tasks[e.t].(suspendId := e.id + 1)] else s.tasks
  {
  }

  /** What it does to an entry. */
  lemma WakeEntry(s: State, w: nat, e: Entry)
    requires Inv(s) && Enabled(s, StepWake(w)) && e in s.origin
    ensures IsCurrent(WakeNext(s, w), e) <==> IsCurrent(s, e) && !(s.wakers[w].WakeCas? && s.wakers[w].e == e)
  {
    WakeTasks(s, w);
    assert EntryOk(s, e);
  }

  lemma PostStep(s: State, w: nat, j: nat)
    requires Enabled(s, StepWake(w))
    ensures Post(WakeNext(s, w), j) ==
      if s.wakers[w].p != j then Post(s, j)
      else if s.wakers[w].WakeDec? then Post(s, j) - {w} else Post(s, j) + {w}
  {
    WakeWakers(s, w);
    var r := WakeNext(s, w);
    forall v ensures v in Post(r, j) <==>
      v in (if s.wakers[w].p != j then Post(s, j)
            else if s.wakers[w].WakeDec? then Post(s, j) - {w} else Post(s, j) + {w}) {
    }
  }

  /** The swap uses its entry up, and no other. */
  lemma UsedStep(s: State, w: nat, j: nat)
    requires Inv(s) && Enabled(s, StepWake(w)) && j < |s.procs|
    ensures Used(WakeNext(s, w), j) ==
      if s.wakers[w].WakeCas? && IsCurrent(s, s.wakers[w].e) && s.wakers[w].p == j then Used(s, j) + {s.wakers[w].e}
      else Used(s, j)
  {
    var r := WakeNext(s, w);
    var e := s.wakers[w].e;
    WakeFrame(s, w);
    assert WakerOk(s, w) && EntryOk(s, e);
    forall d | d in s.origin ensures IsCurrent(r, d) <==> IsCurrent(s, d) && !(s.wakers[w].WakeCas? && e == d) {
      WakeEntry(s, w, d);
    }
  }

  lemma StepBalance(s: State, w: nat, j: nat, k: nat)
    requires Inv(s) && Enabled(s, StepWake(w)) && Balance(s, j, k)
    ensures Balance(WakeNext(s, w), j, k + if StaleWake(s, StepWake(w), j) then 1 else 0)
  {
    var r := WakeNext(s, w);
    WakeFrame(s, w);
    WakeCounter(s, w, j);
    PostCount(s, w, j);
    UsedCount(s, w, j);
    assert Of(r, r.counted, j) == Of(s, s.counted, j);
  }

  /** A swap adds its wake to those past it, and a decrement takes its wake away. */
  lemma PostCount(s: State, w: nat, j: nat)
    requires Enabled(s, StepWake(w))
    ensures |Post(WakeNext(s, w), j)| == |Post(s, j)|
      + (if s.wakers[w].p == j && s.wakers[w].WakeCas? then 1 else 0)
      - (if s.wakers[w].p == j && s.wakers[w].WakeDec? then 1 else 0)
  {
    PostStep(s, w, j);
    assert w in Post(s, j) <==> s.wakers[w].p == j && !s.wakers[w].WakeCas?;
    if s.wakers[w].p == j && s.wakers[w].WakePush? {
      assert Post(s, j) + {w} == Post(s, j);
    }
  }

  lemma UsedCount(s: State, w: nat, j: nat)
    requires Inv(s) && Enabled(s, StepWake(w)) && j < |s.procs|
    ensures |Used(WakeNext(s, w), j)| ==
      |Used(s, j)| + if s.wakers[w].WakeCas? && IsCurrent(s, s.wakers[w].e) && s.wakers[w].p == j then 1 else 0
  {
    UsedStep(s, w, j);
  }

  lemma StepStep(s: State, w: nat, j: nat, k: nat)
    requires Inv(s) && StagesOk(s) && Enabled(s, StepWake(w)) && Balance(s, j, k)
    ensures StagesOk(WakeNext(s, w))
    ensures Balance(WakeNext(s, w), j, k + if StaleWake(s, StepWake(w), j) then 1 else 0)
  {
    var r := WakeNext(s, w);
    WakeFrame(s, w);
    WakeStages(s, r);
    StepBalance(s, w, j, k);
  }

  lemma NextBalance(s: State, a: Action, j: nat, k: nat)
    requires Inv(s) && StagesOk(s) && Enabled(s, a) && Balance(s, j, k)
    ensures StagesOk(Next(s, a)) && Balance(Next(s, a), j, k + if StaleWake(s, a, j) then 1 else 0)
  {
    match a
    case On(i, op) => OpStep(s, i, op, j, k);
    case StartWake(w, e) => StartStep(s, w, e, j, k);
    case StepWake(w) => StepStep(s, w, j, k);
  }

  lemma {:induction false} RunBalance(s: State, actions: seq<Action>, i: nat, k: nat)
    requires Inv(s) && StagesOk(s) && Balance(s, i, k)
    ensures var r := Run(s, actions); Inv(r) && StagesOk(r) && Balance(r, i, k + StaleWakes(s, actions, i))
    decreases |actions|
  {
    if actions != [] {
      var a := actions[0];
      if Enabled(s, a) {
        NextKeeps(s, a);
        NextBalance(s, a, i, k);
        RunBalance(Next(s, a), actions[1..], i, k + if StaleWake(s, a, i) then 1 else 0);
      } else {
        RunBalance(s, actions[1..], i, k);
      }
    }
  }

  lemma InitBalance(n: nat, i: nat)
    requires i < n
    ensures StagesOk(Init(n)) && Balance(Init(n), i, 0)
  {
    var s := Init(n);
    assert Of(s, s.counted, i) == {} && Used(s, i) == {} && Post(s, i) == {};
  }

  // ---------- What this means when nothing is under way ----------

  /** No wake is in flight and no block half done. */
  predicate Quiet(s: State) {
    s.wakers == map[] && forall i: nat | i < |s.procs| :: s.procs[i].stage.Free?
  }

  /** The current entries of the tasks of a queue. */
  function EntriesOf(s: State, q: seq<nat>): set<Entry>
    requires forall t | t in q :: t in s.tasks
  {
    set t | t in q :: Entry(t, s.tasks[t].suspendId)
  }

  lemma {:induction false} EntriesCount(s: State, q: seq<nat>)
    requires (forall t | t in q :: t in s.tasks) && NoDup(q)
    ensures |EntriesOf(s, q)| == |q|
    decreases |q|
  {
    if q == [] {
      assert EntriesOf(s, q) == {};
    } else {
      var e := Entry(q[0], s.tasks[q[0]].suspendId);
      FrontRemainder(q);
      EntriesCount(s, q[1..]);
      assert EntriesOf(s, q) == EntriesOf(s, q[1..]) + {e};
      assert e !in EntriesOf(s, q[1..]);
    }
  }

  /** While a processor has no block half done, the counted entries that are not used up are those of the tasks
      parked on it. */
  lemma ParkedEntries(s: State, i: nat)
    requires Inv(s) && StagesOk(s) && i < |s.procs| && s.procs[i].stage.Free?
    ensures forall t | t in At(s, Parked(i)) :: t in s.tasks
    ensures Of(s, s.counted, i) - Used(s, i) == EntriesOf(s, At(s, Parked(i)))
  {
    var q := At(s, Parked(i));
    forall t | t in q ensures t in s.tasks {
      assert t in At(s, Parked(i));
    }
    forall e | e in Of(s, s.counted, i) - Used(s, i) ensures e in EntriesOf(s, q) {
      assert EntryOk(s, e);
      assert e.t in At(s, Parked(i)) by {
        assert ProcOk(s, i);
      }
    }
    forall e | e in EntriesOf(s, q) ensures e in Of(s, s.counted, i) - Used(s, i) {
      assert e.t in At(s, Parked(i));
      assert PlaceOk(s, e.t);
    }
  }

  lemma BlocksOf(s: State, i: nat, k: nat)
    requires Inv(s) && StagesOk(s) && Balance(s, i, k) && s.procs[i].stage.Free?
    ensures s.procs[i].blocks == |At(s, Parked(i))| + |Post(s, i)| - k
  {
    ParkedEntries(s, i);
    assert NoDup(At(s, Parked(i)));
    EntriesCount(s, At(s, Parked(i)));
    var c, u := Of(s, s.counted, i), Used(s, i);
    assert u <= c;
    assert |c - u| == |c| - |u|;
  }

  /** The exact value of the counter. In every run and at every moment at which a processor has no block half done,
      whatever the other processors and the waking threads are doing: its `m_blocks` is the number of tasks parked
      on it, plus the number of wakes on it past their swap that have not decremented yet, less the number of wakes
      on it that found their entry used up. */
  lemma BlocksExact(n: nat, actions: seq<Action>, i: nat)
    requires i < n && i < |Run(Init(n), actions).procs| && Run(Init(n), actions).procs[i].stage.Free?
    ensures var s := Run(Init(n), actions);
      s.procs[i].blocks == |At(s, Parked(i))| + |Post(s, i)| - StaleWakes(Init(n), actions, i)
  {
    InitInv(n);
    InitBalance(n, i);
    RunBalance(Init(n), actions, i, 0);
    BlocksOf(Run(Init(n), actions), i, StaleWakes(Init(n), actions, i));
  }

  /** With nothing under way, no wake is past its swap. */
  lemma QuietBlocks(n: nat, actions: seq<Action>, i: nat)
    requires i < n && Quiet(Run(Init(n), actions))
    ensures var s := Run(Init(n), actions);
      i < |s.procs| && s.procs[i].blocks == |At(s, Parked(i))| - StaleWakes(Init(n), actions, i)
  {
    InitInv(n);
    InitBalance(n, i);
    RunBalance(Init(n), actions, i, 0);
    BlocksExact(n, actions, i);
    assert Post(Run(Init(n), actions), i) == {};
  }

  /** The counter is the number of parked tasks if and only if no wake on the processor was stale. */
  lemma BlocksCountParkedIff(n: nat, actions: seq<Action>, i: nat)
    requires i < n && Quiet(Run(Init(n), actions))
    ensures var s := Run(Init(n), actions);
      i < |s.procs| && (s.procs[i].blocks == |At(s, Parked(i))| <==> StaleWakes(Init(n), actions, i) == 0)
  {
    QuietBlocks(n, actions, i);
  }

  // ---------- One wake for each entry ----------

  /** A run in which every entry is used for one wake, as the channel and the timer use theirs. */
  predicate OneUse(s: State, actions: seq<Action>)
    decreases |actions|
  {
    actions == [] ||
    ((Enabled(s, actions[0]) && actions[0].StartWake? ==> actions[0].e !in s.woken)
     && OneUse(if Enabled(s, actions[0]) then Next(s, actions[0]) else s, actions[1..]))
  }

  /** An entry through which no wake has won yet is current, and wakes that have not swapped yet have entries of
      their own. */
  ghost predicate Unused(s: State) {
    && s.woken <= s.origin.Keys
    && (forall e | e in s.origin && e !in s.woken :: IsCurrent(s, e))
    && (forall w | w in s.wakers && s.wakers[w].WakeCas? :: s.wakers[w].e in s.woken && IsCurrent(s, s.wakers[w].e))
    && (forall v, w | v in s.wakers && w in s.wakers && v != w && s.wakers[v].WakeCas? && s.wakers[w].WakeCas? ::
          s.wakers[v].e != s.wakers[w].e)
  }

  lemma OpUnused(s: State, i: nat, op: Op)
    requires Inv(s) && Unused(s) && i < |s.procs| && OpEnabled(s, i, op)
    ensures Unused(OpNext(s, i, op))
  {
    var r := OpNext(s, i, op);
    OpHistory(s, i, op);
    forall e | e in s.origin ensures IsCurrent(r, e) <==> IsCurrent(s, e) {
      OpCurrent(s, i, op, e);
    }
    if op.Register? {
      RegisterFresh(s, i);
    }
  }

  lemma OpHistory(s: State, i: nat, op: Op)
    requires i < |s.procs| && OpEnabled(s, i, op)
    ensures var r := OpNext(s, i, op);
      && r.wakers == s.wakers && r.woken == s.woken
      && (if op.Register? then r.procs[i].stage.Suspending? && r.origin == s.origin[r.procs[i].stage.e := i]
                               && r.tasks == s.tasks
          else r.origin == s.origin)
  {
  }

  lemma StepUnused(s: State, w: nat)
    requires Inv(s) && Unused(s) && Enabled(s, StepWake(w))
    ensures Unused(WakeNext(s, w))
  {
    var r := WakeNext(s, w);
    WakeFrame(s, w);
    WakeWakers(s, w);
    forall e | e in s.origin
      ensures IsCurrent(r, e) <==> IsCurrent(s, e) && !(s.wakers[w].WakeCas? && s.wakers[w].e == e)
    {
      WakeEntry(s, w, e);
    }
    UnusedStays(s, r, w);
  }

  lemma UnusedStays(s: State, r: State, w: nat)
    requires Unused(s) && w in s.wakers && r.origin == s.origin && r.woken == s.woken
    requires forall v | v != w :: (v in r.wakers <==> v in s.wakers) && (v in s.wakers ==> r.wakers[v] == s.wakers[v])
    requires w in r.wakers ==> !r.wakers[w].WakeCas?
    requires forall e | e in s.origin ::
      IsCurrent(r, e) <==> IsCurrent(s, e) && !(s.wakers[w].WakeCas? && s.wakers[w].e == e)
    ensures Unused(r)
  {
  }

  lemma NextUnused(s: State, a: Action)
    requires Inv(s) && Unused(s) && Enabled(s, a) && (a.StartWake? ==> a.e !in s.woken)
    ensures Unused(Next(s, a)) && forall i: nat :: !StaleWake(s, a, i)
  {
    match a
    case On(i, op) => OpUnused(s, i, op);
    case StartWake(w, e) =>
    case StepWake(w) => StepUnused(s, w);
  }

  lemma {:induction false} OneUseHasNoStale(s: State, actions: seq<Action>, i: nat)
    requires Inv(s) && Unused(s) && OneUse(s, actions)
    ensures StaleWakes(s, actions, i) == 0
    decreases |actions|
  {
    if actions != [] {
      var a := actions[0];
      if Enabled(s, a) {
        NextKeeps(s, a);
        NextUnused(s, a);
        OneUseHasNoStale(Next(s, a), actions[1..], i);
      } else {
        OneUseHasNoStale(s, actions[1..], i);
      }
    }
  }

  /** In every run in which each entry is used for one wake: whenever no wake is in flight and no block half
      done, `m_blocks` of each processor is the number of tasks parked on it. */
  lemma BlocksCountParked(n: nat, actions: seq<Action>, i: nat)
    requires i < n && OneUse(Init(n), actions) && Quiet(Run(Init(n), actions))
    ensures var s := Run(Init(n), actions); i < |s.procs| && s.procs[i].blocks == |At(s, Parked(i))|
  {
    InitInv(n);
    OneUseHasNoStale(Init(n), actions, i);
    QuietBlocks(n, actions, i);
  }

  /** What the counter is for. In every run in which each entry is used for one wake: if a processor between two
      tasks finds `m_blocks` at zero, then no task is parked on it, no wake on it is past its swap, and no task is
      on its way to its wakeup queue; so it may wait for the global queue alone. A decrement before the push would
      break this. */
  lemma ZeroMeansNobody(n: nat, actions: seq<Action>, i: nat)
    requires i < n && OneUse(Init(n), actions)
    ensures var s := Run(Init(n), actions);
      i < |s.procs| && s.procs[i].running.None? && s.procs[i].blocks == 0 ==>
        && At(s, Parked(i)) == []
        && (forall w | w in s.wakers && s.wakers[w].p == i :: s.wakers[w].WakeCas? && At(s, Waking(w)) == [])
  {
    var s := Run(Init(n), actions);
    InitInv(n);
    InitBalance(n, i);
    RunBalance(Init(n), actions, i, 0);
    OneUseHasNoStale(Init(n), actions, i);
    if s.procs[i].running.None? && s.procs[i].blocks == 0 {
      assert ProcOk(s, i);
      BlocksExact(n, actions, i);
      assert Post(s, i) == {};
      forall w | w in s.wakers && s.wakers[w].p == i ensures s.wakers[w].WakeCas? && At(s, Waking(w)) == [] {
        assert w !in Post(s, i);
        NotPushing(s, w);
      }
    }
  }

  lemma Pushing(s: State, w: nat, t: nat)
    requires Inv(s) && t in At(s, Waking(w))
    ensures w in s.wakers && s.wakers[w].WakePush?
  {
    assert PlaceOk(s, t);
  }

  lemma NotPushing(s: State, w: nat)
    requires Inv(s) && w in s.wakers && s.wakers[w].WakeCas?
    ensures At(s, Waking(w)) == []
  {
    hide Inv;
    if At(s, Waking(w)) != [] {
      Pushing(s, w, At(s, Waking(w))[0]);
    }
  }

  // ---------- Two wakes through one entry ----------

  lemma {:induction false} RunAppendOne(s: State, actions: seq<Action>, a: Action)
    requires Enabled(Run(s, actions), a)
    ensures Run(s, actions + [a]) == Next(Run(s, actions), a)
    decreases |actions|
  {
    if actions == [] {
      assert [a][1..] == [];
    } else {
      assert (actions + [a])[0] == actions[0] && (actions + [a])[1..] == actions[1..] + [a];
      RunAppendOne(if Enabled(s, actions[0]) then Next(s, actions[0]) else s, actions[1..], a);
    }
  }

  lemma Extend(actions: seq<Action>, s: State, a: Action) returns (longer: seq<Action>, r: State)
    requires s == Run(Init(1), actions) && Enabled(s, a)
    ensures longer == actions + [a] && r == Next(s, a) == Run(Init(1), longer)
  {
    RunAppendOne(Init(1), actions, a);
    longer := actions + [a];
    r := Next(s, a);
  }

  /** One processor, with one task that it has made, run and registered, and that is now blocked. */
  function BlockedState(): State {
    State([Proc(None, Free, 1, 1)], map[Ready(0) := [], Running(0) := [], Parked(0) := [0]],
          map[0 := Task(0, 0)], map[], 1, 1, map[0 := Parked(0)], map[Entry(0, 0) := 0], {Entry(0, 0)}, {})
  }

  lemma OneBlocked() returns (actions: seq<Action>)
    ensures Run(Init(1), actions) == BlockedState()
  {
    var s;
    actions, s := OneRegistered();
    Singles();
    actions, s := Extend(actions, s, On(0, BeginBlock));
    actions, s := Extend(actions, s, On(0, SwapOut));
    assert s.queues == BlockedState().queues;
  }

  lemma OneRegistered() returns (actions: seq<Action>, s: State)
    ensures s == Run(Init(1), actions)
    ensures s == State([Proc(Some(0), Suspending(Entry(0, 0)), 1, 0)], map[Ready(0) := [], Running(0) := [0]],
                       map[0 := Task(0, 0)], map[], 1, 1, map[0 := Running(0)], map[Entry(0, 0) := 0], {}, {})
  {
    actions, s := OneRunning();
    actions, s := Extend(actions, s, On(0, Register));
  }

  lemma OneRunning() returns (actions: seq<Action>, s: State)
    ensures s == Run(Init(1), actions)
    ensures s == State([Proc(Some(0), Free, 1, 0)], map[Ready(0) := [], Running(0) := [0]],
                       map[0 := Task(0, 0)], map[], 1, 1, map[0 := Running(0)], map[], {}, {})
  {
    actions, s := OneReady();
    Singles();
    var was := s;
    assert Back(was, Ready(0)) == 0 && At(was, Running(0)) == [];
    actions, s := Extend(actions, s, On(0, PickReady));
    assert s.queues == map[Ready(0) := [], Running(0) := [0]];
  }

  lemma OneReady() returns (actions: seq<Action>, s: State)
    ensures s == Run(Init(1), actions)
    ensures s == State([Proc(None, Free, 1, 0)], map[Ready(0) := [0]], map[0 := Task(0, 0)], map[],
                       1, 1, map[0 := Ready(0)], map[], {}, {})
  {
    var was := Init(1);
    assert At(was, Ready(0)) == [] && was.procs == [Proc(None, Free, 0, 0)];
    actions, s := Extend([], was, On(0, AddTask));
    assert At(was, Ready(0)) + [0] == [0];
    assert s.queues == was.queues[Ready(0) := At(was, Ready(0)) + [0]];
  }

  lemma Singles()
    ensures var one: seq<nat> := [0]; one[1..] == [] && one[..0] == [] && [] + one == one && Without(one, 0) == []
  {
    var one: seq<nat> := [0];
    assert one[1..] == [];
  }

  /** The same after one whole wake: swap, push, decrement. */
  function WokenState(): State {
    State([Proc(None, Free, 1, 0)],
          map[Ready(0) := [], Running(0) := [], Parked(0) := [], Waking(0) := [], Wakeup(0) := [0]],
          map[0 := Task(1, 0)], map[], 1, 1, map[0 := Wakeup(0)], map[Entry(0, 0) := 0], {Entry(0, 0)}, {Entry(0, 0)})
  }

  lemma WokenOnce() returns (actions: seq<Action>)
    ensures Run(Init(1), actions) == WokenState()
  {
    actions := OneBlocked();
    Singles();
    var s := BlockedState();
    actions, s := Extend(actions, s, StartWake(0, Entry(0, 0)));
    assert s == BlockedState().(wakers := map[0 := WakeCas(Entry(0, 0), 0)], woken := {Entry(0, 0)});
    actions, s := Claimed(actions, s);
    var was := s;
    assert At(was, Waking(0)) == [0] && At(was, Wakeup(0)) == [];
    actions, s := Extend(actions, s, StepWake(0));
    assert s.queues == was.queues[Waking(0) := At(was, Waking(0))[1..]][Wakeup(0) := At(was, Wakeup(0)) + [0]];
    assert At(was, Waking(0))[1..] == [] && At(was, Wakeup(0)) + [0] == [0];
    assert s.queues == WokenState().queues;
    assert s.wakers == map[0 := WakeDec(Entry(0, 0), 0)];
    actions, s := Extend(actions, s, StepWake(0));
    assert s.wakers == map[];
  }

  lemma Claimed(actions: seq<Action>, s: State) returns (longer: seq<Action>, r: State)
    requires s == Run(Init(1), actions)
    requires s == BlockedState().(wakers := map[0 := WakeCas(Entry(0, 0), 0)], woken := {Entry(0, 0)})
    ensures r == Run(Init(1), longer)
    ensures r == s.(wakers := map[0 := WakePush(Entry(0, 0), 0)], tasks := map[0 := Task(1, 0)],
                    queues := map[Ready(0) := [], Running(0) := [], Parked(0) := [], Waking(0) := [0]],
                    loc := map[0 := Waking(0)])
  {
    Singles();
    longer, r := Extend(actions, s, StepWake(0));
    assert r.wakers == map[0 := WakePush(Entry(0, 0), 0)];
    assert r.queues == map[Ready(0) := [], Running(0) := [], Parked(0) := [], Waking(0) := [0]];
  }

  /** A second wake through the same entry decrements the counter again: nothing is under way, no task is parked,
      and the counter is below zero. */
  lemma CounterBelowZero() returns (actions: seq<Action>)
    ensures var s := Run(Init(1), actions);
      Quiet(s) && At(s, Parked(0)) == [] && s.procs == [Proc(None, Free, 1, -1)]
    ensures StaleWakes(Init(1), actions, 0) == 1
  {
    actions := WokenOnce();
    var s := WokenState();
    actions, s := Extend(actions, s, StartWake(0, Entry(0, 0)));
    assert s == WokenState().(wakers := map[0 := WakeCas(Entry(0, 0), 0)]);
    actions, s := Extend(actions, s, StepWake(0));
    assert s == WokenState().(wakers := map[0 := WakeDec(Entry(0, 0), 0)]);
    actions, s := Extend(actions, s, StepWake(0));
    assert s == WokenState().(procs := [Proc(None, Free, 1, -1)]);
    QuietBlocks(1, actions, 0);
  }
}
