/** What the invariant means for whole runs of the processors: one place per task and at most one claim per
    entry. */
module ProcessorRuns {
  import opened Options
  import opened Processor
  import opened ProcessorInvariant

  /** In every run, each created and not finished task is held at exactly one place, once; a running task is
      held as such, except that one woken before it was swapped out is in the wakeup queue of its own processor
      or on its way there; no two processors run the same task; a suspended task has a current entry; and
      `m_total_tasks` counts the tasks. */
  lemma OnePlace(n: nat, actions: seq<Action>)
    ensures var s := Run(Init(n), actions);
      && s.total == |s.tasks|
      && s.loc.Keys == s.tasks.Keys
      && (forall a: Place, t: nat {:trigger t in At(s, a)} :: t in At(s, a) <==> t in s.loc && s.loc[t] == a)
      && (forall a: Place :: NoDup(At(s, a)))
      && (forall i: nat | i < |s.procs| && s.procs[i].running.Some? ::
            var t := s.procs[i].running.value;
            t in s.loc && (s.loc[t] == Running(i) || (!s.procs[i].stage.Free? && WokenEarly(s, i, t))))
      && (forall i: nat, j: nat | i < j < |s.procs| && s.procs[i].running.Some? ::
            s.procs[i].running != s.procs[j].running)
      && (forall i: nat, t: nat | t in At(s, Parked(i)) ::
            t in s.tasks && Entry(t, s.tasks[t].suspendId) in s.origin)
  {
    InitInv(n);
    RunKeeps(Init(n), actions);
    var s := Run(Init(n), actions);
    forall i: nat | i < |s.procs| && s.procs[i].running.Some?
      ensures var t := s.procs[i].running.value;
        t in s.tasks && t in s.loc && s.tasks[t].proc == i
        && (s.loc[t] == Running(i) || (!s.procs[i].stage.Free? && WokenEarly(s, i, t)))
    {
      assert ProcOk(s, i);
    }
    forall i: nat, t: nat | t in At(s, Parked(i))
      ensures t in s.tasks && Entry(t, s.tasks[t].suspendId) in s.origin
    {
      assert PlaceOk(s, t);
    }
  }

  // ---------- One wake per entry ----------

  /** The suspend id of the entry's task has moved on for good. */
  predicate Stale(s: State, e: Entry) {
    e.t < s.ids && (e.t in s.tasks ==> e.id < s.tasks[e.t].suspendId)
  }

  /** The step in which a wake through the entry wins the task. */
  predicate Claims(s: State, a: Action, e: Entry) {
    a.StepWake? && Enabled(s, a) && s.wakers[a.w].WakeCas? && s.wakers[a.w].e == e
    && e.t in s.tasks && s.tasks[e.t].suspendId == e.id
  }

  function ClaimCount(s: State, actions: seq<Action>, e: Entry): nat
    decreases |actions|
  {
    if actions == [] then 0
    else
      (if Claims(s, actions[0], e) then 1 else 0)
      + ClaimCount(if Enabled(s, actions[0]) then Next(s, actions[0]) else s, actions[1..], e)
  }

  /** Suspend ids only grow, and a new task has a new number. */
  lemma OpIds(s: State, i: nat, op: Op, t: nat)
    requires i < |s.procs| && OpEnabled(s, i, op)
    ensures var r := OpNext(s, i, op);
      && s.ids <= r.ids
      && (t in r.tasks && t != s.ids ==> t in s.tasks && s.tasks[t].suspendId == r.tasks[t].suspendId)
  {
  }

  lemma WakeIds(s: State, w: nat, t: nat)
    requires Enabled(s, StepWake(w))
    ensures var r := WakeNext(s, w);
      && r.ids == s.ids
      && (t in r.tasks && t in s.tasks ==> s.tasks[t].suspendId <= r.tasks[t].suspendId)
      && (t in r.tasks ==> t in s.tasks)
  {
  }

  lemma StaleForGood(s: State, a: Action, e: Entry)
    requires Located(s) && Enabled(s, a)
    ensures Stale(s, e) ==> Stale(Next(s, a), e) && !Claims(s, a, e)
    ensures Claims(s, a, e) ==> Stale(Next(s, a), e)
  {
    match a
    case On(i, op) => OpIds(s, i, op, e.t);
    case StartWake(_, _) =>
    case StepWake(w) => WakeIds(s, w, e.t);
  }

  /** However often an entry is used, in every run its task is requeued at most once through it. */
  lemma {:induction false} AtMostOneClaim(s: State, actions: seq<Action>, e: Entry)
    requires Inv(s)
    ensures ClaimCount(s, actions, e) <= if Stale(s, e) then 0 else 1
    decreases |actions|
  {
    if actions != [] {
      if Enabled(s, actions[0]) {
        StaleForGood(s, actions[0], e);
        NextKeeps(s, actions[0]);
        AtMostOneClaim(Next(s, actions[0]), actions[1..], e);
      } else {
        AtMostOneClaim(s, actions[1..], e);
      }
    }
  }

  lemma OneWakePerEntry(n: nat, actions: seq<Action>, e: Entry)
    ensures ClaimCount(Init(n), actions, e) <= 1
  {
    InitInv(n);
    AtMostOneClaim(Init(n), actions, e);
  }
}
