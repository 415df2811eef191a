/** Whole calls as runs of steps: the steps of one turn of a processor's loop and of one wake, what they make of
    the queues of one processor, and that they leave the others alone. */
module ProcessorTurn {
  import opened Options
  import opened Processor
  import opened ProcessorInvariant

  // ---------- One turn of the loop, as steps ----------

  /** The first processor drawn, other than the thief, that has something to steal. */
  function FirstBusy(s: State, i: nat, draws: seq<nat>): (v: Option<nat>)
    ensures v.Some? ==> v.value in draws && v.value != i && At(s, Ready(v.value)) != []
    ensures v.None? ==> forall d | d in draws && d != i :: At(s, Ready(d)) == []
  {
    if draws == [] then None
    else if draws[0] != i && At(s, Ready(draws[0])) != [] then Some(draws[0])
    else FirstBusy(s, i, draws[1..])
  }

  ghost predicate Busy(s: State, i: nat, v: nat) {
    v != i && At(s, Ready(v)) != []
  }

  /** The victim is a busy one, and no busy one is drawn before it; without a victim none is drawn at all. */
  lemma {:induction false} FirstBusyIsFirst(s: State, i: nat, draws: seq<nat>) returns (k: nat)
    ensures k <= |draws| && forall m: nat | m < k :: !Busy(s, i, draws[m])
    ensures FirstBusy(s, i, draws) == if k < |draws| then Some(draws[k]) else None
    ensures k < |draws| ==> Busy(s, i, draws[k])
    decreases |draws|
  {
    if draws == [] || Busy(s, i, draws[0]) {
      k := 0;
    } else {
      var n := FirstBusyIsFirst(s, i, draws[1..]);
      k := n + 1;
      forall m: nat | m < k ensures !Busy(s, i, draws[m]) {
        assert m > 0 ==> draws[m] == draws[1..][m - 1];
      }
    }
  }

  /** Steals from the front of the victim's ready queue, one after the other. */
  function Steals(i: nat, v: nat, count: nat): seq<Action> {
    if count == 0 then [] else Steals(i, v, count - 1) + [On(i, Steal(v)), On(i, PutReady)]
  }

  function Stolen(s: State, i: nat, draws: seq<nat>): seq<Action> {
    match FirstBusy(s, i, draws)
    case None => []
    case Some(v) => Steals(i, v, |At(s, Ready(v))| / 2)
  }

  /** What a processor does in one turn: a woken task comes first, then its own newest ready task, then the
      oldest yielded one, then half of the ready queue of a drawn victim, then the global queue. */
  function TurnActions(s: State, i: nat, draws: seq<nat>): seq<Action> {
    if At(s, Wakeup(i)) != [] then [On(i, PickWakeup)]
    else if At(s, Ready(i)) != [] then [On(i, PickReady)]
    else if At(s, Yielded(i)) != [] then [On(i, TakeYielded)]
    else if Stolen(s, i, draws) != [] then Stolen(s, i, draws)
    else if At(s, Global) != [] then [On(i, TakeGlobal), On(i, PutReady)]
    else []
  }

  lemma {:induction false} RunAppend(s: State, a: seq<Action>, b: seq<Action>)
    ensures Run(s, a + b) == Run(Run(s, a), b)
    decreases |a|
  {
    if a == [] {
      assert a + b == b;
    } else {
      assert (a + b)[0] == a[0] && (a + b)[1..] == a[1..] + b;
      RunAppend(if Enabled(s, a[0]) then Next(s, a[0]) else s, a[1..], b);
    }
  }

  lemma RunOne(s: State, a: Action)
    requires Enabled(s, a)
    ensures Run(s, [a]) == Next(s, a)
  {
    assert Run(Next(s, a), [a][1..]) == Next(s, a);
  }

  lemma RunTwo(s: State, a: Action, b: Action)
    requires Enabled(s, a) && Enabled(Next(s, a), b)
    ensures Run(s, [a, b]) == Next(Next(s, a), b)
  {
    RunOne(s, a);
    RunOne(Next(s, a), b);
    RunAppend(s, [a], [b]);
    assert [a] + [b] == [a, b];
  }

  /** A steal and the push that follows it. */
  lemma StealOne(s: State, i: nat, v: nat) returns (r: State)
    requires i < |s.procs| && v != i && InLoop(s, i) && At(s, Ready(v)) != []
    ensures r == Run(s, [On(i, Steal(v)), On(i, PutReady)]) && r.procs == s.procs && InLoop(r, i)
    ensures At(r, Ready(i)) == At(s, Ready(i)) + [At(s, Ready(v))[0]] && At(r, Ready(v)) == At(s, Ready(v))[1..]
    ensures forall a: Place | a != Ready(i) && a != Ready(v) :: At(r, a) == At(s, a)
    ensures r == s.(queues := r.queues, loc := r.loc)
  {
    var a := On(i, Steal(v));
    var b := On(i, PutReady);
    var m := Next(s, a);
    assert Enabled(m, b);
    r := Next(m, b);
    RunTwo(s, a, b);
  }

  /** Stealing moves exactly that many tasks, oldest first and in their order, and disturbs no other queue. */
  lemma {:induction false} StealsMoveFront(s: State, i: nat, v: nat, count: nat)
    requires i < |s.procs| && v != i && InLoop(s, i) && count <= |At(s, Ready(v))|
    ensures var r := Run(s, Steals(i, v, count));
      && r == s.(queues := r.queues, loc := r.loc) && InLoop(r, i)
      && At(r, Ready(i)) == At(s, Ready(i)) + At(s, Ready(v))[..count]
      && At(r, Ready(v)) == At(s, Ready(v))[count..]
      && forall a: Place | a != Ready(i) && a != Ready(v) :: At(r, a) == At(s, a)
    decreases count
  {
    if count > 0 {
      StealsMoveFront(s, i, v, count - 1);
      var m := Run(s, Steals(i, v, count - 1));
      var r := StealOne(m, i, v);
      RunAppend(s, Steals(i, v, count - 1), [On(i, Steal(v)), On(i, PutReady)]);
      assert At(s, Ready(v))[..count] == At(s, Ready(v))[..count - 1] + [At(s, Ready(v))[count - 1]];
    }
  }

  lemma StealsStep(s: State, i: nat, v: nat, count: nat)
    ensures Run(s, Steals(i, v, count + 1)) ==
      Run(Run(s, Steals(i, v, count)), [On(i, Steal(v)), On(i, PutReady)])
  {
    RunAppend(s, Steals(i, v, count), [On(i, Steal(v)), On(i, PutReady)]);
  }

  lemma FirstBusyStep(s: State, i: nat, draws: seq<nat>, k: nat)
    requires k < |draws|
    ensures FirstBusy(s, i, draws[k..]) ==
      if draws[k] != i && At(s, Ready(draws[k])) != [] then Some(draws[k]) else FirstBusy(s, i, draws[k + 1..])
  {
    assert draws[k..][0] == draws[k] && draws[k..][1..] == draws[k + 1..];
  }

  lemma StealsNone(i: nat, v: nat, count: nat)
    ensures Steals(i, v, count) == [] <==> count == 0
  {
    if count > 0 {
      assert |Steals(i, v, count)| >= 2;
    }
  }

  /** A turn comes to nothing exactly when the processor has no task, the global queue is empty, and the first
      busy victim drawn, if any, has a single ready task: half of one is none. */
  lemma IdleTurn(s: State, i: nat, draws: seq<nat>)
    ensures TurnActions(s, i, draws) == [] <==>
      && At(s, Wakeup(i)) == [] && At(s, Ready(i)) == [] && At(s, Yielded(i)) == [] && At(s, Global) == []
      && var v := FirstBusy(s, i, draws); v.Some? ==> |At(s, Ready(v.value))| == 1
  {
    var v := FirstBusy(s, i, draws);
    if v.Some? {
      StealsNone(i, v.value, |At(s, Ready(v.value))| / 2);
    }
  }

  // ---------- Reachable states ----------

  ghost predicate ReachedBy(s: State, n: nat, actions: seq<Action>) {
    s == Run(Init(n), actions)
  }

  ghost predicate Reached(s: State) {
    exists n: nat, actions: seq<Action> :: ReachedBy(s, n, actions)
  }

  lemma ReachedInv(s: State)
    requires Reached(s)
    ensures Inv(s)
  {
    var n: nat, actions: seq<Action> :| ReachedBy(s, n, actions);
    InitInv(n);
    RunKeeps(Init(n), actions);
  }

  lemma ReachedOn(s: State, more: seq<Action>)
    requires Reached(s)
    ensures Reached(Run(s, more))
  {
    var n: nat, actions: seq<Action> :| ReachedBy(s, n, actions);
    RunAppend(Init(n), actions, more);
    assert ReachedBy(Run(s, more), n, actions + more);
  }

  lemma QueuedTask(s: State, a: Place, k: nat)
    requires Reached(s) && k < |At(s, a)|
    ensures At(s, a)[k] in s.tasks
  {
    ReachedInv(s);
    assert At(s, a)[k] in At(s, a);
  }

  /** A task that runs and is not suspending itself is at its running place. */
  lemma RunningTask(s: State, i: nat)
    requires Reached(s) && i < |s.procs| && s.procs[i].running.Some? && s.procs[i].stage.Free?
    ensures RunsFree(s, i) && At(s, Running(i)) == [s.procs[i].running.value]
  {
    ReachedInv(s);
    assert ProcOk(s, i);
    RunningQueue(s, i);
  }

  /** One operation takes a processor from one state to the other. */
  ghost predicate Did(s: State, i: nat, op: Op, r: State) {
    i < |s.procs| && OpEnabled(s, i, op) && r == OpNext(s, i, op)
  }

  ghost predicate DidTwo(s: State, i: nat, a: Op, b: Op, r: State) {
    i < |s.procs| && OpEnabled(s, i, a) && Did(OpNext(s, i, a), i, b, r)
  }

  /** What a state says of one processor. */
  datatype View = View(p: Processor.Proc, ready: seq<nat>, yielded: seq<nat>, wakeup: seq<nat>, hand: seq<nat>)

  function ViewOf(s: State, i: nat): View
    requires i < |s.procs|
  {
    View(s.procs[i], At(s, Ready(i)), At(s, Yielded(i)), At(s, Wakeup(i)), At(s, Hand(i)))
  }

  /** What a state says of the variables that all processors share. */
  datatype Shared = Shared(global: seq<nat>, ids: nat, total: int, tasks: map<nat, Task>)

  function SharedOf(s: State): Shared {
    Shared(At(s, Global), s.ids, s.total, s.tasks)
  }

  ghost predicate ViewsOk(s: State, views: seq<View>) {
    |views| == |s.procs| && forall i: nat | i < |views| :: views[i] == ViewOf(s, i)
  }

  lemma MoveUnchanged(s: State, from: Place, rest: seq<nat>, t: nat, to: Place, j: nat)
    requires j < |s.procs| && Elsewhere(from, j) && Elsewhere(to, j)
    ensures ViewOf(Put(s.(queues := s.queues[from := rest]), t, to), j) == ViewOf(s, j)
  {
  }

  /** Not one of the queues of a processor's view. */
  predicate Elsewhere(a: Place, j: nat) {
    a != Ready(j) && a != Yielded(j) && a != Wakeup(j) && a != Hand(j)
  }

  /** An operation of one processor concerns no other, except the victim of a theft. */
  lemma PickUnchanged(s: State, i: nat, op: Op, j: nat)
    requires i < |s.procs| && OpEnabled(s, i, op) && j < |s.procs| && j != i
    requires op.PickWakeup? || op.PickReady?
    ensures |OpNext(s, i, op).procs| == |s.procs| && ViewOf(OpNext(s, i, op), j) == ViewOf(s, j)
  {
    if op.PickWakeup? {
      var t := At(s, Wakeup(i))[0];
      MoveUnchanged(RunTask(s, i, t), Wakeup(i), At(s, Wakeup(i))[1..], t, Running(i), j);
    } else {
      var t := Back(s, Ready(i));
      MoveUnchanged(RunTask(s, i, t), Ready(i), At(s, Ready(i))[..|At(s, Ready(i))| - 1], t, Running(i), j);
    }
  }

  lemma ShiftUnchanged(s: State, i: nat, op: Op, j: nat)
    requires i < |s.procs| && OpEnabled(s, i, op) && j < |s.procs| && j != i
    requires op.TakeYielded? || op.TakeGlobal? || op.TakeWakeup? || op.PutReady? || op.AddTask?
    ensures |OpNext(s, i, op).procs| == |s.procs| && ViewOf(OpNext(s, i, op), j) == ViewOf(s, j)
  {
  }

  lemma TaskUnchanged(s: State, i: nat, op: Op, j: nat)
    requires i < |s.procs| && OpEnabled(s, i, op) && j < |s.procs| && j != i
    requires op.Register? || op.BeginBlock? || op.Finish?
    ensures |OpNext(s, i, op).procs| == |s.procs| && ViewOf(OpNext(s, i, op), j) == ViewOf(s, j)
  {
  }

  lemma LeaveUnchanged(s: State, i: nat, op: Op, j: nat)
    requires i < |s.procs| && OpEnabled(s, i, op) && j < |s.procs| && j != i
    requires op.SwapOut? || op.YieldTask?
    ensures |OpNext(s, i, op).procs| == |s.procs| && ViewOf(OpNext(s, i, op), j) == ViewOf(s, j)
  {
  }

  lemma OthersUnchanged(s: State, i: nat, op: Op, j: nat)
    requires i < |s.procs| && OpEnabled(s, i, op) && j < |s.procs| && j != i && !op.Steal?
    ensures |OpNext(s, i, op).procs| == |s.procs| && ViewOf(OpNext(s, i, op), j) == ViewOf(s, j)
  {
    match op
    case PickWakeup => PickUnchanged(s, i, op, j);
    case PickReady => PickUnchanged(s, i, op, j);
    case AddTask => ShiftUnchanged(s, i, op, j);
    case TakeYielded => ShiftUnchanged(s, i, op, j);
    case TakeGlobal => ShiftUnchanged(s, i, op, j);
    case TakeWakeup => ShiftUnchanged(s, i, op, j);
    case PutReady => ShiftUnchanged(s, i, op, j);
    case Register => TaskUnchanged(s, i, op, j);
    case BeginBlock => TaskUnchanged(s, i, op, j);
    case SwapOut => LeaveUnchanged(s, i, op, j);
    case YieldTask => LeaveUnchanged(s, i, op, j);
    case Finish => TaskUnchanged(s, i, op, j);
  }

  lemma OpViews(s: State, i: nat, op: Op, views: seq<View>)
    requires i < |s.procs| && OpEnabled(s, i, op) && !op.Steal? && ViewsOk(s, views)
    ensures var r := OpNext(s, i, op); |r.procs| == |s.procs| && ViewsOk(r, views[i := ViewOf(r, i)])
  {
    var r := OpNext(s, i, op);
    assert |r.procs| == |s.procs|;
    forall j: nat | j < |views| ensures views[i := ViewOf(r, i)][j] == ViewOf(r, j) {
      if j != i {
        OthersUnchanged(s, i, op, j);
      }
    }
  }

  lemma PutEffect(s: State, t: nat, to: Place, i: nat)
    requires i < |s.procs|
    ensures var v := ViewOf(s, i);
      && ViewOf(Put(s, t, to), i) ==
        v.(ready := if to == Ready(i) then v.ready + [t] else v.ready,
           yielded := if to == Yielded(i) then v.yielded + [t] else v.yielded,
           wakeup := if to == Wakeup(i) then v.wakeup + [t] else v.wakeup,
           hand := if to == Hand(i) then v.hand + [t] else v.hand)
      && At(Put(s, t, to), Global) == if to == Global then At(s, Global) + [t] else At(s, Global)
  {
  }

  /** What a step makes of a processor and of the shared variables. */
  ghost predicate Effect(s: State, r: State, i: nat, v: View, g: Shared) {
    i < |r.procs| && r.wakers == s.wakers && ViewOf(r, i) == v && SharedOf(r) == g
  }

  lemma AddTaskEffect(s: State, i: nat, v: View, g: Shared)
    requires i < |s.procs| && OpEnabled(s, i, Op.AddTask)
    requires var u := ViewOf(s, i);
      var toGlobal := (u.p.taskCount + 1) % 32 == 0;
      && v == u.(p := u.p.(taskCount := u.p.taskCount + 1), ready := if toGlobal then u.ready else u.ready + [s.ids])
      && g == Shared(if toGlobal then At(s, Global) + [s.ids] else At(s, Global),
                     s.ids + 1, s.total + 1, s.tasks[s.ids := Task(0, i)])
    ensures Effect(s, OpNext(s, i, Op.AddTask), i, v, g)
  {
    PutEffect(Created(s, i), s.ids, AddsTo(s, i), i);
  }

  lemma PickWakeupEffect(s: State, i: nat, v: View, g: Shared)
    requires i < |s.procs| && OpEnabled(s, i, Op.PickWakeup)
    requires var u := ViewOf(s, i);
      var t := u.wakeup[0];
      && v == u.(p := u.p.(running := Some(t), stage := Free), wakeup := u.wakeup[1..])
      && g == SharedOf(s).(tasks := s.tasks[t := s.tasks[t].(proc := i)])
    ensures Effect(s, OpNext(s, i, Op.PickWakeup), i, v, g)
  {
  }

  lemma PickReadyEffect(s: State, i: nat, v: View, g: Shared)
    requires i < |s.procs| && OpEnabled(s, i, Op.PickReady)
    requires var u := ViewOf(s, i);
      var t := u.ready[|u.ready| - 1];
      && v == u.(p := u.p.(running := Some(t), stage := Free), ready := u.ready[..|u.ready| - 1])
      && g == SharedOf(s).(tasks := s.tasks[t := s.tasks[t].(proc := i)])
    ensures Effect(s, OpNext(s, i, Op.PickReady), i, v, g)
  {
  }

  lemma TakeYieldedEffect(s: State, i: nat, v: View, g: Shared)
    requires i < |s.procs| && OpEnabled(s, i, Op.TakeYielded)
    requires var u := ViewOf(s, i);
      v == u.(ready := u.ready + [u.yielded[0]], yielded := u.yielded[1..]) && g == SharedOf(s)
    ensures Effect(s, OpNext(s, i, Op.TakeYielded), i, v, g)
  {
  }

  lemma TakeGlobalEffect(s: State, i: nat, v: View, g: Shared)
    requires i < |s.procs| && OpEnabled(s, i, Op.TakeGlobal)
    requires var u := ViewOf(s, i);
      v == u.(ready := u.ready + [At(s, Global)[0]]) && g == SharedOf(s).(global := At(s, Global)[1..])
    ensures var m := OpNext(s, i, Op.TakeGlobal);
      i < |m.procs| && OpEnabled(m, i, Op.PutReady) && Effect(s, OpNext(m, i, Op.PutReady), i, v, g)
  {
  }

  lemma TakeWakeupEffect(s: State, i: nat, v: View, g: Shared)
    requires i < |s.procs| && OpEnabled(s, i, Op.TakeWakeup)
    requires var u := ViewOf(s, i);
      v == u.(ready := u.ready + [u.wakeup[0]], wakeup := u.wakeup[1..]) && g == SharedOf(s)
    ensures var m := OpNext(s, i, Op.TakeWakeup);
      i < |m.procs| && OpEnabled(m, i, Op.PutReady) && Effect(s, OpNext(m, i, Op.PutReady), i, v, g)
  {
  }

  lemma RegisterEffect(s: State, i: nat, v: View, g: Shared)
    requires i < |s.procs| && OpEnabled(s, i, Op.Register)
    requires var u := ViewOf(s, i);
      var t := u.p.running.value;
      v == u.(p := u.p.(stage := Suspending(Entry(t, s.tasks[t].suspendId)))) && g == SharedOf(s)
    ensures Effect(s, OpNext(s, i, Op.Register), i, v, g)
  {
  }

  lemma BlockEffect(s: State, i: nat, v: View, g: Shared)
    requires i < |s.procs| && OpEnabled(s, i, Op.BeginBlock)
    requires var u := ViewOf(s, i);
      v == u.(p := u.p.(blocks := u.p.blocks + 1, running := None, stage := Free)) && g == SharedOf(s)
    ensures var m := OpNext(s, i, Op.BeginBlock);
      i < |m.procs| && OpEnabled(m, i, Op.SwapOut) && Effect(s, OpNext(m, i, Op.SwapOut), i, v, g)
  {
  }

  lemma YieldEffect(s: State, i: nat, v: View, g: Shared)
    requires Reached(s) && i < |s.procs| && OpEnabled(s, i, Op.YieldTask)
    requires var u := ViewOf(s, i);
      v == u.(p := u.p.(running := None), yielded := u.yielded + [u.p.running.value]) && g == SharedOf(s)
    ensures Effect(s, OpNext(s, i, Op.YieldTask), i, v, g)
  {
    RunningTask(s, i);
  }

  lemma FinishEffect(s: State, i: nat, v: View, g: Shared)
    requires i < |s.procs| && OpEnabled(s, i, Op.Finish)
    requires var u := ViewOf(s, i);
      && v == u.(p := u.p.(running := None))
      && g == SharedOf(s).(tasks := s.tasks - {u.p.running.value}, total := s.total - 1)
    ensures Effect(s, OpNext(s, i, Op.Finish), i, v, g)
  {
  }

  lemma StealViews(s: State, i: nat, v: nat, views: seq<View>, after: seq<View>) returns (r: State)
    requires Reached(s) && ViewsOk(s, views) && i < |views| && v < |views| && i != v
    requires views[i].p.running.None? && views[i].hand == [] && views[v].ready != []
    requires after == views[i := views[i].(ready := views[i].ready + [views[v].ready[0]])]
                           [v := views[v].(ready := views[v].ready[1..])]
    ensures r == Run(s, [On(i, Op.Steal(v)), On(i, Op.PutReady)]) && Reached(r)
    ensures ViewsOk(r, after) && SharedOf(r) == SharedOf(s) && r.wakers == s.wakers
  {
    r := StealOne(s, i, v);
    ReachedOn(s, [On(i, Op.Steal(v)), On(i, Op.PutReady)]);
    forall j: nat | j < |after| ensures after[j] == ViewOf(r, j) {
      assert views[j] == ViewOf(s, j);
      StolenView(s, i, v, r, j);
    }
  }

  lemma StolenView(s: State, i: nat, v: nat, r: State, j: nat)
    requires i != v && j < |s.procs| && r.procs == s.procs && At(s, Ready(v)) != []
    requires At(r, Ready(i)) == At(s, Ready(i)) + [At(s, Ready(v))[0]] && At(r, Ready(v)) == At(s, Ready(v))[1..]
    requires forall a: Place | a != Ready(i) && a != Ready(v) :: At(r, a) == At(s, a)
    ensures ViewOf(r, j) == ViewOf(s, j).(
      ready := if j == i then At(s, Ready(i)) + [At(s, Ready(v))[0]]
               else if j == v then At(s, Ready(v))[1..] else At(s, Ready(j)))
  {
  }

  lemma TwoOps(s: State, i: nat, a: Op, b: Op, views: seq<View>) returns (r: State)
    requires Reached(s) && i < |s.procs| && OpEnabled(s, i, a) && !a.Steal? && !b.Steal? && ViewsOk(s, views)
    requires var m := OpNext(s, i, a); i < |m.procs| && OpEnabled(m, i, b)
    ensures DidTwo(s, i, a, b, r) && r == OpNext(OpNext(s, i, a), i, b) && Reached(r)
    ensures i < |r.procs| && ViewsOk(r, views[i := ViewOf(r, i)])
  {
    var m := OpNext(s, i, a);
    r := OpNext(m, i, b);
    RunTwo(s, On(i, a), On(i, b));
    ReachedOn(s, [On(i, a), On(i, b)]);
    OpViews(s, i, a, views);
    OpViews(m, i, b, views[i := ViewOf(m, i)]);
    assert views[i := ViewOf(m, i)][i := ViewOf(r, i)] == views[i := ViewOf(r, i)];
  }

  // ---------- A wake with nobody in between ----------

  function Wake(e: Entry): seq<Action> {
    [StartWake(0, e)] + ([StepWake(0)] + ([StepWake(0)] + [StepWake(0)]))
  }

  lemma RunStep(s: State, a: Action, rest: seq<Action>)
    ensures Run(s, [a] + rest) == Run(if Enabled(s, a) then Next(s, a) else s, rest)
  {
    assert ([a] + rest)[1..] == rest;
  }

  lemma NothingWaking(s: State, w: nat)
    requires Reached(s) && w !in s.wakers
    ensures At(s, Waking(w)) == []
  {
    ReachedInv(s);
    if At(s, Waking(w)) != [] {
      WakerOf(s, w, At(s, Waking(w))[0]);
    }
  }

  lemma WakerOf(s: State, w: nat, t: nat)
    requires Inv(s) && t in At(s, Waking(w))
    ensures w in s.wakers
  {
    assert PlaceOk(s, t);
  }

  /** What a wake through an entry makes of the state: the counter goes down in any case; the task is requeued,
      and the entry used up, if it was current. */
  ghost predicate WakeEffect(s: State, e: Entry, r: State) {
    && e.t in s.tasks
    && var k := s.tasks[e.t];
       && k.proc < |s.procs| && |r.procs| == |s.procs| && r.wakers == s.wakers
       && var u := ViewOf(s, k.proc);
          var v := u.(p := u.p.(blocks := u.p.blocks - 1));
          && ViewOf(r, k.proc) == (if k.suspendId == e.id then v.(wakeup := u.wakeup + [e.t]) else v)
          && SharedOf(r) == SharedOf(s).(
               tasks := if k.suspendId == e.id then s.tasks[e.t := k.(suspendId := e.id + 1)] else s.tasks)
          && (forall j: nat | j < |s.procs| && j != k.proc :: ViewOf(r, j) == ViewOf(s, j))
  }

  lemma WakeRuns(s: State, e: Entry)
    requires Reached(s) && s.wakers == map[] && e in s.origin && e.t in s.tasks
    ensures WakeEffect(s, e, Run(s, Wake(e)))
  {
    ReachedInv(s);
    assert PlaceOk(s, e.t);
    NothingWaking(s, 0);
    var s1 := Next(s, StartWake(0, e));
    RunStep(s, StartWake(0, e), [StepWake(0)] + ([StepWake(0)] + [StepWake(0)]));
    assert Enabled(s1, StepWake(0));
    RunStep(s1, StepWake(0), [StepWake(0)] + [StepWake(0)]);
    if s.tasks[e.t].suspendId == e.id {
      WakeCurrent(s, e);
    } else {
      WakeStale(s, e);
    }
  }

  lemma WakeStale(s: State, e: Entry)
    requires s.wakers == map[] && e in s.origin && e.t in s.tasks && s.tasks[e.t].proc < |s.procs|
    requires s.tasks[e.t].suspendId != e.id
    ensures WakeEffect(s, e, Run(WakeNext(Next(s, StartWake(0, e)), 0), [StepWake(0)] + [StepWake(0)]))
  {
    var s2 := WakeNext(Next(s, StartWake(0, e)), 0);
    RunStep(s2, StepWake(0), [StepWake(0)]);
    var r := WakeNext(s2, 0);
    assert !Enabled(r, StepWake(0));
    assert Run(r, [StepWake(0)]) == Run(r, [StepWake(0)][1..]) == r;
  }

  lemma WakeCurrent(s: State, e: Entry)
    requires s.wakers == map[] && e in s.origin && e.t in s.tasks && s.tasks[e.t].proc < |s.procs|
    requires s.tasks[e.t].suspendId == e.id && At(s, Waking(0)) == []
    ensures WakeEffect(s, e, Run(WakeNext(Next(s, StartWake(0, e)), 0), [StepWake(0)] + [StepWake(0)]))
  {
    var s2 := Claim(s, e);
    var r := PushAndCount(s2);
  }

  /** The swap takes the task out of its suspended or running place. */
  lemma Claim(s: State, e: Entry) returns (r: State)
    requires s.wakers == map[] && e in s.origin && e.t in s.tasks && s.tasks[e.t].proc < |s.procs|
    requires s.tasks[e.t].suspendId == e.id && At(s, Waking(0)) == []
    ensures r == WakeNext(Next(s, StartWake(0, e)), 0)
    ensures r.wakers == map[0 := WakePush(e, s.tasks[e.t].proc)] && At(r, Waking(0)) == [e.t]
    ensures |r.procs| == |s.procs|
    ensures SharedOf(r) == SharedOf(s).(tasks := s.tasks[e.t := s.tasks[e.t].(suspendId := e.id + 1)])
    ensures forall j: nat | j < |s.procs| :: ViewOf(r, j) == ViewOf(s, j)
  {
    var s1 := Next(s, StartWake(0, e));
    r := WakeNext(s1, 0);
    assert r.wakers == map[0 := WakePush(e, s.tasks[e.t].proc)];
  }

  lemma PushWoken(s: State) returns (r: State)
    requires s.wakers.Keys == {0} && s.wakers[0].WakePush? && s.wakers[0].p < |s.procs|
    requires At(s, Waking(0)) == [s.wakers[0].e.t]
    ensures Enabled(s, StepWake(0)) && r == WakeNext(s, 0) && Enabled(r, StepWake(0))
    ensures r.procs == s.procs && SharedOf(r) == SharedOf(s)
    ensures r.wakers == map[0 := WakeDec(s.wakers[0].e, s.wakers[0].p)]
    ensures forall j: nat | j < |s.procs| ::
      ViewOf(r, j) == (if j != s.wakers[0].p then ViewOf(s, j)
                       else ViewOf(s, j).(wakeup := ViewOf(s, j).wakeup + [s.wakers[0].e.t]))
  {
    r := WakeNext(s, 0);
    assert r.wakers == map[0 := WakeDec(s.wakers[0].e, s.wakers[0].p)];
  }

  lemma CountWake(s: State) returns (r: State)
    requires s.wakers.Keys == {0} && s.wakers[0].WakeDec? && s.wakers[0].p < |s.procs|
    ensures Enabled(s, StepWake(0)) && r == WakeNext(s, 0)
    ensures r.wakers == map[] && |r.procs| == |s.procs| && SharedOf(r) == SharedOf(s)
    ensures forall j: nat | j < |s.procs| ::
      ViewOf(r, j) == (if j != s.wakers[0].p then ViewOf(s, j)
                       else ViewOf(s, j).(p := s.procs[j].(blocks := s.procs[j].blocks - 1)))
  {
    r := WakeNext(s, 0);
    assert forall a: Place :: At(r, a) == At(s, a);
  }

  lemma PushAndCount(s: State) returns (r: State)
    requires s.wakers.Keys == {0} && s.wakers[0].WakePush? && s.wakers[0].p < |s.procs|
    requires At(s, Waking(0)) == [s.wakers[0].e.t]
    ensures r == Run(s, [StepWake(0)] + [StepWake(0)])
    ensures r.wakers == map[] && |r.procs| == |s.procs| && SharedOf(r) == SharedOf(s)
    ensures forall j: nat | j < |s.procs| ::
      ViewOf(r, j) == (if j != s.wakers[0].p then ViewOf(s, j)
                       else ViewOf(s, j).(p := s.procs[j].(blocks := s.procs[j].blocks - 1),
                                          wakeup := ViewOf(s, j).wakeup + [s.wakers[0].e.t]))
  {
    RunStep(s, StepWake(0), [StepWake(0)]);
    var m := PushWoken(s);
    RunOne(m, StepWake(0));
    r := CountWake(m);
  }
}
