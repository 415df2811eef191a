/** The processors as the program has them: queues and counters changed in place by the loop of a processor, by
    the task it runs and by whoever wakes a task, one call at a time. */
module ProcessorLoop {
  import opened Options
  import opened Steps = Processor
  import opened ProcessorTurn

  class Processor {
    const id: nat
    var running: Option<nat>
    var taskCount: nat
    var blocks: int
    var ready: seq<nat>
    var yielded: seq<nat>
    var wakeup: seq<nat>
    /** How far the running task has gone in suspending itself. */
    ghost var stage: Stage

    constructor (id: nat)
      ensures this.id == id && Value() == View(Proc(None, Free, 0, 0), [], [], [], [])
    {
      this.id := id;
      running, taskCount, blocks, ready, yielded, wakeup, stage := None, 0, 0, [], [], [], Free;
    }

    /** Between two calls nothing is in the processor's hand. */
    ghost function Value(): View
      reads this
    {
      View(Proc(running, stage, taskCount, blocks), ready, yielded, wakeup, [])
    }
  }

  /** How a turn ends: a task is run, tasks were moved to the ready queue, or the processor waits. */
  datatype Outcome = Ran(t: nat) | Moved | WaitsForWakeup | WaitsForGlobal

  class Scheduler {
    const procs: seq<Processor>
    var global: seq<nat>
    var ids: nat
    var total: int
    var tasks: map<nat, Task>
    ghost var model: State
    ghost var views: seq<View>

    constructor (procs: seq<Processor>)
      requires forall i: nat | i < |procs| ::
        procs[i].id == i && procs[i].Value() == View(Proc(None, Free, 0, 0), [], [], [], [])
      ensures Valid() && model == Init(|procs|) && this.procs == procs
    {
      this.procs := procs;
      global, ids, total, tasks := [], 0, 0, map[];
      model := Init(|procs|);
      views := seq(|procs|, i requires 0 <= i < |procs| => ViewOf(Init(|procs|), i));
      assert ReachedBy(Init(|procs|), |procs|, []);
    }

    ghost predicate SharedMatches()
      reads this
    {
      Shared(global, ids, total, tasks) == SharedOf(model)
    }

    ghost predicate ProcsMatch()
      reads this`views, procs
    {
      && |procs| == |views|
      && (forall i: nat | i < |procs| :: procs[i].id == i && procs[i].Value() == views[i])
    }

    /** The fields are those of a state that a run of the step system reaches, with no wake in flight. */
    ghost predicate Valid()
      reads this, procs
    {
      Reached(model) && model.wakers == map[] && ViewsOk(model, views) && ProcsMatch() && SharedMatches()
    }

    ghost predicate OthersMatch(i: nat)
      reads this`views, procs
    {
      && |procs| == |views|
      && (forall j: nat | j < |procs| :: procs[j].id == j && (j != i ==> procs[j].Value() == views[j]))
    }

    /** The model follows an operation that the fields have made. */
    ghost method Follow(i: nat, op: Op)
      requires Reached(model) && model.wakers == map[] && ViewsOk(model, views)
      requires i < |procs| && i < |model.procs| && OthersMatch(i)
      requires OpEnabled(model, i, op) && !op.Steal?
      requires Effect(model, OpNext(model, i, op), i, procs[i].Value(), Shared(global, ids, total, tasks))
      modifies this`model, this`views
      ensures Valid() && Did(old(model), i, op, model)
    {
      RunOne(model, On(i, op));
      ReachedOn(model, [On(i, op)]);
      OpViews(model, i, op, views);
      model := OpNext(model, i, op);
      views := views[i := ViewOf(model, i)];
    }

    ghost method FollowTwo(i: nat, a: Op, b: Op)
      requires Reached(model) && model.wakers == map[] && ViewsOk(model, views)
      requires i < |procs| && i < |model.procs| && OthersMatch(i)
      requires OpEnabled(model, i, a) && !a.Steal? && !b.Steal?
      requires var m := OpNext(model, i, a); i < |m.procs| && OpEnabled(m, i, b)
      requires Effect(model, OpNext(OpNext(model, i, a), i, b), i, procs[i].Value(),
                      Shared(global, ids, total, tasks))
      modifies this`model, this`views
      ensures Valid() && DidTwo(old(model), i, a, b, model)
    {
      var r := TwoOps(model, i, a, b, views);
      model := r;
      views := views[i := ViewOf(r, i)];
    }

    /** `addTask` of a made task: every 32nd task of a processor goes to the global queue. */
    method Enlist(i: nat, t: nat)
      requires i < |procs|
      modifies procs[i], this`global, this`total
      ensures var v := old(procs[i].Value());
        var toGlobal := (v.p.taskCount + 1) % 32 == 0;
        && procs[i].Value() == v.(p := v.p.(taskCount := v.p.taskCount + 1),
                                  ready := if toGlobal then v.ready else v.ready + [t])
        && global == (if toGlobal then old(global) + [t] else old(global))
        && total == old(total) + 1
    {
      var p := procs[i];
      p.taskCount := p.taskCount + 1;
      total := total + 1;
      if p.taskCount % 32 == 0 {
        global := global + [t];
      } else {
        p.ready := p.ready + [t];
      }
    }

    /** `addTask` of a function: makes the task. */
    method AddTask(i: nat) returns (t: nat)
      requires Valid() && i < |procs|
      modifies this, procs[i]
      ensures Valid() && Did(old(model), i, Op.AddTask, model)
      ensures t == old(ids) && ids == old(ids) + 1 && tasks == old(tasks)[t := Task(0, i)]
      ensures total == old(total) + 1 && procs[i].taskCount == old(procs[i].taskCount) + 1
      ensures if procs[i].taskCount % 32 == 0 then
                global == old(global) + [t] && procs[i].ready == old(procs[i].ready)
              else
                procs[i].ready == old(procs[i].ready) + [t] && global == old(global)
    {
      assert procs[i].Value() == views[i] == ViewOf(model, i);
      t := ids;
      ids := ids + 1;
      tasks := tasks[t := Task(0, i)];
      Enlist(i, t);
      AddTaskEffect(model, i, procs[i].Value(), Shared(global, ids, total, tasks));
      Follow(i, Op.AddTask);
    }

    /** A task that was woken; `runTask` makes it this processor's own. */
    method PickWakeup(i: nat) returns (t: nat)
      requires Valid() && i < |procs| && procs[i].running.None? && procs[i].wakeup != []
      modifies this, procs[i]
      ensures Valid() && Did(old(model), i, Op.PickWakeup, model)
      ensures t == old(procs[i].wakeup)[0] && procs[i].wakeup == old(procs[i].wakeup)[1..]
      ensures procs[i].running == Some(t) && t in tasks && tasks[t].proc == i
      ensures procs[i].ready == old(procs[i].ready) && global == old(global)
    {
      var p := procs[i];
      assert p.Value() == views[i] == ViewOf(model, i);
      QueuedTask(model, Wakeup(i), 0);
      t := p.wakeup[0];
      p.wakeup := p.wakeup[1..];
      p.running, p.stage := Some(t), Free;
      tasks := tasks[t := tasks[t].(proc := i)];
      PickWakeupEffect(model, i, p.Value(), Shared(global, ids, total, tasks));
      Follow(i, Op.PickWakeup);
    }

    /** The newest task of the own queue. */
    method PickReady(i: nat) returns (t: nat)
      requires Valid() && i < |procs| && procs[i].running.None? && procs[i].ready != []
      modifies this, procs[i]
      ensures Valid() && Did(old(model), i, Op.PickReady, model)
      ensures old(procs[i].ready) == procs[i].ready + [t]
      ensures procs[i].running == Some(t) && t in tasks && tasks[t].proc == i
      ensures procs[i].wakeup == old(procs[i].wakeup) && global == old(global)
    {
      var p := procs[i];
      assert p.Value() == views[i] == ViewOf(model, i);
      QueuedTask(model, Ready(i), |p.ready| - 1);
      t := p.ready[|p.ready| - 1];
      p.ready := p.ready[..|p.ready| - 1];
      p.running, p.stage := Some(t), Free;
      tasks := tasks[t := tasks[t].(proc := i)];
      PickReadyEffect(model, i, p.Value(), Shared(global, ids, total, tasks));
      Follow(i, Op.PickReady);
    }

    method TakeYielded(i: nat)
      requires Valid() && i < |procs| && procs[i].running.None? && procs[i].yielded != []
      modifies this, procs[i]
      ensures Valid() && Did(old(model), i, Op.TakeYielded, model) && procs[i].running.None?
      ensures procs[i].ready == old(procs[i].ready) + [old(procs[i].yielded)[0]]
      ensures procs[i].yielded == old(procs[i].yielded)[1..] && global == old(global)
    {
      var p := procs[i];
      assert p.Value() == views[i] == ViewOf(model, i);
      p.ready := p.ready + [p.yielded[0]];
      p.yielded := p.yielded[1..];
      TakeYieldedEffect(model, i, p.Value(), Shared(global, ids, total, tasks));
      Follow(i, Op.TakeYielded);
    }

    /** A pop of the global queue, waited for or not. */
    method TakeGlobal(i: nat)
      requires Valid() && i < |procs| && procs[i].running.None? && global != []
      modifies this, procs[i]
      ensures Valid() && DidTwo(old(model), i, Op.TakeGlobal, Op.PutReady, model) && procs[i].running.None?
      ensures procs[i].ready == old(procs[i].ready) + [old(global)[0]] && global == old(global)[1..]
      ensures procs[i].blocks == old(procs[i].blocks)
    {
      var p := procs[i];
      assert p.Value() == views[i] == ViewOf(model, i);
      p.ready := p.ready + [global[0]];
      global := global[1..];
      TakeGlobalEffect(model, i, p.Value(), Shared(global, ids, total, tasks));
      FollowTwo(i, Op.TakeGlobal, Op.PutReady);
    }

    /** What `waitAndPop` of the wakeup queue returns goes to the ready queue first. */
    method TakeWakeup(i: nat)
      requires Valid() && i < |procs| && procs[i].running.None? && procs[i].wakeup != []
      modifies this, procs[i]
      ensures Valid() && DidTwo(old(model), i, Op.TakeWakeup, Op.PutReady, model) && procs[i].running.None?
      ensures procs[i].ready == old(procs[i].ready) + [old(procs[i].wakeup)[0]]
      ensures procs[i].wakeup == old(procs[i].wakeup)[1..] && global == old(global)
    {
      var p := procs[i];
      assert p.Value() == views[i] == ViewOf(model, i);
      p.ready := p.ready + [p.wakeup[0]];
      p.wakeup := p.wakeup[1..];
      TakeWakeupEffect(model, i, p.Value(), Shared(global, ids, total, tasks));
      FollowTwo(i, Op.TakeWakeup, Op.PutReady);
    }

    /** `getSuspendEntry` of the running task. */
    method GetSuspendEntry(i: nat) returns (e: Entry)
      requires Valid() && i < |procs| && procs[i].running.Some? && procs[i].stage.Free?
      modifies this, procs[i]
      ensures Valid() && Did(old(model), i, Op.Register, model)
      ensures e in model.origin && model.origin[e] == i && procs[i].stage == Suspending(e)
      ensures e.t in tasks && old(procs[i].running) == Some(e.t) && e.id == tasks[e.t].suspendId && tasks == old(tasks)
    {
      var p := procs[i];
      assert p.Value() == views[i] == ViewOf(model, i);
      RunningTask(model, i);
      var t := p.running.value;
      e := Entry(t, tasks[t].suspendId);
      p.stage := Suspending(e);
      RegisterEffect(model, i, p.Value(), Shared(global, ids, total, tasks));
      Follow(i, Op.Register);
    }

    /** `taskBlock`: counts the block, then the task is swapped out. */
    method TaskBlock(i: nat)
      requires Valid() && i < |procs| && procs[i].stage.Suspending?
      modifies this, procs[i]
      ensures Valid() && DidTwo(old(model), i, Op.BeginBlock, Op.SwapOut, model) && procs[i].running.None?
      ensures procs[i].blocks == old(procs[i].blocks) + 1
    {
      var p := procs[i];
      assert p.Value() == views[i] == ViewOf(model, i);
      p.blocks := p.blocks + 1;
      p.running, p.stage := None, Free;
      BlockEffect(model, i, p.Value(), Shared(global, ids, total, tasks));
      FollowTwo(i, Op.BeginBlock, Op.SwapOut);
    }

    method TaskYield(i: nat)
      requires Valid() && i < |procs| && procs[i].running.Some? && procs[i].stage.Free?
      modifies this, procs[i]
      ensures Valid() && Did(old(model), i, Op.YieldTask, model) && procs[i].running.None?
      ensures procs[i].yielded == old(procs[i].yielded) + [old(procs[i].running).value]
    {
      var p := procs[i];
      assert p.Value() == views[i] == ViewOf(model, i);
      RunningTask(model, i);
      p.yielded := p.yielded + [p.running.value];
      p.running := None;
      YieldEffect(model, i, p.Value(), Shared(global, ids, total, tasks));
      Follow(i, Op.YieldTask);
    }

    /** The end of `runTask` for a task that is dead. */
    method Finish(i: nat)
      requires Valid() && i < |procs| && procs[i].running.Some? && procs[i].stage.Free?
      modifies this, procs[i]
      ensures Valid() && Did(old(model), i, Op.Finish, model) && procs[i].running.None?
      ensures tasks == old(tasks) - {old(procs[i].running).value} && total == old(total) - 1
    {
      var p := procs[i];
      assert p.Value() == views[i] == ViewOf(model, i);
      RunningTask(model, i);
      tasks := tasks - {p.running.value};
      p.running := None;
      total := total - 1;
      FinishEffect(model, i, p.Value(), Shared(global, ids, total, tasks));
      Follow(i, Op.Finish);
    }

    /** `taskWakeup` on the processor of the entry's task: the task is requeued before the counter goes down. */
    method TaskWakeup(e: Entry) returns (current: bool)
      requires Valid() && e in model.origin && e.t in tasks
      modifies this, procs
      ensures Valid() && model == Run(old(model), Wake(e))
      ensures current <==> old(tasks)[e.t].suspendId == e.id
      ensures old(tasks)[e.t].proc < |procs|
      ensures var p := procs[old(tasks)[e.t].proc];
        && p.blocks == old(p.blocks) - 1
        && p.wakeup == (if current then old(p.wakeup) + [e.t] else old(p.wakeup))
        && tasks == if current then old(tasks)[e.t := old(tasks)[e.t].(suspendId := e.id + 1)] else old(tasks)
    {
      WakeRuns(model, e);
      ReachedOn(model, Wake(e));
      var p := procs[tasks[e.t].proc];
      assert p.Value() == views[p.id];
      current := tasks[e.t].suspendId == e.id;
      if current {
        tasks := tasks[e.t := tasks[e.t].(suspendId := e.id + 1)];
        p.wakeup := p.wakeup + [e.t];
      }
      p.blocks := p.blocks - 1;
      assert OthersMatch(p.id);
      FollowWake(e);
    }

    ghost method FollowWake(e: Entry)
      requires Reached(model) && Reached(Run(model, Wake(e))) && ViewsOk(model, views)
      requires WakeEffect(model, e, Run(model, Wake(e))) && model.wakers == map[] && OthersMatch(model.tasks[e.t].proc)
      requires var r := Run(model, Wake(e));
        && Shared(global, ids, total, tasks) == SharedOf(r)
        && procs[model.tasks[e.t].proc].Value() == ViewOf(r, model.tasks[e.t].proc)
      modifies this`model, this`views
      ensures Valid() && model == Run(old(model), Wake(e))
    {
      var i := model.tasks[e.t].proc;
      model := Run(model, Wake(e));
      views := views[i := ViewOf(model, i)];
    }

    /** A task taken from the front of another ready queue goes to the back of this one. */
    method StealOnce(i: nat, v: nat)
      requires Valid() && i < |procs| && v < |procs| && v != i && procs[i].running.None? && procs[v].ready != []
      modifies this`model, this`views, procs[i], procs[v]
      ensures Valid() && model == Run(old(model), [On(i, Op.Steal(v)), On(i, Op.PutReady)])
      ensures procs[i].Value() == old(procs[i].Value()).(ready := old(procs[i].ready) + [old(procs[v].ready)[0]])
      ensures procs[v].Value() == old(procs[v].Value()).(ready := old(procs[v].ready)[1..])
    {
      assert procs[i].id == i && procs[v].id == v;
      assert procs[i].Value() == views[i] == ViewOf(model, i) && procs[v].Value() == views[v] == ViewOf(model, v);
      var ret := procs[v].ready[0];
      procs[v].ready := procs[v].ready[1..];
      procs[i].ready := procs[i].ready + [ret];
      FollowSteal(i, v);
    }

    ghost method FollowSteal(i: nat, v: nat)
      requires Reached(model) && model.wakers == map[] && ViewsOk(model, views) && SharedMatches()
      requires i < |procs| == |views| && v < |procs| && v != i
      requires views[i].p.running.None? && views[i].hand == [] && views[v].ready != []
      requires procs[i].Value() == views[i].(ready := views[i].ready + [views[v].ready[0]])
      requires procs[v].Value() == views[v].(ready := views[v].ready[1..])
      requires forall j: nat | j < |procs| :: procs[j].id == j && (j != i && j != v ==> procs[j].Value() == views[j])
      modifies this`model, this`views
      ensures Valid() && model == Run(old(model), [On(i, Op.Steal(v)), On(i, Op.PutReady)])
    {
      views := views[i := procs[i].Value()][v := procs[v].Value()];
      model := StealViews(model, i, v, old(views), views);
    }

    /** Half of the victim's tasks, rounded down. */
    method StealHalf(i: nat, v: nat)
      requires Valid() && i < |procs| && v < |procs| && v != i && procs[i].running.None?
      modifies this`model, this`views, procs[i], procs[v]
      ensures Valid() && model == Run(old(model), Steals(i, v, |old(procs[v].ready)| / 2))
      ensures var n := |old(procs[v].ready)| / 2;
        && procs[i].Value() == old(procs[i].Value()).(ready := old(procs[i].ready) + old(procs[v].ready)[..n])
        && procs[v].Value() == old(procs[v].Value()).(ready := old(procs[v].ready)[n..])
    {
      var quesize := |procs[v].ready| / 2;
      ghost var count := 0;
      while quesize > 0
        invariant Valid() && count + quesize == |old(procs[v].ready)| / 2 && 0 <= quesize
        invariant procs[i].Value() == old(procs[i].Value()).(
          ready := old(procs[i].ready) + old(procs[v].ready)[..count])
        invariant procs[v].Value() == old(procs[v].Value()).(ready := old(procs[v].ready)[count..])
        invariant model == Run(old(model), Steals(i, v, count))
      {
        StealOnce(i, v);
        Taken(old(procs[i].ready), old(procs[v].ready), count);
        StealsStep(old(model), i, v, count);
        quesize, count := quesize - 1, count + 1;
      }
    }

    /** The random numbers are those of processors. */
    ghost predicate Drawn(draws: seq<nat>) {
      forall m: nat | m < |draws| :: draws[m] < |procs|
    }

    /** The draw that decides a theft: the first of another processor that has something. */
    ghost predicate Chosen(i: nat, draws: seq<nat>, k: nat)
      requires k < |draws| && Drawn(draws)
      reads procs
    {
      && draws[k] != i && procs[draws[k]].ready != []
      && forall m: nat | m < k :: draws[m] == i || procs[draws[m]].ready == []
    }

    ghost predicate NoTask(i: nat)
      requires i < |procs|
      reads procs
    {
      procs[i].wakeup == [] && procs[i].ready == [] && procs[i].yielded == []
    }

    /** Tries the random victims one after the other until one has something. */
    method FindVictim(i: nat, draws: seq<nat>) returns (victim: Option<nat>)
      requires Valid() && Drawn(draws)
      ensures victim == FirstBusy(model, i, draws)
      ensures forall k: nat | k < |draws| && Chosen(i, draws, k) :: victim == Some(draws[k])
      ensures victim.Some? ==> exists k: nat :: k < |draws| && Chosen(i, draws, k)
    {
      var k := 0;
      while k < |draws|
        invariant k <= |draws| && FirstBusy(model, i, draws) == FirstBusy(model, i, draws[k..])
        invariant forall m: nat | m < k :: draws[m] == i || procs[draws[m]].ready == []
      {
        var v := draws[k];
        assert v in draws && procs[v].Value() == views[v] == ViewOf(model, v);
        FirstBusyStep(model, i, draws, k);
        if v != i && procs[v].ready != [] {
          assert Chosen(i, draws, k);
          return Some(v);
        }
        k := k + 1;
      }
      victim := None;
    }

    /** Steals from one of twice as many random victims as there are processors: half of what the chosen one has,
        rounded down, oldest first. */
    method Rob(i: nat, draws: seq<nat>)
      requires Valid() && i < |procs| && procs[i].running.None? && procs[i].ready == []
      requires |draws| == 2 * |procs| && Drawn(draws)
      modifies this`model, this`views, procs
      ensures Valid() && model == Run(old(model), Stolen(old(model), i, draws))
      ensures procs[i].Value() == old(procs[i].Value()).(ready := procs[i].ready)
      ensures procs[i].ready == [] <==> Stolen(old(model), i, draws) == []
      ensures forall k: nat | k < |draws| && old(Chosen(i, draws, k)) ::
        var was := old(procs[draws[k]].ready);
        procs[i].ready == was[..|was| / 2] && procs[draws[k]].ready == was[|was| / 2..]
      ensures (forall k: nat | k < |draws| :: !old(Chosen(i, draws, k))) ==> procs[i].ready == []
      ensures forall j: nat | j < |procs| && j != i && j !in draws :: procs[j].Value() == old(procs[j].Value())
    {
      var victim := FindVictim(i, draws);
      if victim.Some? {
        var v := victim.value;
        assert procs[v].Value() == views[v] == ViewOf(model, v);
        assert procs[i].id == i && procs[v].id == v;
        StealsNone(i, v, |procs[v].ready| / 2);
        StealHalf(i, v);
      }
    }

    /** One turn of `run`, with the random draws as a parameter. A processor runs the task woken first, or else its
        newest ready task; with neither it makes the task that yielded first ready, or else steals half of the ready
        tasks of the chosen victim, or else, when that is none, takes the first task of the global queue. One that
        finds nothing waits for its wakeup queue or, if no block is outstanding, for the global queue. */
    method Turn(i: nat, draws: seq<nat>) returns (outcome: Outcome)
      requires Valid() && i < |procs| && procs[i].running.None?
      requires |draws| == 2 * |procs| && Drawn(draws)
      modifies this, procs
      ensures Valid() && model == Run(old(model), TurnActions(old(model), i, draws))
      ensures procs[i].running == if outcome.Ran? then Some(outcome.t) else None
      ensures old(procs[i].wakeup) != [] ==>
        && outcome == Ran(old(procs[i].wakeup)[0]) && procs[i].wakeup == old(procs[i].wakeup)[1..]
        && procs[i].ready == old(procs[i].ready) && global == old(global)
      ensures old(procs[i].wakeup) == [] && old(procs[i].ready) != [] ==>
        outcome.Ran? && old(procs[i].ready) == procs[i].ready + [outcome.t] && global == old(global)
      ensures old(procs[i].wakeup) == [] && old(procs[i].ready) == [] && old(procs[i].yielded) != [] ==>
        && outcome == Moved && procs[i].ready == [old(procs[i].yielded)[0]]
        && procs[i].yielded == old(procs[i].yielded)[1..] && global == old(global)
      ensures old(NoTask(i)) ==> forall k: nat | k < |draws| && old(Chosen(i, draws, k)) ::
        var was := old(procs[draws[k]].ready);
        |was| >= 2 ==>
          && outcome == Moved && global == old(global)
          && procs[i].ready == was[..|was| / 2] && procs[draws[k]].ready == was[|was| / 2..]
      ensures
        (old(NoTask(i)) &&
         forall k: nat | k < |draws| && old(Chosen(i, draws, k)) :: |old(procs[draws[k]].ready)| == 1) ==>
          if old(global) != [] then
            outcome == Moved && procs[i].ready == [old(global)[0]] && global == old(global)[1..]
          else
            procs[i].ready == [] && outcome == if procs[i].blocks != 0 then WaitsForWakeup else WaitsForGlobal
      ensures outcome.WaitsForWakeup? <==> TurnActions(old(model), i, draws) == [] && procs[i].blocks != 0
      ensures outcome.WaitsForGlobal? <==> TurnActions(old(model), i, draws) == [] && procs[i].blocks == 0
    {
      var p := procs[i];
      assert p.Value() == views[i] == ViewOf(model, i);
      if p.wakeup != [] {
        var t := PickWakeup(i);
        RunOne(old(model), On(i, Op.PickWakeup));
        return Ran(t);
      }
      if p.ready != [] {
        var t := PickReady(i);
        RunOne(old(model), On(i, Op.PickReady));
        return Ran(t);
      }
      if p.yielded != [] {
        TakeYielded(i);
        RunOne(old(model), On(i, Op.TakeYielded));
        return Moved;
      }
      outcome := Search(i, draws);
    }

    /** The part of a turn in which the processor has no task of its own. */
    method Search(i: nat, draws: seq<nat>) returns (outcome: Outcome)
      requires Valid() && i < |procs| && procs[i].running.None? && procs[i].ready == []
      requires |draws| == 2 * |procs| && Drawn(draws)
      modifies this, procs
      ensures var stolen := Stolen(old(model), i, draws);
        var acts := if stolen != [] then stolen
                    else if old(global) != [] then [On(i, Op.TakeGlobal), On(i, Op.PutReady)] else [];
        && Valid() && model == Run(old(model), acts)
        && outcome == if acts != [] then Moved else if procs[i].blocks != 0 then WaitsForWakeup else WaitsForGlobal
      ensures procs[i].running == None
      ensures forall k: nat | k < |draws| && old(Chosen(i, draws, k)) ::
        var was := old(procs[draws[k]].ready);
        |was| >= 2 ==>
          && outcome == Moved && global == old(global)
          && procs[i].ready == was[..|was| / 2] && procs[draws[k]].ready == was[|was| / 2..]
      ensures (forall k: nat | k < |draws| && old(Chosen(i, draws, k)) :: |old(procs[draws[k]].ready)| == 1) ==>
        if old(global) != [] then
          outcome == Moved && procs[i].ready == [old(global)[0]] && global == old(global)[1..]
        else
          procs[i].ready == [] && outcome == if procs[i].blocks != 0 then WaitsForWakeup else WaitsForGlobal
    {
      Rob(i, draws);
      if procs[i].ready != [] {
        return Moved;
      }
      if global != [] {
        ghost var was := model;
        TakeGlobal(i);
        RunTwo(was, On(i, Op.TakeGlobal), On(i, Op.PutReady));
        return Moved;
      }
      outcome := if procs[i].blocks != 0 then WaitsForWakeup else WaitsForGlobal;
    }
  }

  lemma Taken(a: seq<nat>, b: seq<nat>, n: nat)
    requires n < |b|
    ensures a + b[..n] + [b[n..][0]] == a + b[..n + 1] && b[n..][1..] == b[n + 1..]
  {
  }
}
