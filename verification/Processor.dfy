/** The processors as a step system over atomic queues: each processor's loop, the tasks it runs, and the
    threads that wake suspended tasks. A run of a task is cut at its scheduling operations. */
module Processor {
  import opened Options

  /** `SuspendEntry`: a task and the suspend id it had when it registered. */
  datatype Entry = Entry(t: nat, id: nat)

  /** What the running task has done since it was swapped in: nothing yet, handed out an entry, or counted
      itself as blocked. */
  datatype Stage = Free | Suspending(e: Entry) | Blocking(e: Entry)

  datatype Proc = Proc(running: Option<nat>, stage: Stage, taskCount: nat, blocks: int)

  datatype Task = Task(suspendId: nat, proc: nat)

  /** A thread inside `taskWakeup`, by its next access; `p` is the processor it read from the task. */
  datatype Waker = WakeCas(e: Entry, p: nat) | WakePush(e: Entry, p: nat) | WakeDec(e: Entry, p: nat)

  /** Where a task can be: in one of the queues of a processor, in the global queue, in the hand of a processor
      that moves it to its ready queue, in the hand of a thread that wakes it, running, or suspended. */
  datatype Place =
    | Ready(p: nat) | Wakeup(p: nat) | Yielded(p: nat) | Hand(p: nat) | Global
    | Running(p: nat) | Parked(p: nat) | Waking(w: nat)

  /** `tasks` are the created and not finished tasks. History: where each task was last put, the processor each
      entry was handed out on, the entries whose block was counted, and those a wake was begun through. */
  datatype State = State(
    procs: seq<Proc>, queues: map<Place, seq<nat>>, tasks: map<nat, Task>, wakers: map<nat, Waker>,
    ids: nat, total: int,
    loc: map<nat, Place>, origin: map<Entry, nat>, counted: set<Entry>, woken: set<Entry>)

  function Init(n: nat): State {
    State(seq(n, _ => Proc(None, Free, 0, 0)), map[], map[], map[], 0, 0, map[], map[], {}, {})
  }

  /** The tasks at a place, oldest first. */
  function At(s: State, a: Place): seq<nat> {
    if a in s.queues then s.queues[a] else []
  }

  /** A task not held anywhere is put at a place. */
  function Put(s: State, t: nat, to: Place): State {
    s.(queues := s.queues[to := At(s, to) + [t]], loc := s.loc[t := to])
  }

  function MoveFront(s: State, from: Place, to: Place): State
    requires At(s, from) != []
  {
    Put(s.(queues := s.queues[from := At(s, from)[1..]]), At(s, from)[0], to)
  }

  function Back(s: State, from: Place): nat
    requires At(s, from) != []
  {
    At(s, from)[|At(s, from)| - 1]
  }

  function MoveBack(s: State, from: Place, to: Place): State
    requires At(s, from) != []
  {
    Put(s.(queues := s.queues[from := At(s, from)[..|At(s, from)| - 1]]), Back(s, from), to)
  }

  datatype Op =
    | AddTask
    | PickWakeup | PickReady | TakeYielded | Steal(victim: nat) | TakeGlobal | TakeWakeup | PutReady
    | Register | BeginBlock | SwapOut | YieldTask | Finish

  datatype Action = On(p: nat, op: Op) | StartWake(w: nat, e: Entry) | StepWake(w: nat)

  /** The processor is in its loop, between two tasks and with nothing in hand. */
  predicate InLoop(s: State, i: nat)
    requires i < |s.procs|
  {
    s.procs[i].running.None? && At(s, Hand(i)) == []
  }

  /** The processor runs a task that has not begun to suspend itself. */
  predicate RunsFree(s: State, i: nat)
    requires i < |s.procs|
  {
    s.procs[i].running.Some? && s.procs[i].stage.Free? && s.procs[i].running.value in s.tasks
    && At(s, Running(i)) != []
  }

  predicate OpEnabled(s: State, i: nat, op: Op)
    requires i < |s.procs|
  {
    match op
    case AddTask => At(s, Hand(i)) == []
    case PickWakeup => InLoop(s, i) && At(s, Wakeup(i)) != [] && At(s, Wakeup(i))[0] in s.tasks
    case PickReady => InLoop(s, i) && At(s, Ready(i)) != [] && Back(s, Ready(i)) in s.tasks
    case TakeYielded => InLoop(s, i) && At(s, Yielded(i)) != []
    case Steal(v) => InLoop(s, i) && v != i && At(s, Ready(v)) != []
    case TakeGlobal => InLoop(s, i) && At(s, Global) != []
    case TakeWakeup => InLoop(s, i) && At(s, Wakeup(i)) != []
    case PutReady => At(s, Hand(i)) != []
    case Register => RunsFree(s, i)
    case BeginBlock => s.procs[i].stage.Suspending?
    case SwapOut => s.procs[i].stage.Blocking?
    case YieldTask => RunsFree(s, i)
    case Finish => RunsFree(s, i)
  }

  predicate Enabled(s: State, a: Action) {
    match a
    case On(i, op) => i < |s.procs| && OpEnabled(s, i, op)
    case StartWake(w, e) => w !in s.wakers && e in s.origin && e.t in s.tasks
    case StepWake(w) => w in s.wakers && s.wakers[w].p < |s.procs| && (s.wakers[w].WakePush? ==> At(s, Waking(w)) != [])
  }

  /** `runTask` up to the swap: the task now belongs to this processor. */
  function RunTask(s: State, i: nat, t: nat): State
    requires i < |s.procs| && t in s.tasks
  {
    s.(procs := s.procs[i := s.procs[i].(running := Some(t), stage := Free)],
       tasks := s.tasks[t := s.tasks[t].(proc := i)])
  }

  /** A new task has been made and counted. */
  function Created(s: State, i: nat): State
    requires i < |s.procs|
  {
    s.(tasks := s.tasks[s.ids := Task(0, i)], ids := s.ids + 1, total := s.total + 1,
       procs := s.procs[i := s.procs[i].(taskCount := s.procs[i].taskCount + 1)])
  }

  /** Every 32nd task of a processor goes to the global queue. */
  function AddsTo(s: State, i: nat): Place
    requires i < |s.procs|
  {
    if (s.procs[i].taskCount + 1) % 32 == 0 then Global else Ready(i)
  }

  function OpNext(s: State, i: nat, op: Op): State
    requires i < |s.procs| && OpEnabled(s, i, op)
  {
    var p := s.procs[i];
    match op
    case AddTask => Put(Created(s, i), s.ids, AddsTo(s, i))
    case PickWakeup => MoveFront(RunTask(s, i, At(s, Wakeup(i))[0]), Wakeup(i), Running(i))
    case PickReady => MoveBack(RunTask(s, i, Back(s, Ready(i))), Ready(i), Running(i))
    case TakeYielded => MoveFront(s, Yielded(i), Ready(i))
    case Steal(v) => MoveFront(s, Ready(v), Hand(i))
    case TakeGlobal => MoveFront(s, Global, Hand(i))
    case TakeWakeup => MoveFront(s, Wakeup(i), Hand(i))
    case PutReady => MoveFront(s, Hand(i), Ready(i))
    case Register =>
      var e := Entry(p.running.value, s.tasks[p.running.value].suspendId);
      s.(procs := s.procs[i := p.(stage := Suspending(e))], origin := s.origin[e := i])
    case BeginBlock =>
      s.(procs := s.procs[i := p.(stage := Blocking(p.stage.e), blocks := p.blocks + 1)],
         counted := s.counted + {p.stage.e})
    case SwapOut =>
      var r := s.(procs := s.procs[i := p.(running := None, stage := Free)]);
      if At(s, Running(i)) != [] then MoveFront(r, Running(i), Parked(i)) else r
    case YieldTask =>
      MoveFront(s.(procs := s.procs[i := p.(running := None)]), Running(i), Yielded(i))
    case Finish =>
      s.(procs := s.procs[i := p.(running := None)], tasks := s.tasks - {p.running.value}, total := s.total - 1,
         queues := s.queues[Running(i) := At(s, Running(i))[1..]], loc := s.loc - {p.running.value})
  }

  /** One access of `taskWakeup`: the compare-and-swap of the suspend id, the push, the decrement. */
  function WakeNext(s: State, w: nat): State
    requires Enabled(s, StepWake(w))
  {
    match s.wakers[w]
    case WakeCas(e, i) =>
      if e.t in s.tasks && s.tasks[e.t].suspendId == e.id then
        var r := s.(wakers := s.wakers[w := WakePush(e, i)],
                    tasks := s.tasks[e.t := s.tasks[e.t].(suspendId := e.id + 1)]);
        if At(s, Running(i)) == [e.t] then MoveFront(r, Running(i), Waking(w)) else Unpark(r, e.t, i, w)
      else
        s.(wakers := s.wakers[w := WakeDec(e, i)])
    case WakePush(e, i) => MoveFront(s.(wakers := s.wakers[w := WakeDec(e, i)]), Waking(w), Wakeup(i))
    case WakeDec(e, i) =>
      s.(wakers := s.wakers - {w}, procs := s.procs[i := s.procs[i].(blocks := s.procs[i].blocks - 1)])
  }

  function Without(q: seq<nat>, t: nat): seq<nat> {
    if q == [] then [] else (if q[0] == t then [] else [q[0]]) + Without(q[1..], t)
  }

  /** A suspended task passes into the hand of the thread that wakes it. */
  function Unpark(s: State, t: nat, i: nat, w: nat): State {
    Put(s.(queues := s.queues[Parked(i) := Without(At(s, Parked(i)), t)]), t, Waking(w))
  }

  function Next(s: State, a: Action): State
    requires Enabled(s, a)
  {
    match a
    case On(i, op) => OpNext(s, i, op)
    case StartWake(w, e) =>
      s.(wakers := s.wakers[w := WakeCas(e, s.tasks[e.t].proc)], woken := s.woken + {e})
    case StepWake(w) => WakeNext(s, w)
  }

  /** A run; an action that is not enabled waits. */
  function Run(s: State, actions: seq<Action>): State
    decreases |actions|
  {
    if actions == [] then s
    else Run(if Enabled(s, actions[0]) then Next(s, actions[0]) else s, actions[1..])
  }
}
