/** One place per task: what every step of the processors and of the waking threads keeps. */
module ProcessorInvariant {
  import opened Options
  import opened Processor

  ghost predicate NoDup(q: seq<nat>) {
    forall m: nat, n: nat | m < n < |q| :: q[m] != q[n]
  }

  /** Each task is in the queue of the place it was last put at, once, and in no other queue. */
  ghost predicate Located(s: State) {
    && Queued(s)
    && s.loc.Keys == s.tasks.Keys
    && s.total == |s.tasks|
    && (forall t | t in s.tasks :: t < s.ids)
  }

  ghost predicate Queued(s: State) {
    && (forall a: Place, t: nat {:trigger t in At(s, a)} :: t in At(s, a) <==> t in s.loc && s.loc[t] == a)
    && (forall a: Place :: NoDup(At(s, a)))
  }

  // ---------- Moving tasks between places ----------

  /** `rest` is the queue without the task. */
  ghost predicate Remainder(q: seq<nat>, rest: seq<nat>, t: nat) {
    && t in q && NoDup(rest)
    && (forall x :: x in rest <==> x in q && x != t)
  }

  lemma FrontRemainder(q: seq<nat>)
    requires q != [] && NoDup(q)
    ensures Remainder(q, q[1..], q[0])
  {
    forall x | x in q && x != q[0] ensures x in q[1..] {
      var n: nat :| n < |q| && q[n] == x;
      assert q[1..][n - 1] == x;
    }
  }

  lemma BackRemainder(q: seq<nat>)
    requires q != [] && NoDup(q)
    ensures Remainder(q, q[..|q| - 1], q[|q| - 1])
  {
    forall x | x in q && x != q[|q| - 1] ensures x in q[..|q| - 1] {
      var n: nat :| n < |q| && q[n] == x;
      assert q[..|q| - 1][n] == x;
    }
  }

  lemma {:induction false} WithoutRemainder(q: seq<nat>, t: nat)
    requires NoDup(q)
    ensures NoDup(Without(q, t)) && forall x :: x in Without(q, t) <==> x in q && x != t
    decreases |q|
  {
    if q != [] {
      WithoutRemainder(q[1..], t);
      var rest := Without(q[1..], t);
      assert forall x :: x in q <==> x == q[0] || x in q[1..];
      assert q[0] !in q[1..] by {
        forall n: nat | n < |q| - 1 ensures q[1..][n] != q[0] {
          assert q[1..][n] == q[n + 1];
        }
      }
      if q[0] != t {
        assert Without(q, t) == [q[0]] + rest;
      } else {
        assert Without(q, t) == rest;
      }
    }
  }

  lemma AppendNoDup(q: seq<nat>, t: nat)
    requires NoDup(q) && t !in q
    ensures NoDup(q + [t]) && forall x :: x in q + [t] <==> x in q || x == t
  {
  }

  lemma MoveQueued(s: State, from: Place, rest: seq<nat>, t: nat, to: Place)
    requires Queued(s) && from != to && Remainder(At(s, from), rest, t)
    ensures Queued(Put(s.(queues := s.queues[from := rest]), t, to))
  {
    var r := Put(s.(queues := s.queues[from := rest]), t, to);
    assert t in At(s, from) && t !in At(s, to);
    AppendNoDup(At(s, to), t);
    forall a: Place ensures NoDup(At(r, a)) && forall x: nat :: x in At(r, a) <==> x in r.loc && r.loc[x] == a {
      if a == to {
        assert At(r, a) == At(s, to) + [t];
      } else if a == from {
        assert At(r, a) == rest;
      } else {
        assert At(r, a) == At(s, a);
        assert t !in At(s, a);
      }
    }
  }

  lemma PutQueued(s: State, t: nat, to: Place)
    requires Queued(s) && t !in s.loc
    ensures Queued(Put(s, t, to))
  {
    var r := Put(s, t, to);
    assert t !in At(s, to);
    AppendNoDup(At(s, to), t);
    forall a: Place ensures NoDup(At(r, a)) && forall x: nat :: x in At(r, a) <==> x in r.loc && r.loc[x] == a {
      if a == to {
        assert At(r, a) == At(s, to) + [t];
      } else {
        assert At(r, a) == At(s, a);
        assert t !in At(s, a);
      }
    }
  }

  lemma RemoveQueued(s: State, from: Place, rest: seq<nat>, t: nat)
    requires Queued(s) && Remainder(At(s, from), rest, t)
    ensures Queued(s.(queues := s.queues[from := rest], loc := s.loc - {t}))
  {
    var r := s.(queues := s.queues[from := rest], loc := s.loc - {t});
    assert t in At(s, from);
    forall a: Place ensures NoDup(At(r, a)) && forall x: nat :: x in At(r, a) <==> x in r.loc && r.loc[x] == a {
      if a == from {
        assert At(r, a) == rest;
      } else {
        assert At(r, a) == At(s, a);
        assert t !in At(s, a);
      }
    }
  }

  lemma SameQueued(s: State, r: State)
    requires Queued(s) && r.queues == s.queues && r.loc == s.loc
    ensures Queued(r)
  {
    assert forall a :: At(r, a) == At(s, a);
    forall a: Place ensures NoDup(At(r, a)) {
      assert NoDup(At(s, a));
    }
  }

  // ---------- Who runs, who is suspended, who is being woken ----------

  /** The task a processor runs belongs to it, and is nowhere else unless it has handed an entry out and has
      been woken by it already. */
  ghost predicate ProcOk(s: State, i: nat)
    requires i < |s.procs|
  {
    var p := s.procs[i];
    match p.running
    case None => p.stage.Free?
    case Some(t) =>
      && t in s.tasks && t in s.loc && s.tasks[t].proc == i
      && match p.stage
         case Free => s.loc[t] == Running(i)
         case _ =>
           && p.stage.e.t == t && p.stage.e in s.origin && s.origin[p.stage.e] == i
           && (if s.tasks[t].suspendId == p.stage.e.id then s.loc[t] == Running(i) else WokenEarly(s, i, t))
  }

  /** A task woken before it was swapped out: in its own processor's wakeup queue, or on the way there. */
  ghost predicate WokenEarly(s: State, i: nat, t: nat) {
    && t in s.loc
    && (s.loc[t] == Wakeup(i)
        || (s.loc[t].Waking? && s.loc[t].w in s.wakers && s.wakers[s.loc[t].w].p == i))
  }

  /** What the place of a task says. */
  ghost predicate PlaceOk(s: State, t: nat)
    requires t in s.tasks && t in s.loc
  {
    s.tasks[t].proc < |s.procs| &&
    match s.loc[t]
    case Running(i) => i < |s.procs| && s.procs[i].running == Some(t) && s.tasks[t].proc == i
    case Parked(i) =>
      i < |s.procs| && s.tasks[t].proc == i &&
      var e := Entry(t, s.tasks[t].suspendId); e in s.origin && s.origin[e] == i
    case Waking(w) => w in s.wakers && s.wakers[w].WakePush? && s.wakers[w].e.t == t
    case _ => true
  }

  /** An entry that is still current belongs to a task that is suspending itself or suspended. */
  ghost predicate EntryOk(s: State, e: Entry)
    requires e in s.origin
  {
    && s.origin[e] < |s.procs| && e.t < s.ids
    && (e.t in s.tasks ==>
          && e.t in s.loc
          && e.id <= s.tasks[e.t].suspendId
          && (e.id == s.tasks[e.t].suspendId ==>
                && s.tasks[e.t].proc == s.origin[e]
                && (s.loc[e.t] == Parked(s.origin[e])
                    || (s.loc[e.t] == Running(s.origin[e]) && !s.procs[s.origin[e]].stage.Free?
                        && s.procs[s.origin[e]].stage.e == e))))
  }

  ghost predicate WakerOk(s: State, w: nat)
    requires w in s.wakers
  {
    var k := s.wakers[w];
    && k.p < |s.procs| && k.e in s.origin
    && match k
       case WakeCas(e, i) => e.t in s.tasks && s.tasks[e.t].suspendId == e.id ==> s.tasks[e.t].proc == i
       case WakePush(e, i) =>
         e.t in s.tasks && e.t in s.loc && s.loc[e.t] == Waking(w) && s.tasks[e.t].proc == i
         && s.tasks[e.t].suspendId == e.id + 1
       case WakeDec(_, _) => true
  }

  ghost predicate Inv(s: State) {
    && Located(s)
    && (forall i: nat | i < |s.procs| :: ProcOk(s, i))
    && (forall t | t in s.tasks :: PlaceOk(s, t))
    && (forall e | e in s.origin :: EntryOk(s, e))
    && (forall w | w in s.wakers :: WakerOk(s, w))
  }

  lemma InitInv(n: nat)
    ensures Inv(Init(n))
  {
  }

  // ---------- The steps of a processor ----------

  /** A task passes from one queue to another, or into a hand or out of it. */
  lemma ShiftKeeps(s: State, from: Place, to: Place)
    requires Inv(s) && At(s, from) != [] && from != to
    requires from.Ready? || from.Wakeup? || from.Yielded? || from.Hand? || from.Global?
    requires from.Wakeup? ==> from.p < |s.procs| && s.procs[from.p].running.None?
    requires to.Ready? || to.Hand?
    ensures Inv(MoveFront(s, from, to))
  {
    var t := At(s, from)[0];
    var r := MoveFront(s, from, to);
    assert NoDup(At(s, from));
    FrontRemainder(At(s, from));
    MoveQueued(s, from, At(s, from)[1..], t, to);
    assert t in At(s, from);
    forall i: nat | i < |r.procs| ensures ProcOk(r, i) {
      assert ProcOk(s, i);
    }
    forall u | u in r.tasks ensures PlaceOk(r, u) {
      assert PlaceOk(s, u);
    }
    forall e | e in r.origin ensures EntryOk(r, e) {
      assert EntryOk(s, e);
    }
    forall w | w in r.wakers ensures WakerOk(r, w) {
      assert WakerOk(s, w);
    }
  }

  /** What running a task changes apart from the queues. */
  ghost predicate Picked(s: State, r: State, i: nat, t: nat) {
    && i < |s.procs| && t in s.tasks && t in s.loc
    && r == s.(procs := s.procs[i := s.procs[i].(running := Some(t), stage := Free)],
               tasks := s.tasks[t := s.tasks[t].(proc := i)], loc := s.loc[t := Running(i)], queues := r.queues)
  }

  lemma PickProcs(s: State, r: State, i: nat, t: nat)
    requires Inv(s) && Picked(s, r, i, t) && s.procs[i].running.None? && (s.loc[t] == Wakeup(i) || s.loc[t] == Ready(i))
    ensures forall j: nat | j < |r.procs| :: ProcOk(r, j)
    ensures forall u | u in r.tasks :: u in r.loc && PlaceOk(r, u)
  {
    forall j: nat | j < |r.procs| ensures ProcOk(r, j) {
      assert ProcOk(s, j);
    }
    forall u | u in r.tasks ensures u in r.loc && PlaceOk(r, u) {
      assert PlaceOk(s, u);
    }
  }

  lemma PickEntries(s: State, r: State, i: nat, t: nat)
    requires Inv(s) && Picked(s, r, i, t) && s.procs[i].running.None? && (s.loc[t] == Wakeup(i) || s.loc[t] == Ready(i))
    ensures forall e | e in r.origin :: EntryOk(r, e)
    ensures forall w | w in r.wakers :: WakerOk(r, w)
  {
    forall e | e in r.origin ensures EntryOk(r, e) {
      assert EntryOk(s, e);
      if e.t in s.tasks {
        assert PlaceOk(s, e.t);
      }
    }
    forall w | w in r.wakers ensures WakerOk(r, w) {
      assert WakerOk(s, w);
      assert EntryOk(s, s.wakers[w].e);
    }
  }

  /** A processor in its loop runs a task from one of its queues. */
  lemma PickKeeps(s: State, i: nat, from: Place, rest: seq<nat>, t: nat)
    requires Inv(s) && i < |s.procs| && s.procs[i].running.None? && (from == Wakeup(i) || from == Ready(i))
    requires Remainder(At(s, from), rest, t) && t in s.tasks
    ensures Inv(Put(RunTask(s, i, t).(queues := s.queues[from := rest]), t, Running(i)))
  {
    var r := Put(RunTask(s, i, t).(queues := s.queues[from := rest]), t, Running(i));
    MoveQueued(s, from, rest, t, Running(i));
    SameQueued(Put(s.(queues := s.queues[from := rest]), t, Running(i)), r);
    assert t in At(s, from);
    assert r.tasks.Keys == s.tasks.Keys;
    assert |r.tasks| == |r.tasks.Keys| == |s.tasks.Keys| == |s.tasks|;
    PickProcs(s, r, i, t);
    PickEntries(s, r, i, t);
  }

  lemma NewTask(s: State, v: State, to: Place, k: Task)
    requires Located(s) && v.queues == s.queues && v.loc == s.loc
    requires v.tasks == s.tasks[s.ids := k] && v.ids == s.ids + 1 && v.total == s.total + 1
    ensures Located(Put(v, s.ids, to))
  {
    SameQueued(s, v);
    PutQueued(v, s.ids, to);
    OneMoreTask(s.tasks, s.ids, k);
  }

  lemma AddTaskQueues(s: State, i: nat)
    requires Located(s) && i < |s.procs| && OpEnabled(s, i, AddTask)
    ensures Located(OpNext(s, i, AddTask))
  {
    NewTask(s, Created(s, i), AddsTo(s, i), Task(0, i));
  }

  lemma OneMoreTask(tasks: map<nat, Task>, t: nat, k: Task)
    requires t !in tasks
    ensures tasks[t := k].Keys == tasks.Keys + {t} && |tasks[t := k]| == |tasks| + 1
  {
    assert |tasks[t := k]| == |tasks[t := k].Keys| == |tasks.Keys| + 1;
  }

  lemma AddTaskKeeps(s: State, i: nat)
    requires Inv(s) && i < |s.procs| && OpEnabled(s, i, AddTask)
    ensures Inv(OpNext(s, i, AddTask))
  {
    var r := OpNext(s, i, AddTask);
    AddTaskQueues(s, i);
    forall j: nat | j < |r.procs| ensures ProcOk(r, j) {
      assert ProcOk(s, j);
    }
    forall u | u in r.tasks ensures PlaceOk(r, u) {
      if u != s.ids {
        assert PlaceOk(s, u);
      }
    }
    forall e | e in r.origin ensures EntryOk(r, e) {
      assert EntryOk(s, e);
    }
    forall w | w in r.wakers ensures WakerOk(r, w) {
      assert WakerOk(s, w);
      assert EntryOk(s, s.wakers[w].e);
    }
  }

  lemma RegisterKeeps(s: State, i: nat)
    requires Inv(s) && i < |s.procs| && OpEnabled(s, i, Register)
    ensures Inv(OpNext(s, i, Register))
  {
    var r := OpNext(s, i, Register);
    SameQueued(s, r);
    assert ProcOk(s, i);
    forall j: nat | j < |r.procs| ensures ProcOk(r, j) {
      assert ProcOk(s, j);
    }
    forall u | u in r.tasks ensures PlaceOk(r, u) {
      assert PlaceOk(s, u);
    }
    forall e | e in r.origin ensures EntryOk(r, e) {
      if e in s.origin {
        assert EntryOk(s, e);
      }
    }
    forall w | w in r.wakers ensures WakerOk(r, w) {
      assert WakerOk(s, w);
    }
  }

  /** What a step leaves alone that moves no task: who runs what, and how far it has gone in suspending itself. */
  ghost predicate SameRuns(s: State, r: State) {
    && r.queues == s.queues && r.loc == s.loc && r.tasks == s.tasks && r.origin == s.origin
    && r.ids == s.ids && r.total == s.total && |r.procs| == |s.procs|
    && (forall i: nat | i < |s.procs| ::
          && r.procs[i].running == s.procs[i].running
          && (r.procs[i].stage.Free? <==> s.procs[i].stage.Free?)
          && (!s.procs[i].stage.Free? ==> r.procs[i].stage.e == s.procs[i].stage.e))
  }

  /** Such a step keeps the invariant if it takes no task from the hand of a thread that wakes it. */
  lemma SameRunsKeeps(s: State, r: State)
    requires Inv(s) && SameRuns(s, r) && forall w | w in r.wakers :: WakerOk(r, w)
    requires forall w | w in s.wakers && s.wakers[w].WakePush? :: w in r.wakers && r.wakers[w] == s.wakers[w]
    ensures Inv(r)
  {
    SameQueued(s, r);
    forall i: nat | i < |r.procs| ensures ProcOk(r, i) {
      assert ProcOk(s, i);
      if s.procs[i].running.Some? {
        assert PlaceOk(s, s.procs[i].running.value);
      }
    }
    forall u | u in r.tasks ensures PlaceOk(r, u) {
      assert PlaceOk(s, u);
    }
    forall e | e in r.origin ensures EntryOk(r, e) {
      assert EntryOk(s, e);
    }
  }

  lemma BeginBlockKeeps(s: State, i: nat)
    requires Inv(s) && i < |s.procs| && OpEnabled(s, i, BeginBlock)
    ensures Inv(OpNext(s, i, BeginBlock))
  {
    var r := OpNext(s, i, BeginBlock);
    forall w | w in r.wakers ensures WakerOk(r, w) {
      assert WakerOk(s, w);
    }
    SameRunsKeeps(s, r);
  }

  lemma AllEqual(q: seq<nat>, t: nat)
    requires NoDup(q) && forall n: nat | n < |q| :: q[n] == t
    ensures |q| <= 1
  {
    if q != [] {
      assert q[0] == q[|q| - 1];
    }
  }

  /** The queue of a running place holds the running task or, once that has been woken, nothing. */
  lemma RunningQueue(s: State, i: nat)
    requires Inv(s) && i < |s.procs|
    ensures At(s, Running(i)) ==
      match s.procs[i].running
      case None => []
      case Some(t) => if t in s.loc && s.loc[t] == Running(i) then [t] else []
  {
    var q := At(s, Running(i));
    assert NoDup(q);
    forall n: nat | n < |q| ensures s.procs[i].running == Some(q[n]) && q[n] in s.loc && s.loc[q[n]] == Running(i) {
      assert q[n] in At(s, Running(i));
      assert PlaceOk(s, q[n]);
    }
    if q != [] {
      AllEqual(q, q[0]);
    }
    assert |q| == 1 ==> q == [q[0]];
    if s.procs[i].running.Some? {
      var t := s.procs[i].running.value;
      assert t in At(s, Running(i)) <==> t in s.loc && s.loc[t] == Running(i);
    }
  }

  /** What changes, apart from the queues, when the running task gives its processor up: it goes to the given
      place, unless it has been woken already. */
  ghost predicate GaveUp(s: State, r: State, i: nat, to: Place) {
    && i < |s.procs| && s.procs[i].running.Some?
    && var t := s.procs[i].running.value;
       && t in s.loc
       && r == s.(procs := s.procs[i := s.procs[i].(running := None, stage := Free)], queues := r.queues,
                  loc := if s.loc[t] == Running(i) then s.loc[t := to] else s.loc)
  }

  lemma SwapOutQueues(s: State, i: nat)
    requires Inv(s) && i < |s.procs| && OpEnabled(s, i, SwapOut)
    ensures GaveUp(s, OpNext(s, i, SwapOut), i, Parked(i)) && Queued(OpNext(s, i, SwapOut))
  {
    var v := s.(procs := OpNext(s, i, SwapOut).procs);
    RunningQueue(s, i);
    SameQueued(s, v);
    assert ProcOk(s, i);
    if At(s, Running(i)) != [] {
      assert NoDup(At(s, Running(i)));
      FrontRemainder(At(v, Running(i)));
      MoveQueued(v, Running(i), At(v, Running(i))[1..], s.procs[i].running.value, Parked(i));
    }
  }

  lemma YieldQueues(s: State, i: nat)
    requires Inv(s) && i < |s.procs| && OpEnabled(s, i, YieldTask)
    ensures GaveUp(s, OpNext(s, i, YieldTask), i, Yielded(i)) && Queued(OpNext(s, i, YieldTask))
  {
    var v := s.(procs := OpNext(s, i, YieldTask).procs);
    RunningQueue(s, i);
    SameQueued(s, v);
    assert ProcOk(s, i);
    FrontRemainder(At(v, Running(i)));
    MoveQueued(v, Running(i), At(v, Running(i))[1..], s.procs[i].running.value, Yielded(i));
  }

  lemma GiveUpPlaces(s: State, r: State, i: nat, to: Place)
    requires Inv(s) && GaveUp(s, r, i, to)
    requires (s.procs[i].stage.Blocking? && to == Parked(i)) || (s.procs[i].stage.Free? && to == Yielded(i))
    ensures forall j: nat | j < |r.procs| :: ProcOk(r, j)
    ensures forall u | u in r.tasks :: u in r.loc && PlaceOk(r, u)
  {
    assert ProcOk(s, i);
    var t := s.procs[i].running.value;
    assert s.loc[t] == Running(i) && to.Parked? ==> s.procs[i].stage.e == Entry(t, s.tasks[t].suspendId);
    forall j: nat | j < |r.procs| ensures ProcOk(r, j) {
      assert ProcOk(s, j);
    }
    forall u | u in r.tasks ensures u in r.loc && PlaceOk(r, u) {
      assert PlaceOk(s, u);
    }
  }

  /** A task that has blocked is parked, and a task that has not begun to suspend itself may yield. */
  lemma GiveUpKeeps(s: State, r: State, i: nat, to: Place)
    requires Inv(s) && GaveUp(s, r, i, to) && Queued(r)
    requires (s.procs[i].stage.Blocking? && to == Parked(i)) || (s.procs[i].stage.Free? && to == Yielded(i))
    ensures Inv(r)
  {
    GiveUpPlaces(s, r, i, to);
    assert ProcOk(s, i);
    forall e | e in r.origin ensures EntryOk(r, e) {
      assert EntryOk(s, e);
    }
    forall w | w in r.wakers ensures WakerOk(r, w) {
      assert WakerOk(s, w);
    }
  }

  lemma FinishKeeps(s: State, i: nat)
    requires Inv(s) && i < |s.procs| && OpEnabled(s, i, Finish)
    ensures Inv(OpNext(s, i, Finish))
  {
    var r := OpNext(s, i, Finish);
    RunningQueue(s, i);
    assert ProcOk(s, i);
    var t := s.procs[i].running.value;
    FrontRemainder(At(s, Running(i)));
    RemoveQueued(s, Running(i), At(s, Running(i))[1..], t);
    SameQueued(s.(queues := r.queues, loc := r.loc), r);
    assert r.tasks.Keys == s.tasks.Keys - {t};
    assert |r.tasks| == |r.tasks.Keys| == |s.tasks.Keys| - 1;
    forall j: nat | j < |r.procs| ensures ProcOk(r, j) {
      assert ProcOk(s, j);
    }
    forall u | u in r.tasks ensures PlaceOk(r, u) {
      assert PlaceOk(s, u);
    }
    forall e | e in r.origin ensures EntryOk(r, e) {
      assert EntryOk(s, e);
    }
    forall w | w in r.wakers ensures WakerOk(r, w) {
      assert WakerOk(s, w);
    }
  }

  lemma OpKeeps(s: State, i: nat, op: Op)
    requires Inv(s) && i < |s.procs| && OpEnabled(s, i, op)
    ensures Inv(OpNext(s, i, op))
  {
    match op
    case AddTask => AddTaskKeeps(s, i);
    case PickWakeup =>
      assert NoDup(At(s, Wakeup(i)));
      FrontRemainder(At(s, Wakeup(i)));
      PickKeeps(s, i, Wakeup(i), At(s, Wakeup(i))[1..], At(s, Wakeup(i))[0]);
    case PickReady =>
      assert NoDup(At(s, Ready(i)));
      BackRemainder(At(s, Ready(i)));
      PickKeeps(s, i, Ready(i), At(s, Ready(i))[..|At(s, Ready(i))| - 1], Back(s, Ready(i)));
    case TakeYielded => ShiftKeeps(s, Yielded(i), Ready(i));
    case Steal(v) => ShiftKeeps(s, Ready(v), Hand(i));
    case TakeGlobal => ShiftKeeps(s, Global, Hand(i));
    case TakeWakeup => ShiftKeeps(s, Wakeup(i), Hand(i));
    case PutReady => ShiftKeeps(s, Hand(i), Ready(i));
    case Register => RegisterKeeps(s, i);
    case BeginBlock => BeginBlockKeeps(s, i);
    case SwapOut =>
      SwapOutQueues(s, i);
      GiveUpKeeps(s, OpNext(s, i, SwapOut), i, Parked(i));
    case YieldTask =>
      YieldQueues(s, i);
      GiveUpKeeps(s, OpNext(s, i, YieldTask), i, Yielded(i));
    case Finish => FinishKeeps(s, i);
  }

  // ---------- The steps of a wake ----------

  lemma StartWakeKeeps(s: State, w: nat, e: Entry)
    requires Inv(s) && Enabled(s, StartWake(w, e))
    ensures Inv(Next(s, StartWake(w, e)))
  {
    var r := Next(s, StartWake(w, e));
    assert PlaceOk(s, e.t) && EntryOk(s, e);
    forall w' | w' in r.wakers ensures WakerOk(r, w') {
      if w' != w {
        assert WakerOk(s, w');
      }
    }
    SameRunsKeeps(s, r);
  }

  /** A swap that fails, because the id has moved on, and the decrement of the counter. */
  lemma NoClaimKeeps(s: State, w: nat)
    requires Inv(s) && Enabled(s, StepWake(w)) && !s.wakers[w].WakePush?
    requires s.wakers[w].WakeCas? ==> var e := s.wakers[w].e; !(e.t in s.tasks && s.tasks[e.t].suspendId == e.id)
    ensures Inv(WakeNext(s, w))
  {
    var r := WakeNext(s, w);
    assert WakerOk(s, w);
    forall w' | w' in r.wakers ensures WakerOk(r, w') {
      assert WakerOk(s, w');
    }
    SameRunsKeeps(s, r);
  }

  /** What a successful swap changes apart from the queues. */
  ghost predicate Claimed(s: State, r: State, w: nat) {
    && w in s.wakers && s.wakers[w].WakeCas?
    && var e := s.wakers[w].e;
       && e.t in s.tasks && e.t in s.loc && s.tasks[e.t].suspendId == e.id
       && r == s.(wakers := s.wakers[w := WakePush(e, s.wakers[w].p)], queues := r.queues,
                  tasks := s.tasks[e.t := s.tasks[e.t].(suspendId := e.id + 1)], loc := s.loc[e.t := Waking(w)])
  }

  lemma ClaimQueues(s: State, w: nat)
    requires Inv(s) && Enabled(s, StepWake(w)) && s.wakers[w].WakeCas?
    requires var e := s.wakers[w].e; e.t in s.tasks && s.tasks[e.t].suspendId == e.id
    ensures Claimed(s, WakeNext(s, w), w) && Queued(WakeNext(s, w))
  {
    var r := WakeNext(s, w);
    var e := s.wakers[w].e;
    var i := s.wakers[w].p;
    assert WakerOk(s, w) && EntryOk(s, e) && PlaceOk(s, e.t);
    RunningQueue(s, i);
    var v := s.(wakers := s.wakers[w := WakePush(e, i)], tasks := r.tasks);
    SameQueued(s, v);
    if At(s, Running(i)) == [e.t] {
      FrontRemainder([e.t]);
      MoveQueued(v, Running(i), At(v, Running(i))[1..], e.t, Waking(w));
    } else {
      assert s.loc[e.t] == Parked(i);
      assert e.t in At(v, Parked(i)) && NoDup(At(v, Parked(i)));
      WithoutRemainder(At(v, Parked(i)), e.t);
      MoveQueued(v, Parked(i), Without(At(v, Parked(i)), e.t), e.t, Waking(w));
    }
  }

  lemma ClaimPlaces(s: State, r: State, w: nat)
    requires Inv(s) && Claimed(s, r, w)
    ensures forall j: nat | j < |r.procs| :: ProcOk(r, j)
    ensures forall u | u in r.tasks :: u in r.loc && PlaceOk(r, u)
  {
    var e := s.wakers[w].e;
    assert WakerOk(s, w) && EntryOk(s, e) && PlaceOk(s, e.t);
    forall j: nat | j < |r.procs| ensures ProcOk(r, j) {
      assert ProcOk(s, j);
    }
    forall u | u in r.tasks ensures u in r.loc && PlaceOk(r, u) {
      assert PlaceOk(s, u);
    }
  }

  lemma ClaimKeeps(s: State, r: State, w: nat)
    requires Inv(s) && Claimed(s, r, w) && Queued(r)
    ensures Inv(r)
  {
    ClaimPlaces(s, r, w);
    assert r.tasks.Keys == s.tasks.Keys;
    assert |r.tasks| == |r.tasks.Keys| == |s.tasks.Keys| == |s.tasks|;
    forall e' | e' in r.origin ensures EntryOk(r, e') {
      assert EntryOk(s, e');
    }
    forall w' | w' in r.wakers ensures WakerOk(r, w') {
      assert WakerOk(s, w');
    }
  }

  lemma WakePushKeeps(s: State, w: nat)
    requires Inv(s) && Enabled(s, StepWake(w)) && s.wakers[w].WakePush?
    ensures Inv(WakeNext(s, w))
  {
    var r := WakeNext(s, w);
    var e := s.wakers[w].e;
    var v := s.(wakers := r.wakers);
    var q := At(s, Waking(w));
    assert WakerOk(s, w);
    assert e.t in At(s, Waking(w)) && NoDup(At(s, Waking(w)));
    assert q[0] in At(s, Waking(w));
    assert PlaceOk(s, q[0]);
    SameQueued(s, v);
    FrontRemainder(q);
    MoveQueued(v, Waking(w), q[1..], e.t, Wakeup(s.wakers[w].p));
    forall i: nat | i < |r.procs| ensures ProcOk(r, i) {
      assert ProcOk(s, i);
    }
    forall u | u in r.tasks ensures PlaceOk(r, u) {
      assert PlaceOk(s, u);
    }
    forall e' | e' in r.origin ensures EntryOk(r, e') {
      assert EntryOk(s, e');
    }
    forall w' | w' in r.wakers ensures WakerOk(r, w') {
      assert WakerOk(s, w');
    }
  }

  lemma NextKeeps(s: State, a: Action)
    requires Inv(s) && Enabled(s, a)
    ensures Inv(Next(s, a))
  {
    match a
    case On(i, op) => OpKeeps(s, i, op);
    case StartWake(w, e) => StartWakeKeeps(s, w, e);
    case StepWake(w) =>
      match s.wakers[w]
      case WakeCas(e, i) =>
        if e.t in s.tasks && s.tasks[e.t].suspendId == e.id {
          ClaimQueues(s, w);
          ClaimKeeps(s, WakeNext(s, w), w);
        } else {
          NoClaimKeeps(s, w);
        }
      case WakePush(_, _) => WakePushKeeps(s, w);
      case WakeDec(_, _) => NoClaimKeeps(s, w);
  }

  lemma {:induction false} RunKeeps(s: State, actions: seq<Action>)
    requires Inv(s)
    ensures Inv(Run(s, actions))
    decreases |actions|
  {
    if actions != [] {
      if Enabled(s, actions[0]) {
        NextKeeps(s, actions[0]);
        RunKeeps(Next(s, actions[0]), actions[1..]);
      } else {
        RunKeeps(s, actions[1..]);
      }
    }
  }
}
