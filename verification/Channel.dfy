/** The channel as the program has it: three lists changed in place, and tasks on the heap whose suspend id an
    entry must still match. A blocking operation is cut where it gives the lock up. */
module Channel {
  import Spec = ChannelSpec
  import opened Options

  class Task {
    const id: nat
    var suspendId: nat
    /** How often the task has been put into a wakeup queue. */
    var requeued: nat
    /** How often a wake of the task has decremented the counter of blocks of its processor. */
    var released: nat
    ghost var mode: Spec.Mode

    constructor (id: nat)
      ensures this.id == id && suspendId == 0 && requeued == 0 && released == 0 && mode == Spec.Away
    {
      this.id := id;
      suspendId, requeued, released, mode := 0, 0, 0, Spec.Away;
    }

    ghost function Value(): Spec.TaskState
      reads this
    {
      Spec.TaskState(suspendId, mode)
    }

    /** Compares and swaps the suspend id: true for one caller per suspension. */
    method IsExpire(expected: nat) returns (current: bool)
      modifies this`suspendId
      ensures current <==> expected == old(suspendId)
      ensures suspendId == if current then old(suspendId) + 1 else old(suspendId)
    {
      current := expected == suspendId;
      if current {
        suspendId := expected + 1;
      }
    }
  }

  datatype SuspendEntry = SuspendEntry(t: Task, id: nat)

  class Channel<T(0)> {
    const buflen: nat
    var queue: seq<T>
    var wque: seq<SuspendEntry>
    var rque: seq<SuspendEntry>

    ghost var model: Spec.Chan<T>
    /** The tasks that may use the channel, by their ids. */
    ghost const known: map<nat, Task>

    ghost predicate EntriesOk(que: seq<SuspendEntry>, values: seq<Spec.Entry>) {
      && |que| == |values|
      && forall n: nat | n < |que| ::
           && que[n].t.id in known && known[que[n].t.id] == que[n].t
           && values[n] == Spec.Entry(que[n].t.id, que[n].id)
    }

    ghost predicate TasksOk(tasks: map<nat, Spec.TaskState>)
      reads known.Values
    {
      && tasks.Keys == known.Keys
      && (forall i | i in known :: known[i].id == i && tasks[i] == known[i].Value())
    }

    ghost predicate Valid()
      reads this, known.Values
    {
      && model.buflen == buflen && model.queue == queue
      && EntriesOk(wque, model.wque) && EntriesOk(rque, model.rque)
      && TasksOk(model.tasks)
    }

    constructor (buflen: nat, ghost known: map<nat, Task>)
      requires forall i | i in known :: known[i].id == i && known[i].mode == Spec.Away
      ensures Valid() && this.buflen == buflen && this.known == known
      ensures model == Spec.Init(buflen, map i | i in known :: known[i].suspendId)
    {
      this.buflen := buflen;
      this.known := known;
      queue, wque, rque := [], [], [];
      model := Spec.Init(buflen, map i | i in known :: known[i].suspendId);
    }

    ghost predicate Knows(t: Task) {
      t.id in known && known[t.id] == t
    }

    /** `taskWakeup`: the task is requeued if the entry is current, and the counter goes down in any case. */
    method Wake(en: SuspendEntry, ghost tasks: map<nat, Spec.TaskState>)
      requires Knows(en.t) && TasksOk(tasks)
      modifies en.t
      ensures TasksOk(Spec.Wake(tasks, Spec.Entry(en.t.id, en.id)))
      ensures en.t.requeued == old(en.t.requeued) + if old(en.t.suspendId) == en.id then 1 else 0
      ensures en.t.released == old(en.t.released) + 1
    {
      var current := en.t.IsExpire(en.id);
      if current {
        en.t.requeued := en.t.requeued + 1;
        en.t.mode := match en.t.mode
          case SendBlocked(k) => Spec.SendWoken(k)
          case RecvBlocked => Spec.RecvWoken
          case m => m;
      }
      en.t.released := en.t.released + 1;
    }

    /** Wakes the reader that has waited longest, if there is one. */
    method WakeReader()
      requires Valid()
      modifies this`rque, this`model, known.Values
      ensures Valid() && rque == if old(rque) != [] then old(rque)[1..] else []
      ensures model == old(model).(
        rque := if old(rque) != [] then old(model).rque[1..] else old(model).rque,
        tasks := if old(rque) != [] then Spec.Wake(old(model).tasks, old(model).rque[0]) else old(model).tasks)
    {
      if rque != [] {
        var en := rque[0];
        rque := rque[1..];
        Wake(en, model.tasks);
        model := model.(rque := model.rque[1..], tasks := Spec.Wake(model.tasks, model.rque[0]));
      }
    }

    /** Registers a sender whose item is beyond the buffer. */
    method BlockSender(t: Task, ghost k: nat)
      requires Valid() && Knows(t)
      modifies this`wque, this`model, t`mode
      ensures Valid() && wque == old(wque) + [SuspendEntry(t, t.suspendId)]
      ensures var me := old(model).tasks[t.id];
        model == old(model).(
          wque := old(model).wque + [Spec.Entry(t.id, me.suspendId)],
          tasks := old(model).tasks[t.id := me.(mode := Spec.SendBlocked(k))])
    {
      wque := wque + [SuspendEntry(t, t.suspendId)];
      t.mode := Spec.SendBlocked(k);
      var me := model.tasks[t.id];
      model := model.(
        wque := model.wque + [Spec.Entry(t.id, me.suspendId)],
        tasks := model.tasks[t.id := me.(mode := Spec.SendBlocked(k))]);
    }

    /** `operator<<` up to the point where it blocks or returns. */
    method Send(t: Task, x: T) returns (blocks: bool)
      requires Valid() && Knows(t)
      modifies this`queue, this`wque, this`rque, this`model, known.Values
      ensures Valid()
      ensures model == Spec.Send(old(model), t.id, x)
      ensures blocks <==> |old(queue)| + 1 > buflen
      ensures queue == old(queue) + [x] && rque == if old(rque) != [] then old(rque)[1..] else []
      ensures wque == if blocks then old(wque) + [SuspendEntry(t, t.suspendId)] else old(wque)
    {
      ghost var k := |model.sent|;
      queue := queue + [x];
      model := model.(queue := queue, sent := model.sent + [x]);
      WakeReader();
      blocks := |queue| > buflen;
      if blocks {
        BlockSender(t, k);
      }
    }

    /** Wakes the writer that has waited longest, if there is one. */
    method WakeWriter()
      requires Valid()
      modifies this`wque, this`model, known.Values
      ensures Valid() && wque == if old(wque) != [] then old(wque)[1..] else []
      ensures model == old(model).(
        wque := if old(wque) != [] then old(model).wque[1..] else old(model).wque,
        tasks := if old(wque) != [] then Spec.Wake(old(model).tasks, old(model).wque[0]) else old(model).tasks)
    {
      if wque != [] {
        var en := wque[0];
        wque := wque[1..];
        Wake(en, model.tasks);
        model := model.(wque := model.wque[1..], tasks := Spec.Wake(model.tasks, model.wque[0]));
      }
    }

    /** Registers a receiver that found the queue empty. */
    method BlockReceiver(t: Task)
      requires Valid() && Knows(t)
      modifies this`rque, this`model, t`mode
      ensures Valid() && rque == old(rque) + [SuspendEntry(t, t.suspendId)]
      ensures var me := old(model).tasks[t.id];
        model == old(model).(
          rque := old(model).rque + [Spec.Entry(t.id, me.suspendId)],
          tasks := old(model).tasks[t.id := me.(mode := Spec.RecvBlocked)])
    {
      rque := rque + [SuspendEntry(t, t.suspendId)];
      t.mode := Spec.RecvBlocked;
      var me := model.tasks[t.id];
      model := model.(
        rque := model.rque + [Spec.Entry(t.id, me.suspendId)],
        tasks := model.tasks[t.id := me.(mode := Spec.RecvBlocked)]);
    }

    /** One turn of the loop of `operator>>`; without an item the task has to wait and try again. */
    method Receive(t: Task) returns (item: Option<T>)
      requires Valid() && Knows(t)
      modifies this`queue, this`wque, this`rque, this`model, known.Values
      ensures Valid()
      ensures model == Spec.Receive(old(model), t.id)
      ensures item == if old(queue) == [] then None else Some(old(queue)[0])
      ensures if old(queue) == [] then
                queue == [] && rque == old(rque) + [SuspendEntry(t, t.suspendId)] && wque == old(wque)
              else
                && queue == old(queue)[1..] && rque == old(rque)
                && wque == if old(wque) != [] then old(wque)[1..] else []
    {
      if queue == [] {
        BlockReceiver(t);
        item := None;
      } else {
        item := Some(queue[0]);
        queue := queue[1..];
        t.mode := Spec.Away;
        model := model.(
          queue := queue, received := model.received + [model.queue[0]],
          tasks := model.tasks[t.id := model.tasks[t.id].(mode := Spec.Away)]);
        WakeWriter();
      }
    }
  }
}
