/** The channel as a value, with the tasks that use it, and what every run of sends and receives keeps. */
module ChannelSpec {

  datatype Entry = Entry(task: nat, id: nat)

  /** What a task is doing, as far as the channel is concerned. `k` is the place of the item of a blocked send
      in the sequence of all items sent. A woken task has been requeued but has not gone on yet. */
  datatype Mode = Away | SendBlocked(k: nat) | SendWoken(k: nat) | RecvBlocked | RecvWoken

  datatype TaskState = TaskState(suspendId: nat, mode: Mode)

  /** `sent` and `received` are history. */
  datatype Chan<T> = Chan(
    buflen: nat, queue: seq<T>, wque: seq<Entry>, rque: seq<Entry>, tasks: map<nat, TaskState>,
    sent: seq<T>, received: seq<T>)

  function Init<T>(buflen: nat, ids: map<nat, nat>): Chan<T> {
    Chan(buflen, [], [], [], map t | t in ids :: TaskState(ids[t], Away), [], [])
  }

  /** `taskWakeup`: an entry whose id is still current requeues its task and advances the id. */
  function Wake(tasks: map<nat, TaskState>, en: Entry): (r: map<nat, TaskState>)
    requires en.task in tasks
    ensures r.Keys == tasks.Keys
  {
    var t := tasks[en.task];
    if en.id == t.suspendId then
      tasks[en.task := TaskState(t.suspendId + 1,
        match t.mode
        case SendBlocked(k) => SendWoken(k)
        case RecvBlocked => RecvWoken
        case m => m)]
    else
      tasks
  }

  /** The entries name tasks that exist. */
  ghost predicate Shape<T>(c: Chan<T>) {
    && (forall n: nat | n < |c.rque| :: c.rque[n].task in c.tasks)
    && (forall n: nat | n < |c.wque| :: c.wque[n].task in c.tasks)
  }

  /** The locked section of `operator<<`, up to the point where the sender blocks or returns. */
  function Send<T>(c: Chan<T>, t: nat, x: T): (r: Chan<T>)
    requires Shape(c) && t in c.tasks
    ensures Shape(r) && r.tasks.Keys == c.tasks.Keys
  {
    var queue := c.queue + [x];
    var tasks := if c.rque != [] then Wake(c.tasks, c.rque[0]) else c.tasks;
    var rque := if c.rque != [] then c.rque[1..] else c.rque;
    if |queue| > c.buflen then
      var me := tasks[t];
      Chan(c.buflen, queue, c.wque + [Entry(t, me.suspendId)], rque,
           tasks[t := me.(mode := SendBlocked(|c.sent|))], c.sent + [x], c.received)
    else
      Chan(c.buflen, queue, c.wque, rque, tasks, c.sent + [x], c.received)
  }

  /** One turn of `operator>>`: wait when the queue is empty, otherwise take the front. */
  function Receive<T>(c: Chan<T>, t: nat): (r: Chan<T>)
    requires Shape(c) && t in c.tasks
    ensures Shape(r) && r.tasks.Keys == c.tasks.Keys
  {
    if c.queue == [] then
      var me := c.tasks[t];
      c.(rque := c.rque + [Entry(t, me.suspendId)], tasks := c.tasks[t := me.(mode := RecvBlocked)])
    else
      var taken := c.(queue := c.queue[1..], received := c.received + [c.queue[0]],
                      tasks := c.tasks[t := c.tasks[t].(mode := Away)]);
      if c.wque != [] then
        taken.(wque := c.wque[1..], tasks := Wake(taken.tasks, c.wque[0]))
      else
        taken
  }

  /** `Elsewhere`: a task suspends on something other than this channel and is woken again. */
  datatype Action<T> = DoSend(t: nat, x: T) | SendReturns(t: nat) | DoReceive(t: nat) | Elsewhere(t: nat)

  predicate Enabled<T>(c: Chan<T>, a: Action<T>) {
    a.t in c.tasks &&
    match a
    case DoSend(t, _) => c.tasks[t].mode == Away
    case SendReturns(t) => c.tasks[t].mode.SendWoken?
    case DoReceive(t) => c.tasks[t].mode == Away || c.tasks[t].mode == RecvWoken
    case Elsewhere(t) => c.tasks[t].mode == Away
  }

  function Next<T>(c: Chan<T>, a: Action<T>): (r: Chan<T>)
    requires Shape(c) && Enabled(c, a)
    ensures Shape(r)
  {
    match a
    case DoSend(t, x) => Send(c, t, x)
    case SendReturns(t) => c.(tasks := c.tasks[t := c.tasks[t].(mode := Away)])
    case DoReceive(t) => Receive(c, t)
    case Elsewhere(t) => c.(tasks := c.tasks[t := c.tasks[t].(suspendId := c.tasks[t].suspendId + 1)])
  }

  /** A run; an action that is not enabled does nothing. */
  function Run<T>(c: Chan<T>, actions: seq<Action<T>>): (r: Chan<T>)
    requires Shape(c)
    ensures Shape(r)
    decreases |actions|
  {
    if actions == [] then c
    else Run(if Enabled(c, actions[0]) then Next(c, actions[0]) else c, actions[1..])
  }

  // ---------- What every run keeps ----------

  function WokenReaders<T>(c: Chan<T>): set<nat> {
    set t | t in c.tasks && c.tasks[t].mode == RecvWoken
  }

  ghost predicate Waits(que: seq<Entry>, t: nat) {
    exists n: nat :: n < |que| && que[n].task == t
  }

  lemma WaitsAppend(que: seq<Entry>, en: Entry)
    ensures Waits(que + [en], en.task)
    ensures forall t | Waits(que, t) :: Waits(que + [en], t)
  {
    assert (que + [en])[|que|] == en;
    forall t | Waits(que, t) ensures Waits(que + [en], t) {
      var n: nat :| n < |que| && que[n].task == t;
      assert (que + [en])[n].task == t;
    }
  }

  lemma WaitsRest(que: seq<Entry>)
    requires que != []
    ensures forall t | Waits(que, t) && t != que[0].task :: Waits(que[1..], t)
  {
    forall t | Waits(que, t) && t != que[0].task ensures Waits(que[1..], t) {
      var n: nat :| n < |que| && que[n].task == t;
      assert que[1..][n - 1].task == t;
    }
  }

  /** The blocked writers are those of the items from place `k` on, in order; a woken writer's is before. */
  ghost predicate WritersFrom<T>(c: Chan<T>, k: nat) {
    && (forall n: nat | n < |c.wque| :: c.wque[n].task in c.tasks
          && c.tasks[c.wque[n].task] == TaskState(c.wque[n].id, SendBlocked(k + n)))
    && (forall t | t in c.tasks && c.tasks[t].mode.SendBlocked? :: Waits(c.wque, t))
    && (forall t | t in c.tasks && c.tasks[t].mode.SendWoken? :: c.tasks[t].mode.k < k)
  }

  /** The writers' queue lines up with the tail of the item queue. */
  ghost predicate WritersOk<T>(c: Chan<T>) {
    && |c.wque| == (if |c.queue| > c.buflen then |c.queue| - c.buflen else 0)
    && WritersFrom(c, |c.received| + c.buflen)
  }

  ghost predicate ReadersOk<T>(c: Chan<T>) {
    && (forall n: nat | n < |c.rque| :: c.rque[n].task in c.tasks
          && c.tasks[c.rque[n].task] == TaskState(c.rque[n].id, RecvBlocked))
    && (forall m: nat, n: nat | m < n < |c.rque| :: c.rque[m].task != c.rque[n].task)
    && (forall t | t in c.tasks && c.tasks[t].mode == RecvBlocked :: Waits(c.rque, t))
  }

  /** While readers wait, every item in the queue is meant for a reader that has been woken. */
  ghost predicate NoLostWakeup<T>(c: Chan<T>) {
    c.rque != [] ==> |c.queue| <= |WokenReaders(c)|
  }

  ghost predicate Inv<T>(c: Chan<T>) {
    && Shape(c)
    && WritersOk(c) && ReadersOk(c) && NoLostWakeup(c)
    && c.sent == c.received + c.queue
  }

  lemma InitInv<T>(buflen: nat, ids: map<nat, nat>)
    ensures Inv(Init<T>(buflen, ids))
  {
  }

  /** What waking the reader at the front does: a live entry requeues its task. */
  function ReaderWoken<T>(c: Chan<T>): Chan<T>
    requires c.rque != []
  {
    var en := c.rque[0];
    c.(rque := c.rque[1..], tasks := c.tasks[en.task := TaskState(en.id + 1, RecvWoken)])
  }

  lemma WakeReader<T>(c: Chan<T>)
    requires ReadersOk(c) && c.rque != []
    ensures ReaderWoken(c).tasks == Wake(c.tasks, c.rque[0])
    ensures ReadersOk(ReaderWoken(c))
  {
    WaitsRest(c.rque);
  }

  lemma WakeReaderWriters<T>(c: Chan<T>)
    requires ReadersOk(c) && WritersOk(c) && c.rque != []
    ensures WritersOk(ReaderWoken(c))
  {
  }

  lemma WakeReaderCount<T>(c: Chan<T>)
    requires ReadersOk(c) && c.rque != []
    ensures |WokenReaders(ReaderWoken(c))| == |WokenReaders(c)| + 1
  {
    assert c.tasks[c.rque[0].task].mode == RecvBlocked;
    assert WokenReaders(ReaderWoken(c)) == WokenReaders(c) + {c.rque[0].task};
  }

  /** The state a send starts its second half in. */
  lemma SendHead<T>(c: Chan<T>) returns (w: Chan<T>)
    requires Inv(c)
    ensures w == c.(rque := if c.rque != [] then c.rque[1..] else c.rque,
                    tasks := if c.rque != [] then Wake(c.tasks, c.rque[0]) else c.tasks)
    ensures WritersOk(w) && ReadersOk(w)
    ensures forall t | t in c.tasks && c.tasks[t].mode == Away :: t in w.tasks && w.tasks[t] == c.tasks[t]
    ensures w.rque != [] ==> |w.queue| + 1 <= |WokenReaders(w)|
  {
    w := c;
    if c.rque != [] {
      WakeReader(c);
      WakeReaderWriters(c);
      WakeReaderCount(c);
      w := ReaderWoken(c);
    }
  }

  lemma SendKeeps<T>(c: Chan<T>, t: nat, x: T)
    requires Inv(c) && t in c.tasks && c.tasks[t].mode == Away
    ensures Inv(Send(c, t, x))
  {
    var w := SendHead(c);
    var r := Send(c, t, x);
    SendTail(w, t, x, r);
    SendCount(w, t, r);
    assert c.sent + [x] == c.received + (c.queue + [x]);
  }

  lemma SendCount<T>(w: Chan<T>, t: nat, r: Chan<T>)
    requires t in w.tasks && w.tasks[t].mode == Away
    requires r.tasks == w.tasks || (exists k :: r.tasks == w.tasks[t := w.tasks[t].(mode := SendBlocked(k))])
    ensures WokenReaders(r) == WokenReaders(w)
  {
  }

  /** The second half of a send: the item goes in, and the sender blocks when it is beyond the buffer. */
  lemma SendTail<T>(w: Chan<T>, t: nat, x: T, r: Chan<T>)
    requires WritersOk(w) && ReadersOk(w) && t in w.tasks && w.tasks[t].mode == Away
    requires w.sent == w.received + w.queue
    requires var queue := w.queue + [x];
      if |queue| > w.buflen then
        r == Chan(w.buflen, queue, w.wque + [Entry(t, w.tasks[t].suspendId)], w.rque,
                  w.tasks[t := w.tasks[t].(mode := SendBlocked(|w.sent|))], w.sent + [x], w.received)
      else
        r == Chan(w.buflen, queue, w.wque, w.rque, w.tasks, w.sent + [x], w.received)
    ensures WritersOk(r) && ReadersOk(r)
  {
    WaitsAppend(w.wque, Entry(t, w.tasks[t].suspendId));
  }

  lemma WaitKeeps<T>(c: Chan<T>, t: nat)
    requires Inv(c) && t in c.tasks && (c.tasks[t].mode == Away || c.tasks[t].mode == RecvWoken) && c.queue == []
    ensures Inv(Receive(c, t))
  {
    WaitsAppend(c.rque, Entry(t, c.tasks[t].suspendId));
  }

  /** A receive that finds an item, up to the wake of a writer. */
  function Taken<T>(c: Chan<T>, t: nat): Chan<T>
    requires c.queue != [] && t in c.tasks
  {
    c.(queue := c.queue[1..], received := c.received + [c.queue[0]],
       tasks := c.tasks[t := c.tasks[t].(mode := Away)])
  }

  /** What waking the writer at the front does. */
  function WriterWoken<T>(c: Chan<T>, k: nat): Chan<T>
    requires c.wque != []
  {
    var en := c.wque[0];
    c.(wque := c.wque[1..], tasks := c.tasks[en.task := TaskState(en.id + 1, SendWoken(k))])
  }

  lemma TakeIs<T>(c: Chan<T>, t: nat)
    requires Shape(c) && WritersFrom(c, |c.received| + c.buflen)
    requires t in c.tasks && (c.tasks[t].mode == Away || c.tasks[t].mode == RecvWoken) && c.queue != []
    ensures Receive(c, t) ==
      if c.wque == [] then Taken(c, t) else WriterWoken(Taken(c, t), |c.received| + c.buflen)
  {
    if c.wque != [] {
      assert c.tasks[c.wque[0].task] == TaskState(c.wque[0].id, SendBlocked(|c.received| + c.buflen + 0));
    }
  }

  lemma TakenKeeps<T>(c: Chan<T>, t: nat)
    requires ReadersOk(c) && NoLostWakeup(c) && WritersFrom(c, |c.received| + c.buflen)
    requires t in c.tasks && (c.tasks[t].mode == Away || c.tasks[t].mode == RecvWoken) && c.queue != []
    ensures ReadersOk(Taken(c, t)) && NoLostWakeup(Taken(c, t))
    ensures WritersFrom(Taken(c, t), |c.received| + c.buflen)
  {
    assert WokenReaders(Taken(c, t)) == WokenReaders(c) - {t};
  }

  lemma WriterWokenReaders<T>(c: Chan<T>, k: nat)
    requires ReadersOk(c) && NoLostWakeup(c) && c.wque != [] && WritersFrom(c, k)
    ensures ReadersOk(WriterWoken(c, k)) && NoLostWakeup(WriterWoken(c, k))
  {
    assert c.tasks[c.wque[0].task].mode == SendBlocked(k + 0);
    assert WokenReaders(WriterWoken(c, k)) == WokenReaders(c);
  }

  lemma WriterWokenWriters<T>(c: Chan<T>, k: nat)
    requires c.wque != [] && WritersFrom(c, k)
    ensures WritersFrom(WriterWoken(c, k), k + 1)
  {
    var r := WriterWoken(c, k);
    WaitsRest(c.wque);
    assert c.tasks[c.wque[0].task].mode == SendBlocked(k + 0);
    forall n: nat | n < |r.wque| ensures r.wque[n].task in r.tasks
        && r.tasks[r.wque[n].task] == TaskState(r.wque[n].id, SendBlocked(k + 1 + n))
    {
      assert r.wque[n] == c.wque[n + 1];
    }
  }

  /** Without a blocked writer, the end of the buffer can move on. */
  lemma NoWriters<T>(c: Chan<T>, k: nat)
    requires c.wque == [] && WritersFrom(c, k)
    ensures WritersFrom(c, k + 1)
  {
  }

  lemma TakeItems<T>(c: Chan<T>, t: nat)
    requires Shape(c) && t in c.tasks && c.queue != [] && c.sent == c.received + c.queue
    ensures var r := Receive(c, t);
      && r.sent == r.received + r.queue
      && |r.received| == |c.received| + 1 && |r.queue| == |c.queue| - 1 && r.buflen == c.buflen
      && |r.wque| == (if c.wque == [] then 0 else |c.wque| - 1)
  {
    assert c.received + c.queue == c.received + [c.queue[0]] + c.queue[1..];
  }

  lemma QueuesWoken<T>(c: Chan<T>, k: nat)
    requires ReadersOk(c) && NoLostWakeup(c) && WritersFrom(c, k)
    ensures var r := if c.wque == [] then c else WriterWoken(c, k);
      ReadersOk(r) && NoLostWakeup(r) && WritersFrom(r, k + 1)
  {
    if c.wque != [] {
      WriterWokenReaders(c, k);
      WriterWokenWriters(c, k);
    } else {
      NoWriters(c, k);
    }
  }

  lemma TakeQueues<T>(c: Chan<T>, t: nat)
    requires Shape(c) && ReadersOk(c) && NoLostWakeup(c) && WritersFrom(c, |c.received| + c.buflen)
    requires t in c.tasks && (c.tasks[t].mode == Away || c.tasks[t].mode == RecvWoken) && c.queue != []
    ensures var r := Receive(c, t);
      ReadersOk(r) && NoLostWakeup(r) && WritersFrom(r, |c.received| + c.buflen + 1)
  {
    hide ReadersOk, NoLostWakeup, WritersFrom;
    TakeIs(c, t);
    TakenKeeps(c, t);
    QueuesWoken(Taken(c, t), |c.received| + c.buflen);
  }

  lemma TakeKeeps<T>(c: Chan<T>, t: nat)
    requires Inv(c) && t in c.tasks && (c.tasks[t].mode == Away || c.tasks[t].mode == RecvWoken) && c.queue != []
    ensures Inv(Receive(c, t))
  {
    TakeItems(c, t);
    TakeQueues(c, t);
  }

  lemma NextKeeps<T>(c: Chan<T>, a: Action<T>)
    requires Inv(c) && Enabled(c, a)
    ensures Inv(Next(c, a))
  {
    match a
    case DoSend(t, x) => SendKeeps(c, t, x);
    case DoReceive(t) => if c.queue == [] { WaitKeeps(c, t); } else { TakeKeeps(c, t); }
    case _ =>
      assert WokenReaders(Next(c, a)) == WokenReaders(c);
  }

  lemma {:induction false} RunKeeps<T>(c: Chan<T>, actions: seq<Action<T>>)
    requires Inv(c)
    ensures Inv(Run(c, actions))
    decreases |actions|
  {
    if actions != [] {
      if Enabled(c, actions[0]) {
        NextKeeps(c, actions[0]);
        RunKeeps(Next(c, actions[0]), actions[1..]);
      } else {
        RunKeeps(c, actions[1..]);
      }
    }
  }

  // ---------- What this means ----------

  /** Exactly the items beyond the buffer have a blocked sender, in order, and a sender that was woken has its item
      within the buffer or received. */
  ghost predicate LinedUp<T>(c: Chan<T>) {
    && |c.wque| == (if |c.queue| > c.buflen then |c.queue| - c.buflen else 0)
    && (forall n: nat | n < |c.wque| ::
          && c.wque[n].task in c.tasks
          && c.tasks[c.wque[n].task].mode == SendBlocked(|c.received| + c.buflen + n)
          && |c.received| + c.buflen + n < |c.sent|
          && c.sent[|c.received| + c.buflen + n] == c.queue[c.buflen + n])
    && (forall t | t in c.tasks && c.tasks[t].mode.SendWoken? :: c.tasks[t].mode.k < |c.received| + c.buflen)
  }

  lemma InvLinedUp<T>(c: Chan<T>)
    requires Inv(c)
    ensures LinedUp(c)
  {
  }

  /** The senders line up in every run; with a buffer length of 0, a woken sender's item has been received. */
  lemma SendersLineUp<T>(buflen: nat, ids: map<nat, nat>, actions: seq<Action<T>>)
    ensures LinedUp(Run(Init(buflen, ids), actions))
  {
    InitInv<T>(buflen, ids);
    RunKeeps(Init(buflen, ids), actions);
    InvLinedUp(Run(Init(buflen, ids), actions));
  }

  /** In every run, items come out in the order they went in, and none is lost or made up. */
  lemma FirstInFirstOut<T>(buflen: nat, ids: map<nat, nat>, actions: seq<Action<T>>)
    ensures var c := Run(Init(buflen, ids), actions); c.sent == c.received + c.queue
  {
    InitInv<T>(buflen, ids);
    RunKeeps(Init(buflen, ids), actions);
  }

  /** In every run, a task blocked in the channel has an entry in the right queue, and every entry of both queues
      is current, so the wakes from the front reach each task in turn; a waiting reader with no woken reader on its
      way means an empty queue. */
  lemma NobodyForgotten<T>(buflen: nat, ids: map<nat, nat>, actions: seq<Action<T>>)
    ensures var c := Run(Init(buflen, ids), actions);
      && (forall t | t in c.tasks && c.tasks[t].mode == RecvBlocked :: Waits(c.rque, t))
      && (forall t | t in c.tasks && c.tasks[t].mode.SendBlocked? :: Waits(c.wque, t))
      && (forall n: nat | n < |c.rque| ::
            c.rque[n].task in c.tasks && c.tasks[c.rque[n].task] == TaskState(c.rque[n].id, RecvBlocked))
      && (forall n: nat | n < |c.wque| ::
            && c.wque[n].task in c.tasks && c.tasks[c.wque[n].task].mode.SendBlocked?
            && c.tasks[c.wque[n].task].suspendId == c.wque[n].id)
      && (c.rque != [] && WokenReaders(c) == {} ==> c.queue == [])
      && (c.rque != [] ==> |c.queue| <= |WokenReaders(c)|)
  {
    InitInv<T>(buflen, ids);
    RunKeeps(Init(buflen, ids), actions);
  }
}
