/** The order in which blocked tasks are woken. Who joins a queue of the channel and who is woken from it is read off
    what the tasks do in a step, so nothing here depends on how the queues are kept. */
module ChannelOrder {
  import opened ChannelSpec

  datatype Side = Readers | Writers

  function Queue<T>(c: Chan<T>, side: Side): seq<Entry> {
    if side.Readers? then c.rque else c.wque
  }

  predicate Blocked(m: Mode, side: Side) {
    if side.Readers? then m.RecvBlocked? else m.SendBlocked?
  }

  predicate Woken(m: Mode, side: Side) {
    if side.Readers? then m.RecvWoken? else m.SendWoken?
  }

  /** Between two states a task has blocked; its entry carries the suspend id it has while it is blocked. */
  predicate Joins<T>(c: Chan<T>, r: Chan<T>, side: Side, en: Entry) {
    && en.task in c.tasks && en.task in r.tasks
    && !Blocked(c.tasks[en.task].mode, side) && Blocked(r.tasks[en.task].mode, side)
    && en.id == r.tasks[en.task].suspendId
  }

  /** Between two states a blocked task has been woken. */
  predicate Leaves<T>(c: Chan<T>, r: Chan<T>, side: Side, en: Entry) {
    && en.task in c.tasks && en.task in r.tasks
    && Blocked(c.tasks[en.task].mode, side) && Woken(r.tasks[en.task].mode, side)
    && en.id == c.tasks[en.task].suspendId
  }

  ghost function Joined<T>(c: Chan<T>, r: Chan<T>, side: Side): seq<Entry> {
    if exists en: Entry :: Joins(c, r, side, en) then
      var en: Entry :| Joins(c, r, side, en); [en]
    else []
  }

  ghost function Left<T>(c: Chan<T>, r: Chan<T>, side: Side): seq<Entry> {
    if exists en: Entry :: Leaves(c, r, side, en) then
      var en: Entry :| Leaves(c, r, side, en); [en]
    else []
  }

  /** The queue of a side in the two states, given who joins and who leaves. */
  ghost predicate Passes<T>(c: Chan<T>, r: Chan<T>, side: Side) {
    && (forall a: Entry, b: Entry :: Joins(c, r, side, a) && Joins(c, r, side, b) ==> a == b)
    && (forall a: Entry, b: Entry :: Leaves(c, r, side, a) && Leaves(c, r, side, b) ==> a == b)
    && Queue(c, side) + Joined(c, r, side) == Left(c, r, side) + Queue(r, side)
  }

  lemma OnlyJoin<T>(c: Chan<T>, r: Chan<T>, side: Side, en: Entry)
    requires Joins(c, r, side, en) && forall a: Entry :: Joins(c, r, side, a) ==> a == en
    ensures Joined(c, r, side) == [en]
  {
  }

  lemma OnlyLeave<T>(c: Chan<T>, r: Chan<T>, side: Side, en: Entry)
    requires Leaves(c, r, side, en) && forall a: Entry :: Leaves(c, r, side, a) ==> a == en
    ensures Left(c, r, side) == [en]
  {
  }

  lemma FrontOf<T>(c: Chan<T>, side: Side)
    requires Inv(c) && Queue(c, side) != []
    ensures var en := Queue(c, side)[0];
      en.task in c.tasks && Blocked(c.tasks[en.task].mode, side) && c.tasks[en.task].suspendId == en.id
  {
  }

  lemma Front(que: seq<Entry>)
    requires que != []
    ensures que + [] == [que[0]] + que[1..]
  {
  }

  /** A send wakes the reader at the front, if any. */
  lemma SendWakes<T>(c: Chan<T>, t: nat, x: T)
    requires Inv(c) && t in c.tasks && c.tasks[t].mode == Away
    ensures var r := Send(c, t, x);
      && Passes(c, r, Readers) && Joined(c, r, Readers) == []
      && Left(c, r, Readers) == if c.rque != [] then [c.rque[0]] else []
  {
    var r := Send(c, t, x);
    if c.rque != [] {
      FrontOf(c, Readers);
      OnlyLeave(c, r, Readers, c.rque[0]);
      Front(c.rque);
    }
  }

  /** A send blocks exactly when its item is beyond the buffer. */
  lemma SendBlocks<T>(c: Chan<T>, t: nat, x: T)
    requires Inv(c) && t in c.tasks && c.tasks[t].mode == Away
    ensures var r := Send(c, t, x);
      && Passes(c, r, Writers) && Left(c, r, Writers) == []
      && Joined(c, r, Writers) == if |c.queue| >= c.buflen then [Entry(t, c.tasks[t].suspendId)] else []
  {
    var r := Send(c, t, x);
    if c.rque != [] {
      FrontOf(c, Readers);
    }
    if |c.queue| >= c.buflen {
      OnlyJoin(c, r, Writers, Entry(t, c.tasks[t].suspendId));
    }
  }

  /** A receive blocks when the queue is empty, and then it wakes nobody. */
  lemma ReceiveBlocks<T>(c: Chan<T>, t: nat, side: Side)
    requires Inv(c) && t in c.tasks && (c.tasks[t].mode == Away || c.tasks[t].mode == RecvWoken) && c.queue == []
    ensures var r := Receive(c, t);
      && Passes(c, r, side) && Left(c, r, side) == []
      && Joined(c, r, side) == if side.Readers? then [Entry(t, c.tasks[t].suspendId)] else []
  {
    if side.Readers? {
      OnlyJoin(c, Receive(c, t), Readers, Entry(t, c.tasks[t].suspendId));
    }
  }

  /** Task `t` goes on, and nobody is woken. */
  lemma NobodyWakes<T>(c: Chan<T>, r: Chan<T>, t: nat, side: Side)
    requires t in c.tasks && !c.tasks[t].mode.SendBlocked? && !c.tasks[t].mode.RecvBlocked?
    requires r.tasks == c.tasks[t := c.tasks[t].(mode := Away)] && Queue(r, side) == Queue(c, side)
    ensures Passes(c, r, side) && Joined(c, r, side) == [] && Left(c, r, side) == []
  {
  }

  /** Task `t` goes on, and the blocked writer of `en` is woken. */
  lemma OneWakes<T>(c: Chan<T>, r: Chan<T>, t: nat, en: Entry, k: nat, side: Side)
    requires t in c.tasks && !c.tasks[t].mode.SendBlocked? && !c.tasks[t].mode.RecvBlocked?
    requires en.task in c.tasks && c.tasks[en.task].mode.SendBlocked? && c.tasks[en.task].suspendId == en.id
    requires r.tasks == c.tasks[t := c.tasks[t].(mode := Away)][en.task := TaskState(en.id + 1, SendWoken(k))]
    ensures forall a: Entry :: !Joins(c, r, side, a)
    ensures forall a: Entry :: Leaves(c, r, side, a) <==> side.Writers? && a == en
  {
  }

  lemma OnePasses<T>(c: Chan<T>, r: Chan<T>, side: Side)
    requires c.wque != [] && r.rque == c.rque && r.wque == c.wque[1..]
    requires forall a: Entry :: !Joins(c, r, side, a)
    requires forall a: Entry :: Leaves(c, r, side, a) <==> side.Writers? && a == c.wque[0]
    ensures Passes(c, r, side) && Joined(c, r, side) == []
    ensures Left(c, r, side) == if side.Writers? then [c.wque[0]] else []
  {
    hide Joins, Leaves;
    if side.Writers? {
      OnlyLeave(c, r, Writers, c.wque[0]);
    }
    Front(c.wque);
  }

  /** A receive that finds an item does not block, and it wakes the writer at the front, if any. */
  lemma ReceiveWakes<T>(c: Chan<T>, t: nat, side: Side)
    requires Inv(c) && t in c.tasks && (c.tasks[t].mode == Away || c.tasks[t].mode == RecvWoken) && c.queue != []
    ensures var r := Receive(c, t);
      && Passes(c, r, side) && Joined(c, r, side) == []
      && Left(c, r, side) == if side.Writers? && c.wque != [] then [c.wque[0]] else []
  {
    hide Passes, Joined, Left, Joins, Leaves;
    var r := Receive(c, t);
    TakeIs(c, t);
    if c.wque == [] {
      NobodyWakes(c, r, t, side);
    } else {
      FrontOf(c, Writers);
      OneWakes(c, r, t, c.wque[0], |c.received| + c.buflen, side);
      OnePasses(c, r, side);
    }
  }

  lemma NextPasses<T>(c: Chan<T>, a: Action<T>, side: Side)
    requires Inv(c) && Enabled(c, a)
    ensures Passes(c, Next(c, a), side)
  {
    match a
    case DoSend(t, x) => if side.Readers? { SendWakes(c, t, x); } else { SendBlocks(c, t, x); }
    case DoReceive(t) => if c.queue == [] { ReceiveBlocks(c, t, side); } else { ReceiveWakes(c, t, side); }
    case _ =>
  }

  /** Who joins a side in the course of a run, in order. */
  ghost function AllJoined<T>(c: Chan<T>, actions: seq<Action<T>>, side: Side): seq<Entry>
    requires Shape(c)
    decreases |actions|
  {
    if actions == [] then []
    else if Enabled(c, actions[0]) then
      Joined(c, Next(c, actions[0]), side) + AllJoined(Next(c, actions[0]), actions[1..], side)
    else
      AllJoined(c, actions[1..], side)
  }

  /** Who is woken from a side in the course of a run, in order. */
  ghost function AllLeft<T>(c: Chan<T>, actions: seq<Action<T>>, side: Side): seq<Entry>
    requires Shape(c)
    decreases |actions|
  {
    if actions == [] then []
    else if Enabled(c, actions[0]) then
      Left(c, Next(c, actions[0]), side) + AllLeft(Next(c, actions[0]), actions[1..], side)
    else
      AllLeft(c, actions[1..], side)
  }

  lemma Chain(q: seq<Entry>, j: seq<Entry>, js: seq<Entry>, l: seq<Entry>, ls: seq<Entry>, q1: seq<Entry>,
              q2: seq<Entry>)
    requires q + j == l + q1 && q1 + js == ls + q2
    ensures q + (j + js) == (l + ls) + q2
  {
    assert q + (j + js) == (q + j) + js;
    assert (l + q1) + js == l + (q1 + js);
    assert l + (ls + q2) == (l + ls) + q2;
  }

  lemma {:induction false} RunPasses<T>(c: Chan<T>, actions: seq<Action<T>>, side: Side)
    requires Inv(c)
    ensures Queue(c, side) + AllJoined(c, actions, side) == AllLeft(c, actions, side) + Queue(Run(c, actions), side)
    decreases |actions|
  {
    hide Next, Enabled, Joined, Left, Queue;
    if actions != [] {
      var a, rest := actions[0], actions[1..];
      if Enabled(c, a) {
        var r := Next(c, a);
        NextPasses(c, a, side);
        NextKeeps(c, a);
        RunPasses(r, rest, side);
        Chain(Queue(c, side), Joined(c, r, side), AllJoined(r, rest, side), Left(c, r, side), AllLeft(r, rest, side),
              Queue(r, side), Queue(Run(r, rest), side));
      } else {
        RunPasses(c, rest, side);
      }
    }
  }

  /** In every run and on both sides: those that blocked are those that have been woken, in the order in which they
      blocked, followed by those that still wait, in the order of the queue. */
  lemma WokenInOrder<T>(buflen: nat, ids: map<nat, nat>, actions: seq<Action<T>>, side: Side)
    ensures var c := Init<T>(buflen, ids);
      AllJoined(c, actions, side) == AllLeft(c, actions, side) + Queue(Run(c, actions), side)
  {
    var c := Init<T>(buflen, ids);
    InitInv<T>(buflen, ids);
    RunPasses(c, actions, side);
    assert Queue(c, side) + AllJoined(c, actions, side) == AllJoined(c, actions, side);
  }
}
