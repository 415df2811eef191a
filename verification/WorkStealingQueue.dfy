/** The classes behind the deque: the circular array, and the queue when one operation runs at a time. */
module WorkStealingQueue {
  import opened Deque
  import opened DequeInvariant

  function Capacity(logcap: nat): (n: nat)
    ensures n >= 1
    ensures logcap >= 1 ==> n >= 2
  {
    if logcap == 0 then 1 else 2 * Capacity(logcap - 1)
  }

  lemma {:induction false} CapacityGrows(a: nat, b: nat)
    ensures Capacity(a + b) == Capacity(a) * Capacity(b)
    decreases b
  {
    if b > 0 {
      CapacityGrows(a, b - 1);
    }
  }

  /** The first array has 65536 slots. */
  lemma FirstCapacity()
    ensures Capacity(16) == 0x1_0000
  {
    CapacityGrows(2, 2);
    CapacityGrows(4, 4);
    CapacityGrows(8, 8);
  }

  class CirculQueue {
    const log: nat
    const data: array<nat>

    ghost predicate Valid() {
      log < 32 && data.Length == Capacity(log)
    }

    constructor (logcap: nat)
      requires logcap < 32
      ensures Valid() && log == logcap && fresh(data)
    {
      log := logcap;
      data := new nat[Capacity(logcap)];
    }

    method Get(i: int) returns (v: nat)
      requires Valid()
      ensures v == Cell(data[..], i)
    {
      v := data[i % data.Length];
    }

    method Put(i: int, x: nat)
      requires Valid()
      modifies data
      ensures data[..] == Deque.Put(old(data[..]), i, x)
      ensures forall j: nat | j < data.Length && j != i % data.Length :: data[j] == old(data[j])
      ensures data[i % data.Length] == x
    {
      data[i % data.Length] := x;
    }

    /** Copies slot by slot into an array of twice the size; what the new half holds is not determined. */
    method NewDoubleCapacity() returns (q: CirculQueue)
      requires Valid() && log < 31
      ensures q.Valid() && q.log == log + 1 && fresh(q) && fresh(q.data)
      ensures q.data.Length == 2 * data.Length
      ensures q.data[..] == Doubled(data[..], q.data[data.Length..])
    {
      q := new CirculQueue(log + 1);
      var i := 0;
      while i < data.Length
        invariant 0 <= i <= data.Length
        invariant forall j: nat | j < i :: q.data[j] == data[j]
      {
        InRange(i, q.data.Length);
        q.Put(i, data[i]);
        i := i + 1;
      }
      assert q.data[..data.Length] == data[..];
      assert q.data[..] == q.data[..data.Length] + q.data[data.Length..];
    }
  }

  class Queue {
    var bottom: int
    var top: int
    var tasks: CirculQueue

    ghost predicate Valid()
      reads this, tasks
    {
      && tasks.Valid() && tasks.log >= 1
      && top >= 1 && bottom >= 1 && bottom >= top - 1
      && bottom - top <= tasks.data.Length - 1
    }

    /** The items from the one stolen next to the one popped next. */
    ghost function Contents(): seq<nat>
      reads this, tasks, tasks.data
      requires Valid()
    {
      Window(tasks.data[..], top, bottom)
    }

    /** A push will replace the array. */
    ghost predicate Full()
      reads this, tasks
      requires Valid()
    {
      bottom > top && bottom - top >= tasks.data.Length - 1
    }

    constructor ()
      ensures Valid() && fresh(tasks) && fresh(tasks.data) && Contents() == []
      ensures bottom == top == 1 && tasks.data.Length == 0x1_0000
    {
      bottom, top := 1, 1;
      tasks := new CirculQueue(16);
      FirstCapacity();
    }

    method Size() returns (n: nat)
      requires Valid()
      ensures n == |Contents()|
    {
      n := if bottom > top then bottom - top else 0;
    }

    method Empty() returns (empty: bool)
      requires Valid()
      ensures empty <==> Contents() == []
    {
      empty := bottom <= top;
    }

    method Clear()
      requires Valid()
      modifies this`bottom, this`top
      ensures Valid() && Contents() == [] && bottom == top == 1
    {
      bottom := 1;
      top := 1;
    }

    /** Unless the growth of a full queue loses part of the window, a push appends; the exception is a push
        that starts with bottom below top, whose item nobody will find. */
    method Push(x: nat)
      requires Valid() && tasks.log < 31
      modifies this`bottom, this`tasks, tasks.data
      ensures Valid() && top == old(top) && bottom == old(bottom) + 1
      ensures tasks != old(tasks) <==> old(Full())
      ensures fresh({tasks, tasks.data} - {old(tasks), old(tasks.data)})
      ensures old(Full()) ==> tasks.data.Length == 2 * old(tasks.data.Length)
      ensures Cell(tasks.data[..], old(bottom)) == x
      ensures forall j: nat | j < old(tasks.data.Length) && j != old(bottom) % tasks.data.Length ::
        tasks.data[j] == old(tasks.data[..])[j]
      ensures (old(Full()) ==> WindowFits(old(tasks.data.Length), top, old(bottom))) ==>
        Contents() == if old(bottom) < top then [] else old(Contents()) + [x]
    {
      ghost var before := tasks.data[..];
      if bottom > top && bottom - top >= tasks.data.Length - 1 {
        var doubled := tasks.NewDoubleCapacity();
        tasks := doubled;
        if WindowFits(|before|, top, bottom) {
          GrowthKeepsWindow(before, tasks.data[|before|..], top, bottom);
        }
      }
      ghost var window := Window(tasks.data[..], top, bottom);
      PutKeepsWindow(tasks.data[..], bottom, x, top);
      tasks.Put(bottom, x);
      bottom := bottom + 1;
      assert Window(tasks.data[..], top, bottom - 1) == window;
      if top < bottom {
        assert Cell(tasks.data[..], bottom - 1) == x;
        assert Contents() == window + [x];
      }
    }

    /** Run alone, a pop takes the back, and fails only on an empty queue. */
    method Pop() returns (found: bool, v: nat)
      requires Valid()
      modifies this`bottom, this`top
      ensures Valid()
      ensures found <==> old(Contents()) != []
      ensures found ==> old(Contents()) == Contents() + [v]
      ensures !found ==> Contents() == [] && bottom == top == old(top)
    {
      v := 0;
      bottom := bottom - 1;
      var oldtop := top;
      if bottom < oldtop {
        bottom := oldtop;
        return false, v;
      }
      v := tasks.Get(bottom);
      assert Window(tasks.data[..], top, bottom + 1) == Window(tasks.data[..], top, bottom) + [v];
      if bottom > oldtop {
        return true, v;
      }
      top := oldtop + 1;
      bottom := oldtop + 1;
      return true, v;
    }

    /** Run alone, a steal takes the front, and fails only on an empty queue. */
    method Steal() returns (found: bool, v: nat)
      requires Valid()
      modifies this`top
      ensures Valid() && bottom == old(bottom)
      ensures found <==> old(Contents()) != []
      ensures found ==> old(Contents()) == [v] + Contents()
      ensures !found ==> top == old(top)
    {
      v := 0;
      var oldtop := top;
      if bottom <= oldtop {
        return false, v;
      }
      v := tasks.Get(oldtop);
      top := oldtop + 1;
      return true, v;
    }
  }
}
