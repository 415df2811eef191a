/** The free list as the program has it: blocks linked through their own memory, with the calls of one thread.
    `FreeListSteps` has the interleavings. */
module FreeList {

  /** The first word of a freed block. */
  class ListElem {
    var next: ListElem?
  }

  class FreeList {
    var head: ListElem?
    var allocCalls: nat
    var freeCalls: nat
    /** The freed blocks, last freed first. */
    ghost var chain: seq<ListElem>
    /** The blocks taken from the chain and not given back yet, and the number of blocks that callers made after
        a null result and have not given back. */
    ghost var held: set<ListElem>
    ghost var made: nat

    /** Following the links from a block leads through the chain, which has no cycle, and ends. */
    static ghost predicate Chained(from: ListElem?, chain: seq<ListElem>)
      reads chain
      decreases |chain|
    {
      if chain == [] then from == null
      else from == chain[0] && chain[0] !in chain[1..] && Chained(chain[0].next, chain[1..])
    }

    ghost predicate Valid()
      reads this, chain
    {
      && Chained(head, chain)
      && (forall b | b in held :: b !in chain)
      && allocCalls == freeCalls + |held| + made
    }

    constructor ()
      ensures Valid() && chain == [] && held == {} && made == 0 && allocCalls == 0 && freeCalls == 0
    {
      head, allocCalls, freeCalls, chain, held, made := null, 0, 0, [], {}, 0;
    }

    /** The weak compare-and-swap of the head, which may fail without a reason; `seen` is what it found. */
    method CompareExchange(expected: ListElem?, desired: ListElem?, spurious: bool)
      returns (done: bool, seen: ListElem?)
      modifies this`head
      ensures seen == old(head) && (done <==> old(head) == expected && !spurious)
      ensures head == if done then desired else old(head)
    {
      seen := head;
      done := head == expected && !spurious;
      if done {
        head := desired;
      }
    }

    /** Hands out the block freed last, or nothing, after any number of spurious failures. */
    method Alloc(failures: nat) returns (cur: ListElem?)
      requires Valid()
      modifies this
      ensures Valid() && allocCalls == old(allocCalls) + 1 && freeCalls == old(freeCalls)
      ensures cur == if old(chain) == [] then null else old(chain)[0]
      ensures chain == if old(chain) == [] then [] else old(chain)[1..]
      ensures cur != null ==> cur !in chain && cur !in old(held)
      ensures held == if cur == null then old(held) else old(held) + {cur}
      ensures made == if cur == null then old(made) + 1 else old(made)
    {
      allocCalls := allocCalls + 1;
      cur := head;
      var done, left := false, failures;
      while cur != null && !done
        invariant cur == old(head) && allocCalls == old(allocCalls) + 1 && freeCalls == old(freeCalls)
        invariant chain == old(chain) && Chained(old(head), chain) && (done ==> cur != null)
        invariant held == old(held) && made == old(made)
        invariant head == if done then old(chain)[0].next else old(head)
        decreases !done, left
      {
        done, cur := CompareExchange(cur, cur.next, left > 0);
        left := if left > 0 then left - 1 else 0;
      }
      if done {
        chain, held := chain[1..], held + {cur};
      } else {
        made := made + 1;
      }
    }

    /** Takes back a block that is held, or that a caller made; not one that is in the chain already. */
    method Free(elem: ListElem, failures: nat)
      requires Valid() && elem !in chain && (elem in held || made > 0)
      modifies this, elem
      ensures Valid() && chain == [elem] + old(chain)
      ensures freeCalls == old(freeCalls) + 1 && allocCalls == old(allocCalls)
      ensures held == old(held) - {elem} && made == if elem in old(held) then old(made) else old(made) - 1
    {
      freeCalls := freeCalls + 1;
      elem.next := head;
      var done, left := false, failures;
      while !done
        invariant elem.next == old(head) && chain == old(chain) && Chained(old(head), chain)
        invariant held == old(held) && made == old(made)
        invariant freeCalls == old(freeCalls) + 1 && allocCalls == old(allocCalls)
        invariant head == if done then elem else old(head)
        decreases !done, left
      {
        var seen;
        done, seen := CompareExchange(elem.next, elem, left > 0);
        if !done {
          elem.next := seen;
        }
        left := if left > 0 then left - 1 else 0;
      }
      assert ([elem] + chain)[1..] == chain;
      chain := [elem] + chain;
      made := if elem in held then made else made - 1;
      held := held - {elem};
    }

    /** The two call counters, which differ by the blocks that are out. */
    method Statistic() returns (allocs: nat, frees: nat)
      requires Valid()
      ensures allocs == allocCalls && frees == freeCalls && allocs - frees == |held| + made
    {
      allocs, frees := allocCalls, freeCalls;
    }
  }
}
