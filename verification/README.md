# Verified model of the coroutine runtime

This project models the five stateful components of the coroutine library and proves what they keep:
the hierarchical timer wheel, the work-stealing deque, the channel, the scheduling of tasks on processors, and
the two structures beneath them (the intrusive list and the lock-free free list). `dafny verify dfyconfig.toml`
checks everything.

## Layout

| files | content |
|---|---|
| `WheelArith`, `Wheel`, `WheelInvariant`, `WheelRuns` | slot and cascade arithmetic, the wheel as a value, what each section keeps, and the theorems about whole runs |
| `WheelInterleaved` | `update` one loop turn at a time, `startTimer` cut in two, `stopTimer` at any moment |
| `WheelOrder` | the order of the callbacks of one tick |
| `Timer` | the timer as a class on the heap: 512 lists, pointer table, cancel flags, recycled entries; each method refines the value model |
| `Deque`, `DequeInvariant`, `DequeLedger`, `DequeExclusion`, `DequeExamples` | the deque as a step system (one step per shared access), its index bounds, its ledger and refinement, what holds without any condition on growths, and concrete runs that show its limits |
| `DequeCalls` | one push, pop or steal from its call to its return, among any steps of the others |
| `WorkStealingQueue` | the circular array with its copy loop and the queue class, one operation at a time |
| `ChannelSpec`, `ChannelOrder`, `Channel` | the channel as a value with theorems about runs, the order in which blocked tasks are woken, and the class that refines the value |
| `Processor`, `ProcessorInvariant`, `ProcessorRuns`, `ProcessorBlocks` | processors, queues, suspension and wakes as a step system, the theorems about its runs, and the exact value of the counter of blocks |
| `ProcessorTurn`, `ProcessorLoop` | one turn of the loop and one wake as runs of steps, and the class whose methods make those runs |
| `List` | the intrusive circular list on the heap, refining a sequence |
| `FreeListSteps`, `FreeListCalls`, `FreeList` | the free list as a step system with any number of threads, one call of it from beginning to end, and the list as a class with the calls of one thread |
| `Option` (module `Options`) | the optional value that the others share |

The pattern is the same throughout: code that changes fields in place is a class whose methods are tied to a
function on values or to a run of steps, and the theorems are about those. Concurrent code is a state machine whose
steps are single loads, stores and compare-and-swaps (deque, free list) or single atomic queue operations
(processors).

## What comes out

**Timer.** The tick at which an entry will be executed is a function of the slot it is linked in, and no section of
`update` changes it. Hence a timer started at tick j with expiry E and never stopped fires exactly once: at E when
E - j < 256 or E is not a multiple of 256, and 256 ticks late otherwise, because `update` executes the near slot of
a tick before it cascades into it. A clamped delay (above 2^32 - 1 ticks) changes the slot and not the expiry, and
fires on the same formula. A delay counted as negative fires at the tick of the start. With the sections interleaved
with `startTimer` and `stopTimer`, a timer that computes its expiry at tick j with a delay of d and is linked at tick t
fires at a tick fixed by j + d and the moment of insertion, never before j + d or t and at most 256 ticks after the later
of the two (`WheelInterleaved.InterleavedStart`). Timers started at one tick with one delay are called in the order in
which they were started (`WheelOrder.FirstStartedFirstCalled`). On the heap, between operations, every entry ever
allocated is either linked in one list or free, and a new one is made only when none is free. The comment at
`coroutine/timer.cpp:86` says a timer with `expires == jiffies` takes the branch for the past; the code sends it through
the first branch, to the same slot.

**Deque.** For one owner and any number of thieves every interleaving is a history of a simple double-ended queue,
and each pushed item is in exactly one of: delivered, live, reserved by a pop, in a push, stranded. Two things in
the code are weaker than they look. A pop that loses its swap leaves bottom at top - 1, and a push strands its item
for good if and only if it starts like that (`DequeLedger.StrandedIff`, `DequeExamples.StrandedItem`). Doubling copies
by physical slot, so the window survives if and only if no live index has the bit of the old capacity set
(`DequeInvariant.GrowthKeepsWindowIff`), and the ledger survives the growth under the same condition only
(`DequeLedger.GrowthKeepsLedgerIff`). The condition holds while nothing has been stolen
(`DequeLedger.AtMostOnceAtTopOne`) and fails in a run of N pushes and one steal, after which an item can be returned
twice (`DequeExamples.DeliveredTwice`). Statements about values therefore carry it; the index bounds and the exclusion
(no two operations take the same push) do not (`DequeLedger.IndexBounds`, `DequeExclusion.EachPushTakenOnce`).
Every call returns, after at most five accesses of a push or a steal and seven of a pop. A steal fails if and only if
it reads a bottom at or below the top it has loaded, when the deque is empty, or top has moved before its swap; a pop
fails if and only if the bottom it has decremented is below the top it loads, or equal to it and a thief wins the swap
(`DequeCalls.StealFailsIff`, `DequeCalls.PopFailsIff`).

**Channel.** The blocked senders are exactly those of the items beyond the buffer, in order; a woken sender's item is
within the buffer or received. While a reader waits, the queue is no longer than the readers that were woken and
have not gone on, so no wake is lost even when a new reader takes the item first. On either side, tasks are woken in
the order in which they blocked (`ChannelOrder.WokenInOrder`).

**Processors.** Each created and unfinished task is at one place, once. A task that was woken before it had swapped
out sits in its own processor's wakeup queue, or in the hand of the thread that wakes it, while it still runs; this
is the only overlap. An entry requeues its task at most once. The counter of blocks of each processor, whenever the
processor has no block half done, is the number of tasks parked on it, plus the wakes past their swap that have not
decremented yet, less the number of wakes that came through a used-up entry: `taskWakeup` decrements in any case. With
one wake per entry, as the channel and the timer make them, the last number is zero, and a processor that finds its
counter at zero has no task parked and none on its way to its wakeup queue: this is what the order of the push and the
decrement in `taskWakeup` is for (`ProcessorBlocks.ZeroMeansNobody`). A second wake through one entry takes the counter
below zero (`ProcessorBlocks.CounterBelowZero`).

**Free list.** It is safe exactly as long as no stale swap takes the head: a step keeps the invariant if and only if
the link it installs is still the link of the block it takes. One allocating thread at a time is enough for
that, with any number of freeing threads; with two, a block can be handed out twice (`FreeListSteps.TwoAllocatorsDouble`).
Whatever the other threads do, a call hands out the head as it is at its swap, returns null only after a load that found
the list empty, and tries again after a swap that failed (`FreeListCalls.AllocCall`).

## Assumptions

* Ticks, ids, indices and counters are unbounded integers: the wrap-around of `size_t` and `int` is not modelled.
  `m_blocks` may be below zero, where the code would wrap.
* The delay of a timer is given in ticks, as the quotient of the two durations. Callbacks only record that they were
  invoked and do not call the timer. `stopTimer` is atomic with respect to single loop turns of `update`.
* Atomics are sequentially consistent. Reading `m_tasks` is atomic, and old arrays stay alive for the thieves that
  hold them. The copy of a growing array is one step: nobody else can see the new array before it is published.
  Items of the deque are represented by the number of their push, and the array has at least two slots (65536 in the
  code).
* A task gives control back to the processor that ran it. Its run is cut at the operations of the
  scheduler. A task is given its processor when it is made, where the code leaves a null pointer until its first run;
  nobody reads it before. Putting a task on the yield list and swapping it out is one step.
* A task registers one entry before it blocks, and blocks after it has registered one, as the channel and
  `taskSleep` do. Entries are used while their task is not finished.
* The random choice of a victim is a parameter. `std::list`, the thread-safe queues and the wait queues of the
  channel are sequences.

## Model

| member | source | states |
|---|---|---|
| `WheelArith.NextCascadeReaches` | coroutine/timer.cpp:135-147 | the tick computed as the next cascade of a bucket slot does reach it, within one revolution of the level |
| `WheelArith.NextCascadeUnique` | coroutine/timer.cpp:135-147 | no other tick of that revolution reaches the slot |
| `WheelArith.BucketPlacement` | coroutine/timer.cpp:69-102 | an expiry 256 or more ticks ahead goes to the slot whose cascade comes at the start of the block of the expiry, or of the clamped expiry at the top level, after now and within one revolution |
| `Wheel.Execute` | coroutine/timer.cpp:155-174 | the near slot of the tick ends empty, and only callbacks of this tick are added to the log |
| `Wheel.ReaddedElsewhere` | coroutine/timer.cpp:120-132 | at an aligned tick no expiry whatever is put back into the slot being cascaded, so the loop of `cascade` ends |
| `WheelInvariant.ReaddedLower` | coroutine/timer.cpp:120-132 | an entry taken down goes to a lower level or to the near slots, unless it is clamped; a clamped one is in the top bucket and goes to another slot |
| `Wheel.Cascade` | coroutine/timer.cpp:120-133 | a cascade ends, leaves its slot empty, and changes nothing but the lists |
| `Wheel.NextLevelAligned` | coroutine/timer.cpp:143-146 | the next level is cascaded exactly at the ticks aligned to it |
| `WheelInvariant.InsertedRight` | coroutine/timer.cpp:59-105 | wherever `update` is, linking puts an entry where it will be executed at the tick fixed by its expiry and the moment of insertion |
| `WheelInvariant.ReaddedRight` | coroutine/timer.cpp:120-132 | an entry taken down at the tick of its slot keeps its firing tick when it is added again |
| `WheelInvariant.InsertKeeps` | coroutine/timer.cpp:52-54 | the locked part of `startTimer` keeps the invariant at any point of `update` |
| `WheelInvariant.StopKeeps` | coroutine/timer.cpp:107-118 | `stopTimer` keeps the invariant at any point of `update` |
| `WheelInvariant.ExecuteKeeps` | coroutine/timer.cpp:155-174 | `execute` keeps the invariant: every callback is at its firing tick, each id once |
| `WheelInvariant.LeaveExecute` | coroutine/timer.cpp:139-141 | once the near slot is empty, what is left in near slots waits for a later tick |
| `WheelInvariant.CascadeKeeps` | coroutine/timer.cpp:120-133 | `cascade` keeps the invariant: nothing is lost, duplicated or moved to where it fires at another tick |
| `WheelInvariant.LeaveCascade` | coroutine/timer.cpp:141-147 | after a level is cascaded, what remains in the higher levels need not be looked at in this tick unless the index was 0 |
| `WheelInvariant.CascadeChainKeeps` | coroutine/timer.cpp:143-146 | the chain of cascades of an update keeps the invariant |
| `WheelInvariant.TickKeeps` | coroutine/timer.cpp:150 | the increment of the tick keeps the invariant |
| `WheelInvariant.UpdateKeeps` | coroutine/timer.cpp:137-153 | a whole `update` keeps the invariant |
| `WheelRuns.ExactFiring` | coroutine/timer.cpp:43-174 | in any run of whole operations a timer started at tick j and never stopped fires exactly once, at its expiry E if E - j < 256 or E is no multiple of 256, at E + 256 otherwise, at j if E < j; not before an update has got there; for all delays, clamped ones included |
| `WheelRuns.Conservation` | coroutine/timer.cpp:43-57 | over every run started = fired + stopped + `m_size`; the table has exactly the ids started and neither fired nor stopped; each is linked in one of the 512 lists and no id is linked twice |
| `WheelRuns.StoppedNeverFires` | coroutine/timer.cpp:107-118 | a timer that `stopTimer` found never fires, however the run goes on |
| `WheelRuns.PlacementInvariant` | coroutine/timer.cpp:59-105 | between updates, a bucket slot that holds an entry is reached within one revolution: an entry that is not clamped is in the slot its expiry names and is reached exactly at the start of the block of its expiry; a clamped entry is in the top bucket and is reached strictly before its expiry; an entry is linked no earlier than its timer was started |
| `WheelInterleaved.FiringTickBounds` | coroutine/timer.cpp:49-53 | a firing tick is not before the expiry nor the insertion, and at most 256 ticks after the later of the two |
| `WheelInterleaved.InterleavedBound` | coroutine/timer.cpp:43-174 | in every interleaving each inserted timer fires at most once, exactly at the tick fixed by its expiry and the moment of insertion, which is before neither and at most 256 ticks after the later; while it has neither fired nor been stopped that tick is not over; a stopped timer has not fired; the counts add up with the timers being started |
| `WheelInterleaved.InterleavedStart` | coroutine/timer.cpp:43-57 | in every run, a start that computes its expiry at tick j with a delay of d ticks and links its entry at tick t has the expiry j + d; it fires at most once, not before j + d or t, at most 256 ticks after the later of the two, and unless it is stopped it has fired once that time is over |
| `WheelInterleaved.StartIsBeginFinish` | coroutine/timer.cpp:43-57 | the two halves of a start with nothing in between are the whole operation |
| `WheelInterleaved.UpdateIsAdvances` | coroutine/timer.cpp:137-153 | loop turns of `update` without interference have the effect of the whole operation |
| `WheelOrder.FirstStartedFirstCalled` | coroutine/timer.cpp:59-174 | in every run, of two timers started at one tick with one delay, the callback of the second is not invoked before that of the first unless the first was stopped |
| `Timer.Timer.constructor` | coroutine/timer.h:58-66 | a new timer is empty, at tick 0 |
| `Timer.Timer.Alloc` | coroutine/timer.cpp:16-22 | an entry is taken from the free list, and a new one is made exactly when there is none; it is linked nowhere and no longer free; every other entry is still linked or free |
| `Timer.Timer.Recycle` | coroutine/timer.cpp:24-27 | an entry that is no longer linked goes to the free list; with it, every entry ever allocated is linked or free, and not both |
| `Timer.Timer.TakeFront` | coroutine/timer.cpp:126 | the first entry of a list is unlinked and is the only one that is neither linked nor free |
| `Timer.Timer.ChooseSlot` | coroutine/timer.cpp:61-102 | the branches pick the slot of the value model |
| `Timer.Timer.AddTimerEntry` | coroutine/timer.cpp:59-105 | the entry is linked once, at the end of that slot, and the other lists are as before |
| `Timer.Timer.StartTimer` | coroutine/timer.cpp:43-57 | the heap after the call stands for the value after `startTimer`; the id is the next one; an entry is recycled if there is a free one |
| `Timer.Timer.StopTimer` | coroutine/timer.cpp:107-118 | true exactly for a pending id; the entry is marked and leaves the table, and stays linked; an id that the table does not have gets a null pointer there |
| `Timer.Timer.Fire` | coroutine/timer.cpp:166-169 | the callback of a pending entry is invoked once, at this tick; the entry leaves the table |
| `Timer.Timer.Settle` | coroutine/timer.cpp:164-171 | an unlinked entry is called only if it is not canceled, and goes to the free list in both cases |
| `Timer.Timer.Execute` | coroutine/timer.cpp:155-174 | the loop on the heap is `execute` of the value model; the result counts the callbacks |
| `Timer.Timer.CascadeFront` | coroutine/timer.cpp:126-130 | a live entry is linked again and a canceled one goes to the free list; no entry is lost, and none is linked or free twice |
| `Timer.Timer.Cascade` | coroutine/timer.cpp:120-133 | the loop on the heap is `cascade` of the value model, and ends; the result says that the index was 0 |
| `Timer.Timer.CascadeLevels` | coroutine/timer.cpp:143-146 | the levels are cascaded in turn while the result is true |
| `Timer.Timer.Update` | coroutine/timer.cpp:137-153 | `update` on the heap is `update` of the value model; the result counts the callbacks |
| `DequeInvariant.PutKeepsWindow` | coroutine/workstealingqueue.h:25 | a write at bottom below the growth threshold touches no live slot |
| `DequeInvariant.DoubledCell` | coroutine/workstealingqueue.h:26-34 | after the copy by physical slot an index reads its old element if it has the bit of the old capacity clear, and the new half otherwise |
| `DequeInvariant.GrowthKeepsWindowIff` | coroutine/workstealingqueue.h:26-34 | the whole window survives a doubling, whatever the new half holds, if and only if no live index has that bit set |
| `DequeInvariant.NextIndex` | coroutine/workstealingqueue.h:79-145 | every step of the owner or a thief, with no condition on growths, keeps the index bounds and the claims: a thief whose swap can still succeed is below bottom or at the item that the owner will have to swap for |
| `DequeInvariant.OwnerKeeps` | coroutine/workstealingqueue.h:79-124 | every access of the owner, growths that meet the condition included, also keeps what the thieves have read true |
| `DequeInvariant.NextKeeps` | coroutine/workstealingqueue.h:79-145 | every step of the owner or a thief keeps the invariant: a pop that needs no swap never meets a thief whose swap can still succeed at the same index |
| `DequeLedger.Refinement` | coroutine/workstealingqueue.h:79-145 | each step is a step of a simple double-ended queue: push appends at the increment of bottom, a successful pop takes the back, a successful steal the front, a failed pop has met it empty, a failed steal changes nothing |
| `DequeLedger.RunRefines` | coroutine/workstealingqueue.h:79-145 | every interleaving is a history of the simple queue, step by step |
| `DequeLedger.NextLedger` | coroutine/workstealingqueue.h:79-145 | every step keeps the ledger: each pushed item is in exactly one of delivered, live, reserved, in a push, stranded |
| `DequeLedger.AtMostOnce` | coroutine/workstealingqueue.h:79-145 | in every run each item is returned at most once, and nothing is returned that was not pushed |
| `DequeLedger.IndexBounds` | coroutine/workstealingqueue.h:79-145 | in every sequence of enabled steps, whatever its growths do: bottom >= top - 1 between operations of the owner, bottom >= top - 2 in a pop, bottom never negative, top never decreases |
| `DequeLedger.HollowOrigin` | coroutine/workstealingqueue.h:118-119 | whatever the growths do, bottom below top with no pop in progress arises only from a pop that lost its swap, and then bottom is top - 1 |
| `DequeLedger.StrandedOnlyHollow` | coroutine/workstealingqueue.h:79-93 | an item is stranded only by the end of a push into such a state, and the next push is not stranded |
| `DequeLedger.StrandedIff` | coroutine/workstealingqueue.h:79-93 | in every interleaving and whatever its growth does, a push strands its item if and only if bottom is below top when it is called |
| `DequeExclusion.EachPushTakenOnce` | coroutine/workstealingqueue.h:79-145 | in every sequence of enabled steps, whatever its growths do, each delivery takes a push that was begun and no two take the same one; only the value read can be wrong |
| `DequeExclusion.TakenIsDelivered` | coroutine/workstealingqueue.h:79-145 | while the growths meet the growth condition, the items delivered are those taken |
| `DequeLedger.GrowthOkAtTopOne` | coroutine/workstealingqueue.h:85-90 | in a state with top 1 a growth meets the growth condition |
| `DequeLedger.TopOneIsRun` | coroutine/workstealingqueue.h:79-145 | any sequence of enabled steps during which top stays 1 meets the growth condition throughout |
| `DequeLedger.AtMostOnceAtTopOne` | coroutine/workstealingqueue.h:79-145 | as long as top stays 1 the ledger holds and no item is returned twice, with no condition on the growths |
| `DequeLedger.GrowthKeepsLedgerIff` | coroutine/workstealingqueue.h:85-90 | a growth keeps the ledger, whatever the new half holds, if and only if it meets the growth condition |
| `DequeCalls.StealCall` | coroutine/workstealingqueue.h:131-145 | from its call to its return and among any steps of the others: a steal is over after its second access if bottom is then at or below the top loaded, and else after its fifth; until then it can go on; it writes only by a successful swap, which moves top up by one and delivers what was read at that index from the array loaded |
| `DequeCalls.StealFailsIff` | coroutine/workstealingqueue.h:131-145 | a steal returns false if and only if bottom was at or below the top loaded, and then the deque had no item at that moment, or top had moved before the swap |
| `DequeCalls.StealNearer` | coroutine/workstealingqueue.h:131-145 | every access of a thief brings its call nearer to the end, and no step of anybody else changes how far it is |
| `DequeCalls.PopCall` | coroutine/workstealingqueue.h:100-124 | a pop is over after four, five, six or seven accesses, as bottom is below, above or equal to the top loaded and the swap fails or succeeds; what each access writes |
| `DequeCalls.PopFailsIff` | coroutine/workstealingqueue.h:100-124 | a pop returns false if and only if bottom, once decremented, was below the top loaded, and then the deque had no item at that moment and bottom is put back to that top, or was equal to it and top moved before the swap, and then bottom stays decremented |
| `DequeCalls.PushCall` | coroutine/workstealingqueue.h:79-93 | a push is over after its fifth access and not before; it doubles the array exactly when bottom is above the top loaded by the capacity less one or more, and writes its item at the bottom loaded and nothing else |
| `DequeExamples.StrandedItem` | coroutine/workstealingqueue.h:118-119 | a run after which both operations are over and an item is neither delivered nor live |
| `DequeExamples.LossyGrowth` | coroutine/workstealingqueue.h:26-34 | for every capacity a run to a growth that replaces a live item by what the new half holds |
| `DequeExamples.DeliveredTwice` | coroutine/workstealingqueue.h:26-34 | for every capacity a sequence of enabled steps with such a growth after which item 0 has been returned twice and the ledger is broken |
| `WorkStealingQueue.CirculQueue.Get` | coroutine/workstealingqueue.h:24 | reads the slot of the index modulo the capacity |
| `WorkStealingQueue.CirculQueue.Put` | coroutine/workstealingqueue.h:25 | writes that slot and no other |
| `WorkStealingQueue.CirculQueue.NewDoubleCapacity` | coroutine/workstealingqueue.h:26-34 | the copy loop gives an array of twice the size whose lower half is the old array |
| `WorkStealingQueue.Queue.constructor` | coroutine/workstealingqueue.h:51-54 | a new queue is empty, with both indices at 1 and 65536 slots |
| `WorkStealingQueue.Queue.Size` | coroutine/workstealingqueue.h:56-61 | the number of items |
| `WorkStealingQueue.Queue.Empty` | coroutine/workstealingqueue.h:63-68 | true exactly when there is no item |
| `WorkStealingQueue.Queue.Clear` | coroutine/workstealingqueue.h:70-74 | no item is left |
| `WorkStealingQueue.Queue.Push` | coroutine/workstealingqueue.h:79-93 | appends, unless bottom was below top or a growth violates the condition; grows exactly when full; writes one slot |
| `WorkStealingQueue.Queue.Pop` | coroutine/workstealingqueue.h:100-124 | run alone, takes the back and fails only when empty |
| `WorkStealingQueue.Queue.Steal` | coroutine/workstealingqueue.h:131-145 | run alone, takes the front and fails only when empty |
| `ChannelSpec.SendKeeps` | coroutine/channel.h:20-41 | the locked part of a send, with the wake of the first reader and the registration of the sender, keeps the invariant |
| `ChannelSpec.SendersLineUp` | coroutine/channel.h:20-65 | in every run there are max(0, queue - buffer) waiting writers, the n-th is the sender of the n-th item beyond the buffer, and a woken sender has its item within the buffer or received |
| `ChannelSpec.FirstInFirstOut` | coroutine/channel.h:20-65 | in every run what was sent is what was received followed by the queue |
| `ChannelSpec.NobodyForgotten` | coroutine/channel.h:22-56 | in every run a blocked task has an entry in its queue and every entry of both queues is current; while a reader waits the queue is no longer than the woken readers, so with none it is empty |
| `ChannelOrder.WokenInOrder` | coroutine/channel.h:20-65 | in every run, for readers and for writers: those that blocked are those that have been woken, in the order in which they blocked, followed by those that still wait, in the order of the queue |
| `ChannelOrder.SendWakes` | coroutine/channel.h:24-29 | a send wakes the reader at the front, if any, and no other |
| `ChannelOrder.SendBlocks` | coroutine/channel.h:31-39 | a send blocks exactly when its item is beyond the buffer, and joins the writers with its current id |
| `ChannelOrder.ReceiveBlocks` | coroutine/channel.h:47-54 | a receive on an empty queue joins the readers with its current id and wakes nobody |
| `ChannelOrder.ReceiveWakes` | coroutine/channel.h:55-63 | a receive that finds an item does not block, and wakes the writer at the front, if any, and no other |
| `Channel.Channel.constructor` | coroutine/channel.h:16 | a new channel has empty lists and the given buffer length |
| `Channel.Task.IsExpire` | coroutine/task.cpp:105-110 | true exactly for the current id, which it advances |
| `Channel.Channel.Wake` | coroutine/processor.cpp:52-59 | the task is requeued exactly when the entry is current; the counter of blocks goes down in any case |
| `Channel.Channel.WakeReader` | coroutine/channel.h:24-29 | the first waiting reader, if any, leaves the queue and is woken |
| `Channel.Channel.Send` | coroutine/channel.h:20-41 | the lists and tasks after the call are those of the value model: the item goes to the end of the queue, the first reader leaves its list, and the sender blocks, at the end of the list of writers, exactly when the queue exceeds the buffer |
| `Channel.Channel.WakeWriter` | coroutine/channel.h:58-63 | the first waiting writer, if any, leaves the queue and is woken |
| `Channel.Channel.Receive` | coroutine/channel.h:43-65 | one turn of the loop, as in the value model: on an empty queue the reader goes to the end of the list of readers; otherwise the front is taken and the first writer leaves its list |
| `ProcessorInvariant.PickKeeps` | coroutine/processor.cpp:89-95 | running a task from the wakeup or the ready queue keeps the invariant |
| `ProcessorInvariant.AddTaskKeeps` | coroutine/processor.cpp:70-87 | a new task is at one place and counted |
| `ProcessorInvariant.ShiftKeeps` | coroutine/processor.cpp:122-177 | moving a task between queues or into and out of a hand keeps the invariant |
| `ProcessorInvariant.GiveUpKeeps` | coroutine/processor.cpp:38-50 | a task that blocks or yields leaves its processor and the invariant stays, also when a blocking task has been woken before its swap |
| `ProcessorInvariant.FinishKeeps` | coroutine/processor.cpp:97-103 | the end of a task keeps the invariant |
| `ProcessorInvariant.ClaimKeeps` | coroutine/task.cpp:105-110 | winning the suspend id takes the task from its place into one hand |
| `ProcessorInvariant.NextKeeps` | coroutine/processor.cpp:33-178 | every step of a processor or a waking thread keeps the invariant |
| `ProcessorRuns.OnePlace` | coroutine/processor.cpp:38-178 | in every run each created and unfinished task is at exactly one place, once; the only overlap is a running task woken before its swap; no two processors run one task; `m_total_tasks` counts the tasks |
| `ProcessorRuns.OneWakePerEntry` | coroutine/task.cpp:105-115 | in every run a suspend entry requeues its task at most once, however often it is used |
| `ProcessorBlocks.BlocksExact` | coroutine/processor.cpp:38-59 | in every run, whenever a processor has no block half done: its `m_blocks` is the number of tasks parked on it, plus the wakes on it past their swap that have not decremented, less the number of wakes on it that found their entry used up |
| `ProcessorBlocks.BlocksCountParkedIff` | coroutine/processor.cpp:38-59 | with no wake in flight and no block half done it is the number of parked tasks if and only if no wake on the processor was stale |
| `ProcessorBlocks.BlocksCountParked` | coroutine/processor.cpp:38-59 | in particular if every entry is used for one wake |
| `ProcessorBlocks.ZeroMeansNobody` | coroutine/processor.cpp:52-59 | in every run with one wake per entry, a processor between two tasks whose `m_blocks` is zero has no task parked, no wake past its swap and no task on its way to its wakeup queue; this needs the push before the decrement |
| `ProcessorBlocks.CounterBelowZero` | coroutine/processor.cpp:52-59 | a run with two wakes through one entry, after which nothing is under way, no task is parked and the counter is -1 |
| `ProcessorTurn.FirstBusyIsFirst` | coroutine/processor.cpp:130-140 | the victim is a drawn processor, other than the thief, with a ready task, and no such processor is drawn before it; without a victim none is drawn |
| `ProcessorTurn.StealsMoveFront` | coroutine/processor.cpp:142-150 | stealing moves exactly that many of the oldest ready tasks, in order, to the back of the thief, and disturbs no other queue |
| `ProcessorTurn.IdleTurn` | coroutine/processor.cpp:113-163 | a turn comes to nothing exactly when the processor has no task, the global queue is empty, and the victim, if any, has a single ready task |
| `ProcessorTurn.WakeRuns` | coroutine/processor.cpp:52-59 | a wake run alone decrements the counter in any case, and requeues the task and uses up the entry exactly if it was current; the other processors are as before |
| `ProcessorLoop.Scheduler.constructor` | coroutine/processor.cpp:17-26 | all queues are empty and nothing is counted |
| `ProcessorLoop.Scheduler.Enlist` | coroutine/processor.cpp:70-82 | every 32nd task of a processor goes to the global queue, the others to its ready queue |
| `ProcessorLoop.Scheduler.AddTask` | coroutine/processor.cpp:84-87 | the new task has the next id and is counted; every 32nd of the processor goes to the global queue, the others to its ready queue |
| `ProcessorLoop.Scheduler.PickWakeup` | coroutine/processor.cpp:116-118 | runs the task woken first, which now belongs to this processor |
| `ProcessorLoop.Scheduler.PickReady` | coroutine/processor.cpp:116-118 | runs the newest ready task, which now belongs to this processor |
| `ProcessorLoop.Scheduler.TakeYielded` | coroutine/processor.cpp:123-128 | the task that yielded first becomes ready |
| `ProcessorLoop.Scheduler.TakeGlobal` | coroutine/processor.cpp:159-163 | the oldest global task becomes ready |
| `ProcessorLoop.Scheduler.TakeWakeup` | coroutine/processor.cpp:166-172 | what waiting on the wakeup queue returns becomes ready |
| `ProcessorLoop.Scheduler.GetSuspendEntry` | coroutine/processor.cpp:33-36 | the entry of the running task with its current id |
| `ProcessorLoop.Scheduler.TaskBlock` | coroutine/processor.cpp:38-43 | the block is counted and the task swapped out, to its parked place unless it has been woken |
| `ProcessorLoop.Scheduler.TaskYield` | coroutine/processor.cpp:45-50 | the running task goes to the end of the yield list |
| `ProcessorLoop.Scheduler.Finish` | coroutine/processor.cpp:97-103 | a dead task is gone and no longer counted |
| `ProcessorLoop.Scheduler.TaskWakeup` | coroutine/processor.cpp:52-59 | the call is a whole wake of the step system: the counter of the task's processor goes down in any case, and exactly if the entry was current the task is at the end of its wakeup queue and the id has advanced |
| `ProcessorLoop.Scheduler.FindVictim` | coroutine/processor.cpp:133-140 | the loop over the draws finds the first processor drawn, other than the thief, that has a ready task |
| `ProcessorLoop.Scheduler.StealHalf` | coroutine/processor.cpp:142-150 | the loop moves half of the victim's ready tasks, rounded down and oldest first, to the back of the thief's, and changes nothing else of either |
| `ProcessorLoop.Scheduler.Rob` | coroutine/processor.cpp:130-153 | moves the older half, rounded down, of the ready tasks of the first busy victim drawn, and nothing without one; the ready queue is empty afterwards exactly if that came to nothing |
| `ProcessorLoop.Scheduler.Turn` | coroutine/processor.cpp:113-178 | one turn of the loop: runs the task woken first; without one the newest ready task; without either makes the task that yielded first ready; otherwise moves the older half of the victim's ready tasks and leaves the global queue as it was; only when that is nothing takes the first global task; and otherwise waits, for a wakeup exactly if a block is outstanding |
| `List.List.constructor` | coroutine/list.h:28 | a new list is empty, its sentinel linked to itself |
| `List.List.Add` | coroutine/list.h:67-73 | four link updates insert the node at one position of the sequence |
| `List.List.PushBack` | coroutine/list.h:30-34 | appends; any node not in the list may be added, whatever its links hold |
| `List.List.PushFront` | coroutine/list.h:35-39 | prepends |
| `List.List.Erase` | coroutine/list.h:40-45 | removes the element at its position and leaves the links of the removed node as they are |
| `List.List.PopFront` | coroutine/list.h:46-51 | removes and returns the first element |
| `List.List.PopBack` | coroutine/list.h:52-57 | removes and returns the last element |
| `List.List.Empty` | coroutine/list.h:58-61 | true exactly for the empty sequence |
| `List.List.Size` | coroutine/list.h:62-65 | the length of the sequence |
| `List.List.Forward` | coroutine/list.h:10-21 | following `next` from the sentinel meets the elements in order and then the sentinel |
| `List.List.Backward` | coroutine/list.h:10-21 | following `prev` from the sentinel meets the elements in reverse and then the sentinel |
| `List.List.LinksAreInverse` | coroutine/list.h:67-73 | `prev` and `next` undo each other at every node, the sentinel included |
| `List.MoveFront` | coroutine/timer.cpp:126-128 | taking the first element of one list and appending it to another leaves every list disjoint from the two as it was |
| `FreeListSteps.NextKeepsIff` | coroutine/freelist.cpp:26-41 | a step of any thread keeps the invariant if and only if it is not a swap that installs an outdated link |
| `FreeListSteps.StaysCurrent` | coroutine/freelist.cpp:26-33 | no step outdates what the only allocating thread has seen |
| `FreeListSteps.CurrentRunsAreSafe` | coroutine/freelist.cpp:26-41 | with any number of threads, whatever is written to blocks in use, and no stale swap: no block is handed out while in use, the chain has no cycle and holds exactly the blocks freed and not handed out again, and the counters differ by the blocks in use and the pending calls |
| `FreeListSteps.OneAllocatorIsSafe` | coroutine/freelist.cpp:26-41 | one thread at a time in `freelistAlloc` and any number in `freelistFree` is enough |
| `FreeListSteps.TwoAllocatorsDouble` | coroutine/freelist.cpp:26-33 | a run with two allocating threads in which a block is handed out twice without being freed in between |
| `FreeListCalls.AllocCall` | coroutine/freelist.cpp:26-33 | from its call to its return and among any steps of others: an allocation ends with null, and a new block, exactly when the head it loaded last is null, or with a swap that finds the head it loaded last, hands it out and puts its link there; a swap that fails loads the head again; no other access writes |
| `FreeListCalls.FreeCall` | coroutine/freelist.cpp:35-41 | a call that gives a block back ends with the swap that finds the head to be the link of the block, and makes the block the head; every other access makes the block link to the head as it is |
| `FreeList.FreeList.CompareExchange` | coroutine/freelist.cpp:30 | swaps exactly when the head is as expected and the weak operation does not fail for no reason |
| `FreeList.FreeList.Alloc` | coroutine/freelist.cpp:26-33 | the block freed last, or null; the rest of the chain stays; the call is counted |
| `FreeList.FreeList.Free` | coroutine/freelist.cpp:35-41 | the block is in front of the chain, which is else as it was; the call is counted |
| `FreeListSteps.StatisticBalance` | coroutine/freelist.cpp:21-24 | in every run, safe or not, the two counters differ by the blocks in use and the pending allocations if and only if no block was handed out while in use |
| `FreeList.FreeList.Statistic` | coroutine/freelist.cpp:21-24 | the difference of the two results is the number of blocks that are out: taken from the chain, or made by a caller after a null result, and not given back |

## Left out

* `coroutine/hook.cpp`, `coroutine/demultiplexer.cpp` and `coroutine/fdcontext.cpp`: system calls and epoll.
* `swapcontext`, `makecontext` and stacks: foreign control transfer; a run of a task is a sequence of scheduler operations.
* The allocators of tasks and stacks, and `HandlerMap`: page rounding and a thin table.
* `coroutine/threadsafequeue.h`: taken as an atomic first-in-first-out queue.
* Liveness: that a processor waiting on `m_wakeup` or `m_global` is ever served does not follow from the code.
* Statistics output, thread creation, `Timer::run` and the wall clock.
* The `Timer` class stands for the slot lists by sequences of entries and for its free list by a sequence; `List` and `FreeList` prove the linked forms on their own.
* The `Scheduler` class makes one call at a time; the interleavings of processors and waking threads are those of the step system in `Processor`.
* `Queue` of `WorkStealingQueue` makes one operation at a time; the interleavings are those of the step system in `Deque`.
- `DequeLedger.AtMostOnce`: for runs whose growths meet the growth condition, because without it the statement is false of the code (`DequeExamples.DeliveredTwice`); `DequeLedger.GrowthKeepsLedgerIff` has the exact condition.
- `FreeListSteps.OneAllocatorIsSafe`: for one allocating thread at a time, because with two the statement is false of the code; `FreeListSteps.NextKeepsIff` has the exact condition.
- `WheelRuns.ExactFiring`: for runs of whole operations; under interleaving the tick depends on where the insertion falls, and `WheelInterleaved.InterleavedBound` has it.
- `ProcessorLoop.Scheduler.GetSuspendEntry`: excludes a second registration before the task blocks, which no caller makes (`coroutine/channel.h:35-37`, `coroutine/channel.h:50-52`, `coroutine/hook.cpp:108-110`, `coroutine/processor.cpp:63-67`); what becomes of the first entry is not modelled.
- `ProcessorLoop.Scheduler.TaskBlock`: excludes a block without an entry, which no caller makes (same lines).
- `ProcessorLoop.Scheduler.TaskYield`: excludes a yield between taking an entry and blocking, which no caller makes (same lines).
- `ProcessorLoop.Scheduler.Finish`: excludes the end of a task between taking an entry and blocking, which no caller makes (same lines).
