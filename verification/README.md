# Verified models of libgoc

libgoc is a C runtime for communicating sequential processes: fibers and OS threads exchange
values over channels, select over several channels at once, and close channels, on top of a
libuv loop and a tracing garbage collector.  This project models its hardest parts in Dafny and
proves what they are meant to guarantee.  `dafny verify dfyconfig.toml` checks all of it.

## What is modelled

**Channels, select and close** (`Protocol*.dfy`).  `Protocol` is a transition system over any
number of channels, fibers, OS threads and loop callbacks.  A step is one atomic access to a
shared word (`cancelled`, `fired`, `woken`, `parked`, `close_guard`, a lock, a semaphore, a run
queue) or work on data whose lock the stepping task holds; steps of all tasks interleave freely.
Blocking, synchronous, try, callback and select calls share one set of program counters, because
a plain take or put is what a select does from Phase 4 on with one arm.  Four layers of
invariants (who holds what, who may claim whom, what is queued where, where each message is) are
kept by every step; `ProtocolWakeups` follows wake-ups and results through the steps,
`ProtocolTheorems` reads the results off the invariants for every reachable state of every run,
and `ProtocolExamples` holds concrete runs for what does not hold.

**What the channel code is built from.**  `WaiterLists` (linked waiter lists whose tail pointer
is repaired lazily), `RingBuffers`, and `SelectOrder` (shuffle of the arms, sort and
deduplication of the locks) are imperative, on the heap and on arrays, each proved against a
function on sequences.

**RW mutex** (`MutexSpec`, and `RwMutexObject` with its linked queue), **statistics queue**
(`StatsQueue`, with allocation, freeing and reuse of addresses; `StatsFlush`, `StatsExamples`),
**dictionary** (`OrderedMap`, `DictTable`, `DictObject`), **array** (`DequeShape`, `DequeObject`),
**fiber-root registry** (`FiberRoots` on 64-bit words, `RootRegistry` for the protocol,
`RootExamples`), **schema validation** (`Schema` the validator, `SchemaMeaning` what schemas mean,
`SchemaCrashes` where it crashes, `SchemaModes` its two modes, `SchemaRuns` the depth of its calls,
`Graphs`) and **HTTP responses** (`HttpText`, `Http`, `HttpRoundTrip`).

## Properties that do not hold as promised

- A select that puts in Phase 2 buffers its value without looking at parked takers.  On a
  buffered channel this leaves a live taker beside a buffered value and lets a later put of the
  same sender overtake it (`ProtocolExamples.Phase2PutFails`).  `Phase2PutExactly` says when the
  step does harm, `DirectPutExactly` when a hand-over breaks the order.
- A take from a full buffer does not refill it from the parked putters, so a putter can stay
  parked beside a free slot with nothing left that could move (`ProtocolExamples.StuckBesideRoom`).
  `ProtocolWakeups.ParkedUnready` says how such slots come about.
- The flushes of the statistics queue share one flag, which any barrier raises.  A flush that
  overlaps another can return early (`StatsExamples.OverlappingFlushes`), and so can a later one
  that overlaps none, because of a barrier left behind (`StatsExamples.StaleBarrier`).
  `StatsFlush.FlushExactly` says in which states of the queue a flush can be let go early,
  `StatsFlush.FlushDelivers` what a caller has to see to for it not to be.
- A slot of the fiber-root registry that is released behind a running search is not seen by it, so
  the registry can grow beside a free slot (`RootExamples.GrowsBesideFree`).
  `RootRegistry.GrowsOnlyWhenFull` shows that these are the only free slots it grows beside.
- `goc_array_push_head` on an adopted, full buffer of seven slots grows to head 0 and then
  decrements it.  `DequeShape.HeadroomExactly` shows this is the only such shape.
- `goc_array_concat` writes from a new array's head, a quarter into its buffer, so the operands
  fit exactly when there are at most six elements (`DequeShape.ConcatFitsExactly`).
- A tuple schema on a shorter array aborts instead of reporting (`SchemaModes.EmptyTupleAborts`),
  and a property-name constraint crashes probe mode (`SchemaModes.NamesCrashProbe`).
  `SchemaCrashes.CrashesExactly` says exactly when, by what the schemas mean.
- A schema graph may have a cycle that stays at one value.  Validation then calls itself without
  end where first calls lead around it (`SchemaRuns.Diverges`), and may end otherwise
  (`SchemaRuns.EndsOnCycle`).
- A connection that is cut inside the body of a response yields a response with a shorter body
  and no error (`HttpRoundTrip.CutInBody`).
- The length of an HTTP response is narrowed to an unsigned int before it is written
  (`HttpRoundTrip.WireIsWhole`).

## Model

| member | source | states |
|---|---|---|
| ProtocolShape.ShapeNext | src/channel.c:670-890 | every action of every task keeps the lock discipline: each lock has one holder, held locks ascend, a task acts on a channel only while it holds that channel's lock, and list entries are distinct and belong to the channel and side they are queued on |
| ProtocolClaims.ClaimsNext | src/channel.c:393-555 | every action keeps the claim discipline: a select is fired by at most one entry, an entry is woken at most once and by the winner of its `fired` flag, a won claim is owed to exactly one waker, and the owner's `parked` word matches where it stands |
| ProtocolQueues.QueuesNext | src/channel.c:92-331 | every action keeps unclaimed waiters queued, takers away from buffered values (unless a Phase 2 put skipped one), takers and putters of different tasks apart, and the close and callback bookkeeping in step |
| ProtocolMessages.MessagesNext | src/alts.c:320-450 | every action keeps each message in at most one place, places in agreement with buffers, slots and results, and the messages of one sender in order on channels that skipped no taker |
| ProtocolRuns.InvRun | src/channel.c:670-1060 | all four invariants hold in every state of every run |
| ProtocolRuns.AdvRun | src/channel.c:92-331 | along every run claims, wake-ups, closing and dequeuing only move forward: nothing is unclaimed, unwoken, reopened or put back |
| ProtocolTheorems.SentOnce | src/channel.c:791-890 | a value whose send returned OK is, in every later state, in exactly one buffer position, result slot, hand or receiver's result |
| ProtocolTheorems.UnsentNowhere | src/alts.c:385-450 | a value whose send failed, or that belonged to a losing arm, is nowhere at any later time, so it is never received |
| ProtocolTheorems.ReceivedOnce | src/channel.c:670-786 | no two receives return the same message, and a received message was sent by a put on the same channel |
| ProtocolTheorems.OnePlace | src/channel_internal.h:59-141 | wherever a message is found, that is its one recorded place |
| ProtocolTheorems.NoSecondClaim | src/channel.c:393-435 | once one entry of a select is woken no sibling is woken at any later time, before and after losers are marked cancelled |
| ProtocolTheorems.OneWinner | src/alts.c:422-442 | a resumed select has exactly one woken arm, and no task ever reaches the "no winner" abort |
| ProtocolTheorems.PostedSuspended | src/channel.c:438-468 | a task holds at most one pending wake-up, and a fiber in a run queue is suspended in the park it is woken from |
| ProtocolWakeups.RaiseIsPost | src/channel.c:281-304 | whenever a task's pending wake-ups rise they rise by one, and that is the post of a claimed entry of the park the task is in |
| ProtocolWakeups.PostedOnce | src/channel.c:438-526 | two wake-ups of one task belong to different parks: no park is posted twice |
| ProtocolWakeups.ParkResult | src/alts.c:422-450 | a finished call one of whose entries was woken returned that entry's outcome: closed at its arm, its value sent, or the value in its slot |
| ProtocolWakeups.ParkedUnready | src/channel.c:686-777 | an arm is parked only when not ready (open channel, no counterpart, full or empty buffer), and a slot free beside a parked put arm was emptied by a take after it was parked |
| ProtocolTheorems.StaleUnreachable | src/channel.c:507-526 | after a won claim the owner is never found stale, so the spin loops' stale exits are not taken |
| ProtocolTheorems.NoLostWakeup | src/channel.c:676-766 | while a channel's lock is free no live taker sits beside a buffered value (on every unbuffered channel, and on every buffered one no Phase 2 put skipped a taker of), and live takers and putters coexist only within one select |
| ProtocolTheorems.LiveStaysQueued | src/channel.c:746-777 | a waiter that a claim would still win is in its channel's list |
| ProtocolTheorems.Phase2PutExactly | src/alts.c:136-139 | a Phase 2 put into a free buffer leaves a taker beside a value if and only if a live taker was queued |
| ProtocolTheorems.SenderOrder | src/channel.c:819-875 | on a channel that skipped no taker the messages of one sender leave in send order |
| ProtocolTheorems.OvertakesExactly | src/channel_internal.h:77-113 | a sender's newest message may go in front of the buffered ones without breaking the order if and only if none of those is the sender's own |
| ProtocolTheorems.DirectPutExactly | src/channel.c:819-850 | handing a value to a parked taker keeps the per-sender order if and only if the buffer holds no message of that sender |
| ProtocolExamples.Phase2PutFails | src/alts.c:132-144 | a concrete run in which a Phase 2 put leaves a taker beside its value and two values of one sender leave out of order |
| ProtocolExamples.StuckBesideRoom | src/channel.c:686-693 | a concrete run after which nothing can move while a live putter is parked beside a free buffer slot |
| ProtocolTheorems.ClosedOnce | src/channel.c:92-135 | a closed channel stays closed, and one closer only ever becomes the finished closer |
| ProtocolTheorems.NoWaiterAfterClose | src/channel.c:184-331 | once a close has walked the lists they stay empty in every later state and no entry on the channel is live |
| ProtocolTheorems.WaiterClosed | src/channel.c:184-275 | a waiter that is live when its channel is closed is, once the lock is free again, woken with GOC_CLOSED or beaten by another arm of its select |
| ProtocolTheorems.PutAfterClose | src/channel.c:805-817 | no call begun after a channel was closed ever returns that it sent something on it, and a plain put returns CLOSED |
| ProtocolTheorems.DrainAfterClose | src/channel.c:686-711 | after a close what is dequeued later is exactly a prefix of the buffer at that moment, in order, and the rest stays buffered |
| ProtocolTheorems.TakeAfterDrain | src/channel.c:713-719 | a take that finds a closed channel without putters returns CLOSED, and the buffer is then empty |
| ProtocolTheorems.CallbackOnce | src/channel.c:650-665 | exactly the callback installed at the close and those offered afterwards run, each once, none before the close |
| ProtocolTheorems.SomeoneSteps | src/alts.c:394-415 | from any task that is not at rest one finds a task that can step |
| ProtocolTheorems.DeadlockFree | src/alts.c:304-315 | as long as some task is inside a call or close, some task can step, whatever locks are held and whoever spins |
| ProtocolTheorems.Quiescence | src/alts.c:304-404 | when nothing can step, every parked arm is live on an open channel, no other task's waiter matches it, and a take arm's buffer is empty unless a Phase 2 put skipped a taker |
| SelectOrder.InsertInPlace | src/alts.c:180-188 | one turn of the sort inserts the next element into the sorted prefix and leaves the rest of the array alone |
| SelectOrder.InsertionSort | src/alts.c:180-188 | the sort of the first count entries is insertion of them one by one |
| SelectOrder.InsertAllSorted | src/alts.c:179-188 | inserting one by one yields a sorted permutation |
| SelectOrder.DedupInPlace | src/alts.c:190-197 | the compaction keeps the first of each run of equal elements |
| SelectOrder.DedupAscending | src/alts.c:190-197 | on a sorted list that yields a strictly ascending list |
| SelectOrder.DedupSame | src/alts.c:190-197 | and drops or adds no element |
| SelectOrder.DedupSortChannels | src/alts.c:167-198 | the lock array is strictly ascending and holds exactly the channels of the arms that are not default arms and name one |
| SelectOrder.Shuffle | src/alts.c:55-65 | the shuffle is Fisher-Yates with the 32-bit generator's draws, permutes the first n entries and leaves the rest alone |
| SelectOrder.ShuffledPermutes | src/alts.c:44-65 | shuffling keeps the multiset for every generator state |
| SelectOrder.BuildIndexArray | src/alts.c:74-94 | aborts if and only if there are two default arms; otherwise every other arm is listed exactly once and the default arm is reported |
| SelectOrder.CollectArms | src/alts.c:74-90 | before the shuffle the index array lists the positions of the other arms in order, and the abort is taken if and only if there are two default arms |
| SelectOrder.PositionsExactly | src/alts.c:80-90 | the listed positions are exactly those of the arms that are not default arms |
| WaiterLists.WaiterList.Append | src/channel_internal.h:39-57 | appends at the end of the linked list, with the tail known or unknown, and at the end of the live entries |
| WaiterLists.WaiterList.Last | src/channel_internal.h:50-56 | the walk finds the last entry when the tail is unknown |
| WaiterLists.WaiterList.Serve | src/channel_internal.h:77-113 | serves the first live entry, removes it and only dead ones before it, and claims nothing else; with no live entry the list ends empty |
| WaiterLists.WaiterList.SkipDead | src/channel_internal.h:81-111 | unlinking dead heads leaves a suffix of the list and the same live entries |
| WaiterLists.WaiterList.Unlink | src/channel.c:571-587 | taking an entry out of the middle or the front keeps the links of the others |
| WaiterLists.WaiterList.Compact | src/channel.c:564-613 | leaves exactly the uncancelled entries in order, a repaired tail, and the live entries unchanged |
| WaiterLists.LiveUncancelled | src/channel.c:564-613 | dropping cancelled entries never changes the live subsequence, so no later serving can tell |
| RingBuffers.Ring.Put | src/channel_internal.h:59-66 | fails exactly on a full buffer and otherwise appends, at any head position |
| RingBuffers.Ring.Take | src/channel_internal.h:68-75 | removes and returns the oldest value, or nothing from an empty buffer |
| RingBuffers.SlotIsModulo | src/channel_internal.h:61-71 | the modulo index is the slot reached by going once around |
| MutexSpec.ValidNext | src/mutex.c:135-261 | every request, close and grant delivery keeps the counters exact, the queue ordered and the lock held while anyone waits |
| MutexSpec.ValidRun | src/mutex.c:135-261 | so they hold in every state of every run |
| MutexSpec.MutualExclusion | src/mutex.c:135-261 | two handles that hold the lock at once are both readers |
| MutexSpec.CountersExact | src/mutex.c:135-202 | `active_readers`, `writer_active` and `waiting_writers` count the granted unclosed readers, writers and queued writers, the queue holds exactly the handles neither granted nor closed, and nobody waits for a free lock |
| MutexSpec.FirstComeFirstServed | src/mutex.c:216-261 | when a handle has been granted every earlier one was granted or has given up |
| MutexSpec.OneGrant | src/mutex.c:127-133 | a gate gets at most one grant, only for a granted handle, and the put into it finds it empty |
| MutexSpec.CloseOnce | src/mutex.c:204-214 | the first close of a granted handle releases it, the first close of a waiting handle removes it and touches nobody else, any other close does nothing |
| MutexSpec.RankNext | src/mutex.c:135-174 | a release brings every remaining waiter one step closer and no other operation pushes it back |
| MutexSpec.EveryWaiterGranted | src/mutex.c:135-174 | a waiter that is not cancelled is granted after at most as many releases as there were holders and waiters before it, and while it waits there is a holder to release |
| RwMutexObject.RwMutex.Enqueue | src/mutex.c:101-111 | links a waiter behind the last one, keeping head and tail right |
| RwMutexObject.RwMutex.Dequeue | src/mutex.c:113-125 | unlinks the first waiter and clears the tail with the last one |
| RwMutexObject.RwMutex.LockRequest | src/mutex.c:216-261 | the critical section of a request, on the linked queue, has the effect of the specification's request and keeps the invariant |
| RwMutexObject.RwMutex.ReleaseLock | src/mutex.c:135-174 | so does a release; the list it returns links exactly the waiters it granted, in queue order |
| RwMutexObject.RwMutex.GrantBatch | src/mutex.c:155-168 | its loop takes the leading readers off the queue and strings them onto that list through the same links |
| RwMutexObject.RwMutex.SendGrants | src/mutex.c:170-174 | the walk along the list sends each waiter on it one grant and nobody else any |
| RwMutexObject.RwMutex.CancelWaiter | src/mutex.c:176-202 | so does the cancellation of a waiter, queued or not |
| RwMutexObject.RwMutex.Unlink | src/mutex.c:184-192 | takes a waiter out of the front, middle or end of the queue and repairs head and tail |
| RwMutexObject.RwMutex.OnGateClosed | src/mutex.c:204-214 | so does the close handler, first and later calls |
| StatsQueue.InvNext | src/goc_stats.c:34-67 | every step is memory safe and keeps the chain of nodes from sentinel to head intact, with each open link owned by one unfinished push |
| StatsQueue.PoppedInOrder | src/goc_stats.c:52-67 | in every state what was popped is a prefix of what was exchanged and the chain holds the rest, so events pop exactly once in exchange order |
| StatsQueue.MemorySafe | src/goc_stats.c:42-67 | no step touches a freed node, and a producer stores its link into the very node it exchanged away, although addresses are reused |
| StatsQueue.NothingLost | src/goc_stats.c:101-114 | every allocated node is in the chain, in a producer's hands or about to be freed, and a drain stops early only in front of an unfinished push |
| StatsFlush.FlushExactly | src/goc_stats.c:368-386 | from the exchange of its barrier on, a flush can return before everything pushed ahead of the barrier was handed out if and only if the flag is up, the present drain met a barrier and can end early, or an older barrier is queued with an unfinished push behind it |
| StatsFlush.FlushDelivers | src/goc_stats.c:368-386 | a flush that resets the flag with no barrier queued or met, and before whose barrier no other is exchanged, returns only after its barrier and everything before it was handed out |
| StatsFlush.FlushesApart | src/goc_stats.c:368-386 | so does every flush if no two ever overlap |
| StatsExamples.OverlappingFlushes | src/goc_stats.c:368-386 | a concrete run with two flushers in which the second returns before its event was handed out |
| StatsExamples.StaleBarrier | src/goc_stats.c:125-133 | a concrete run in which a flush that overlaps no other returns early, on the barrier of an earlier one |
| OrderedMap.LookupPut | src/goc_dict.c:232-252 | after a put the key has the new value and every other key its old one |
| OrderedMap.LookupRemove | src/goc_dict.c:254-277 | after a pop the key is absent and every other key has its old value |
| OrderedMap.KeysPut | src/goc_dict.c:232-252 | a key keeps its place when rebound and comes last when new |
| OrderedMap.RebuildIdentity | src/goc_dict.c:372-383 | listing a map and building it again gives the same map in the same order |
| OrderedMap.LookupPutAll | src/goc_dict.c:414-437 | in a merge later maps win |
| DictTable.ProbeEnds | src/goc_dict.c:85-105 | a probe that meets a vacant slot before the key proves the key absent from the whole table |
| DictTable.PlaceOk | src/goc_dict.c:232-252 | writing a key's cell into the probed slot keeps every live key reachable and binds that key alone |
| DictTable.DropOk | src/goc_dict.c:254-277 | a tombstone keeps every other key reachable and unbinds that key alone |
| DictTable.VacantAhead | src/goc_dict.c:85-105 | a table that is not full has a vacant slot on every probe path, so probing ends |
| DictObject.RoundCap | src/goc_dict.c:37-44 | the least power of two that is at least 8 and at least the request |
| DictObject.Dict.Probe | src/goc_dict.c:85-105 | ends, at the key's slot if the key is live and otherwise at a free slot reachable from its hash |
| DictObject.Dict.Get | src/goc_dict.c:179-187 | looks the key up in the ordered map |
| DictObject.Dict.Contains | src/goc_dict.c:172-177 | tells whether the ordered map has the key |
| DictObject.Dict.Rehash | src/goc_dict.c:111-134 | the larger table stands for the same ordered map, without tombstones, and `occupied` is `len` again |
| DictObject.Dict.Reinsert | src/goc_dict.c:122-127 | the first vacant slot from the key's hash on takes the binding |
| DictObject.Dict.MakeRoom | src/goc_dict.c:233-236 | after the load check a slot can be used and one still stays vacant |
| DictObject.Dict.Set | src/goc_dict.c:232-252 | puts into the ordered map |
| DictObject.Dict.Pop | src/goc_dict.c:254-277 | removes from the ordered map and returns the value it had |
| DictObject.Dict.Copy | src/goc_dict.c:279-288 | a separate dictionary that stands for the same ordered map |
| DictObject.Dict.GetEntries | src/goc_dict.c:303-326 | lists the ordered map, as many bindings as `len` |
| DictObject.Dict.FromEntries | src/goc_dict.c:372-383 | puts the listed bindings one by one |
| DictObject.Dict.MergeMany | src/goc_dict.c:414-437 | the first map with the others put in from left to right; the arguments stay as they were |
| DequeShape.HeadroomExactly | src/goc_array.c:204-212 | after growing push_head finds a positive head unless the array is full with capacity seven |
| DequeShape.SevenAdopted | src/goc_array.c:113-121 | seven adopted elements and a push_head give head 0 |
| DequeShape.ConcatFitsExactly | src/goc_array.c:229-247 | the operands of a concat fit behind the new array's head if and only if there are at most six elements |
| DequeShape.GrownFresh | src/goc_array.c:62-91 | a grow doubles the capacity and leaves an eighth of it free at both ends |
| DequeShape.CreditCovers | src/goc_array.c:62-91 | when an end is exhausted the pushes since the last grow have paid for moving every element |
| DequeShape.StepCost | src/goc_array.c:182-223 | each operation moves at most eight elements per push, counted with that credit |
| DequeShape.AmortisedPush | src/goc_array.c:97-111 | from a new array on, any mix of operations moves at most eight elements per push in total |
| DequeObject.Deque.Grow | src/goc_array.c:62-91 | keeps the contents and moves them to the place the shape says |
| DequeObject.Deque.Push | src/goc_array.c:182-189 | appends |
| DequeObject.Deque.Pop | src/goc_array.c:191-198 | removes the last element, or aborts on an empty array |
| DequeObject.Deque.PushHead | src/goc_array.c:204-212 | prepends, unless the array is full with capacity seven: then the head is still 0 after growing and the write would be in front of the buffer |
| DequeObject.Deque.PopHead | src/goc_array.c:214-223 | removes the first element, or aborts on an empty array |
| DequeObject.Deque.Get | src/goc_array.c:162-168 | the element, or the abort out of bounds |
| DequeObject.Deque.Set | src/goc_array.c:170-176 | replaces one element, or aborts out of bounds |
| DequeObject.Deque.Copy | src/goc_array.c:123-132 | a separate array with the same contents |
| DequeObject.Deque.Concat | src/goc_array.c:229-247 | both contents, one after the other, if there are at most six elements; with more the copy would run past the new buffer |
| FiberRoots.Ctz | src/gc.c:214-216 | the lowest set bit of a word that is not zero |
| FiberRoots.LowestIs | src/gc.c:239-239 | w & (w - 1) clears exactly the lowest set bit |
| FiberRoots.OnesSet | src/gc.c:309-314 | the fetch-or adds exactly one bit |
| FiberRoots.OnesClear | src/gc.c:320-329 | the fetch-and removes exactly one bit |
| FiberRoots.ComplementLowest | src/gc.c:257-265 | the lowest set bit of the complement is the first free bit |
| FiberRoots.FindFree | src/gc.c:251-265 | the search returns the first free bit in word order, or none when every word is full |
| FiberRoots.ScanWord | src/gc.c:211-240 | a scan of one word visits each set bit once |
| RootRegistry.InvNext | src/gc.c:247-329 | every step of a registration, every release between its steps and every growth keeps bits, data and handles in agreement |
| RootRegistry.ScanSafe | src/gc.c:280-318 | between any two steps the set bits are exactly the registered handles, each with its own owner's data, and a new handle differs from all registered ones |
| RootRegistry.Scan | src/gc.c:201-245 | the scan visits every set bit of the words in use exactly once |
| RootRegistry.ScanExact | src/gc.c:201-245 | such a scan between any two steps visits each registered handle once, nothing else, and finds its owner's data |
| RootRegistry.GrowsOnlyWhenFull | src/gc.c:267-283 | when a chunk is added a slot is free if and only if it was released during the search and behind it |
| RootRegistry.FirstFreeSlot | src/gc.c:251-265 | of the slots in front of the one a search finds, exactly those are free that were released behind it during the search |
| RootExamples.GrowsBesideFree | src/gc.c:319-329 | a run from the start in which a full chunk is searched in vain, a slot is released behind the search, and a chunk is added |
| SchemaMeaning.Conforms | src/goc_schema.c:888-1597 | unless it crashes, validation accepts if and only if the value satisfies the schema's meaning, in both modes |
| SchemaMeaning.ConformsArr | src/goc_schema.c:1264-1362 | the same for arrays: elements, length, uniqueness, number of matching elements |
| SchemaMeaning.ConformsTuple | src/goc_schema.c:1363-1395 | the same for tuples |
| SchemaMeaning.ConformsObj | src/goc_schema.c:1396-1521 | the same for objects: counts, names, patterns, fields (null counts as absent), strictness, dependencies |
| SchemaMeaning.ConformsMixed | src/goc_schema.c:1522-1593 | the same for if, any-of, one-of, all-of, not and references |
| SchemaModes.ModesAgree | src/goc_schema.c:592-603 | without property-name constraints probe and report mode differ in the error path alone |
| SchemaModes.NamesDiverge | src/goc_schema.c:1420-1429 | the modes give different verdicts if and only if probe mode crashes and report mode does not |
| SchemaModes.ProbeCrashes | src/goc_schema.c:592-603 | whatever crashes report mode crashes probe mode |
| SchemaModes.NamesCrashProbe | src/goc_schema.c:1420-1429 | a store and a record that report mode rejects and probe mode crashes on |
| SchemaModes.ShortTuple | src/goc_schema.c:1369-1379 | a tuple longer than the array never accepts, and aborts if and only if the elements that are there satisfy their schemas, or one crashes after satisfied ones |
| SchemaModes.EmptyTupleAborts | src/goc_schema.c:1369-1379 | a one-element tuple schema aborts on the empty array |
| SchemaModes.NoCrash | src/goc_schema.c:888-1597 | a check on the store and the lengths of the arrays alone that rules crashes out: no tuple longer than the shortest array, and no property names or, in report mode, nothing tried in probe mode |
| SchemaCrashes.CrashesExactly | src/goc_schema.c:888-1597 | validation crashes if and only if, by the meaning of the schemas, it reaches a tuple whose array ends too early or, in probe mode, a key whose name is not accepted |
| SchemaCrashes.ExactVerdict | src/goc_schema.c:888-1597 | the whole verdict by the meaning alone, for every store, value and mode: crash, otherwise acceptance is satisfaction and rejection its opposite |
| SchemaModes.Terminates | src/goc_schema.c:1587-1593 | if every cycle of schemas goes through an element, field or key there are ranks by which validation of every value terminates |
| SchemaModes.TerminatesOnlyIf | src/goc_schema.c:1587-1593 | such ranks exist only then |
| SchemaRuns.RunEnds | src/goc_schema.c:888-1597 | where ranks exist, the code's sequence of calls, left at the first error, ends with the validator's verdict in a depth bounded by the size of the value |
| SchemaRuns.RanksDoNotMatter | src/goc_schema.c:888-1597 | the verdict does not depend on the ranks |
| SchemaMeaning.RanksMeanTheSame | src/goc_schema.c:888-1597 | neither does the meaning |
| SchemaRuns.Diverges | src/goc_schema.c:1527-1593 | schemas whose first calls on the same value stay among them never return, for any value and mode |
| SchemaRuns.EndsOnCycle | src/goc_schema.c:1559-1568 | an all-of that names itself after a schema that rejects everything ends with the rejection |
| Http.ParseResponseHead | src/goc_http.c:1898-1964 | the parsing loops compute the head found at the front of the bytes, or none before the empty line is there |
| Http.LinesEnd | src/goc_http.c:1903-1911 | the first empty line of printed header lines is the one that was printed, whatever follows |
| Http.SpelledIsFound | src/goc_http.c:1927-1962 | the line, colon and white-space searches find each printed header |
| HttpRoundTrip.HeadReadsBack | src/goc_http.c:1756-1763 | a printed head followed by anything is parsed to the same status, headers and length |
| HttpRoundTrip.PartOfHead | src/goc_http.c:1903-1911 | a proper part of a head makes the parser ask for more |
| HttpRoundTrip.ReadResponse | src/goc_http.c:3174-3222 | the read loop over the chunks computes the client's response |
| HttpRoundTrip.TypeReadsBack | src/goc_http.c:1756-1763 | the content type is read back if and only if it is trimmed and holds no line feed |
| HttpRoundTrip.ClientGets | src/goc_http.c:3174-3222 | for every cut of the bytes into chunks, however many bytes arrive: nothing before the head is there, then status, headers, length and as much of the body as arrived and no byte more |
| HttpRoundTrip.ResponseRoundTrip | src/goc_http.c:3174-3222 | once all of it has arrived the client recovers status, headers, length and exact body, whatever follows |
| HttpRoundTrip.CutInBody | src/goc_http.c:3174-3222 | a connection cut inside the body yields the announced length and a shorter body |
| HttpRoundTrip.HeadFits | src/goc_http.c:1751-1768 | for every 32-bit status and 64-bit length the head is shorter than its buffer, so the bare 500 is never sent |
| HttpRoundTrip.WireIsWhole | src/goc_http.c:1772-1772 | the write covers the whole response if and only if its length fits an unsigned int |
| HttpRoundTrip.EndToEnd | src/goc_http.c:1739-1774 | from the server's call to the client's result, for every status, trimmed content type without line feeds, body and cut into chunks |

## Assumptions

- Atomic accesses are sequentially consistent and entries are never freed; only `StatsQueue`
  models freeing.
- Posted fibers and callbacks run eventually; the loop thread runs its functions one at a time.
  So a mutex's close handlers do not overlap each other, and a lock handle is closed only after
  the call that returned it.
- Integers are unbounded except where their width matters: the random generator's state, bitmap
  words, the HTTP length and status.
- Dictionary keys are compared by content everywhere.  The code compares pointers when it nulls
  a popped key in the key array; a live key has one pointer there, so the outcome is the same.
- The dictionary masks with a power-of-two capacity; the model takes the remainder, and proves
  that every capacity is a power of two.

## Left out

- Waiting of a fiber in `goc_yield` (src/channel.c:892-914): it posts itself and does not touch a channel.
- Runtime shutdown and the registries of live channels and mutexes.
- ProtocolTheorems.SenderOrder: stated for channels without a skipped taker; the other half is `DirectPutExactly`, step by step.
- StatsQueue: closing of the queue and its destruction.
- DictObject: select, zip, of, key and value listings repeat the same walks.
- Slices of arrays, which share a buffer by design, and string conversion.
- Scalar schema kinds are tests passed in as functions: floating point, regular expressions and formats are foreign code.
- Error message texts; the equality of `goc_schema_vals_equal` is a parameter.
- The schema hierarchy queries (is-a, ancestors, descendants) and the JSON layer.
- HTTP requests, connection pool and its retries, server lifecycle, the growth of the client's byte buffer.
- The scheduler, timers, the work-stealing deque, libuv plumbing and telemetry.
