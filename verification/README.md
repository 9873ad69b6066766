# Verified models of the synchronisation benchmarks

The repository collects shared-memory synchronisation algorithms: lock-free containers, locks, a barrier,
and a few programs that run under transactional lock elision. This project models their sequentially
consistent versions in Dafny and proves what they are for.

**Concurrent algorithms** are transition systems. A state holds the shared memory and, for each thread, a
program counter with its locals; each atomic load, store, exchange or compare-and-exchange is one step of one
thread (`Step`). A run (`IsRun`) starts in the state the initialisation leaves and takes any steps in any
order. Nothing bounds the number of threads, nodes, slots or steps. Every module has an invariant `Inv`, a
lemma `StepInv` that every step keeps it and `RunInv` that it holds in all states of all runs; the theorems
follow from it. A lemma `CanStart` shows that there are initial states of every size. History variables record
what has happened; no step depends on them.

**Sequential code** is a class with the fields and loops of the original, proved against a function or a map.

| files | models |
|---|---|
| `HazardStack*.dfy`, `HazardScan.dfy` | the Treiber stack with hazard pointers, with a heap in which a deleted address may be handed out again at once |
| `MsQueue*.dfy`, `TaggedPointer.dfy` | the Michael-Scott queue, with 64-bit tags or the 16-bit tags of packed words |
| `FairLock*.dfy` | Taubenfeld's fair synchronisation around a test-and-set lock |
| `FilterLock*.dfy` | the filter lock inside the loop of its driver, where the reset of one thread overlaps with the locking of others |
| `ClhLock.dfy` | the CLH queue lock |
| `ArrayLock*.dfy` | the array lock composed with the barrier and the rounds of its driver |
| `BQueue*.dfy` | the batching ring B-Queue in all compile-time variants, as interleaved steps and as methods on the array |
| `HashTable.dfy`, `HashTasks.dfy` | the growing hash table, and several tasks that share one |
| `Mersenne*.dfy` | the random number generator of k-means |
| `DiningPhilosophers.dfy`, `KMeans*.dfy` | the philosophers, and the division of work among the k-means tasks |
| `ModArith.dfy`, `SetFacts.dfy`, `Wrappers.dfy` | residues, finite sets, options |

## Where the code does not keep its promise

Each of these is a theorem with both directions: the condition, and a run or a state that fails without it.

* The scan for hazard pointers starts at `start_cid`, half of `MAX_NR_THREADS`, while the driver gives its
  poppers the tids from the number of pairs on. Of 1 to 14 thread pairs, the stack is memory safe in all runs
  only with 1 or 14 (`HazardStackSlots.MemorySafeIff`, `DriverSafeIff`).
* `Atomic_Compare_Exchange` of the Ada binding is weak unless told otherwise. If the swing of `Last` fails
  spuriously, a queue at rest hides its last element and the wrapper's `Dequeue` answers False
  (`MsQueueWeak.IdleShowsAllIff`, `WeakHidesElement`).
* The batched producer of the B-Queue overwrites values that have not been consumed when the ring holds a
  single batch of two slots or more (`BQueueRoom.NeverOverwritesIff`).
* With backtracking, `dequeue` of the B-Queue never returns `BUFFER_EMPTY`: its test `batch_size >= 0` on an
  unsigned number is always true, so on an empty ring it waits for the next write
  (`BQueueBacktracking.ReportsEmptyIff`, `EmptyDequeueWaits`).
* `t` tasks on a hash table of initial size `n` can run into the `Assert (False)` of `Find_Slot` unless
  10 t < 3 n; for one task that is n >= 4 (`HashTasks.NeverFailsIff`, and `Execute` on the slots themselves).
* A single philosopher would ask for a fork that does not exist (`DiningPhilosophers.ForkOrderIff`).

The filter lock, on the other hand, survives its driver: `reset_filter_lock` writes the victim entry of a
level on which slower threads may still compete, and yet at most n - l threads are past level l
(`FilterLockSafety.FilterBound`).

## Model

| member | source | states |
|---|---|---|
| HazardStackProof.StepInv | benchmark/nonblocking/COstack/COstack_sc.cpp:3-33 | Every atomic step of `push`, `pop`, `Retire` and the scan, by any thread, keeps the ownership invariant: each allocated cell has exactly one owner, and a validated hazard slot keeps its node from being deleted. |
| HazardStackRuns.MemorySafety | benchmark/nonblocking/COstack/COstack_sc.cpp:12-33 | In every interleaving, with freed addresses reused, no thread is about to read or write a field of a cell that is not the live cell it takes it for, if each popper publishes in a scanned slot of its own or pops alone. |
| HazardStackSlots.UnscannedPopperFails | common/hazard_pointers/hazard_pointers.hpp:23-29 | A popper whose slot is not scanned, beside any other popper, can be left about to read a node that has been deleted: a run is constructed for any initial state and any threshold. |
| HazardStackSlots.MemorySafeIff | common/hazard_pointers/hazard_pointers.hpp:23-29 | All runs are memory safe exactly if all poppers have slots in the scanned range, or there is only one. |
| HazardStackSlots.DriverSafeIff | benchmark/nonblocking/COstack/driver.cpp:169-187 | With the driver's tids, 28 slots and the scan starting at 14, that is so for 1 and for 14 thread pairs and for no number between. |
| HazardStackLifo.StepEffect | benchmark/nonblocking/COstack/COstack_sc.cpp:4-33 | A successful push exchange adds exactly the value of its pusher on top, a successful pop exchange installs the true current successor of the head and so removes exactly the top value (no ABA), and no other step changes the abstract stack. |
| HazardStackLifo.RunIsLifo | benchmark/nonblocking/COstack/COstack_sc.cpp:4-33 | The same at every step of every run: the stack refines an abstract last-in-first-out sequence. |
| HazardStackCalls.PushTakesEffect | benchmark/nonblocking/COstack/COstack_sc.cpp:4-9 | Over runs: the value that a push exchange puts on top is the argument of that very call of `push`, made by the same thread with no other call in between. |
| HazardStackCalls.PushEndsByEffect | benchmark/nonblocking/COstack/COstack_sc.cpp:4-9 | A push ends by its exchange and by nothing else. |
| HazardStackLifo.PopIsLinearizable | benchmark/nonblocking/COstack/COstack_sc.cpp:12-33 | Every result of `pop` was the top of the stack and was removed, or the stack was empty if the result is null, at a step of that thread inside that very call. |
| HazardStackCalls.PopRetries | benchmark/nonblocking/COstack/COstack_sc.cpp:12-21 | A pop goes round one of its loops only because, since it loaded the head, another thread has pushed or popped. |
| HazardStackCalls.FailedExchangeIsReady | benchmark/nonblocking/COstack/COstack_sc.cpp:6-8 | After a failed weak exchange the next one would succeed if nobody else moved. |
| HazardStackCalls.StepGetsOn | benchmark/nonblocking/COstack/COstack_sc.cpp:4-33 | Every step of a thread in a call brings it nearer to the end of the call, in a well-founded order, unless it goes round a loop. |
| HazardStackCalls.CallsGetOn | benchmark/nonblocking/COstack/COstack_sc.cpp:4-33 | In every run each thread in a call has a step, so no call is ever stuck. |
| HazardStackSweep.ScansIff | benchmark/nonblocking/COstack/COstack_sc.cpp:25-30 | A pop that returns a value has read the counter in that very call, and has scanned after that exactly if it had reached the threshold. |
| HazardStackSweep.KeptIsPublished | common/hazard_pointers/hazard_pointers.hpp:23-29 | A scanner puts a record back only when a scanned slot publishes its node at that step. |
| HazardStackSweep.SlotsAreCleared | benchmark/nonblocking/COstack/COstack_sc.cpp:14-24 | In every run a slot is set only while its popper is between loading the head and clearing the slot. |
| HazardStackSweep.QuietPassKeepsNothing | common/hazard_pointers/hazard_pointers.hpp:58-73 | So an undisturbed pass begun while no popper is there deletes every retired node. |
| HazardStackReclaim.RecordHasOnePlace | common/hazard_pointers/hazard_pointers.hpp:45-73 | Each reclaim record is in the shared list, in exactly one scanner's private list, or in one thread's hands, and in one such place only. |
| HazardStackReclaim.RetiredHasOneRecord | common/hazard_pointers/hazard_pointers.hpp:52-73 | A retired node that has not been deleted is named by exactly one record, so it is deleted once. |
| HazardStackReclaim.ReclamationConserves | common/hazard_pointers/hazard_pointers.hpp:45-73 | `reclaim_cnt` equals the live records, corrected by the threads between making a record and counting it and between deleting and counting down; the nodes deleted and the records left add up to the nodes retired. |
| HazardScan.HazardDomain.OutstandingHazardPointersFor | common/hazard_pointers/hazard_pointers.hpp:23-29 | The answer is true exactly if a slot from `start_cid` on publishes the pointer. |
| HazardScan.HazardDomain.AddToReclaimList | common/hazard_pointers/hazard_pointers.hpp:45-50 | On linked records, and however often the weak exchange fails for no reason: the cells reached from `node_to_reclaim` are then the new record followed by those of before, in order, ending in null and none twice. |
| HazardScan.HazardDomain.Retire | common/hazard_pointers/hazard_pointers.hpp:52-56 | A new record that names the node heads the chain, the chain behind it is the old one, and `reclaim_cnt` stays the number of records in the chain. |
| HazardScan.HazardDomain.DeleteNodesWithNoHazards | common/hazard_pointers/hazard_pointers.hpp:58-73 | An undisturbed pass, which relinks records while it walks their chain, deletes the unprotected nodes in list order, leaves a well-formed chain of old records with the protected ones in reverse order, and `reclaim_cnt` stays their number. |
| HazardScan.PassPartitions | common/hazard_pointers/hazard_pointers.hpp:58-73 | The nodes kept and the nodes deleted are together those that were in the list, with multiplicity. |
| HazardScan.PassSelects | common/hazard_pointers/hazard_pointers.hpp:58-73 | A node is kept if and only if a scanned slot publishes it, and deleted if and only if none does. |
| HazardScan.PassBound | common/hazard_pointers/hazard_pointers.hpp:58-73 | An undisturbed pass over distinct nodes leaves at most `max_hazard_pointers` - `start_cid` records. |
| HazardStackReclaim.UndisturbedPassBound | common/hazard_pointers/hazard_pointers.hpp:58-73 | The nodes waiting in the shared list are distinct in every reachable state of the concurrent model, so that bound holds of a pass begun in any of them. |
| MsQueueProof.InitInv | benchmark/nonblocking/AdaLockfree/CAS_16/unbounded_queues.adb:97-104 | `Initialize` leaves a list with one dummy in which the invariant holds. |
| MsQueueProof.StepInv | benchmark/nonblocking/AdaLockfree/CAS_16/unbounded_queues.adb:20-91 | Every atomic step of `Enqueue`, `Dequeue` and `Empty` keeps the list invariant: `First` never passes `Last`, `Last` is the final node or the one before it, and the tag of `First` and `Last` is the link-order index of their node modulo the width of the tag. |
| MsQueueProof.AdvanceLast | benchmark/nonblocking/AdaLockfree/CAS_16/unbounded_queues.adb:43-50 | An exchange on `Last` that succeeds was compared against the word of the node `Last` still is at, so `Last` moves on by exactly one node and its tag counts on with it. |
| MsQueueProof.LinkOkList | benchmark/nonblocking/AdaLockfree/CAS_16/unbounded_queues.adb:37-41 | A link exchange that succeeds appends behind the final node, which is the node `Last` is at. |
| MsQueueProof.TakeOkList | benchmark/nonblocking/AdaLockfree/CAS_16/unbounded_queues.adb:79-84 | An exchange on `First` that succeeds moves it on by exactly one node and not past `Last`. |
| MsQueueFifo.StepEffect | benchmark/nonblocking/AdaLockfree/CAS_16/unbounded_queues.adb:20-91 | What each step does to the abstract queue of linked elements and to that of the elements `Last` has reached: the link appends to the first, the swing of `Last` moves the next one into the second, the exchange on `First` takes the oldest out of both and returns it, and no other step changes either. |
| MsQueueFifo.FirstInFirstOut | benchmark/nonblocking/AdaLockfree/CAS_16/unbounded_queues.adb:20-91 | In every run the elements linked so far, in link order, are those dequeued so far, in order, followed by those in the queue: values leave in link order, each at most once. |
| MsQueueCalls.FalseHasWitness | benchmark/nonblocking/AdaLockfree/CAS_16/unbounded_queues.adb:171-179 | `False` means a state inside that very call in which no element that `Last` had reached was left, and, unless the wrapper's `Empty` gave the answer, one in which no linked element was left. |
| MsQueueCalls.EmptyTestExact | benchmark/nonblocking/AdaLockfree/CAS_16/unbounded_queues.adb:121-124 | The whole-word comparison of `First` and `Last`, read at two different steps, is true exactly when `Last` still is at the node `First` was at, and then no element `Last` has reached is left. |
| MsQueueValues.EnqueueLinks | benchmark/nonblocking/AdaLockfree/CAS_16/unbounded_queues.adb:20-51 | Every `Enqueue` that returns has linked its argument behind all others at a step of that very call, be the exchange strong or weak. |
| MsQueueValues.EnqueueTakesEffect | benchmark/nonblocking/AdaLockfree/CAS_16/unbounded_queues.adb:20-51 | With a strong exchange it also has a step inside its call at which the queue of the elements `Last` has reached grew by its argument. |
| MsQueueValues.DequeueTakesEffect | benchmark/nonblocking/AdaLockfree/CAS_16/unbounded_queues.adb:61-91 | True with an element means a step inside that very call at which just this element was taken off the front of the queue. |
| MsQueueValues.CallsEnd | benchmark/nonblocking/AdaLockfree/CAS_16/unbounded_queues.adb:20-91 | A call of `Enqueue` ends only after its node is linked, and one of `Dequeue` only with an answer. |
| MsQueueProgress.EnqueueRetries | benchmark/nonblocking/AdaLockfree/CAS_16/unbounded_queues.adb:31-47 | Lock freedom over runs, with a strong exchange: when `Enqueue` goes round its loop again, then since the load in that very attempt of the word that has changed another thread has linked a node (if its link failed) or swung `Last`. |
| MsQueueProgress.DequeueRetries | benchmark/nonblocking/AdaLockfree/CAS_16/unbounded_queues.adb:65-88 | Likewise `Dequeue`: since it loaded `First`, another thread has taken an element, or since it loaded `Last`, swung it. |
| MsQueueProgress.StepGetsOn | benchmark/nonblocking/AdaLockfree/CAS_16/unbounded_queues.adb:20-91 | Every step of a thread in a call brings it nearer to the end of the call, unless it goes round its loop. |
| MsQueueProgress.CallsGetOn | benchmark/nonblocking/AdaLockfree/CAS_16/unbounded_queues.adb:20-91 | In every run each thread in a call has such a step, so no call is ever stuck. |
| MsQueueWeak.IdleShowsAllIff | common/atomic_intrinsic/ada/atomic_intrinsic.ads:31-39 | For tags of every width: a queue at rest shows all its elements to `Empty` in every run exactly if the exchange cannot fail spuriously. |
| MsQueueWeak.WeakHidesElement | benchmark/nonblocking/AdaLockfree/CAS_16/unbounded_queues.adb:49-50 | The run that fails, for tags of every width: one thread alone enqueues any value, returns, and is told by the wrapper that the queue is empty, while the value is linked. |
| MsQueueWeak.PrintSize | benchmark/nonblocking/AdaLockfree/CAS_16/unbounded_queues.adb:144-155 | Counts the elements `Last` has reached, which on a queue at rest with a strong exchange are all. |
| TaggedPointer.SetPtr | common/tagged_pointers/tagged.c:10-11 | Writes the pointer and leaves the count of the word alone. |
| TaggedPointer.PartsAre | common/tagged_pointers/tagged.c:4-14 | The pointer is the lower 48 bits of the word as a number and the count the upper 16. |
| TaggedPointer.RoundTrip | common/tagged_pointers/tagged.c:7-17 | A word is what its two parts make, and packing returns 48 bits of pointer and 16 bits of count. |
| TaggedPointer.EqualIff | common/tagged_pointers/tagged.c:16-17 | Two packed words are equal if and only if pointers and counts agree in the bits they keep, so comparing words compares both parts. |
| TaggedPointer.CountWraps | benchmark/nonblocking/AdaLockfree/CAS_8/unbounded_queues.adb:40-52 | Counting on in a packed word wraps at 2^16, which is the modulus of the tags in the packed queue. |
| FairLock.StepInv | benchmark/blocking/Taubenfeld/fair_lock_sc.cpp:40-92 | Every access keeps the invariant: while `group` is what a waiting thread has read, no thread it has passed carries the other value. |
| FairLock.FlipIsSafe | benchmark/blocking/Taubenfeld/fair_lock_sc.cpp:62-65 | Whenever `group` flips from b to 1 - b, no thread carries 1 - b. |
| FairLock.MutualExclusion | benchmark/blocking/Taubenfeld/fair_lock_sc.cpp:67-77 | At most one thread is between `lock` and `unlock`. |
| FairLockFair.OvertakesAtMostOnce | benchmark/blocking/Taubenfeld/fair_lock_sc.cpp:40-65 | From the end of its doorway until a thread leaves its fair section, no other thread gets into a second fair section of rounds begun after that moment. |
| FairLockFair.FreeStepAdvances | benchmark/blocking/Taubenfeld/fair_lock_sc.cpp:49-92 | Every step of a thread that is not blocked brings it nearer to the end of its round. |
| FairLockFair.BlockedStepSpins | benchmark/blocking/Taubenfeld/fair_lock_sc.cpp:49-60 | A step of a blocked thread changes nothing but its place in the same waiting loop. |
| FairLockFair.BlockedByActive | benchmark/blocking/Taubenfeld/fair_lock_sc.cpp:49-74 | Whoever is blocked waits for a thread that is under way, and of which kind. |
| FairLockFair.Progress | benchmark/blocking/Taubenfeld/fair_lock_sc.cpp:49-92 | In every reachable state with an active thread, some active thread has a step that brings it nearer to the end of its round. |
| FairLockFair.EnabledLooksNoFurther | benchmark/blocking/Taubenfeld/fair_lock_sc.cpp:49-61 | Once `group` has turned away from a thread's value, the thread waits for nobody further along: it breaks off at the head of the next index. |
| FilterLock.StepInv | benchmark/blocking/FilterLock/filter_lock_sc.cpp:21-106 | Every access of `lock`, `unlock`, the reset and the barrier keeps the invariant: as long as threads compete at a level nobody has reset since, its victim is one of them and not past the level while another is there. |
| FilterLockSafety.FilterBound | benchmark/blocking/FilterLock/filter_lock_sc.cpp:21-72 | For every n and every interleaving with each load of a level a separate step, and with the resets of the driver in between, at most n - l threads are past level l. |
| FilterLockSafety.PastBound | benchmark/blocking/FilterLock/filter_lock_sc.cpp:103-106 | The bound behind it: the threads past level l, the levels up to l that nobody has reset again, and the threads that have begun the next reset are together at most n, unless only one is past. |
| FilterLockSafety.MutualExclusion | benchmark/blocking/FilterLock/filter_lock_sc.cpp:74-83 | At most one thread is in the critical section. |
| FilterLockSafety.ResetterIsAhead | benchmark/blocking/FilterLock/driver.cpp:45-60 | Whoever resets while others compete is exactly one round ahead of them. |
| FilterLockSafety.CountersClose | common/barrier/barrier.cpp:21-27 | The counters of the barrier never differ by more than one. |
| FilterLockProgress.FreeStepAdvances | benchmark/blocking/FilterLock/filter_lock_sc.cpp:21-72 | Every step of a thread that does not have to wait, be it locking, resetting or at the barrier, brings it nearer to the critical section or the end of the reset, in a well-founded order. |
| FilterLockProgress.BlockedStepSpins | benchmark/blocking/FilterLock/filter_lock_sc.cpp:44-47 | A step of one that may have to wait does too, or leaves levels, victims and counters alone. |
| FilterLockProgress.SomeoneGoes | benchmark/blocking/FilterLock/filter_lock_sc.cpp:44-47 | No deadlock: in every reachable state some thread has a step that brings it nearer, or may begin something new, and one that competes if any does. |
| ClhLock.StepInv | benchmark/blocking/CLHQueueLock/clhqueue_lock_sc.cpp:17-26 | Every access keeps the chain of the queue: each waiting thread polls the node of the one before it, the head polls the spare node, and the tail is the node of the last. |
| ClhLock.MutualExclusion | benchmark/blocking/CLHQueueLock/clhqueue_lock_sc.cpp:17-26 | At most one thread is in the critical section. |
| ClhLock.FirstComeFirstServed | benchmark/blocking/CLHQueueLock/clhqueue_lock_sc.cpp:19-20 | In every run the sequence of entries is a prefix of the sequence of exchanges on `tail`. |
| ClhLock.NodesArePermutation | benchmark/blocking/CLHQueueLock/clhqueue_lock_sc.cpp:23-26 | The n + 1 nodes stay a permutation: each belongs to exactly one thread or is the spare one. |
| ClhLock.LocksOwnNode | benchmark/blocking/CLHQueueLock/clhqueue_lock_sc.cpp:17-18 | A node about to be locked is not the tail, no other thread owns it, and no other thread polls it. |
| ClhLock.StepGetsOn | benchmark/blocking/CLHQueueLock/clhqueue_lock_sc.cpp:17-26 | Polling a locked node changes nothing, and every other step of a lock and unlock is one less to do. |
| ClhLock.HeadGoes | benchmark/blocking/CLHQueueLock/clhqueue_lock_sc.cpp:20 | No deadlock: in every run the thread at the head of the queue has a step that brings it on. |
| ArrayLockProof.StepInv | benchmark/blocking/ArrayLock/arraylock_sc.cpp:15-43 | Every access of the lock, its initialisation and the barrier keeps the invariant: the tickets out are those from the one being served to the counter, each held by one thread, and one flag is up, that of the ticket being served, or none during a hand-over. |
| ArrayLockProof.MutualExclusion | benchmark/blocking/ArrayLock/arraylock_sc.cpp:15-25 | At most one thread is between the end of `lock` and the end of `unlock`, in all rounds. |
| ArrayLockProof.EntersInTicketOrder | benchmark/blocking/ArrayLock/arraylock_sc.cpp:15-20 | A thread enters with the ticket that follows those served since the initialisation; all others have later tickets and different slots, although tickets are reduced modulo n. |
| ArrayLockProof.Window | benchmark/blocking/ArrayLock/arraylock_sc.cpp:16 | No more tickets are out than there are threads. |
| ArrayLockProof.InitNeverOverlaps | benchmark/blocking/ArrayLock/driver.cpp:46-57 | Only thread 0 initialises the lock, and while it does no thread is in `lock` or `unlock`, in all rounds. |
| ArrayLockProof.CountersClose | common/barrier/barrier.cpp:21-27 | The counters of the barrier never differ by more than one. |
| ArrayLockProgress.FreeStepAdvances | benchmark/blocking/ArrayLock/arraylock_sc.cpp:15-43 | Every step of a thread that does not have to wait, in the lock, its initialisation or the barrier, brings it nearer to the end of what it is doing. |
| ArrayLockProgress.BlockedStepSpins | benchmark/blocking/ArrayLock/arraylock_sc.cpp:17-18 | And a step of one that has to wait changes nothing. |
| ArrayLockProgress.SomeoneGoes | benchmark/blocking/ArrayLock/driver.cpp:40-62 | No deadlock: in every reachable state some thread has a step that brings it nearer, or may begin something new, and one in `lock` or `unlock` if any is. |
| BQueueProof.StepInv | benchmark/nonblocking/BQueue/fifo.c:75-195 | Every access to `data`, in every variant, keeps the ring: each slot holds what was produced for it and not yet consumed, and 0 otherwise, and what either side may touch unchecked is free, or full. |
| BQueueProof.BatchFree | benchmark/nonblocking/BQueue/fifo.c:79-89 | A free slot one batch ahead of the producer means that the whole batch is free, and one slot more if the ring has room for two batches. |
| BQueueProof.WriteRing | benchmark/nonblocking/BQueue/fifo.c:91-95 | The slot written was empty, and the ring then holds one value more. |
| BQueueCalls.ConsumedIsPrefix | benchmark/nonblocking/BQueue/fifo.c:75-195 | The consumed values are a prefix of the produced ones, and never more are in the ring than it has slots. |
| BQueueCalls.BatchedNeverFills | benchmark/nonblocking/BQueue/fifo.c:75-98 | The batched producer leaves at least one slot empty in a ring of two batches or more. |
| BQueueCalls.DataIsNeverZero | benchmark/nonblocking/BQueue/fifo.c:173-179 | `dequeue` returns as data the oldest value produced and not yet consumed, which is never 0. |
| BQueueCalls.FullMeansFull | benchmark/nonblocking/BQueue/fifo.c:84-89 | The producer's probe succeeds exactly when there is room: for one value, or for a batch and a slot to spare. |
| BQueueCalls.PlainEmptyMeansEmpty | benchmark/nonblocking/BQueue/fifo.c:184-187 | The plain `dequeue` reports an empty ring exactly when it is empty. |
| BQueueCalls.BatchedEmptyMeansFew | benchmark/nonblocking/BQueue/fifo.c:151-155 | The batched one without backtracking reports it exactly when no value lies a batch ahead, or at the start of the ring if that is nearer. |
| BQueueCalls.GrantedSlotsFull | benchmark/nonblocking/BQueue/fifo.c:158-162 | The `batch_tail` chosen lies ahead of `tail`, and every slot before it is full. |
| BQueueCalls.EnqueueAnswers | benchmark/nonblocking/BQueue/fifo.c:75-111 | Over runs, what `enqueue` answers was so at a step of that very call: success, and its argument was appended then, or full, and there was no room. |
| BQueueCalls.DequeueAnswers | benchmark/nonblocking/BQueue/fifo.c:167-195 | And what `dequeue` answers: the oldest value, taken out then, or empty, and no value was there, or none as far ahead as the batched one looks. |
| BQueueBacktracking.ReportsEmptyIff | benchmark/nonblocking/BQueue/fifo.c:134-146 | For every batch size and ring size: some run lets `dequeue` report an empty ring exactly in the variants without backtracking. |
| BQueueBacktracking.EmptyDequeueWaits | benchmark/nonblocking/BQueue/fifo.c:133-149 | The failing case: with backtracking, a dequeue begun on an empty ring, of a size that never overwrites, is still probing in every later state of every run up to the first write. |
| BQueueBacktracking.ZeroRingWaits | benchmark/nonblocking/BQueue/fifo.c:133-149 | So is one begun on a ring whose slots are all 0, for every batch size and ring size. |
| BQueueBacktracking.ProbeGoesOn | benchmark/nonblocking/BQueue/fifo.c:133-149 | A probe on an empty ring always goes on, and once the batch is halved to nothing a probe goes on exactly while the ring is empty. |
| BQueueBacktracking.BatchIsHalved | benchmark/nonblocking/BQueue/fifo.c:133-142 | Over runs: after n probes in vain the batch is the history divided by 2^n, and the next probe looks that far ahead. |
| BQueueBacktracking.ProbeSucceeds | benchmark/nonblocking/BQueue/fifo.c:143-162 | When a probe then succeeds, `batch_tail` lies that far ahead of `tail`, or at the start of the ring, or one ahead, and the adaptive variant remembers just that batch. |
| BQueueBacktracking.WidensByHalf | benchmark/nonblocking/BQueue/fifo.c:121-129 | At the end of the ring the adaptive variant widens its history by half a batch, up to a batch, and nowhere else. |
| BQueueBacktracking.HalvingsBounded | benchmark/nonblocking/BQueue/fifo.c:133-149 | In every run, a dequeue that starts on a ring that is not empty probes in vain, and halves, at most floor(log2 of the history) + 1 times, or once if the history is 0, for any wrap position, and the history stays within the batch size. |
| BQueueBacktracking.HalvingsIsLog | benchmark/nonblocking/BQueue/fifo.c:138 | The bound is that logarithm. |
| BQueueRoom.NeverOverwritesIff | benchmark/nonblocking/BQueue/fifo.h:36-40 | For every batch size and ring size, and every variant: no full slot is overwritten in any run exactly if the producer is not batched, the ring has room for two batches, or a batch is one slot. |
| BQueueRoom.Overwrites | benchmark/nonblocking/BQueue/fifo.c:79-91 | The state that fails, for every batch size of two or more and every kind of consumer. |
| BQueueOps.Ring.constructor | benchmark/nonblocking/BQueue/fifo.c:60-66 | An empty ring. |
| BQueueOps.Ring.Enqueue | benchmark/nonblocking/BQueue/fifo.c:75-111 | On the array, one call at a time: appends the value, or fails and changes nothing; plain exactly when the ring is full, batched only when no batch fits. |
| BQueueOps.Ring.Backtracking | benchmark/nonblocking/BQueue/fifo.c:116-165 | With backtracking, on a ring that is not empty, it stops at the first full slot of the halved distances, within the bound; without, it looks once a batch ahead. `batch_tail` and `batch_history` are then what that distance and that batch are. |
| BQueueOps.Ring.Dequeue | benchmark/nonblocking/BQueue/fifo.c:167-195 | Takes the oldest value, or fails and changes nothing; plain exactly when the ring is empty. |
| HashTable.GrowingHashmap.constructor | benchmark/tsx/HashTable/hash_table.adb:120-126 | `Init` makes an empty table of the given size, with room to insert into if that is 4 or more. |
| HashTable.GrowingHashmap.FindSlot | benchmark/tsx/HashTable/hash_table.adb:162-178 | Returns the first slot, counting from that of the hash modulo the size and around the table, that is free or has the key; failing means that all slots are used and the key is not stored. |
| HashTable.FoundIffStored | benchmark/tsx/HashTable/hash_table.adb:166-171 | The slot found is used exactly if the key is stored, and then holds its value. |
| HashTable.GrowingHashmap.SecondInsert | benchmark/tsx/HashTable/hash_table.adb:139-148 | Acts on the finite map as one update, and fails exactly if the table is full and the key new. |
| HashTable.GrowingHashmap.Lookup | benchmark/tsx/HashTable/hash_table.adb:150-160 | Answers as the finite map does, fails exactly if the table is full and the key not stored, and so never while the table has room. |
| HashTable.GrowingHashmap.Clean | benchmark/tsx/HashTable/hash_table.adb:210-217 | Makes the map empty and keeps the room; the item counter stays. |
| HashTable.GrowingHashmap.CheckResize | benchmark/tsx/HashTable/hash_table.adb:180-208 | Doubles the table exactly if the load factor is above 0.7, keeps all pairs, never takes the branch of a corrupt key, and never fails to find a slot. |
| HashTable.GrowingHashmap.FirstInsert | benchmark/tsx/HashTable/hash_table.adb:112-117 | The check followed by the count, with the map unchanged. |
| HashTable.GrowingHashmap.CountedInsert | benchmark/tsx/HashTable/hash_table.adb:112-148 | `g_First_Insert` followed by `Second_Insert` on a table with room always succeeds, updates the map at that key, and leaves room: from `Init` with a size of 4 or more one task never meets the failing assertion. |
| HashTable.FreeIff | benchmark/tsx/HashTable/hash_table.adb:166-176 | A free slot exists exactly if fewer pairs than slots are stored. |
| HashTable.PutTable | benchmark/tsx/HashTable/hash_table.adb:142-147 | Writing to the slot found keeps every stored pair findable by probing and updates the map at that key only. |
| HashTasks.NeverFailsIff | benchmark/tsx/HashTable/hash_table.adb:176 | `t` tasks that insert, look up and clean in any interleaving never reach the failing assertion exactly if 10 t < 3 n, n the initial size. |
| HashTasks.FreeSlotRemains | benchmark/tsx/HashTable/hash_table.adb:188-192 | Then a free slot remains in every reachable state, also when all insertions under way have been done. |
| HashTasks.Fails | benchmark/tsx/HashTable/hash_table.adb:112-117 | Otherwise a reachable state in which it has failed, because the check and the count are separate steps. |
| HashTasks.PutsArguments | benchmark/tsx/HashTable/hash_table.adb:112-148 | Over runs, `Second_Insert` stores just the key and value that its task was called with. |
| HashTasks.FindableIff | benchmark/tsx/HashTable/hash_table.adb:162-178 | The probing of `Find_Slot` on the slots succeeds exactly when the tasks' model says so of the map and the size. |
| HashTasks.Execute | benchmark/tsx/HashTable/hash_table.adb:112-217 | Any run of the tasks, carried out operation by operation on the slots of a new table, agrees with the model in size, count and map, and meets the failing assertion exactly if the model does; with 10 t < 3 n it never does, and a slot is free at the end. |
| MersenneTwister.Random.Seed | benchmark/tsx/kmeans/random.adb:4-14 | The state holds the first 624 terms of the recurrence for that seed, and nothing has been drawn. |
| MersenneTwister.Random.Refresh | benchmark/tsx/kmeans/random.adb:28-37 | The three segments, computed in place with the wrapped index `kk+(M-N)`, replace 624 consecutive terms of the unbounded recurrence by the next 624. |
| MersenneTwister.Random.Generate | benchmark/tsx/kmeans/random.adb:16-51 | Returns the tempered next term, seeding with 5489 first if the state is marked as not seeded. |
| MersenneTwister.Draw | benchmark/tsx/kmeans/random.adb:4-51 | For every seed and every k, the k-th number is the tempered term 624 + k of the recurrence of `std::mt19937`. |
| MersenneStandard.Recurrence | benchmark/tsx/kmeans/random.adb:28-37 | The terms: the seed, 623 made from it, and then each from those 624, 623 and 227 before it. |
| MersenneStandard.SeedingStep | benchmark/tsx/kmeans/random.adb:7-11 | The seeding step is multiplication by 0x6c07_8965 of the word with its last two bits flipped by the top two, plus the index. |
| MersenneStandard.DefaultSeed | benchmark/tsx/kmeans/random.adb:25-27 | The words after the seed 5489 are 1301868182, 2938499221 and 2950281878. |
| MersenneStandard.TwistIs | benchmark/tsx/kmeans/random.adb:20-30 | What the step makes of any three words, in the numbers of the standard. |
| MersenneStandard.TwistBits | benchmark/tsx/kmeans/random.adb:20-30 | Its values on single words, as literals. |
| MersenneStandard.TemperBits | benchmark/tsx/kmeans/random.adb:43-46 | What tempering makes of each of the 32 bits, as literals. |
| MersenneTwister.TemperInvertible | benchmark/tsx/kmeans/random.adb:43-46 | Tempering is a bijection on words. |
| DiningPhilosophers.ForkOrderIff | benchmark/tsx/DiningPhilosophers/dining_philosophers.adb:48-52 | Both forks exist and `First` is below `Second` for all philosophers exactly if there are at least two. |
| DiningPhilosophers.StepInv | benchmark/tsx/DiningPhilosophers/dining_philosophers.adb:11-24 | Every step keeps each fork free or with exactly one holder. |
| DiningPhilosophers.NeighboursNeverEatTogether | benchmark/tsx/DiningPhilosophers/dining_philosophers.adb:48-67 | In every run two philosophers side by side never have both their forks at the same time. |
| DiningPhilosophers.SomeoneGoes | benchmark/tsx/DiningPhilosophers/dining_philosophers.adb:55-67 | As long as somebody has not finished, somebody who has not finished can go on. |
| DiningPhilosophers.MovesBounded | benchmark/tsx/DiningPhilosophers/dining_philosophers.adb:55-67 | In every run the steps that are not mere waiting and those still to do add up to four for each meal of each philosopher. |
| DiningPhilosophers.GoesOnOrEnds | benchmark/tsx/DiningPhilosophers/dining_philosophers.adb:44-71 | In every reachable state somebody has a step that is one less to do, or all have finished and all forks are free. |
| KMeansProof.StepInv | benchmark/tsx/kmeans/cluster.adb:40-79 | Every step of the tasks and of the main loop keeps the division of work: each chunk below the shared index has one task or is done. |
| KMeansProof.EachPointOnce | benchmark/tsx/kmeans/cluster.adb:117-136 | In every round and every interleaving, each point has been passed to `Write_Points` exactly once when the centres are collected. |
| KMeansProof.NoPointTwice | benchmark/tsx/kmeans/cluster.adb:46-71 | And at no moment of a round more than once. |
| KMeansProof.CountsAreMemberships | benchmark/tsx/kmeans/types.adb:49-55 | The count of each cluster is then the number of points that `Membership` gives it. |
| KMeansProof.MembershipIsGiven | benchmark/tsx/kmeans/cluster.adb:46-71 | And `Membership` has for each point the cluster it was given to at the one step of this round that wrote it. |
| KMeansProof.NeverStuck | benchmark/tsx/kmeans/cluster.adb:117-149 | Until the main loop is done, it or the task it waits for has a step. |
| KMeansRounds.RoundEnds | benchmark/tsx/kmeans/cluster.adb:40-149 | Every round ends, and in every interleaving after the same number of steps: in each state of a round the steps done and those left add up to 3 n + 1 + points + 2 chunks (3 n + 2 without points), and the centres are collected exactly when none is left. |
| KMeansProof.CountsSumToPoints | benchmark/tsx/kmeans/types.adb:4-7 | The counts of the clusters add up to the number of points. |

## Left out

- The concurrent algorithms are values with steps, not objects updated in place: aliasing between C++ or Ada
  objects is modelled only where the algorithm is about it (the heap of the stack, the nodes of the CLH lock).
- The `_ar` variants, memory orders and fences: they need a weak-memory model; all models are sequentially
  consistent.
- More than 28 threads on the array lock: its flags are an array of `MAX_NR_THREADS`, while the driver admits
  up to 4096 threads; the model has as many flags as threads.
- A task of the hash table whose `Assert (False)` fails goes on in the model; in the code the exception ends it.
  Nothing is claimed of a run after the first failure.
- Overflow of tickets, barrier counters, `reclaim_cnt`, the ring indices of the B-Queue (below 2^32 for any
  sensible size) and the size of the hash table (below 2^31): unbounded integers.
- `Free` in the Michael-Scott queue, `Length`, `Max_Length`, which nothing updates, and `Finalize`. Nodes have
  identities that are never reused; with `Free` the tags do not protect, since nodes start with tag 0.
- Values enqueued into the B-Queue are not 0, which marks an empty slot; the code does not check it.
- The nearest cluster in k-means, the sums of the features, the division of centres and `Delta` are floating
  point; points are counted, and the nearest cluster is any.
- The number of rounds of k-means (501) and of executions of the drivers: any number, in any order of steps.
- `Joaat_Hash` on concrete bytes: the hash is any function of the key.
- The fixed-size `Hashmap`, whose operations are those of the growing table without the growth.
- Freeing the nodes of the CLH lock between executions, and its driver.
- The test-and-set, TATAS, mutex, POSIX and protected-object locks, the Peterson lock (a filter lock of
  two threads), the mutex stack and the lock-guarded list queue: they would add only easier members.
- Boost and Ada library queues, the lock-elision patch of the run-time system, timers, statistics, command
  lines and plotting scripts.
