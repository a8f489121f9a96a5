# Verification of the user-level thread library and its protocols

This project models, in Dafny, the cooperative thread library of the sel4test driver and the client/server
protocols built on it, and proves properties of the model. `dafny verify dfyconfig.toml` checks everything.

What is modelled is the compiled configuration: GREEN_THREAD with GREEN_FAST and GREEN_VERY_FAST, the token ring
(WAIT_SEND_WAIT), and beside it the bounded buffer (CONSUMER_PRODUCER) and the event-driven server with
continuations (EVENT_CONTINUATION).

| module (file) | what it is |
|---|---|
| `Scheduler` | the library's operations on thread ids: one running thread, a FIFO ready queue, one FIFO wait queue per primitive; the invariant and the exact guard of each operation |
| `Queues`, `ThreadPool` (Pool) | the same operations on the heap: links whose `next` may be stale, queues delimited by their end pointer, the thread table and counters, refining `Scheduler` |
| `Turns` | one turn of each blocking call, up to its sleep or its end; the transition systems and the heap objects both use these |
| `SyncPrims` | locks, semaphores and condition variables as a transition system over `Scheduler`, with all the barging the retry loops allow |
| `SyncObjects` | the same calls, the buffer and the ring's server as objects changed in place on the heap, one turn of a retry loop at a time |
| `Ring`, `Buffer` | the two client/server protocols as transition systems, started by `Boot`; `Counting` has their sums and pigeonholes |
| `Joins`, `JoinLists`, `JoinObjects` | joining: the transition system, the list of join blocks, and the pool with its lists and blocks on the heap, refining `Joins` |
| `WaitLists`, `WaiterLists` | the older global waiter list (GREEN_SLOW) as the specification of the per-primitive queues |
| `PrimRegistry` (Registry) | the doubly linked list of all primitives |
| `Continuations`, `EventRounds` | the rings of saved requests, and the event-driven protocol of client, server and helper |
| `Registration` | the registration barrier (INIT) |
| `Untypeds` | the greedy allocation of untyped memory |
| `Context` | the assembly of the context switch on a machine with word-addressed memory |
| `Sequences` | facts about duplicate-free sequences |

A step of a transition system is what the running thread does up to the next switch to another thread, since the
threads are cooperative. `Enabled`, `Step`, `CanRun` and `After` have this meaning in every module. A lemma about a
run from the start asks for the start to satisfy the invariant only so that `CanRun` is defined; a lemma named
`StartIs...` or `StartKeeps` proves it.

## What the code does that one might not expect

- The exit and the yield with nothing ready return to the boot thread but leave `t_running` at the old thread
  (thread_lib.c:1420-1425, 1464-1467). `Scheduler.LegalExactly` shows that this is exactly what breaks the invariant,
  and `Scheduler.BootResumeRequeuesExited` gives the consequence. The heap operations execute these returns as well,
  and runs of `Joins` go on with the boot thread's joins that return; other runs stop there.
- `thread_lib.h` (line 292) says that `thread_resume` also resumes waiting threads; `ready_to_running` asserts that a
  thread is ready and then fails to find a waiting one. The model follows the code: resuming is legal exactly for
  ready threads.
- `thread_lib.h` describes `thread_yield` as waiting for a token; the code resumes the head of the ready queue.
- The comment on `get_new_id` (thread_lib.c:90-94) promises 0 when no id is left, but the code counts on and
  `thread_create` does not check the size of its table; here a create beyond the table fails, and creating is legal
  exactly below it.
- `thread_wakeup` never lowers `waiting_num` (thread_lib.c:1121-1160), so it counts sleepers plus all wake-ups so far;
  that is what the invariant says, with the wake-ups in a history variable.
- Appending a link to an empty queue keeps its stale successor (thread_lib.c:228-241), and the search of a queue runs
  to null and not to the end pointer (thread_lib.c:392-425). It is made on the ready queue only, and there it is sound:
  the running link has a successor only while some thread is ready, so nothing ever hangs off the end of the ready queue
  (`ThreadPool.Pool.Valid`). On a wait queue it would go astray (`Queues.StaleSuccessor`).
- `thread_lock_release` does not check who holds the lock (sync_prim.c:151-156); `SyncPrims.ReleaseExactly` says when
  that is harmless, and `SyncPrims.StrangerReleases` gives a run in which it is not.
- Destroying a lock or semaphore asserts only that its queue is empty (sync_prim.c:98-111). A thread that was woken
  but has not run yet is in no queue and still uses it: `SyncPrims.DestroyExactly`, with a run in
  `SyncPrims.WokenOutlivesLock`.
- Initialising a primitive that is already registered ties the list of primitives into a cycle
  (`PrimRegistry.Registry.Initial`).
- A thread that yields, or whose join yields, with nothing ready returns to the boot thread but stays the running
  link. If the boot thread then has to wait in a join of its own, it hands over to that thread and the assertion of
  `thread_resume` (thread_lib.c:1447) fails: `Joins.LoopFailsExactly`, with a run in `Joins.YieldFailsJoin`. After a
  last exit the boot thread's joins return as they should (`Joins.AllExited`).
- A boot thread that sleeps while others are ready enters a wait queue like any thread, and can end up yielding to
  itself (`Scheduler.BootSleepStrands`). The guard of the sleep excludes it.
- With clients alternating between consuming and producing from number 0, no run of an odd number of them gets all
  through unless there are no rounds (`Buffer.AlternatingFinishes`); `Buffer.UnfitEnds` says where such a system ends.
- Only the last client of the ring ever terminates (`Ring.WhoFinishes`); the others stay blocked on their last token,
  which is why the driver stops at the first termination.
- A retrieve looks at the next slot to see whether more is queued, and is wrong exactly when the ring is full of
  entries in flight (`Continuations.RetrieveExactly`); `Continuations.FullRingRepeats` has it hand out a slot twice.
- The single client writes both of its counters to message register 0 (main.c:2181-2182), so the second register
  holds whatever was there; the model leaves that value open.
- The byte budget of the allocation is added up in 32 bits and is kept for every supply only below half the word
  (`Untypeds.BudgetKeptExactly`). From there on a size that may reach the end of the word is never refused
  (`Untypeds.LeftExactly`); the driver's second call passes the largest 32-bit number, and with it nothing is refused
  (`Untypeds.TakesAll`).

## Model

| member | source | states |
|---|---|---|
| Ring.NeverSpins | sel4test-driver/src/main.c:942-1082 | when the acquire of a token must sleep, some thread is ready, for any number of clients and rounds; so the sleep is never the no-op that would make the loop spin |
| Ring.Baton | sel4test-driver/src/main.c:942-1082 | in every state, the clients not blocked on a token and the free tokens are together exactly one |
| Ring.HolderOfBaton | sel4test-driver/src/main.c:1022 | while a client is not blocked every token is held and every other client is blocked, so no release hits a free token |
| Ring.RoundsTogether | sel4test-driver/src/main.c:2247-2265 | the numbers of releases of any two clients differ by at most one |
| Ring.StepKeeps | sel4test-driver/src/main.c:942-1082 | every WAIT, SEND_WAIT, TMNT and every turn of a woken acquire keeps queues, saved callers, tokens and counters consistent |
| Ring.StuckOnlyAtTheEnd | sel4test-driver/src/main.c:1118-1147 | if no step is possible the last client has terminated, all releases have been made and the wait count is clients times rounds |
| Ring.WhoFinishes | sel4test-driver/src/main.c:1085-1102 | only the client with the highest number ever reaches its last call, and then everybody has made all releases |
| Ring.SomeoneOutside | sel4test-driver/src/main.c:1122-1147 | a thread that receives always has a client that is not in a call |
| Ring.StepDescends | sel4test-driver/src/main.c:2219-2271 | with every step the sum of what the clients have left to do falls, and no client has more left than before |
| Ring.RunsEnd | sel4test-driver/src/main.c:2219-2271 | no run is longer than what the clients have left to do |
| Ring.StartIsStable | sel4test-driver/src/main.c:2806-2812 | the state with all tokens held, all threads at the receive and the last created thread running satisfies the invariant |
| Ring.FirstHandOver | sel4test-driver/src/main.c:2903-2904 | the first call, unless it is the last client's, dispatches thread 1 |
| Ring.StepRuns | sel4test-driver/src/main.c:942-1082 | what an event does to the scheduler is a guarded run of wake-up and sleep |
| Ring.RingAlways | sel4test-driver/src/main.c:2219-2271 | from the start, for any clients, rounds and order of calls: the baton is one, no two clients are more than a round apart, and the run is bounded |
| Ring.RingStopsComplete | sel4test-driver/src/main.c:2219-2271 | from the start, a run that cannot go on has done every round of every client |
| Ring.RingNeverSpins | sel4test-driver/src/main.c:942-1082 | over every run from the start, whenever the next step has to sleep on its token somebody is ready, and the step hands over to the head of the ready queue |
| Ring.CallsAnswered | sel4test-driver/src/main.c:1118-1147 | over every run from the start, each client has been answered once for every WAIT and SEND_WAIT it made, except for the one it is still in |
| Ring.SleeperKept | sel4test-driver/src/main.c:945-948 | over a run in which a thread is never dispatched, its saved caller and the place where it stands stay as they are |
| Ring.ReplyReachesCaller | sel4test-driver/src/main.c:1131-1147 | the reply after an acquire goes to the client whose call this thread saved, which is in that call; no other call is answered |
| Ring.SleeperUntouched | sel4test-driver/src/main.c:945-948 | while a thread sleeps no other thread changes its saved caller or where it stands |
| Buffer.StepKeeps | sel4test-driver/src/main.c:719-734 | for any limit and any mix of clients, every step keeps the buffer between 0 and the limit, the buffer equal to produces minus consumes, saved callers and clients in calls matched, and enough woken threads of each sleeping kind to use all room |
| Buffer.NeverBothAsleep | sel4test-driver/src/main.c:719-734 | producers and consumers are never both asleep with nobody woken |
| Buffer.NeverSpins | sel4test-driver/src/main.c:794-809 | if what is made and not taken fits the buffer, a blocked thread always finds another ready |
| Buffer.ThroughOnlyIfFits | sel4test-driver/src/main.c:2290-2333 | all clients can get through only if the surplus fits the buffer, and then exactly the surplus is left in it |
| Buffer.StuckOnlyAtTheEnd | sel4test-driver/src/main.c:686-893 | with a fitting surplus, if no step is possible all clients are through |
| Buffer.StepDescends | sel4test-driver/src/main.c:686-893 | every step but the turn of a spinning loop brings the system nearer its end, barging included, whether or not the surplus fits |
| Buffer.BufferRuns | sel4test-driver/src/main.c:686-893 | over every run from the start: the buffer stays within its bounds; all clients get through only if the surplus fits, and then the surplus is left; if it fits every run is bounded and one that cannot go on has got all clients through |
| Buffer.StartIsCore | sel4test-driver/src/lib_test.c:69-71 | the empty buffer with one server thread per client satisfies the invariant |
| Buffer.FinishesExactly | sel4test-driver/src/main.c:2288-2333 | some run from the start gets all clients through if and only if the surplus fits the buffer |
| Buffer.AlternatingFinishes | sel4test-driver/src/main.c:2288-2300 | with clients alternating as the driver starts them, some run gets all of them through exactly when their number is even or there are no rounds |
| Buffer.ReachesStill | sel4test-driver/src/main.c:686-893 | from every state the system can come to a standstill, in which only a spinning loop can still turn |
| Buffer.StillMeans | sel4test-driver/src/main.c:686-893 | at a standstill all clients are through exactly when the surplus fits |
| Buffer.UnfitEnds | sel4test-driver/src/main.c:719-726 | a system that does not fit comes to rest with nobody ready: its loop spins, or clients sleep in their calls and only a last exit to the boot thread is left |
| Buffer.WaitsCounted | sel4test-driver/src/main.c:719-726 | over every run the wait count grows by exactly one for each turn of the loop after a sleep |
| Buffer.WaitsPrinted | sel4test-driver/src/lib_test.c:73 | from the start half the number of clients is counted in advance |
| Buffer.StepRuns | sel4test-driver/src/main.c:686-893 | what an event does to the scheduler is a guarded exit, or a sleep among the own kind, or a wake-up of the other |
| Buffer.ReplyReachesCaller | sel4test-driver/src/main.c:719-734 | the reply goes to the client whose call this thread saved |
| Scheduler.LegalExactly | sel4test-driver/src/thread_lib.c:1066-1477 | under the invariant (each live thread in exactly one place, statuses and counters right) an operation passes its assertions and keeps the invariant if and only if its guard holds |
| Scheduler.RunKeepsInv | sel4test-driver/src/thread_lib.c:1066-1477 | the invariant holds after every run of guarded operations |
| Scheduler.BootResumeRequeuesExited | sel4test-driver/src/thread_lib.c:1420-1425 | the unguarded exit: after the last thread exits to the boot thread, a create and a resume put the exited thread back into the ready queue |
| Scheduler.BootSleepStrands | sel4test-driver/src/thread_lib.c:1066-1119 | the unguarded sleep of the boot thread: after five calls the boot thread runs again with nobody ready, and a yield fails the assertion on the running thread |
| Scheduler.StepTowardsHead | sel4test-driver/src/thread_lib.c:1082-1094 | a sleep, yield or exit moves every ready thread not dispatched exactly one place up; nothing moves one back |
| Scheduler.BoundedBypass | sel4test-driver/src/thread_lib.c:1431-1469 | over any run, the thread at place k of the ready queue runs within k + 1 dispatches of the head |
| Scheduler.NewPrimExactly | sel4test-driver/src/sync_prim.c:7-30 | initialising a primitive is safe exactly if nobody waits on it |
| Scheduler.DropPrimExactly | sel4test-driver/src/sync_prim.c:98-111 | taking a primitive away keeps the invariant exactly if nobody waits on it, which is what the code asserts |
| Scheduler.InitialInv | sel4test-driver/src/thread_lib.c:1215-1283 | the initial pool satisfies the invariant |
| Scheduler.StepRegisters | sel4test-driver/src/thread_lib.c:1066-1477 | each operation moves the waiting counter, the next id and the boot thread's status as the code does: only a sleep that finds somebody ready raises the counter, and a wake-up leaves it |
| Scheduler.CountersOverRuns | sel4test-driver/src/thread_lib.c:1121-1160 | over any run the waiting counter grows by the sleeps that found somebody ready and never falls, while the wait queues shrink by the wake-ups that found a waiter |
| Scheduler.ResumeOrder | sel4test-driver/src/thread_lib.c:1444-1477 | a resume takes its target out from wherever it stands and puts the caller behind everybody else, or sets the boot thread aside |
| Scheduler.WakeupWaitFrame | sel4test-driver/src/thread_lib.c:1164-1202 | the longest waiter runs in the caller's place, and the caller goes to the tail of the same queue |
| Boot.ThreadsFresh | sel4test-driver/src/main.c:2701-2712 | after creating k threads they are ready in the order of their ids and nobody waits |
| Boot.Booted | sel4test-driver/src/main.c:2903-2904 | resuming the thread created last gives a state that satisfies the invariant, with that thread running, the others ready in the order of their creation, the boot thread set aside and nobody ever having waited |
| Queues.LinkQueue.Append | sel4test-driver/src/thread_lib.c:228-241 | the link is appended; on an empty queue its stale successor is kept, and the queue is still exactly the path from start to end |
| Queues.LinkQueue.TakeHead | sel4test-driver/src/thread_lib.c:1083-1089 | the head is dispatched without clearing its successor |
| Queues.LinkQueue.ExtractFirst | sel4test-driver/src/thread_lib.c:536-557 | the head is taken off, null exactly on an empty queue |
| Queues.LinkQueue.ExtractThread | sel4test-driver/src/thread_lib.c:392-425 | the search follows the next pointers to a link of the thread or to null: a queued link is unlinked wherever it stands, null changes nothing, and a link found behind a stale end is cut out of wherever it is |
| Queues.StaleSuccessor | sel4test-driver/src/thread_lib.c:392-425 | the end of a wait queue can lead into the ready queue, and a search of the wait queue would cut a link out of the ready queue |
| ThreadPool.Pool.ThreadInitial | sel4test-driver/src/thread_lib.c:1215-1283 | the new pool on the heap is the initial scheduler |
| ThreadPool.Pool.ThreadSleep | sel4test-driver/src/thread_lib.c:1066-1119 | acts on the heap as the sleep does on the scheduler from any valid state; under the guard the pool stays valid |
| ThreadPool.Pool.ThreadWakeup | sel4test-driver/src/thread_lib.c:1121-1160 | acts on the heap as the wake-up does on the scheduler, and leaves the waiting counter alone |
| ThreadPool.Pool.ThreadWakeupWait | sel4test-driver/src/thread_lib.c:1164-1202 | acts on the heap as the changing of places does on the scheduler from any valid state; under the guard the pool stays valid |
| ThreadPool.Pool.ThreadCreate | sel4test-driver/src/thread_lib.c:1365-1378 | acts on the heap as the create does on the scheduler, under the next id |
| ThreadPool.Pool.ThreadResume | sel4test-driver/src/thread_lib.c:1444-1477 | acts on the heap as the resume does on the scheduler, whenever its assertions pass; under the guard the pool stays valid |
| ThreadPool.Pool.ThreadYield | sel4test-driver/src/thread_lib.c:1432-1441 | acts on the heap as the yield does on the scheduler, whenever its assertions pass, returning to the boot thread included; under the guard the pool stays valid |
| ThreadPool.Pool.ThreadExit | sel4test-driver/src/thread_lib.c:1382-1428 | acts on the heap as the exit does on the scheduler, whenever its assertions pass, returning to the boot thread included; under the guard the pool stays valid |
| ThreadPool.Pool.ReadyToRunning | sel4test-driver/src/thread_lib.c:513-532 | gives 1 exactly if the thread is ready, and then acts on the heap as the change from ready to running does; else it gives 0 after the status has been changed |
| ThreadPool.Pool.ExtractReady | sel4test-driver/src/thread_lib.c:392-425 | the search of the ready queue finds a link exactly if the thread is ready, since nothing stale ever hangs off the end of that queue |
| ThreadPool.Pool.WaitingToRunning | sel4test-driver/src/thread_lib.c:497-509 | status, running link and waiting count change, and nothing else |
| ThreadPool.Pool.RunningToReady | sel4test-driver/src/thread_lib.c:428-440 | acts on the heap as the change to ready does |
| ThreadPool.Pool.RunningToLockWaiting | sel4test-driver/src/thread_lib.c:484-493 | acts on the heap as the change to waiting does |
| ThreadPool.Pool.ExtractLockWaiting | sel4test-driver/src/thread_lib.c:639-649 | the longest waiter of the primitive is taken off its queue |
| ThreadPool.Pool.CreatePrim | sel4test-driver/src/sync_prim.c:7-15 | a new primitive has an empty wait queue and disturbs no other |
| SyncPrims.StepKeeps | sel4test-driver/src/sync_prim.c:117-160 | no wake-up is lost under any calls, the destroying of what is disused included: a free lock with waiters has a woken acquirer, a semaphore with waiters has at least count woken threads |
| SyncPrims.SemaphoreCounts | sel4test-driver/src/sync_prim.c:226-253 | over any run in which it is not destroyed the count of a semaphore is what it was, plus the Vs, minus the threads that came back from a P |
| SyncPrims.SemaphoreFromZero | sel4test-driver/src/sync_prim.c:190-205 | from its creation a semaphore has let back as many Ps as there were Vs, less its count |
| SyncPrims.StartKeeps | sel4test-driver/src/sync_prim.c:77-94 | freshly created locks, semaphores and conditions satisfy the invariant and mutual exclusion |
| SyncPrims.PendingWillRetry | sel4test-driver/src/sync_prim.c:124-129 | a woken thread still to retry is running or ready |
| SyncPrims.SpinsExactly | sel4test-driver/src/sync_prim.c:124-126 | a retry changes nothing, but that a condition waiter is in the acquire loop from then on, exactly when nobody is ready and the lock is held or the semaphore empty |
| SyncPrims.SpinsOn | sel4test-driver/src/sync_prim.c:124-126 | after one such retry every further one leaves the state as it is |
| SyncPrims.StepRuns | sel4test-driver/src/sync_prim.c:117-307 | what each call and each turn of a loop does to the scheduler is the guarded run of the scheduler's operations that it consists of |
| SyncPrims.YieldsToHead | sel4test-driver/src/thread_lib.c:1432-1477 | a yield runs the head of the ready queue and puts the caller behind everybody else, a resume runs the thread it names |
| SyncPrims.BoundedBypass | sel4test-driver/src/thread_lib.c:1431-1469 | whatever locks, semaphores and conditions do, the thread at place k of the ready queue runs within k + 1 dispatches of the head |
| SyncPrims.StepStands | sel4test-driver/src/sync_prim.c:117-307 | a step leaves other threads where they stand in their loops, and a new thread starts in none |
| SyncPrims.StepElsewhere | sel4test-driver/src/sync_prim.c:117-307 | a step leaves all other locks and their owners as they are |
| SyncPrims.FreeAlways | sel4test-driver/src/sync_prim.c:86-94 | in every run a lock that is not held records no thread, whoever releases it |
| SyncPrims.DestroyExactly | sel4test-driver/src/sync_prim.c:98-111 | destroying a lock or semaphore passes its assertion and leaves all loops sound if and only if its queue is empty and no woken thread or condition waiter will still look at it |
| SyncPrims.WokenOutlivesLock | sel4test-driver/src/sync_prim.c:98-111 | four calls of two threads lead to a lock with an empty queue that can be destroyed while a woken thread is still in its acquire loop |
| SyncPrims.ReleaseExactly | sel4test-driver/src/sync_prim.c:147-160 | a release keeps mutual exclusion if and only if the lock is free or the caller is the holder it records |
| SyncPrims.StrangerReleases | sel4test-driver/src/sync_prim.c:147-160 | three calls of two threads from the start lose mutual exclusion: one takes the lock and yields, the other releases it |
| SyncPrims.StepExclusive | sel4test-driver/src/sync_prim.c:117-160 | a lock is held exactly when one thread owns it, and helder is that thread, through every disciplined step |
| SyncPrims.RunExclusive | sel4test-driver/src/sync_prim.c:284-297 | the same over whole runs with condition waits |
| SyncPrims.ReturnsOwning | sel4test-driver/src/sync_prim.c:284-297 | an acquire or a condition wait returns only with the lock |
| SyncPrims.NoGapInCvWait | sel4test-driver/src/sync_prim.c:290-292 | release and sleep of a condition wait are one step: afterwards the caller is last in the queue of the condition, or nobody was ready and it holds the lock again |
| SyncPrims.SignalStep | sel4test-driver/src/sync_prim.c:299-307 | a signal moves each waiter one place up, and no other step moves one |
| SyncPrims.SignalsInOrder | sel4test-driver/src/sync_prim.c:299-307 | over any run the waiter at place k is woken by the signal k + 1 and no other |
| SyncObjects.Lock.AcquireTurn | sel4test-driver/src/sync_prim.c:117-132 | one turn of the acquire loop on the object and the pool: the grant or the sleep |
| SyncObjects.Lock.Release | sel4test-driver/src/sync_prim.c:147-160 | the lock is free and records nobody, and the longest waiter is ready |
| SyncObjects.Lock.CvWaitTurn | sel4test-driver/src/sync_prim.c:284-297 | release and sleep, or release and acquire if the sleep returns at once, whoever calls |
| SyncObjects.Semaphore.PTurn | sel4test-driver/src/sync_prim.c:226-237 | one turn of the P loop: the decrement or the sleep |
| SyncObjects.Semaphore.V | sel4test-driver/src/sync_prim.c:242-253 | the count rises by one and the longest waiter is ready |
| SyncObjects.BoundedBuffer.ProduceTurn | sel4test-driver/src/main.c:719-734 | one turn of the producer: the caller saved or the wait counted, and then the sleep, or one item more and a consumer woken |
| SyncObjects.BoundedBuffer.ConsumeTurn | sel4test-driver/src/main.c:794-809 | one turn of the consumer: the caller saved or the wait counted, and then the sleep, or one item less and a producer woken |
| SyncObjects.TokenServer.WaitTurn | sel4test-driver/src/main.c:942-963 | the caller is saved and the wanted token tried for |
| SyncObjects.TokenServer.SendWaitTurn | sel4test-driver/src/main.c:1003-1057 | the caller is saved, the wait counted, the provided token released and then the wanted one tried for |
| SyncObjects.RingTakesTurn | sel4test-driver/src/main.c:953-954 | the ring, recorded holders included, takes the same turns as the lock object |
| SyncObjects.RingSendsTurn | sel4test-driver/src/main.c:1003-1057 | a SEND_WAIT of the ring is the turn of the server object: saved caller, wait count, both tokens and the scheduler |
| SyncObjects.BufferTakesTurn | sel4test-driver/src/main.c:719-809 | the bounded buffer takes the same turns as the buffer object |
| SyncObjects.BufferSaves | sel4test-driver/src/main.c:686-809 | the saved callers and the wait count of the buffer's events are those of the buffer object |
| Joins.JoinIsSound | sel4test-driver/src/thread_lib.c:1482-1532 | when a join returns, one of a boot thread that was returned to included, its target has exited, and its table entry stays empty in every run from there |
| Joins.StartKeeps | sel4test-driver/src/thread_lib.c:1215-1283 | the initial pool, in which nobody joins anybody, satisfies the invariant |
| Joins.GoneForGood | sel4test-driver/src/thread_lib.c:95-109 | a thread that has exited never comes back to the table: ids are not reused |
| Joins.StepKeeps | sel4test-driver/src/thread_lib.c:1482-1532 | a thread's list holds exactly the threads now joining it, in the order in which they began, and a block is marked exactly when its target has exited, through returns to the boot thread and the last exit too |
| Joins.MarkedByExitOnly | sel4test-driver/src/thread_lib.c:1388-1391 | another thread's block is marked by its target's exit and by nothing else |
| Joins.LoopOutcome | sel4test-driver/src/thread_lib.c:1507-1524 | before a return to the boot thread a turn of the loop ends as its target's state says, and no assertion fails |
| Joins.BackOutcome | sel4test-driver/src/thread_lib.c:1507-1524 | after such a return the boot thread's join returns exactly if its target has exited, and fails an assertion exactly if it would hand over to the thread that returned |
| Joins.LoopFailsExactly | sel4test-driver/src/thread_lib.c:1444-1450 | in every state that a run from the start reaches, a turn of a join loop fails an assertion exactly in that case |
| Joins.CallFailsExactly | sel4test-driver/src/thread_lib.c:1482-1507 | in every state that a run from the start reaches, a join call fails an assertion exactly for a negative id or in that case |
| Joins.YieldFailsJoin | sel4test-driver/src/thread_lib.c:1432-1450 | three calls from the start fail the assertion: a thread is created and joined, and yields with nobody ready |
| Joins.LastExit | sel4test-driver/src/thread_lib.c:1382-1428 | the exit of the last other thread returns to the boot thread, whose join is still open |
| Joins.AllExited | sel4test-driver/src/thread_lib.c:1507-1532 | once all other threads have exited the boot thread's join returns and leaves all lists empty, and every join of a thread ever created returns at once |
| Joins.CallOutcome | sel4test-driver/src/thread_lib.c:1485-1496 | a join returns at once exactly if the target has exited, complains exactly about ids never given out, detects joining oneself, and before a return to the boot thread fails exactly for a negative id |
| JoinLists.JoinList.Append | sel4test-driver/src/thread_lib.c:174-187 | the block is appended, and the list still ends in null exactly if it was not empty or the block has no stale successor |
| JoinLists.JoinList.Delete | sel4test-driver/src/thread_lib.c:191-221 | the block is removed wherever it stands and the others keep their order; without the block nothing changes |
| JoinLists.JoinList.MarkAll | sel4test-driver/src/thread_lib.c:1388-1391 | every block of the list is marked |
| JoinObjects.JoinPool.Join | sel4test-driver/src/thread_lib.c:1482-1532 | the call on the heap, its look-up and its block included, ends as the transition system says and leaves the state it says, also for a thread that joins itself |
| JoinObjects.JoinPool.Turn | sel4test-driver/src/thread_lib.c:1507-1530 | one turn of the loop on the heap ends as the transition system says, also the last turn of a boot thread that was returned to |
| JoinObjects.JoinPool.AddBlock | sel4test-driver/src/thread_lib.c:1498-1507 | a new unmarked block becomes the caller's own and is last on the target's list |
| JoinObjects.JoinPool.Exit | sel4test-driver/src/thread_lib.c:1382-1428 | the exit on the heap, with or without a thread ready, marks every block of the thread's list and is the exit of the transition system |
| JoinObjects.JoinPool.Create | sel4test-driver/src/thread_lib.c:1288-1378 | a new thread has an empty list and joins nobody |
| JoinObjects.JoinPool.PoolOnly | sel4test-driver/src/thread_lib.c:1066-1202 | whatever the pool does alone leaves lists and blocks as they are |
| WaitLists.FastRefinesSlow | sel4test-driver/src/thread_lib.c:353-388 | for every sequence of operations each primitive's queue is the global waiter list filtered by it, and all else is equal |
| WaitLists.AgreesExactly | sel4test-driver/src/thread_lib.c:1121-1202 | in any state both bookkeepings do the same and wake the same thread, except exactly when a primitive is initialised while threads wait on it |
| WaitLists.ForFirst | sel4test-driver/src/thread_lib.c:365-382 | the search of the global list finds whoever has waited longest on the primitive, or nobody exactly if nobody waits |
| WaiterLists.WaiterList.AppendWaiting | sel4test-driver/src/thread_lib.c:245-260 | the waiter is appended to the global list, which still ends in null exactly if it was not empty or the waiter has no stale successor |
| WaiterLists.WaiterList.ExtractWaiting | sel4test-driver/src/thread_lib.c:353-388 | the first waiter on the primitive is taken off the global list |
| PrimRegistry.RegisteredMeans | sel4test-driver/src/sync_prim.c:7-57 | after any history the registered primitives are those created since they were last destroyed, without repetition, in the order of creation |
| PrimRegistry.Registry.Walks | sel4test-driver/src/sync_prim.c:7-57 | walking forwards gives that order, walking backwards its reverse, and an end is null exactly if the list is empty |
| PrimRegistry.Registry.Initial | sel4test-driver/src/sync_prim.c:7-30 | a primitive that is not registered is linked in at the end; after one that is the pointers link up no list at all |
| PrimRegistry.Registry.Destroy | sel4test-driver/src/sync_prim.c:33-57 | the primitive is linked out wherever it stands, and its pointers end up null |
| PrimRegistry.TestLockList | sel4test-driver/src/main.c:2976-2998 | after the driver's 200 creations and its two sweeps of destructions both ends of the list are null |
| Continuations.RingRefinesFifo | sel4test-driver/src/main.c:1739-1823 | over every run with room the ring answers as a queue with entries in flight does |
| Continuations.SaveExactly | sel4test-driver/src/main.c:1739-1771 | a save passes its assertion if and only if there is room, and then appends |
| Continuations.RetrieveExactly | sel4test-driver/src/main.c:1799-1823 | a retrieve gives the slot of the oldest save not yet retrieved, -1 exactly if there is none, and leaves the ring right exactly if more is queued or there is room |
| Continuations.FullRingRepeats | sel4test-driver/src/main.c:1799-1823 | with two slots, two saves and three retrieves hand out slot 0 twice |
| Continuations.RestoreExactly | sel4test-driver/src/main.c:1775-1796 | a restore passes its assertions exactly for the slot of a save not yet restored |
| Continuations.RestoreGivesSaved | sel4test-driver/src/main.c:1775-1796 | what is restored is what was saved, whatever happened in between |
| Continuations.RoomInOrder | sel4test-driver/src/main.c:1759-1761 | with restores in order, room means that the span in flight is below the capacity |
| Continuations.EmptyRepresents | sel4test-driver/src/lib_test.c:116-126 | the initial ring is the empty queue |
| Continuations.ContinuationRing.SaveContinuation | sel4test-driver/src/main.c:1739-1771 | the arrays and indices change as the save says |
| Continuations.ContinuationRing.RestoreContinuation | sel4test-driver/src/main.c:1775-1796 | the arrays change as the restore says |
| Continuations.ContinuationRing.RetrieveStartConti | sel4test-driver/src/main.c:1799-1823 | the index changes as the retrieve says |
| EventRounds.Rounds | sel4test-driver/src/main.c:1827-2128 | for any rounds, buffer and rings of two slots or more: no assertion fails, the impossible branch is never taken, and a run ends after exactly eight steps per round and two more, with every round answered and one wait counted for each |
| EventRounds.RoundEnds | sel4test-driver/src/main.c:2050-2090 | each round ends with one reply, buffer 0, both rings empty, and its produce and consume request logged in that order |
| EventRounds.StoppedWaits | sel4test-driver/src/main.c:1827-2008 | in any state a request that the buffer stops goes to the end of its queue and is counted, if the ring has room; only a saved producer that is stopped again is dropped |
| EventRounds.ServesRequest | sel4test-driver/src/main.c:1827-2008 | in any state a request that is not stopped moves one item, is logged, and lets the oldest waiting request of the other kind be handed to the helper |
| EventRounds.ServesSaved | sel4test-driver/src/main.c:1875-2008 | in any state a request handed back is served as it was saved, and an assertion fails if its slot holds nothing |
| EventRounds.NeverImpossible | sel4test-driver/src/main.c:1966-1973 | a continuation of a consumer never finds the buffer empty |
| EventRounds.NoDeadlock | sel4test-driver/src/main.c:2097-2128 | only the terminated system has no step |
| EventRounds.StepKeeps | sel4test-driver/src/main.c:1827-2008 | every rendezvous and every handling of a message keeps the protocol on its course |
| EventRounds.StartKeeps | sel4test-driver/src/lib_test.c:116-126 | the state with an empty buffer and empty rings satisfies the invariant |
| EventRounds.StepProgress | sel4test-driver/src/main.c:2172-2204 | every step is exactly one step forward |
| Registration.NoReplyBeforeAll | sel4test-driver/src/main.c:910-938 | no reply is sent before all expected clients have registered, and then exactly one to each with its number |
| Registration.OneReplyEach | sel4test-driver/src/main.c:542-558 | different clients get different numbers and nobody gets two replies |
| Registration.Registry.HandleInit | sel4test-driver/src/main.c:910-938 | the handler acts as the barrier does |
| Registration.Registry.InitialClient | sel4test-driver/src/lib_test.c:140-144 | numbers are given out in order |
| Registration.Registry.Multicast | sel4test-driver/src/main.c:542-558 | every client but the first is sent its own number |
| Untypeds.GreedyOptimal | sel4test-driver/src/main.c:159-177 | in unbounded arithmetic no choice of blocks within supply, budget and number makes more bytes than the greedy one |
| Untypeds.AllocationOptimal | sel4test-driver/src/main.c:159-177 | with a budget below half the word the code as run is within the budget and optimal |
| Untypeds.BudgetKeptExactly | sel4test-driver/src/main.c:169-170 | in 32-bit arithmetic the budget is kept for every supply if and only if it is below half the word |
| Untypeds.Wraps | sel4test-driver/src/main.c:169-170 | from half the word up, two blocks of half the word are taken and exceed the budget |
| Untypeds.AllShares | sel4test-driver/src/main.c:163-175 | for every budget of 32 bits, supply and number: of each size is taken the least of what there is, what the number still allows and what fits the budget, where a size that may reach the end of the word always fits |
| Untypeds.SharesDetermine | sel4test-driver/src/main.c:163-175 | these shares leave one choice only |
| Untypeds.LeftExactly | sel4test-driver/src/main.c:169-171 | exactly when a block of a size is left |
| Untypeds.TakesAll | sel4test-driver/src/main.c:188 | with the largest budget of 32 bits all blocks are taken, from the largest down, until the number is reached |
| Untypeds.GreedyShape | sel4test-driver/src/main.c:166-174 | sizes come in non-increasing order, above a page, at most the given number, and no more of a size than there are |
| Untypeds.ExactPick | sel4test-driver/src/main.c:166-174 | because sizes divide each other, blocks making exactly a multiple of the largest can be picked from any that make at least as much |
| Untypeds.AllocateUntypeds | sel4test-driver/src/main.c:159-177 | the loops over the array take exactly the greedy choice, which for a budget of 32 bits is the one with these shares, and for the largest takes as many blocks as there are or as are allowed |
| Context.SwapReturns | sel4test-driver/src/thread_lib.c:37-64 | a call of the swap returns with the caller's ebp, ebx, esi, edi, esp and return address, whatever threads are created, exit and switch in between |
| Context.FirstDispatch | sel4test-driver/src/thread_lib.c:71-82 | the first switch to a created thread, however late, calls its function with its argument where a called function expects it |
| Context.StepKeeps | sel4test-driver/src/thread_lib.c:18-64 | every swap, exit and creation keeps the context and stack of every thread that does not run |
| Context.StartKeeps | sel4test-driver/src/thread_lib.c:1215-1233 | with only the boot thread the invariant holds |
| Context.FrameStays | sel4test-driver/src/thread_lib.c:37-64 | while nobody switches to a thread its context stands for the same registers |
| Context.SwapSpills | sel4test-driver/src/thread_lib.c:40-48 | the first part of the swap, instruction by instruction |
| Context.SwapJumps | sel4test-driver/src/thread_lib.c:51-55 | the second part of the swap, instruction by instruction |
| Context.SwitchJumps | sel4test-driver/src/thread_lib.c:23-29 | the switch without saving, instruction by instruction |
| Context.ResumedReturns | sel4test-driver/src/thread_lib.c:57-63 | the code behind the label restores the registers and returns |
| Context.BouncerEnters | sel4test-driver/src/thread_lib.c:74-82 | the bouncer enters the function with the frame pointer cleared and the exit behind its return address |
| Context.ReturnExits | sel4test-driver/src/thread_lib.c:81-82 | when the function returns the exit is called |
| Context.PreparedKeeps | sel4test-driver/src/thread_lib.c:1337-1349 | what creating a thread writes makes a context the bouncer can start, with the context's address at the base of the stack and the rest of the stack as it was |

## Left out

- seL4 IPC, capability slots, address spaces, the allocator's internals, timers and printing: a send is a step or an entry of a sequence, a saved caller is a number, the allocator is a supply of blocks of each size that do not turn into one another.
- Memory management: failures of malloc, and freeing. An exited thread's join list stays readable, as the joiner still reads it.
- 32-bit overflow of counters, except in the byte budget of the allocation, where it is modelled.
- Fresh join blocks have a null successor, which the code leaves unset; appending one with a stale successor is in `JoinLists.JoinList.Append`.
- Returning to the boot thread: the heap operations execute it, runs of `Joins` follow the boot thread's joins that return, and other runs stop there. What a boot thread does that dispatches a thread again is not followed, because the running link is then on the ready queue or belongs to a thread that has exited.
- ThreadPool.Pool.ThreadCreate: the append of a new link is written out in the code and is the ready queue's append here; machine contexts are in `Context`.
- ThreadPool.Pool.ThreadExit: the marking of join blocks is in `JoinObjects.JoinPool.Exit`.
- JoinObjects.JoinPool.Join: an id beyond the thread table, with which the code reads outside it, is not covered; nor is a join by a boot thread that was returned to of a thread that still lives.
- JoinObjects.JoinPool.Turn: a boot thread that was returned to and whose target still lives is covered by `Joins.BackOutcome` only.
- SyncPrims.StepKeeps: destroying a lock or semaphore is an event only where `SyncPrims.DestroyExactly` says that it is safe.
- Buffer.StepKeeps: the terminating client that would return to the boot thread is where a run stops.
- EventRounds.Rounds: runs with several clients are not modelled; what the server does with any one message in any state is in `EventRounds.StoppedWaits`, `ServesRequest` and `ServesSaved`.
- Registration.Registry.HandleInit: more clients than the caller table holds, with which the code writes outside the table, are not covered; the barrier itself has no such bound.
- Context.SwapReturns: registers a called function may change, flags and the floating point state are not restored by the code and not claimed; words are unbounded integers and a stack is required to have room for the words pushed.
- Untypeds.GreedyOptimal: alignment and splitting of larger blocks by the allocator.
- GREEN_FAST without GREEN_VERY_FAST, the SEL4_THREAD variants, EVENT_DRIVEN and IMMD_DEFER: not the compiled configuration.
- `thread_lock_release_acquire` as a lock operation: it returns without the lock; the changing of places under it is in the scheduler.
- `extract_ready`, `set_reply_ep` and `get_reply_ep`: never used on the modelled paths.
- The kernel tests of sel4test-tests: they call kernel services and check return codes.
