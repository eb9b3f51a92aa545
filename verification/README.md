# Verified models of the concurrency code

A Dafny 4.11 project beside the C++ sources. It models the concurrent cores of the repository as step systems and
proves what they promise, for any number of threads, workers, fibers, futures or inputs and for every interleaving.

## What is modelled

| files | subject |
|---|---|
| `WorkerPool`, `WorkerPoolProofs`, `WorkerPoolTheorems`, `ThreadPool` | the work-stealing pool: parking handshake, conservation, `WaitIdle` |
| `WorkerPoolTurns`, `WorkerPoolParking`, `WorkerPoolQueues`, `WorkerPoolPicks` | the same over stretches of a run: what a worker takes from where and in which order, when it nudges, steals, gives up, parks and comes back, and what calls of `Execute` and `WaitIdle` guarantee |
| `Coordinator`, `GlobalQueue` | the pool's locked parts, loop by loop |
| `RingBuffer`, `RingCalls`, `WorkStealingQueue` | the lock-free ring of a worker, at single-access granularity, and its calls from start to end |
| `PoolOverRings` | the pool with such rings as its local queues |
| `LocalOverflow` | what the code does when a worker's ring is full |
| `Strand`, `StrandProofs`, `StrandProgress`, `StrandHistory`, `StrandObject` | the strand over explicit memory, addresses reused; that it comes to rest, and what it has executed then |
| `QueueSpinLock`, `QueueSpinLockObject`, `TicketLock`, `CyclicBarrier` | the queue spin lock, the ticket lock with TryLock, the barrier |
| `Futex`, `FutexProofs`, `FutexCalls`, `FiberSystem` | fibers, executor and any number of futexes, and the calls on them |
| `Monitor`, `MonitorCalls`, `MonitorObject` | the fiber mutex and condition variable on top of two futexes, and the calls on them |
| `Results`, `SharedState`, `Continuations`, `AllCombinator`, `FirstOfCombinator` | futures: the rendezvous, chains of Then, the combinators |
| `Runs`, `Histories`, `Lists`, `Counting`, `Sums` | induction over runs and stretches of runs, and small facts about collections |

Every protocol has the same shape. `State` holds the shared fields, a program counter for each thread (named after its
next atomic action) and histories. `Event` names the atomic actions: one atomic load, store, exchange or
compare-exchange, or one section under a mutex. `Enabled` and `Perform` say when an action can happen and what it
does. `Inv` is an invariant of all threads together; `StepKeepsInv` shows that every action of every thread keeps it, and
`Runs.Invariance` carries it to every state of every run. `Runs.Projection` turns the runs of a model built on top of
another into runs of the lower one, and `Runs.Descent` bounds a run by a decreasing measure. The main theorems quantify
over all runs. A class with mutable fields then gives the code's own form: one method per atomic action, its body in
assignments and loops, its contract equating the whole new state with the model's ("whole new state" below) and adding
what the action is worth to its caller; calling the methods in any order is an interleaving.

Invariants say what is true at every moment. What a call does from its beginning to its return, with any number of steps
of all other threads in between, is stated over stretches of a run and in terms of events: `Histories.Returns` says that
a call made at event i has just returned in state j, `Histories.Times` counts events, `Histories.Gathered` collects
what they hand out. These theorems (in the `...Calls`, `...History` and `WorkerPool...` files, and at the end of the
locks' files) mention the arguments of the call and the events, not the fields in which the code keeps its own
account.

A strand to which nothing new is handed in, a chain of Then and a combinator always come to rest, within a stated
number of steps; and at rest everything handed in to the strand has been executed, and the chain or combinator has
delivered its one result (`FirstOf` of no inputs has none).

## Assumptions

- Atomic accesses are sequentially consistent; counters and indices are unbounded. `compare_exchange_weak` may fail and
  condition variables may wake for no reason. Which sleeper `notify_one` wakes is left open.
- Runs of the pool are those before `Stop` in which no worker's ring overflows; `LocalOverflow` says exactly what an
  overflow does, and that it is what must be excluded. In `WorkerPool` a pop, grab or push on a ring is one event;
  `PoolOverRings` takes it apart into the single accesses of `RingBuffer` and shows that nothing changes for the pool.
  No task is handed to `Execute` twice.
- The executor under a strand, a fiber or a future keeps the tasks it is given and may run them in any order. Tasks
  on a strand do not throw. A thread that calls `Execute` on a strand from inside a task counts as one more thread.
- Waking on a futex is done by fibers; a plain thread is a fiber that never suspends.
- The inputs of `All` and `FirstOf` are shared states, each completed by a producer of its own at any time.
- In a chain of `Then` the subscriptions may happen in any order, not only in the order of the calls.
- Values and errors of futures are integers, and one type serves for all futures of a chain.

`fibers/mutex/exe/fibers/sync/futex.hpp` and `futures/futures/exe/executors/strand.cpp` hold near copies of the futex and the
strand; the models cover them too. `lockfree/steal/work_stealing_queue.hpp` is the ring without `PushMany`.

## Model

| member | source | states |
|---|---|---|
| WorkerPoolTheorems.NoLostWakeup | fibers/scheduler/exe/executors/tp/fast/worker.cpp:56-139 | in every reachable state: tasks in the global queue and no outside thread between its push and its ProhibitParking imply a worker, awake or already notified, that must grab again before it can park |
| WorkerPoolTheorems.CommitmentKept | fibers/scheduler/exe/executors/tp/fast/worker.cpp:123-139 | that commitment survives every step of every thread, except its owner's own second grab finding the queue empty, or an AllowParking by a worker that is committed itself |
| WorkerPoolTheorems.NobodySleepsOnWork | fibers/scheduler/exe/executors/tp/fast/coordinator.cpp:5-13 | never are all workers asleep, nobody notified, nobody submitting, and a task left in the global queue |
| WorkerPoolTheorems.TaskInOnePlace | fibers/scheduler/exe/executors/tp/fast/worker.cpp:104-165 | each submitted task is in exactly one place exactly once: global queue, one worker's queue, slot, transfer buffer or hands, or finished; through pushes, pops, grabs, steals and parks |
| WorkerPoolTheorems.AllParked | fibers/scheduler/exe/executors/tp/fast/coordinator.cpp:5-19 | with every worker counted out, an unfinished task can only be one that an outside thread left in the global queue |
| WorkerPoolTheorems.WaiterReturnsSound | fibers/scheduler/exe/executors/tp/fast/thread_pool.cpp:45-48 | when the second counter is seen at zero, every task descending from a due task is finished |
| WorkerPoolTheorems.WaitIdleSound | fibers/scheduler/exe/executors/tp/fast/thread_pool.cpp:45-48 | between a WaitIdle's call and its return: every task whose outside Execute had returned before the call, and everything those tasks spawned in the pool, has finished |
| WorkerPoolTheorems.RuntimeChecksPass | fibers/scheduler/exe/executors/tp/fast/worker.cpp:69-84 | in every reachable state: the room for PushMany, a non-empty list for GiveVictim's division, a victim other than the thief, and positive idle counters wherever they are decremented |
| WorkerPoolProofs.StepKeepsInv | fibers/scheduler/exe/executors/tp/fast/worker.cpp:49-165 | every atomic action of every thread keeps the pool's invariant: local bounds, lists against program counters, no lost wakeup, conservation, waiters |
| WorkerPoolProofs.EnlistedContents | fibers/scheduler/exe/executors/tp/fast/thread_pool.cpp:9-18 | after n workers have enlisted themselves the lists hold each of them once, nobody else, and are balanced |
| WorkerPoolProofs.ReenlistKeeps | fibers/scheduler/exe/executors/tp/fast/coordinator.cpp:10-19 | re-enlisting after the wait keeps lists, flags and idle counter in agreement for the whole pool |
| WorkerPoolProofs.StealKeeps | fibers/scheduler/exe/executors/tp/fast/worker.cpp:141-165 | moving a stolen batch from a victim to a thief keeps the invariant, whoever the victim is and whatever it is doing |
| WorkerPoolTurns.AtMostNineteenInARow | fibers/scheduler/exe/executors/tp/fast/worker.cpp:62-67 | on every run: as long as a worker is not sent to its own queue it takes the task in its slot at most nineteen times, whatever else happens |
| WorkerPoolTurns.SlotTakenIff | fibers/scheduler/exe/executors/tp/fast/worker.cpp:62-67 | at every look at the slot: a filled slot is taken if and only if fewer than nineteen tasks have been taken from it since the worker last went to its queue; counted in events |
| WorkerPoolTurns.EveryTenthTurnNudges | fibers/scheduler/exe/executors/tp/fast/worker.cpp:57-61 | a worker is sent to the nudge exactly in the tenth turn since the last time; counted in events |
| WorkerPoolTurns.StealsInVain | fibers/scheduler/exe/executors/tp/fast/worker.cpp:141-160 | a thief gives up after exactly (n + 1) / 2 attempts that brought nothing, counted in events, and can always make another before that |
| WorkerPoolTurns.EveryoneCanBeDrawn | fibers/scheduler/exe/executors/tp/fast/coordinator.cpp:78-90 | every linked worker is drawn as a victim by exactly the seeds of one residue; who draws itself has tried in vain |
| WorkerPoolTurns.OthersLeave | fibers/scheduler/exe/executors/tp/fast/worker.cpp:49-165 | no step of another thread changes a worker's slot, counts or program point, except waking it |
| WorkerPoolParking.ParksIffAllowed | fibers/scheduler/exe/executors/tp/fast/coordinator.cpp:5-13 | on every run: a worker that calls TryParkMe falls asleep if and only if the last AllowParking or ProhibitParking of anybody was an AllowParking |
| WorkerPoolParking.ParksAtFirst | fibers/scheduler/exe/executors/tp/fast/coordinator.cpp:5-13 | before anybody has said anything it may |
| WorkerPoolParking.ParksWithEmptySlot | fibers/scheduler/exe/executors/tp/fast/worker.cpp:86-89 | a worker goes on to park exactly if its slot is empty at its last look |
| WorkerPoolParking.WakesASleeper | fibers/scheduler/exe/executors/tp/fast/coordinator.cpp:48-65 | the nudge and every ProhibitParking wake one sleeper, and only one, if anybody sleeps; ProhibitParking withdraws permission |
| WorkerPoolParking.ComesBackActive | fibers/scheduler/exe/executors/tp/fast/coordinator.cpp:10-19 | a worker that comes back from its sleep is active |
| WorkerPoolParking.StealsUpToHalf | fibers/scheduler/exe/executors/tp/fast/worker.cpp:162-165 | what a thief can take from its victim is any number up to half of what LowSize told it, and nothing only if that half is nothing or nothing is there |
| WorkerPoolParking.SlowExecuteProhibits | fibers/scheduler/exe/executors/tp/fast/thread_pool.cpp:37-41 | an Execute with the slow hint puts its own task into the global queue and goes on only through ProhibitParking |
| WorkerPoolParking.OutsideExecuteProhibits | fibers/scheduler/exe/executors/tp/fast/thread_pool.cpp:24-28 | so does an Execute from outside, which then is on record as returned |
| WorkerPoolParking.AwakeWorkerGetsOn | fibers/scheduler/exe/executors/tp/fast/worker.cpp:49-165 | in every reachable state a worker that is not asleep can take its next step |
| WorkerPoolParking.WaitIdleReturnsIff | fibers/scheduler/exe/executors/tp/fast/thread_pool.cpp:45-48 | the first half of WaitIdle can return exactly when the global queue is empty, the second exactly when all workers are asleep or woken and not back yet |
| WorkerPoolParking.WaitIdleCoversDescendants | fibers/scheduler/exe/executors/tp/fast/thread_pool.cpp:23-48 | in terms of calls only: a task whose Execute returned before WaitIdle was called has finished when WaitIdle returns, and so has everything that descends from it through any number of calls of Execute inside tasks |
| WorkerPoolQueues.LocalQueueIsFifo | fibers/scheduler/exe/executors/tp/fast/worker.cpp:69-75 | over any stretch of any run: what a worker and all thieves together take from its queue is, in that order, what was there and what came in |
| WorkerPoolQueues.GlobalQueueIsFifo | fibers/scheduler/exe/executors/tp/fast/worker.cpp:123-139 | the same for the global queue and all workers' grabs |
| WorkerPoolQueues.GrabsAreFair | fibers/scheduler/exe/executors/tp/fast/queues/global_queue.hpp:66-84 | both grabs of a worker take the least fair share of what is queued, capped at half a local queue, from the front, and nothing exactly if nothing is queued |
| WorkerPoolQueues.SlotHoldsNewest | fibers/scheduler/exe/executors/tp/fast/worker.cpp:36-47 | a task handed to Execute with the hint Next is in the slot until its worker looks there or the next such task comes |
| WorkerPoolQueues.BatchFromItsFirst | fibers/scheduler/exe/executors/tp/fast/worker.cpp:134-138 | a worker that has grabbed or stolen a batch runs its first task next |
| WorkerPoolQueues.RecordedAsEnded | fibers/scheduler/exe/executors/tp/fast/worker.cpp:104-117 | the executed tasks are those run to their end and the discarded ones those that threw, event by event |
| WorkerPoolPicks.FollowsPickNextTask | fibers/scheduler/exe/executors/tp/fast/worker.cpp:49-117 | on every run, with everybody else's steps in between: any two consecutive steps of a worker are in the order of Work, PickNextTask and Execute, given what it found |
| WorkerPoolPicks.ParksAfterLookingEverywhere | fibers/scheduler/exe/executors/tp/fast/worker.cpp:69-89 | before a worker parks it has found its own queue empty, the global queue empty, called AllowParking, found the global queue empty again, tested whether it may steal, tried in vain if it may, and found its slot empty, in this order and with no other step in between |
| WorkerPoolPicks.BeganToSteal | fibers/scheduler/exe/executors/tp/fast/worker.cpp:80-84 | every step of stealing comes after a test that found the worker active, with only steps of stealing since |
| WorkerPoolPicks.WaitIdleCall | fibers/scheduler/exe/executors/tp/fast/thread_pool.cpp:45-48 | WaitIdle from its call to its return: the queue was seen empty, then no worker busy, and everything due at the call has finished |
| ThreadPools.ThreadPool.constructor | fibers/scheduler/exe/executors/tp/fast/thread_pool.cpp:9-18 | all workers enlisted one after the other, each flag set from its list; the initial state of the model |
| ThreadPools.ThreadPool.EnlistAll | fibers/scheduler/exe/executors/tp/fast/thread_pool.cpp:11-13 | the loop that enlists the workers computes the lists of the initial state |
| ThreadPools.ThreadPool.Count | fibers/scheduler/exe/executors/tp/fast/worker.cpp:56-61 | counting the cycle, every tenth turn to the nudge: whole new state, invariant kept |
| ThreadPools.ThreadPool.AwakeOne | fibers/scheduler/exe/executors/tp/fast/coordinator.cpp:62-65 | waking some sleeper, if there is one: whole new state, invariant kept |
| ThreadPools.ThreadPool.TryLifo | fibers/scheduler/exe/executors/tp/fast/worker.cpp:62-67 | the slot if it is filled and its count below 19, which is raised or set back: whole new state, invariant kept |
| ThreadPools.ThreadPool.TryPop | fibers/scheduler/exe/executors/tp/fast/worker.cpp:69-75 | the oldest local task or none: whole new state, invariant kept |
| ThreadPools.ThreadPool.TakeFront | fibers/scheduler/exe/executors/tp/fast/queues/global_queue.hpp:79-82 | the loop of a grab moves exactly the first tasks, in order |
| ThreadPools.ThreadPool.GrabShare | fibers/scheduler/exe/executors/tp/fast/queues/global_queue.hpp:66-84 | the rounded-up share of the queue, capped by the buffer, leaves it for the buffer; the idle counter drops only when the queue is emptied |
| ThreadPools.ThreadPool.Grab | fibers/scheduler/exe/executors/tp/fast/worker.cpp:125-126 | the first grab, empty-handed exactly when the queue is empty: whole new state, invariant kept |
| ThreadPools.ThreadPool.AllowParking | fibers/scheduler/exe/executors/tp/fast/coordinator.cpp:55-61 | permission unless permanently prohibited: whole new state, invariant kept |
| ThreadPools.ThreadPool.GrabAgain | fibers/scheduler/exe/executors/tp/fast/worker.cpp:129-132 | the second grab; a worker goes on to steal or park exactly when it saw the queue empty after allowing parking: whole new state, invariant kept |
| ThreadPools.ThreadPool.PushMany | fibers/scheduler/exe/executors/tp/fast/worker.cpp:135-138 | all but the first grabbed task go to the local queue, which does not overflow: whole new state, invariant kept |
| ThreadPools.ThreadPool.TestImpudence | fibers/scheduler/exe/executors/tp/fast/worker.cpp:80-84 | exactly the workers of the active list steal: whole new state, invariant kept |
| ThreadPools.ThreadPool.AskVictim | fibers/scheduler/exe/executors/tp/fast/worker.cpp:143-147 | the seeded place in active then passive; whoever is tried is somebody else: whole new state, invariant kept |
| ThreadPools.ThreadPool.GiveUpStealing | fibers/scheduler/exe/executors/tp/fast/worker.cpp:143-160 | after half the workers have been tried: whole new state, invariant kept |
| ThreadPools.ThreadPool.LowSize | fibers/scheduler/exe/executors/tp/fast/worker.cpp:163 | half the reported size, capped by the buffer: whole new state, invariant kept |
| ThreadPools.ThreadPool.GrabFromVictim | fibers/scheduler/exe/executors/tp/fast/worker.cpp:148-157 | a prefix of the victim's queue changes hands, or the next victim is tried; the workers together hold the same tasks as before: whole new state, invariant kept |
| ThreadPools.ThreadPool.RetestLifo | fibers/scheduler/exe/executors/tp/fast/worker.cpp:86-88 | a filled slot sends the worker round again: whole new state, invariant kept |
| ThreadPools.ThreadPool.TryParkMe | fibers/scheduler/exe/executors/tp/fast/coordinator.cpp:5-10 | parking up to the wait; who falls asleep has nothing in queue, slot or hands and is in neither list: whole new state, invariant kept |
| ThreadPools.ThreadPool.SpuriousWakeup | fibers/scheduler/exe/executors/tp/fast/coordinator.cpp:10 | a wait that returns for no reason: whole new state, invariant kept |
| ThreadPools.ThreadPool.Reenlist | fibers/scheduler/exe/executors/tp/fast/coordinator.cpp:10-13 | the section after the wait; back in the lists and bound to look at the global queue before parking again: whole new state, invariant kept |
| ThreadPools.ThreadPool.Spawn | fibers/scheduler/exe/executors/tp/fast/worker.cpp:25-47 | Execute by a pool task, pre-Stop and with room in the local queue: whole new state, invariant kept |
| ThreadPools.ThreadPool.ProhibitFromWorker | fibers/scheduler/exe/executors/tp/fast/thread_pool.cpp:37-40 | the second half of Execute with the slow hint: whole new state, invariant kept |
| ThreadPools.ThreadPool.Finish | fibers/scheduler/exe/executors/tp/fast/worker.cpp:104-117 | one turn of the working loop; the task is finished for the first and only time: whole new state, invariant kept |
| ThreadPools.ThreadPool.Submit | fibers/scheduler/exe/executors/tp/fast/thread_pool.cpp:24-25 | the first half of an outside Execute; the task is in the global queue exactly once: whole new state, invariant kept |
| ThreadPools.ThreadPool.ProhibitFromOutside | fibers/scheduler/exe/executors/tp/fast/thread_pool.cpp:26-28 | the second half of an outside Execute; some worker is now bound to grab before it can sleep: whole new state, invariant kept |
| ThreadPools.ThreadPool.CallWaitIdle | fibers/scheduler/exe/executors/tp/fast/thread_pool.cpp:45 | a waiter remembers what had been submitted: whole new state, invariant kept |
| ThreadPools.ThreadPool.SeeQueueIdle | fibers/scheduler/exe/executors/tp/fast/thread_pool.cpp:46 | the global queue's counter seen at zero, and then the queue is empty: whole new state, invariant kept |
| ThreadPools.ThreadPool.SeeWorkersIdle | fibers/scheduler/exe/executors/tp/fast/thread_pool.cpp:47-48 | the return of WaitIdle: everything that was due is finished; whole new state, invariant kept |
| LocalOverflow.PushToLocalQueue | fibers/scheduler/exe/executors/tp/fast/worker.cpp:25-34 | with room the task is appended; without, the sizes of both queues afterwards as the code leaves them; thieves may rob the queue between the refused TryPush and the owner's Grab |
| LocalOverflow.ConservesIffRoom | fibers/scheduler/exe/executors/tp/fast/worker.cpp:169-177 | counting what thieves got, tasks are conserved if and only if the local queue had room when TryPush looked, for every queue, every number of tasks robbed and grabbed and every uninitialized buffer: the overflow path hands over the wrong end of the buffer |
| LocalOverflow.OverflowLosesHalf | fibers/scheduler/exe/executors/tp/fast/worker.cpp:169-177 | the concrete failure: with no thief about, half the queue and the new task are lost |
| Coordination.RebalancedContents | fibers/scheduler/exe/executors/tp/fast/coordinator.cpp:28-47 | rebalancing splits n workers into ceil(n/2) and floor(n/2), losing and duplicating nobody |
| Coordination.RebalancedMembers | fibers/scheduler/exe/executors/tp/fast/coordinator.cpp:28-47 | exactly the same workers are linked before and after |
| Coordination.NewcomerIsActive | fibers/scheduler/exe/executors/tp/fast/coordinator.cpp:14-19 | whoever enters at the active head is active after the rebalancing |
| Coordination.RebalancedFixpoint | fibers/scheduler/exe/executors/tp/fast/coordinator.cpp:28-47 | a balanced pair of lists is left alone; one surplus worker makes the same trip as in the loops |
| Coordination.TurnOnce | fibers/scheduler/exe/executors/tp/fast/coordinator.cpp:38-46 | moving the last passive worker to the head of the active ones turns the combined list by one place |
| Coordination.Coordinator.constructor | fibers/scheduler/exe/executors/tp/fast/coordinator.cpp:5-19 | an empty coordinator is consistent |
| Coordination.Coordinator.RebalanceUnsafe | fibers/scheduler/exe/executors/tp/fast/coordinator.cpp:28-47 | both loops terminate from any split and compute the closed form: the combined list turned and cut in the middle, flags agreeing with lists |
| Coordination.Coordinator.DemoteSurplus | fibers/scheduler/exe/executors/tp/fast/coordinator.cpp:29-37 | the first loop only moves the cut in the combined list |
| Coordination.Coordinator.PromoteShortfall | fibers/scheduler/exe/executors/tp/fast/coordinator.cpp:38-46 | the second loop turns the combined list by the number of promoted workers |
| Coordination.Coordinator.AcquireUnsafe | fibers/scheduler/exe/executors/tp/fast/coordinator.cpp:14-19 | the worker enters at the active head, then the lists are rebalanced; the idle counter counts the linked workers |
| Coordination.Coordinator.Release | fibers/scheduler/exe/executors/tp/fast/coordinator.cpp:21-26 | the worker leaves, then the lists are rebalanced; the idle counter counts the linked workers |
| Coordination.Coordinator.Unlink | fibers/scheduler/exe/executors/tp/fast/coordinator.cpp:8 | the worker leaves whichever list it is in, order kept |
| Coordination.Coordinator.TryParkMe | fibers/scheduler/exe/executors/tp/fast/coordinator.cpp:5-10 | parks if and only if permission is Allowed; then unlinked, counted out and asleep in one section |
| Coordination.Coordinator.NotifyOne | fibers/scheduler/exe/executors/tp/fast/coordinator.cpp:62-65 | wakes exactly one sleeper if there is any |
| Coordination.Coordinator.ProhibitParking | fibers/scheduler/exe/executors/tp/fast/coordinator.cpp:48-54 | permission withdrawn unless already permanently so, and one sleeper woken |
| Coordination.Coordinator.AllowParking | fibers/scheduler/exe/executors/tp/fast/coordinator.cpp:55-61 | permission given unless permanently prohibited |
| Coordination.Coordinator.GiveVictim | fibers/scheduler/exe/executors/tp/fast/coordinator.cpp:78-90 | the worker at the seeded place of active followed by passive |
| GlobalTasks.Share | fibers/scheduler/exe/executors/tp/fast/queues/global_queue.hpp:68-70 | never more than the room or the queue |
| GlobalTasks.ShareZero | fibers/scheduler/exe/executors/tp/fast/queues/global_queue.hpp:68-74 | a grab is empty-handed exactly when the queue or the buffer is empty |
| GlobalTasks.ShareIsFair | fibers/scheduler/exe/executors/tp/fast/queues/global_queue.hpp:68-70 | for every buffer, queue and number of workers: what is grabbed is the least number that lets all workers together empty the queue in one round, or a full buffer where that is not enough |
| GlobalTasks.FairShareIsUnique | fibers/scheduler/exe/executors/tp/fast/queues/global_queue.hpp:68-70 | there is only one such number |
| GlobalTasks.GlobalQueue.constructor | fibers/scheduler/exe/executors/tp/fast/queues/global_queue.hpp:116-117 | an empty queue with its idle counter at zero |
| GlobalTasks.GlobalQueue.PushOne | fibers/scheduler/exe/executors/tp/fast/queues/global_queue.hpp:22-32 | appends; the idle counter is 1 exactly when the queue is non-empty |
| GlobalTasks.GlobalQueue.Offload | fibers/scheduler/exe/executors/tp/fast/queues/global_queue.hpp:34-48 | appends the buffer in order; the idle counter is 1 exactly when the queue is non-empty |
| GlobalTasks.GlobalQueue.TryPopOne | fibers/scheduler/exe/executors/tp/fast/queues/global_queue.hpp:51-63 | none if and only if empty, otherwise the oldest task |
| GlobalTasks.GlobalQueue.Grab | fibers/scheduler/exe/executors/tp/fast/queues/global_queue.hpp:66-84 | takes the fair share for every size of the buffer, oldest first, into its front, and touches nothing else |
| GlobalTasks.GlobalQueue.PopInto | fibers/scheduler/exe/executors/tp/fast/queues/global_queue.hpp:79-82 | the loop of Grab |
| GlobalTasks.GlobalQueue.WaitIdle | fibers/scheduler/exe/executors/tp/fast/queues/global_queue.hpp:86-88 | idle if and only if the queue is empty |
| RingBuffer.RefinesQueue | fibers/scheduler/exe/executors/tp/fast/queues/work_stealing_queue.hpp:25-95 | linearizability: under every interleaving of one producer and any number of consumers, every atomic access is one step of a bounded first-in first-out queue |
| RingBuffer.FirstInFirstOut | fibers/scheduler/exe/executors/tp/fast/queues/work_stealing_queue.hpp:25-95 | 0 <= end - begin <= Capacity and the items won are exactly the first begin items pushed, in order |
| RingBuffer.EmptyHandedSawEmpty | fibers/scheduler/exe/executors/tp/fast/queues/work_stealing_queue.hpp:53-83 | on every run: a TryPop or Grab that comes back empty-handed saw an empty queue at its load of end_ |
| RingBuffer.RefusedPushSawFull | fibers/scheduler/exe/executors/tp/fast/queues/work_stealing_queue.hpp:25-32 | a refused TryPush saw a full queue when, in the same call, it loaded begin_ |
| RingBuffer.NoStaleWinner | fibers/scheduler/exe/executors/tp/fast/queues/work_stealing_queue.hpp:63-69 | a successful compare-exchange means begin_ has not moved since this consumer loaded it |
| RingBuffer.LowSizeNeverTooHigh | fibers/scheduler/exe/executors/tp/fast/queues/work_stealing_queue.hpp:97-104 | on every run: LowSize reports no more than is there at its second load, and that is at most Capacity |
| RingBuffer.RoomCheckExact | fibers/scheduler/exe/executors/tp/fast/queues/work_stealing_queue.hpp:42 | the assertion of PushMany fails exactly when the items do not fit at its load of begin_, in every run, with or without room at the call |
| RingBuffer.RoomCheckPasses | fibers/scheduler/exe/executors/tp/fast/queues/work_stealing_queue.hpp:40-42 | in every interleaving with consumers it passes if the room was there when PushMany was called |
| RingBuffer.DistinctSlots | fibers/scheduler/exe/executors/tp/fast/queues/work_stealing_queue.hpp:33 | two indices less than Capacity apart use different slots |
| RingBuffer.StepKeepsInv | fibers/scheduler/exe/executors/tp/fast/queues/work_stealing_queue.hpp:25-104 | every atomic access keeps the ring's invariant; slots under a doomed reader may be overwritten, slots under a possible winner are not |
| RingBuffer.CapacityFixed | lockfree/steal/work_stealing_queue.hpp:18-67 | the capacity never changes and begin_ never goes back, here as in the ring with PushMany |
| RingCalls.TryPushCall | fibers/scheduler/exe/executors/tp/fast/queues/work_stealing_queue.hpp:25-36 | TryPush from its call to its return, all consumers running in between: its item has been appended once, or nothing has, and then it was its load of end_ that ended it |
| RingCalls.TryPushAppends | fibers/scheduler/exe/executors/tp/fast/queues/work_stealing_queue.hpp:33-35 | a TryPush that publishes appends exactly the item it was called with |
| RingCalls.TryPushRefusedIffFull | fibers/scheduler/exe/executors/tp/fast/queues/work_stealing_queue.hpp:26-32 | TryPush returns false if and only if the queue was full when it loaded begin_ |
| RingCalls.PushManyCall | fibers/scheduler/exe/executors/tp/fast/queues/work_stealing_queue.hpp:40-48 | PushMany from its call to its return: all its items appended in order, or its assertion has failed and nothing is |
| RingCalls.PushManyAppends | fibers/scheduler/exe/executors/tp/fast/queues/work_stealing_queue.hpp:40-48 | a PushMany that passes its assertion appends exactly its items, all at once |
| RingCalls.TryPopCall | fibers/scheduler/exe/executors/tp/fast/queues/work_stealing_queue.hpp:53-71 | TryPop from its call to its return: it took the oldest item, once and in its last access, or the queue was empty then |
| RingCalls.TryPopTakesOldest | fibers/scheduler/exe/executors/tp/fast/queues/work_stealing_queue.hpp:56-69 | its compare-exchange takes the oldest item if and only if begin_ has not moved and it does not fail for no reason; otherwise the loop goes round |
| RingCalls.TryPopGivesUpIff | fibers/scheduler/exe/executors/tp/fast/queues/work_stealing_queue.hpp:57-61 | it gives up if and only if end_ is where it found begin_, and then the queue is empty |
| RingCalls.GrabCall | fibers/scheduler/exe/executors/tp/fast/queues/work_stealing_queue.hpp:75-95 | Grab from its call to its return: it took the oldest items, once and in its last access, no more than its buffer holds, and none only if that is none or the queue was empty then |
| RingCalls.GrabTakesOldest | fibers/scheduler/exe/executors/tp/fast/queues/work_stealing_queue.hpp:79-93 | a winning Grab takes exactly min(buffer, end - begin) items for the indices that it loaded; otherwise the loop goes round with the same buffer |
| RingCalls.LimitLoaded | fibers/scheduler/exe/executors/tp/fast/queues/work_stealing_queue.hpp:79-84 | that limit is settled when end_ is loaded |
| RingCalls.LowSizeCall | fibers/scheduler/exe/executors/tp/fast/queues/work_stealing_queue.hpp:97-104 | LowSize takes nothing and ends with its load of begin_ |
| RingCalls.LowSizeIsDifference | fibers/scheduler/exe/executors/tp/fast/queues/work_stealing_queue.hpp:98-103 | it reports exactly the difference of the two indices that it loaded, or zero |
| RingCalls.NobodyWaits | fibers/scheduler/exe/executors/tp/fast/queues/work_stealing_queue.hpp:25-104 | in every reachable state every thread inside a call has a next access that gets it on |
| WorkStealing.WorkStealingQueue.constructor | fibers/scheduler/exe/executors/tp/fast/queues/work_stealing_queue.hpp:107-109 | an empty ring: whole new state of array and indices, invariant kept |
| WorkStealing.WorkStealingQueue.TryPush | fibers/scheduler/exe/executors/tp/fast/queues/work_stealing_queue.hpp:25 | the call: whole new state of array and indices, invariant kept |
| WorkStealing.WorkStealingQueue.PushLoadBegin | fibers/scheduler/exe/executors/tp/fast/queues/work_stealing_queue.hpp:26 | load of begin_: whole new state of array and indices, invariant kept |
| WorkStealing.WorkStealingQueue.PushLoadEnd | fibers/scheduler/exe/executors/tp/fast/queues/work_stealing_queue.hpp:27-32 | load of end_; refused exactly when the ring looks full: whole new state of array and indices, invariant kept |
| WorkStealing.WorkStealingQueue.StoreItem | fibers/scheduler/exe/executors/tp/fast/queues/work_stealing_queue.hpp:33 | store into the slot end % Capacity: whole new state of array and indices, invariant kept |
| WorkStealing.WorkStealingQueue.Publish | fibers/scheduler/exe/executors/tp/fast/queues/work_stealing_queue.hpp:34-35 | the new end makes the item visible: whole new state of array and indices, invariant kept |
| WorkStealing.WorkStealingQueue.PushMany | fibers/scheduler/exe/executors/tp/fast/queues/work_stealing_queue.hpp:40 | the call, with or without room: whole new state of array and indices, invariant kept |
| WorkStealing.WorkStealingQueue.ManyLoadEnd | fibers/scheduler/exe/executors/tp/fast/queues/work_stealing_queue.hpp:41 | load of end_: whole new state of array and indices, invariant kept |
| WorkStealing.WorkStealingQueue.CheckRoom | fibers/scheduler/exe/executors/tp/fast/queues/work_stealing_queue.hpp:42 | the assertion: it passes exactly when the items fit on top of the contents: whole new state of array and indices, invariant kept |
| WorkStealing.WorkStealingQueue.StoreNext | fibers/scheduler/exe/executors/tp/fast/queues/work_stealing_queue.hpp:43-46 | one turn of the loop: whole new state of array and indices, invariant kept |
| WorkStealing.WorkStealingQueue.PublishMany | fibers/scheduler/exe/executors/tp/fast/queues/work_stealing_queue.hpp:47 | all items visible at once: whole new state of array and indices, invariant kept |
| WorkStealing.WorkStealingQueue.TryPop | fibers/scheduler/exe/executors/tp/fast/queues/work_stealing_queue.hpp:53 | the call: whole new state of array and indices, invariant kept |
| WorkStealing.WorkStealingQueue.PopLoadBegin | fibers/scheduler/exe/executors/tp/fast/queues/work_stealing_queue.hpp:56 | load of begin_: whole new state of array and indices, invariant kept |
| WorkStealing.WorkStealingQueue.PopLoadEnd | fibers/scheduler/exe/executors/tp/fast/queues/work_stealing_queue.hpp:57-61 | gives up only on an empty queue: whole new state of array and indices, invariant kept |
| WorkStealing.WorkStealingQueue.PopLoadItem | fibers/scheduler/exe/executors/tp/fast/queues/work_stealing_queue.hpp:63 | load of the slot: whole new state of array and indices, invariant kept |
| WorkStealing.WorkStealingQueue.PopExchange | fibers/scheduler/exe/executors/tp/fast/queues/work_stealing_queue.hpp:64-69 | if won, the item is the oldest in the queue; may fail spuriously: whole new state of array and indices, invariant kept |
| WorkStealing.WorkStealingQueue.Grab | fibers/scheduler/exe/executors/tp/fast/queues/work_stealing_queue.hpp:75 | the call: whole new state of array and indices, invariant kept |
| WorkStealing.WorkStealingQueue.GrabLoadBegin | fibers/scheduler/exe/executors/tp/fast/queues/work_stealing_queue.hpp:79 | load of begin_: whole new state of array and indices, invariant kept |
| WorkStealing.WorkStealingQueue.GrabLoadEnd | fibers/scheduler/exe/executors/tp/fast/queues/work_stealing_queue.hpp:80-83 | gives up only on an empty queue: whole new state of array and indices, invariant kept |
| WorkStealing.WorkStealingQueue.GrabLoadItem | fibers/scheduler/exe/executors/tp/fast/queues/work_stealing_queue.hpp:84-88 | one turn of the copying loop: whole new state of array and indices, invariant kept |
| WorkStealing.WorkStealingQueue.GrabExchange | fibers/scheduler/exe/executors/tp/fast/queues/work_stealing_queue.hpp:90-93 | if won, the buffer holds the oldest items in order: whole new state of array and indices, invariant kept |
| WorkStealing.WorkStealingQueue.LowSize | fibers/scheduler/exe/executors/tp/fast/queues/work_stealing_queue.hpp:97 | the call: whole new state of array and indices, invariant kept |
| WorkStealing.WorkStealingQueue.SizeLoadEnd | fibers/scheduler/exe/executors/tp/fast/queues/work_stealing_queue.hpp:98 | load of end_: whole new state of array and indices, invariant kept |
| WorkStealing.WorkStealingQueue.SizeLoadBegin | fibers/scheduler/exe/executors/tp/fast/queues/work_stealing_queue.hpp:99-103 | load of begin_ and result, a lower bound: whole new state of array and indices, invariant kept |
| PoolOverRings.StepSimulates | fibers/scheduler/exe/executors/tp/fast/worker.cpp:69-165 | one refinement step: with every local queue a ring whose accesses interleave with everything else, every step of every thread, seen with the contents of the rings as local queues, is one step of the pool or none, and the combined invariant is kept |
| PoolOverRings.ProjectsToPoolRun | fibers/scheduler/exe/executors/tp/fast/queues/work_stealing_queue.hpp:25-104 | every run of the pool over rings is a run of the pool over queues with the same pool at its end |
| PoolOverRings.AssertionNeverFails | fibers/scheduler/exe/executors/tp/fast/queues/work_stealing_queue.hpp:40-42 | in no run of the whole pool does the assertion of PushMany fail on any ring |
| PoolOverRings.NoLostWakeup | fibers/scheduler/exe/executors/tp/fast/worker.cpp:56-139 | no wakeup is lost with the local queues taken apart into single accesses |
| PoolOverRings.StealsHalf | fibers/scheduler/exe/executors/tp/fast/worker.cpp:163 | what a thief goes for is half of what its two loads report, at most a whole queue's room |
| PoolOverRings.TasksConserved | fibers/scheduler/exe/executors/tp/fast/worker.cpp:104-165 | the same for conservation: global queue, contents of the rings, slots and hands, and finished tasks are together exactly the submitted ones, once each |
| StrandProofs.FirstInFirstOut | futures/executors/exe/executors/strand.cpp:8-64 | finished tasks, then the stolen batch, then the stack from its bottom, are always exactly the successful pushes in order, even when freed addresses are reused |
| StrandProofs.OneAtATime | futures/executors/exe/executors/strand.cpp:41-47 | no two threads are ever inside tasks of one strand |
| StrandProofs.TokenStep | futures/executors/exe/executors/strand.cpp:17-48 | flag + queued copies + token holders is 1 before and after every step |
| StrandProofs.NeverQueuedTwice | futures/executors/exe/executors/strand.cpp:22-24 | the intrusive task is in the executor at most once, and not at all while the flag is up or somebody holds the token |
| StrandProofs.NoLostSchedule | futures/executors/exe/executors/strand.cpp:26-39 | a non-empty stack is always somebody's business: queued, held, or about to be looked at again |
| StrandProofs.RestMeansDone | futures/executors/exe/executors/strand.cpp:8-49 | at rest every push has been executed, in order, and every node deleted |
| StrandProofs.NoDanglingAccess | futures/executors/exe/executors/strand.cpp:10-16 | no step reads or writes a deleted node |
| StrandProofs.StepKeepsInv | futures/executors/exe/executors/strand.cpp:8-64 | every atomic action keeps token, ownership, list shape and order |
| StrandProgress.StepWorks | futures/executors/exe/executors/strand.cpp:8-64 | once nothing new is handed in, every step of every thread, failed compare-exchanges included, lowers a measure of the work left |
| StrandProgress.StepsAreBounded | futures/executors/exe/executors/strand.cpp:8-64 | from any point of any run, with nothing new handed in, at most that many steps can follow |
| StrandProgress.MeasureInNumbers | futures/executors/exe/executors/strand.cpp:10-15 | the measure is quadratic in the pushes under way and linear in stack, batch and threads |
| StrandProgress.EveryPushIsExecuted | futures/executors/exe/executors/strand.cpp:26-49 | when a run cannot go on, all tasks pushed have been executed, in that order, and every node is deleted |
| StrandHistory.CreatedIsPushed | futures/executors/exe/executors/strand.cpp:8-15 | in every state of every run and for every task: it has been pushed as often as Execute was called with it, less the threads still about to push it |
| StrandHistory.EverythingIsExecuted | futures/executors/exe/executors/strand.cpp:8-49 | when a run cannot go on, exactly the tasks that Execute was called with have been executed, each as often |
| StrandHistory.PushedInOrder | futures/executors/exe/executors/strand.cpp:8-15 | each thread's tasks are pushed in the order of its calls of Execute |
| StrandHistory.ExecutedInThreadOrder | futures/executors/exe/executors/strand.cpp:8-49 | when a run cannot go on, each thread's tasks have been executed in the order of its calls of Execute |
| Strands.TaskNode.Reverse | futures/executors/exe/executors/strand.cpp:53-64 | in-place reversal of the heap list: same nodes, opposite order, tasks untouched |
| Strands.TaskNode.TurnedAround | futures/executors/exe/executors/strand.cpp:53-64 | what one turn of the loop does to the two halves of the list |
| Strands.Strand.constructor | futures/executors/exe/executors/strand.cpp:5-6 | an empty stack, the flag up: whole new state, invariant kept |
| Strands.Strand.Create | futures/executors/exe/executors/strand.cpp:9 | a fresh node holding the task, possibly at a reused address: whole new state, invariant kept |
| Strands.Strand.LoadHead | futures/executors/exe/executors/strand.cpp:11-12 | read of tasks_ into prev_: whole new state, invariant kept |
| Strands.Strand.PushExchange | futures/executors/exe/executors/strand.cpp:13-15 | compare-exchange of tasks_; success appends to the pushes even if the expected address was freed and reused: whole new state, invariant kept |
| Strands.Strand.TestFlag | futures/executors/exe/executors/strand.cpp:17 | exchange of the flag; whoever takes it is alone entitled to schedule the strand: whole new state, invariant kept |
| Strands.Strand.Schedule | futures/executors/exe/executors/strand.cpp:18 | hand-over to the executor, which then holds exactly one copy: whole new state, invariant kept |
| Strands.Strand.Start | futures/executors/exe/executors/strand.cpp:26 | the executor runs the strand and nobody else is entitled to it: whole new state, invariant kept |
| Strands.Strand.Steal | futures/executors/exe/executors/strand.cpp:27 | exchange of tasks_ with null: whole new state, invariant kept |
| Strands.Strand.SetFlag | futures/executors/exe/executors/strand.cpp:30 | store of the flag: whole new state, invariant kept |
| Strands.Strand.Recheck | futures/executors/exe/executors/strand.cpp:31-33 | second look at tasks_: whole new state, invariant kept |
| Strands.Strand.Reclaim | futures/executors/exe/executors/strand.cpp:34-37 | exchange of the flag after the second look, as in TestFlag: whole new state, invariant kept |
| Strands.Strand.ReverseOne | futures/executors/exe/executors/strand.cpp:57-62 | one turn of the reversing loop: whole new state, invariant kept |
| Strands.Strand.ReverseDone | futures/executors/exe/executors/strand.cpp:63 | the end of it: whole new state, invariant kept |
| Strands.Strand.BeginTask | futures/executors/exe/executors/strand.cpp:41-42 | the next task of the batch: whole new state, invariant kept |
| Strands.Strand.EndTask | futures/executors/exe/executors/strand.cpp:42-43 | the executed task is the next one in push order: whole new state, invariant kept |
| Strands.Strand.Free | futures/executors/exe/executors/strand.cpp:44-46 | the node is deleted after its link has been read: whole new state, invariant kept |
| Strands.Strand.DrainDone | futures/executors/exe/executors/strand.cpp:41-48 | the batch is done: whole new state, invariant kept |
| QueueSpinLockModel.MutualExclusion | mutex/queue/queue_spinlock.hpp:50-71 | at most one thread in the critical section, for any number of threads |
| QueueSpinLockModel.FirstComeFirstServed | mutex/queue/queue_spinlock.hpp:50-59 | critical sections are entered in the order of the exchanges of end_ |
| QueueSpinLockModel.NoDanglingAccess | mutex/queue/queue_spinlock.hpp:61-71 | no step touches a node whose guard is gone, including while a successor has exchanged but not linked |
| QueueSpinLockModel.NeverStuck | mutex/queue/queue_spinlock.hpp:63-70 | while anybody is queued, the head can move or its successor can finish linking |
| QueueSpinLockModel.LockEndsInside | mutex/queue/queue_spinlock.hpp:50-59 | a lock() that returns does so in the critical section, with the guard it was called with |
| QueueSpinLockModel.UnlockEndsOutside | mutex/queue/queue_spinlock.hpp:61-71 | an unlock() that returns does so outside with its guard gone; the lock is free at once if nobody had exchanged after it, and otherwise whoever exchanged next, and nobody else, has been let in |
| QueueSpinLockModel.EveryoneElseGetsOn | mutex/queue/queue_spinlock.hpp:50-71 | whoever is not waiting for its predecessor's signal or its successor's link can take its next step, and that gets it on |
| QueueSpinLockModel.AloneInside | mutex/queue/queue_spinlock.hpp:50-59 | whoever is inside is the head of the queue and alone |
| QueueSpinLockModel.StepKeepsInv | mutex/queue/queue_spinlock.hpp:50-71 | every atomic access keeps nodes, queue, links and order |
| QueueSpinLocks.QueueSpinLock.constructor | mutex/queue/queue_spinlock.hpp:29-30 | no node: whole new state, invariant kept |
| QueueSpinLocks.QueueSpinLock.Construct | mutex/queue/queue_spinlock.hpp:36 | a guard at a free address: whole new state, invariant kept |
| QueueSpinLocks.QueueSpinLock.Exchange | mutex/queue/queue_spinlock.hpp:51-52 | exchange of end_: whole new state, invariant kept |
| QueueSpinLocks.QueueSpinLock.Link | mutex/queue/queue_spinlock.hpp:53 | link to the predecessor: whole new state, invariant kept |
| QueueSpinLocks.QueueSpinLock.Spin | mutex/queue/queue_spinlock.hpp:55-57 | one look at the own flag; leaving the loop means being alone inside: whole new state, invariant kept |
| QueueSpinLocks.QueueSpinLock.TryClose | mutex/queue/queue_spinlock.hpp:62-64 | compare-exchange of end_ with null, which succeeds exactly when nobody else is queued: whole new state, invariant kept |
| QueueSpinLocks.QueueSpinLock.Poll | mutex/queue/queue_spinlock.hpp:66-68 | one look at the own link: whole new state, invariant kept |
| QueueSpinLocks.QueueSpinLock.LoadNext | mutex/queue/queue_spinlock.hpp:69 | load of the link: it is the node of whoever exchanged next: whole new state, invariant kept |
| QueueSpinLocks.QueueSpinLock.Signal | mutex/queue/queue_spinlock.hpp:69 | whoever exchanged next is let in, and nobody else: whole new state, invariant kept |
| QueueSpinLocks.QueueSpinLock.Destroy | mutex/queue/queue_spinlock.hpp:40-42 | the guard goes when nobody can reach it: whole new state, invariant kept |
| TicketLocks.TryExchangeSandwich | mutex/try-lock/ticket_lock.hpp:24-28 | the compare-exchange finds the value of the owner read earlier exactly when all three reads agree; then the lock is free and the stored ticket is the next one |
| TicketLocks.MutualExclusion | mutex/try-lock/ticket_lock.hpp:15-34 | at most one holder, through Lock and TryLock alike |
| TicketLocks.TicketsAreUnique | mutex/try-lock/ticket_lock.hpp:15-22 | each ticket in [owner, next) belongs to exactly one thread, and no thread has another |
| TicketLocks.FirstComeFirstServed | mutex/try-lock/ticket_lock.hpp:15-22 | the lock is entered in ticket order, nobody skipped |
| TicketLocks.TryLockExact | mutex/try-lock/ticket_lock.hpp:24-28 | at its compare-exchange TryLock succeeds if and only if owner, next ticket and the owner it remembers agree; it then takes one ticket, otherwise it changes nothing |
| TicketLocks.TryLockSucceedsIff | mutex/try-lock/ticket_lock.hpp:24-28 | for its first read at event i and its compare-exchange at event j: TryLock gets the lock if and only if the next ticket at j is the owner at i, whatever happened in between |
| TicketLocks.TryLockCall | mutex/try-lock/ticket_lock.hpp:24-28 | TryLock from its call to its return: it never waits, and has the lock exactly in that case |
| TicketLocks.UncontendedTryLock | mutex/try-lock/ticket_lock.hpp:24-28 | a TryLock of a free lock that nobody touches meanwhile gets it |
| TicketLocks.LockCall | mutex/try-lock/ticket_lock.hpp:15-22 | Lock from its call to its return: it has the lock, in the turn of the one ticket that it took |
| TicketLocks.LockWaitsForItsTurn | mutex/try-lock/ticket_lock.hpp:18-21 | it waits exactly until the owner is the ticket that it took |
| TicketLocks.UnlockLetsNextIn | mutex/try-lock/ticket_lock.hpp:31-34 | Unlock leaves the lock free, or whoever took the next ticket enters at its next look |
| TicketLocks.EveryoneCanAct | mutex/try-lock/ticket_lock.hpp:15-34 | nobody waits inside TryLock, and in Lock only for its turn |
| TicketLocks.NeverStuck | mutex/try-lock/ticket_lock.hpp:31-34 | while tickets are out, the owner's ticket is with a thread that holds the lock or enters at its next look |
| TicketLocks.TicketLock.constructor | mutex/try-lock/ticket_lock.hpp:36-38 | no ticket taken: whole new state, invariant kept |
| TicketLocks.TicketLock.TakeTicket | mutex/try-lock/ticket_lock.hpp:16 | fetch_add of the next ticket: whole new state, invariant kept |
| TicketLocks.TicketLock.CheckOwner | mutex/try-lock/ticket_lock.hpp:19-21 | one turn of the loop; entering means nobody else is inside: whole new state, invariant kept |
| TicketLocks.TicketLock.LoadOwner | mutex/try-lock/ticket_lock.hpp:25 | first read of TryLock: the owner is remembered: whole new state, invariant kept |
| TicketLocks.TicketLock.LoadNext | mutex/try-lock/ticket_lock.hpp:26-27 | second read of TryLock: whole new state, invariant kept |
| TicketLocks.TicketLock.TryExchange | mutex/try-lock/ticket_lock.hpp:26-27 | success exactly when the lock is free: whole new state, invariant kept |
| TicketLocks.TicketLock.Unlock | mutex/try-lock/ticket_lock.hpp:31-34 | the owner moves on: whole new state, invariant kept |
| CyclicBarriers.ExactTally | condvar/barrier/cyclic_barrier.hpp:30-51 | with the mutex free: gate shut, entered = n*r + waiting, waiting < n, exited = n*r; or open, entered = n*r, exited = n*r - waiting |
| CyclicBarriers.NobodyLeavesEarly | condvar/barrier/cyclic_barrier.hpp:37-46 | a thread returns from round r only when n*(r + 1) have entered |
| CyclicBarriers.NobodyEntersEarly | condvar/barrier/cyclic_barrier.hpp:32-36 | a thread is counted into round r only when all n*r earlier participants have returned |
| CyclicBarriers.NoLostWakeup | condvar/barrier/cyclic_barrier.hpp:42-50 | a sleeper's condition is really false, and an open gate has an awake thread that can pass it |
| CyclicBarriers.TalliesCountCalls | condvar/barrier/cyclic_barrier.hpp:30-51 | the two tallies are what they are called: the calls that have got past the first loop, and the calls that have returned, counted in events |
| CyclicBarriers.AwakeGetsOn | condvar/barrier/cyclic_barrier.hpp:30-51 | whoever is awake can go on: past the first loop exactly if the gate is shut, past the second exactly if it is open, at once if it completes the round, and otherwise to sleep |
| CyclicBarriers.StepKeepsInv | condvar/barrier/cyclic_barrier.hpp:30-51 | every stretch under the mutex, and spurious wakeups, keep the tally |
| CyclicBarriers.CyclicBarrier.constructor | condvar/barrier/cyclic_barrier.hpp:25-27 | nobody waiting, gate shut: the whole new state |
| CyclicBarriers.CyclicBarrier.Arrive | condvar/barrier/cyclic_barrier.hpp:30-44 | a call up to its first wait or to its end: the whole new state |
| CyclicBarriers.CyclicBarrier.PassFilter | condvar/barrier/cyclic_barrier.hpp:32-36 | waking in the first loop: the whole new state |
| CyclicBarriers.CyclicBarrier.PassGate | condvar/barrier/cyclic_barrier.hpp:42-51 | waking in the second loop; returns exactly when the gate is open: the whole new state |
| CyclicBarriers.CyclicBarrier.WakeSpuriously | condvar/barrier/cyclic_barrier.hpp:33 | a wait that returns for no reason: the whole new state |
| FutexProofs.OnePlace | fibers/scheduler/exe/fibers/core/fiber.cpp:16-31 | each fiber is in one place only: executed, suspended, in one futex queue once, in the executor once, or finished |
| FutexProofs.ScheduledOncePerSuspension | fibers/scheduler/exe/fibers/core/fiber.cpp:21-31 | at most one Schedule follows each suspension, and it has happened exactly when the fiber is not dormant |
| FutexProofs.NoDanglingAccess | fibers/scheduler/exe/fibers/sync/futex.hpp:91-107 | no event touches an awaiter whose stack frame is gone, and the handle is valid when it is released |
| FutexProofs.DestroyedWhenDone | fibers/scheduler/exe/fibers/sync/futex.hpp:53-60 | an awaiter is destroyed unlinked, popped by nobody, and after its AwaitSuspend has let go of the lock |
| FutexProofs.WakesOldest | fibers/scheduler/exe/fibers/sync/futex.hpp:62-71 | a wake takes the waiter linked first and moves nobody else |
| FutexProofs.EmptyMeansNobody | fibers/scheduler/exe/fibers/sync/futex.hpp:73-81 | a wake that finds the queue empty leaves nobody parked there |
| FutexProofs.ParkedSawExpected | fibers/scheduler/exe/fibers/sync/futex.hpp:91-100 | a fiber is left parked only if the cell still had the expected value, with every waker locked out |
| FutexProofs.LockIsReleased | fibers/scheduler/exe/fibers/sync/futex.hpp:91-107 | whoever holds a spin lock can take its next step towards releasing it |
| FutexProofs.PoppedWasParked | fibers/scheduler/exe/fibers/sync/futex.hpp:67 | what a wake pops has finished its AwaitSuspend |
| FutexProofs.ReturnUnlinked | fibers/scheduler/exe/fibers/sync/futex.hpp:34-37 | the Unlink of the destructor finds nothing to do |
| FutexProofs.UnlinkedSplit | fibers/scheduler/exe/fibers/sync/futex.hpp:97 | unlinking takes out one entry and keeps the order of the rest |
| FutexProofs.StepKeepsInv | fibers/scheduler/exe/fibers/sync/futex.hpp:53-107 | every event, on any number of fibers and futexes, keeps places, books, queues and locks |
| FutexCalls.ParkIfEqualCall | fibers/scheduler/exe/fibers/sync/futex.hpp:53-60 | ParkIfEqual from its call to its return: it looks at the cell under the lock; if it has the expected value the fiber is parked there and returns only after a wake has popped it, otherwise it returns by itself and is never parked |
| FutexCalls.WakeOneCall | fibers/scheduler/exe/fibers/sync/futex.hpp:62-71 | WakeOne from its call to its return: one look at the queue, which pops the one who has waited longest, and nobody else |
| FutexCalls.WakeAllCall | fibers/scheduler/exe/fibers/sync/futex.hpp:73-81 | WakeAll: pops one after the other, the longest waiting first, until it finds nobody |
| FutexCalls.LookPops | fibers/scheduler/exe/fibers/sync/futex.hpp:66-69 | a look at a non-empty queue pops its head, which was parked there |
| FutexCalls.RunsThroughExecutor | fibers/scheduler/exe/fibers/core/fiber.cpp:16-31 | a fiber that is started or yields runs again only when the executor resumes it, having been given it exactly once |
| FutexCalls.CellHoldsLastWrite | fibers/scheduler/exe/fibers/sync/futex.hpp:41-44 | a cell holds what was written to it last |
| FutexCalls.NobodyStuck | fibers/scheduler/exe/fibers/sync/futex.hpp:53-107 | a fiber that is neither parked nor finished can be moved on, by its own next step, by the waker that has popped it, or once a spin lock is free whose owner can move |
| FiberSystems.FiberSystem.constructor | fibers/scheduler/exe/fibers/sync/futex.hpp:43-44 | no fibers, empty queues: whole new state of fibers, futexes and executor |
| FiberSystems.FiberSystem.Unlink | fibers/scheduler/exe/fibers/sync/futex.hpp:97 | the list walk takes out exactly that node: whole new state of fibers, futexes and executor |
| FiberSystems.FiberSystem.Start | fibers/scheduler/exe/fibers/core/fiber.cpp:66-69 | a new fiber goes to the executor: whole new state of fibers, futexes and executor |
| FiberSystems.FiberSystem.Resume | fibers/scheduler/exe/fibers/core/fiber.cpp:21-25 | the executor runs a fiber, of which it holds no second copy: whole new state of fibers, futexes and executor |
| FiberSystems.FiberSystem.Yield | fibers/scheduler/exe/fibers/core/fiber.cpp:16-20 | suspension: whole new state of fibers, futexes and executor |
| FiberSystems.FiberSystem.YieldSchedule | fibers/scheduler/exe/fibers/core/fiber.cpp:26-27 | scheduled again by its awaiter: whole new state of fibers, futexes and executor |
| FiberSystems.FiberSystem.Finish | fibers/scheduler/exe/fibers/core/fiber.cpp:28-30 | the fiber is gone: whole new state of fibers, futexes and executor |
| FiberSystems.FiberSystem.Write | fibers/scheduler/exe/fibers/sync/futex.hpp:41-44 | a fiber changes a cell: whole new state of fibers, futexes and executor |
| FiberSystems.FiberSystem.ParkIfEqual | fibers/scheduler/exe/fibers/sync/futex.hpp:53 | the call: whole new state of fibers, futexes and executor |
| FiberSystems.FiberSystem.Announce | fibers/scheduler/exe/fibers/sync/futex.hpp:54-56 | lock, awaiter, SetAwaiter: whole new state of fibers, futexes and executor |
| FiberSystems.FiberSystem.Suspend | fibers/scheduler/exe/fibers/sync/futex.hpp:57-58 | unlock and suspend: whole new state of fibers, futexes and executor |
| FiberSystems.FiberSystem.Link | fibers/scheduler/exe/fibers/sync/futex.hpp:92-95 | AwaitSuspend: handle, lock, link: whole new state of fibers, futexes and executor |
| FiberSystems.FiberSystem.CheckCell | fibers/scheduler/exe/fibers/sync/futex.hpp:96-97 | the cell is looked at again; unlinked exactly on a mismatch: whole new state of fibers, futexes and executor |
| FiberSystems.FiberSystem.Refuse | fibers/scheduler/exe/fibers/sync/futex.hpp:98 | scheduled at once: whole new state of fibers, futexes and executor |
| FiberSystems.FiberSystem.LeaveSuspend | fibers/scheduler/exe/fibers/sync/futex.hpp:99-100 | AwaitSuspend lets go of the lock: whole new state of fibers, futexes and executor |
| FiberSystems.FiberSystem.Relock | fibers/scheduler/exe/fibers/sync/futex.hpp:59 | the resumed fiber locks: whole new state of fibers, futexes and executor |
| FiberSystems.FiberSystem.Return | fibers/scheduler/exe/fibers/sync/futex.hpp:59-60 | awaiter destroyed, then unlocked; the fiber is in no futex's queue: whole new state of fibers, futexes and executor |
| FiberSystems.FiberSystem.Wake | fibers/scheduler/exe/fibers/sync/futex.hpp:62 | the call: whole new state of fibers, futexes and executor |
| FiberSystems.FiberSystem.WakeLock | fibers/scheduler/exe/fibers/sync/futex.hpp:64 | lock: whole new state of fibers, futexes and executor |
| FiberSystems.FiberSystem.WakeNext | fibers/scheduler/exe/fibers/sync/futex.hpp:66-67 | whoever is popped was parked here, longer than all who still are: whole new state of fibers, futexes and executor |
| FiberSystems.FiberSystem.Awake | fibers/scheduler/exe/fibers/sync/futex.hpp:103-107 | the same, with the invariant: whole new state of fibers, futexes and executor |
| FiberSystems.FiberSystem.WakeUnlock | fibers/scheduler/exe/fibers/sync/futex.hpp:70-71 | unlock: whole new state of fibers, futexes and executor |
| FiberSystems.FiberSystem.Do | fibers/scheduler/exe/fibers/sync/futex.hpp:53-107 | any of these by name: whole new state of fibers, futexes and executor |
| Monitors.MutualExclusion | fibers/scheduler/exe/fibers/sync/mutex.hpp:11-20 | at most one fiber between getting the fiber mutex and giving it up |
| Monitors.NoLostWakeup | fibers/scheduler/exe/fibers/sync/mutex.hpp:11-20 | a non-empty queue and a free mutex imply an unlocker yet to call WakeOne, or a fiber released from waiter_ yet to retry its exchange; a fiber back from the bell does not count |
| Monitors.SomebodyIsAwake | fibers/scheduler/exe/fibers/sync/mutex.hpp:11-20 | while a fiber waits for the mutex, some fiber busy with it is not parked |
| Monitors.NotifyAllLetsEveryoneGo | fibers/scheduler/exe/fibers/sync/condvar.hpp:29-32 | once NotifyAll has returned, no Wait that read val_ before its increment is parked or ever will be |
| Monitors.NotifyOneOnEmptyBell | fibers/scheduler/exe/fibers/sync/condvar.hpp:24-27 | the same for a NotifyOne that found nobody |
| Monitors.NotifyOneReleasesOldest | fibers/scheduler/exe/fibers/sync/condvar.hpp:24-27 | a NotifyOne that finds waiters releases exactly the one linked first |
| Monitors.EarlierReadIsLess | fibers/scheduler/exe/fibers/sync/condvar.hpp:17-32 | a read of val_ before an increment noticed less than the increment wrote |
| Monitors.ProjectsToFutexRun | fibers/scheduler/exe/fibers/sync/futex.hpp:53-107 | refinement: every run of mutex and condition variable is a run of the futex model, so its theorems apply |
| Monitors.StepKeepsInv | fibers/scheduler/exe/fibers/sync/condvar.hpp:17-32 | every step of Lock, Unlock, Wait and Notify, and every futex step below them, keeps the invariant |
| MonitorCalls.WaitEndsHolding | fibers/scheduler/exe/fibers/sync/condvar.hpp:17-22 | Wait from its call to its return: its caller held the mutex, gave it up in between, and holds it again |
| MonitorCalls.WaitNeedsNotify | fibers/scheduler/exe/fibers/sync/condvar.hpp:17-22 | it returns only for a reason: val_ differed in between from what it was at the call, or a notify took this very fiber out of the bell's queue |
| MonitorCalls.WaitParksIffUnchanged | fibers/scheduler/exe/fibers/sync/condvar.hpp:18-20 | it is left parked if and only if val_ is still what it was when Wait read it |
| MonitorCalls.LockEndsHolding | fibers/scheduler/exe/fibers/sync/mutex.hpp:11-15 | Lock returns with the mutex |
| MonitorCalls.LockParksIffTaken | fibers/scheduler/exe/fibers/sync/mutex.hpp:12-14 | Lock is left parked if and only if the mutex is taken when it looks again |
| MonitorCalls.ExchangeWinsIffFree | fibers/scheduler/exe/fibers/sync/mutex.hpp:12 | its exchange gets the mutex if and only if nobody has it |
| MonitorCalls.UnlockCall | fibers/scheduler/exe/fibers/sync/mutex.hpp:17-20 | Unlock gives up the mutex at once, then wakes, and returns without it |
| MonitorCalls.UnlockWakesOne | fibers/scheduler/exe/fibers/sync/mutex.hpp:19 | that wake is a WakeOne on waiter_ |
| MonitorCalls.NotifyCall | fibers/scheduler/exe/fibers/sync/condvar.hpp:24-32 | NotifyOne and NotifyAll raise val_ by one, then wake one or all on the bell, and return where they were called, with the mutex or without |
| MonitorCalls.RunningGetsOn | fibers/scheduler/exe/fibers/sync/condvar.hpp:17-32 | a fiber between two calls on the futexes can take its next step |
| MonitorObjects.Monitor.constructor | fibers/scheduler/exe/fibers/sync/mutex.hpp:33-34 | both cells at zero: whole new state |
| MonitorObjects.Monitor.Inner | fibers/scheduler/exe/fibers/sync/futex.hpp:53-107 | a futex, executor or fiber step; a fiber back from a park goes for the mutex: whole new state |
| MonitorObjects.Monitor.Lock | fibers/scheduler/exe/fibers/sync/mutex.hpp:11 | the call: whole new state |
| MonitorObjects.Monitor.Exchange | fibers/scheduler/exe/fibers/sync/mutex.hpp:12 | the loop condition; winning means nobody else is inside: whole new state |
| MonitorObjects.Monitor.CallPark | fibers/scheduler/exe/fibers/sync/mutex.hpp:13 | park on a taken mutex: whole new state |
| MonitorObjects.Monitor.LoadVal | fibers/scheduler/exe/fibers/sync/condvar.hpp:18 | Wait reads val_: whole new state |
| MonitorObjects.Monitor.Store | fibers/scheduler/exe/fibers/sync/mutex.hpp:18 | the mutex is given up: whole new state |
| MonitorObjects.Monitor.CallWake | fibers/scheduler/exe/fibers/sync/mutex.hpp:19 | wake one: whole new state |
| MonitorObjects.Monitor.CallBell | fibers/scheduler/exe/fibers/sync/condvar.hpp:20 | park on the noticed value: whole new state |
| MonitorObjects.Monitor.FetchAdd | fibers/scheduler/exe/fibers/sync/condvar.hpp:25 | the counter goes up: whole new state |
| MonitorObjects.Monitor.CallRing | fibers/scheduler/exe/fibers/sync/condvar.hpp:26 | wake one or all: whole new state |
| SharedStates.FiresAtMostOnce | futures/futures/exe/futures/core/detail/shared_state.hpp:51-76 | in every interleaving of SetResult and SetCallback the callback is handed over at most once, with the result that was set |
| SharedStates.FiresExactlyOnce | futures/futures/exe/futures/core/detail/shared_state.hpp:51-76 | once both have returned it has been handed over exactly once, and never before both were made |
| SharedStates.SubmitFindsBoth | futures/futures/exe/futures/core/detail/shared_state.hpp:69-76 | the winner of the exchange finds callback and result in place, and there is one winner |
| SharedStates.NobodyWaits | futures/futures/exe/futures/core/detail/shared_state.hpp:51-76 | neither call waits for the other: each can take its next step until it returns |
| SharedStates.ActKeepsInv | futures/futures/exe/futures/core/detail/shared_state.hpp:51-76 | every atomic access keeps the count of claims on the callback at one |
| SharedStates.SharedState.constructor | futures/futures/exe/futures/core/detail/shared_state.hpp:27-28 | empty: whole new state, invariant kept |
| SharedStates.SharedState.Write | futures/futures/exe/futures/core/detail/shared_state.hpp:52 | the result is written: whole new state, invariant kept |
| SharedStates.SharedState.StoreResultReady | futures/futures/exe/futures/core/detail/shared_state.hpp:53 | store of result_ready_: whole new state, invariant kept |
| SharedStates.SharedState.TryFromProducer | futures/futures/exe/futures/core/detail/shared_state.hpp:54 | winning means both are in place: whole new state, invariant kept |
| SharedStates.SharedState.Take | futures/futures/exe/futures/core/detail/shared_state.hpp:71-74 | exactly the one result goes to the executor: whole new state, invariant kept |
| SharedStates.SharedState.NotifyAll | futures/futures/exe/futures/core/detail/shared_state.hpp:55 | the end of SetResult: whole new state, invariant kept |
| SharedStates.SharedState.WriteCallback | futures/futures/exe/futures/core/detail/shared_state.hpp:61 | the callback is written: whole new state, invariant kept |
| SharedStates.SharedState.StoreCallbackReady | futures/futures/exe/futures/core/detail/shared_state.hpp:62 | store of callback_ready_: whole new state, invariant kept |
| SharedStates.SharedState.LoadResultReady | futures/futures/exe/futures/core/detail/shared_state.hpp:63 | load of result_ready_: whole new state, invariant kept |
| SharedStates.SharedState.TryFromConsumer | futures/futures/exe/futures/core/detail/shared_state.hpp:64 | winning means both are in place: whole new state, invariant kept |
| Continuations.ErrorsShortCircuit | futures/futures/exe/futures/core/future.ipp:56-59 | the first error reaches the end of the chain untouched |
| Continuations.DeliversOnlyTheFold | futures/futures/exe/futures/core/future.ipp:45-100 | in every state of every run: the last callback has been called at most once, with the fold of the continuations over the source; every future between holds only its part of that fold |
| Continuations.DeliversFoldOfWhatWasSet | futures/futures/exe/futures/core/future.ipp:45-100 | in terms of the calls: the last callback is only ever given the fold of the initial continuations over what SetSource was called with |
| Continuations.SourceIsWhatWasSet | futures/futures/exe/futures/core/future.ipp:45-100 | the source's result is the argument of the one SetSource |
| Continuations.CompleteRunsDeliver | futures/futures/exe/futures/core/future.ipp:45-100 | a run with nothing left to do has called it exactly once |
| Continuations.RunsAreBounded | futures/futures/exe/futures/core/future.ipp:45-100 | every run ends, after at most 24 n + 11 steps |
| Continuations.StepKeepsInv | futures/futures/exe/futures/core/future.ipp:45-100 | every step of every producer, subscriber, inner future and executor task keeps the invariant |
| Continuations.StepWorks | futures/futures/exe/futures/core/detail/shared_state.hpp:51-76 | every step makes progress |
| AllCombinators.SetsAtMostOnce | futures/futures/exe/futures/combine/all.hpp:29-44 | with inputs completed at any time, before or after their subscription: the promise is set at most once, to all values in input order or to the error that won the exchange |
| AllCombinators.CompleteRunsSet | futures/futures/exe/futures/combine/all.hpp:29-44 | once all inputs are complete it has been set exactly once, with values if and only if all inputs are values |
| AllCombinators.NobodyWaits | futures/futures/exe/futures/combine/all.hpp:29-44 | no callback waits for another input; once any failing one has ended, the promise has its error or is about to get it from the winner, however many inputs are outstanding |
| AllCombinators.OrdersAreEventOrders | futures/futures/exe/futures/combine/all.hpp:29-44 | who won is decided by the order of the exchanges and additions in the run, and the inputs are what they were at the start |
| AllCombinators.NumbersArePositions | futures/futures/exe/futures/combine/detail/combine.hpp:12-23 | the combining loop gives each input its own position as its number |
| AllCombinators.RunsAreBounded | futures/futures/exe/futures/combine/all.hpp:20-44 | every run, rendezvous of every input included, ends after at most 16 steps for each input |
| AllCombinators.AllAdded | futures/futures/exe/futures/combine/all.hpp:36-41 | when the counter reaches the limit every slot holds its input's value |
| AllCombinators.StepKeepsInv | futures/futures/exe/futures/combine/all.hpp:20-44 | every access of Acquire and Release, and every access of every input's shared state, keeps the invariant |
| AllCombinators.AllCombinator.constructor | futures/futures/exe/futures/combine/all.hpp:16-18 | empty slots: whole new state |
| AllCombinators.AllCombinator.Acquire | futures/futures/exe/futures/combine/all.hpp:20-27 | one input gets the next number: whole new state |
| AllCombinators.AllCombinator.Combine | futures/futures/exe/futures/combine/detail/combine.hpp:18-20 | the loop: every input is subscribed under its own position: whole new state |
| AllCombinators.AllCombinator.Complete | futures/futures/exe/futures/core/detail/shared_state.hpp:52 | an input's result is written: whole new state |
| AllCombinators.AllCombinator.Meet | futures/futures/exe/futures/core/detail/shared_state.hpp:53-76 | one access of an input's rendezvous: whole new state |
| AllCombinators.AllCombinator.Deliver | futures/futures/exe/futures/combine/all.hpp:30 | the callback that the rendezvous handed over runs and goes by the input's own result: whole new state |
| AllCombinators.AllCombinator.Exchange | futures/futures/exe/futures/combine/all.hpp:31 | winning means nothing has been set: whole new state |
| AllCombinators.AllCombinator.SetError | futures/futures/exe/futures/combine/all.hpp:32 | the only Set: whole new state |
| AllCombinators.AllCombinator.Store | futures/futures/exe/futures/combine/all.hpp:36 | the value goes to its slot: whole new state |
| AllCombinators.AllCombinator.Add | futures/futures/exe/futures/combine/all.hpp:37 | being last means all slots are full: whole new state |
| AllCombinators.AllCombinator.Collect | futures/futures/exe/futures/combine/all.hpp:38-42 | the loop collects all values in input order; the only Set: whole new state |
| FirstOfCombinators.SetsAtMostOnce | futures/futures/exe/futures/combine/first_of.hpp:32-43 | with inputs completed at any time, before or after their subscription: the promise is set at most once, to the value that won the exchange or to the last error, and then only if all failed |
| FirstOfCombinators.CompleteRunsSet | futures/futures/exe/futures/combine/first_of.hpp:32-43 | once all inputs are complete it has been set exactly once if and only if there was an input at all |
| FirstOfCombinators.NobodyWaits | futures/futures/exe/futures/combine/first_of.hpp:32-43 | no callback waits for another input; once any with a value has ended, the promise has a value or is about to get it from the winner, however many inputs are outstanding |
| FirstOfCombinators.OrdersAreEventOrders | futures/futures/exe/futures/combine/first_of.hpp:32-43 | who won is decided by the order of the exchanges and subtractions in the run, and the inputs are what they were at the start |
| FirstOfCombinators.RunsAreBounded | futures/futures/exe/futures/combine/first_of.hpp:25-43 | every run, rendezvous of every input included, ends after at most 15 steps for each input |
| FirstOfCombinators.AllFailed | futures/futures/exe/futures/combine/first_of.hpp:33-37 | the counter reaches zero only if every input failed |
| FirstOfCombinators.StepKeepsInv | futures/futures/exe/futures/combine/first_of.hpp:25-43 | every access of Acquire and Release, and every access of every input's shared state, keeps the invariant |
| FirstOfCombinators.FirstOfCombinator.constructor | futures/futures/exe/futures/combine/first_of.hpp:22-23 | all inputs outstanding: whole new state |
| FirstOfCombinators.FirstOfCombinator.Acquire | futures/futures/exe/futures/combine/first_of.hpp:25-30 | one input is subscribed: whole new state |
| FirstOfCombinators.FirstOfCombinator.Combine | futures/futures/exe/futures/combine/detail/combine.hpp:18-20 | the loop: whole new state |
| FirstOfCombinators.FirstOfCombinator.Complete | futures/futures/exe/futures/core/detail/shared_state.hpp:52 | an input's result is written: whole new state |
| FirstOfCombinators.FirstOfCombinator.Meet | futures/futures/exe/futures/core/detail/shared_state.hpp:53-76 | one access of an input's rendezvous: whole new state |
| FirstOfCombinators.FirstOfCombinator.Deliver | futures/futures/exe/futures/combine/first_of.hpp:33 | the callback that the rendezvous handed over runs and goes by the input's own result: whole new state |
| FirstOfCombinators.FirstOfCombinator.Subtract | futures/futures/exe/futures/combine/first_of.hpp:34 | being last means all failed and nothing has been set: whole new state |
| FirstOfCombinators.FirstOfCombinator.SetError | futures/futures/exe/futures/combine/first_of.hpp:35 | the only Set: whole new state |
| FirstOfCombinators.FirstOfCombinator.Exchange | futures/futures/exe/futures/combine/first_of.hpp:40 | winning means nothing has been set: whole new state |
| FirstOfCombinators.FirstOfCombinator.SetValue | futures/futures/exe/futures/combine/first_of.hpp:41 | the only Set: whole new state |

## Left out

- Weak memory orders, cache effects and 64-bit wrap-around of indices, tickets and `val_`.
- `Stop` and everything after it: the closed flag is read outside the lock and the drain does not decrement the idle
  counter, so the invariants are those of a running pool.
- ThreadPools.ThreadPool.Spawn: only with room in the local queue; see LocalOverflow.ConservesIffRoom for the other case, which the pool model excludes because the code loses tasks there.
- ThreadPools.ThreadPool.LowSize: the size it reports is an argument, any number up to the size of the victim's queue, where the code loads two indices; PoolOverRings.StepSimulates has the two loads.
- ThreadPools.ThreadPool.GrabFromVictim: the number taken is an argument, anything that the ring's Grab can return, where the code reads slots and compares and exchanges; PoolOverRings.StepSimulates has these accesses.
- GlobalTasks.GlobalQueue.WaitIdle: a test of the idle counter, where the code blocks until it is zero; the waiting itself is in the pool's SeeQueueIdle and SeeWorkersIdle.
- AllCombinators.AllCombinator.Combine: the loop without interruption; runs in which inputs are completed and callbacks run between two turns of it are those of AllCombinators.SetsAtMostOnce.
- FirstOfCombinators.FirstOfCombinator.Combine: the same, for FirstOfCombinators.SetsAtMostOnce.
- PoolOverRings.StepSimulates: like the pool, for runs in which no TryPush is refused.
- `Recover`: its value branch calls `SetError(result.GetError())` on a result without an error, and what that yields is decided by the result library, which is not part of this model.
- `Strand::Discard`, throwing tasks on a strand, and executors that drop what they are given.
- `WaitGroup`: re-using it while a `Done` is in flight can raise its flag with tasks outstanding; the discipline that would exclude it is not in the code.
- `sleep_for`, coroutine context switches, stacks and thread-locals.
- Blocking consumption of a future (`GetReadyResult`, `GetResult`), `Via` and the choice of executor.
- Continuations.DeliversOnlyTheFold: the chain of futures is modelled on values, each shared state being the cell whose object form is SharedStates.SharedState; aliasing of shared states is not modelled (promise and future are each held once).
- `All` of no inputs, which is a ready future and never reaches the combinator.
- Liveness beyond what is stated: NoLostWakeup, NeverStuck and LockIsReleased say that the next step is there to be taken, not that a scheduler takes it.
- A bound on the turns of the spinning loops of the locks: a thread may look at its flag any number of times before it is let in.
- The mutex and condition variable for threads (`mutex/mutex`, `condvar/condvar`): the algorithms of `Monitor` on the operating system's futex, which is not part of this model.
- Metrics and allocators, which no decision of the code depends on.
- The other executors (`manual`, `inline`, the thread pool of one shared queue), blocking queues and semaphores: each is a collection or a counter under one mutex, with no protocol between its sections.
- Test-and-set spin locks, which are one exchange and one store; the programs that only show the libraries in use.
