# Verified model of the ORPC prototype

A Dafny model of the concurrent core of the repository: the observable ring queue, the blocking, waking and abort
protocol, the block cache with its asynchronous eviction policy, and the method-call wrapper. Everything is proved for
all inputs, all runs or all reachable states. `dafny verify dfyconfig.toml` checks the project.

## How it is built

The same pattern is used three times. A value-level specification or transition system says what may happen, one step for
each lock-protected region; lemmas prove what every run of it keeps; and imperative code in the source's own shape is
proved to take only such steps.

| part | specification | what is proved about it | imperative code proved against it |
|---|---|---|---|
| ring queue | `QueueSpec`: an unbounded history and one cursor per reader | exactly-once delivery, no overtaking, announced readiness (`QueueSpec`), what each operation, readiness test and wakeup amounts to (`QueueLaws`) | `LockingQueue.LockingTable`, `WeakObserver.LockingWeakObserver`, `QueueClient` |
| blocking and abort | `Protocol`: threads, queues and servers, interleaved in any order | wakeups are kept, exactly when (`ProtocolProofs`, `LostWakeup`), aborts arrive (`AbortProofs`), what a state owes to the steps before it (`ProtocolLaws`), registrations are conserved (`WaitListConservation`), who spins in `unpark` for ever (`UnparkSpin`), and which walks can be finished (`StuckGroups`, `WalksFinish`) | `BlockOn.Machine`, on objects of `Tasks.TaskList`, `Tasks.Task` and `LockingQueue.LockingTable` |
| block cache | `CacheProtocol`: readers, handler, lock holder and policy thread | cache and policy agree, first-in first-out eviction, transparency, waiters (`CacheProofs`), when the victim is the least recently used (`VictimOrder`), which misses can be answered (`AsyncMisses`) | `CacheServer.Cache`, on objects of `EvictionServer.PolicyServer` and the two policies of `EvictionPolicy` |
| method calls | `Rpc.EvalCall`: what a call tree means, with no current server | where a call ends and with what result, no body runs on an aborted server | `Rpc.Framework` |

`Protocol` runs on the channels of `QueueSpec`, and so does the insertion queue of `CacheProtocol`; `LockingTable` refines
the same channels. Where a method runs while other threads may run, the model calls a method that performs arbitrary steps
of theirs in between (`OthersRun`, `OthersSend`, `PolicyThreadRuns`, `OthersRead`). The imperative classes update their own
fields and objects, and record each lock-protected region as one step of the transition system (`Record`); `Runs` holds what
such a record is.

Some fields only record what happened and steer nothing: `history`, `Server.firstAborter`, and the last four fields of
`Policy` and the last three of `Desk`. `Desk.inFlight` is the device's side: it replies at most once to each request.

The model assumes at least one slot in the ring (the code divides by the number of slots) and a tail index that stays below
`usize::MAX`, which the code uses as its "no reader" mark. Mutex-protected regions are single steps, atomics are sequentially
consistent, and the underlying device is a fixed function from block ids to data.

## Where the code and its documentation differ

The model follows the code in each case.

- `weak_observe` promises nothing or the value at the index (orpc/src/oqueue/mod.rs:101-103). The guard also lets the tail
  index itself through (orpc/src/oqueue/locking.rs:223), where a full ring still holds the value of one turn earlier.
  `WeakObserver.WeakObservationPromise` gives the exact condition, `WeakObserver.StaleReadAtTheTail` an example.
- `weak_observe_recent(n)` is documented as the most recent `n` values (orpc/src/oqueue/mod.rs:128), but its range ends before
  the newest one: `WeakObserver.RecentOmitsTheNewest`.
- The `Blocker` contract says a registered task must be woken when its blocker may be ready again
  (orpc/src/sync/blocker.rs:87-88). Dropping a receiver or strong observer can make a sender ready and wakes nobody. Throughout
  a run, each waiter has a wakeup on the way for each ready blocker it has checked, if and only if no such drop frees a full
  queue that somebody has found full and still waits on with no waker under way: `ProtocolProofs.StepKeepsInvExactly`,
  `ProtocolProofs.RunKeepsInvExactly`. A waiter past its last check then oversleeps, until somebody receives from the
  queue or observes it: `ProtocolProofs.LossIsASleeper`, `LostWakeup.DroppedReaderLosesAWakeup`,
  `LostWakeup.OversleepsUntilWoken`.
- On an early return, `block_on` should leave all the lists it is on and return to the running state
  (orpc/src/sync/blocker.rs:53-55). It leaves only the list of the blocker that was ready, and stays `Blocking`:
  `ProtocolProofs.DeregistersFromOneList`, `BlockOn.Machine.BlockOn`. Outside `block_on`, a thread is `Blocking` if and only
  if it last returned from it without parking: `UnparkSpin.BlockingOutsideExactly`.
- `abort` is to wake all the server's threads (orpc/src/orpc_impl/framework.rs:66), and `wake_all` all the tasks it took
  (orpc/src/sync/blocker.rs:173-181). Both wait for each thread that is `Blocking`, and `abort` also for whoever walks the same
  server. Walks that wait for each other in a group never end: `StuckGroups.StuckForever`. In every reachable state a walk can
  be brought to its end if and only if its thread is in no such group: `WalksFinish.FinishesExactly`, and for the call
  `WalksFinish.AbortReturnsExactly`. This supposes that no `Blocking` thread it waits for is just about to take a list with a
  `Blocking` thread on it; then it is open who takes the list, and either may happen: `WalksFinish.OwnTakeIsStuck`,
  `WalksFinish.LateTakeFinishes`.
- Such groups come about. Two threads that returned early and then wake each other's stale registrations:
  `StuckGroups.CrossedWakes`. A single thread that comes to unpark itself while `Blocking`, by an early return or a panic at the
  first abort point and an abort of its own server: `UnparkSpin.OwnAbortPassesCallerExactly`, `UnparkSpin.EarlyReturnThenAbort`,
  `UnparkSpin.PanicThenAbort`; or by a stale registration on a list it wakes: `UnparkSpin.OwnWakePassesCallerExactly`,
  `UnparkSpin.EarlyReturnThenWake`. A `Blocking` thread that works for an aborted server holds up others until it works for
  another and parks: `UnparkSpin.AbortsAreHeldUp`, `UnparkSpin.ParkingLetsThemPass`.
- `LeastRecentlyUsed` evicts in order of announcement; hits do not count. Its victim is the least recently used block of the
  run if and only if each block announced before the last hit of the victim had a later hit of its own:
  `VictimOrder.VictimIsLeastRecentlyUsedExactly`. From any full cache with two tracked blocks, one hit makes it evict the most
  recently used: `VictimOrder.EvictsTheMostRecentlyUsed`.
- An asynchronous cache miss never reaches the underlying device, because its own waiter is already registered when the code
  looks for one (prefetcher_demo/src/cache.rs:128-135, 99-101). It can be answered if and only if a request for the same block
  is in flight when it arrives, and later prefetches of the block do not help it: `AsyncMisses.MissIsAnswerableExactly`,
  `AsyncMisses.StarvedForever`.
- Inserting a block that is in a full cache by then still evicts a victim first, and then inserts nothing, unless the victim
  was the block itself (prefetcher_demo/src/cache.rs:54-79): `CacheServer.Cache.InsertCachedBlock`.

## Model

| member | source | states |
|---|---|---|
| QueueSpec.RunKeepsWellFormed | orpc/src/oqueue/locking.rs:112-216 | after any run of operations by any handles, no attached reader has been overtaken, and the history is the old one plus exactly the accepted values |
| QueueSpec.ExactlyOnceToOne | orpc/src/oqueue/mod.rs:60-66 | while a receiver stays attached, what the receivers took, in lock order, followed by what is pending, is what was pending plus what was sent; never a whole ring's worth is pending |
| QueueSpec.TakenIsAStretch | orpc/src/oqueue/locking.rs:177-200 | what the receivers took is the stretch of history their shared cursor moved over |
| QueueSpec.ExactlyOnceToEach | orpc/src/oqueue/mod.rs:78-86 | what one strong observer is shown while attached is a gapless, repeat-free stretch of history, whatever all other readers do |
| QueueSpec.ReadinessIsAnnounced | orpc/src/sync/blocker.rs:77-94 | an operation that makes a waiting handle ready wakes the list it waits on, unless it drops a reader and the handle is a sender |
| QueueLaws.ReadyMeans | orpc/src/oqueue/locking.rs:313-487 | a receiver or strong observer is ready if and only if it has something pending, a weak observer if and only if the history is longer than the tail it saw, and a sender if and only if no reader has a whole window pending |
| QueueLaws.AttemptsMatchReadiness | orpc/src/oqueue/locking.rs:133-212 | an attempt succeeds only when its handle is ready, and is refused or empty only when it is not |
| QueueLaws.SendMeans | orpc/src/oqueue/locking.rs:133-149 | a send is refused if and only if some reader has a whole window pending, and otherwise extends the history by its value |
| QueueLaws.ReceiveMeans | orpc/src/oqueue/locking.rs:177-200 | a receive takes the first pending value and leaves the rest, and reports an empty queue only when nothing is pending |
| QueueLaws.ObserveMeans | orpc/src/oqueue/locking.rs:202-212 | a strong observation shows the first value its observer has pending, reports none only when there is none, and leaves every other reader as it was |
| QueueLaws.AttachMeans | orpc/src/oqueue/locking.rs:151-163 | attaching and dropping readers leaves what the others have pending, and an observer is refused only when all slots are live |
| QueueLaws.WakesExactly | orpc/src/oqueue/locking.rs:340-475 | the readers are woken if and only if the history grew, the senders if and only if some reader moved past a value |
| QueueLaws.NewsIsWhatWasAccepted | orpc/src/oqueue/locking.rs:484-487 | in every run, a weak observer that saw the tail at its start is ready at its end if and only if something was accepted |
| QueueLaws.ReceiversAreCounted | orpc/src/oqueue/locking.rs:151-163 | in every run, the receivers are those attached less those dropped, and the shared cursor is there exactly while there are any |
| QueueLaws.LiveObserversAreTheAttached | orpc/src/oqueue/locking.rs:241-264 | in every run, an observer slot is live if and only if the last that happened to it was an attachment; size, slots and variant never change |
| LockingQueue.LockingTable.constructor | orpc/src/oqueue/locking.rs:41-56 | a new table is the empty channel with no reader and all observer slots free |
| LockingQueue.LockingTable.AbsIsWellFormed | orpc/src/oqueue/locking.rs:92-110 | every valid ring stands for a channel whose readers are all inside the window |
| LockingQueue.LockingTable.CanSendIsExact | orpc/src/oqueue/locking.rs:117-131 | the modular full test refuses exactly when some attached reader is a full window behind the tail, and agrees with the channel's readiness |
| LockingQueue.LockingTable.CanReceiveIsExact | orpc/src/oqueue/locking.rs:165-188 | the index comparison of the readiness test agrees with the slot comparison of the attempt and with the channel, and means that the history is longer than the cursor |
| LockingQueue.LockingTable.CanStrongObserveIsExact | orpc/src/oqueue/locking.rs:165-216 | the same for each live strong observer |
| LockingQueue.LockingTable.TrySend | orpc/src/oqueue/locking.rs:133-149 | the send is accepted exactly when the readiness test passes, and extends the history; a refused value comes back with nothing changed |
| LockingQueue.LockingTable.TryTakeForHead | orpc/src/oqueue/locking.rs:165-175 | equal slots mean equal indices, so the debug assertion holds, and otherwise the slot holds the value at the reader's index |
| LockingQueue.LockingTable.TryReceive | orpc/src/oqueue/locking.rs:177-184 | the moving receive takes the value at the cursor exactly when the readiness test passes, reports none only when the cursor is at the tail, and never finds an empty cell |
| LockingQueue.LockingTable.TryReceiveClone | orpc/src/oqueue/locking.rs:190-200 | the cloning receive takes under the same condition and leaves the ring in place for observers |
| LockingQueue.LockingTable.TryStrongObserve | orpc/src/oqueue/locking.rs:202-212 | the observer is shown its next value exactly when it has one and the lock attempt succeeds |
| LockingQueue.LockingTable.AttachReceiver | orpc/src/oqueue/locking.rs:158-163 | the first receiver starts at the tail, later ones share its cursor, and the count goes up by one |
| LockingQueue.LockingTable.DropReceiver | orpc/src/oqueue/locking.rs:151-156 | the count goes down by one, and the last receiver takes the shared cursor with it |
| LockingQueue.LockingTable.AttachStrongObserver | orpc/src/oqueue/locking.rs:241-264 | a new observer gets a slot nobody has and starts at the tail; it fails exactly when all slots are live |
| LockingQueue.LockingTable.DropStrongObserver | orpc/src/oqueue/locking.rs:454-461 | the slot is free again, and no other reader changes |
| LockingQueue.LockingTable.WeakReadIsExact | orpc/src/oqueue/locking.rs:218-227 | the slot a weak observation reads holds the value at the index, and at the tail nothing or the value of one turn earlier |
| LockingQueue.LockingTable.TryWeakObserve | orpc/src/oqueue/locking.rs:218-227 | a weak observation returns exactly the channel's view of the index, for every index |
| QueueClient.PerformAll | orpc/src/oqueue/locking.rs:112-228 | any sequence of operations on one table, in either variant, is a run of the channel, operation by operation with the same results |
| QueueClient.ScriptIsRun | orpc/src/oqueue/locking.rs:112-228 | what happened in any such sequence, with the operations left out whose handle is missing, is one run of the channel from its first state to its last, so all that is proved about runs holds of it |
| QueueClient.HandleIsEnough | orpc/src/oqueue/locking.rs:112-228 | an operation has an outcome if and only if its handle exists, so none is left out that could have been performed |
| QueueClient.OperationMeans | orpc/src/oqueue/locking.rs:112-228 | what each operation does to the history and to what the readers have pending, whichever outcome it has |
| WeakObserver.WeakObservationPromise | orpc/src/oqueue/mod.rs:101-104 | a weak observation is nothing or the value at its index if and only if the index is not the tail of a ring that has filled |
| WeakObserver.StaleReadAtTheTail | orpc/src/oqueue/locking.rs:223-226 | a run of a fresh observable queue, two sends and one observation, on which the promise fails |
| WeakObserver.LockingWeakObserver.ShouldTry | orpc/src/oqueue/locking.rs:484-487 | the observer is ready if and only if the history of the table is longer than the tail it has seen |
| WeakObserver.LockingWeakObserver.WeakObserve | orpc/src/oqueue/locking.rs:499-504 | the observation is the view of the index, and the observer is not ready again until the next send |
| WeakObserver.LockingWeakObserver.OldestCursor | orpc/src/oqueue/locking.rs:510-522 | the oldest cursor is exactly the first index still in the ring |
| WeakObserver.LockingWeakObserver.WeakObserveRange | orpc/src/oqueue/mod.rs:118-126 | with any sends in between, the result is what the single observations of the growing history return |
| WeakObserver.RangeIsInOrder | orpc/src/oqueue/mod.rs:118-126 | for a range up to the starting tail, the result lists values at strictly increasing indices of the range, has all that are still in the ring at the end, and none that had left it at the start |
| WeakObserver.RangeIsExactWhenQuiet | orpc/src/oqueue/mod.rs:118-126 | without sends in between, the result is one slice of the history, for any bounds, plus the stale value when the range crosses the tail of a full ring |
| WeakObserver.LockingWeakObserver.WeakObserveRecent | orpc/src/oqueue/mod.rs:128-132 | the observation covers at most `n` indices ending just before the newest value |
| WeakObserver.RecentIsExactWhenQuiet | orpc/src/oqueue/mod.rs:128-132 | without sends in between, it returns the slice of up to `n` values before the newest one |
| WeakObserver.RecentOmitsTheNewest | orpc/src/oqueue/mod.rs:128-132 | its indices are those of the most recent `n` values if and only if `n` or the tail is zero |
| Tasks.TaskList.AddTask | orpc/src/sync/blocker.rs:153-161 | the task is appended unless it is there already |
| Tasks.AddedGoesLast | orpc/src/sync/blocker.rs:153-161 | the list keeps its order and grows at its end, by one task or none |
| Tasks.TaskList.RemoveTask | orpc/src/sync/blocker.rs:163-171 | the first entry of the task goes, the others stay in order |
| Tasks.RemovedIsDistinct | orpc/src/sync/blocker.rs:163-171 | removal from a list without repeats leaves none of the task behind |
| ProtocolProofs.OthersStay | orpc/src/sync/task.rs:46-57 | a step of one thread changes another at most by unparking it, and never while it checks its conditions |
| ProtocolProofs.StepKeepsRegistration | orpc/src/sync/blocker.rs:132-142 | every step keeps each waiting thread on the list of each blocker it registered on in this call, or in the vector of a waker that took that list |
| ProtocolProofs.RegistrationsAreKept | orpc/src/sync/blocker.rs:132-142 | in every run, dropped readers or not, each thread that registered and still waits is on the list or in the vector of a waker that took it |
| ProtocolProofs.StepKeepsWakeup | orpc/src/sync/blocker.rs:132-142 | every step that frees no full queue by a drop keeps a wakeup on the way for each waiting thread with a ready blocker that it has checked |
| ProtocolProofs.StepKeepsInvExactly | orpc/src/oqueue/locking.rs:372-403 | a step keeps the whole invariant if and only if it is not a dropped reader that frees a full queue on which somebody waits, parked or past its check, with no waker under way |
| ProtocolProofs.RunKeepsInvExactly | orpc/src/sync/blocker.rs:124-181 | a run keeps it throughout if and only if no step of it is such a drop |
| ProtocolProofs.NoWakeupIsLost | orpc/src/sync/blocker.rs:124-145 | in every run without such a drop, a thread parked while one of its blockers is ready is on a list that somebody is about to take, or in the hands of a waker |
| ProtocolProofs.LossIsASleeper | orpc/src/sync/blocker.rs:142 | once the invariant fails for a thread past its last check, it sleeps beside a ready blocker with nobody to wake it, after its own next step at the latest |
| ProtocolProofs.DeregistersFromOneList | orpc/src/sync/blocker.rs:134-139 | the early return takes the thread off the list of the ready blocker and off no other list |
| LostWakeup.DroppedReaderLosesAWakeup | orpc/src/oqueue/locking.rs:372-376 | from every reachable state with a full queue, a thread about to send and a reader whose drop frees the queue: a drop after the sender's check, before or after it parks, leaves the sender asleep beside a queue with room, with nobody on the way to wake it |
| LostWakeup.OversleepsUntilWoken | orpc/src/oqueue/locking.rs:383-390 | nobody is on the way to wake it for that queue until somebody receives from the queue or observes it |
| LostWakeup.FreshSystemLosesAWakeup | orpc/src/oqueue/locking.rs:399-403 | such a run from a fresh system |
| BlockOn.Machine.TestReady | orpc/src/oqueue/locking.rs:313-316 | the readiness test answers as the protocol's does and, in terms of the ring itself: no reader a window behind, something between the cursor and the tail, or a tail beyond the one seen |
| BlockOn.Machine.OthersRun | orpc/src/sync/blocker.rs:124-145 | whatever other threads do, dropping readers included, a thread keeps its place, its current server and, while `Blocking`, its state and its registrations |
| BlockOn.Machine.EnterPark | orpc/src/sync/task.rs:89-92 | the assertion in `park` holds in every run, and entering it is the protocol's step |
| BlockOn.Machine.BlockOn | orpc/src/sync/blocker.rs:124-145 | on tasks, lists and rings, among any steps of other threads, the loop over the blockers is a run of the protocol; it panics only when its server is aborted; an early return leaves it `Blocking`, off the list of the ready blocker and on those before it; left asleep, it is registered everywhere, with a wakeup due for each ready blocker if no drop lost one |
| BlockOn.Machine.FinishWaits | orpc/src/sync/blocker.rs:135-139 | the de-registration loop ends in the caller, still `Blocking`, off the list of the ready blocker and on the lists of those before it |
| BlockOn.Machine.WakeAll | orpc/src/sync/blocker.rs:173-181 | the call takes what is on the list at some step of it; when it returns it has unparked each of those tasks, among any steps of other threads; it does not return to a `Blocking` caller that was on the list |
| BlockOn.Machine.AbortServer | orpc/src/orpc_impl/framework.rs:64-74 | the call sets the flag; when it returns it has unparked each thread the server had at the call, among any steps of other threads; it does not return to a `Blocking` thread of the server |
| Interference.StepLeavesUndisturbed | orpc/src/sync/task.rs:46-57 | a step of another thread moves a thread's registration at most into a waker's vector, and never ends a spin on itself |
| ProtocolLaws.CurrentIsLastSet | orpc/src/orpc_impl/framework.rs:151-160 | in every run, a thread works for the server it last entered or went back to, and for none before it has |
| ProtocolLaws.ServersAreAsLabelled | orpc/src/orpc_impl/framework.rs:64-89 | in every run, a server is aborted if and only if somebody aborted it, and its threads are those that attached, in order |
| ProtocolLaws.QueueRunsAreRuns | orpc/src/oqueue/locking.rs:112-228 | what happens on one queue in any run of the whole system is a run of its channel, so every law on those holds there |
| ProtocolLaws.AbortFindsParkedThread | orpc/src/orpc_impl/framework.rs:64-80 | from every state with two threads in user code and a blocker that is not ready, one thread can attach, enter the server and park, and the other then has it to unpark |
| ProtocolLaws.FreshSystemAborts | orpc/src/orpc_impl/framework.rs:64-80 | such a run from a fresh system |
| BlockOn.Machine.SwitchServer | orpc/src/orpc_impl/framework.rs:151-160 | the server entered is the current one of its thread, and of no other |
| AbortProofs.AbortReachesParkedThreads | orpc/src/orpc_impl/framework.rs:64-80 | in every reachable state, an attached thread parked with an aborted server as its current one is still to be unparked by the thread that first set the flag |
| AbortProofs.BehaviorKeepsAborts | orpc/src/orpc_impl/framework.rs:64-89 | the same holds for threads between the first abort check and parking, and the lock on the thread list belongs to its walker |
| AbortProofs.LocksAndParkAssertion | orpc/src/sync/task.rs:89-92 | the assertion in `park` never fails, and two threads never walk one server's list at once |
| UnparkSpin.BlockingOutsideExactly | orpc/src/sync/blocker.rs:125-143 | in every run, a thread outside `block_on` is `Blocking` if and only if its latest return from it was an early one or the panic at its first abort point |
| UnparkSpin.OwnAbortPassesCallerExactly | orpc/src/orpc_impl/framework.rs:64-70 | an abort by one of the server's threads is stopped by the caller's own entry, for ever, if the caller is `Blocking` at the call, and never by that entry otherwise |
| UnparkSpin.OwnWakePassesCallerExactly | orpc/src/sync/blocker.rs:173-181 | the same of the caller's own entry in a `wake_all` by a thread on the list it takes |
| UnparkSpin.SpinsForever | orpc/src/sync/task.rs:46-57 | a thread that spins on itself does so for ever, and nobody else gets past it either, whatever the others do |
| UnparkSpin.AbortsAreHeldUp | orpc/src/orpc_impl/framework.rs:64-70 | a `Blocking` thread that works for an aborted server and is not about to park holds up every abort that has it to unpark, until it changes its current server |
| UnparkSpin.ParkingLetsThemPass | orpc/src/sync/blocker.rs:124-143 | once it works for no server, one `block_on` that parks lets them pass |
| UnparkSpin.EarlyReturnThenAbort | orpc/src/orpc_impl/framework.rs:98-117 | from every state in which a server's thread has a ready blocker at hand, an early return and a later failure make it spin on itself |
| UnparkSpin.PanicThenAbort | orpc/src/orpc_impl/framework.rs:98-117 | from every state in which a thread works for its aborted server, the panic at the first abort point and the abort that follows make it spin on itself |
| UnparkSpin.EarlyReturnThenWake | orpc/src/sync/blocker.rs:132-139 | from every state with one blocker ready and another not, waiting on both leaves a stale registration, and an operation that wakes that list makes the thread spin on itself |
| UnparkSpin.FreshSystemSpins | orpc/src/sync/blocker.rs:124-145 | both happen in a fresh system with a single thread |
| StuckGroups.StuckForever | orpc/src/sync/task.rs:46-57 | in every run, walks that wait for each other's threads, or for each other's locks, never end, whatever the others do |
| StuckGroups.CrossedWakes | orpc/src/sync/blocker.rs:132-139 | from every state with two threads in user code and suitable queues, two early returns and two operations make each thread wait for the other for ever |
| StuckGroups.FreshSystemCrosses | orpc/src/sync/blocker.rs:173-181 | such a run from a fresh system without servers, in which neither thread is on the list it takes |
| WalksFinish.Parks | orpc/src/sync/blocker.rs:124-143 | from every reachable state, a `Blocking` thread that unparks nobody can go on to park, by its own steps |
| WalksFinish.Finishes | orpc/src/sync/task.rs:46-57 | a walk in no stuck group can be brought to its end, even if lists that are about to be taken count as taken |
| WalksFinish.FinishesExactly | orpc/src/sync/task.rs:46-57 | in every reachable state, some continuation ends a walk if and only if its thread is in no stuck group, where the lists in question are taken |
| WalksFinish.AbortReturnsExactly | orpc/src/orpc_impl/framework.rs:64-74 | the same of a call to `abort` |
| WalksFinish.LateTakeFinishes | orpc/src/sync/blocker.rs:174-177 | a `Blocking` thread about to take a list it is on is done at once if another waker takes the list first |
| WalksFinish.OwnTakeIsStuck | orpc/src/sync/blocker.rs:174-177 | if it takes the list itself it is stuck |
| WaitListConservation.RegistrationsAreConserved | orpc/src/sync/blocker.rs:152-181 | in every run, a task's registrations on a list are those still on it, those in the vectors of wakers, those delivered and those it withdrew, counted exactly |
| WaitListConservation.StepConserves | orpc/src/sync/blocker.rs:152-181 | each step keeps that balance |
| WaitListConservation.ListsAreDistinct | orpc/src/sync/blocker.rs:153-161 | a list never holds a task twice |
| EvictionPolicy.SwapRemovedTakesOne | prefetcher_demo/src/eviction_policy.rs:124-135 | `swap_remove` removes one occurrence of the chosen element and moves only the last one |
| EvictionPolicy.LeastRecentlyUsed.SelectVictim | prefetcher_demo/src/eviction_policy.rs:20-28 | the victim is the front of the list, or none when the list is empty |
| EvictionPolicy.RandomPolicy.SelectVictim | prefetcher_demo/src/eviction_policy.rs:70-82 | the victim is the drawn element, exactly one of it is removed, and there is none when the list is empty |
| EvictionServer.PolicyServer.SelectVictim | prefetcher_demo/src/eviction_policy.rs:20-28 | for either policy, the victim and the list that is left are those of the protocol's selection |
| CacheProofs.StepKeepsAgree | prefetcher_demo/src/cache.rs:54-91 | every step of readers, handler, lock holder or policy thread keeps the policy's list, held block and queue free of repeats and equal to the cached blocks less the leaked ones, up to what the lock holder has begun |
| CacheProofs.CacheAndPolicyAgree | prefetcher_demo/src/cache.rs:54-91 | in every run, whenever the lock is free, the cached blocks are those in exactly one of the policy's places or leaked, and the cache is within its size |
| CacheProofs.NothingLeaksWithoutFailure | prefetcher_demo/src/cache.rs:67-77 | no block leaks while each `inserted` succeeds and the policy's thread lives |
| CacheProofs.VictimIsCached | prefetcher_demo/src/eviction_policy.rs:20-28 | every victim is cached and tracked, its removal frees exactly one entry, and the first policy's victim was announced before every other cached block the policy was told of |
| CacheProofs.StepKeepsOrder | prefetcher_demo/src/eviction_policy.rs:50-55 | list, held block and queue together stay in the order of announcement |
| CacheProofs.LeakedBlocksStay | prefetcher_demo/src/cache.rs:70-75 | a leaked block stays in the cache through every later step |
| CacheProofs.HitsAreTransparent | prefetcher_demo/src/cache.rs:26-41 | a hit returns the device's data for the block asked for |
| CacheProofs.RequestsAreConserved | prefetcher_demo/src/cache.rs:109-150 | in every run each asynchronous request is in exactly one place, waiting in order of arrival under its own block or answered once with that block's data |
| CacheProofs.ReplyAnswersItsWaiters | prefetcher_demo/src/cache.rs:138-150 | a reply answers all and only the unanswered requests for its block |
| CacheProofs.RepliesAreInOrder | prefetcher_demo/src/cache.rs:143-149 | the answers to a reply follow all earlier ones, one for each waiter and in ascending order of the tickets |
| VictimOrder.UnhitVictimIsLeastRecentlyUsed | prefetcher_demo/src/eviction_policy.rs:20-28 | a front block without a hit since its announcement is the least recently used one |
| VictimOrder.StampsAreOfTheRun | prefetcher_demo/src/cache.rs:30-41 | in every run, the recorded times of a block are those of its last announcement and of its last announcement or hit among the steps |
| VictimOrder.VictimIsLeastRecentlyUsedExactly | prefetcher_demo/src/eviction_policy.rs:20-28 | in every run, the next victim was used before every other tracked block if and only if each block announced before the victim's last hit was hit after it |
| VictimOrder.EvictsTheMostRecentlyUsed | prefetcher_demo/src/cache.rs:30-41 | from every reachable full cache with two tracked blocks, a hit on the front one and a miss evict the block that was used last of all |
| VictimOrder.FreshCacheEvictsTheMostRecentlyUsed | prefetcher_demo/src/eviction_policy.rs:20-56 | such a run from a fresh cache for two blocks |
| AsyncMisses.DispatchIsExact | prefetcher_demo/src/cache.rs:93-107 | in every run the device was asked, in order, by exactly the prefetches of blocks neither cached nor waited for, and by no request |
| AsyncMisses.DispatchesAreConserved | prefetcher_demo/src/cache.rs:102-105 | each time the device was asked for a block is either replied to or in flight |
| AsyncMisses.StarvedForever | prefetcher_demo/src/cache.rs:99-101 | once somebody waits for a block and no reply for it is coming, that stays so for ever, and no later step asks the device for it |
| AsyncMisses.AnswerableExactly | prefetcher_demo/src/cache.rs:138-150 | in every reachable state, some continuation answers a waiting request if and only if a reply for its block is in flight or in hand |
| AsyncMisses.MissIsAnswerableExactly | prefetcher_demo/src/cache.rs:109-136 | an asynchronous miss can be answered if and only if a request for its block is in flight when it arrives |
| CacheServer.Cache.InsertCachedBlock | prefetcher_demo/src/cache.rs:54-79 | with the policy's thread running in between, the insertion is a run of the protocol: at most one cached victim goes, out of a full cache one always goes when the policy's list is not empty and its call succeeds, and the block is in if there is room and no entry; inserting a block that a full cache has already changes nothing if and only if the victim, for the first policy the front of its list, is that block or there is none |
| CacheServer.Cache.AwaitRoom | orpc/src/oqueue/locking.rs:328-338 | the wait for room in the announcement queue ends, because the policy's thread is its only reader and can always take the next block |
| CacheServer.Cache.EvictBlock | prefetcher_demo/src/cache.rs:81-91 | a victim, if any, was cached and is the only entry removed; least recently used takes the front of the policy's list, whenever there is one and the call succeeds |
| CacheServer.Cache.Read | prefetcher_demo/src/cache.rs:26-41 | the caller receives the device's data for the block it asked for; a hit changes nothing in the cache; a miss inserts that very block, which is cached then unless the cache is full |
| CacheServer.Cache.HandleRequest | prefetcher_demo/src/cache.rs:109-136 | a hit is answered at once, a miss waits, and neither asks the device |
| CacheServer.Cache.HandlePrefetch | prefetcher_demo/src/cache.rs:175-182 | a prefetch asks the device exactly when the block is neither cached nor waited for |
| CacheServer.Cache.HandleReply | prefetcher_demo/src/cache.rs:138-150 | the block is inserted, then the k-th new answer is the k-th waiter's, and nobody waits for the block any more |
| Rpc.Framework.CallMethod | orpc_macros/src/orpc_impl.rs:96-126 | whatever panics, a call whose aborts return gives back what the call tree means, restores the caller's current server, and aborts exactly the servers whose body panicked |
| Rpc.Framework.RunBody | orpc/src/orpc_impl/framework.rs:134-167 | the body ends as `EvalFrom` says, whose cases `CallEnds` fixes, and nested calls leave its own server current, so its abort points look at the right flag |
| Rpc.CallEnds | orpc_macros/src/orpc_impl.rs:96-126 | a call succeeds if and only if each instruction of its body is passed; otherwise the first that is not decides: a returned error is the result, a panic, an abort point of an aborted server and an unwrapped failure give a panic error and shut the server, and a propagated failure is handed on unchanged |
| Rpc.NoBodyOnAborted | orpc_macros/src/orpc_impl.rs:97-101 | in any call tree, no body runs on a server aborted before or by an earlier panic in the tree, and a call on one is refused without running anything |
| Rpc.PanicShutsTheServer | orpc_macros/src/orpc_impl.rs:107-116 | a panicking body is reported as such, and every later call on its server is refused without running anything |

## Left out

- Liveness: nothing is proved about threads eventually running, waking or being served; the spin in `unpark` and the retry
  loops around `try_send`, `try_receive` and `try_strong_observe` are modelled by their single steps.
- BlockOn.Machine.BlockOn: the wait on the condition variable is watched for a bounded number of rounds of other threads,
  because the code may wait for ever; the bound is a parameter and every value of it is covered.
- BlockOn.Machine.WakeAll: the spin in `unpark` is watched for a bounded number of rounds, in the same way.
- BlockOn.Machine.AbortServer: the wait for the lock and the spin in `unpark` are watched for a bounded number of rounds too.
- Protocol: a panic at an abort point is a return to the caller, who may then do anything, including abort a server; the
  unwinding in between is not modelled there. Spurious wakeups of the condition variable re-check and change nothing.
- ProtocolProofs.NoWakeupIsLost: runs in which a dropped reader frees a full queue under an unnoticed waiter are not
  covered, because the statement is false of them; `ProtocolProofs.RunKeepsInvExactly` says that it is exactly those.
- Rpc.Framework.CallMethod: one thread's call tree; servers that other threads abort meanwhile are not modelled there. The
  abort after a panic is taken to return; that it may not, if the caller is attached and left `Blocking` or its walk is in a
  stuck group, is the subject of `UnparkSpin` and `WalksFinish`.
- WalksFinish.FinishesExactly: while a `Blocking` thread that the walk waits for is about to take a list with a `Blocking`
  thread on it, the outcome depends on who takes that list, and the equivalence is not stated.
- CacheServer.Cache.InsertCachedBlock: steps of other readers and of the handler while the lock is held are covered by
  `CacheProtocol` but not called in between here; only the policy's thread is. That thread lives for as long as the object.
- The failure of a read of the underlying device, which returns an error and changes no state.
- The observation queue that `read` and the handler send block ids to, and the `select!` loop that picks the handler's next
  message: the handler takes its messages in any order.
- Attachment errors of a queue whose `Arc` is gone, and the distinction between an unsupported and a failed attachment.
- Memory orderings weaker than sequential consistency, mutex poisoning, and wrap-around of indices.
- Prefetch policies, registry, shutdown flag, error display, disk access, the demo's graphical part and the macros' token
  handling.
