# Verified models of the Zephyr Rust support library

This project models the concurrent protocols and the devicetree compiler of the Zephyr Rust repository in
Dafny and proves what they promise. It has five parts.

- **Blocking worker pool** (`Blocking*.dfy`). Futures claim slots, publish a pointer into themselves, queue
  the slot and may be dropped at any moment; worker threads take the closure, run it and publish or discard
  its result. `BlockingPool` is a step relation for any number of futures, slots and workers, with one step
  for each atomic operation, lock operation, queue operation or cell access. `BlockingInvariant` to
  `BlockingRuns` prove its invariant; `BlockingOwnership`, `BlockingPolls`, `BlockingLives`, `BlockingHistory`,
  `BlockingFifo`, `BlockingProgress`, `BlockingTermination`, `BlockingWaiters`, `BlockingLivelock` and
  `BlockingChoice` draw the results; `Matching` has the two theorems on matchings the last one needs. `BlockingCode`
  runs the methods `poll`, `drop` and `run_op` with their own control flow while everybody else takes arbitrary steps
  in between.
- **Channels** (`Channel*.dfy`). The bounded channel as a class, its refinement of an atomic FIFO for any
  number of threads, and the reference counter that frees it.
- **Dining philosophers** (`Philosophers*.dfy`, `CondSyncPhilosophers.dfy`, `MutexGuards.dfy`). The fork
  server over channels and the condition-variable variant, for any number of philosophers from two on, and
  the mutex over a recursive kernel mutex.
- **Devicetree compiler** (`Dts*.dfy`). The grammar, the tree builder, the two output walks and the grouping of
  property words. `DtsReading` and `DtsMeaning` say which texts are parsed, and as which devicetree; `DtsPrint` writes
  the canonical text and `DtsBuild` reads it back. `DtsItems` says which items the generated code has, `DtsCalls` which
  of its calls find their function, `DtsLookups` what the look-ups and rules behind it find.
- **Small loops** (`Printk.dfy`, `Gpio*.dfy`). The UTF-8 aware console buffer and the GPIO interrupt
  handshake, with what its answers belong to.

`Prelude.dfy` holds shared vocabulary. `dafny verify dfyconfig.toml` verifies everything.

## What is assumed

- Atomic operations are sequentially consistent.
- `k_queue` append, get and remove, spinlocks, the kernel mutex and the critical section are atomic steps that
  do what their names say; the kernel mutex may be locked again by its owner, and `k_condvar_wait` unlocks it
  once, parks the thread and locks it again.
- `AtomicWaker::register` and `wake` are atomic; `wake` may leave the waker registered or take it out, and
  every result holds either way. `MultiWakerRegistration::register` keeps a task it knows and, when it is full,
  wakes and forgets everybody first. A task that has been woken is polled again.
- Closures, timeouts, clocks and random delays are parameters or nondeterministic steps.

## Where a promise needs a condition

- The documentation of `run` says an operation whose future is cancelled before a worker picks it up never
  executes, and its counterpart says one already begun completes. Between the two, a closure may have been
  taken from the future and not yet started: `BlockingWitness.StartsAfterOrphaned` gives a run in which it
  starts after the future is gone. `BlockingLives.CancelledBeforeTaken` and
  `BlockingTermination.QuiescentMeansDone` give the exact condition, which is whether the closure was taken.
- The waiters list holds WAITERS tasks. The configuration help says more tasks work but waste CPU: polls can then
  wake each other for ever. `BlockingLivelock.BoundedExactly` gives the exact condition for runs of useful steps to
  end when each future is polled by one task: whichever futures occupy the slots, the others have at most WAITERS
  tasks. `BlockingChoice.BoundedExactly` gives it for futures that move between tasks: this must hold however one of
  its tasks is chosen for each future. `BlockingTermination.WorkIsBounded` says that only polls are wasted, in every
  execution.
- `try_send` documents that it fails when the channel is full. It also fails while another thread is between
  two of its queue operations: `ChannelRefinement.RefusedWhenEmpty` gives a run, and
  `ChannelRefinement.GivesUpExactly` says exactly when.
- The comment in `output.rs` says invalid characters become underscores; `fix_id` leaves full stops, question
  marks, leading digits and keywords. `DtsOutput.FixIdShape` says exactly which names become names of Rust modules,
  `DtsOutput.BadNames` gives four that do not.
- The grammar's node names leave out the plus sign, which section 2.2.1 of the Devicetree Specification v0.4
  allows, and a decimal zero is no number: `DtsExact.PlusRefused` and `DtsExact.ZeroRefused` give families of files
  that are refused. `DtsExact.ParsesExactly` says exactly which devicetrees come out of the parser.
- The code generated for an instance may call a function that is not there: a Phandle instance does not check its
  target's status, no instance checks that its target has an instance of its own or that this is compiled under the
  same option, and a Parent level above the depth of the node is not refused. `DtsLostCalls.CallsAreLost` gives a
  devicetree with two such calls; `DtsOptionCalls.KeyNeedsGpio` shows that with the entries of dt-rust.yaml the call
  of a GPIO key finds its function exactly with CONFIG_GPIO. `DtsCalls.CallFindsExactly` says exactly when a call
  finds its function, for every set of enabled options.
- A GPIO wait may be answered by an event before it began: `GpioEvents.NextWaitIsStale` gives a run after a dropped
  wait, and `GpioEvents.StaleExactly` says exactly when that can happen.

## Model

| member | source | states |
|---|---|---|
| BlockingRuns.NoFault | zephyr/src/blocking.rs:223-368 | in a sound state no enabled step panics, follows a null, dangling or mistyped pointer, releases a slot twice or unlocks a lock it does not hold |
| BlockingRuns.ActionKeeps | zephyr/src/blocking.rs:172-368 | every step of every actor keeps the whole invariant: locks, slots, futures, workers, waiters and worker start |
| BlockingRuns.ReachableSound | zephyr/src/blocking.rs:172-405 | the invariant holds in every state of every run of any number of futures, slots and workers |
| BlockingRuns.WaitersKeeps | zephyr/src/blocking.rs:172-194 | while a task waits, whoever freed a slot that is still free has yet to wake it; kept by every step of the slot-by-slot scan and of release |
| BlockingRuns.StartKeeps | zephyr/src/blocking.rs:371-384 | exactly the workers the one starter has come to are started; nothing is queued before |
| BlockingSafety.FutSafe | zephyr/src/blocking.rs:223-307 | no statement of poll or drop faults |
| BlockingWorkers.WorkSafe | zephyr/src/blocking.rs:319-405 | no statement of a worker faults: the runner is set, the closure pointer is live |
| BlockingWorkers.HolderSole | zephyr/src/blocking.rs:319-345 | no two workers ever hold the closure of the same future |
| BlockingWorkers.WakeKeeps | zephyr/src/blocking.rs:365-367 | the late wake of an old worker, which may hit a reused slot, keeps the invariant |
| BlockingOwnership.SlotOwnership | zephyr/src/blocking.rs:125-194 | in every reachable state each slot is in exactly one situation: free, reserved by one future, queued once for a live future, held by one worker for a live future or orphaned, or answered and to be released by one future |
| BlockingOwnership.NoDataRace | zephyr/src/blocking.rs:223-361 | no two actors are ever about to touch the same unsynchronised cell when one of them writes it |
| BlockingOwnership.SharedIsLive | zephyr/src/blocking.rs:325-361 | a worker follows the shared pointer only while the future that wrote it is alive, and under the slot lock |
| BlockingOwnership.NoLostCompletion | zephyr/src/blocking.rs:236-267 | a parked future whose slot is Done is awake or the worker that stored Done has still to wake; the waker it has noted is registered, which `BlockingPolls.TaskIsLast` says is that of its latest poll |
| BlockingPolls.TaskIsLast | zephyr/src/blocking.rs:224-256 | in every execution the waker a future has noted is the one its latest poll was given, whatever its earlier polls were given |
| BlockingPolls.StepWakes | zephyr/src/blocking.rs:172-194 | a step makes a future awake exactly when it wakes the waker the future has noted |
| BlockingPolls.ParkedCountsOnLast | zephyr/src/blocking.rs:236-267 | a parked future that is not awake has the waker of its latest poll on the list or, with a slot, in the slot, and when that is Done a worker has still to wake it |
| BlockingPolls.WakeReachesLast | zephyr/src/blocking.rs:365-367 | the wake that is still to come wakes just the waker of the latest poll |
| BlockingOwnership.WakeReaches | zephyr/src/blocking.rs:365-367 | the wake that is still to come wakes the parked future, whatever happened to the slot in between |
| BlockingOwnership.NoLostSlotWaiter | zephyr/src/blocking.rs:172-194 | a future that waits for a slot is on the list while any slot is free only if a releaser is still to wake the list |
| BlockingOwnership.DrainReaches | zephyr/src/blocking.rs:191-194 | draining the list wakes every future that waited on it |
| BlockingLives.ExactlyOnce | zephyr/src/blocking.rs:80-88 | no closure runs twice, and a future returns what the one run of its own closure returned |
| BlockingLives.CancelledBeforeTaken | zephyr/src/blocking.rs:80-88 | a closure not yet taken when its future is gone never runs, in any continuation |
| BlockingLives.RemovedNeverRuns | zephyr/src/blocking.rs:277-282 | an operation taken back from the queue never runs |
| BlockingLives.GoneForever | zephyr/src/blocking.rs:271-307 | a dropped future stays gone and its closure stays where it was |
| BlockingHistory.OrphanDiscarded | zephyr/src/blocking.rs:285-366 | from the step that stores Orphaned on, in the whole rest of every execution, no future has in its cell, is about to return or has returned what that closure returned |
| BlockingHistory.DeliveredStays | zephyr/src/blocking.rs:255-264 | a result a worker has written stays in the future's cell, is on its way out, or its future is gone, whatever anybody does |
| BlockingHistory.OrphansKeep | zephyr/src/blocking.rs:285-300 | until a future that orphaned its slot lets go of the lock, its worker has the slot and has not given it back, and the pointer is null |
| BlockingFifo.DequeuedInOrder | zephyr/src/blocking.rs:248-251 | what workers have dequeued, followed by the owners of the queued slots, one for each slot in queue order, is what was submitted, in order, without the removed entries |
| BlockingFifo.Withdraw | zephyr/src/blocking.rs:277-282 | removing a queued slot removes just its submission from the order |
| BlockingProgress.Progress | zephyr/src/blocking.rs:223-405 | in every reachable state with an unfinished future some useful step is enabled |
| BlockingProgress.ActorMoves | zephyr/src/blocking.rs:172-368 | whoever is inside an operation can go on, or the holder of the lock it waits for can |
| BlockingTermination.StepDecreases | zephyr/src/blocking.rs:223-405 | every useful step and every drop lowers a measure, unless it registers a task on a full waiters list |
| BlockingTermination.RunsAreBounded | zephyr/src/blocking.rs:223-405 | with at most WAITERS tasks, however futures move between them, every run of useful steps is shorter than an explicit bound |
| BlockingTermination.WorkIsBounded | zephyr/src/blocking.rs:223-405 | in every execution, with any tasks, only a bounded number of steps is not part of a fruitless poll |
| BlockingWaiters.WaitingKeeps | zephyr/src/blocking.rs:172-188 | the waiters list only ever holds tasks of futures outside some set of as many futures as there are slots, all of which have come to a slot; kept by every step of the scan and of its interference |
| BlockingWaiters.FitsIsRoomy | zephyr/src/blocking.rs:172-188 | if, whichever futures occupy the slots, the others have at most WAITERS tasks, no execution ever overflows the list |
| BlockingTermination.QuiescentMeansDone | zephyr/src/blocking.rs:80-88 | when nothing useful is left every future has returned its own result or is dropped, and a closure ran exactly once if it was taken and never otherwise |
| BlockingLivelock.BoundedExactly | zephyr/src/blocking.rs:172-188 | with one task per future, executions of useful steps and drops are bounded exactly when, whichever futures occupy the slots, the others have at most WAITERS tasks |
| BlockingLivelock.OneTaskEach | Kconfig:88-99 | with a task of its own for every future that condition is that there are at most SLOTS + WAITERS futures |
| BlockingChoice.BoundedExactly | zephyr/src/blocking.rs:172-188 | when each future may be polled by any of several tasks, executions of useful steps and drops are bounded exactly when, however one of its tasks is chosen for each future and whichever futures occupy the slots, the others have at most WAITERS tasks |
| BlockingChoice.PotentialFalls | zephyr/src/blocking.rs:172-188 | under that condition a poll that comes to nothing never adds to the wake-ups, searches and listed tasks counted against a least cover, and a registration on a full list takes away from them |
| BlockingChoice.CoverExists | zephyr/src/blocking.rs:172-188 | the condition gives at most WAITERS futures and tasks that together cover every way the waiting futures can be polled |
| BlockingLivelock.PollsForever | zephyr/src/blocking.rs:172-188 | from every state without a free slot in which more tasks than the list has room for look for one there are runs of useful polls of every length, for any number of slots and any list, while the slots' owners take no step |
| BlockingLivelock.ParkedAreCrowded | zephyr/src/blocking.rs:172-188 | so in particular from every reachable state with the list unlocked, no slot free and more than WAITERS tasks among the futures parked without a slot |
| BlockingWitness.StartsAfterOrphaned | zephyr/src/blocking.rs:80-88 | a concrete run in which a closure starts after its future is gone, because it was taken before |
| BlockingSlots.SlotPool.Claim | zephyr/src/blocking.rs:172-188 | the first free slot is claimed and nothing else changes; without one the caller is registered |
| BlockingSlots.SlotPool.Release | zephyr/src/blocking.rs:191-194 | the slot is free, every waiter is woken and the list is empty |
| BlockingSlots.ScanIsClaim | zephyr/src/blocking.rs:172-188 | the compare-exchange steps of an undisturbed scan do what Claim does, and drop nobody from the list unwoken |
| BlockingCode.Pool.PollFuture | zephyr/src/blocking.rs:223-267 | under any interference: Pending leaves a future of which the waker given to this poll is or will be woken and whose operation, if this poll got a slot, is submitted; Ready returns the result of its own closure, which ran once, and leaves no slot |
| BlockingCode.Pool.DropFuture | zephyr/src/blocking.rs:271-307 | under any interference: a dropped future ends gone and holds no slot and no slot lock |
| BlockingCode.Pool.RunOp | zephyr/src/blocking.rs:319-368 | under any interference: a worker that is done has run every closure it ever took, once, and holds no slot lock |
| BlockingCode.Pool.ClaimSlot | zephyr/src/blocking.rs:172-188 | when the scan has ended the list is locked by this future, and it has a slot in state Claimed of its own, or its task is on the list or awake |
| BlockingCode.Pool.Submit | zephyr/src/blocking.rs:236-251 | the future parks with the slot it claimed and its operation is submitted: queued once with pointer, runner and closure in place, or with a worker, or answered once |
| BlockingCode.Pool.StartWorkers | zephyr/src/blocking.rs:371-384 | the workers are marked started; if they were not, this future started them and all of them run; no call takes that back or hands it to another starter |
| BlockingCode.Pool.Orphan | zephyr/src/blocking.rs:285-300 | under the slot lock, still held: either the slot is Orphaned, its pointer null and its worker yet to give it back, or the closure has run and the future alone has to release the slot |
| BlockingCode.Pool.Cancel | zephyr/src/blocking.rs:277-305 | the future is gone and holds no slot and no slot lock; if it did not orphan the slot its closure had run |
| BlockingCode.Pool.ReleaseSlot | zephyr/src/blocking.rs:191-194 | the future holds no slot any more, and in the end it has returned what it was about to return, or is gone |
| BlockingCode.Pool.WakeWaiters | zephyr/src/blocking.rs:193 | under the list's lock, still held, the list is empty and every future parked without a slot is awake |
| BlockingCode.Pool.TakeOp | zephyr/src/blocking.rs:324-345 | the worker alone has the closure, taken by it and not yet run, or has to give back an Orphaned slot whose future is gone |
| BlockingCode.Pool.Publish | zephyr/src/blocking.rs:348-367 | the result of this call is delivered (in the future's cell, on its way out, or the future is gone) and the wake is next; or the worker has to give back an Orphaned slot whose future is gone |
| BlockingCode.Pool.RunClosure | zephyr/src/blocking.rs:346 | the closure taken from the slot's future has run exactly once and its outcome is what the worker will publish |
| BlockingCode.OthersMine | zephyr/src/blocking.rs:172-368 | no step of another actor moves this one, takes back a start, a submission, a finished closure or a delivered result, or refills a list drained under this one's lock |
| ChannelModel.Bounded.constructor | zephyr/src/sync/channel.rs:429-452 | a channel of positive capacity starts empty with every slot in the free queue once |
| ChannelModel.Bounded.SendTimeout | zephyr/src/sync/channel.rs:154-187 | a send succeeds exactly when fewer than cap messages are queued and appends its message; otherwise it returns the message and changes nothing |
| ChannelModel.Bounded.RecvTimeout | zephyr/src/sync/channel.rs:277-317 | a receive succeeds exactly when a message is queued and returns the oldest |
| ChannelRefinement.Refines | zephyr/src/sync/channel.rs:154-317 | over every run each step of any thread is invisible or the step of an atomic FIFO of capacity cap that its action names: send(msg) begins a call with msg, which appends it, gives it back or waits |
| ChannelRefinement.StepRefines | zephyr/src/sync/channel.rs:171-314 | one step refines the FIFO step of its action, with room for what is appended |
| ChannelRefinement.Conservation | zephyr/src/sync/channel.rs:394-428 | every slot is in exactly one of the free queue, the message queue and one thread's hands, and their numbers add up to cap |
| ChannelRefinement.InOrder | zephyr/src/sync/channel.rs:299-317 | the n-th message received is the n-th one sent, and stays untouched from its dequeue until it is returned |
| ChannelRefinement.SentAreGiven | zephyr/src/sync/channel.rs:171-187 | in every run the messages appended are, one by one, those that the sending calls were given |
| ChannelRefinement.ReceivedWasGiven | zephyr/src/sync/channel.rs:299-317 | the n-th message received is the argument of the send whose append was the n-th |
| ChannelRefinement.RefusedWasGiven | zephyr/src/sync/channel.rs:171-187 | a refused send gives back the message it was given |
| ChannelRefinement.StepKeeps | zephyr/src/sync/channel.rs:171-314 | every step keeps slots, hands and messages in place |
| ChannelRefinement.NeverFaults | zephyr/src/sync/channel.rs:171-314 | no step touches a slot that does not exist or reads one without a message |
| ChannelRefinement.GivesUpExactly | zephyr/src/sync/channel.rs:171-177 | a send gives up exactly when queued messages and slots in hand fill the channel, a receive exactly when no message is queued |
| ChannelRefinement.RefusedWhenFull | zephyr/src/sync/channel.rs:197-204 | with no thread between two queue operations a send is refused exactly when the channel is full |
| ChannelRefinement.RefusedWhenEmpty | zephyr/src/sync/channel.rs:197-204 | a concrete run in which a send is refused although no message is queued |
| ChannelCounter.BoxIsThere | zephyr/src/sync/channel/counter.rs:46-136 | no thread touches the box after it was freed and no count falls below zero |
| ChannelCounter.AtMostOnce | zephyr/src/sync/channel/counter.rs:69-81 | each side disconnects at most once, only with no handle left, and the box is freed at most once, after both |
| ChannelCounter.FreedInTheEnd | zephyr/src/sync/channel/counter.rs:127-136 | when no handle is left and nobody is inside release, both sides have disconnected and the box is freed |
| ChannelCounter.LiveKeepsBox | zephyr/src/sync/channel/counter.rs:53-67 | as long as a handle is live its side has not disconnected and the box is there |
| Philosophers.Ordered | samples/philosophers/src/lib.rs:134-140 | every philosopher takes its forks in increasing order |
| Philosophers.UsersAre | samples/philosophers/src/lib.rs:134-140 | the users of fork f are exactly philosophers f and (f + n - 1) mod n |
| Philosophers.NeighboursShare | samples/philosophers/src/lib.rs:134-140 | philosophers p and (p + 1) mod n are two and both use fork (p + 1) mod n |
| Philosophers.TwoUsers | samples/philosophers/src/lib.rs:134-140 | no fork has more than two users |
| PhilosophersSafety.NoFault | samples/philosophers/src/channel.rs:49-89 | the invariant excludes both panics and every index out of range |
| PhilosophersSafety.PhilKeeps | samples/philosophers/src/lib.rs:142-164 | every step of a philosopher keeps the invariant |
| PhilosophersSafety.ServerKeeps | samples/philosophers/src/channel.rs:134-147 | every step of the server keeps the invariant |
| PhilosophersSafety.HeadNotOwner | samples/philosophers/src/channel.rs:134-161 | a request is looked at only after the client's own earlier release of that fork |
| PhilosophersProgress.NeverPanics | samples/philosophers/src/channel.rs:62-79 | in every reachable state neither panic can be next |
| PhilosophersProgress.Exclusion | samples/philosophers/src/channel.rs:49-89 | no two philosophers ever hold the same fork |
| PhilosophersProgress.NeighboursDoNotEat | samples/philosophers/src/lib.rs:142-154 | philosophers p and (p + 1) mod n never eat at the same time |
| PhilosophersProgress.ReplyNeverBlocks | samples/philosophers/src/channel.rs:52-56 | when the server replies the client's reply channel is empty |
| PhilosophersProgress.WaiterNext | samples/philosophers/src/channel.rs:57-87 | from the moment a waiter is recorded until it has the fork, nobody has the fork but the philosopher it was granted to at that moment |
| PhilosophersProgress.DeadlockFree | samples/philosophers/src/lib.rs:134-157 | for any number of philosophers from two on and channels of any capacity, as long as somebody is not thinking a step other than getting hungry is enabled |
| PhilosophersProgress.NobodyWaits | samples/philosophers/src/lib.rs:134-140 | in a stuck state nobody waits for any fork, by descending fork number |
| PhilosophersProgress.MealsAreBounded | samples/philosophers/src/lib.rs:142-164 | with nobody newly hungry every run is bounded |
| PhilosophersProgress.EveryoneEats | samples/philosophers/src/lib.rs:142-164 | at the end of such a run everyone who was hungry or eating has finished exactly one more meal, nobody else has, and all forks are free |
| PhilosophersServer.AcquireFork | samples/philosophers/src/channel.rs:49-67 | acquire on a fork in the array: reply, wait or panic, and the new fork |
| PhilosophersServer.ReleaseFork | samples/philosophers/src/channel.rs:71-89 | release on a fork in the array: free it, hand it on or panic |
| PhilosophersServer.ChannelThread | samples/philosophers/src/channel.rs:134-147 | the loop computes the forks and replies of its commands, and stops exactly at the first panic |
| PhilosophersServer.ServerIsLoop | samples/philosophers/src/channel.rs:134-147 | in every run of the philosophers the server's forks and replies are those of the loop on the commands it has dequeued |
| PhilosophersLedger.ServesExactly | samples/philosophers/src/channel.rs:46-89 | the loop gets through a series of commands without a panic exactly when at every command the fork is there, nobody gives back a fork that is not out and nobody waits for one that has a waiter; each fork is then free, in use, or in use with the last who asked as its waiter, and its replies have gone, in order, to those who asked, one more than were given back |
| CondSyncPhilosophers.Exclusion | samples/philosophers/src/condsync.rs:33-46 | no two philosophers have marked the same flag, and it is set while one has |
| CondSyncPhilosophers.NeighboursDoNotEat | samples/philosophers/src/condsync.rs:33-46 | nor in this variant do philosophers p and (p + 1) mod n |
| CondSyncPhilosophers.NoLostWakeUp | samples/philosophers/src/condsync.rs:33-46 | a thread parked on a free fork has a notifier still to broadcast, whose broadcast wakes it |
| CondSyncPhilosophers.DeadlockFree | samples/philosophers/src/condsync.rs:33-46 | as long as somebody is not thinking a step other than getting hungry is enabled, without spurious wake-ups |
| CondSyncPhilosophers.EveryoneEats | samples/philosophers/src/condsync.rs:33-46 | runs with nobody newly hungry and no spurious wake-ups are bounded and end with everyone fed once |
| PhilosophersOrder.InRounds | samples/philosophers/src/lib.rs:141-163 | in every run the commands, replies and meals of a philosopher are whole rounds and the beginning of one: acquire the lower fork, acquire the higher, eat, release the higher, release the lower |
| PhilosophersOrder.InCourses | samples/philosophers/src/lib.rs:141-163 | so with condition variables: mark the lower fork, mark the higher, eat, clear the higher, clear the lower |
| MutexGuards.OneGuard | zephyr/src/sync/mutex.rs:121-187 | at most one usable guard exists, and its thread has the kernel mutex |
| MutexGuards.UnlocksSucceed | zephyr/src/sync/mutex.rs:179-187 | no kernel unlock is ever refused |
| MutexGuards.RecursionDetected | zephyr/src/sync/mutex.rs:121-152 | the swap finds the flag set exactly when the thread already has the guard |
| MutexGuards.RefusalRestores | zephyr/src/sync/mutex.rs:124-148 | a refused recursive attempt leaves the mutex locked once by the same guard |
| MutexGuards.WaiterReleases | zephyr/src/sync/mutex.rs:229-234 | a thread inside a condition wait has no guard and no part of the mutex |
| MutexGuards.Quiescent | zephyr/src/sync/mutex.rs:121-187 | with nobody inside a call and no guard the mutex is free |
| MutexGuards.UndisturbedLock | zephyr/src/sync/mutex.rs:121-152 | undisturbed, lock and try_lock on a free mutex give the guard; on one the thread has itself they leave everything as it was, lock after a panic; on another thread's try_lock leaves everything as it was and lock waits |
| MutexGuards.UndisturbedRelease | zephyr/src/sync/mutex.rs:179-234 | undisturbed, dropping the guard frees the mutex, and waiting frees it and parks the thread |
| MutexGuards.UndisturbedWake | zephyr/src/sync/mutex.rs:229-234 | a woken waiter that finds the mutex free has its guard again |
| MutexGuards.Mutex.Lock | zephyr/src/sync/mutex.rs:121-129 | lock gives the guard or, to its holder, the recursion panic with everything as before |
| MutexGuards.Mutex.TryLock | zephyr/src/sync/mutex.rs:138-152 | try_lock gives the guard exactly when nobody has it |
| MutexGuards.Mutex.DropGuard | zephyr/src/sync/mutex.rs:179-187 | dropping the guard frees the mutex and its unlock succeeds |
| Printk.LeadByte | zephyr/src/printk.rs:65-82 | for every valid character the lead byte gives its length and every later byte counts as one |
| Printk.Context.AddByte | zephyr/src/printk.rs:85-93 | a byte goes into the buffer, flushed first if the character might not fit; the index stays in bounds for any bytes |
| Printk.Context.Flush | zephyr/src/printk.rs:95-102 | the buffer goes out as one chunk unless it is empty |
| Printk.Context.WriteStr | zephyr/src/printk.rs:105-113 | all bytes of a string, in order |
| Printk.PrintkPieces | zephyr/src/printk.rs:115-122 | the chunks put together are the message, and they depend on the whole message only, not on its pieces |
| Printk.PrintkLine | zephyr/src/printk.rs:125-133 | the same with byte 10, a newline, at the end |
| Printk.NothingLost | zephyr/src/printk.rs:84-122 | the chunks put together are the message |
| Printk.FewChunks | zephyr/src/printk.rs:56-103 | chunks have 1 to 32 bytes, all but the last at least 29, so n bytes need at most n/29 + 1; nothing is printed exactly for the empty message |
| Printk.EndsWhenFull | zephyr/src/printk.rs:85-93 | a chunk ends only where the next character, by its lead byte, would not fit; with the two rows above this leaves one way to cut the message |
| Printk.NoCharacterSplit | zephyr/src/printk.rs:84-122 | every chunk of valid UTF-8 is valid UTF-8 |
| GpioHandler.GpioStatic.CallbackHandler | zephyr/src/device/gpio.rs:112-148 | the loop ends and switches off, marks as fired and wakes exactly the given pins, lowest first |
| GpioHandler.GpioStatic.HasFired | zephyr/src/device/gpio.rs:151-154 | the answer is whether the pin had fired; only that pin is cleared |
| GpioHandler.PinsAre | zephyr/src/device/gpio.rs:125-129 | the pins served are those of the word, each once, in ascending order |
| GpioHandler.WordIsNumber | zephyr/src/device/gpio.rs:125-142 | membership, removal, insertion and the least member of a set of bits are the bit test, clearing and setting a bit, and the trailing zeros of the number it stands for |
| GpioWait.NeverStuck | zephyr/src/device/gpio.rs:92-154 | a future that returned Pending is awake, or its waker is registered and the pin is armed or about to be woken; an unarmed pin has its event recorded or about to be |
| GpioWait.SettledWaits | zephyr/src/device/gpio.rs:192-223 | with no handler running it waits for an armed pin with its own waker, or is awake with the event recorded |
| GpioEvents.StaleExactly | zephyr/src/device/gpio.rs:186-226 | a wait that begins in a reachable state can be answered without an event after its first poll exactly when an event is recorded then or about to be |
| GpioEvents.NextWaitIsStale | zephyr/src/device/gpio.rs:186-226 | a run in which a wait is dropped after its event and the next wait is answered at once |
| GpioWait.HandlersRun | zephyr/src/device/gpio.rs:112-148 | every run of the handler can go on until it has served its pins |
| GpioPolls.ParkedCountsOnLast | zephyr/src/device/gpio.rs:192-223 | the waker of the latest poll has been woken since that poll, or it is the registered one and the pin is armed or a run of the handler is on its way to wake it |
| GpioPolls.WakeReachesLast | zephyr/src/device/gpio.rs:143-146 | the wake that comes to the pin then wakes the waker of the latest poll |
| GpioPolls.StepWakes | zephyr/src/device/gpio.rs:143-146 | a wait becomes awake exactly when a run of the handler wakes the waker it has noted |
| GpioPolls.StepAnswers | zephyr/src/device/gpio.rs:198-222 | a poll answers Ready exactly when one of its two checks finds an event recorded, and takes it; it returns Pending only when the second finds none |
| GpioPolls.UndisturbedPoll | zephyr/src/device/gpio.rs:192-223 | a poll nobody disturbs answers Ready exactly when an event is recorded, and takes it; else it leaves the pin armed with the waker it was given |
| GpioPolls.UndisturbedHandler | zephyr/src/device/gpio.rs:125-147 | a run of the handler nobody disturbs switches off the interrupt and the callback of its first pin, records the event, wakes the waker and goes on to the rest |
| DtsBuild.RoundTrip | zephyr-build/src/devicetree/parse.rs:22-181 | parsing the canonical text of a well-formed devicetree gives back that devicetree, with all names, labels, properties, children, paths, routes and ords |
| DtsMeaning.ParsesTo | zephyr-build/src/devicetree/parse.rs:22-253 | a text is parsed as a devicetree exactly when it consists of the tokens of a source, with blanks and comments between them, the source describes the nodes, with their numbers, properties and children in order, paths, routes and ords are those of where the nodes are, and each label names the last node that carries it |
| DtsReading.ReadsExactly | zephyr-build/src/devicetree/dts.pest:6-78 | the grammar takes a text for a source exactly when the text is its tokens with blanks and comments between them, wherever they are needed to keep two tokens apart and wherever else |
| DtsReading.LayoutFree | zephyr-build/src/devicetree/dts.pest:77-78 | blanks and comments put between the tokens of the canonical text of a devicetree leave the parsed devicetree as it was |
| DtsReading.SameTokens | zephyr-build/src/devicetree/dts.pest:77-78 | two texts of the same tokens are parsed alike |
| DtsReading.FileEaten | zephyr-build/src/devicetree/dts.pest:6-78 | the same without naming the gaps: the tokens one after the other are found behind what is skipped |
| DtsLayout.GapSkipped | zephyr-build/src/devicetree/dts.pest:77-78 | blanks and comments are skipped, each comment up to the first closing mark behind its opening one |
| DtsLayout.SkippedIsGap | zephyr-build/src/devicetree/dts.pest:77-78 | what is skipped is blanks and such comments |
| DtsLayout.EatExactly | zephyr-build/src/devicetree/dts.pest:77-78 | a text goes on behind some tokens exactly when it is these tokens, each behind blanks and comments and none continued by what follows it |
| DtsLayout.SpacedFits | zephyr-build/src/devicetree/dts.pest:49-78 | a blank or comment between any two tokens is enough to keep them apart |
| DtsMeaning.BuildsExactly | zephyr-build/src/devicetree/parse.rs:56-104 | what is built from a source is exactly the node it describes that is placed where it belongs |
| DtsMeaning.WordMeans | zephyr-build/src/devicetree/parse.rs:143-166 | a decimal or hexadecimal word is the number below 4294967296 that it is a numeral for, a phandle word the label behind its ampersand |
| DtsMeaning.ValueMeans | zephyr-build/src/devicetree/parse.rs:108-181 | a value is the text between its quotes, the label of its phandle, its words or its bytes below 256, in order |
| DtsMeaning.NumeralExactly | zephyr-build/src/devicetree/parse.rs:143-181 | the value of digits is that of the numeral: digits 0 to 9, a to f or A to F, each counting its base times as much as the next |
| DtsMeaning.CharactersAre | zephyr-build/src/devicetree/dts.pest:63-75 | labels have letters, digits and underscores, names also , . ? - @ and #, strings anything but quotes and line ends |
| DtsMeaning.AlphaExactly | zephyr-build/src/devicetree/dts.pest:72 | the letters are a to z and A to Z |
| DtsMeaning.DecimalBack | zephyr-build/src/devicetree/parse.rs:154-158 | every number but zero is read back from its decimal notation if it has 32 bits, and panics otherwise |
| DtsMeaning.LabelsExactly | zephyr-build/src/devicetree/parse.rs:99-104 | a label is in the map exactly when a node carries it, and names the last such node, parents behind their children |
| DtsExact.ParsesExactly | zephyr-build/src/devicetree/parse.rs:22-253 | a devicetree comes out of the parser for some text exactly when it is well-formed and its paths, routes and ords are right; `DtsMeaning.ParsesTo` says for which texts |
| DtsExact.Reparse | zephyr-build/src/devicetree/parse.rs:22-27 | for every text that parses, writing the devicetree in canonical form and parsing it again gives the same devicetree and labels |
| DtsExact.PlusRefused | zephyr-build/src/devicetree/dts.pest:73-75 | a file whose root begins with a node or property whose name has a plus sign is refused |
| DtsExact.ZeroRefused | zephyr-build/src/devicetree/dts.pest:35-59 | a file whose root begins with a property whose cells begin with a zero that is not in hexadecimal is refused |
| DtsBuild.TextDetermines | zephyr-build/src/devicetree/parse.rs:22-27 | two well-formed devicetrees with the same text are the same |
| DtsBuild.ParsePlaces | zephyr-build/src/devicetree/parse.rs:201-253 | for every text that parses, each node's path is a slash and its route joined by slashes, the route can be read off the path, and ord is ords[path] |
| DtsBuild.ExtendPath | zephyr-build/src/devicetree/parse.rs:226-241 | the way a path is extended agrees with joining the route |
| DtsBuild.RouteBack | zephyr-build/src/devicetree/parse.rs:226-241 | the route can be read off the path |
| DtsBuild.LabelsResolve | zephyr-build/src/devicetree/parse.rs:88-104 | a label is in the map exactly when a node carries it, and names a node of the tree that does |
| DtsBuild.GrammarNames | zephyr-build/src/devicetree/dts.pest:10-20 | every node name the grammar matches is a non-empty run of name characters |
| DtsTree.TreeBuilder.WalkNode | zephyr-build/src/devicetree/parse.rs:56-104 | one pass over a node's entries builds the node of its text and inserts all labels of its subtree, or panics |
| DtsRoundTrip.FileOver | zephyr-build/src/devicetree/dts.pest:6-78 | the grammar matches the canonical text of a devicetree as just that devicetree |
| DtsRoundTrip.NodeOver | zephyr-build/src/devicetree/dts.pest:10-25 | the text of a node, in front of anything, is matched as that node |
| DtsRoundTrip.PropertyOver | zephyr-build/src/devicetree/dts.pest:27-33 | the text of a property is matched as that property |
| DtsRoundTrip.ValueOver | zephyr-build/src/devicetree/dts.pest:33-72 | the text of a value is matched as that value |
| DtsRoundTrip.NotProperty | zephyr-build/src/devicetree/dts.pest:22-30 | the start of a node is never taken for a property |
| DtsRoundTrip.LabelsOver | zephyr-build/src/devicetree/dts.pest:17-20 | labels in front of a name are matched as labels, and the name is not |
| DtsBuild.ValueBack | zephyr-build/src/devicetree/parse.rs:108-181 | decoding the matched text of a value gives the value |
| DtsOutput.FixIdLoop | zephyr-build/src/devicetree/output.rs:204-216 | the loop maps every character |
| DtsOutput.FixIdShape | zephyr-build/src/devicetree/output.rs:3-5 | the result can name a Rust module exactly when the name has no full stop and no question mark, starts with no digit, is no keyword and no lone underscore, hyphen, at sign or comma |
| DtsOutput.FixIdKeyword | zephyr-build/src/devicetree/output.rs:204-216 | the mapping gives a keyword only for that keyword |
| DtsLookups.FixIdExactly | zephyr-build/src/devicetree/output.rs:204-216 | a hash sign becomes N, a hyphen, at sign or comma an underscore, and every other character stays |
| DtsLookups.UpperExactly | zephyr-build/src/devicetree/output.rs:199-201 | small letters become capital ones and nothing else changes |
| DtsOutput.BadNames | zephyr-build/src/devicetree/output.rs:204-216 | four names the grammar accepts that name no Rust module |
| DtsWalks.Writer.OutputPathWalk | zephyr-build/src/devicetree/output.rs:138-157 | the lines written for a subtree |
| DtsWalks.Writer.OutputProperties | zephyr-build/src/devicetree/output.rs:172-182 | a line for each property that is a single phandle |
| DtsWalks.Writer.OutputNodePaths | zephyr-build/src/devicetree/output.rs:29-39 | the lines for the nodes, then those for the labels |
| DtsWalks.WalksAgree | zephyr-build/src/devicetree/output.rs:41-182 | the cfg lines are the module paths of the generated code, in the same order, apart from the root's own phandle properties |
| DtsWalks.WalksAgreeAtRoot | zephyr-build/src/devicetree/output.rs:29-182 | so for every devicetree with the one Labels action at the root, as in dt-rust.yaml |
| DtsWalks.ChildAgrees | zephyr-build/src/devicetree/output.rs:41-157 | the two walks agree on one child, whatever module it is in |
| DtsItems.ItemsExactly | zephyr-build/src/devicetree/output.rs:41-133 | an item stands in a module of the code exactly when a node below the root has that module and the item is its ord, or a property of a node gives it (its one number; what its one phandle refers to, in a module of the property; else its text), or an action of an augmentation that matches a node (its instance, its raw properties, the labels each with what it refers to) |
| DtsItems.CodeExactly | zephyr-build/src/devicetree/output.rs:41-133 | there is code exactly when, in every node, the phandles used have nodes, instances are given what their arguments need and no Parent has level 0 |
| DtsItems.NodeItems | zephyr-build/src/devicetree/output.rs:41-91 | the items of a node: one for each property, one module for each child with its ord first, then those of its actions, in order |
| DtsItems.JobsInOrder | zephyr-build/src/devicetree/augment.rs:72-86 | the items of the actions come one action after the other |
| DtsItems.InstanceItem | zephyr-build/src/devicetree/augment.rs:224-352 | an instance gives at most one item: the device of its own ord if the node is okay, the call in the module its phandle refers to with the numbers behind it, or the call its level up with its arguments unless that ancestor is not okay |
| DtsClosed.Closed | zephyr-build/src/devicetree/output.rs:41-133 | every route in the generated code names the devicetree module or a module that is generated; `DtsItems.ItemsExactly` says which |
| DtsClosed.HasModule | zephyr-build/src/devicetree/output.rs:41-91 | every node below another has a module inside the other's |
| DtsCalls.ParentArm | zephyr-build/src/devicetree/augment.rs:306-335 | the two loops find the ancestor of the level and a chain of that many super |
| DtsCalls.ParentNamesAncestor | zephyr-build/src/devicetree/augment.rs:306-349 | a Parent instance becomes a chain of super of its level exactly when its arguments can be had and the ancestor of that level, if there is one, is okay; the chain names that ancestor when the level is at most the depth |
| DtsCalls.MadeExactly | zephyr-build/src/devicetree/augment.rs:227-352 | the calls and instance functions in a devicetree's code are exactly those its nodes' matching Instance actions make, each in its node's module |
| DtsCalls.SupersNameAncestors | zephyr-build/src/devicetree/augment.rs:306-349 | so for every chain of super in the code generated for a parsed devicetree |
| DtsCalls.FunctionExactly | zephyr-build/src/devicetree/augment.rs:234-272 | under any set of enabled options a module has get_instance_raw exactly when a node of that module is okay and has an instance of its own whose augmentation's option is enabled |
| DtsCalls.CallFindsExactly | zephyr-build/src/devicetree/augment.rs:275-349 | every call is made by an Instance action of its module's node; if no two nodes share a module, it finds its function under a set of options exactly when the designated node exists, is okay and has an instance of its own whose option is enabled, and whenever it is compiled exactly when that option is none or the caller's |
| DtsOptionCalls.KeyNeedsGpio | dt-rust.yaml:8-46 | with the repository's entries for GPIO controllers and keys, a key's call is always compiled and finds its function exactly with CONFIG_GPIO |
| DtsLostCalls.CallsAreLost | zephyr-build/src/devicetree/augment.rs:275-349 | a text whose code calls into the module of a disabled controller, which has no function, and beyond the root |
| DtsCalls.CompatibleLevel | zephyr-build/src/devicetree/augment.rs:119-132 | a compatible rule looks at the ancestor of its level, if there is one |
| DtsLookups.FirstProperty | zephyr-build/src/devicetree.rs:168-176 | the property of a name is the first one of the name, and there is none exactly when no property has it |
| DtsLookups.WordsExactly | zephyr-build/src/devicetree.rs:179-184 | the words of a name are those of its first property if that has nothing else |
| DtsLookups.NumbersExactly | zephyr-build/src/devicetree.rs:198-208 | words are all numbers exactly when each is, and these are the numbers in order |
| DtsLookups.StatusExactly | zephyr-build/src/devicetree/augment.rs:237-239 | a node is not okay exactly when its first status is a single string other than okay and ok |
| DtsLookups.CompatibleExactly | zephyr-build/src/devicetree.rs:132-138 | a node is compatible with a name exactly when some value of some compatible property is that string |
| DtsLookups.RulesCompose | zephyr-build/src/devicetree/augment.rs:108-117 | Or and And of no rules, of one rule and of two lists |
| DtsLookups.CompatibleRule | zephyr-build/src/devicetree/augment.rs:108-132 | a Compatible rule matches a node exactly when the ancestor of its level, or itself at level 0, is there and compatible with one of the names |
| DtsLookups.HasPropExactly | zephyr-build/src/devicetree/augment.rs:108-117 | a HasProp rule matches exactly the nodes with a property of the name |
| DtsLookups.RootExactly | zephyr-build/src/devicetree/augment.rs:108-117 | a Root rule matches exactly the root, which is the node with the empty route |
| DtsLookups.JobsExactly | zephyr-build/src/devicetree/augment.rs:33-86 | the actions performed for a node are those, with their options, of the augmentations all of whose rules match it |
| DtsLookups.JobsAppend | zephyr-build/src/devicetree/augment.rs:72-86 | the actions of two lists of augmentations come one list after the other |
| DtsLookups.RegExactly | zephyr-build/src/devicetree/augment.rs:368-375 | a Reg argument is the numbers of the first reg property, if it has only numbers |
| DtsLookups.ChildIdxExactly | zephyr-build/src/devicetree.rs:222-232 | a ChildIdx argument is the place of the node among the children of its parent |
| DtsLookups.ArgsAppend | zephyr-build/src/devicetree/augment.rs:328-349 | the arguments of a list are those of its parts, one after the other |
| DtsTokens.ToTokens | zephyr-build/src/devicetree.rs:268-318 | the tokens flatten to the words in order, and each phandle has become what the words after it call for |
| DtsTokens.LookAhead | zephyr-build/src/devicetree.rs:282-292 | the next words, if there are as many as asked for and all are numbers |
| DtsTokens.GpioExactly | zephyr-build/src/devicetree.rs:276-312 | a phandle becomes a Gpio exactly when it names a gpio controller and its #gpio-cells numbers follow, which are its arguments |
| DtsLookups.CellsExactly | zephyr-build/src/devicetree.rs:276-279 | the cells count of a label is k exactly when its node has a gpio-controller property and its first #gpio-cells is the one number k |
| DtsLookups.GpioArguments | zephyr-build/src/devicetree.rs:276-312 | a phandle takes these arguments exactly when the cells count of its controller is their number and they are the numbers that follow; else it takes none |
| DtsTokens.GroupingUnique | zephyr-build/src/devicetree.rs:268-318 | the words and the phandles' tokens determine the grouping |

## Left out

- Kernel calls behind `zephyr/src/sys`, the embassy executor and the time driver: taken as the assumptions above.
- Thread reuse in `zephyr/src/thread.rs`, work queues, timers, the object and thread-local support and the device
  wrappers other than GPIO: their claims rest on kernel behaviour that is not part of this model.
- Dropping a channel: the code panics when either side runs out of handles; the channel model keeps the handles
  alive and `ChannelCounter` takes the disconnect closure to return.
- Unbounded channels as such: they appear as channels without a capacity in the philosophers only.
- Priorities and fairness: progress says that something useful can happen and that little can happen before all
  is done, not who goes first; the endless runs of `BlockingLivelock.PollsForever` keep the slots' owners waiting,
  and nothing is said about schedulers that let every actor go on at last.
- Random delays, statistics, printing, and the semaphore and kernel-mutex variants of the philosophers.
- The regular expressions that read `devicetree_generated.h`, the yaml reader and the tokens around the generated
  modules: the ord map and the augmentations are parameters.
- `Node::compatible_path`: nothing calls it and its test is inverted.
- Distinct siblings may get the same identifier from `fix_id`; `DtsCalls.CallFindsExactly` supposes that no two nodes
  share a module, and nothing else is claimed about name clashes.
- The philosophers' channels and lock: `Philosophers` has each channel as a queue with a count of slots in use, and
  `CondSyncPhilosophers` its mutex as a lock with one owner; that runs over the slots of `ChannelRefinement` and the
  guards of `MutexGuards` project to theirs is not proved.
- GpioHandler.GpioStatic.CallbackHandler: a 32-bit word is the set of its one bits, so the shift and mask
  operations appear as set operations; `GpioHandler.WordIsNumber` says which operations on the number they are.
- GpioWait.NeverStuck: an update of the pin mask is one step and each pin has one future at a time, as the comments
  in the code suppose; that a concurrent read-modify-write of the mask could lose an update is not captured.
- BlockingCode.Pool.PollFuture: a call that waits for a lock goes on when the others' schedule lets it; that the lock
  is released at last is `BlockingProgress.Progress`.
- MutexGuards.Mutex.Lock: the class is one thread's uninterrupted calls; interleavings are in the step relation of
  the same module.
- DtsLookups.ChildIdxExactly: nodes are values here, so of two siblings equal in everything, name and path included,
  both have the place of the first; the code compares addresses.
- DtsItems.ItemsExactly: the text of a property that is neither one number nor one phandle is the Debug form of its
  values, and a raw property is its values; how Rust writes these down is not part of this model, apart from the
  grouping of words in `DtsTokens`.
- DtsClosed.Closed: says that the module exists, not that it has the function an instance calls;
  `DtsCalls.CallFindsExactly` says when it has.
- Panics outside the walks that generate code: `format_ident!` on characters no identifier has, and phandles to
  labels nobody carries where nothing uses the phandle.
