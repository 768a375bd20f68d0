# Verified model of the async synchronization library

The library builds its locks, channel and cells on a *futex*: one double-wide atomic that
holds a user word and a lock-free inbox of waiters, and first-in first-out queues that the
inbox is distributed to. This project models the futex, every client of it, and the second,
ticketed wait queue, and proves what they promise for any number of tasks and every
interleaving.

There are three layers.

* **The heap structures.** `WaiterList.dfy` and `RawFutex.dfy` are classes with the source's
  `next`, `prev`, `head`, `tail` and inbox pointers, updated in place. Their contracts say
  that each operation computes the function of the same meaning on sequences, in
  `Futex.dfy`. `WaitFuture.dfy` is one wait with its waker slot.
* **The protocols.** `RwLock.dfy`, `FairMutex.dfy` (with the condition variable), `Mpsc.dfy`,
  `FastMutex.dfy`, `OnceCell.dfy` and `TicketQueue.dfy` are transition systems. One step of
  one task is one access to shared memory; a weak compare-and-swap may fail for no reason,
  and on success the caller's snapshot keeps the old value, as in the source. A failed
  `assert!`, `unwrap`, `panic!`, `unreachable!` or unsigned subtraction sends the task to
  `Crashed`. The `...Proof.dfy` files hold the invariants, each kept by every step, and
  theorems over all runs. The `...Order.dfy` and `...Calls.dfy` files show in which order
  tasks are served, up to runs refining a plain first-in first-out lock and a plain bounded
  queue, and that callers get what they asked for: as many as they asked for, and an answer
  to an attempt that nobody disturbs. `TicketQueueRoom.dfy` shows that no generation is
  closed needlessly.
* **The code of the clients.** The `...Code.dfy` files hold the clients written as the source
  writes them: one object whose word, futex and buffers are updated in place by loops over a
  snapshot, with the source's assertions as assertions, and other tasks taking any steps
  between two accesses. The object records what happens as a run of the transition system,
  and every method is shown to go on with that run, an operation by exactly one call with
  its own arguments; so the invariants hold at every point of the code, and the assertions
  follow from them.

`Attempts.dfy` holds the compare-and-swap attempts the clients share, `Counting.dfy` sums
over unboundedly many tasks, `FutexLaws.dfy` the discipline all futex clients keep,
`Places.dfy` arithmetic of rings, `Packing.dfy` the packing of words, `Sequences.dfy`,
`Traces.dfy` and `Options.dfy` small helpers.

## Model

| member | source | states |
|---|---|---|
| `WaiterLists.WaiterList.FromStack` | src/futex/waiter.rs:132-146 | Rebuilding the doubly linked list from the newest waiter's prev chain yields exactly the stack, oldest first, with all links in both directions; the loop ends because the chain has no cycle. |
| `WaiterLists.WaiterList.PopFront` | src/futex/waiter.rs:187-203 | The first waiter leaves, the rest keep their order, and the popped waiter has no links. |
| `WaiterLists.WaiterList.PushBack` | src/futex/waiter.rs:237-245 | The waiter becomes the last one and the list stays linked both ways. |
| `WaiterLists.WaiterList.Remove` | src/futex/waiter.rs:165-184 | Unlinking takes out exactly the given waiter wherever it stands; for a waiter that was popped before, nothing at all changes. |
| `WaiterLists.WaiterList.PopFrontMany` | src/futex/waiter.rs:205-226 | The first min(count, length) waiters, or all for the largest count, become a list of their own and the rest stays, both correctly linked and ended. |
| `WaiterLists.WaiterList.Count` | src/futex/waiter.rs:316-333 | Walking the list by its next links meets every waiter once. |
| `WaiterLists.WithoutAt` | src/futex/waiter.rs:165-184 | Unlinking the i-th waiter closes the gap and moves nobody else. |
| `RawFutexes.RawFutex.Enqueue` | src/futex/mod.rs:251-256 | Every queue becomes its old waiters followed by the stack's waiters that asked for it, oldest first. |
| `RawFutexes.RawFutex.CmpxchgWeak` | src/futex/mod.rs:122-127 | Word and inbox pointer are compared together; success changes the word only and leaves the caller's snapshot old. |
| `RawFutexes.RawFutex.CmpxchgEnqueueWeak` | src/futex/mod.rs:279-291 | Success takes the whole inbox with the new word and distributes the old inbox; failure changes nothing and reloads. |
| `RawFutexes.RawFutex.Pop` | src/futex/mod.rs:293-297 | The first waiter of one queue leaves the futex and no other queue or link changes. |
| `RawFutexes.RawFutex.PopMany` | src/futex/mod.rs:299-304 | The first waiters of one queue leave together, in order. |
| `RawFutexes.RawFutex.Flip` | src/futex/mod.rs:231-244 | However often the swap fails, by itself or because other tasks push waiters between the load and the swap, the inbox, with exactly those that came in time, ends up distributed; if nobody came the word is unchanged. |
| `RawFutexes.RawFutex.Cancel` | src/futex/mod.rs:246-249 | Exactly the cancelled waiter is gone from its queue; a waiter in no list leaves every queue as it is. |
| `RawFutexes.RawFutex.FlipAndCancel` | src/futex/wait_future.rs:146-147 | Dropping a wait under the exclusive guard deletes the waiter whether it is still in the inbox, queued, or popped already, and keeps all others in order, those included that arrive while the flip retries. |
| `RawFutexes.RawFutex.CmpxchgWaitWeak` | src/futex/wait_future.rs:54-76 | A successful wait makes the waiter the top of the inbox it compared with; a failed one leaves the futex alone. |
| `RawFutexes.RawFutex.Requeue` | src/futex/mod.rs:335-354 | A list moves to the end of the inbox in order, as if each had waited here, behind whoever arrives before the swap succeeds, and all of them get the new owner. |
| `RawFutexes.DealtView` | src/futex/mod.rs:251-256 | Dealing the linked waiters one by one is the distribution the protocols use. |
| `RawFutexes.CancelFinds` | src/futex/wait_future.rs:138-152 | After the flip a cancelled waiter is in the queue it asked for or in no list. |
| `Futex.DistributeIsEnqueue` | src/futex/mod.rs:251-256 | Appending the stack's waiters one by one equals giving each queue its waiters in a block. |
| `FutexLaws.EnqueueLaw` | src/futex/mod.rs:279-291 | Taking the inbox leaves every sleeping task in exactly one list, the one it asked for. |
| `FutexLaws.PopLaw` | src/futex/mod.rs:293-304 | Popped waiters are in the popping task's hand and in no list. |
| `FutexLaws.UnlinkLaw` | src/futex/wait_future.rs:138-152 | A cancelled wait leaves everybody else in exactly one list, and changes no queue if the waiter was woken before. |
| `FutexLaws.UnlinkOrder` | src/futex/mod.rs:231-249 | Flipping and unlinking turn the waiting order into the same order without the waiter, both if it is listed and if not. |
| `WaitFutures.Waiter.WakeUp` | src/futex/waiter.rs:101-108 | Waking a listed waiter always finds a waker, invokes it once and leaves the slot Done. |
| `WaitFutures.Waiter.Drop` | src/futex/waiter.rs:278-286 | When the waiter is gone every waker ever cloned has been woken or dropped exactly once. |
| `WaitFutures.WaitFuture.PollEnter` | src/futex/wait_future.rs:54-76 | A waker is cloned only if none is left from a failed attempt. The poll is pending, with the waiter as top of the inbox and the new word, exactly if word and inbox are still what the caller had seen and the swap does not fail for no reason; otherwise the futex is untouched. |
| `WaitFutures.WaitFuture.PollWaiting` | src/futex/wait_future.rs:78-98 | A poll is ready with true if and only if wake has happened, exactly once; otherwise the slot holds the renewed waker. |
| `WaitFutures.WaitFuture.Drop` | src/futex/wait_future.rs:134-170 | With notifiers that may wake the waiter until the exclusive guard is held, and waiters that arrive while the flip retries: dropping a parked wait runs exactly one of the two callbacks, on_cancel_woken if and only if the waiter had been woken by then; it is in no list any more and every waker is accounted for once. |
| `RwLockProof.StepKeeps` | src/rwlock.rs:68-235 | Every step of every task keeps the counting invariant: readers is the sum of read units, writers the sum of write units, and each sleeper is in exactly one list. |
| `RwLockProof.MutualExclusion` | src/rwlock.rs:68-133 | In every run a writer excludes every reader and every other writer. |
| `RwLockProof.WordIsExact` | src/rwlock.rs:45-51 | The word counts exactly the outstanding read units, the downgrade leader's included, and the owner with the queued writers. |
| `RwLockProof.NeverCrashes` | src/rwlock.rs:139-235 | No assertion, unwrap, subtraction, wake or borrow of the unlock paths fails. |
| `RwLockProof.SingleBorrower` | src/futex/atomic_refcell.rs:25-28 | At most one task holds the queue borrow, so its assertion never fails. |
| `RwLockProof.DowngradeIsSafe` | src/rwlock.rs:195-218 | From the downgrade to the re-count, the release of the borrow between them included, readers stays positive, no other reader thinks it is last, and the snapshot from before the downgrade does not match. |
| `RwLockProof.RecountIsExact` | src/rwlock.rs:205-218 | The re-count trades the leader's unit for exactly one unit per popped reader, or changes nothing and looks again. |
| `RwLockProof.FirstRecountFails` | src/rwlock.rs:205-213 | Whatever others do between the downgrade and the first attempt to re-count, that attempt fails and reloads, as it is made with the stale snapshot. |
| `RwLockProof.WritersInOrder` | src/rwlock.rs:117-126 | Writers come to own the lock in the order in which they began to wait. |
| `RwLockOrder.WritersFirst` | src/rwlock.rs:75-95 | Over any continuation of any run: a task that was not let in as a reader while a writer waited, whether it was parked before or after that writer, was about to ask or had yet to come, is not let in before that writer was granted the lock. |
| `RwLockOrder.ReadIsAnswered` | src/rwlock.rs:72-95 | Undisturbed, a task that asks to read is let in within two turns exactly if no task owns the lock as a writer or waits to, and is parked otherwise. |
| `RwLockOrder.WriteIsAnswered` | src/rwlock.rs:105-129 | Undisturbed, a task that asks to write owns the lock within two turns exactly if no task reads, owns it or waits to write, and is parked behind all writers otherwise. |
| `RwLockOrder.ReadUnlockIsAnswered` | src/rwlock.rs:141-154 | Undisturbed, a reader has given its unit back within two turns, unless it is the last one and a writer waits. |
| `RwLockOrder.LastReaderIsAnswered` | src/rwlock.rs:155-172 | The last reader takes the writer in hand that has waited longest. |
| `RwLockOrder.WriteUnlockIsAnswered` | src/rwlock.rs:181-231 | An owner that unlocks with what is in memory hands the lock to the writer that has waited longest; if none waits it becomes a reader together with all readers that wait; if nobody waits it frees the lock. |
| `RwLockOrder.WriteUnlockReloads` | src/rwlock.rs:184-194 | A failed attempt to unlock comes back with what is in memory. |
| `RwLockOrder.DroppedGivesBack` | src/rwlock.rs:83-92 | Over any continuation of any run: a task that has dropped its wait, woken or not, neither reads nor writes before it is idle again, when it holds no unit. |
| `RwLockProof.NoLostWakeup` | src/rwlock.rs:155-172 | A sleeping task always has some other task that owns the lock, reads, or carries a grant. |
| `RwLockProof.RestIsEmpty` | src/rwlock.rs:184-231 | When nobody holds the lock, works on it or was woken, the word is (0,0), every list is empty and nobody sleeps. |
| `RwLockProof.ListedNeedsWriter` | src/rwlock.rs:75-95 | In every run, whoever is in a list of the lock waits for a writer: writers is positive. |
| `RwLockProof.ParkedReader` | src/rwlock.rs:75-95 | A parked reader waits for a writer, or the leader of a downgrade has it in hand and is about to wake it. |
| `RwLockProof.ReaderOutlastsWriter` | src/rwlock.rs:197-231 | The second case is real: a run of two tasks after which a reader is parked and writers is 0. |
| `RwLockCode.Lock.Read` | src/rwlock.rs:68-99 | The loop of read(), with any interference, goes on with a run of the machine by exactly one call of read; it holds a read guard when it returns one, and by then every writer that was waiting when it began has been granted the lock. |
| `RwLockCode.Lock.Write` | src/rwlock.rs:101-133 | The same for write(). |
| `RwLockCode.Lock.ReadUnlock` | src/rwlock.rs:139-173 | The same for read_unlock(), with its assertions and its subtraction checked in place. |
| `RwLockCode.Lock.WriteUnlock` | src/rwlock.rs:175-235 | The same for write_unlock(), with its assertions, its unwrap and the re-count after a downgrade checked in place. |
| `FairMutexProof.StepKeeps` | src/fair_mutex.rs:50-104 | Every step of lock, unlock, wait, notify and cancellation keeps the invariant over both futexes. |
| `FairMutexOrder.QuitView` | src/futex/wait_future.rs:138-169 | Dropping a parked wait shows as exactly that waiter leaving the line or the waiting room, whichever futex it was moved to meanwhile; everybody else keeps their place. |
| `FairMutexOrder.StepShows` | src/fair_mutex.rs:50-104 | Every step is a legal step, or none, of a first-in first-out lock with a waiting room. |
| `FairMutexOrder.RunRefines` | src/fair_mutex.rs:50-104 | Every run replays as one legal log of that lock, each event the act of the task whose turn it was, that agrees with the machine at every moment of the run. |
| `FairMutexOrder.NoOvertaking` | src/fair_mutex.rs:54-103 | On any turn of any run, of two waiters in line the one in front stays in front until it is handed the mutex, unless it is the turn of one of the two to give up. |
| `FairMutexOrder.ServedInOrder` | src/fair_mutex.rs:54-103 | Over any continuation of any run: of two waiters in line neither of which gives up, the one in front is still in front at the end, or was handed the mutex at some turn until which the other one was behind it all the time. |
| `FairMutexOrder.GrantedInOrder` | src/fair_mutex.rs:54-103 | Whenever the mutex comes to belong to a task of a run, nobody was waiting and it has just asked for it, or it was the first in line: nobody barges in. |
| `FairMutexOrder.FreeIsEmpty` | src/fair_mutex.rs:50-103 | In every run, a word of 0 means that nobody is in a list of the mutex. |
| `FairMutexOrder.OneOwner` | src/fair_mutex.rs:77-103 | At most one ownership token exists, counting woken and cancelled waiters, and the word is 1 while it does. |
| `FairMutexOrder.NeverCrashes` | src/fair_mutex.rs:77-103 | No unwrap, panic or second borrow is reached, by the condition variable's operations either. |
| `FairMutexOrder.OnePlace` | src/condvar.rs:53-71 | A sleeping waiter is in exactly one list of exactly one futex or hand, at every moment of a requeue. |
| `FairMutexOrder.NoLostWakeup` | src/fair_mutex.rs:86-103 | A task sleeps for the mutex only while another one owns it. |
| `FairMutexOrder.NotifyTakesFirst` | src/condvar.rs:53-67 | notify(k) takes exactly the first min(k, waiting) waiters, in order, and wakes nobody. |
| `FairMutexOrder.NotifyAppends` | src/condvar.rs:68-70 | Those waiters are appended, in order, to the mutex's line and leave the waiting room, still asleep. |
| `FairMutexOrder.WaitReturnsOwner` | src/condvar.rs:28-52 | lock and wait return exactly when the mutex has been handed to the task. |
| `FairMutexCalls.NotifyAsks` | src/condvar.rs:53-67 | In every run a notifier that has not taken its waiters yet is to take as many as its caller asked for. |
| `FairMutexCalls.NotifyMovesFirst` | src/condvar.rs:53-71 | Over whole runs: a task that has the mutex, asks for nothing but notify(count) and is at rest with the mutex again has on one turn taken the first min(count, waiting) waiters of the room, in order, and on a later one appended exactly these to the line. |
| `FairMutexCalls.UnusedIsEmpty` | src/condvar.rs:54-59 | A condition variable without a mutex has an empty waiting room, so notify has nothing to do. |
| `FairMutexCalls.DroppedGivesBack` | src/fair_mutex.rs:54-72 | Over any continuation of any run: a task that has dropped its wait, woken or not, does not come to hold the mutex before it is idle again. |
| `FairMutexCalls.LockIsAnswered` | src/fair_mutex.rs:50-75 | Undisturbed, a task that asks for the mutex has it within two turns if it belongs to nobody, and otherwise stands at the end of the line. |
| `FairMutexCalls.WaitIsAnswered` | src/condvar.rs:28-52 | Undisturbed, a task that waits stands at the end of the waiting room within two turns, and goes on to release the mutex. |
| `FairMutexCalls.UnlockIsAnswered` | src/fair_mutex.rs:77-103 | Unlocking with what is in memory hands the mutex to the first in line, and frees it if nobody is. |
| `FairMutexCalls.UnlockReloads` | src/fair_mutex.rs:86-103 | A failed attempt to unlock comes back with what is in memory. |
| `FairMutexCalls.NotifyIsAnswered` | src/condvar.rs:60-67 | Undisturbed, a notifier takes within two turns the first waiters of the room, as many as its caller asked for or all of them. |
| `FairMutexCalls.PushIsAnswered` | src/futex/mod.rs:335-354 | Undisturbed, it appends them within two turns to the line. |
| `FairMutexCode.Monitor.Lock` | src/fair_mutex.rs:50-75 | The loop of lock(), with any interference, goes on with a run of the machine by exactly one call of lock, and owns the mutex when it returns. |
| `FairMutexCode.Monitor.Unlock` | src/fair_mutex.rs:77-104 | The same for unlock(), with its unwrap and both borrows checked in place. |
| `FairMutexCode.Monitor.Wait` | src/condvar.rs:28-52 | The same for wait(), with its assertion checked in place; when it returns the mutex is owned again. |
| `FairMutexCode.Monitor.Notify` | src/condvar.rs:53-71 | The same for notify(count), with the requeue waiter by waiter; when it returns the first count waiters, or all of them, have been moved in order to the end of the line, and the caller has kept the mutex. |
| `FairMutexCode.Monitor.DropWait` | src/futex/wait_future.rs:134-170 | The same for dropping a wait of lock() or wait(): the loop that takes the guard of the futex the waiter belongs to and looks again who owns it, the flip with its retries, and unlock() if the waiter had been woken; the slot is never found without state. |
| `MpscProof.StepKeeps` | src/mpsc.rs:80-198 | Every step of every sender and of the receiver keeps the channel's invariant. |
| `MpscOrder.StepShows` | src/mpsc.rs:80-198 | Every step is a legal step, or none, of a bounded first-in first-out queue with blocked senders. |
| `MpscOrder.RunRefines` | src/mpsc.rs:80-198 | Every run replays as one legal log of that queue, each event the act of the one whose turn it was, that agrees with the machine at every moment of the run. |
| `MpscOrder.NoOvertaking` | src/mpsc.rs:80-198 | Over any continuation of any run: as long as a blocked sender does not give up, every message that is neither accepted nor in front of it is accepted only after its own, also of senders that have yet to come. |
| `MpscOrder.BlockedInOrder` | src/mpsc.rs:80-198 | Over any continuation of any run: of two blocked senders, the one in front not giving up, the message of the one behind is accepted only after that of the one in front. |
| `MpscOrder.DeliveredInOrder` | src/mpsc.rs:124-197 | What was received is a prefix of what was accepted, no message is accepted twice, and never more than the capacity is outstanding. |
| `MpscOrder.SendersKnow` | src/mpsc.rs:109-121 | A cancelled sender's message was taken if and only if it had been served, so the callback's assertion holds. |
| `MpscOrder.SendOutcome` | src/mpsc.rs:96-121 | A send that returned has had its message accepted; the message of a send that gave up is accepted if and only if it had left the sender. |
| `MpscOrder.ReceiverNeverCrashes` | src/mpsc.rs:147-195 | The size assertions and subtraction never fail and a filled bucket always has a message. |
| `MpscOrder.RingIsExact` | src/mpsc.rs:87-95 | Outside the critical section the write head is the read head plus the size, round the ring; a blocked sender finds the ring full; a back-filled bucket is the next to be written. |
| `MpscOrder.NoLostWakeup` | src/mpsc.rs:125-141 | If the receiver is left waiting with its waker not invoked and no sender is at work, everything accepted was received and nobody is blocked. |
| `MpscOrder.SendIsAnswered` | src/mpsc.rs:85-121 | Undisturbed, a send is given a place within two turns if fewer messages than the capacity are in the channel, and otherwise stands at the end of the line. |
| `MpscOrder.PlaceIsGiven` | src/mpsc.rs:147-195 | Undisturbed, the receiver gives the place of an emptied bucket within two turns to the first in line, whose message is accepted next, and frees it if nobody is in line. |
| `MpscOrder.PollIsAnswered` | src/mpsc.rs:125-146 | Undisturbed, a poll that finds the next bucket filled takes the next message in the order of acceptance, and otherwise leaves its waker and waits. |
| `MpscCode.Inner.SendMessage` | src/mpsc.rs:80-123 | The loop of send() over the bucket array, with any interference, goes on with a run of the machine; when it returns the message is accepted. |
| `MpscCode.Inner.Poll` | src/mpsc.rs:124-198 | One poll of recv(), with its assertions and its subtraction checked in place, appends exactly the message it returns to those received; a blocked poll receives nothing and has registered its own waker. |
| `FastMutexProof.StepKeeps` | src/fast_mutex.rs:56-170 | Every step keeps the invariant of holder, waking flag and waiter count. |
| `FastMutexProof.MutualExclusion` | src/fast_mutex.rs:56-114 | At most one task has the mutex and the word says locked while it does. |
| `FastMutexProof.WordIsExact` | src/fast_mutex.rs:85-111 | waiters counts the sleeping tasks and the woken one; waking is set exactly while one dequeue or wake is in progress, and it covers just one. |
| `FastMutexProof.NeverCrashes` | src/fast_mutex.rs:133-169 | The subtraction, the unwrap and the borrow never fail, and the branch for no waiters is never taken. |
| `FastMutexProof.NoLostWakeup` | src/fast_mutex.rs:116-170 | With no task at work the word is zero and nobody is asleep. |
| `FastMutexOrder.RousedInOrder` | src/fast_mutex.rs:133-169 | In every run the waits of tasks, in the order in which they began (again, for one that sleeps again), are the sleepers taken up to be woken, in that order, followed by those asleep in the lists. |
| `FastMutexOrder.NoOvertaking` | src/fast_mutex.rs:133-169 | However a run goes on, the order of those woken and of those asleep behind them stays, and whoever comes later is behind them. |
| `FastMutexOrder.LockIsAnswered` | src/fast_mutex.rs:56-114 | Undisturbed, a task that asks for the mutex, for the first time or woken, has it within two turns if nobody has, and otherwise sleeps behind all others. |
| `FastMutexOrder.UnlockIsAnswered` | src/fast_mutex.rs:116-132 | Undisturbed, unlocking lets go of the mutex within two turns if nobody sleeps in a list or somebody is being woken, and otherwise goes on to wake a sleeper. |
| `FastMutexOrder.DecideIsAnswered` | src/fast_mutex.rs:133-169 | Undisturbed, it then frees the mutex within two turns and takes up the sleeper that went to sleep first. |
| `FastMutexCode.Mutex.Lock` | src/fast_mutex.rs:56-114 | The two loops of lock(), with any interference and the stale snapshot of a woken task, go on with a run of the machine by exactly one call of lock, and the task holds the mutex when they return. |
| `FastMutexCode.Mutex.Unlock` | src/fast_mutex.rs:116-170 | The same for unlock(), with its unwrap and its borrow checked in place; whoever is woken meanwhile is woken in the order of the line. |
| `OnceCellProof.StepKeeps` | src/lazy.rs:43-99 | Every step keeps the once-cell's invariant. |
| `OnceCellProof.OnlyForward` | src/lazy.rs:58-99 | The cell goes Uninit, Active, then Init or Poison and never back, and its value is written at most once, by the initializer, before Init. |
| `OnceCellProof.SettledStays` | src/lazy.rs:58-99 | However a run goes on, the phase never goes back, and the initializer and the value, once there, stay what they are. |
| `OnceCellProof.ValueIsYielded` | src/lazy.rs:71-77 | In every run the value of the cell is one that its initializer yielded on some turn while it ran, and a cell is poisoned only if its initializer was dropped. |
| `OnceCellProof.OneInitializer` | src/lazy.rs:64-78 | Only one task ever initializes: the tasks that initialize or finish at any two moments of a run are the same. |
| `OnceCellProof.NeverCrashes` | src/futex/wait_future.rs:57-66 | A woken waiter never waits again, so the reuse panic is unreachable; whoever gets a value gets the one that was set. |
| `OnceCellProof.NobodyLeftWaiting` | src/lazy.rs:43-56 | A sleeping call has an initializer that runs or is about to wake it; finishing leaves nobody parked. |
| `OnceCellProof.LookIsAnswered` | src/lazy.rs:58-99 | Undisturbed, a call is answered within two turns: it becomes the initializer if there is none, waits while one runs, and otherwise gets the value or panics. |
| `OnceCellProof.GetIsAnswered` | src/lazy.rs:30-37 | get() never waits: it gets the value if there is one, panics if the cell is poisoned, and otherwise goes without. |
| `OnceCellProof.FinishIsAnswered` | src/lazy.rs:43-56 | Undisturbed, the initializer publishes the outcome within two turns and has everybody in hand that waited. |
| `OnceCellCode.Cell.GetOrInit` | src/lazy.rs:58-99 | The loop of get_or_init(), with any interference and any initializer, goes on with a run of the machine by exactly one call; what it returns is the value of an initialized cell, and if this call initialized it, the value its own initializer came to. |
| `OnceCellCode.Cell.Finish` | src/lazy.rs:43-56 | The same for finish(), with its assertion, its borrow and every wake checked in place. |
| `TicketQueueProof.StepKeeps` | src/futex2/mod.rs:85-251 | Every step keeps the per-place counts, also when notifiers overtake each other on a bucket. |
| `TicketQueueProof.NothingLost` | src/futex2/mod.rs:115-161 | Every place of the current generation has received exactly the notifications of its tickets, but for those a notifier still owes. |
| `TicketQueueProof.PlaceIsExact` | src/futex2/mod.rs:131-158 | Notifications a place received are its finished tickets, plus one exactly while the bucket is Woken or Waking. |
| `TicketQueueProof.TicketsUnique` | src/futex2/mod.rs:166-174 | No two waits hold the same ticket. |
| `TicketQueueProof.NeverUnreachable` | src/futex2/mod.rs:222-249 | A parked waiter finds its bucket Waiting, Waking or closed; the unreachable branch is not reached. |
| `TicketQueueProof.TombstoneStays` | src/futex2/mod.rs:85-100 | A closed bucket stays closed, however the run goes on. |
| `TicketQueueProof.ExpandLeavesClosed` | src/futex2/mod.rs:85-109 | Whoever returns from expand leaves the whole generation closed and a later one current, and everybody that waits there has had its waker invoked or is about to be woken by a notifier. |
| `TicketQueueProof.NoLostNotification` | src/futex2/mod.rs:115-251 | When no operation is in flight, a parked waiter whose waker was not invoked has a ticket of the current generation that was not notified; the other way round, such a ticket's bucket holds the waiter's waker, which was not invoked. |
| `TicketQueueCalls.NotifyAsks` | src/futex2/mod.rs:115-128 | In every run a notifier is to notify as many tickets as its caller asked for, or one if the condition of a wait has failed. |
| `TicketQueueCalls.Ledger` | src/futex2/mod.rs:115-174 | On every turn of every run the tickets of the current generation change in one of three ways only: the next one is taken; the smaller of the number the caller asked for and of the tickets taken and not notified is notified; or the generation has been closed and the next one, of twice the capacity, begins. |
| `TicketQueueCalls.NotifyTakesEffect` | src/futex2/mod.rs:115-161 | Over whole runs: an idle task that asks for nothing but notify(k) and is idle again has on one of its turns notified the smaller of k and of the tickets taken and not notified. |
| `TicketQueueCalls.CapacityDoubles` | src/futex2/mod.rs:85-109 | The g-th generation has the first capacity times two to the power of g. |
| `TicketQueueCalls.ParkedHeld` | src/futex2/mod.rs:186-193 | A wait is parked only if its condition was evaluated after its ticket was taken, and held. |
| `TicketQueueCalls.EnterIsAnswered` | src/futex2/mod.rs:165-174 | Undisturbed, a task that comes to wait has the next ticket within two turns. |
| `TicketQueueCalls.WaitIsAnswered` | src/futex2/mod.rs:179-214 | Undisturbed, it then puts its waker into its bucket, or finds its ticket notified, or closes the generation because another round is in the way. |
| `TicketQueueCalls.NotifyIsAnswered` | src/futex2/mod.rs:115-128 | Undisturbed, a notifier has notified its tickets within two turns. |
| `TicketQueueCalls.ServeIsAnswered` | src/futex2/mod.rs:131-158 | Undisturbed, a notifier that comes to a ticket wakes whoever waits in the bucket, or marks the bucket, or closes the generation because another round is in the way. |
| `TicketQueueCalls.PollIsAnswered` | src/futex2/mod.rs:217-249 | Undisturbed, a waiter that is polled again waits on with its new waker, is done and frees its bucket, or turns to the closing of its generation. |
| `TicketQueueRoom.NoNeedlessClosing` | src/futex2/mod.rs:131-214 | In every run, as long as a generation has handed out no more tickets than it has buckets, nobody closes it or is about to. |
| `TicketQueueCode.Queue.Notify` | src/futex2/mod.rs:115-161 | Both loops of notify(add), with any interference, go on with a run of the machine by exactly one call; when it returns, on one of its turns the smaller of add and of the tickets taken and not notified has been notified. |
| `TicketQueueCode.Queue.Expand` | src/futex2/mod.rs:85-109 | The same for expand(); when it returns the whole generation is closed, a later one is current and everybody that waits there was told. |
| `TicketQueueCode.Queue.PollEnter` | src/futex2/mod.rs:165-216 | The same for the first poll of a wait, which is parked exactly when it reports pending, and only if the condition it was given holds. |
| `TicketQueueCode.Queue.PollWaiting` | src/futex2/mod.rs:217-251 | The same for a later poll, whose unreachable branch is shown not to be reached in place. |
| `Packing.PairRoundTrip` | src/mpsc.rs:213-222 | Packing into two half words is undone by unpacking if and only if both halves fit. |
| `Packing.PairOnto` | src/rwlock.rs:237-248 | Every machine word is the packing of what it unpacks to. |
| `Packing.MutexRoundTrip` | src/fast_mutex.rs:173-187 | Packing two flags and a count is undone by unpacking if and only if the count leaves two bits free. |
| `Packing.ChannelFits` | src/mpsc.rs:62-78 | With a capacity the constructor accepts, no word of any run is truncated. |
| `Packing.LockFits` | src/rwlock.rs:237-248 | With fewer tasks than a half word has values, no word of any run of the lock is truncated. |
| `Packing.MutexFits` | src/fast_mutex.rs:173-187 | The same for the barging mutex and its count. |

## Left out

- Memory orderings weaker than sequential consistency and the data races they allow: each atomic access is one step.
- Termination of compare-and-swap loops and fairness: progress is stated as what cannot be the case when no task is at work. In the `...Code.dfy` classes an operation that is not let to finish reports so.
- Work on the queues that is private to a task, because it holds the borrow or the exclusive guard, is part of the adjacent atomic step of the protocols; nobody else can look at the queues meanwhile. Releasing the exclusive guard after a cancellation is part of that step too.
- Cancelling a queued RwLock writer (src/rwlock.rs:135), a sleeping condition wait (src/condvar.rs:46), a wait of the barging mutex (src/fast_mutex.rs:70) and a parked ticket wait (src/futex2/mod.rs:273) have no code. In the models such a task cannot be cancelled or stops in `Unimplemented`.
- Waiting again with a waiter whose wait was cancelled: no client does it.
- src/futex2/mutex.rs, and any claim that a ticketed notification finds a live waiter: a wait whose condition fails leaves its bucket Waiting behind it, so the queue's theorems are about tickets and buckets.
- Wrap-around of the ticketed queue's half-word counters and its largest capacity (src/futex2/mod.rs:66).
- Allocation, teardown of channels, pointer and waker packing, `Debug`, and the unused `append` and `append_stack`.
- A waiter freed and allocated again at the same address: a snapshot names its top waiter by the task, which is what a pointer comparison sees.
- A condition variable used with two different mutexes, which the code answers with a panic (src/condvar.rs:37-39).
- Giving up a wait in the middle is code for the fair mutex and its condition variable (`FairMutexCode.Monitor.DropWait`) and, on one futex of the heap, in `WaitFuture.Drop`; the other `...Code.dfy` classes do not give up waiting, though in them other tasks may at any time.
- A generation's buckets and a futex's lists are sequences in the `...Code.dfy` classes; what the linked lists do is proved in `WaiterList.dfy` and `RawFutex.dfy`.
- WaitFutures.WaitFuture.PollWaiting: interference is given as a script of wakes and spurious failures, the only things others do to a waker slot.
