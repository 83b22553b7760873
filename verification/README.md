# Verified models of the PULPino software

This project models parts of the PULPino software tree in Dafny and proves properties of the models:

- the FreeRTOS 8.2.2 kernel as configured there: lists, scheduler, delays and timeouts, queues, mutexes
  with priority inheritance, event groups and software timers;
- four bit-level kernels: AES in CBC mode, the Keccak permutation, a table-driven CRC-32 and two bit
  reversals;
- the script that lays a program image out in flash together with the loader that reads it back.

Code that works in place is modelled by methods on classes and arrays. Each method is proved against a
function of the old state, and the promises are proved about these functions, over every run where they
are about runs. Tasks and interrupts are the steps of state machines, one step for each critical
section. Tick counts wrap at N = 2^16; `clock`, `epoch`, `due` and the times in the timer lists are
unbounded and exist only to say what the wrapped counts mean. `dfyconfig.toml` lists all files.

| file | models |
|---|---|
| Options.dfy | a value that may be missing |
| Rings.dfy, Lists.dfy | `list.c`: the value of a list with its roving index, and the linked heap structure |
| Scheduler.dfy, SchedulerRuns.dfy, SchedulerSteps.dfy, SchedulerWaits.dfy, Kernel.dfy | `tasks.c`: the lists over a tick, the steps and runs of the kernel, what each step means for the tasks, bounded waiting, and the code in place |
| Timeouts.dfy | `tasks.c`: measuring time with wrapped counts |
| QueueProtocol.dfy, QueueCalls.dfy, RingBuffer.dfy | `queue.c`: locking and waking, one call from its start to its return, and the byte ring |
| Mutexes.dfy | `queue.c` and `tasks.c`: mutexes and priority inheritance |
| Timers.dfy | `timers.c` |
| EventGroups.dfy, EventBits.dfy | `event_groups.c`: its code and runs, and what they mean bit by bit |
| Aes.dfy, AesKeys.dfy, Cbc.dfy, Fips197.dfy | `aes_cbc.c`: cipher, key expansion and chaining, and their agreement with the standard |
| Keccak.dfy, KeccakBits.dfy | `keccak.c`, on lanes and bit by bit |
| Crc32.dfy, BitReverse.dfy | the other bit-level kernels |
| Flash.dfy | `s19toslm.py` and `boot_code.c` |

## Where the code does less than it promises

For each of these one lemma shows a state or run in which it happens, and another says exactly when the
code does meet the promise.

- The ring distance of a list item can grow while it waits (`Rings.DistanceCanGrow`), when an insertion
  finds the index on it (`Rings.InsertEndDistance`); waiting is bounded all the same
  (`SchedulerWaits.ReadyTaskRuns`).
- The count of pended ticks is 8 bits wide and loses 256 ticks when it wraps
  (`SchedulerRuns.PendedTicksAreLost`, `SchedulerRuns.TicksConserved`).
- A task deleted twice leaves the idle task's clean-up without an end
  (`SchedulerRuns.SecondDeletionStallsCleanUp`, `SchedulerRuns.DeletedCountKept`).
- With 16-bit ticks the difference of two tick counts is promoted to `int`. A timeout check that comes
  after a wrap of the tick count then misses a timeout (`Timeouts.TimeOutMissed`,
  `Timeouts.TimeOutIsExact`), and a timer whose start command and expiry lie on either side of a wrap is
  called back a wrap late (`Timers.MisjudgedLosesCallback`, `Timers.PlacementIsExact`). Both are modelled
  for either width of the ticks.
- A timer whose reload command finds the command queue full is lost for good
  (`Timers.FullQueueLosesTimer`, `Timers.StepTracks`, `Timers.ActiveExactlyIf`).
- A queue's lock count is a signed char; the 128th post under one lock loses a wake-up
  (`QueueProtocol.WrappedCountLosesWakeUp`, `QueueProtocol.UnlockAnswersPosts`,
  `QueueProtocol.StepLoses`).
- Overwriting a full queue whose items have no size adds to its count (`RingBuffer.OverwriteAdds`,
  `RingBuffer.OverwriteReplaces`), which is 8 bits wide and may wrap to zero and lose a wake-up
  (`QueueProtocol.WrappedMessagesLoseWakeUp`, `QueueProtocol.OverwritesLose`, `QueueProtocol.StepLoses`).
- A lent priority can lapse without a context switch, after which a mutex may be held by a task below
  one that waits for it (`Mutexes.LapsedPriorityUncovers`, `Mutexes.CoveredExactlyIf`).
- Words of an image that is not dense may not come back (`Flash.SparseImages`, `Flash.WordIsLost`), and
  the loader writes past the end of a memory the image fills (`Flash.FullImageOverruns`,
  `Flash.StaysInside`).

## Model

| member | source | states |
|---|---|---|
| `Rings.InsertSorted` | `sw/apps/freertos/Source/list.c:145-209` | inserting before the first greater value keeps a list sorted and puts a value behind all equal ones |
| `Rings.RemoveUndoesInsertAt` | `sw/apps/freertos/Source/list.c:145-238` | removing an item just inserted by value gives back the list, its order and its roving index |
| `Rings.RemoveUndoesInsertEnd` | `sw/apps/freertos/Source/list.c:116-238` | the same for an item inserted at the end |
| `Rings.DistanceIsExact` | `sw/apps/freertos/Source/include/list.h:318-329` | left alone, an item at ring distance d from the index is the d-th to be selected |
| `Rings.InsertEndDistance` | `sw/apps/freertos/Source/list.c:116-142` | inserting at the end lengthens the distance of an item exactly if it is the one the index is on, then by one |
| `Rings.InsertEndIsLast` | `sw/apps/freertos/Source/list.c:116-142` | an item inserted at the end is itself selected after all others, with one selection more while the index is on the end marker |
| `Rings.RemoveDistance` | `sw/apps/freertos/Source/list.c:212-238` | removing another item shortens the distance by one exactly if that item was to come first, and leaves it otherwise |
| `Rings.DistanceCanGrow` | `sw/apps/freertos/Source/list.c:116-238` | a list of two in which an item leaving and coming back lengthens the distance of the other, so that distance alone does not bound the wait |
| `Rings.WaitStep` | `sw/apps/freertos/Source/list.c:116-238` | no insertion or removal of another item raises the bound on a wait, and each selection of another item lowers it |
| `Rings.BoundedWaiting` | `sw/apps/freertos/Source/tasks.c:297-319` | over any run of insertions, removals and selections on a list of at most m items, an item that stays is selected within the bound, which is at most 2m selections |
| `Rings.ChosenWithinDistance` | `sw/apps/freertos/Source/list.c:116-238` | over any run in which no insertion finds the index on the item, it is selected within its ring distance |
| `Lists.WrappedIsModulo` | `sw/apps/freertos/Source/list.c:134-142` | the 8-bit item count is the number of items modulo 256 |
| `Lists.List.constructor` | `sw/apps/freertos/Source/list.c:79-101` | an initialised list is a closed ring of its end marker alone, with the index on it |
| `Lists.List.IsEmpty` | `sw/apps/freertos/Source/include/list.h:282-292` | the emptiness test is right for every list below 256 items, and says what it does at and above that |
| `Lists.List.InsertEnd` | `sw/apps/freertos/Source/list.c:116-142` | the linked ring stays closed, next and previous stay inverse, count and containers exact, for members and for no other item, and the item comes just behind the index |
| `Lists.List.Search` | `sw/apps/freertos/Source/list.c:165-196` | the search for the place of a value ends, at the last item that is not greater |
| `Lists.List.Insert` | `sw/apps/freertos/Source/list.c:145-209` | insertion by value, the maximum value included, links the item before the first greater one and keeps the heap invariant |
| `Lists.List.Remove` | `sw/apps/freertos/Source/list.c:212-238` | an item that names the list as its container is unlinked, an index moved off it, its container cleared and the new count returned; no other item's container goes wrong |
| `Lists.List.NextEntry` | `sw/apps/freertos/Source/include/list.h:318-329` | the index moves on by one item and skips the end marker |
| `Lists.List.HeadEntry` | `sw/apps/freertos/Source/include/list.h:348-348` | the head entry is the first item of the ring |
| `Scheduler.WrapFindsEmptyList` | `sw/apps/freertos/Source/tasks.c:369-381` | when the tick count wraps, the delayed list that is switched away from is empty |
| `Scheduler.AdvanceKeeps` | `sw/apps/freertos/Source/tasks.c:1951-1981` | moving the tick on moves the unbounded clock on by one and keeps the invariant of the lists over the switch |
| `Scheduler.DueIsNow` | `sw/apps/freertos/Source/tasks.c:1983-2040` | comparing 16-bit item values with the tick count picks out exactly the tasks whose unbounded wake time has come |
| `Scheduler.PopDueWakes` | `sw/apps/freertos/Source/tasks.c:1988-2060` | the unblocking loop readies exactly the due tasks, each into the list of its priority, and leaves the next unblock time at the first that is left |
| `Scheduler.TickIsExact` | `sw/apps/freertos/Source/tasks.c:1940-2051` | a tick readies exactly the tasks whose wake time on the unbounded clock is this tick, and those that blocked for no time since the last one, over any number of wraps; no wake time is ever passed over |
| `Scheduler.PopSwitchesMeaning` | `sw/apps/freertos/Source/tasks.c:2062-2077` | the tick asks for a switch from its loop exactly if a task it readies is not below the running one |
| `Scheduler.AddDelayedKeeps` | `sw/apps/freertos/Source/tasks.c:3075-3102` | a task that blocks for less than a wrap goes on the list of the epoch it wakes in, in order, and the next unblock time stays early enough; a block of no time is excepted at the last tick before the wrap, where no caller asks for it |
| `Scheduler.LastTickStrands` | `sw/apps/freertos/Source/tasks.c:369-381` | why it is excepted: such a task would be on the wrong list after the wrap |
| `Scheduler.WakeKeeps` | `sw/apps/freertos/Source/tasks.c:2469-2534` | waking a task for an event keeps every other list and wake time |
| `SchedulerRuns.TickSwitchesMeaning` | `sw/apps/freertos/Source/tasks.c:2062-2105` | when a tick asks for a context switch, said without the lists that are looked at |
| `SchedulerRuns.ResumeIsExact` | `sw/apps/freertos/Source/tasks.c:1672-1762` | resuming the scheduler readies exactly the tasks held back and those the pended ticks reach, and leaves nothing held back or pended |
| `SchedulerRuns.SwitchPicksHighest` | `sw/apps/freertos/Source/tasks.c:297-319` | the context switch picks a ready task that no ready task is above, the next in the ring of its priority |
| `SchedulerRuns.StepKeepsInv` | `sw/apps/freertos/Source/tasks.c:1634-2559` | every step of tasks and interrupts keeps the whole invariant |
| `SchedulerRuns.ReachableInv` | `sw/apps/freertos/Source/tasks.c:652-3102` | so does every run from the first task on |
| `SchedulerRuns.EveryTickIsExact` | `sw/apps/freertos/Source/tasks.c:1940-2051` | in every reachable state a tick readies exactly the tasks due, and a blocked task is on the current list if it wakes in this epoch and on the overflow list if in the next |
| `SchedulerRuns.TasksConserved` | `sw/apps/freertos/Source/tasks.c:2469-2534` | each task is on exactly one ready, delayed or termination list, and there once, nothing else is on them, and the lengths add up to the number of tasks |
| `SchedulerRuns.DeletedCountKept` | `sw/apps/freertos/Source/tasks.c:745-820` | the length of the termination list stays the count of deleted tasks exactly if no deleted task is deleted again |
| `SchedulerRuns.SecondDeletionStallsCleanUp` | `sw/apps/freertos/Source/tasks.c:3034-3072` | a task deleted twice leaves the idle clean-up with a count that no round lowers |
| `SchedulerRuns.TicksConserved` | `sw/apps/freertos/Source/tasks.c:2081-2093` | clock plus pended ticks equal the tick interrupts received exactly while no interrupt found the 8-bit count of pended ticks at 255 |
| `SchedulerRuns.PendedTicksAreLost` | `sw/apps/freertos/Source/tasks.c:2081-2093` | a run in which 256 interrupts come while the scheduler is suspended, and none of their ticks is left to make up for |
| `SchedulerWaits.StepWaits` | `sw/apps/freertos/Source/tasks.c:652-3102` | no step of the kernel raises the bound on the wait of a task that stays ready, and each selection of another task from its list lowers it |
| `SchedulerWaits.ReadyTaskRuns` | `sw/apps/freertos/Source/tasks.c:297-319` | in every run of the kernel, a task that stays ready in a list of at most m tasks runs within the bound, at most 2m selections from that list |
| `SchedulerSteps.BlockMeans` | `sw/apps/freertos/Source/tasks.c:923-982` | a task that blocks for n ticks wants to wake at clock + n, waits for an event exactly if it asked to, and no other task changes |
| `SchedulerSteps.DelayIsExact` | `sw/apps/freertos/Source/tasks.c:923-982` | over every run in which no event and no deletion reaches it, a task that blocks for n ticks stays blocked while the clock is below the call time + n and is ready once it is not |
| `SchedulerSteps.EventMeans` | `sw/apps/freertos/Source/tasks.c:2469-2534` | a task woken by an event is ready at its own priority, or held back and still blocked while the scheduler is suspended; a switch is asked for exactly if it is above the running one; no other task changes |
| `SchedulerSteps.UnorderedMeans` | `sw/apps/freertos/Source/tasks.c:2537-2559` | the same for a task taken from the middle of an unordered list, always readied |
| `SchedulerSteps.TickMeans` | `sw/apps/freertos/Source/tasks.c:1940-2111` | a tick takes the clock on by one and readies exactly the blocked tasks due by then, each at its own priority; while the scheduler is suspended it is only counted, modulo 256 |
| `SchedulerSteps.SuspendMeans` | `sw/apps/freertos/Source/tasks.c:1634-1641` | suspending changes no task, and an inner suspension is undone by its resumption |
| `SchedulerSteps.ResumeMeans` | `sw/apps/freertos/Source/tasks.c:1672-1762` | an inner resumption only counts down; the outermost readies exactly the tasks held back and those the pended ticks reach, and a switch is asked for exactly if one was, or a task readied is not below the running one, or there were ticks and another task is ready at its priority |
| `SchedulerSteps.CreateMeans` | `sw/apps/freertos/Source/tasks.c:652-711` | a new task is ready at its priority, or the greatest there is if that is less, one task more is counted and no other task changes |
| `SchedulerSteps.DeleteMeans` | `sw/apps/freertos/Source/tasks.c:745-820` | a deleted task is neither ready nor blocked and waits for no event, and no other task changes |
| `SchedulerSteps.ReapMeans` | `sw/apps/freertos/Source/tasks.c:3034-3072` | the clean-up frees exactly one deleted task if there is one, and otherwise changes nothing |
| `SchedulerSteps.SetPriorityMeans` | `sw/apps/freertos/Source/tasks.c:3422-3562` | a ready task whose priority changes is ready at the new one, any other keeps its place, and no other task changes |
| `SchedulerSteps.SwitchMeans` | `sw/apps/freertos/Source/tasks.c:2204-2262` | a suspended scheduler does not switch but remembers to; otherwise a ready task runs that none is above, and no task changes |
| `SchedulerSteps.ResetMeans` | `sw/apps/freertos/Source/tasks.c:3351-3372` | the next unblock time becomes the least wake time of this epoch, or the greatest tick count if there is none |
| `Kernel.Kernel.constructor` | `sw/apps/freertos/Source/tasks.c:3002-3031` | the first task and empty lists form the initial state |
| `Kernel.Kernel.Create` | `sw/apps/freertos/Source/tasks.c:652-711` | creating a task counts it and puts it at the end of the ready list of its priority, cut to the greatest there is |
| `Kernel.Kernel.RemoveGeneric` | `sw/apps/freertos/Source/list.c:212-238` | a task's state item leaves the one list that holds it |
| `Kernel.Kernel.AddTaskToReadyList` | `sw/apps/freertos/Source/tasks.c:389-392` | a task joins the end of its ready list and the top ready priority follows |
| `Kernel.Kernel.ResetNextTaskUnblockTime` | `sw/apps/freertos/Source/tasks.c:3351-3372` | the next unblock time becomes the value of the head, or the greatest tick count |
| `Kernel.Kernel.AdvanceTick` | `sw/apps/freertos/Source/tasks.c:1951-1981` | the tick count wraps and the lists are switched in place |
| `Kernel.Kernel.UnblockDue` | `sw/apps/freertos/Source/tasks.c:1988-2060` | the loop over the delayed list ends and does what the specification of the tick says |
| `Kernel.Kernel.IncrementTick` | `sw/apps/freertos/Source/tasks.c:1940-2111` | the tick in place is the specified one, pended when the scheduler is suspended |
| `Kernel.Kernel.SuspendAll` | `sw/apps/freertos/Source/tasks.c:1634-1641` | suspensions are counted |
| `Kernel.Kernel.MovePendingReady` | `sw/apps/freertos/Source/tasks.c:1690-1712` | the loop over the pending ready list ends and readies every task on it |
| `Kernel.Kernel.ProcessPendedTicks` | `sw/apps/freertos/Source/tasks.c:1714-1732` | the loop over the pended ticks ends and makes up for each |
| `Kernel.Kernel.ResumeAll` | `sw/apps/freertos/Source/tasks.c:1672-1762` | resuming in place is the specified resumption |
| `Kernel.Kernel.SelectHighestPriorityTask` | `sw/apps/freertos/Source/tasks.c:297-319` | the loop down the priorities ends at the highest that is not empty, and the next of its ring runs |
| `Kernel.Kernel.SwitchContext` | `sw/apps/freertos/Source/tasks.c:2204-2262` | a switch is deferred while the scheduler is suspended and made otherwise |
| `Kernel.Kernel.AddCurrentTaskToDelayedList` | `sw/apps/freertos/Source/tasks.c:3075-3102` | the running task is put on the current or the overflow list by its wake time |
| `Kernel.Kernel.DelayCurrent` | `sw/apps/freertos/Source/tasks.c:923-982` | a delay in place is the specified move of the running task to a delayed list, whose wake time SchedulerSteps.BlockMeans gives |
| `Kernel.Kernel.BlockCurrent` | `sw/apps/freertos/Source/tasks.c:2265-2321` | blocking on an event does the same, perhaps for no time, and marks its event item as BlockMeans says |
| `Kernel.Kernel.RemoveFromEventList` | `sw/apps/freertos/Source/tasks.c:2469-2534` | the task is readied, or held back while the scheduler is suspended, and a higher one asks for a switch |
| `Kernel.Kernel.Delete` | `sw/apps/freertos/Source/tasks.c:745-820` | a deleted task leaves its lists for the termination list, and is counted |
| `Kernel.Kernel.CheckTasksWaitingTermination` | `sw/apps/freertos/Source/tasks.c:3034-3072` | the idle clean-up loop ends and frees every task that waits for it |
| `Timeouts.TimeOut.Set` | `sw/apps/freertos/Source/tasks.c:2582-2587` | the entry time is the present count of ticks and overflows |
| `Timeouts.TimeOut.Check` | `sw/apps/freertos/Source/tasks.c:2590-2636` | the answer and the time left are the ones the lemmas below speak of, and an unexpired entry time moves up to now |
| `Timeouts.MinusIsElapsed` | `sw/apps/freertos/Source/tasks.c:2621-2624` | the wrapped difference of two tick counts is the time between them modulo N |
| `Timeouts.TimeOutIsExact` | `sw/apps/freertos/Source/tasks.c:2612-2632` | the timeout is reported exactly when the wait is over, unless a whole wrap went by unseen or, with 16-bit ticks promoted to int, the difference is negative and the wait is over; in just these cases it is not |
| `Timeouts.TimeOutWithinOneWrap` | `sw/apps/freertos/Source/tasks.c:2612-2632` | the same for at most one overflow since the entry, where only the promoted difference can be wrong |
| `Timeouts.DeadlineStays` | `sw/apps/freertos/Source/tasks.c:2621-2626` | entry time plus time left stays the deadline, or is put off by a whole wrap if the timeout was missed |
| `Timeouts.TimeOutMissed` | `sw/apps/freertos/Source/tasks.c:2621-2626` | a wait of 100 ticks whose timeout is missed because of the promotion |
| `Timeouts.NothingLeft` | `sw/apps/freertos/Source/tasks.c:2621-2626` | a check leaves no time to wait only at the deadline, with a promoted difference, and then not at the last tick before a wrap |
| `Timeouts.RepeatedChecksKeepDeadline` | `sw/apps/freertos/Source/tasks.c:2590-2636` | however often it is checked, the first check at or past the deadline reports the timeout and none before |
| `Timeouts.DelayUntil` | `sw/apps/freertos/Source/tasks.c:836-898` | the decision of a periodic delay is one comparison of wrapped differences |
| `Timeouts.DelayUntilIsExact` | `sw/apps/freertos/Source/tasks.c:844-884` | the task is delayed exactly when its wake time is ahead, unless it comes a whole wrap late and looks early |
| `Timeouts.DelayUntilDoesNotDrift` | `sw/apps/freertos/Source/tasks.c:886-887` | after any number of calls the stored time is the start plus that many increments |
| `QueueProtocol.Queue.constructor` | `sw/apps/freertos/Source/queue.c:260-310` | a new queue is empty and unlocked |
| `QueueProtocol.Queue.TrySend` | `sw/apps/freertos/Source/queue.c:631-720` | the successful branch of a send: the count, and the waiting receiver it wakes |
| `QueueProtocol.Queue.TryReceive` | `sw/apps/freertos/Source/queue.c:1388-1470` | the successful branch of a receive or peek in place is the specified one, which StepCounts and WokenFromFront speak of |
| `QueueProtocol.Queue.SendFromISR` | `sw/apps/freertos/Source/queue.c:1055-1201` | a post from an interrupt wakes a receiver, or is counted while the queue is locked |
| `QueueProtocol.Queue.ReceiveFromISR` | `sw/apps/freertos/Source/queue.c:1552-1636` | a receive from an interrupt wakes a sender, or is counted while the queue is locked |
| `QueueProtocol.Queue.Lock` | `sw/apps/freertos/Source/queue.c:245-257` | locking starts a count that was not running |
| `QueueProtocol.Queue.UnlockTx` | `sw/apps/freertos/Source/queue.c:1884-1949` | the first half of unlocking wakes a receiver for each post counted, as long as there are any |
| `QueueProtocol.Queue.UnlockRx` | `sw/apps/freertos/Source/queue.c:1951-1989` | the second half does so for senders |
| `QueueProtocol.UnlockedTxIsGood` | `sw/apps/freertos/Source/queue.c:1884-1949` | unlocking trades every counted post for a woken receiver and keeps the accounts of wake-ups |
| `QueueProtocol.StepKeepsInv` | `sw/apps/freertos/Source/queue.c:610-807` | every critical section of a sender or receiver and every interrupt between two of them keeps the protocol's invariant |
| `QueueProtocol.NoWakeUpLost` | `sw/apps/freertos/Source/queue.c:1365-1549` | over every interleaving, a parked receiver means no more messages than woken receivers and counted posts, and a parked sender no more free places than woken senders and counted receives, as long as no lock count and no 8-bit number of messages wraps |
| `QueueProtocol.WaitersAreSpokenFor` | `sw/apps/freertos/Source/queue.c:1365-1549` | while nobody holds the lock, a task waits beside a message (or a free place) only if a woken one is ready to look at it |
| `QueueProtocol.AddedFits` | `sw/apps/freertos/Source/queue.c:1785-1856` | an item is added beyond the length exactly if one without a size overwrites a full queue |
| `QueueProtocol.MessagesFit` | `sw/apps/freertos/Source/queue.c:610-807` | over every run without that, whatever the lock counts do, the queue holds no more than its length |
| `QueueProtocol.StepCounts` | `sw/apps/freertos/Source/queue.c:610-1636` | a step adds one message exactly if it is a send, by a task or an interrupt, that finds room or overwrites and does not replace an item of some size, and takes one off exactly if it is a receive that is no peek and finds one; so locked or not |
| `QueueProtocol.MessagesConserved` | `sw/apps/freertos/Source/queue.c:610-1636` | over every run in which the 8-bit count does not wrap, the messages are those at first and those that came in, less those that went out |
| `QueueProtocol.WokenFromFront` | `sw/apps/freertos/Source/queue.c:1884-1989` | the tasks a step wakes are the first of their list, and it does nothing else to the lists |
| `QueueCalls.TryMeans` | `sw/apps/freertos/Source/queue.c:631-760` | a call that finds what it needs, or is not to wait, returns; any other goes on to suspend the scheduler |
| `QueueCalls.OthersStay` | `sw/apps/freertos/Source/queue.c:610-1636` | a task waiting in a call goes on from the top of its loop exactly when it is taken off the lists; no other task is moved by what one task or an interrupt does |
| `QueueCalls.TimeOutMeans` | `sw/apps/freertos/Source/tasks.c:1988-2060` | the tick that ends a wait takes the task off the lists and leaves the queue as it was |
| `QueueCalls.CallEnds` | `sw/apps/freertos/Source/queue.c:765-807` | whatever interrupts do while a call holds the queue locked, it ends exactly if its time is found to be up, and otherwise waits exactly if the queue is still full (or empty) when it looks and nobody wakes it before it lets go; in all other cases it tries again |
| `QueueProtocol.UnlockAnswersPosts` | `sw/apps/freertos/Source/queue.c:1093-1195` | whatever interrupts and the task that locked the queue do until it unlocks it, as many of the receivers that waited are woken as there were posts, or all, exactly if there were at most 127 posts, or so many that those after the 255th, which makes the count read as unlocked, have woken every receiver themselves |
| `QueueProtocol.UnlockAnswersTakes` | `sw/apps/freertos/Source/queue.c:1581-1617` | the mirror image for waiting senders and the items taken |
| `QueueProtocol.NeededIsAll` | `sw/apps/freertos/Source/queue.c:1093-1195` | how many posts that takes: one for each receiver, unless some of them found nobody waiting yet |
| `QueueProtocol.LockedAllowsOnlySections` | `sw/apps/freertos/Source/queue.c:245-257` | while a queue is locked nothing else than that can happen |
| `QueueProtocol.StepLoses` | `sw/apps/freertos/Source/queue.c:1055-1201` | a step after which a waiting task is not accounted for exactly if it wraps a lock count or the number of messages while a task waits that no woken one and no counted post or receive stands for |
| `QueueProtocol.OverwritesLose` | `sw/apps/freertos/Source/queue.c:1785-1856` | after any number of overwrites of an item without a size the senders are accounted for exactly if the number of messages has not just come round to none, or none waits, or a woken one or a counted receive is left |
| `QueueProtocol.WrappedCountLosesWakeUp` | `sw/apps/freertos/Source/queue.c:1130-1136` | a run in which 128 counted posts leave a receiver waiting beside a message |
| `QueueProtocol.WrappedMessagesLoseWakeUp` | `sw/apps/freertos/Source/queue.c:1785-1856` | a run in which overwriting takes the number of messages from 255 to none and leaves a sender waiting at an empty queue |
| `RingBuffer.UnrollBack` | `sw/apps/freertos/Source/queue.c:1809-1820` | writing the place after the last item appends it |
| `RingBuffer.UnrollFront` | `sw/apps/freertos/Source/queue.c:1821-1832` | writing the read place and stepping it back prepends the item |
| `RingBuffer.UnrollPop` | `sw/apps/freertos/Source/queue.c:1859-1874` | stepping the read place on takes off the first item |
| `RingBuffer.WrapIsModulo` | `sw/apps/freertos/Source/queue.c:268-273` | the place of the write offset, the read place plus one plus the count, is reduced modulo the length |
| `RingBuffer.WriteCell` | `sw/apps/freertos/Source/queue.c:1811-1811` | copying an item to its place leaves all other places as they were, for every item size |
| `RingBuffer.OverwriteReplaces` | `sw/apps/freertos/Source/queue.c:1834-1851` | overwriting a queue of one item leaves just the new item exactly if items have a size or the queue was empty |
| `RingBuffer.OverwriteAdds` | `sw/apps/freertos/Source/queue.c:1834-1851` | a full queue of one item without a size to which overwriting adds a second |
| `RingBuffer.FirstInFirstOut` | `sw/apps/freertos/Source/queue.c:1785-1874` | over every run of sends to the back and front, receives and peeks, an item waits for those ahead of it and those sent to the front meanwhile and for no other, and is then the next handed out |
| `RingBuffer.NothingLost` | `sw/apps/freertos/Source/queue.c:1785-1874` | over every run of sends to the back, to the front and over the item there, each item of a size that is accepted is handed out once, replaced or still in the queue, which never exceeds its length |
| `RingBuffer.Buffer.Perform` | `sw/apps/freertos/Source/queue.c:1785-1874` | any calls one after the other on the byte ring hand out and leave what the runs of the two rows above do |
| `RingBuffer.Buffer.constructor` | `sw/apps/freertos/Source/queue.c:260-310` | a new buffer stands for the empty sequence |
| `RingBuffer.Buffer.CopyDataToQueue` | `sw/apps/freertos/Source/queue.c:1785-1856` | copying in appends, prepends or overwrites in the sequence the buffer stands for |
| `RingBuffer.Buffer.CopyDataFromQueue` | `sw/apps/freertos/Source/queue.c:1859-1874` | copying out gives the first item and moves the read offset on, wrapping at the tail |
| `RingBuffer.Buffer.Send` | `sw/apps/freertos/Source/queue.c:635-640` | a send succeeds if there is room or it overwrites, and otherwise changes nothing |
| `RingBuffer.Buffer.Receive` | `sw/apps/freertos/Source/queue.c:1392-1442` | a receive takes the first item off, a peek leaves the sequence as it was |
| `Timers.PlacementIsExact` | `sw/apps/freertos/Source/timers.c:544-582` | a timer is processed now, or put on the list of this wrap or the next, exactly as the unbounded clock says, unless command and expiry lie on either side of a wrap and the difference is promoted to a negative int; then it is not |
| `Timers.MisjudgedComesAWrapLate` | `sw/apps/freertos/Source/timers.c:551-564` | a timer so misjudged has expired and is put on the list for the next wrap |
| `Timers.MisjudgedCanHappen` | `sw/apps/freertos/Source/timers.c:551-564` | a command 110 ticks old to which this happens |
| `Timers.MisjudgedLosesCallback` | `sw/apps/freertos/Source/timers.c:585-674` | a run in which the daemon takes such a command: the timer is due, is not called back and is listed for the next wrap; with 16-bit differences it is called back |
| `Timers.ExpireMakesProgress` | `sw/apps/freertos/Source/timers.c:739-757` | a timer put back while the lists are switched is strictly closer to the wrap, so the loop ends |
| `Timers.StepIsGood` | `sw/apps/freertos/Source/timers.c:521-708` | a step of the daemon keeps both lists in order, and the entries of a timer each in the list of their own wrap, exactly if it does not misjudge a start command of that timer; those of others it may |
| `Timers.StepTracks` | `sw/apps/freertos/Source/timers.c:378-415` | a step keeps an armed timer, with its callbacks so far and its next due time listed or on its way, exactly if it does not find the queue full for the command that starts it again; only an auto-reload timer can be lost so, and then nothing of it is left |
| `Timers.AutoReloadIsExact` | `sw/apps/freertos/Source/timers.c:378-767` | from any state in which it is armed, an auto-reload timer none of whose own start commands is misjudged or dropped by a full queue is called back for start + period, start + 2 period and so on, each once, in order and not early, however late the daemon runs within a wrap and whatever happens to other timers; when the daemon is idle as many callbacks were made as periods have passed |
| `Timers.ActiveExactlyIf` | `sw/apps/freertos/Source/timers.c:378-767` | at the end of any such run nothing is left of an auto-reload timer exactly if a step dropped the command to start it again |
| `Timers.OneShotIsExact` | `sw/apps/freertos/Source/timers.c:378-767` | over every such run a timer that does not reload is called back at most once, for start + period and not before, after which nothing is left of it; once the daemon is idle it has been called back exactly if that time has come |
| `Timers.StopMeans` | `sw/apps/freertos/Source/timers.c:676-680` | a stop leaves its timer on no list and with no command, without a callback, and every other timer as sampling the time leaves it |
| `Timers.ChangePeriodMeans` | `sw/apps/freertos/Source/timers.c:682-694` | a change of period lists the timer once, for the present time plus the new period, and arms it from now |
| `Timers.StartMeans` | `sw/apps/freertos/Source/timers.c:646-674` | a start command for a listed timer is the same as for one that is on no list, and arms it from the time of the command |
| `Timers.GoneStays` | `sw/apps/freertos/Source/timers.c:378-767` | a timer lost that way stays lost, and is not called back again |
| `Timers.FullQueueLosesTimer` | `sw/apps/freertos/Source/timers.c:397-404` | a step in which the command to reload a timer finds the queue full, and the timer is gone from both lists and the queue |
| `Timers.FirstCommand` | `sw/apps/freertos/Source/timers.c:316-354` | a first start command gives a state the theorem starts from |
| `Timers.TimerTask.GenericCommand` | `sw/apps/freertos/Source/timers.c:316-354` | a command is put at the end of the queue if there is room, and otherwise refused |
| `Timers.TimerTask.InsertTimerInActiveList` | `sw/apps/freertos/Source/timers.c:544-582` | the placement on 16-bit times is the one the lemmas speak of |
| `Timers.TimerTask.SwitchTimerLists` | `sw/apps/freertos/Source/timers.c:711-767` | the switch expires all that is left, ends, and exchanges the lists |
| `Timers.TimerTask.SampleTimeNow` | `sw/apps/freertos/Source/timers.c:521-541` | the lists are switched exactly if the tick count is below the last sample |
| `Timers.TimerTask.ProcessExpiredTimer` | `sw/apps/freertos/Source/timers.c:378-415` | the head of the list is called back, and reloaded from its own expiry time |
| `Timers.TimerTask.ProcessTimerOrBlock` | `sw/apps/freertos/Source/timers.c:442-518` | the daemon processes the head if it is due and the lists were not switched meanwhile |
| `Timers.TimerTask.ProcessReceivedCommand` | `sw/apps/freertos/Source/timers.c:585-708` | a command in place is the specified one: it takes its timer off the lists, samples the time and is carried out as StopMeans, ChangePeriodMeans and StartMeans say |
| `Mutexes.TaskTable.PriorityInherit` | `sw/apps/freertos/Source/tasks.c:3422-3481` | a holder below the caller gets the caller's priority, in its event item too unless that is in use, and a ready holder moves to the list of it |
| `Mutexes.TaskTable.PriorityDisinherit` | `sw/apps/freertos/Source/tasks.c:3488-3562` | a holder counts one mutex less and, with the last, goes back to its base priority and asks for a switch |
| `Mutexes.TaskTable.GenericSend` | `sw/apps/freertos/Source/queue.c:640-720` | giving a mutex: disinheriting, the task woken, and when a switch is asked for |
| `Mutexes.TaskTable.GenericReceive` | `sw/apps/freertos/Source/queue.c:1390-1418` | taking a free mutex names and counts its holder |
| `Mutexes.TaskTable.WaitToReceive` | `sw/apps/freertos/Source/queue.c:1500-1533` | a caller who finds it taken lends its priority and joins the event list behind all that are not below it |
| `Mutexes.WaitMeans` | `sw/apps/freertos/Source/tasks.c:3422-3481` | a caller who waits gives the holder the greater of both priorities, moves a ready holder to the list of it, and joins the waiting tasks behind all that are not below it; nothing else changes |
| `Mutexes.ReturnMeans` | `sw/apps/freertos/Source/tasks.c:3488-3562` | giving a mutex back takes one off the count, restores the base priority exactly with the last one held, and readies the first waiting task to try again; nothing else changes |
| `Mutexes.ReturnAsks` | `sw/apps/freertos/Source/queue.c:640-720` | a switch is asked for exactly if nobody waited and a lent priority was given back, or the task woken is above what the giver is left with |
| `Mutexes.TimeOutMeans` | `sw/apps/freertos/Source/tasks.c:1988-2060` | a waiter that times out is ready at its priority and off the list, and the holder keeps what it was lent |
| `Mutexes.ItemsMean` | `sw/apps/freertos/Source/tasks.c:3422-3562` | the event item of a task changes exactly when it is lent a priority and the item is not in use for something else, when it goes back to its own priority, and when it wakes |
| `Mutexes.NothingIsMadeUp` | `sw/apps/freertos/Source/tasks.c:3422-3562` | after every run each priority is the base priority of some task |
| `Mutexes.StepKeepsInv` | `sw/apps/freertos/Source/tasks.c:3422-3562` | every step keeps the counts, the priorities, the ready lists and the order of every event list |
| `Mutexes.PriorityInheritance` | `sw/apps/freertos/Source/tasks.c:3422-3562` | after every run a task's count is the number of mutexes that name it, its priority is at least its base and equal to it without a mutex, a ready task is in the list of its priority, and a holder is not below any task that began to wait while it held the mutex, as that task was then |
| `Mutexes.TakeCovers` | `sw/apps/freertos/Source/queue.c:1390-1418` | a taker covers all that still wait exactly if none had a higher priority when it began to; a highest ready task covers them |
| `Mutexes.StepKeepsCovered` | `sw/apps/freertos/Source/tasks.c:3422-3562` | if every holder covers all that wait, it does so after a step exactly if the step is not such a taking |
| `Mutexes.CoveredExactlyIf` | `sw/apps/freertos/Source/tasks.c:3422-3562` | over every run, each holder covers every waiting task throughout exactly if nobody takes a mutex below a task that waits for it |
| `Mutexes.EveryWaiterIsCovered` | `sw/apps/freertos/Source/tasks.c:3488-3562` | as long as no lent priority lapses without a switch, a holder covers every waiting task, and the running task is one of the highest |
| `Mutexes.LapsedPriorityUncovers` | `sw/apps/freertos/Source/queue.c:690-716` | a run in which a priority does lapse, a waiter on the list keeping the switch from being asked for, and a holder ends below a waiting task |
| `EventGroups.PackedReadsBack` | `sw/apps/freertos/Source/event_groups.c:96-112` | what a blocked task packs into its item value, bits and both options, is read back by the setter, and does not look like a release |
| `EventGroups.AnswerReadsBack` | `sw/apps/freertos/Source/event_groups.c:545-551` | what a released task finds there is the bits, marked as a release |
| `EventGroups.StepKeepsInv` | `sw/apps/freertos/Source/event_groups.c:158-571` | every call, timeout and return keeps the invariant of the group |
| `EventGroups.NoWaiterIsMet` | `sw/apps/freertos/Source/event_groups.c:480-571` | in every reachable state no task waits for a condition the bits meet |
| `EventGroups.SetReleasesExactly` | `sw/apps/freertos/Source/event_groups.c:505-560` | setting bits releases exactly the tasks whose condition they meet, each of which will return the bits before any were cleared |
| `EventGroups.SetClearsExactly` | `sw/apps/freertos/Source/event_groups.c:534-566` | what is cleared meets a mask exactly if what some released task wants cleared does; SetBitsBit says what that leaves |
| `EventGroups.LastArrivalReleasesAll` | `sw/apps/freertos/Source/event_groups.c:158-271` | the last task to reach a rendezvous returns at once, releases every task that waits on the same bits, and leaves none of them set |
| `EventGroups.FinishIsExact` | `sw/apps/freertos/Source/event_groups.c:365-410` | a blocked call returns the bits of its release, which met its condition, or after a timeout the present bits, which it then takes if they do |
| `EventBits.SetBitsBit` | `sw/apps/freertos/Source/event_groups.c:480-568` | after setting bits, a bit is set exactly if it was or is being set, and no task whose condition all these bits meet waited for it and clears what it waits for |
| `EventBits.SetBitsReleases` | `sw/apps/freertos/Source/event_groups.c:505-560` | exactly the tasks whose condition the bits meet leave the list, and each will return just the bits that were or are being set |
| `EventBits.SetBitsKeepsOrder` | `sw/apps/freertos/Source/event_groups.c:497-560` | those that stay keep their order |
| `EventBits.ClearBitsBit` | `sw/apps/freertos/Source/event_groups.c:422-446` | clearing takes away the bits named and no other, and changes nothing else |
| `EventBits.WaitBitsMeans` | `sw/apps/freertos/Source/event_groups.c:274-352` | a wait whose bits are there returns all that are set and takes away those it waits for, if it is to, and no other; one whose bits are not there takes nothing and joins the end of the list or returns |
| `EventBits.SyncMeans` | `sw/apps/freertos/Source/event_groups.c:158-215` | a rendezvous sets its bits as setting them does; if all it waits for are there it returns all that were and leaves none of those it waits for, and otherwise it joins the end of the list or returns |
| `EventBits.FinishMeans` | `sw/apps/freertos/Source/event_groups.c:222-260` | a call that was released takes nothing more; one that timed out takes the bits it waits for exactly if they have come and it is to clear them |
| `EventGroups.EventGroup.SetBits` | `sw/apps/freertos/Source/event_groups.c:480-568` | the one pass over a list that shrinks under it looks at every task once, up to where the scheduler is resumed |
| `EventGroups.EventGroup.ClearBits` | `sw/apps/freertos/Source/event_groups.c:422-446` | clearing in place is the specified one, and the former bits are returned |
| `EventGroups.EventGroup.WaitBits` | `sw/apps/freertos/Source/event_groups.c:274-352` | a wait takes the bits at once, fails or blocks |
| `EventGroups.EventGroup.Sync` | `sw/apps/freertos/Source/event_groups.c:158-215` | a rendezvous sets its bits first, then returns, fails or blocks |
| `EventGroups.EventGroup.Finish` | `sw/apps/freertos/Source/event_groups.c:222-260` | the end of a blocked call |
| `EventGroups.EventGroup.Place` | `sw/apps/freertos/Source/tasks.c:2324-2344` | a task that blocks is put at the end of the list, its item value in use |
| `EventGroups.EventGroup.RemoveFromUnorderedEventList` | `sw/apps/freertos/Source/tasks.c:2537-2559` | a released task leaves the list from the middle with its answer |
| `Aes.SboxInverts` | `sw/apps/bench/aes_cbc/aes_cbc.c:104-178` | the second table inverts the first for every byte |
| `Aes.MixIsLinear` | `sw/apps/bench/aes_cbc/aes_cbc.c:404-416` | mixing a column is linear |
| `Aes.InvMixIsLinear` | `sw/apps/bench/aes_cbc/aes_cbc.c:452-478` | so is unmixing |
| `Aes.Unmix` | `sw/apps/bench/aes_cbc/aes_cbc.c:404-478` | unmixing undoes mixing, for every column |
| `Aes.BytesMul2` | `sw/apps/bench/aes_cbc/aes_cbc.c:73-89` | the packed doubling doubles each of the four bytes |
| `Aes.InvMixWordIsInvMix` | `sw/apps/bench/aes_cbc/aes_cbc.c:91-101` | the packed inverse on a word is the inverse on its four bytes |
| `Aes.ConvertedKey` | `sw/apps/bench/aes_cbc/aes_cbc.c:280-294` | the converted schedule has the inner round keys unmixed and the outer two as they were |
| `Aes.SubShiftInverts` | `sw/apps/bench/aes_cbc/aes_cbc.c:395-450` | substituting and shifting back undoes substituting and shifting |
| `Aes.DecryptedSoFar` | `sw/apps/bench/aes_cbc/aes_cbc.c:431-482` | after n rounds of decryption the state is the one encryption had before its last n rounds were mixed and keyed |
| `Aes.DecryptUndoesEncrypt` | `sw/apps/bench/aes_cbc/aes_cbc.c:280-482` | decryption with the converted schedule gives back every block, for every schedule and number of rounds |
| `Fips197.SboxIsAffineInverse` | `sw/apps/bench/aes_cbc/aes_cbc.c:106-140` | for every byte the table holds the affine map of section 5.1.1 of FIPS 197 of its inverse in the field of 0x11B |
| `Fips197.InverseIsUnique` | `sw/apps/bench/aes_cbc/aes_cbc.c:106-140` | a byte has only one inverse in that field |
| `Fips197.SubShiftIs` | `sw/apps/bench/aes_cbc/aes_cbc.c:395-402` | substituting and shifting move row r of the block r columns to the left and replace every byte by the affine map of its inverse |
| `Fips197.MixIsMatrix` | `sw/apps/bench/aes_cbc/aes_cbc.c:404-416` | mixing a column is multiplying it by the matrix of 2, 3, 1 and 1 in that field |
| `Fips197.EncryptIsCipher` | `sw/apps/bench/aes_cbc/aes_cbc.c:381-426` | encryption is the cipher of section 5.1 of FIPS 197 on the bytes of the block: the first round only adds a key and the last does not mix, for every schedule and number of rounds |
| `AesKeys.RconIsPower` | `sw/apps/bench/aes_cbc/aes_cbc.c:181-187` | the listed round constants are the powers of two in the field |
| `AesKeys.NextWord` | `sw/apps/bench/aes_cbc/aes_cbc.c:247-270` | each further word of the schedule is that of section 5.2 of FIPS 197 |
| `AesKeys.SetKey` | `sw/apps/bench/aes_cbc/aes_cbc.c:203-275` | a key of either length is expanded in place to the schedule of section 5.2, and an unknown mode changes nothing |
| `Aes.EncryptRow` | `sw/apps/bench/aes_cbc/aes_cbc.c:397-420` | one word of an encryption round is the column of the specification |
| `Aes.DecryptRow` | `sw/apps/bench/aes_cbc/aes_cbc.c:447-478` | one word of a decryption round likewise |
| `Aes.Context.ConvertKey` | `sw/apps/bench/aes_cbc/aes_cbc.c:280-294` | the key schedule is converted in place |
| `Aes.Context.AddRoundKey` | `sw/apps/bench/aes_cbc/aes_cbc.c:422-425` | a round key is added word by word |
| `Aes.Context.Encrypt` | `sw/apps/bench/aes_cbc/aes_cbc.c:381-426` | encryption in place is the specified one, which Fips197.EncryptIsCipher shows to be the cipher of the standard |
| `Aes.Context.Decrypt` | `sw/apps/bench/aes_cbc/aes_cbc.c:431-482` | decryption in place, with its keys from the last to the first, is the specified one |
| `Cbc.BlocksComeBack` | `sw/apps/bench/aes_cbc/aes_cbc.c:299-376` | chained decryption undoes chained encryption on every sequence of blocks |
| `Cbc.EncryptBlocksInTwo` | `sw/apps/bench/aes_cbc/aes_cbc.c:299-333` | chaining over two sequences is chaining over both at once |
| `Cbc.MessageComesBack` | `sw/apps/bench/aes_cbc/aes_cbc.c:299-376` | decrypting an encrypted message gives back its whole blocks, whatever its length |
| `Cbc.MessageInTwo` | `sw/apps/bench/aes_cbc/aes_cbc.c:299-333` | a message encrypted in two calls is the one encrypted at once, and leaves the same initialisation vector |
| `Fips197.BlockIsChained` | `sw/apps/bench/aes_cbc/aes_cbc.c:299-333` | each block of ciphertext is the cipher of its block of plaintext added to the block of ciphertext before, or to the initialisation vector |
| `Fips197.MessageIsChained` | `sw/apps/bench/aes_cbc/aes_cbc.c:299-333` | the same for the bytes of a message of any length, with the cipher of the standard |
| `Cbc.CbcEncrypt` | `sw/apps/bench/aes_cbc/aes_cbc.c:299-333` | the loop over the message writes the specified ciphertext and nothing else, also in place, and stores the next initialisation vector |
| `Cbc.CbcDecrypt` | `sw/apps/bench/aes_cbc/aes_cbc.c:338-376` | the same for decryption |
| `Keccak.Mod5` | `sw/apps/bench/keccak/keccak.c:50-63` | both loops end and the result is the remainder by five of every non-negative number; others come back as they are |
| `Keccak.RndcIsRoundConstant` | `sw/apps/bench/keccak/keccak.c:27-37` | the listed round constants are those of the shift register of the standard |
| `Keccak.StepIsNext` | `sw/apps/bench/keccak/keccak.c:45-49` | each step of the walk goes from one lane rho visits to the next, and against pi |
| `Keccak.OffsetIsRotc` | `sw/apps/bench/keccak/keccak.c:39-43` | the listed rotation of each step is the offset of the lane it reads |
| `Keccak.WalkIsRhoPi` | `sw/apps/bench/keccak/keccak.c:83-90` | the walk with one temporary is rho followed by pi |
| `Keccak.ThetaInPlace` | `sw/apps/bench/keccak/keccak.c:73-81` | theta in place is the simultaneous mapping |
| `Keccak.WalkInPlace` | `sw/apps/bench/keccak/keccak.c:83-90` | rho and pi in place are the simultaneous mappings |
| `Keccak.ChiInPlace` | `sw/apps/bench/keccak/keccak.c:92-98` | chi in place is the simultaneous mapping |
| `Keccak.KeccakF` | `sw/apps/bench/keccak/keccak.c:66-102` | a call is the composition of the five step mappings, for every state and up to 24 rounds |
| `KeccakBits.ThetaBit` | `sw/apps/bench/keccak/keccak.c:73-81` | theta, bit by bit, as in section 3.2.1 of FIPS 202: a bit is added to the parities of two columns |
| `KeccakBits.RhoBit` | `sw/apps/bench/keccak/keccak.c:83-90` | rho: every bit of a lane is moved up by the offset of the lane |
| `KeccakBits.PiBit` | `sw/apps/bench/keccak/keccak.c:83-90` | pi: where each bit comes from |
| `KeccakBits.ChiBit` | `sw/apps/bench/keccak/keccak.c:92-98` | chi: a bit is changed exactly if the next in its row is not set and the one after is |
| `KeccakBits.IotaBit` | `sw/apps/bench/keccak/keccak.c:100-101` | iota: the bits of the listed constant are added to lane (0, 0) and no other changes |
| `Crc32.Steps8IsLinear` | `sw/apps/bench/crc32.c:81-90` | the eight-step update is linear |
| `Crc32.TableIsSteps` | `sw/apps/bench/crc32.c:13-78` | every entry of the table is the eight-step update of its index |
| `Crc32.TableUpdateFeeds` | `sw/apps/bench/crc32.c:85-85` | the update by table is feeding the eight bits of a byte, one by one |
| `Crc32.Crc32` | `sw/apps/bench/crc32.c:81-90` | the result is the remainder of the whole message, bit by bit |
| `Crc32.OwnCrcGivesZero` | `sw/apps/bench/crc32.c:81-90` | a message followed by its own value has the value zero |
| `Crc32.OneByteErrorShows` | `sw/apps/bench/crc32.c:81-90` | two messages that differ in one byte have different values |
| `Crc32.CheckValue` | `sw/apps/bench/crc32.c:81-90` | the nine digits have the catalogued check value of this polynomial, start value and final value |
| `BitReverse.RevTwice` | `sw/apps/ml_tests/mlDct/mlDct.c:81-109` | reversing an index twice gives it back |
| `BitReverse.RevBits` | `sw/apps/ml_tests/mlDct/mlDct.c:81-109` | bit i of a reversed index is bit k - 1 - i of the index |
| `BitReverse.ReorderedTwice` | `sw/apps/ml_tests/mlDct/mlDct.c:81-109` | so does reordering twice |
| `BitReverse.IncIsRevOfNext` | `sw/apps/ml_tests/mlDct/mlDct.c:101-106` | counting up from the top leads from the reversal of an index to that of the next |
| `BitReverse.NextReversed` | `sw/apps/ml_tests/mlDct/mlDct.c:101-106` | the inner loop ends and counts up from the top |
| `BitReverse.BitReverseData` | `sw/apps/ml_tests/mlDct/mlDct.c:81-109` | the strided range is permuted by the reversal for every power of two, and nothing else changes |
| `BitReverse.NextPaired` | `sw/apps/bench/fft/fft.c:116-121` | the loop with indices from one ends and counts the same way |
| `BitReverse.ReorderPairs` | `sw/apps/bench/fft/fft.c:106-122` | the pairs are permuted by the same reversal |
| `Flash.BytesToWords` | `sw/utils/s19toslm.py:77-101` | the words are those of the bytes, in whatever order the dictionary gives them |
| `Flash.WordsAreUnique` | `sw/utils/s19toslm.py:77-101` | a dictionary of bytes has one dictionary of words |
| `Flash.CountSizes` | `sw/utils/s19toslm.py:165-190` | the sizes are the numbers of words of either memory |
| `Flash.DumpBytes` | `sw/utils/s19toslm.py:48-50` | a word is written as its four bytes |
| `Flash.Pack` | `sw/utils/s19toslm.py:190-237` | the flash holds the header, the data and the instructions at their places, and nothing else |
| `Flash.RegionsApart` | `sw/utils/s19toslm.py:195-237` | header, data and instructions of a dense image do not overlap |
| `Flash.HeaderReadsBack` | `sw/apps/boot_code/boot_code.c:71-85` | the loader reads from the header what the script wrote |
| `Flash.HeaderLayout` | `sw/utils/s19toslm.py:197-221` | the eight header numbers, most significant byte first, in terms of the numbers of words of the image |
| `Flash.LoadedL2` | `sw/apps/boot_code/boot_code.c:92-110` | a word of the instruction memory comes from its place in the flash if a block reaches it, and stays as it was otherwise |
| `Flash.LoadedTcdm` | `sw/apps/boot_code/boot_code.c:118-136` | a word of the data memory likewise |
| `Flash.Loader.ReadFifo` | `sw/libs/sys_lib/src/spi.c:81-93` | a read over SPI fills as many words as asked for |
| `Flash.Loader.CopyBlocks` | `sw/apps/boot_code/boot_code.c:92-110` | the copying loop writes whole blocks one after the other |
| `Flash.Loader.Load` | `sw/apps/boot_code/boot_code.c:71-136` | the loader copies the instructions, then the data, and nothing else |
| `Flash.WordComesBack` | `sw/utils/s19toslm.py:165-237` | a word comes back, whatever the image holds, if a block reaches it and no data word is written over it |
| `Flash.WordIsLost` | `sw/utils/s19toslm.py:165-237` | and only then: otherwise there is an image with the same addresses that does not bring it back |
| `Flash.SparseImages` | `sw/utils/s19toslm.py:165-237` | three images of one or two words to which this happens, one for each cause |
| `Flash.DenseImageComesBack` | `sw/utils/s19toslm.py:165-237` | every word of an image that is dense from the start of each memory comes back at its own address |
| `Flash.ImageBytesComeBack` | `sw/utils/s19toslm.py:77-237` | every byte of such an image comes back at its own address of the little-endian memory |
| `Flash.StaysInside` | `sw/apps/boot_code/boot_code.c:92-136` | the loader stays inside a memory exactly if the image does not fill it |
| `Flash.FullImageOverruns` | `sw/apps/boot_code/boot_code.c:92-136` | an image that fills the instruction memory is loaded a block beyond it |

## Left out

- The port layer, stack set-up, heap, MPU wrappers, hooks, run-time statistics, trace macros and text output: hardware or foreign code; a yield is a context switch that may come.
- Task suspension, `vTaskPrioritySet`, task notifications, co-routines, tickless idle, queue sets, the queue registry and the alternative queue functions: not configured here, or easy copies of what is modelled.
- Starting the scheduler and creating tasks before it runs: the runs begin with the idle task running.
- The numbers of tasks and of items in the kernel's lists are not cut to 8 bits in Scheduler, Kernel and Timers; the wrap of the item count is modelled in Lists, those of the pended ticks and of the lock counts where they matter. The overflow count is modelled modulo 256, since only its equality is used.
- Scheduler leaves the order inside event lists to QueueProtocol and Mutexes, and a change of priority is one step of it whatever asks for it.
- AddDelayedKeeps: a block of no time at the last tick before a wrap is excepted, as the steps of SchedulerRuns are; a timeout check leaves no time only after a wrap, and the timer daemon asks for none only at tick zero.
- NoWakeUpLost: for runs in which no lock count passes 127 and no number of messages passes 255; resetting a queue in use and deleting a task that waits on it are not modelled.
- AutoReloadIsExact: each sample of the daemon comes less than a wrap after the last, and the timer's own start commands are taken less than a wrap after they were sent; waiting for room in the command queue and pended function calls are not modelled.
- EveryWaiterIsCovered: mutexes are given back by their holder; recursive mutexes and a holder deleted or timed out of its tenure are not modelled, and this version never lowers a holder's priority when a waiting task times out.
- FirstInFirstOut: an item that is overwritten is not handed out, so runs that overwrite are left to NothingLost; that one is for items with a size, since items without one are only counted.
- SetBits: what the call returns is read after the scheduler is resumed and depends on what other tasks have done by then, so nothing is said of it.
- The Keccak sponge around the permutation: every state is covered by the theorems about the permutation. Copying the initialisation vector in `AES_set_key` is left out. Words of AES are taken most significant byte first, as the macros for a little-endian host make them.
- The butterflies of `fft` and all fixed- and floating-point arithmetic around the reorderings.
- Parsing of S19 lines, the simulation files other than the flash image, and all device set-up of the loader; blank flash reads as one arbitrary byte.
