# The FreeRTOS kernel of the modem firmware, in Dafny

The firmware runs on FreeRTOS V10.0.1: a preemptive scheduler with a wrapping 32-bit tick counter,
queues shared between tasks and interrupts, mutexes with priority inheritance, software timers, event
groups and stream buffers, all on one circular doubly linked list. One piece of the application, the
matcher that looks for strings in modem replies that arrive in 64-byte segments, is modelled as well.

Counters and tick values keep their 32-bit wrap-around. Unbounded time, and histories such as the bytes
sent or the callbacks made, are ghost state or ghost parameters, and the theorems say how the wrapped
values relate to them. Where several parties run at once (tasks and interrupts on a queue, the tasks that
share mutexes, the writer and the reader of a stream buffer, the tasks that wait on an event group) the
code is a state machine whose steps are its critical sections and, for stream buffers, its single copies
and index updates; the theorems hold in every state of every run. The code that updates objects step by
step is written as classes whose methods are proved against those step functions or against the ghost
history.

## How the files fit together

| files | part |
|---|---|
| `TickTime`, `ListRing`, `ListHeap`, `RoundRobin`, `Memory` | wrapped time; the list as a value and on the heap; fairness on one list; copying between buffers |
| `KernelState` to `KernelTheorems` | tasks.c: lists, ticks, blocking, scheduling; the invariant over every run |
| `KernelFrames`, `KernelWaking`, `KernelIdle`, `KernelEffects` | what a call leaves alone; when a waiting task wakes; the idle task; what a call does for its task |
| `KernelPending`, `KernelTurns` | wake-ups made while the scheduler is suspended; round robin over every run of the kernel |
| `TaskKernel`, `Deadlines` | the class `Tasks`; time-outs and periodic delays |
| `QueueStorage`, `QueueProtocol`, `QueueSafety`, `QueueEvents` | queue.c: the ring of items; blocking, waking and lock counts |
| `MutexProtocol`, `MutexLedger`, `MutexPriorities`, `MutexBound`, `MutexRuns`, `MutexTasks` | mutexes with priority inheritance and where its promises end; recursive mutexes |
| `TimerLists`, `TimerDaemon` | timers.c |
| `StreamProtocol`, `StreamSafety`, `MessageSafety`, `MessageRace`, `StreamCalls`, `StreamBuffer` | stream_buffer.c |
| `EventGroups`, `EventSafety`, `SyncBarrier`, `EventGroupCalls` | event_groups.c |
| `ReplySearch`, `Ec20` | User/app_ec20.c |

The configuration is that of `FreeRTOS/include/FreeRTOSConfig.h` (preemption, 7 priorities, 32-bit ticks,
mutexes, task suspension and deletion), with `configUSE_TIMERS` and `INCLUDE_vTaskDelayUntil`, which this
firmware turns off, taken as on, and with the generic task selection of `FreeRTOS/tasks.c:132-165`.

## Findings

- A time-out check is wrong exactly when the counter has gone round at least once since the last check, the
  check does not see it and the remainder is short (`Deadlines.TimeOutExactly`, `Deadlines.TimeOutMissed`).
- Round robin: `vListInsertEnd` is described as making a new item the last to be chosen, but when pxIndex has
  fallen back on a waiting task a new item goes in front of it, so a task k places away may miss k selections
  (`RoundRobin.OvertakenWhileWaiting`). A task's place is at all times what it was, plus the arrivals made
  while pxIndex was at it, less the selections and the departures of tasks before it
  (`RoundRobin.PlaceAccount`), and it is chosen exactly once these have made up for it
  (`RoundRobin.ChosenExactly`; in runs of the kernel `KernelTurns.TurnsInEveryRun`).
- Priority inheritance does not keep every holder at least at the priority of the tasks waiting for its mutex.
  Runs of highest-priority tasks break that bound in two ways: a task blocks on a holder that itself waits
  behind a lower task, which is not raised (`MutexRuns.NestedBlockingReached`), and a waiter times out and
  lowers the holder to the head of a list that was not sorted again when a task further back was raised
  (`MutexRuns.UndoBreaksBound`). In every run the bound holds up to a state exactly when each step so far
  fits (`MutexBound.BoundExactly`, step by step `MutexBound.StepFits`): a task that takes a free mutex is not
  below a task still waiting for it; one that blocks does not raise a holder above a task that holder waits
  behind; and a holder whose priority is set, or whose inheritance is undone while it holds one mutex, gets one
  that is not below a task waiting for a mutex it holds, nor above the holder it waits behind. Runs of
  highest-priority tasks that block holding no mutex and set no priority keep the bound
  (`MutexPriorities.HolderNotBelowWaiters`).
- The assertion of `FreeRTOS/queue.c:1473` fails in a run of highest-priority tasks
  (`MutexRuns.TakeAssertReached`): exactly when a wait has timed out with no block time left, the task has then
  seen the mutex free, and the mutex has been taken since (`MutexRuns.TakeAssertExactly`). So it holds for a
  task whose waits never use up their block time (`MutexRuns.TakeAssertWithoutTimeOuts`).
- The assertion of `FreeRTOS/tasks.c:4005` fails for a task that asks for a mutex it holds
  (`MutexRuns.UndoAssertReached`): exactly when it did so, now holds only that one, and has another priority
  than the higher of its own and its waiters' (`MutexRuns.UndoAssertExactly`).
- Message buffers: a message that does not fit the receive buffer has its header put back, and a writer that
  runs meanwhile overwrites it exactly when the room there really is holds its message but not the header as
  well (`MessageRace.RollBackRaceExactly`). After that the indexes show less than a header although messages
  wait (`MessageRace.RaceReached`). For every setup and ring the indexes tell the number of unread bytes in
  every run exactly when no message is longer than the smallest receive buffer b, or the ring has at most
  b + 6 bytes, or the writer never runs in between, or all messages are of one byte on a ring of 5k + 1
  (`MessageRace.IndexesTellExactly`).
- Overwriting a full queue of zero-size items counts past its length, and nothing else does
  (`QueueStorage.Storage.CopyDataToQueue`; a queue of length one counts two, `QueueStorage.CountPastLength`).

A block time of zero handed to `prvAddCurrentTaskToDelayedList` on the last tick before the wrap would make
the assertion at the list switch fail, and nothing else would (`KernelTheorems.SwitchAssertExactly`). No caller
does that: vTaskDelay, vTaskDelayUntil and the event groups block for more than zero ticks, a time-out check
that lets a queue call block leaves more than zero (`Deadlines.TimeOut.CheckFor`), and the timer daemon blocks
for zero ticks only at tick zero (`TimerDaemon.Daemon.ProcessTimerOrBlock`).

## Model

| member | source | states |
|---|---|---|
| ListHeap.List.constructor | FreeRTOS/list.c:37-59 | a new list is an empty ring whose end marker holds the greatest value |
| ListHeap.List.InsertEnd | FreeRTOS/list.c:74-99 | on the heap nodes the new item goes just before the one pxIndex points at, the ring stays closed and no other item is touched |
| ListHeap.List.PlaceFor | FreeRTOS/list.c:117-149 | the search ends, also for the greatest value, behind every item that is not greater |
| ListHeap.List.Insert | FreeRTOS/list.c:103-167 | the item goes in behind all leading items whose value is not greater |
| ListRing.InsertKeepsSorted | FreeRTOS/list.c:103-167 | a sorted list stays sorted and the new value goes behind its equals |
| ListHeap.List.Remove | FreeRTOS/list.c:170-196 | exactly the given item leaves, from any position; pxIndex steps back if it pointed there |
| ListHeap.List.OwnerOfNextEntry | FreeRTOS/tasks.c:161-163 | pxIndex moves on, skips the end marker, and its owner is returned |
| ListHeap.WaitersInOrder | FreeRTOS/tasks.c:2910-2924 | whatever arrives at and leaves an event list, it is in order of priority and, among equals, of arrival |
| RoundRobin.SelectionAdvances | FreeRTOS/tasks.c:140-165 | each selection brings a ready task one place closer and chooses it exactly when it is next |
| RoundRobin.RemovalShortensExactly | FreeRTOS/list.c:170-196 | another task leaving the list spares a task one selection exactly when it would have been chosen first |
| RoundRobin.ArrivalDelaysExactly | FreeRTOS/list.c:74-99 | another task arriving costs a task one more selection exactly when pxIndex is at it |
| RoundRobin.ArrivalGoesLast | FreeRTOS/list.c:74-99 | an arriving task is chosen after every other, save the one pxIndex is at |
| RoundRobin.PlaceAccount | FreeRTOS/tasks.c:140-165 | over every run, until a task is chosen, its place is what it was plus overtakings less selections and shortenings |
| RoundRobin.ChosenExactly | FreeRTOS/tasks.c:140-165 | over every run a task is chosen if and only if at some point selections and shortenings have made up for its place and the overtakings |
| RoundRobin.ChosenWithin | FreeRTOS/tasks.c:140-165 | a task is chosen within as many selections as its place, plus one for each arrival while pxIndex is at it |
| RoundRobin.OvertakenWhileWaiting | FreeRTOS/list.c:183-186 | a run in which a task two places away is not chosen in two selections |
| KernelTurns.TurnsInEveryRun | FreeRTOS/tasks.c:140-165 | in every run of kernel calls a ready task that is left where it is gets to run if and only if the selections at its priority and the departures of tasks due before it have made up for its place and the arrivals put in front of it |
| KernelTurns.SharedInTurn | FreeRTOS/tasks.c:140-165 | in every run, while nobody joins or leaves a ready list, each selection there brings each of its tasks one place closer until it runs, so of k tasks each runs within k selections |
| KernelSteps.UnblockShrinks | FreeRTOS/tasks.c:2659-2678 | each round of the unblock loop shortens the list it walks, so it ends |
| KernelProof.WakeEpoch | FreeRTOS/tasks.c:4953-4968 | the comparison with the tick count tells the epoch a wake time lies in |
| KernelProof.AddToDelayedKeeps | FreeRTOS/tasks.c:4912-4982 | a blocking task joins the list of the epoch of its true wake time and the cached earliest wake time stays a lower bound |
| KernelTick.SwitchFindsEmptyList | FreeRTOS/tasks.c:215-227 | when the counter wraps the current delayed list is empty |
| KernelTick.UnblockDueEffect | FreeRTOS/tasks.c:2616-2693 | the loop readies the tasks whose value the counter has reached and no other |
| KernelTick.DueByValue | FreeRTOS/tasks.c:2659-2668 | comparing wrapped values on the current list agrees with comparing true times |
| KernelTick.TickWakesExactly | FreeRTOS/tasks.c:2589-2698 | one tick readies exactly the delayed tasks whose true wake time it reaches |
| KernelEffects.ClockCallsCount | FreeRTOS/tasks.c:215-227 | over the calls that move the clock the overflow count goes up by exactly the number of times the counter has wrapped |
| KernelWaking.WakesInEveryRun | FreeRTOS/tasks.c:2589-2758 | in every run of kernel calls a waiting task that nothing else wakes, suspends or deletes stays on its delayed list exactly while the clock is short of its true wake time, and the tick or resumption that reaches it makes it ready |
| KernelIdle.IdleStaysReady | FreeRTOS/tasks.c:3224-3350 | in every run a task that never blocks and is neither suspended nor deleted stays ready, whatever happens to its priority |
| KernelIdle.SelectsInEveryRun | FreeRTOS/tasks.c:149-165 | in every run with such an idle task the search finds a list that is not empty, and the task chosen is ready with no ready task above it |
| KernelPending.PendingInEveryRun | FreeRTOS/tasks.c:2105-2212 | in every run a task woken while the scheduler is suspended, and not suspended or deleted since, is pending exactly until the resumption that brings the suspension count to zero, and ready after it |
| KernelPending.NoWakeUpIsLost | FreeRTOS/tasks.c:2984-3049 | in every run the head of an event list, when woken, is ready at once or pending until the scheduler is resumed for good |
| KernelSafety.AboveTopEmpty | FreeRTOS/tasks.c:140-158 | every ready list above uxTopReadyPriority is empty |
| KernelSafety.HighestReadyIs | FreeRTOS/tasks.c:146-154 | the search downwards stops at the highest non-empty list |
| KernelSafety.ResumeAllKeeps | FreeRTOS/tasks.c:2105-2212 | resuming keeps the kernel invariant: no task or tick is left pending |
| KernelSafety.DeleteKeeps | FreeRTOS/tasks.c:1112-1197 | deleting a task keeps the invariant: a running task waits on the termination list, any other is gone from every list |
| KernelSafety.PrioritySetKeeps | FreeRTOS/tasks.c:1466-1623 | a change of priority keeps every ready task on the list of its priority |
| KernelTheorems.ApplyKeeps | FreeRTOS/tasks.c:1027-2212 | every kernel call keeps the invariant: one list for each state item, at most one for each event item, ready tasks on the list of their priority, delayed tasks on the list of their epoch, both sorted |
| KernelTheorems.RunKeeps | FreeRTOS/tasks.c:1027-3494 | the invariant holds in every reachable state |
| KernelFrames.StepKeepsOthers | FreeRTOS/tasks.c:1027-3494 | a kernel call that is not about a task moves neither its items nor its wake time, and only ticks and resumptions move the clock |
| KernelEffects.WakeEffect | FreeRTOS/tasks.c:2984-3049 | the head leaves its event list; it is ready behind the others of its priority, or, the scheduler suspended, on the pending ready list with no state item moved; no other task changes |
| KernelEffects.ResumeReadiesPending | FreeRTOS/tasks.c:2131-2146 | the resumption that brings the suspension count to zero makes every pending task ready |
| KernelEffects.SwitchEffect | FreeRTOS/tasks.c:2851-2907 | the highest ready list that is not empty moves on by one: the task that was next runs, every other there is one place closer, no other list changes; suspended or with no ready task nothing changes |
| KernelEffects.SuspendEffect | FreeRTOS/tasks.c:1630-1726 | the task is on the suspended list and waits for no event; no other task changes |
| KernelEffects.ResumeEffect | FreeRTOS/tasks.c:1777-1826 | only a suspended task that waits for no event and is not running becomes ready; nothing else changes |
| KernelEffects.DeleteEffect | FreeRTOS/tasks.c:1112-1199 | a running task is on the termination list and counted there, any other is gone and no longer counted; no other task changes |
| KernelEffects.CreateEffect | FreeRTOS/tasks.c:815-1107 | the new task is ready at its capped priority, and its event item is sorted by that priority |
| KernelEffects.PrioritySetEffect | FreeRTOS/tasks.c:1502-1620 | own priority, priority, ready list and event item value after the call; an inherited priority and a value in use by an event group stay |
| KernelEffects.InheritEffect | FreeRTOS/tasks.c:3801-3883 | the holder ends at the higher of the two priorities, on that ready list if it is ready, with its own priority kept |
| KernelEffects.LowerEffect | FreeRTOS/tasks.c:3888-4065 | the holder is at the given priority, on that ready list if it is ready, with its own priority kept |
| KernelWaking.DelayLastsExactly | FreeRTOS/tasks.c:1288-1328 | in every run vTaskDelay keeps its task off the ready list exactly until the clock has advanced by the ticks it asked for, across wraps and suspensions of the scheduler |
| KernelTheorems.SwitchAssertExactly | FreeRTOS/tasks.c:215-227 | what joining a delayed list asks of its callers: the list-switch assertion stays true exactly when the block time is not zero on the last tick before the wrap |
| KernelTheorems.SwitchAssertInRuns | FreeRTOS/tasks.c:215-227 | in every run whose callers keep to that the list-switch assertion never fails |
| KernelTheorems.IsrLeavesListsAlone | FreeRTOS/tasks.c:3006-3016 | while the scheduler is suspended no interrupt moves a state item or the clock |
| KernelTheorems.NoTickIsLost | FreeRTOS/tasks.c:2731-2733 | in every run, ticks delivered are ticks processed plus ticks pended; with the scheduler running neither a tick nor a task is pended |
| KernelTheorems.ListLengthsAddUp | FreeRTOS/tasks.c:3468-3494 | the list lengths add up to uxCurrentNumberOfTasks and the termination list is as long as uxDeletedTasksWaitingCleanUp |
| KernelTheorems.InitialInv | FreeRTOS/tasks.c:1027-1107 | the state after the first task is created has the invariant |
| TaskKernel.Tasks.AddTaskToReadyList | FreeRTOS/tasks.c:235-239 | the task is on the list of its priority, chosen after every other there save the one pxIndex is at; no other task is moved; a kernel that had only this task between lists has its invariant back |
| TaskKernel.Tasks.IncrementTick | FreeRTOS/tasks.c:2589-2758 | the tick with its switch and unblock loop, or a pended tick |
| TaskKernel.Tasks.OnTickInterrupt | FreeRTOS/portable/RVDS/ARM_CM3/port.c:411-429 | the tick interrupt delivers one tick, processed at once or pended while the scheduler is suspended, keeps count of the wraps and keeps the invariant |
| TaskKernel.Tasks.UnblockDueTasks | FreeRTOS/tasks.c:2629-2693 | the unblock loop does exactly what the recursive specification says |
| TaskKernel.Tasks.ResumeScheduler | FreeRTOS/tasks.c:2105-2212 | resuming with its drain loops takes back one suspension and keeps the invariant; the last resumption makes every pending task ready |
| TaskKernel.Tasks.DrainPendingList | FreeRTOS/tasks.c:2131-2146 | the loop empties the pending ready list |
| TaskKernel.Tasks.AddCurrentTaskToDelayedList | FreeRTOS/tasks.c:4912-4982 | the running task is suspended, or waits for its true wake time on the list of that time's epoch; no other task is moved and the invariant is kept |
| TaskKernel.Tasks.ResetNextTaskUnblockTime | FreeRTOS/tasks.c:3730-3751 | no task of the current list is due before the cached time, one is due then unless the list is empty, and the invariant is kept |
| TaskKernel.Tasks.PlaceCurrentOnEventList | FreeRTOS/tasks.c:2910-2924 | the running task waits for its true wake time and is on the event list behind all of at least its priority; no other task is moved and the invariant is kept |
| TaskKernel.Tasks.PlaceCurrentOnUnorderedEventList | FreeRTOS/tasks.c:2927-2948 | the running task waits for its true wake time and is at the end of the event list with its value; no other task is moved and the invariant is kept |
| TaskKernel.Tasks.WakeHeadOf | FreeRTOS/tasks.c:2984-3049 | the head leaves the event list and is ready behind the others of its priority, or pending with no state item moved while the scheduler is suspended; no other task changes and the invariant is kept |
| TaskKernel.Tasks.WakeFromUnorderedEventList | FreeRTOS/tasks.c:3052-3083 | the waiter is ready, on no event list and holds the value; no other task is moved and the invariant is kept |
| TaskKernel.Tasks.SwitchToHighestPriority | FreeRTOS/tasks.c:2851-2907 | the selection loop: the highest ready list that is not empty moves on by one and the task that was next on it runs; no other list changes |
| TaskKernel.Tasks.SuspendTask | FreeRTOS/tasks.c:1630-1726 | the task is on the suspended list and off any event list; no other task changes |
| TaskKernel.Tasks.ResumeTask | FreeRTOS/tasks.c:1777-1826 | only a task that is truly suspended and not running becomes ready; nothing else changes |
| TaskKernel.Tasks.ResumeTaskFromIsr | FreeRTOS/tasks.c:1831-1898 | only a task that is truly suspended is resumed: ready at once, or pending while the scheduler is suspended; no other task is moved and the invariant is kept |
| TaskKernel.Tasks.AddNewTask | FreeRTOS/tasks.c:1027-1107 | the new task is ready at its own, capped priority with its event item sorted by it; no other task is moved and the invariant is kept |
| TaskKernel.Tasks.DeleteTask | FreeRTOS/tasks.c:1112-1199 | a running task waits on the termination list to be freed, any other is gone; the counts follow and no other task changes |
| TaskKernel.Tasks.CheckTasksWaitingTermination | FreeRTOS/tasks.c:3468-3494 | the idle task's loop frees exactly the terminated tasks |
| TaskKernel.Tasks.SetTaskPriority | FreeRTOS/tasks.c:1466-1625 | the own priority is the new one, capped; the priority too unless one is inherited; a ready task is on the list of its priority |
| TaskKernel.Tasks.InheritPriority | FreeRTOS/tasks.c:3801-3883 | the holder ends at the higher of its own and the running task's priority, on that ready list if it is ready |
| Deadlines.TimeOut.CheckFor | FreeRTOS/tasks.c:3113-3165 | with no wrap missed the check expires exactly when the true deadline has come, and otherwise leaves the deadline where it was and more than zero ticks |
| Deadlines.TimeOutExactly | FreeRTOS/tasks.c:3113-3165 | when the answer is the true one, for every entry time, wait and check time |
| Deadlines.TimeOutMissed | FreeRTOS/tasks.c:3140-3147 | a wait of nine ticks that is found not expired after more than a counter period |
| Deadlines.DeadlineKept | FreeRTOS/tasks.c:3148-3160 | a check that does not expire leaves the true deadline unchanged |
| Deadlines.OneDeadline | FreeRTOS/tasks.c:3106-3166 | however often a call checks, it expires at the first check at or after entry time plus ticks and at none before |
| Deadlines.ForeverNeverExpires | FreeRTOS/tasks.c:3128-3138 | portMAX_DELAY never expires |
| Deadlines.DelayUntil | FreeRTOS/tasks.c:1213-1268 | it delays exactly when the true wake time is ahead, and for exactly what is left |
| Deadlines.TargetsDoNotDrift | FreeRTOS/tasks.c:1220-1254 | the j-th target is start plus j increments, whether or not a call was late |
| Deadlines.PeriodicWake | FreeRTOS/tasks.c:1204-1283 | in every run of kernel calls a task that delays until its target is off the ready list exactly until the clock reaches it |
| QueueStorage.AppendAtBack | FreeRTOS/queue.c:2068-2079 | writing at the write offset appends to the queued items, for any item size and length |
| QueueStorage.PrependAtFront | FreeRTOS/queue.c:2081-2092 | writing at the read offset and stepping back prepends |
| QueueStorage.TakeFromFront | FreeRTOS/queue.c:2119-2134 | stepping on and reading removes the oldest item |
| QueueStorage.Storage.CopyDataToQueue | FreeRTOS/queue.c:2040-2116 | send to back, send to front and overwrite on a bounded sequence, both offsets item-aligned and in range; the count passes the length exactly when a full queue of zero-size items is overwritten |
| QueueStorage.CountPastLength | FreeRTOS/queue.c:2049-2116 | a queue of one zero-size item, sent to and then overwritten, counts two |
| QueueStorage.Storage.CopyDataFromQueue | FreeRTOS/queue.c:2119-2134 | the oldest item is copied out |
| QueueStorage.Storage.Send | FreeRTOS/queue.c:744-850 | a full queue refuses unless overwriting; otherwise the item is added |
| QueueStorage.Storage.Receive | FreeRTOS/queue.c:1264-1310 | an empty queue refuses; otherwise the oldest item leaves |
| QueueStorage.Storage.Peek | FreeRTOS/queue.c:1625-1655 | the oldest item is copied and stays |
| QueueSafety.ApplyKeeps | FreeRTOS/queue.c:725-1747 | every step of every interleaving keeps the account of items, spaces, woken tasks and lock counts |
| QueueSafety.NoLostWakeUp | FreeRTOS/queue.c:2137-2254 | in every run, with the scheduler running, waiting receivers (senders) are outnumbered by no more items (spaces) than tasks woken for them, and such a task can go on |
| QueueSafety.NothingLeftBehind | FreeRTOS/queue.c:2137-2254 | a queue at rest has not both items and waiting receivers, nor both spaces and waiting senders |
| QueueSafety.ItemsBalance | FreeRTOS/queue.c:725-1838 | in every run the count is what there was at first, plus the posts that added an item, less the takes |
| QueueSafety.CallEndsExactly | FreeRTOS/queue.c:725-1747 | a call ends exactly when it finds what it asks for, or finds nothing and has no block time, or none left |
| QueueSafety.WaitsExactly | FreeRTOS/queue.c:1312-1378 | undisturbed, a call that found nothing ends up on the list asleep exactly when there is still nothing and block time is left; otherwise it goes round again or gives up, and the queue is as it was |
| QueueSafety.TimesOutExactly | FreeRTOS/tasks.c:2659-2690 | a sleeper whose time is over leaves the list, the others keep their order, and it can go on |
| QueueEvents.RunsForgetNone | FreeRTOS/queue.c:725-1747 | in every run of the protocol, also while the queue is locked, no task waits for an item or a space that no woken task or lock count answers for |
| QueueEvents.EventState.LockQueue | FreeRTOS/queue.c:232-244 | a count that was not running starts at zero, one that was is kept, and every waiting task is still answered for |
| QueueEvents.UnlockUndoesLock | FreeRTOS/queue.c:2137-2254 | with nothing posted or taken in between, unlocking undoes locking |
| QueueEvents.UnlockWakes | FreeRTOS/queue.c:2137-2254 | unlocking wakes as many from the head of the list as were counted, or all if there are fewer |
| QueueEvents.EventState.UnlockTx | FreeRTOS/queue.c:2137-2220 | the countdown loop wakes as many receivers from the head as there were counted posts, or all, then unlocks; every waiting task stays answered for |
| QueueEvents.EventState.UnlockRx | FreeRTOS/queue.c:2222-2254 | the same for senders |
| QueueEvents.EventState.TrySend | FreeRTOS/queue.c:744-850 | a full queue refuses unless overwriting; otherwise the count goes up by one, or stays when an item is overwritten, the head of the waiting receivers is woken if any waits, and every task left waiting is answered for |
| QueueEvents.EventState.TryReceive | FreeRTOS/queue.c:1264-1310 | an empty queue refuses; otherwise the count goes down by one, or stays for a peek, the head of the waiting senders (for a peek, of the receivers) is woken, and every task left waiting is answered for |
| QueueEvents.EventState.SendFromIsr | FreeRTOS/queue.c:923-1071 | a full queue refuses unless overwriting; otherwise the count goes up by one or stays when overwriting; on an unlocked queue the head receiver is woken, on a locked one no list is touched and the post is counted; every waiting task stays answered for |
| QueueEvents.EventState.ReceiveFromIsr | FreeRTOS/queue.c:1750-1838 | the same for a removal and the waiting senders |
| MutexLedger.ApplyKeeps | FreeRTOS/queue.c:1410-1596 | every step keeps the ledger of counts, holders and lists, and the assertion made when a mutex is given never fails |
| MutexPriorities.LedgerBalances | FreeRTOS/tasks.c:3888-3961 | in every run uxMutexesHeld counts the mutexes held, a mutex is taken exactly while it has a holder, and a task that holds none has its own priority, also across changes of priority |
| MutexPriorities.HolderNotBelowWaiters | FreeRTOS/queue.c:1410-1596 | in every run of highest-priority tasks that block holding no mutex, no holder is below a task waiting for its mutex |
| MutexPriorities.UndoNeverFindsSelf | FreeRTOS/tasks.c:3998-4008 | in such runs the assertion that a timed-out waiter is not the holder never fails |
| MutexPriorities.GiveWakesHighest | FreeRTOS/queue.c:744-850 | in such runs a mutex given back is free, and one of the highest-priority tasks waiting for it leaves the list and may go on |
| MutexPriorities.TakeEndsExactly | FreeRTOS/queue.c:1410-1596 | a take ends exactly with the mutex, or when it is taken and no block time is given or left and no inheritance remains to be undone; it waits exactly when it finds it taken with block time left |
| MutexPriorities.NestedBlockingExactly | FreeRTOS/tasks.c:3801-3883 | of the step that blocks: it keeps the bound exactly when the holder is not itself waiting behind a task of lower priority |
| MutexBound.StepFits | FreeRTOS/tasks.c:3801-4065 | of every kind of step: from a state with the bound it keeps the bound if and only if it fits, a condition on the state before it |
| MutexBound.BoundExactly | FreeRTOS/queue.c:1410-1596 | in every run, of whatever calls in whatever order, the bound holds in all states up to the n-th if and only if each of the steps to it fits |
| MutexRuns.NestedBlockingReached | FreeRTOS/tasks.c:3801-3883 | from any start with a task above two others and two mutexes, a run of highest-priority tasks breaks the bound by blocking |
| MutexRuns.UndoBreaksBound | FreeRTOS/tasks.c:3968-4065 | from any start with five tasks of fitting priorities and two mutexes, a run of highest-priority tasks reaches a state that has the bound and loses it when a timed-out waiter undoes its inheritance |
| MutexRuns.TakeAssertReached | FreeRTOS/queue.c:1464-1475 | a run of highest-priority tasks in which a take without block time left has caused an inheritance |
| MutexRuns.TakeAssertExactly | FreeRTOS/queue.c:1464-1575 | in every run that assertion fails exactly when a timed-out task saw the mutex free and it has been taken since |
| MutexRuns.TakeAssertWithoutTimeOuts | FreeRTOS/queue.c:1464-1475 | it never fails for a task whose waits never use up their block time |
| MutexRuns.UndoAssertReached | FreeRTOS/tasks.c:3998-4008 | a run of highest-priority tasks in which a timed-out waiter that is to lower the holder's priority is the holder |
| MutexRuns.UndoAssertExactly | FreeRTOS/tasks.c:3968-4008 | in every run that assertion fails exactly for a task that asked for a mutex it held, holds no other now, and has another priority than the higher of its own and its waiters' |
| MutexTasks.TaskControlBlock.PriorityInherit | FreeRTOS/tasks.c:3801-3883 | the priority never falls and is at least the waiter's; inheritance is reported exactly when the waiter is above the holder's own priority |
| MutexTasks.InheritsHighest | FreeRTOS/tasks.c:3801-3883 | in whatever order tasks block, the holder ends at the highest of its own and their priorities |
| MutexTasks.TaskControlBlock.PriorityDisinherit | FreeRTOS/tasks.c:3888-3963 | one mutex fewer; the own priority exactly with the last, until then the inherited one |
| MutexTasks.InheritanceUndone | FreeRTOS/tasks.c:3888-3963 | giving back the one mutex taken makes the task what it was before it took it, whoever blocked on it meanwhile |
| MutexTasks.TaskControlBlock.PriorityDisinheritAfterTimeout | FreeRTOS/tasks.c:3968-4065 | a holder of one mutex is below neither its own priority nor any remaining waiter and at one of the two; any other holder is left alone |
| MutexTasks.TaskControlBlock.PrioritySet | FreeRTOS/tasks.c:1502-1563 | the own priority is the new one at once, and the priority too unless one is inherited |
| MutexTasks.SetPriorityTakesEffect | FreeRTOS/tasks.c:1502-1563 | a priority set while another is inherited takes effect with the last mutex given back |
| MutexTasks.ReleasedWhenBalanced | FreeRTOS/queue.c:574-666 | whoever calls what, a recursive mutex is free exactly when every task's takes and gives balance, and its holder is the one whose do not |
| MutexTasks.PassesExactly | FreeRTOS/queue.c:574-666 | after whatever calls, a take passes exactly when no other task's calls are unbalanced, and a give when the caller's are |
| MutexTasks.RecursiveMutex.TakeRecursive | FreeRTOS/queue.c:629-666 | it passes exactly when no other task holds the mutex, by the balance of all calls so far; one that would have to wait is refused |
| MutexTasks.RecursiveMutex.GiveRecursive | FreeRTOS/queue.c:574-624 | it passes exactly for the holder, by the balance of all calls so far, and only its last give releases |
| TimerLists.ClassifyExactly | FreeRTOS/timers.c:647-685 | processed at once exactly when expired by now, otherwise current or overflow list by the epoch of the true expiry |
| TimerLists.NewPeriodIsAhead | FreeRTOS/timers.c:786-797 | a changed period never needs processing at once |
| TimerLists.WrapSeen | FreeRTOS/timers.c:624-644 | a smaller reading means exactly that the counter has wrapped since the last |
| TimerLists.InsertRemaining | FreeRTOS/timers.c:846-890 | a later reload value brings the list being drained closer to empty |
| TimerLists.ListingFiled | FreeRTOS/timers.c:647-685 | filing a timer under its true expiry keeps every timer in the one place it belongs |
| TimerLists.RoomToCommand | FreeRTOS/timers.c:485-487 | there is at most one start command for each timer, so a queue with a place for each never fills |
| TimerDaemon.CallbacksAreExact | FreeRTOS/timers.c:462-499 | being between two expiries is the same as having had the whole number of periods as callbacks |
| TimerDaemon.Daemon.Start | FreeRTOS/timers.c:381-421 | a start command for a timer that is not active, started before or not, always fits the queue and begins its account anew at this time |
| TimerDaemon.Daemon.SwitchTimerLists | FreeRTOS/timers.c:835-891 | the drain loop ends, calls each timer of the epoch that is over, owes every timer exactly one thing, and the lists change places |
| TimerDaemon.Daemon.SampleTimeNow | FreeRTOS/timers.c:624-644 | the lists are switched exactly when the epoch has changed |
| TimerDaemon.Daemon.InsertTimerInActiveList | FreeRTOS/timers.c:647-685 | for any command and handling times a timer is left to be processed exactly when its true expiry is past, and is otherwise filed in order on the list of the epoch it expires in |
| TimerDaemon.Daemon.ProcessExpiredTimer | FreeRTOS/timers.c:462-499 | the head of the list was due, it alone is called, once, and goes on to its next expiry or to a restart command if that is past too |
| TimerDaemon.Daemon.ProcessTimerOrBlock | FreeRTOS/timers.c:538-621 | the daemon blocks exactly when the epoch is the same and the head has not expired, for exactly the time to the first expiry or to the wrap; otherwise it processes the head, which was due, or switches the lists and so calls each timer of the epoch that is over |
| TimerDaemon.Daemon.ProcessCommand | FreeRTOS/timers.c:688-777 | the oldest start command is carried out: its timer is filed under its expiry, or called if that is past and then restarted or done; no timer is later than it was and there is less left to do |
| TimerDaemon.Daemon.ProcessReceivedCommands | FreeRTOS/timers.c:688-832 | the loop goes on until no command is left, keeps every account while time passes, and leaves less to do if there was a command |
| TimerDaemon.Daemon.TimerTask | FreeRTOS/timers.c:502-535 | given the processor, the daemon comes to an end of its rounds and then blocks with no command waiting and nothing expired, each timer having been called as often as it should by now |
| TimerDaemon.Daemon.CaughtUpExactly | FreeRTOS/timers.c:462-891 | a daemon that has caught up at true time n has called a timer started at c with period p exactly (n - c) / p times, across wraps and late processing |
| TimerDaemon.Daemon.OneShotExactly | FreeRTOS/timers.c:462-891 | and a one-shot timer once if its period is over and not at all otherwise |
| StreamProtocol.HeaderRoundTrip | FreeRTOS/stream_buffer.c:669-669 | the bytes of a message length give the length back |
| StreamSafety.Distances | FreeRTOS/stream_buffer.c:1121-1138 | the wrapped indexes give the true numbers of bytes and spaces |
| StreamSafety.WriterCopiesKeeps | FreeRTOS/stream_buffer.c:1034-1047 | a byte copied by the writer overwrites nothing the reader may still read |
| StreamSafety.ReaderPublishesKeeps | FreeRTOS/stream_buffer.c:1100-1110 | publishing xTail keeps what was received a prefix of what was sent |
| MessageSafety.StreamKeepsOrder | FreeRTOS/stream_buffer.c:1020-1138 | under every interleaving the bytes received are a prefix of the bytes sent |
| MessageSafety.MessagesKeepOrder | FreeRTOS/stream_buffer.c:639-899 | with careful use the messages delivered are, whole and in order, the first of those sent, although header and body are published separately |
| MessageSafety.EncodeAt | FreeRTOS/stream_buffer.c:669-683 | where each message's header and body are in the bytes sent |
| MessageRace.RollBackRaceExactly | FreeRTOS/stream_buffer.c:864-880 | a message that the writer begins while a header is put back does not fit exactly when the true room holds it but not its header as well |
| MessageRace.RaceReached | FreeRTOS/stream_buffer.c:864-880 | from any empty buffer used without that care a run reaches a state in which the indexes show less than a header although messages wait |
| MessageRace.IndexesTellExactly | FreeRTOS/stream_buffer.c:639-899 | for every setup and ring, in every run and outside the window of a header put back, the indexes give the number of unread bytes if and only if the use is careful |
| StreamBuffer.StreamBuffer.SpacesAvailable | FreeRTOS/stream_buffer.c:451-472 | the free bytes, one less than the ring holds |
| StreamBuffer.StreamBuffer.BytesInBuffer | FreeRTOS/stream_buffer.c:1121-1138 | the unread bytes |
| StreamBuffer.StreamBuffer.WriteBytes | FreeRTOS/stream_buffer.c:1020-1063 | the bytes are appended, across the end of the array |
| StreamBuffer.StreamBuffer.ReadBytes | FreeRTOS/stream_buffer.c:1066-1118 | the oldest bytes are taken, across the end of the array |
| StreamBuffer.StreamBuffer.WriteMessage | FreeRTOS/stream_buffer.c:639-688 | a stream takes what fits; a message goes in whole with its header or not at all |
| StreamBuffer.StreamBuffer.ReadMessage | FreeRTOS/stream_buffer.c:852-899 | a message comes out whole, or stays where it is if the receive buffer is too small |
| StreamCalls.WriteCallSends | FreeRTOS/stream_buffer.c:588-688 | from every sound state a whole write publishes as much of a stream as there is true room for, and a message with its header whole or not at all |
| StreamCalls.ReadCallReceives | FreeRTOS/stream_buffer.c:795-899 | with careful use a whole read takes as many unread bytes of a stream as fit, and of a message buffer the first unread message, whole, if there is one and it fits |
| StreamCalls.RoundTrip | FreeRTOS/stream_buffer.c:639-899 | what one call sends to an empty buffer the next call receives |
| EventGroups.ItemValueRoundTrip | FreeRTOS/event_groups.c:357-383 | the word in an event list item gives back the bits waited for and both options |
| EventGroups.WokenValueFacts | FreeRTOS/event_groups.c:575-576 | a woken task gets back the value that woke it without control bits |
| EventGroups.MetExactly | FreeRTOS/event_groups.c:656-688 | a wait for all bits is met exactly when each of its bits is set, one for any bit exactly when some bit is set both in the group and in the mask |
| EventGroups.SetBitsExactly | FreeRTOS/event_groups.c:504-595 | bit by bit: precisely the waiters satisfied by old and new bits together are woken, and a bit is set afterwards exactly if it was or was added and no woken task asked to have it cleared |
| EventGroups.WhatIsCleared | FreeRTOS/event_groups.c:560-569 | a bit is in the mask exactly if a woken task asked to have it cleared |
| EventSafety.NoneLeftWaiting | FreeRTOS/event_groups.c:296-595 | in every run no task is left on the list with its wait satisfied, bit by bit, and every blocked task is on the list or about to run |
| EventSafety.WokenWithItsBits | FreeRTOS/event_groups.c:387-436 | a woken task returns a value whose bits satisfy its wait, whatever has happened to the group since |
| EventSafety.BitsChangeExactly | FreeRTOS/event_groups.c:176-595 | every step sets exactly the bits it is given, and clears exactly those it is told to, those a woken task asked for, and those of a satisfied wait that clears on exit |
| SyncBarrier.OpensWhenAllArrive | FreeRTOS/event_groups.c:176-213 | an arriving task finds all bits set, each by old or new bits, exactly when every other task is waiting |
| SyncBarrier.ReusableBarrier | FreeRTOS/event_groups.c:176-293 | in every run no task leaves its k-th rendezvous before all have arrived for it, none gets two ahead, and each value returned has all the bits |
| SyncBarrier.NobodyStuck | FreeRTOS/event_groups.c:176-293 | the tasks are never all waiting at once |
| EventGroupCalls.EventGroup.SetBits | FreeRTOS/event_groups.c:504-595 | the loop over the list, removing as it goes, takes off exactly the waiters satisfied by old and new bits, gives each those bits and clears what they asked for; no task is left with its wait met |
| EventGroupCalls.EventGroup.WaitBits | FreeRTOS/event_groups.c:296-386 | it sleeps exactly when it may block and its wait is not satisfied, bit by bit, with an item that gives the wait back; a satisfied wait with clear-on-exit clears its bits and no other; no task is left with its wait met |
| EventGroupCalls.EventGroup.Sync | FreeRTOS/event_groups.c:176-236 | it returns with all bits, and exactly the mask is then cleared, exactly when old and new bits together have each bit of the mask; otherwise it sleeps if it may; no task is left with its wait met |
| EventGroupCalls.EventGroup.ClearBits | FreeRTOS/event_groups.c:446-470 | the bits are clear, no other bit has changed, the old value is returned, and no task is left with its wait met |
| EventGroupCalls.EventGroup.Finish | FreeRTOS/event_groups.c:387-443 | a woken task returns the value that woke it, whatever has happened to the bits since; a timed-out one returns the bits there are, clearing exactly its own if they satisfy its wait after all and otherwise none |
| ReplySearch.CarryIsEnough | User/app_ec20.c:437-496 | what has not occurred yet occurs in the whole reply exactly when it occurs in the new segment with the end of the last before it |
| Ec20.FoundInCarry | User/app_ec20.c:656-668 | the same for the first command of the table that occurs |
| Ec20.Ec20App.FindCmd | User/app_ec20.c:585-615 | the first command of the table that occurs, and its handler |
| Ec20.Ec20App.RecvCmdSelect | User/app_ec20.c:617-694 | with every allocation made, the command selected is the first of the table that occurs in the reply so far |
| Ec20.Ec20App.RecvGeneral | User/app_ec20.c:425-539 | the next state is asked for only if the result occurs in the reply, and with every allocation made also if |
| Ec20.Ec20App.GeneralReply | User/app_ec20.c:425-539 | for any NUL-free reply in full segments and a shorter last one, the next state is asked for exactly when the result occurs in it |

## Left out

- Yields and the flags that ask for them (xYieldPending, "higher priority task woken" results): a switch may follow any call.
- Task notifications, which block a task as the delayed lists do; stream buffers wait on them, so a blocked writer or reader is one that looks again later.
- Memory allocation, stacks, static creation, names, thread-local storage, trace, statistics, MPU wrappers, tickless idle, co-routines and queue sets.
- The port-optimised ready bitmap: its macros are not part of this model.
- xQueueGenericReset on a queue with blocked senders, and deleting or suspending a task that has been woken for a queue.
- The eight-bit wrap of cTxLock and cRxLock: fewer than 128 interrupt posts or removals are made while a queue is locked.
- Queue, mutex and event-group protocols run beside the task lists, not inside them: a blocked task is one on the protocol's list, and timing out may happen at any time. The task lists and their timing are the subject of the kernel modules.
- Deleting a task twice, and deleting or suspending the running task while the scheduler is suspended.
- Stop, delete, reset and change-period commands that race with a timer's own restart command, and pended function calls.
- A timer daemon that runs a counter period or more late.
- The USB driver, the modem's sending thread, and the handlers that match nothing (ec20_recv_ati, ec20_recv_init_done, ec20_recv_running).
- ListHeap.WaitersInOrder: priorities are those at the time of waiting, because the code does not sort an event list again when a priority changes.
- MutexPriorities.HolderNotBelowWaiters: runs without vTaskPrioritySet and without blocking while holding a mutex, because the code gives no bound there; the exact condition for those runs is MutexBound.BoundExactly.
- QueueSafety.NoLostWakeUp: overwriting a full queue of zero-size items is not a step of the protocol, because its count would pass the length (QueueStorage.CountPastLength).
- KernelTheorems.ApplyKeeps: runs begin with the first task created; calls made before the scheduler has started are not steps.
- TimerDaemon.Daemon.ProcessReceivedCommands: no command comes from outside while the loop runs, and time passes only in the rounds given, because in the code it may go on for as long as commands arrive.
- TimerDaemon.Daemon.TimerTask: one stretch of the processor, in which no time passes and no command comes from outside.
- StreamCalls.WriteCallSends: the other side is between calls; with both at work see MessageSafety.
- KernelTurns.TurnsInEveryRun: for a task that no call moves meanwhile; one that leaves its list and comes back begins at a new place.
- TimerDaemon.Daemon.Start: starting a timer that is active is not modelled, because its expiry may then come before its command.
- TimerDaemon.Daemon.ProcessCommand: start commands only; see above for the others.
- MutexTasks.RecursiveMutex.TakeRecursive: a take that would have to wait is a refusal; waiting for a mutex is the subject of MutexProtocol.
- MessageSafety.MessagesKeepOrder: with careful use, because otherwise the indexes lose whole messages (MessageRace.RaceReached); what a reader gets after that is not described.
- The class Tasks keeps its lists as values; ListHeap has the same operations on linked nodes.
