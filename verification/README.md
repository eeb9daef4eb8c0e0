# FreeRTOS kernel: a verified model

This project models the state machines of the FreeRTOS kernel in Dafny and proves what they are
for.  Six cores are covered.

* **Lists** (`KernelList.dfy`, `Rings.dfy`).  The intrusive circular list is proved on the heap
  against a sequence with a roving cursor; everything above it uses the sequence.
* **Scheduler** (`Ticks.dfy`, `Priorities.dfy`, `Scheduler*.dfy`, `SwitchRuns.dfy`, `TimeOuts.dfy`,
  `Kernel.dfy`).  The task lists are a value, and each operation of `tasks.c` a function on it.  The
  class `Kernel` does the work on fields, loops included, and is proved to act as those functions.
  Every claim about time is made on an absolute tick count of which the kernel sees `t % M`; the two
  delayed lists are compared with one list of absolute wake times.
* **Queues and mutexes** (`QueueStorage.dfy`, `QueueWakeups.dfy`, `QueueSteps.dfy`, `Mutexes.dfy`,
  `MutexSteps.dfy`, `MutexRuns.dfy`).  The byte ring refines a deque, over whole sequences of
  operations.  The blocking calls are a system with one step per critical section and interrupt
  steps between any two; its invariant matches available items with woken tasks and events counted
  under the lock (`QueueSteps.dfy` says what each step does, and that no message is lost).  Priority
  inheritance is a system of tasks over the same priority functions the scheduler uses;
  `MutexSteps.dfy` says what each step does, and `MutexRuns.dfy` holds the runs that show where a
  bound or an assertion fails.
* **Timers** (`Timers.dfy`, `TimerCommands.dfy`).  Expiry decisions, catching up, list switching and
  the time the daemon blocks are compared with absolute expiry times over whole runs of the daemon.
* **Stream and message buffers** (`StreamBuffers.dfy`, `StreamProtocol.dfy`).  The ring, the
  framing, and the lock-free protocol of one writer and one reader, byte by byte.
* **Event groups** (`EventGroups.dfy`, `EventOutcomes.dfy`).  The walk over the waiting list on
  32-bit values, and what each operation leaves, bit by bit.

The configuration is that of `port/FreeRTOSConfig.h`: preemption and mutexes on, recursive mutexes
and tickless idle off, `INCLUDE_vTaskSuspend` and `INCLUDE_xTaskAbortDelay` on, generic task
selection and time slicing.  The tick range `M`, `configMAX_PRIORITIES` and the size of a stored
message length are arbitrary constants; `portMAX_DELAY` is `M - 1`.  Software timers are modelled as
if enabled.

Assertions expand to nothing in this configuration.  Those on arguments are preconditions.  Of those
on the modelled state, the empty delayed list (`tasks.c:206`), the downward search for a ready task
(`tasks.c:143`), the held count of a mutex holder (`tasks.c:4167` and `4246`) and the length of a
stored message (`stream_buffer.c:897`) are proved to hold.  Three do not always hold, and the exact
conditions are proved:  `tasks.c:4273`, `queue.c:1585` and the limit of the lock counters
(`queue.c:1164`).

Results that differ from what the source's documentation says, or need a condition it does not
state:

* `include/list.h` promises that an item inserted at the end is visited after every other item.
  That holds exactly when the cursor is on the end marker; otherwise the item the cursor is on comes
  after it (`Rings.InsertEndIsLastExactly`).
* A time-out check that comes more than a turn of the clock late can report a wait as running that
  is over; `TimeOuts.CheckIsRightExactly` gives the exact condition.
* A timer period changed to zero leaves the timer active but on no list (`Timers.ZeroPeriodIsLost`).
* A queue lock counter that is bumped at 127 loses every wake-up counted under the lock
  (`QueueWakeups.CountedIsPaidExactly`).  `QueueWakeups.WakeUpIsLost` is a run from a new queue to a
  state with nothing in flight, a message stored and a reader waiting for it.
* With the scheduler suspended the count of pended ticks wraps: a whole turn of the clock that
  arrives meanwhile is lost (`SchedulerRuns.TurnIsLost`).  A step loses ticks exactly if it is not a
  processed tick and takes the count to the tick range (`StepCountsTicks`); without such a step a
  delay is exact in arrived ticks (`DelayCountsArrivals`).
* After most operations a ready task that outranks the running one has made a switch pending or
  asked for.  There are two exceptions.  A give of a mutex drops the request that its drop in
  priority calls for when a task waits for that mutex:  `SchedulerSwitches.GiveServesExactly` gives
  the exact condition, `SwitchRuns.GiveIsSilent` a run of the scheduler from its start that ends
  with a ready task above the running one and no request, not even from the next tick, and
  `MutexRuns.DroppedRequest` a disciplined run of the mutex system.  The adjustment of a holder's
  priority after a waiter's time-out asks for nothing, although it can raise a waiting holder to a
  base priority set meanwhile, or lower the running task if that holds the mutex itself:
  `SchedulerSwitches.TimeoutServesExactly` gives the exact condition, `SwitchRuns.TimeoutIsSilent` a
  run of the first kind.
* A task can time out on a mutex it holds itself after it was lent a priority; it then withdraws
  that priority from itself, against the assertion at `tasks.c:4273`.
  `Mutexes.WithdrawAssertionExactly` gives the exact condition, `MutexRuns.SelfWithdrawal` a run
  from a start; disciplined runs do not get there (`Mutexes.NeverWithdrawsFromItself`).
* A task that timed out, saw the mutex free and lost it to another task returns without withdrawing
  the priority it lent, against the assertion at `queue.c:1585`.  `Mutexes.LastTryAssertionExactly`
  gives the exact condition; `MutexRuns.LastTryLost` is a disciplined run that fails it.
* The length of a message is stored in a type that is `size_t` in this configuration.  For a
  narrower type framing works exactly for messages whose length fits it
  (`StreamBuffers.FramingExactly`).
* A task that has held two mutexes keeps an inherited priority after giving back the one it was lent
  for (`MutexRuns.DroppedRequest`).  With one mutex at a time what is lent is given back
  (`MutexSteps.LentIsGivenBack`).
* Without the scheduling discipline a low-priority task can take a mutex ahead of those that wait
  for it (`Mutexes.TakeBoundsExactly`); suspending the task that is about to take a free mutex is
  one way to get there (`MutexRuns.SuspendedInFlight`).

To verify the whole project:  `dafny verify dfyconfig.toml`.

## Model

| member | source | states |
|---|---|---|
| `KernelList.List.constructor` | FreeRTOS-Kernel/list.c:50-72 | a new list is the one-node cycle through its end marker, with the cursor on it |
| `KernelList.List.InsertEnd` | FreeRTOS-Kernel/list.c:87-114 | the links stay one cycle with a correct count, and the item sits just before the item the cursor is on |
| `KernelList.List.FindSpot` | FreeRTOS-Kernel/list.c:133-173 | the search loop stops behind every item whose value is not larger; the largest tick value is placed without searching, so it terminates for it too |
| `KernelList.List.Insert` | FreeRTOS-Kernel/list.c:117-185 | the links stay one cycle, and the entries become the stable sorted insertion of the new one |
| `KernelList.List.NextOwner` | FreeRTOS-Kernel/include/list.h:281-297 | the cursor advances to the next item, skipping the end marker, and that item's owner is returned |
| `KernelList.Remove` | FreeRTOS-Kernel/list.c:188-214 | an item finds its list through its own links; the rest stays one cycle, a cursor on the item steps back, and the new count is returned |
| `Rings.RoundRobin` | FreeRTOS-Kernel/include/list.h:281-297 | as many next-entry calls as there are items return each item exactly once and restore the visiting order |
| `Rings.InsertEndOrder` | FreeRTOS-Kernel/include/list.h:350-373 | a new item is visited after every other item except the one the cursor is on |
| `Rings.InsertEndIsLastExactly` | FreeRTOS-Kernel/include/list.h:331-342 | the documented promise that the new item comes last holds if and only if the cursor is on the end marker |
| `Rings.RemoveOrder` | FreeRTOS-Kernel/include/list.h:310-325 | removal keeps the visiting order of all other items, even if the cursor was on the removed one |
| `Rings.InsertSortedStable` | FreeRTOS-Kernel/list.c:117-173 | ordered insertion puts an item behind all items of equal value, before all larger ones, and keeps the list sorted |
| `SchedulerTime.SleepInserts` | FreeRTOS-Kernel/tasks.c:5343-5371 | with two lists over modular ticks, entering a delay is one stable insertion into a list of absolute wake times, for every tick value |
| `SchedulerTime.SleepKeeps` | FreeRTOS-Kernel/tasks.c:5343-5371 | entering a delay keeps every list consistent, all wake values ahead of the tick count, and the cached unblock time never stale-high |
| `SchedulerTime.SleepCachesNext` | FreeRTOS-Kernel/tasks.c:5343-5371 | the cached unblock time follows a new head of the delayed list, and nothing else |
| `Scheduler.AddReadyOrder` | FreeRTOS-Kernel/tasks.c:221-225 | a readied task joins its ready list behind all others but the one the cursor is on; other lists are as they were |
| `Scheduler.UnlistOrder` | FreeRTOS-Kernel/list.c:188-214 | a task that leaves its ready list changes nobody else's turn |
| `SchedulerTime.DrainWakesDue` | FreeRTOS-Kernel/tasks.c:2760-2832 | the unblocking loop readies exactly the tasks whose wake value is reached, drops exactly those, and caches the next head |
| `SchedulerTime.SwitchedListIsEmpty` | FreeRTOS-Kernel/tasks.c:201-213 | the delayed list is empty whenever the lists are switched, as the assertion at line 206 demands |
| `SchedulerTime.TurnIsSilent` | FreeRTOS-Kernel/tasks.c:2741-2757 | advancing the tick and switching the lists on a wrap changes no absolute wake time |
| `SchedulerTime.GateSkipsNothing` | FreeRTOS-Kernel/tasks.c:2759-2763 | skipping the loop while the tick is below the cached unblock time skips no due task |
| `SchedulerTime.TickWakesDue` | FreeRTOS-Kernel/tasks.c:2727-2837 | one processed tick readies exactly the tasks due at the new absolute time, across a wrap as well |
| `SchedulerTime.TickKeeps` | FreeRTOS-Kernel/tasks.c:2727-2837 | a processed tick keeps the lists consistent, wake values ahead of the clock and the cache not stale-high |
| `SchedulerTime.WakesAhead` | FreeRTOS-Kernel/tasks.c:2748-2793 | in every consistent state each sleeping task's absolute wake time lies ahead of the clock |
| `SchedulerSteps.PendedTicksJump` | FreeRTOS-Kernel/tasks.c:2266-2297 | processing k held-back ticks one by one has the effect of one jump by k, wraps included |
| `SchedulerSteps.FlushWakes` | FreeRTOS-Kernel/tasks.c:2231-2264 | emptying the pending-ready list readies exactly those tasks and removes their wake times |
| `SchedulerSteps.ResumeIsOneShot` | FreeRTOS-Kernel/tasks.c:2211-2320 | the outermost resume reaches the one-shot result: time advanced by the pended ticks, exactly the pending and the due tasks readied, no pended tick left |
| `SchedulerSteps.ResumeCachesNext` | FreeRTOS-Kernel/tasks.c:2254-2264 | a resume that moves a task leaves the cached unblock time exact, and one that moves none keeps it exact |
| `SchedulerSteps.BlockWakes` | FreeRTOS-Kernel/tasks.c:5301-5372 | blocking the current task removes its old wake time, adds the new absolute one, or none for an indefinite block |
| `SchedulerSteps.UnlistWakes` | FreeRTOS-Kernel/tasks.c:3174-3239 | taking a task off its state list removes its wake time and no other |
| `SchedulerMoves.EventWakeOk` | FreeRTOS-Kernel/tasks.c:3174-3239 | a task removed from an event list is readied, or held on the pending-ready list if the scheduler is suspended, with a yield left pending if it outranks; consistency, the clock and all other tasks are kept |
| `SchedulerMoves.WakeOrder` | FreeRTOS-Kernel/tasks.c:3205-3240 | so does every task that is woken |
| `SchedulerMoves.UnorderedWakeOk` | FreeRTOS-Kernel/tasks.c:3242-3288 | a task released by an event group is readied at once, with a yield left pending if it outranks; the rest is kept |
| `SchedulerMoves.AbortDelayOk` | FreeRTOS-Kernel/tasks.c:2649-2721 | a task that sleeps, or is parked waiting for an event, and does not run is readied and told if it waited for an event, with a yield left pending if it outranks; any other is left alone; the rest is kept |
| `SchedulerMoves.SuspendTaskOk` | FreeRTOS-Kernel/tasks.c:1707-1806 | the task ends on the suspended list, waits for no event, and the cached unblock time is that of the next sleeper; the rest is kept |
| `SchedulerMoves.ResumeTaskOk` | FreeRTOS-Kernel/tasks.c:1859-1906 | a task that is suspended and waits for no event is readied, unless it runs, and a switch is asked for exactly if it is of at least the running priority; any other is left alone; the rest is kept |
| `SchedulerMoves.ResumeFromIsrOk` | FreeRTOS-Kernel/tasks.c:1913-1983 | the same from an interrupt, through the pending-ready list if the scheduler is suspended; a yield is left pending exactly if one was or the task is readied with at least the running priority |
| `SchedulerMoves.SetPrioOk` | FreeRTOS-Kernel/tasks.c:1622-1683 | a ready task moves to the list of its new priority, any other stays where it is; the rest is kept |
| `SchedulerMoves.PrioritySetExactly` | FreeRTOS-Kernel/tasks.c:1622-1683 | whatever it holds, the task gets the capped base priority; it runs on it unless it ran on another than its base; held count, event and list follow |
| `SchedulerMoves.SetAsksExactly` | FreeRTOS-Kernel/tasks.c:1568-1613 | a switch is asked for if and only if another task's base is raised to at least the running priority or the running task's is lowered |
| `SchedulerMoves.InheritExactly` | FreeRTOS-Kernel/tasks.c:4065-4150 | the holder ends at the larger of its priority and that of the task about to wait, in the ready list of it; the result says whether it runs on more than its base for that task |
| `SchedulerMoves.DisinheritExactly` | FreeRTOS-Kernel/tasks.c:4155-4228 | with its last mutex the holder is back at its base priority, in the ready list of it; with another left it keeps the one it has |
| `SchedulerMoves.AfterTimeoutExactly` | FreeRTOS-Kernel/tasks.c:4235-4334 | a holder of one mutex ends at the larger of its base and what still waits, in the ready list of it; a holder of several is left alone |
| `SchedulerMoves.SetSwitchesEnough` | FreeRTOS-Kernel/tasks.c:1568-1613 | if setting a priority asks for no context switch, the running task is still outranked by no ready task |
| `SchedulerMoves.SelectPicksHighest` | FreeRTOS-Kernel/tasks.c:138-151 | the downward search ends at a non-empty list without underflow; the chosen task is ready and no ready task has a higher priority |
| `SchedulerMoves.SelectRotates` | FreeRTOS-Kernel/tasks.c:138-151 | ready tasks of equal priority take turns: the chosen one goes to the back of its visiting order |
| `SchedulerMoves.SelectChangesOnly` | FreeRTOS-Kernel/tasks.c:3012-3065 | a switch changes which task runs and whose turn is next, and a yield that was pending is done with |
| `SchedulerRuns.BootOk` | FreeRTOS-Kernel/tasks.c:3657-3686 | the initial lists with the idle task are consistent, at absolute time zero |
| `SchedulerRuns.StepOk` | FreeRTOS-Kernel/tasks.c:2727-2837 | every operation moves the clock by exactly the ticks it processes, keeps ready tasks and sleepers it does not disturb, and readies those due |
| `SchedulerRuns.RunKeeps` | FreeRTOS-Kernel/tasks.c:1622-1683 | in every reachable state the lists are consistent: a task in ready list p has priority p, the recorded top priority bounds all ready lists, and tick and overflow count show the absolute time |
| `SchedulerRuns.DelayIsKept` | FreeRTOS-Kernel/tasks.c:5301-5372 | a task that blocks for d ticks, at any tick value, still sleeps after any undisturbed run that processes fewer than d ticks |
| `SchedulerRuns.DelayIsExact` | FreeRTOS-Kernel/tasks.c:2727-2837 | it is ready after the step that processes the d-th tick, whether a tick interrupt or a resume |
| `SchedulerRuns.DelayFromBoot` | FreeRTOS-Kernel/tasks.c:5301-5372 | an instance from the start state: the running task blocks for one tick and the next tick readies it |
| `SchedulerRuns.SleepsTillThen` | FreeRTOS-Kernel/tasks.c:2766-2793 | a sleeping task sleeps as long as the processed time is before its wake time |
| `SchedulerRuns.WakesThen` | FreeRTOS-Kernel/tasks.c:2766-2832 | the step that reaches its wake time readies it |
| `SchedulerRuns.SleepsOrIsReady` | FreeRTOS-Kernel/tasks.c:2766-2832 | at the end of every undisturbed run a sleeping task still sleeps or is ready, decided by the processed time alone |
| `SchedulerRuns.SwitchAlwaysFinds` | FreeRTOS-Kernel/tasks.c:3012-3065 | with the idle task ready and undisturbed, in every reachable state a switch finds a task and picks a ready one of maximal priority |
| `SchedulerRuns.ResumeUndoesSuspend` | FreeRTOS-Kernel/tasks.c:2127-2145 | with nothing held back, a resume undoes a suspend at every nesting depth |
| `SchedulerRuns.SwitchIsHeld` | FreeRTOS-Kernel/tasks.c:3014-3020 | a switch asked for while the scheduler is suspended is left pending, changes nothing else, and is still pending after the resume |
| `SchedulerRuns.StepConservesTicks` | FreeRTOS-Kernel/tasks.c:2883-2885 | modulo the tick range, tick count plus pended ticks grow by exactly the ticks that arrive with the step |
| `SchedulerRuns.RunConservesTicks` | FreeRTOS-Kernel/tasks.c:2629-2644 | over every run tick count plus pended ticks equals all ticks that arrived, modulo the tick range |
| `SchedulerRuns.StepCountsTicks` | FreeRTOS-Kernel/tasks.c:2883-2885 | no step processes or holds back more ticks than arrive; it loses some if and only if it does not process the tick that arrives and takes the pended count to the tick range |
| `SchedulerRuns.RunCountsTicks` | FreeRTOS-Kernel/tasks.c:2266-2297 | over a run, ticks processed plus ticks held back equal those pended before plus those that arrived if and only if no step loses any; they are never more |
| `SchedulerRuns.FewTicksAreKept` | FreeRTOS-Kernel/tasks.c:2629-2644 | fewer ticks than the tick range are never lost, however long they are held back |
| `SchedulerRuns.DelayCountsArrivals` | FreeRTOS-Kernel/tasks.c:2727-2892 | a task that blocks for d ticks is never ready before d ticks have arrived, pended ones included; in a run that loses none it is ready if and only if d have arrived and are not held back any more |
| `SchedulerRuns.TurnIsLost` | FreeRTOS-Kernel/tasks.c:2883-2885 | a run from the start in which a whole tick range arrives under suspension and nothing of it is processed or held back |
| `SchedulerSwitches.TickServes` | FreeRTOS-Kernel/tasks.c:2811-2881 | a tick after which a ready task outranks the running one asks for a switch |
| `SchedulerSwitches.TickAsksExactly` | FreeRTOS-Kernel/tasks.c:2811-2881 | a processed tick asks for a switch if and only if a yield was pending, it readied a sleeper of at least the running priority, or two tasks of that priority are ready; a held-back tick asks for none |
| `SchedulerSwitches.ResumeServes` | FreeRTOS-Kernel/tasks.c:2245-2304 | a resume after which a ready task outranks the running one leaves a switch pending |
| `SchedulerSwitches.ResumeAsksExactly` | FreeRTOS-Kernel/tasks.c:2231-2304 | a resume leaves a switch pending if and only if one was, or a task it moved has at least the running priority, or with ticks to process these readied such a sleeper or two tasks of that priority are ready |
| `SchedulerSwitches.StepServes` | FreeRTOS-Kernel/tasks.c:3012-3065 | after every operation no ready task outranks the running one, or a switch is pending, or the operation asked for one, gives of a mutex and time-out adjustments being subject to the conditions of the rows below; a switch restores it |
| `SchedulerSwitches.GivenShape` | FreeRTOS-Kernel/queue.c:881-930 | what a give makes of the giver's priority, of the others and of the yield pending, and exactly when it asks for a switch |
| `SchedulerSwitches.GiveServesExactly` | FreeRTOS-Kernel/queue.c:899-930 | a give of a mutex asks for a switch for the task it wakes, or for its own drop in priority only if nobody waits; that is enough if and only if nobody waits, or the giver keeps its priority, or the woken task outranks it, or no other ready task does |
| `SchedulerSwitches.TimeoutServesExactly` | FreeRTOS-Kernel/tasks.c:4251-4275 | adjusting a holder's priority after a time-out asks for no switch; that is right if and only if the holder holds several mutexes, or it is not the running task and does not end above it while ready, or it is the running task and does not end below another ready one |
| `SwitchRuns.GiveIsSilent` | FreeRTOS-Kernel/queue.c:899-930 | a run from the start, every switch asked for being made, to a give after which a ready task outranks the running one, no switch is pending or asked for, and the next tick asks for none |
| `SwitchRuns.TimeoutIsSilent` | FreeRTOS-Kernel/tasks.c:4251-4275 | a run from the start, every switch asked for being made, to a time-out adjustment that leaves the raised holder above the running task with no switch pending or asked for |
| `TimeOuts.DelayUntilExact` | FreeRTOS-Kernel/tasks.c:1250-1330 | a call blocks if and only if the next period lies ahead in absolute time, and for exactly the ticks that are left |
| `TimeOuts.ReferencesDoNotDrift` | FreeRTOS-Kernel/tasks.c:1271-1316 | after n calls the reference is the first one plus n periods, whatever wrapped and whether or not calls blocked |
| `TimeOuts.PeriodIsExact` | FreeRTOS-Kernel/tasks.c:1250-1330 | a periodic task sleeps until exactly its next period |
| `TimeOuts.PeriodFromBoot` | FreeRTOS-Kernel/tasks.c:1250-1330 | an instance from the start state |
| `TimeOuts.CheckIsExact` | FreeRTOS-Kernel/tasks.c:3311-3373 | with at most one overflow between samples expiry is reported if and only if the wait has elapsed, and what remains is exact |
| `TimeOuts.CheckIsRightExactly` | FreeRTOS-Kernel/tasks.c:3345-3364 | without that bound the report is right if and only if less than a turn has passed, or the tick is not below the starting one, or the wait has elapsed even modulo the tick range |
| `TimeOuts.LateCheckIsWrong` | FreeRTOS-Kernel/tasks.c:3345-3364 | an instance of the failing side: a wait of two ticks, looked at a turn and a tick after it began, is reported as still running |
| `TimeOuts.IndefiniteNeverExpires` | FreeRTOS-Kernel/tasks.c:3335-3343 | over any sequence of checks, however late, an indefinite wait is never reported expired and stays indefinite |
| `TimeOuts.OnlyIndefiniteNeverExpires` | FreeRTOS-Kernel/tasks.c:3335-3373 | no sequence of checks reports a wait expired if and only if it is the indefinite one |
| `TimeOuts.RetriesAddUp` | FreeRTOS-Kernel/queue.c:949-972 | over any number of retries remaining wait plus elapsed time equals the original wait until the first expiry, and no expiry is missed or early |
| `Kernel.Kernel.AddTaskToReadyList` | FreeRTOS-Kernel/tasks.c:221-225 | the recorded top priority and the ready list change as the scheduler model says |
| `Kernel.Kernel.ResetNextTaskUnblockTime` | FreeRTOS-Kernel/tasks.c:3997-4015 | the cache becomes the head of the delayed list or the maximum |
| `Kernel.Kernel.UnblockDueTasks` | FreeRTOS-Kernel/tasks.c:2765-2832 | the loop acts on the whole state as the model's drain, and reports a task of at least the current priority |
| `Kernel.Kernel.IncrementTick` | FreeRTOS-Kernel/tasks.c:2727-2892 | the whole state becomes the model's after a tick; a switch is required if and only if a yield is pending, a woken task is of at least the current priority, or two tasks of that priority are ready |
| `Kernel.Kernel.AddCurrentTaskToDelayedList` | FreeRTOS-Kernel/tasks.c:5301-5372 | the whole state becomes the model's after blocking |
| `Kernel.Kernel.DelayUntil` | FreeRTOS-Kernel/tasks.c:1250-1320 | the decision, the new reference and the block entered |
| `Kernel.Kernel.CheckTimeOut` | FreeRTOS-Kernel/tasks.c:3311-3373 | an aborted delay is reported once as expired; otherwise the modelled check |
| `Kernel.Kernel.RemoveFromEventList` | FreeRTOS-Kernel/tasks.c:3174-3239 | readied or put on the pending-ready list, with the higher-priority flag |
| `Kernel.Kernel.RemoveFromUnorderedEventList` | FreeRTOS-Kernel/tasks.c:3242-3288 | readied at once, a yield left pending if it outranks |
| `Kernel.Kernel.Suspend` | FreeRTOS-Kernel/tasks.c:1707-1806 | taken off its state and event lists and put on the suspended list; the cache is refreshed |
| `Kernel.Kernel.Abort` | FreeRTOS-Kernel/tasks.c:2649-2721 | a blocked task is readied and told that its delay was aborted; others are left alone |
| `Kernel.Kernel.ResumeSuspended` | FreeRTOS-Kernel/tasks.c:1859-1906 | only a truly suspended task is readied; a switch is asked for exactly if it is of at least the current priority |
| `Kernel.Kernel.ResumeSuspendedFromIsr` | FreeRTOS-Kernel/tasks.c:1913-1983 | likewise from an interrupt; a switch is required exactly if it is of at least the current priority and the scheduler runs |
| `Kernel.Kernel.SetPriority` | FreeRTOS-Kernel/tasks.c:1541-1690 | the base is capped and set, with the move between ready lists; the whole state and the switch asked for are those of the model, which `PrioritySetExactly` and `SetAsksExactly` spell out |
| `Kernel.Kernel.InheritPriority` | FreeRTOS-Kernel/tasks.c:4065-4150 | raised to the current task's priority if lower, with the move between ready lists; true exactly if the holder runs on an inherited priority |
| `Kernel.Kernel.DisinheritPriority` | FreeRTOS-Kernel/tasks.c:4155-4228 | back to base with the last mutex |
| `Kernel.Kernel.GiveMutex` | FreeRTOS-Kernel/queue.c:881-930 | disinheriting and then waking the first waiting task make the state the model's; a switch is asked for exactly if the woken task outranks, or nobody waits and the priority dropped |
| `Kernel.Kernel.DisinheritAfterTimedOut` | FreeRTOS-Kernel/tasks.c:4235-4334 | down to the larger of base and highest waiting, if one mutex is held |
| `Kernel.Kernel.SwitchToNext` | FreeRTOS-Kernel/tasks.c:3012-3065 | the search loop stays above a non-empty list and its result is the model's choice; a suspended scheduler only records the yield |
| `Kernel.Kernel.SuspendAll` | FreeRTOS-Kernel/tasks.c:2127-2145 | the nesting depth grows by one and nothing else changes |
| `Kernel.Kernel.MovePendingTasks` | FreeRTOS-Kernel/tasks.c:2235-2252 | the loop over the pending-ready list acts as the model's |
| `Kernel.Kernel.ProcessPendedTicks` | FreeRTOS-Kernel/tasks.c:2270-2289 | the loop over the pended ticks acts as the model's, and the count ends at zero |
| `Kernel.Kernel.ResumeAll` | FreeRTOS-Kernel/tasks.c:2211-2320 | the whole state becomes the model's after a resume; a yield is reported exactly if one was pending at the outermost level |
| `Mutexes.StepAccounts` | FreeRTOS-Kernel/queue.c:1532-1553 | every step keeps the books, the exit without withdrawing included: counts and holders agree, held counts are the numbers of mutexes held, waiting lists hold exactly the blocked tasks |
| `Mutexes.RunAccounts` | FreeRTOS-Kernel/tasks.c:1622-1639 | in every reachable state, whatever priorities are set, the held count is the number of mutexes held, a count is zero if and only if there is a holder, and a task that holds none runs at its base priority |
| `Mutexes.HolderHolds` | FreeRTOS-Kernel/tasks.c:4166-4168 | the held count of a holder is positive, as the assertions at lines 4167 and 4246 demand |
| `Mutexes.EnqueuedRises` | FreeRTOS-Kernel/list.c:117-185 | a waiting list stays sorted by event item value when a task joins it |
| `Mutexes.CalmTake` | FreeRTOS-Kernel/queue.c:1532-1553 | taking a mutex when no ready task outranks the taker keeps inversion bounded, through the task in flight for it |
| `Mutexes.CalmBlock` | FreeRTOS-Kernel/queue.c:1620-1646 | blocking lends the priority to the holder and keeps inversion bounded |
| `Mutexes.CalmGive` | FreeRTOS-Kernel/queue.c:2166-2186 | giving back and waking the head keeps inversion bounded, for the other mutexes held as well |
| `Mutexes.CalmWithdraw` | FreeRTOS-Kernel/queue.c:1676-1696 | a time-out lowers the holder no further than what still waits for its mutex; how far exactly is `MutexSteps.WithdrawsExactly` |
| `Mutexes.HeadTops` | FreeRTOS-Kernel/queue.c:2134-2154 | the priority read off the head of a waiting list is the highest that waits |
| `Mutexes.StepCalms` | FreeRTOS-Kernel/tasks.c:4065-4334 | every disciplined step keeps the bound: a task may be suspended anywhere but when it is about to try for a mutex that nobody holds |
| `Mutexes.InversionIsBounded` | FreeRTOS-Kernel/tasks.c:4065-4334 | in every state a disciplined run reaches, a holder's priority is at least that of every task waiting for its mutex, time-outs and hand-overs included |
| `Mutexes.TakeBoundsExactly` | FreeRTOS-Kernel/queue.c:1522-1553 | taking a free mutex, at first or on a retry, and whether or not anybody else is on the way to take it, keeps the bound if and only if the taker is not outranked by the first waiting task |
| `Mutexes.WithdrawAssertionExactly` | FreeRTOS-Kernel/tasks.c:4263-4273 | the assertion at line 4273 fails for a task that gives up if and only if what it waited for is the only mutex it holds and its priority is not the larger of its base and the highest waiting |
| `Mutexes.NeverWithdrawsFromItself` | FreeRTOS-Kernel/tasks.c:4270-4273 | it never fails in a disciplined run |
| `Mutexes.LastTryAssertionExactly` | FreeRTOS-Kernel/queue.c:1576-1594 | after a time-out that sees the mutex free and any steps of others, the assertion at line 1585 holds if and only if nothing was lent or nobody has taken the mutex |
| `MutexSteps.TakesExactly` | FreeRTOS-Kernel/queue.c:1529-1570 | a free mutex taken at first or on a retry has the taker as its holder and a count of one less; the taker holds one more and is back in ordinary code; nobody else changes |
| `MutexSteps.FindsTakenExactly` | FreeRTOS-Kernel/queue.c:1572-1606 | a task that finds the mutex taken prepares to wait, or returns if it may not or its time is up |
| `MutexSteps.BlocksExactly` | FreeRTOS-Kernel/queue.c:1620-1656 | the waiter joins behind all of at least its priority; the holder ends at the larger of both priorities; the waiter remembers whether it lends |
| `MutexSteps.ExpiresExactly` | FreeRTOS-Kernel/queue.c:1660-1705 | a wait that is over leads to another try if the mutex is free, and else to a return, by way of withdrawing if something was lent |
| `MutexSteps.TimesOutExactly` | FreeRTOS-Kernel/queue.c:1640-1656 | a time-out takes its task off the list, and nothing else changes |
| `MutexSteps.WithdrawsExactly` | FreeRTOS-Kernel/queue.c:1676-1696 | a holder of this mutex alone ends at the larger of its base and the priority of the first still waiting; everybody else keeps the priority they have |
| `MutexSteps.WithdrawsToHighest` | FreeRTOS-Kernel/queue.c:2134-2154 | in calm states that is the larger of its base and the highest priority in the whole waiting list |
| `MutexSteps.GivesExactly` | FreeRTOS-Kernel/queue.c:881-930 | a give frees the mutex, puts the giver back at its base if it was its last, and sends the first waiting task to try again |
| `MutexSteps.GiveAsksExactly` | FreeRTOS-Kernel/queue.c:899-930 | a give asks for a switch exactly if the task it wakes outranks the giver as it is then, or nobody waits and the giver has dropped |
| `MutexSteps.MovesExactly` | FreeRTOS-Kernel/tasks.c:1707-1806 | a task that is suspended leaves the list it waits on; one that returns goes on where it was |
| `MutexSteps.SetsExactly` | FreeRTOS-Kernel/tasks.c:1622-1639 | the base priority is set, and the task runs on it unless it runs on another than its base |
| `MutexSteps.StepJustifies` | FreeRTOS-Kernel/tasks.c:4065-4334 | every disciplined step with one mutex at a time keeps each holder on its base priority or that of a task that lends it |
| `MutexSteps.LentIsGivenBack` | FreeRTOS-Kernel/tasks.c:4065-4334 | in every state a disciplined run reaches with one mutex at a time, a holder runs on its base priority or on that of a task still lending it, and on its base if nobody does |
| `MutexRuns.SelfWithdrawal` | FreeRTOS-Kernel/tasks.c:4263-4273 | a run from a start after which a task is about to withdraw a lent priority from itself, so that the assertion at line 4273 fails |
| `MutexRuns.LastTryLost` | FreeRTOS-Kernel/queue.c:1576-1594 | a disciplined run from a start after which the assertion at line 1585 fails |
| `MutexRuns.SuspendedInFlight` | FreeRTOS-Kernel/queue.c:1522-1553 | a disciplined run from a start, the suspension of a task about to take a free mutex, and a disciplined take after which the holder is below a waiting task |
| `MutexRuns.DroppedRequest` | FreeRTOS-Kernel/queue.c:899-930 | a disciplined run from a start to a state in which a task keeps a priority nobody lends any more, and a give there that leaves the giver below a ready task and asks for no switch |
| `QueueStorage.PutRefines` | FreeRTOS-Kernel/queue.c:2159-2239 | copying in appends, prepends or, in a queue of length one, replaces |
| `QueueStorage.TakeRefines` | FreeRTOS-Kernel/queue.c:2242-2260 | copying out yields the oldest message and leaves the others in order |
| `QueueStorage.SlotWritten` | FreeRTOS-Kernel/queue.c:2189-2205 | writing one slot's bytes changes that slot only, for every length and item size |
| `QueueStorage.FirstInFirstOut` | FreeRTOS-Kernel/queue.c:1743-1758 | over every sequence of back sends, receives and peeks on a deque, received followed by left equals initial followed by accepted |
| `QueueStorage.RingRefines` | FreeRTOS-Kernel/queue.c:2159-2260 | over every sequence of sends to the back, to the front and over what is there, receives and peeks, the ring of slots accepts, hands out, shows and keeps what the deque does |
| `QueueStorage.RingKeepsOrder` | FreeRTOS-Kernel/queue.c:2159-2260 | so a ring written at the back only is first in, first out |
| `QueueStorage.Queue.constructor` | FreeRTOS-Kernel/queue.c:274-286 | a new queue is empty |
| `QueueStorage.Queue.CopyDataToQueue` | FreeRTOS-Kernel/queue.c:2159-2239 | the byte buffer and both pointers become those of the ring of slots after the copy |
| `QueueStorage.Queue.CopyDataFromQueue` | FreeRTOS-Kernel/queue.c:2242-2260 | the read pointer moves on, wraps, and the slot's bytes are returned |
| `QueueStorage.Queue.Send` | FreeRTOS-Kernel/queue.c:825-890 | succeeds exactly if there is room or it overwrites, with the deque's result |
| `QueueStorage.Queue.Receive` | FreeRTOS-Kernel/queue.c:1380-1415 | the oldest message, or nothing from an empty queue |
| `QueueStorage.Queue.Peek` | FreeRTOS-Kernel/queue.c:1743-1790 | the oldest message is copied and nothing changes |
| `QueueWakeups.AttemptKeeps` | FreeRTOS-Kernel/queue.c:825-945 | a send, receive or peek attempt keeps the matching invariant on both sides |
| `QueueWakeups.PlaceKeeps` | FreeRTOS-Kernel/queue.c:955-975 | joining a waiting list after the check under the lock keeps it, whatever interrupts did since the check |
| `QueueWakeups.UnlockKeeps` | FreeRTOS-Kernel/queue.c:2263-2380 | an unlock wakes the first waiting tasks, as many as events were counted or all there are, and keeps the matching invariant |
| `QueueWakeups.IsrKeeps` | FreeRTOS-Kernel/queue.c:1050-1177 | a send or receive in an interrupt keeps it, locked or not |
| `QueueWakeups.StepKeeps` | FreeRTOS-Kernel/queue.c:251-263 | every step that bumps no counter at its limit keeps the invariant |
| `QueueWakeups.NoLostWakeUp` | FreeRTOS-Kernel/queue.c:251-263 | in every state a new queue can reach without a counter bumped at its limit and with a reader waiting, messages do not outnumber woken readers that have not run and events counted under the lock; likewise for free places and writers |
| `QueueWakeups.QuietMeansNothingToDo` | FreeRTOS-Kernel/queue.c:2263-2380 | after such a run, with nothing in flight and the queue unlocked, blocked readers mean an empty queue and blocked writers a full one |
| `QueueWakeups.CountedIsPaidExactly` | FreeRTOS-Kernel/queue.c:1150-1160 | an event counted under the lock is paid out at the unlock if and only if the counter was not at 127; there it turns negative and wakes nobody |
| `QueueWakeups.WakeUpIsLost` | FreeRTOS-Kernel/queue.c:1150-1168 | a run from a new queue that bumps a counter at its limit and ends with nothing in flight, a message stored and a reader waiting for it |
| `QueueSteps.AttemptsExactly` | FreeRTOS-Kernel/queue.c:825-945 | an attempt succeeds exactly if there is a message, a place or it overwrites; then the count changes accordingly and the first task waiting on the right side is woken; otherwise the task prepares to wait or returns |
| `QueueSteps.LooksExactly` | FreeRTOS-Kernel/queue.c:955-975 | entering locks what was unlocked; the look under the lock decides between waiting, looping and returning |
| `QueueSteps.PlacesExactly` | FreeRTOS-Kernel/queue.c:955-975 | the task joins the list of its own side and no other |
| `QueueSteps.TimesOutExactly` | FreeRTOS-Kernel/queue.c:976-1010 | a time-out takes its task off the list and does nothing else |
| `QueueSteps.UnlocksExactly` | FreeRTOS-Kernel/queue.c:2263-2380 | each half of an unlock wakes the first waiting tasks of its side, as many as events were counted or all, and unlocks it |
| `QueueSteps.InterruptsExactly` | FreeRTOS-Kernel/queue.c:1050-1177 | an interrupt sends or receives exactly if it can; an unlocked side has its first task woken, a locked one its counter bumped |
| `QueueSteps.RunConserves` | FreeRTOS-Kernel/queue.c:825-945 | over every run, messages left and taken out make up those there were and those put in |
| `QueueSteps.FewInterruptsLoseNothing` | FreeRTOS-Kernel/queue.c:1150-1168 | in a run of a new queue with at most 127 interrupts, with nothing in flight blocked readers mean an empty queue and blocked writers a full one |
| `QueueWakeups.Events.LockQueue` | FreeRTOS-Kernel/queue.c:251-263 | both counters are set to zero if they were unlocked |
| `QueueWakeups.Events.UnlockTxSide` | FreeRTOS-Kernel/queue.c:2272-2344 | the loop wakes readers as modelled and unlocks |
| `QueueWakeups.Events.UnlockRxSide` | FreeRTOS-Kernel/queue.c:2347-2379 | the loop wakes writers as modelled and unlocks |
| `QueueWakeups.Events.SendFromIsr` | FreeRTOS-Kernel/queue.c:1050-1177 | sends if there is room or overwriting, and wakes or counts |
| `QueueWakeups.Events.ReceiveFromIsr` | FreeRTOS-Kernel/queue.c:1891-1953 | receives if there is a message, and wakes or counts |
| `Timers.DecideExact` | FreeRTOS-Kernel/timers.c:710-751 | in absolute time: processed now if and only if the expiry has passed, otherwise on the list of the epoch it falls in, for commands up to a turn old |
| `Timers.DueShrinks` | FreeRTOS-Kernel/timers.c:517-533 | catching up gets nearer to now with every callback, so it ends |
| `Timers.ReloadCatchesUp` | FreeRTOS-Kernel/timers.c:517-533 | a reload makes one callback per expiry that has passed and lists the timer for the first that has not |
| `Timers.ExpireHeadOnCourse` | FreeRTOS-Kernel/timers.c:536-559 | expiring the head keeps every timer on course |
| `Timers.ReloadAtEnd` | FreeRTOS-Kernel/timers.c:902-924 | while lists are switched a reload never goes back on the list being drained |
| `Timers.DrainKeeps` | FreeRTOS-Kernel/timers.c:902-917 | draining ends with the old list empty and everything in order |
| `Timers.SwitchOnCourse` | FreeRTOS-Kernel/timers.c:902-924 | switching moves overflow timers into the epoch that becomes current and keeps every timer on course |
| `Timers.SampleKeeps` | FreeRTOS-Kernel/timers.c:687-707 | sampling at most a turn later switches the lists if and only if the tick has wrapped |
| `Timers.PassOnCourse` | FreeRTOS-Kernel/timers.c:598-657 | a pass of the daemon keeps every timer on course |
| `Timers.StartedOnCourse` | FreeRTOS-Kernel/timers.c:818-844 | a start command, however stale within a turn, makes up for passed expiries and puts the timer on course from its command time |
| `Timers.ChangedOnCourse` | FreeRTOS-Kernel/timers.c:852-868 | a changed timer is on course from the moment the command is handled |
| `Timers.ZeroPeriodIsLost` | FreeRTOS-Kernel/timers.c:852-868 | after a change of period a timer is active exactly if it is listed, if and only if the new period is positive; a zero period, whose verdict is ignored, leaves it active and on no list |
| `Timers.TimersKeepTime` | FreeRTOS-Kernel/timers.c:517-559 | in every later state, after n callbacks an auto-reload timer is listed for start plus n + 1 periods and no callback was early; a one-shot timer fires once |
| `TimerCommands.StartedTimersKeepTime` | FreeRTOS-Kernel/timers.c:818-844 | after a start, in every later state without a command on it, an auto-reload timer that made n callbacks is listed for start plus n + 1 of the periods it had, and no callback was early; a one-shot timer fires once |
| `TimerCommands.ChangesPeriod` | FreeRTOS-Kernel/timers.c:852-868 | a change of period to p leaves the timer active with period p, its other settings and its callbacks as they were, and on course from the handling time |
| `TimerCommands.ChangedTimersKeepTime` | FreeRTOS-Kernel/timers.c:852-868 | after it, in every later state without a command on it, an auto-reload timer that made n callbacks is listed for the handling time plus (n + 1) times p |
| `TimerCommands.RunSettings` | FreeRTOS-Kernel/timers.c:517-559 | no run changes period, reload mode or kind of a timer without a command on it |
| `TimerCommands.StopsExactly` | FreeRTOS-Kernel/timers.c:846-850 | a stopped timer is dormant and on no list, and nothing else of it changes |
| `TimerCommands.DeletesExactly` | FreeRTOS-Kernel/timers.c:870-890 | a deleted timer is gone, or dormant if its memory is not the kernel's, and on no list |
| `TimerCommands.DormantStays` | FreeRTOS-Kernel/timers.c:517-559 | a dormant timer stays as it is and makes no callback in every run without a command on it |
| `TimerCommands.DaemonCatchesUp` | FreeRTOS-Kernel/timers.c:598-643 | at one time the daemon makes one pass for each timer due and then blocks; a timer on course has then made exactly the callbacks whose times have passed |
| `TimerCommands.TimerFires` | FreeRTOS-Kernel/timers.c:536-559 | an instance from the empty service: a timer of period one is created and started, and has made one callback after the pass at time one |
| `Timers.BlockedHasFiredExactly` | FreeRTOS-Kernel/timers.c:620-643 | a daemon that blocks has made exactly the callbacks whose times have passed |
| `Timers.DaemonWaitsExactly` | FreeRTOS-Kernel/timers.c:620-638 | after every run of the service, a daemon that blocks waits for ever if and only if no timer is listed, and otherwise for at least one tick and less than a turn, until exactly the first expiry if that lies in this epoch and else to the end of it, before every listed expiry |
| `Timers.TimerFromFresh` | FreeRTOS-Kernel/timers.c:818-844 | an instance from the empty service: a timer is created and started, and the daemon blocks |
| `Timers.ActiveIffListed` | FreeRTOS-Kernel/timers.c:787-897 | at every step boundary of every run from the empty service a timer is active if and only if it is on one of the two lists |
| `Timers.TimerService.InsertTimerInActiveList` | FreeRTOS-Kernel/timers.c:710-751 | the modelled decision and insertion |
| `Timers.TimerService.ReloadTimer` | FreeRTOS-Kernel/timers.c:517-533 | the loop acts as the modelled reload |
| `Timers.TimerService.ProcessExpiredTimer` | FreeRTOS-Kernel/timers.c:536-559 | the head is removed, reloaded or made dormant, and its callback made |
| `Timers.TimerService.SwitchTimerLists` | FreeRTOS-Kernel/timers.c:902-924 | the loop drains the current list and the lists are swapped |
| `Timers.TimerService.SampleTimeNow` | FreeRTOS-Kernel/timers.c:687-707 | lists are switched exactly if the tick is below the last sample |
| `Timers.TimerService.ProcessTimerOrBlockTask` | FreeRTOS-Kernel/timers.c:598-683 | the modelled pass; blocks exactly if nothing is due and nothing was switched, for the modelled number of ticks or for ever |
| `Timers.TimerService.ProcessCommand` | FreeRTOS-Kernel/timers.c:754-898 | the timer is taken off its list, time sampled, and the command carried out as modelled |
| `Timers.TimerService.StartCommand` | FreeRTOS-Kernel/timers.c:818-844 | the start and reset case |
| `StreamBuffers.WriteIsUnseen` | FreeRTOS-Kernel/stream_buffer.c:1140-1183 | bytes written into free space change no unread byte |
| `StreamBuffers.PublishAppends` | FreeRTOS-Kernel/stream_buffer.c:755-759 | publishing the head appends exactly the written bytes |
| `StreamBuffers.ConsumeDrops` | FreeRTOS-Kernel/stream_buffer.c:1186-1227 | publishing the tail drops exactly the bytes read |
| `StreamBuffers.DecodeEncode` | FreeRTOS-Kernel/stream_buffer.c:737-740 | a stored length reads back |
| `StreamBuffers.DecodeTruncates` | FreeRTOS-Kernel/stream_buffer.c:737-740 | a stored length reads back modulo what its type can hold |
| `StreamBuffers.ParseFrames` | FreeRTOS-Kernel/stream_buffer.c:723-762 | the bytes of any messages parse back to exactly those messages |
| `StreamBuffers.FramingExactly` | FreeRTOS-Kernel/stream_buffer.c:723-762 | a message that is not empty parses back from its frame if and only if its length fits the type it is stored in |
| `StreamBuffers.EmptyOrMore` | FreeRTOS-Kernel/stream_buffer.c:882-899 | a message buffer is empty or holds more than a length, as the assertion at line 897 demands |
| `StreamBuffers.StreamBuffer.BytesInBuffer` | FreeRTOS-Kernel/stream_buffer.c:1230-1248 | the number of unread bytes |
| `StreamBuffers.StreamBuffer.SpacesAvailable` | FreeRTOS-Kernel/stream_buffer.c:497-526 | what is free, one byte being kept |
| `StreamBuffers.StreamBuffer.WriteBytesToBuffer` | FreeRTOS-Kernel/stream_buffer.c:1140-1183 | two chunks at most put the data behind the position, modulo the ring, and change nothing else |
| `StreamBuffers.StreamBuffer.ReadBytesFromBuffer` | FreeRTOS-Kernel/stream_buffer.c:1186-1227 | two chunks at most return the bytes from the position on |
| `StreamBuffers.StreamBuffer.WriteMessageToBuffer` | FreeRTOS-Kernel/stream_buffer.c:723-762 | a message is appended whole or not at all, an empty one not at all; a stream takes what fits |
| `StreamBuffers.StreamBuffer.Send` | FreeRTOS-Kernel/stream_buffer.c:672-720 | the same with the space found |
| `StreamBuffers.StreamBuffer.ReadMessageFromBuffer` | FreeRTOS-Kernel/stream_buffer.c:967-1016 | the oldest whole message, or nothing if the caller's buffer is too small, which then changes nothing |
| `StreamBuffers.StreamBuffer.Receive` | FreeRTOS-Kernel/stream_buffer.c:910-964 | the same, with nothing from an empty buffer |
| `StreamBuffers.StreamBuffer.NextMessageLengthBytes` | FreeRTOS-Kernel/stream_buffer.c:870-907 | the length of the oldest message or zero, with the source's assertion proved |
| `StreamProtocol.TargetIsFree` | FreeRTOS-Kernel/stream_buffer.c:1140-1183 | the byte about to be overwritten is never an unread one |
| `StreamProtocol.WriteByteKeeps` | FreeRTOS-Kernel/stream_buffer.c:1140-1183 | copying a byte changes nothing a reader can see |
| `StreamProtocol.PublishKeeps` | FreeRTOS-Kernel/stream_buffer.c:755-759 | publication appends exactly what was planned |
| `StreamProtocol.ConsumeKeeps` | FreeRTOS-Kernel/stream_buffer.c:1008-1013 | what was copied out was the front of what was stored |
| `StreamProtocol.FirstInFirstOut` | FreeRTOS-Kernel/stream_buffer.c:497-526 | for every interleaving of one writer and one reader on a new buffer, bytes received followed by bytes stored equal bytes accepted |
| `StreamProtocol.ReceiveFindsOldest` | FreeRTOS-Kernel/stream_buffer.c:967-1002 | a reader never sees a length without its data |
| `StreamProtocol.MessagesArriveWhole` | FreeRTOS-Kernel/stream_buffer.c:723-762 | for every interleaving on a new message buffer messages arrive whole and in order, and the stored bytes are those of the pending ones and parse to them |
| `StreamProtocol.WriteTakesWhatFits` | FreeRTOS-Kernel/stream_buffer.c:723-762 | a write to a stream buffer that runs to its end appends as much of the data as fits, one byte of the ring being kept |
| `StreamProtocol.MessageGoesWhole` | FreeRTOS-Kernel/stream_buffer.c:723-762 | a message is appended whole if it fits with its length, and else not at all |
| `StreamProtocol.ReadTakesWhatIsThere` | FreeRTOS-Kernel/stream_buffer.c:967-1016 | a read takes what is stored, as far as the caller has room |
| `StreamProtocol.ReceiveTakesOldest` | FreeRTOS-Kernel/stream_buffer.c:967-1016 | a receive takes the oldest message if the caller has room for it, and else leaves it |
| `EventGroups.RequestFaithful` | FreeRTOS-Kernel/event_groups.c:372-388 | an item value carries what a task waits for and how, and does not look unblocked |
| `EventGroups.MatchIsTest` | FreeRTOS-Kernel/event_groups.c:553-590 | the match a set makes against an item value is the test made before a task blocks |
| `EventGroups.WokenExactly` | FreeRTOS-Kernel/event_groups.c:553-613 | the walk wakes exactly the satisfied tasks and keeps the others |
| `EventGroups.ClearsAsked` | FreeRTOS-Kernel/event_groups.c:592-600 | the bits cleared include those of every woken task that asked for it |
| `EventGroups.ClearsOnlyAsked` | FreeRTOS-Kernel/event_groups.c:592-620 | and no others |
| `EventGroups.OrderIrrelevant` | FreeRTOS-Kernel/event_groups.c:553-620 | tasks woken, tasks left and bits cleared do not depend on the order of the waiting list |
| `EventGroups.SetIsExact` | FreeRTOS-Kernel/event_groups.c:533-625 | a set unblocks exactly the tasks satisfied by old bits with new, and returns that value to each; what it leaves is said bit by bit in `EventOutcomes` |
| `EventGroups.FinishReturns` | FreeRTOS-Kernel/event_groups.c:411-455 | an unblocked task returns the one value that satisfied it; a timed-out one the current bits |
| `EventGroups.NobodySatisfiedWaits` | FreeRTOS-Kernel/event_groups.c:317-467 | in every state a new event group can reach no task left on the waiting list has its condition satisfied |
| `EventGroups.RendezvousReleasesAll` | FreeRTOS-Kernel/event_groups.c:212-255 | the last of a rendezvous releases all the others with one value that has the bits, and the bits end cleared |
| `EventOutcomes.MetByAll` | FreeRTOS-Kernel/event_groups.c:672-707 | a condition on all bits holds exactly if none of them is missing |
| `EventOutcomes.MetByAny` | FreeRTOS-Kernel/event_groups.c:672-707 | a condition on any bit holds exactly if one of them is set |
| `EventOutcomes.ExceptClears` | FreeRTOS-Kernel/event_groups.c:488-493 | what clearing leaves has no bit of those cleared, and with them is what there was |
| `EventOutcomes.ClearsExactly` | FreeRTOS-Kernel/event_groups.c:473-498 | the bits given are clear afterwards, and every other one is as it was |
| `EventOutcomes.SetsExactly` | FreeRTOS-Kernel/event_groups.c:533-625 | a waiting task whose condition old bits with new satisfy is off the list with that value, its bits clear if it asked for that; any other goes on waiting |
| `EventOutcomes.SetKeepsOthers` | FreeRTOS-Kernel/event_groups.c:592-620 | a bit that no released task asked to clear is as set as before or as asked for |
| `EventOutcomes.WaitsExactly` | FreeRTOS-Kernel/event_groups.c:339-407 | a satisfied call returns the bits it found and clears its own if asked to; another waits with its request, or returns and changes nothing |
| `EventOutcomes.FinishesExactly` | FreeRTOS-Kernel/event_groups.c:411-460 | an unblocked task clears nothing when it returns; one that timed out returns the bits as they are and, if they satisfy it by now, clears its own if asked to |
| `EventOutcomes.TimesOutExactly` | FreeRTOS-Kernel/event_groups.c:411-425 | a time-out takes its task off the list and nobody else |
| `EventOutcomes.ArrivalWaits` | FreeRTOS-Kernel/event_groups.c:212-240 | an arrival that does not complete a rendezvous sets its bits, releases nobody and waits for all |
| `EventOutcomes.ArrivalCompletes` | FreeRTOS-Kernel/event_groups.c:212-232 | the one that completes it returns all the bits, they end clear, and other bits are as set |
| `EventOutcomes.ArrivalReturns` | FreeRTOS-Kernel/event_groups.c:240-250 | one that may not wait has set its bits and returns what is then set |
| `EventOutcomes.TwoMeet` | FreeRTOS-Kernel/event_groups.c:212-255 | an instance from a new group: two tasks meet on two bits, the first is handed both and the bits end clear |
| `EventGroups.EventGroup.SetBits` | FreeRTOS-Kernel/event_groups.c:533-625 | the walk over the list, with its deferred clearing, produces the modelled set |
| `EventGroups.EventGroup.WaitBits` | FreeRTOS-Kernel/event_groups.c:339-407 | returned at once, or blocked with the request in the item value |
| `EventGroups.EventGroup.Sync` | FreeRTOS-Kernel/event_groups.c:212-255 | the modelled rendezvous step |
| `EventGroups.EventGroup.Resume` | FreeRTOS-Kernel/event_groups.c:411-460 | what is done and returned after blocking |
| `EventGroups.EventGroup.ClearBits` | FreeRTOS-Kernel/event_groups.c:473-498 | the bits as they were are returned, and the given ones cleared |
| `EventGroups.EventGroup.Delete` | FreeRTOS-Kernel/event_groups.c:628-669 | every waiting task is released with a value that looks unblocked and strips to zero, and no other value delivered changes |

## Left out

- Task control blocks are values in a map keyed by task in `Kernel`, `Mutexes` and the wait
  systems, not heap objects with embedded list items; only `KernelList` models links and
  aliasing.  Above it a list is a sequence.
- Task deletion is outside `Mutexes`, and suspending a task that is about to try for a mutex nobody
  holds is outside its disciplined runs; deleting or suspending a woken waiter and
  resetting a queue are outside `QueueWakeups`.
- `Kernel` and `SchedulerMoves` leave out task notifications, so a task blocked indefinitely on
  a notification counts as suspended.
- The event item value of a task that an event group has borrowed is not rewritten by the
  priority functions of the source; `Mutexes` and `Priorities` rewrite it always.
- QueueWakeups.Placed: joins a waiting list at any position, which includes the position by
  priority; the claims do not depend on it.
- Data copied by a send or receive appears in `QueueStorage` only, counts in `QueueWakeups` only.
- Semaphores of item size zero have no storage; they are covered by the counts of `QueueWakeups`
  and by `Mutexes`.
- StreamProtocol.Apply: an empty message, whose length the source writes into free space
  without publishing it, is a step without effect; `StreamBuffers` models the write.
- StreamProtocol.Apply: a writer or reader takes its look at the other's position in one step;
  the reading of a message length is part of that step.
- Blocking, notification and trigger levels of stream buffers, and their reset.
- Lengths plus prefix that overflow `size_t` are excluded by precondition, as the source asserts at
  `stream_buffer.c:568`; the type of a stored length is `size_t`, the default of
  `include/FreeRTOS.h:915-921`.
- The overflow count of the kernel and the held counts are unbounded integers.
- Tick hooks, trace hooks, run-time statistics, names, registries, thread-local storage.
- Queue sets, recursive mutexes, tickless idle: off in this configuration.
- Coroutines repeat the two-list delay mechanism and would add nothing.
- Memory allocation, stack initialisation and context-switch assembly; a yield is a step that
  may switch context.  `portmacro.h` is not part of this model.
- Timer commands issued by pended function calls; the timer queue itself is an ordinary queue.
- The application under `src/`: device input and output.
