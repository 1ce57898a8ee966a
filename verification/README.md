# Verified model of the FreeRTOS kernel used by the Sayma LPC1776 firmware

The firmware vendors the FreeRTOS V7.4.2 kernel. This project models its scheduling core, queues, list
primitives, co-routine scheduler and heap in Dafny, and proves what they promise over every run. Run
`dafny verify dfyconfig.toml` here to check everything.

**Lists.** `XLists` gives the meaning of a kernel list (items in order and a cursor) and proves stable
priority order and round-robin fairness. `IntrusiveLists` is `list.c` itself, on the next and previous
pointers of all lists in one memory, proved against it.

**Tasks.** `Stores` holds all lists, container pointers, item values and priorities; `ReadyLists`,
`DelayLists` and `TaskMoves` are the moves the services consist of. `Kernels` states each critical
section of `tasks.c` as a function on the kernel state; `KernelSteps` and `KernelRuns` prove that each
keeps one invariant, and `KernelMachine` puts them together into runs and refines them to an unbounded
clock with a set of deadlines. Over those runs `KernelControl` counts suspensions and remembered yields,
`KernelFairness` proves round robin, `PeriodicTasks` the absence of drift in vTaskDelayUntil loops, and
`KernelEventOrder`, `KernelEventKeys`, `KernelEventWaits` and `KernelEventRekeys` the order in which
waiting tasks are woken. `TaskKernels` is the same code in its own form, a class whose methods update
the kernel variables in place with the loops of the source; each method is proved equal to its function
in `Kernels`. `Timeouts` covers the timeout check and `TimedWaits` the waits of a blocking call over
runs; `Bitmaps` is the count-leading-zeros selection; `CoRoutines` is the second implementation in
`croutine.c`.

**Queues.** `QueueCores` has the critical sections, `QueueProtocol` interleaves tasks (one program
counter each) with interrupts between critical sections, `QueueDelivery` follows the messages and
`QueueWakes` the wake-ups through those runs, `RingBuffers` and `QueueObjects` are the byte storage and
the queue object, proved against `QueueCores`. `RecursiveMutex` interleaves the unlocked accesses of
recursive mutexes, and `PriorityInheritance` and `MutexRuns` run mutexes on top of the whole kernel.

**Heap.** `HeapTiles` and `HeapLaws` treat the heap as a sequence of adjoining blocks; `Heaps` and
`HeapAllocators` are `heap_4.c` itself, a linked free list threaded through block headers.

Critical sections, and regions with the scheduler suspended, are atomic with respect to other tasks;
interrupts occur between critical sections. Time is the number of tick interrupts. Priorities, heap size
and queue sizes are arbitrary; ticks and `size_t` are 32 bits wide.

Where a property does not hold of the code without a condition, the condition is part of the theorem:
`Timeouts.VerdictExact` (waits observed later than 2^32 ticks), `QueueProtocol.ResetServesSendersIff` (a
reset wakes one sender only), `HeapTiles.PaddedFits` (requests whose padded size wraps),
`KernelEventRekeys.SetPriorityOrderIff` and `InheritOrderIff` (a waiting task whose priority changes is
not moved), `KernelEventKeys.StepExactIff` and `KernelSteps.SetPriorityBoundIff` (the base priority of
an inheriting task is changed). `KernelExamples` and `QueueExamples` hold runs from the start of the
system that reach the failing states, and `MutexExamples` one in which inheritance does what it is for.
In each case the model does what the code does.

## Model

| member | source | states |
|---|---|---|
| `KernelMachine.RunRefinesUnboundedTime` | SAYMA_firmware/lpc1776_ethernet_I2C/FreeRTOS/src/tasks.c:1642-1693 | over every run of all kernel services, across any number of tick wraps and scheduler suspensions: the whole invariant holds, the two delayed lists with wrapped wake times denote exactly the deadlines an unbounded clock holds after the same events, and ticks processed + uxMissedTicks = tick interrupts taken |
| `KernelMachine.StepRefines` | SAYMA_firmware/lpc1776_ethernet_I2C/FreeRTOS/src/tasks.c:1348-1422 | every single service keeps the invariant and has exactly its effect on the unbounded clock: blocking arms a deadline, leaving the blocked state early cancels one, only processed ticks let time pass |
| `KernelMachine.BlockedUntilExactlyItsDeadline` | SAYMA_firmware/lpc1776_ethernet_I2C/FreeRTOS/src/tasks.c:2379-2402 | a timed-blocked task that no event, suspension or deletion touches is on a delayed list after a run if and only if its unbounded deadline has not been processed |
| `KernelMachine.ReadiedOnTheDeadlineTick` | SAYMA_firmware/lpc1776_ethernet_I2C/FreeRTOS/src/tasks.c:327-377 | every tick processed, live or replayed, moves to the ready list of their own priority exactly the tasks whose unbounded deadline is that tick, and changes the state of no other task |
| `KernelMachine.ReadiedByReplay` | SAYMA_firmware/lpc1776_ethernet_I2C/FreeRTOS/src/tasks.c:1389-1409 | replaying the missed ticks readies exactly the tasks whose deadlines lie in them |
| `KernelMachine.ReadiedByResumeAll` | SAYMA_firmware/lpc1776_ethernet_I2C/FreeRTOS/src/tasks.c:1348-1422 | ending a suspension readies exactly the pending tasks and those whose deadlines lie in the missed ticks, each at its priority |
| `DelayLists.TickRefines` | SAYMA_firmware/lpc1776_ethernet_I2C/FreeRTOS/src/tasks.c:1648-1693 | one tick with a full head scan is one tick of the unbounded clock, including the swap of the two lists at a wrap |
| `DelayLists.EmptyAtWrap` | SAYMA_firmware/lpc1776_ethernet_I2C/FreeRTOS/src/tasks.c:1650-1665 | the current delayed list is empty whenever the tick count wraps |
| `DelayLists.DrainFacts` | SAYMA_firmware/lpc1776_ethernet_I2C/FreeRTOS/src/tasks.c:334-376 | waking from the head of a sorted list readies exactly the expired tasks, detaches exactly their event items and moves nothing else |
| `DelayLists.ArmSchedules` | SAYMA_firmware/lpc1776_ethernet_I2C/FreeRTOS/src/tasks.c:2379-2402 | a wake time computed modulo 2^32 and filed by comparing it with the tick denotes the unbounded deadline now + ticks |
| `Kernels.CachedAgrees` | SAYMA_firmware/lpc1776_ethernet_I2C/FreeRTOS/src/tasks.c:1667-1688 | xTickCount <= xNextTaskUnblockTime <= head wake time is kept by every tick and wrap, and skipping the scan gives the same lists as scanning on every tick |
| `KernelRuns.BlockStep` | SAYMA_firmware/lpc1776_ethernet_I2C/FreeRTOS/src/tasks.c:793-829 | vTaskDelay keeps the invariant (cache included) and schedules the caller exactly `ticks` ahead |
| `KernelRuns.WaitStep` | SAYMA_firmware/lpc1776_ethernet_I2C/FreeRTOS/src/tasks.c:1843-1892 | vTaskPlaceOnEventList puts the caller on the event list; a finite wait sets the deadline now + ticks, portMAX_DELAY sets none |
| `KernelRuns.EventJoined` | SAYMA_firmware/lpc1776_ethernet_I2C/FreeRTOS/src/tasks.c:1852-1891 | joining the event list before or after leaving the ready list gives the same state |
| `KernelRuns.ResumeAllStep` | SAYMA_firmware/lpc1776_ethernet_I2C/FreeRTOS/src/tasks.c:1348-1422 | xTaskResumeAll takes back exactly one suspension; the last one cancels the deadlines of the pending tasks and then lets exactly the missed ticks elapse, and the invariant, by which nothing stays pending, holds |
| `KernelRuns.ReplayStep` | SAYMA_firmware/lpc1776_ethernet_I2C/FreeRTOS/src/tasks.c:1389-1409 | replaying missed ticks is as many ticks of the unbounded clock, and none stays counted |
| `KernelRuns.DelayUntilExact` | SAYMA_firmware/lpc1776_ethernet_I2C/FreeRTOS/src/tasks.c:729-765 | with a previous wake time not in the future and under 2^32 ticks old, the wrapped comparison of vTaskDelayUntil blocks if and only if the true deadline is after now, and then the wrapped wake time is that deadline |
| `KernelRuns.DelayUntilArms` | SAYMA_firmware/lpc1776_ethernet_I2C/FreeRTOS/src/tasks.c:721-786 | called with the true previous wake time P, not in the future and under 2^32 ticks old, vTaskDelayUntil sets the caller's unbounded deadline to exactly P + increment if that is after now, and otherwise changes no deadline |
| `PeriodicTasks.NoDrift` | SAYMA_firmware/lpc1776_ethernet_I2C/FreeRTOS/src/tasks.c:721-786 | over every run in which a task passes each call what the one before stored and makes it not before the wake-up it counts from and under 2^32 ticks after it, whatever else it does between its calls: its n-th call sets the deadline exactly P + n * increment, or returns at once if that time has passed |
| `PeriodicTasks.UndisturbedKeepsTime` | SAYMA_firmware/lpc1776_ethernet_I2C/FreeRTOS/src/tasks.c:721-786 | a task on whose deadline nothing acts before its next wake-up never calls before that wake-up, so only calls 2^32 ticks late remain excluded |
| `PeriodicTasks.CallMeetsTarget` | SAYMA_firmware/lpc1776_ethernet_I2C/FreeRTOS/src/tasks.c:729-767 | a single call meets its target and leaves that target due |
| `KernelRuns.DelayUntilStep` | SAYMA_firmware/lpc1776_ethernet_I2C/FreeRTOS/src/tasks.c:721-786 | vTaskDelayUntil keeps the invariant and arms exactly the wake time when it blocks |
| `KernelMachine.TaskStatePartition` | SAYMA_firmware/lpc1776_ethernet_I2C/FreeRTOS/src/tasks.c:580-633 | in every state satisfying the invariant: a task's generic item is on exactly one of the state lists, ready[p] holds only tasks of priority p, a listed event item means a blocked task, the pending list is populated only with the scheduler suspended, the list lengths sum to uxCurrentNumberOfTasks and uxTasksDeleted is the length of the termination list |
| `KernelMachine.InitialInv` | SAYMA_firmware/lpc1776_ethernet_I2C/FreeRTOS/src/tasks.c:2312-2341 | the kernel with only its idle task satisfies the invariant at time 0 with no deadline |
| `KernelRuns.SwitchSelectsHighest` | SAYMA_firmware/lpc1776_ethernet_I2C/FreeRTOS/src/tasks.c:238-260 | with the scheduler running the downward search stops, and the task selected is ready and of maximal priority |
| `KernelRuns.SwitchStep` | SAYMA_firmware/lpc1776_ethernet_I2C/FreeRTOS/src/tasks.c:1803-1840 | vTaskSwitchContext keeps the invariant and no deadline changes |
| `KernelControl.NestingIsExact` | SAYMA_firmware/lpc1776_ethernet_I2C/FreeRTOS/src/tasks.c:1312-1364 | over every run uxSchedulerSuspended is what it was before plus the vTaskSuspendAll calls minus the xTaskResumeAll calls, counted on the calls alone |
| `KernelControl.BalancedRun` | SAYMA_firmware/lpc1776_ethernet_I2C/FreeRTOS/src/tasks.c:1348-1422 | a run that starts with the scheduler running and resumes it as often as it suspends it ends with it running, nothing pending, no tick missing and no yield owed, and all its tick interrupts processed |
| `KernelControl.YieldIsRemembered` | SAYMA_firmware/lpc1776_ethernet_I2C/FreeRTOS/src/tasks.c:1803-1812 | over every run xMissedYield is set exactly when a switch was asked for while the scheduler was suspended and the outermost suspension has not ended since |
| `KernelControl.StepControl` | SAYMA_firmware/lpc1776_ethernet_I2C/FreeRTOS/src/tasks.c:1803-1840 | each service changes the nesting count and the remembered yield exactly as the calls say, and only a switch with the scheduler running changes the running task |
| `KernelControl.TopStaysInRange` | SAYMA_firmware/lpc1776_ethernet_I2C/FreeRTOS/src/tasks.c:236-260 | over every run uxTopReadyPriority stays below configMAX_PRIORITIES, so every index into the ready lists exists |
| `KernelFairness.NobodyIsPassedOver` | SAYMA_firmware/lpc1776_ethernet_I2C/FreeRTOS/src/tasks.c:256-259 | round robin over every run of the kernel: a ready task d places from the cursor is among the next d tasks selected at its priority, whatever other tasks are created, deleted, suspended, delayed, woken or moved between priorities meanwhile |
| `KernelFairness.StepKeepsPlace` | SAYMA_firmware/lpc1776_ethernet_I2C/FreeRTOS/src/tasks.c:304-316 | no service that does not act on a ready task itself takes it off its ready list or puts it further from being selected |
| `KernelFairness.SwitchPlace` | SAYMA_firmware/lpc1776_ethernet_I2C/FreeRTOS/src/tasks.c:1803-1840 | a selection at the task's priority picks it when its turn has come and otherwise brings it exactly one closer; other switches leave its place alone |
| `KernelEventOrder.OrderOverRuns` | SAYMA_firmware/lpc1776_ethernet_I2C/FreeRTOS/src/tasks.c:1852-1855 | over every run in which no waiting task's priority is changed, every event list stays in the order of its item values, and every value encodes its task's effective or base priority |
| `KernelEventOrder.StepKeepsOrder` | SAYMA_firmware/lpc1776_ethernet_I2C/FreeRTOS/src/tasks.c:1843-1984 | the same for each single service |
| `KernelEventOrder.StartsInOrder` | SAYMA_firmware/lpc1776_ethernet_I2C/FreeRTOS/src/tasks.c:2312-2341 | the kernel starts with its event lists in order |
| `KernelEventKeys.MostUrgentIsWoken` | SAYMA_firmware/lpc1776_ethernet_I2C/FreeRTOS/src/tasks.c:1954-1967 | the task xTaskRemoveFromEventList wakes is outranked by no other waiter on the list in effective priority, boosted mutex holders included |
| `KernelEventKeys.UrgencyOverRuns` | SAYMA_firmware/lpc1776_ethernet_I2C/FreeRTOS/src/tasks.c:1843-1984 | over every run in which no waiting task is rekeyed and every task that starts to wait has an exact event item value, event lists stay in the order of their tasks' effective priorities |
| `KernelEventKeys.StepKeepsWaitersExact` | SAYMA_firmware/lpc1776_ethernet_I2C/FreeRTOS/src/tasks.c:1843-1984 | the same for each single service |
| `KernelEventKeys.ExactOverRuns` | SAYMA_firmware/lpc1776_ethernet_I2C/FreeRTOS/src/tasks.c:929-1035 | over every run in which no waiting task is rekeyed and no inheriting task gets another base priority, the event item values of all tasks encode their effective priorities |
| `KernelEventKeys.StepExactIff` | SAYMA_firmware/lpc1776_ethernet_I2C/FreeRTOS/src/tasks.c:929-1035 | every service keeps event item values at the effective priorities, vTaskPrioritySet if and only if the task uses no inherited priority, or its base does not change, or the new base is the inherited priority |
| `KernelEventKeys.StartsExact` | SAYMA_firmware/lpc1776_ethernet_I2C/FreeRTOS/src/tasks.c:2312-2341 | the kernel starts with exact values |
| `KernelEventWaits.LongestWaitingFirst` | SAYMA_firmware/lpc1776_ethernet_I2C/FreeRTOS/src/tasks.c:1852-1855 | a task that starts to wait where one at least as urgent already waits is not the next to be woken, after any run, until the other has left the list |
| `KernelEventWaits.NeverOvertaken` | SAYMA_firmware/lpc1776_ethernet_I2C/FreeRTOS/src/tasks.c:1843-1984 | over every run, priority changes included, two tasks that stay on one event list never swap places |
| `KernelEventWaits.StepKeepsPlaces` | SAYMA_firmware/lpc1776_ethernet_I2C/FreeRTOS/src/tasks.c:1936-1984 | the same for each single service |
| `KernelEventWaits.WaitPlaces` | SAYMA_firmware/lpc1776_ethernet_I2C/FreeRTOS/src/tasks.c:1843-1892 | starting to wait places a task behind every waiter at least as urgent and in front of all others, who keep their places |
| `KernelEventRekeys.SetPriorityOrderIff` | SAYMA_firmware/lpc1776_ethernet_I2C/FreeRTOS/src/tasks.c:1011-1027 | vTaskPrioritySet keeps every event list in order if and only if the task waits on none, or its base does not change, or its new value lies between those of its neighbours |
| `KernelEventRekeys.InheritOrderIff` | SAYMA_firmware/lpc1776_ethernet_I2C/FreeRTOS/src/tasks.c:2661-2664 | vTaskPriorityInherit keeps every event list in order if and only if the holder waits on none, or is not raised, or its new value lies between those of its neighbours |
| `KernelExamples.RaisedWaiterStaysBehind` | SAYMA_firmware/lpc1776_ethernet_I2C/FreeRTOS/src/tasks.c:1011-1027 | a run from the start of the kernel in which the second of two waiters is given the highest priority: its list is out of order and the next wake-up goes to the less urgent task |
| `KernelExamples.InheritingWaiterStaysBehind` | SAYMA_firmware/lpc1776_ethernet_I2C/FreeRTOS/src/tasks.c:2661-2664 | the same after the second waiter inherits the highest priority |
| `KernelExamples.BaseAboveInherited` | SAYMA_firmware/lpc1776_ethernet_I2C/FreeRTOS/src/tasks.c:991-1011 | a run from the start of the kernel after which a task's effective priority is below its base priority and its event item value encodes the wrong one |
| `KernelSteps.SuspendStep` | SAYMA_firmware/lpc1776_ethernet_I2C/FreeRTOS/src/tasks.c:1047-1107 | suspending puts exactly that task on the suspended list, off every event list, keeps the invariant and cancels exactly its deadline; no other task moves |
| `KernelSteps.ResumeStep` | SAYMA_firmware/lpc1776_ethernet_I2C/FreeRTOS/src/tasks.c:1148-1186 | resuming readies the task at its priority if and only if it is suspended, waits for nothing and is not running; no other task moves and no deadline changes |
| `KernelSteps.ResumeFromISRStep` | SAYMA_firmware/lpc1776_ethernet_I2C/FreeRTOS/src/tasks.c:1193-1227 | the same from an interrupt, where the task becomes ready with the scheduler running and pending otherwise |
| `KernelSteps.WakeStep` | SAYMA_firmware/lpc1776_ethernet_I2C/FreeRTOS/src/tasks.c:1936-1984 | waking the head of an event list readies it and cancels its deadline, or with the scheduler suspended makes it pending and keeps both; no other task moves |
| `KernelSteps.CreateStep` | SAYMA_firmware/lpc1776_ethernet_I2C/FreeRTOS/src/tasks.c:2225-2260 | a new task has the capped priority as effective and base priority and is on that ready list; no other task moves and the invariant holds |
| `KernelSteps.DeleteStep` | SAYMA_firmware/lpc1776_ethernet_I2C/FreeRTOS/src/tasks.c:660-704 | deleting puts exactly that task on the termination list, off every event list, keeps the invariant and cancels exactly its deadline |
| `KernelSteps.ReapStep` | SAYMA_firmware/lpc1776_ethernet_I2C/FreeRTOS/src/tasks.c:2344-2376 | reaping removes exactly the first terminated task and keeps the invariant, both task counters included |
| `KernelSteps.SetPriorityStep` | SAYMA_firmware/lpc1776_ethernet_I2C/FreeRTOS/src/tasks.c:929-1035 | the base priority becomes the capped new one, the effective priority follows unless it is inherited, no event list is reordered, and every list and both ready records stay consistent |
| `KernelSteps.SetPriorityBoundIff` | SAYMA_firmware/lpc1776_ethernet_I2C/FreeRTOS/src/tasks.c:991-1003 | vTaskPrioritySet leaves the effective priority at or above the base priority if and only if no inherited priority is in use or the new base does not exceed it |
| `KernelSteps.InheritStep` | SAYMA_firmware/lpc1776_ethernet_I2C/FreeRTOS/src/tasks.c:2653-2688 | inheriting raises the holder to the maximum of both priorities and keeps the invariant |
| `KernelSteps.DisinheritStep` | SAYMA_firmware/lpc1776_ethernet_I2C/FreeRTOS/src/tasks.c:2695-2718 | disinheriting puts the task back at its base priority, on that ready list, and keeps the invariant |
| `TaskKernels.TaskKernel.constructor` | SAYMA_firmware/lpc1776_ethernet_I2C/FreeRTOS/src/tasks.c:2312-2341 | the initial lists and counters |
| `TaskKernels.TaskKernel.CheckDelayedTasks` | SAYMA_firmware/lpc1776_ethernet_I2C/FreeRTOS/src/tasks.c:327-377 | the loop computes the drained lists and the next unblock time, and does nothing before the cached time |
| `TaskKernels.TaskKernel.IncrementTick` | SAYMA_firmware/lpc1776_ethernet_I2C/FreeRTOS/src/tasks.c:1642-1710 | the tick interrupt, in place, is Kernels.TickInterrupt |
| `TaskKernels.TaskKernel.MovePendingTasks` | SAYMA_firmware/lpc1776_ethernet_I2C/FreeRTOS/src/tasks.c:1370-1388 | the loop makes every pending task ready and reports whether one of them matches the running task's priority |
| `TaskKernels.TaskKernel.ReplayMissedTicks` | SAYMA_firmware/lpc1776_ethernet_I2C/FreeRTOS/src/tasks.c:1389-1409 | the loop processes all missed ticks |
| `TaskKernels.TaskKernel.ResumeAll` | SAYMA_firmware/lpc1776_ethernet_I2C/FreeRTOS/src/tasks.c:1348-1422 | whole new state, exactly one suspension taken back, and the exact condition under which a yield is requested |
| `TaskKernels.TaskKernel.SwitchContext` | SAYMA_firmware/lpc1776_ethernet_I2C/FreeRTOS/src/tasks.c:1803-1840 | the decrementing search and the next list entry give Kernels.Switch |
| `TaskKernels.TaskKernel.AddCurrentToDelayedList` | SAYMA_firmware/lpc1776_ethernet_I2C/FreeRTOS/src/tasks.c:2379-2402 | which of the two lists, where in it, and when the cached time moves |
| `TaskKernels.TaskKernel.Delay` | SAYMA_firmware/lpc1776_ethernet_I2C/FreeRTOS/src/tasks.c:793-829 | whole new state, and the kernel invariant after every call the source allows |
| `TaskKernels.TaskKernel.DelayUntil` | SAYMA_firmware/lpc1776_ethernet_I2C/FreeRTOS/src/tasks.c:721-786 | whole new state, the advanced previous wake time, and the kernel invariant after every call the source allows |
| `TaskKernels.TaskKernel.PlaceOnEventList` | SAYMA_firmware/lpc1776_ethernet_I2C/FreeRTOS/src/tasks.c:1843-1892 | whole new state, in the order of the code, and the kernel invariant |
| `TaskKernels.TaskKernel.RemoveFromEventList` | SAYMA_firmware/lpc1776_ethernet_I2C/FreeRTOS/src/tasks.c:1936-1984 | whole new state, and the result tells whether the woken task is at least as urgent as the running one |
| `TaskKernels.TaskKernel.Resume` | SAYMA_firmware/lpc1776_ethernet_I2C/FreeRTOS/src/tasks.c:1148-1186 | whole new state, and the kernel invariant after every call the source allows |
| `TaskKernels.TaskKernel.ResumeFromISR` | SAYMA_firmware/lpc1776_ethernet_I2C/FreeRTOS/src/tasks.c:1193-1227 | whole new state and the exact yield condition |
| `TaskKernels.TaskKernel.SuspendTask` | SAYMA_firmware/lpc1776_ethernet_I2C/FreeRTOS/src/tasks.c:1047-1107 | whole new state, and the kernel invariant after every call the source allows |
| `TaskKernels.TaskKernel.DeleteTask` | SAYMA_firmware/lpc1776_ethernet_I2C/FreeRTOS/src/tasks.c:660-704 | whole new state, and the kernel invariant after every call the source allows |
| `TaskKernels.TaskKernel.ReapTask` | SAYMA_firmware/lpc1776_ethernet_I2C/FreeRTOS/src/tasks.c:2344-2376 | whole new state, and the kernel invariant after every call the source allows |
| `TaskKernels.TaskKernel.CreateTask` | SAYMA_firmware/lpc1776_ethernet_I2C/FreeRTOS/src/tasks.c:580-633 | whole new state, and the kernel invariant after every call the source allows |
| `TaskKernels.TaskKernel.PrioritySet` | SAYMA_firmware/lpc1776_ethernet_I2C/FreeRTOS/src/tasks.c:929-1035 | whole new state, including that an inherited priority stays in use, and the kernel invariant |
| `TaskKernels.TaskKernel.PriorityInherit` | SAYMA_firmware/lpc1776_ethernet_I2C/FreeRTOS/src/tasks.c:2653-2688 | whole new state, and the kernel invariant after every call the source allows |
| `TaskKernels.TaskKernel.PriorityDisinherit` | SAYMA_firmware/lpc1776_ethernet_I2C/FreeRTOS/src/tasks.c:2695-2718 | whole new state, and the kernel invariant after every call the source allows |
| `Timeouts.VerdictExact` | SAYMA_firmware/lpc1776_ethernet_I2C/FreeRTOS/src/tasks.c:1995-2038 | for a finite wait, xTaskCheckForTimeOut is right about elapsed >= wait if and only if at most 2^32 ticks passed, or the tick is not below the entry tick, or the ticks modulo 2^32 already reach the wait |
| `Timeouts.ForeverNeverExpires` | SAYMA_firmware/lpc1776_ethernet_I2C/FreeRTOS/src/tasks.c:2004-2012 | a wait of portMAX_DELAY never expires, whenever it is checked, and stays portMAX_DELAY |
| `Timeouts.DeadlinePreserved` | SAYMA_firmware/lpc1776_ethernet_I2C/FreeRTOS/src/tasks.c:2022-2031 | within 2^32 ticks, an unexpired check leaves a positive remaining wait whose absolute deadline is the original one |
| `Timeouts.MisreportedAfterTwoWraps` | SAYMA_firmware/lpc1776_ethernet_I2C/FreeRTOS/src/tasks.c:2014-2031 | a concrete wait, long over, that is reported as still running |
| `Timeouts.RetryUntilTimeout` | SAYMA_firmware/lpc1776_ethernet_I2C/FreeRTOS/src/queue.c:1105-1123 | however often a blocked send or receive is woken and retries, it gives up at exactly the first check not before the original deadline, and with portMAX_DELAY at none |
| `TimedWaits.BlockTimeIsExact` | SAYMA_firmware/lpc1776_ethernet_I2C/FreeRTOS/src/queue.c:1105-1163 | over every run of the kernel, every wait of a call that began at time e with block time n sets the deadline exactly e + n, however often it is woken and waits again |
| `TimedWaits.ForeverNeverGivesUp` | SAYMA_firmware/lpc1776_ethernet_I2C/FreeRTOS/src/queue.c:1105-1163 | over every run of the kernel, a call that began with portMAX_DELAY never gives up, whenever and however often it is woken and checks, and every wait of it is without limit |
| `TimedWaits.WaitsStayOnCourse` | SAYMA_firmware/lpc1776_ethernet_I2C/FreeRTOS/src/queue.c:1105-1163 | the same from any point of the call, with checks that do not lead to a wait in between |
| `TimedWaits.WaitKeepsDeadline` | SAYMA_firmware/lpc1776_ethernet_I2C/FreeRTOS/src/queue.c:644-662 | after a check that leaves some time, waiting for that time sets the deadline of the whole call |
| `QueueProtocol.NoLostReceiverWakeup` | SAYMA_firmware/lpc1776_ethernet_I2C/FreeRTOS/src/queue.c:1031-1163 | in every interleaving of tasks, interrupts and resets from a created queue: if a task waits to receive, messages <= woken receivers that have not retried + max(xTxLock, 0); so with the queue unlocked and nobody woken, receivers wait only on an empty queue |
| `QueueProtocol.NoLostSenderWakeup` | SAYMA_firmware/lpc1776_ethernet_I2C/FreeRTOS/src/queue.c:567-704 | the dual for senders, free slots and xRxLock in every interleaving without a reset |
| `QueueProtocol.ReceiversServedInRuns` | SAYMA_firmware/lpc1776_ethernet_I2C/FreeRTOS/src/queue.c:935-1010 | the receiver invariant is kept along every run from any state satisfying it |
| `QueueProtocol.SendersServedInRuns` | SAYMA_firmware/lpc1776_ethernet_I2C/FreeRTOS/src/queue.c:1167-1223 | the sender invariant is kept along every run without a reset |
| `QueueProtocol.UnlockTxFacts` | SAYMA_firmware/lpc1776_ethernet_I2C/FreeRTOS/src/queue.c:1352-1423 | unlocking wakes exactly min(max(xTxLock, 0), waiting receivers) tasks: those at the front of the list, the others waiting on in their order |
| `QueueProtocol.UnlockRxFacts` | SAYMA_firmware/lpc1776_ethernet_I2C/FreeRTOS/src/queue.c:1425-1448 | the same for counted reads and waiting senders |
| `QueueProtocol.ResetServesSendersIff` | SAYMA_firmware/lpc1776_ethernet_I2C/FreeRTOS/src/queue.c:252-265 | a reset, which wakes one sender, leaves the senders served if and only if at most one waits or all other slots are already spoken for |
| `QueueWakes.NoSpuriousReceiverWakeup` | SAYMA_firmware/lpc1776_ethernet_I2C/FreeRTOS/src/queue.c:1352-1423 | over every interleaving the receivers woken, plus the posts still counted, never outnumber the messages put plus the successful peeks plus the posts counted at the start |
| `QueueWakes.NoSpuriousSenderWakeup` | SAYMA_firmware/lpc1776_ethernet_I2C/FreeRTOS/src/queue.c:1425-1448 | the dual for senders, messages received and resets |
| `QueueWakes.StaysParked` | SAYMA_firmware/lpc1776_ethernet_I2C/FreeRTOS/src/queue.c:1129-1163 | a receiver parked on an empty queue to which nobody posts stays parked until it times out, whatever else runs |
| `QueueExamples.Parks` | SAYMA_firmware/lpc1776_ethernet_I2C/FreeRTOS/src/queue.c:1105-1163 | undisturbed, a send or receive that cannot be served and has time left ends up asleep at its place on the waiting list, and its own unlocking wakes nobody |
| `QueueExamples.GivesUp` | SAYMA_firmware/lpc1776_ethernet_I2C/FreeRTOS/src/queue.c:1105-1163 | undisturbed, a call whose timeout has expired returns and leaves the queue as it was |
| `QueueExamples.ResetStrandsASender` | SAYMA_firmware/lpc1776_ethernet_I2C/FreeRTOS/src/queue.c:252-265 | a run from a new queue of two: two senders block on it, and after a reset one of them sleeps beside a free slot that no woken sender will take |
| `QueueDelivery.FirstInFirstOut` | SAYMA_firmware/lpc1776_ethernet_I2C/FreeRTOS/src/queue.c:567-704 | over every interleaving without sends to the front, messages leave the queue in exactly the order they were accepted: initial items + accepted = removed + still queued, as sequences |
| `QueueDelivery.NothingLostNothingInvented` | SAYMA_firmware/lpc1776_ethernet_I2C/FreeRTOS/src/queue.c:1031-1163 | over every interleaving, sends to the front and resets included, the same equation holds for multisets: no message is lost, duplicated or invented |
| `RingBuffers.AppendsAtBack` | SAYMA_firmware/lpc1776_ethernet_I2C/FreeRTOS/src/queue.c:1315-1335 | writing `count` slots after the read slot appends to the item sequence |
| `RingBuffers.PrependsAtFront` | SAYMA_firmware/lpc1776_ethernet_I2C/FreeRTOS/src/queue.c:1324-1335 | writing at the read slot and stepping back prepends to it |
| `RingBuffers.PopsFront` | SAYMA_firmware/lpc1776_ethernet_I2C/FreeRTOS/src/queue.c:1338-1349 | stepping the read slot on exposes the first item and removes it from the sequence |
| `RingBuffers.SlotWritten` | SAYMA_firmware/lpc1776_ethernet_I2C/FreeRTOS/src/queue.c:1317-1326 | copying one item into the byte storage changes one slot and no other |
| `QueueObjects.QueueObject.constructor` | SAYMA_firmware/lpc1776_ethernet_I2C/FreeRTOS/src/queue.c:282-335 | a new queue of any positive length and any item size, or a mutex, is empty and unlocked |
| `QueueObjects.QueueObject.CopyToBack` | SAYMA_firmware/lpc1776_ethernet_I2C/FreeRTOS/src/queue.c:1315-1335 | the byte storage appends the item; read and write positions stay slot boundaries with (read slot + 1 + count) mod length the write slot; every copy lies inside the storage |
| `QueueObjects.QueueObject.CopyToFront` | SAYMA_firmware/lpc1776_ethernet_I2C/FreeRTOS/src/queue.c:1324-1335 | the byte storage prepends the item, with the same invariant |
| `QueueObjects.QueueObject.CopyDataFromQueue` | SAYMA_firmware/lpc1776_ethernet_I2C/FreeRTOS/src/queue.c:1338-1349 | the oldest item is read and the read position moves on by one slot; on a mutex nothing moves |
| `QueueObjects.QueueObject.TrySend` | SAYMA_firmware/lpc1776_ethernet_I2C/FreeRTOS/src/queue.c:567-643 | sends exactly when there is room, at either end, and wakes one receiver |
| `QueueObjects.QueueObject.TryReceive` | SAYMA_firmware/lpc1776_ethernet_I2C/FreeRTOS/src/queue.c:1031-1092 | receives the front item exactly when there is one; a peek changes no item |
| `QueueObjects.QueueObject.SendFromISR` | SAYMA_firmware/lpc1776_ethernet_I2C/FreeRTOS/src/queue.c:935-1010 | wakes a receiver on an unlocked queue and only counts the post on a locked one |
| `QueueObjects.QueueObject.ReceiveFromISR` | SAYMA_firmware/lpc1776_ethernet_I2C/FreeRTOS/src/queue.c:1167-1223 | the dual for reads |
| `QueueObjects.QueueObject.LockQueue` | SAYMA_firmware/lpc1776_ethernet_I2C/FreeRTOS/src/queue.c:217-233 | locks what is unlocked and keeps counts already running |
| `QueueObjects.QueueObject.UnlockQueueTx` | SAYMA_firmware/lpc1776_ethernet_I2C/FreeRTOS/src/queue.c:1352-1423 | the loop is QueueCores.UnlockTx |
| `QueueObjects.QueueObject.UnlockQueueRx` | SAYMA_firmware/lpc1776_ethernet_I2C/FreeRTOS/src/queue.c:1425-1448 | the loop is QueueCores.UnlockRx |
| `QueueObjects.QueueObject.GenericReset` | SAYMA_firmware/lpc1776_ethernet_I2C/FreeRTOS/src/queue.c:236-279 | empties and unlocks the queue and wakes one sender |
| `RecursiveMutex.MutualExclusion` | SAYMA_firmware/lpc1776_ethernet_I2C/FreeRTOS/src/queue.c:437-523 | in every interleaving of the unlocked accesses: at no moment are two tasks inside, no task's depth is negative, the call count never drops below zero and the mutex has a message if and only if it has no holder |
| `RecursiveMutex.StepKeepsInv` | SAYMA_firmware/lpc1776_ethernet_I2C/FreeRTOS/src/queue.c:488-523 | each access of each task keeps the holder, count and depth tied together |
| `RecursiveMutex.NobodyElseTakes` | SAYMA_firmware/lpc1776_ethernet_I2C/FreeRTOS/src/queue.c:488-523 | while a task has taken more often than it gave, the next successful take is its own |
| `RecursiveMutex.HolderNeverRefused` | SAYMA_firmware/lpc1776_ethernet_I2C/FreeRTOS/src/queue.c:437-523 | in every interleaving, a take or give called by the holder succeeds: its depth goes up or down by exactly one |
| `RecursiveMutex.HoldersCallSucceeds` | SAYMA_firmware/lpc1776_ethernet_I2C/FreeRTOS/src/queue.c:451-523 | the same from any point inside such a call |
| `RecursiveMutex.HolderGoesOn` | SAYMA_firmware/lpc1776_ethernet_I2C/FreeRTOS/src/queue.c:451-470 | a step inside the holder's call goes on with it or ends it with success, and the mutex gets free exactly when the last take is given |
| `RecursiveMutex.OthersGiveFails` | SAYMA_firmware/lpc1776_ethernet_I2C/FreeRTOS/src/queue.c:477-484 | in every interleaving, a give by a task that is not the holder only makes its test and fails |
| `RecursiveMutex.TakenWhenFree` | SAYMA_firmware/lpc1776_ethernet_I2C/FreeRTOS/src/queue.c:509-521 | the underlying mutex can be taken if and only if it has no holder, and the taker becomes the holder |
| `PriorityInheritance.InheritanceHolds` | SAYMA_firmware/lpc1776_ethernet_I2C/FreeRTOS/src/tasks.c:2653-2718 | over every run without nested mutexes and vTaskPrioritySet: effective priorities never drop below base priorities, non-holders run at their base priority, and a holder's priority is at least the highest with which any task blocked on its mutex since it took it, whether or not that task still waits |
| `PriorityInheritance.WaiterBoostsHolder` | SAYMA_firmware/lpc1776_ethernet_I2C/FreeRTOS/src/queue.c:1129-1142 | from the step in which w blocks on a mutex until it is given back, over every run and whether w waits on, times out or is deleted, the holder stays the holder and its priority is at least the one w blocked with |
| `PriorityInheritance.BoostLastsUntilGive` | SAYMA_firmware/lpc1776_ethernet_I2C/FreeRTOS/src/tasks.c:2695-2718 | over every run without a give of the mutex, its holder stays the holder and its effective priority never drops |
| `PriorityInheritance.NeverLowered` | SAYMA_firmware/lpc1776_ethernet_I2C/FreeRTOS/src/tasks.c:2653-2718 | no single action but giving the mutex back lowers its holder's effective priority |
| `PriorityInheritance.BlockKeeps` | SAYMA_firmware/lpc1776_ethernet_I2C/FreeRTOS/src/queue.c:1129-1142 | blocking on a held mutex establishes the boost and keeps the invariant |
| `PriorityInheritance.GiveKeeps` | SAYMA_firmware/lpc1776_ethernet_I2C/FreeRTOS/src/queue.c:1302-1314 | giving the mutex back leaves the giver at its base priority, in that ready list, and the mutex without a holder |
| `PriorityInheritance.ActKeeps` | SAYMA_firmware/lpc1776_ethernet_I2C/FreeRTOS/src/queue.c:1049-1060 | every other kernel service, taking, blocking on and giving a mutex keep the invariant; who holds it afterwards is stated by MutexRuns.HolderIsLastTaker |
| `PriorityInheritance.StartsFree` | SAYMA_firmware/lpc1776_ethernet_I2C/FreeRTOS/src/queue.c:342-388 | the kernel at start with any set of free mutexes satisfies the invariant |
| `MutexRuns.HolderIsLastTaker` | SAYMA_firmware/lpc1776_ethernet_I2C/FreeRTOS/src/queue.c:1049-1060 | over every run a mutex has a holder if and only if it was taken and not given since, and the holder is the task that was running when it was last taken |
| `MutexRuns.HolderFromStart` | SAYMA_firmware/lpc1776_ethernet_I2C/FreeRTOS/src/queue.c:1049-1060 | the same from the start of the kernel with free mutexes |
| `MutexRuns.TakesAlternate` | SAYMA_firmware/lpc1776_ethernet_I2C/FreeRTOS/src/queue.c:1049-1060 | mutual exclusion over every run: between two takes of a mutex it is given |
| `MutexRuns.GiveWakesFirst` | SAYMA_firmware/lpc1776_ethernet_I2C/FreeRTOS/src/queue.c:613-625 | giving wakes the first waiter, which leaves the event list and becomes ready at its priority, or pending while the scheduler is suspended; nobody else joins or leaves an event list |
| `MutexRuns.BlockingWaits` | SAYMA_firmware/lpc1776_ethernet_I2C/FreeRTOS/src/queue.c:1129-1142 | blocking on a held mutex puts the caller on its event list with exactly the deadline asked for, or none for portMAX_DELAY, and leaves the holder |
| `MutexExamples.HolderRunsBeforeTheMiddle` | SAYMA_firmware/lpc1776_ethernet_I2C/FreeRTOS/src/queue.c:1129-1142 | a run from the start of the kernel: with the most urgent task waiting for a mutex, the switch selects its holder of base priority 1 and not a ready task of priority 2 |
| `MutexExamples.TakenInheritedGiven` | SAYMA_firmware/lpc1776_ethernet_I2C/FreeRTOS/src/queue.c:1302-1314 | that run goes on with the give: the holder is back at priority 1, the mutex is free and the waiter is ready at its own priority |
| `XLists.HeadIsNextToServe` | SAYMA_firmware/lpc1776_ethernet_I2C/FreeRTOS/src/list.c:134-188 | for one list and every history of joins, time-outs and wake-ups, the head of an event list is the waiter of lowest value and, among equals, the one waiting longest |
| `XLists.InsertionKeepsSorted` | SAYMA_firmware/lpc1776_ethernet_I2C/FreeRTOS/src/list.c:134-188 | inserting behind the last value not larger keeps a sorted list sorted |
| `XLists.BoundedBypass` | SAYMA_firmware/lpc1776_ethernet_I2C/FreeRTOS/inc/list.h:220-231 | an item k steps ahead of the cursor is among the next k selections, whatever other items are inserted at the end or removed meanwhile |
| `XLists.InsertEndKeepsDistance` | SAYMA_firmware/lpc1776_ethernet_I2C/FreeRTOS/src/list.c:111-131 | an insertion leaves every other item's distance from the cursor unchanged and goes last |
| `XLists.RemovalNeverDelays` | SAYMA_firmware/lpc1776_ethernet_I2C/FreeRTOS/src/list.c:191-212 | no removal increases another item's distance |
| `XLists.AdvanceApproaches` | SAYMA_firmware/lpc1776_ethernet_I2C/FreeRTOS/inc/list.h:220-231 | each selection picks the item at distance 1 and brings every other item one closer |
| `IntrusiveLists.LinkIn` | SAYMA_firmware/lpc1776_ethernet_I2C/FreeRTOS/src/list.c:111-131 | the link writes of both insertions keep next and previous mutually inverse on one cycle through the end marker |
| `IntrusiveLists.LinkOut` | SAYMA_firmware/lpc1776_ethernet_I2C/FreeRTOS/src/list.c:191-212 | the link writes of a removal keep the same |
| `IntrusiveLists.ListMemory.Initialise` | SAYMA_firmware/lpc1776_ethernet_I2C/FreeRTOS/src/list.c:84-101 | a new list is the one-node cycle of its end marker; every other list stays as it is |
| `IntrusiveLists.ListMemory.InsertEnd` | SAYMA_firmware/lpc1776_ethernet_I2C/FreeRTOS/src/list.c:111-131 | on the pointers of all lists, inserts at the cursor of one list, moves the cursor onto the new item and sets its container; links, counts, cursors and containers of all lists stay valid and no other list changes |
| `IntrusiveLists.ListMemory.Insert` | SAYMA_firmware/lpc1776_ethernet_I2C/FreeRTOS/src/list.c:134-188 | inserts behind all values not larger, portMAX_DELAY at the very end, sets the container and changes no other list |
| `IntrusiveLists.ListMemory.FindPosition` | SAYMA_firmware/lpc1776_ethernet_I2C/FreeRTOS/src/list.c:134-176 | the search loop terminates for every value below portMAX_DELAY and finds the stable sorted position |
| `IntrusiveLists.ListMemory.Remove` | SAYMA_firmware/lpc1776_ethernet_I2C/FreeRTOS/src/list.c:191-212 | finds the list through the item's container, unlinks the item, moves a cursor on it to the predecessor, clears the container, returns the new length and changes no other list |
| `IntrusiveLists.ListsIn` | SAYMA_firmware/lpc1776_ethernet_I2C/FreeRTOS/src/list.c:111-131 | the link writes of an insertion keep every list of the memory one mutually inverse cycle with a correct count and cursor |
| `IntrusiveLists.ListsOut` | SAYMA_firmware/lpc1776_ethernet_I2C/FreeRTOS/src/list.c:191-212 | the link writes of a removal keep the same for every list |
| `IntrusiveLists.ListMemory.IsContained` | SAYMA_firmware/lpc1776_ethernet_I2C/FreeRTOS/inc/list.h:252-262 | the container pointer tells exactly whether the item is on the list |
| `IntrusiveLists.ListMemory.NextEntry` | SAYMA_firmware/lpc1776_ethernet_I2C/FreeRTOS/inc/list.h:220-231 | the cursor moves to the next item, skipping the end marker |
| `IntrusiveLists.ListMemory.HeadEntry` | SAYMA_firmware/lpc1776_ethernet_I2C/FreeRTOS/inc/list.h:234-250 | the owner of the first entry |
| `Bitmaps.BitmapSelectsTheSameLevel` | SAYMA_firmware/lpc1776_ethernet_I2C/FreeRTOS/inc/portmacro.h:170-176 | in every state satisfying the invariant bit p is set if and only if ready[p] is populated, and 31 - clz is the level the downward search finds |
| `Bitmaps.BitmapFollowsSet` | SAYMA_firmware/lpc1776_ethernet_I2C/FreeRTOS/inc/portmacro.h:170-171 | recording and resetting a priority follow the set of populated levels |
| `CoRoutines.CacheAgreesWithScan` | SAYMA_firmware/lpc1776_ethernet_I2C/FreeRTOS/src/croutine.c:264-319 | for any number of ticks, the task kernel with its cached unblock time and the co-routine scheduler with its scan on every tick reach the same lists |
| `CoRoutines.CatchUpRefines` | SAYMA_firmware/lpc1776_ethernet_I2C/FreeRTOS/src/croutine.c:264-319 | catching up over n ticks is n ticks of the unbounded clock |
| `CoRoutines.CoRoutineScheduler.CheckDelayedList` | SAYMA_firmware/lpc1776_ethernet_I2C/FreeRTOS/src/croutine.c:264-319 | the nested catch-up loop, for any wrapped tick difference, lets exactly that many ticks elapse |
| `CoRoutines.CoRoutineScheduler.AddToDelayedList` | SAYMA_firmware/lpc1776_ethernet_I2C/FreeRTOS/src/croutine.c:203-238 | schedules the current co-routine exactly `ticks` ahead and puts it on the event list given, if any |
| `CoRoutines.CoRoutineScheduler.CheckPendingReadyList` | SAYMA_firmware/lpc1776_ethernet_I2C/FreeRTOS/src/croutine.c:241-261 | the loop makes every pending co-routine ready |
| `CoRoutines.CoRoutineScheduler.ScheduleNext` | SAYMA_firmware/lpc1776_ethernet_I2C/FreeRTOS/src/croutine.c:322-349 | the pending co-routines lose their deadlines and become ready, exactly the ticks passed elapse, and a ready co-routine of maximal priority is selected if and only if there is any, the one next in line at its priority |
| `CoRoutines.CoRoutineScheduler.SelectNext` | SAYMA_firmware/lpc1776_ethernet_I2C/FreeRTOS/src/croutine.c:330-343 | the search loop selects the co-routine next in line at the highest populated priority and moves that line on by one; finding none it changes no list |
| `CoRoutines.EqualShare` | SAYMA_firmware/lpc1776_ethernet_I2C/FreeRTOS/src/croutine.c:341-343 | while selections follow each other at a priority with n ready co-routines, each of them is selected exactly once in n, in its turn |
| `HeapTiles.HistoryKeepsInv` | SAYMA_firmware/lpc1776_ethernet_I2C/FreeRTOS/src/heap_4.c:149-261 | over every sequence of allocations and frees of live blocks, live and free blocks exactly tile the heap up to pxEnd without overlap, all addresses and sizes are 8-aligned and no two free blocks are adjacent |
| `HeapTiles.CarveKeeps` | SAYMA_firmware/lpc1776_ethernet_I2C/FreeRTOS/src/heap_4.c:184-211 | splitting keeps the invariant; the block is cut to exactly the size wanted with the rest a free block behind it if the rest exceeds two headers, and is handed out whole otherwise, and the free byte count drops by its size |
| `HeapTiles.ReleaseKeeps` | SAYMA_firmware/lpc1776_ethernet_I2C/FreeRTOS/src/heap_4.c:309-359 | two-sided merging keeps the invariant and the free byte count grows by the block's size |
| `HeapTiles.PaddedFits` | SAYMA_firmware/lpc1776_ethernet_I2C/FreeRTOS/src/heap_4.c:163-175 | the padded size is aligned, covers header and payload if and only if adding the header does not wrap size_t, and is then the least aligned size that does |
| `HeapTiles.WrappedRequest` | SAYMA_firmware/lpc1776_ethernet_I2C/FreeRTOS/src/heap_4.c:165-173 | a request near the top of size_t that is padded to 8 bytes |
| `HeapTiles.AllocateThenFree` | SAYMA_firmware/lpc1776_ethernet_I2C/FreeRTOS/src/heap_4.c:239-261 | freeing the block just carved restores the exact previous block sequence |
| `HeapTiles.FullRecovery` | SAYMA_firmware/lpc1776_ethernet_I2C/FreeRTOS/src/heap_4.c:298-305 | a coalesced heap without live blocks is the single block of the initial state |
| `HeapLaws.AllocationOutcome` | SAYMA_firmware/lpc1776_ethernet_I2C/FreeRTOS/src/heap_4.c:177-220 | a request is served if and only if some free block reaches its padded size; it gets the lowest such block, aligned, with room for the request unless its size wrapped, cut to exactly the padded size unless at most two headers would be left; a request not served changes nothing |
| `HeapLaws.FirstRequest` | SAYMA_firmware/lpc1776_ethernet_I2C/FreeRTOS/src/heap_4.c:177-220 | the first request of 100 bytes to a heap of 16384 takes 120 and leaves one free block of 16240 |
| `HeapLaws.AllocateFreeRoundTrip` | SAYMA_firmware/lpc1776_ethernet_I2C/FreeRTOS/src/heap_4.c:239-261 | pvPortMalloc followed by vPortFree of the result restores the exact heap |
| `HeapLaws.FreeingEverything` | SAYMA_firmware/lpc1776_ethernet_I2C/FreeRTOS/src/heap_4.c:309-359 | from any heap, freeing every live block once, in any order, leaves one free block over the whole heap |
| `HeapLaws.RecoveryAfterAnyHistory` | SAYMA_firmware/lpc1776_ethernet_I2C/FreeRTOS/src/heap_4.c:298-305 | the same after any history of allocations and frees of live blocks from initialisation |
| `HeapLaws.ReleaseFreesOne` | SAYMA_firmware/lpc1776_ethernet_I2C/FreeRTOS/src/heap_4.c:239-261 | freeing takes exactly one address out of those in use |
| `Heaps.LinkedChain` | SAYMA_firmware/lpc1776_ethernet_I2C/FreeRTOS/src/heap_4.c:309-359 | in all four merging cases the rewritten headers are exactly the address-ordered free list of the heap with the block released, ending at pxEnd |
| `Heaps.FitInList` | SAYMA_firmware/lpc1776_ethernet_I2C/FreeRTOS/src/heap_4.c:181-187 | the first fit on the linked list is the lowest fit among the blocks |
| `HeapAllocators.Heap.constructor` | SAYMA_firmware/lpc1776_ethernet_I2C/FreeRTOS/src/heap_4.c:98-143 | the aligned heap lies inside ucHeap and is the largest multiple of the alignment that stays an alignment below configTOTAL_HEAP_SIZE |
| `HeapAllocators.Heap.HeapInit` | SAYMA_firmware/lpc1776_ethernet_I2C/FreeRTOS/src/heap_4.c:276-306 | one free block over the whole heap, and xFreeBytesRemaining without the end marker |
| `HeapAllocators.Heap.InsertBlockIntoFreeList` | SAYMA_firmware/lpc1776_ethernet_I2C/FreeRTOS/src/heap_4.c:309-359 | the loop and the pointer writes release the block, merged on both sides, and the free list, the headers and the block sequence agree again |
| `HeapAllocators.Heap.FindFit` | SAYMA_firmware/lpc1776_ethernet_I2C/FreeRTOS/src/heap_4.c:181-187 | the search loop finds the first fitting entry and its predecessor, or the end marker |
| `HeapAllocators.Heap.TakeBlock` | SAYMA_firmware/lpc1776_ethernet_I2C/FreeRTOS/src/heap_4.c:196-217 | unlinking and splitting in place, with the free byte count equal to the sum of the free sizes |
| `HeapAllocators.Heap.Malloc` | SAYMA_firmware/lpc1776_ethernet_I2C/FreeRTOS/src/heap_4.c:149-236 | lazy initialisation, padding, search and split: the result and the new heap are those of the block-level allocation |
| `HeapAllocators.Heap.Free` | SAYMA_firmware/lpc1776_ethernet_I2C/FreeRTOS/src/heap_4.c:239-261 | NULL is ignored; a live block is released; xFreeBytesRemaining stays the sum of the free sizes |

## Left out

- Board code, I2C, HTTP and file glue, start-up code and hardware design files: register accesses and calls into drivers.
- `port.c`: the context switch, BASEPRI masking and tickless sleep; a yield is a call of vTaskSwitchContext.
- Queue sets, the alternative queue API, co-routine queue functions and software timers: switched off in this build.
- vTaskList, run-time statistics, stack checks, the queue registry, trace hooks, task tags and MPU wrappers: debugging aids.
- Task creation before vTaskStartScheduler, where a new task may replace the current one: the model starts with the idle task running.
- Stacks, task names and the memory of control blocks: a task is a handle that is fresh when created and gone when reaped.
- Overflow of xNumOfOverflows, of the suspension nesting count, of uxMissedTicks and of the queue lock counts: these counters are unbounded here.
- KernelMachine.StepRefines: requires live handles, an idle task that is never blocked, suspended or deleted, and blocking calls made by the running task with the scheduler suspended, as the API documentation does.
- PriorityInheritance.ActKeeps: inheriting and joining the event list are one step, since the scheduler is suspended in between; nested mutexes and vTaskPrioritySet are excluded because giving one mutex disinherits fully, and inheritance is not passed on along chains.
- QueueProtocol.NoLostReceiverWakeup: one queue at a time, without deletion of waiting or woken tasks; when a timeout expires and where priority order places a waiter are left open, so the result holds for all choices.
- XLists.HeadIsNextToServe: one list on its own, and no waiting task's priority changes; for the kernel's runs see `KernelEventKeys` and `KernelEventWaits`.
- KernelEventOrder.OrderOverRuns: fewer than 2^32 - 1 priorities, since item values are ticks.
- IntrusiveLists.ListMemory.Initialise: of a list not in use; initialising a populated list again is left out.
- QueueObjects.QueueObject.constructor: that a mutex keeps its holder and call count in the fields of its storage pointers; holders and counts are treated in `RecursiveMutex` and `PriorityInheritance`.
- Bitmaps.BitmapSelectsTheSameLevel: the 32-bit word is a sequence of bits and clz a function on it.
- HeapAllocators.Heap.Free: requires NULL or the address of a live block, as the source does; the contents of payloads are not modelled.
