# A fixed-priority RTOS kernel, in Dafny

The repository is a small preemptive real-time kernel for a Cortex-M3: four priority
levels with time slicing, a timeout queue on a 32-bit tick, mutexes with priority
inheritance and direct hand-off, counting semaphores, a blocking message queue, a
lock-free single-producer single-consumer queue, and fixed-block memory pools. This
project models that logic and proves what the kernel is meant to guarantee, over all
runs.

## How it is laid out

- `State`, `Invariants`, `Machine`, `Runs`: the kernel as a value, one function per kernel
  routine, and a state machine whose steps are the system calls dispatched at
  arch/arm_cm/port.c:91-124, the tick and the context switch. A pended switch commits
  before the task runs again; only ticks may come in between. `Reachable` is reachability
  from boot. `Inv` holds between any two steps of any run: queues, records, owners, timeouts
  and counts are in order and the scheduler's choice stands. `FullInv` adds that priorities
  and the lists of owned mutexes are exact.
- `Structure`, `Inheritance`, `LockSteps`, `OwnedLists`, `UnlockSteps`, `SmallSteps`,
  `Preservation`, `Dispatch`, `Steps`, `MutexSteps`, `SafeRuns`: the proof that every step
  keeps `FullInv`, as executed if every lock is safe, and what follows from it.
- `Basics`: the proof that every step keeps `Inv`, locks nested at will.
- `StepChanges`, `History`, `Permits`, `Time`, `SharpBound`, `RoundRobin`: properties of whole
  runs.
- `QueueOrder` says, without the routines, what each step does to the order of every queue and
  of the timeouts, to the choice of what runs next and to the records of the tasks;
  `CallEffects`, `TickEffects`, `LockEffects` and `StepEffects` prove it, and `Fairness`
  draws the conclusion for whole runs.
- `NestedLocking`, `CyclicList`, `LockConditions`, `FiniteLists`, `FreeNesting`: what nested
  locking does as the code executes, in concrete runs and as exact conditions.
- `Links`, `QueueMemory`, `TimeoutMemory`, `KernelCode`: the same routines as the source
  writes them, loops and assignments on linked memory. Each is proved to do to the
  memory what the function of that name does to the state, so everything proved about
  runs holds of this code (`KernelCode.Kernel.Perform`). In `Kernel`, a struct field is a map from
  addresses to values; the ghost field `st` is the state the memory stands for.
- `BlockingQueue`, `QueueRuns`, `QueueResults`, `QueueCode`, `KernelObjects`, `KernelQueue`: the
  blocking queue as an interleaving of any number of threads, what its calls return, its
  critical sections in memory, the proof that the kernel's semaphores and mutexes are the
  ones it counts on, and the queue run by the kernel's own tasks.
- `Ring`, `SpscQueue`, `SpscCode`: the lock-free queue.
- `Mempool`, `PoolCode`, `Alignment`, `TaskCreation`, `TaskMemory`: the pools, task creation, and
  the memory of tasks over whole runs.

## Two readings of the contended lock

The comment at kernel/mutex.c:56 says that the task is no longer blocked when the call
at line 55 returns. But triggering PendSV only sets a pending bit
(arch/arm_cm/port.c:136-138), so lines 57-58 execute at once, before the switch and before
any hand-off. Both readings are modelled, and every theorem with a parameter `reading`
is proved for both:

- `Intended`: lines 20-55 are one step, and lines 57-58 another, taken when the task next
  runs. Nothing restricts nesting.
- `Executed`: the whole routine is one step. `blocked_on` is cleared at once, and the mutex
  goes onto the waiter's list while it is still on its owner's.

Locks may be nested at will under both, and mutual exclusion, hand-off, permits, delays,
queues and the message queue are proved of all runs of both. What depends on the lists of
owned mutexes, exact inheritance first, is proved in `SafeRuns` of all runs as intended, and
as executed of those in which every lock is safe (`Machine.SafeLock`): free mutexes may be
nested at will, but a caller that has to wait must own nothing, and nothing may be linked
behind the mutex, which is then the one its owner has owned longest.

Without that rule exact inheritance is false under `Executed`, and worse can happen:

- `NestedLocking.NestedRunFails` is a run in which the owner of a mutex drops to its base
  priority while a more urgent task still waits for it.
- `CyclicList.CyclicRun` is a run that ties a list of owned mutexes into a circle, after which
  an unlock never returns (kernel/mutex.c:131-135).
- `LockConditions.LockKeepsInvIff`: a lock keeps `FullInv` if and only if it is safe.
- `FiniteLists.RunFiniteIff` gives the exact condition for circles, over all runs with locks
  nested at will: every list ends throughout if and only if no lock that is not refused takes
  a mutex that is on its caller's list already. In such runs every unlock returns.
- `FreeNesting.RunExactIff` gives the exact condition for priorities, over all runs with locks
  nested at will in which every unlock returns: inheritance is exact throughout if and only
  if no contended lock meets a hidden chain (its owner waits itself, for a task less urgent
  than the caller, and has to be raised), and at every unlock, for each level below the
  caller's base, some task at that level or above waits for a mutex left on the caller's list
  exactly if one waits for another mutex that the caller owns. No other step matters.
  `FreeNesting.FiniteRunExactIff` says the same with the condition on locks in place of the
  assumption on unlocks.

## Model

| member | source | states |
|---|---|---|
| `SafeRuns.InheritanceIsExact` | kernel/mutex.c:20-101 | In every state reached by safe locks each task's priority is the least of its base priority and the priorities of all waiters on mutexes it owns, through lock, chained boost, unlock and hand-off (Intended: any nesting; Executed: every lock safe, free mutexes nested at will). |
| `SafeRuns.DispatchIsMostUrgent` | kernel/scheduler.c:317-330 | In such a state, once a pended switch commits, and also with none pended, exactly the current task is marked running and no task that could run is more urgent. |
| `Runs.SwitchIsMostUrgent` | kernel/scheduler.c:317-330 | In all runs of either reading a pended switch leads to a state in which exactly the current task is marked running and no task that could run is more urgent. |
| `MutexSteps.UnlockKeepsPriority` | kernel/mutex.c:85-97 | Unlocking a mutex nobody waits for leaves the owner's priority as it was, which is why that path may skip the scheduler. |
| `Runs.EveryTaskInOnePlace` | kernel/scheduler.c:34-125 | In all runs of either reading every task is in exactly one queue, once: the ready queue of its priority if it can run, the queue named by its wait field otherwise. |
| `SafeRuns.OwnedListsAreExact` | kernel/mutex.c:105-127 | Each task's list of mutexes is acyclic and holds exactly the mutexes it owns, apart from one handed over whose lock call has not resumed (Intended); or those it owns or awaits (Executed). |
| `SafeRuns.UnlockSeesEverything` | kernel/mutex.c:85-86 | Unlock always finds the mutex on the caller's list, and the recomputed priority is the least of the base and the waiters of all its other mutexes. |
| `Runs.WaitersAreSorted` | kernel/scheduler.c:62-96 | In all runs of either reading mutex waiters are queued most urgent first, boosts of queued tasks included. |
| `Runs.ReachableInv` | arch/arm_cm/port.c:91-124 | `Inv` holds after every run from boot, locks nested at will, under both readings. |
| `Basics.StepInv` | arch/arm_cm/port.c:91-124 | Every system call, tick, switch and initialisation keeps `Inv`, locks nested at will, under both readings. |
| `SafeRuns.SafelyReachableInv` | arch/arm_cm/port.c:91-124 | `FullInv` holds after every run from boot whose locks are all safe (Intended: after every run). |
| `SafeRuns.SafelyLegalIff` | kernel/mutex.c:41-58 | A run of safe locks is a run, and as intended every run is one. |
| `SafeRuns.StepFullInv` | arch/arm_cm/port.c:91-124 | Every system call, tick, switch and initialisation keeps `FullInv` (Executed: a lock if it is safe). |
| `Inheritance.BoostSettles` | kernel/mutex.c:45-53 | From a state that is exact but for the new waiter, the walk ends, for every wait graph including cycles, with every task exact, and changes only priorities. |
| `Inheritance.InheritsIff` | kernel/mutex.c:129-137 | The pointwise condition carried by the proofs is the same as being the least element of the set of claims. |
| `LockSteps.LockBlockSettled` | kernel/mutex.c:41-55 | Walking the chain and then joining the waiters leaves queues, fields and exact priorities in order. |
| `SafeRuns.ChainIsUrgent` | kernel/mutex.c:41-53 | Every task along a blocking chain of any length is at least as urgent as the task the chain starts from. |
| `UnlockSteps.MinHeadsLeast` | kernel/mutex.c:129-137 | The fold over the heads of the wait queues yields the least of the start value and all heads. |
| `UnlockSteps.RecomputeResidual` | kernel/mutex.c:129-137 | Looking only at queue heads, the recomputed priority counts every waiter of every other owned mutex. |
| `UnlockSteps.HandOffExact` | kernel/mutex.c:85-97 | When the owner drops to its residual priority and the mutex passes to a most urgent waiter, every task is exact again. |
| `UnlockSteps.UnlockSettled` | kernel/mutex.c:70-101 | Unlock with hand-off keeps queues, fields and inheritance in order. |
| `MutexSteps.LockIntendedInv` | kernel/mutex.c:41-55 | The contended lock as intended keeps `FullInv`, whatever the caller owns. |
| `MutexSteps.ResumeInv` | kernel/mutex.c:57-58 | Finishing the lock when the task next runs keeps `FullInv`. |
| `MutexSteps.LockExecutedInv` | kernel/mutex.c:41-63 | The contended lock as executed keeps `FullInv` if it is safe. |
| `MutexSteps.UnlockInv` | kernel/mutex.c:70-101 | Unlock keeps `FullInv` under both readings. |
| `NestedLocking.NestedRunFails` | kernel/mutex.c:55-58 | A run of allowed steps, with nested locking, that ends with inexact inheritance (Executed). |
| `NestedLocking.OwnerLeftBehind` | kernel/mutex.c:85-86 | In its last state the owner is at its base priority while a more urgent task waits for it. |
| `CyclicList.CyclicRun` | kernel/mutex.c:131-135 | A run of allowed steps, with one lock of a mutex on its caller's list, that ends with a list of owned mutexes that has no end, before and after the unlock that is about to walk it (Executed). |
| `LockConditions.ListSurvivesIff` | kernel/mutex.c:57-58 | From exact lists of the caller and the owner, whoever else waits, the owner's list survives a contended lock, and still holds exactly what it owns, if and only if the lock is safe (Executed). |
| `LockConditions.LockKeepsInvIff` | kernel/mutex.c:20-63 | A lock keeps `FullInv` exactly when it is safe (Executed). |
| `LockConditions.UnsafeBreaks` | kernel/mutex.c:57-58 | After a lock that is not safe, the list of the mutex's owner no longer ends with exactly what it owns (Executed). |
| `FiniteLists.PushedIff` | kernel/mutex.c:105-108 | While all lists end, putting a mutex in front of a task's list leaves them all ending if and only if it was not on that list. |
| `FiniteLists.UnlistedFinite` | kernel/mutex.c:110-127 | Taking a mutex off a list ties no circle, though other lists may share its links. |
| `FiniteLists.StepFiniteIff` | arch/arm_cm/port.c:91-124 | From lists that end a step leads to lists that end if and only if it is no lock, other than a refused one, of a mutex on its caller's list (Executed, any nesting). |
| `FiniteLists.RunFiniteIff` | kernel/mutex.c:20-137 | For all executed runs with locks nested at will: all lists end throughout if and only if no lock that is not refused takes a mutex that is on its caller's list already. |
| `FiniteLists.FiniteReturns` | kernel/mutex.c:110-137 | While all lists end, both loops of every unlock end. |
| `FiniteLists.SafeCompletes` | kernel/mutex.c:110-137 | So they do in every run whose locks are safe, and in every run as intended. |
| `FreeNesting.ContendedExactIff` | kernel/mutex.c:41-58 | A contended lock leaves exact priorities exact exactly when it meets no hidden chain (Executed, any nesting). |
| `FreeNesting.UnlockExactIff` | kernel/mutex.c:85-97 | An unlock leaves exact priorities exact if and only if, for each level below the caller's base, some task at that level or above waits for a mutex left on the caller's list exactly if one waits for another mutex that the caller owns (Executed, any nesting). |
| `FreeNesting.AccountsIff` | kernel/mutex.c:129-137 | The priority an unlock recomputes is the one the caller still inherits if and only if its list accounts, level by level, for the tasks it still keeps waiting. |
| `FreeNesting.LeftIs` | kernel/mutex.c:110-127 | What an unlock leaves on a list that ends is everything on it but the mutex unlocked. |
| `FreeNesting.StepExactIff` | arch/arm_cm/port.c:91-124 | Every step of every executed run keeps exact priorities exact exactly when it meets its condition; only lock and unlock have one. |
| `FreeNesting.RunExactIff` | kernel/mutex.c:20-101 | For all executed runs with locks nested at will in which every unlock returns: inheritance is exact throughout if and only if every lock and unlock meets its condition. |
| `FreeNesting.FiniteRunExactIff` | kernel/mutex.c:20-137 | The same for all executed runs in which no lock that is not refused takes a mutex on its caller's list; there every unlock returns. |
| `History.MutualExclusion` | kernel/mutex.c:29-63 | In all runs a task whose lock has returned 0 and that has not unlocked is the owner, no two tasks hold one mutex, a mutex with waiters has an owner, never one of them, and an owner that does not hold is on its way out of a lock call. |
| `History.ReleasedOnlyByHandOff` | kernel/mutex.c:88-90 | A mutex waiter stops waiting only because the owner's unlock handed it the mutex, never by timeout. |
| `History.HeirIsMostUrgent` | kernel/mutex.c:88-90 | Unlock hands the mutex to a most urgent waiter, and to nobody only if nobody waits. |
| `StepChanges.StepChangesOnly` | kernel/scheduler.c:206-315 | For every step: which task starts or stops waiting, which owner and which count change, and that no other wait, owner or count does. Priorities and orders are the subject of `StepEffects.EveryStep`. |
| `StepEffects.EveryStep` | arch/arm_cm/port.c:91-124 | For every step from every reachable state, locks nested at will: the contents of every queue and of the timeout queue, in order; who is next and whether a switch is pended; and the state, result, wake-up tick and priority of every task. |
| `StepEffects.SliceEnds` | kernel/tick.c:37-52 | The tick ends the time slice, whoever is due and whether or not a switch is pended: a current task that heads its level goes last, behind the sleepers of that level that wake; everywhere else old tasks keep their order and woken ones come last, in the order in which they wake. Only a current task that is itself asleep, and the first to wake on an empty level, goes behind those that wake after it. |
| `StepEffects.ArrivalOrder` | kernel/mutex.c:41-55 | A contended lock queues its caller behind all waiters at least as urgent and ahead of all that are less; in every queue the tasks that the walk did not raise keep their order. |
| `StepEffects.GiveAppends` | kernel/semaphore.c:48-70 | A give with a waiter appends it to the ready queue of its priority and leaves every other queue, and the turn of the giver, as they were; a switch is pended only if another task is to run. |
| `LockEffects.WalkOrder` | kernel/mutex.c:45-53 | The walk moves only the tasks it raises: those that can run go last in their new level, those that wait go behind their equals. |
| `TickEffects.ExpireIs` | kernel/scheduler.c:206-227 | Expiry wakes the longest prefix of the timeout queue that is due, in order, with result -1, and moves nobody else. |
| `CallEffects.UnlockOrder` | kernel/mutex.c:85-97 | An unlock puts its caller last at the priority it falls to, and after it the heir last at its own; nobody else moves, and only a hand-over asks what is to run next. |
| `Fairness.NoOvertaking` | kernel/scheduler.c:237-294 | Over any run, a task that waits for a semaphore or a mutex is not overtaken by one behind it, as long as no walk raises either. |
| `Permits.PermitsConserved` | kernel/semaphore.c:21-70 | Initial count plus gives equals count plus grants, calls are granted or queued, the count is never negative, and a positive count means no waiters, in every run. |
| `Time.WakesExactly` | kernel/tick.c:23-52 | In any run whose delays are at most 2^31 ticks or for ever, a task that asks for d ticks sleeps until exactly the d-th following tick, however often the counter wraps. |
| `Time.ExpireExact` | kernel/scheduler.c:206-227 | Examining only a prefix of the timeout queue wakes exactly the tasks whose deadline has come. |
| `Time.ReachedIff` | kernel/scheduler.c:139-141 | Within half the range of each other, wrapped ticks compare like unbounded ones. |
| `Time.ArmTime` | kernel/scheduler.c:143-183 | Arming a delay of at most 2^31 ticks keeps the timeout queue in order of deadline, across wrap-around, with every entry armed for its deadline. |
| `Time.FirstTickWakesIff` | kernel/scheduler.c:139-141 | For a lone sleeper the next tick ends the delay exactly if one tick was asked for, or 2^31 + 2 or more. |
| `Time.LongDelayHidesShort` | kernel/scheduler.c:159-170 | A sleeper armed for 2^31 + 1 ticks makes a one-tick delay that follows miss its tick. |
| `SharpBound.BoundIsSharp` | kernel/tick.c:23-52 | Every run whose finite delays are at most d wakes every sleeper exactly at its tick if and only if d is at most 2^31; for larger d a two-task run from boot fails. |
| `RoundRobin.EveryTaskTakesItsTurn` | kernel/tick.c:37-52 | With n tasks at the most urgent level and nobody due, n ticks with their switches run each of them exactly once, in order, and restore the queue. |
| `Dispatch.TopIsMostUrgent` | kernel/scheduler.c:127-135 | The scheduler's choice exists, can run, heads its level, and no more urgent level is occupied. |
| `Structure.InsertSorted` | kernel/scheduler.c:62-96 | Insertion by priority keeps a sorted queue sorted. |
| `KernelState.PriorityPos` | kernel/scheduler.c:74-77 | The place found is after all tasks at least as urgent and before the first less urgent one: equals stay in order. |
| `KernelState.TimeoutPos` | kernel/scheduler.c:159-163 | The place found is before the first task that wakes no sooner. |
| `Structure.SetPriorityMoves` | kernel/scheduler.c:298-315 | After a change of priority every task is in the one queue its fields name and mutex waiters are still sorted. |
| `Structure.SetPriorityOrder` | kernel/scheduler.c:298-315 | Nobody else is moved: all other tasks keep their order in every queue, and a task that is not waiting comes last in its new ready queue. |
| `Links.ListAppend` | kernel/scheduler.c:34-44 | The pointer writes of add append one element to a doubly linked list. |
| `Links.ListRemove` | kernel/scheduler.c:46-60 | The pointer writes of remove delete one element, wherever it is. |
| `Links.ListInsert` | kernel/scheduler.c:84-95 | The pointer writes of an insertion before an element do that. |
| `Links.ListRotate` | kernel/scheduler.c:108-116 | The pointer writes of rotate move the head to the tail. |
| `QueueMemory.OneListChanges` | kernel/scheduler.c:34-117 | Queues share their links, and rewriting one leaves all others as they are. |
| `QueueMemory.TaskQueues.Add` | kernel/scheduler.c:34-44 | Appends to one queue; all links stay consistent. |
| `QueueMemory.TaskQueues.Remove` | kernel/scheduler.c:46-60 | Deletes one task from one queue; it is then in none. |
| `QueueMemory.TaskQueues.Peek` | kernel/scheduler.c:27-32 | The head of the queue, or NULL if it is empty. |
| `QueueMemory.TaskQueues.InsertByPriority` | kernel/scheduler.c:62-96 | Stable sorted insertion into one queue. |
| `QueueMemory.TaskQueues.FirstLessUrgent` | kernel/scheduler.c:74-77 | The loop stops at the first less urgent task. |
| `QueueMemory.TaskQueues.Rotate` | kernel/scheduler.c:100-117 | Moves the head to the tail if it is the given task and not alone. |
| `TimeoutMemory.TimeoutQueue.InsertSorted` | kernel/scheduler.c:143-183 | Inserts before the first task that wakes no sooner. |
| `TimeoutMemory.TimeoutQueue.FirstToWake` | kernel/scheduler.c:159-163 | The loop stops at the first task that wakes no sooner. |
| `TimeoutMemory.TimeoutQueue.Remove` | kernel/scheduler.c:185-204 | Deletes the task if it is queued, and changes nothing if it is not. |
| `KernelCode.Kernel.Schedule` | kernel/scheduler.c:127-135 | Chooses the head of the most urgent non-empty level. |
| `KernelCode.Kernel.ProcessTimeouts` | kernel/scheduler.c:206-233 | Wakes the expired prefix with result -1 and reschedules. |
| `KernelCode.Kernel.BlockCurrent` | kernel/scheduler.c:237-271 | Moves the current task from its ready queue to the wait queue and, unless for ever, to the timeout queue. |
| `KernelCode.Kernel.WakeOne` | kernel/scheduler.c:274-294 | Moves the head of a wait queue to its ready queue and returns it. |
| `KernelCode.Kernel.SetPriority` | kernel/scheduler.c:298-315 | Requeues by the new priority; a priority out of range changes nothing. |
| `KernelCode.Kernel.CommitSwitch` | kernel/scheduler.c:317-330 | The chosen task becomes current and running, the previous one ready if it was running. |
| `KernelCode.Kernel.MutexInit` | kernel/mutex.c:5-14 | A free mutex without waiters; NULL gives -1. |
| `KernelCode.Kernel.RaiseOwners` | kernel/mutex.c:45-53 | The loop ends for every wait graph and has the effect of the walk. |
| `KernelCode.Kernel.LockBegin` | kernel/mutex.c:20-55 | The lock up to the call that blocks, with its return codes. |
| `KernelCode.Kernel.LockFinish` | kernel/mutex.c:57-58 | The lines after that call. |
| `KernelCode.Kernel.MutexLock` | kernel/mutex.c:20-63 | The whole routine as it executes: -1 for NULL or the owner itself, else 0. |
| `KernelCode.Kernel.MutexUnlock` | kernel/mutex.c:70-101 | Every unlock that returns, in any run: hand-off, and -1 for NULL or a caller that is not the owner. |
| `KernelCode.Kernel.AddToOwned` | kernel/mutex.c:105-108 | Links the mutex in front of the task's list. |
| `KernelCode.Kernel.RemoveFromOwned` | kernel/mutex.c:110-127 | Unlinks the mutex from the task's list, wherever it is, if the search for it ends. |
| `KernelCode.Kernel.RecomputePriority` | kernel/mutex.c:129-137 | The least of the base priority and the heads of the wait queues. |
| `KernelCode.Kernel.SemInit` | kernel/semaphore.c:6-15 | A semaphore without waiters; NULL or a negative count gives -1. |
| `KernelCode.Kernel.SemTake` | kernel/semaphore.c:21-41 | Takes a permit or queues the caller. |
| `KernelCode.Kernel.SemGive` | kernel/semaphore.c:48-70 | Hands the permit to the first waiter, or counts it. |
| `KernelCode.Kernel.Yield` | kernel/task.c:173-177 | Rotates the caller's level, chooses, pends the switch. |
| `KernelCode.Kernel.DelayTicks` | kernel/tick.c:23-35 | Zero ticks yield; otherwise the caller sleeps. |
| `KernelCode.Kernel.SysTick` | kernel/tick.c:37-52 | Counts the tick modulo 2^32, wakes, rotates and reschedules. |
| `KernelCode.Kernel.AddTask` | kernel/task.c:70-131 | A new ready task at the end of its queue; the switch is pended only if something runs. |
| `KernelCode.Kernel.StartScheduler` | kernel/task.c:147-162 | Chooses the first task and pends the switch to it. |
| `KernelCode.Kernel.Perform` | arch/arm_cm/port.c:91-124 | Whatever happens next, locks nested at will, the memory follows the state machine, all links stay consistent and `Inv` holds again, and so does `FullInv` if it held and the step is safe; only an unlock over a list without end is excluded. |
| `KernelCode.Boot` | kernel/main.c:16-28 | Boot ends in the initial state of the machine, with the idle task. |
| `KernelObjects.SemaphoreStep` | kernel/semaphore.c:21-70 | Under every kernel step a semaphore changes only as its own take and give say, and a permit given goes to a waiter if there is one. |
| `KernelObjects.MutexStep` | kernel/mutex.c:20-101 | The same for a mutex, its lock and its unlock. |
| `KernelQueue.RunProjects` | kernel/queue.c:28-96 | Every run of the kernel whose tasks use a queue, other calls, ticks and switches included, is a run of the queue's threads, and the kernel's objects stay in the state the threads see. |
| `KernelQueue.KernelQueueIsFifo` | kernel/queue.c:28-96 | So on the kernel the queue is first-in first-out, holds at most its capacity, and each next step puts, gets the oldest, or does neither. |
| `KernelQueue.KernelCallsAnswered` | kernel/queue.c:28-96 | And the queue's calls made by kernel tasks return what they should. |
| `QueueRuns.RefinesBuffer` | kernel/queue.c:28-96 | For any number of threads and any interleaving, each step is a put, a get of the oldest message, or no step of a bounded first-in first-out buffer. |
| `QueueRuns.FirstInFirstOut` | kernel/queue.c:28-96 | Messages received are a prefix of those sent, at most capacity are stored, each in its slot. |
| `QueueRuns.PermitsConserved` | kernel/queue.c:36-60 | The two permit equations hold in every reachable state. |
| `QueueRuns.NoUnreadSlotWritten` | kernel/queue.c:47-48 | A sender writes one slot, in bounds, that holds no unread message, also while its copy is incomplete. |
| `QueueRuns.ErrorBranches` | kernel/queue.c:41-58 | Locking fails exactly for a thread that owned the lock when it called, and unlocking never fails. |
| `QueueResults.CallsAnswered` | kernel/queue.c:28-96 | Over every run: a send or receive has returned 0 if and only if its own copy took place, a receiver then with the message that copy fetched, and -1 if and only if the argument was NULL or the thread owned the lock when it called; a direct lock or unlock has returned what it should. |
| `QueueResults.MovesIsEffect` | kernel/queue.c:47-48 | What a call's copy moves is what it does to the buffer: it puts the message sent, or gets the oldest. |
| `QueueRuns.OneInside` | kernel/queue.c:76-90 | At most one thread is between lock and unlock. |
| `QueueCode.MessageQueue.Initialise` | kernel/queue.c:5-26 | Succeeds exactly for non-NULL storage, messages and capacity that are not empty, and a capacity below 2^31, and then sets up indices, lock and both semaphores. |
| `QueueCode.MessageQueue.StoreMessage` | kernel/queue.c:47-53 | The sender's critical section is its copy, advance and wrap steps. |
| `QueueCode.MessageQueue.FetchMessage` | kernel/queue.c:82-88 | The receiver's critical section, which returns the oldest stored message. |
| `SpscQueue.ConsumedIsPrefix` | kernel/lfqueue.c:4-84 | Under every interleaving and stale load, messages consumed are a prefix of those produced and at most capacity - 1 are stored. |
| `SpscQueue.LentLocations` | kernel/lfqueue.c:26-40 | The location lent to the producer holds no unread message and is not the one lent to the consumer; the consumer's holds the next message as long as it is lent. |
| `SpscQueue.RefusedIff` | kernel/lfqueue.c:33-67 | NULL is returned exactly when the queue is full, or empty, as far as that side has seen. |
| `SpscQueue.UncheckedUpdate` | kernel/lfqueue.c:42-84 | Called with or without a location, an update keeps the queue's invariant exactly when the queue was not full, or not empty; otherwise full looks empty, or empty full. |
| `SpscQueue.WriteSafeIff` | kernel/lfqueue.c:42-54 | The same for the write index and any number of messages known to be read. |
| `SpscQueue.ReadSafeIff` | kernel/lfqueue.c:72-84 | The same for the read index and any number of messages known to be written. |
| `Ring.NextSlot` | kernel/lfqueue.c:4-10 | Advancing an index with wrap is the next position modulo the capacity. |
| `SpscCode.IndexedQueue.Initialise` | kernel/lfqueue.c:12-24 | Succeeds exactly for non-NULL storage, messages that are not empty and at least two slots. |
| `SpscCode.IndexedQueue.WriteLocation` | kernel/lfqueue.c:26-40 | Its two loads are the producer's two steps, and its result is where they lead. |
| `SpscCode.IndexedQueue.UpdateWrite` | kernel/lfqueue.c:42-54 | Advances the write index, whatever was asked before; after a location was lent, this publishes its message. |
| `SpscCode.IndexedQueue.ReadLocation` | kernel/lfqueue.c:56-70 | Its two loads are the consumer's two steps. |
| `SpscCode.IndexedQueue.UpdateRead` | kernel/lfqueue.c:72-84 | Advances the read index, whatever was asked before; after a location was lent, this gives it back. |
| `Mempool.PoolSafety` | kernel/mempool.c:14-88 | In every run in which clients free and write only what they hold, free and held blocks partition the pool and the list inside the free blocks is acyclic with free_count elements. |
| `Mempool.WritePartition` | kernel/mempool.c:39-57 | A client's write inside a block it holds does not disturb the free list. |
| `Mempool.InitPartition` | kernel/mempool.c:14-37 | After initialisation every block is free. |
| `Mempool.AcceptsIff` | kernel/mempool.c:68-77 | The range and offset checks accept exactly the addresses at which a block begins. |
| `Mempool.FreeKeepsIff` | kernel/mempool.c:59-88 | Freeing an accepted address keeps the pool intact exactly if the block was held: a double free makes the list a circle. |
| `Mempool.AllocThenFree` | kernel/mempool.c:39-88 | Freeing what was just allocated restores the pool to the word. |
| `PoolCode.MemoryPool.Initialise` | kernel/mempool.c:14-37 | The loop links all blocks; bad arguments change nothing. |
| `PoolCode.MemoryPool.Allocate` | kernel/mempool.c:39-57 | Takes the first free block, or returns NULL and changes nothing. |
| `PoolCode.MemoryPool.Release` | kernel/mempool.c:59-88 | Puts an accepted block first and returns 0; anything else gives -1 and changes nothing. |
| `Alignment.AlignUpIs` | kernel/mempool.c:10-12 | For a power of two, the least multiple not below the value. |
| `TaskCreation.FailureChangesNothing` | kernel/task.c:91-121 | A create that fails, for whatever reason, leaves both pools and the kernel exactly as they were. |
| `TaskCreation.SuccessAddsOneTask` | kernel/task.c:100-133 | A create that succeeds takes one block of each pool and appends one ready task under a fresh address, and all invariants hold again. |
| `TaskCreation.BootIsSane` | kernel/main.c:18-28 | From freshly initialised pools, creating the idle task leads to the machine's initial state with pools intact. |
| `TaskMemory.TasksApart` | kernel/kalloc.c:8-61 | In every run of creates, other kernel steps and writes of tasks to their own memory: each task has a stack of the words asked for and a control block, inside the storage for them, and no two tasks share a byte of either. |
| `TaskMemory.CreateSucceedsIff` | kernel/task.c:85-121 | In every such run a create succeeds if and only if the argument and its entry are not NULL, the priority is at most 3, the stack has 1 to 256 words, and there are fewer than 8 tasks. |
| `TaskCreation.CreationService.InitialisePools` | kernel/kalloc.c:15-31 | Both pools start with every block free, 32 blocks of 64 bytes and 8 of 1024, each pool filling its storage; a block holds a control block, or a stack of 256 words. |
| `TaskCreation.CreationService.AllocObject` | kernel/kalloc.c:34-40 | Sizes of 0 or over 64 bytes get NULL without touching the pool. |
| `TaskCreation.CreationService.AllocStack` | kernel/kalloc.c:48-61 | Stacks of 0 or over 256 words get NULL without touching the pool. |
| `TaskCreation.CreationService.CreateTask` | kernel/task.c:85-134 | The routine follows `TryCreate` on every path and returns 0 exactly if it succeeds. |

## Left out

- Assembly, registers, MPU, PRIMASK and privilege (arch/arm_cm/port.c, arch/arm_cm/startup.c): only the list of system calls and the deferral of PendSV are kept.
- The stack frame built at kernel/task.c:41-69 is not laid out; creation initialises the control block, and a stack is assumed to hold the 16-word frame.
- `os_commit_switch` is one atomic step; a tick in the middle of it is not modelled.
- Kernel calls before the scheduler starts, other than task creation and initialisation, and calls by the idle task (kernel/main.c:10-14) do not occur.
- A semaphore is not given beyond INT32_MAX (`Machine.Enabled`), where the C counter would overflow. Semaphore waiters are served in order of arrival unless a walk raises one: kernel/scheduler.c:311-314 then requeues it by priority.
- Objects are not re-initialised while in use: a mutex, semaphore or queue is initialised once.
- Where C would follow a cyclic list of owned mutexes for ever, `KernelState.Follow` stops at the first repetition. An unlock over such a list is a step of the machine that the source never completes; `FiniteLists` says exactly in which runs there is none, `FreeNesting.RunExactIff` and `KernelCode.Kernel.Perform` exclude it, and the other theorems hold with or without it.
- The comment at kernel/scheduler.c:160 says that a new sleeper goes before the first later one; the code, which is followed here, puts it before the first one that is not earlier.
- Time.WakesExactly: delays over 2^31 ticks other than for ever are excluded, because the 32-bit comparison cannot carry them (`SharpBound.BoundIsSharp` proves that no larger bound will do).
- C11 memory orders beyond stale but monotone loads of the other side's index; the NULL-queue checks of kernel/lfqueue.c, since a method has its object.
- Slots and blocks are numbered: 32-bit overflow of index times message size, or of block size times count, is not modelled, and block sizes are multiples of the pointer size, as kernel/kalloc.c makes them.
- Message copies (kernel/memory.c) are assignments of whole messages, preceded by arbitrary partial contents of the slot being written.
- kernel/rtt.c is the same one-slot-free ring with a debugger as reader and would only add an easier member; bsp/, app/, benchmark/, linker/ and scripts/ are device code, demonstrations and tooling.
