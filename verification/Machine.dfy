/** The kernel as a state machine: the system calls, the tick and the context switch. */
module Machine {
  import opened Base
  import opened KernelState
  import opened Invariants
  import opened OwnedLists

  datatype Event =
    | YieldCall
    | DelayCall(ticks: Word)
    | TakeCall(sem: Sid)
    | GiveCall(sem: Sid)
    | LockMutex(mutex: Mid)
    | ResumeLock
    | UnlockMutex(mutex: Mid)
    | CreateTask(task: Tid, prio: Priority)
    | StartKernel
    | TickInterrupt
    | SwitchContext
    | InitMutex(mutex: Mid, link: Option<Mid>)
    | InitSem(sem: Sid, count: nat)

  const INT32_MAX := 0x7FFF_FFFF

  /** A task other than idle is running, no switch is pended and no lock call is unfinished. */
  ghost predicate MayCall(s: State, idle: Tid) {
    && s.current.Some? && s.current.value in s.tasks && !s.pended
    && s.current.value != idle
    && s.tasks[s.current.value].blockedOn.None?
  }

  /** The running task owns no mutex. */
  ghost predicate OwnsNothing(s: State) {
    forall m :: m in s.mutexes ==> s.mutexes[m].owner != s.current
  }

  /** A lock that may be executed in one step: free mutexes may be nested at will, but a caller
      that has to wait must own nothing, and nothing may be linked behind the mutex, which is
      then the one its owner has owned longest. */
  ghost predicate SafeLock(s: State, m: Mid) {
    Contended(s, m) ==> OwnsNothing(s) && MutexOf(s, m).next.None?
  }

  /** When a step can happen.  The idle task makes no calls (kernel/main.c:10-14), and a
      semaphore is not given beyond INT32_MAX. */
  ghost predicate Enabled(reading: Reading, s: State, idle: Tid, e: Event) {
    match e
    case YieldCall => MayCall(s, idle)
    case DelayCall(_) => MayCall(s, idle)
    case TakeCall(i) => MayCall(s, idle) && i in s.sems
    case GiveCall(i) => MayCall(s, idle) && i in s.sems && s.sems[i] < INT32_MAX
    case LockMutex(m) => MayCall(s, idle) && m in s.mutexes
    case ResumeLock =>
      && reading.Intended? && s.current.Some? && s.current.value in s.tasks && !s.pended
      && s.tasks[s.current.value].blockedOn.Some?
    case UnlockMutex(m) => MayCall(s, idle) && m in s.mutexes
    case CreateTask(t, _) => t !in s.tasks && (s.current.None? || MayCall(s, idle))
    case StartKernel => s.current.None?
    case TickInterrupt => s.current.Some?
    case SwitchContext => s.pended
    case InitMutex(m, _) => m !in s.mutexes
    case InitSem(i, _) => i !in s.sems
  }

  /** As executed, every lock is safe; as intended, this asks for nothing more. */
  ghost predicate SafelyEnabled(reading: Reading, s: State, idle: Tid, e: Event) {
    Enabled(reading, s, idle, e) && (reading.Executed? && e.LockMutex? ==> SafeLock(s, e.mutex))
  }

  function Step(reading: Reading, s: State, e: Event): (r: State) {
    match e
    case YieldCall => Yield(s)
    case DelayCall(n) => Delay(s, n)
    case TakeCall(i) => SemTake(s, i)
    case GiveCall(i) => SemGive(s, i)
    case LockMutex(m) => if reading.Intended? then LockCall(s, m) else LockExecuted(s, m)
    case ResumeLock =>
      if s.current.Some? && TaskOf(s.tasks, s.current.value).blockedOn.Some?
      then LockResume(s, TaskOf(s.tasks, s.current.value).blockedOn.value) else s
    case UnlockMutex(m) => Unlock(s, m)
    case CreateTask(t, p) => Create(s, t, p)
    case StartKernel => Start(s)
    case TickInterrupt => Tick(s)
    case SwitchContext => Commit(s)
    case InitMutex(m, link) => NewMutex(s, m, link)
    case InitSem(i, n) => NewSem(s, i, n)
  }

  /** What holds between any two steps if every lock is safe. */
  ghost predicate FullInv(reading: Reading, s: State, idle: Tid) {
    Settled(s, idle) && Dispatched(s) && OwnedOk(reading, s)
  }

  /** `blockedOn` names a mutex that exists. */
  ghost predicate Hinted(tasks: map<Tid, Task>, mutexes: map<Mid, Mutex>) {
    forall t :: t in tasks && tasks[t].blockedOn.Some? ==> tasks[t].blockedOn.value in mutexes
  }

  /** `blockedOn` is clear. */
  ghost predicate Unannounced(tasks: map<Tid, Task>) {
    forall t :: t in tasks ==> tasks[t].blockedOn.None?
  }

  /** Queues, fields, timeouts and semaphores are in order, whatever the priorities and the lists
      of owned mutexes. */
  ghost predicate Core(s: State, idle: Tid) {
    && Placed(s.tasks, s.queues) && Records(s.tasks) && MutexesOk(s.tasks, s.mutexes) && Rest(s, idle)
    && Hinted(s.tasks, s.mutexes)
  }

  /** The current task is the one marked running, unless a switch to the scheduler's choice is pended. */
  ghost predicate Attended(s: State) {
    && OneRunning(s)
    && (s.pended ==> s.current.Some? && s.next.Some? && s.next == Top(s))
    && (s.current.Some? && !s.pended ==> s.tasks[s.current.value].status.Running?)
  }

  /** What holds between any two steps, locks nested at will. */
  ghost predicate Inv(reading: Reading, s: State, idle: Tid) {
    Core(s, idle) && Attended(s) && (reading.Executed? ==> Unannounced(s.tasks))
  }
}
