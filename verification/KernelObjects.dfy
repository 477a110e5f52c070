/** The kernel's semaphores and mutexes are the ones the message queue counts on: whatever
    step the kernel takes, each of them changes only as its own calls say, and a permit or a
    lock given up goes to a waiter if there is one. */
module KernelObjects {
  import opened Base
  import opened KernelState
  import opened Invariants
  import opened OwnedLists
  import opened Machine
  import opened Runs
  import opened StepChanges
  import Callers = BlockingQueue

  ghost function SemView(s: State, i: Sid): (r: Callers.Sem) {
    Callers.Sem(CountOf(s, i), Waiters(s.tasks, SemQ(i)))
  }

  ghost function LockView(s: State, m: Mid): (r: Callers.Lock) {
    Callers.Lock(MutexOf(s, m).owner, Waiters(s.tasks, MutexQ(m)))
  }

  /** The head of a queue. */
  function First(s: State, q: QueueId): (r: Option<Tid>) {
    if QueueOf(s, q) == [] then None else Some(QueueOf(s, q)[0])
  }

  lemma FirstIsHeir(s: State, idle: Tid, q: QueueId)
    requires Core(s, idle) && q in s.queues && !q.ReadyQ?
    ensures Callers.IsHeir(Waiters(s.tasks, q), First(s, q))
  {
    hide Sorted, MutexesOk, Hinted, Rest;
    var w := Waiters(s.tasks, q);
    assert forall t :: t in w <==> t in s.queues[q];
    if First(s, q).Some? {
      assert First(s, q).value in w;
    }
  }

  lemma QueuesExist(reading: Reading, s: State, idle: Tid, e: Event)
    requires Inv(reading, s, idle) && Enabled(reading, s, idle, e)
    ensures Core(s, idle) && Shape(s)
    ensures e.TakeCall? || e.GiveCall? || e.LockMutex? || e.UnlockMutex? ==> s.current.Some?
  {
  }

  lemma SemaphoreAfter(s: State, r: State, e: Event, i: Sid)
    requires WaitsOnly(s, r, e) && CountsOnly(s, r, e) && MoverOk(s, e) && i in s.sems
    requires e == TakeCall(i) || e == GiveCall(i) ==> s.current.Some?
    ensures SemView(r, i) ==
      if e == TakeCall(i) then Callers.Taken(SemView(s, i), s.current.value)
      else if e == GiveCall(i) then Callers.Given(SemView(s, i), First(s, SemQ(i)))
      else SemView(s, i)
  {
    WaitersByMover(s, r, e, SemQ(i));
    hide WaitsOnly;
  }

  lemma MutexAfter(s: State, r: State, e: Event, m: Mid)
    requires WaitsOnly(s, r, e) && OwnersOnly(s, r, e) && MoverOk(s, e) && m in s.mutexes
    requires e == LockMutex(m) || e == UnlockMutex(m) ==> s.current.Some?
    ensures LockView(r, m) ==
      if e == LockMutex(m) then Callers.Locked(LockView(s, m), s.current.value)
      else if e == UnlockMutex(m) && MutexOf(s, m).owner == s.current then Callers.Released(LockView(s, m), First(s, MutexQ(m)))
      else LockView(s, m)
  {
    WaitersByMover(s, r, e, MutexQ(m));
    hide WaitsOnly;
  }

  /** Every kernel step, seen from semaphore `i`. */
  lemma SemaphoreStep(reading: Reading, s: State, idle: Tid, e: Event, i: Sid)
    requires Reachable(reading, s, idle) && Enabled(reading, s, idle, e) && i in s.sems
    ensures SemView(Step(reading, s, e), i) ==
      if e == TakeCall(i) then Callers.Taken(SemView(s, i), s.current.value)
      else if e == GiveCall(i) then Callers.Given(SemView(s, i), First(s, SemQ(i)))
      else SemView(s, i)
    ensures Callers.IsHeir(SemView(s, i).waiters, First(s, SemQ(i)))
  {
    hide Reachable, Core, Inv, Step, Enabled, WaitsOnly, OwnersOnly, HintsOnly, MoverOk;
    ReachableInv(reading, s, idle);
    QueuesExist(reading, s, idle, e);
    StepChangesOnly(reading, s, idle, e);
    MoverExists(reading, s, idle, e);
    SemaphoreAfter(s, Step(reading, s, e), e, i);
    FirstIsHeir(s, idle, SemQ(i));
  }

  /** Every kernel step, seen from mutex `m`. */
  lemma MutexStep(reading: Reading, s: State, idle: Tid, e: Event, m: Mid)
    requires Reachable(reading, s, idle) && Enabled(reading, s, idle, e) && m in s.mutexes
    ensures LockView(Step(reading, s, e), m) ==
      if e == LockMutex(m) then Callers.Locked(LockView(s, m), s.current.value)
      else if e == UnlockMutex(m) && MutexOf(s, m).owner == s.current then Callers.Released(LockView(s, m), First(s, MutexQ(m)))
      else LockView(s, m)
    ensures Callers.IsHeir(LockView(s, m).waiters, First(s, MutexQ(m)))
  {
    hide Reachable, Core, Inv, Step, Enabled, WaitsOnly, OwnersOnly, HintsOnly, MoverOk;
    ReachableInv(reading, s, idle);
    QueuesExist(reading, s, idle, e);
    StepChangesOnly(reading, s, idle, e);
    MoverExists(reading, s, idle, e);
    MutexAfter(s, Step(reading, s, e), e, m);
    FirstIsHeir(s, idle, MutexQ(m));
  }
}
