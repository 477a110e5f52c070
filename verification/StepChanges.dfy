/** What one step can change: who waits where, who owns what, and semaphore counts. */
module StepChanges {
  import opened Base
  import opened KernelState
  import opened Invariants
  import opened OwnedLists
  import opened UnlockSteps
  import opened SmallSteps
  import opened Machine
  import opened Steps
  import opened MutexSteps
  import opened Basics

  datatype Move = Move(task: Tid, to: Option<QueueId>)

  /** The one task that a system call parks or releases, and where it goes. */
  function Mover(s: State, e: Event): (r: Option<Move>) {
    if s.current.None? then None else
    match e
    case DelayCall(n) => if n == 0 then None else Some(Move(s.current.value, Some(Sleep)))
    case TakeCall(i) => if CountOf(s, i) > 0 then None else Some(Move(s.current.value, Some(SemQ(i))))
    case GiveCall(i) => if QueueOf(s, SemQ(i)) == [] then None else Some(Move(QueueOf(s, SemQ(i))[0], None))
    case LockMutex(m) => if Contended(s, m) then Some(Move(s.current.value, Some(MutexQ(m)))) else None
    case UnlockMutex(m) =>
      if MutexOf(s, m).owner == s.current && QueueOf(s, MutexQ(m)) != []
      then Some(Move(QueueOf(s, MutexQ(m))[0], None)) else None
    case _ => None
  }

  /** Apart from the mover, only sleepers change place, and only on a tick. */
  ghost predicate WaitsOnly(s: State, r: State, e: Event) {
    && s.tasks.Keys <= r.tasks.Keys
    && (forall t :: t in s.tasks ==>
          if Mover(s, e).Some? && Mover(s, e).value.task == t then r.tasks[t].waitQ == Mover(s, e).value.to
          else (r.tasks[t].waitQ == s.tasks[t].waitQ
                || (e.TickInterrupt? && s.tasks[t].waitQ == Some(Sleep) && r.tasks[t].waitQ == None)))
    && (forall t :: t in r.tasks && t !in s.tasks ==> e.CreateTask? && r.tasks[t].waitQ == None)
  }

  /** The owner of `m` after the step. */
  function OwnerAfterStep(s: State, e: Event, m: Mid): (o: Option<Tid>) {
    if e == LockMutex(m) && MutexOf(s, m).owner.None? then s.current
    else if e == UnlockMutex(m) && MutexOf(s, m).owner.Some? && MutexOf(s, m).owner == s.current then
      (if QueueOf(s, MutexQ(m)) == [] then None else Some(QueueOf(s, MutexQ(m))[0]))
    else MutexOf(s, m).owner
  }

  ghost predicate OwnersOnly(s: State, r: State, e: Event) {
    && s.mutexes.Keys <= r.mutexes.Keys
    && (forall m :: m in s.mutexes ==> r.mutexes[m].owner == OwnerAfterStep(s, e, m))
    && (forall m :: m in r.mutexes && m !in s.mutexes ==> r.mutexes[m].owner.None?)
  }

  /** The count of semaphore `i` after the step. */
  function CountAfterStep(s: State, e: Event, i: Sid): (n: int) {
    if e == TakeCall(i) && CountOf(s, i) > 0 then CountOf(s, i) - 1
    else if e == GiveCall(i) && QueueOf(s, SemQ(i)) == [] then CountOf(s, i) + 1
    else CountOf(s, i)
  }

  ghost predicate CountsOnly(s: State, r: State, e: Event) {
    && s.sems.Keys <= r.sems.Keys
    && (forall i :: i in s.sems ==> r.sems[i] == CountAfterStep(s, e, i))
    && (forall i :: i in r.sems && i !in s.sems ==> e.InitSem? && e.sem == i && r.sems[i] == e.count)
  }

  /** `blockedOn` changes only for the caller of a contended lock and for one that resumes;
      the current task changes only at a switch, which alone withdraws a pended one. */
  ghost predicate HintsOnly(s: State, r: State, e: Event) {
    && (forall t :: t in s.tasks && t in r.tasks ==>
          || r.tasks[t].blockedOn == s.tasks[t].blockedOn
          || (s.current == Some(t) && ((e.LockMutex? && Contended(s, e.mutex)) || (e.ResumeLock? && r.tasks[t].blockedOn.None?))))
    && (forall t :: t in r.tasks && t !in s.tasks ==> r.tasks[t].blockedOn.None?)
    && (!e.SwitchContext? && !e.StartKernel? ==> r.current == s.current && (s.pended ==> r.pended))
    && (e.SwitchContext? && s.next.Some? ==> r.current == s.next)
  }

  ghost predicate Changes(s: State, r: State, e: Event) {
    WaitsOnly(s, r, e) && OwnersOnly(s, r, e) && CountsOnly(s, r, e) && HintsOnly(s, r, e)
  }

  // ----- case by case

  lemma BlockChanges(reading: Reading, s: State, idle: Tid, e: Event, q: QueueId, ticks: Word)
    requires Inv(reading, s, idle) && MayCall(s, idle) && q in s.queues
    requires q.Sleep? || (q.SemQ? && q.sem in s.sems && s.sems[q.sem] == 0 && ticks == WAIT_FOREVER)
    requires (e.DelayCall? && e.ticks != 0 && q == Sleep) || (e.TakeCall? && q == SemQ(e.sem))
    ensures Changes(s, Block(s, q, ticks, false), e)
  {
    hide Core, Attended, Alike, Reschedule, Park;
    AwakeCaller(s, idle);
    ParkCore(s, idle, s.current.value, q, ticks);
    RescheduleFrame(Park(s, s.current.value, q, ticks, false));
  }

  lemma GiveChanges(reading: Reading, s: State, idle: Tid, i: Sid)
    requires Inv(reading, s, idle) && MayCall(s, idle) && i in s.sems
    ensures Changes(s, SemGive(s, i), GiveCall(i))
  {
    hide Inv, Reschedule, WakeOne;
    if QueueOf(s, SemQ(i)) != [] {
      GiveWakes(reading, s, idle, i);
      RescheduleFrame(WakeOne(s, SemQ(i)));
    }
  }

  lemma GiveWakes(reading: Reading, s: State, idle: Tid, i: Sid)
    requires Inv(reading, s, idle) && i in s.sems && QueueOf(s, SemQ(i)) != []
    ensures var t := QueueOf(s, SemQ(i))[0]; var r := WakeOne(s, SemQ(i));
      && t in s.tasks && s.tasks[t].waitQ == Some(SemQ(i))
      && r.tasks == s.tasks[t := Woken(s.tasks[t], 0)]
      && r == s.(tasks := r.tasks, queues := r.queues)
  {
    hide Core, WakeOne;
    SemFacts(s, idle, i);
    WakeIsRelease(s, SemQ(i));
  }

  lemma ContendedChanges(s: State, r: State, idle: Tid, m: Mid)
    requires MayCall(s, idle) && Contended(s, m) && m in s.mutexes && r.sems == s.sems
    requires LockedOut(s, r, s.current.value, m) && r.current == s.current
    ensures Changes(s, r, LockMutex(m))
  {
  }

  /** Finishing the call at once changes nothing that `Changes` looks at, except `blockedOn`. */
  lemma AtOnceChanges(s: State, r: State, m: Mid)
    requires Changes(s, r, LockMutex(m)) && s.current.Some? && s.current.value in s.tasks && m in s.mutexes
    requires Contended(s, m) && r.current == s.current
    ensures Changes(s, LockResume(r, m), LockMutex(m))
  {
    hide LockResume, Contended, OwnerAfterStep, CountAfterStep;
    ResumeFrame(r, m);
    ResumeOwners(r, m);
  }

  lemma LockChanges(reading: Reading, s: State, idle: Tid, m: Mid)
    requires Inv(reading, s, idle) && Enabled(reading, s, idle, LockMutex(m))
    ensures Changes(s, Step(reading, s, LockMutex(m)), LockMutex(m))
  {
    hide Core, Attended, LockCall, LockResume, LockedOut, Changes;
    if Contended(s, m) {
      LockCallOngoing(s, idle, m);
      ContendedChanges(s, LockCall(s, m), idle, m);
      AtOnceChanges(s, LockCall(s, m), m);
    } else {
      UncontendedChanges(reading, s, idle, m);
    }
  }

  lemma UncontendedChanges(reading: Reading, s: State, idle: Tid, m: Mid)
    requires Inv(reading, s, idle) && MayCall(s, idle) && m in s.mutexes && !Contended(s, m)
    ensures Changes(s, LockCall(s, m), LockMutex(m))
  {
    hide Inv, LockCall;
    if s.mutexes[m].owner.None? {
      SeizeFrame(s, m);
    } else {
      LockRefused(s, m);
    }
  }

  lemma ResumeOwners(r: State, m: Mid)
    requires r.current.Some? && m in r.mutexes
    ensures var x := LockResume(r, m); x.mutexes == r.mutexes[m := r.mutexes[m].(next := x.mutexes[m].next)]
  {
  }

  lemma SurrenderedChanges(s: State, e: State, r: State, m: Mid, p: Priority)
    requires s.current.Some? && s.current.value in s.tasks && !s.pended && Owns(s.mutexes, s.current.value, m)
    requires var w := QueueOf(s, MutexQ(m)); PassedOn(s, e, s.current.value, m, if w == [] then None else Some(w[0]), p)
    requires e == s.(tasks := e.tasks, queues := e.queues, mutexes := e.mutexes)
    requires r == e.(next := r.next, pended := r.pended)
    ensures Changes(s, r, UnlockMutex(m))
  {
  }

  lemma UnlockChanges(reading: Reading, s: State, idle: Tid, m: Mid)
    requires Inv(reading, s, idle) && MayCall(s, idle) && m in s.mutexes
    ensures Changes(s, Unlock(s, m), UnlockMutex(m))
  {
    hide Core, Attended, Surrendered, RemoveFromOwned, Recompute, Unlock, Reschedule, PassedOn, Placed, Rest, Changes;
    if Owns(s.mutexes, s.current.value, m) {
      var c := s.current.value;
      AwakeCaller(s, idle);
      SurrenderedCore(s, idle, m);
      RescheduleFrame(Surrendered(s, c, m));
      SurrenderedChanges(s, Surrendered(s, c, m), Unlock(s, m), m, Recompute(RemoveFromOwned(s, c, m), c));
    } else {
      UnlockRefused(s, m);
      NothingChanges(s, m);
    }
  }

  lemma NothingChanges(s: State, m: Mid)
    requires s.current.Some? && MutexOf(s, m).owner != s.current
    ensures Changes(s, s, UnlockMutex(m))
  {
  }

  lemma TickedFrame(s: State, idle: Tid)
    requires Core(s, idle) && s.current.Some? && s.current.value in s.tasks
    ensures var x := Ticked(s);
      && OnlyWoke(s.tasks, x.tasks) && (s.pended ==> x.pended)
      && x == s.(tasks := x.tasks, queues := x.queues, timeouts := x.timeouts, next := x.next, pended := x.pended, tick := x.tick)
  {
    hide Core, Expire, Rotate, Top, Alike;
    var a := s.(tick := (s.tick + 1) % 0x1_0000_0000);
    ScheduleCore(s, a, idle);
    ExpireCore(a, idle);
    var b := Reschedule(Expire(a));
    ScheduleCore(Expire(a), b, idle);
    RotateCore(b, idle, s.current.value);
  }

  lemma TickChanges(reading: Reading, s: State, idle: Tid)
    requires Inv(reading, s, idle) && s.current.Some?
    ensures Changes(s, Tick(s), TickInterrupt)
  {
    hide Core, Ticked, Reschedule, Top, Tick;
    TickedFrame(s, idle);
    TickUnfolds(s);
    RescheduleFrame(Ticked(s));
  }

  lemma CommitChanges(reading: Reading, s: State, idle: Tid)
    requires Inv(reading, s, idle) && s.pended
    ensures Changes(s, Commit(s), SwitchContext)
  {
    hide Core, Top, Commit;
    TopAwake(s, idle);
    CommitMarks(s);
  }

  lemma NoMarks(tasks: map<Tid, Task>)
    ensures OnlyMarks(tasks, tasks)
  {
  }

  lemma MarkOne(before: map<Tid, Task>, tasks: map<Tid, Task>, t: Tid, status: Status)
    requires OnlyMarks(before, tasks) && t in tasks && !tasks[t].status.Blocked? && !status.Blocked?
    ensures OnlyMarks(before, tasks[t := tasks[t].(status := status)])
  {
  }

  lemma CommitMarks(s: State)
    requires s.current.Some? && s.current.value in s.tasks
    requires s.next.Some? && s.next.value in s.tasks && !s.tasks[s.next.value].status.Blocked?
    ensures var r := Commit(s); OnlyMarks(s.tasks, r.tasks) && r == s.(tasks := r.tasks, current := s.next, pended := false)
  {
    hide OnlyMarks;
    var a := Demote(s);
    NoMarks(s.tasks);
    if a != s {
      MarkOne(s.tasks, s.tasks, s.current.value, Ready);
    }
    MarkOne(s.tasks, a.tasks, s.next.value, Running);
  }

  /** Every step changes only what `Changes` says. */
  lemma StepChangesOnly(reading: Reading, s: State, idle: Tid, e: Event)
    requires Inv(reading, s, idle) && Enabled(reading, s, idle, e)
    ensures Changes(s, Step(reading, s, e), e)
  {
    hide Inv, Core, Ongoing, Shape, Placed, Records, MutexesOk, Hinted, OneRunning, LockCall, LockExecuted, LockResume, Unlock, Block, Reschedule, Tick, Commit, Top,
      SemGive, SemTake, Changes, Yield, Create, Start, NewMutex, NewSem;
    match e
    case YieldCall => YieldChanges(s, idle, e);
    case DelayCall(n) =>
      if n == 0 {
        YieldChanges(s, idle, e);
      } else {
        InvParts(reading, s, idle);
        SleepExists(s, idle);
        BlockChanges(reading, s, idle, e, Sleep, n);
      }
    case TakeCall(i) => TakeChanges(reading, s, idle, i);
    case GiveCall(i) => GiveChanges(reading, s, idle, i);
    case LockMutex(m) => LockChanges(reading, s, idle, m);
    case ResumeLock => ResumeChanges(reading, s, idle);
    case UnlockMutex(m) => UnlockChanges(reading, s, idle, m);
    case CreateTask(t, p) => CreateChanges(s, t, p);
    case StartKernel => StartChanges(s);
    case TickInterrupt => TickChanges(reading, s, idle);
    case SwitchContext => CommitChanges(reading, s, idle);
    case InitMutex(m, link) => InitMutexChanges(s, m, link);
    case InitSem(i, n) => InitSemChanges(s, i, n);
  }

  lemma YieldChanges(s: State, idle: Tid, e: Event)
    requires MayCall(s, idle) && (e.YieldCall? || (e.DelayCall? && e.ticks == 0))
    ensures Changes(s, Yield(s), e)
  {
    hide TopFrom;
  }

  lemma CreateChanges(s: State, t: Tid, p: Priority)
    requires t !in s.tasks
    ensures Changes(s, Create(s, t, p), CreateTask(t, p))
  {
    hide TopFrom;
  }

  lemma StartChanges(s: State)
    ensures Changes(s, Start(s), StartKernel)
  {
    hide TopFrom;
  }

  lemma InitMutexChanges(s: State, m: Mid, link: Option<Mid>)
    requires m !in s.mutexes
    ensures Changes(s, NewMutex(s, m, link), InitMutex(m, link))
  {
  }

  lemma InitSemChanges(s: State, i: Sid, n: nat)
    requires i !in s.sems
    ensures Changes(s, NewSem(s, i, n), InitSem(i, n))
  {
  }

  lemma TakeChanges(reading: Reading, s: State, idle: Tid, i: Sid)
    requires Inv(reading, s, idle) && MayCall(s, idle) && i in s.sems
    ensures Changes(s, SemTake(s, i), TakeCall(i))
  {
    hide Core, Attended, Block;
    SemFacts(s, idle, i);
    if s.sems[i] <= 0 {
      BlockChanges(reading, s, idle, TakeCall(i), SemQ(i), WAIT_FOREVER);
    }
  }

  lemma ResumeChanges(reading: Reading, s: State, idle: Tid)
    requires Inv(reading, s, idle) && Enabled(reading, s, idle, ResumeLock)
    ensures Changes(s, Step(reading, s, ResumeLock), ResumeLock)
  {
    hide Placed, Records, MutexesOk, Rest, Attended, LockResume;
    var c := s.current.value;
    ResumeFrame(s, s.tasks[c].blockedOn.value);
    ResumeOwners(s, s.tasks[c].blockedOn.value);
  }

  // ----- the waiters of a queue

  /** The tasks that wait in queue `q`. */
  ghost function Waiters(tasks: map<Tid, Task>, q: QueueId): (r: set<Tid>) {
    set t | t in tasks && tasks[t].waitQ == Some(q)
  }

  /** The waiters of `q` change only by the mover. */
  lemma WaitersByMover(s: State, r: State, e: Event, q: QueueId)
    requires WaitsOnly(s, r, e) && !q.Sleep?
    requires Mover(s, e).Some? ==> Mover(s, e).value.task in s.tasks
    ensures Waiters(r.tasks, q) ==
      if Mover(s, e).None? then Waiters(s.tasks, q)
      else if Mover(s, e).value.to == Some(q) then Waiters(s.tasks, q) + {Mover(s, e).value.task}
      else Waiters(s.tasks, q) - {Mover(s, e).value.task}
  {
    hide Mover;
  }

  /** The mover exists; it was running if it goes to wait, and waiting if it is released. */
  ghost predicate MoverOk(s: State, e: Event) {
    Mover(s, e).Some? ==>
      && var mv := Mover(s, e).value;
      && mv.task in s.tasks
      && (mv.to.Some? ==> s.tasks[mv.task].waitQ.None?)
      && (mv.to.None? && e.GiveCall? ==> s.tasks[mv.task].waitQ == Some(SemQ(e.sem)))
      && (mv.to.None? && e.UnlockMutex? ==> s.tasks[mv.task].waitQ == Some(MutexQ(e.mutex)))
      && (mv.to.None? ==> e.GiveCall? || e.UnlockMutex?)
  }

  lemma MoverExists(reading: Reading, s: State, idle: Tid, e: Event)
    requires Inv(reading, s, idle) && Enabled(reading, s, idle, e)
    ensures MoverOk(s, e)
  {
    hide Sorted, MutexesOk, Hinted, Top;
    if Mover(s, e).Some? && Mover(s, e).value.to.None? {
      var q := if e.GiveCall? then SemQ(e.sem) else MutexQ(e.mutex);
      assert QueueOf(s, q)[0] in s.queues[q];
    }
  }
}
