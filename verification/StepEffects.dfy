/** The effects of every step, and what they mean for the order in which tasks are served. */
module StepEffects {
  import opened Base
  import opened KernelState
  import opened Invariants
  import opened OwnedLists
  import opened Dispatch
  import opened Machine
  import opened Steps
  import opened MutexSteps
  import opened Basics
  import opened StepChanges
  import opened Runs
  import opened SafeRuns
  import opened QueueOrder
  import opened CallEffects
  import opened TickEffects
  import opened LockEffects

  // ----- the remaining steps

  /** A step that changes no field the effects look at. */
  lemma FieldsKept(s: State, r: State, e: Event)
    requires r.queues == s.queues && r.timeouts == s.timeouts && r.tick == s.tick && r.tasks.Keys == s.tasks.Keys
    requires r.next == s.next && r.current == s.current && r.pended == s.pended
    requires forall t :: t in s.tasks ==> r.tasks[t] == s.tasks[t].(owned := r.tasks[t].owned, blockedOn := r.tasks[t].blockedOn)
    requires Mover(s, e).None? && Leaves(s, e) && !ByOwner(s, e) && !e.InitMutex? && !e.InitSem?
    ensures Effects(s, r, e)
  {
    hide Recorded;
    QuietQueues(s, r, e);
    FieldsRecorded(s, r, e);
  }

  lemma FieldsRecorded(s: State, r: State, e: Event)
    requires r.timeouts == s.timeouts && r.tick == s.tick && r.tasks.Keys == s.tasks.Keys
    requires forall t :: t in s.tasks ==> r.tasks[t] == s.tasks[t].(owned := r.tasks[t].owned, blockedOn := r.tasks[t].blockedOn)
    requires Mover(s, e).None? && Leaves(s, e) && !ByOwner(s, e)
    ensures Recorded(s, r, e)
  {
    hide Mover;
  }

  lemma FreeLockEffects(reading: Reading, s: State, idle: Tid, m: Mid)
    requires Ongoing(s, idle) && MayCall(s, idle) && m in s.mutexes && !Contended(s, m)
    ensures Effects(s, Step(reading, s, LockMutex(m)), LockMutex(m))
  {
    hide Core, Attended, LockCall, Effects;
    if s.mutexes[m].owner.None? {
      SeizeFrame(s, m);
    } else {
      LockRefused(s, m);
    }
    FieldsKept(s, LockCall(s, m), LockMutex(m));
  }

  lemma ResumeEffects(s: State, idle: Tid)
    requires Ongoing(s, idle) && Enabled(Intended, s, idle, ResumeLock)
    ensures Effects(s, Step(Intended, s, ResumeLock), ResumeLock)
  {
    hide Core, Attended, LockResume, Effects;
    var m := s.tasks[s.current.value].blockedOn.value;
    ResumeFrame(s, m);
    FieldsKept(s, LockResume(s, m), ResumeLock);
  }

  /** The queues and the choice after finishing the call at once. */
  lemma ContendedEffects(s: State, x: State, r: State, c: Tid, m: Mid)
    requires s.current == Some(c) && c in s.tasks && Contended(s, m) && LockQueues(s, x, c, m) && LockRecords(s, x, c, m)
    requires x == s.(tasks := x.tasks, queues := x.queues)
    requires r.queues == x.queues && r.timeouts == x.timeouts && r.tick == x.tick && r.current == x.current
    requires r.tasks.Keys == x.tasks.Keys && r.next == Top(r) && r.pended == (x.pended || Top(r) != x.current)
    requires forall t :: t in x.tasks ==> r.tasks[t] == x.tasks[t].(owned := r.tasks[t].owned, blockedOn := r.tasks[t].blockedOn)
    ensures Effects(s, r, LockMutex(m))
  {
    hide LockQueues, Top;
    LockQueuesSame(s, x, r, c, m);
  }

  lemma LockQueuesSame(s: State, x: State, r: State, c: Tid, m: Mid)
    requires c in s.tasks && LockQueues(s, x, c, m) && r.queues == x.queues && r.tasks.Keys == x.tasks.Keys
    requires forall t :: t in x.tasks ==> r.tasks[t].prio == x.tasks[t].prio
    ensures LockQueues(s, r, c, m)
  {
    hide Minus, BehindEquals, BeforeLess, QueueOf;
    var moved, p := Raised(s, x) + {c}, s.tasks[c].prio;
    SameQueues(x, r);
    assert Raised(s, x) == Raised(s, r);
    forall q: QueueId
      ensures BehindEquals(x.tasks, QueueOf(r, q), moved, p) ==> BehindEquals(r.tasks, QueueOf(r, q), moved, p)
      ensures BeforeLess(x.tasks, QueueOf(r, q), moved, p) ==> BeforeLess(r.tasks, QueueOf(r, q), moved, p)
    {
      if BehindEquals(x.tasks, QueueOf(r, q), moved, p) { BehindSame(x.tasks, r.tasks, QueueOf(r, q), moved, moved, p); }
      if BeforeLess(x.tasks, QueueOf(r, q), moved, p) { BeforeSame(x.tasks, r.tasks, QueueOf(r, q), moved, moved, p); }
    }
  }

  lemma WaitLockEffects(reading: Reading, s: State, idle: Tid, m: Mid)
    requires Ongoing(s, idle) && MayCall(s, idle) && m in s.mutexes && Contended(s, m) && Candid(s.tasks)
    ensures Effects(s, Step(reading, s, LockMutex(m)), LockMutex(m))
  {
    hide Core, Attended, Entered, Reschedule, LockResume, LockCall, LockQueues, LockRecords, Effects, TopFrom, Candid, LockedOut;
    var c := s.current.value;
    AwakeCaller(s, idle);
    EnteredOrder(s, idle, c, m);
    EnteredRecords(s, idle, c, m);
    EnteredCore(s, idle, c, m);
    ContendedUnfolds(s, c, m);
    var x := Entered(s, c, m);
    var r := LockCall(s, m);
    RescheduleIs(x);
    ContendedEffects(s, x, r, c, m);
    LockCallOngoing(s, idle, m);
    CurrentExists(r);
    ResumeFrame(r, m);
    var y := LockResume(r, m);
    TopFromSame(r, y, 0);
    ContendedEffects(s, x, y, c, m);
  }

  lemma CreateEffects(s: State, t: Tid, p: Priority)
    requires t !in s.tasks
    ensures Effects(s, Create(s, t, p), CreateTask(t, p))
  {
    hide TopFrom, Minus;
    var r := Create(s, t, p);
    TopFromSame(Added(s, t, p), r, 0);
    forall q | q in s.queues
      ensures QueueOf(r, q) == QueueAfter(s, CreateTask(t, p), q)
    {
      MinusAbsent(QueueOf(s, q), {});
    }
  }

  lemma StartEffects(s: State)
    requires s.current.None?
    ensures Effects(s, Start(s), StartKernel)
  {
    hide TopFrom;
    TopFromSame(s, Start(s), 0);
    QuietQueues(s, Start(s), StartKernel);
    QuietRecords(s, Start(s), StartKernel);
  }

  lemma SwitchEffects(s: State, idle: Tid)
    requires Ongoing(s, idle) && s.pended
    ensures Effects(s, Commit(s), SwitchContext)
  {
    hide Core, TopFrom, Minus, Recorded;
    TopAwake(s, idle);
    QuietQueues(s, Commit(s), SwitchContext);
    SwitchRecords(s);
  }

  lemma SwitchRecords(s: State)
    requires s.current.Some? && s.current.value in s.tasks && s.next.Some? && s.next.value in s.tasks
    ensures Recorded(s, Commit(s), SwitchContext)
  {
    hide RecordAfter, PriorityAfter, Commit;
    var r := Commit(s);
    SwitchFrame(s);
    forall t | t in s.tasks
      ensures RecordAfter(s, r, SwitchContext, t) && PriorityAfter(s, r, SwitchContext, t)
    {
      SwitchRecord(s, t);
    }
  }

  lemma SwitchFrame(s: State)
    requires s.current.Some? && s.current.value in s.tasks && s.next.Some? && s.next.value in s.tasks
    ensures Commit(s).tasks.Keys == s.tasks.Keys && Commit(s).tick == s.tick
  {
  }

  lemma SwitchedTask(s: State, t: Tid)
    requires s.current.Some? && s.current.value in s.tasks && s.next.Some? && s.next.value in s.tasks && t in s.tasks
    ensures t in Commit(s).tasks
    ensures Commit(s).tasks[t] ==
      if s.next == Some(t) then s.tasks[t].(status := Running)
      else if s.current == Some(t) && s.tasks[t].status.Running? then s.tasks[t].(status := Ready) else s.tasks[t]
  {
  }

  lemma SwitchRecord(s: State, t: Tid)
    requires s.current.Some? && s.current.value in s.tasks && s.next.Some? && s.next.value in s.tasks && t in s.tasks
    ensures t in Commit(s).tasks && RecordAfter(s, Commit(s), SwitchContext, t) && PriorityAfter(s, Commit(s), SwitchContext, t)
  {
    hide Commit;
    SwitchedTask(s, t);
  }

  lemma InitEffects(s: State, r: State, e: Event)
    requires (e.InitMutex? && r == NewMutex(s, e.mutex, e.link) && MutexQ(e.mutex) !in s.queues)
      || (e.InitSem? && r == NewSem(s, e.sem, e.count) && SemQ(e.sem) !in s.queues)
    ensures Effects(s, r, e)
  {
    QuietQueues(s, r, e);
    QuietRecords(s, r, e);
  }

  lemma FreshQueue(s: State, idle: Tid, q: QueueId)
    requires Core(s, idle) && ((q.MutexQ? && q.mutex !in s.mutexes) || (q.SemQ? && q.sem !in s.sems))
    ensures q !in s.queues
  {
    hide Placed, Records, MutexesOk, Hinted;
    NewQueueExists(s, idle, q);
  }

  // ----- every step

  lemma StepEffectsCore(reading: Reading, s: State, idle: Tid, e: Event)
    requires Inv(reading, s, idle) && Enabled(reading, s, idle, e) && Candid(s.tasks)
    ensures Effects(s, Step(reading, s, e), e)
  {
    hide Core, Attended, Effects, Yield, Block, SemTake, SemGive, Unlock, Create, Start, Tick, Commit, NewMutex, NewSem, LockCall,
      LockExecuted, LockResume, Candid;
    match e
    case YieldCall => YieldEffects(s, idle, e);
    case DelayCall(n) =>
      if n == 0 {
        YieldEffects(s, idle, e);
      } else {
        SleepExists(s, idle);
        BlockEffects(s, idle, e, Sleep, n);
      }
    case TakeCall(i) => TakeEffects(s, idle, i);
    case GiveCall(i) => GiveEffects(s, idle, i);
    case LockMutex(m) =>
      if Contended(s, m) { WaitLockEffects(reading, s, idle, m); } else { FreeLockEffects(reading, s, idle, m); }
    case ResumeLock => ResumeEffects(s, idle);
    case UnlockMutex(m) => UnlockEffects(s, idle, m);
    case CreateTask(t, p) => CreateEffects(s, t, p);
    case StartKernel => StartEffects(s);
    case TickInterrupt => EveryTick(s, idle);
    case SwitchContext => SwitchEffects(s, idle);
    case InitMutex(m, link) => FreshQueue(s, idle, MutexQ(m)); InitEffects(s, NewMutex(s, m, link), e);
    case InitSem(i, n) => FreshQueue(s, idle, SemQ(i)); InitEffects(s, NewSem(s, i, n), e);
  }

  /** A task that has announced a mutex and is blocked waits for one. */
  lemma ReachableCandid(reading: Reading, s: State, idle: Tid)
    requires Reachable(reading, s, idle)
    ensures Candid(s.tasks)
  {
    hide Core, Attended, Booted, Legal, SafelyLegal, Exec, FullInv;
    if reading.Intended? {
      var es :| Legal(reading, Booted(idle), idle, es) && Exec(reading, Booted(idle), es) == s;
      SafelyLegalIff(reading, Booted(idle), idle, es);
      SafelyReachableInv(reading, s, idle);
      FullCandid(reading, s, idle);
    } else {
      ReachableInv(reading, s, idle);
    }
  }

  lemma FullCandid(reading: Reading, s: State, idle: Tid)
    requires FullInv(reading, s, idle)
    ensures Candid(s.tasks)
  {
    hide Placed, Rest, AllExact, WaitGraph, OwnedOk, Top;
  }

  /** Every step from every reachable state has the effects described: on the order of all queues and
      of the timeouts, on the choice of what runs next, and on the records of the tasks. */
  lemma EveryStep(reading: Reading, s: State, idle: Tid, e: Event)
    requires Reachable(reading, s, idle) && Enabled(reading, s, idle, e)
    ensures Ordered(s, Step(reading, s, e), e) && Chosen(s, Step(reading, s, e), e) && Recorded(s, Step(reading, s, e), e)
  {
    hide Reachable, Inv, Enabled, Step, Candid, Ordered, Chosen, Recorded;
    ReachableInv(reading, s, idle);
    ReachableCandid(reading, s, idle);
    StepEffectsCore(reading, s, idle, e);
  }

  // ----- what it means for the order of service

  lemma {:induction false} AtLevelMembers(tasks: map<Tid, Task>, l: seq<Tid>, p: Priority)
    ensures forall t :: t in AtLevel(tasks, l, p) <==> t in l && TaskOf(tasks, t).prio == p
  {
    if l != [] {
      AtLevelMembers(tasks, l[1..], p);
      assert l == [l[0]] + l[1..];
    }
  }

  /** The sleepers of level `p` that a step wakes, in the order in which they wake. */
  function WokenAt(s: State, r: State, p: Priority): (l: seq<Tid>) {
    AtLevel(s.tasks, s.timeouts[..WokenCount(s, r)], p)
  }

  /** The tick ends the time slice of the current task `c`, whoever is due and whether or not a switch
      is pended: at its level `c` goes last, behind the sleepers that wake; at every other level old
      tasks keep their order and sleepers come last.  One case is different: if `c` itself is asleep,
      with the switch away from it still pended, and the first to wake on an empty level, it goes behind
      those that wake after it. */
  lemma SliceEnds(reading: Reading, s: State, idle: Tid, c: Tid, p: Priority)
    requires Reachable(reading, s, idle) && s.current == Some(c)
    ensures var r := Tick(s); var l, l', woken := QueueOf(s, ReadyQ(p)), QueueOf(r, ReadyQ(p)), WokenAt(s, r, p);
      && (forall t :: t in woken <==> t in s.timeouts && t !in r.timeouts && TaskOf(s.tasks, t).prio == p)
      && (l != [] && l[0] == c ==> l' == l[1..] + woken + [c])
      && (l != [] && l[0] != c ==> l' == l + woken)
      && (l == [] ==> l' == if woken != [] && woken[0] == c then woken[1..] + [c] else woken)
  {
    hide Reachable, Inv, Tick, AtLevel, TickReached, Minus, Chosen, Recorded;
    ReachableInv(reading, s, idle);
    TickEnabled(reading, s, idle);
    EveryStep(reading, s, idle, TickInterrupt);
    var r := Tick(s);
    var k, l := WokenCount(s, r), QueueOf(s, ReadyQ(p));
    AtLevelMembers(s.tasks, s.timeouts[..k], p);
    TimeoutsOnce(reading, s, idle, k);
    if l == [] {
      assert l + WokenAt(s, r, p) == WokenAt(s, r, p);
    } else {
      assert (l + WokenAt(s, r, p))[1..] == l[1..] + WokenAt(s, r, p);
    }
  }

  lemma TickEnabled(reading: Reading, s: State, idle: Tid)
    requires s.current.Some?
    ensures Enabled(reading, s, idle, TickInterrupt) && Step(reading, s, TickInterrupt) == Tick(s)
  {
  }

  lemma TimeoutsOnce(reading: Reading, s: State, idle: Tid, k: nat)
    requires Inv(reading, s, idle) && k <= |s.timeouts|
    ensures forall t :: t in s.timeouts[..k] <==> t in s.timeouts && t !in s.timeouts[k..]
  {
    hide Placed, Records, MutexesOk, Hinted, Attended;
    assert s.timeouts == s.timeouts[..k] + s.timeouts[k..];
  }

  /** A contended lock queues its caller behind all waiters at least as urgent and ahead of all that
      are less urgent; the waiters that the walk did not raise keep their order. */
  lemma ArrivalOrder(reading: Reading, s: State, idle: Tid, c: Tid, m: Mid) returns (k: nat)
    requires Reachable(reading, s, idle) && Enabled(reading, s, idle, LockMutex(m)) && Contended(s, m) && s.current == Some(c)
    ensures c in s.tasks
    ensures var r := Step(reading, s, LockMutex(m)); var l, p := QueueOf(r, MutexQ(m)), s.tasks[c].prio;
      && k < |l| && l[k] == c
      && (forall j :: 0 <= j < k ==> TaskOf(r.tasks, l[j]).prio <= p) && (forall j :: k < j < |l| ==> TaskOf(r.tasks, l[j]).prio > p)
      && (forall q :: q in s.queues ==>
            Minus(QueueOf(r, q), Raised(s, r) + {c}) == Minus(QueueOf(s, q), Raised(s, r) + {c}))
  {
    hide Reachable, Step, Minus, BeforeLess, Chosen, Recorded;
    EveryStep(reading, s, idle, LockMutex(m));
    k := CallerQueued(reading, s, idle, c, m);
    var r := Step(reading, s, LockMutex(m));
    assert BehindEquals(r.tasks, QueueOf(r, MutexQ(m)), Raised(s, r) + {c}, s.tasks[c].prio);
  }

  lemma CallerQueued(reading: Reading, s: State, idle: Tid, c: Tid, m: Mid) returns (k: nat)
    requires Reachable(reading, s, idle) && Enabled(reading, s, idle, LockMutex(m)) && Contended(s, m) && s.current == Some(c)
    ensures var l := QueueOf(Step(reading, s, LockMutex(m)), MutexQ(m)); k < |l| && l[k] == c
  {
    hide Reachable, Inv, Step, OwnersOnly, CountsOnly, HintsOnly;
    var r := Step(reading, s, LockMutex(m));
    ReachableInv(reading, s, idle);
    StepInv(reading, s, idle, LockMutex(m));
    StepChangesOnly(reading, s, idle, LockMutex(m));
    WaiterQueued(reading, r, idle, c, m);
    k := IndexOf(QueueOf(r, MutexQ(m)), c);
  }

  lemma WaiterQueued(reading: Reading, r: State, idle: Tid, c: Tid, m: Mid)
    requires Inv(reading, r, idle) && c in r.tasks && r.tasks[c].waitQ == Some(MutexQ(m))
    ensures c in QueueOf(r, MutexQ(m))
  {
    hide Sorted, MutexesOk, Hinted, Rest, Attended;
  }

  /** Giving a semaphore with a waiter appends it to the ready queue of its priority, and leaves all
      other queues but the semaphore's, the timeouts and the giver's turn as they are. */
  lemma GiveAppends(reading: Reading, s: State, idle: Tid, i: Sid, w: Tid)
    requires Reachable(reading, s, idle) && Enabled(reading, s, idle, GiveCall(i))
    requires QueueOf(s, SemQ(i)) != [] && w == QueueOf(s, SemQ(i))[0]
    ensures var r, p := Step(reading, s, GiveCall(i)), TaskOf(s.tasks, w).prio;
      && (forall q :: q in s.queues && q != SemQ(i) ==>
            QueueOf(r, q) == if q == ReadyQ(p) then QueueOf(s, q) + [w] else QueueOf(s, q))
      && QueueOf(r, SemQ(i)) == QueueOf(s, SemQ(i))[1..]
      && r.timeouts == s.timeouts && r.next == Top(r) && r.pended == (Top(r) != s.current)
  {
    hide Reachable, Inv, Core, Ongoing, Placed, Records, MutexesOk, Hinted, OneRunning, Step, Minus, Ordered, Chosen, Recorded, Top, QueueOf;
    EveryStep(reading, s, idle, GiveCall(i));
    ReachableInv(reading, s, idle);
    InvParts(reading, s, idle);
    SemQueue(s, i);
    forall q | q in s.queues
      ensures Minus(QueueOf(s, q), {w}) == if q == SemQ(i) then QueueOf(s, q)[1..] else QueueOf(s, q)
    {
      WaiterOut(reading, s, idle, i, w, q);
    }
    GiveOrder(s, Step(reading, s, GiveCall(i)), i, w);
  }

  lemma GiveOrder(s: State, r: State, i: Sid, w: Tid)
    requires Ordered(s, r, GiveCall(i)) && Chosen(s, r, GiveCall(i)) && s.current.Some? && !s.pended
    requires SemQ(i) in s.queues && QueueOf(s, SemQ(i)) != [] && w == QueueOf(s, SemQ(i))[0]
    requires forall q :: q in s.queues ==> Minus(QueueOf(s, q), {w}) == if q == SemQ(i) then QueueOf(s, q)[1..] else QueueOf(s, q)
    ensures forall q :: q in s.queues && q != SemQ(i) ==>
      QueueOf(r, q) == if q == ReadyQ(TaskOf(s.tasks, w).prio) then QueueOf(s, q) + [w] else QueueOf(s, q)
    ensures QueueOf(r, SemQ(i)) == QueueOf(s, SemQ(i))[1..] && r.timeouts == s.timeouts
    ensures r.next == Top(r) && r.pended == (Top(r) != s.current)
  {
    hide Minus, Top, QueueOf;
  }

  lemma SemQueue(s: State, i: Sid)
    requires Shape(s) && i in s.sems
    ensures SemQ(i) in s.queues
  {
  }

  lemma WaiterOut(reading: Reading, s: State, idle: Tid, i: Sid, w: Tid, q: QueueId)
    requires Inv(reading, s, idle) && i in s.sems && QueueOf(s, SemQ(i)) != [] && w == QueueOf(s, SemQ(i))[0]
    ensures Minus(QueueOf(s, q), {w}) == if q == SemQ(i) then QueueOf(s, q)[1..] else QueueOf(s, q)
  {
    hide Core, Attended, Minus, Without;
    SemFacts(s, idle, i);
    CoreHome(s, idle, w, q);
    QueuesNoDup(s, idle, q);
    MinusOne(QueueOf(s, q), w);
    if q == SemQ(i) {
      WithoutFirst(QueueOf(s, q), w);
    } else {
      MinusAbsent(QueueOf(s, q), {w});
    }
  }
}
