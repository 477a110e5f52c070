/** Every step of the machine keeps `FullInv`, under either reading of the lock. */
module Steps {
  import opened Base
  import opened KernelState
  import opened Invariants
  import opened Structure
  import opened OwnedLists
  import opened Preservation
  import opened UnlockSteps
  import opened SmallSteps
  import opened Dispatch
  import opened Machine

  // ----- owned lists that a step does not touch

  /** Nothing the owned-list invariants look at has changed. */
  ghost predicate OwnedUntouched(s: State, r: State) {
    && s.tasks.Keys <= r.tasks.Keys && s.mutexes.Keys <= r.mutexes.Keys
    && (forall m :: m in r.mutexes ==> if m in s.mutexes then r.mutexes[m] == s.mutexes[m] else r.mutexes[m].owner.None?)
    && (forall t :: t in s.tasks ==>
          && r.tasks[t].owned == s.tasks[t].owned && r.tasks[t].blockedOn == s.tasks[t].blockedOn
          && Awaited(r.tasks[t]) == Awaited(s.tasks[t])
          && (s.tasks[t].status.Blocked? && s.tasks[t].blockedOn.Some? ==> r.tasks[t].status.Blocked?))
    && (forall t :: t in r.tasks && t !in s.tasks ==>
          r.tasks[t].owned.None? && r.tasks[t].blockedOn.None? && Awaited(r.tasks[t]).None?)
  }

  lemma UntouchedList(reading: Reading, s: State, r: State, t: Tid)
    requires OwnedUntouched(s, r) && t in r.tasks && MutexesOk(s.tasks, s.mutexes)
    requires t in s.tasks ==> ListIs(reading, s, t, OwnedList(s, t))
    ensures ListIs(reading, r, t, OwnedList(r, t))
  {
    hide OwnedList;
    var l := if t in s.tasks then OwnedList(s, t) else [];
    if t in s.tasks {
      OwnedSame(s, r, t, l);
    } else {
      OwnedListIs(r, t, []);
    }
    forall m
      ensures Owns(r.mutexes, t, m) <==> t in s.tasks && Owns(s.mutexes, t, m)
    {
      assert m in s.mutexes ==> m in r.mutexes && r.mutexes[m] == s.mutexes[m];
    }
    assert forall m :: Lists(reading, r, t, m) <==> t in s.tasks && Lists(reading, s, t, m);
  }

  lemma OwnedFrame(reading: Reading, s: State, r: State)
    requires OwnedOk(reading, s) && MutexesOk(s.tasks, s.mutexes) && OwnedUntouched(s, r)
    ensures OwnedOk(reading, r)
  {
    hide OwnedList, ListIs, OwnedUntouched;
    forall t | t in r.tasks
      ensures ListIs(reading, r, t, OwnedList(r, t))
    {
      UntouchedList(reading, s, r, t);
    }
  }

  // ----- helpers about the scheduler's own variables

  /** `Settled` does not look at the scheduler's variables. */
  lemma SettledIgnores(s: State, r: State, idle: Tid)
    requires Settled(s, idle)
    requires r == s.(current := r.current, next := r.next, pended := r.pended, tick := r.tick)
    ensures Settled(r, idle)
  {
  }

  /** The end of most routines: a settled state in which the current task is not merely
      ready, and whose owned lists are as they were, is rescheduled. */
  lemma FinishInv(reading: Reading, s: State, x: State, idle: Tid)
    requires OwnedOk(reading, s) && MutexesOk(s.tasks, s.mutexes) && OwnedUntouched(s, x)
    requires Settled(x, idle) && OneRunning(x) && x.current.Some?
    requires x.pended || !x.tasks[x.current.value].status.Ready?
    ensures FullInv(reading, Reschedule(x), idle)
  {
    hide Settled, ListIs, OwnedList;
    RescheduleDispatches(x, idle);
    OwnedFrame(reading, s, Reschedule(x));
  }

  lemma InvMutexes(reading: Reading, s: State, idle: Tid)
    requires FullInv(reading, s, idle)
    ensures MutexesOk(s.tasks, s.mutexes) && Records(s.tasks) && Shape(s) && OneRunning(s)
    ensures forall t :: t in s.tasks && s.tasks[t].status.Blocked? && s.tasks[t].blockedOn.Some? ==>
      Awaited(s.tasks[t]) == s.tasks[t].blockedOn
  {
  }

  // ----- yield and the blocking calls

  lemma YieldInv(reading: Reading, s: State, idle: Tid)
    requires FullInv(reading, s, idle) && MayCall(s, idle)
    ensures FullInv(reading, Yield(s), idle)
  {
    hide Linked, Sorted, AllExact, WaitGraph, MutexesOk, ChainVisible, SemsOk, IdleOk, TimeoutsOk,
      ListIs, OwnedList;
    var c := s.current.value;
    RotateSettled(s, idle, c);
    RotatePlaced(s, c);
    var x := Rotate(s, c).(pended := true);
    SettledIgnores(Rotate(s, c), x, idle);
    TopFromSame(Rotate(s, c), x, 0);
    assert Yield(s) == Reschedule(x);
    InvMutexes(reading, s, idle);
    FinishInv(reading, s, x, idle);
  }

  /** Parking on a semaphore or in the sleep queue changes the caller's record only. */
  lemma ParkSettled(s: State, idle: Tid, c: Tid, q: QueueId, ticks: Word)
    requires Settled(s, idle) && c in s.tasks && !s.tasks[c].status.Blocked? && c != idle
    requires s.tasks[c].blockedOn.None?
    requires q.Sleep? || (q.SemQ? && q.sem in s.sems && s.sems[q.sem] == 0 && ticks == WAIT_FOREVER)
    ensures var x := Park(s, c, q, ticks, false);
      && Settled(x, idle)
      && x == s.(tasks := x.tasks, queues := x.queues, timeouts := x.timeouts)
      && c in x.tasks && x.tasks == s.tasks[c := Parked(s.tasks[c], q).(wake := x.tasks[c].wake)]
  {
    hide Linked, Sorted, AllExact, WaitGraph, MutexesOk, ChainVisible, SemsOk, IdleOk, TimeoutsOk, EnterQueue, ArmTimeout;
    var d := EnterQueue(s, c, q, false);
    EnterMoves(s, c, q, false);
    EnterSettled(s, idle, c, q);
    if ticks != WAIT_FOREVER {
      NotSleeping(s, c);
      ArmSettled(d, idle, c, ticks);
      ArmMoves(d, c, ticks);
    }
  }

  lemma BlockInv(reading: Reading, s: State, idle: Tid, q: QueueId, ticks: Word)
    requires FullInv(reading, s, idle) && MayCall(s, idle)
    requires q.Sleep? || (q.SemQ? && q.sem in s.sems && s.sems[q.sem] == 0 && ticks == WAIT_FOREVER)
    ensures FullInv(reading, Block(s, q, ticks, false), idle)
  {
    hide Settled, ListIs, OwnedList, MutexesOk, Shape, Reschedule, Park, OwnedOk;
    InvMutexes(reading, s, idle);
    ParkSettled(s, idle, s.current.value, q, ticks);
    FinishInv(reading, s, Park(s, s.current.value, q, ticks, false), idle);
  }

  // ----- semaphores

  lemma WokenSem(s: State, i: Sid)
    requires Shape(s) && Records(s.tasks) && Linked(s.tasks, s.queues) && i in s.sems && QueueOf(s, SemQ(i)) != []
    ensures var t := QueueOf(s, SemQ(i))[0];
      t in s.tasks && s.tasks[t].status.Blocked? && s.tasks[t].waitQ == Some(SemQ(i))
  {
  }

  lemma CountNonNegative(s: State, idle: Tid, i: Sid)
    requires Rest(s, idle) && i in s.sems
    ensures s.sems[i] >= 0
  {
  }

  lemma GiveInv(reading: Reading, s: State, idle: Tid, i: Sid)
    requires FullInv(reading, s, idle) && MayCall(s, idle) && i in s.sems
    ensures FullInv(reading, SemGive(s, i), idle)
  {
    hide Linked, Sorted, AllExact, WaitGraph, MutexesOk, ChainVisible, IdleOk, TimeoutsOk, SemsOk, Shape,
      ListIs, OwnedList, WakeOne, Reschedule;
    InvMutexes(reading, s, idle);
    var r := SemGive(s, i);
    assert s.sems[i] >= 0 by { CountNonNegative(s, idle, i); }
    if QueueOf(s, SemQ(i)) == [] {
      CountSettled(s, idle, i, s.sems[i] + 1);
      DispatchSame(s, r);
      OwnedFrame(reading, s, r);
    } else {
      var t := QueueOf(s, SemQ(i))[0];
      WokenSem(s, i);
      NotSleeping(s, t);
      WakeIsRelease(s, SemQ(i));
      ReleaseSettled(s, idle, t, 0);
      FinishInv(reading, s, Released(s, t, 0), idle);
    }
  }

  lemma TakeInv(reading: Reading, s: State, idle: Tid, i: Sid)
    requires FullInv(reading, s, idle) && MayCall(s, idle) && i in s.sems
    ensures FullInv(reading, SemTake(s, i), idle)
  {
    hide Linked, Sorted, AllExact, WaitGraph, MutexesOk, ChainVisible, IdleOk, TimeoutsOk,
      ListIs, OwnedList, Block;
    InvMutexes(reading, s, idle);
    if s.sems[i] > 0 {
      CountSettled(s, idle, i, s.sems[i] - 1);
      DispatchSame(s, SemTake(s, i));
      OwnedFrame(reading, s, SemTake(s, i));
    } else {
      BlockInv(reading, s, idle, SemQ(i), WAIT_FOREVER);
    }
  }

  // ----- the tick

  /** The state the tick's final reschedule starts from. */
  function Ticked(s: State): (r: State) {
    RotateCurrent(ProcessTimeouts(s.(tick := (s.tick + 1) % 0x1_0000_0000)))
  }

  lemma TickedSettled(s: State, idle: Tid)
    requires Settled(s, idle) && OneRunning(s) && s.current.Some?
    ensures var x := Ticked(s);
      && Settled(x, idle) && OnlyWoke(s.tasks, x.tasks)
      && x.mutexes == s.mutexes && x.current == s.current && (s.pended ==> x.pended)
  {
    hide Settled, Expire, Rotate, Top, Shape, Placed, Records;
    var a := s.(tick := (s.tick + 1) % 0x1_0000_0000);
    SettledIgnores(s, a, idle);
    ExpireSettled(a, idle);
    var b := Reschedule(Expire(a));
    SettledIgnores(Expire(a), b, idle);
    RotateSettled(b, idle, s.current.value);
    SettledParts(b, idle);
    RotatePlaced(b, s.current.value);
  }

  lemma SettledParts(s: State, idle: Tid)
    requires Settled(s, idle)
    ensures Shape(s) && Placed(s.tasks, s.queues) && Records(s.tasks)
    ensures MutexesOk(s.tasks, s.mutexes) && ChainVisible(s.tasks, s.mutexes)
  {
  }

  lemma TickInv(reading: Reading, s: State, idle: Tid)
    requires FullInv(reading, s, idle) && s.current.Some?
    ensures FullInv(reading, Tick(s), idle)
  {
    hide Settled, MutexesOk, Shape, Reschedule, OwnedOk, Ticked, Tick, OnlyWoke, OwnedUntouched, MostUrgent, Top;
    InvMutexes(reading, s, idle);
    TickedSettled(s, idle);
    TickUnfolds(s);
    WokeUntouched(s, Ticked(s));
    FinishInv(reading, s, Ticked(s), idle);
  }

  /** Waking sleepers touches no owned list and leaves a running task running. */
  lemma WokeUntouched(s: State, r: State)
    requires OnlyWoke(s.tasks, r.tasks) && r.mutexes == s.mutexes && r.current == s.current
    requires Records(s.tasks) && OneRunning(s) && s.current.Some?
    requires forall t :: t in s.tasks && s.tasks[t].status.Blocked? && s.tasks[t].blockedOn.Some? ==>
      Awaited(s.tasks[t]) == s.tasks[t].blockedOn
    ensures OwnedUntouched(s, r) && OneRunning(r)
    ensures s.tasks[s.current.value].status.Running? ==> r.tasks[s.current.value].status.Running?
  {
  }

  lemma TickUnfolds(s: State)
    ensures Tick(s) == Reschedule(Ticked(s))
  {
  }

  // ----- the switch, the start, creation

  /** Only ready/running marks differ. */
  ghost predicate OnlyMarks(before: map<Tid, Task>, after: map<Tid, Task>) {
    && before.Keys == after.Keys
    && forall t :: t in before ==>
         && after[t] == before[t].(status := after[t].status)
         && (after[t].status.Blocked? <==> before[t].status.Blocked?)
  }

  lemma CommitSettled(s: State, idle: Tid)
    requires Settled(s, idle) && OneRunning(s) && s.current.Some?
    requires s.next.Some? && s.next.value in s.tasks && !s.tasks[s.next.value].status.Blocked?
    ensures Settled(Commit(s), idle) && OneRunning(Commit(s))
    ensures OnlyMarks(s.tasks, Commit(s).tasks) && Commit(s).tasks[s.next.value].status.Running?
    ensures var r := Commit(s); r == s.(tasks := r.tasks, current := s.next, pended := false)
  {
    hide Settled;
    var a := Demote(s);
    if a != s {
      MarkSettled(s, idle, s.current.value, Ready);
    }
    MarkSettled(a, idle, s.next.value, Running);
    SettledIgnores(SetTask(a, s.next.value, a.tasks[s.next.value].(status := Running)), Commit(s), idle);
  }

  lemma CommitInv(reading: Reading, s: State, idle: Tid)
    requires FullInv(reading, s, idle) && s.pended
    ensures FullInv(reading, Commit(s), idle)
    ensures Commit(s).current == Top(s)
  {
    hide Settled, ListIs, OwnedList, MutexesOk, Shape, OwnedOk, TopFrom, Commit;
    InvMutexes(reading, s, idle);
    TopReady(s, idle);
    CommitSettled(s, idle);
    OwnedFrame(reading, s, Commit(s));
  }

  lemma TopReady(s: State, idle: Tid)
    requires Settled(s, idle)
    ensures Top(s).Some? && Top(s).value in s.tasks && !s.tasks[Top(s).value].status.Blocked?
    ensures MostUrgent(s, s.tasks[Top(s).value].prio)
  {
    hide Sorted, Fields;
    SettledParts(s, idle);
    TopIsMostUrgent(s, idle);
  }

  lemma StartInv(reading: Reading, s: State, idle: Tid)
    requires FullInv(reading, s, idle) && s.current.None?
    ensures FullInv(reading, Start(s), idle)
  {
    hide Settled, ListIs, OwnedList, MutexesOk, Shape, OwnedOk;
    InvMutexes(reading, s, idle);
    TopReady(s, idle);
    SettledIgnores(s, Start(s), idle);
    TopFromSame(s, Start(s), 0);
    OwnedFrame(reading, s, Start(s));
  }

  /** `Create` before it chooses what runs next. */
  function Added(s: State, t: Tid, p: Priority): (r: State) {
    Append(SetTask(s, t, NewTask(p)), ReadyQ(p), t)
  }

  lemma AddedUntouched(s: State, t: Tid, p: Priority)
    requires t !in s.tasks && OneRunning(s)
    ensures var x := Added(s, t, p);
      && OwnedUntouched(s, x) && OneRunning(x) && x.current == s.current && x.pended == s.pended
      && (s.current.Some? ==> x.tasks[s.current.value] == s.tasks[s.current.value])
  {
  }

  lemma CreateIs(s: State, t: Tid, p: Priority)
    ensures var x := Added(s, t, p); var r := Create(s, t, p);
      && (s.current.Some? ==> r == Reschedule(x)) && (s.current.None? ==> r == Schedule(x))
  {
  }

  lemma CreateInv(reading: Reading, s: State, idle: Tid, t: Tid, p: Priority)
    requires FullInv(reading, s, idle) && t !in s.tasks && (s.current.None? || MayCall(s, idle))
    ensures FullInv(reading, Create(s, t, p), idle)
  {
    hide Settled, MutexesOk, Shape, OwnedOk, Top, Records, MostUrgent, OwnedUntouched, Create;
    InvMutexes(reading, s, idle);
    CreateSettled(s, idle, t, p);
    AddedUntouched(s, t, p);
    CreateIs(s, t, p);
    hide Added;
    var x := Added(s, t, p);
    if s.current.Some? {
      FinishInv(reading, s, x, idle);
    } else {
      var r := Create(s, t, p);
      SettledIgnores(x, r, idle);
      OwnedFrame(reading, s, x);
      OwnedSchedule(reading, x);
    }
  }

  lemma OwnedSchedule(reading: Reading, s: State)
    requires OwnedOk(reading, s)
    ensures OwnedOk(reading, Schedule(s))
  {
    hide Chain, OwnedList;
    forall t | t in s.tasks
      ensures ListIs(reading, Schedule(s), t, OwnedList(Schedule(s), t))
    {
      assert ListIs(reading, s, t, OwnedList(s, t));
      OwnedSame(s, Schedule(s), t, OwnedList(s, t));
    }
  }

  // ----- new objects

  lemma InitMutexInv(reading: Reading, s: State, idle: Tid, m: Mid, link: Option<Mid>)
    requires FullInv(reading, s, idle) && m !in s.mutexes
    ensures FullInv(reading, NewMutex(s, m, link), idle)
  {
    hide Settled, ListIs, OwnedList, MutexesOk, Shape, OwnedOk;
    InvMutexes(reading, s, idle);
    NewMutexSettled(s, idle, m, link);
    DispatchSame(s, NewMutex(s, m, link));
    OwnedFrame(reading, s, NewMutex(s, m, link));
  }

  lemma InitSemInv(reading: Reading, s: State, idle: Tid, i: Sid, n: nat)
    requires FullInv(reading, s, idle) && i !in s.sems
    ensures FullInv(reading, NewSem(s, i, n), idle)
  {
    hide Settled, ListIs, OwnedList, MutexesOk, Shape, OwnedOk;
    InvMutexes(reading, s, idle);
    NewSemSettled(s, idle, i, n);
    DispatchSame(s, NewSem(s, i, n));
    OwnedFrame(reading, s, NewSem(s, i, n));
  }
}
