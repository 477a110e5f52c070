/** What every run keeps, under both readings of the contended lock and with locks nested at
    will: queues, fields, timeouts and semaphores are in order and the scheduler's choice stands. */
module Basics {
  import opened Base
  import opened KernelState
  import opened Invariants
  import opened Structure
  import opened Inheritance
  import opened OwnedLists
  import opened Preservation
  import opened LockSteps
  import opened UnlockSteps
  import opened SmallSteps
  import opened Dispatch
  import opened Machine
  import opened Steps
  import opened MutexSteps

  /** Owners, priorities and who waits for which mutex are as they were. */
  ghost predicate Akin(s: State, r: State) {
    && s.tasks.Keys == r.tasks.Keys && s.mutexes.Keys == r.mutexes.Keys
    && (forall m :: m in s.mutexes ==> r.mutexes[m].owner == s.mutexes[m].owner)
    && (forall t :: t in s.tasks ==>
          && Awaited(r.tasks[t]) == Awaited(s.tasks[t]) && r.tasks[t].blockedOn == s.tasks[t].blockedOn
          && r.tasks[t].prio == s.tasks[t].prio && r.tasks[t].base == s.tasks[t].base)
  }

  /** The lists of owned mutexes are linked as they were. */
  ghost predicate SameLinks(s: State, r: State) {
    && s.tasks.Keys == r.tasks.Keys && s.mutexes.Keys == r.mutexes.Keys
    && (forall m :: m in s.mutexes ==> r.mutexes[m].next == s.mutexes[m].next)
    && (forall t :: t in s.tasks ==> r.tasks[t].owned == s.tasks[t].owned)
  }

  /** Both. */
  ghost predicate Alike(s: State, r: State) {
    Akin(s, r) && SameLinks(s, r)
  }

  lemma CoreAkin(s: State, r: State, idle: Tid)
    requires Core(s, idle) && Akin(s, r) && Placed(r.tasks, r.queues) && Records(r.tasks) && Rest(r, idle)
    ensures Core(r, idle)
  {
    hide Placed, Records, Rest;
  }

  lemma CoreParts(s: State, idle: Tid)
    requires Core(s, idle)
    ensures Placed(s.tasks, s.queues) && Records(s.tasks) && Rest(s, idle) && Shape(s)
    ensures MutexesOk(s.tasks, s.mutexes) && Hinted(s.tasks, s.mutexes)
  {
  }

  lemma AlikeTrans(s: State, x: State, r: State)
    requires Alike(s, x) && Alike(x, r)
    ensures Alike(s, r)
  {
  }

  // ----- the end of most routines

  lemma ScheduleCore(x: State, r: State, idle: Tid)
    requires Core(x, idle) && r == x.(current := r.current, next := r.next, pended := r.pended, tick := r.tick)
    ensures Core(r, idle) && Alike(x, r)
  {
    hide Placed, Records, MutexesOk;
  }

  lemma RescheduleAttends(x: State, idle: Tid)
    requires Core(x, idle) && OneRunning(x) && x.current.Some?
    requires x.pended || !x.tasks[x.current.value].status.Ready?
    ensures Attended(Reschedule(x)) && Core(Reschedule(x), idle) && Alike(x, Reschedule(x))
  {
    hide MutexesOk, Sorted;
    TopIsMostUrgent(x, idle);
    TopFromSame(x, Reschedule(x), 0);
    hide Linked, Shape, IdleOk, TimeoutsOk, SemsOk;
    ScheduleCore(x, Reschedule(x), idle);
  }

  // ----- moves that no mutex is concerned with

  lemma EnterCore(s: State, idle: Tid, c: Tid, q: QueueId)
    requires Core(s, idle) && c in s.tasks && !s.tasks[c].status.Blocked? && c != idle
    requires q in s.queues && (q.Sleep? || (q.SemQ? && q.sem in s.sems && s.sems[q.sem] == 0))
    ensures var r := EnterQueue(s, c, q, false);
      && Core(r, idle) && Alike(s, r)
      && r.tasks == s.tasks[c := Parked(s.tasks[c], q)] && r == s.(tasks := r.tasks, queues := r.queues)
  {
    hide EnterQueue, Linked, Sorted, MutexesOk, Shape, TimeoutsOk, SemsOk, IdleOk;
    var r := EnterQueue(s, c, q, false);
    EnterMoves(s, c, q, false);
    NotSleeping(s, c);
    EnterRest(s, r, idle, c, q);
    CoreAkin(s, r, idle);
  }

  lemma ArmCore(s: State, idle: Tid, c: Tid, ticks: Word)
    requires Core(s, idle) && c in s.tasks && s.tasks[c].waitQ == Some(Sleep) && c !in s.timeouts
    ensures var r := ArmTimeout(s, c, ticks);
      && Core(r, idle) && Alike(s, r)
      && r.tasks == s.tasks[c := s.tasks[c].(wake := r.tasks[c].wake)] && r == s.(tasks := r.tasks, timeouts := r.timeouts)
  {
    hide ArmTimeout, Linked, Sorted, MutexesOk, Shape, TimeoutsOk, SemsOk, IdleOk;
    ArmMoves(s, c, ticks);
    ArmRest(s, idle, c, ticks);
    CoreAkin(s, ArmTimeout(s, c, ticks), idle);
  }

  lemma ParkCore(s: State, idle: Tid, c: Tid, q: QueueId, ticks: Word)
    requires Core(s, idle) && c in s.tasks && !s.tasks[c].status.Blocked? && c != idle
    requires q in s.queues && (q.Sleep? || (q.SemQ? && q.sem in s.sems && s.sems[q.sem] == 0 && ticks == WAIT_FOREVER))
    ensures var x := Park(s, c, q, ticks, false);
      && Core(x, idle) && Alike(s, x) && x == s.(tasks := x.tasks, queues := x.queues, timeouts := x.timeouts)
      && x.tasks == s.tasks[c := Parked(s.tasks[c], q).(wake := x.tasks[c].wake)]
  {
    hide EnterQueue, ArmTimeout, Alike, Core;
    var d := EnterQueue(s, c, q, false);
    EnterCore(s, idle, c, q);
    if ticks != WAIT_FOREVER {
      AwakeUnqueued(s, idle, c);
      ArmCore(d, idle, c, ticks);
      AlikeTrans(s, d, ArmTimeout(d, c, ticks));
    }
  }

  lemma AwakeUnqueued(s: State, idle: Tid, c: Tid)
    requires Core(s, idle) && c in s.tasks && (!s.tasks[c].status.Blocked? || s.tasks[c].waitQ != Some(Sleep))
    ensures c !in s.timeouts
  {
  }

  lemma ReleaseCore(s: State, idle: Tid, t: Tid, code: int)
    requires Core(s, idle) && t in s.tasks && s.tasks[t].status.Blocked?
    requires s.tasks[t].waitQ.Some? && Awaited(s.tasks[t]).None? && t !in s.timeouts
    ensures var r := Released(s, t, code);
      && Core(r, idle) && Alike(s, r)
      && r.tasks == s.tasks[t := Woken(s.tasks[t], code)] && r == s.(tasks := r.tasks, queues := r.queues)
  {
    hide Linked, Sorted, Shape, TimeoutsOk, SemsOk, IdleOk, Core, Alike, Append, SetTask, Remove, Woken;
    CoreParts(s, idle);
    hide Records, MutexesOk, Hinted;
    WaitQueueExists(s, t);
    WakeMoves(s, t, code);
    ReleaseRest(s, idle, t, code);
    ReleasedAlike(s, t, code);
    AlikeIsAkin(s, Released(s, t, code));
    CoreAkin(s, Released(s, t, code), idle);
  }

  lemma WaitQueueExists(s: State, t: Tid)
    requires Placed(s.tasks, s.queues) && Records(s.tasks) && t in s.tasks && s.tasks[t].waitQ.Some?
    ensures s.tasks[t].waitQ.value in s.queues
  {
  }

  lemma ReleasedAlike(s: State, t: Tid, code: int)
    requires Records(s.tasks) && t in s.tasks && s.tasks[t].waitQ.Some? && Awaited(s.tasks[t]).None?
    ensures var r := Released(s, t, code);
      && Alike(s, r) && Records(r.tasks)
      && r.tasks == s.tasks[t := Woken(s.tasks[t], code)] && r == s.(tasks := r.tasks, queues := r.queues)
  {
  }

  lemma AlikeIsAkin(s: State, r: State)
    requires Alike(s, r)
    ensures Akin(s, r)
  {
  }

  lemma MarkCore(s: State, idle: Tid, t: Tid, status: Status)
    requires Core(s, idle) && t in s.tasks && !s.tasks[t].status.Blocked? && !status.Blocked?
    ensures var r := SetTask(s, t, s.tasks[t].(status := status)); Core(r, idle) && Alike(s, r)
  {
    hide Linked, Sorted, MutexesOk;
    var r := SetTask(s, t, s.tasks[t].(status := status));
    PlacedSame(s.tasks, r.tasks, s.queues);
    CoreAkin(s, r, idle);
  }

  // ----- the steps

  /** `s` is between two steps. */
  ghost predicate Ongoing(s: State, idle: Tid) {
    Core(s, idle) && Attended(s)
  }

  lemma YieldFree(s: State, idle: Tid)
    requires Ongoing(s, idle) && MayCall(s, idle)
    ensures Ongoing(Yield(s), idle) && Alike(s, Yield(s))
  {
    hide Linked, Sorted, MutexesOk, Rotate, Top;
    var c := s.current.value;
    RotatePlaced(s, c);
    var x := Rotate(s, c).(pended := true);
    CoreAkin(s, x, idle);
    TopFromSame(Rotate(s, c), x, 0);
    YieldIs(s);
    RescheduleAttends(x, idle);
    AlikeTrans(s, x, Reschedule(x));
  }

  lemma YieldIs(s: State)
    requires s.current.Some?
    ensures Yield(s) == Reschedule(Rotate(s, s.current.value).(pended := true))
  {
    var a, x := Rotate(s, s.current.value), Rotate(s, s.current.value).(pended := true);
    TopFromSame(a, x, 0);
  }

  lemma BlockFree(s: State, idle: Tid, q: QueueId, ticks: Word)
    requires Ongoing(s, idle) && MayCall(s, idle)
    requires q in s.queues && (q.Sleep? || (q.SemQ? && q.sem in s.sems && s.sems[q.sem] == 0 && ticks == WAIT_FOREVER))
    ensures Ongoing(Block(s, q, ticks, false), idle) && Alike(s, Block(s, q, ticks, false))
  {
    hide Core, Alike, Park, Top;
    var x := Park(s, s.current.value, q, ticks, false);
    ParkCore(s, idle, s.current.value, q, ticks);
    RescheduleAttends(x, idle);
    AlikeTrans(s, x, Reschedule(x));
  }

  lemma CountFree(s: State, idle: Tid, i: Sid, n: nat)
    requires Ongoing(s, idle) && i in s.sems && (n > 0 ==> QueueOf(s, SemQ(i)) == [])
    ensures var r := s.(sems := s.sems[i := n]); Ongoing(r, idle) && Alike(s, r)
  {
    hide Placed, Records, MutexesOk;
    TopFromSame(s, s.(sems := s.sems[i := n]), 0);
  }

  lemma SemFacts(s: State, idle: Tid, i: Sid)
    requires Core(s, idle) && i in s.sems
    ensures SemQ(i) in s.queues && s.sems[i] >= 0 && (s.sems[i] > 0 ==> QueueOf(s, SemQ(i)) == [])
    ensures QueueOf(s, SemQ(i)) != [] ==> var t := QueueOf(s, SemQ(i))[0];
      t in s.tasks && s.tasks[t].status.Blocked? && s.tasks[t].waitQ == Some(SemQ(i)) && t !in s.timeouts
  {
    hide Sorted, MutexesOk;
    if QueueOf(s, SemQ(i)) != [] {
      WokenSem(s, i);
      AwakeUnqueued(s, idle, QueueOf(s, SemQ(i))[0]);
    }
  }

  lemma TakeFree(s: State, idle: Tid, i: Sid)
    requires Ongoing(s, idle) && MayCall(s, idle) && i in s.sems
    ensures Ongoing(SemTake(s, i), idle) && Alike(s, SemTake(s, i))
  {
    hide Ongoing, Alike, Block, Core;
    assert Core(s, idle) by { OngoingParts(s, idle); }
    SemFacts(s, idle, i);
    if s.sems[i] > 0 {
      CountFree(s, idle, i, s.sems[i] - 1);
    } else {
      BlockFree(s, idle, SemQ(i), WAIT_FOREVER);
    }
  }

  lemma OngoingParts(s: State, idle: Tid)
    requires Ongoing(s, idle)
    ensures Core(s, idle) && Attended(s)
  {
  }

  lemma GiveFree(s: State, idle: Tid, i: Sid)
    requires Ongoing(s, idle) && MayCall(s, idle) && i in s.sems
    ensures Ongoing(SemGive(s, i), idle) && Alike(s, SemGive(s, i))
  {
    hide Alike, Core, WakeOne, Reschedule, Top;
    SemFacts(s, idle, i);
    if QueueOf(s, SemQ(i)) == [] {
      CountFree(s, idle, i, s.sems[i] + 1);
    } else {
      var t := QueueOf(s, SemQ(i))[0];
      WakeIsRelease(s, SemQ(i));
      ReleaseCore(s, idle, t, 0);
      var x := Released(s, t, 0);
      RescheduleAttends(x, idle);
      AlikeTrans(s, x, Reschedule(x));
    }
  }

  // the tick

  lemma DropCore(s: State, idle: Tid, t: Tid)
    requires Core(s, idle)
    ensures Core(TimeoutRemove(s, t), idle) && t !in TimeoutRemove(s, t).timeouts
  {
    hide Placed, MutexesOk, Records;
    WithoutMembers(s.timeouts, t);
  }

  lemma ExpireHeadCore(s: State, idle: Tid)
    requires Core(s, idle) && s.timeouts != []
    ensures var t := s.timeouts[0]; var r := ExpireHead(s);
      && Core(r, idle) && Alike(s, r)
      && t in s.tasks && s.tasks[t].waitQ == Some(Sleep) && s.tasks[t].status.Blocked?
      && r.tasks == s.tasks[t := Woken(s.tasks[t], -1)]
  {
    hide Linked, Sorted, MutexesOk, SemsOk, IdleOk, Shape;
    var t := s.timeouts[0];
    var a := TimeoutRemove(s, t);
    DropCore(s, idle, t);
    ReleaseCore(a, idle, t, -1);
    assert ExpireHead(s) == Released(a, t, -1);
  }

  lemma {:induction false} ExpireCore(s: State, idle: Tid)
    requires Core(s, idle)
    ensures var r := Expire(s);
      && Core(r, idle) && Alike(s, r) && OnlyWoke(s.tasks, r.tasks)
      && r == s.(tasks := r.tasks, queues := r.queues, timeouts := r.timeouts)
    decreases |s.timeouts|
  {
    hide Core, ExpireHead, Alike, OnlyWoke, TickReached;
    if s.timeouts != [] && TickReached(s.tick, TaskOf(s.tasks, s.timeouts[0]).wake) {
      var a := ExpireHead(s);
      ExpireHeadCore(s, idle);
      ExpireHeadFrame(s);
      ExpireCore(a, idle);
      AlikeTrans(s, a, Expire(a));
      WokeTrans(s.tasks, a.tasks, Expire(a).tasks, s.timeouts[0]);
    } else {
      AlikeSelf(s);
      WokeSelf(s.tasks);
    }
  }

  lemma WokeSelf(tasks: map<Tid, Task>)
    ensures OnlyWoke(tasks, tasks)
  {
  }

  lemma WokeTrans(before: map<Tid, Task>, middle: map<Tid, Task>, after: map<Tid, Task>, t: Tid)
    requires t in before && before[t].waitQ == Some(Sleep) && middle == before[t := Woken(before[t], -1)]
    requires OnlyWoke(middle, after)
    ensures OnlyWoke(before, after)
  {
  }

  lemma TickedCore(s: State, idle: Tid)
    requires Ongoing(s, idle) && s.current.Some?
    ensures var x := Ticked(s);
      && Core(x, idle) && Alike(s, x) && OneRunning(x) && x.current == s.current
      && (x.pended || !x.tasks[s.current.value].status.Ready?)
  {
    hide Placed, MutexesOk, Rest, Expire, Rotate, Top, Alike;
    var a := s.(tick := (s.tick + 1) % 0x1_0000_0000);
    ScheduleCore(s, a, idle);
    ExpireCore(a, idle);
    var b := Reschedule(Expire(a));
    ScheduleCore(Expire(a), b, idle);
    RotateCore(b, idle, s.current.value);
    AlikeTrans(s, a, Expire(a));
    AlikeTrans(s, Expire(a), b);
    AlikeTrans(s, b, Rotate(b, s.current.value));
  }

  lemma RotateCore(s: State, idle: Tid, t: Tid)
    requires Core(s, idle) && t in s.tasks
    ensures var r := Rotate(s, t); Core(r, idle) && Alike(s, r) && r == s.(queues := r.queues)
  {
    hide Linked, Sorted, MutexesOk, Rotate;
    RotatePlaced(s, t);
    CoreAkin(s, Rotate(s, t), idle);
  }

  lemma TickFree(s: State, idle: Tid)
    requires Ongoing(s, idle) && s.current.Some?
    ensures Ongoing(Tick(s), idle) && Alike(s, Tick(s))
  {
    hide Core, Alike, Attended, Ticked, Tick, Reschedule;
    TickedCore(s, idle);
    TickUnfolds(s);
    RescheduleAttends(Ticked(s), idle);
    AlikeTrans(s, Ticked(s), Tick(s));
  }

  // the switch, the start, new objects

  lemma TopAwake(s: State, idle: Tid)
    requires Core(s, idle)
    ensures Top(s).Some? && Top(s).value in s.tasks && !s.tasks[Top(s).value].status.Blocked?
  {
    hide Sorted, MutexesOk;
    TopIsMostUrgent(s, idle);
  }

  lemma CommitFree(s: State, idle: Tid)
    requires Ongoing(s, idle) && s.pended
    ensures Ongoing(Commit(s), idle) && Alike(s, Commit(s))
  {
    hide Core, Alike, Top;
    TopAwake(s, idle);
    var a := Demote(s);
    if a != s {
      MarkCore(s, idle, s.current.value, Ready);
    } else {
      AlikeSelf(s);
    }
    var b := SetTask(a, s.next.value, a.tasks[s.next.value].(status := Running));
    MarkCore(a, idle, s.next.value, Running);
    ScheduleCore(b, Commit(s), idle);
    AlikeTrans(s, a, b);
    AlikeTrans(s, b, Commit(s));
  }

  lemma AlikeSelf(s: State)
    ensures Alike(s, s)
  {
  }

  lemma StartFree(s: State, idle: Tid)
    requires Ongoing(s, idle) && s.current.None?
    ensures Ongoing(Start(s), idle) && Alike(s, Start(s))
  {
    hide Core, Alike, TopFrom;
    TopAwake(s, idle);
    TopFromSame(s, Start(s), 0);
    ScheduleCore(s, Start(s), idle);
  }

  lemma InitMutexFree(s: State, idle: Tid, m: Mid, link: Option<Mid>)
    requires Ongoing(s, idle) && m !in s.mutexes
    ensures Ongoing(NewMutex(s, m, link), idle)
  {
    hide Placed, Records, MutexesOk, Hinted, Rest, TopFrom;
    var r := NewMutex(s, m, link);
    NewQueueExists(s, idle, MutexQ(m));
    NewQueuePlaced(s.tasks, s.queues, MutexQ(m));
    AddedMutex(s.tasks, s.mutexes, m, link);
    InitMutexRest(s, idle, m, link);
    TopFromSame(s, r, 0);
  }

  lemma NewQueueExists(s: State, idle: Tid, q: QueueId)
    requires Rest(s, idle) && ((q.MutexQ? && q.mutex !in s.mutexes) || (q.SemQ? && q.sem !in s.sems))
    ensures q !in s.queues
  {
  }

  lemma AddedMutex(tasks: map<Tid, Task>, mutexes: map<Mid, Mutex>, m: Mid, link: Option<Mid>)
    requires MutexesOk(tasks, mutexes) && Hinted(tasks, mutexes) && m !in mutexes
    ensures var after := mutexes[m := Mutex(None, link)]; MutexesOk(tasks, after) && Hinted(tasks, after)
  {
  }

  lemma InitMutexRest(s: State, idle: Tid, m: Mid, link: Option<Mid>)
    requires Rest(s, idle) && m !in s.mutexes
    ensures Rest(NewMutex(s, m, link), idle)
  {
  }

  lemma InitSemFree(s: State, idle: Tid, i: Sid, n: nat)
    requires Ongoing(s, idle) && i !in s.sems
    ensures Ongoing(NewSem(s, i, n), idle) && Alike(s, NewSem(s, i, n))
  {
    hide Placed, Records, MutexesOk, Hinted, TopFrom;
    NewQueueExists(s, idle, SemQ(i));
    NewQueuePlaced(s.tasks, s.queues, SemQ(i));
    TopFromSame(s, NewSem(s, i, n), 0);
  }

  lemma AddedCore(s: State, idle: Tid, t: Tid, p: Priority)
    requires Core(s, idle) && t !in s.tasks
    ensures Core(Added(s, t, p), idle)
  {
    hide Linked, Sorted;
    assert ReadyQ(p) in s.queues;
    CreatePlaced(s.tasks, s.queues, t, p);
    CreateRest(s, idle, t, p);
  }

  lemma CreateFree(s: State, idle: Tid, t: Tid, p: Priority)
    requires Ongoing(s, idle) && t !in s.tasks && (s.current.None? || MayCall(s, idle))
    ensures Ongoing(Create(s, t, p), idle)
  {
    hide Core, Alike, Create, Top, OwnedUntouched;
    AddedCore(s, idle, t, p);
    AddedUntouched(s, t, p);
    CreateIs(s, t, p);
    hide Added;
    var x := Added(s, t, p);
    if s.current.Some? {
      RescheduleAttends(x, idle);
    } else {
      ScheduleCore(x, Create(s, t, p), idle);
    }
  }

  // ----- locking a free mutex

  lemma SeizeCore(s: State, idle: Tid, m: Mid)
    requires Ongoing(s, idle) && MayCall(s, idle) && m in s.mutexes && s.mutexes[m].owner.None?
    ensures Core(LockCall(s, m), idle)
  {
    hide Placed, Rest, Records, MutexesOk, Hinted, Top;
    var c, r := s.current.value, LockCall(s, m);
    PlacedSame(s.tasks, r.tasks, s.queues);
    LockFreeRest(s, idle, c, m);
    SeizeMutexes(s.tasks, s.mutexes, r.tasks, r.mutexes, c, m);
  }

  lemma SeizeMutexes(tasks: map<Tid, Task>, mutexes: map<Mid, Mutex>, tasks': map<Tid, Task>, mutexes': map<Mid, Mutex>, c: Tid, m: Mid)
    requires Records(tasks) && MutexesOk(tasks, mutexes) && Hinted(tasks, mutexes) && c in tasks && m in mutexes && mutexes[m].owner.None?
    requires tasks' == tasks[c := tasks[c].(owned := Some(m))] && mutexes'.Keys == mutexes.Keys
    requires forall n :: n in mutexes ==> mutexes'[n].owner == if n == m then Some(c) else mutexes[n].owner
    ensures Records(tasks') && MutexesOk(tasks', mutexes') && Hinted(tasks', mutexes')
  {
  }

  lemma SeizeAttended(s: State, idle: Tid, m: Mid)
    requires Ongoing(s, idle) && MayCall(s, idle) && m in s.mutexes && s.mutexes[m].owner.None?
    ensures Attended(LockCall(s, m))
  {
    hide Core, Top;
    TopFromSame(s, LockCall(s, m), 0);
  }

  // ----- unlocking

  lemma UnlistedCore(s: State, idle: Tid, c: Tid, m: Mid)
    requires Core(s, idle) && c in s.tasks
    ensures var a := RemoveFromOwned(s, c, m);
      && Core(a, idle) && Akin(s, a) && a == s.(tasks := a.tasks, mutexes := a.mutexes)
      && a.mutexes.Keys == s.mutexes.Keys && a.tasks == s.tasks[c := s.tasks[c].(owned := a.tasks[c].owned)]
  {
    hide Linked, Sorted, MutexesOk, OwnedList, Rest;
    var a := RemoveFromOwned(s, c, m);
    UnlistedFrame(s, c, m);
    hide RemoveFromOwned;
    PlacedSame(s.tasks, a.tasks, s.queues);
    UnlistedRest(s, a, idle);
    CoreAkin(s, a, idle);
  }

  lemma UnlistedFrame(s: State, c: Tid, m: Mid)
    requires c in s.tasks
    ensures var a := RemoveFromOwned(s, c, m);
      && Akin(s, a) && a == s.(tasks := a.tasks, mutexes := a.mutexes)
      && a.tasks == s.tasks[c := s.tasks[c].(owned := a.tasks[c].owned)]
  {
    hide OwnedList;
  }

  lemma UnlistedRest(s: State, a: State, idle: Tid)
    requires Rest(s, idle) && Akin(s, a) && a == s.(tasks := a.tasks, mutexes := a.mutexes)
    requires forall t :: t in s.tasks ==> a.tasks[t] == s.tasks[t].(owned := a.tasks[t].owned)
    ensures Rest(a, idle)
  {
  }

  /** After the caller's priority has been set to `p`. */
  lemma SetCore(a: State, idle: Tid, c: Tid, p: Priority, m: Mid)
    requires Core(a, idle) && c in a.tasks && !a.tasks[c].status.Blocked?
    ensures var b := SetPriority(a, c, p);
      && Core(b, idle) && b == a.(tasks := b.tasks, queues := b.queues)
      && b.tasks == a.tasks[c := a.tasks[c].(prio := p)] && QueueOf(b, MutexQ(m)) == QueueOf(a, MutexQ(m))
  {
    hide Linked, Sorted, SetPriority, SemsOk, TimeoutsOk, IdleOk;
    SetPriorityMoves(a, c, p);
    SetPriorityRest(a, idle, c, p);
    SetPriorityElsewhere(a, c, p, MutexQ(m));
  }

  /** The tasks and mutexes after `m` has gone to `h`, with `c` at priority `p`. */
  ghost predicate PassedOn(s: State, e: State, c: Tid, m: Mid, h: Option<Tid>, p: Priority) {
    && e.tasks.Keys == s.tasks.Keys && e.mutexes.Keys == s.mutexes.Keys
    && (h.Some? ==> h.value in s.tasks && h.value != c && Awaited(s.tasks[h.value]) == Some(m))
    && (forall n :: n in s.mutexes ==> e.mutexes[n].owner == if n == m then h else s.mutexes[n].owner)
    && (forall t :: t in s.tasks ==>
          && e.tasks[t].base == s.tasks[t].base && e.tasks[t].blockedOn == s.tasks[t].blockedOn
          && e.tasks[t].prio == (if t == c then p else s.tasks[t].prio)
          && (if h == Some(t) then e.tasks[t].status.Ready? && e.tasks[t].waitQ.None?
              else e.tasks[t].status == s.tasks[t].status && e.tasks[t].waitQ == s.tasks[t].waitQ && e.tasks[t].wake == s.tasks[t].wake))
  }

  lemma UnlockUnfolds(s: State, c: Tid, m: Mid)
    requires s.current == Some(c) && m in s.mutexes && s.mutexes[m].owner == Some(c)
    ensures var a := RemoveFromOwned(s, c, m); var b := SetPriority(a, c, Recompute(a, c));
      Unlock(s, m) == if QueueOf(b, MutexQ(m)) == [] then Surrendered(s, c, m) else Reschedule(Surrendered(s, c, m))
  {
    hide RemoveFromOwned, SetPriority, Recompute, WakeOne, Reschedule, QueueOf;
  }

  /** How the hand-over follows from the steps of the routine. */
  lemma PassedOnBy(s: State, a: State, e: State, c: Tid, m: Mid, h: Option<Tid>, p: Priority)
    requires Akin(s, a) && c in s.tasks && m in s.mutexes && a.tasks == s.tasks[c := s.tasks[c].(owned := a.tasks[c].owned)]
    requires Awaited(s.tasks[c]).None? && (h.Some? ==> h.value in s.tasks && Awaited(s.tasks[h.value]) == Some(m))
    requires var tasks := a.tasks[c := a.tasks[c].(prio := p)];
      e.tasks == if h.Some? then tasks[h.value := Woken(TaskOf(tasks, h.value), 0)] else tasks
    requires e.mutexes == a.mutexes[m := MutexOf(a, m).(owner := h)]
    ensures PassedOn(s, e, c, m, h, p)
  {
  }

  lemma PassedOnLinks(a: State, e: State, c: Tid, m: Mid, h: Option<Tid>, p: Priority)
    requires c in a.tasks && m in a.mutexes && (h.Some? ==> h.value in a.tasks)
    requires var tasks := a.tasks[c := a.tasks[c].(prio := p)];
      e.tasks == if h.Some? then tasks[h.value := Woken(TaskOf(tasks, h.value), 0)] else tasks
    requires e.mutexes == a.mutexes[m := MutexOf(a, m).(owner := h)]
    ensures SameLinks(a, e)
  {
  }

  lemma SurrenderedCore(s: State, idle: Tid, m: Mid)
    requires Core(s, idle) && MayCall(s, idle) && !s.tasks[s.current.value].status.Blocked?
    requires m in s.mutexes && s.mutexes[m].owner == s.current
    ensures var c := s.current.value; var e := Surrendered(s, c, m); var q := QueueOf(s, MutexQ(m));
      var h := if q == [] then None else Some(q[0]);
      && Placed(e.tasks, e.queues) && Rest(e, idle)
      && PassedOn(s, e, c, m, h, Recompute(RemoveFromOwned(s, c, m), c)) && SameLinks(RemoveFromOwned(s, c, m), e)
      && e == s.(tasks := e.tasks, queues := e.queues, mutexes := e.mutexes)
      && Unlock(s, m) == if q == [] then e else Reschedule(e)
  {
    hide Placed, MutexesOk, RemoveFromOwned, Recompute, SetPriority, HandedOver, Rest, Reschedule, Unlock, Akin, SameLinks, PassedOn;
    var c := s.current.value;
    var a := RemoveFromOwned(s, c, m);
    var p := Recompute(a, c);
    UnlistedCore(s, idle, c, m);
    SetCore(a, idle, c, p, m);
    var b := SetPriority(a, c, p);
    RestGivesShape(b, idle);
    RestGivesShape(s, idle);
    HandOverRest(b, idle, m);
    HeadIsMostUrgent(s, m);
    UnlockUnfolds(s, c, m);
    var q := QueueOf(s, MutexQ(m));
    PassedOnBy(s, a, Surrendered(s, c, m), c, m, if q == [] then None else Some(q[0]), p);
    PassedOnLinks(a, Surrendered(s, c, m), c, m, if q == [] then None else Some(q[0]), p);
  }

  lemma PassedOnRecords(s: State, e: State, c: Tid, m: Mid, h: Option<Tid>, p: Priority)
    requires Records(s.tasks) && Hinted(s.tasks, s.mutexes) && PassedOn(s, e, c, m, h, p)
    ensures Records(e.tasks) && Hinted(e.tasks, e.mutexes)
  {
  }

  lemma PassedOnMutexes(s: State, e: State, c: Tid, m: Mid, h: Option<Tid>, p: Priority)
    requires MutexesOk(s.tasks, s.mutexes) && PassedOn(s, e, c, m, h, p)
    requires c in s.tasks && m in s.mutexes && s.mutexes[m].owner == Some(c)
    requires forall w :: w in s.tasks && Awaited(s.tasks[w]) == Some(m) ==> h.Some?
    ensures MutexesOk(e.tasks, e.mutexes)
  {
  }

  lemma PassedOnCore(s: State, e: State, idle: Tid, c: Tid, m: Mid, h: Option<Tid>, p: Priority)
    requires Core(s, idle) && c in s.tasks && m in s.mutexes && s.mutexes[m].owner == Some(c)
    requires PassedOn(s, e, c, m, h, p) && Placed(e.tasks, e.queues) && Rest(e, idle)
    requires forall w :: w in s.tasks && Awaited(s.tasks[w]) == Some(m) ==> h.Some?
    ensures Core(e, idle)
  {
    hide PassedOn, Placed, Records, MutexesOk, Hinted, Rest;
    PassedOnRecords(s, e, c, m, h, p);
    PassedOnMutexes(s, e, c, m, h, p);
  }

  lemma QueueWaits(s: State, idle: Tid, m: Mid)
    requires Core(s, idle) && m in s.mutexes
    ensures var q := QueueOf(s, MutexQ(m));
      && (q != [] ==> q[0] in s.tasks && Awaited(s.tasks[q[0]]) == Some(m))
      && (forall w :: w in s.tasks && Awaited(s.tasks[w]) == Some(m) ==> q != [] && s.tasks[q[0]].prio <= s.tasks[w].prio)
  {
    hide Linked, Sorted, MutexesOk;
    HeadIsMostUrgent(s, m);
  }

  lemma UnlockFree(s: State, idle: Tid, m: Mid)
    requires Ongoing(s, idle) && MayCall(s, idle) && m in s.mutexes && s.mutexes[m].owner == s.current
    ensures Ongoing(Unlock(s, m), idle) && Alike(Surrendered(s, s.current.value, m), Unlock(s, m))
  {
    hide Core, Unlock, Surrendered, Placed, Rest, Top, Alike, RemoveFromOwned, Recompute;
    var c := s.current.value;
    var e, q := Surrendered(s, c, m), QueueOf(s, MutexQ(m));
    var h := if q == [] then None else Some(q[0]);
    SurrenderedCore(s, idle, m);
    QueueWaits(s, idle, m);
    PassedOnCore(s, e, idle, c, m, h, Recompute(RemoveFromOwned(s, c, m), c));
    if q == [] {
      AlikeSelf(e);
    } else {
      RescheduleAttends(e, idle);
    }
  }

  // ----- a contended lock

  lemma SetPriorityOnly(s: State, t: Tid, p: Priority)
    requires t in s.tasks
    ensures var r := SetPriority(s, t, p);
      && r.tasks == s.tasks[t := s.tasks[t].(prio := p)]
      && r == s.(tasks := r.tasks, queues := r.queues)
  {
    hide QueueOf, PriorityPos, Without, InsertAt;
    var k := s.tasks[t];
    if !k.status.Blocked? {
      var a := Remove(s, ReadyQ(k.prio), t);
      assert SetPriority(s, t, p) == Append(SetTask(a, t, k.(prio := p)), ReadyQ(p), t);
    }
  }

  lemma {:induction false} BoostFrame(s: State, p: Priority, o: Option<Tid>)
    ensures var r := Boost(s, p, o); r == s.(tasks := r.tasks, queues := r.queues)
    decreases LessUrgent(s.tasks, p)
  {
    hide NextOwner, SetPriority;
    if o.Some? && o.value in s.tasks && s.tasks[o.value].prio > p {
      var a := SetPriority(s, o.value, p);
      SetPriorityOnly(s, o.value, p);
      assert o.value in LessUrgent(s.tasks, p) && o.value !in LessUrgent(a.tasks, p);
      assert LessUrgent(a.tasks, p) < LessUrgent(s.tasks, p);
      BoostFrame(a, p, NextOwner(a, o.value));
    }
  }

  lemma EnterFrame(s: State, c: Tid, q: QueueId, byPriority: bool)
    ensures var r := EnterQueue(s, c, q, byPriority);
      r == s.(tasks := r.tasks, queues := r.queues) && r.tasks == s.tasks[c := Parked(TaskOf(s.tasks, c), q)]
  {
  }

  /** The walk changes priorities only, and none that is urgent enough already. */
  lemma {:induction false} BoostCore(s: State, idle: Tid, p: Priority, o: Option<Tid>)
    requires Placed(s.tasks, s.queues) && Records(s.tasks) && Rest(s, idle)
    ensures var r := Boost(s, p, o);
      && Placed(r.tasks, r.queues) && Records(r.tasks) && Rest(r, idle) && OnlyPriorities(s.tasks, r.tasks)
      && forall t :: t in s.tasks && s.tasks[t].prio <= p ==> r.tasks[t] == s.tasks[t]
    decreases LessUrgent(s.tasks, p)
  {
    hide Placed, Records, Rest, SetPriority, NextOwner;
    if o.Some? && o.value in s.tasks && s.tasks[o.value].prio > p {
      var a := SetPriority(s, o.value, p);
      RaisedCore(s, idle, o.value, p);
      assert o.value in LessUrgent(s.tasks, p) && o.value !in LessUrgent(a.tasks, p);
      assert LessUrgent(a.tasks, p) < LessUrgent(s.tasks, p);
      BoostCore(a, idle, p, NextOwner(a, o.value));
    }
  }

  lemma RaisedCore(s: State, idle: Tid, o: Tid, p: Priority)
    requires Placed(s.tasks, s.queues) && Records(s.tasks) && Rest(s, idle) && o in s.tasks
    ensures var a := SetPriority(s, o, p);
      && Placed(a.tasks, a.queues) && Records(a.tasks) && Rest(a, idle)
      && a.tasks == s.tasks[o := s.tasks[o].(prio := p)]
  {
    hide Linked, Sorted, SetPriority, SemsOk, TimeoutsOk, IdleOk;
    SetPriorityMoves(s, o, p);
    SetPriorityRest(s, idle, o, p);
  }

  lemma EnteredPlaced(b: State, idle: Tid, c: Tid, m: Mid)
    requires Placed(b.tasks, b.queues) && Records(b.tasks) && Rest(b, idle) && m in b.mutexes
    requires c in b.tasks && !b.tasks[c].status.Blocked? && c != idle
    ensures var x := EnterQueue(b, c, MutexQ(m), true);
      && Placed(x.tasks, x.queues) && Rest(x, idle)
      && x.tasks == b.tasks[c := Parked(b.tasks[c], MutexQ(m))] && x == b.(tasks := x.tasks, queues := x.queues)
  {
    hide Linked, Sorted, EnterQueue, SemsOk, TimeoutsOk, IdleOk;
    EnterMoves(b, c, MutexQ(m), true);
    AwakeNotSleeping(b, idle, c);
    EnterRest(b, EnterQueue(b, c, MutexQ(m), true), idle, c, MutexQ(m));
  }

  lemma AnnouncedCore(s: State, idle: Tid, c: Tid, m: Mid)
    requires Core(s, idle) && c in s.tasks && c != idle
    ensures var a := Announced(s, c, m); Placed(a.tasks, a.queues) && Records(a.tasks) && Rest(a, idle)
  {
    hide Linked, Sorted, MutexesOk;
    PlacedSame(s.tasks, Announced(s, c, m).tasks, s.queues);
  }

  /** The state in which a contended lock reschedules. */
  function Entered(s: State, c: Tid, m: Mid): (x: State) {
    EnterQueue(Boost(Announced(s, c, m), TaskOf(s.tasks, c).prio, MutexOf(s, m).owner), c, MutexQ(m), true)
  }

  lemma ContendedUnfolds(s: State, c: Tid, m: Mid)
    requires s.current == Some(c) && Contended(s, m)
    ensures LockCall(s, m) == Reschedule(Entered(s, c, m))
  {
    hide Boost, EnterQueue, Reschedule;
    BoostFrame(Announced(s, c, m), TaskOf(s.tasks, c).prio, MutexOf(s, m).owner);
  }

  lemma EnteredCore(s: State, idle: Tid, c: Tid, m: Mid)
    requires Core(s, idle) && s.current == Some(c) && c in s.tasks && !s.tasks[c].status.Blocked? && c != idle
    requires m in s.mutexes && Contended(s, m)
    ensures var x := Entered(s, c, m);
      && Core(x, idle) && LockedOut(s, x, c, m)
      && x == s.(tasks := x.tasks, queues := x.queues)
  {
    hide Placed, Rest, Boost, EnterQueue;
    AnnouncedCore(s, idle, c, m);
    var a, p, o := Announced(s, c, m), s.tasks[c].prio, s.mutexes[m].owner;
    BoostCore(a, idle, p, o);
    BoostFrame(a, p, o);
    EnteredPlaced(Boost(a, p, o), idle, c, m);
    LockedOutCore(s, Entered(s, c, m), c, m);
  }

  lemma LockedOutCore(s: State, x: State, c: Tid, m: Mid)
    requires Records(s.tasks) && MutexesOk(s.tasks, s.mutexes) && Hinted(s.tasks, s.mutexes)
    requires s.current == Some(c) && c in s.tasks && m in s.mutexes && Contended(s, m)
    requires x.mutexes == s.mutexes && x.tasks.Keys == s.tasks.Keys
    requires x.tasks[c] == Parked(s.tasks[c].(blockedOn := Some(m)), MutexQ(m))
    requires forall t :: t in s.tasks && t != c ==> x.tasks[t] == s.tasks[t].(prio := x.tasks[t].prio)
    ensures Records(x.tasks) && MutexesOk(x.tasks, x.mutexes) && Hinted(x.tasks, x.mutexes) && LockedOut(s, x, c, m)
  {
  }

  lemma LockCallOngoing(s: State, idle: Tid, m: Mid)
    requires Ongoing(s, idle) && MayCall(s, idle) && m in s.mutexes && Contended(s, m)
    ensures var r := LockCall(s, m);
      && Ongoing(r, idle) && LockedOut(s, r, s.current.value, m) && r.pended
      && r == s.(tasks := r.tasks, queues := r.queues, next := r.next, pended := r.pended)
  {
    hide Core, Entered, LockCall, Top;
    var c := s.current.value;
    AwakeCaller(s, idle);
    EnteredCore(s, idle, c, m);
    ContendedUnfolds(s, c, m);
    var x := Entered(s, c, m);
    RescheduleAttends(x, idle);
    TopAwake(x, idle);
  }

  lemma AwakeCaller(s: State, idle: Tid)
    requires Ongoing(s, idle) && MayCall(s, idle)
    ensures !s.tasks[s.current.value].status.Blocked? && Awaited(s.tasks[s.current.value]).None?
    ensures s.current.value !in s.timeouts
  {
  }

  // ----- the lines after it

  lemma ResumeOngoing(r: State, idle: Tid, m: Mid)
    requires Ongoing(r, idle) && r.current.Some? && m in r.mutexes
    ensures Ongoing(LockResume(r, m), idle)
  {
    hide Core, Attended, LockResume;
    OngoingParts(r, idle);
    CurrentExists(r);
    ResumeCore(r, idle, m);
    ResumeAttended(r, m);
  }

  lemma CurrentExists(r: State)
    requires Attended(r) && r.current.Some?
    ensures r.current.value in r.tasks
  {
  }

  lemma ResumeCore(r: State, idle: Tid, m: Mid)
    requires Core(r, idle) && r.current.Some? && r.current.value in r.tasks && m in r.mutexes
    ensures Core(LockResume(r, m), idle)
  {
    hide Placed, Records, Rest, Hinted, MutexesOk;
    var c, x := r.current.value, LockResume(r, m);
    ResumeFrame(r, m);
    ResumeAtOnceRest(r, idle, c, m);
    PlacedSame(r.tasks, x.tasks, r.queues);
    ResumedFields(r.tasks, r.mutexes, x.tasks, x.mutexes, c, m);
  }

  lemma ResumeAttended(r: State, m: Mid)
    requires Attended(r) && r.current.Some? && r.current.value in r.tasks
    ensures Attended(LockResume(r, m))
  {
    hide TopFrom, LockResume;
    var x := LockResume(r, m);
    ResumeFrame(r, m);
    TopFromSame(r, x, 0);
  }

  lemma ResumedFields(tasks: map<Tid, Task>, mutexes: map<Mid, Mutex>, tasks': map<Tid, Task>, mutexes': map<Mid, Mutex>, c: Tid, m: Mid)
    requires Records(tasks) && MutexesOk(tasks, mutexes) && Hinted(tasks, mutexes) && c in tasks && m in mutexes
    requires tasks' == tasks[c := tasks[c].(blockedOn := None, owned := Some(m))] && mutexes'.Keys == mutexes.Keys
    requires forall n :: n in mutexes ==> mutexes'[n].owner == mutexes[n].owner
    ensures Records(tasks') && MutexesOk(tasks', mutexes') && Hinted(tasks', mutexes')
  {
  }

  // ----- every step

  lemma AlikeQuiet(s: State, r: State)
    requires Alike(s, r) && Unannounced(s.tasks)
    ensures Unannounced(r.tasks)
  {
  }

  lemma LockStep(reading: Reading, s: State, idle: Tid, m: Mid)
    requires Ongoing(s, idle) && MayCall(s, idle) && m in s.mutexes
    ensures var r := Step(reading, s, LockMutex(m));
      Ongoing(r, idle) && (reading.Executed? && Unannounced(s.tasks) ==> Unannounced(r.tasks))
  {
    hide Ongoing, LockCall, LockResume, Core, Attended;
    if Contended(s, m) {
      var r := LockCall(s, m);
      LockCallOngoing(s, idle, m);
      ResumeOngoing(r, idle, m);
      ResumeFrame(r, m);
    } else if s.mutexes[m].owner.None? {
      SeizeOngoing(s, idle, m);
      SeizeFrame(s, m);
    } else {
      LockRefused(s, m);
    }
  }

  lemma LockRefused(s: State, m: Mid)
    requires m in s.mutexes && s.mutexes[m].owner == s.current
    ensures LockCall(s, m) == s && LockExecuted(s, m) == s
  {
  }

  lemma SeizeFrame(s: State, m: Mid)
    requires s.current.Some? && s.current.value in s.tasks && m in s.mutexes && s.mutexes[m].owner.None?
    ensures var r, c := LockCall(s, m), s.current.value;
      && r == s.(tasks := r.tasks, mutexes := r.mutexes)
      && r.tasks == s.tasks[c := s.tasks[c].(owned := Some(m))]
      && r.mutexes == s.mutexes[m := Mutex(Some(c), s.tasks[c].owned)]
  {
  }

  lemma SeizeOngoing(s: State, idle: Tid, m: Mid)
    requires Ongoing(s, idle) && MayCall(s, idle) && m in s.mutexes && s.mutexes[m].owner.None?
    ensures Ongoing(LockCall(s, m), idle)
  {
    hide Core, Attended, LockCall;
    SeizeCore(s, idle, m);
    SeizeAttended(s, idle, m);
  }

  lemma UnlockStep(s: State, idle: Tid, m: Mid)
    requires Ongoing(s, idle) && MayCall(s, idle) && m in s.mutexes
    ensures Ongoing(Unlock(s, m), idle) && (Unannounced(s.tasks) ==> Unannounced(Unlock(s, m).tasks))
  {
    hide Core, Attended, Unlock, Surrendered, Alike;
    if s.mutexes[m].owner == s.current {
      var e := Surrendered(s, s.current.value, m);
      AwakeCaller(s, idle);
      SurrenderedCore(s, idle, m);
      UnlockFree(s, idle, m);
      if Unannounced(s.tasks) {
        AlikeQuiet(e, Unlock(s, m));
      }
    } else {
      UnlockRefused(s, m);
    }
  }

  lemma ResumeStep(s: State, idle: Tid)
    requires Ongoing(s, idle) && Enabled(Intended, s, idle, ResumeLock)
    ensures Ongoing(Step(Intended, s, ResumeLock), idle)
  {
    hide Placed, Records, MutexesOk, Rest, LockResume, Top;
    ResumeOngoing(s, idle, s.tasks[s.current.value].blockedOn.value);
  }

  /** The steps that leave owners, priorities, lists and announcements as they are. */
  ghost predicate Plain(e: Event) {
    !e.LockMutex? && !e.ResumeLock? && !e.UnlockMutex? && !e.CreateTask? && !e.InitMutex?
  }

  lemma PlainStep(reading: Reading, s: State, idle: Tid, e: Event)
    requires Ongoing(s, idle) && Enabled(reading, s, idle, e) && Plain(e)
    ensures var r := Step(reading, s, e); Ongoing(r, idle) && Alike(s, r)
  {
    hide Core, Attended, Yield, Block, SemTake, SemGive, Start, Tick, Commit, NewSem, MayCall, Alike;
    match e
    case YieldCall => YieldFree(s, idle);
    case DelayCall(n) =>
      if n == 0 {
        YieldFree(s, idle);
      } else {
        SleepExists(s, idle);
        BlockFree(s, idle, Sleep, n);
      }
    case TakeCall(i) => TakeFree(s, idle, i);
    case GiveCall(i) => GiveFree(s, idle, i);
    case StartKernel => StartFree(s, idle);
    case TickInterrupt => TickFree(s, idle);
    case SwitchContext => CommitFree(s, idle);
    case InitSem(i, n) => InitSemFree(s, idle, i, n);
    case _ =>
  }

  lemma SleepExists(s: State, idle: Tid)
    requires Core(s, idle)
    ensures Sleep in s.queues
  {
  }

  /** Every step of either reading keeps its invariant. */
  lemma StepInv(reading: Reading, s: State, idle: Tid, e: Event)
    requires Inv(reading, s, idle) && Enabled(reading, s, idle, e)
    ensures Inv(reading, Step(reading, s, e), idle)
  {
    hide Core, Attended, Alike, Unlock, LockCall, LockExecuted, LockResume, MayCall, Create, NewMutex, Top;
    if Plain(e) {
      PlainStep(reading, s, idle, e);
      if reading.Executed? {
        AlikeQuiet(s, Step(reading, s, e));
      }
    } else {
      OtherStep(reading, s, idle, e);
    }
  }

  lemma OtherStep(reading: Reading, s: State, idle: Tid, e: Event)
    requires Inv(reading, s, idle) && Enabled(reading, s, idle, e) && !Plain(e)
    ensures Inv(reading, Step(reading, s, e), idle)
  {
    hide Core, Attended, Alike, Unlock, LockCall, LockExecuted, LockResume, MayCall, Create, Top;
    match e
    case LockMutex(m) => LockStep(reading, s, idle, m);
    case ResumeLock => ResumeStep(s, idle);
    case UnlockMutex(m) => UnlockStep(s, idle, m);
    case CreateTask(t, p) =>
      CreateFree(s, idle, t, p);
      CreatedTasks(s, t, p);
    case InitMutex(m, link) => InitMutexFree(s, idle, m, link);
    case _ =>
  }

  lemma CreatedTasks(s: State, t: Tid, p: Priority)
    ensures Create(s, t, p).tasks == s.tasks[t := NewTask(p)]
  {
    hide Top;
  }

  /** The strict invariant is the stricter one. */
  lemma FullIsInv(reading: Reading, s: State, idle: Tid)
    requires FullInv(reading, s, idle)
    ensures Inv(reading, s, idle)
  {
    hide Placed, Rest, AllExact, WaitGraph, OwnedIs, OwnedList, Top;
    forall t | t in s.tasks
      ensures BlockedOnOk(reading, s, t)
    {
      assert ListIs(reading, s, t, OwnedList(s, t));
    }
  }

  lemma InvParts(reading: Reading, s: State, idle: Tid)
    requires Inv(reading, s, idle)
    ensures Core(s, idle) && Ongoing(s, idle) && Shape(s) && Records(s.tasks) && Placed(s.tasks, s.queues)
    ensures MutexesOk(s.tasks, s.mutexes) && Hinted(s.tasks, s.mutexes) && OneRunning(s)
  {
  }
}
