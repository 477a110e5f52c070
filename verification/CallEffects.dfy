/** System calls order the queues, choose and record as module QueueOrder says. */
module CallEffects {
  import opened Base
  import opened KernelState
  import opened Invariants
  import opened Preservation
  import opened UnlockSteps
  import opened Dispatch
  import opened Machine
  import opened MutexSteps
  import opened Basics
  import opened StepChanges
  import opened QueueOrder

  /** All three. */
  ghost predicate Effects(s: State, r: State, e: Event) {
    Ordered(s, r, e) && Chosen(s, r, e) && Recorded(s, r, e)
  }

  // ----- queues without duplicates, and who is not in them

  lemma QueuesNoDup(s: State, idle: Tid, q: QueueId)
    requires Core(s, idle)
    ensures NoDup(QueueOf(s, q))
  {
    hide Sorted, Records, MutexesOk, Rest, Hinted;
  }

  // ----- turns

  lemma TurnAt(s: State, c: Tid, q: QueueId)
    requires c in s.tasks && RecordOk(s.tasks[c]) && (c in QueueOf(s, q) ==> q == Home(s.tasks[c]))
    ensures QueueOf(Rotate(s, c), q) == if q.ReadyQ? then Turned(QueueOf(s, q), Some(c)) else QueueOf(s, q)
  {
  }

  lemma RotateFrame(s: State, t: Tid)
    ensures var r := Rotate(s, t); r == s.(queues := r.queues)
  {
  }

  lemma YieldEffects(s: State, idle: Tid, e: Event)
    requires Ongoing(s, idle) && MayCall(s, idle) && IsTurn(e)
    ensures Effects(s, Yield(s), e)
  {
    hide Core, TopFrom, Rotate, Recorded;
    var c, r := s.current.value, Yield(s);
    RotateFrame(s, c);
    forall q | q in s.queues
      ensures QueueOf(r, q) == QueueAfter(s, e, q)
    {
      CallerHome(s, idle, q);
      TurnAt(s, c, q);
    }
    TopFromSame(Rotate(s, c), r, 0);
    QuietRecords(s, r, e);
  }

  lemma CallerHome(s: State, idle: Tid, q: QueueId)
    requires Ongoing(s, idle) && MayCall(s, idle)
    ensures var c := s.current.value; RecordOk(s.tasks[c]) && (c in QueueOf(s, q) <==> q == ReadyQ(s.tasks[c].prio) && q in s.queues)
  {
    hide Sorted, MutexesOk, Rest, Hinted;
  }

  /** A step that changes no record. */
  lemma QuietRecords(s: State, r: State, e: Event)
    requires r.tasks == s.tasks && r.tick == s.tick && r.timeouts == s.timeouts
    requires Mover(s, e).None? && !e.SwitchContext? && !e.TickInterrupt? && !e.CreateTask?
    ensures Recorded(s, r, e)
  {
  }

  // ----- blocking calls

  lemma RescheduleIs(x: State)
    ensures var r := Reschedule(x); r == x.(next := Top(r), pended := x.pended || Top(r) != x.current) && Top(r) == Top(x)
  {
    hide TopFrom;
    TopFromSame(x, Reschedule(x), 0);
  }

  lemma EnterQueues(s: State, idle: Tid, c: Tid, q: QueueId, x: QueueId)
    requires Core(s, idle) && c in s.tasks && !s.tasks[c].status.Blocked? && q in s.queues && !q.ReadyQ?
    ensures QueueOf(EnterQueue(s, c, q, false), x) == Minus(QueueOf(s, x), {c}) + (if x == q then [c] else [])
  {
    hide Core, Minus, Without;
    QueuesNoDup(s, idle, x);
    CoreHome(s, idle, c, x);
    MinusOne(QueueOf(s, x), c);
    if x != ReadyQ(s.tasks[c].prio) {
      MinusAbsent(QueueOf(s, x), {c});
    }
  }

  lemma CoreHome(s: State, idle: Tid, c: Tid, q: QueueId)
    requires Core(s, idle) && c in s.tasks
    ensures RecordOk(s.tasks[c]) && (c in QueueOf(s, q) ==> q == Home(s.tasks[c]))
  {
    hide Sorted, MutexesOk, Rest, Hinted;
  }

  lemma ArmPlace(tasks: map<Tid, Task>, l: seq<Tid>, c: Tid, w: Word)
    requires c in tasks && c !in l
    ensures var k := TimeoutPos(tasks[c := tasks[c].(wake := w)], l, w);
      && (forall i :: 0 <= i < k ==> !TickReached(TaskOf(tasks, l[i]).wake, w))
      && (k < |l| ==> TickReached(TaskOf(tasks, l[k]).wake, w))
  {
    hide TickReached, TimeoutPos;
    var after := tasks[c := tasks[c].(wake := w)];
    assert forall i :: 0 <= i < |l| ==> TaskOf(after, l[i]) == TaskOf(tasks, l[i]);
  }

  lemma ArmTimeouts(s: State, c: Tid, n: Word)
    requires c in s.tasks && c !in s.timeouts
    ensures var r := ArmTimeout(s, c, n);
      && DelayTimeouts(s, r, c, n) && r.queues == s.queues
      && r.tasks == s.tasks[c := s.tasks[c].(wake := (s.tick + n) % 0x1_0000_0000)]
  {
    hide TickReached, TimeoutPos;
    var w: Word := (s.tick + n) % 0x1_0000_0000;
    var k := TimeoutPos(s.tasks[c := s.tasks[c].(wake := w)], s.timeouts, w);
    ArmPlace(s.tasks, s.timeouts, c, w);
    assert DelayAt(s, ArmTimeout(s, c, n), c, n, k);
  }

  /** What parking does, in the terms of the effects. */
  lemma ParkEffects(s: State, idle: Tid, c: Tid, q: QueueId, ticks: Word)
    requires Core(s, idle) && c in s.tasks && !s.tasks[c].status.Blocked? && c != idle
    requires q in s.queues && (q.Sleep? || (q.SemQ? && q.sem in s.sems && s.sems[q.sem] == 0 && ticks == WAIT_FOREVER))
    ensures var x := Park(s, c, q, ticks, false);
      && (forall y :: QueueOf(x, y) == Minus(QueueOf(s, y), {c}) + (if y == q then [c] else []))
      && (if ticks == WAIT_FOREVER then x.timeouts == s.timeouts else DelayTimeouts(s, x, c, ticks))
      && x.tasks == s.tasks[c := Parked(s.tasks[c], q).(wake := if ticks == WAIT_FOREVER then WAIT_FOREVER else (s.tick + ticks) % 0x1_0000_0000)]
      && x == s.(tasks := x.tasks, queues := x.queues, timeouts := x.timeouts)
  {
    hide Core, EnterQueue, ArmTimeout, Minus, QueueOf, DelayTimeouts, Alike;
    var d := EnterQueue(s, c, q, false);
    EnterCore(s, idle, c, q);
    forall y
      ensures QueueOf(d, y) == Minus(QueueOf(s, y), {c}) + (if y == q then [c] else [])
    {
      EnterQueues(s, idle, c, q, y);
    }
    if ticks != WAIT_FOREVER {
      AwakeUnqueued(s, idle, c);
      ArmTimeouts(d, c, ticks);
      ParkCore(s, idle, c, q, ticks);
      SameQueues(d, ArmTimeout(d, c, ticks));
      DelayFrom(s, d, ArmTimeout(d, c, ticks), c, ticks);
    }
  }

  lemma SameQueues(s: State, r: State)
    requires r.queues == s.queues
    ensures forall y :: QueueOf(r, y) == QueueOf(s, y)
  {
  }

  lemma DelayFrom(s: State, d: State, r: State, c: Tid, n: Word)
    requires DelayTimeouts(d, r, c, n) && d.timeouts == s.timeouts && d.tick == s.tick && c !in s.timeouts && c in s.tasks && c in d.tasks
    requires d.tasks == s.tasks[c := d.tasks[c]]
    ensures DelayTimeouts(s, r, c, n)
  {
    hide TickReached, DelayAt;
    var k: nat :| k <= |d.timeouts| && DelayAt(d, r, c, n, k);
    DelayAtFrom(s, d, r, c, n, k);
  }

  lemma DelayAtFrom(s: State, d: State, r: State, c: Tid, n: Word, k: nat)
    requires k <= |d.timeouts| && DelayAt(d, r, c, n, k) && d.timeouts == s.timeouts && d.tick == s.tick && c !in s.timeouts
    requires c in s.tasks && c in d.tasks && d.tasks == s.tasks[c := d.tasks[c]]
    ensures DelayAt(s, r, c, n, k)
  {
    hide TickReached;
    assert forall i :: 0 <= i < |s.timeouts| ==> s.timeouts[i] != c && TaskOf(d.tasks, s.timeouts[i]) == TaskOf(s.tasks, s.timeouts[i]);
  }

  lemma BlockEffects(s: State, idle: Tid, e: Event, q: QueueId, ticks: Word)
    requires Ongoing(s, idle) && MayCall(s, idle)
    requires q in s.queues && (q.Sleep? || (q.SemQ? && q.sem in s.sems && s.sems[q.sem] == 0 && ticks == WAIT_FOREVER))
    requires (e.DelayCall? && e.ticks == ticks != 0 && q == Sleep) || (e.TakeCall? && q == SemQ(e.sem))
    ensures Effects(s, Block(s, q, ticks, false), e)
  {
    hide Core, Attended, Park, Reschedule, Minus, QueueOf, DelayTimeouts, Top;
    var c := s.current.value;
    var x := Park(s, c, q, ticks, false);
    AwakeCaller(s, idle);
    ParkEffects(s, idle, c, q, ticks);
    RescheduleIs(x);
    SameQueues(x, Reschedule(x));
    BlockOrdered(s, x, Reschedule(x), e, c, q, ticks);
  }

  lemma BlockOrdered(s: State, x: State, r: State, e: Event, c: Tid, q: QueueId, ticks: Word)
    requires s.current == Some(c) && c in s.tasks && (q.Sleep? || q.SemQ?)
    requires (e.DelayCall? && e.ticks == ticks != 0 && q == Sleep) || (e.TakeCall? && q == SemQ(e.sem) && ticks == WAIT_FOREVER && CountOf(s, e.sem) <= 0)
    requires forall y :: QueueOf(x, y) == Minus(QueueOf(s, y), {c}) + (if y == q then [c] else [])
    requires if ticks == WAIT_FOREVER then x.timeouts == s.timeouts else DelayTimeouts(s, x, c, ticks)
    requires x.tasks == s.tasks[c := Parked(s.tasks[c], q).(wake := if ticks == WAIT_FOREVER then WAIT_FOREVER else (s.tick + ticks) % 0x1_0000_0000)]
    requires x == s.(tasks := x.tasks, queues := x.queues, timeouts := x.timeouts)
    requires r == x.(next := Top(r), pended := x.pended || Top(r) != x.current)
    ensures Effects(s, r, e)
  {
    hide Minus, Top, DelayTimeouts, Recorded;
    SameQueues(x, r);
    if ticks != WAIT_FOREVER {
      DelaySame(s, x, r, c, ticks);
    }
    BlockRecorded(s, r, e, c, q, ticks);
  }

  lemma DelaySame(s: State, x: State, r: State, c: Tid, n: Word)
    requires DelayTimeouts(s, x, c, n) && r.timeouts == x.timeouts
    ensures DelayTimeouts(s, r, c, n)
  {
    hide TickReached;
    var k: nat :| k <= |s.timeouts| && DelayAt(s, x, c, n, k);
    assert DelayAt(s, r, c, n, k);
  }

  lemma BlockRecorded(s: State, r: State, e: Event, c: Tid, q: QueueId, ticks: Word)
    requires s.current == Some(c) && c in s.tasks && (q.Sleep? || q.SemQ?) && r.tick == s.tick
    requires (e.DelayCall? && e.ticks == ticks != 0 && q == Sleep) || (e.TakeCall? && q == SemQ(e.sem) && ticks == WAIT_FOREVER && CountOf(s, e.sem) <= 0)
    requires r.tasks == s.tasks[c := Parked(s.tasks[c], q).(wake := if ticks == WAIT_FOREVER then WAIT_FOREVER else (s.tick + ticks) % 0x1_0000_0000)]
    ensures Recorded(s, r, e)
  {
  }

  // ----- handing over a permit

  lemma ReleasedQueues(s: State, idle: Tid, t: Tid, code: int, x: QueueId)
    requires Core(s, idle) && t in s.tasks && s.tasks[t].waitQ.Some?
    ensures QueueOf(Released(s, t, code), x) == Minus(QueueOf(s, x), {t}) + (if x == ReadyQ(s.tasks[t].prio) then [t] else [])
  {
    hide Core, Minus, Without;
    QueuesNoDup(s, idle, x);
    CoreHome(s, idle, t, x);
    MinusOne(QueueOf(s, x), t);
    if x != s.tasks[t].waitQ.value {
      MinusAbsent(QueueOf(s, x), {t});
    }
  }

  lemma GiveEffects(s: State, idle: Tid, i: Sid)
    requires Ongoing(s, idle) && MayCall(s, idle) && i in s.sems
    ensures Effects(s, SemGive(s, i), GiveCall(i))
  {
    hide Core, Attended, WakeOne, Reschedule, Minus, Top, Released, Alike, TickReached;
    SemFacts(s, idle, i);
    if QueueOf(s, SemQ(i)) == [] {
      CountEffects(s, SemGive(s, i), GiveCall(i));
    } else {
      var t := QueueOf(s, SemQ(i))[0];
      var x := Released(s, t, 0);
      WakeIsRelease(s, SemQ(i));
      ReleaseCore(s, idle, t, 0);
      RescheduleIs(x);
      forall y | y in s.queues
        ensures QueueOf(Reschedule(x), y) == QueueAfter(s, GiveCall(i), y)
      {
        ReleasedQueues(s, idle, t, 0, y);
      }
      GiveRecorded(s, Reschedule(x), i);
    }
  }

  lemma GiveRecorded(s: State, r: State, i: Sid)
    requires s.current.Some? && QueueOf(s, SemQ(i)) != [] && QueueOf(s, SemQ(i))[0] in s.tasks
    requires var t := QueueOf(s, SemQ(i))[0]; r.tasks == s.tasks[t := Woken(s.tasks[t], 0)] && r.tick == s.tick && r.timeouts == s.timeouts
    ensures Recorded(s, r, GiveCall(i))
  {
  }

  /** A step that moves no task. */
  lemma CountEffects(s: State, r: State, e: Event)
    requires r.queues == s.queues && r.tasks == s.tasks && r.timeouts == s.timeouts && r.tick == s.tick
    requires r.next == s.next && r.current == s.current && r.pended == s.pended
    requires Mover(s, e).None? && Leaves(s, e) && !ByOwner(s, e) && !e.InitMutex? && !e.InitSem?
    ensures Effects(s, r, e)
  {
    QuietQueues(s, r, e);
    QuietRecords(s, r, e);
  }

  lemma QuietQueues(s: State, r: State, e: Event)
    requires forall q :: q in s.queues ==> q in r.queues && r.queues[q] == s.queues[q]
    requires Mover(s, e).None? && !IsTurn(e) && !e.CreateTask?
    ensures forall q :: q in s.queues ==> QueueOf(r, q) == QueueAfter(s, e, q)
  {
    forall q | q in s.queues
      ensures QueueOf(r, q) == QueueAfter(s, e, q)
    {
      MinusAbsent(QueueOf(s, q), {});
    }
  }

  lemma TakeEffects(s: State, idle: Tid, i: Sid)
    requires Ongoing(s, idle) && MayCall(s, idle) && i in s.sems
    ensures Effects(s, SemTake(s, i), TakeCall(i))
  {
    hide Core, Attended, Effects, Block;
    SemFacts(s, idle, i);
    if s.sems[i] > 0 {
      CountEffects(s, SemTake(s, i), TakeCall(i));
    } else {
      BlockEffects(s, idle, TakeCall(i), SemQ(i), WAIT_FOREVER);
    }
  }

  // ----- unlocking

  lemma SetQueues(s: State, idle: Tid, c: Tid, p: Priority, x: QueueId)
    requires Core(s, idle) && c in s.tasks && !s.tasks[c].status.Blocked?
    ensures QueueOf(SetPriority(s, c, p), x) == Minus(QueueOf(s, x), {c}) + (if x == ReadyQ(p) then [c] else [])
  {
    hide Core, Minus, Without;
    QueuesNoDup(s, idle, x);
    CoreHome(s, idle, c, x);
    MinusOne(QueueOf(s, x), c);
    if x != ReadyQ(s.tasks[c].prio) {
      MinusAbsent(QueueOf(s, x), {c});
    }
  }

  /** The state before the hand-over. */
  function Fallen(s: State, c: Tid, m: Mid): (b: State) {
    var a := RemoveFromOwned(s, c, m);
    SetPriority(a, c, Recompute(a, c))
  }

  lemma FallenIs(s: State, idle: Tid, c: Tid, m: Mid)
    requires Core(s, idle) && c in s.tasks && !s.tasks[c].status.Blocked? && m in s.mutexes
    ensures var b := Fallen(s, c, m); var p := TaskOf(b.tasks, c).prio;
      && Core(b, idle) && c in b.tasks && m in b.mutexes
      && (forall x :: QueueOf(b, x) == Minus(QueueOf(s, x), {c}) + (if x == ReadyQ(p) then [c] else []))
      && b == s.(tasks := b.tasks, queues := b.queues, mutexes := b.mutexes)
      && b.tasks == s.tasks[c := s.tasks[c].(owned := b.tasks[c].owned, prio := p)]
      && QueueOf(b, MutexQ(m)) == QueueOf(s, MutexQ(m))
  {
    hide Core, RemoveFromOwned, Recompute, SetPriority, Minus, QueueOf;
    var a := RemoveFromOwned(s, c, m);
    var p := Recompute(a, c);
    UnlistedCore(s, idle, c, m);
    SetCore(a, idle, c, p, m);
    SameQueues(s, a);
    forall x
      ensures QueueOf(Fallen(s, c, m), x) == Minus(QueueOf(s, x), {c}) + (if x == ReadyQ(p) then [c] else [])
    {
      SetQueues(a, idle, c, p, x);
    }
  }

  lemma HandQueues(s: State, b: State, idle: Tid, c: Tid, h: Tid, p: Priority, x: QueueId)
    requires Core(b, idle) && h in b.tasks && b.tasks[h].waitQ.Some? && h != c
    requires QueueOf(b, x) == Minus(QueueOf(s, x), {c}) + (if x == ReadyQ(p) then [c] else [])
    ensures QueueOf(Released(b, h, 0), x)
      == Minus(QueueOf(s, x), {c, h}) + (if x == ReadyQ(p) then [c] else []) + (if x == ReadyQ(b.tasks[h].prio) then [h] else [])
  {
    hide Core, Minus, QueueOf, Released;
    ReleasedQueues(b, idle, h, 0, x);
    var l := Minus(QueueOf(s, x), {c});
    MinusTwice(QueueOf(s, x), {c}, {h});
    assert {c} + {h} == {c, h};
    if x == ReadyQ(p) {
      MinusPlus(l, [c], {h});
      MinusAbsent([c], {h});
    } else {
      assert l + [] == l;
    }
  }

  lemma HeirFacts(s: State, b: State, idle: Tid, c: Tid, m: Mid)
    requires Core(b, idle) && m in b.mutexes && c in b.tasks && !b.tasks[c].status.Blocked?
    requires QueueOf(b, MutexQ(m)) == QueueOf(s, MutexQ(m)) && QueueOf(s, MutexQ(m)) != []
    requires b.tasks == s.tasks[c := b.tasks[c]] && c in s.tasks
    ensures var h := QueueOf(s, MutexQ(m))[0];
      && h != c && h in s.tasks && b.tasks[h] == s.tasks[h] && b.tasks[h].waitQ == Some(MutexQ(m)) && h !in b.timeouts
  {
    hide Linked, Sorted, MutexesOk, Hinted;
    HeadIsMostUrgent(b, m);
    AwakeUnqueued(b, idle, QueueOf(s, MutexQ(m))[0]);
  }

  lemma UnlockOrder(s: State, idle: Tid, m: Mid)
    requires Ongoing(s, idle) && MayCall(s, idle) && m in s.mutexes && s.mutexes[m].owner == s.current
    ensures var r, c := Unlock(s, m), s.current.value;
      && (forall q :: QueueOf(r, q) == QueueAfterUnlock(s, r, c, m, q))
      && UnlockTasks(s, r, c, m) && Chosen(s, r, UnlockMutex(m))
      && r.timeouts == s.timeouts && r.tick == s.tick
  {
    hide Core, Attended, Fallen, WakeOne, Reschedule, Minus, QueueOf, Released, Top;
    var c := s.current.value;
    var b, w := Fallen(s, c, m), QueueOf(s, MutexQ(m));
    AwakeCaller(s, idle);
    FallenIs(s, idle, c, m);
    UnlockIsFallen(s, c, m);
    if w == [] {
      NobodyWoken(b, m);
      var r := SetMutex(b, m, MutexOf(b, m).(owner := None));
      SameQueues(b, r);
      assert {c} + {} == {c};
    } else {
      var h := w[0];
      HeirFacts(s, b, idle, c, m);
      WakeFirst(b, m, h);
      var x := Released(b, h, 0);
      var e := SetMutex(x, m, MutexOf(x, m).(owner := Some(h)));
      ReleasedIs(b, h);
      RescheduleIs(e);
      SameQueues(x, Reschedule(e));
      assert {c} + {h} == {c, h};
      forall q
        ensures QueueOf(Reschedule(e), q) == QueueAfterUnlock(s, Reschedule(e), c, m, q)
      {
        HandQueues(s, b, idle, c, h, b.tasks[c].prio, q);
      }
    }
  }

  /** The records after an unlock of `m` by `c`. */
  ghost predicate UnlockTasks(s: State, r: State, c: Tid, m: Mid)
    requires c in s.tasks
  {
    var w := QueueOf(s, MutexQ(m));
    && c in r.tasks
    && var tasks := s.tasks[c := s.tasks[c].(owned := r.tasks[c].owned, prio := r.tasks[c].prio)];
    if w == [] then r.tasks == tasks
    else w[0] in s.tasks && w[0] != c && r.tasks == tasks[w[0] := Woken(s.tasks[w[0]], 0)]
  }

  lemma UnlockIsFallen(s: State, c: Tid, m: Mid)
    requires s.current == Some(c) && m in s.mutexes && s.mutexes[m].owner == Some(c)
    ensures var b := Fallen(s, c, m); var d, w := WakeOne(b, MutexQ(m)), QueueOf(b, MutexQ(m));
      Unlock(s, m) == if w == [] then SetMutex(d, m, MutexOf(d, m).(owner := None))
                      else Reschedule(SetMutex(d, m, MutexOf(d, m).(owner := Some(w[0]))))
  {
    hide RemoveFromOwned, SetPriority, Recompute, WakeOne, Reschedule, QueueOf;
  }

  lemma NobodyWoken(b: State, m: Mid)
    requires QueueOf(b, MutexQ(m)) == []
    ensures WakeOne(b, MutexQ(m)) == b
  {
  }

  lemma WakeFirst(b: State, m: Mid, h: Tid)
    requires QueueOf(b, MutexQ(m)) != [] && QueueOf(b, MutexQ(m))[0] == h && h in b.tasks && h !in b.timeouts
    requires b.tasks[h].waitQ == Some(MutexQ(m))
    ensures WakeOne(b, MutexQ(m)) == Released(b, h, 0)
  {
    WakeIsRelease(b, MutexQ(m));
  }

  lemma ReleasedIs(b: State, h: Tid)
    requires h in b.tasks && b.tasks[h].waitQ.Some?
    ensures var x := Released(b, h, 0);
      x == b.(tasks := x.tasks, queues := x.queues) && x.tasks == b.tasks[h := Woken(b.tasks[h], 0)]
  {
  }

  lemma UnlockRecorded(s: State, r: State, m: Mid)
    requires s.current.Some? && s.current.value in s.tasks && UnlockTasks(s, r, s.current.value, m)
    requires MutexOf(s, m).owner == s.current && r.timeouts == s.timeouts && r.tick == s.tick
    ensures Recorded(s, r, UnlockMutex(m))
  {
  }

  lemma UnlockEffects(s: State, idle: Tid, m: Mid)
    requires Ongoing(s, idle) && MayCall(s, idle) && m in s.mutexes
    ensures Effects(s, Unlock(s, m), UnlockMutex(m))
  {
    hide Core, Attended, Unlock, QueueAfterUnlock, Chosen, Recorded, UnlockTasks;
    if s.mutexes[m].owner == s.current {
      UnlockOrder(s, idle, m);
      UnlockRecorded(s, Unlock(s, m), m);
    } else {
      UnlockRefused(s, m);
      CountEffects(s, s, UnlockMutex(m));
    }
  }
}
