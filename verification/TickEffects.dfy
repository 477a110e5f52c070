/** The tick wakes whoever is due and ends the time slice of the current task, sleepers due or not. */
module TickEffects {
  import opened Base
  import opened KernelState
  import opened Invariants
  import opened Preservation
  import opened SmallSteps
  import opened Dispatch
  import opened Machine
  import opened Basics
  import opened QueueOrder
  import opened CallEffects

  // ----- expiry

  /** The sleepers in `woken` have left the timeout queue `before` in order, and gone last at their levels. */
  ghost predicate Expired(s: State, r: State, k: nat) {
    && k <= |s.timeouts| && r.timeouts == s.timeouts[k..]
    && (forall i :: 0 <= i < k ==> TickReached(s.tick, TaskOf(s.tasks, s.timeouts[i]).wake))
    && (k < |s.timeouts| ==> !TickReached(s.tick, TaskOf(s.tasks, s.timeouts[k]).wake))
    && (forall p: Priority :: QueueOf(r, ReadyQ(p)) == QueueOf(s, ReadyQ(p)) + AtLevel(s.tasks, s.timeouts[..k], p))
    && (forall q :: q in s.queues && !q.ReadyQ? ==> QueueOf(r, q) == Minus(QueueOf(s, q), Elements(s.timeouts[..k])))
    && (forall t :: t in s.tasks ==> t in r.tasks && r.tasks[t] == if t in s.timeouts[..k] then Woken(s.tasks[t], -1) else s.tasks[t])
    && r == s.(tasks := r.tasks, queues := r.queues, timeouts := r.timeouts) && r.tasks.Keys == s.tasks.Keys
  }

  lemma NobodyExpired(s: State)
    requires s.timeouts == [] || !TickReached(s.tick, TaskOf(s.tasks, s.timeouts[0]).wake)
    ensures Expired(s, s, 0)
  {
    hide TickReached;
    assert s.timeouts[..0] == [] && s.timeouts[0..] == s.timeouts && Elements([]) == {};
    forall q | q in s.queues
      ensures Minus(QueueOf(s, q), {}) == QueueOf(s, q)
    {
      MinusAbsent(QueueOf(s, q), {});
    }
  }

  lemma HeadQueues(s: State, idle: Tid, x: QueueId)
    requires Core(s, idle) && s.timeouts != []
    ensures var t := s.timeouts[0];
      t in s.tasks && QueueOf(ExpireHead(s), x) == Minus(QueueOf(s, x), {t}) + (if x == ReadyQ(s.tasks[t].prio) then [t] else [])
  {
    hide Core, Minus, Released;
    var t := s.timeouts[0];
    var a := TimeoutRemove(s, t);
    ExpireHeadCore(s, idle);
    DropCore(s, idle, t);
    ReleasedQueues(a, idle, t, -1, x);
    HeadReleased(s, t);
  }

  lemma HeadReleased(s: State, t: Tid)
    requires s.timeouts != [] && s.timeouts[0] == t && t in s.tasks && s.tasks[t].waitQ.Some?
    ensures ExpireHead(s) == Released(TimeoutRemove(s, t), t, -1)
  {
  }

  lemma {:induction false} ExpireIs(s: State, idle: Tid) returns (k: nat)
    requires Core(s, idle)
    ensures Expired(s, Expire(s), k)
    decreases |s.timeouts|
  {
    hide Core, ExpireHead, Expired, TickReached;
    if s.timeouts != [] && TickReached(s.tick, TaskOf(s.tasks, s.timeouts[0]).wake) {
      var a := ExpireHead(s);
      ExpireHeadCore(s, idle);
      ExpireHeadFrame(s);
      var j := ExpireIs(a, idle);
      k := j + 1;
      ExpireMore(s, a, Expire(a), idle, j);
    } else {
      k := 0;
      NobodyExpired(s);
    }
  }

  lemma ExpireMore(s: State, a: State, r: State, idle: Tid, j: nat)
    requires Core(s, idle) && s.timeouts != [] && TickReached(s.tick, TaskOf(s.tasks, s.timeouts[0]).wake)
    requires a == ExpireHead(s) && Expired(a, r, j)
    ensures Expired(s, r, j + 1)
  {
    hide Core, ExpireHead, TickReached, Minus, AtLevel, Woken, QueueOf, TaskOf, Elements, Alike;
    ExpireHeadCore(s, idle);
    ExpireHeadFrame(s);
    TimeoutsDiffer(s, idle);
    assert r.timeouts == s.timeouts[j + 1..];
    ExpireMoreDue(s, a, idle, j);
    ExpireMoreTasks(s, a, r, j);
    ExpireMoreQueues(s, a, r, idle, j);
  }

  lemma ExpireMoreDue(s: State, a: State, idle: Tid, j: nat)
    requires Core(s, idle) && s.timeouts != [] && a.timeouts == s.timeouts[1..] && j <= |a.timeouts| && a.tick == s.tick
    requires s.timeouts[0] in s.tasks && a.tasks == s.tasks[s.timeouts[0] := Woken(s.tasks[s.timeouts[0]], -1)]
    requires TickReached(s.tick, TaskOf(s.tasks, s.timeouts[0]).wake)
    requires forall i :: 0 <= i < j ==> TickReached(a.tick, TaskOf(a.tasks, a.timeouts[i]).wake)
    requires j < |a.timeouts| ==> !TickReached(a.tick, TaskOf(a.tasks, a.timeouts[j]).wake)
    ensures forall i :: 0 <= i < j + 1 ==> TickReached(s.tick, TaskOf(s.tasks, s.timeouts[i]).wake)
    ensures j + 1 < |s.timeouts| ==> !TickReached(s.tick, TaskOf(s.tasks, s.timeouts[j + 1]).wake)
  {
    hide Core, TickReached, Woken;
    TimeoutsDiffer(s, idle);
    forall i | 0 < i < |s.timeouts|
      ensures a.timeouts[i - 1] == s.timeouts[i] && TaskOf(a.tasks, a.timeouts[i - 1]) == TaskOf(s.tasks, s.timeouts[i])
    {
    }
  }

  lemma ExpireMoreTasks(s: State, a: State, r: State, j: nat)
    requires s.timeouts != [] && a.timeouts == s.timeouts[1..] && j <= |a.timeouts| && s.timeouts[0] !in a.timeouts
    requires s.timeouts[0] in s.tasks && a.tasks == s.tasks[s.timeouts[0] := Woken(s.tasks[s.timeouts[0]], -1)]
    requires forall t :: t in a.tasks ==> t in r.tasks && r.tasks[t] == if t in a.timeouts[..j] then Woken(a.tasks[t], -1) else a.tasks[t]
    ensures forall t :: t in s.tasks ==> t in r.tasks && r.tasks[t] == if t in s.timeouts[..j + 1] then Woken(s.tasks[t], -1) else s.tasks[t]
  {
    hide Woken;
    assert s.timeouts[..j + 1] == [s.timeouts[0]] + a.timeouts[..j];
  }

  lemma ExpireMoreQueues(s: State, a: State, r: State, idle: Tid, j: nat)
    requires Core(s, idle) && s.timeouts != [] && a == ExpireHead(s) && a.timeouts == s.timeouts[1..] && j <= |a.timeouts|
    requires s.timeouts[0] in s.tasks && a.tasks == s.tasks[s.timeouts[0] := Woken(s.tasks[s.timeouts[0]], -1)]
    requires forall p: Priority :: QueueOf(r, ReadyQ(p)) == QueueOf(a, ReadyQ(p)) + AtLevel(a.tasks, a.timeouts[..j], p)
    requires forall q :: q in a.queues && !q.ReadyQ? ==> QueueOf(r, q) == Minus(QueueOf(a, q), Elements(a.timeouts[..j]))
    ensures forall p: Priority :: QueueOf(r, ReadyQ(p)) == QueueOf(s, ReadyQ(p)) + AtLevel(s.tasks, s.timeouts[..j + 1], p)
    ensures forall q :: q in s.queues && !q.ReadyQ? ==> QueueOf(r, q) == Minus(QueueOf(s, q), Elements(s.timeouts[..j + 1]))
  {
    hide Core, ExpireHead, Minus, AtLevel, Woken, QueueOf;
    TimeoutsDiffer(s, idle);
    var rest := a.timeouts[..j];
    assert s.timeouts[..j + 1] == [s.timeouts[0]] + rest;
    forall p: Priority
      ensures QueueOf(r, ReadyQ(p)) == QueueOf(s, ReadyQ(p)) + AtLevel(s.tasks, s.timeouts[..j + 1], p)
    {
      LevelMore(s, a, idle, rest, p);
    }
    forall q | q in s.queues && !q.ReadyQ?
      ensures QueueOf(r, q) == Minus(QueueOf(s, q), Elements(s.timeouts[..j + 1]))
    {
      WaitMore(s, a, idle, rest, q);
    }
  }

  lemma TimeoutsDiffer(s: State, idle: Tid)
    requires Core(s, idle) && s.timeouts != []
    ensures forall i :: 0 < i < |s.timeouts| ==> s.timeouts[i] != s.timeouts[0]
    ensures s.timeouts[0] !in s.timeouts[1..]
  {
  }

  lemma LevelMore(s: State, a: State, idle: Tid, rest: seq<Tid>, p: Priority)
    requires Core(s, idle) && s.timeouts != [] && a == ExpireHead(s)
    requires s.timeouts[0] in s.tasks && a.tasks == s.tasks[s.timeouts[0] := a.tasks[s.timeouts[0]]] && s.timeouts[0] !in rest
    ensures QueueOf(a, ReadyQ(p)) + AtLevel(a.tasks, rest, p) == QueueOf(s, ReadyQ(p)) + AtLevel(s.tasks, [s.timeouts[0]] + rest, p)
  {
    hide Core, ExpireHead, Minus, AtLevel, QueueOf;
    var t := s.timeouts[0];
    HeadQueues(s, idle, ReadyQ(p));
    SleeperHome(s, idle, ReadyQ(p));
    MinusAbsent(QueueOf(s, ReadyQ(p)), {t});
    AtLevelSame(a.tasks, s.tasks, rest, p);
    LevelHead(s.tasks, t, rest, p);
  }

  lemma LevelHead(tasks: map<Tid, Task>, t: Tid, rest: seq<Tid>, p: Priority)
    ensures AtLevel(tasks, [t] + rest, p) == (if TaskOf(tasks, t).prio == p then [t] else []) + AtLevel(tasks, rest, p)
  {
    assert ([t] + rest)[1..] == rest;
  }

  lemma SleeperHome(s: State, idle: Tid, q: QueueId)
    requires Core(s, idle) && s.timeouts != []
    ensures s.timeouts[0] in s.tasks && (s.timeouts[0] in QueueOf(s, q) ==> q == Sleep)
  {
    hide Sorted, MutexesOk, Hinted;
  }

  lemma WaitMore(s: State, a: State, idle: Tid, rest: seq<Tid>, q: QueueId)
    requires Core(s, idle) && s.timeouts != [] && a == ExpireHead(s) && q in s.queues && !q.ReadyQ?
    ensures Minus(QueueOf(a, q), Elements(rest)) == Minus(QueueOf(s, q), Elements([s.timeouts[0]] + rest)) && q in a.queues
  {
    hide Core, Minus;
    var t := s.timeouts[0];
    ExpireHeadFrame(s);
    HeadQueues(s, idle, q);
    MinusTwice(QueueOf(s, q), {t}, Elements(rest));
    assert Elements([t] + rest) == {t} + Elements(rest);
    assert Minus(QueueOf(s, q), {t}) + [] == Minus(QueueOf(s, q), {t});
  }

  // ----- the tick

  /** The state after expiry and its reschedule, and how many have woken. */
  lemma TickParts(s: State, idle: Tid) returns (b: State, k: nat)
    requires Ongoing(s, idle) && s.current.Some?
    ensures Core(b, idle) && b.current == s.current && Tick(s) == Reschedule(Rotate(b, s.current.value))
    ensures b.pended == (s.pended || Top(b) != s.current) && b.tick == (s.tick + 1) % 0x1_0000_0000
    ensures Expired(s.(tick := b.tick), b.(next := s.next, pended := s.pended), k)
  {
    hide Core, Expire, Rotate, TopFrom, Expired;
    var a := s.(tick := (s.tick + 1) % 0x1_0000_0000);
    ScheduleCore(s, a, idle);
    ExpireCore(a, idle);
    k := ExpireIs(a, idle);
    b := Reschedule(Expire(a));
    RescheduleIs(Expire(a));
    ScheduleCore(Expire(a), b, idle);
    assert b.(next := s.next, pended := s.pended) == Expire(a);
  }

  lemma TopFacts(s: State, idle: Tid)
    requires Core(s, idle)
    ensures Top(s).Some? && Top(s).value in s.tasks && MostUrgent(s, s.tasks[Top(s).value].prio)
    ensures var l := QueueOf(s, ReadyQ(s.tasks[Top(s).value].prio)); l != [] && l[0] == Top(s).value
  {
    hide Sorted, MutexesOk, Hinted;
    TopIsMostUrgent(s, idle);
  }

  /** The turn of the current task does not bring back a task chosen before. */
  lemma TurnChoice(b: State, idle: Tid, c: Tid)
    requires Core(b, idle) && c in b.tasks && Top(b) != Some(c)
    ensures Top(Rotate(b, c)) != Some(c)
  {
    hide Core, Top, Rotate, QueueOf, MostUrgent;
    RotateFrame(b, c);
    RotateCore(b, idle, c);
    TopFacts(b, idle);
    TopFacts(Rotate(b, c), idle);
    if Top(Rotate(b, c)) == Some(c) {
      TurnLevels(b, c, b.tasks[Top(b).value].prio, b.tasks[c].prio);
    }
  }

  /** A task that heads the most urgent level after its turn did so before. */
  lemma TurnLevels(b: State, c: Tid, p: Priority, q: Priority)
    requires c in b.tasks && MostUrgent(b, p) && QueueOf(b, ReadyQ(p)) != []
    requires var l := QueueOf(Rotate(b, c), ReadyQ(q)); MostUrgent(Rotate(b, c), q) && l != [] && l[0] == c && b.tasks[c].prio == q
    ensures QueueOf(b, ReadyQ(p))[0] == c
  {
    hide Rotate;
    if QueueOf(b, ReadyQ(p))[0] != c {
      LevelsKept(b, c, p);
      LevelsKeptEmpty(b, c, q);
    }
  }

  lemma LevelsKeptEmpty(b: State, c: Tid, q: Priority)
    requires c in b.tasks && QueueOf(b, ReadyQ(q)) == []
    ensures QueueOf(Rotate(b, c), ReadyQ(q)) == []
  {
  }

  /** Every level but that of `c` is as it was, and so is that one unless `c` comes first. */
  lemma LevelsKept(b: State, c: Tid, p: Priority)
    requires c in b.tasks && QueueOf(b, ReadyQ(p)) != [] && QueueOf(b, ReadyQ(p))[0] != c
    ensures QueueOf(Rotate(b, c), ReadyQ(p)) == QueueOf(b, ReadyQ(p))
  {
  }

  lemma TickQueued(s: State, b: State, idle: Tid, c: Tid, k: nat)
    requires Core(b, idle) && c in b.tasks && s.current == Some(c) && b.tick == (s.tick + 1) % 0x1_0000_0000
    requires Expired(s.(tick := b.tick), b.(next := s.next, pended := s.pended), k)
    ensures TickQueues(s, Reschedule(Rotate(b, c)))
  {
    hide Core, Rotate, Minus, AtLevel, TickReached, TopFrom, Turned;
    var r := Reschedule(Rotate(b, c));
    RotateFrame(b, c);
    SameQueues(Rotate(b, c), r);
    SameQueues(s, s.(tick := b.tick));
    SameQueues(b, b.(next := s.next, pended := s.pended));
    assert WokenCount(s, r) == k;
    forall q
      ensures QueueOf(r, q) == if q.ReadyQ? then Turned(QueueOf(b, q), Some(c)) else QueueOf(b, q)
    {
      CoreHome(b, idle, c, q);
      TurnAt(b, c, q);
    }
  }

  lemma TickRecorded(s: State, r: State, k: nat)
    requires NoDup(s.timeouts) && k <= |s.timeouts| && r.timeouts == s.timeouts[k..] && s.current.Some?
    requires r.tasks.Keys == s.tasks.Keys && r.tick == (s.tick + 1) % 0x1_0000_0000
    requires forall t :: t in s.tasks ==> r.tasks[t] == if t in s.timeouts[..k] then Woken(s.tasks[t], -1) else s.tasks[t]
    ensures Recorded(s, r, TickInterrupt)
  {
    forall t
      ensures t in s.timeouts[..k] <==> t in s.timeouts && t !in s.timeouts[k..]
    {
      assert s.timeouts == s.timeouts[..k] + s.timeouts[k..];
    }
  }

  lemma TickChosen(s: State, b: State, idle: Tid, c: Tid)
    requires Core(b, idle) && c in b.tasks && s.current == b.current == Some(c) && b.pended == (s.pended || Top(b) != s.current)
    ensures Chosen(s, Reschedule(Rotate(b, c)), TickInterrupt)
  {
    hide Core, Rotate, TopFrom;
    RotateFrame(b, c);
    RescheduleIs(Rotate(b, c));
    if Top(b) != Some(c) {
      TurnChoice(b, idle, c);
    }
  }

  lemma EveryTick(s: State, idle: Tid)
    requires Ongoing(s, idle) && s.current.Some?
    ensures Effects(s, Tick(s), TickInterrupt)
  {
    hide Core, TickQueues, Chosen, Recorded, Tick, Rotate, TopFrom, Minus, AtLevel, TickReached, Turned;
    var c := s.current.value;
    var b, k := TickParts(s, idle);
    TickQueued(s, b, idle, c, k);
    TickChosen(s, b, idle, c);
    RotateFrame(b, c);
    SleepersOnce(s, idle);
    TickRecorded(s, Tick(s), k);
  }

  lemma SleepersOnce(s: State, idle: Tid)
    requires Core(s, idle)
    ensures NoDup(s.timeouts)
  {
  }
}
