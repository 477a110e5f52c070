/** Waiters are not overtaken: over any run, tasks that wait for a semaphore or a mutex keep the
    order in which they came, unless a walk raises one of them. */
module Fairness {
  import opened Base
  import opened KernelState
  import opened Invariants
  import opened OwnedLists
  import opened Machine
  import opened Basics
  import opened StepChanges
  import opened Runs
  import opened QueueOrder
  import opened StepEffects

  /** `a` comes before `b` in `l`. */
  ghost predicate Ahead(l: seq<Tid>, a: Tid, b: Tid) {
    exists i, j :: 0 <= i < j < |l| && l[i] == a && l[j] == b
  }

  lemma AheadFirst(l: seq<Tid>, a: Tid, b: Tid)
    requires l != []
    ensures Ahead(l, a, b) <==> (l[0] == a && b in l[1..]) || Ahead(l[1..], a, b)
  {
    var tail := l[1..];
    if Ahead(l, a, b) {
      var i, j :| 0 <= i < j < |l| && l[i] == a && l[j] == b;
      assert tail[j - 1] == b;
      if i > 0 {
        assert tail[i - 1] == a;
      }
    }
    if l[0] == a && b in tail {
      var j :| 0 <= j < |tail| && tail[j] == b;
      assert l[0] == a && l[j + 1] == b;
    }
    if Ahead(tail, a, b) {
      var i, j :| 0 <= i < j < |tail| && tail[i] == a && tail[j] == b;
      assert l[i + 1] == a && l[j + 1] == b;
    }
  }

  /** Taking out others does not matter. */
  lemma {:induction false} MinusAhead(l: seq<Tid>, gone: set<Tid>, a: Tid, b: Tid)
    requires a !in gone && b !in gone
    ensures Ahead(Minus(l, gone), a, b) <==> Ahead(l, a, b)
  {
    hide Ahead;
    if l == [] {
    } else {
      AheadFirst(l, a, b);
      MinusAhead(l[1..], gone, a, b);
      MinusMembers(l[1..], gone);
      if l[0] !in gone {
        var r := [l[0]] + Minus(l[1..], gone);
        AheadFirst(r, a, b);
        assert r[1..] == Minus(l[1..], gone);
      }
    }
  }

  lemma AheadPlus(l: seq<Tid>, k: seq<Tid>, a: Tid, b: Tid)
    requires Ahead(l, a, b)
    ensures Ahead(l + k, a, b)
  {
    var i, j :| 0 <= i < j < |l| && l[i] == a && l[j] == b;
    assert (l + k)[i] == a && (l + k)[j] == b;
  }

  /** Whoever is behind another is not the first of a queue without duplicates. */
  lemma NotFirst(l: seq<Tid>, a: Tid, b: Tid)
    requires Ahead(l, a, b) && NoDup(l)
    ensures a in l && b in l && l[0] != b
  {
  }

  // ----- one step

  /** Both tasks wait in `q`, so they are neither current and running nor asleep. */
  lemma WaitersAre(reading: Reading, s: State, idle: Tid, q: QueueId, t: Tid)
    requires Inv(reading, s, idle) && t in QueueOf(s, q) && (q.SemQ? || q.MutexQ?)
    ensures t in s.tasks && s.tasks[t].status.Blocked? && s.tasks[t].waitQ == Some(q) && t !in s.timeouts && NoDup(QueueOf(s, q))
    ensures forall x :: x != q ==> t !in QueueOf(s, x)
  {
    hide Sorted, MutexesOk, Hinted, Attended, SemsOk, IdleOk;
  }

  /** The tasks that may leave a wait queue in a step other than a tick and a contended lock. */
  lemma LeaverIs(reading: Reading, s: State, idle: Tid, e: Event, q: QueueId, a: Tid, b: Tid)
    requires Inv(reading, s, idle) && Enabled(reading, s, idle, e) && (q.SemQ? || q.MutexQ?) && Ahead(QueueOf(s, q), a, b)
    ensures Mover(s, e).Some? ==> b != Mover(s, e).value.task && (Mover(s, e).value.to.Some? ==> a != Mover(s, e).value.task)
    ensures e.UnlockMutex? && QueueOf(s, MutexQ(e.mutex)) != [] ==> b != QueueOf(s, MutexQ(e.mutex))[0]
    ensures (e.LockMutex? || e.UnlockMutex?) && s.current.Some? ==> a != s.current.value && b != s.current.value
  {
    hide Core, Attended, Ahead, NoDup;
    AheadIn(QueueOf(s, q), a, b);
    WaitersAre(reading, s, idle, q, a);
    WaitersAre(reading, s, idle, q, b);
    NotFirst(QueueOf(s, q), a, b);
    if e.DelayCall? || e.TakeCall? || e.LockMutex? || e.UnlockMutex? {
      AwakeCaller(s, idle);
    }
  }

  lemma AheadIn(l: seq<Tid>, a: Tid, b: Tid)
    requires Ahead(l, a, b)
    ensures a in l && b in l
  {
  }

  /** Nobody is overtaken in one step. */
  lemma StepKeepsOrder(reading: Reading, s: State, idle: Tid, e: Event, q: QueueId, a: Tid, b: Tid)
    requires Reachable(reading, s, idle) && Enabled(reading, s, idle, e) && (q.SemQ? || q.MutexQ?) && Ahead(QueueOf(s, q), a, b)
    requires var r := Step(reading, s, e);
      a in QueueOf(r, q) && TaskOf(r.tasks, a).prio == TaskOf(s.tasks, a).prio && TaskOf(r.tasks, b).prio == TaskOf(s.tasks, b).prio
    ensures Ahead(QueueOf(Step(reading, s, e), q), a, b)
  {
    hide Reachable, Inv, Step, Enabled, Ordered, Chosen, Recorded, Ahead, Minus, QueueOf, Mover;
    var r := Step(reading, s, e);
    ReachableInv(reading, s, idle);
    EveryStep(reading, s, idle, e);
    AheadIn(QueueOf(s, q), a, b);
    WaitersAre(reading, s, idle, q, a);
    WaitersAre(reading, s, idle, q, b);
    LeaverIs(reading, s, idle, e, q, a, b);
    QueueThere(s, q, a);
    OrderKept(s, r, e, q, a, b);
  }

  lemma QueueThere(s: State, q: QueueId, a: Tid)
    requires a in QueueOf(s, q)
    ensures q in s.queues
  {
  }

  lemma OrderKept(s: State, r: State, e: Event, q: QueueId, a: Tid, b: Tid)
    requires Ordered(s, r, e) && (q.SemQ? || q.MutexQ?) && q in s.queues && Ahead(QueueOf(s, q), a, b) && a in QueueOf(r, q)
    requires a in s.tasks && b in s.tasks && a !in s.timeouts && b !in s.timeouts
    requires TaskOf(r.tasks, a).prio == s.tasks[a].prio && TaskOf(r.tasks, b).prio == s.tasks[b].prio
    requires Mover(s, e).Some? ==> b != Mover(s, e).value.task && (Mover(s, e).value.to.Some? ==> a != Mover(s, e).value.task)
    requires e.UnlockMutex? && QueueOf(s, MutexQ(e.mutex)) != [] ==> b != QueueOf(s, MutexQ(e.mutex))[0]
    requires (e.LockMutex? || e.UnlockMutex?) && s.current.Some? ==> a != s.current.value && b != s.current.value
    ensures Ahead(QueueOf(r, q), a, b)
  {
    hide Ahead, Minus, QueueOf, TickReached, BehindEquals, BeforeLess, Mover, AtLevel, DelayTimeouts;
    if e.TickInterrupt? {
      var woken := Elements(s.timeouts[..WokenCount(s, r)]);
      MinusAhead(QueueOf(s, q), woken, a, b);
    } else if Contends(s, e) {
      var moved := Raised(s, r) + {s.current.value};
      MinusAhead(QueueOf(s, q), moved, a, b);
      MinusAhead(QueueOf(r, q), moved, a, b);
    } else if ByOwner(s, e) {
      var w := QueueOf(s, MutexQ(e.mutex));
      var gone := {s.current.value} + if w == [] then {} else {w[0]};
      MinusMembers(QueueOf(s, q), gone);
      assert QueueOf(r, q) == Minus(QueueOf(s, q), gone);
      MinusAhead(QueueOf(s, q), gone, a, b);
    } else if !IsTurn(e) {
      var gone := if Mover(s, e).Some? then {Mover(s, e).value.task} else {};
      KeptBefore(s, r, e, q, a, b, gone);
    }
  }

  lemma KeptBefore(s: State, r: State, e: Event, q: QueueId, a: Tid, b: Tid, gone: set<Tid>)
    requires Ahead(QueueOf(s, q), a, b) && a in QueueOf(r, q) && b !in gone && !q.ReadyQ?
    requires Mover(s, e).Some? && Mover(s, e).value.to.Some? ==> a != Mover(s, e).value.task
    requires QueueOf(r, q) == Minus(QueueOf(s, q), gone) + Arrival(s, e, q)
    requires gone == if Mover(s, e).Some? then {Mover(s, e).value.task} else {}
    ensures Ahead(QueueOf(r, q), a, b)
  {
    hide Ahead, Minus, QueueOf, Mover;
    MinusMembers(QueueOf(s, q), gone);
    MinusAhead(QueueOf(s, q), gone, a, b);
    AheadPlus(Minus(QueueOf(s, q), gone), Arrival(s, e, q), a, b);
  }

  // ----- whole runs

  /** In `s` and after every step of `es`, `a` waits in `q`, and both tasks keep their priorities. */
  ghost predicate StillWaits(reading: Reading, s: State, es: seq<Event>, a: Tid, b: Tid, q: QueueId, pa: Priority, pb: Priority)
    decreases |es|
  {
    && a in QueueOf(s, q) && TaskOf(s.tasks, a).prio == pa && TaskOf(s.tasks, b).prio == pb
    && (es == [] || StillWaits(reading, Step(reading, s, es[0]), es[1..], a, b, q, pa, pb))
  }

  lemma WaitsNow(reading: Reading, s: State, es: seq<Event>, a: Tid, b: Tid, q: QueueId, pa: Priority, pb: Priority)
    requires StillWaits(reading, s, es, a, b, q, pa, pb)
    ensures a in QueueOf(s, q) && TaskOf(s.tasks, a).prio == pa && TaskOf(s.tasks, b).prio == pb
  {
  }

  /** No overtaking: while `a` waits for a semaphore or a mutex, a task `b` behind it is not served, as
      long as no walk raises either of them; `b` still waits behind `a` after any run. */
  lemma {:induction false} NoOvertaking(reading: Reading, s: State, idle: Tid, es: seq<Event>, q: QueueId, a: Tid, b: Tid, pa: Priority, pb: Priority)
    requires Reachable(reading, s, idle) && Legal(reading, s, idle, es) && (q.SemQ? || q.MutexQ?)
    requires Ahead(QueueOf(s, q), a, b) && StillWaits(reading, s, es, a, b, q, pa, pb)
    ensures var r := Exec(reading, s, es);
      Ahead(QueueOf(r, q), a, b) && b in r.tasks && r.tasks[b].waitQ == Some(q)
    decreases |es|
  {
    hide Reachable, Inv, Enabled, Step, Ahead, QueueOf;
    if es != [] {
      var r := Step(reading, s, es[0]);
      WaitsNow(reading, r, es[1..], a, b, q, pa, pb);
      StepKeepsOrder(reading, s, idle, es[0], q, a, b);
      StaysReachable(reading, s, idle, es[0]);
      NoOvertaking(reading, r, idle, es[1..], q, a, b, pa, pb);
    } else {
      ReachableInv(reading, s, idle);
      AheadIn(QueueOf(s, q), a, b);
      WaitersAre(reading, s, idle, q, b);
    }
  }
}
