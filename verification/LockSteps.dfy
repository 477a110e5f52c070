/** Locking and unlocking keep `Settled`. */
module LockSteps {
  import opened Base
  import opened KernelState
  import opened Invariants
  import opened Structure
  import opened Inheritance
  import opened Preservation

  /** Changing fields that do not decide where a task belongs. */
  lemma PlacedSame(tasks: map<Tid, Task>, tasks': map<Tid, Task>, queues: map<QueueId, seq<Tid>>)
    requires Placed(tasks, queues) && tasks.Keys == tasks'.Keys
    requires forall t :: t in tasks ==> Home(tasks'[t]) == Home(tasks[t]) && tasks'[t].prio == tasks[t].prio
    ensures Placed(tasks', queues)
  {
    forall m | MutexQ(m) in queues
      ensures SortedBy(tasks', queues[MutexQ(m)])
    {
      SortedFrame(tasks, tasks', queues[MutexQ(m)]);
    }
  }

  // ----- the contended lock

  lemma SetPriorityElsewhere(s: State, t: Tid, p: Priority, q: QueueId)
    requires t in s.tasks && RecordOk(s.tasks[t]) && Home(s.tasks[t]) != q && !q.ReadyQ?
    ensures QueueOf(SetPriority(s, t, p), q) == QueueOf(s, q)
  {
  }

  lemma EmptyNotHome(tasks: map<Tid, Task>, queues: map<QueueId, seq<Tid>>, t: Tid, q: QueueId)
    requires Linked(tasks, queues) && t in tasks && q in queues && queues[q] == []
    ensures Home(tasks[t]) != q
  {
  }

  lemma SetPriorityRest(s: State, idle: Tid, t: Tid, p: Priority)
    requires Linked(s.tasks, s.queues) && Sorted(s.tasks, s.queues) && Records(s.tasks) && Rest(s, idle) && t in s.tasks
    ensures Rest(SetPriority(s, t, p), idle)
  {
    hide Linked, Sorted, SetPriority;
    SetPriorityMoves(s, t, p);
    forall i | i in s.sems && QueueOf(s, SemQ(i)) == []
      ensures QueueOf(SetPriority(s, t, p), SemQ(i)) == []
    {
      EmptyNotHome(s.tasks, s.queues, t, SemQ(i));
      SetPriorityElsewhere(s, t, p, SemQ(i));
    }
  }

  lemma {:induction false} BoostRest(s: State, idle: Tid, p: Priority, o: Option<Tid>)
    requires Walkable(s) && Rest(s, idle)
    ensures Rest(Boost(s, p, o), idle)
    decreases LessUrgent(s.tasks, p)
  {
    hide Linked, Sorted, MutexesOk, ChainVisible, Rest, SetPriority, NextOwner, Shape, Records;
    if o.Some? && o.value in s.tasks && s.tasks[o.value].prio > p {
      var a := SetPriority(s, o.value, p);
      SetPriorityRest(s, idle, o.value, p);
      WalkableFrame(s, o.value, p);
      SetPriorityMoves(s, o.value, p);
      assert o.value in LessUrgent(s.tasks, p) && o.value !in LessUrgent(a.tasks, p);
      assert LessUrgent(a.tasks, p) < LessUrgent(s.tasks, p);
      BoostRest(a, idle, p, NextOwner(a, o.value));
    }
  }

  /** A new edge into `o` leaves only `o` out of date. */
  lemma NewEdgeOwes(tasks: map<Tid, Task>, g: map<Tid, Tid>, c: Tid, o: Tid)
    requires AllExact(tasks, g) && c in tasks && c !in g && o in tasks
    ensures Owing(tasks, g[c := o], o, c, tasks[c].prio)
  {
  }

  lemma EnterGraph(tasks: map<Tid, Task>, mutexes: map<Mid, Mutex>, c: Tid, m: Mid)
    requires c in tasks && Awaited(tasks[c]).None?
    requires m in mutexes && mutexes[m].owner.Some?
    ensures c !in WaitGraph(tasks, mutexes)
    ensures WaitGraph(tasks[c := Parked(tasks[c], MutexQ(m))], mutexes)
      == WaitGraph(tasks, mutexes)[c := mutexes[m].owner.value]
  {
  }

  /** The caller's view of the state, after `blockedOn` is set and before the walk. */
  function Announced(s: State, c: Tid, m: Mid): (r: State) {
    SetTask(s, c, TaskOf(s.tasks, c).(blockedOn := Some(m)))
  }

  lemma AnnouncedSettled(s: State, idle: Tid, c: Tid, m: Mid)
    requires Settled(s, idle) && c in s.tasks && !s.tasks[c].status.Blocked? && c != idle
    ensures Settled(Announced(s, c, m), idle)
  {
    hide Linked, Sorted, AllExact, WaitGraph, MutexesOk, ChainVisible;
    var a := Announced(s, c, m);
    PlacedSame(s.tasks, a.tasks, s.queues);
    FieldsSame(s.tasks, s.mutexes, a.tasks, a.mutexes);
  }

  lemma WalkSettles(s: State, idle: Tid, c: Tid, m: Mid)
    requires Settled(s, idle)
    requires c in s.tasks && !s.tasks[c].status.Blocked?
    requires m in s.mutexes && s.mutexes[m].owner.Some? && s.mutexes[m].owner.value != c
    ensures var b := Boost(s, s.tasks[c].prio, s.mutexes[m].owner);
      && Walkable(b) && Rest(b, idle)
      && OnlyPriorities(s.tasks, b.tasks) && b.tasks[c] == s.tasks[c]
      && b == s.(tasks := b.tasks, queues := b.queues)
      && AllExact(b.tasks, WaitGraph(b.tasks, s.mutexes)[c := s.mutexes[m].owner.value])
  {
    hide Linked, Sorted, AllExact, WaitGraph, ChainVisible, Rest, Shape, Boost;
    var o := s.mutexes[m].owner.value;
    var g := WaitGraph(s.tasks, s.mutexes);
    EnterGraph(s.tasks, s.mutexes, c, m);
    NewEdgeOwes(s.tasks, g, c, o);
    assert Walkable(s) by { RestGivesShape(s, idle); }
    BoostSettles(s, g[c := o], c, m, o, c, s.tasks[c].prio);
    BoostRest(s, idle, s.tasks[c].prio, Some(o));
    GraphFrame(s.tasks, Boost(s, s.tasks[c].prio, Some(o)).tasks, s.mutexes);
  }

  lemma RestGivesShape(s: State, idle: Tid)
    requires Rest(s, idle)
    ensures Shape(s)
  {
  }

  /** The walk, then the caller joins the waiters: everything is settled again. */
  lemma LockBlockSettled(s: State, idle: Tid, c: Tid, m: Mid)
    requires Settled(s, idle)
    requires c in s.tasks && !s.tasks[c].status.Blocked? && c != idle && s.tasks[c].blockedOn == Some(m)
    requires m in s.mutexes && s.mutexes[m].owner.Some? && s.mutexes[m].owner.value != c
    ensures var b := Boost(s, s.tasks[c].prio, s.mutexes[m].owner);
      Settled(EnterQueue(b, c, MutexQ(m), true), idle)
  {
    hide Linked, Sorted, AllExact, WaitGraph, MutexesOk, ChainVisible, Rest, Shape, Boost, EnterQueue;
    var b := Boost(s, s.tasks[c].prio, s.mutexes[m].owner);
    var r := EnterQueue(b, c, MutexQ(m), true);
    WalkSettles(s, idle, c, m);
    MutexQueueExists(b, m);
    EnterMoves(b, c, MutexQ(m), true);
    LockBlockFields(b, r, c, m);
    AwakeNotSleeping(b, idle, c);
    EnterRest(b, r, idle, c, MutexQ(m));
  }

  lemma MutexQueueExists(s: State, m: Mid)
    requires Shape(s) && m in s.mutexes
    ensures MutexQ(m) in s.queues
  {
  }

  lemma AwakeNotSleeping(s: State, idle: Tid, c: Tid)
    requires Rest(s, idle) && Records(s.tasks) && c in s.tasks && !s.tasks[c].status.Blocked?
    ensures c !in s.timeouts
  {
  }

  lemma LockBlockFields(b: State, r: State, c: Tid, m: Mid)
    requires Records(b.tasks) && MutexesOk(b.tasks, b.mutexes) && ChainVisible(b.tasks, b.mutexes)
    requires c in b.tasks && !b.tasks[c].status.Blocked? && b.tasks[c].blockedOn == Some(m)
    requires m in b.mutexes && b.mutexes[m].owner.Some? && b.mutexes[m].owner.value != c
    requires AllExact(b.tasks, WaitGraph(b.tasks, b.mutexes)[c := b.mutexes[m].owner.value])
    requires r.tasks == b.tasks[c := Parked(b.tasks[c], MutexQ(m))] && r.mutexes == b.mutexes
    ensures Fields(r.tasks, r.mutexes)
  {
    hide AllExact, WaitGraph;
    EnterGraph(b.tasks, b.mutexes, c, m);
    ExactFrame(b.tasks, r.tasks, WaitGraph(r.tasks, r.mutexes));
  }
}
