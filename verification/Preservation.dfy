/** Each kernel routine keeps `Settled`. */
module Preservation {
  import opened Base
  import opened KernelState
  import opened Invariants
  import opened Structure

  /** Exactness depends on priorities and the wait graph only. */
  lemma ExactFrame(tasks: map<Tid, Task>, tasks': map<Tid, Task>, g: map<Tid, Tid>)
    requires AllExact(tasks, g)
    requires tasks.Keys == tasks'.Keys
    requires forall t :: t in tasks ==> tasks'[t].prio == tasks[t].prio && tasks'[t].base == tasks[t].base
    ensures AllExact(tasks', g)
  {
  }

  lemma GraphSame(tasks: map<Tid, Task>, mutexes: map<Mid, Mutex>,
                  tasks': map<Tid, Task>, mutexes': map<Mid, Mutex>)
    requires tasks.Keys == tasks'.Keys && mutexes.Keys == mutexes'.Keys
    requires forall t :: t in tasks ==> Awaited(tasks[t]) == Awaited(tasks'[t])
    requires forall m :: m in mutexes ==> mutexes[m].owner == mutexes'[m].owner
    ensures WaitGraph(tasks, mutexes) == WaitGraph(tasks', mutexes')
  {
  }

  /** Fields other than the owner of a mutex and the priority and whereabouts of a task do not matter. */
  lemma FieldsSame(tasks: map<Tid, Task>, mutexes: map<Mid, Mutex>,
                   tasks': map<Tid, Task>, mutexes': map<Mid, Mutex>)
    requires Fields(tasks, mutexes) && Records(tasks')
    requires tasks.Keys == tasks'.Keys && mutexes.Keys == mutexes'.Keys
    requires forall m :: m in mutexes ==> mutexes[m].owner == mutexes'[m].owner
    requires forall t :: t in tasks ==>
      && Awaited(tasks[t]) == Awaited(tasks'[t])
      && tasks'[t].prio == tasks[t].prio && tasks'[t].base == tasks[t].base
      && (tasks'[t].blockedOn == tasks[t].blockedOn || !tasks'[t].status.Blocked?)
      && (tasks'[t].status.Blocked? && tasks'[t].blockedOn.Some? ==> tasks[t].status.Blocked?)
    ensures Fields(tasks', mutexes')
  {
    hide AllExact, WaitGraph;
    GraphSame(tasks, mutexes, tasks', mutexes');
    ExactFrame(tasks, tasks', WaitGraph(tasks, mutexes));
    forall t, n | t in tasks' && Owns(mutexes', t, n) && Awaited(tasks'[t]).Some?
      ensures tasks'[t].blockedOn == Awaited(tasks'[t])
    {
      assert Owns(mutexes, t, n);
    }
  }

  // ----- semaphores and sleep

  lemma EnterRest(s: State, r: State, idle: Tid, c: Tid, q: QueueId)
    requires Rest(s, idle) && c in s.tasks && c != idle && c !in s.timeouts
    requires q.Sleep? || q.MutexQ? || (q.SemQ? && q.sem in s.sems && s.sems[q.sem] == 0)
    requires r.tasks == s.tasks[c := Parked(s.tasks[c], q)]
    requires r == s.(tasks := r.tasks, queues := r.queues) && r.queues.Keys == s.queues.Keys
    requires forall x :: x in s.queues && x != q && x != ReadyQ(s.tasks[c].prio) ==> r.queues[x] == s.queues[x]
    ensures Rest(r, idle)
  {
  }

  /** The running task parks on a semaphore or in the sleep queue. */
  lemma EnterSettled(s: State, idle: Tid, c: Tid, q: QueueId)
    requires Settled(s, idle) && c in s.tasks && !s.tasks[c].status.Blocked? && c != idle
    requires s.tasks[c].blockedOn.None?
    requires q in s.queues && (q.Sleep? || (q.SemQ? && q.sem in s.sems && s.sems[q.sem] == 0))
    ensures Settled(EnterQueue(s, c, q, false), idle)
  {
    hide EnterQueue, Linked, Sorted, AllExact, WaitGraph, MutexesOk, ChainVisible, Shape, TimeoutsOk, SemsOk, IdleOk;
    var r := EnterQueue(s, c, q, false);
    EnterMoves(s, c, q, false);
    FieldsSame(s.tasks, s.mutexes, r.tasks, r.mutexes);
    NotSleeping(s, c);
    EnterRest(s, r, idle, c, q);
  }

  lemma NotSleeping(s: State, c: Tid)
    requires Records(s.tasks) && TimeoutsOk(s) && c in s.tasks && s.tasks[c].waitQ != Some(Sleep)
    ensures c !in s.timeouts
  {
  }

  lemma ArmRest(s: State, idle: Tid, c: Tid, ticks: Word)
    requires Rest(s, idle) && c in s.tasks && s.tasks[c].waitQ == Some(Sleep) && c !in s.timeouts
    ensures Rest(ArmTimeout(s, c, ticks), idle)
  {
    var r := ArmTimeout(s, c, ticks);
    InsertAtMembers(s.timeouts, TimeoutPos(r.tasks, s.timeouts, r.tasks[c].wake), c);
  }

  lemma ArmSettled(s: State, idle: Tid, c: Tid, ticks: Word)
    requires Settled(s, idle) && c in s.tasks && s.tasks[c].waitQ == Some(Sleep) && c !in s.timeouts
    ensures Settled(ArmTimeout(s, c, ticks), idle)
  {
    hide ArmTimeout, Linked, Sorted, AllExact, WaitGraph, MutexesOk, ChainVisible, Shape, TimeoutsOk, SemsOk, IdleOk;
    ArmMoves(s, c, ticks);
    FieldsSame(s.tasks, s.mutexes, ArmTimeout(s, c, ticks).tasks, s.mutexes);
    ArmRest(s, idle, c, ticks);
  }

  /** `t` leaves its wait queue for the ready queue of its priority. */
  function Released(s: State, t: Tid, code: int): (r: State)
    requires t in s.tasks && s.tasks[t].waitQ.Some?
  {
    Append(SetTask(Remove(s, s.tasks[t].waitQ.value, t), t, Woken(s.tasks[t], code)),
      ReadyQ(s.tasks[t].prio), t)
  }

  lemma ReleaseRest(s: State, idle: Tid, t: Tid, code: int)
    requires Rest(s, idle) && t in s.tasks && t !in s.timeouts
    requires s.tasks[t].waitQ.Some? && s.tasks[t].waitQ.value in s.queues
    ensures Rest(Released(s, t, code), idle)
  {
    var r := Released(s, t, code);
    assert r.queues.Keys == s.queues.Keys;
    assert forall i :: SemQ(i) in s.queues && s.queues[SemQ(i)] == [] ==> r.queues[SemQ(i)] == [];
  }

  lemma ReleaseSettled(s: State, idle: Tid, t: Tid, code: int)
    requires Settled(s, idle) && t in s.tasks && s.tasks[t].status.Blocked?
    requires s.tasks[t].waitQ.Some? && Awaited(s.tasks[t]).None? && t !in s.timeouts
    ensures Settled(Released(s, t, code), idle)
  {
    hide Linked, Sorted, AllExact, WaitGraph, MutexesOk, ChainVisible, Shape, TimeoutsOk, SemsOk, IdleOk;
    var r := Released(s, t, code);
    WakeMoves(s, t, code);
    FieldsSame(s.tasks, s.mutexes, r.tasks, r.mutexes);
    ReleaseRest(s, idle, t, code);
  }
}
