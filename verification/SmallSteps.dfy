/** The routines that move at most one task, or none, keep `Settled`. */
module SmallSteps {
  import opened Base
  import opened KernelState
  import opened Invariants
  import opened Structure
  import opened Preservation
  import opened LockSteps

  // ----- rotation

  lemma RotatePlaced(s: State, t: Tid)
    requires Shape(s) && Placed(s.tasks, s.queues) && t in s.tasks
    ensures var r := Rotate(s, t);
      && Placed(r.tasks, r.queues)
      && r == s.(queues := r.queues) && r.queues.Keys == s.queues.Keys
      && (forall q :: q in s.queues && !q.ReadyQ? ==> r.queues[q] == s.queues[q])
  {
    hide Sorted;
    var q := ReadyQ(s.tasks[t].prio);
    var l := s.queues[q];
    if l != [] && l[0] == t && |l| > 1 {
      assert Home(s.tasks[t]) == q;
      RotateMoves(s.tasks, s.queues, t);
    }
  }

  lemma RotateMoves(tasks: map<Tid, Task>, queues: map<QueueId, seq<Tid>>, t: Tid)
    requires Placed(tasks, queues) && t in tasks && Home(tasks[t]).ReadyQ? && Home(tasks[t]) in queues
    requires queues[Home(tasks[t])] != [] && queues[Home(tasks[t])][0] == t
    ensures var q := Home(tasks[t]); Placed(tasks, queues[q := queues[q][1..] + [t]])
  {
    hide Linked, Sorted;
    var q := Home(tasks[t]);
    assert Taken(tasks, queues, t)[q] == queues[q][1..];
    AppendIsInsert(queues[q][1..], t);
    Move(tasks, queues, t, tasks[t], |queues[q]| - 1);
    assert tasks[t := tasks[t]] == tasks;
    assert Moved(tasks, queues, t, tasks[t], |queues[q]| - 1) == queues[q := queues[q][1..] + [t]];
  }

  lemma RotateSettled(s: State, idle: Tid, t: Tid)
    requires Settled(s, idle) && t in s.tasks
    ensures Settled(Rotate(s, t), idle)
  {
    hide Linked, Sorted, Fields, Rotate;
    RotatePlaced(s, t);
  }

  // ----- expiry

  lemma DropTimeoutSettled(s: State, idle: Tid, t: Tid)
    requires Settled(s, idle)
    ensures Settled(TimeoutRemove(s, t), idle)
  {
    hide Placed, Fields;
    WithoutMembers(s.timeouts, t);
  }

  lemma ExpireHeadSettled(s: State, idle: Tid)
    requires Settled(s, idle) && s.timeouts != []
    ensures Settled(ExpireHead(s), idle)
    ensures var t := s.timeouts[0];
      && t in s.tasks && s.tasks[t].status.Blocked? && s.tasks[t].waitQ == Some(Sleep)
      && ExpireHead(s).tasks == s.tasks[t := Woken(s.tasks[t], -1)]
  {
    hide Linked, Sorted, AllExact, WaitGraph, MutexesOk, ChainVisible, SemsOk, IdleOk, Shape;
    var t := s.timeouts[0];
    var a := TimeoutRemove(s, t);
    DropTimeoutSettled(s, idle, t);
    WithoutMembers(s.timeouts, t);
    ReleaseSettled(a, idle, t, -1);
    assert ExpireHead(s) == Released(a, t, -1);
  }

  /** Tasks that were asleep may have been woken; nothing else about any task has changed. */
  ghost predicate OnlyWoke(before: map<Tid, Task>, after: map<Tid, Task>) {
    && before.Keys == after.Keys
    && forall t :: t in before ==> after[t] == before[t]
                                   || (before[t].waitQ == Some(Sleep) && after[t] == Woken(before[t], -1))
  }

  lemma {:induction false} ExpireSettled(s: State, idle: Tid)
    requires Settled(s, idle)
    ensures Settled(Expire(s), idle)
    ensures OnlyWoke(s.tasks, Expire(s).tasks)
    ensures var r := Expire(s); r == s.(tasks := r.tasks, queues := r.queues, timeouts := r.timeouts)
    decreases |s.timeouts|
  {
    hide Settled, ExpireHead;
    if s.timeouts != [] && TickReached(s.tick, TaskOf(s.tasks, s.timeouts[0]).wake) {
      ExpireHeadSettled(s, idle);
      ExpireHeadFrame(s);
      ExpireSettled(ExpireHead(s), idle);
    }
  }

  lemma ExpireHeadFrame(s: State)
    requires s.timeouts != []
    ensures var r := ExpireHead(s); r == s.(tasks := r.tasks, queues := r.queues, timeouts := s.timeouts[1..])
  {
  }

  // ----- locking a free mutex, resuming a lock

  lemma LockFreeSettled(s: State, idle: Tid, c: Tid, m: Mid)
    requires Settled(s, idle) && c in s.tasks && !s.tasks[c].status.Blocked? && c != idle
    requires m in s.mutexes && s.mutexes[m].owner.None?
    ensures Settled(AddToOwned(SetMutex(s, m, s.mutexes[m].(owner := Some(c))), c, m), idle)
  {
    hide Linked, Sorted, AllExact, WaitGraph, SemsOk, TimeoutsOk;
    var r := AddToOwned(SetMutex(s, m, s.mutexes[m].(owner := Some(c))), c, m);
    PlacedSame(s.tasks, r.tasks, s.queues);
    LockFreeFields(s.tasks, s.mutexes, r.tasks, r.mutexes, c, m);
    LockFreeRest(s, idle, c, m);
  }

  lemma LockFreeRest(s: State, idle: Tid, c: Tid, m: Mid)
    requires Rest(s, idle) && c in s.tasks && c != idle && m in s.mutexes
    ensures Rest(AddToOwned(SetMutex(s, m, s.mutexes[m].(owner := Some(c))), c, m), idle)
  {
  }

  lemma LockFreeFields(tasks: map<Tid, Task>, mutexes: map<Mid, Mutex>,
                       tasks': map<Tid, Task>, mutexes': map<Mid, Mutex>, c: Tid, m: Mid)
    requires Fields(tasks, mutexes) && c in tasks && !tasks[c].status.Blocked?
    requires m in mutexes && mutexes[m].owner.None?
    requires tasks' == tasks[c := tasks[c].(owned := Some(m))]
    requires mutexes'.Keys == mutexes.Keys
    requires forall n :: n in mutexes ==> mutexes'[n].owner == if n == m then Some(c) else mutexes[n].owner
    ensures Fields(tasks', mutexes')
  {
    hide AllExact, WaitGraph;
    FreeGraph(tasks, mutexes, tasks', mutexes', c, m);
    ExactFrame(tasks, tasks', WaitGraph(tasks, mutexes));
    forall t, n | t in tasks' && Owns(mutexes', t, n) && Awaited(tasks'[t]).Some?
      ensures tasks'[t].blockedOn == Awaited(tasks'[t])
    {
      assert t != c;
      assert Owns(mutexes, t, n);
    }
  }

  lemma FreeGraph(tasks: map<Tid, Task>, mutexes: map<Mid, Mutex>,
                  tasks': map<Tid, Task>, mutexes': map<Mid, Mutex>, c: Tid, m: Mid)
    requires MutexesOk(tasks, mutexes) && c in tasks && m in mutexes && mutexes[m].owner.None?
    requires tasks' == tasks[c := tasks[c].(owned := Some(m))]
    requires mutexes'.Keys == mutexes.Keys
    requires forall n :: n in mutexes ==> mutexes'[n].owner == if n == m then Some(c) else mutexes[n].owner
    ensures WaitGraph(tasks, mutexes) == WaitGraph(tasks', mutexes')
  {
  }

  lemma ResumeSettled(s: State, idle: Tid, c: Tid, m: Mid)
    requires Settled(s, idle) && c in s.tasks && !s.tasks[c].status.Blocked? && m in s.mutexes
    ensures Settled(AddToOwned(SetTask(s, c, s.tasks[c].(blockedOn := None)), c, m), idle)
  {
    hide Linked, Sorted, AllExact, WaitGraph, MutexesOk, ChainVisible;
    var r := AddToOwned(SetTask(s, c, s.tasks[c].(blockedOn := None)), c, m);
    PlacedSame(s.tasks, r.tasks, s.queues);
    FieldsSame(s.tasks, s.mutexes, r.tasks, r.mutexes);
  }

  // ----- semaphore counts, new objects, the switch

  lemma CountSettled(s: State, idle: Tid, i: Sid, n: nat)
    requires Settled(s, idle) && i in s.sems && (n > 0 ==> QueueOf(s, SemQ(i)) == [])
    ensures Settled(s.(sems := s.sems[i := n]), idle)
  {
    hide Placed, Fields;
  }

  lemma NewQueuePlaced(tasks: map<Tid, Task>, queues: map<QueueId, seq<Tid>>, q: QueueId)
    requires Placed(tasks, queues) && q !in queues
    ensures Placed(tasks, queues[q := []])
  {
  }

  lemma NewMutexSettled(s: State, idle: Tid, m: Mid, link: Option<Mid>)
    requires Settled(s, idle) && m !in s.mutexes
    ensures Settled(NewMutex(s, m, link), idle)
  {
    hide Linked, Sorted, AllExact, WaitGraph;
    var r := NewMutex(s, m, link);
    NewQueuePlaced(s.tasks, s.queues, MutexQ(m));
    NewMutexGraph(s.tasks, s.mutexes, m, link);
    forall t, n | t in r.tasks && Owns(r.mutexes, t, n) && Awaited(r.tasks[t]).Some?
      ensures r.tasks[t].blockedOn == Awaited(r.tasks[t])
    {
      assert Owns(s.mutexes, t, n);
    }
  }

  lemma NewMutexGraph(tasks: map<Tid, Task>, mutexes: map<Mid, Mutex>, m: Mid, link: Option<Mid>)
    requires m !in mutexes
    ensures WaitGraph(tasks, mutexes[m := Mutex(None, link)]) == WaitGraph(tasks, mutexes)
  {
  }

  lemma NewSemSettled(s: State, idle: Tid, i: Sid, n: nat)
    requires Settled(s, idle) && i !in s.sems
    ensures Settled(NewSem(s, i, n), idle)
  {
    hide Linked, Sorted, Fields;
    NewQueuePlaced(s.tasks, s.queues, SemQ(i));
  }

  /** A task changes between ready and running. */
  lemma MarkSettled(s: State, idle: Tid, t: Tid, status: Status)
    requires Settled(s, idle) && t in s.tasks && !s.tasks[t].status.Blocked? && !status.Blocked?
    ensures Settled(SetTask(s, t, s.tasks[t].(status := status)), idle)
  {
    hide Linked, Sorted, AllExact, WaitGraph, MutexesOk, ChainVisible;
    var r := SetTask(s, t, s.tasks[t].(status := status));
    PlacedSame(s.tasks, r.tasks, s.queues);
    FieldsSame(s.tasks, s.mutexes, r.tasks, r.mutexes);
  }

  // ----- creation

  lemma CreatePlaced(tasks: map<Tid, Task>, queues: map<QueueId, seq<Tid>>, t: Tid, p: Priority)
    requires Placed(tasks, queues) && t !in tasks && ReadyQ(p) in queues
    ensures Placed(tasks[t := NewTask(p)], queues[ReadyQ(p) := queues[ReadyQ(p)] + [t]])
  {
    AppendIsInsert(queues[ReadyQ(p)], t);
    Attach(tasks[t := NewTask(p)], queues, t, |queues[ReadyQ(p)]|);
    forall m | MutexQ(m) in queues
      ensures SortedBy(tasks[t := NewTask(p)], queues[MutexQ(m)])
    {
      SortedFrame(tasks, tasks[t := NewTask(p)], queues[MutexQ(m)]);
    }
  }

  lemma CreateGraph(tasks: map<Tid, Task>, mutexes: map<Mid, Mutex>, t: Tid, p: Priority)
    requires MutexesOk(tasks, mutexes) && t !in tasks
    ensures WaitGraph(tasks[t := NewTask(p)], mutexes) == WaitGraph(tasks, mutexes)
    ensures forall w :: w in WaitGraph(tasks, mutexes) ==> w in tasks && WaitGraph(tasks, mutexes)[w] in tasks
  {
  }

  lemma CreateExact(tasks: map<Tid, Task>, g: map<Tid, Tid>, t: Tid, p: Priority)
    requires AllExact(tasks, g) && t !in tasks
    requires forall w :: w in g ==> w in tasks && g[w] in tasks
    ensures AllExact(tasks[t := NewTask(p)], g)
  {
  }

  lemma CreateSettled(s: State, idle: Tid, t: Tid, p: Priority)
    requires Settled(s, idle) && t !in s.tasks
    ensures Settled(Append(SetTask(s, t, NewTask(p)), ReadyQ(p), t), idle)
  {
    hide Linked, Sorted, AllExact, WaitGraph;
    assert ReadyQ(p) in s.queues;
    CreatePlaced(s.tasks, s.queues, t, p);
    CreateGraph(s.tasks, s.mutexes, t, p);
    CreateExact(s.tasks, WaitGraph(s.tasks, s.mutexes), t, p);
    CreateFields(s.tasks, s.mutexes, t, p);
    CreateRest(s, idle, t, p);
  }

  lemma CreateFields(tasks: map<Tid, Task>, mutexes: map<Mid, Mutex>, t: Tid, p: Priority)
    requires Records(tasks) && MutexesOk(tasks, mutexes) && ChainVisible(tasks, mutexes) && t !in tasks
    ensures var tasks' := tasks[t := NewTask(p)];
      Records(tasks') && MutexesOk(tasks', mutexes) && ChainVisible(tasks', mutexes)
  {
  }

  lemma CreateRest(s: State, idle: Tid, t: Tid, p: Priority)
    requires Rest(s, idle) && t !in s.tasks
    ensures Rest(Append(SetTask(s, t, NewTask(p)), ReadyQ(p), t), idle)
  {
  }
}
