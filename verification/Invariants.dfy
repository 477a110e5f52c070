/** What every reachable kernel state satisfies, one predicate per concern. */
module Invariants {
  import opened Base
  import opened KernelState

  /** Which queues exist. */
  ghost predicate Shape(s: State) {
    && (forall p: Priority :: ReadyQ(p) in s.queues)
    && Sleep in s.queues
    && (forall m :: MutexQ(m) in s.queues <==> m in s.mutexes)
    && (forall i :: SemQ(i) in s.queues <==> i in s.sems)
  }

  /** A single TCB is consistent with itself. */
  ghost predicate RecordOk(k: Task) {
    && (k.status.Blocked? <==> k.waitQ.Some?)
    && (k.waitQ.Some? ==> !k.waitQ.value.ReadyQ?)
  }

  ghost predicate Records(tasks: map<Tid, Task>) {
    forall t :: t in tasks ==> RecordOk(tasks[t])
  }

  /** Every task is in exactly one queue, the one its fields name, exactly once. */
  ghost predicate Linked(tasks: map<Tid, Task>, queues: map<QueueId, seq<Tid>>) {
    && (forall q, t :: q in queues && t in queues[q] ==> t in tasks && Home(tasks[t]) == q)
    && (forall t :: t in tasks ==> Home(tasks[t]) in queues && t in queues[Home(tasks[t])])
    && (forall q :: q in queues ==> NoDup(queues[q]))
  }

  /** Only sleeping tasks are in the timeout queue. */
  ghost predicate TimeoutsOk(s: State) {
    && NoDup(s.timeouts)
    && forall t :: t in s.timeouts ==> t in s.tasks && s.tasks[t].waitQ == Some(Sleep)
  }

  /** The mutex a task waits for, if it waits for one. */
  ghost function Awaited(k: Task): (r: Option<Mid>) {
    if k.waitQ.Some? && k.waitQ.value.MutexQ? then Some(k.waitQ.value.mutex) else None
  }

  /** A mutex with a waiter has an owner, a task that exists and is not that waiter. */
  ghost predicate MutexesOk(tasks: map<Tid, Task>, mutexes: map<Mid, Mutex>) {
    && (forall m :: m in mutexes && mutexes[m].owner.Some? ==> mutexes[m].owner.value in tasks)
    && (forall t :: t in tasks && Awaited(tasks[t]).Some? ==>
          var m := Awaited(tasks[t]).value;
          m in mutexes && mutexes[m].owner.Some? && mutexes[m].owner.value != t)
  }

  /** Mutex waiters are queued most urgent first. */
  ghost predicate SortedBy(tasks: map<Tid, Task>, l: seq<Tid>) {
    forall i, j :: 0 <= i < j < |l| ==> TaskOf(tasks, l[i]).prio <= TaskOf(tasks, l[j]).prio
  }

  ghost predicate Sorted(tasks: map<Tid, Task>, queues: map<QueueId, seq<Tid>>) {
    forall m :: MutexQ(m) in queues ==> SortedBy(tasks, queues[MutexQ(m)])
  }

  ghost predicate Owns(mutexes: map<Mid, Mutex>, t: Tid, m: Mid) {
    m in mutexes && mutexes[m].owner == Some(t)
  }

  /** The walk can see where a blocked owner waits: `blockedOn` names the mutex. */
  ghost predicate ChainVisible(tasks: map<Tid, Task>, mutexes: map<Mid, Mutex>) {
    && (forall t, n :: t in tasks && Owns(mutexes, t, n) && Awaited(tasks[t]).Some? ==>
          tasks[t].blockedOn == Awaited(tasks[t]))
    && (forall t :: t in tasks && tasks[t].status.Blocked? && tasks[t].blockedOn.Some? ==>
          Awaited(tasks[t]) == tasks[t].blockedOn)
  }

  /** `w` waits for a mutex that somebody owns. */
  ghost predicate Waiting(tasks: map<Tid, Task>, mutexes: map<Mid, Mutex>, w: Tid) {
    && w in tasks && Awaited(tasks[w]).Some?
    && Awaited(tasks[w]).value in mutexes && mutexes[Awaited(tasks[w]).value].owner.Some?
  }

  /** The wait graph: an edge from each mutex waiter to the task that keeps it waiting. */
  ghost function WaitGraph(tasks: map<Tid, Task>, mutexes: map<Mid, Mutex>): (g: map<Tid, Tid>) {
    map w | w in tasks && Waiting(tasks, mutexes, w) :: mutexes[Awaited(tasks[w]).value].owner.value
  }

  /** `w` waits for a mutex that `t` owns. */
  ghost predicate WaitsOn(tasks: map<Tid, Task>, mutexes: map<Mid, Mutex>, w: Tid, t: Tid) {
    w in tasks && Awaited(tasks[w]).Some? && Owns(mutexes, t, Awaited(tasks[w]).value)
  }

  /** The priorities `t` answers for: its own base and those of all waiters on mutexes it owns. */
  ghost function Claims(tasks: map<Tid, Task>, mutexes: map<Mid, Mutex>, t: Tid): (r: set<Priority>)
    requires t in tasks
  {
    {tasks[t].base} + set w | w in tasks && WaitsOn(tasks, mutexes, w, t) :: tasks[w].prio
  }

  ghost predicate IsLeast(p: Priority, claims: set<Priority>) {
    p in claims && forall q :: q in claims ==> p <= q
  }

  /** Exact priority inheritance. */
  ghost predicate Inherits(tasks: map<Tid, Task>, mutexes: map<Mid, Mutex>) {
    forall t :: t in tasks ==> IsLeast(tasks[t].prio, Claims(tasks, mutexes, t))
  }

  /** `t` has the least priority among its base and those of the tasks that `g` leads to it. */
  ghost predicate Exact(tasks: map<Tid, Task>, g: map<Tid, Tid>, t: Tid)
    requires t in tasks
  {
    && tasks[t].prio <= tasks[t].base
    && (forall w :: w in g && w in tasks && g[w] == t ==> tasks[t].prio <= tasks[w].prio)
    && (tasks[t].prio == tasks[t].base
        || exists w :: w in g && w in tasks && g[w] == t && tasks[w].prio == tasks[t].prio)
  }

  ghost predicate AllExact(tasks: map<Tid, Task>, g: map<Tid, Tid>) {
    forall t :: t in tasks ==> Exact(tasks, g, t)
  }

  /** A positive count means nobody waits. */
  ghost predicate SemsOk(s: State) {
    forall i :: i in s.sems ==> s.sems[i] >= 0 && (s.sems[i] > 0 ==> QueueOf(s, SemQ(i)) == [])
  }

  /** The idle task is always ready and never owns or waits for anything. */
  ghost predicate IdleOk(s: State, idle: Tid) {
    && idle in s.tasks
    && !s.tasks[idle].status.Blocked?
    && s.tasks[idle].base == IDLE_PRIORITY
    && s.tasks[idle].blockedOn.None?
    && (forall m :: m in s.mutexes ==> s.mutexes[m].owner != Some(idle))
  }

  /** The queues hold each task where it belongs, mutex waiters most urgent first. */
  ghost predicate Placed(tasks: map<Tid, Task>, queues: map<QueueId, seq<Tid>>) {
    Linked(tasks, queues) && Sorted(tasks, queues)
  }

  /** The fields of tasks and mutexes fit together and priorities are exactly inherited. */
  ghost predicate Fields(tasks: map<Tid, Task>, mutexes: map<Mid, Mutex>) {
    && Records(tasks)
    && MutexesOk(tasks, mutexes)
    && ChainVisible(tasks, mutexes)
    && AllExact(tasks, WaitGraph(tasks, mutexes))
  }

  /** The remaining parts: queues that exist, timeouts, semaphores, the idle task. */
  ghost predicate Rest(s: State, idle: Tid) {
    Shape(s) && TimeoutsOk(s) && SemsOk(s) && IdleOk(s, idle)
  }

  /** Everything that concerns tasks, queues, mutexes and semaphores, apart from the shape
      of the owned-mutex lists, on which the two readings of the lock differ. */
  ghost predicate Settled(s: State, idle: Tid) {
    Placed(s.tasks, s.queues) && Fields(s.tasks, s.mutexes) && Rest(s, idle)
  }

  /** Only the current task can be marked running. */
  ghost predicate OneRunning(s: State) {
    && (s.current.Some? ==> s.current.value in s.tasks)
    && (forall t :: t in s.tasks && s.tasks[t].status.Running? ==> s.current == Some(t))
  }

  /** No ready task is more urgent than level `p`. */
  ghost predicate MostUrgent(s: State, p: Priority) {
    forall q: Priority :: q < p ==> QueueOf(s, ReadyQ(q)) == []
  }

  /** A pended switch will bring the right task; with none pended the right task is running. */
  ghost predicate Dispatched(s: State) {
    && OneRunning(s)
    && (s.pended ==> s.current.Some? && s.next.Some? && s.next == Top(s))
    && (s.current.Some? && !s.pended ==>
          s.tasks[s.current.value].status.Running? && MostUrgent(s, s.tasks[s.current.value].prio))
  }
}
