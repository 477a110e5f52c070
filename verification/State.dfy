/** The kernel as a value: tasks, queues, mutexes, semaphores and the scheduler's
    variables, with one function for each kernel routine.  Queue contents are
    sequences here; module KernelCode shows that the intrusive linked lists
    implement them.  The list of mutexes a task owns keeps its C shape, a head in
    the task and a `next` link in each mutex, because the two readings of the
    contended lock differ exactly in how they treat those links. */
module KernelState {
  import opened Base

  type Tid = nat
  type Mid = nat
  type Sid = nat

  datatype Status = Ready | Running | Blocked

  /** Every list that shares the intrusive `next`/`prev` links. */
  datatype QueueId = ReadyQ(level: Priority) | Sleep | SemQ(sem: Sid) | MutexQ(mutex: Mid)

  datatype Task = Task(
    base: Priority,
    prio: Priority,
    status: Status,
    waitQ: Option<QueueId>,
    owned: Option<Mid>,
    blockedOn: Option<Mid>,
    wake: Word,
    result: int)

  datatype Mutex = Mutex(owner: Option<Tid>, next: Option<Mid>)

  datatype State = State(
    tasks: map<Tid, Task>,
    queues: map<QueueId, seq<Tid>>,
    timeouts: seq<Tid>,
    mutexes: map<Mid, Mutex>,
    sems: map<Sid, int>,
    current: Option<Tid>,
    next: Option<Tid>,
    pended: bool,
    tick: Word)

  /** The queue a task belongs in, given its own fields. */
  function Home(k: Task): (q: QueueId) {
    if k.status.Blocked? && k.waitQ.Some? then k.waitQ.value else ReadyQ(k.prio)
  }

  function NewTask(p: Priority): (k: Task) {
    Task(p, p, Ready, None, None, None, 0, 0)
  }

  // Total look-ups: a queue, task or mutex that does not exist reads as an empty or fresh one.

  function QueueOf(s: State, q: QueueId): (l: seq<Tid>) {
    if q in s.queues then s.queues[q] else []
  }

  function TaskOf(tasks: map<Tid, Task>, t: Tid): (k: Task) {
    if t in tasks then tasks[t] else NewTask(IDLE_PRIORITY)
  }

  function MutexOf(s: State, m: Mid): (x: Mutex) {
    if m in s.mutexes then s.mutexes[m] else Mutex(None, None)
  }

  // ----- queue operations (kernel/scheduler.c:17-125)

  function SetTask(s: State, t: Tid, k: Task): (r: State) {
    s.(tasks := s.tasks[t := k])
  }

  function SetQueue(s: State, q: QueueId, l: seq<Tid>): (r: State) {
    s.(queues := s.queues[q := l])
  }

  function Remove(s: State, q: QueueId, t: Tid): (r: State) {
    SetQueue(s, q, Without(QueueOf(s, q), t))
  }

  function Append(s: State, q: QueueId, t: Tid): (r: State) {
    SetQueue(s, q, QueueOf(s, q) + [t])
  }

  /** The first position of `l` holding a task less urgent than `p`. */
  function PriorityPos(tasks: map<Tid, Task>, l: seq<Tid>, p: Priority): (k: nat)
    ensures k <= |l|
    ensures forall j :: 0 <= j < k ==> TaskOf(tasks, l[j]).prio <= p
    ensures k < |l| ==> TaskOf(tasks, l[k]).prio > p
  {
    if l == [] || TaskOf(tasks, l[0]).prio > p then 0 else 1 + PriorityPos(tasks, l[1..], p)
  }

  function InsertByPriority(s: State, q: QueueId, t: Tid): (r: State) {
    var l := QueueOf(s, q);
    SetQueue(s, q, InsertAt(l, PriorityPos(s.tasks, l, TaskOf(s.tasks, t).prio), t))
  }

  function Rotate(s: State, t: Tid): (r: State) {
    var q := ReadyQ(TaskOf(s.tasks, t).prio);
    var l := QueueOf(s, q);
    if l == [] || l[0] != t || |l| == 1 then s else SetQueue(s, q, l[1..] + [t])
  }

  // ----- scheduling (kernel/scheduler.c:127-135, 317-330)

  /** The head of the most urgent non-empty ready queue from level `p` down. */
  function TopFrom(s: State, p: nat): (r: Option<Tid>)
    requires p <= 4
    decreases 4 - p
  {
    if p == 4 then None
    else if QueueOf(s, ReadyQ(p)) != [] then Some(QueueOf(s, ReadyQ(p))[0])
    else TopFrom(s, p + 1)
  }

  function Top(s: State): (r: Option<Tid>) {
    TopFrom(s, 0)
  }

  function Schedule(s: State): (r: State) {
    s.(next := Top(s))
  }

  /** `os_schedule(); if (g_next != g_current) os_port_pendsv_trigger();` */
  function Reschedule(s: State): (r: State) {
    Schedule(s).(pended := s.pended || Top(s) != s.current)
  }

  /** A running task that is being switched away from becomes ready. */
  function Demote(s: State): (r: State) {
    if s.current.Some? && s.current != s.next && TaskOf(s.tasks, s.current.value).status.Running?
    then SetTask(s, s.current.value, TaskOf(s.tasks, s.current.value).(status := Ready)) else s
  }

  function Commit(s: State): (r: State) {
    if s.next.None? then s.(pended := false)
    else
      var a := Demote(s);
      SetTask(a, s.next.value, TaskOf(a.tasks, s.next.value).(status := Running))
        .(current := s.next, pended := false)
  }

  // ----- timeouts (kernel/scheduler.c:139-233)

  /** `(int32_t)(now - wake) >= 0` on 32-bit words. */
  predicate TickReached(now: Word, wake: Word) {
    (now - wake) % 0x1_0000_0000 < 0x8000_0000
  }

  /** The first position of `l` holding a task that wakes no sooner than `wake`. */
  function TimeoutPos(tasks: map<Tid, Task>, l: seq<Tid>, wake: Word): (k: nat)
    ensures k <= |l|
    ensures forall j :: 0 <= j < k ==> !TickReached(TaskOf(tasks, l[j]).wake, wake)
    ensures k < |l| ==> TickReached(TaskOf(tasks, l[k]).wake, wake)
  {
    if l == [] || TickReached(TaskOf(tasks, l[0]).wake, wake) then 0 else 1 + TimeoutPos(tasks, l[1..], wake)
  }

  function TimeoutInsert(s: State, t: Tid): (r: State) {
    s.(timeouts := InsertAt(s.timeouts, TimeoutPos(s.tasks, s.timeouts, TaskOf(s.tasks, t).wake), t))
  }

  function TimeoutRemove(s: State, t: Tid): (r: State) {
    s.(timeouts := Without(s.timeouts, t))
  }

  /** The fields a task gets when it leaves a wait queue with result `code`. */
  function Woken(k: Task, code: int): (r: Task) {
    k.(waitQ := None, wake := WAIT_FOREVER, result := code, status := Ready)
  }

  /** One turn of the loop in `os_process_timeouts`, applied to the head of the timeout queue. */
  function ExpireHead(s: State): (r: State)
    requires s.timeouts != []
    ensures r.timeouts == s.timeouts[1..] && r.tick == s.tick
  {
    var t := s.timeouts[0];
    var k := TaskOf(s.tasks, t);
    var a := TimeoutRemove(s, t);
    var b := if k.waitQ.Some? then Remove(a, k.waitQ.value, t) else a;
    Append(SetTask(b, t, Woken(k, -1)), ReadyQ(k.prio), t)
  }

  function Expire(s: State): (r: State)
    decreases |s.timeouts|
  {
    if s.timeouts != [] && TickReached(s.tick, TaskOf(s.tasks, s.timeouts[0]).wake)
    then Expire(ExpireHead(s)) else s
  }

  function ProcessTimeouts(s: State): (r: State) {
    Reschedule(Expire(s))
  }

  // ----- blocking, waking, priorities (kernel/scheduler.c:237-315)

  /** The record of a task that waits in `q`. */
  function Parked(k: Task, q: QueueId): (r: Task) {
    k.(status := Blocked, waitQ := Some(q), wake := WAIT_FOREVER, result := 0)
  }

  /** Move `c` from its ready queue into `q`. */
  function EnterQueue(s: State, c: Tid, q: QueueId, byPriority: bool): (r: State) {
    var k := TaskOf(s.tasks, c);
    var a := SetTask(Remove(s, ReadyQ(k.prio), c), c, Parked(k, q));
    if byPriority then InsertByPriority(a, q, c) else Append(a, q, c)
  }

  /** Note when `c` is to wake, and queue it accordingly. */
  function ArmTimeout(s: State, c: Tid, ticks: Word): (r: State) {
    TimeoutInsert(SetTask(s, c, TaskOf(s.tasks, c).(wake := (s.tick + ticks) % 0x1_0000_0000)), c)
  }

  /** `os_task_block_locked` before it reschedules. */
  function Park(s: State, c: Tid, q: QueueId, ticks: Word, byPriority: bool): (r: State) {
    var d := EnterQueue(s, c, q, byPriority);
    if ticks == WAIT_FOREVER then d else ArmTimeout(d, c, ticks)
  }

  function Block(s: State, q: QueueId, ticks: Word, byPriority: bool): (r: State) {
    if s.current.None? then s else Reschedule(Park(s, s.current.value, q, ticks, byPriority))
  }

  /** `os_task_wake_one_locked`; the task woken is the head of `q` before the call. */
  function WakeOne(s: State, q: QueueId): (r: State) {
    if QueueOf(s, q) == [] then s
    else
      var t := QueueOf(s, q)[0];
      var k := TaskOf(s.tasks, t);
      var a := Remove(s, q, t);
      var b := if k.wake != WAIT_FOREVER then TimeoutRemove(a, t) else a;
      Append(SetTask(b, t, Woken(k, 0)), ReadyQ(k.prio), t)
  }

  function SetPriority(s: State, t: Tid, p: Priority): (r: State) {
    var k := TaskOf(s.tasks, t);
    if !k.status.Blocked? then
      Append(SetTask(Remove(s, ReadyQ(k.prio), t), t, k.(prio := p)), ReadyQ(p), t)
    else if k.waitQ.Some? then
      InsertByPriority(Remove(SetTask(s, t, k.(prio := p)), k.waitQ.value, t), k.waitQ.value, t)
    else
      SetTask(s, t, k.(prio := p))
  }

  // ----- mutexes (kernel/mutex.c)

  function SetMutex(s: State, m: Mid, x: Mutex): (r: State) {
    s.(mutexes := s.mutexes[m := x])
  }

  function AddToOwned(s: State, t: Tid, m: Mid): (r: State) {
    var k := TaskOf(s.tasks, t);
    SetTask(SetMutex(s, m, MutexOf(s, m).(next := k.owned)), t, k.(owned := Some(m)))
  }

  /** The mutexes met by following `next` links from `h`, each taken from `left` at
      most once; on an acyclic list inside `left` this is the whole list. */
  function Follow(mutexes: map<Mid, Mutex>, h: Option<Mid>, left: set<Mid>): (l: seq<Mid>)
    requires left <= mutexes.Keys
    ensures forall m :: m in l ==> m in left
    ensures NoDup(l)
    ensures l != [] ==> h == Some(l[0])
    decreases left
  {
    if h.None? || h.value !in left then []
    else [h.value] + Follow(mutexes, mutexes[h.value].next, left - {h.value})
  }

  function OwnedList(s: State, t: Tid): (l: seq<Mid>)
    ensures NoDup(l) && forall m :: m in l ==> m in s.mutexes
  {
    Follow(s.mutexes, TaskOf(s.tasks, t).owned, s.mutexes.Keys)
  }

  function RemoveFromOwned(s: State, t: Tid, m: Mid): (r: State) {
    var l := OwnedList(s, t);
    if m !in l then s
    else
      var i := IndexOf(l, m);
      var after := MutexOf(s, m).next;
      var a := if i == 0 then SetTask(s, t, TaskOf(s.tasks, t).(owned := after))
        else SetMutex(s, l[i - 1], MutexOf(s, l[i - 1]).(next := after));
      SetMutex(a, m, MutexOf(a, m).(next := None))
  }

  /** The loop of `os_mutex_recompute_priority` over the mutexes in `l`. */
  function MinHeads(s: State, l: seq<Mid>, acc: Priority): (p: Priority) {
    if l == [] then acc
    else
      var w := QueueOf(s, MutexQ(l[0]));
      var here := if w != [] && TaskOf(s.tasks, w[0]).prio < acc then TaskOf(s.tasks, w[0]).prio else acc;
      MinHeads(s, l[1..], here)
  }

  function Recompute(s: State, t: Tid): (p: Priority) {
    MinHeads(s, OwnedList(s, t), TaskOf(s.tasks, t).base)
  }

  /** Tasks the inheritance walk can still raise to level `p`. */
  ghost function LessUrgent(tasks: map<Tid, Task>, p: Priority): (r: set<Tid>) {
    set t | t in tasks && tasks[t].prio > p
  }

  /** The owner the walk goes to after `o`, if it goes on. */
  function NextOwner(s: State, o: Tid): (r: Option<Tid>) {
    var k := TaskOf(s.tasks, o);
    if k.status.Blocked? && k.blockedOn.Some? then MutexOf(s, k.blockedOn.value).owner else None
  }

  /** The walk of kernel/mutex.c:45-53: raise `o`, then the owner of the mutex it is
      blocked on, and so on while the owner is less urgent than `p`.  It ends for
      every wait graph, deadlocked ones included. */
  function Boost(s: State, p: Priority, o: Option<Tid>): (r: State)
    decreases LessUrgent(s.tasks, p)
  {
    if o.None? || o.value !in s.tasks || s.tasks[o.value].prio <= p then s
    else
      var a := SetPriority(s, o.value, p);
      assert LessUrgent(a.tasks, p) < LessUrgent(s.tasks, p) by {
        assert a.tasks == s.tasks[o.value := s.tasks[o.value].(prio := p)];
        assert o.value in LessUrgent(s.tasks, p) && o.value !in LessUrgent(a.tasks, p);
      }
      Boost(a, p, NextOwner(a, o.value))
  }

  predicate Contended(s: State, m: Mid) {
    MutexOf(s, m).owner.Some? && MutexOf(s, m).owner != s.current
  }

  /** kernel/mutex.c:20-55, up to and including the call that blocks. */
  function LockCall(s: State, m: Mid): (r: State) {
    if s.current.None? || (MutexOf(s, m).owner == s.current) then s
    else
      var c := s.current.value;
      if MutexOf(s, m).owner.None? then
        AddToOwned(SetMutex(s, m, MutexOf(s, m).(owner := Some(c))), c, m)
      else
        var a := SetTask(s, c, TaskOf(s.tasks, c).(blockedOn := Some(m)));
        var b := Boost(a, TaskOf(s.tasks, c).prio, MutexOf(s, m).owner);
        Block(b, MutexQ(m), WAIT_FOREVER, true)
  }

  /** kernel/mutex.c:57-58, for the task that is `current`. */
  function LockResume(s: State, m: Mid): (r: State) {
    if s.current.None? then s
    else
      var c := s.current.value;
      AddToOwned(SetTask(s, c, TaskOf(s.tasks, c).(blockedOn := None)), c, m)
  }

  /** The whole of `os_kernel_mutex_lock` in one go: the switch is only pended, so
      lines 57-58 run before it and still on behalf of the caller. */
  function LockExecuted(s: State, m: Mid): (r: State) {
    if Contended(s, m) then LockResume(LockCall(s, m), m) else LockCall(s, m)
  }

  function Unlock(s: State, m: Mid): (r: State) {
    if s.current.None? || MutexOf(s, m).owner != s.current then s
    else
      var c := s.current.value;
      var a := RemoveFromOwned(s, c, m);
      var b := SetPriority(a, c, Recompute(a, c));
      var d := WakeOne(b, MutexQ(m));
      var w := QueueOf(b, MutexQ(m));
      if w == [] then SetMutex(d, m, MutexOf(d, m).(owner := None))
      else Reschedule(SetMutex(d, m, MutexOf(d, m).(owner := Some(w[0]))))
  }

  // ----- semaphores (kernel/semaphore.c)

  function CountOf(s: State, i: Sid): (n: int) {
    if i in s.sems then s.sems[i] else 0
  }

  function SemTake(s: State, i: Sid): (r: State) {
    if CountOf(s, i) > 0 then s.(sems := s.sems[i := CountOf(s, i) - 1])
    else Block(s, SemQ(i), WAIT_FOREVER, false)
  }

  function SemGive(s: State, i: Sid): (r: State) {
    if QueueOf(s, SemQ(i)) == [] then s.(sems := s.sems[i := CountOf(s, i) + 1])
    else Reschedule(WakeOne(s, SemQ(i)))
  }

  // ----- yield, delay, tick, creation (kernel/task.c, kernel/tick.c)

  function RotateCurrent(s: State): (r: State) {
    if s.current.Some? then Rotate(s, s.current.value) else s
  }

  function Yield(s: State): (r: State) {
    Schedule(RotateCurrent(s)).(pended := true)
  }

  function Delay(s: State, ticks: Word): (r: State) {
    if ticks == 0 then Yield(s) else Block(s, Sleep, ticks, false)
  }

  function Tick(s: State): (r: State) {
    Reschedule(RotateCurrent(ProcessTimeouts(s.(tick := (s.tick + 1) % 0x1_0000_0000))))
  }

  /** `os_kernel_task_create` once its allocations have succeeded. */
  function Create(s: State, t: Tid, p: Priority): (r: State) {
    var a := Schedule(Append(SetTask(s, t, NewTask(p)), ReadyQ(p), t));
    a.(pended := a.pended || (a.current.Some? && a.next != a.current))
  }

  /** `os_start`: choose the first task and pend the switch to it. */
  function Start(s: State): (r: State) {
    s.(next := Top(s), current := Top(s), pended := s.pended || Top(s).Some?)
  }

  /** `os_mutex_init`, which leaves the `next` link as it finds it. */
  function NewMutex(s: State, m: Mid, link: Option<Mid>): (r: State) {
    SetQueue(SetMutex(s, m, Mutex(None, link)), MutexQ(m), [])
  }

  function NewSem(s: State, i: Sid, n: nat): (r: State) {
    SetQueue(s.(sems := s.sems[i := n]), SemQ(i), [])
  }

  /** Kernel memory as it is cleared at reset. */
  function Cleared(): (s: State) {
    State(map[], map[ReadyQ(0) := [], ReadyQ(1) := [], ReadyQ(2) := [], ReadyQ(3) := [], Sleep := []],
          [], map[], map[], None, None, false, 0)
  }
}
