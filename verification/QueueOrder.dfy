/** What one step of the kernel does to the order of every queue, to the timeouts, to the choice
    of what runs next and to the records of the tasks, said without the routines. */
module QueueOrder {
  import opened Base
  import opened KernelState
  import opened Machine
  import opened StepChanges

  // ----- sequences

  /** `l` without the tasks in `gone`. */
  function Minus(l: seq<Tid>, gone: set<Tid>): (r: seq<Tid>) {
    if l == [] then [] else if l[0] in gone then Minus(l[1..], gone) else [l[0]] + Minus(l[1..], gone)
  }

  /** The tasks of `l` that have priority `p`. */
  function AtLevel(tasks: map<Tid, Task>, l: seq<Tid>, p: Priority): (r: seq<Tid>) {
    if l == [] then []
    else if TaskOf(tasks, l[0]).prio == p then [l[0]] + AtLevel(tasks, l[1..], p) else AtLevel(tasks, l[1..], p)
  }

  ghost function Elements(l: seq<Tid>): (r: set<Tid>) {
    set t | t in l
  }

  /** `l` after `t` has had its turn: if it comes first it goes last. */
  function Turned(l: seq<Tid>, t: Option<Tid>): (r: seq<Tid>) {
    if l != [] && t == Some(l[0]) then l[1..] + [l[0]] else l
  }

  // ----- queues

  /** Whether step `e` is a turn: the current task goes to the end of its level. */
  predicate IsTurn(e: Event) {
    e.YieldCall? || (e.DelayCall? && e.ticks == 0)
  }

  /** Where a task that a step makes ready, or creates, is appended. */
  function Arrival(s: State, e: Event, q: QueueId): (l: seq<Tid>) {
    if e.CreateTask? then (if q == ReadyQ(e.prio) then [e.task] else [])
    else if Mover(s, e).None? then []
    else
      var mv := Mover(s, e).value;
      if mv.to == Some(q) || (mv.to.None? && q == ReadyQ(TaskOf(s.tasks, mv.task).prio)) then [mv.task] else []
  }

  /** Queue `q` after any step but a tick, a contended lock and an unlock by the owner: a task that
      leaves is taken out, one that arrives comes last, and nobody else moves. */
  function QueueAfter(s: State, e: Event, q: QueueId): (l: seq<Tid>) {
    var l := QueueOf(s, q);
    if IsTurn(e) then (if q.ReadyQ? then Turned(l, s.current) else l)
    else Minus(l, if Mover(s, e).Some? then {Mover(s, e).value.task} else {}) + Arrival(s, e, q)
  }

  /** An unlock of `m` by its owner `c`: `c` goes last at the priority it now has, and after it the
      heir, if there is one, goes last at its own. */
  function QueueAfterUnlock(s: State, r: State, c: Tid, m: Mid, q: QueueId): (l: seq<Tid>) {
    var w := QueueOf(s, MutexQ(m));
    Minus(QueueOf(s, q), {c} + if w == [] then {} else {w[0]})
      + (if q == ReadyQ(TaskOf(r.tasks, c).prio) then [c] else [])
      + (if w != [] && q == ReadyQ(TaskOf(s.tasks, w[0]).prio) then [w[0]] else [])
  }

  /** How many sleepers a step has woken. */
  function WokenCount(s: State, r: State): (k: nat) {
    if |r.timeouts| <= |s.timeouts| then |s.timeouts| - |r.timeouts| else 0
  }

  /** A tick: the sleepers that are due, the first `k` of them, wake in order and go last at their
      level; then the current task has had its turn. */
  ghost predicate TickQueues(s: State, r: State) {
    var k := WokenCount(s, r);
    var woken := s.timeouts[..k];
    && r.timeouts == s.timeouts[k..]
    && (forall i :: 0 <= i < k ==> TickReached(r.tick, TaskOf(s.tasks, s.timeouts[i]).wake))
    && (k < |s.timeouts| ==> !TickReached(r.tick, TaskOf(s.tasks, s.timeouts[k]).wake))
    && (forall p: Priority :: QueueOf(r, ReadyQ(p)) == Turned(QueueOf(s, ReadyQ(p)) + AtLevel(s.tasks, woken, p), s.current))
    && (forall q :: q in s.queues && !q.ReadyQ? ==> QueueOf(r, q) == Minus(QueueOf(s, q), Elements(woken)))
  }

  /** The tasks whose priority a step has changed. */
  ghost function Raised(s: State, r: State): (t: set<Tid>) {
    set t | t in s.tasks && TaskOf(r.tasks, t).prio != s.tasks[t].prio
  }

  /** In `l` every task of `moved` comes after all tasks at least as urgent as `p` that are not in
      `moved`, and before all that are less urgent. */
  ghost predicate BehindEquals(tasks: map<Tid, Task>, l: seq<Tid>, moved: set<Tid>, p: Priority) {
    forall i, j :: 0 <= i < j < |l| ==>
      && (l[j] in moved ==> TaskOf(tasks, l[i]).prio <= p)
      && (l[i] in moved && l[j] !in moved ==> TaskOf(tasks, l[j]).prio > p)
  }

  /** A task of `moved` comes after tasks at least as urgent as `p` only, and right before one that is
      less urgent, if before any. */
  ghost predicate BeforeLess(tasks: map<Tid, Task>, l: seq<Tid>, moved: set<Tid>, p: Priority) {
    && (forall i, j :: 0 <= i < j < |l| && l[j] in moved ==> TaskOf(tasks, l[i]).prio <= p)
    && (forall j :: 0 <= j < |l| - 1 && l[j] in moved ==> TaskOf(tasks, l[j + 1]).prio > p)
  }

  /** A contended lock of `m` by `c`, at priority `p`: the tasks it raises, and `c`, move, and nobody
      else does.  A raised task that can run goes last in its new level; one that waits, and `c`
      itself in the queue of `m`, goes behind its equals. */
  ghost predicate LockQueues(s: State, r: State, c: Tid, m: Mid)
    requires c in s.tasks
  {
    var p, moved := s.tasks[c].prio, Raised(s, r) + {c};
    && (forall q :: q in s.queues ==> Minus(QueueOf(r, q), moved) == Minus(QueueOf(s, q), moved))
    && (forall l: Priority :: Minus(QueueOf(s, ReadyQ(l)), moved) <= QueueOf(r, ReadyQ(l)))
    && (forall n :: n in s.mutexes ==> BehindEquals(r.tasks, QueueOf(r, MutexQ(n)), moved, p))
    && (forall i :: i in s.sems ==> BeforeLess(r.tasks, QueueOf(r, SemQ(i)), moved, p))
    && BeforeLess(r.tasks, QueueOf(r, Sleep), moved, p)
    && var l := QueueOf(r, MutexQ(m)); forall i, j :: 0 <= i < j < |l| && l[i] == c ==> TaskOf(r.tasks, l[j]).prio > p
  }

  /** After a delay of `n` ticks `c` is the `k`th in the timeout queue, right before the first that
      wakes no sooner. */
  ghost predicate DelayAt(s: State, r: State, c: Tid, n: Word, k: nat)
    requires k <= |s.timeouts|
  {
    var w: Word := (s.tick + n) % 0x1_0000_0000;
    && r.timeouts == s.timeouts[..k] + [c] + s.timeouts[k..]
    && (forall i :: 0 <= i < k ==> !TickReached(TaskOf(s.tasks, s.timeouts[i]).wake, w))
    && (k < |s.timeouts| ==> TickReached(TaskOf(s.tasks, s.timeouts[k]).wake, w))
  }

  ghost predicate DelayTimeouts(s: State, r: State, c: Tid, n: Word) {
    exists k: nat :: k <= |s.timeouts| && DelayAt(s, r, c, n, k)
  }

  /** Whether `e` unlocks a mutex that the current task owns. */
  predicate ByOwner(s: State, e: Event) {
    e.UnlockMutex? && s.current.Some? && MutexOf(s, e.mutex).owner == s.current
  }

  predicate Contends(s: State, e: Event) {
    e.LockMutex? && s.current.Some? && Contended(s, e.mutex)
  }

  /** What `e` does to all queues that exist, and to the timeouts. */
  ghost predicate Ordered(s: State, r: State, e: Event) {
    && (if e.TickInterrupt? then TickQueues(s, r)
        else if Contends(s, e) then s.current.value in s.tasks && LockQueues(s, r, s.current.value, e.mutex)
        else if ByOwner(s, e) then forall q :: q in s.queues ==> QueueOf(r, q) == QueueAfterUnlock(s, r, s.current.value, e.mutex, q)
        else forall q :: q in s.queues ==> QueueOf(r, q) == QueueAfter(s, e, q))
    && (if e.DelayCall? && e.ticks != 0 && e.ticks != WAIT_FOREVER then s.current.Some? && DelayTimeouts(s, r, s.current.value, e.ticks)
        else e.TickInterrupt? || r.timeouts == s.timeouts)
    && (e.InitMutex? ==> QueueOf(r, MutexQ(e.mutex)) == []) && (e.InitSem? ==> QueueOf(r, SemQ(e.sem)) == [])
  }

  // ----- the choice

  /** Steps that do not ask what is to run next. */
  predicate Leaves(s: State, e: Event) {
    || e.ResumeLock? || e.InitMutex? || e.InitSem?
    || (e.TakeCall? && Mover(s, e).None?) || (e.GiveCall? && Mover(s, e).None?)
    || (e.LockMutex? && Mover(s, e).None?) || (e.UnlockMutex? && Mover(s, e).None?)
  }

  /** Who is current, who is next and whether a switch is pended. */
  ghost predicate Chosen(s: State, r: State, e: Event) {
    if e.SwitchContext? then
      !r.pended && r.next == s.next && r.current == if s.next.Some? then s.next else s.current
    else if e.StartKernel? then
      r.next == Top(r) && r.current == Top(r) && r.pended == (s.pended || Top(r).Some?)
    else if Leaves(s, e) then r.next == s.next && r.current == s.current && r.pended == s.pended
    else
      && r.current == s.current && r.next == Top(r)
      && r.pended == (s.pended || IsTurn(e) || (s.current.Some? && Top(r) != s.current))
  }

  // ----- the records

  /** The state of a task, its result and its wake-up tick after the step. */
  ghost predicate RecordAfter(s: State, r: State, e: Event, t: Tid)
    requires t in s.tasks && t in r.tasks
  {
    var k, k' := s.tasks[t], r.tasks[t];
    if Mover(s, e).Some? && Mover(s, e).value.task == t then
      if Mover(s, e).value.to.Some? then
        && k'.status.Blocked? && k'.result == 0
        && k'.wake == if e.DelayCall? && e.ticks != WAIT_FOREVER then (s.tick + e.ticks) % 0x1_0000_0000 else WAIT_FOREVER
      else k'.status.Ready? && k'.result == 0 && k'.wake == WAIT_FOREVER
    else if e.TickInterrupt? && t in s.timeouts && t !in r.timeouts then
      k'.status.Ready? && k'.result == -1 && k'.wake == WAIT_FOREVER && k'.waitQ.None?
    else
      && k'.result == k.result && k'.wake == k.wake && k'.waitQ == k.waitQ
      && k'.status == if e.SwitchContext? && s.next == Some(t) then Running
                      else if e.SwitchContext? && s.next.Some? && s.current == Some(t) && k.status.Running? then Ready else k.status
  }

  /** Bases never change; priorities do only in a contended lock, which raises to the caller's, and
      for the caller of an unlock. */
  ghost predicate PriorityAfter(s: State, r: State, e: Event, t: Tid)
    requires t in s.tasks && t in r.tasks
  {
    && r.tasks[t].base == s.tasks[t].base
    && (r.tasks[t].prio == s.tasks[t].prio
        || (Contends(s, e) && s.current.value in s.tasks && s.current != Some(t)
            && s.tasks[t].prio > s.tasks[s.current.value].prio == r.tasks[t].prio)
        || (ByOwner(s, e) && s.current == Some(t)))
  }

  ghost predicate Recorded(s: State, r: State, e: Event) {
    && r.tasks.Keys == s.tasks.Keys + (if e.CreateTask? then {e.task} else {})
    && (forall t :: t in s.tasks ==> RecordAfter(s, r, e, t) && PriorityAfter(s, r, e, t))
    && (e.CreateTask? ==> TaskOf(r.tasks, e.task) == Task(e.prio, e.prio, Ready, None, None, None, 0, 0))
    && r.tick == if e.TickInterrupt? then (s.tick + 1) % 0x1_0000_0000 else s.tick
  }

  // ----- about sequences

  lemma {:induction false} MinusMembers(l: seq<Tid>, gone: set<Tid>)
    ensures forall t :: t in Minus(l, gone) <==> t in l && t !in gone
  {
    if l != [] {
      MinusMembers(l[1..], gone);
      assert l == [l[0]] + l[1..];
    }
  }

  lemma {:induction false} MinusPlus(a: seq<Tid>, b: seq<Tid>, gone: set<Tid>)
    ensures Minus(a + b, gone) == Minus(a, gone) + Minus(b, gone)
    decreases |a|
  {
    if a == [] {
      assert a + b == b;
    } else {
      assert (a + b)[1..] == a[1..] + b;
      MinusPlus(a[1..], b, gone);
    }
  }

  lemma {:induction false} MinusAbsent(l: seq<Tid>, gone: set<Tid>)
    requires forall t :: t in gone ==> t !in l
    ensures Minus(l, gone) == l
  {
    if l != [] {
      assert l[0] in l && forall t :: t in l[1..] ==> t in l;
      MinusAbsent(l[1..], gone);
    }
  }

  lemma IndexTail(l: seq<Tid>, t: Tid)
    requires t in l && l[0] != t
    ensures t in l[1..] && IndexOf(l, t) == 1 + IndexOf(l[1..], t)
  {
  }

  lemma NotInTail(l: seq<Tid>, t: Tid)
    requires l != [] && t !in l
    ensures t !in l[1..] && l == [l[0]] + l[1..]
  {
  }

  lemma SplitFirst(l: seq<Tid>, i: nat)
    requires 0 < i < |l|
    ensures l[..i] + l[i + 1..] == [l[0]] + (l[1..][..i - 1] + l[1..][i..])
  {
  }

  lemma WithoutFirst(l: seq<Tid>, t: Tid)
    requires l != []
    ensures Without(l, t) == if l[0] == t then l[1..] else [l[0]] + Without(l[1..], t)
  {
    hide IndexOf;
    if t !in l {
      NotInTail(l, t);
    } else if l[0] != t {
      IndexTail(l, t);
      SplitFirst(l, IndexOf(l, t));
    } else {
      FirstIndex(l);
    }
  }

  lemma FirstIndex(l: seq<Tid>)
    requires l != []
    ensures IndexOf(l, l[0]) == 0 && l[..0] + l[1..] == l[1..]
  {
  }

  /** Taking one task out of a queue without duplicates. */
  lemma {:induction false} MinusOne(l: seq<Tid>, t: Tid)
    requires NoDup(l)
    ensures Minus(l, {t}) == Without(l, t)
  {
    hide Without;
    if l == [] {
      EmptyWithout(t);
    } else {
      WithoutFirst(l, t);
      if l[0] == t {
        MinusAbsent(l[1..], {t});
      } else {
        MinusOne(l[1..], t);
      }
    }
  }

  lemma EmptyWithout(t: Tid)
    ensures Without([], t) == []
  {
  }

  /** Taking a task out first makes no difference if it goes anyway. */
  lemma {:induction false} MinusWithout(l: seq<Tid>, t: Tid, gone: set<Tid>)
    requires t in gone
    ensures Minus(Without(l, t), gone) == Minus(l, gone)
  {
    hide Without;
    if l == [] {
      EmptyWithout(t);
    } else {
      WithoutFirst(l, t);
      if l[0] != t {
        MinusWithout(l[1..], t, gone);
        assert ([l[0]] + Without(l[1..], t))[1..] == Without(l[1..], t);
      }
    }
  }

  lemma {:induction false} MinusTwice(l: seq<Tid>, a: set<Tid>, b: set<Tid>)
    ensures Minus(Minus(l, a), b) == Minus(l, a + b)
  {
    if l != [] {
      MinusTwice(l[1..], a, b);
      if l[0] !in a {
        assert ([l[0]] + Minus(l[1..], a))[1..] == Minus(l[1..], a);
      }
    }
  }

  lemma {:induction false} AtLevelSame(tasks: map<Tid, Task>, tasks': map<Tid, Task>, l: seq<Tid>, p: Priority)
    requires forall t :: t in l ==> TaskOf(tasks', t).prio == TaskOf(tasks, t).prio
    ensures AtLevel(tasks', l, p) == AtLevel(tasks, l, p)
  {
    if l != [] {
      assert forall t :: t in l[1..] ==> t in l;
      AtLevelSame(tasks, tasks', l[1..], p);
    }
  }
}
