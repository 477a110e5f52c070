/** Moving one task from queue to queue keeps every other task in place. */
module Structure {
  import opened Base
  import opened KernelState
  import opened Invariants

  /** `Linked`, except that `x` is in no queue. */
  ghost predicate Detached(tasks: map<Tid, Task>, queues: map<QueueId, seq<Tid>>, x: Tid) {
    && (forall q, t :: q in queues && t in queues[q] ==> t != x && t in tasks && Home(tasks[t]) == q)
    && (forall t :: t in tasks && t != x ==> Home(tasks[t]) in queues && t in queues[Home(tasks[t])])
    && (forall q :: q in queues ==> NoDup(queues[q]))
  }

  lemma Detach(tasks: map<Tid, Task>, queues: map<QueueId, seq<Tid>>, x: Tid)
    requires Linked(tasks, queues) && x in tasks
    ensures var q := Home(tasks[x]); Detached(tasks, queues[q := Without(queues[q], x)], x)
  {
    WithoutMembers(queues[Home(tasks[x])], x);
  }

  lemma Attach(tasks: map<Tid, Task>, queues: map<QueueId, seq<Tid>>, x: Tid, k: nat)
    requires Detached(tasks, queues, x) && x in tasks && Home(tasks[x]) in queues
    requires k <= |queues[Home(tasks[x])]|
    ensures var q := Home(tasks[x]); Linked(tasks, queues[q := InsertAt(queues[q], k, x)])
  {
    InsertAtMembers(queues[Home(tasks[x])], k, x);
  }

  lemma AppendIsInsert(l: seq<Tid>, x: Tid)
    ensures InsertAt(l, |l|, x) == l + [x]
  {
  }

  /** Insertion by priority keeps a sorted queue sorted, with `x` after its equals. */
  lemma InsertSorted(tasks: map<Tid, Task>, l: seq<Tid>, x: Tid)
    requires SortedBy(tasks, l)
    ensures var k := PriorityPos(tasks, l, TaskOf(tasks, x).prio);
      SortedBy(tasks, InsertAt(l, k, x))
  {
  }

  lemma WithoutSorted(tasks: map<Tid, Task>, l: seq<Tid>, x: Tid)
    requires SortedBy(tasks, l)
    ensures SortedBy(tasks, Without(l, x))
  {
  }

  lemma SortedFrame(before: map<Tid, Task>, after: map<Tid, Task>, l: seq<Tid>)
    requires SortedBy(before, l)
    requires forall t :: t in l ==> TaskOf(after, t).prio == TaskOf(before, t).prio
    ensures SortedBy(after, l)
  {
  }

  /** The queues after `x` is taken out, given record `k` and put at index `i` of the queue `k` names. */
  ghost function Moved(tasks: map<Tid, Task>, queues: map<QueueId, seq<Tid>>, x: Tid, k: Task, i: nat)
    : (r: map<QueueId, seq<Tid>>)
    requires x in tasks && Home(tasks[x]) in queues && Home(k) in queues
    requires i <= |Taken(tasks, queues, x)[Home(k)]|
  {
    var mid := Taken(tasks, queues, x);
    mid[Home(k) := InsertAt(mid[Home(k)], i, x)]
  }

  ghost function Taken(tasks: map<Tid, Task>, queues: map<QueueId, seq<Tid>>, x: Tid)
    : (r: map<QueueId, seq<Tid>>)
    requires x in tasks && Home(tasks[x]) in queues
    ensures r.Keys == queues.Keys
  {
    queues[Home(tasks[x]) := Without(queues[Home(tasks[x])], x)]
  }

  lemma MoveLinked(tasks: map<Tid, Task>, queues: map<QueueId, seq<Tid>>, x: Tid, k: Task, i: nat)
    requires Linked(tasks, queues) && x in tasks && Home(k) in queues
    requires i <= |Taken(tasks, queues, x)[Home(k)]|
    ensures Linked(tasks[x := k], Moved(tasks, queues, x, k, i))
  {
    Detach(tasks, queues, x);
    assert Detached(tasks[x := k], Taken(tasks, queues, x), x);
    Attach(tasks[x := k], Taken(tasks, queues, x), x, i);
  }

  lemma MoveSorted(tasks: map<Tid, Task>, queues: map<QueueId, seq<Tid>>, x: Tid, k: Task, i: nat)
    requires Linked(tasks, queues) && Sorted(tasks, queues) && x in tasks && Home(k) in queues
    requires i <= |Taken(tasks, queues, x)[Home(k)]|
    requires Home(k).MutexQ? ==> i == PriorityPos(tasks[x := k], Taken(tasks, queues, x)[Home(k)], k.prio)
    ensures Sorted(tasks[x := k], Moved(tasks, queues, x, k, i))
  {
    var mid := Taken(tasks, queues, x);
    Detach(tasks, queues, x);
    forall m | MutexQ(m) in queues
      ensures SortedBy(tasks[x := k], Moved(tasks, queues, x, k, i)[MutexQ(m)])
    {
      WithoutSorted(tasks, queues[MutexQ(m)], x);
      SortedFrame(tasks, tasks[x := k], mid[MutexQ(m)]);
      InsertSorted(tasks[x := k], mid[MutexQ(m)], x);
    }
  }

  /** Both facts about a move. */
  lemma Move(tasks: map<Tid, Task>, queues: map<QueueId, seq<Tid>>, x: Tid, k: Task, i: nat)
    requires Linked(tasks, queues) && Sorted(tasks, queues) && x in tasks && Home(k) in queues
    requires i <= |Taken(tasks, queues, x)[Home(k)]|
    requires Home(k).MutexQ? ==> i == PriorityPos(tasks[x := k], Taken(tasks, queues, x)[Home(k)], k.prio)
    ensures Linked(tasks[x := k], Moved(tasks, queues, x, k, i))
    ensures Sorted(tasks[x := k], Moved(tasks, queues, x, k, i))
    ensures Moved(tasks, queues, x, k, i).Keys == queues.Keys
  {
    MoveLinked(tasks, queues, x, k, i);
    MoveSorted(tasks, queues, x, k, i);
  }

  // ----- parking, waking and changing priority are moves

  lemma EnterMoves(s: State, c: Tid, q: QueueId, byPriority: bool)
    requires Linked(s.tasks, s.queues) && Sorted(s.tasks, s.queues)
    requires c in s.tasks && !s.tasks[c].status.Blocked?
    requires q in s.queues && !q.ReadyQ? && (q.MutexQ? ==> byPriority)
    ensures var r := EnterQueue(s, c, q, byPriority);
      && r.tasks == s.tasks[c := Parked(s.tasks[c], q)]
      && r == s.(tasks := r.tasks, queues := r.queues)
      && Linked(r.tasks, r.queues) && Sorted(r.tasks, r.queues) && r.queues.Keys == s.queues.Keys
      && (forall x :: x in s.queues && x != q && x != ReadyQ(s.tasks[c].prio) ==> r.queues[x] == s.queues[x])
  {
    var k := Parked(s.tasks[c], q);
    var mid := Taken(s.tasks, s.queues, c);
    var i := if byPriority then PriorityPos(s.tasks[c := k], mid[q], k.prio) else |mid[q]|;
    AppendIsInsert(mid[q], c);
    Move(s.tasks, s.queues, c, k, i);
  }

  /** Only `wake` and the timeout queue change when a timeout is armed. */
  lemma ArmMoves(s: State, c: Tid, ticks: Word)
    requires Linked(s.tasks, s.queues) && Sorted(s.tasks, s.queues) && c in s.tasks
    ensures var r := ArmTimeout(s, c, ticks); var k := s.tasks[c];
      && r.tasks == s.tasks[c := k.(wake := (s.tick + ticks) % 0x1_0000_0000)]
      && r == s.(tasks := r.tasks, timeouts := r.timeouts)
      && Linked(r.tasks, r.queues) && Sorted(r.tasks, r.queues)
  {
    var r := ArmTimeout(s, c, ticks);
    forall m | MutexQ(m) in s.queues
      ensures SortedBy(r.tasks, s.queues[MutexQ(m)])
    {
      SortedFrame(s.tasks, r.tasks, s.queues[MutexQ(m)]);
    }
  }

  /** A blocked task leaves its wait queue for the ready queue of its priority. */
  lemma WakeMoves(s: State, t: Tid, code: int)
    requires Linked(s.tasks, s.queues) && Sorted(s.tasks, s.queues) && Records(s.tasks) && Shape(s)
    requires t in s.tasks && s.tasks[t].status.Blocked?
    ensures var r := Append(SetTask(Remove(s, s.tasks[t].waitQ.value, t), t, Woken(s.tasks[t], code)),
        ReadyQ(s.tasks[t].prio), t);
      && Linked(r.tasks, r.queues) && Sorted(r.tasks, r.queues) && r.queues.Keys == s.queues.Keys
  {
    var k := Woken(s.tasks[t], code);
    var mid := Taken(s.tasks, s.queues, t);
    AppendIsInsert(mid[Home(k)], t);
    Move(s.tasks, s.queues, t, k, |mid[Home(k)]|);
  }

  /** Taking `x` out undoes putting it in. */
  lemma WithoutInserted(l: seq<Tid>, x: Tid, k: nat)
    requires NoDup(l) && x !in l && k <= |l|
    ensures Without(InsertAt(l, k, x), x) == l
  {
    var r := InsertAt(l, k, x);
    InsertAtMembers(l, k, x);
    assert r[k] == x && IndexOf(r, x) == k;
    assert r[..k] + r[k + 1..] == l;
  }

  /** A move takes `x` out and puts it in, and leaves every queue as it was otherwise. */
  lemma MovedOrder(tasks: map<Tid, Task>, queues: map<QueueId, seq<Tid>>, x: Tid, k: Task, i: nat)
    requires Linked(tasks, queues) && x in tasks && Home(k) in queues && i <= |Taken(tasks, queues, x)[Home(k)]|
    ensures forall q :: q in queues ==> Without(Moved(tasks, queues, x, k, i)[q], x) == Without(queues[q], x)
  {
    hide Linked, Without, InsertAt;
    var mid := Taken(tasks, queues, x);
    Detach(tasks, queues, x);
    forall q | q in queues
      ensures Without(Moved(tasks, queues, x, k, i)[q], x) == Without(queues[q], x)
    {
      AbsentThere(tasks, queues, x, q);
      NotThere(mid[q], x);
      if q == Home(k) {
        WithoutInserted(mid[q], x, i);
      }
    }
  }

  lemma NotThere(l: seq<Tid>, x: Tid)
    requires x !in l
    ensures Without(l, x) == l
  {
  }

  lemma AbsentThere(tasks: map<Tid, Task>, queues: map<QueueId, seq<Tid>>, x: Tid, q: QueueId)
    requires Linked(tasks, queues) && x in tasks && q in queues
    ensures var mid := Taken(tasks, queues, x); NoDup(mid[q]) && x !in mid[q] && mid[q] == Without(queues[q], x)
  {
    WithoutMembers(queues[q], x);
  }

  /** Where in its queue a task of priority `p` is put. */
  ghost function PlaceFor(s: State, t: Tid, p: Priority): (i: nat)
    requires t in s.tasks && Home(s.tasks[t]) in s.queues && Home(s.tasks[t].(prio := p)) in s.queues
    ensures i <= |Taken(s.tasks, s.queues, t)[Home(s.tasks[t].(prio := p))]|
  {
    var k := s.tasks[t].(prio := p);
    var l := Taken(s.tasks, s.queues, t)[Home(k)];
    if k.status.Blocked? then PriorityPos(s.tasks[t := k], l, p) else |l|
  }

  /** Changing a priority is a move, within a queue or from one to another. */
  lemma SetPriorityIsMove(s: State, t: Tid, p: Priority)
    requires t in s.tasks && RecordOk(s.tasks[t])
    requires Home(s.tasks[t]) in s.queues && Home(s.tasks[t].(prio := p)) in s.queues
    ensures SetPriority(s, t, p).queues == Moved(s.tasks, s.queues, t, s.tasks[t].(prio := p), PlaceFor(s, t, p))
  {
    hide PriorityPos;
    var k := s.tasks[t].(prio := p);
    AppendIsInsert(Taken(s.tasks, s.queues, t)[Home(k)], t);
  }

  lemma HomesExist(s: State, t: Tid, p: Priority)
    requires Linked(s.tasks, s.queues) && Records(s.tasks) && Shape(s) && t in s.tasks
    ensures RecordOk(s.tasks[t]) && Home(s.tasks[t]) in s.queues && Home(s.tasks[t].(prio := p)) in s.queues
  {
  }

  /** A new priority takes the task to the queue and place it now belongs in. */
  lemma SetPriorityMoves(s: State, t: Tid, p: Priority)
    requires Linked(s.tasks, s.queues) && Sorted(s.tasks, s.queues) && Records(s.tasks) && Shape(s)
    requires t in s.tasks
    ensures var r := SetPriority(s, t, p);
      && r.tasks == s.tasks[t := s.tasks[t].(prio := p)]
      && r == s.(tasks := r.tasks, queues := r.queues)
      && Linked(r.tasks, r.queues) && Sorted(r.tasks, r.queues) && r.queues.Keys == s.queues.Keys
  {
    hide Linked, Sorted, Without, PriorityPos;
    HomesExist(s, t, p);
    SetPriorityIsMove(s, t, p);
    Move(s.tasks, s.queues, t, s.tasks[t].(prio := p), PlaceFor(s, t, p));
  }

  /** Nobody else is moved by it: all other tasks keep their order in every queue, and a task that
      is not waiting comes last in the ready queue of its new priority. */
  lemma SetPriorityOrder(s: State, t: Tid, p: Priority)
    requires Linked(s.tasks, s.queues) && Sorted(s.tasks, s.queues) && Records(s.tasks) && Shape(s)
    requires t in s.tasks
    ensures var r := SetPriority(s, t, p);
      && r.queues.Keys == s.queues.Keys
      && (forall q :: q in s.queues ==> Without(r.queues[q], t) == Without(s.queues[q], t))
      && (!s.tasks[t].status.Blocked? ==>
            var l := QueueOf(r, ReadyQ(p)); l != [] && l[|l| - 1] == t)
  {
    hide SetPriority, Linked, Sorted, Without, Records, Shape;
    HomesExist(s, t, p);
    SetPriorityIsMove(s, t, p);
    MovedOrder(s.tasks, s.queues, t, s.tasks[t].(prio := p), PlaceFor(s, t, p));
  }
}
