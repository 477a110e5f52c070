/** The scheduler picks the head of the most urgent ready queue, and the running task is
    never less urgent than any ready one. */
module Dispatch {
  import opened Base
  import opened KernelState
  import opened Invariants

  /** `t` heads level `l`, and the levels from `p` up to `l` are empty. */
  ghost predicate Leads(s: State, p: nat, l: Priority, t: Tid) {
    && p <= l && QueueOf(s, ReadyQ(l)) != [] && QueueOf(s, ReadyQ(l))[0] == t
    && forall q: Priority :: p <= q < l ==> QueueOf(s, ReadyQ(q)) == []
  }

  lemma {:induction false} TopFromSpec(s: State, p: nat)
    requires p <= 4
    ensures TopFrom(s, p).None? ==> forall q: Priority :: p <= q ==> QueueOf(s, ReadyQ(q)) == []
    ensures TopFrom(s, p).Some? ==> exists l: Priority :: Leads(s, p, l, TopFrom(s, p).value)
    decreases 4 - p
  {
    if p < 4 {
      var l: Priority := p;
      if QueueOf(s, ReadyQ(l)) == [] {
        TopFromSpec(s, p + 1);
        if TopFrom(s, p + 1).Some? {
          var k: Priority :| Leads(s, p + 1, k, TopFrom(s, p + 1).value);
          assert Leads(s, p, k, TopFrom(s, p).value);
        }
      } else {
        assert Leads(s, p, l, TopFrom(s, p).value);
      }
    }
  }

  /** With the idle task around there is always a task to run; it heads its own level and no
      more urgent level is occupied. */
  lemma TopIsMostUrgent(s: State, idle: Tid)
    requires Shape(s) && Records(s.tasks) && Linked(s.tasks, s.queues) && IdleOk(s, idle)
    ensures Top(s).Some? && Top(s).value in s.tasks
    ensures var t := Top(s).value;
      && !s.tasks[t].status.Blocked? && MostUrgent(s, s.tasks[t].prio)
      && QueueOf(s, ReadyQ(s.tasks[t].prio)) != [] && QueueOf(s, ReadyQ(s.tasks[t].prio))[0] == t
  {
    TopFromSpec(s, 0);
    var p := s.tasks[idle].prio;
    assert idle in s.queues[Home(s.tasks[idle])] && Home(s.tasks[idle]) == ReadyQ(p);
    assert QueueOf(s, ReadyQ(p)) != [];
    var l: Priority :| Leads(s, 0, l, Top(s).value);
    assert Top(s).value in s.queues[ReadyQ(l)];
  }

  lemma {:induction false} TopFromSame(s: State, r: State, p: nat)
    requires p <= 4 && forall q: Priority :: QueueOf(s, ReadyQ(q)) == QueueOf(r, ReadyQ(q))
    ensures TopFrom(s, p) == TopFrom(r, p)
    decreases 4 - p
  {
    if p < 4 {
      var l: Priority := p;
      assert QueueOf(s, ReadyQ(l)) == QueueOf(r, ReadyQ(l));
      TopFromSame(s, r, p + 1);
    }
  }

  lemma RescheduleDispatches(s: State, idle: Tid)
    requires Settled(s, idle) && OneRunning(s) && s.current.Some?
    requires s.pended || !s.tasks[s.current.value].status.Ready?
    ensures Dispatched(Reschedule(s)) && Settled(Reschedule(s), idle)
  {
    TopIsMostUrgent(s, idle);
    TopFromSame(s, Reschedule(s), 0);
    RescheduleSettled(s, idle);
    hide Linked, Sorted, Fields;
  }

  lemma RescheduleSettled(s: State, idle: Tid)
    requires Settled(s, idle)
    ensures Settled(Reschedule(s), idle) && Settled(Schedule(s), idle)
  {
    hide Linked, Sorted, Fields;
  }

  /** A step that leaves the ready queues and the current task alone. */
  lemma DispatchSame(s: State, r: State)
    requires Dispatched(s) && OneRunning(r)
    requires r.current == s.current && r.next == s.next && r.pended == s.pended
    requires forall q: Priority :: QueueOf(s, ReadyQ(q)) == QueueOf(r, ReadyQ(q))
    requires s.current.Some? && !s.pended ==>
      r.tasks[s.current.value].status.Running? && r.tasks[s.current.value].prio == s.tasks[s.current.value].prio
    ensures Dispatched(r)
  {
  }

  lemma {:induction false} TopFromLevel(s: State, q: nat, p: Priority)
    requires q <= p && MostUrgent(s, p) && QueueOf(s, ReadyQ(p)) != []
    ensures TopFrom(s, q) == Some(QueueOf(s, ReadyQ(p))[0])
    decreases p - q
  {
    if q < p {
      var l: Priority := q;
      assert QueueOf(s, ReadyQ(l)) == [];
      TopFromLevel(s, q + 1, p);
    }
  }

  lemma TopOfLevel(s: State, p: Priority)
    requires MostUrgent(s, p) && QueueOf(s, ReadyQ(p)) != []
    ensures Top(s) == Some(QueueOf(s, ReadyQ(p))[0])
  {
    TopFromLevel(s, 0, p);
  }
}
