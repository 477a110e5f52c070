/** Runs of the machine from boot, locks nested at will, and what holds in every state they reach. */
module Runs {
  import opened Base
  import opened KernelState
  import opened Invariants
  import opened OwnedLists
  import opened Dispatch
  import opened Machine
  import opened Basics

  // ----- runs

  /** `os_boot_main` up to the application: the idle task exists. */
  function Booted(idle: Tid): (s: State) {
    Create(Cleared(), idle, IDLE_PRIORITY)
  }

  function Exec(reading: Reading, s: State, es: seq<Event>): (r: State)
    decreases |es|
  {
    if es == [] then s else Exec(reading, Step(reading, s, es[0]), es[1..])
  }

  ghost predicate Legal(reading: Reading, s: State, idle: Tid, es: seq<Event>)
    decreases |es|
  {
    es == [] || (Enabled(reading, s, idle, es[0]) && Legal(reading, Step(reading, s, es[0]), idle, es[1..]))
  }

  /** `s` is reached from boot by some run. */
  ghost predicate Reachable(reading: Reading, s: State, idle: Tid) {
    exists es :: Legal(reading, Booted(idle), idle, es) && Exec(reading, Booted(idle), es) == s
  }

  lemma BootedIs(idle: Tid)
    ensures var s := Booted(idle);
      && s.tasks == map[idle := NewTask(IDLE_PRIORITY)]
      && s.queues == map[ReadyQ(0) := [], ReadyQ(1) := [], ReadyQ(2) := [], ReadyQ(3) := [idle], Sleep := []]
      && s.mutexes == map[] && s.sems == map[] && s.timeouts == []
      && s.current.None? && !s.pended
  {
    assert [] + [idle] == [idle];
  }

  lemma BootedPlaced(idle: Tid)
    ensures Placed(Booted(idle).tasks, Booted(idle).queues) && Rest(Booted(idle), idle)
  {
    hide Booted;
    BootedIs(idle);
  }

  lemma BootedInv(reading: Reading, idle: Tid)
    ensures Inv(reading, Booted(idle), idle)
  {
    hide Booted, Placed, Rest;
    BootedPlaced(idle);
    BootedIs(idle);
  }

  lemma {:induction false} ExecInv(reading: Reading, s: State, idle: Tid, es: seq<Event>)
    requires Inv(reading, s, idle) && Legal(reading, s, idle, es)
    ensures Inv(reading, Exec(reading, s, es), idle)
    decreases |es|
  {
    hide Inv, Enabled, Step;
    if es != [] {
      StepInv(reading, s, idle, es[0]);
      ExecInv(reading, Step(reading, s, es[0]), idle, es[1..]);
    }
  }

  /** The invariant holds in every reachable state. */
  lemma ReachableInv(reading: Reading, s: State, idle: Tid)
    requires Reachable(reading, s, idle)
    ensures Inv(reading, s, idle)
  {
    hide Inv, Booted, Legal, Exec;
    var es :| Legal(reading, Booted(idle), idle, es) && Exec(reading, Booted(idle), es) == s;
    BootedInv(reading, idle);
    ExecInv(reading, Booted(idle), idle, es);
  }

  lemma {:induction false} RunExtends(reading: Reading, s: State, idle: Tid, es: seq<Event>, e: Event)
    requires Legal(reading, s, idle, es) && Enabled(reading, Exec(reading, s, es), idle, e)
    ensures Legal(reading, s, idle, es + [e]) && Exec(reading, s, es + [e]) == Step(reading, Exec(reading, s, es), e)
    decreases |es|
  {
    hide Enabled, Step;
    if es == [] {
      assert es + [e] == [e] && [e][1..] == [];
    } else {
      RunExtends(reading, Step(reading, s, es[0]), idle, es[1..], e);
      assert (es + [e])[1..] == es[1..] + [e];
    }
  }

  lemma StaysReachable(reading: Reading, s: State, idle: Tid, e: Event)
    requires Reachable(reading, s, idle) && Enabled(reading, s, idle, e)
    ensures Reachable(reading, Step(reading, s, e), idle)
  {
    hide Legal, Exec, Booted, Enabled, Step;
    var es :| Legal(reading, Booted(idle), idle, es) && Exec(reading, Booted(idle), es) == s;
    RunExtends(reading, Booted(idle), idle, es, e);
  }

  // ----- what a caller can rely on

  /** Structure: every task is in exactly one queue, exactly once, namely the ready queue of its
      priority if it can run and the queue it waits in otherwise; queues hold only tasks. */
  lemma EveryTaskInOnePlace(reading: Reading, s: State, idle: Tid)
    requires Reachable(reading, s, idle)
    ensures forall t, q :: t in s.tasks && q in s.queues ==>
      (t in s.queues[q] <==>
        if s.tasks[t].status.Blocked? then s.tasks[t].waitQ == Some(q) else q == ReadyQ(s.tasks[t].prio))
    ensures forall t :: t in s.tasks ==> Home(s.tasks[t]) in s.queues
    ensures forall q, i, j :: q in s.queues && 0 <= i < j < |s.queues[q]| ==> s.queues[q][i] != s.queues[q][j]
    ensures forall q, t :: q in s.queues && t in s.queues[q] ==> t in s.tasks
  {
    hide Reachable, Sorted, Attended, MutexesOk, Rest, Hinted;
    ReachableInv(reading, s, idle);
  }

  /** The waiters of a mutex are queued most urgent first in every reachable state, boosts
      included. */
  lemma WaitersAreSorted(reading: Reading, s: State, idle: Tid, m: Mid)
    requires Reachable(reading, s, idle) && m in s.mutexes
    ensures MutexQ(m) in s.queues
    ensures var q := s.queues[MutexQ(m)];
      forall i, j :: 0 <= i < j < |q| ==> TaskOf(s.tasks, q[i]).prio <= TaskOf(s.tasks, q[j]).prio
  {
    hide Reachable, Linked, Records, MutexesOk, Attended, Hinted;
    ReachableInv(reading, s, idle);
    assert SortedBy(s.tasks, s.queues[MutexQ(m)]);
  }
  /** `t` could run: it is not blocked. */
  ghost predicate CanRun(s: State, t: Tid) {
    t in s.tasks && !s.tasks[t].status.Blocked?
  }

  /** A pended switch leads to a state in which the current task is the one running, and no task
      that could run is more urgent. */
  lemma SwitchIsMostUrgent(reading: Reading, s: State, idle: Tid)
    requires Reachable(reading, s, idle) && s.pended
    ensures var r := Commit(s);
      && r.current.Some? && r.current.value in r.tasks && !r.pended
      && (forall t :: t in r.tasks && r.tasks[t].status.Running? <==> r.current == Some(t))
      && (forall t :: CanRun(r, t) ==> r.tasks[r.current.value].prio <= r.tasks[t].prio)
  {
    hide Reachable, Sorted, MutexesOk, TopFrom;
    ReachableInv(reading, s, idle);
    TopIsMostUrgent(s, idle);
    forall t | CanRun(s, t)
      ensures s.tasks[s.next.value].prio <= s.tasks[t].prio
    {
      UrgentOverReady(s, s.next.value, t);
    }
  }

  lemma UrgentOverReady(s: State, c: Tid, t: Tid)
    requires Records(s.tasks) && Linked(s.tasks, s.queues) && c in s.tasks && MostUrgent(s, s.tasks[c].prio) && CanRun(s, t)
    ensures s.tasks[c].prio <= s.tasks[t].prio
  {
  }
}
