/** Semaphore conservation over all runs. */
module Permits {
  import opened Base
  import opened KernelState
  import opened Invariants
  import opened OwnedLists
  import opened Machine
  import opened Basics
  import opened StepChanges
  import opened Runs

  /** What has happened to one semaphore since it was initialised: take calls made, permits
      granted (at once or by hand-over) and gives. */
  datatype Ledger = Ledger(initial: nat, calls: nat, grants: nat, gives: nat)

  function LedgersAfter(h: map<Sid, Ledger>, s: State, e: Event): (r: map<Sid, Ledger>) {
    match e
    case TakeCall(i) =>
      if i !in h then h
      else if CountOf(s, i) > 0 then h[i := h[i].(calls := h[i].calls + 1, grants := h[i].grants + 1)]
      else h[i := h[i].(calls := h[i].calls + 1)]
    case GiveCall(i) =>
      if i !in h then h
      else if QueueOf(s, SemQ(i)) != [] then h[i := h[i].(gives := h[i].gives + 1, grants := h[i].grants + 1)]
      else h[i := h[i].(gives := h[i].gives + 1)]
    case InitSem(i, n) => h[i := Ledger(n, 0, 0, 0)]
    case _ => h
  }

  function LedgersOver(reading: Reading, h: map<Sid, Ledger>, s: State, es: seq<Event>): (r: map<Sid, Ledger>)
    decreases |es|
  {
    if es == [] then h else LedgersOver(reading, LedgersAfter(h, s, es[0]), Step(reading, s, es[0]), es[1..])
  }

  /** Permits are neither lost nor made: the initial count and the gives cover the count left
      and the grants made, and every take call is granted or still queued. */
  ghost predicate Balanced(s: State, h: map<Sid, Ledger>, i: Sid) {
    && i in s.sems && i in h
    && h[i].initial + h[i].gives == s.sems[i] + h[i].grants
    && h[i].calls == h[i].grants + |QueueOf(s, SemQ(i))|
  }

  ghost predicate AllBalanced(s: State, h: map<Sid, Ledger>) {
    h.Keys == s.sems.Keys && forall i :: i in s.sems ==> Balanced(s, h, i)
  }

  // ----- the length of a queue is the number of tasks that wait in it

  ghost function Members(l: seq<Tid>): (r: set<Tid>) {
    set t | t in l
  }

  lemma {:induction false} LengthIsSize(l: seq<Tid>)
    requires NoDup(l)
    ensures |l| == |Members(l)|
  {
    if l == [] {
      assert Members(l) == {};
    } else {
      LengthIsSize(l[1..]);
      assert Members(l) == {l[0]} + Members(l[1..]);
    }
  }

  lemma QueueLength(s: State, i: Sid)
    requires Records(s.tasks) && Linked(s.tasks, s.queues) && SemQ(i) in s.queues
    ensures |QueueOf(s, SemQ(i))| == |Waiters(s.tasks, SemQ(i))|
  {
    var l := s.queues[SemQ(i)];
    LengthIsSize(l);
    forall t
      ensures t in Members(l) <==> t in Waiters(s.tasks, SemQ(i))
    {
      if t in Waiters(s.tasks, SemQ(i)) {
        assert Home(s.tasks[t]) == SemQ(i);
      }
    }
    assert Members(l) == Waiters(s.tasks, SemQ(i));
  }

  lemma InvLength(reading: Reading, s: State, idle: Tid, i: Sid)
    requires Inv(reading, s, idle) && i in s.sems
    ensures |QueueOf(s, SemQ(i))| == |Waiters(s.tasks, SemQ(i))|
  {
    hide Linked, Sorted, MutexesOk, Attended, Hinted, TimeoutsOk, SemsOk, IdleOk;
    QueueLength(s, i);
  }

  /** How the number of waiters of `i` changes in one step. */
  function Arrivals(s: State, e: Event, i: Sid): (n: int) {
    if e == TakeCall(i) && CountOf(s, i) <= 0 then 1
    else if e == GiveCall(i) && QueueOf(s, SemQ(i)) != [] then -1 else 0
  }

  lemma WaitersAfter(reading: Reading, s: State, idle: Tid, e: Event, i: Sid)
    requires Inv(reading, s, idle) && Enabled(reading, s, idle, e) && i in s.sems
    ensures |Waiters(Step(reading, s, e).tasks, SemQ(i))| == |Waiters(s.tasks, SemQ(i))| + Arrivals(s, e, i)
  {
    hide Inv, Step, OwnersOnly, CountsOnly, HintsOnly, WaitsOnly, Enabled, Waiters;
    StepChangesOnly(reading, s, idle, e);
    MoverPlace(reading, s, idle, e, i);
    WaitersByMover(s, Step(reading, s, e), e, SemQ(i));
  }

  /** Whether the mover leaves or joins the waiters of `i`. */
  lemma MoverPlace(reading: Reading, s: State, idle: Tid, e: Event, i: Sid)
    requires Inv(reading, s, idle) && Enabled(reading, s, idle, e) && i in s.sems
    ensures Mover(s, e).Some? ==>
      && Mover(s, e).value.task in s.tasks
      && (Mover(s, e).value.task in Waiters(s.tasks, SemQ(i)) <==> Arrivals(s, e, i) == -1)
      && (Mover(s, e).value.to == Some(SemQ(i)) <==> Arrivals(s, e, i) == 1)
    ensures Mover(s, e).None? ==> Arrivals(s, e, i) == 0
  {
    hide Core, Attended;
    MoverExists(reading, s, idle, e);
  }

  lemma StepBalanced(reading: Reading, s: State, idle: Tid, e: Event, h: map<Sid, Ledger>)
    requires Inv(reading, s, idle) && Enabled(reading, s, idle, e) && AllBalanced(s, h)
    ensures AllBalanced(Step(reading, s, e), LedgersAfter(h, s, e))
  {
    hide Inv, Step, Enabled, WaitsOnly, OwnersOnly, HintsOnly, Waiters, QueueOf, Balanced, LedgersAfter, CountAfterStep;
    var r := Step(reading, s, e);
    StepChangesOnly(reading, s, idle, e);
    StepInv(reading, s, idle, e);
    forall i | i in r.sems
      ensures Balanced(r, LedgersAfter(h, s, e), i)
    {
      if i in s.sems {
        EnabledInit(reading, s, idle, e);
        InvLength(reading, s, idle, i);
        InvLength(reading, r, idle, i);
        WaitersAfter(reading, s, idle, e, i);
        BalanceAt(s, r, e, h, i);
      } else {
        FreshSemEmpty(reading, s, e);
        BalanceNew(r, s, e, h, i);
      }
    }
    EnabledInit(reading, s, idle, e);
    InitAdds(reading, s, e);
    LedgerKeys(h, s, e);
  }

  lemma BalanceAt(s: State, r: State, e: Event, h: map<Sid, Ledger>, i: Sid)
    requires Balanced(s, h, i) && i in r.sems && r.sems[i] == CountAfterStep(s, e, i)
    requires |QueueOf(r, SemQ(i))| == |QueueOf(s, SemQ(i))| + Arrivals(s, e, i)
    requires !(e.InitSem? && e.sem == i)
    ensures Balanced(r, LedgersAfter(h, s, e), i)
  {
  }

  lemma BalanceNew(r: State, s: State, e: Event, h: map<Sid, Ledger>, i: Sid)
    requires e.InitSem? && e.sem == i && i in r.sems && r.sems[i] == e.count && QueueOf(r, SemQ(i)) == []
    ensures Balanced(r, LedgersAfter(h, s, e), i)
  {
  }

  lemma LedgerKeys(h: map<Sid, Ledger>, s: State, e: Event)
    ensures LedgersAfter(h, s, e).Keys == if e.InitSem? then h.Keys + {e.sem} else h.Keys
  {
  }

  lemma EnabledInit(reading: Reading, s: State, idle: Tid, e: Event)
    requires Enabled(reading, s, idle, e)
    ensures e.InitSem? ==> e.sem !in s.sems
    ensures e.TakeCall? || e.GiveCall? ==> e.sem in s.sems
  {
  }

  lemma InitAdds(reading: Reading, s: State, e: Event)
    ensures e.InitSem? ==> e.sem in Step(reading, s, e).sems
  {
  }

  lemma FreshSemEmpty(reading: Reading, s: State, e: Event)
    ensures e.InitSem? ==> QueueOf(Step(reading, s, e), SemQ(e.sem)) == []
  {
  }

  lemma {:induction false} RunBalanced(reading: Reading, s: State, idle: Tid, es: seq<Event>, h: map<Sid, Ledger>)
    requires Inv(reading, s, idle) && Legal(reading, s, idle, es) && AllBalanced(s, h)
    ensures AllBalanced(Exec(reading, s, es), LedgersOver(reading, h, s, es))
    decreases |es|
  {
    hide Inv, Enabled, Step, AllBalanced, LedgersAfter;
    if es != [] {
      StepInv(reading, s, idle, es[0]);
      StepBalanced(reading, s, idle, es[0], h);
      RunBalanced(reading, Step(reading, s, es[0]), idle, es[1..], LedgersAfter(h, s, es[0]));
    }
  }

  /** Semaphore conservation in every run: initial count plus gives equals count plus grants,
      take calls are granted or queued, the count is never negative, and a positive count
      means that nobody waits. */
  lemma PermitsConserved(reading: Reading, idle: Tid, es: seq<Event>, i: Sid)
    requires Legal(reading, Booted(idle), idle, es)
    requires i in Exec(reading, Booted(idle), es).sems
    ensures var s := Exec(reading, Booted(idle), es); var h := LedgersOver(reading, map[], Booted(idle), es);
      && i in h && h[i].initial + h[i].gives == s.sems[i] + h[i].grants
      && h[i].calls == h[i].grants + |QueueOf(s, SemQ(i))|
      && s.sems[i] >= 0 && (s.sems[i] > 0 ==> QueueOf(s, SemQ(i)) == [])
  {
    hide Booted, Exec, Legal, LedgersOver, Placed, Records, MutexesOk, Hinted, Attended;
    BootedInv(reading, idle);
    BootedIs(idle);
    ExecInv(reading, Booted(idle), idle, es);
    RunBalanced(reading, Booted(idle), idle, es, map[]);
    assert Balanced(Exec(reading, Booted(idle), es), LedgersOver(reading, map[], Booted(idle), es), i);
  }
}
