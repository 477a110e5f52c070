/** The bound of 2^31 ticks on exact delays is sharp: allow one tick more and a run exists in
    which another task, asking for a single tick, is not woken by it. */
module SharpBound {
  import opened Base
  import opened KernelState
  import opened OwnedLists
  import opened Machine
  import opened Runs
  import opened NestedLocking
  import opened Time

  // ----- what exactness up to a bound means

  /** Every delay in `es` is at most `d` ticks, or for ever. */
  ghost predicate DelaysWithin(es: seq<Event>, d: Word) {
    forall e :: e in es && e.DelayCall? ==> e.ticks <= d || e.ticks == WAIT_FOREVER
  }

  /** `s` is reached by a run whose delays are at most `d`. */
  ghost predicate ReachedWithin(reading: Reading, s: State, idle: Tid, d: Word) {
    exists es :: Legal(reading, Booted(idle), idle, es) && DelaysWithin(es, d) && Exec(reading, Booted(idle), es) == s
  }

  /** In `s` the current task asks for `n` ticks, and `es` follows, with fewer than `n` ticks. */
  ghost predicate Sleeping(reading: Reading, s: State, idle: Tid, d: Word, n: Word, es: seq<Event>) {
    && ReachedWithin(reading, s, idle, d) && MayCall(s, idle) && 1 <= n <= d && n != WAIT_FOREVER
    && Legal(reading, Step(reading, s, DelayCall(n)), idle, es) && DelaysWithin(es, d) && Ticks(es) < n
  }

  /** After `es` the sleeper is asleep, and one more tick wakes it exactly if it is the `n`th. */
  ghost predicate OnTime(reading: Reading, s: State, n: Word, es: seq<Event>)
    requires s.current.Some?
  {
    var t := s.current.value;
    var r := Exec(reading, Step(reading, s, DelayCall(n)), es);
    && t in r.tasks && r.tasks[t].status.Blocked? && r.tasks[t].waitQ == Some(Sleep)
    && (!TaskOf(Tick(r).tasks, t).status.Blocked? <==> Ticks(es) == n - 1)
  }

  /** Whenever no run asks for more than `d` ticks, every sleeper wakes exactly at its tick. */
  ghost predicate AlwaysOnTime(reading: Reading, d: Word) {
    forall idle, s, n, es :: Sleeping(reading, s, idle, d, n, es) ==> OnTime(reading, s, n, es)
  }

  lemma WithinHalf(reading: Reading, d: Word)
    requires d <= HALF
    ensures AlwaysOnTime(reading, d)
  {
    hide Legal, Exec, Booted, Step, Tick;
    forall idle, s, n, es | Sleeping(reading, s, idle, d, n, es)
      ensures OnTime(reading, s, n, es)
    {
      var before :| Legal(reading, Booted(idle), idle, before) && DelaysWithin(before, d) && Exec(reading, Booted(idle), before) == s;
      assert DelaysFit(before) && DelaysFit(es);
      assert Timely(reading, s, idle);
      WakesExactly(reading, s, idle, n, es);
    }
  }

  // ----- a run with one longer delay

  const LONG: Word := HALF + 1

  /** Task 0 is idle, tasks 1 and 2 are equally urgent. */
  function Pair(tasks: map<Tid, Task>, q0: seq<Tid>, asleep: seq<Tid>, current: Option<Tid>, next: Option<Tid>, pended: bool): (s: State) {
    State(tasks[0 := NewTask(3)],
      PairQueues(q0, asleep),
      asleep, map[], map[], current, next, pended, 0)
  }

  function PairQueues(q0: seq<Tid>, asleep: seq<Tid>): (r: map<QueueId, seq<Tid>>) {
    map[ReadyQ(0) := q0, ReadyQ(1) := [], ReadyQ(2) := [], ReadyQ(3) := [0], Sleep := asleep]
  }

  lemma PairMoves(q0: seq<Tid>, asleep: seq<Tid>, l: seq<Tid>, w: seq<Tid>)
    ensures var r := PairQueues(q0, asleep);
      && ReadyQ(0) in r && r[ReadyQ(0)] == q0 && Sleep in r && r[Sleep] == asleep
      && r[ReadyQ(0) := l] == PairQueues(l, asleep) && r[ReadyQ(0) := l][Sleep := w] == PairQueues(l, w)
  {
  }

  function P1(): (s: State) {
    Pair(map[1 := NewTask(0)], [1], [], None, Some(1), false)
  }

  function P2(): (s: State) {
    Pair(map[1 := NewTask(0), 2 := NewTask(0)], [1, 2], [], None, Some(1), false)
  }

  function P3(): (s: State) {
    Pair(map[1 := NewTask(0), 2 := NewTask(0)], [1, 2], [], Some(1), Some(1), true)
  }

  function P4(): (s: State) {
    Pair(map[1 := NewTask(0).(status := Running), 2 := NewTask(0)], [1, 2], [], Some(1), Some(1), false)
  }

  function P5(): (s: State) {
    Pair(map[1 := Parked(NewTask(0), Sleep).(wake := LONG), 2 := NewTask(0)], [2], [1], Some(1), Some(2), true)
  }

  function P6(): (s: State) {
    Pair(map[1 := Parked(NewTask(0), Sleep).(wake := LONG), 2 := NewTask(0).(status := Running)], [2], [1], Some(2), Some(2), false)
  }

  ghost predicate Leads(reading: Reading, s: State, e: Event, r: State) {
    Enabled(reading, s, 0, e) && Step(reading, s, e) == r
  }

  lemma Created1(reading: Reading)
    ensures Leads(reading, Booted(0), CreateTask(1, 0), P1())
  {
    hide Booted;
    BootedIs(0);
    BootedTick();
    assert [] + [1] == [1];
  }

  lemma BootedTick()
    ensures Booted(0).tick == 0
  {
    hide Top;
  }

  lemma Created2(reading: Reading)
    ensures Leads(reading, P1(), CreateTask(2, 0), P2())
  {
    hide Create, P2;
    Second();
  }

  lemma Second()
    ensures Create(P1(), 2, 0) == P2()
  {
    hide Create, PairQueues;
    PairMoves([1], [], [1, 2], []);
    CreateUrgent(P1(), 2);
    assert [1] + [2] == [1, 2];
    assert P1().tasks[2 := NewTask(0)] == P2().tasks;
  }

  lemma Started(reading: Reading)
    ensures Leads(reading, P2(), StartKernel, P3())
  {
  }

  lemma Switched(reading: Reading)
    ensures Leads(reading, P3(), SwitchContext, P4())
    ensures Leads(reading, P5(), SwitchContext, P6())
  {
  }

  /** Task 1 out of its ready queue and asleep, with no timeout yet. */
  function Asleep(): (s: State) {
    Pair(map[1 := Parked(NewTask(0), Sleep), 2 := NewTask(0)], [2], [1], Some(1), Some(1), false).(timeouts := [])
  }

  lemma FallsAsleep()
    ensures EnterQueue(P4(), 1, Sleep, false) == Asleep()
  {
    hide PairQueues;
    PairMoves([1, 2], [], [2], [1]);
    assert Without([1, 2], 1) == [2] && [] + [1] == [1];
    assert P4().tasks[1 := Parked(P4().tasks[1], Sleep)] == Asleep().tasks;
  }

  lemma ArmFirst(s: State, t: Tid, n: Word)
    requires s.timeouts == [] && t in s.tasks
    ensures ArmTimeout(s, t, n) == s.(tasks := s.tasks[t := s.tasks[t].(wake := (s.tick + n) % WRAP)], timeouts := [t])
  {
    assert InsertAt([], 0, t) == [t];
  }

  lemma Armed1()
    ensures ArmTimeout(Asleep(), 1, LONG) == P5().(next := Some(1), pended := false)
  {
    hide ArmTimeout, PairQueues;
    ArmFirst(Asleep(), 1, LONG);
    assert Asleep().tasks[1 := Asleep().tasks[1].(wake := LONG)] == P5().tasks;
  }

  lemma Chosen()
    ensures Reschedule(P5().(next := Some(1), pended := false)) == P5()
  {
  }

  lemma Delayed(reading: Reading)
    ensures Leads(reading, P4(), DelayCall(LONG), P5())
  {
    FallsAsleep();
    Armed1();
    Chosen();
    hide EnterQueue, ArmTimeout, Reschedule, P5, Asleep;
  }

  lemma Prefixed(reading: Reading, s: State, e: Event, r: State, es: seq<Event>)
    requires Leads(reading, s, e, r) && Legal(reading, r, 0, es)
    ensures Legal(reading, s, 0, [e] + es) && Exec(reading, s, [e] + es) == Exec(reading, r, es)
  {
    hide Enabled, Step;
    assert ([e] + es)[1..] == es;
  }

  /** Task 1 delays 2^31 + 1 ticks, and task 2 gets to run. */
  lemma LongDelayRun(reading: Reading) returns (es: seq<Event>)
    ensures Legal(reading, Booted(0), 0, es) && Exec(reading, Booted(0), es) == P6() && DelaysWithin(es, LONG)
  {
    hide Leads, Legal, Exec, Booted, P1, P2, P3, P4, P5, P6;
    Created1(reading); Created2(reading); Started(reading); Switched(reading); Delayed(reading);
    var e5 := [SwitchContext];
    RunEnds(reading, P6());
    assert [SwitchContext] + [] == e5;
    Prefixed(reading, P5(), SwitchContext, P6(), []);
    Prefixed(reading, P4(), DelayCall(LONG), P5(), e5);
    var e4 := [DelayCall(LONG)] + e5;
    Prefixed(reading, P3(), SwitchContext, P4(), e4);
    var e3 := [SwitchContext] + e4;
    Prefixed(reading, P2(), StartKernel, P3(), e3);
    var e2 := [StartKernel] + e3;
    Prefixed(reading, P1(), CreateTask(2, 0), P2(), e2);
    var e1 := [CreateTask(2, 0)] + e2;
    Prefixed(reading, Booted(0), CreateTask(1, 0), P1(), e1);
    es := [CreateTask(1, 0)] + e1;
  }

  lemma RunEnds(reading: Reading, s: State)
    ensures Legal(reading, s, 0, []) && Exec(reading, s, []) == s
  {
  }

  /** There task 2 asks for one tick, and the next tick leaves it asleep. */
  lemma BeyondHalf(reading: Reading, d: Word)
    requires HALF < d != WAIT_FOREVER
    ensures !AlwaysOnTime(reading, d)
  {
    hide Legal, Exec, Booted, Tick, Delay, P6;
    var es := LongDelayRun(reading);
    var s := P6();
    LastPair();
    assert DelaysWithin(es, d);
    assert ReachedWithin(reading, s, 0, d);
    assert Reachable(reading, s, 0);
    LongDelayHidesShort(reading, s, 0, 1);
    var r := Step(reading, s, DelayCall(1));
    RunEnds(reading, r);
    assert DelaysWithin([], d);
    assert Sleeping(reading, s, 0, d, 1, []);
    assert !OnTime(reading, s, 1, []);
  }

  lemma LastPair()
    ensures var s := P6();
      && MayCall(s, 0) && s.timeouts == [1] && 1 in s.tasks && s.tasks[1].wake == (s.tick + HALF + 1) % WRAP
  {
  }

  /** The bound is sharp: sleepers wake exactly at their tick in every run whose finite delays are
      at most `d` if and only if `d` is at most 2^31. */
  lemma BoundIsSharp(reading: Reading, d: Word)
    requires d != WAIT_FOREVER
    ensures AlwaysOnTime(reading, d) <==> d <= HALF
  {
    hide AlwaysOnTime;
    if d <= HALF { WithinHalf(reading, d); } else { BeyondHalf(reading, d); }
  }
}
