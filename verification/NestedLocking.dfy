/** Nested locking as executed.  The last two lines of a contended lock run before the switch,
    and they reuse the mutex's single link; when a task that owns a mutex runs into another, or
    into one that is not last on its owner's list, what is inherited can be lost. */
module NestedLocking {
  import opened Base
  import opened KernelState
  import opened Invariants
  import opened Inheritance
  import opened OwnedLists
  import opened Machine
  import opened Dispatch
  import opened Runs

  // ----- a run in which an owner loses a priority it should inherit

  /** Task 0 is idle, 1 low, 2 medium, 3 high; mutexes 1 and 2. */
  function Snap(tasks: map<Tid, Task>, q0: seq<Tid>, q1: seq<Tid>, q2: seq<Tid>, w1: seq<Tid>, w2: seq<Tid>,
                x1: Mutex, x2: Mutex, current: Option<Tid>, next: Option<Tid>, pended: bool): (s: State) {
    State(tasks[0 := NewTask(3)],
      SnapQueues(q0, q1, q2, w1, w2),
      [], map[1 := x1, 2 := x2], map[], current, next, pended, 0)
  }

  function SnapQueues(q0: seq<Tid>, q1: seq<Tid>, q2: seq<Tid>, w1: seq<Tid>, w2: seq<Tid>): (r: map<QueueId, seq<Tid>>) {
    map[ReadyQ(0) := q0, ReadyQ(1) := q1, ReadyQ(2) := q2, ReadyQ(3) := [0], Sleep := [],
        MutexQ(1) := w1, MutexQ(2) := w2]
  }

  lemma SnapReads(q0: seq<Tid>, q1: seq<Tid>, q2: seq<Tid>, w1: seq<Tid>, w2: seq<Tid>)
    ensures var r := SnapQueues(q0, q1, q2, w1, w2);
      ReadyQ(0) in r && r[ReadyQ(0)] == q0 && ReadyQ(1) in r && r[ReadyQ(1)] == q1 && ReadyQ(2) in r && r[ReadyQ(2)] == q2
  {
  }

  lemma SnapLevel0(q0: seq<Tid>, q1: seq<Tid>, q2: seq<Tid>, w1: seq<Tid>, w2: seq<Tid>, l: seq<Tid>)
    ensures SnapQueues(q0, q1, q2, w1, w2)[ReadyQ(0) := l] == SnapQueues(l, q1, q2, w1, w2)
  {
  }

  lemma SnapLevel1(q0: seq<Tid>, q1: seq<Tid>, q2: seq<Tid>, w1: seq<Tid>, w2: seq<Tid>, l: seq<Tid>)
    ensures SnapQueues(q0, q1, q2, w1, w2)[ReadyQ(1) := l] == SnapQueues(q0, l, q2, w1, w2)
  {
  }

  lemma SnapLevel2(q0: seq<Tid>, q1: seq<Tid>, q2: seq<Tid>, w1: seq<Tid>, w2: seq<Tid>, l: seq<Tid>)
    ensures SnapQueues(q0, q1, q2, w1, w2)[ReadyQ(2) := l] == SnapQueues(q0, q1, l, w1, w2)
  {
  }

  function S0(): (s: State) {
    Snap(map[],
      [], [], [], [], [], Mutex(None, None), Mutex(None, None),
      None, Some(0), false)
  }

  function S1(): (s: State) {
    Snap(map[1 := Task(2, 2, Ready, None, None, None, 0, 0)],
      [], [], [1], [], [], Mutex(None, None), Mutex(None, None),
      None, Some(1), false)
  }

  function S2(): (s: State) {
    Snap(map[1 := Task(2, 2, Ready, None, None, None, 0, 0)],
      [], [], [1], [], [], Mutex(None, None), Mutex(None, None),
      Some(1), Some(1), true)
  }

  function S3(): (s: State) {
    Snap(map[1 := Task(2, 2, Running, None, None, None, 0, 0)],
      [], [], [1], [], [], Mutex(None, None), Mutex(None, None),
      Some(1), Some(1), false)
  }

  function S4(): (s: State) {
    Snap(map[1 := Task(2, 2, Running, None, Some(1), None, 0, 0)],
      [], [], [1], [], [], Mutex(Some(1), None), Mutex(None, None),
      Some(1), Some(1), false)
  }

  function S5(): (s: State) {
    Snap(map[1 := Task(2, 2, Running, None, Some(2), None, 0, 0)],
      [], [], [1], [], [], Mutex(Some(1), None), Mutex(Some(1), Some(1)),
      Some(1), Some(1), false)
  }

  function S6(): (s: State) {
    Snap(map[1 := Task(2, 2, Running, None, Some(2), None, 0, 0), 2 := Task(1, 1, Ready, None, None, None, 0, 0)],
      [], [2], [1], [], [], Mutex(Some(1), None), Mutex(Some(1), Some(1)),
      Some(1), Some(2), true)
  }

  function S7(): (s: State) {
    Snap(map[1 := Task(2, 2, Ready, None, Some(2), None, 0, 0), 2 := Task(1, 1, Running, None, None, None, 0, 0)],
      [], [2], [1], [], [], Mutex(Some(1), None), Mutex(Some(1), Some(1)),
      Some(2), Some(2), false)
  }

  function S8(): (s: State) {
    Snap(map[1 := Task(2, 1, Ready, None, Some(2), None, 0, 0), 2 := Task(1, 1, Blocked, Some(MutexQ(2)), Some(2), None, WAIT_FOREVER, 0)],
      [], [1], [], [], [2], Mutex(Some(1), None), Mutex(Some(1), None),
      Some(2), Some(1), true)
  }

  function S9(): (s: State) {
    Snap(map[1 := Task(2, 1, Running, None, Some(2), None, 0, 0), 2 := Task(1, 1, Blocked, Some(MutexQ(2)), Some(2), None, WAIT_FOREVER, 0)],
      [], [1], [], [], [2], Mutex(Some(1), None), Mutex(Some(1), None),
      Some(1), Some(1), false)
  }

  function S10(): (s: State) {
    Snap(map[1 := Task(2, 1, Running, None, Some(2), None, 0, 0), 2 := Task(1, 1, Blocked, Some(MutexQ(2)), Some(2), None, WAIT_FOREVER, 0), 3 := Task(0, 0, Ready, None, None, None, 0, 0)],
      [3], [1], [], [], [2], Mutex(Some(1), None), Mutex(Some(1), None),
      Some(1), Some(3), true)
  }

  function S11(): (s: State) {
    Snap(map[1 := Task(2, 1, Ready, None, Some(2), None, 0, 0), 2 := Task(1, 1, Blocked, Some(MutexQ(2)), Some(2), None, WAIT_FOREVER, 0), 3 := Task(0, 0, Running, None, None, None, 0, 0)],
      [3], [1], [], [], [2], Mutex(Some(1), None), Mutex(Some(1), None),
      Some(3), Some(3), false)
  }

  function S12(): (s: State) {
    Snap(map[1 := Task(2, 0, Ready, None, Some(2), None, 0, 0), 2 := Task(1, 1, Blocked, Some(MutexQ(2)), Some(2), None, WAIT_FOREVER, 0), 3 := Task(0, 0, Blocked, Some(MutexQ(1)), Some(1), None, WAIT_FOREVER, 0)],
      [1], [], [], [3], [2], Mutex(Some(1), None), Mutex(Some(1), None),
      Some(3), Some(1), true)
  }

  function S13(): (s: State) {
    Snap(map[1 := Task(2, 0, Running, None, Some(2), None, 0, 0), 2 := Task(1, 1, Blocked, Some(MutexQ(2)), Some(2), None, WAIT_FOREVER, 0), 3 := Task(0, 0, Blocked, Some(MutexQ(1)), Some(1), None, WAIT_FOREVER, 0)],
      [1], [], [], [3], [2], Mutex(Some(1), None), Mutex(Some(1), None),
      Some(1), Some(1), false)
  }

  function S14(): (s: State) {
    Snap(map[1 := Task(2, 2, Running, None, None, None, 0, 0), 2 := Task(1, 1, Ready, None, Some(2), None, WAIT_FOREVER, 0), 3 := Task(0, 0, Blocked, Some(MutexQ(1)), Some(1), None, WAIT_FOREVER, 0)],
      [], [2], [1], [3], [], Mutex(Some(1), None), Mutex(Some(2), None),
      Some(1), Some(2), true)
  }

  /** `e` is a step that any task may make, nested locking included, and leads from `s` to `r`. */
  ghost predicate Goes(s: State, e: Event, r: State) {
    Enabled(Executed, s, 0, e) && Step(Executed, s, e) == r
  }

  /** Creating a task more urgent than every ready one. */
  lemma CreateOnTop(s: State, t: Tid, p: Priority)
    requires t !in s.tasks && MostUrgent(s, p) && QueueOf(s, ReadyQ(p)) == [] && ReadyQ(p) in s.queues
    ensures Create(s, t, p) == s.(tasks := s.tasks[t := NewTask(p)], queues := s.queues[ReadyQ(p) := [t]],
      next := Some(t), pended := s.pended || (s.current.Some? && s.current != Some(t)))
  {
    hide TopFrom;
    var a := Append(SetTask(s, t, NewTask(p)), ReadyQ(p), t);
    assert [] + [t] == [t];
    TopOfLevel(a, p);
  }

  /** Creating a task at level 0, where some may be ready already. */
  lemma CreateUrgent(s: State, t: Tid)
    requires t !in s.tasks && ReadyQ(0) in s.queues
    ensures var l := s.queues[ReadyQ(0)] + [t];
      Create(s, t, 0) == s.(tasks := s.tasks[t := NewTask(0)], queues := s.queues[ReadyQ(0) := l],
        next := Some(l[0]), pended := s.pended || (s.current.Some? && s.current != Some(l[0])))
  {
    hide TopFrom;
    TopOfLevel(Append(SetTask(s, t, NewTask(0)), ReadyQ(0), t), 0);
  }

  /** `c`, alone at the most urgent level, runs into `m`, which `o`, alone at a lower level, owns. */
  ghost predicate RunsInto(s: State, c: Tid, o: Tid, m: Mid) {
    && s.current == Some(c) && c in s.tasks && o in s.tasks && c != o && m in s.mutexes
    && !s.tasks[c].status.Blocked? && !s.tasks[o].status.Blocked? && s.tasks[c].prio < s.tasks[o].prio
    && s.mutexes[m].owner == Some(o) && MutexQ(m) in s.queues && s.queues[MutexQ(m)] == []
    && ReadyQ(s.tasks[c].prio) in s.queues && s.queues[ReadyQ(s.tasks[c].prio)] == [c]
    && ReadyQ(s.tasks[o].prio) in s.queues && s.queues[ReadyQ(s.tasks[o].prio)] == [o]
    && MostUrgent(s, s.tasks[c].prio)
  }

  lemma RunsIntoBoost(s: State, c: Tid, o: Tid, m: Mid)
    requires RunsInto(s, c, o, m)
    ensures var p := s.tasks[c].prio; var a := SetTask(s, c, s.tasks[c].(blockedOn := Some(m)));
      Boost(a, p, Some(o)) == a.(tasks := a.tasks[o := a.tasks[o].(prio := p)],
        queues := a.queues[ReadyQ(s.tasks[o].prio) := []][ReadyQ(p) := [c, o]])
  {
    assert Without([o], o) == [] && [c] + [o] == [c, o];
  }

  lemma RunsIntoEnter(b: State, c: Tid, o: Tid, m: Mid)
    requires c in b.tasks && c != o && MutexQ(m) in b.queues && b.queues[MutexQ(m)] == []
    requires ReadyQ(b.tasks[c].prio) in b.queues && b.queues[ReadyQ(b.tasks[c].prio)] == [c, o]
    ensures EnterQueue(b, c, MutexQ(m), true) == b.(tasks := b.tasks[c := Parked(b.tasks[c], MutexQ(m))],
      queues := b.queues[ReadyQ(b.tasks[c].prio) := [o]][MutexQ(m) := [c]])
  {
    assert Without([c, o], c) == [o] && InsertAt([], 0, c) == [c];
  }

  lemma RunsIntoLock(s: State, c: Tid, o: Tid, m: Mid)
    requires RunsInto(s, c, o, m)
    ensures var k := s.tasks[c];
      LockExecuted(s, m) == s.(
        tasks := s.tasks[o := s.tasks[o].(prio := k.prio)][c := Parked(k, MutexQ(m)).(blockedOn := None, owned := Some(m))],
        queues := s.queues[ReadyQ(s.tasks[o].prio) := []][ReadyQ(k.prio) := [o]][MutexQ(m) := [c]],
        mutexes := s.mutexes[m := s.mutexes[m].(next := k.owned)], next := Some(o), pended := true)
  {
    hide Boost, EnterQueue, TopFrom;
    var p := s.tasks[c].prio;
    var a := SetTask(s, c, s.tasks[c].(blockedOn := Some(m)));
    RunsIntoBoost(s, c, o, m);
    var b := Boost(a, p, Some(o));
    RunsIntoEnter(b, c, o, m);
    var x := EnterQueue(b, c, MutexQ(m), true);
    assert x.queues == s.queues[ReadyQ(s.tasks[o].prio) := []][ReadyQ(p) := [o]][MutexQ(m) := [c]];
    TopOfLevel(x, p);
  }

  lemma Step0()
    ensures Goes(S0(), CreateTask(1, 2), S1())
  {
    hide Create, SnapQueues;
    SnapReads([], [], [], [], []);
    SnapLevel2([], [], [], [], [], [1]);
    CreateOnTop(S0(), 1, 2);
  }

  lemma Step1()
    ensures Goes(S1(), StartKernel, S2())
  {
  }

  lemma Step2()
    ensures Goes(S2(), SwitchContext, S3())
  {
  }

  lemma Step3()
    ensures Goes(S3(), LockMutex(1), S4())
  {
  }

  lemma Step4()
    ensures Goes(S4(), LockMutex(2), S5())
  {
  }

  lemma Step5()
    ensures Goes(S5(), CreateTask(2, 1), S6())
  {
    hide Create, SnapQueues;
    SnapReads([], [], [1], [], []);
    SnapLevel1([], [], [1], [], [], [2]);
    CreateOnTop(S5(), 2, 1);
  }

  lemma Step6()
    ensures Goes(S6(), SwitchContext, S7())
  {
  }

  lemma Into7()
    ensures RunsInto(S7(), 2, 1, 2)
  {
  }

  lemma Lock7()
    ensures LockExecuted(S7(), 2) == S8()
  {
    hide LockExecuted, RunsInto;
    Into7();
    RunsIntoLock(S7(), 2, 1, 2);
  }

  lemma Step7()
    ensures Goes(S7(), LockMutex(2), S8())
  {
    hide LockExecuted;
    Lock7();
  }

  lemma Step8()
    ensures Goes(S8(), SwitchContext, S9())
  {
  }

  lemma Step9()
    ensures Goes(S9(), CreateTask(3, 0), S10())
  {
    hide Create, SnapQueues;
    SnapReads([], [1], [], [], [2]);
    SnapLevel0([], [1], [], [], [2], [3]);
    CreateOnTop(S9(), 3, 0);
  }

  lemma Step10()
    ensures Goes(S10(), SwitchContext, S11())
  {
  }

  lemma Into11()
    ensures RunsInto(S11(), 3, 1, 1)
  {
  }

  lemma Lock11()
    ensures LockExecuted(S11(), 1) == S12()
  {
    hide LockExecuted, RunsInto;
    Into11();
    RunsIntoLock(S11(), 3, 1, 1);
  }

  lemma Step11()
    ensures Goes(S11(), LockMutex(1), S12())
  {
    hide LockExecuted;
    Lock11();
  }

  lemma Step12()
    ensures Goes(S12(), SwitchContext, S13())
  {
  }

  function A13(): (s: State) {
    Snap(map[1 := Task(2, 0, Running, None, None, None, 0, 0), 2 := Task(1, 1, Blocked, Some(MutexQ(2)), Some(2), None, WAIT_FOREVER, 0), 3 := Task(0, 0, Blocked, Some(MutexQ(1)), Some(1), None, WAIT_FOREVER, 0)],
      [1], [], [], [3], [2], Mutex(Some(1), None), Mutex(Some(1), None),
      Some(1), Some(1), false)
  }

  function B13(): (s: State) {
    Snap(map[1 := Task(2, 2, Running, None, None, None, 0, 0), 2 := Task(1, 1, Blocked, Some(MutexQ(2)), Some(2), None, WAIT_FOREVER, 0), 3 := Task(0, 0, Blocked, Some(MutexQ(1)), Some(1), None, WAIT_FOREVER, 0)],
      [], [], [1], [3], [2], Mutex(Some(1), None), Mutex(Some(1), None),
      Some(1), Some(1), false)
  }

  function D13(): (s: State) {
    Snap(map[1 := Task(2, 2, Running, None, None, None, 0, 0), 2 := Task(1, 1, Ready, None, Some(2), None, WAIT_FOREVER, 0), 3 := Task(0, 0, Blocked, Some(MutexQ(1)), Some(1), None, WAIT_FOREVER, 0)],
      [], [2], [1], [3], [], Mutex(Some(1), None), Mutex(Some(1), None),
      Some(1), Some(1), false)
  }

  /** Mutex 2 is all that is left on task 1's list, though it owns mutex 1 as well. */
  lemma Unlist13()
    ensures RemoveFromOwned(S13(), 1, 2) == A13() && Recompute(A13(), 1) == 2
  {
    assert OwnedIs(S13(), 1, [2]) by { assert [2][1..] == []; }
    OwnedListIs(S13(), 1, [2]);
    assert OwnedIs(A13(), 1, []);
    OwnedListIs(A13(), 1, []);
  }

  /** Changing the level of a task that is alone at its own. */
  lemma LowerSole(s: State, t: Tid, p: Priority)
    requires t in s.tasks && !s.tasks[t].status.Blocked? && s.tasks[t].prio != p
    requires var q := ReadyQ(s.tasks[t].prio); q in s.queues && s.queues[q] == [t]
    requires ReadyQ(p) in s.queues && s.queues[ReadyQ(p)] == []
    ensures SetPriority(s, t, p) == s.(tasks := s.tasks[t := s.tasks[t].(prio := p)],
      queues := s.queues[ReadyQ(s.tasks[t].prio) := []][ReadyQ(p) := [t]])
  {
    assert Without([t], t) == [] && [] + [t] == [t];
  }

  lemma Lower13()
    ensures SetPriority(A13(), 1, 2) == B13()
  {
    hide SetPriority;
    LowerSole(A13(), 1, 2);
  }

  /** Waking the only task in a queue, one with no timeout. */
  lemma WakeSole(s: State, q: QueueId, t: Tid)
    requires q in s.queues && s.queues[q] == [t] && t in s.tasks && s.tasks[t].wake == WAIT_FOREVER && !q.ReadyQ?
    requires ReadyQ(s.tasks[t].prio) in s.queues
    ensures var r := ReadyQ(s.tasks[t].prio);
      WakeOne(s, q) == s.(tasks := s.tasks[t := Woken(s.tasks[t], 0)], queues := s.queues[q := []][r := s.queues[r] + [t]])
  {
    assert Without([t], t) == [];
  }

  lemma Wake13()
    ensures WakeOne(B13(), MutexQ(2)) == D13()
  {
    hide WakeOne;
    WakeSole(B13(), MutexQ(2), 2);
    assert [] + [2] == [2];
  }

  lemma Unlock13()
    ensures Unlock(S13(), 2) == S14()
  {
    hide RemoveFromOwned, Recompute, SetPriority, WakeOne, Reschedule, D13;
    Unlist13();
    Lower13();
    Wake13();
    Pick13();
  }

  lemma Pick13()
    ensures MutexOf(D13(), 2) == Mutex(Some(1), None)
    ensures Reschedule(SetMutex(D13(), 2, Mutex(Some(2), None))) == S14()
  {
  }

  lemma Step13()
    ensures Goes(S13(), UnlockMutex(2), S14())
  {
    hide Unlock;
    Unlock13();
  }

  lemma BootSteps()
    ensures Goes(Booted(0), InitMutex(1, None), NewMutex(Booted(0), 1, None))
    ensures Goes(NewMutex(Booted(0), 1, None), InitMutex(2, None), S0())
  {
    hide Booted;
    BootedIs(0);
    BootedNext();
  }

  lemma BootedNext()
    ensures Booted(0).next == Some(0) && Booted(0).tick == 0
  {
    TopOfLevel(Append(SetTask(Cleared(), 0, NewTask(3)), ReadyQ(3), 0), 3);
  }

  /** Task 3 waits for mutex 1 at priority 0, and its owner has fallen back to priority 2. */
  lemma OwnerLeftBehind()
    ensures S14().mutexes[1].owner == Some(1) && S14().tasks[1].prio == S14().tasks[1].base == 2
    ensures Awaited(S14().tasks[3]) == Some(1) && S14().tasks[3].prio == 0
    ensures !Inherits(S14().tasks, S14().mutexes)
  {
    var tasks, mutexes := S14().tasks, S14().mutexes;
    var g := WaitGraph(tasks, mutexes);
    assert 3 in g && g[3] == 1;
    hide WaitGraph;
    assert !Exact(tasks, g, 1);
    ExactIsLeast(tasks, mutexes, 1);
  }

  /** The run: the low task locks 1 and 2; the medium task blocks on 2 and the high task on 1;
      the low task unlocks 2 and drops to its base priority although the high task still
      waits for it.  Every step is one the kernel allows. */
  lemma NestedRunFails() returns (ss: seq<State>, es: seq<Event>)
    ensures |ss| == |es| + 1 && ss[0] == Booted(0)
    ensures forall i :: 0 <= i < |es| ==> Goes(ss[i], es[i], ss[i + 1])
    ensures var s := ss[|es|]; !Inherits(s.tasks, s.mutexes)
  {
    hide Goes, Booted, Inherits, NewMutex, S0, S1, S2, S3, S4, S5, S6, S7, S8, S9, S10, S11, S12, S13, S14;
    ss := [Booted(0), NewMutex(Booted(0), 1, None), S0(), S1(), S2(), S3(), S4(), S5(), S6(), S7(), S8(), S9(), S10(), S11(), S12(), S13(), S14()];
    es := [InitMutex(1, None), InitMutex(2, None), CreateTask(1, 2), StartKernel, SwitchContext, LockMutex(1),
      LockMutex(2), CreateTask(2, 1), SwitchContext, LockMutex(2), SwitchContext,
      CreateTask(3, 0), SwitchContext, LockMutex(1), SwitchContext, UnlockMutex(2)];
    BootSteps();
    Step0(); Step1(); Step2(); Step3(); Step4(); Step5(); Step6(); Step7(); Step8(); Step9(); Step10(); Step11(); Step12(); Step13();
    OwnerLeftBehind();
  }
}
