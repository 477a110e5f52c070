/** Nested locking as executed can also tie a list of owned mutexes into a circle, on which the
    loop of kernel/mutex.c:131-135 never ends. */
module CyclicList {
  import opened Base
  import opened KernelState
  import opened OwnedLists
  import opened Machine
  import opened Dispatch
  import opened Runs
  import opened NestedLocking
  import opened FiniteLists

  // ----- the run

  /** Task 0 is idle, tasks 1 and 2 are equally urgent; nobody waits for mutex 3. */
  function Duo(tasks: map<Tid, Task>, q0: seq<Tid>, w1: seq<Tid>, w2: seq<Tid>, x1: Mutex, x2: Mutex, x3: Mutex,
               current: Option<Tid>, next: Option<Tid>, pended: bool): (s: State) {
    State(tasks[0 := NewTask(3)],
      DuoQueues(q0, w1, w2),
      [], map[1 := x1, 2 := x2, 3 := x3], map[], current, next, pended, 0)
  }

  function DuoQueues(q0: seq<Tid>, w1: seq<Tid>, w2: seq<Tid>): (r: map<QueueId, seq<Tid>>) {
    map[ReadyQ(0) := q0, ReadyQ(1) := [], ReadyQ(2) := [], ReadyQ(3) := [0], Sleep := [],
        MutexQ(1) := w1, MutexQ(2) := w2, MutexQ(3) := []]
  }

  lemma DuoMoves(q0: seq<Tid>, w1: seq<Tid>, w2: seq<Tid>, l: seq<Tid>, w: seq<Tid>)
    ensures var r := DuoQueues(q0, w1, w2);
      && ReadyQ(0) in r && r[ReadyQ(0)] == q0 && MutexQ(1) in r && r[MutexQ(1)] == w1 && MutexQ(2) in r && r[MutexQ(2)] == w2
      && r[ReadyQ(0) := l] == DuoQueues(l, w1, w2)
      && r[ReadyQ(0) := l][MutexQ(1) := w] == DuoQueues(l, w, w2)
      && r[ReadyQ(0) := l][MutexQ(2) := w] == DuoQueues(l, w1, w)
  {
  }

  function C0(): (s: State) {
    Duo(map[],
      [], [], [], Mutex(None, None), Mutex(None, None), Mutex(None, None),
      None, Some(0), false)
  }

  function C1(): (s: State) {
    Duo(map[1 := Task(0, 0, Ready, None, None, None, 0, 0)],
      [1], [], [], Mutex(None, None), Mutex(None, None), Mutex(None, None),
      None, Some(1), false)
  }

  function C2(): (s: State) {
    Duo(map[1 := Task(0, 0, Ready, None, None, None, 0, 0), 2 := Task(0, 0, Ready, None, None, None, 0, 0)],
      [1, 2], [], [], Mutex(None, None), Mutex(None, None), Mutex(None, None),
      None, Some(1), false)
  }

  function C3(): (s: State) {
    Duo(map[1 := Task(0, 0, Ready, None, None, None, 0, 0), 2 := Task(0, 0, Ready, None, None, None, 0, 0)],
      [1, 2], [], [], Mutex(None, None), Mutex(None, None), Mutex(None, None),
      Some(1), Some(1), true)
  }

  function C4(): (s: State) {
    Duo(map[1 := Task(0, 0, Running, None, None, None, 0, 0), 2 := Task(0, 0, Ready, None, None, None, 0, 0)],
      [1, 2], [], [], Mutex(None, None), Mutex(None, None), Mutex(None, None),
      Some(1), Some(1), false)
  }

  function C5(): (s: State) {
    Duo(map[1 := Task(0, 0, Running, None, Some(1), None, 0, 0), 2 := Task(0, 0, Ready, None, None, None, 0, 0)],
      [1, 2], [], [], Mutex(Some(1), None), Mutex(None, None), Mutex(None, None),
      Some(1), Some(1), false)
  }

  function C6(): (s: State) {
    Duo(map[1 := Task(0, 0, Running, None, Some(1), None, 0, 0), 2 := Task(0, 0, Ready, None, None, None, 0, 0)],
      [2, 1], [], [], Mutex(Some(1), None), Mutex(None, None), Mutex(None, None),
      Some(1), Some(2), true)
  }

  function C7(): (s: State) {
    Duo(map[1 := Task(0, 0, Ready, None, Some(1), None, 0, 0), 2 := Task(0, 0, Running, None, None, None, 0, 0)],
      [2, 1], [], [], Mutex(Some(1), None), Mutex(None, None), Mutex(None, None),
      Some(2), Some(2), false)
  }

  function C8(): (s: State) {
    Duo(map[1 := Task(0, 0, Ready, None, Some(1), None, 0, 0), 2 := Task(0, 0, Running, None, Some(2), None, 0, 0)],
      [2, 1], [], [], Mutex(Some(1), None), Mutex(Some(2), None), Mutex(None, None),
      Some(2), Some(2), false)
  }

  function C9(): (s: State) {
    Duo(map[1 := Task(0, 0, Ready, None, Some(1), None, 0, 0), 2 := Task(0, 0, Running, None, Some(2), None, 0, 0)],
      [1, 2], [], [], Mutex(Some(1), None), Mutex(Some(2), None), Mutex(None, None),
      Some(2), Some(1), true)
  }

  function C10(): (s: State) {
    Duo(map[1 := Task(0, 0, Running, None, Some(1), None, 0, 0), 2 := Task(0, 0, Ready, None, Some(2), None, 0, 0)],
      [1, 2], [], [], Mutex(Some(1), None), Mutex(Some(2), None), Mutex(None, None),
      Some(1), Some(1), false)
  }

  function C11(): (s: State) {
    Duo(map[1 := Task(0, 0, Blocked, Some(MutexQ(2)), Some(2), None, WAIT_FOREVER, 0), 2 := Task(0, 0, Ready, None, Some(2), None, 0, 0)],
      [2], [], [1], Mutex(Some(1), None), Mutex(Some(2), Some(1)), Mutex(None, None),
      Some(1), Some(2), true)
  }

  function C12(): (s: State) {
    Duo(map[1 := Task(0, 0, Blocked, Some(MutexQ(2)), Some(2), None, WAIT_FOREVER, 0), 2 := Task(0, 0, Running, None, Some(2), None, 0, 0)],
      [2], [], [1], Mutex(Some(1), None), Mutex(Some(2), Some(1)), Mutex(None, None),
      Some(2), Some(2), false)
  }

  function C13(): (s: State) {
    Duo(map[1 := Task(0, 0, Ready, None, Some(2), None, WAIT_FOREVER, 0), 2 := Task(0, 0, Running, None, Some(1), None, 0, 0)],
      [2, 1], [], [], Mutex(Some(1), None), Mutex(Some(1), None), Mutex(None, None),
      Some(2), Some(2), false)
  }

  function C14(): (s: State) {
    Duo(map[1 := Task(0, 0, Ready, None, Some(2), None, WAIT_FOREVER, 0), 2 := Task(0, 0, Blocked, Some(MutexQ(1)), Some(1), None, WAIT_FOREVER, 0)],
      [1], [2], [], Mutex(Some(1), Some(1)), Mutex(Some(1), None), Mutex(None, None),
      Some(2), Some(1), true)
  }

  function C15(): (s: State) {
    Duo(map[1 := Task(0, 0, Running, None, Some(2), None, WAIT_FOREVER, 0), 2 := Task(0, 0, Blocked, Some(MutexQ(1)), Some(1), None, WAIT_FOREVER, 0)],
      [1], [2], [], Mutex(Some(1), Some(1)), Mutex(Some(1), None), Mutex(None, None),
      Some(1), Some(1), false)
  }

  function C16(): (s: State) {
    Duo(map[1 := Task(0, 0, Running, None, Some(2), None, WAIT_FOREVER, 0), 2 := Task(0, 0, Ready, None, Some(1), None, WAIT_FOREVER, 0)],
      [1, 2], [], [], Mutex(Some(2), Some(1)), Mutex(Some(1), None), Mutex(None, None),
      Some(1), Some(1), false)
  }

  function C17(): (s: State) {
    Duo(map[1 := Task(0, 0, Running, None, Some(2), None, WAIT_FOREVER, 0), 2 := Task(0, 0, Ready, None, Some(1), None, WAIT_FOREVER, 0)],
      [2, 1], [], [], Mutex(Some(2), Some(1)), Mutex(Some(1), None), Mutex(None, None),
      Some(1), Some(2), true)
  }

  function C18(): (s: State) {
    Duo(map[1 := Task(0, 0, Ready, None, Some(2), None, WAIT_FOREVER, 0), 2 := Task(0, 0, Running, None, Some(1), None, WAIT_FOREVER, 0)],
      [2, 1], [], [], Mutex(Some(2), Some(1)), Mutex(Some(1), None), Mutex(None, None),
      Some(2), Some(2), false)
  }

  function C19(): (s: State) {
    Duo(map[1 := Task(0, 0, Ready, None, Some(2), None, WAIT_FOREVER, 0), 2 := Task(0, 0, Running, None, Some(3), None, WAIT_FOREVER, 0)],
      [2, 1], [], [], Mutex(Some(2), Some(1)), Mutex(Some(1), None), Mutex(Some(2), Some(1)),
      Some(2), Some(2), false)
  }

  // ----- two tasks at the most urgent level

  lemma YieldDuo(s: State, c: Tid, d: Tid)
    requires s.current == Some(c) && c in s.tasks && s.tasks[c].prio == 0 && c != d
    requires ReadyQ(0) in s.queues && s.queues[ReadyQ(0)] == [c, d]
    ensures Yield(s) == s.(queues := s.queues[ReadyQ(0) := [d, c]], next := Some(d), pended := true)
  {
    assert [c, d][1..] + [c] == [d, c];
  }

  /** `c` runs into `m`, which `d` owns; neither is more urgent. */
  lemma WaitDuo(s: State, c: Tid, d: Tid, m: Mid)
    requires s.current == Some(c) && c in s.tasks && d in s.tasks && c != d && m in s.mutexes && s.mutexes[m].owner == Some(d)
    requires s.tasks[c].prio == 0 && s.tasks[d].prio == 0 && !s.tasks[c].status.Blocked?
    requires ReadyQ(0) in s.queues && s.queues[ReadyQ(0)] == [c, d] && MutexQ(m) in s.queues && s.queues[MutexQ(m)] == []
    ensures LockExecuted(s, m) == s.(
      tasks := s.tasks[c := Parked(s.tasks[c], MutexQ(m)).(blockedOn := None, owned := Some(m))],
      queues := s.queues[ReadyQ(0) := [d]][MutexQ(m) := [c]],
      mutexes := s.mutexes[m := s.mutexes[m].(next := s.tasks[c].owned)], next := Some(d), pended := true)
  {
    hide EnterQueue, TopFrom;
    var a := SetTask(s, c, s.tasks[c].(blockedOn := Some(m)));
    assert Boost(a, 0, Some(d)) == a;
    RunsIntoEnter(a, c, d, m);
    var x := EnterQueue(a, c, MutexQ(m), true);
    TopOfLevel(x, 0);
  }

  /** Nothing is more urgent than level 0. */
  lemma {:induction false} MinHeadsZero(s: State, l: seq<Mid>)
    ensures MinHeads(s, l, 0) == 0
  {
    if l != [] {
      MinHeadsZero(s, l[1..]);
    }
  }

  /** `c`, alone at level 0, gives up `m`, for which `d` waits; its list is left as `a` has it. */
  lemma UnlockDuo(s: State, a: State, c: Tid, d: Tid, m: Mid)
    requires RemoveFromOwned(s, c, m) == a && a == s.(tasks := a.tasks, mutexes := a.mutexes)
    requires s.current == Some(c) && c in s.tasks && d in s.tasks && c != d
    requires a.tasks == s.tasks[c := s.tasks[c].(owned := a.tasks[c].owned)]
    requires m in s.mutexes && m in a.mutexes && s.mutexes[m].owner == Some(c)
    requires s.tasks[c].prio == s.tasks[c].base == 0 && s.tasks[d].prio == 0 && s.tasks[c].status.Running?
    requires s.tasks[d].wake == WAIT_FOREVER
    requires ReadyQ(0) in s.queues && s.queues[ReadyQ(0)] == [c] && MutexQ(m) in s.queues && s.queues[MutexQ(m)] == [d]
    ensures Unlock(s, m) == a.(tasks := a.tasks[d := Woken(a.tasks[d], 0)],
      queues := s.queues[ReadyQ(0) := [c, d]][MutexQ(m) := []],
      mutexes := a.mutexes[m := a.mutexes[m].(owner := Some(d))], next := Some(c))
  {
    hide RemoveFromOwned, TopFrom, OwnedList, WakeOne;
    MinHeadsZero(a, OwnedList(a, c));
    assert Without([c], c) == [] && [] + [c] == [c] && [c] + [d] == [c, d];
    var b := SetPriority(a, c, 0);
    assert b == a by { assert a.queues[ReadyQ(0) := []][ReadyQ(0) := [c]] == a.queues; assert a.tasks[c := a.tasks[c]] == a.tasks; }
    WakeSole(b, MutexQ(m), d);
    var x := SetMutex(WakeOne(b, MutexQ(m)), m, a.mutexes[m].(owner := Some(d)));
    assert x.queues == s.queues[ReadyQ(0) := [c, d]][MutexQ(m) := []];
    TopOfLevel(x, 0);
  }

  function A12(): (s: State) {
    Duo(map[1 := Task(0, 0, Blocked, Some(MutexQ(2)), Some(2), None, WAIT_FOREVER, 0), 2 := Task(0, 0, Running, None, Some(1), None, 0, 0)],
      [2], [], [1], Mutex(Some(1), None), Mutex(Some(2), None), Mutex(None, None),
      Some(2), Some(2), false)
  }

  /** Task 2 gives up mutex 2, and mutex 1, which task 1 owns, is all that is left on its list. */
  lemma Unlist12()
    ensures RemoveFromOwned(C12(), 2, 2) == A12()
  {
    assert OwnedIs(C12(), 2, [2, 1]) by { assert [2, 1][1..] == [1] && [1][1..] == []; }
    OwnedListIs(C12(), 2, [2, 1]);
  }

  /** Task 1 gives up mutex 1, which is not on its list. */
  lemma Unlist15()
    ensures RemoveFromOwned(C15(), 1, 1) == C15()
  {
    assert OwnedIs(C15(), 1, [2]) by { assert [2][1..] == []; }
    OwnedListIs(C15(), 1, [2]);
  }

  lemma Step0()
    ensures Goes(C0(), CreateTask(1, 0), C1())
  {
    hide Create;
    CreateUrgent(C0(), 1);
    assert [] + [1] == [1];
  }

  lemma Created1()
    ensures Create(C1(), 2, 0) == C2()
  {
    CreateDuo(map[1 := NewTask(0)], [1], Some(1), 2);
    assert [1] + [2] == [1, 2];
    assert map[1 := NewTask(0)][2 := NewTask(0)] == map[1 := NewTask(0), 2 := NewTask(0)];
    hide Create, Duo;
  }

  /** Creating an equally urgent task before the start. */
  lemma CreateDuo(tasks: map<Tid, Task>, q0: seq<Tid>, next: Option<Tid>, t: Tid)
    requires t !in tasks && t != 0
    ensures Create(Duo(tasks, q0, [], [], Mutex(None, None), Mutex(None, None), Mutex(None, None), None, next, false), t, 0)
      == Duo(tasks[t := NewTask(0)], q0 + [t], [], [], Mutex(None, None), Mutex(None, None), Mutex(None, None), None, Some((q0 + [t])[0]), false)
  {
    hide Create, DuoQueues;
    DuoMoves(q0, [], [], q0 + [t], []);
    var s := Duo(tasks, q0, [], [], Mutex(None, None), Mutex(None, None), Mutex(None, None), None, next, false);
    CreateUrgent(s, t);
    assert tasks[0 := NewTask(3)][t := NewTask(0)] == tasks[t := NewTask(0)][0 := NewTask(3)];
  }

  lemma Step1()
    ensures Goes(C1(), CreateTask(2, 0), C2())
  {
    hide Create;
    Created1();
  }

  lemma Step2()
    ensures Goes(C2(), StartKernel, C3())
  {
  }

  lemma Step3()
    ensures Goes(C3(), SwitchContext, C4())
  {
  }

  lemma Step4()
    ensures Goes(C4(), LockMutex(1), C5())
  {
  }

  lemma Step5()
    ensures Goes(C5(), YieldCall, C6())
  {
    YieldDuo(C5(), 1, 2);
  }

  lemma Step6()
    ensures Goes(C6(), SwitchContext, C7())
  {
  }

  lemma Step7()
    ensures Goes(C7(), LockMutex(2), C8())
  {
  }

  lemma Step8()
    ensures Goes(C8(), YieldCall, C9())
  {
    YieldDuo(C8(), 2, 1);
  }

  lemma Step9()
    ensures Goes(C9(), SwitchContext, C10())
  {
  }

  lemma Step10()
    ensures Goes(C10(), LockMutex(2), C11())
  {
    hide LockExecuted, TopFrom, OwnedList, DuoQueues;
    DuoMoves([1, 2], [], [], [2], [1]);
    WaitDuo(C10(), 1, 2, 2);
  }

  lemma Step11()
    ensures Goes(C11(), SwitchContext, C12())
  {
  }

  lemma Unlocked12()
    ensures Unlock(C12(), 2) == C13()
  {
    hide Unlock, RemoveFromOwned, OwnedList, TopFrom, DuoQueues;
    DuoMoves([2], [], [1], [2, 1], []);
    Unlist12();
    UnlockDuo(C12(), A12(), 2, 1, 2);
  }

  lemma Step12()
    ensures Goes(C12(), UnlockMutex(2), C13())
  {
    hide Unlock;
    Unlocked12();
  }

  lemma Step13()
    ensures Goes(C13(), LockMutex(1), C14())
  {
    hide LockExecuted, TopFrom, OwnedList, DuoQueues;
    DuoMoves([2, 1], [], [], [1], [2]);
    WaitDuo(C13(), 2, 1, 1);
  }

  lemma Step14()
    ensures Goes(C14(), SwitchContext, C15())
  {
  }

  lemma Unlocked15()
    ensures Unlock(C15(), 1) == C16()
  {
    hide Unlock, RemoveFromOwned, OwnedList, TopFrom, DuoQueues;
    DuoMoves([1], [2], [], [1, 2], []);
    Unlist15();
    UnlockDuo(C15(), C15(), 1, 2, 1);
  }

  lemma Step15()
    ensures Goes(C15(), UnlockMutex(1), C16())
  {
    hide Unlock;
    Unlocked15();
  }

  lemma Step16()
    ensures Goes(C16(), YieldCall, C17())
  {
    YieldDuo(C16(), 1, 2);
  }

  lemma Step17()
    ensures Goes(C17(), SwitchContext, C18())
  {
  }

  lemma Step18()
    ensures Goes(C18(), LockMutex(3), C19())
  {
  }

  lemma BootSteps()
    ensures Goes(Booted(0), InitMutex(1, None), NewMutex(Booted(0), 1, None))
    ensures Goes(NewMutex(Booted(0), 1, None), InitMutex(2, None), NewMutex(NewMutex(Booted(0), 1, None), 2, None))
    ensures Goes(NewMutex(NewMutex(Booted(0), 1, None), 2, None), InitMutex(3, None), C0())
  {
    hide Booted;
    BootedIs(0);
    BootedNext();
  }

  // ----- the circle

  /** No list starts at a mutex whose link leads back to it. */
  lemma {:induction false} SelfLink(mutexes: map<Mid, Mutex>, m: Mid, l: seq<Mid>)
    requires m in mutexes && mutexes[m].next == Some(m)
    ensures !Chain(mutexes, Some(m), l)
    decreases |l|
  {
    if l != [] && l[0] == m {
      SelfLink(mutexes, m, l[1..]);
    }
  }

  /** In the run task 2 locks mutex 1 while it is on its list, left there by an unlock of mutex 2,
      and that ties the circle.  The run ends with task 2 holding mutex 3, in front of a link that
      leads to itself.  Its list has no end, and has none either once mutex 3 is taken off:
      unlocking mutex 3 recomputes the priority over that list and never returns. */
  lemma CyclicRun() returns (ss: seq<State>, es: seq<Event>)
    ensures |ss| == |es| + 1 && ss[0] == Booted(0)
    ensures forall i :: 0 <= i < |es| ==> Goes(ss[i], es[i], ss[i + 1])
    ensures var s := ss[|es|];
      && s.current == Some(2) && Enabled(Executed, s, 0, UnlockMutex(3)) && s.mutexes[3].owner == Some(2)
      && (forall l :: !OwnedIs(s, 2, l)) && (forall l :: !OwnedIs(RemoveFromOwned(s, 2, 3), 2, l))
    ensures |es| > 16 && es[16] == LockMutex(1) && Relocks(ss[16], es[16])
  {
    hide Goes, Booted, NewMutex, C0, C1, C2, C3, C4, C5, C6, C7, C8, C9, C10, C11, C12, C13, C14, C15, C16, C17, C18, C19, RemoveFromOwned,
      OwnedIs, Relocks;
    ss := [Booted(0), NewMutex(Booted(0), 1, None), NewMutex(NewMutex(Booted(0), 1, None), 2, None), C0(), C1(), C2(), C3(), C4(), C5(),
           C6(), C7(), C8(), C9(), C10(), C11(), C12(), C13(), C14(), C15(), C16(), C17(), C18(), C19()];
    es := [InitMutex(1, None), InitMutex(2, None), InitMutex(3, None), CreateTask(1, 0), CreateTask(2, 0), StartKernel, SwitchContext,
      LockMutex(1), YieldCall, SwitchContext, LockMutex(2), YieldCall, SwitchContext, LockMutex(2), SwitchContext, UnlockMutex(2),
      LockMutex(1), SwitchContext, UnlockMutex(1), YieldCall, SwitchContext, LockMutex(3)];
    BootSteps();
    Step0(); Step1(); Step2(); Step3(); Step4(); Step5(); Step6(); Step7(); Step8(); Step9();
    Step10(); Step11(); Step12(); Step13(); Step14(); Step15(); Step16(); Step17(); Step18();
    NoEnd();
    Relock13();
  }

  /** Task 2 runs into mutex 1, which is on its list, though task 1 owns it. */
  lemma Relock13()
    ensures Relocks(C13(), LockMutex(1))
  {
    assert OwnedList(C13(), 2)[0] == 1;
  }

  lemma NoEnd()
    ensures var s := C19();
      && s.current == Some(2) && Enabled(Executed, s, 0, UnlockMutex(3)) && s.mutexes[3].owner == Some(2)
      && (forall l :: !OwnedIs(s, 2, l)) && (forall l :: !OwnedIs(RemoveFromOwned(s, 2, 3), 2, l))
  {
    forall l
      ensures !OwnedIs(C19(), 2, l)
    {
      if l != [] { SelfLink(C19().mutexes, 1, l[1..]); }
    }
    Unlist19();
    forall l
      ensures !OwnedIs(RemoveFromOwned(C19(), 2, 3), 2, l)
    {
      SelfLink(RemoveFromOwned(C19(), 2, 3).mutexes, 1, l);
    }
  }

  lemma Unlist19()
    ensures var a := RemoveFromOwned(C19(), 2, 3);
      && 2 in a.tasks && a.tasks[2].owned == Some(1) && 1 in a.mutexes && a.mutexes[1].next == Some(1)
  {
    assert OwnedList(C19(), 2)[0] == 3;
  }
}
