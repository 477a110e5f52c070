/** Runs in which every lock is safe: as the lock is intended, that is all runs.  In their states
    every task has exactly the priority it inherits and every list of owned mutexes is exact. */
module SafeRuns {
  import opened Base
  import opened KernelState
  import opened Invariants
  import opened Inheritance
  import opened OwnedLists
  import opened UnlockSteps
  import opened Machine
  import opened Steps
  import opened MutexSteps
  import opened Runs

  ghost predicate SafelyLegal(reading: Reading, s: State, idle: Tid, es: seq<Event>)
    decreases |es|
  {
    es == [] || (SafelyEnabled(reading, s, idle, es[0]) && SafelyLegal(reading, Step(reading, s, es[0]), idle, es[1..]))
  }

  /** `s` is reached from boot by a run in which every lock is safe. */
  ghost predicate SafelyReachable(reading: Reading, s: State, idle: Tid) {
    exists es :: SafelyLegal(reading, Booted(idle), idle, es) && Exec(reading, Booted(idle), es) == s
  }

  /** A run of safe locks is a run, and as the lock is intended every run is one. */
  lemma {:induction false} SafelyLegalIff(reading: Reading, s: State, idle: Tid, es: seq<Event>)
    ensures SafelyLegal(reading, s, idle, es) ==> Legal(reading, s, idle, es)
    ensures reading.Intended? ==> (SafelyLegal(reading, s, idle, es) <==> Legal(reading, s, idle, es))
    decreases |es|
  {
    hide Enabled, Step, SafeLock;
    if es != [] {
      SafelyLegalIff(reading, Step(reading, s, es[0]), idle, es[1..]);
    }
  }

  lemma BootedFields(idle: Tid)
    ensures Fields(Booted(idle).tasks, Booted(idle).mutexes)
  {
  }

  lemma BootedOwned(reading: Reading, idle: Tid)
    ensures OwnedOk(reading, Booted(idle))
  {
  }

  lemma BootedFullInv(reading: Reading, idle: Tid)
    ensures FullInv(reading, Booted(idle), idle)
  {
    hide Booted, OwnedOk, Fields, Placed, Rest, Top;
    BootedPlaced(idle);
    BootedFields(idle);
    BootedOwned(reading, idle);
    BootedIs(idle);
  }

  lemma StepFullInv(reading: Reading, s: State, idle: Tid, e: Event)
    requires FullInv(reading, s, idle) && SafelyEnabled(reading, s, idle, e)
    ensures FullInv(reading, Step(reading, s, e), idle)
  {
    hide Settled, Dispatched, OwnedOk, LockCall, LockExecuted, LockResume, Unlock, Yield, Block, SemTake, SemGive,
      Create, Start, Tick, Commit, NewMutex, NewSem;
    match e
    case YieldCall => YieldInv(reading, s, idle);
    case DelayCall(n) =>
      if n == 0 { YieldInv(reading, s, idle); } else { BlockInv(reading, s, idle, Sleep, n); }
    case TakeCall(i) => TakeInv(reading, s, idle, i);
    case GiveCall(i) => GiveInv(reading, s, idle, i);
    case LockMutex(m) => LockFullInv(reading, s, idle, m);
    case ResumeLock => ResumeInv(s, idle);
    case UnlockMutex(m) => UnlockInv(reading, s, idle, m);
    case CreateTask(t, p) => CreateInv(reading, s, idle, t, p);
    case StartKernel => StartInv(reading, s, idle);
    case TickInterrupt => TickInv(reading, s, idle);
    case SwitchContext => CommitInv(reading, s, idle);
    case InitMutex(m, link) => InitMutexInv(reading, s, idle, m, link);
    case InitSem(i, n) => InitSemInv(reading, s, idle, i, n);
  }

  lemma LockFullInv(reading: Reading, s: State, idle: Tid, m: Mid)
    requires FullInv(reading, s, idle) && SafelyEnabled(reading, s, idle, LockMutex(m))
    ensures FullInv(reading, Step(reading, s, LockMutex(m)), idle)
  {
    hide Settled, Dispatched, OwnedOk, AddToOwned, Boost, Block, LockResume;
    if s.mutexes[m].owner.None? {
      LockFreeInv(reading, s, idle, m);
    } else if Contended(s, m) {
      if reading.Intended? { LockIntendedInv(s, idle, m); } else { LockExecutedInv(s, idle, m); }
    }
  }

  lemma {:induction false} ExecFullInv(reading: Reading, s: State, idle: Tid, es: seq<Event>)
    requires FullInv(reading, s, idle) && SafelyLegal(reading, s, idle, es)
    ensures FullInv(reading, Exec(reading, s, es), idle)
    decreases |es|
  {
    hide FullInv, SafelyEnabled, Step;
    if es != [] {
      StepFullInv(reading, s, idle, es[0]);
      ExecFullInv(reading, Step(reading, s, es[0]), idle, es[1..]);
    }
  }

  /** The strict invariant holds in every state that a run of safe locks reaches. */
  lemma SafelyReachableInv(reading: Reading, s: State, idle: Tid)
    requires SafelyReachable(reading, s, idle)
    ensures FullInv(reading, s, idle)
  {
    hide FullInv, Booted, SafelyLegal, Exec;
    var es :| SafelyLegal(reading, Booted(idle), idle, es) && Exec(reading, Booted(idle), es) == s;
    BootedFullInv(reading, idle);
    ExecFullInv(reading, Booted(idle), idle, es);
  }

  // ----- what a caller can rely on

  /** Exact priority inheritance in every reachable state: each task's priority is the least
      of its base and the priorities of all waiters on mutexes it owns. */
  lemma InheritanceIsExact(reading: Reading, s: State, idle: Tid)
    requires SafelyReachable(reading, s, idle)
    ensures Inherits(s.tasks, s.mutexes)
  {
    hide SafelyReachable, Linked, Sorted, OwnedOk, Dispatched, Inherits, AllExact, WaitGraph, Rest;
    SafelyReachableInv(reading, s, idle);
    InheritsIff(s.tasks, s.mutexes);
  }

  /** Most-urgent dispatch: with no switch pended, the current task is the one running and no
      task that could run is more urgent; a pended switch leads to such a state at once. */
  lemma DispatchIsMostUrgent(reading: Reading, s: State, idle: Tid)
    requires SafelyReachable(reading, s, idle) && s.current.Some?
    ensures var r := if s.pended then Commit(s) else s;
      && r.current.Some? && r.current.value in r.tasks && !r.pended
      && (forall t :: t in r.tasks && r.tasks[t].status.Running? <==> r.current == Some(t))
      && (forall t :: CanRun(r, t) ==> r.tasks[r.current.value].prio <= r.tasks[t].prio)
  {
    hide SafelyReachable, Settled, OwnedOk, Top, Commit;
    SafelyReachableInv(reading, s, idle);
    if s.pended {
      CommitInv(reading, s, idle);
      CommitClears(s);
    }
    var r := if s.pended then Commit(s) else s;
    SettledParts(r, idle);
    forall t | CanRun(r, t)
      ensures r.tasks[r.current.value].prio <= r.tasks[t].prio
    {
      UrgentOverReady(r, r.current.value, t);
    }
  }

  lemma CommitClears(s: State)
    ensures !Commit(s).pended && (s.next.Some? ==> Commit(s).current.Some?)
  {
  }

  /** The list of mutexes of each task is acyclic and, as the lock is intended, holds exactly the
      mutexes it owns apart from one handed to it by a lock call that has yet to resume.  As the
      lock executes, with every lock safe, it holds exactly the mutexes owned or awaited. */
  lemma OwnedListsAreExact(reading: Reading, s: State, idle: Tid, t: Tid)
    requires SafelyReachable(reading, s, idle) && t in s.tasks
    ensures exists l :: OwnedIs(s, t, l) && OwnedList(s, t) == l
    ensures forall m :: m in OwnedList(s, t) <==>
      if reading.Intended? then Owns(s.mutexes, t, m) && s.tasks[t].blockedOn != Some(m)
      else Owns(s.mutexes, t, m) || Awaited(s.tasks[t]) == Some(m)
  {
    hide SafelyReachable, Settled, Dispatched, OwnedList, OwnedIs;
    SafelyReachableInv(reading, s, idle);
    assert ListIs(reading, s, t, OwnedList(s, t));
  }

  /** So an unlock by the owner always finds the mutex, and the priority it recomputes counts
      every waiter of every other mutex it owns. */
  lemma UnlockSeesEverything(reading: Reading, s: State, idle: Tid, m: Mid)
    requires SafelyReachable(reading, s, idle) && Enabled(reading, s, idle, UnlockMutex(m)) && s.mutexes[m].owner == s.current
    ensures var c := s.current.value; var a := RemoveFromOwned(s, c, m);
      && m in OwnedList(s, c)
      && (forall n :: n in OwnedList(a, c) <==> n != m && Owns(s.mutexes, c, n))
      && Residual(a.tasks, a.mutexes, c, m, Recompute(a, c))
  {
    hide SafelyReachable, FullInv, Settled, OwnedList, OwnedIs, RemoveFromOwned, Recompute, Residual;
    SafelyReachableInv(reading, s, idle);
    var c := s.current.value;
    UnlockReady(reading, s, idle, m);
    UnlistSettled(s, idle, c, m);
    RemoveFrame(s, c, m, OwnedList(s, c));
    SettledParts(RemoveFromOwned(s, c, m), idle);
    RecomputeResidual(RemoveFromOwned(s, c, m), c, m);
  }

  // ----- urgency along the wait graph

  /** Each element waits for a mutex of the next. */
  ghost predicate BlockingChain(s: State, path: seq<Tid>) {
    var g := WaitGraph(s.tasks, s.mutexes);
    forall i :: 0 <= i < |path| - 1 ==> path[i] in g && g[path[i]] == path[i + 1]
  }

  lemma {:induction false} ExactAlong(s: State, path: seq<Tid>)
    requires AllExact(s.tasks, WaitGraph(s.tasks, s.mutexes)) && MutexesOk(s.tasks, s.mutexes)
    requires path != [] && path[0] in s.tasks && BlockingChain(s, path)
    ensures path[|path| - 1] in s.tasks && s.tasks[path[|path| - 1]].prio <= s.tasks[path[0]].prio
    decreases |path|
  {
    if |path| > 1 {
      var g := WaitGraph(s.tasks, s.mutexes);
      assert path[0] in g && g[path[0]] == path[1];
      assert path[1] in s.tasks;
      assert Exact(s.tasks, g, path[1]);
      var rest := path[1..];
      forall i | 0 <= i < |rest| - 1
        ensures rest[i] in g && g[rest[i]] == rest[i + 1]
      {
        assert path[i + 1] in g && g[path[i + 1]] == path[i + 2];
      }
      ExactAlong(s, rest);
    }
  }

  /** In every such state each task along a blocking chain of any length is at least as
      urgent as the one the chain starts from; so it is once the walk of a lock has ended. */
  lemma ChainIsUrgent(reading: Reading, s: State, idle: Tid, path: seq<Tid>)
    requires SafelyReachable(reading, s, idle) && path != [] && path[0] in s.tasks && BlockingChain(s, path)
    ensures path[|path| - 1] in s.tasks && s.tasks[path[|path| - 1]].prio <= s.tasks[path[0]].prio
  {
    hide SafelyReachable, OwnedOk, Placed, Rest, Top, AllExact, WaitGraph, BlockingChain;
    SafelyReachableInv(reading, s, idle);
    ExactAlong(s, path);
  }
}
