/** Executed runs in which locks are nested at will, safe or not: exactly which calls of lock and
    unlock keep the inherited priorities exact.  Every other step does. */
module FreeNesting {
  import opened Base
  import opened KernelState
  import opened Invariants
  import opened Inheritance
  import opened OwnedLists
  import opened Preservation
  import opened LockSteps
  import opened UnlockSteps
  import opened SmallSteps
  import opened Machine
  import opened MutexSteps
  import opened Basics
  import opened Runs
  import opened FiniteLists

  ghost predicate ExactIn(s: State) {
    AllExact(s.tasks, WaitGraph(s.tasks, s.mutexes))
  }

  lemma ExactAkin(s: State, r: State)
    requires Akin(s, r)
    ensures ExactIn(r) <==> ExactIn(s)
  {
    hide WaitGraph, AllExact;
    GraphSame(s.tasks, s.mutexes, r.tasks, r.mutexes);
    var g := WaitGraph(s.tasks, s.mutexes);
    if ExactIn(s) { ExactFrame(s.tasks, r.tasks, g); }
    if ExactIn(r) { ExactFrame(r.tasks, s.tasks, g); }
  }

  // ----- new tasks and mutexes

  lemma InitMutexExact(s: State, m: Mid, link: Option<Mid>)
    requires m !in s.mutexes
    ensures ExactIn(NewMutex(s, m, link)) <==> ExactIn(s)
  {
    hide AllExact, WaitGraph;
    NewMutexGraph(s.tasks, s.mutexes, m, link);
  }

  lemma CreatedExact(s: State, idle: Tid, t: Tid, p: Priority)
    requires Ongoing(s, idle) && t !in s.tasks && ExactIn(s)
    ensures ExactIn(Create(s, t, p))
  {
    hide Placed, Records, Rest, Attended, AllExact, WaitGraph, Create;
    CreatedTasks(s, t, p);
    CreatedMutexes(s, t, p);
    CreateGraph(s.tasks, s.mutexes, t, p);
    CreateExact(s.tasks, WaitGraph(s.tasks, s.mutexes), t, p);
  }

  // ----- locking a free mutex

  lemma SeizeExact(s: State, idle: Tid, m: Mid)
    requires Ongoing(s, idle) && ExactIn(s) && MayCall(s, idle) && m in s.mutexes && s.mutexes[m].owner.None?
    ensures ExactIn(LockCall(s, m))
  {
    hide Placed, Records, Rest, AllExact, WaitGraph, Top, LockCall;
    var r := LockCall(s, m);
    SeizeFrame(s, m);
    FreeGraph(s.tasks, s.mutexes, r.tasks, r.mutexes, s.current.value, m);
    ExactFrame(s.tasks, r.tasks, WaitGraph(s.tasks, s.mutexes));
  }

  // ----- a contended lock

  /** One raise, for an owner `o` at the end of the visible chain, restores exactness exactly if
      `o` needs none, or does not wait itself, or waits for a task urgent enough already. */
  lemma RaiseOnceIff(tasks: map<Tid, Task>, g: map<Tid, Tid>, c: Tid, o: Tid)
    requires AllExact(tasks, g) && c in tasks && c !in g && o in tasks && c != o
    requires o in g ==> g[o] in tasks && g[o] != o
    ensures var p := tasks[c].prio; var after := if tasks[o].prio <= p then tasks else tasks[o := tasks[o].(prio := p)];
      AllExact(after, g[c := o]) <==> tasks[o].prio <= p || o !in g || tasks[g[o]].prio <= p
  {
    hide AllExact, Exact, Almost, Owing;
    var p, g' := tasks[c].prio, g[c := o];
    NewEdgeOwes(tasks, g, c, o);
    if tasks[o].prio <= p {
      WalkStops(tasks, g', o, c, p);
    } else {
      var after := tasks[o := tasks[o].(prio := p)];
      WalkAdvances(tasks, g', o, c, p);
      if o in g {
        if tasks[g[o]].prio <= p {
          WalkStops(after, g', g[o], o, p);
        } else {
          LeftBehind(after, g', o, g[o]);
        }
      }
    }
  }

  lemma LeftBehind(tasks: map<Tid, Task>, g: map<Tid, Tid>, w: Tid, t: Tid)
    requires w in g && w in tasks && t in tasks && g[w] == t && tasks[w].prio < tasks[t].prio
    ensures !AllExact(tasks, g)
  {
    assert !Exact(tasks, g, t);
  }

  /** The owner of `m` waits itself, for a task less urgent than the caller, and has to be raised:
      as executed the walk stops at it, because `blockedOn` is clear. */
  ghost predicate HiddenChain(s: State, c: Tid, m: Mid)
    requires c in s.tasks
  {
    && MutexOf(s, m).owner.Some?
    && var o := MutexOf(s, m).owner.value;
    && var k := TaskOf(s.tasks, o);
    && k.prio > s.tasks[c].prio && Awaited(k).Some?
    && MutexOf(s, Awaited(k).value).owner.Some?
    && TaskOf(s.tasks, MutexOf(s, Awaited(k).value).owner.value).prio > s.tasks[c].prio
  }

  /** The tasks after the contended lock: at most one priority has been raised. */
  ghost function AfterLock(s: State, c: Tid, o: Tid, m: Mid): (r: map<Tid, Task>)
    requires c in s.tasks && o in s.tasks
  {
    var k := s.tasks[c];
    (if s.tasks[o].prio <= k.prio then s.tasks else s.tasks[o := s.tasks[o].(prio := k.prio)])
      [c := Parked(k, MutexQ(m)).(owned := Some(m))]
  }

  lemma OneRaise(s: State, c: Tid, o: Tid, m: Mid)
    requires Unannounced(s.tasks) && c in s.tasks && o in s.tasks && c != o
    ensures var a := Announced(s, c, m);
      Boost(a, s.tasks[c].prio, Some(o)) == if s.tasks[o].prio <= s.tasks[c].prio then a else SetPriority(a, o, s.tasks[c].prio)
  {
    hide SetPriority;
    var a := Announced(s, c, m);
    SetPriorityOnly(a, o, s.tasks[c].prio);
  }

  /** Finishing the call, on the state in which it has blocked. */
  lemma ContendedTasks(s: State, c: Tid, o: Tid, m: Mid)
    requires Unannounced(s.tasks) && s.current == Some(c) && c in s.tasks && o in s.tasks && c != o
    requires m in s.mutexes && s.mutexes[m].owner == Some(o)
    ensures var r := LockExecuted(s, m);
      r.tasks == AfterLock(s, c, o, m) && r.mutexes == s.mutexes[m := s.mutexes[m].(next := s.tasks[c].owned)]
  {
    hide Boost, EnterQueue, SetPriority, Reschedule, LockCall;
    var p, a := s.tasks[c].prio, Announced(s, c, m);
    OneRaise(s, c, o, m);
    SetPriorityOnly(a, o, p);
    var b := Boost(a, p, Some(o));
    EnterFrame(b, c, MutexQ(m), true);
    ContendedUnfolds(s, c, m);
    var x := Entered(s, c, m);
    RescheduleFrame(x);
    assert x.tasks == b.tasks[c := Parked(b.tasks[c], MutexQ(m))] && x.mutexes == s.mutexes;
    assert b.tasks[c] == s.tasks[c].(blockedOn := Some(m));
  }

  /** The wait graph after the lock has the new edge and no other change. */
  lemma ContendedGraph(s: State, r: map<Tid, Task>, mutexes: map<Mid, Mutex>, c: Tid, o: Tid, m: Mid)
    requires c in s.tasks && o in s.tasks && c != o && Awaited(s.tasks[c]).None?
    requires m in s.mutexes && s.mutexes[m].owner == Some(o) && r == AfterLock(s, c, o, m)
    requires mutexes == s.mutexes[m := s.mutexes[m].(next := s.tasks[c].owned)]
    ensures c !in WaitGraph(s.tasks, s.mutexes)
    ensures WaitGraph(r, mutexes) == WaitGraph(s.tasks, s.mutexes)[c := o]
  {
    hide WaitGraph;
    EnterGraph(s.tasks, s.mutexes, c, m);
    GraphSame(s.tasks[c := Parked(s.tasks[c], MutexQ(m))], s.mutexes, r, mutexes);
  }

  lemma ContendedFacts(s: State, idle: Tid, m: Mid)
    requires Ongoing(s, idle) && MayCall(s, idle)
    ensures Awaited(s.tasks[s.current.value]).None?
    ensures var g := WaitGraph(s.tasks, s.mutexes); forall w :: w in g ==> g[w] in s.tasks && g[w] != w
    ensures m in s.mutexes && s.mutexes[m].owner.Some? ==> s.mutexes[m].owner.value in s.tasks
  {
    hide Placed, Rest;
  }

  /** The hidden chain in terms of the wait graph. */
  lemma HiddenIs(s: State, idle: Tid, m: Mid)
    requires Ongoing(s, idle) && MayCall(s, idle) && m in s.mutexes && s.mutexes[m].owner.Some? && s.mutexes[m].owner.value in s.tasks
    ensures var p, o, g := s.tasks[s.current.value].prio, s.mutexes[m].owner.value, WaitGraph(s.tasks, s.mutexes);
      && (o in g ==> g[o] in s.tasks)
      && (HiddenChain(s, s.current.value, m) <==> s.tasks[o].prio > p && o in g && s.tasks[g[o]].prio > p)
  {
    hide Placed, Rest;
  }

  /** What the lock leaves of priorities and bases. */
  lemma AfterLockIs(s: State, c: Tid, o: Tid, m: Mid)
    requires c in s.tasks && o in s.tasks && c != o
    ensures var r := AfterLock(s, c, o, m);
      var after := if s.tasks[o].prio <= s.tasks[c].prio then s.tasks else s.tasks[o := s.tasks[o].(prio := s.tasks[c].prio)];
      && r.Keys == s.tasks.Keys == after.Keys
      && forall t :: t in s.tasks ==> r[t].prio == after[t].prio && r[t].base == after[t].base
  {
  }

  /** A contended lock, from an exact state, leaves the priorities exact exactly if no chain is hidden. */
  lemma ContendedExactIff(s: State, idle: Tid, m: Mid)
    requires Inv(Executed, s, idle) && ExactIn(s) && MayCall(s, idle) && m in s.mutexes && Contended(s, m)
    ensures ExactIn(LockExecuted(s, m)) <==> !HiddenChain(s, s.current.value, m)
  {
    hide Core, AllExact, LockExecuted, Attended, AfterLock, HiddenChain, WaitGraph;
    ContendedFacts(s, idle, m);
    HiddenIs(s, idle, m);
    var c, o, r := s.current.value, s.mutexes[m].owner.value, LockExecuted(s, m);
    ContendedTasks(s, c, o, m);
    ContendedGraph(s, r.tasks, r.mutexes, c, o, m);
    var g := WaitGraph(s.tasks, s.mutexes);
    RaiseOnceIff(s.tasks, g, c, o);
    AfterLockIs(s, c, o, m);
    var after := if s.tasks[o].prio <= s.tasks[c].prio then s.tasks else s.tasks[o := s.tasks[o].(prio := s.tasks[c].prio)];
    if AllExact(after, g[c := o]) { ExactFrame(after, r.tasks, g[c := o]); }
    if AllExact(r.tasks, g[c := o]) { ExactFrame(r.tasks, after, g[c := o]); }
  }

  // ----- unlocking

  /** The mutexes that an unlock of `m` leaves on the list of `c`. */
  function Left(s: State, c: Tid, m: Mid): (l: seq<Mid>) {
    OwnedList(RemoveFromOwned(s, c, m), c)
  }

  /** They are the listed ones other than `m`, if the list ends. */
  lemma LeftIs(s: State, c: Tid, m: Mid)
    requires OwnedIs(s, c, OwnedList(s, c))
    ensures forall n :: n in Left(s, c, m) <==> n in OwnedList(s, c) && n != m
  {
    hide OwnedList, RemoveFromOwned, OwnedIs;
    var l := OwnedList(s, c);
    if m in l {
      RemoveIs(s, c, m, l);
      OwnedListIs(RemoveFromOwned(s, c, m), c, Without(l, m));
      ListNoDup(s, c, l);
      WithoutMembers(l, m);
    } else {
      Unlisted(s, c, m);
    }
  }

  lemma ListNoDup(s: State, c: Tid, l: seq<Mid>)
    requires OwnedIs(s, c, l)
    ensures NoDup(l)
  {
  }

  lemma Unlisted(s: State, c: Tid, m: Mid)
    requires m !in OwnedList(s, c)
    ensures RemoveFromOwned(s, c, m) == s
  {
  }

  /** Some task at level `p` or above waits for a mutex that the unlock of `m` leaves on the list. */
  ghost predicate WaiterLeft(s: State, c: Tid, m: Mid, p: Priority) {
    exists w :: w in s.tasks && Awaited(s.tasks[w]).Some? && Awaited(s.tasks[w]).value in Left(s, c, m) && s.tasks[w].prio <= p
  }

  /** Some task at level `p` or above waits for a mutex other than `m` that `c` owns. */
  ghost predicate WaiterOwed(s: State, c: Tid, m: Mid, p: Priority) {
    exists w :: Elsewhere(s.tasks, s.mutexes, c, m, w) && s.tasks[w].prio <= p
  }

  /** At each level more urgent than its base, the caller's list accounts for the tasks that the
      caller still keeps waiting. */
  ghost predicate ListAccounts(s: State, c: Tid, m: Mid)
    requires c in s.tasks
  {
    forall p: Priority :: p < s.tasks[c].base ==> (WaiterLeft(s, c, m, p) <==> WaiterOwed(s, c, m, p))
  }

  /** The recomputed priority is the least of the base and of the waiters the list leads to. */
  lemma RecomputedIs(s: State, idle: Tid, c: Tid, m: Mid)
    requires Core(s, idle) && c in s.tasks
    ensures var q := Recompute(RemoveFromOwned(s, c, m), c);
      && q <= s.tasks[c].base
      && (forall p: Priority :: p < s.tasks[c].base ==> (q <= p <==> WaiterLeft(s, c, m, p)))
  {
    hide Linked, Sorted, MutexesOk, Rest, RemoveFromOwned, OwnedList, WaiterLeft, MinHeads, Hinted;
    var a := RemoveFromOwned(s, c, m);
    UnlistedCore(s, idle, c, m);
    RestGivesShape(a, idle);
    var q := Recompute(a, c);
    MinHeadsLeast(a, OwnedList(a, c), a.tasks[c].base);
    forall p: Priority | p < s.tasks[c].base
      ensures q <= p <==> WaiterLeft(s, c, m, p)
    {
      if q <= p {
        HeadWaits(s, a, c, m, p, q);
      }
      if WaiterLeft(s, c, m, p) {
        WaiterCounts(s, a, c, m, p, q);
      }
    }
  }

  lemma HeadWaits(s: State, a: State, c: Tid, m: Mid, p: Priority, q: Priority)
    requires Shape(a) && Records(a.tasks) && Linked(a.tasks, a.queues) && Akin(s, a) && a == RemoveFromOwned(s, c, m)
    requires q <= p && exists n :: n in OwnedList(a, c) && QueueOf(a, MutexQ(n)) != [] && TaskOf(a.tasks, QueueOf(a, MutexQ(n))[0]).prio == q
    ensures WaiterLeft(s, c, m, p)
  {
    hide Linked, RemoveFromOwned, OwnedList, Shape, Records;
    var n :| n in OwnedList(a, c) && QueueOf(a, MutexQ(n)) != [] && TaskOf(a.tasks, QueueOf(a, MutexQ(n))[0]).prio == q;
    var w := QueueOf(a, MutexQ(n))[0];
    QueueIsAwaiting(a, n, w);
    assert w in s.tasks && Awaited(s.tasks[w]) == Some(n) && n in Left(s, c, m) && s.tasks[w].prio <= p;
  }

  lemma WaiterCounts(s: State, a: State, c: Tid, m: Mid, p: Priority, q: Priority)
    requires Shape(a) && Records(a.tasks) && Linked(a.tasks, a.queues) && Akin(s, a) && a == RemoveFromOwned(s, c, m)
    requires forall n, w :: n in OwnedList(a, c) && w in QueueOf(a, MutexQ(n)) ==> q <= TaskOf(a.tasks, w).prio
    requires WaiterLeft(s, c, m, p)
    ensures q <= p
  {
    hide Linked, RemoveFromOwned, OwnedList, Shape, Records;
    var w :| w in s.tasks && Awaited(s.tasks[w]).Some? && Awaited(s.tasks[w]).value in Left(s, c, m) && s.tasks[w].prio <= p;
    var n := Awaited(s.tasks[w]).value;
    QueueIsAwaiting(a, n, w);
    assert n in OwnedList(a, c) && w in QueueOf(a, MutexQ(n)) && TaskOf(a.tasks, w) == a.tasks[w];
  }

  /** The same for the priority that is left for the caller to inherit. */
  lemma ResidualIff(s: State, c: Tid, m: Mid, q: Priority)
    requires c in s.tasks
    ensures Residual(s.tasks, s.mutexes, c, m, q) <==>
      q <= s.tasks[c].base && forall p: Priority :: p < s.tasks[c].base ==> (q <= p <==> WaiterOwed(s, c, m, p))
  {
    var base := s.tasks[c].base;
    if q <= base && forall p: Priority :: p < base ==> (q <= p <==> WaiterOwed(s, c, m, p)) {
      forall w | Elsewhere(s.tasks, s.mutexes, c, m, w)
        ensures q <= s.tasks[w].prio
      {
        assert s.tasks[w].prio < base ==> WaiterOwed(s, c, m, s.tasks[w].prio);
      }
      if q < base {
        assert WaiterOwed(s, c, m, q);
      }
    }
  }

  lemma AccountsIff(s: State, idle: Tid, c: Tid, m: Mid)
    requires Core(s, idle) && c in s.tasks
    ensures Residual(s.tasks, s.mutexes, c, m, Recompute(RemoveFromOwned(s, c, m), c)) <==> ListAccounts(s, c, m)
  {
    hide Core, WaiterLeft, WaiterOwed, Residual, RemoveFromOwned, Recompute;
    RecomputedIs(s, idle, c, m);
    var q := Recompute(RemoveFromOwned(s, c, m), c);
    ResidualIff(s, c, m, q);
  }

  /** The priority set is the right one if nothing else has become inexact. */
  lemma OwnerExactIff(tasks: map<Tid, Task>, mutexes: map<Mid, Mutex>, c: Tid, m: Mid, h: Option<Tid>, p: Priority,
                      tasks': map<Tid, Task>, g: map<Tid, Tid>, g': map<Tid, Tid>)
    requires Rerouted(tasks, mutexes, m, h, g, g') && tasks'.Keys == tasks.Keys
    requires c in tasks && Owns(mutexes, c, m) && h != Some(c) && Awaited(tasks[c]).None?
    requires h.Some? ==> h.value in tasks && Awaited(tasks[h.value]) == Some(m)
    requires forall t :: t in tasks ==> tasks'[t].base == tasks[t].base
    requires forall t :: t in tasks && t != c ==> tasks'[t].prio == tasks[t].prio
    requires tasks'[c].prio == p && Exact(tasks', g', c)
    ensures Residual(tasks, mutexes, c, m, p)
  {
    forall w | Elsewhere(tasks, mutexes, c, m, w)
      ensures p <= tasks[w].prio
    {
      assert w in g' && g'[w] == c;
    }
    if p != tasks[c].base {
      var w :| w in g' && w in tasks' && g'[w] == c && tasks'[w].prio == tasks'[c].prio;
      assert Elsewhere(tasks, mutexes, c, m, w);
    }
  }

  /** An unlock, from an exact state, leaves the priorities exact exactly if the caller's list
      accounts for the tasks that the caller still keeps waiting. */
  lemma UnlockExactIff(s: State, idle: Tid, m: Mid)
    requires Ongoing(s, idle) && ExactIn(s) && MayCall(s, idle) && m in s.mutexes && s.mutexes[m].owner == s.current
    ensures ExactIn(Unlock(s, m)) <==> ListAccounts(s, s.current.value, m)
  {
    hide Placed, Rest, Unlock, Surrendered, RemoveFromOwned, Recompute, WaitGraph, Exact, Residual, Rerouted, Top, Akin, SameLinks, ListAccounts;
    var c := s.current.value;
    var e, q := Surrendered(s, c, m), QueueOf(s, MutexQ(m));
    var h := if q == [] then None else Some(q[0]);
    var p := Recompute(RemoveFromOwned(s, c, m), c);
    AwakeCaller(s, idle);
    SurrenderedCore(s, idle, m);
    QueueWaits(s, idle, m);
    UnlockFree(s, idle, m);
    ExactAkin(e, Unlock(s, m));
    AccountsIff(s, idle, c, m);
    HandOffGraph(s.tasks, s.mutexes, c, m, h, e.tasks, e.mutexes);
    if Residual(s.tasks, s.mutexes, c, m, p) {
      HandOffExact(s.tasks, s.mutexes, c, m, h, p, e.tasks, e.mutexes);
    }
    if ExactIn(e) {
      OwnerExactIff(s.tasks, s.mutexes, c, m, h, p, e.tasks, WaitGraph(s.tasks, s.mutexes), WaitGraph(e.tasks, e.mutexes));
    }
  }

  // ----- every step

  /** What a step must meet to keep exact inheritance; only lock and unlock have to. */
  ghost predicate KeepsExact(s: State, e: Event) {
    match e
    case LockMutex(m) => s.current.Some? && s.current.value in s.tasks && Contended(s, m) ==> !HiddenChain(s, s.current.value, m)
    case UnlockMutex(m) =>
      s.current.Some? && s.current.value in s.tasks && MutexOf(s, m).owner == s.current ==> ListAccounts(s, s.current.value, m)
    case _ => true
  }

  lemma LockStepExactIff(s: State, idle: Tid, m: Mid)
    requires Inv(Executed, s, idle) && ExactIn(s) && MayCall(s, idle) && m in s.mutexes
    ensures ExactIn(LockExecuted(s, m)) <==> KeepsExact(s, LockMutex(m))
  {
    hide Core, Attended, ExactIn, LockCall, LockResume, HiddenChain;
    if s.mutexes[m].owner.None? {
      SeizeExact(s, idle, m);
    } else if Contended(s, m) {
      ContendedExactIff(s, idle, m);
    } else {
      LockRefused(s, m);
    }
  }

  lemma UnlockStepExactIff(s: State, idle: Tid, m: Mid)
    requires Ongoing(s, idle) && ExactIn(s) && MayCall(s, idle) && m in s.mutexes
    ensures ExactIn(Unlock(s, m)) <==> KeepsExact(s, UnlockMutex(m))
  {
    hide Core, Attended, ExactIn, Unlock, ListAccounts;
    if s.mutexes[m].owner == s.current {
      UnlockExactIff(s, idle, m);
    } else {
      UnlockRefused(s, m);
    }
  }

  /** Any step of any executed run keeps exact inheritance exactly if it meets its condition. */
  lemma StepExactIff(s: State, idle: Tid, e: Event)
    requires Inv(Executed, s, idle) && ExactIn(s) && Enabled(Executed, s, idle, e)
    ensures ExactIn(Step(Executed, s, e)) <==> KeepsExact(s, e)
  {
    hide Core, Attended, ExactIn, Alike, LockExecuted, Unlock, Create, NewMutex, HiddenChain, ListAccounts;
    if Plain(e) {
      PlainStep(Executed, s, idle, e);
      AlikeIsAkin(s, Step(Executed, s, e));
      ExactAkin(s, Step(Executed, s, e));
    } else {
      match e
      case LockMutex(m) => LockStepExactIff(s, idle, m);
      case UnlockMutex(m) => UnlockStepExactIff(s, idle, m);
      case CreateTask(t, p) => CreatedExact(s, idle, t, p);
      case InitMutex(m, link) => InitMutexExact(s, m, link);
      case _ =>
    }
  }

  // ----- whole runs

  /** The kernel accepts `e` and completes it. */
  ghost predicate Allowed(s: State, idle: Tid, e: Event) {
    Enabled(Executed, s, idle, e) && Completes(s, e)
  }

  /** Every step of `es`, one after the other, is one the kernel accepts and completes. */
  ghost predicate AllowedRun(s: State, idle: Tid, es: seq<Event>)
    decreases |es|
  {
    es == [] || (Allowed(s, idle, es[0]) && AllowedRun(Step(Executed, s, es[0]), idle, es[1..]))
  }

  /** Inheritance is exact in `s` and after every step of `es`. */
  ghost predicate ExactThroughout(s: State, es: seq<Event>)
    decreases |es|
  {
    Inherits(s.tasks, s.mutexes) && (es == [] || ExactThroughout(Step(Executed, s, es[0]), es[1..]))
  }

  /** Every step of `es` meets its condition. */
  ghost predicate KeepsThroughout(s: State, es: seq<Event>)
    decreases |es|
  {
    es == [] || (KeepsExact(s, es[0]) && KeepsThroughout(Step(Executed, s, es[0]), es[1..]))
  }

  lemma {:induction false} ExactFromIff(s: State, idle: Tid, es: seq<Event>)
    requires Inv(Executed, s, idle) && ExactIn(s) && AllowedRun(s, idle, es)
    ensures ExactThroughout(s, es) <==> KeepsThroughout(s, es)
    decreases |es|
  {
    hide Inv, Enabled, Returns, KeepsExact, Step, Inherits, AllExact, WaitGraph;
    InheritsIff(s.tasks, s.mutexes);
    if es != [] {
      var r := Step(Executed, s, es[0]);
      StepExactIff(s, idle, es[0]);
      StepInv(Executed, s, idle, es[0]);
      InheritsIff(r.tasks, r.mutexes);
      if ExactIn(r) {
        ExactFromIff(r, idle, es[1..]);
      } else {
        assert !ExactThroughout(r, es[1..]);
      }
    }
  }

  lemma BootedExact(idle: Tid)
    ensures ExactIn(Booted(idle))
  {
    hide Booted;
    BootedIs(idle);
  }

  /** The exact condition, for every run as executed, locks nested at will: inheritance is exact
      throughout if and only if no contended lock meets a hidden chain and at every unlock the
      caller's list accounts for the tasks that the caller still keeps waiting. */
  lemma RunExactIff(idle: Tid, es: seq<Event>)
    requires AllowedRun(Booted(idle), idle, es)
    ensures ExactThroughout(Booted(idle), es) <==> KeepsThroughout(Booted(idle), es)
  {
    hide Booted, AllowedRun, ExactThroughout, KeepsThroughout, Inv, ExactIn;
    BootedInv(Executed, idle);
    BootedExact(idle);
    ExactFromIff(Booted(idle), idle, es);
  }

  lemma {:induction false} FiniteAllowed(s: State, idle: Tid, es: seq<Event>)
    requires Inv(Executed, s, idle) && AllFinite(s) && Legal(Executed, s, idle, es) && NeverRelocks(s, es)
    ensures AllowedRun(s, idle, es)
    decreases |es|
  {
    hide Core, Attended, Unannounced, Enabled, Returns, Step, AllFinite, Relocks;
    if es != [] {
      var r := Step(Executed, s, es[0]);
      StepFiniteIff(s, idle, es[0]);
      StepInv(Executed, s, idle, es[0]);
      if es[0].UnlockMutex? {
        UnlockCaller(s, idle, es[0].mutex);
        FiniteReturns(s, s.current.value, es[0].mutex);
      }
      FiniteAllowed(r, idle, es[1..]);
    }
  }

  lemma UnlockCaller(s: State, idle: Tid, m: Mid)
    requires Enabled(Executed, s, idle, UnlockMutex(m))
    ensures s.current.Some? && s.current.value in s.tasks
  {
  }

  /** So it is for every run in which no lock that is not refused takes a mutex that is on its
      caller's list already, because there every unlock returns. */
  lemma FiniteRunExactIff(idle: Tid, es: seq<Event>)
    requires Legal(Executed, Booted(idle), idle, es) && NeverRelocks(Booted(idle), es)
    ensures AllowedRun(Booted(idle), idle, es)
    ensures ExactThroughout(Booted(idle), es) <==> KeepsThroughout(Booted(idle), es)
  {
    hide Booted, Legal, AllowedRun, ExactThroughout, KeepsThroughout, NeverRelocks, Inv, AllFinite;
    BootedInv(Executed, idle);
    BootedFinite(idle);
    FiniteAllowed(Booted(idle), idle, es);
    RunExactIff(idle, es);
  }
}
