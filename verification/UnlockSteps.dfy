/** Unlocking keeps `Settled`: the owner falls back to exactly what it still inherits and
    the most urgent waiter takes the mutex over. */
module UnlockSteps {
  import opened Base
  import opened KernelState
  import opened Invariants
  import opened Structure
  import opened Inheritance
  import opened OwnedLists
  import opened Preservation
  import opened LockSteps

  // ----- recomputing the priority

  /** The fold over the heads of sorted queues finds the least of `acc` and all waiters. */
  lemma {:induction false} MinHeadsLeast(s: State, l: seq<Mid>, acc: Priority)
    requires Shape(s) && Sorted(s.tasks, s.queues)
    requires forall n :: n in l ==> n in s.mutexes
    ensures var p := MinHeads(s, l, acc);
      && p <= acc
      && (forall n, w :: n in l && w in QueueOf(s, MutexQ(n)) ==> p <= TaskOf(s.tasks, w).prio)
      && (p == acc || exists n :: n in l && QueueOf(s, MutexQ(n)) != []
                                  && TaskOf(s.tasks, QueueOf(s, MutexQ(n))[0]).prio == p)
  {
    if l != [] {
      var q := QueueOf(s, MutexQ(l[0]));
      assert MutexQ(l[0]) in s.queues && SortedBy(s.tasks, q);
      var here := if q != [] && TaskOf(s.tasks, q[0]).prio < acc then TaskOf(s.tasks, q[0]).prio else acc;
      MinHeadsLeast(s, l[1..], here);
      forall w | w in q
        ensures here <= TaskOf(s.tasks, w).prio
      {
        var i := IndexOf(q, w);
      }
      var p := MinHeads(s, l, acc);
      assert p == MinHeads(s, l[1..], here);
      if p != here {
        var n :| n in l[1..] && QueueOf(s, MutexQ(n)) != [] && TaskOf(s.tasks, QueueOf(s, MutexQ(n))[0]).prio == p;
        assert n in l;
      }
    }
  }

  /** `w` waits for a mutex of `c` other than `m`. */
  ghost predicate Elsewhere(tasks: map<Tid, Task>, mutexes: map<Mid, Mutex>, c: Tid, m: Mid, w: Tid) {
    && w in tasks && Awaited(tasks[w]).Some? && Awaited(tasks[w]) != Some(m)
    && Owns(mutexes, c, Awaited(tasks[w]).value)
  }

  /** `p` is the least of `c`'s base and the priorities of the waiters on its mutexes other than `m`. */
  ghost predicate Residual(tasks: map<Tid, Task>, mutexes: map<Mid, Mutex>, c: Tid, m: Mid, p: Priority)
    requires c in tasks
  {
    && p <= tasks[c].base
    && (forall w :: Elsewhere(tasks, mutexes, c, m, w) ==> p <= tasks[w].prio)
    && (p == tasks[c].base || exists w :: Elsewhere(tasks, mutexes, c, m, w) && tasks[w].prio == p)
  }

  lemma QueueIsAwaiting(s: State, n: Mid, w: Tid)
    requires Shape(s) && Records(s.tasks) && Linked(s.tasks, s.queues) && n in s.mutexes
    ensures w in QueueOf(s, MutexQ(n)) <==> w in s.tasks && Awaited(s.tasks[w]) == Some(n)
  {
  }

  lemma RecomputeResidual(s: State, c: Tid, m: Mid)
    requires Shape(s) && Records(s.tasks) && Placed(s.tasks, s.queues) && c in s.tasks
    requires forall n :: n in OwnedList(s, c) <==> n != m && Owns(s.mutexes, c, n)
    ensures Residual(s.tasks, s.mutexes, c, m, Recompute(s, c))
  {
    hide Linked, Sorted, Records, Shape, MinHeads;
    var l := OwnedList(s, c);
    var p := Recompute(s, c);
    MinHeadsLeast(s, l, s.tasks[c].base);
    forall w | Elsewhere(s.tasks, s.mutexes, c, m, w)
      ensures p <= s.tasks[w].prio
    {
      var n := Awaited(s.tasks[w]).value;
      assert n in l;
      QueueIsAwaiting(s, n, w);
      assert w in QueueOf(s, MutexQ(n)) && TaskOf(s.tasks, w) == s.tasks[w];
    }
    if p != s.tasks[c].base {
      var n :| n in l && QueueOf(s, MutexQ(n)) != [] && TaskOf(s.tasks, QueueOf(s, MutexQ(n))[0]).prio == p;
      var w := QueueOf(s, MutexQ(n))[0];
      QueueIsAwaiting(s, n, w);
      assert Elsewhere(s.tasks, s.mutexes, c, m, w);
    }
  }

  // ----- handing over

  /** How the wait graph changes when `m` passes from `c` to `h`, the head of its waiters. */
  ghost predicate Rerouted(tasks: map<Tid, Task>, mutexes: map<Mid, Mutex>, m: Mid, h: Option<Tid>,
                           g: map<Tid, Tid>, g': map<Tid, Tid>) {
    && (forall w :: w in g <==> w in tasks && Awaited(tasks[w]).Some?)
    && (forall w :: w in g ==> Awaited(tasks[w]).value in mutexes
                               && mutexes[Awaited(tasks[w]).value].owner == Some(g[w]))
    && (forall w :: w in g' <==> w in g && h != Some(w))
    && (forall w :: w in g' ==> if Awaited(tasks[w]) == Some(m) then h == Some(g'[w]) else g'[w] == g[w])
  }

  lemma HandOffGraph(tasks: map<Tid, Task>, mutexes: map<Mid, Mutex>, c: Tid, m: Mid, h: Option<Tid>,
                     tasks': map<Tid, Task>, mutexes': map<Mid, Mutex>)
    requires MutexesOk(tasks, mutexes) && c in tasks && Owns(mutexes, c, m)
    requires forall w :: w in tasks && Awaited(tasks[w]) == Some(m) ==> h.Some?
    requires tasks'.Keys == tasks.Keys && mutexes'.Keys == mutexes.Keys
    requires forall t :: t in tasks ==> Awaited(tasks'[t]) == if h == Some(t) then None else Awaited(tasks[t])
    requires forall n :: n in mutexes ==> mutexes'[n].owner == if n == m then h else mutexes[n].owner
    ensures Rerouted(tasks, mutexes, m, h, WaitGraph(tasks, mutexes), WaitGraph(tasks', mutexes'))
  {
  }

  lemma OwnerAfter(tasks: map<Tid, Task>, mutexes: map<Mid, Mutex>, c: Tid, m: Mid, h: Option<Tid>, p: Priority,
                   tasks': map<Tid, Task>, g: map<Tid, Tid>, g': map<Tid, Tid>)
    requires Rerouted(tasks, mutexes, m, h, g, g') && tasks'.Keys == tasks.Keys
    requires c in tasks && Owns(mutexes, c, m) && h != Some(c) && Residual(tasks, mutexes, c, m, p)
    requires h.Some? ==> h.value in tasks && Awaited(tasks[h.value]) == Some(m)
    requires forall t :: t in tasks ==> tasks'[t].base == tasks[t].base
    requires forall t :: t in tasks && t != c ==> tasks'[t].prio == tasks[t].prio
    requires tasks'[c].prio == p && Awaited(tasks[c]).None?
    ensures Exact(tasks', g', c)
  {
  }

  lemma HeirAfter(tasks: map<Tid, Task>, mutexes: map<Mid, Mutex>, c: Tid, m: Mid, h: Tid,
                  tasks': map<Tid, Task>, g: map<Tid, Tid>, g': map<Tid, Tid>)
    requires Rerouted(tasks, mutexes, m, Some(h), g, g') && tasks'.Keys == tasks.Keys
    requires c in tasks && Owns(mutexes, c, m) && h != c && h in tasks && Exact(tasks, g, h)
    requires forall w :: w in tasks && Awaited(tasks[w]) == Some(m) ==> tasks[h].prio <= tasks[w].prio
    requires forall t :: t in tasks ==> tasks'[t].base == tasks[t].base
    requires forall t :: t in tasks && t != c ==> tasks'[t].prio == tasks[t].prio
    requires Awaited(tasks[c]).None? && Awaited(tasks[h]) == Some(m)
    ensures Exact(tasks', g', h)
  {
    if tasks[h].prio != tasks[h].base {
      var w :| w in g && w in tasks && g[w] == h && tasks[w].prio == tasks[h].prio;
      assert w in g' && g'[w] == h;
    }
  }

  lemma OthersAfter(tasks: map<Tid, Task>, mutexes: map<Mid, Mutex>, c: Tid, m: Mid, h: Option<Tid>, t: Tid,
                    tasks': map<Tid, Task>, g: map<Tid, Tid>, g': map<Tid, Tid>)
    requires Rerouted(tasks, mutexes, m, h, g, g') && tasks'.Keys == tasks.Keys
    requires c in tasks && Owns(mutexes, c, m) && t != c && h != Some(t) && t in tasks && Exact(tasks, g, t)
    requires forall x :: x in tasks ==> tasks'[x].base == tasks[x].base
    requires forall x :: x in tasks && x != c ==> tasks'[x].prio == tasks[x].prio
    requires Awaited(tasks[c]).None? && (h.Some? ==> h.value in tasks && Awaited(tasks[h.value]) == Some(m))
    ensures Exact(tasks', g', t)
  {
    if tasks[t].prio != tasks[t].base {
      var w :| w in g && w in tasks && g[w] == t && tasks[w].prio == tasks[t].prio;
      assert w in g' && g'[w] == t;
    }
  }

  /** Owner `c` drops to its residual priority and `m` passes to `h`, its most urgent waiter
      (or to nobody, if nobody waits): every task is exact again. */
  lemma HandOffExact(tasks: map<Tid, Task>, mutexes: map<Mid, Mutex>, c: Tid, m: Mid, h: Option<Tid>, p: Priority,
                     tasks': map<Tid, Task>, mutexes': map<Mid, Mutex>)
    requires AllExact(tasks, WaitGraph(tasks, mutexes)) && MutexesOk(tasks, mutexes)
    requires c in tasks && Owns(mutexes, c, m) && Awaited(tasks[c]).None?
    requires Residual(tasks, mutexes, c, m, p)
    requires h.Some? ==> h.value in tasks && Awaited(tasks[h.value]) == Some(m)
    requires forall w :: w in tasks && Awaited(tasks[w]) == Some(m) ==> h.Some? && tasks[h.value].prio <= tasks[w].prio
    requires tasks'.Keys == tasks.Keys && mutexes'.Keys == mutexes.Keys
    requires forall t :: t in tasks ==> tasks'[t].base == tasks[t].base
    requires forall t :: t in tasks && t != c ==> tasks'[t].prio == tasks[t].prio
    requires tasks'[c].prio == p
    requires forall t :: t in tasks ==> Awaited(tasks'[t]) == if h == Some(t) then None else Awaited(tasks[t])
    requires forall n :: n in mutexes ==> mutexes'[n].owner == if n == m then h else mutexes[n].owner
    ensures AllExact(tasks', WaitGraph(tasks', mutexes'))
  {
    hide WaitGraph, MutexesOk, Exact, Residual, Rerouted;
    var g, g' := WaitGraph(tasks, mutexes), WaitGraph(tasks', mutexes');
    HandOffGraph(tasks, mutexes, c, m, h, tasks', mutexes');
    forall t | t in tasks'
      ensures Exact(tasks', g', t)
    {
      if t == c {
        OwnerAfter(tasks, mutexes, c, m, h, p, tasks', g, g');
      } else if h == Some(t) {
        HeirAfter(tasks, mutexes, c, m, t, tasks', g, g');
      } else {
        OthersAfter(tasks, mutexes, c, m, h, t, tasks', g, g');
      }
    }
  }

  // ----- the whole routine

  /** `c` is about to unlock `m`, and its list is the set of mutexes it owns. */
  ghost predicate CanUnlock(s: State, idle: Tid, c: Tid, m: Mid) {
    && Settled(s, idle)
    && c in s.tasks && !s.tasks[c].status.Blocked? && c != idle
    && Owns(s.mutexes, c, m)
    && OwnedIs(s, c, OwnedList(s, c))
    && (forall n :: n in OwnedList(s, c) <==> Owns(s.mutexes, c, n))
  }

  lemma UnlistSettled(s: State, idle: Tid, c: Tid, m: Mid)
    requires CanUnlock(s, idle, c, m)
    ensures var a := RemoveFromOwned(s, c, m);
      && Settled(a, idle)
      && (forall n :: n in OwnedList(a, c) <==> n != m && Owns(a.mutexes, c, n))
      && a.queues == s.queues && a.tasks == s.tasks[c := s.tasks[c].(owned := a.tasks[c].owned)]
      && Owns(a.mutexes, c, m)
  {
    hide Linked, Sorted, AllExact, WaitGraph, MutexesOk, ChainVisible, RemoveFromOwned, OwnedList;
    var a := RemoveFromOwned(s, c, m);
    var l := OwnedList(s, c);
    RemoveFrame(s, c, m, l);
    PlacedSame(s.tasks, a.tasks, s.queues);
    FieldsSame(s.tasks, s.mutexes, a.tasks, a.mutexes);
    RemoveIs(s, c, m, l);
    OwnedListIs(a, c, Without(l, m));
    WithoutMembers(l, m);
  }

  /** After the priority has been lowered: everything but exactness, and that `m` is about to move. */
  ghost predicate Lowered(s: State, idle: Tid, c: Tid, m: Mid, b: State, p: Priority)
    requires c in s.tasks
  {
    && Walkable(b) && Rest(b, idle)
    && b.tasks == s.tasks[c := s.tasks[c].(prio := p)]
    && b == s.(tasks := b.tasks, queues := b.queues)
    && Residual(s.tasks, s.mutexes, c, m, p)
    && QueueOf(b, MutexQ(m)) == QueueOf(s, MutexQ(m))
  }

  lemma LowerSettled(s: State, idle: Tid, c: Tid, m: Mid)
    requires Settled(s, idle) && c in s.tasks && !s.tasks[c].status.Blocked?
    requires forall n :: n in OwnedList(s, c) <==> n != m && Owns(s.mutexes, c, n)
    ensures Lowered(s, idle, c, m, SetPriority(s, c, Recompute(s, c)), Recompute(s, c))
  {
    hide Linked, Sorted, AllExact, WaitGraph, MutexesOk, ChainVisible, Shape, SemsOk, TimeoutsOk, IdleOk, SetPriority, Recompute, OwnedList;
    var p := Recompute(s, c);
    RecomputeResidual(s, c, m);
    WalkableFrame(s, c, p);
    SetPriorityMoves(s, c, p);
    SetPriorityRest(s, idle, c, p);
    SetPriorityElsewhere(s, c, p, MutexQ(m));
  }

  lemma HeadIsMostUrgent(s: State, m: Mid)
    requires Shape(s) && Records(s.tasks) && Placed(s.tasks, s.queues) && m in s.mutexes
    ensures var q := QueueOf(s, MutexQ(m));
      && (q != [] ==> q[0] in s.tasks && Awaited(s.tasks[q[0]]) == Some(m) && s.tasks[q[0]].status.Blocked?)
      && (forall w :: w in s.tasks && Awaited(s.tasks[w]) == Some(m) ==> q != [] && s.tasks[q[0]].prio <= s.tasks[w].prio)
  {
  }

  /** Who waits where decides what a change of owner may break. */
  lemma OwnerChangeFields(tasks: map<Tid, Task>, mutexes: map<Mid, Mutex>, c: Tid, m: Mid, h: Option<Tid>,
                          tasks': map<Tid, Task>, mutexes': map<Mid, Mutex>)
    requires Records(tasks) && MutexesOk(tasks, mutexes) && ChainVisible(tasks, mutexes)
    requires c in tasks && Owns(mutexes, c, m)
    requires h.Some? ==> h.value in tasks
    requires forall w :: w in tasks && Awaited(tasks[w]) == Some(m) ==> h.Some?
    requires tasks' == if h.Some? then tasks[h.value := Woken(tasks[h.value], 0)] else tasks
    requires mutexes' == mutexes[m := mutexes[m].(owner := h)]
    ensures Records(tasks') && MutexesOk(tasks', mutexes') && ChainVisible(tasks', mutexes')
  {
    forall t, n | t in tasks' && Owns(mutexes', t, n) && Awaited(tasks'[t]).Some?
      ensures tasks'[t].blockedOn == Awaited(tasks'[t])
    {
      assert n != m && Owns(mutexes, t, n);
    }
  }

  /** For a task with no timeout pending, waking the head of a queue is a plain release. */
  lemma WakeIsRelease(s: State, q: QueueId)
    requires QueueOf(s, q) != [] && QueueOf(s, q)[0] in s.tasks && QueueOf(s, q)[0] !in s.timeouts
    requires s.tasks[QueueOf(s, q)[0]].waitQ == Some(q)
    ensures WakeOne(s, q) == Released(s, QueueOf(s, q)[0], 0)
  {
  }

  /** The mutex after the hand-over. */
  function HandedOver(s: State, m: Mid): (r: State) {
    var w := QueueOf(s, MutexQ(m));
    var d := WakeOne(s, MutexQ(m));
    SetMutex(d, m, MutexOf(d, m).(owner := if w == [] then None else Some(w[0])))
  }

  lemma HandOverFields(s: State, b: State, idle: Tid, c: Tid, m: Mid, p: Priority, e: State)
    requires Fields(s.tasks, s.mutexes) && c in s.tasks && !s.tasks[c].status.Blocked? && Owns(s.mutexes, c, m)
    requires Lowered(s, idle, c, m, b, p)
    requires var q := QueueOf(b, MutexQ(m)); var h := if q == [] then None else Some(q[0]);
      && e.tasks == (if h.Some? then b.tasks[h.value := Woken(TaskOf(b.tasks, h.value), 0)] else b.tasks)
      && e.mutexes == b.mutexes[m := MutexOf(b, m).(owner := h)]
    ensures Fields(e.tasks, e.mutexes)
  {
    hide Linked, Sorted, AllExact, WaitGraph, MutexesOk, ChainVisible, Shape, SemsOk, TimeoutsOk, IdleOk, Residual;
    var q := QueueOf(b, MutexQ(m));
    var h := if q == [] then None else Some(q[0]);
    HeadIsMostUrgent(b, m);
    OwnerChangeFields(b.tasks, b.mutexes, c, m, h, e.tasks, e.mutexes);
    assert Awaited(s.tasks[c]).None?;
    forall w | w in s.tasks && Awaited(s.tasks[w]) == Some(m)
      ensures h.Some? && s.tasks[h.value].prio <= s.tasks[w].prio
    {
      assert b.tasks[w] == s.tasks[w];
    }
    HandOffExact(s.tasks, s.mutexes, c, m, h, p, e.tasks, e.mutexes);
  }

  lemma HandOverRest(s: State, idle: Tid, m: Mid)
    requires Rest(s, idle) && m in s.mutexes && Records(s.tasks) && Placed(s.tasks, s.queues)
    ensures var q := QueueOf(s, MutexQ(m)); var e := HandedOver(s, m);
      && Rest(e, idle) && Placed(e.tasks, e.queues)
      && e.tasks == (if q != [] then s.tasks[q[0] := Woken(TaskOf(s.tasks, q[0]), 0)] else s.tasks)
      && e == s.(tasks := e.tasks, queues := e.queues, mutexes := e.mutexes)
      && e.mutexes == s.mutexes[m := MutexOf(s, m).(owner := if q == [] then None else Some(q[0]))]
  {
    hide Linked, Sorted, WakeOne, TimeoutsOk, SemsOk;
    var q := QueueOf(s, MutexQ(m));
    HeadIsMostUrgent(s, m);
    if q == [] {
      WakeNobody(s, MutexQ(m));
    } else {
      NotSleeping(s, q[0]);
      WakeIsRelease(s, MutexQ(m));
      WakeMoves(s, q[0], 0);
      ReleaseRest(s, idle, q[0], 0);
    }
    var d := WakeOne(s, MutexQ(m));
    OwnerChangeRest(d, idle, m, if q == [] then None else Some(q[0]));
  }

  lemma WakeNobody(s: State, q: QueueId)
    requires QueueOf(s, q) == []
    ensures WakeOne(s, q) == s
  {
  }

  lemma OwnerChangeRest(s: State, idle: Tid, m: Mid, h: Option<Tid>)
    requires Rest(s, idle) && m in s.mutexes && h != Some(idle)
    ensures Rest(SetMutex(s, m, MutexOf(s, m).(owner := h)), idle)
  {
  }

  /** Unlocking without the final reschedule, which `Settled` does not see. */
  function Surrendered(s: State, c: Tid, m: Mid): (r: State) {
    var a := RemoveFromOwned(s, c, m);
    HandedOver(SetPriority(a, c, Recompute(a, c)), m)
  }

  lemma UnlockSettled(s: State, idle: Tid, c: Tid, m: Mid)
    requires CanUnlock(s, idle, c, m)
    ensures Settled(Surrendered(s, c, m), idle)
  {
    hide Linked, Sorted, AllExact, WaitGraph, MutexesOk, ChainVisible, Shape, TimeoutsOk, SemsOk, IdleOk,
      RemoveFromOwned, SetPriority, Recompute, OwnedList, HandedOver, Residual, OwnedIs;
    var a := RemoveFromOwned(s, c, m);
    UnlistSettled(s, idle, c, m);
    LowerSettled(a, idle, c, m);
    var b := SetPriority(a, c, Recompute(a, c));
    HandOverRest(b, idle, m);
    HandOverFields(a, b, idle, c, m, Recompute(a, c), HandedOver(b, m));
  }
}
