/** Priority inheritance: the walk of a contended lock and the recomputation of an
    unlock both leave every task at exactly the priority it has inherited. */
module Inheritance {
  import opened Base
  import opened KernelState
  import opened Invariants
  import opened Structure

  /** The condition on the wait graph says that the priority is the least of the claims. */
  lemma ExactIsLeast(tasks: map<Tid, Task>, mutexes: map<Mid, Mutex>, t: Tid)
    requires t in tasks
    ensures Exact(tasks, WaitGraph(tasks, mutexes), t) <==> IsLeast(tasks[t].prio, Claims(tasks, mutexes, t))
  {
    var g, claims := WaitGraph(tasks, mutexes), Claims(tasks, mutexes, t);
    assert forall w :: WaitsOn(tasks, mutexes, w, t) <==> w in g && w in tasks && g[w] == t;
    hide WaitGraph, WaitsOn;
    assert tasks[t].base in claims;
    assert forall w :: WaitsOn(tasks, mutexes, w, t) && w in tasks ==> tasks[w].prio in claims;
  }

  lemma InheritsIff(tasks: map<Tid, Task>, mutexes: map<Mid, Mutex>)
    ensures Inherits(tasks, mutexes) <==> AllExact(tasks, WaitGraph(tasks, mutexes))
  {
    hide WaitGraph, Claims, Exact;
    forall t | t in tasks
      ensures Exact(tasks, WaitGraph(tasks, mutexes), t) <==> IsLeast(tasks[t].prio, Claims(tasks, mutexes, t))
    {
      ExactIsLeast(tasks, mutexes, t);
    }
  }

  // ----- the walk

  /** `v`, at priority `p`, has just become a reason for `o` to be urgent; apart from that `o` is exact. */
  ghost predicate Almost(tasks: map<Tid, Task>, g: map<Tid, Tid>, o: Tid, v: Tid, p: Priority)
    requires o in tasks
  {
    && v in g && v in tasks && g[v] == o && tasks[v].prio == p
    && tasks[o].prio <= tasks[o].base
    && (forall w :: w in g && w in tasks && g[w] == o && w != v ==> tasks[o].prio <= tasks[w].prio)
    && (tasks[o].prio > p || tasks[o].prio == tasks[o].base
        || exists w :: w in g && w in tasks && g[w] == o && tasks[w].prio == tasks[o].prio)
  }

  /** `AllExact`, with `o` owing an update on account of `v`. */
  ghost predicate Owing(tasks: map<Tid, Task>, g: map<Tid, Tid>, o: Tid, v: Tid, p: Priority) {
    && o in tasks
    && (forall t :: t in tasks && t != o ==> Exact(tasks, g, t))
    && Almost(tasks, g, o, v, p)
  }

  lemma WalkStops(tasks: map<Tid, Task>, g: map<Tid, Tid>, o: Tid, v: Tid, p: Priority)
    requires Owing(tasks, g, o, v, p) && tasks[o].prio <= p
    ensures AllExact(tasks, g)
  {
  }

  /** Raising `o` settles it; the debt passes to the task `o` itself waits for, if any. */
  lemma WalkAdvances(tasks: map<Tid, Task>, g: map<Tid, Tid>, o: Tid, v: Tid, p: Priority)
    requires Owing(tasks, g, o, v, p) && tasks[o].prio > p
    requires o in g ==> g[o] in tasks && g[o] != o
    ensures var after := tasks[o := tasks[o].(prio := p)];
      if o in g then Owing(after, g, g[o], o, p) else AllExact(after, g)
  {
    var after := tasks[o := tasks[o].(prio := p)];
    assert Exact(after, g, o);
    forall t | t in tasks && t != o && !(o in g && g[o] == t)
      ensures Exact(after, g, t)
    {
      assert Exact(tasks, g, t);
      if tasks[t].prio != tasks[t].base {
        var w :| w in g && w in tasks && g[w] == t && tasks[w].prio == tasks[t].prio;
        assert after[w].prio == after[t].prio;
      }
    }
    if o in g {
      var t := g[o];
      assert Exact(tasks, g, t);
      if tasks[t].prio != tasks[t].base {
        var w :| w in g && w in tasks && g[w] == t && tasks[w].prio == tasks[t].prio;
        assert w == o || after[w].prio == after[t].prio;
      }
    }
  }

  /** Priorities aside, nothing about any task has changed. */
  ghost predicate OnlyPriorities(before: map<Tid, Task>, after: map<Tid, Task>) {
    && before.Keys == after.Keys
    && forall t :: t in before ==> after[t] == before[t].(prio := after[t].prio)
  }

  lemma GraphFrame(before: map<Tid, Task>, after: map<Tid, Task>, mutexes: map<Mid, Mutex>)
    requires OnlyPriorities(before, after)
    ensures WaitGraph(before, mutexes) == WaitGraph(after, mutexes)
  {
  }

  /** What the walk needs of a state, apart from priorities. */
  ghost predicate Walkable(s: State) {
    && Shape(s) && Records(s.tasks) && Linked(s.tasks, s.queues) && Sorted(s.tasks, s.queues)
    && MutexesOk(s.tasks, s.mutexes) && ChainVisible(s.tasks, s.mutexes)
  }

  lemma FieldsFrame(before: map<Tid, Task>, after: map<Tid, Task>, mutexes: map<Mid, Mutex>)
    requires OnlyPriorities(before, after)
    requires Records(before) && MutexesOk(before, mutexes) && ChainVisible(before, mutexes)
    ensures Records(after) && MutexesOk(after, mutexes) && ChainVisible(after, mutexes)
  {
  }

  lemma WalkableFrame(s: State, t: Tid, p: Priority)
    requires Walkable(s) && t in s.tasks
    ensures var r := SetPriority(s, t, p);
      Walkable(r) && OnlyPriorities(s.tasks, r.tasks) && r == s.(tasks := r.tasks, queues := r.queues)
  {
    hide SetPriority, Linked, Sorted, Records, MutexesOk, ChainVisible;
    SetPriorityMoves(s, t, p);
    FieldsFrame(s.tasks, SetPriority(s, t, p).tasks, s.mutexes);
  }

  /** After raising an owner, `blockedOn` leads the walk along the wait graph. */
  lemma NextOwnerIsBlocker(s: State, o: Tid, m: Mid)
    requires Records(s.tasks) && MutexesOk(s.tasks, s.mutexes) && ChainVisible(s.tasks, s.mutexes)
    requires o in s.tasks && Owns(s.mutexes, o, m)
    ensures var g := WaitGraph(s.tasks, s.mutexes);
      NextOwner(s, o) == if o in g then Some(g[o]) else None
    ensures NextOwner(s, o).Some? ==> NextOwner(s, o).value in s.tasks && NextOwner(s, o).value != o
  {
  }

  /** Every target of an edge owns a mutex. */
  lemma TargetOwns(s: State, c: Tid, m: Mid, v: Tid) returns (n: Mid)
    requires m in s.mutexes && s.mutexes[m].owner.Some?
    requires var g := WaitGraph(s.tasks, s.mutexes)[c := s.mutexes[m].owner.value]; v in g
    ensures var g := WaitGraph(s.tasks, s.mutexes)[c := s.mutexes[m].owner.value]; Owns(s.mutexes, g[v], n)
  {
    n := if v == c then m else s.tasks[v].waitQ.value.mutex;
  }

  /** The walk settles every debt, for any wait graph, and touches only priorities.  The
      graph `g` already holds the edge from the caller `c`, which has yet to block. */
  lemma {:induction false} BoostSettles(s: State, g: map<Tid, Tid>, c: Tid, m: Mid, o: Tid, v: Tid, p: Priority)
    requires Walkable(s)
    requires c in s.tasks && s.tasks[c].prio == p && !s.tasks[c].status.Blocked?
    requires m in s.mutexes && s.mutexes[m].owner.Some? && s.mutexes[m].owner.value != c
    requires g == WaitGraph(s.tasks, s.mutexes)[c := s.mutexes[m].owner.value]
    requires Owing(s.tasks, g, o, v, p)
    ensures var r := Boost(s, p, Some(o));
      && AllExact(r.tasks, g)
      && Walkable(r)
      && OnlyPriorities(s.tasks, r.tasks)
      && r.tasks[c] == s.tasks[c]
      && r == s.(tasks := r.tasks, queues := r.queues)
    decreases LessUrgent(s.tasks, p)
  {
    hide Exact, SetPriority, Shape, Linked, Sorted, WaitGraph, NextOwner;
    if s.tasks[o].prio <= p {
      WalkStops(s.tasks, g, o, v, p);
    } else {
      var a := SetPriority(s, o, p);
      WalkableFrame(s, o, p);
      SetPriorityMoves(s, o, p);
      GraphFrame(s.tasks, a.tasks, s.mutexes);
      var n := TargetOwns(s, c, m, v);
      NextOwnerIsBlocker(a, o, n);
      assert o !in g ==> NextOwner(a, o) == None;
      assert o in g ==> NextOwner(a, o) == Some(g[o]);
      WalkAdvances(s.tasks, g, o, v, p);
      if o in g {
        assert o in LessUrgent(s.tasks, p) && o !in LessUrgent(a.tasks, p);
        assert LessUrgent(a.tasks, p) < LessUrgent(s.tasks, p);
        BoostSettles(a, g, c, m, g[o], o, p);
      }
    }
  }
}
