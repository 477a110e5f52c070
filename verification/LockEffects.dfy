/** A contended lock leaves the order of arrival alone: the caller goes behind its equals, and only
    the tasks it raises move with it. */
module LockEffects {
  import opened Base
  import opened KernelState
  import opened Invariants
  import opened Structure
  import opened Inheritance
  import opened LockSteps
  import opened Machine
  import opened Basics
  import opened StepChanges
  import opened QueueOrder
  import opened CallEffects

  /** A blocked task that has announced a mutex waits for one. */
  ghost predicate Candid(tasks: map<Tid, Task>) {
    forall t :: t in tasks && tasks[t].status.Blocked? && tasks[t].blockedOn.Some? ==> Awaited(tasks[t]).Some?
  }

  // ----- sequences

  lemma WithoutAt(l: seq<Tid>, t: Tid, i: nat)
    requires i < |Without(l, t)|
    ensures var j := if t in l && i >= IndexOf(l, t) then i + 1 else i; j < |l| && l[j] == Without(l, t)[i]
  {
    hide IndexOf;
  }

  /** Removing a task keeps the order of the rest. */
  lemma WithoutOrder(l: seq<Tid>, t: Tid, i: nat, j: nat) returns (i': nat, j': nat)
    requires i < j < |Without(l, t)|
    ensures i' < j' < |l| && l[i'] == Without(l, t)[i] && l[j'] == Without(l, t)[j]
  {
    hide IndexOf, Without;
    WithoutAt(l, t, i);
    WithoutAt(l, t, j);
    i' := if t in l && i >= IndexOf(l, t) then i + 1 else i;
    j' := if t in l && j >= IndexOf(l, t) then j + 1 else j;
  }

  lemma WithoutBehind(tasks: map<Tid, Task>, l: seq<Tid>, t: Tid, moved: set<Tid>, p: Priority)
    requires BehindEquals(tasks, l, moved, p)
    ensures BehindEquals(tasks, Without(l, t), moved, p)
  {
    hide Without;
    var r := Without(l, t);
    forall i, j | 0 <= i < j < |r|
      ensures r[j] in moved ==> TaskOf(tasks, r[i]).prio <= p
      ensures r[i] in moved && r[j] !in moved ==> TaskOf(tasks, r[j]).prio > p
    {
      var i', j' := WithoutOrder(l, t, i, j);
    }
  }

  lemma BehindSame(tasks: map<Tid, Task>, tasks': map<Tid, Task>, l: seq<Tid>, moved: set<Tid>, moved': set<Tid>, p: Priority)
    requires BehindEquals(tasks, l, moved, p)
    requires forall t :: t in l ==> TaskOf(tasks', t).prio == TaskOf(tasks, t).prio && (t in moved' <==> t in moved)
    ensures BehindEquals(tasks', l, moved', p)
  {
  }

  /** The place by priority parts a sorted queue. */
  lemma PlaceParts(tasks: map<Tid, Task>, l: seq<Tid>, p: Priority)
    requires SortedBy(tasks, l)
    ensures forall i :: 0 <= i < |l| ==> (TaskOf(tasks, l[i]).prio <= p <==> i < PriorityPos(tasks, l, p))
  {
    hide TaskOf;
    var k := PriorityPos(tasks, l, p);
    forall i | k <= i < |l|
      ensures TaskOf(tasks, l[i]).prio > p
    {
      assert k < i ==> TaskOf(tasks, l[k]).prio <= TaskOf(tasks, l[i]).prio;
    }
  }

  /** Inserting behind the equals of a sorted queue. */
  lemma InsertBehind(tasks: map<Tid, Task>, l: seq<Tid>, o: Tid, moved: set<Tid>, p: Priority)
    requires SortedBy(tasks, l) && BehindEquals(tasks, l, moved, p) && o !in l && TaskOf(tasks, o).prio == p
    requires forall t :: t in moved ==> TaskOf(tasks, t).prio == p
    ensures var r := InsertAt(l, PriorityPos(tasks, l, p), o);
      && BehindEquals(tasks, r, moved + {o}, p)
      && forall i, j :: 0 <= i < j < |r| && r[i] == o ==> TaskOf(tasks, r[j]).prio > p
  {
    PlaceParts(tasks, l, p);
    hide PriorityPos, SortedBy, TaskOf, InsertAt, BehindEquals;
    var k := PriorityPos(tasks, l, p);
    var r := InsertAt(l, k, o);
    InsertedLength(l, k, o);
    forall i, j | 0 <= i < j < |r|
      ensures r[j] in moved + {o} ==> TaskOf(tasks, r[i]).prio <= p
      ensures r[i] in moved + {o} && r[j] !in moved + {o} ==> TaskOf(tasks, r[j]).prio > p
      ensures r[i] == o ==> TaskOf(tasks, r[j]).prio > p
    {
      InsertedPair(tasks, l, o, moved, p, k, i, j);
    }
    AllPairs(tasks, r, moved + {o}, p);
  }

  lemma AllPairs(tasks: map<Tid, Task>, l: seq<Tid>, moved: set<Tid>, p: Priority)
    requires forall i, j :: 0 <= i < j < |l| ==> (l[j] in moved ==> TaskOf(tasks, l[i]).prio <= p)
    requires forall i, j :: 0 <= i < j < |l| ==> (l[i] in moved && l[j] !in moved ==> TaskOf(tasks, l[j]).prio > p)
    ensures BehindEquals(tasks, l, moved, p)
  {
    hide TaskOf;
  }

  lemma Pair(tasks: map<Tid, Task>, l: seq<Tid>, moved: set<Tid>, p: Priority, i: nat, j: nat)
    requires BehindEquals(tasks, l, moved, p) && i < j < |l|
    ensures l[j] in moved ==> TaskOf(tasks, l[i]).prio <= p
    ensures l[i] in moved && l[j] !in moved ==> TaskOf(tasks, l[j]).prio > p
  {
  }

  /** Two places of a queue into which `o` has been inserted at `k`. */
  lemma InsertedPair(tasks: map<Tid, Task>, l: seq<Tid>, o: Tid, moved: set<Tid>, p: Priority, k: nat, i: nat, j: nat)
    requires k <= |l| && i < j <= |l| && BehindEquals(tasks, l, moved, p) && o !in l && TaskOf(tasks, o).prio == p
    requires forall x :: 0 <= x < |l| ==> (TaskOf(tasks, l[x]).prio <= p <==> x < k)
    requires forall t :: t in moved ==> TaskOf(tasks, t).prio == p
    ensures var r := InsertAt(l, k, o);
      && |r| == |l| + 1
      && (r[j] in moved + {o} ==> TaskOf(tasks, r[i]).prio <= p)
      && (r[i] in moved + {o} && r[j] !in moved + {o} ==> TaskOf(tasks, r[j]).prio > p)
      && (r[i] == o ==> TaskOf(tasks, r[j]).prio > p)
  {
    hide TaskOf, InsertAt, BehindEquals;
    InsertedAt(l, k, o, i);
    InsertedAt(l, k, o, j);
    if j < k {
      Pair(tasks, l, moved, p, i, j);
    }
  }

  lemma InsertedLength(l: seq<Tid>, k: nat, o: Tid)
    requires k <= |l|
    ensures |InsertAt(l, k, o)| == |l| + 1
  {
  }

  lemma InsertedAt(l: seq<Tid>, k: nat, o: Tid, i: nat)
    requires k <= |l| && i <= |l|
    ensures |InsertAt(l, k, o)| == |l| + 1
    ensures InsertAt(l, k, o)[i] == if i < k then l[i] else if i == k then o else l[i - 1]
  {
  }

  /** Inserting by priority into any queue. */
  lemma InsertBefore(tasks: map<Tid, Task>, l: seq<Tid>, o: Tid, p: Priority)
    requires o !in l && TaskOf(tasks, o).prio == p
    ensures BeforeLess(tasks, InsertAt(l, PriorityPos(tasks, l, p), o), {o}, p)
  {
    hide PriorityPos;
  }

  lemma MinusInserted(l: seq<Tid>, k: nat, o: Tid, gone: set<Tid>)
    requires k <= |l| && o in gone
    ensures Minus(InsertAt(l, k, o), gone) == Minus(l, gone)
  {
    hide Minus;
    MinusPlus(l[..k] + [o], l[k..], gone);
    MinusPlus(l[..k], [o], gone);
    MinusGone(o, gone);
    assert l == l[..k] + l[k..];
    MinusPlus(l[..k], l[k..], gone);
  }

  lemma MinusGone(o: Tid, gone: set<Tid>)
    requires o in gone
    ensures Minus([o], gone) == []
  {
  }

  lemma MinusPrefix(a: seq<Tid>, b: seq<Tid>, gone: set<Tid>)
    requires a <= b
    ensures Minus(a, gone) <= Minus(b, gone)
  {
    assert b == a + b[|a|..];
    MinusPlus(a, b[|a|..], gone);
  }

  // ----- raising one task

  /** The tasks at `p` that have moved so far wait for mutexes. */
  ghost predicate MovedOk(tasks: map<Tid, Task>, moved: set<Tid>, p: Priority) {
    forall t :: t in moved ==> t in tasks && tasks[t].prio == p && Awaited(tasks[t]).Some?
  }

  ghost predicate AllBehind(s: State, moved: set<Tid>, p: Priority) {
    forall n :: BehindEquals(s.tasks, QueueOf(s, MutexQ(n)), moved, p)
  }

  /** What the walk needs. */
  ghost predicate Fit(s: State, idle: Tid) {
    Placed(s.tasks, s.queues) && Records(s.tasks) && Rest(s, idle) && Candid(s.tasks)
  }

  lemma FitHome(s: State, idle: Tid, t: Tid, q: QueueId)
    requires Fit(s, idle) && t in s.tasks
    ensures RecordOk(s.tasks[t]) && Home(s.tasks[t]) in s.queues && (t in QueueOf(s, q) <==> q == Home(s.tasks[t])) && NoDup(QueueOf(s, q))
    ensures forall x :: x in QueueOf(s, q) ==> x in s.tasks
  {
    hide Sorted, Rest, Candid;
  }

  /** Where a raised task goes. */
  lemma RaiseQueue(s: State, idle: Tid, o: Tid, p: Priority, q: QueueId)
    requires Fit(s, idle) && o in s.tasks && s.tasks[o].prio > p
    ensures var a := SetPriority(s, o, p); var l := Without(QueueOf(s, q), o);
      QueueOf(a, q) ==
        if s.tasks[o].status.Blocked? then
          (if s.tasks[o].waitQ == Some(q) then InsertAt(l, PriorityPos(a.tasks, l, p), o) else QueueOf(s, q))
        else if q == ReadyQ(p) then QueueOf(s, q) + [o] else l
  {
    hide Fit, Without, PriorityPos, InsertAt;
    FitHome(s, idle, o, q);
    SetPriorityOnly(s, o, p);
    if q != Home(s.tasks[o]) {
      NotThere(QueueOf(s, q), o);
    }
  }

  lemma RaiseFit(s: State, idle: Tid, o: Tid, p: Priority)
    requires Fit(s, idle) && o in s.tasks
    ensures var a := SetPriority(s, o, p); Fit(a, idle) && a.tasks == s.tasks[o := s.tasks[o].(prio := p)] && a == s.(tasks := a.tasks, queues := a.queues)
    ensures SetPriority(s, o, p).queues.Keys == s.queues.Keys
  {
    hide Linked, Sorted, Rest, Records, SetPriority;
    RestGivesShape(s, idle);
    RaisedCore(s, idle, o, p);
    SetPriorityMoves(s, o, p);
  }

  lemma RaiseBehind(s: State, idle: Tid, o: Tid, p: Priority, moved: set<Tid>, n: Mid)
    requires Fit(s, idle) && o in s.tasks && s.tasks[o].prio > p && BehindEquals(s.tasks, QueueOf(s, MutexQ(n)), moved, p)
    requires MovedOk(s.tasks, moved, p)
    ensures var a := SetPriority(s, o, p); BehindEquals(a.tasks, QueueOf(a, MutexQ(n)), moved + {o}, p)
  {
    hide Fit, Without, SetPriority, BehindEquals, PriorityPos, InsertAt, QueueOf;
    var a, q := SetPriority(s, o, p), MutexQ(n);
    var l := Without(QueueOf(s, q), o);
    RaiseFit(s, idle, o, p);
    RaiseQueue(s, idle, o, p, q);
    FitHome(s, idle, o, q);
    if o in QueueOf(s, q) {
      WithoutMembers(QueueOf(s, q), o);
      WithoutBehind(s.tasks, QueueOf(s, q), o, moved, p);
      BehindSame(s.tasks, a.tasks, l, moved, moved, p);
      QueueSorted(s, idle, n, o);
      SortedFrame(s.tasks, a.tasks, l);
      InsertBehind(a.tasks, l, o, moved, p);
    } else {
      NotThere(QueueOf(s, q), o);
      BehindSame(s.tasks, a.tasks, QueueOf(s, q), moved, moved + {o}, p);
    }
  }

  lemma QueueSorted(s: State, idle: Tid, n: Mid, o: Tid)
    requires Fit(s, idle)
    ensures SortedBy(s.tasks, Without(QueueOf(s, MutexQ(n)), o))
  {
    hide Linked, Rest, Candid, Records, SortedBy;
    if MutexQ(n) in s.queues {
      WithoutSorted(s.tasks, s.queues[MutexQ(n)], o);
    } else {
      NoneSorted(s.tasks, o);
    }
  }

  lemma NoneSorted(tasks: map<Tid, Task>, o: Tid)
    ensures SortedBy(tasks, Without([], o))
  {
  }

  // ----- the walk

  /** What a walk from `s` to `r` has done, when the tasks of `moved` had been raised to `p` before. */
  ghost predicate Walk(s: State, r: State, moved: set<Tid>, p: Priority) {
    var raised := Raised(s, r);
    && (forall t :: t in raised ==> TaskOf(r.tasks, t).prio == p)
    && (forall q :: Minus(QueueOf(r, q), raised) == Minus(QueueOf(s, q), raised))
    && (forall l: Priority :: Minus(QueueOf(s, ReadyQ(l)), raised) <= QueueOf(r, ReadyQ(l)))
    && AllBehind(r, moved + raised, p)
    && (forall q: QueueId :: q.SemQ? || q.Sleep? ==> BeforeLess(r.tasks, QueueOf(r, q), raised, p))
  }

  lemma NoWalk(s: State, moved: set<Tid>, p: Priority)
    requires AllBehind(s, moved, p)
    ensures Walk(s, s, moved, p) && Raised(s, s) == {}
  {
    hide BehindEquals, Minus;
    assert Raised(s, s) == {} && moved + {} == moved;
    forall q
      ensures Minus(QueueOf(s, q), {}) == QueueOf(s, q)
    {
      MinusAbsent(QueueOf(s, q), {});
    }
  }

  /** Raising one task takes it out and puts it in; in a ready queue it comes last. */
  lemma RaiseOrder(s: State, idle: Tid, o: Tid, p: Priority, q: QueueId)
    requires Fit(s, idle) && o in s.tasks && s.tasks[o].prio > p
    ensures var a := SetPriority(s, o, p);
      && Minus(QueueOf(a, q), {o}) == Minus(QueueOf(s, q), {o})
      && (q.ReadyQ? ==> Minus(QueueOf(s, q), {o}) <= QueueOf(a, q))
  {
    hide Fit, Minus, Without, SetPriority, PriorityPos, InsertAt, QueueOf;
    var a, l := SetPriority(s, o, p), Without(QueueOf(s, q), o);
    RaiseQueue(s, idle, o, p, q);
    FitHome(s, idle, o, q);
    MinusWithout(QueueOf(s, q), o, {o});
    MinusOne(QueueOf(s, q), o);
    if o !in QueueOf(s, q) { NotThere(QueueOf(s, q), o); }
    if s.tasks[o].waitQ == Some(q) {
      MinusInserted(l, PriorityPos(a.tasks, l, p), o, {o});
    }
    MinusPlus(QueueOf(s, q), [o], {o});
    MinusGone(o, {o});
  }

  /** One raise, then the rest of the walk. */
  lemma Onward(s: State, a: State, r: State, idle: Tid, o: Tid, p: Priority, moved: set<Tid>)
    requires Fit(s, idle) && o in s.tasks && s.tasks[o].prio > p && a == SetPriority(s, o, p)
    requires a.tasks == s.tasks[o := s.tasks[o].(prio := p)] && r.tasks.Keys == a.tasks.Keys && r.tasks[o] == a.tasks[o]
    requires Walk(a, r, moved + {o}, p)
    requires forall q: QueueId :: q.SemQ? || q.Sleep? ==> BeforeLess(r.tasks, QueueOf(r, q), Raised(a, r) + {o}, p)
    ensures Walk(s, r, moved, p)
  {
    hide Fit, Minus, QueueOf, SetPriority, BeforeLess, BehindEquals;
    var rest, all := Raised(a, r), Raised(s, r);
    assert all == rest + {o} == {o} + rest;
    assert moved + {o} + rest == moved + all;
    forall q
      ensures Minus(QueueOf(r, q), all) == Minus(QueueOf(s, q), all)
      ensures q.ReadyQ? ==> Minus(QueueOf(s, q), all) <= QueueOf(r, q)
    {
      RaiseOrder(s, idle, o, p, q);
      MinusTwice(QueueOf(r, q), rest, {o});
      MinusTwice(QueueOf(a, q), rest, {o});
      MinusTwice(QueueOf(a, q), {o}, rest);
      MinusTwice(QueueOf(s, q), {o}, rest);
      if q.ReadyQ? {
        MinusPrefix(Minus(QueueOf(s, q), {o}), QueueOf(a, q), rest);
      }
    }
  }

  /** A task that is raised and does not lead on waits for no mutex or not at all. */
  lemma LastRaised(s: State, idle: Tid, o: Tid, p: Priority, q: QueueId)
    requires Fit(s, idle) && o in s.tasks && s.tasks[o].prio > p && !q.ReadyQ? && !q.MutexQ?
    ensures var a := SetPriority(s, o, p); BeforeLess(a.tasks, QueueOf(a, q), {o}, p)
  {
    hide Fit, Without, SetPriority, PriorityPos, InsertAt, QueueOf;
    var a, l := SetPriority(s, o, p), Without(QueueOf(s, q), o);
    RaiseQueue(s, idle, o, p, q);
    RaiseFit(s, idle, o, p);
    FitHome(s, idle, o, q);
    WithoutMembers(QueueOf(s, q), o);
    if s.tasks[o].waitQ == Some(q) {
      InsertBefore(a.tasks, l, o, p);
    }
  }

  lemma {:induction false} WalkOrder(s: State, idle: Tid, p: Priority, o: Option<Tid>, moved: set<Tid>)
    requires Fit(s, idle) && MovedOk(s.tasks, moved, p) && AllBehind(s, moved, p)
    ensures Walk(s, Boost(s, p, o), moved, p)
    decreases LessUrgent(s.tasks, p)
  {
    hide Fit, Walk, AllBehind, SetPriority, NextOwner, MovedOk, BeforeLess;
    if o.Some? && o.value in s.tasks && s.tasks[o.value].prio > p {
      var t := o.value;
      var a := SetPriority(s, t, p);
      RaiseFit(s, idle, t, p);
      assert t in LessUrgent(s.tasks, p) && t !in LessUrgent(a.tasks, p);
      assert LessUrgent(a.tasks, p) < LessUrgent(s.tasks, p);
      RaiseAllBehind(s, idle, t, p, moved);
      var r := Boost(a, p, NextOwner(a, t));
      FitWalk(a, idle, p, NextOwner(a, t), t);
      if Awaited(s.tasks[t]).Some? {
        MovedMore(s.tasks, a.tasks, t, moved, p);
        WalkOrder(a, idle, p, NextOwner(a, t), moved + {t});
        WaiterElsewhere(s, a, r, idle, t, p, moved);
      } else {
        LeadsNowhere(a, idle, t);
        NoWalk(a, moved + {t}, p);
        StoppedAt(s, a, idle, t, p);
      }
      Onward(s, a, r, idle, t, p, moved);
    } else {
      NoWalk(s, moved, p);
    }
  }

  lemma RaiseAllBehind(s: State, idle: Tid, o: Tid, p: Priority, moved: set<Tid>)
    requires Fit(s, idle) && o in s.tasks && s.tasks[o].prio > p && MovedOk(s.tasks, moved, p) && AllBehind(s, moved, p)
    ensures AllBehind(SetPriority(s, o, p), moved + {o}, p)
  {
    hide Fit, MovedOk, SetPriority, BehindEquals;
    forall n
      ensures var a := SetPriority(s, o, p); BehindEquals(a.tasks, QueueOf(a, MutexQ(n)), moved + {o}, p)
    {
      RaiseBehind(s, idle, o, p, moved, n);
    }
  }

  lemma MovedMore(tasks: map<Tid, Task>, tasks': map<Tid, Task>, t: Tid, moved: set<Tid>, p: Priority)
    requires MovedOk(tasks, moved, p) && t in tasks && Awaited(tasks[t]).Some? && tasks' == tasks[t := tasks[t].(prio := p)]
    ensures MovedOk(tasks', moved + {t}, p)
  {
  }

  /** The rest of the walk leaves a task at `p` as it is, and the state fit. */
  lemma FitWalk(a: State, idle: Tid, p: Priority, o: Option<Tid>, t: Tid)
    requires Fit(a, idle) && t in a.tasks && a.tasks[t].prio == p
    ensures var r := Boost(a, p, o); Fit(r, idle) && r.tasks.Keys == a.tasks.Keys && r.tasks[t] == a.tasks[t]
  {
    hide Placed, Records, Rest;
    BoostCore(a, idle, p, o);
  }

  lemma LeadsNowhere(a: State, idle: Tid, t: Tid)
    requires Fit(a, idle) && t in a.tasks && Awaited(a.tasks[t]).None?
    ensures NextOwner(a, t).None?
  {
    hide Placed, Records, Rest;
  }

  lemma WaiterElsewhere(s: State, a: State, r: State, idle: Tid, t: Tid, p: Priority, moved: set<Tid>)
    requires Fit(r, idle) && t in s.tasks && Awaited(s.tasks[t]).Some?
    requires a.tasks == s.tasks[t := s.tasks[t].(prio := p)] && t in r.tasks && r.tasks[t] == a.tasks[t] && Walk(a, r, moved + {t}, p)
    ensures forall q: QueueId :: q.SemQ? || q.Sleep? ==> BeforeLess(r.tasks, QueueOf(r, q), Raised(a, r) + {t}, p)
  {
    hide Fit, Minus, QueueOf, BehindEquals;
    forall q: QueueId | q.SemQ? || q.Sleep?
      ensures BeforeLess(r.tasks, QueueOf(r, q), Raised(a, r) + {t}, p)
    {
      FitHome(r, idle, t, q);
    }
  }

  lemma StoppedAt(s: State, a: State, idle: Tid, t: Tid, p: Priority)
    requires Fit(s, idle) && t in s.tasks && s.tasks[t].prio > p && a == SetPriority(s, t, p)
    ensures forall q: QueueId :: q.SemQ? || q.Sleep? ==> BeforeLess(a.tasks, QueueOf(a, q), Raised(a, a) + {t}, p)
  {
    hide Fit, SetPriority, BeforeLess;
    assert Raised(a, a) + {t} == {t};
    forall q: QueueId | q.SemQ? || q.Sleep?
      ensures BeforeLess(a.tasks, QueueOf(a, q), Raised(a, a) + {t}, p)
    {
      LastRaised(s, idle, t, p, q);
    }
  }

  // ----- joining the waiters

  lemma JoinQueue(b: State, idle: Tid, c: Tid, m: Mid, q: QueueId)
    requires Fit(b, idle) && c in b.tasks && !b.tasks[c].status.Blocked?
    ensures var x := EnterQueue(b, c, MutexQ(m), true); var l := QueueOf(b, q); var p := b.tasks[c].prio;
      QueueOf(x, q) == if q == MutexQ(m) then InsertAt(l, PriorityPos(x.tasks, l, p), c) else if q == ReadyQ(p) then Without(l, c) else l
    ensures c !in QueueOf(b, MutexQ(m)) && (q != ReadyQ(b.tasks[c].prio) ==> c !in QueueOf(b, q))
    ensures EnterQueue(b, c, MutexQ(m), true).tasks == b.tasks[c := Parked(b.tasks[c], MutexQ(m))]
  {
    hide Fit, Without, PriorityPos, InsertAt;
    FitHome(b, idle, c, q);
    FitHome(b, idle, c, MutexQ(m));
  }

  /** The queue of the mutex: the caller is the last of its equals. */
  lemma JoinBehind(b: State, idle: Tid, c: Tid, m: Mid, raised: set<Tid>)
    requires Fit(b, idle) && c in b.tasks && !b.tasks[c].status.Blocked?
    requires var p := b.tasks[c].prio;
      BehindEquals(b.tasks, QueueOf(b, MutexQ(m)), raised, p) && forall t :: t in raised ==> TaskOf(b.tasks, t).prio == p
    ensures var x := EnterQueue(b, c, MutexQ(m), true); var l, p := QueueOf(x, MutexQ(m)), b.tasks[c].prio;
      && BehindEquals(x.tasks, l, raised + {c}, p)
      && forall i, j :: 0 <= i < j < |l| && l[i] == c ==> TaskOf(x.tasks, l[j]).prio > p
  {
    hide Fit, Without, PriorityPos, InsertAt, BehindEquals, EnterQueue;
    var x, l := EnterQueue(b, c, MutexQ(m), true), QueueOf(b, MutexQ(m));
    JoinQueue(b, idle, c, m, MutexQ(m));
    BehindSame(b.tasks, x.tasks, l, raised, raised, b.tasks[c].prio);
    QueueSorted(b, idle, m, c);
    NotThere(l, c);
    SortedFrame(b.tasks, x.tasks, l);
    InsertBehind(x.tasks, l, c, raised, b.tasks[c].prio);
  }

  lemma JoinOrder(b: State, idle: Tid, c: Tid, m: Mid, q: QueueId)
    requires Fit(b, idle) && c in b.tasks && !b.tasks[c].status.Blocked?
    ensures var x := EnterQueue(b, c, MutexQ(m), true);
      && Minus(QueueOf(x, q), {c}) == Minus(QueueOf(b, q), {c})
      && (q.ReadyQ? ==> Minus(QueueOf(b, q), {c}) == QueueOf(x, q))
  {
    hide Fit, Without, PriorityPos, InsertAt, Minus, EnterQueue, QueueOf;
    var x, l := EnterQueue(b, c, MutexQ(m), true), QueueOf(b, q);
    JoinQueue(b, idle, c, m, q);
    FitHome(b, idle, c, q);
    MinusOne(l, c);
    MinusWithout(l, c, {c});
    if q == MutexQ(m) {
      MinusInserted(l, PriorityPos(x.tasks, l, b.tasks[c].prio), c, {c});
    }
    if c !in l { NotThere(l, c); }
  }

  lemma BeforeSame(tasks: map<Tid, Task>, tasks': map<Tid, Task>, l: seq<Tid>, moved: set<Tid>, moved': set<Tid>, p: Priority)
    requires BeforeLess(tasks, l, moved, p)
    requires forall t :: t in l ==> TaskOf(tasks', t).prio == TaskOf(tasks, t).prio && (t in moved' <==> t in moved)
    ensures BeforeLess(tasks', l, moved', p)
  {
  }

  /** The walk from `a` to `b`, and the caller's move from `b` to `x`. */
  lemma JoinQueues(a: State, b: State, x: State, idle: Tid, c: Tid, m: Mid)
    requires Fit(b, idle) && c in a.tasks && c in b.tasks && b.tasks[c] == a.tasks[c] && !b.tasks[c].status.Blocked?
    requires b.tasks.Keys == a.tasks.Keys && Walk(a, b, {}, a.tasks[c].prio) && x == EnterQueue(b, c, MutexQ(m), true)
    ensures LockQueues(a, x, c, m)
  {
    hide Fit, Minus, QueueOf, EnterQueue, BehindEquals, BeforeLess;
    var p, raised := a.tasks[c].prio, Raised(a, b);
    var moved := raised + {c};
    JoinQueue(b, idle, c, m, MutexQ(m));
    assert Raised(a, x) == raised && {} + raised == raised;
    forall q
      ensures Minus(QueueOf(x, q), moved) == Minus(QueueOf(a, q), moved)
      ensures q.ReadyQ? ==> Minus(QueueOf(a, q), moved) <= QueueOf(x, q)
    {
      JoinOrder(b, idle, c, m, q);
      assert moved == {c} + raised;
      MinusTwice(QueueOf(x, q), {c}, raised);
      MinusTwice(QueueOf(b, q), {c}, raised);
      MinusTwice(QueueOf(b, q), raised, {c});
      MinusTwice(QueueOf(a, q), raised, {c});
      if q.ReadyQ? {
        MinusPrefix(Minus(QueueOf(a, q), raised), QueueOf(b, q), {c});
      }
    }
    JoinBehind(b, idle, c, m, raised);
    forall n
      ensures BehindEquals(x.tasks, QueueOf(x, MutexQ(n)), moved, p)
    {
      if n != m {
        JoinQueue(b, idle, c, m, MutexQ(n));
        BehindSame(b.tasks, x.tasks, QueueOf(b, MutexQ(n)), raised, moved, p);
      }
    }
    forall q: QueueId | q.SemQ? || q.Sleep?
      ensures BeforeLess(x.tasks, QueueOf(x, q), moved, p)
    {
      JoinQueue(b, idle, c, m, q);
      BeforeSame(b.tasks, x.tasks, QueueOf(b, q), raised, moved, p);
    }
  }

  /** `Announced` changes neither queues nor priorities. */
  lemma AnnouncedQueues(s: State, r: State, c: Tid, m: Mid)
    requires c in s.tasks && LockQueues(Announced(s, c, m), r, c, m)
    ensures LockQueues(s, r, c, m)
  {
    hide Minus, BehindEquals, BeforeLess;
    assert Raised(Announced(s, c, m), r) == Raised(s, r);
    SameQueues(s, Announced(s, c, m));
  }

  lemma EnteredOrder(s: State, idle: Tid, c: Tid, m: Mid)
    requires Core(s, idle) && c in s.tasks && !s.tasks[c].status.Blocked? && c != idle && Candid(s.tasks)
    requires s.current == Some(c) && m in s.mutexes && Contended(s, m)
    ensures LockQueues(s, Entered(s, c, m), c, m)
  {
    hide Core, Boost, EnterQueue, Walk, LockQueues, QueueOf;
    var a, p := Announced(s, c, m), s.tasks[c].prio;
    AnnouncedCore(s, idle, c, m);
    AnnouncedCandid(s.tasks, c, m);
    hide Placed, Records, Rest, Candid;
    NoneMoved(a, p);
    WalkOrder(a, idle, p, s.mutexes[m].owner, {});
    var b := Boost(a, p, s.mutexes[m].owner);
    FitWalk(a, idle, p, s.mutexes[m].owner, c);
    JoinQueues(a, b, Entered(s, c, m), idle, c, m);
    AnnouncedQueues(s, Entered(s, c, m), c, m);
  }

  lemma AnnouncedCandid(tasks: map<Tid, Task>, c: Tid, m: Mid)
    requires Candid(tasks) && c in tasks && !tasks[c].status.Blocked?
    ensures Candid(tasks[c := tasks[c].(blockedOn := Some(m))])
  {
  }

  lemma NoneMoved(s: State, p: Priority)
    ensures MovedOk(s.tasks, {}, p) && AllBehind(s, {}, p)
  {
  }

  /** The records of the tasks when the caller has joined the waiters. */
  ghost predicate LockRecords(s: State, x: State, c: Tid, m: Mid)
    requires c in s.tasks
  {
    && x.tasks.Keys == s.tasks.Keys && x.tasks[c] == Parked(s.tasks[c].(blockedOn := Some(m)), MutexQ(m))
    && forall t :: t in s.tasks && t != c ==>
         && x.tasks[t] == s.tasks[t].(prio := x.tasks[t].prio)
         && (x.tasks[t].prio == s.tasks[t].prio || s.tasks[t].prio > s.tasks[c].prio == x.tasks[t].prio)
  }

  lemma EnteredRecords(s: State, idle: Tid, c: Tid, m: Mid)
    requires Core(s, idle) && c in s.tasks && !s.tasks[c].status.Blocked? && c != idle && Candid(s.tasks)
    requires s.current == Some(c) && m in s.mutexes && Contended(s, m)
    ensures LockRecords(s, Entered(s, c, m), c, m)
  {
    hide Core, Boost, EnterQueue, Walk, OnlyPriorities, LockRecords, Placed, Records, Rest, Candid, MovedOk, AllBehind;
    var a, p := Announced(s, c, m), s.tasks[c].prio;
    AnnouncedCore(s, idle, c, m);
    AnnouncedFit(s, idle, c, m);
    NoneMoved(a, p);
    WalkOrder(a, idle, p, s.mutexes[m].owner, {});
    BoostCore(a, idle, p, s.mutexes[m].owner);
    var b := Boost(a, p, s.mutexes[m].owner);
    SameTasks(a.tasks, b.tasks);
    WalkPriorities(a, b, p);
    EnterFrame(b, c, MutexQ(m), true);
    RecordsBy(s.tasks, a.tasks, b.tasks, Entered(s, c, m).tasks, c, m);
    RecordsAre(s, Entered(s, c, m), c, m);
  }

  lemma SameTasks(tasks: map<Tid, Task>, tasks': map<Tid, Task>)
    requires OnlyPriorities(tasks, tasks')
    ensures tasks'.Keys == tasks.Keys
  {
  }

  lemma AnnouncedFit(s: State, idle: Tid, c: Tid, m: Mid)
    requires c in s.tasks && !s.tasks[c].status.Blocked? && Candid(s.tasks)
    requires var a := Announced(s, c, m); Placed(a.tasks, a.queues) && Records(a.tasks) && Rest(a, idle)
    ensures Fit(Announced(s, c, m), idle)
  {
    hide Placed, Records, Rest, Candid;
    AnnouncedCandid(s.tasks, c, m);
  }

  /** `LockRecords` on the tasks alone. */
  ghost predicate RecordsIn(tasks: map<Tid, Task>, after: map<Tid, Task>, c: Tid, m: Mid)
    requires c in tasks
  {
    && after.Keys == tasks.Keys && after[c] == Parked(tasks[c].(blockedOn := Some(m)), MutexQ(m))
    && forall t :: t in tasks && t != c ==>
         && after[t] == tasks[t].(prio := after[t].prio)
         && (after[t].prio == tasks[t].prio || tasks[t].prio > tasks[c].prio == after[t].prio)
  }

  lemma RecordsAre(s: State, x: State, c: Tid, m: Mid)
    requires c in s.tasks && RecordsIn(s.tasks, x.tasks, c, m)
    ensures LockRecords(s, x, c, m)
  {
  }

  lemma RecordsBy(tasks: map<Tid, Task>, a: map<Tid, Task>, b: map<Tid, Task>, x: map<Tid, Task>, c: Tid, m: Mid)
    requires c in tasks && a == tasks[c := tasks[c].(blockedOn := Some(m))] && OnlyPriorities(a, b)
    requires forall t :: t in a && a[t].prio <= tasks[c].prio ==> b[t] == a[t]
    requires forall t :: t in a ==> b[t].prio == a[t].prio || b[t].prio == tasks[c].prio
    requires x == b[c := Parked(TaskOf(b, c), MutexQ(m))]
    ensures RecordsIn(tasks, x, c, m)
  {
  }

  lemma WalkPriorities(a: State, b: State, p: Priority)
    requires Walk(a, b, {}, p) && b.tasks.Keys == a.tasks.Keys
    ensures forall t :: t in a.tasks ==> b.tasks[t].prio == a.tasks[t].prio || b.tasks[t].prio == p
  {
    hide Minus, QueueOf, BehindEquals, BeforeLess;
    assert forall t :: t in a.tasks && b.tasks[t].prio != a.tasks[t].prio ==> t in Raised(a, b);
  }
}
