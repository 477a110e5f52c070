/** Lock, resume and unlock keep the invariant of the machine, lists included. */
module MutexSteps {
  import opened Base
  import opened KernelState
  import opened Invariants
  import opened Inheritance
  import opened OwnedLists
  import opened Preservation
  import opened LockSteps
  import opened UnlockSteps
  import opened SmallSteps
  import opened Dispatch
  import opened Machine
  import opened Steps

  // ----- adding to a list

  /** Adding `m` to `c`'s list leaves alone every list that does not hold `m`, and one that
      does if the link of `m` stays what it was. */
  lemma AddElsewhere(s: State, c: Tid, m: Mid, t: Tid, l: seq<Mid>)
    requires OwnedIs(s, t, l) && c in s.tasks && t != c && m in s.mutexes
    requires m !in l || s.mutexes[m].next == s.tasks[c].owned
    ensures OwnedIs(AddToOwned(s, c, m), t, l)
  {
    OwnedSame(s, AddToOwned(s, c, m), t, l);
  }

  lemma NoMembers(l: seq<Mid>)
    ensures l == [] || exists n :: n in l
  {
    if l != [] {
      assert l[0] in l;
    }
  }

  /** `c` takes the free mutex `m`. */
  function Seized(s: State, c: Tid, m: Mid): (r: State) {
    AddToOwned(SetMutex(s, m, MutexOf(s, m).(owner := Some(c))), c, m)
  }

  lemma SeizedOwnList(reading: Reading, s: State, c: Tid, m: Mid, l: seq<Mid>)
    requires ListIs(reading, s, c, l)
    requires s.tasks[c].blockedOn.None? && Awaited(s.tasks[c]).None?
    requires m in s.mutexes && s.mutexes[m].owner.None?
    ensures ListIs(reading, Seized(s, c, m), c, [m] + l)
  {
    hide Chain;
    var a := SetMutex(s, m, s.mutexes[m].(owner := Some(c)));
    assert m !in l by { assert !Lists(reading, s, c, m); }
    OwnedSame(s, a, c, l);
    AddIs(a, c, m, l);
    forall n
      ensures n in [m] + l <==> Lists(reading, Seized(s, c, m), c, n)
    {
      assert n in l <==> Lists(reading, s, c, n);
    }
  }

  lemma SeizedOtherList(reading: Reading, s: State, c: Tid, m: Mid, t: Tid, l: seq<Mid>)
    requires ListIs(reading, s, t, l) && MutexesOk(s.tasks, s.mutexes) && t != c
    requires c in s.tasks && m in s.mutexes && s.mutexes[m].owner.None?
    ensures ListIs(reading, Seized(s, c, m), t, l)
  {
    hide Chain;
    var a := SetMutex(s, m, s.mutexes[m].(owner := Some(c)));
    assert m !in l by { assert !Lists(reading, s, t, m); }
    OwnedSame(s, a, t, l);
    AddElsewhere(a, c, m, t, l);
    forall n
      ensures n in l <==> Lists(reading, Seized(s, c, m), t, n)
      ensures Owns(Seized(s, c, m).mutexes, t, n) <==> Owns(s.mutexes, t, n)
    {
      assert n in l <==> Lists(reading, s, t, n);
    }
  }

  lemma LockFreeInv(reading: Reading, s: State, idle: Tid, m: Mid)
    requires FullInv(reading, s, idle) && MayCall(s, idle) && m in s.mutexes && s.mutexes[m].owner.None?
    ensures FullInv(reading, LockCall(s, m), idle)
  {
    hide Settled, ListIs, OwnedList, MutexesOk, Shape;
    InvMutexes(reading, s, idle);
    var c := s.current.value;
    var r := LockCall(s, m);
    LockFreeSettled(s, idle, c, m);
    DispatchSame(s, r);
    forall t | t in s.tasks
      ensures ListIs(reading, r, t, OwnedList(r, t))
    {
      var l := OwnedList(s, t);
      if t == c {
        SeizedOwnList(reading, s, c, m, l);
      } else {
        SeizedOtherList(reading, s, c, m, t, l);
      }
      ListDetermined(reading, r, t, if t == c then [m] + l else l);
    }
  }

  // ----- a contended mutex

  /** What the contended lock has done when it returns from blocking. */
  ghost predicate LockedOut(s: State, r: State, c: Tid, m: Mid)
    requires c in s.tasks
  {
    && r.mutexes == s.mutexes && r.tasks.Keys == s.tasks.Keys
    && r.tasks[c].status.Blocked? && Awaited(r.tasks[c]) == Some(m) && r.tasks[c].blockedOn == Some(m)
    && r.tasks[c].owned == s.tasks[c].owned
    && forall t :: t in s.tasks && t != c ==> r.tasks[t] == s.tasks[t].(prio := r.tasks[t].prio)
  }

  lemma LockBlocks(s: State, idle: Tid, m: Mid)
    requires Settled(s, idle) && Dispatched(s) && MayCall(s, idle) && m in s.mutexes && Contended(s, m)
    ensures var r := LockCall(s, m);
      Settled(r, idle) && Dispatched(r) && LockedOut(s, r, s.current.value, m) && r.current == s.current
  {
    hide Settled, Shape, Boost, EnterQueue, Reschedule, AllExact, WaitGraph, Rest, Walkable, MutexesOk, ChainVisible,
      Placed, Top;
    var c := s.current.value;
    SettledParts(s, idle);
    var a := Announced(s, c, m);
    AnnouncedSettled(s, idle, c, m);
    WalkSettles(a, idle, c, m);
    LockBlockSettled(a, idle, c, m);
    var b := Boost(a, a.tasks[c].prio, a.mutexes[m].owner);
    EnterMutexFrame(b, c, m);
    var x := EnterQueue(b, c, MutexQ(m), true);
    RescheduleDispatches(x, idle);
    RescheduleFrame(x);
  }

  lemma RescheduleFrame(s: State)
    ensures var r := Reschedule(s); r == s.(next := r.next, pended := r.pended) && (s.pended ==> r.pended)
  {
  }

  lemma EnterMutexFrame(b: State, c: Tid, m: Mid)
    requires Walkable(b) && c in b.tasks && !b.tasks[c].status.Blocked? && m in b.mutexes
    ensures var x := EnterQueue(b, c, MutexQ(m), true);
      && x.tasks == b.tasks[c := Parked(b.tasks[c], MutexQ(m))]
      && x == b.(tasks := x.tasks, queues := x.queues)
  {
  }

  /** Intended: the caller is now known to wait, and no list has changed. */
  lemma LockedOutList(s: State, r: State, c: Tid, m: Mid, t: Tid, l: seq<Mid>)
    requires ListIs(Intended, s, t, l) && c in s.tasks && s.tasks[c].blockedOn.None? && !Owns(s.mutexes, c, m)
    requires LockedOut(s, r, c, m)
    ensures ListIs(Intended, r, t, l)
  {
  }

  lemma LockIntendedInv(s: State, idle: Tid, m: Mid)
    requires FullInv(Intended, s, idle) && MayCall(s, idle) && m in s.mutexes && Contended(s, m)
    ensures FullInv(Intended, LockCall(s, m), idle)
  {
    hide Settled, Dispatched, ListIs, OwnedList, LockCall;
    var c := s.current.value;
    var r := LockCall(s, m);
    LockBlocks(s, idle, m);
    forall t | t in r.tasks
      ensures ListIs(Intended, r, t, OwnedList(r, t))
    {
      LockedOutList(s, r, c, m, t, OwnedList(s, t));
      ListDetermined(Intended, r, t, OwnedList(s, t));
    }
  }

  // ----- executed: the last two lines run at once, for the task that has just blocked

  lemma SoleIsLast(s: State, t: Tid, m: Mid)
    requires OwnedIs(s, t, [m]) && m in s.mutexes
    ensures s.mutexes[m].next.None?
  {
    assert Chain(s.mutexes, s.mutexes[m].next, [m][1..]);
  }

  /** The list of a task that waits is the mutex it waits for, with nothing linked behind it. */
  lemma WaiterList(s: State, t: Tid, l: seq<Mid>, m: Mid)
    requires ListIs(Executed, s, t, l) && Awaited(s.tasks[t]) == Some(m)
    ensures l == [m] && m in s.mutexes && s.mutexes[m].next.None?
  {
    assert forall n :: n in l <==> Lists(Executed, s, t, n);
    hide Lists;
    OneMember(l, m);
    SoleIsLast(s, t, m);
  }

  lemma OneMember(l: seq<Mid>, m: Mid)
    requires NoDup(l) && forall n :: n in l <==> n == m
    ensures l == [m]
  {
    WithoutMembers(l, m);
    NoMembers(Without(l, m));
    assert l[0] in l;
  }

  lemma ResumedList(s: State, r: State, c: Tid, m: Mid, t: Tid, l: seq<Mid>)
    requires ListIs(Executed, s, t, l) && c in s.tasks && Awaited(s.tasks[c]).None?
    requires forall n :: !Owns(s.mutexes, c, n)
    requires LockedOut(s, r, c, m) && r.current == Some(c) && m in s.mutexes && s.mutexes[m].next.None?
    requires s.tasks[c].owned.None?
    ensures ListIs(Executed, LockResume(r, m), t, if t == c then [m] else l)
  {
    hide Chain, OwnedList;
    var a := SetTask(r, c, r.tasks[c].(blockedOn := None));
    var x := LockResume(r, m);
    OwnedSame(s, a, t, l);
    if t == c {
      assert forall n :: n in l <==> Lists(Executed, s, t, n);
      NoMembers(l);
      AddIs(a, c, m, []);
      assert [m] + [] == [m];
    } else {
      AddElsewhere(a, c, m, t, l);
    }
    forall n
      ensures n in (if t == c then [m] else l) <==> Lists(Executed, x, t, n)
      ensures Owns(x.mutexes, t, n) <==> Owns(s.mutexes, t, n)
    {
      assert n in l <==> Lists(Executed, s, t, n);
    }
  }

  lemma ResumeAtOnceFields(tasks: map<Tid, Task>, mutexes: map<Mid, Mutex>, c: Tid, m: Mid,
                           tasks': map<Tid, Task>, mutexes': map<Mid, Mutex>)
    requires Fields(tasks, mutexes) && c in tasks && forall n :: !Owns(mutexes, c, n)
    requires tasks' == tasks[c := tasks[c].(blockedOn := None, owned := Some(m))]
    requires mutexes'.Keys == mutexes.Keys
    requires forall n :: n in mutexes ==> mutexes'[n].owner == mutexes[n].owner
    ensures Fields(tasks', mutexes')
  {
    hide AllExact, WaitGraph;
    GraphSame(tasks, mutexes, tasks', mutexes');
    ExactFrame(tasks, tasks', WaitGraph(tasks, mutexes));
    forall t, n | t in tasks' && Owns(mutexes', t, n) && Awaited(tasks'[t]).Some?
      ensures tasks'[t].blockedOn == Awaited(tasks'[t])
    {
      assert Owns(mutexes, t, n) && t != c;
    }
  }

  lemma ResumeAtOnceRest(r: State, idle: Tid, c: Tid, m: Mid)
    requires Rest(r, idle) && c in r.tasks && r.current == Some(c) && m in r.mutexes
    ensures Rest(LockResume(r, m), idle)
  {
  }

  lemma ResumeAtOnceSettled(r: State, idle: Tid, c: Tid, m: Mid)
    requires Settled(r, idle) && c in r.tasks && r.current == Some(c) && m in r.mutexes
    requires forall n :: !Owns(r.mutexes, c, n)
    ensures Settled(LockResume(r, m), idle)
  {
    hide Linked, Sorted, Fields, SemsOk, TimeoutsOk, Shape;
    var x := LockResume(r, m);
    ResumeAtOnceRest(r, idle, c, m);
    PlacedSame(r.tasks, x.tasks, r.queues);
    ResumeAtOnceFields(r.tasks, r.mutexes, c, m, x.tasks, x.mutexes);
  }

  lemma LockExecutedInv(s: State, idle: Tid, m: Mid)
    requires FullInv(Executed, s, idle) && MayCall(s, idle) && m in s.mutexes && Contended(s, m) && SafeLock(s, m)
    ensures FullInv(Executed, LockExecuted(s, m), idle)
  {
    hide Settled, ListIs, OwnedList, LockCall, MutexesOk, Shape, LockResume, Top;
    InvMutexes(Executed, s, idle);
    var c := s.current.value;
    var r := LockCall(s, m);
    LockBlocks(s, idle, m);
    EmptyIsNone(s, c);
    ResumeAtOnceSettled(r, idle, c, m);
    var x := LockResume(r, m);
    ResumeFrame(r, m);
    DispatchSame(r, x);
    forall t | t in s.tasks
      ensures ListIs(Executed, x, t, OwnedList(x, t))
    {
      ResumedList(s, r, c, m, t, OwnedList(s, t));
      ListDetermined(Executed, x, t, if t == c then [m] else OwnedList(s, t));
    }
  }

  lemma EmptyIsNone(s: State, c: Tid)
    requires OwnedOk(Executed, s) && c in s.tasks && Awaited(s.tasks[c]).None? && forall n :: !Owns(s.mutexes, c, n)
    ensures s.tasks[c].owned.None?
  {
    hide OwnedList;
    var l := OwnedList(s, c);
    assert forall n :: n in l <==> Lists(Executed, s, c, n);
    NoMembers(l);
    assert Chain(s.mutexes, s.tasks[c].owned, l);
  }

  lemma ResumeFrame(r: State, m: Mid)
    requires r.current.Some? && r.current.value in r.tasks
    ensures var x := LockResume(r, m); var c := r.current.value;
      && x == r.(tasks := x.tasks, mutexes := x.mutexes)
      && x.tasks == r.tasks[c := r.tasks[c].(blockedOn := None, owned := Some(m))]
  {
  }

  // ----- intended: the resumed lock call

  lemma ResumedIntendedList(s: State, c: Tid, m: Mid, t: Tid, l: seq<Mid>)
    requires ListIs(Intended, s, t, l) && c in s.tasks && s.current == Some(c)
    requires s.tasks[c].blockedOn == Some(m) && !s.tasks[c].status.Blocked? && Awaited(s.tasks[c]).None?
    requires Owns(s.mutexes, c, m)
    ensures ListIs(Intended, LockResume(s, m), t, if t == c then [m] + l else l)
  {
    hide Chain;
    var a := SetTask(s, c, s.tasks[c].(blockedOn := None));
    var x := LockResume(s, m);
    assert m !in l by { assert !Lists(Intended, s, t, m); }
    OwnedSame(s, a, t, l);
    if t == c {
      AddIs(a, c, m, l);
    } else {
      AddElsewhere(a, c, m, t, l);
    }
    forall n
      ensures n in (if t == c then [m] + l else l) <==> Lists(Intended, x, t, n)
    {
      assert n in l <==> Lists(Intended, s, t, n);
    }
  }

  lemma ResumeInv(s: State, idle: Tid)
    requires FullInv(Intended, s, idle) && s.current.Some? && s.current.value in s.tasks && !s.pended
    requires s.tasks[s.current.value].blockedOn.Some?
    ensures FullInv(Intended, LockResume(s, s.tasks[s.current.value].blockedOn.value), idle)
  {
    hide Settled, ListIs, OwnedList, MutexesOk, Shape, Top;
    InvMutexes(Intended, s, idle);
    var c := s.current.value;
    var m := s.tasks[c].blockedOn.value;
    PendingOwns(s, c);
    var x := LockResume(s, m);
    ResumeSettled(s, idle, c, m);
    ResumeFrame(s, m);
    DispatchSame(s, x);
    forall t | t in s.tasks
      ensures ListIs(Intended, x, t, OwnedList(x, t))
    {
      var l := OwnedList(s, t);
      ResumedIntendedList(s, c, m, t, l);
      ListDetermined(Intended, x, t, if t == c then [m] + l else l);
    }
  }

  /** A task whose lock call has yet to resume has been handed the mutex. */
  lemma PendingOwns(s: State, c: Tid)
    requires OwnedOk(Intended, s) && c in s.tasks && s.tasks[c].blockedOn.Some? && !s.tasks[c].status.Blocked?
    ensures Owns(s.mutexes, c, s.tasks[c].blockedOn.value)
  {
  }

  // ----- unlocking

  lemma UnlockReady(reading: Reading, s: State, idle: Tid, m: Mid)
    requires FullInv(reading, s, idle) && MayCall(s, idle) && Owns(s.mutexes, s.current.value, m)
    ensures CanUnlock(s, idle, s.current.value, m)
  {
  }

  /** What unlocking has done to tasks and mutexes, whichever way the ready queues went. */
  ghost predicate Unlocked(s: State, e: State, c: Tid, m: Mid, h: Option<Tid>)
    requires c in s.tasks
  {
    && var a := RemoveFromOwned(s, c, m);
    && e.tasks.Keys == s.tasks.Keys && e.mutexes.Keys == s.mutexes.Keys
    && m in s.mutexes && h != Some(c)
    && (h.Some? ==> h.value in s.tasks && Awaited(s.tasks[h.value]) == Some(m))
    && (forall n :: n in s.mutexes ==> e.mutexes[n] == (if n == m then Mutex(h, MutexOf(a, n).next) else MutexOf(a, n)))
    && (forall t :: t in s.tasks && t != c ==>
          e.tasks[t] == (if h == Some(t) then Woken(s.tasks[t], 0) else s.tasks[t]))
    && e.tasks[c] == s.tasks[c].(owned := e.tasks[c].owned, prio := e.tasks[c].prio)
    && e.tasks[c].owned == TaskOf(a.tasks, c).owned
  }

  lemma SurrenderedIs(s: State, idle: Tid, c: Tid, m: Mid)
    requires CanUnlock(s, idle, c, m)
    ensures var w := QueueOf(s, MutexQ(m)); var h := if w == [] then None else Some(w[0]);
      && Unlocked(s, Surrendered(s, c, m), c, m, h)
      && (var e := Surrendered(s, c, m); e == s.(tasks := e.tasks, queues := e.queues, mutexes := e.mutexes))
  {
    hide Linked, Sorted, AllExact, WaitGraph, MutexesOk, ChainVisible, Shape, TimeoutsOk, SemsOk, IdleOk,
      RemoveFromOwned, SetPriority, Recompute, OwnedList, HandedOver, Residual, OwnedIs;
    var a := RemoveFromOwned(s, c, m);
    UnlistSettled(s, idle, c, m);
    RemoveFrame(s, c, m, OwnedList(s, c));
    LowerSettled(a, idle, c, m);
    var b := SetPriority(a, c, Recompute(a, c));
    HandOverRest(b, idle, m);
    HeadIsMostUrgent(b, m);
  }

  /** Who should list what after the unlock. */
  lemma UnlockedLists(reading: Reading, s: State, e: State, c: Tid, m: Mid, h: Option<Tid>, t: Tid, n: Mid)
    requires c in s.tasks && t in s.tasks && Unlocked(s, e, c, m, h) && Owns(s.mutexes, c, m)
    requires s.tasks[c].blockedOn.None? && Awaited(s.tasks[c]).None?
    requires BlockedOnOk(reading, s, t)
    requires forall x :: x in s.mutexes ==> MutexOf(RemoveFromOwned(s, c, m), x).owner == s.mutexes[x].owner
    ensures Lists(reading, e, t, n) <==> Lists(reading, s, t, n) && !(t == c && n == m)
    ensures BlockedOnOk(reading, e, t)
  {
    hide RemoveFromOwned;
    forall x
      ensures Owns(e.mutexes, t, x) <==> if x == m then h == Some(t) else Owns(s.mutexes, t, x)
    {
      assert x in s.mutexes ==> MutexOf(RemoveFromOwned(s, c, m), x).owner == s.mutexes[x].owner;
    }
  }

  lemma UnlockedOwnList(reading: Reading, s: State, e: State, c: Tid, m: Mid, h: Option<Tid>, l: seq<Mid>)
    requires ListIs(reading, s, c, l) && Owns(s.mutexes, c, m)
    requires s.tasks[c].blockedOn.None? && Awaited(s.tasks[c]).None? && Unlocked(s, e, c, m, h)
    ensures ListIs(reading, e, c, Without(l, m))
  {
    hide Chain, RemoveFromOwned, Without;
    var a := RemoveFromOwned(s, c, m);
    assert m in l by { assert Lists(reading, s, c, m); }
    RemoveFrame(s, c, m, l);
    WithoutMembers(l, m);
    RemoveIs(s, c, m, l);
    OwnedSame(a, e, c, Without(l, m));
    forall n
      ensures n in Without(l, m) <==> Lists(reading, e, c, n)
      ensures BlockedOnOk(reading, e, c)
    {
      assert n in l <==> Lists(reading, s, c, n);
      UnlockedLists(reading, s, e, c, m, h, c, n);
    }
  }

  lemma UnlockedOtherList(reading: Reading, s: State, e: State, c: Tid, m: Mid, h: Option<Tid>, t: Tid,
                          lc: seq<Mid>, l: seq<Mid>)
    requires ListIs(reading, s, c, lc) && ListIs(reading, s, t, l) && Owns(s.mutexes, c, m) && t != c
    requires s.tasks[c].blockedOn.None? && Awaited(s.tasks[c]).None? && Unlocked(s, e, c, m, h)
    ensures ListIs(reading, e, t, l)
  {
    hide Chain, RemoveFromOwned;
    assert m in lc by { assert Lists(reading, s, c, m); }
    RemoveFrame(s, c, m, lc);
    UnlockElsewhere(reading, s, c, m, t, lc, l);
    OwnedSame(s, e, t, l);
    forall n
      ensures n in l <==> Lists(reading, e, t, n)
      ensures BlockedOnOk(reading, e, t)
    {
      assert n in l <==> Lists(reading, s, t, n);
      UnlockedLists(reading, s, e, c, m, h, t, n);
    }
  }

  lemma UnlockOwned(reading: Reading, s: State, e: State, idle: Tid, c: Tid, m: Mid, h: Option<Tid>)
    requires OwnedOk(reading, s) && c in s.tasks && Owns(s.mutexes, c, m)
    requires s.tasks[c].blockedOn.None? && Awaited(s.tasks[c]).None? && Unlocked(s, e, c, m, h)
    ensures OwnedOk(reading, e)
  {
    hide ListIs, OwnedList, RemoveFromOwned, Without;
    forall t | t in e.tasks
      ensures ListIs(reading, e, t, OwnedList(e, t))
    {
      var l := OwnedList(s, t);
      if t == c {
        UnlockedOwnList(reading, s, e, c, m, h, l);
        ListDetermined(reading, e, t, Without(l, m));
      } else {
        UnlockedOtherList(reading, s, e, c, m, h, t, OwnedList(s, c), l);
        ListDetermined(reading, e, t, l);
      }
    }
  }

  /** Taking `m` off `c`'s list does not disturb the links of any other list. */
  lemma UnlockElsewhere(reading: Reading, s: State, c: Tid, m: Mid, t: Tid, lc: seq<Mid>, l: seq<Mid>)
    requires ListIs(reading, s, c, lc) && ListIs(reading, s, t, l) && Owns(s.mutexes, c, m) && t != c && m in lc
    requires s.tasks[c].blockedOn.None? && Awaited(s.tasks[c]).None?
    ensures forall n :: n in l && n in s.mutexes ==> RemoveFromOwned(s, c, m).mutexes[n].next == s.mutexes[n].next
  {
    hide Chain, OwnedList;
    OwnedListIs(s, c, lc);
    RemoveFrame(s, c, m, lc);
    if reading.Intended? {
      forall n | n in l
        ensures n !in lc
      {
        assert Lists(reading, s, t, n) && !Lists(reading, s, c, n);
      }
    } else if Awaited(s.tasks[t]).Some? {
      WaiterList(s, t, l, Awaited(s.tasks[t]).value);
      var i := IndexOf(lc, m);
      if i > 0 {
        ChainLinks(s.mutexes, s.tasks[c].owned, lc, i - 1);
      }
    } else {
      forall n | n in l
        ensures n !in lc
      {
        assert Lists(reading, s, t, n) && !Lists(reading, s, c, n);
      }
    }
  }

  // ----- unlocking without waiters does not change the priority

  lemma ExactUnique(tasks: map<Tid, Task>, tasks': map<Tid, Task>, g: map<Tid, Tid>, c: Tid)
    requires c in tasks && tasks.Keys == tasks'.Keys && c !in g
    requires tasks'[c].base == tasks[c].base
    requires forall t :: t in tasks && t != c ==> tasks'[t].prio == tasks[t].prio
    requires Exact(tasks, g, c) && Exact(tasks', g, c)
    ensures tasks'[c].prio == tasks[c].prio
  {
  }

  lemma UnwantedGraph(tasks: map<Tid, Task>, mutexes: map<Mid, Mutex>, tasks': map<Tid, Task>, mutexes': map<Mid, Mutex>,
                      c: Tid, m: Mid)
    requires tasks.Keys == tasks'.Keys && mutexes.Keys == mutexes'.Keys
    requires forall t :: t in tasks ==> Awaited(tasks[t]) == Awaited(tasks'[t]) != Some(m)
    requires forall n :: n in mutexes && n != m ==> mutexes'[n].owner == mutexes[n].owner
    requires c in tasks && Awaited(tasks[c]).None?
    ensures WaitGraph(tasks, mutexes) == WaitGraph(tasks', mutexes') && c !in WaitGraph(tasks, mutexes)
  {
  }

  lemma UnlockKeepsPriority(s: State, idle: Tid, c: Tid, m: Mid)
    requires CanUnlock(s, idle, c, m) && QueueOf(s, MutexQ(m)) == []
    ensures TaskOf(Surrendered(s, c, m).tasks, c).prio == s.tasks[c].prio
  {
    hide Linked, Sorted, WaitGraph, MutexesOk, ChainVisible, Shape, TimeoutsOk, SemsOk, IdleOk, Surrendered,
      RemoveFromOwned, OwnedIs, Exact, OwnedList;
    var e := Surrendered(s, c, m);
    UnlockSettled(s, idle, c, m);
    SurrenderedIs(s, idle, c, m);
    RemoveFrame(s, c, m, OwnedList(s, c));
    HeadIsMostUrgent(s, m);
    UnwantedGraph(s.tasks, s.mutexes, e.tasks, e.mutexes, c, m);
    ExactUnique(s.tasks, e.tasks, WaitGraph(s.tasks, s.mutexes), c);
  }

  /** With nobody waiting, unlocking can only move the owner within its own ready queue. */
  lemma SurrenderedQueues(s: State, c: Tid, m: Mid, q: Priority)
    requires c in s.tasks && !s.tasks[c].status.Blocked? && QueueOf(s, MutexQ(m)) == [] && s.tasks[c].prio != q
    requires var a := RemoveFromOwned(s, c, m);
      a.queues == s.queues && TaskOf(a.tasks, c).prio == s.tasks[c].prio && TaskOf(a.tasks, c).status == s.tasks[c].status
    requires Recompute(RemoveFromOwned(s, c, m), c) == s.tasks[c].prio
    ensures QueueOf(Surrendered(s, c, m), ReadyQ(q)) == QueueOf(s, ReadyQ(q))
  {
    hide RemoveFromOwned, Recompute;
  }

  lemma SurrenderedMarks(s: State, idle: Tid, m: Mid)
    requires Dispatched(s) && s.current.Some? && CanUnlock(s, idle, s.current.value, m)
    ensures var e := Surrendered(s, s.current.value, m);
      && OneRunning(e) && e.current == s.current && e.pended == s.pended
      && e.tasks[s.current.value].status == s.tasks[s.current.value].status
  {
    hide Settled, RemoveFromOwned, OwnedIs, OwnedList, Surrendered, Top;
    SurrenderedIs(s, idle, s.current.value, m);
  }

  lemma UnlockDispatched(s: State, idle: Tid, m: Mid)
    requires Dispatched(s) && s.current.Some? && !s.pended
    requires CanUnlock(s, idle, s.current.value, m) && QueueOf(s, MutexQ(m)) == []
    ensures Dispatched(Surrendered(s, s.current.value, m))
  {
    hide CanUnlock, Settled, RemoveFromOwned, OwnedIs, OwnedList, Surrendered, Recompute, Top;
    var c := s.current.value;
    var e := Surrendered(s, c, m);
    UnlockKeepsPriority(s, idle, c, m);
    SurrenderedMarks(s, idle, m);
    forall q: Priority | q < s.tasks[c].prio
      ensures QueueOf(e, ReadyQ(q)) == []
    {
      SurrenderedLevels(s, idle, c, m, q);
    }
  }

  lemma SurrenderedLevels(s: State, idle: Tid, c: Tid, m: Mid, q: Priority)
    requires CanUnlock(s, idle, c, m) && QueueOf(s, MutexQ(m)) == [] && s.tasks[c].prio != q
    ensures QueueOf(Surrendered(s, c, m), ReadyQ(q)) == QueueOf(s, ReadyQ(q))
  {
    hide Settled, RemoveFromOwned, OwnedIs, OwnedList, Surrendered, Recompute;
    UnlistSettled(s, idle, c, m);
    UnlockKeepsPriority(s, idle, c, m);
    SurrenderedPriority(s, idle, c, m);
    SurrenderedQueues(s, c, m, q);
  }

  lemma SurrenderedPriority(s: State, idle: Tid, c: Tid, m: Mid)
    requires CanUnlock(s, idle, c, m) && QueueOf(s, MutexQ(m)) == []
    ensures TaskOf(Surrendered(s, c, m).tasks, c).prio == Recompute(RemoveFromOwned(s, c, m), c)
  {
    hide Linked, Sorted, AllExact, WaitGraph, MutexesOk, ChainVisible, Shape, TimeoutsOk, SemsOk, IdleOk,
      RemoveFromOwned, SetPriority, Recompute, OwnedList, HandedOver, Residual, OwnedIs;
    var a := RemoveFromOwned(s, c, m);
    UnlistSettled(s, idle, c, m);
    LowerSettled(a, idle, c, m);
    HandOverRest(SetPriority(a, c, Recompute(a, c)), idle, m);
  }

  lemma UnlockIs(s: State, idle: Tid, m: Mid)
    requires s.current.Some? && CanUnlock(s, idle, s.current.value, m)
    ensures var e := Surrendered(s, s.current.value, m);
      Unlock(s, m) == if QueueOf(s, MutexQ(m)) == [] then e else Reschedule(e)
  {
    hide Linked, Sorted, AllExact, WaitGraph, MutexesOk, ChainVisible, Shape, TimeoutsOk, SemsOk, IdleOk,
      RemoveFromOwned, SetPriority, Recompute, OwnedList, Residual, OwnedIs, WakeOne, Reschedule;
    var c := s.current.value;
    UnlistSettled(s, idle, c, m);
    LowerSettled(RemoveFromOwned(s, c, m), idle, c, m);
  }

  lemma UnlockInv(reading: Reading, s: State, idle: Tid, m: Mid)
    requires FullInv(reading, s, idle) && MayCall(s, idle) && m in s.mutexes
    ensures FullInv(reading, Unlock(s, m), idle)
  {
    hide Settled, OwnedOk, OwnedList, RemoveFromOwned, Surrendered, MutexesOk, Shape, Top, Reschedule, CanUnlock, Unlocked, Unlock;
    if Owns(s.mutexes, s.current.value, m) {
      InvMutexes(reading, s, idle);
      var c := s.current.value;
      var e := Surrendered(s, c, m);
      UnlockReady(reading, s, idle, m);
      UnlockSettled(s, idle, c, m);
      SurrenderedIs(s, idle, c, m);
      SurrenderedMarks(s, idle, m);
      var w := QueueOf(s, MutexQ(m));
      UnlockOwned(reading, s, e, idle, c, m, if w == [] then None else Some(w[0]));
      UnlockIs(s, idle, m);
      if w == [] {
        UnlockDispatched(s, idle, m);
      } else {
        SettledParts(e, idle);
        FinishInv(reading, e, e, idle);
      }
    } else {
      UnlockRefused(s, m);
    }
  }

  lemma UnlockRefused(s: State, m: Mid)
    requires s.current.Some? && m in s.mutexes && s.mutexes[m].owner != s.current
    ensures Unlock(s, m) == s
  {
  }
}
