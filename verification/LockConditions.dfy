/** Exactly when the contended lock, as executed, keeps the lists of owned mutexes. */
module LockConditions {
  import opened Base
  import opened KernelState
  import opened Invariants
  import opened OwnedLists
  import opened Machine
  import opened MutexSteps
  import opened Basics
  import opened SafeRuns

  // ----- lists

  lemma {:induction false} ChainSplice(mutexes: map<Mid, Mutex>, h: Option<Mid>, l: seq<Mid>, i: nat,
                                       m: Mid, to: Option<Mid>, k: seq<Mid>)
    requires Chain(mutexes, h, l) && NoDup(l) && i < |l| && l[i] == m && m in mutexes
    requires Chain(mutexes, to, k) && m !in k
    ensures Chain(mutexes[m := mutexes[m].(next := to)], h, l[..i + 1] + k)
    decreases |l|
  {
    var mutexes' := mutexes[m := mutexes[m].(next := to)];
    ChainMembers(mutexes, to, k);
    ChainFrame(mutexes, mutexes', to, k);
    var r := l[..i + 1] + k;
    if i == 0 {
      assert r[1..] == k;
    } else {
      ChainSplice(mutexes, mutexes[l[0]].next, l[1..], i - 1, m, to, k);
      assert r[1..] == l[1..][..i] + k;
    }
  }

  /** The list of `t` is acyclic and holds exactly what `t` owns. */
  ghost predicate ListExact(s: State, t: Tid) {
    t in s.tasks && OwnedIs(s, t, OwnedList(s, t)) && forall n :: n in OwnedList(s, t) <==> Owns(s.mutexes, t, n)
  }

  /** So it is for every task that does not wait. */
  lemma AwakeListExact(s: State, idle: Tid, t: Tid)
    requires FullInv(Executed, s, idle) && t in s.tasks && Awaited(s.tasks[t]).None?
    ensures ListExact(s, t)
  {
    hide Settled, Dispatched, OwnedOk, ListExact;
    ListedExact(s, t);
  }

  /** An owner does not wait, as executed under the rule. */
  lemma OwnerAwake(s: State, idle: Tid, t: Tid, m: Mid)
    requires FullInv(Executed, s, idle) && t in s.tasks && Owns(s.mutexes, t, m)
    ensures Awaited(s.tasks[t]).None?
  {
    hide Settled, Dispatched, OwnedList, OwnedIs;
    assert ListIs(Executed, s, t, OwnedList(s, t));
  }

  lemma DisjointNoDup(l: seq<Mid>, k: seq<Mid>)
    requires NoDup(l) && NoDup(k) && forall n :: n in l ==> n !in k
    ensures NoDup(l + k)
  {
    var r := l + k;
    forall i, j | 0 <= i < j < |r|
      ensures r[i] != r[j]
    {
      assert i < |l| <= j ==> r[i] in l && r[j] in k;
    }
  }

  /** As executed, a contended lock of `m` by `c` cuts the owner's list behind `m` and puts the
      caller's list in its place. */
  lemma OwnersListAfter(s: State, r: State, c: Tid, o: Tid, m: Mid, i: nat)
    requires ListExact(s, c) && ListExact(s, o) && c != o && Owns(s.mutexes, o, m)
    requires i < |OwnedList(s, o)| && OwnedList(s, o)[i] == m
    requires r.mutexes == s.mutexes[m := s.mutexes[m].(next := s.tasks[c].owned)]
    requires o in r.tasks && r.tasks[o].owned == s.tasks[o].owned
    ensures OwnedList(r, o) == OwnedList(s, o)[..i + 1] + OwnedList(s, c) && OwnedIs(r, o, OwnedList(r, o))
  {
    hide OwnedList, Chain;
    var l, k := OwnedList(s, o), OwnedList(s, c);
    assert OwnedIs(s, o, l) && OwnedIs(s, c, k);
    assert forall n :: n in k ==> Owns(s.mutexes, c, n);
    assert forall n :: n in l ==> Owns(s.mutexes, o, n);
    assert m !in k;
    ChainSplice(s.mutexes, s.tasks[o].owned, l, i, m, s.tasks[c].owned, k);
    forall n | n in l[..i + 1]
      ensures n !in k
    {
      assert n in l && Owns(s.mutexes, o, n);
    }
    DisjointNoDup(l[..i + 1], k);
    OwnedListIs(r, o, l[..i + 1] + k);
  }

  /** The walk leaves every list head alone. */
  lemma {:induction false} BoostKeepsHeads(s: State, p: Priority, o: Option<Tid>, t: Tid)
    requires t in s.tasks
    ensures t in Boost(s, p, o).tasks && Boost(s, p, o).tasks[t].owned == s.tasks[t].owned
    decreases LessUrgent(s.tasks, p)
  {
    hide NextOwner, SetPriority;
    if o.Some? && o.value in s.tasks && s.tasks[o.value].prio > p {
      var a := SetPriority(s, o.value, p);
      SetPriorityOnly(s, o.value, p);
      assert o.value in LessUrgent(s.tasks, p) && o.value !in LessUrgent(a.tasks, p);
      assert LessUrgent(a.tasks, p) < LessUrgent(s.tasks, p);
      BoostKeepsHeads(a, p, NextOwner(a, o.value), t);
    }
  }

  lemma LockExecutedLinks(s: State, c: Tid, o: Tid, m: Mid)
    requires s.current == Some(c) && c in s.tasks && o in s.tasks && c != o && Owns(s.mutexes, o, m)
    ensures var r := LockExecuted(s, m);
      && r.mutexes == s.mutexes[m := s.mutexes[m].(next := s.tasks[c].owned)]
      && o in r.tasks && r.tasks[o].owned == s.tasks[o].owned
  {
    hide Boost, Reschedule, EnterQueue;
    var a := SetTask(s, c, s.tasks[c].(blockedOn := Some(m)));
    var b := Boost(a, s.tasks[c].prio, Some(o));
    BoostFrame(a, s.tasks[c].prio, Some(o));
    BoostKeepsHeads(a, s.tasks[c].prio, Some(o), o);
    BoostKeepsHeads(a, s.tasks[c].prio, Some(o), c);
    EnterFrame(b, c, MutexQ(m), true);
    EnterHeads(b, c, o, MutexQ(m));
    RescheduleFrame(EnterQueue(b, c, MutexQ(m), true));
  }

  lemma EnterHeads(b: State, c: Tid, o: Tid, q: QueueId)
    requires c in b.tasks && o in b.tasks && c != o
    ensures var x := EnterQueue(b, c, q, true);
      o in x.tasks && x.tasks[o] == b.tasks[o] && c in x.tasks && x.tasks[c].owned == b.tasks[c].owned
  {
  }

  lemma OwnsNothingIff(s: State, c: Tid)
    requires ListExact(s, c) && s.current == Some(c)
    ensures OwnsNothing(s) <==> OwnedList(s, c) == []
  {
    hide OwnedList, OwnedIs;
    var k := OwnedList(s, c);
    NoMembers(k);
    assert forall n :: n in s.mutexes && s.mutexes[n].owner == s.current ==> Owns(s.mutexes, c, n);
  }

  /** So the owner's list survives a contended lock, and still holds exactly what it owns, if and
      only if the lock is safe: the caller owns nothing, and nothing is linked behind the mutex. */
  lemma ListSurvivesIff(s: State, c: Tid, o: Tid, m: Mid)
    requires ListExact(s, c) && ListExact(s, o) && s.current == Some(c) && c != o && Owns(s.mutexes, o, m)
    ensures var x := LockExecuted(s, m);
      (OwnedList(x, o) == OwnedList(s, o) <==> SafeLock(s, m)) && (ListExact(x, o) <==> SafeLock(s, m))
  {
    hide OwnedList, LockExecuted, Chain;
    var l, k, x := OwnedList(s, o), OwnedList(s, c), LockExecuted(s, m);
    var i := IndexOf(l, m);
    LockExecutedLinks(s, c, o, m);
    OwnersListAfter(s, x, c, o, m, i);
    ChainLinks(s.mutexes, s.tasks[o].owned, l, i);
    OwnsNothingIff(s, c);
    if k == [] {
      assert l[..i + 1] + k == l[..i + 1];
      if i + 1 < |l| {
        assert l[i + 1] in l && l[i + 1] !in l[..i + 1] && Owns(x.mutexes, o, l[i + 1]);
      }
    } else {
      var r := l[..i + 1] + k;
      assert r[i + 1] == k[0] && k[0] in r && Owns(s.mutexes, c, k[0]) && !Owns(x.mutexes, o, k[0]);
      assert i + 1 < |l| ==> Owns(s.mutexes, o, l[i + 1]);
    }
  }

  /** After a lock that is not safe the owner's list is wrong. */
  lemma UnsafeBreaks(s: State, idle: Tid, m: Mid)
    requires FullInv(Executed, s, idle) && MayCall(s, idle) && m in s.mutexes && !SafeLock(s, m)
    ensures !ListExact(LockExecuted(s, m), s.mutexes[m].owner.value) && !OwnedOk(Executed, LockExecuted(s, m))
  {
    hide OwnedList, LockExecuted, ListExact, Settled, Dispatched, LockedOut;
    var c, o, x := s.current.value, s.mutexes[m].owner.value, LockExecuted(s, m);
    CallerFree(s, idle, c);
    OwnersKnown(s, idle, m);
    OwnerAwake(s, idle, o, m);
    AwakeListExact(s, idle, o);
    AwakeListExact(s, idle, c);
    LockedWaits(s, idle, m);
    ListSurvivesIff(s, c, o, m);
    if OwnedOk(Executed, x) {
      ListedExact(x, o);
    }
  }

  lemma ListedExact(x: State, t: Tid)
    requires OwnedOk(Executed, x) && t in x.tasks && Awaited(x.tasks[t]).None?
    ensures ListExact(x, t)
  {
    hide OwnedList, OwnedIs;
    assert ListIs(Executed, x, t, OwnedList(x, t));
    assert forall n :: n in OwnedList(x, t) <==> Lists(Executed, x, t, n);
  }

  lemma CallerFree(s: State, idle: Tid, c: Tid)
    requires FullInv(Executed, s, idle) && MayCall(s, idle) && s.current == Some(c)
    ensures Awaited(s.tasks[c]).None? && !s.tasks[c].status.Blocked?
  {
  }

  lemma OwnersKnown(s: State, idle: Tid, m: Mid)
    requires FullInv(Executed, s, idle) && m in s.mutexes && s.mutexes[m].owner.Some?
    ensures s.mutexes[m].owner.value in s.tasks
  {
  }

  /** After a contended lock the caller waits for `m`, and only it has moved. */
  lemma LockedWaits(s: State, idle: Tid, m: Mid)
    requires FullInv(Executed, s, idle) && MayCall(s, idle) && m in s.mutexes && Contended(s, m)
    ensures var x := LockExecuted(s, m);
      && x.tasks.Keys == s.tasks.Keys && Awaited(x.tasks[s.current.value]) == Some(m)
      && forall t :: t in s.tasks && t != s.current.value ==> Awaited(x.tasks[t]) == Awaited(s.tasks[t])
  {
    hide Settled, Dispatched, OwnedOk, LockCall, LockResume;
    LockBlocks(s, idle, m);
    ResumeFrame(LockCall(s, m), m);
  }

  /** And so does the whole invariant: a lock keeps it exactly when it is safe. */
  lemma LockKeepsInvIff(s: State, idle: Tid, m: Mid)
    requires FullInv(Executed, s, idle) && MayCall(s, idle) && m in s.mutexes
    ensures FullInv(Executed, LockExecuted(s, m), idle) <==> SafeLock(s, m)
  {
    hide Settled, Dispatched, OwnedOk, OwnedList, LockExecuted, ListExact;
    if SafeLock(s, m) {
      LockFullInv(Executed, s, idle, m);
    } else {
      UnsafeBreaks(s, idle, m);
    }
  }
}
