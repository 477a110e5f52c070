/** Exactly which executed runs keep every list of owned mutexes finite, locks nested at will. */
module FiniteLists {
  import opened Base
  import opened KernelState
  import opened Invariants
  import opened OwnedLists
  import opened UnlockSteps
  import opened Machine
  import opened MutexSteps
  import opened Basics
  import opened Runs

  // ----- chains of links

  lemma {:induction false} ChainUnique(mutexes: map<Mid, Mutex>, h: Option<Mid>, a: seq<Mid>, b: seq<Mid>)
    requires Chain(mutexes, h, a) && Chain(mutexes, h, b)
    ensures a == b
    decreases |a|
  {
    if a != [] && b != [] {
      ChainUnique(mutexes, mutexes[a[0]].next, a[1..], b[1..]);
      assert a == [a[0]] + a[1..] && b == [b[0]] + b[1..];
    }
  }

  lemma {:induction false} ChainSuffix(mutexes: map<Mid, Mutex>, h: Option<Mid>, l: seq<Mid>, i: nat)
    requires Chain(mutexes, h, l) && i < |l|
    ensures Chain(mutexes, Some(l[i]), l[i..])
    decreases |l|
  {
    if i > 0 {
      ChainSuffix(mutexes, mutexes[l[0]].next, l[1..], i - 1);
      assert l[1..][i - 1..] == l[i..];
    } else {
      assert l[0..] == l;
    }
  }

  /** A chain that ends meets no mutex twice. */
  lemma {:induction false} ChainNoDup(mutexes: map<Mid, Mutex>, h: Option<Mid>, l: seq<Mid>)
    requires Chain(mutexes, h, l)
    ensures NoDup(l)
    decreases |l|
  {
    if l != [] {
      ChainNoDup(mutexes, mutexes[l[0]].next, l[1..]);
      forall i, j | 0 <= i < j < |l|
        ensures l[i] != l[j]
      {
        if i > 0 {
          assert l[1..][i - 1] != l[1..][j - 1];
        } else if l[0] == l[j] {
          ChainSuffix(mutexes, h, l, j);
          ChainUnique(mutexes, h, l, l[j..]);
        }
      }
    }
  }

  /** Only the link of `m` has changed. */
  ghost predicate OneLink(mutexes: map<Mid, Mutex>, mutexes': map<Mid, Mutex>, m: Mid) {
    && mutexes'.Keys == mutexes.Keys && m in mutexes
    && forall n :: n in mutexes && n != m ==> mutexes'[n].next == mutexes[n].next
  }

  /** A chain runs on as before up to `m`, and from there along the chain `k`. */
  lemma {:induction false} Spliced(mutexes: map<Mid, Mutex>, mutexes': map<Mid, Mutex>, h: Option<Mid>, l: seq<Mid>, m: Mid, k: seq<Mid>)
    returns (r: seq<Mid>)
    requires OneLink(mutexes, mutexes', m) && Chain(mutexes, h, l) && Chain(mutexes', mutexes'[m].next, k)
    ensures Chain(mutexes', h, r)
    decreases |l|
  {
    if l == [] {
      r := [];
    } else if l[0] == m {
      r := [m] + k;
      assert r[1..] == k;
    } else {
      var t := Spliced(mutexes, mutexes', mutexes[l[0]].next, l[1..], m, k);
      r := [l[0]] + t;
      assert r[1..] == t;
    }
  }

  /** If `m` was on the chain from `h`, every chain from `h` still comes to `m`. */
  lemma {:induction false} ComesTo(mutexes: map<Mid, Mutex>, mutexes': map<Mid, Mutex>, h: Option<Mid>, l: seq<Mid>, m: Mid, k: seq<Mid>)
    returns (r: seq<Mid>)
    requires OneLink(mutexes, mutexes', m) && Chain(mutexes, h, l) && m in l && Chain(mutexes', h, k)
    ensures Chain(mutexes', Some(m), r) && |r| <= |k|
    decreases |l|
  {
    if l[0] == m {
      r := k;
    } else {
      r := ComesTo(mutexes, mutexes', mutexes[l[0]].next, l[1..], m, k[1..]);
    }
  }

  /** Linking `m` in front of a chain that holds it ties a circle. */
  lemma {:induction false} Circle(mutexes: map<Mid, Mutex>, mutexes': map<Mid, Mutex>, h: Option<Mid>, l: seq<Mid>, m: Mid, k: seq<Mid>)
    requires OneLink(mutexes, mutexes', m) && mutexes'[m].next == h && Chain(mutexes, h, l) && m in l
    ensures !Chain(mutexes', Some(m), k)
    decreases |k|
  {
    if Chain(mutexes', Some(m), k) {
      var r := ComesTo(mutexes, mutexes', h, l, m, k[1..]);
      Circle(mutexes, mutexes', h, l, m, r);
    }
  }

  /** Each link is as it was, or cut, or leads one further. */
  ghost predicate Skips(mutexes: map<Mid, Mutex>, mutexes': map<Mid, Mutex>) {
    && mutexes'.Keys == mutexes.Keys
    && forall n :: n in mutexes ==>
         || mutexes'[n].next == mutexes[n].next || mutexes'[n].next.None?
         || (mutexes[n].next.Some? && mutexes[n].next.value in mutexes && mutexes'[n].next == mutexes[mutexes[n].next.value].next)
  }

  lemma {:induction false} Shortened(mutexes: map<Mid, Mutex>, mutexes': map<Mid, Mutex>, h: Option<Mid>, l: seq<Mid>) returns (r: seq<Mid>)
    requires Skips(mutexes, mutexes') && Chain(mutexes, h, l)
    ensures Chain(mutexes', h, r)
    decreases |l|
  {
    if l == [] {
      r := [];
    } else {
      var t: seq<Mid> := [];
      if mutexes'[l[0]].next == mutexes[l[0]].next {
        t := Shortened(mutexes, mutexes', mutexes[l[0]].next, l[1..]);
      } else if mutexes'[l[0]].next.Some? {
        assert l[1] == mutexes[l[0]].next.value && l[1..][1..] == l[2..];
        t := Shortened(mutexes, mutexes', mutexes[l[1]].next, l[2..]);
      }
      r := [l[0]] + t;
      assert r[1..] == t;
    }
  }

  // ----- the lists of all tasks

  /** Every list of owned mutexes ends. */
  ghost predicate AllFinite(s: State) {
    forall t :: t in s.tasks ==> OwnedIs(s, t, OwnedList(s, t))
  }

  lemma FiniteBy(s: State, t: Tid, l: seq<Mid>)
    requires t in s.tasks && Chain(s.mutexes, s.tasks[t].owned, l)
    ensures OwnedIs(s, t, OwnedList(s, t)) && OwnedList(s, t) == l
  {
    ChainNoDup(s.mutexes, s.tasks[t].owned, l);
    OwnedListIs(s, t, l);
  }

  lemma LinksFinite(s: State, r: State)
    requires AllFinite(s) && SameLinks(s, r)
    ensures AllFinite(r)
  {
    hide OwnedList;
    forall t | t in r.tasks
      ensures OwnedIs(r, t, OwnedList(r, t))
    {
      OwnedSame(s, r, t, OwnedList(s, t));
    }
  }

  /** The lock that is not refused puts `m` in front of the list of its caller `c`. */
  ghost predicate Pushed(s: State, r: State, c: Tid, m: Mid) {
    && c in s.tasks && r.tasks.Keys == s.tasks.Keys && OneLink(s.mutexes, r.mutexes, m)
    && r.mutexes[m].next == s.tasks[c].owned && r.tasks[c].owned == Some(m)
    && forall t :: t in s.tasks && t != c ==> r.tasks[t].owned == s.tasks[t].owned
  }

  lemma PushedIff(s: State, r: State, c: Tid, m: Mid)
    requires AllFinite(s) && Pushed(s, r, c, m)
    ensures AllFinite(r) <==> m !in OwnedList(s, c)
  {
    hide OwnedList, Chain, NoDup;
    var k := OwnedList(s, c);
    assert OwnedIs(s, c, k);
    ChainMembers(s.mutexes, s.tasks[c].owned, k);
    if m in k {
      Circle(s.mutexes, r.mutexes, s.tasks[c].owned, k, m, OwnedList(r, c));
      assert !OwnedIs(r, c, OwnedList(r, c));
    } else {
      ChainFrame(s.mutexes, r.mutexes, s.tasks[c].owned, k);
      forall t | t in r.tasks
        ensures OwnedIs(r, t, OwnedList(r, t))
      {
        PushedFinite(s, r, c, m, k, t);
      }
    }
  }

  lemma PushedFinite(s: State, r: State, c: Tid, m: Mid, k: seq<Mid>, t: Tid)
    requires Pushed(s, r, c, m) && Chain(r.mutexes, s.tasks[c].owned, k) && t in s.tasks && OwnedIs(s, t, OwnedList(s, t))
    ensures OwnedIs(r, t, OwnedList(r, t))
  {
    hide OwnedList;
    if t == c {
      assert ([m] + k)[1..] == k;
      FiniteBy(r, c, [m] + k);
    } else {
      var l := Spliced(s.mutexes, r.mutexes, s.tasks[t].owned, OwnedList(s, t), m, k);
      FiniteBy(r, t, l);
    }
  }

  /** Taking a mutex off a list shortens lists, and ends some, but ties none. */
  lemma UnlistedFinite(s: State, c: Tid, m: Mid)
    requires AllFinite(s) && c in s.tasks
    ensures AllFinite(RemoveFromOwned(s, c, m))
  {
    hide OwnedList, RemoveFromOwned, Skips;
    var a := RemoveFromOwned(s, c, m);
    UnlistedSkips(s, c, m);
    forall t | t in a.tasks
      ensures OwnedIs(a, t, OwnedList(a, t))
    {
      var l := OwnedList(s, t);
      assert OwnedIs(s, t, l);
      if a.tasks[t].owned == s.tasks[t].owned {
        var r := Shortened(s.mutexes, a.mutexes, s.tasks[t].owned, l);
        FiniteBy(a, t, r);
      } else {
        var r := Shortened(s.mutexes, a.mutexes, s.mutexes[m].next, l[1..]);
        FiniteBy(a, t, r);
      }
    }
  }

  lemma UnlistedSkips(s: State, c: Tid, m: Mid)
    requires c in s.tasks && OwnedIs(s, c, OwnedList(s, c))
    ensures var a := RemoveFromOwned(s, c, m);
      && a.tasks.Keys == s.tasks.Keys && Skips(s.mutexes, a.mutexes)
      && (forall t :: t in s.tasks ==>
            || a.tasks[t].owned == s.tasks[t].owned
            || (t == c && m in s.mutexes && s.tasks[c].owned == Some(m) && a.tasks[c].owned == s.mutexes[m].next))
  {
    hide OwnedList;
    var l := OwnedList(s, c);
    if m in l {
      var i := IndexOf(l, m);
      ChainLinks(s.mutexes, s.tasks[c].owned, l, i);
      if i > 0 {
        ChainLinks(s.mutexes, s.tasks[c].owned, l, i - 1);
      }
    }
  }

  // ----- one step

  /** A lock that is not refused takes a mutex that is on its caller's list already. */
  ghost predicate Relocks(s: State, e: Event) {
    && e.LockMutex? && s.current.Some?
    && MutexOf(s, e.mutex).owner != s.current && e.mutex in OwnedList(s, s.current.value)
  }

  lemma LockPushes(s: State, idle: Tid, m: Mid)
    requires Ongoing(s, idle) && MayCall(s, idle) && m in s.mutexes && s.mutexes[m].owner != s.current
    ensures Pushed(s, LockExecuted(s, m), s.current.value, m)
  {
    hide LockCall, LockResume, Core, Attended;
    var c := s.current.value;
    if Contended(s, m) {
      var r := LockCall(s, m);
      LockCallOngoing(s, idle, m);
      ResumeFrame(r, m);
      ResumeLinks(r, m);
    } else {
      SeizeFrame(s, m);
    }
  }

  lemma ResumeLinks(r: State, m: Mid)
    requires r.current.Some? && r.current.value in r.tasks && m in r.mutexes
    ensures LockResume(r, m).mutexes == r.mutexes[m := r.mutexes[m].(next := r.tasks[r.current.value].owned)]
  {
  }

  lemma UnlockFinite(s: State, idle: Tid, m: Mid)
    requires Ongoing(s, idle) && MayCall(s, idle) && m in s.mutexes && AllFinite(s)
    ensures AllFinite(Unlock(s, m))
  {
    hide Core, Attended, Alike, SameLinks, AllFinite, Unlock, Surrendered, RemoveFromOwned, Recompute, PassedOn;
    if s.mutexes[m].owner == s.current {
      var c := s.current.value;
      var e := Surrendered(s, c, m);
      AwakeCaller(s, idle);
      UnlistedFinite(s, c, m);
      SurrenderedCore(s, idle, m);
      LinksFinite(RemoveFromOwned(s, c, m), e);
      UnlockFree(s, idle, m);
      AlikeLinks(e, Unlock(s, m));
      LinksFinite(e, Unlock(s, m));
    } else {
      UnlockRefused(s, m);
    }
  }

  lemma AlikeLinks(s: State, r: State)
    requires Alike(s, r)
    ensures SameLinks(s, r)
  {
  }

  /** What is added at the end of memory is on no list. */
  lemma ObjectsFinite(s: State, r: State)
    requires AllFinite(s) && s.tasks.Keys <= r.tasks.Keys && s.mutexes.Keys <= r.mutexes.Keys
    requires forall m :: m in s.mutexes ==> r.mutexes[m].next == s.mutexes[m].next
    requires forall t :: t in r.tasks ==> if t in s.tasks then r.tasks[t].owned == s.tasks[t].owned else r.tasks[t].owned.None?
    ensures AllFinite(r)
  {
    hide OwnedList;
    forall t | t in r.tasks
      ensures OwnedIs(r, t, OwnedList(r, t))
    {
      if t in s.tasks {
        OwnedSame(s, r, t, OwnedList(s, t));
      } else {
        FiniteBy(r, t, []);
      }
    }
  }

  lemma CreatedFinite(s: State, t: Tid, p: Priority)
    requires AllFinite(s) && t !in s.tasks
    ensures AllFinite(Create(s, t, p))
  {
    hide AllFinite, Create;
    CreatedTasks(s, t, p);
    CreatedMutexes(s, t, p);
    ObjectsFinite(s, Create(s, t, p));
  }

  lemma CreatedMutexes(s: State, t: Tid, p: Priority)
    ensures Create(s, t, p).mutexes == s.mutexes
  {
    hide Top;
  }

  /** From finite lists a step leads to finite lists if and only if it is no such lock. */
  lemma StepFiniteIff(s: State, idle: Tid, e: Event)
    requires Ongoing(s, idle) && Enabled(Executed, s, idle, e) && AllFinite(s)
    ensures AllFinite(Step(Executed, s, e)) <==> !Relocks(s, e)
  {
    hide Ongoing, AllFinite, Alike, SameLinks, LockExecuted, Unlock, Create;
    if Plain(e) {
      PlainStep(Executed, s, idle, e);
      AlikeLinks(s, Step(Executed, s, e));
      LinksFinite(s, Step(Executed, s, e));
    } else {
      match e
      case LockMutex(m) =>
        if s.mutexes[m].owner == s.current {
          LockRefused(s, m);
        } else {
          LockPushes(s, idle, m);
          PushedIff(s, LockExecuted(s, m), s.current.value, m);
        }
      case UnlockMutex(m) => UnlockFinite(s, idle, m);
      case CreateTask(t, p) => CreatedFinite(s, t, p);
      case InitMutex(m, link) => ObjectsFinite(s, NewMutex(s, m, link));
      case _ =>
    }
  }

  // ----- whole runs

  /** Every list ends in `s` and after every step of `es`. */
  ghost predicate FiniteThroughout(s: State, es: seq<Event>)
    decreases |es|
  {
    AllFinite(s) && (es == [] || FiniteThroughout(Step(Executed, s, es[0]), es[1..]))
  }

  /** No lock of `es` that is not refused takes a mutex that is on its caller's list already. */
  ghost predicate NeverRelocks(s: State, es: seq<Event>)
    decreases |es|
  {
    es == [] || (!Relocks(s, es[0]) && NeverRelocks(Step(Executed, s, es[0]), es[1..]))
  }

  lemma {:induction false} FiniteFromIff(s: State, idle: Tid, es: seq<Event>)
    requires Inv(Executed, s, idle) && AllFinite(s) && Legal(Executed, s, idle, es)
    ensures FiniteThroughout(s, es) <==> NeverRelocks(s, es)
    decreases |es|
  {
    hide Core, Attended, Unannounced, Enabled, Step, AllFinite, Relocks;
    if es != [] {
      var r := Step(Executed, s, es[0]);
      StepFiniteIff(s, idle, es[0]);
      StepInv(Executed, s, idle, es[0]);
      if AllFinite(r) {
        FiniteFromIff(r, idle, es[1..]);
      }
    }
  }

  lemma BootedFinite(idle: Tid)
    ensures AllFinite(Booted(idle))
  {
    hide Booted, OwnedList;
    BootedIs(idle);
    FiniteBy(Booted(idle), idle, []);
  }

  /** The exact condition, for every run as executed, locks nested at will: all lists of owned
      mutexes end throughout if and only if no lock that is not refused takes a mutex that is on
      its caller's list already. */
  lemma RunFiniteIff(idle: Tid, es: seq<Event>)
    requires Legal(Executed, Booted(idle), idle, es)
    ensures FiniteThroughout(Booted(idle), es) <==> NeverRelocks(Booted(idle), es)
  {
    hide Booted, Legal, FiniteThroughout, NeverRelocks, Inv, AllFinite;
    BootedInv(Executed, idle);
    BootedFinite(idle);
    FiniteFromIff(Booted(idle), idle, es);
  }

  // ----- unlocking

  /** Both loops of an unlock come to an end: the search for `m`, and the one over what is left. */
  ghost predicate Returns(s: State, c: Tid, m: Mid) {
    && (m in OwnedList(s, c) || OwnedIs(s, c, OwnedList(s, c)))
    && OwnedIs(RemoveFromOwned(s, c, m), c, OwnedList(RemoveFromOwned(s, c, m), c))
  }

  /** While all lists end, every unlock returns. */
  lemma FiniteReturns(s: State, c: Tid, m: Mid)
    requires AllFinite(s) && c in s.tasks
    ensures Returns(s, c, m)
  {
    hide OwnedList, RemoveFromOwned, OwnedIs;
    UnlistedFinite(s, c, m);
    UnlistedKeys(s, c, m);
  }

  /** A step that is an unlock by the owner returns. */
  ghost predicate Completes(s: State, e: Event) {
    e.UnlockMutex? && s.current.Some? && MutexOf(s, e.mutex).owner == s.current ==> Returns(s, s.current.value, e.mutex)
  }

  /** So it does in runs whose locks are all safe. */
  lemma SafeCompletes(reading: Reading, s: State, idle: Tid, e: Event)
    requires FullInv(reading, s, idle) && Enabled(reading, s, idle, e)
    ensures Completes(s, e)
  {
    hide Settled, Dispatched, Returns, OwnedList, OwnedIs;
    forall t | t in s.tasks
      ensures OwnedIs(s, t, OwnedList(s, t))
    {
      assert ListIs(reading, s, t, OwnedList(s, t));
    }
    if e.UnlockMutex? && s.current.Some? {
      FiniteReturns(s, s.current.value, e.mutex);
    }
  }

  lemma UnlistedKeys(s: State, c: Tid, m: Mid)
    requires c in s.tasks
    ensures c in RemoveFromOwned(s, c, m).tasks
  {
  }
}
