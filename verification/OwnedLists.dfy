/** The intrusive list of mutexes a task owns, and what it holds under each reading
    of the contended lock. */
module OwnedLists {
  import opened Base
  import opened KernelState
  import opened Invariants

  /** The links from `h` run through exactly `l` and end in NULL. */
  ghost predicate Chain(mutexes: map<Mid, Mutex>, h: Option<Mid>, l: seq<Mid>)
    decreases |l|
  {
    if l == [] then h.None?
    else h == Some(l[0]) && l[0] in mutexes && Chain(mutexes, mutexes[l[0]].next, l[1..])
  }

  lemma ChainEmpty(mutexes: map<Mid, Mutex>, h: Option<Mid>)
    requires Chain(mutexes, h, [])
    ensures h.None?
  {
  }

  /** The pointer to element `i` of `l`, NULL past its end. */
  ghost function At(l: seq<Mid>, i: nat): (r: Option<Mid>) {
    if i < |l| then Some(l[i]) else None
  }

  lemma {:induction false} ChainLinks(mutexes: map<Mid, Mutex>, h: Option<Mid>, l: seq<Mid>, i: nat)
    requires Chain(mutexes, h, l) && i < |l|
    ensures h == Some(l[0]) && l[i] in mutexes && mutexes[l[i]].next == At(l, i + 1)
    decreases |l|
  {
    if i > 0 {
      ChainLinks(mutexes, mutexes[l[0]].next, l[1..], i - 1);
    }
  }

  lemma {:induction false} ChainFollow(mutexes: map<Mid, Mutex>, h: Option<Mid>, l: seq<Mid>, left: set<Mid>)
    requires Chain(mutexes, h, l) && NoDup(l) && left <= mutexes.Keys && forall m :: m in l ==> m in left
    ensures Follow(mutexes, h, left) == l
    decreases |l|
  {
    if l != [] {
      ChainFollow(mutexes, mutexes[l[0]].next, l[1..], left - {l[0]});
    }
  }

  lemma {:induction false} ChainFrame(mutexes: map<Mid, Mutex>, mutexes': map<Mid, Mutex>, h: Option<Mid>, l: seq<Mid>)
    requires Chain(mutexes, h, l)
    requires forall m :: m in l ==> m in mutexes && m in mutexes' && mutexes'[m].next == mutexes[m].next
    ensures Chain(mutexes', h, l)
    decreases |l|
  {
    if l != [] {
      ChainFrame(mutexes, mutexes', mutexes[l[0]].next, l[1..]);
    }
  }

  lemma {:induction false} ChainMembers(mutexes: map<Mid, Mutex>, h: Option<Mid>, l: seq<Mid>)
    requires Chain(mutexes, h, l)
    ensures forall m :: m in l ==> m in mutexes
    decreases |l|
  {
    if l != [] {
      ChainMembers(mutexes, mutexes[l[0]].next, l[1..]);
    }
  }

  /** Unlinking the element at index `i`, as `os_mutex_remove_from_owned` does. */
  lemma {:induction false} ChainUnlink(mutexes: map<Mid, Mutex>, mutexes': map<Mid, Mutex>, h: Option<Mid>, l: seq<Mid>, i: nat)
    requires Chain(mutexes, h, l) && NoDup(l) && i < |l|
    requires forall m :: m in l ==> m in mutexes && m in mutexes'
    requires forall m :: m in l && m != l[i] && (i > 0 ==> m != l[i - 1]) ==> mutexes'[m].next == mutexes[m].next
    requires i > 0 ==> mutexes'[l[i - 1]].next == mutexes[l[i]].next
    ensures Chain(mutexes', if i == 0 then mutexes[l[0]].next else h, l[..i] + l[i + 1..])
    decreases |l|
  {
    var tail := l[1..];
    var h' := mutexes[l[0]].next;
    var r := l[..i] + l[i + 1..];
    if i == 0 {
      assert r == tail;
      ChainFrame(mutexes, mutexes', h', tail);
    } else {
      ChainUnlink(mutexes, mutexes', h', tail, i - 1);
      assert r[1..] == tail[..i - 1] + tail[i..];
      if i == 1 {
        assert r[1..] == tail[1..];
      }
    }
  }

  /** The list of `t` is well formed and is `l`. */
  ghost predicate OwnedIs(s: State, t: Tid, l: seq<Mid>) {
    t in s.tasks && NoDup(l) && Chain(s.mutexes, s.tasks[t].owned, l)
  }

  lemma OwnedListIs(s: State, t: Tid, l: seq<Mid>)
    requires OwnedIs(s, t, l)
    ensures OwnedList(s, t) == l
  {
    ChainMembers(s.mutexes, s.tasks[t].owned, l);
    ChainFollow(s.mutexes, s.tasks[t].owned, l, s.mutexes.Keys);
  }

  lemma OwnedSame(s: State, r: State, t: Tid, l: seq<Mid>)
    requires OwnedIs(s, t, l) && t in r.tasks && r.tasks[t].owned == s.tasks[t].owned
    requires forall m :: m in l && m in s.mutexes ==> m in r.mutexes && r.mutexes[m].next == s.mutexes[m].next
    ensures OwnedIs(r, t, l) && OwnedList(r, t) == l
  {
    ChainMembers(s.mutexes, s.tasks[t].owned, l);
    ChainFrame(s.mutexes, r.mutexes, s.tasks[t].owned, l);
    OwnedListIs(r, t, l);
  }

  lemma AddIs(s: State, t: Tid, m: Mid, l: seq<Mid>)
    requires OwnedIs(s, t, l) && m in s.mutexes && m !in l
    ensures OwnedIs(AddToOwned(s, t, m), t, [m] + l)
  {
    var r := AddToOwned(s, t, m);
    ChainMembers(s.mutexes, s.tasks[t].owned, l);
    ChainFrame(s.mutexes, r.mutexes, s.tasks[t].owned, l);
    assert ([m] + l)[1..] == l;
  }

  lemma RemoveIs(s: State, t: Tid, m: Mid, l: seq<Mid>)
    requires OwnedIs(s, t, l) && m in l
    ensures OwnedIs(RemoveFromOwned(s, t, m), t, Without(l, m))
  {
    OwnedListIs(s, t, l);
    ChainMembers(s.mutexes, s.tasks[t].owned, l);
    WithoutMembers(l, m);
    ChainUnlink(s.mutexes, RemoveFromOwned(s, t, m).mutexes, s.tasks[t].owned, l, IndexOf(l, m));
  }

  /** What `RemoveFromOwned` can touch: `t`'s head, the link of `m`, the link of its predecessor. */
  lemma RemoveFrame(s: State, t: Tid, m: Mid, l: seq<Mid>)
    requires OwnedIs(s, t, l) && m in l
    ensures var r := RemoveFromOwned(s, t, m);
      && r == s.(tasks := r.tasks, mutexes := r.mutexes)
      && r.tasks == s.tasks[t := s.tasks[t].(owned := r.tasks[t].owned)]
      && r.mutexes.Keys == s.mutexes.Keys
      && (forall x :: x in s.mutexes ==> r.mutexes[x].owner == s.mutexes[x].owner)
      && (forall x :: x in s.mutexes && x !in l ==> r.mutexes[x].next == s.mutexes[x].next)
  {
    OwnedListIs(s, t, l);
  }

  // ----- what the lists hold

  /** How the contended lock is read.  Intended: the call blocks, and its last two lines run
      when the task next runs.  Executed: the switch is only pended, so they run at once. */
  datatype Reading = Intended | Executed

  /** Whether `t` is to have `m` on its list.  Intended: it owns `m`, and `m` is not one handed
      over to it whose lock call has yet to resume.  Executed: it owns or awaits `m`. */
  ghost predicate Lists(reading: Reading, s: State, t: Tid, m: Mid)
    requires t in s.tasks
  {
    if reading.Intended? then Owns(s.mutexes, t, m) && s.tasks[t].blockedOn != Some(m)
    else Owns(s.mutexes, t, m) || Awaited(s.tasks[t]) == Some(m)
  }

  /** Intended: `blockedOn` names the mutex a task waits for, or one it has been handed.
      Executed: it is cleared at once, and a task that waits for a mutex owns none. */
  ghost predicate BlockedOnOk(reading: Reading, s: State, t: Tid)
    requires t in s.tasks
  {
    if reading.Intended? then
      && (Awaited(s.tasks[t]).Some? ==> s.tasks[t].blockedOn == Awaited(s.tasks[t]))
      && (s.tasks[t].blockedOn.Some? && !s.tasks[t].status.Blocked? ==> Owns(s.mutexes, t, s.tasks[t].blockedOn.value))
    else
      && s.tasks[t].blockedOn.None?
      && (Awaited(s.tasks[t]).Some? ==> forall n :: !Owns(s.mutexes, t, n))
  }

  ghost predicate ListIs(reading: Reading, s: State, t: Tid, l: seq<Mid>) {
    && OwnedIs(s, t, l)
    && (forall m :: m in l <==> Lists(reading, s, t, m))
    && BlockedOnOk(reading, s, t)
  }

  /** Every owned list is acyclic and holds exactly what it should.  Executed: a task that waits
      has on its list the mutex it waits for and nothing else, and that mutex is also the last
      on its owner's list. */
  ghost predicate OwnedOk(reading: Reading, s: State) {
    forall t :: t in s.tasks ==> ListIs(reading, s, t, OwnedList(s, t))
  }

  lemma ListDetermined(reading: Reading, s: State, t: Tid, l: seq<Mid>)
    requires ListIs(reading, s, t, l)
    ensures OwnedList(s, t) == l
  {
    OwnedListIs(s, t, l);
  }
}
