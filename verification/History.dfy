/** What the calls made so far say about who holds which mutex and how many permits a
    semaphore has granted, and that the kernel's state agrees with it in every run. */
module History {
  import opened Base
  import opened KernelState
  import opened Invariants
  import opened Machine
  import opened OwnedLists
  import opened StepChanges
  import opened UnlockSteps
  import opened MutexSteps
  import opened Basics
  import opened Runs

  // ----- mutexes

  /** `held`: lock calls that have returned 0 and have not been undone by an unlock.
      `unfinished`: contended lock calls that have not returned to their caller. */
  datatype Locks = Locks(held: set<(Tid, Mid)>, unfinished: map<Tid, Mid>)

  /** A contended call returns to its caller when it resumes (intended), or when its caller is
      next switched in (executed). */
  function Return(h: Locks, t: Option<Tid>): (r: Locks) {
    if t.Some? && t.value in h.unfinished
    then Locks(h.held + {(t.value, h.unfinished[t.value])}, h.unfinished - {t.value}) else h
  }

  function LocksAfter(reading: Reading, h: Locks, s: State, e: Event): (r: Locks) {
    if s.current.None? then h else
    match e
    case LockMutex(m) =>
      if MutexOf(s, m).owner.None? then h.(held := h.held + {(s.current.value, m)})
      else if Contended(s, m) then h.(unfinished := h.unfinished[s.current.value := m])
      else h
    case UnlockMutex(m) => if MutexOf(s, m).owner == s.current then h.(held := h.held - {(s.current.value, m)}) else h
    case ResumeLock => Return(h, s.current)
    case SwitchContext => if reading.Executed? then Return(h, s.next) else h
    case _ => h
  }

  function LocksOver(reading: Reading, h: Locks, s: State, es: seq<Event>): (r: Locks)
    decreases |es|
  {
    if es == [] then h else LocksOver(reading, LocksAfter(reading, h, s, es[0]), Step(reading, s, es[0]), es[1..])
  }

  function Unfinished(h: Locks, t: Tid): (m: Option<Mid>) {
    if t in h.unfinished then Some(h.unfinished[t]) else None
  }

  /** The calls and the kernel agree about `t`: it owns exactly what it holds and what it was
      handed by a call that has yet to return, and it waits only inside such a call. */
  ghost predicate TaskAgrees(reading: Reading, s: State, h: Locks, t: Tid)
    requires t in s.tasks
  {
    var u, a := Unfinished(h, t), Awaited(s.tasks[t]);
    && (a.Some? ==> u == a)
    && (forall m: Mid :: Owns(s.mutexes, t, m) <==> (t, m) in h.held || (u == Some(m) && a.None?))
    && (forall m :: (t, m) in h.held ==> u != Some(m))
    && (if reading.Intended? then s.tasks[t].blockedOn == u else (u.Some? && s.current == Some(t) ==> s.pended))
  }

  ghost predicate LocksAgree(reading: Reading, s: State, h: Locks) {
    && (forall t :: t in h.unfinished ==> t in s.tasks)
    && (forall t, m :: (t, m) in h.held ==> t in s.tasks)
    && (forall t :: t in s.tasks ==> TaskAgrees(reading, s, h, t))
  }

  // ----- one task at a time

  lemma QuietAt(reading: Reading, s: State, r: State, h: Locks, t: Tid)
    requires t in s.tasks && TaskAgrees(reading, s, h, t) && t in r.tasks
    requires forall m :: Owns(r.mutexes, t, m) <==> Owns(s.mutexes, t, m)
    requires Awaited(r.tasks[t]) == Awaited(s.tasks[t]) && r.tasks[t].blockedOn == s.tasks[t].blockedOn
    requires reading.Executed? && r.current == Some(t) ==> r.pended || (s.current == r.current && !s.pended)
    ensures TaskAgrees(reading, r, h, t)
  {
  }

  lemma SeizeAt(reading: Reading, s: State, r: State, h: Locks, c: Tid, m: Mid, t: Tid)
    requires t in s.tasks && TaskAgrees(reading, s, h, t) && t in r.tasks
    requires forall n :: Owns(r.mutexes, t, n) <==> Owns(s.mutexes, t, n) || (t == c && n == m)
    requires t == c ==> c !in h.unfinished
    requires Awaited(r.tasks[t]) == Awaited(s.tasks[t]) && r.tasks[t].blockedOn == s.tasks[t].blockedOn
    requires reading.Executed? && r.current == Some(t) ==> r.pended || (s.current == r.current && !s.pended)
    ensures TaskAgrees(reading, r, h.(held := h.held + {(c, m)}), t)
  {
  }

  lemma BlockAt(reading: Reading, s: State, r: State, h: Locks, c: Tid, m: Mid, t: Tid)
    requires t in s.tasks && TaskAgrees(reading, s, h, t) && t in r.tasks
    requires forall n :: Owns(r.mutexes, t, n) <==> Owns(s.mutexes, t, n)
    requires t == c ==> c !in h.unfinished && !Owns(s.mutexes, c, m) && Awaited(r.tasks[c]) == Some(m)
    requires t == c && reading.Intended? ==> r.tasks[c].blockedOn == Some(m)
    requires t != c ==> Awaited(r.tasks[t]) == Awaited(s.tasks[t]) && r.tasks[t].blockedOn == s.tasks[t].blockedOn
    requires reading.Executed? ==> r.pended
    ensures TaskAgrees(reading, r, h.(unfinished := h.unfinished[c := m]), t)
  {
  }

  lemma UnlockAt(reading: Reading, s: State, r: State, h: Locks, c: Tid, m: Mid, heir: Option<Tid>, t: Tid)
    requires t in s.tasks && TaskAgrees(reading, s, h, t) && t in r.tasks
    requires Owns(s.mutexes, c, m) && heir != Some(c)
    requires forall n :: Owns(r.mutexes, t, n) <==> if n == m then heir == Some(t) else Owns(s.mutexes, t, n)
    requires heir == Some(t) ==> Awaited(s.tasks[t]) == Some(m) && Awaited(r.tasks[t]).None?
    requires heir != Some(t) ==> Awaited(r.tasks[t]) == Awaited(s.tasks[t])
    requires t == c ==> c !in h.unfinished
    requires r.tasks[t].blockedOn == s.tasks[t].blockedOn
    requires reading.Executed? && r.current == Some(t) ==> r.pended || (s.current == r.current && !s.pended)
    ensures TaskAgrees(reading, r, h.(held := h.held - {(c, m)}), t)
  {
  }

  lemma ReturnAt(reading: Reading, s: State, r: State, h: Locks, c: Tid, t: Tid)
    requires t in s.tasks && TaskAgrees(reading, s, h, t) && t in r.tasks
    requires forall n :: Owns(r.mutexes, t, n) <==> Owns(s.mutexes, t, n)
    requires Awaited(r.tasks[t]) == Awaited(s.tasks[t])
    requires t == c ==> Awaited(s.tasks[c]).None? && (reading.Intended? ==> r.tasks[c].blockedOn.None?)
    requires t != c ==> r.tasks[t].blockedOn == s.tasks[t].blockedOn
    requires reading.Executed? && r.current == Some(t) ==> t == c
    ensures TaskAgrees(reading, r, Return(h, Some(c)), t)
  {
  }

  // ----- one step

  lemma OwnsAfter(s: State, r: State, e: Event, t: Tid, m: Mid)
    requires Changes(s, r, e)
    ensures Owns(r.mutexes, t, m) <==> m in s.mutexes && OwnerAfterStep(s, e, m) == Some(t)
  {
  }

  /** Steps that leave ownership and mutex waiting alone. */
  ghost predicate Unconcerned(reading: Reading, s: State, e: Event) {
    match e
    case LockMutex(m) => MutexOf(s, m).owner.Some? && !Contended(s, m)
    case UnlockMutex(m) => s.current.None? || MutexOf(s, m).owner != s.current
    case ResumeLock => false
    case SwitchContext => reading.Intended?
    case _ => true
  }

  /** In such a step no task starts or stops waiting for a mutex. */
  lemma AwaitedKept(reading: Reading, s: State, idle: Tid, e: Event, t: Tid)
    requires Inv(reading, s, idle) && Enabled(reading, s, idle, e) && Unconcerned(reading, s, e)
    requires t in s.tasks && Changes(s, Step(reading, s, e), e)
    ensures Awaited(Step(reading, s, e).tasks[t]) == Awaited(s.tasks[t])
  {
    hide Step, OwnersOnly, CountsOnly, HintsOnly, Inv, Core, Ongoing, Placed, Hinted, Shape, MutexesOk;
    InvParts(reading, s, idle);
    if e.DelayCall? || e.TakeCall? {
      AwakeCaller(s, idle);
    }
    if e.GiveCall? && QueueOf(s, SemQ(e.sem)) != [] {
      GiveWakes(reading, s, idle, e.sem);
    }
  }

  lemma UnconcernedAgrees(reading: Reading, s: State, idle: Tid, e: Event, h: Locks)
    requires Inv(reading, s, idle) && Enabled(reading, s, idle, e) && Unconcerned(reading, s, e)
    requires LocksAgree(reading, s, h)
    ensures LocksAgree(reading, Step(reading, s, e), h)
  {
    hide Step, Inv, TaskAgrees, Enabled, OwnerAfterStep, Unconcerned;
    var r := Step(reading, s, e);
    StepChangesOnly(reading, s, idle, e);
    forall t | t in r.tasks
      ensures TaskAgrees(reading, r, h, t)
    {
      if t in s.tasks {
        AwaitedKept(reading, s, idle, e, t);
        UnconcernedFrame(reading, s, idle, e, t);
        QuietAt(reading, s, r, h, t);
      } else {
        NewcomerAgrees(reading, s, idle, e, h, t);
      }
    }
  }

  lemma UnconcernedFrame(reading: Reading, s: State, idle: Tid, e: Event, t: Tid)
    requires Enabled(reading, s, idle, e) && Unconcerned(reading, s, e) && t in s.tasks
    requires Changes(s, Step(reading, s, e), e)
    ensures var r := Step(reading, s, e);
      && (forall m :: Owns(r.mutexes, t, m) <==> Owns(s.mutexes, t, m))
      && t in r.tasks && r.tasks[t].blockedOn == s.tasks[t].blockedOn
      && (reading.Executed? && r.current == Some(t) ==> r.pended || (s.current == r.current && !s.pended))
  {
    hide Step, CountsOnly;
    var r := Step(reading, s, e);
    StartPends(reading, s, e);
    forall m: Mid
      ensures Owns(r.mutexes, t, m) <==> Owns(s.mutexes, t, m)
    {
      OwnsAfter(s, r, e, t, m);
    }
  }

  lemma StartPends(reading: Reading, s: State, e: Event)
    ensures e.StartKernel? && Step(reading, s, e).current.Some? ==> Step(reading, s, e).pended
  {
  }

  lemma NewcomerAgrees(reading: Reading, s: State, idle: Tid, e: Event, h: Locks, t: Tid)
    requires Inv(reading, s, idle) && LocksAgree(reading, s, h)
    requires Changes(s, Step(reading, s, e), e) && Unconcerned(reading, s, e)
    requires t in Step(reading, s, e).tasks && t !in s.tasks
    requires Enabled(reading, s, idle, e)
    ensures TaskAgrees(reading, Step(reading, s, e), h, t)
  {
    hide Step, Attended, TaskAgrees, Placed, Rest, Hinted;
    var r := Step(reading, s, e);
    forall m: Mid
      ensures !Owns(r.mutexes, t, m)
    {
      OwnsAfter(s, r, e, t, m);
    }
    NewcomerAt(reading, r, h, t);
  }

  lemma NewcomerAt(reading: Reading, r: State, h: Locks, t: Tid)
    requires t in r.tasks && t !in h.unfinished && Awaited(r.tasks[t]).None? && r.tasks[t].blockedOn.None?
    requires forall m: Mid :: !Owns(r.mutexes, t, m) && (t, m) !in h.held
    ensures TaskAgrees(reading, r, h, t)
  {
  }

  /** A task that may make calls has no unfinished one. */
  lemma CallerIsFree(reading: Reading, s: State, idle: Tid, h: Locks)
    requires LocksAgree(reading, s, h) && MayCall(s, idle)
    ensures s.current.value !in h.unfinished
  {
  }

  lemma LockAgreesAt(reading: Reading, s: State, r: State, h: Locks, c: Tid, m: Mid, t: Tid)
    requires Changes(s, r, LockMutex(m)) && s.current == Some(c) && m in s.mutexes && s.mutexes[m].owner != Some(c)
    requires t in s.tasks && t in r.tasks && TaskAgrees(reading, s, h, t) && c !in h.unfinished && !s.pended && c in r.tasks
    requires Contended(s, m) ==>
      Awaited(r.tasks[c]) == Some(m) && (reading.Intended? ==> r.tasks[c].blockedOn == Some(m)) && r.pended
    ensures TaskAgrees(reading, r, LocksAfter(reading, h, s, LockMutex(m)), t)
  {
    hide TaskAgrees, CountsOnly;
    forall n: Mid
      ensures Owns(r.mutexes, t, n) <==> Owns(s.mutexes, t, n) || (t == c && n == m && !Contended(s, m))
    {
      OwnsAfter(s, r, LockMutex(m), t, n);
    }
    if Contended(s, m) {
      BlockAt(reading, s, r, h, c, m, t);
    } else {
      SeizeAt(reading, s, r, h, c, m, t);
    }
  }

  lemma LockAgrees(reading: Reading, s: State, idle: Tid, m: Mid, h: Locks)
    requires Inv(reading, s, idle) && Enabled(reading, s, idle, LockMutex(m)) && !Unconcerned(reading, s, LockMutex(m))
    requires LocksAgree(reading, s, h)
    ensures LocksAgree(reading, Step(reading, s, LockMutex(m)), LocksAfter(reading, h, s, LockMutex(m)))
  {
    hide Step, Inv, TaskAgrees, CountsOnly, OwnersOnly, HintsOnly;
    var c, r, h' := s.current.value, Step(reading, s, LockMutex(m)), LocksAfter(reading, h, s, LockMutex(m));
    StepChangesOnly(reading, s, idle, LockMutex(m));
    CallerIsFree(reading, s, idle, h);
    if Contended(s, m) {
      BlockedLooks(reading, s, idle, m);
    }
    forall t | t in r.tasks
      ensures TaskAgrees(reading, r, h', t)
    {
      LockAgreesAt(reading, s, r, h, c, m, t);
    }
  }

  lemma BlockedLooks(reading: Reading, s: State, idle: Tid, m: Mid)
    requires Inv(reading, s, idle) && Enabled(reading, s, idle, LockMutex(m)) && Contended(s, m)
    ensures var r := Step(reading, s, LockMutex(m)); var k := TaskOf(r.tasks, s.current.value);
      Awaited(k) == Some(m) && (reading.Intended? ==> k.blockedOn == Some(m)) && r.pended
  {
    hide Core, Attended, LockCall, LockResume;
    LockCallOngoing(s, idle, m);
    CurrentExists(LockCall(s, m));
    ResumeFrame(LockCall(s, m), m);
  }

  lemma UnlockAgreesAt(reading: Reading, s: State, r: State, h: Locks, c: Tid, m: Mid, heir: Option<Tid>, t: Tid)
    requires Changes(s, r, UnlockMutex(m)) && s.current == Some(c) && Owns(s.mutexes, c, m)
    requires heir == (if QueueOf(s, MutexQ(m)) == [] then None else Some(QueueOf(s, MutexQ(m))[0])) && heir != Some(c)
    requires heir.Some? ==> heir.value in s.tasks && Awaited(s.tasks[heir.value]) == Some(m)
    requires t in s.tasks && t in r.tasks && TaskAgrees(reading, s, h, t) && c !in h.unfinished && !s.pended
    ensures TaskAgrees(reading, r, h.(held := h.held - {(c, m)}), t)
  {
    hide TaskAgrees, CountsOnly;
    forall n: Mid
      ensures Owns(r.mutexes, t, n) <==> if n == m then heir == Some(t) else Owns(s.mutexes, t, n)
    {
      OwnsAfter(s, r, UnlockMutex(m), t, n);
    }
    UnlockAt(reading, s, r, h, c, m, heir, t);
  }

  lemma UnlockAgrees(reading: Reading, s: State, idle: Tid, m: Mid, h: Locks)
    requires Inv(reading, s, idle) && Enabled(reading, s, idle, UnlockMutex(m)) && !Unconcerned(reading, s, UnlockMutex(m))
    requires LocksAgree(reading, s, h)
    ensures LocksAgree(reading, Step(reading, s, UnlockMutex(m)), LocksAfter(reading, h, s, UnlockMutex(m)))
  {
    hide Step, Inv, TaskAgrees, CountsOnly, OwnersOnly, HintsOnly, MutexesOk, Shape, Records;
    var c, r, h' := s.current.value, Step(reading, s, UnlockMutex(m)), LocksAfter(reading, h, s, UnlockMutex(m));
    var w := QueueOf(s, MutexQ(m));
    var heir := if w == [] then None else Some(w[0]);
    StepChangesOnly(reading, s, idle, UnlockMutex(m));
    CallerIsFree(reading, s, idle, h);
    HeirAwaits(reading, s, idle, m);
    forall t | t in r.tasks
      ensures TaskAgrees(reading, r, h', t)
    {
      UnlockAgreesAt(reading, s, r, h, c, m, heir, t);
    }
  }

  lemma HeirAwaits(reading: Reading, s: State, idle: Tid, m: Mid)
    requires Inv(reading, s, idle) && m in s.mutexes
    ensures var w := QueueOf(s, MutexQ(m)); w != [] ==>
      w[0] in s.tasks && Awaited(s.tasks[w[0]]) == Some(m) && s.mutexes[m].owner != Some(w[0])
  {
    hide Linked, Sorted, TimeoutsOk, SemsOk, Shape, Attended, Hinted;
    HeadIsMostUrgent(s, m);
  }

  lemma ReturnAgrees(reading: Reading, s: State, idle: Tid, e: Event, h: Locks)
    requires Inv(reading, s, idle) && Enabled(reading, s, idle, e) && LocksAgree(reading, s, h)
    requires e.ResumeLock? || (e.SwitchContext? && reading.Executed?)
    ensures LocksAgree(reading, Step(reading, s, e), LocksAfter(reading, h, s, e))
  {
    hide Step, Inv, TaskAgrees;
    var r := Step(reading, s, e);
    StepChangesOnly(reading, s, idle, e);
    var c := ReturnerAwaitsNothing(reading, s, idle, e);
    forall t | t in r.tasks
      ensures TaskAgrees(reading, r, Return(h, Some(c)), t)
    {
      forall n: Mid ensures Owns(r.mutexes, t, n) <==> Owns(s.mutexes, t, n) {
        OwnsAfter(s, r, e, t, n);
      }
      ReturnAt(reading, s, r, h, c, t);
    }
  }

  /** The task whose call returns is no longer waiting. */
  lemma ReturnerAwaitsNothing(reading: Reading, s: State, idle: Tid, e: Event) returns (c: Tid)
    requires Inv(reading, s, idle) && Enabled(reading, s, idle, e)
    requires e.ResumeLock? || (e.SwitchContext? && reading.Executed?)
    ensures s.current.Some? && Some(c) == (if e.ResumeLock? then s.current else s.next)
    ensures c in s.tasks && Awaited(s.tasks[c]).None?
    ensures reading.Intended? ==> c in Step(reading, s, e).tasks && Step(reading, s, e).tasks[c].blockedOn.None?
    ensures reading.Executed? ==> Step(reading, s, e).current == Some(c)
  {
    hide Core, TopFrom, LockResume;
    InvParts(reading, s, idle);
    hide Shape, MutexesOk, Placed, Records;
    if e.ResumeLock? {
      c := s.current.value;
      ResumeFrame(s, s.tasks[c].blockedOn.value);
    } else {
      TopAwake(s, idle);
      c := s.next.value;
    }
  }

  lemma StepAgrees(reading: Reading, s: State, idle: Tid, e: Event, h: Locks)
    requires Inv(reading, s, idle) && Enabled(reading, s, idle, e) && LocksAgree(reading, s, h)
    ensures LocksAgree(reading, Step(reading, s, e), LocksAfter(reading, h, s, e))
  {
    hide Step, Inv, LocksAgree;
    if Unconcerned(reading, s, e) {
      UnconcernedAgrees(reading, s, idle, e, h);
    } else if e.LockMutex? {
      LockAgrees(reading, s, idle, e.mutex, h);
    } else if e.UnlockMutex? {
      UnlockAgrees(reading, s, idle, e.mutex, h);
    } else {
      ReturnAgrees(reading, s, idle, e, h);
    }
  }

  lemma {:induction false} RunAgrees(reading: Reading, s: State, idle: Tid, es: seq<Event>, h: Locks)
    requires Inv(reading, s, idle) && Legal(reading, s, idle, es) && LocksAgree(reading, s, h)
    ensures LocksAgree(reading, Exec(reading, s, es), LocksOver(reading, h, s, es))
    decreases |es|
  {
    hide Inv, Enabled, Step, LocksAgree, LocksAfter;
    if es != [] {
      StepInv(reading, s, idle, es[0]);
      StepAgrees(reading, s, idle, es[0], h);
      RunAgrees(reading, Step(reading, s, es[0]), idle, es[1..], LocksAfter(reading, h, s, es[0]));
    }
  }

  lemma BootedAgrees(reading: Reading, idle: Tid)
    ensures LocksAgree(reading, Booted(idle), Locks({}, map[]))
  {
  }

  /** Mutual exclusion with direct hand-off, over all runs: a task whose lock call has returned
      0 and that has not unlocked is the owner, so no two tasks hold the same mutex; a mutex
      with waiters has an owner, never one of them; and whoever owns a mutex without holding
      it is on its way out of a lock call for it. */
  lemma MutualExclusion(reading: Reading, idle: Tid, es: seq<Event>)
    requires Legal(reading, Booted(idle), idle, es)
    ensures var s := Exec(reading, Booted(idle), es);
      var h := LocksOver(reading, Locks({}, map[]), Booted(idle), es);
      && (forall t, m :: (t, m) in h.held ==> m in s.mutexes && s.mutexes[m].owner == Some(t))
      && (forall t, u, m :: (t, m) in h.held && (u, m) in h.held ==> t == u)
      && (forall t: Tid, m: Mid :: Owns(s.mutexes, t, m) && (t, m) !in h.held ==> t in h.unfinished && h.unfinished[t] == m)
      && (forall t :: t in s.tasks && Awaited(s.tasks[t]).Some? ==>
            Awaited(s.tasks[t]).value in s.mutexes && s.mutexes[Awaited(s.tasks[t]).value].owner.Some?
            && s.mutexes[Awaited(s.tasks[t]).value].owner != Some(t))
  {
    hide Booted, Legal, Exec, LocksOver, Attended, Placed, Rest, Hinted;
    var s := Exec(reading, Booted(idle), es);
    var h := LocksOver(reading, Locks({}, map[]), Booted(idle), es);
    BootedInv(reading, idle);
    BootedAgrees(reading, idle);
    ExecInv(reading, Booted(idle), idle, es);
    RunAgrees(reading, Booted(idle), idle, es, Locks({}, map[]));
    forall t, m | (t, m) in h.held
      ensures Owns(s.mutexes, t, m)
    {
      assert TaskAgrees(reading, s, h, t);
    }
    forall t: Tid, m: Mid | Owns(s.mutexes, t, m) && (t, m) !in h.held
      ensures Unfinished(h, t) == Some(m)
    {
      assert TaskAgrees(reading, s, h, t);
    }
  }

  /** In step `e` from `s` to `r`, the owner of `m` unlocks it and `t` takes it over, ready to run. */
  ghost predicate HandedTo(s: State, r: State, e: Event, t: Tid, m: Mid) {
    && e == UnlockMutex(m) && MutexOf(s, m).owner.Some? && MutexOf(s, m).owner == s.current
    && MutexOf(r, m).owner == Some(t) && !TaskOf(r.tasks, t).status.Blocked?
  }

  /** A mutex waiter stops waiting only by being handed the mutex when its owner unlocks it,
      never by timeout or otherwise. */
  lemma ReleasedOnlyByHandOff(reading: Reading, s: State, idle: Tid, e: Event, t: Tid, m: Mid)
    requires Reachable(reading, s, idle) && Enabled(reading, s, idle, e)
    requires t in s.tasks && Awaited(s.tasks[t]) == Some(m)
    ensures Awaited(TaskOf(Step(reading, s, e).tasks, t)) == Some(m) || HandedTo(s, Step(reading, s, e), e, t, m)
  {
    hide Reachable, Inv, Step, Enabled, CountsOnly, HintsOnly, Mover;
    ReachableInv(reading, s, idle);
    var r := Step(reading, s, e);
    StepChangesOnly(reading, s, idle, e);
    if Mover(s, e).Some? && Mover(s, e).value.task == t {
      MoverWasHeir(reading, s, idle, e, t, m);
      StepInv(reading, s, idle, e);
      InvParts(reading, r, idle);
    }
  }

  /** The only mover that waits for a mutex is the heir of an unlocked one. */
  lemma MoverWasHeir(reading: Reading, s: State, idle: Tid, e: Event, t: Tid, m: Mid)
    requires Inv(reading, s, idle) && Enabled(reading, s, idle, e)
    requires t in s.tasks && Awaited(s.tasks[t]) == Some(m)
    requires Mover(s, e).Some? && Mover(s, e).value.task == t
    ensures m in s.mutexes && e == UnlockMutex(m) && s.mutexes[m].owner.Some? && s.mutexes[m].owner == s.current
    ensures Mover(s, e).value.to.None? && OwnerAfterStep(s, e, m) == Some(t)
  {
    hide Inv, Enabled;
    if e.GiveCall? {
      GiveTarget(reading, s, idle, e);
    } else if e.UnlockMutex? {
      UnlockTarget(reading, s, idle, e);
    } else {
      CallerAwaitsNothing(reading, s, idle, e);
    }
  }

  lemma GiveTarget(reading: Reading, s: State, idle: Tid, e: Event)
    requires Inv(reading, s, idle) && Enabled(reading, s, idle, e) && e.GiveCall? && QueueOf(s, SemQ(e.sem)) != []
    ensures var t := QueueOf(s, SemQ(e.sem))[0]; t in s.tasks && Awaited(s.tasks[t]).None?
  {
    hide Inv;
    GiveWakes(reading, s, idle, e.sem);
  }

  lemma UnlockTarget(reading: Reading, s: State, idle: Tid, e: Event)
    requires Inv(reading, s, idle) && Enabled(reading, s, idle, e) && e.UnlockMutex?
    ensures var w := QueueOf(s, MutexQ(e.mutex)); w != [] ==> w[0] in s.tasks && Awaited(s.tasks[w[0]]) == Some(e.mutex)
    ensures e.mutex in s.mutexes
  {
    hide Inv;
    HeirAwaits(reading, s, idle, e.mutex);
  }

  lemma CallerAwaitsNothing(reading: Reading, s: State, idle: Tid, e: Event)
    requires Inv(reading, s, idle) && Enabled(reading, s, idle, e)
    ensures e.DelayCall? || e.TakeCall? || e.LockMutex? ==>
      s.current.Some? && s.current.value in s.tasks && Awaited(s.tasks[s.current.value]).None?
  {
    hide Core, Top;
    InvParts(reading, s, idle);
  }

  /** Unlocking hands the mutex to a most urgent waiter, if there is one. */
  lemma HeirIsMostUrgent(reading: Reading, s: State, idle: Tid, m: Mid)
    requires Reachable(reading, s, idle) && Enabled(reading, s, idle, UnlockMutex(m)) && s.mutexes[m].owner == s.current
    ensures var o := MutexOf(Step(reading, s, UnlockMutex(m)), m).owner;
      && (o.Some? ==> o.value in s.tasks && Awaited(s.tasks[o.value]) == Some(m))
      && (forall w :: w in s.tasks && Awaited(s.tasks[w]) == Some(m) ==>
            o.Some? && o.value in s.tasks && s.tasks[o.value].prio <= s.tasks[w].prio)
  {
    hide Reachable, Step, Linked, Sorted, MutexesOk, TimeoutsOk, SemsOk, Shape, Attended, Hinted,
      WaitsOnly, CountsOnly, HintsOnly;
    ReachableInv(reading, s, idle);
    StepChangesOnly(reading, s, idle, UnlockMutex(m));
    HeadIsMostUrgent(s, m);
  }
}
