/** Delays are exact to the tick, also when the 32-bit tick counter wraps around. */
module Time {
  import opened Base
  import opened KernelState
  import opened Invariants
  import opened OwnedLists
  import opened UnlockSteps
  import opened SmallSteps
  import opened Machine
  import opened MutexSteps
  import opened Basics
  import opened StepChanges
  import opened Runs

  /** The ticks seen since boot, unbounded, and the tick at which each task last asked to be woken. */
  datatype Clock = Clock(now: nat, deadline: map<Tid, nat>)

  const HALF := 0x8000_0000
  const WRAP := 0x1_0000_0000

  /** A tick count as the kernel stores it. */
  function Wrapped(n: nat): (w: Word) {
    n % WRAP
  }

  function ClockAfter(h: Clock, s: State, e: Event): (r: Clock) {
    match e
    case TickInterrupt => h.(now := h.now + 1)
    case DelayCall(n) =>
      if n == 0 || n == WAIT_FOREVER || s.current.None? then h
      else h.(deadline := h.deadline[s.current.value := h.now + n])
    case _ => h
  }

  function ClockOver(reading: Reading, h: Clock, s: State, es: seq<Event>): (r: Clock)
    decreases |es|
  {
    if es == [] then h else ClockOver(reading, ClockAfter(h, s, es[0]), Step(reading, s, es[0]), es[1..])
  }

  /** A delay the 32-bit comparison can carry: at most half the range, or for ever. */
  ghost predicate DelayFits(e: Event) {
    e.DelayCall? ==> e.ticks <= HALF || e.ticks == WAIT_FOREVER
  }

  ghost predicate DelaysFit(es: seq<Event>) {
    forall e :: e in es ==> DelayFits(e)
  }

  /** The entry of `t` in the timeout queue is armed for its deadline. */
  ghost predicate Armed(s: State, h: Clock, t: Tid) {
    && t in s.tasks && t in h.deadline
    && h.now < h.deadline[t] <= h.now + HALF
    && s.tasks[t].wake == Wrapped(h.deadline[t])
  }

  ghost predicate InOrder(h: Clock, l: seq<Tid>) {
    && (forall t :: t in l ==> t in h.deadline)
    && forall i, j :: 0 <= i < j < |l| ==> h.deadline[l[i]] <= h.deadline[l[j]]
  }

  ghost predicate TimeOk(s: State, h: Clock) {
    && s.tick == Wrapped(h.now)
    && (forall t :: t in s.timeouts ==> Armed(s, h, t))
    && InOrder(h, s.timeouts)
  }

  // ----- the comparison

  /** Within half the range of each other, wrapped ticks compare like the ticks themselves. */
  lemma ReachedIff(a: nat, b: nat)
    requires -HALF <= a - b < HALF
    ensures TickReached(Wrapped(a), Wrapped(b)) <==> a >= b
  {
  }

  // ----- arming

  /** The position the queue chooses by wrapped ticks is right for the deadlines. */
  lemma PositionIsRight(s: State, h: Clock, l: seq<Tid>, d: nat)
    requires forall t :: t in l ==> t in h.deadline && Armed(s, h, t)
    requires h.now < d <= h.now + HALF
    ensures var k := TimeoutPos(s.tasks, l, Wrapped(d));
      && (forall i :: 0 <= i < k ==> h.deadline[l[i]] < d)
      && (k < |l| ==> h.deadline[l[k]] >= d)
  {
    hide TickReached, Wrapped;
    var k := TimeoutPos(s.tasks, l, Wrapped(d));
    forall i | 0 <= i < k
      ensures h.deadline[l[i]] < d
    {
      assert Armed(s, h, l[i]);
      ReachedIff(h.deadline[l[i]], d);
    }
    if k < |l| {
      assert Armed(s, h, l[k]);
      ReachedIff(h.deadline[l[k]], d);
    }
  }

  lemma InsertInOrder(h: Clock, l: seq<Tid>, k: nat, c: Tid, d: nat)
    requires InOrder(h, l) && c !in l && k <= |l|
    requires forall i :: 0 <= i < k ==> h.deadline[l[i]] < d
    requires k < |l| ==> h.deadline[l[k]] >= d
    ensures InOrder(h.(deadline := h.deadline[c := d]), InsertAt(l, k, c))
  {
  }

  /** `os_kernel_delay_ticks` arms the caller for its deadline and keeps the order. */
  lemma ArmTime(s: State, h: Clock, c: Tid, n: Word)
    requires TimeOk(s, h) && c in s.tasks && c !in s.timeouts && 0 < n <= HALF
    ensures TimeOk(ArmTimeout(s, c, n), h.(deadline := h.deadline[c := h.now + n]))
    ensures forall t :: t in ArmTimeout(s, c, n).timeouts <==> t in s.timeouts || t == c
  {
    hide TimeoutPos, TickReached, Wrapped;
    var d := h.now + n;
    WakeIsDeadline(h.now, n);
    var s1 := SetTask(s, c, s.tasks[c].(wake := Wrapped(d)));
    forall t | t in s.timeouts
      ensures Armed(s1, h, t)
    {
      assert Armed(s, h, t);
    }
    var k := TimeoutPos(s1.tasks, s.timeouts, Wrapped(d));
    PositionIsRight(s1, h, s.timeouts, d);
    InsertAtMembers(s.timeouts, k, c);
    assert ArmTimeout(s, c, n) == s1.(timeouts := InsertAt(s.timeouts, k, c));
    ArmedTime(s1, h, c, d, k);
  }

  lemma ArmedTime(s: State, h: Clock, c: Tid, d: nat, k: nat)
    requires TimeOk(s, h) && c in s.tasks && s.tasks[c].wake == Wrapped(d) && c !in s.timeouts && k <= |s.timeouts|
    requires h.now < d <= h.now + HALF
    requires forall i :: 0 <= i < k ==> h.deadline[s.timeouts[i]] < d
    requires k < |s.timeouts| ==> h.deadline[s.timeouts[k]] >= d
    ensures TimeOk(s.(timeouts := InsertAt(s.timeouts, k, c)), h.(deadline := h.deadline[c := d]))
  {
    hide Wrapped;
    InsertInOrder(h, s.timeouts, k, c, d);
    InsertAtMembers(s.timeouts, k, c);
    forall t | t in s.timeouts
      ensures Armed(s.(timeouts := InsertAt(s.timeouts, k, c)), h.(deadline := h.deadline[c := d]), t)
    {
      assert Armed(s, h, t);
    }
  }

  lemma WakeIsDeadline(now: nat, n: Word)
    ensures (Wrapped(now) + n) % WRAP == Wrapped(now + n)
  {
  }

  // ----- expiry

  /** With the tick at `h.now`, the head is due exactly when its deadline is `h.now`. */
  ghost predicate Due(s: State, h: Clock) {
    && s.tick == Wrapped(h.now)
    && (forall t :: t in s.timeouts ==>
          && t in s.tasks && t in h.deadline
          && h.now <= h.deadline[t] < h.now + HALF && s.tasks[t].wake == Wrapped(h.deadline[t]))
    && InOrder(h, s.timeouts)
  }

  /** Checking the head and stopping at the first that is not due wakes exactly the tasks whose
      deadline has come. */
  lemma {:induction false} ExpireExact(s: State, idle: Tid, h: Clock)
    requires Core(s, idle) && Due(s, h)
    ensures var r := Expire(s);
      && (forall t :: t in r.timeouts <==> t in s.timeouts && h.deadline[t] > h.now)
      && (forall t :: t in s.timeouts && h.deadline[t] == h.now ==>
            t in r.tasks && t in s.tasks && r.tasks[t] == Woken(s.tasks[t], -1))
      && (forall t :: t in s.tasks && !(t in s.timeouts && h.deadline[t] == h.now) ==>
            t in r.tasks && r.tasks[t] == s.tasks[t])
      && InOrder(h, r.timeouts)
    decreases |s.timeouts|
  {
    hide Core, ExpireHead, TickReached, Wrapped;
    if s.timeouts != [] {
      var t := s.timeouts[0];
      ReachedIff(h.now, h.deadline[t]);
      ExpireHeadCore(s, idle);
      ExpireHeadFrame(s);
      var a := ExpireHead(s);
      NoDupTimeouts(s, idle);
      if h.deadline[t] == h.now {
        assert forall x :: x in a.timeouts <==> x in s.timeouts && x != t;
        TailInOrder(h, s.timeouts);
        assert Due(a, h);
        ExpireExact(a, idle, h);
      } else {
        assert forall x :: x in s.timeouts ==> h.deadline[x] > h.now by { HeadIsEarliest(h, s.timeouts); }
      }
    }
  }

  lemma NoDupTimeouts(s: State, idle: Tid)
    requires Core(s, idle)
    ensures NoDup(s.timeouts)
    ensures s.timeouts != [] ==> forall x :: x in s.timeouts[1..] <==> x in s.timeouts && x != s.timeouts[0]
  {
  }

  lemma TailInOrder(h: Clock, l: seq<Tid>)
    requires InOrder(h, l) && l != []
    ensures InOrder(h, l[1..])
  {
  }

  lemma HeadIsEarliest(h: Clock, l: seq<Tid>)
    requires InOrder(h, l) && l != []
    ensures forall t :: t in l ==> h.deadline[l[0]] <= h.deadline[t]
  {
  }

  /** After a tick: who has been woken, and that the rest is armed as before. */
  lemma TickTime(s: State, idle: Tid, h: Clock)
    requires Core(s, idle) && OneRunning(s) && s.current.Some? && TimeOk(s, h)
    ensures var r := Tick(s); var h' := h.(now := h.now + 1);
      && TimeOk(r, h')
      && (forall t :: t in r.timeouts <==> t in s.timeouts && h.deadline[t] > h.now + 1)
      && (forall t :: t in s.timeouts && h.deadline[t] == h.now + 1 ==> !TaskOf(r.tasks, t).status.Blocked?)
      && (forall t :: t in s.tasks && t !in s.timeouts ==> TaskOf(r.tasks, t) == s.tasks[t])
  {
    hide Core, Expire, TopFrom, Wrapped;
    var a := s.(tick := (s.tick + 1) % WRAP);
    var h' := h.(now := h.now + 1);
    ScheduleCore(s, a, idle);
    WakeIsDeadline(h.now, 1);
    DueAfterTick(s, a, h);
    ExpireExact(a, idle, h');
    ExpireCore(a, idle);
    var b := Expire(a);
    TickTimeFrame(s, b);
    forall t | t in Tick(s).timeouts
      ensures Armed(Tick(s), h', t)
    {
      assert t in s.timeouts && Armed(s, h, t);
    }
  }

  lemma DueAfterTick(s: State, a: State, h: Clock)
    requires TimeOk(s, h) && a == s.(tick := Wrapped(h.now + 1))
    ensures Due(a, h.(now := h.now + 1))
  {
  }

  lemma TickTimeFrame(s: State, b: State)
    requires b == Expire(s.(tick := (s.tick + 1) % WRAP))
    ensures Tick(s).tasks == b.tasks && Tick(s).timeouts == b.timeouts && Tick(s).tick == b.tick
  {
    hide Expire, TopFrom;
  }

  // ----- steps that do not concern time

  ghost predicate Timeless(e: Event) {
    !e.TickInterrupt? && (e.DelayCall? ==> e.ticks == 0 || e.ticks == WAIT_FOREVER)
  }

  ghost predicate TimeSame(s: State, r: State) {
    && r.timeouts == s.timeouts && r.tick == s.tick
    && forall t :: t in s.timeouts && t in s.tasks ==> t in r.tasks && r.tasks[t].wake == s.tasks[t].wake
  }

  lemma SameTime(s: State, r: State, h: Clock)
    requires TimeOk(s, h) && TimeSame(s, r)
    ensures TimeOk(r, h)
  {
  }

  lemma ParkForeverTime(reading: Reading, s: State, idle: Tid, q: QueueId)
    requires Inv(reading, s, idle) && MayCall(s, idle)
    requires q in s.queues && (q.Sleep? || (q.SemQ? && q.sem in s.sems && s.sems[q.sem] == 0))
    ensures TimeSame(s, Block(s, q, WAIT_FOREVER, false))
  {
    hide Core, Reschedule, EnterQueue, Alike;
    var c := s.current.value;
    var x := EnterQueue(s, c, q, false);
    EnterFrame(s, c, q, false);
    AwakeUntimed(reading, s, idle);
    AwakeCaller(s, idle);
    EnterCore(s, idle, c, q);
    RescheduleFrame(x);
  }

  lemma LockTime(reading: Reading, s: State, idle: Tid, m: Mid)
    requires Inv(reading, s, idle) && Enabled(reading, s, idle, LockMutex(m))
    ensures TimeSame(s, Step(reading, s, LockMutex(m)))
  {
    hide Core, LockCall, LockResume, Attended;
    if Contended(s, m) {
      LockCallOngoing(s, idle, m);
      CurrentExists(LockCall(s, m));
      ResumeFrame(LockCall(s, m), m);
      AwakeUntimed(reading, s, idle);
    } else {
      UncontendedTime(s, m);
    }
  }

  lemma UncontendedTime(s: State, m: Mid)
    requires s.current.Some? && s.current.value in s.tasks && m in s.mutexes && !Contended(s, m)
    ensures TimeSame(s, LockCall(s, m)) && LockExecuted(s, m) == LockCall(s, m)
  {
  }

  lemma AwakeUntimed(reading: Reading, s: State, idle: Tid)
    requires Inv(reading, s, idle) && MayCall(s, idle)
    ensures s.current.value !in s.timeouts
  {
  }

  lemma UnlockTime(reading: Reading, s: State, idle: Tid, m: Mid)
    requires Inv(reading, s, idle) && MayCall(s, idle) && m in s.mutexes
    ensures TimeSame(s, Unlock(s, m))
  {
    hide Core, Attended, Surrendered, RemoveFromOwned, Recompute, Unlock, Reschedule, Placed, Rest;
    if Owns(s.mutexes, s.current.value, m) {
      AwakeCaller(s, idle);
      SurrenderedCore(s, idle, m);
      RescheduleFrame(Surrendered(s, s.current.value, m));
      HeirUntimed(reading, s, idle, m);
    } else {
      UnlockRefused(s, m);
    }
  }

  lemma HeirUntimed(reading: Reading, s: State, idle: Tid, m: Mid)
    requires Inv(reading, s, idle) && m in s.mutexes
    ensures QueueOf(s, MutexQ(m)) != [] ==> QueueOf(s, MutexQ(m))[0] !in s.timeouts
  {
    hide Sorted, MutexesOk, Hinted, Attended, SemsOk, IdleOk;
  }

  lemma GiveTime(reading: Reading, s: State, idle: Tid, i: Sid)
    requires Inv(reading, s, idle) && i in s.sems
    ensures TimeSame(s, SemGive(s, i))
  {
    hide Core, Attended, Reschedule, WakeOne;
    SemFacts(s, idle, i);
    if QueueOf(s, SemQ(i)) != [] {
      GiveWakes(reading, s, idle, i);
      RescheduleFrame(WakeOne(s, SemQ(i)));
    }
  }

  lemma CommitTime(reading: Reading, s: State, idle: Tid)
    requires Inv(reading, s, idle) && s.pended
    ensures TimeSame(s, Commit(s))
  {
    hide Core, Top, Commit;
    TopAwake(s, idle);
    CommitMarks(s);
  }

  lemma YieldTime(s: State)
    ensures TimeSame(s, Yield(s))
  {
  }

  lemma CreateTime(s: State, t: Tid, p: Priority)
    requires t !in s.tasks
    ensures TimeSame(s, Create(s, t, p))
  {
  }

  lemma TimelessStep(reading: Reading, s: State, idle: Tid, e: Event)
    requires Inv(reading, s, idle) && Enabled(reading, s, idle, e) && Timeless(e)
    ensures TimeSame(s, Step(reading, s, e))
  {
    hide Inv, Core, Ongoing, Shape, Placed, Records, MutexesOk, Hinted, OneRunning, LockCall, LockExecuted, Unlock, Block, Tick, Commit, TopFrom, SemGive, Yield, Create, TimeSame, LockResume;
    match e
    case YieldCall => YieldTime(s);
    case DelayCall(n) =>
      if n == 0 {
        YieldTime(s);
      } else {
        InvParts(reading, s, idle);
        SleepExists(s, idle);
        ParkForeverTime(reading, s, idle, Sleep);
      }
    case TakeCall(i) => TakeTime(reading, s, idle, i);
    case GiveCall(i) => GiveTime(reading, s, idle, i);
    case LockMutex(m) => LockTime(reading, s, idle, m);
    case ResumeLock => ResumeTime(s);
    case UnlockMutex(m) => UnlockTime(reading, s, idle, m);
    case CreateTask(t, p) => CreateTime(s, t, p);
    case StartKernel => QuietTime(s, Start(s));
    case SwitchContext => CommitTime(reading, s, idle);
    case InitMutex(m, link) => QuietTime(s, NewMutex(s, m, link));
    case InitSem(i, n) => QuietTime(s, NewSem(s, i, n));
  }

  lemma QuietTime(s: State, r: State)
    requires r.tasks == s.tasks && r.timeouts == s.timeouts && r.tick == s.tick
    ensures TimeSame(s, r)
  {
  }

  lemma ResumeTime(s: State)
    requires s.current.Some? && s.current.value in s.tasks
    ensures TimeSame(s, Step(Intended, s, ResumeLock)) && Step(Executed, s, ResumeLock) == Step(Intended, s, ResumeLock)
  {
    hide LockResume;
    var b := s.tasks[s.current.value].blockedOn;
    if b.Some? {
      ResumeFrame(s, b.value);
    }
  }

  lemma TakeTime(reading: Reading, s: State, idle: Tid, i: Sid)
    requires Inv(reading, s, idle) && MayCall(s, idle) && i in s.sems
    ensures TimeSame(s, SemTake(s, i))
  {
    hide Core, Attended, Block;
    SemFacts(s, idle, i);
    if s.sems[i] <= 0 {
      ParkForeverTime(reading, s, idle, SemQ(i));
    }
  }

  // ----- every step

  /** What one step does to a sleeper with a deadline: only the tick that reaches it wakes it. */
  ghost predicate SleeperKept(s: State, r: State, h: Clock, e: Event, t: Tid) {
    if e.TickInterrupt? && t in h.deadline && h.deadline[t] == h.now + 1
    then t !in r.timeouts && !TaskOf(r.tasks, t).status.Blocked?
    else t in r.timeouts
  }

  lemma DelayTime(reading: Reading, s: State, idle: Tid, h: Clock, n: Word)
    requires Inv(reading, s, idle) && MayCall(s, idle) && TimeOk(s, h) && 0 < n <= HALF
    ensures var r := Delay(s, n); var c := s.current.value;
      && TimeOk(r, h.(deadline := h.deadline[c := h.now + n]))
      && c in r.timeouts && forall t :: t in s.timeouts ==> t in r.timeouts
  {
    hide Core, Attended, EnterQueue, ArmTimeout, Reschedule;
    var c := s.current.value;
    AwakeUntimed(reading, s, idle);
    ParkedTime(reading, s, idle, h);
    var d := EnterQueue(s, c, Sleep, false);
    ArmTime(d, h, c, n);
    RescheduleFrame(ArmTimeout(d, c, n));
    SameTime(ArmTimeout(d, c, n), Delay(s, n), h.(deadline := h.deadline[c := h.now + n]));
  }

  lemma ParkedTime(reading: Reading, s: State, idle: Tid, h: Clock)
    requires Inv(reading, s, idle) && MayCall(s, idle) && TimeOk(s, h)
    ensures var d := EnterQueue(s, s.current.value, Sleep, false);
      TimeOk(d, h) && d.timeouts == s.timeouts && s.current.value in d.tasks && d.tick == s.tick
  {
    hide Core, EnterQueue, Alike;
    var c := s.current.value;
    var d := EnterQueue(s, c, Sleep, false);
    AwakeUntimed(reading, s, idle);
    AwakeCaller(s, idle);
    SleepExists(s, idle);
    EnterCore(s, idle, c, Sleep);
    SameTime(s, d, h);
  }

  lemma StepTime(reading: Reading, s: State, idle: Tid, e: Event, h: Clock)
    requires Inv(reading, s, idle) && Enabled(reading, s, idle, e) && TimeOk(s, h) && DelayFits(e)
    ensures TimeOk(Step(reading, s, e), ClockAfter(h, s, e))
    ensures forall t :: t in s.timeouts ==> SleeperKept(s, Step(reading, s, e), h, e, t)
    ensures forall t :: t in s.timeouts ==> t in h.deadline && t in ClockAfter(h, s, e).deadline
    ensures forall t :: t in s.timeouts ==> ClockAfter(h, s, e).deadline[t] == h.deadline[t]
  {
    hide Inv, Delay, Tick, TimeSame;
    if e.TickInterrupt? {
      TickTimeInv(reading, s, idle, h);
    } else if Timeless(e) {
      TimelessStep(reading, s, idle, e);
      hide Step;
      SameTime(s, Step(reading, s, e), h);
      SameTimeouts(s, Step(reading, s, e));
    } else {
      AwakeUntimed(reading, s, idle);
      DelayTime(reading, s, idle, h, e.ticks);
    }
    forall t | t in s.timeouts
      ensures t in h.deadline
    {
      assert Armed(s, h, t);
    }
  }

  lemma SameTimeouts(s: State, r: State)
    requires TimeSame(s, r)
    ensures r.timeouts == s.timeouts
  {
  }

  lemma TickTimeInv(reading: Reading, s: State, idle: Tid, h: Clock)
    requires Inv(reading, s, idle) && s.current.Some? && TimeOk(s, h)
    ensures TimeOk(Tick(s), h.(now := h.now + 1))
    ensures forall t :: t in s.timeouts ==> SleeperKept(s, Tick(s), h, TickInterrupt, t)
  {
    hide Core, Tick;
    TickTime(s, idle, h);
    forall t | t in s.timeouts
      ensures SleeperKept(s, Tick(s), h, TickInterrupt, t)
    {
      assert Armed(s, h, t);
    }
  }

  // ----- runs

  function Ticks(es: seq<Event>): (n: nat) {
    if es == [] then 0 else (if es[0].TickInterrupt? then 1 else 0) + Ticks(es[1..])
  }

  /** Once started, the kernel always has a current task. */
  lemma CurrentStays(reading: Reading, s: State, idle: Tid, e: Event)
    requires Inv(reading, s, idle) && Enabled(reading, s, idle, e) && s.current.Some?
    ensures Step(reading, s, e).current.Some?
  {
    hide Core, Step, WaitsOnly, OwnersOnly, CountsOnly;
    StepChangesOnly(reading, s, idle, e);
  }

  /** A sleeper stays asleep through any run with fewer ticks than it has left. */
  lemma {:induction false} SleepsOn(reading: Reading, s: State, idle: Tid, h: Clock, es: seq<Event>, t: Tid)
    requires Inv(reading, s, idle) && TimeOk(s, h) && Legal(reading, s, idle, es) && DelaysFit(es)
    requires t in s.timeouts && t in h.deadline && h.now + Ticks(es) < h.deadline[t] && s.current.Some?
    ensures var r, h' := Exec(reading, s, es), ClockOver(reading, h, s, es);
      && Inv(reading, r, idle) && TimeOk(r, h') && t in r.timeouts && r.current.Some?
      && t in h'.deadline && h'.deadline[t] == h.deadline[t] && h'.now == h.now + Ticks(es)
    decreases |es|
  {
    hide Inv, Step, Enabled, TimeOk;
    if es != [] {
      StepInv(reading, s, idle, es[0]);
      StepTime(reading, s, idle, es[0], h);
      CurrentStays(reading, s, idle, es[0]);
      SleepsOn(reading, Step(reading, s, es[0]), idle, ClockAfter(h, s, es[0]), es[1..], t);
    }
  }

  /** `s` is reached by a run in which every delay fits. */
  ghost predicate Timely(reading: Reading, s: State, idle: Tid) {
    exists es :: Legal(reading, Booted(idle), idle, es) && DelaysFit(es) && Exec(reading, Booted(idle), es) == s
  }

  /** Exact wake-up: in any run in which every delay is at most 2^31 ticks or for ever, a task
      that asks for `d` ticks is asleep until the `d`-th following tick, and that tick makes
      it ready.  The kernel's tick counter may wrap any number of times. */
  lemma WakesExactly(reading: Reading, s: State, idle: Tid, d: Word, es: seq<Event>)
    requires Timely(reading, s, idle) && MayCall(s, idle) && 1 <= d <= HALF
    requires Legal(reading, Step(reading, s, DelayCall(d)), idle, es) && DelaysFit(es) && Ticks(es) < d
    ensures var t := s.current.value; var r := Exec(reading, Step(reading, s, DelayCall(d)), es);
      && t in r.tasks && r.tasks[t].status.Blocked? && r.tasks[t].waitQ == Some(Sleep)
      && (!TaskOf(Tick(r).tasks, t).status.Blocked? <==> Ticks(es) == d - 1)
  {
    hide Booted, Inv, Step, Legal, Exec, Tick, TimeOk;
    var before :| Legal(reading, Booted(idle), idle, before) && DelaysFit(before) && Exec(reading, Booted(idle), before) == s;
    var h := BootedTime(reading, idle, before);
    var t := s.current.value;
    var s1 := Step(reading, s, DelayCall(d));
    StepTime(reading, s, idle, DelayCall(d), h);
    StepInv(reading, s, idle, DelayCall(d));
    DelayArms(reading, s, idle, h, d);
    CurrentStays(reading, s, idle, DelayCall(d));
    var h1 := ClockAfter(h, s, DelayCall(d));
    SleepsOn(reading, s1, idle, h1, es, t);
    var r, h2 := Exec(reading, s1, es), ClockOver(reading, h1, s1, es);
    SleeperAsleep(reading, r, idle, t);
    TickTimeInv(reading, r, idle, h2);
    StepInv(reading, r, idle, TickInterrupt);
    StepTickIs(reading, r);
    if Ticks(es) != d - 1 {
      SleeperAsleep(reading, Tick(r), idle, t);
    }
  }

  lemma StepTickIs(reading: Reading, s: State)
    ensures Step(reading, s, TickInterrupt) == Tick(s)
  {
  }

  lemma DelayArms(reading: Reading, s: State, idle: Tid, h: Clock, d: Word)
    requires Inv(reading, s, idle) && MayCall(s, idle) && TimeOk(s, h) && 1 <= d <= HALF
    ensures s.current.value in Step(reading, s, DelayCall(d)).timeouts
    ensures ClockAfter(h, s, DelayCall(d)) == h.(deadline := h.deadline[s.current.value := h.now + d])
  {
    hide Inv, Delay;
    DelayTime(reading, s, idle, h, d);
  }

  lemma SleeperAsleep(reading: Reading, s: State, idle: Tid, t: Tid)
    requires Inv(reading, s, idle) && t in s.timeouts
    ensures t in s.tasks && s.tasks[t].status.Blocked? && s.tasks[t].waitQ == Some(Sleep)
  {
  }

  /** The clock kept along a run from boot agrees with the kernel. */
  lemma BootedTime(reading: Reading, idle: Tid, es: seq<Event>) returns (h: Clock)
    requires Legal(reading, Booted(idle), idle, es) && DelaysFit(es)
    ensures Inv(reading, Exec(reading, Booted(idle), es), idle) && TimeOk(Exec(reading, Booted(idle), es), h)
  {
    hide Inv, Legal, Exec;
    BootedInv(reading, idle);
    assert TimeOk(Booted(idle), Clock(0, map[]));
    hide Booted, TimeOk;
    RunTime(reading, Booted(idle), idle, Clock(0, map[]), es);
    ExecInv(reading, Booted(idle), idle, es);
    h := ClockOver(reading, Clock(0, map[]), Booted(idle), es);
  }

  lemma {:induction false} RunTime(reading: Reading, s: State, idle: Tid, h: Clock, es: seq<Event>)
    requires Inv(reading, s, idle) && TimeOk(s, h) && Legal(reading, s, idle, es) && DelaysFit(es)
    ensures TimeOk(Exec(reading, s, es), ClockOver(reading, h, s, es))
    decreases |es|
  {
    hide Inv, Step, Enabled, TimeOk;
    if es != [] {
      StepInv(reading, s, idle, es[0]);
      StepTime(reading, s, idle, es[0], h);
      RunTime(reading, Step(reading, s, es[0]), idle, ClockAfter(h, s, es[0]), es[1..]);
    }
  }

  // ----- the bound of 2^31 is sharp

  lemma DelayShape(reading: Reading, s: State, idle: Tid, d: Word)
    requires Inv(reading, s, idle) && MayCall(s, idle) && d != 0 && d != WAIT_FOREVER
    ensures var r := Delay(s, d); var c := s.current.value; var w: Word := (s.tick + d) % WRAP;
      && c in s.tasks && c !in s.timeouts && r.tasks == s.tasks[c := Parked(s.tasks[c], Sleep).(wake := w)]
      && r.timeouts == InsertAt(s.timeouts, TimeoutPos(r.tasks, s.timeouts, w), c)
      && r.tick == s.tick && Core(r, idle)
  {
    hide Core, Attended, EnterQueue, Reschedule, TimeoutPos, Alike;
    var c := s.current.value;
    AwakeUntimed(reading, s, idle);
    AwakeCaller(s, idle);
    SleepExists(s, idle);
    EnterCore(s, idle, c, Sleep);
    ParkCore(s, idle, c, Sleep, d);
    var b := EnterQueue(s, c, Sleep, false);
    EnterFrame(s, c, Sleep, false);
    RescheduleFrame(ArmTimeout(b, c, d));
    ScheduleCore(ArmTimeout(b, c, d), Delay(s, d), idle);
  }

  /** Whether the tick that follows a delay of `d` takes it to be over. */
  lemma NextTickReaches(tick: Word, d: Word)
    requires d != 0
    ensures TickReached((tick + 1) % WRAP, (tick + d) % WRAP) <==> d == 1 || d >= HALF + 2
  {
  }

  /** For a lone sleeper the first tick ends the delay exactly when one tick was asked for, or
      2^31 + 2 or more (other than for ever): longer delays than that end at once. */
  lemma FirstTickWakesIff(reading: Reading, s: State, idle: Tid, d: Word)
    requires Reachable(reading, s, idle) && MayCall(s, idle) && s.timeouts == [] && d != 0 && d != WAIT_FOREVER
    ensures !TaskOf(Tick(Delay(s, d)).tasks, s.current.value).status.Blocked? <==> d == 1 || d >= HALF + 2
  {
    hide Reachable, Inv, TickReached, Delay, Core, ExpireHead, TopFrom;
    ReachableInv(reading, s, idle);
    var c, r := s.current.value, Delay(s, d);
    DelayShape(reading, s, idle, d);
    assert r.timeouts == [c];
    var a := r.(tick := (r.tick + 1) % WRAP);
    NextTickReaches(s.tick, d);
    ScheduleCore(r, a, idle);
    ExpireHeadCore(a, idle);
    assert Expire(a) == if d == 1 || d >= HALF + 2 then ExpireHead(a) else a;
    TickTimeFrame(r, Expire(a));
  }

  /** A delay of 2^31 + 1 ticks makes a task that then asks for a single tick miss it: it is
      queued behind the longer delay, and the tick looks no further than the head. */
  lemma LongDelayHidesShort(reading: Reading, s: State, idle: Tid, a: Tid)
    requires Reachable(reading, s, idle) && MayCall(s, idle) && s.timeouts == [a] && a in s.tasks
    requires s.tasks[a].wake == (s.tick + HALF + 1) % WRAP
    ensures TaskOf(Tick(Delay(s, 1)).tasks, s.current.value).status.Blocked?
  {
    hide Reachable, Inv, Delay, Core, ExpireHead, TopFrom;
    ReachableInv(reading, s, idle);
    var c, r := s.current.value, Delay(s, 1);
    DelayShape(reading, s, idle, 1);
    assert s.current.value != a;
    assert !TickReached(s.tasks[a].wake, (s.tick + 1) % WRAP);
    assert TimeoutPos(r.tasks, s.timeouts, (s.tick + 1) % WRAP) == 1;
    assert r.timeouts == [a, c];
    NextTickReaches(s.tick, HALF + 1);
    var b := r.(tick := (r.tick + 1) % WRAP);
    assert Expire(b) == b;
    TickTimeFrame(r, b);
  }
}
