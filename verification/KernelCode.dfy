/** The kernel's routines in their own form: loops and assignments on linked memory.  The ghost
    field `st` is the kernel state of module KernelState that the memory stands for; every
    routine is proved to change it exactly as the function of that name says, and to keep all
    lists linked. */
module KernelCode {
  import opened Base
  import opened KernelState
  import opened Invariants
  import opened Structure
  import opened LockSteps
  import opened Machine
  import opened Basics
  import opened Runs
  import opened SafeRuns
  import opened OwnedLists
  import opened FiniteLists
  import opened Links
  import opened QueueMemory
  import opened TimeoutMemory

  /** Whatever is queued is a task. */
  ghost predicate Housed(s: State) {
    && (forall q, t :: q in s.queues && t in s.queues[q] ==> t in s.tasks)
    && (forall t :: t in s.timeouts ==> t in s.tasks)
  }

  /** Every task is where its fields say. */
  ghost predicate Tidy(s: State) {
    Shape(s) && Records(s.tasks) && Linked(s.tasks, s.queues)
  }

  lemma AtHome(s: State, t: Tid)
    requires Tidy(s) && t in s.tasks
    ensures Home(s.tasks[t]) in s.queues && t in s.queues[Home(s.tasks[t])] && RecordOk(s.tasks[t])
    ensures forall p: Priority :: ReadyQ(p) in s.queues
  {
  }

  lemma AppendHoused(s: State, q: QueueId, t: Tid)
    requires Housed(s) && q in s.queues && t in s.tasks
    ensures Housed(Append(s, q, t))
  {
  }

  lemma RemoveHoused(s: State, q: QueueId, t: Tid)
    requires Housed(s) && q in s.queues
    ensures Housed(Remove(s, q, t))
  {
  }

  lemma InsertHoused(s: State, q: QueueId, t: Tid)
    requires Housed(s) && q in s.queues && t in s.tasks
    ensures Housed(InsertByPriority(s, q, t))
  {
  }

  lemma TimeoutHoused(s: State, t: Tid)
    requires Housed(s) && t in s.tasks
    ensures Housed(TimeoutInsert(s, t)) && Housed(TimeoutRemove(s, t))
  {
  }

  lemma {:induction false} FollowLinks(mutexes: map<Mid, Mutex>, h: Option<Mid>, left: set<Mid>, i: nat)
    requires left <= mutexes.Keys && i < |Follow(mutexes, h, left)|
    ensures var l := Follow(mutexes, h, left);
      h == Some(l[0]) && l[i] in mutexes && (i + 1 < |l| ==> mutexes[l[i]].next == Some(l[i + 1]))
    decreases left
  {
    var tail := Follow(mutexes, mutexes[h.value].next, left - {h.value});
    if i > 0 {
      FollowLinks(mutexes, mutexes[h.value].next, left - {h.value}, i - 1);
    }
  }

  /** What the walk of a contended lock goes by: every owner exists, and so does every mutex that
      `blockedOn` names. */
  ghost predicate Raisable(s: State) {
    Tidy(s) && Sorted(s.tasks, s.queues) && MutexesOk(s.tasks, s.mutexes) && Hinted(s.tasks, s.mutexes)
  }

  class Kernel {
    const queues: TaskQueues
    const timeouts: TimeoutQueue
    var tcb: map<Tid, Task>
    var mutex: map<Mid, Mutex>
    var sem: map<Sid, int>
    var current: Option<Tid>
    var chosen: Option<Tid>
    var pended: bool
    var tick: Word
    ghost var st: State

    /** The memory stands for `st`. */
    ghost predicate Coupled()
      reads this, queues, timeouts
    {
      && queues.Valid() && timeouts.Valid()
      && queues.lists == st.queues && timeouts.list == st.timeouts
      && tcb == st.tasks && mutex == st.mutexes && sem == st.sems
      && current == st.current && chosen == st.next && pended == st.pended && tick == st.tick
      && tcb.Keys == timeouts.nextOf.Keys && Housed(st)
    }

    constructor ()
      ensures Coupled() && st == Cleared() && fresh(queues) && fresh(timeouts)
    {
      hide AllLists, IsList, Spare;
      queues := new TaskQueues();
      timeouts := new TimeoutQueue();
      tcb, mutex, sem, current, chosen, pended, tick := map[], map[], map[], None, None, false, 0;
      st := Cleared();
    }

    method Enqueue(q: QueueId, t: Tid)
      requires Coupled() && q in st.queues && Absent(st.queues, t) && t in tcb
      modifies this, queues
      ensures Coupled() && st == Append(old(st), q, t)
    {
      hide AllLists, IsList, Spare, Housed;
      AppendHoused(st, q, t);
      queues.Add(q, t);
      st := Append(st, q, t);
    }

    method Dequeue(q: QueueId, t: Tid)
      requires Coupled() && q in st.queues && t in st.queues[q]
      modifies this, queues
      ensures Coupled() && st == Remove(old(st), q, t) && Absent(st.queues, t)
    {
      hide AllLists, IsList, Spare, Housed;
      RemoveHoused(st, q, t);
      queues.Remove(q, t);
      st := Remove(st, q, t);
    }

    method EnqueueByPriority(q: QueueId, t: Tid)
      requires Coupled() && q in st.queues && Absent(st.queues, t) && t in tcb
      modifies this, queues
      ensures Coupled() && st == InsertByPriority(old(st), q, t)
    {
      hide AllLists, IsList, Spare, PriorityPos;
      InsertHoused(st, q, t);
      queues.InsertByPriority(q, t, tcb);
      st := InsertByPriority(st, q, t);
    }

    method PutTask(t: Tid, k: Task)
      requires Coupled() && t in tcb
      modifies this
      ensures Coupled() && st == SetTask(old(st), t, k)
    {
      hide AllLists, IsList, Spare;
      tcb := tcb[t := k];
      st := SetTask(st, t, k);
    }

    method PutMutex(m: Mid, x: Mutex)
      requires Coupled()
      modifies this
      ensures Coupled() && st == SetMutex(old(st), m, x)
    {
      hide AllLists, IsList, Spare;
      mutex := mutex[m := x];
      st := SetMutex(st, m, x);
    }

    // ----- choosing the next task (kernel/scheduler.c:127-135)

    method Schedule()
      requires Coupled() && forall p: Priority :: ReadyQ(p) in st.queues
      modifies this
      ensures Coupled() && st == KernelState.Schedule(old(st))
    {
      hide AllLists, IsList, Spare;
      ghost var s := st;
      var p := 0;
      while p < 4
        invariant 0 <= p <= 4 && TopFrom(s, 0) == TopFrom(s, p)
        invariant Coupled() && st == s.(next := chosen)
      {
        var level: Priority := p;
        assert ReadyQ(level) in s.queues;
        chosen := queues.Peek(ReadyQ(level));
        st := st.(next := chosen);
        if chosen.Some? {
          return;
        }
        p := p + 1;
      }
      chosen := None;
      st := st.(next := None);
    }

    method Reschedule()
      requires Coupled() && forall p: Priority :: ReadyQ(p) in st.queues
      modifies this
      ensures Coupled() && st == KernelState.Reschedule(old(st))
    {
      hide AllLists, IsList, Spare, TopFrom;
      Schedule();
      if chosen != current {
        pended := true;
      }
      st := KernelState.Reschedule(old(st));
    }

    // ----- blocking, waking, priorities (kernel/scheduler.c:206-330)

    method SetPriority(t: Tid, p: nat)
      requires Coupled() && Tidy(st) && t in tcb
      modifies this, queues
      ensures Coupled()
      ensures st == if p > IDLE_PRIORITY then old(st) else KernelState.SetPriority(old(st), t, p)
    {
      hide Housed, Shape, Records, Linked, PriorityPos, AllLists, IsList, Spare;
      if p > IDLE_PRIORITY {
        return;
      }
      AtHome(st, t);
      var k := tcb[t];
      if k.status == Ready || k.status == Running {
        Dequeue(ReadyQ(k.prio), t);
        PutTask(t, k.(prio := p));
        Enqueue(ReadyQ(p), t);
      } else {
        PutTask(t, k.(prio := p));
      }
      if k.status == Blocked && k.waitQ.Some? {
        Dequeue(k.waitQ.value, t);
        EnqueueByPriority(k.waitQ.value, t);
      }
    }

    method BlockCurrent(q: Option<QueueId>, ticks: Word, byPriority: bool)
      requires Coupled() && Tidy(st) && (q.Some? ==> q.value in st.queues && !q.value.ReadyQ?)
      requires current.Some? ==> current.value in tcb && !tcb[current.value].status.Blocked? && current.value !in st.timeouts
      modifies this, queues, timeouts
      ensures Coupled()
      ensures st == if q.None? then old(st) else Block(old(st), q.value, ticks, byPriority)
    {
      hide Housed, Shape, Records, Linked, EnterQueue, ArmTimeout, AllLists, IsList, Spare, TopFrom;
      if q.None? || current.None? {
        return;
      }
      var c := current.value;
      AtHome(st, c);
      EnterFrame(st, c, q.value, byPriority);
      EnterWait(c, q.value, byPriority);
      if ticks != WAIT_FOREVER {
        ArmFrame(st, c, ticks);
        Arm(c, ticks);
      }
      Reschedule();
    }

    lemma EnterFrame(s: State, c: Tid, q: QueueId, byPriority: bool)
      requires c in s.tasks && ReadyQ(s.tasks[c].prio) in s.queues && q in s.queues
      ensures var r := EnterQueue(s, c, q, byPriority);
        && r.queues.Keys == s.queues.Keys && r.tasks.Keys == s.tasks.Keys && r == s.(tasks := r.tasks, queues := r.queues)
    {
    }

    lemma ArmFrame(s: State, c: Tid, ticks: Word)
      ensures var r := ArmTimeout(s, c, ticks); r == s.(tasks := r.tasks, timeouts := r.timeouts)
    {
    }

    /** Lines 248-259: into the wait queue. */
    method EnterWait(c: Tid, q: QueueId, byPriority: bool)
      requires Coupled() && c in tcb && q in st.queues && ReadyQ(tcb[c].prio) in st.queues && c in st.queues[ReadyQ(tcb[c].prio)]
      modifies this, queues
      ensures Coupled() && st == EnterQueue(old(st), c, q, byPriority)
    {
      hide Housed, PriorityPos, AllLists, IsList, Spare;
      Dequeue(ReadyQ(tcb[c].prio), c);
      PutTask(c, tcb[c].(status := Blocked, waitQ := Some(q), wake := WAIT_FOREVER, result := 0));
      if byPriority {
        EnqueueByPriority(q, c);
      } else {
        Enqueue(q, c);
      }
    }

    /** Lines 263-264: into the timeout queue. */
    method Arm(t: Tid, ticks: Word)
      requires Coupled() && t in tcb && t !in st.timeouts
      modifies this, timeouts
      ensures Coupled() && st == ArmTimeout(old(st), t, ticks)
    {
      hide AllLists, IsList, Spare, TimeoutPos, Housed;
      PutTask(t, tcb[t].(wake := (tick + ticks) % 0x1_0000_0000));
      TimeoutHoused(st, t);
      timeouts.InsertSorted(t, tcb);
      st := TimeoutInsert(st, t);
    }

    method Disarm(t: Tid)
      requires Coupled() && t in tcb
      modifies this, timeouts
      ensures Coupled() && st == TimeoutRemove(old(st), t)
    {
      hide AllLists, IsList, Spare, Housed;
      TimeoutHoused(st, t);
      timeouts.Remove(t);
      st := TimeoutRemove(st, t);
    }

    method WakeOne(q: Option<QueueId>) returns (t: Pointer)
      requires Coupled() && Shape(st) && (q.Some? ==> q.value in st.queues)
      modifies this, queues, timeouts
      ensures Coupled()
      ensures st == if q.None? then old(st) else KernelState.WakeOne(old(st), q.value)
      ensures t == if q.None? || QueueOf(old(st), q.value) == [] then None else Some(QueueOf(old(st), q.value)[0])
    {
      hide Housed, Records, Linked, AllLists, IsList, Spare;
      if q.None? {
        return None;
      }
      t := queues.Peek(q.value);
      if t.Some? {
        QueuedIsTask(st, q.value, t.value);
        Dequeue(q.value, t.value);
        var k := tcb[t.value];
        if k.wake != WAIT_FOREVER {
          Disarm(t.value);
        }
        PutTask(t.value, k.(waitQ := None, wake := WAIT_FOREVER, result := 0, status := Ready));
        Enqueue(ReadyQ(k.prio), t.value);
      }
    }

    lemma QueuedIsTask(s: State, q: QueueId, t: Tid)
      requires Housed(s) && q in s.queues && t in s.queues[q]
      ensures t in s.tasks
    {
    }

    /** One turn of the loop of `os_process_timeouts`. */
    method ExpireFirst(t: Tid)
      requires Coupled() && Shape(st) && st.timeouts != [] && t == st.timeouts[0] && t in tcb
      requires tcb[t].waitQ.Some? && tcb[t].waitQ.value in st.queues && t in st.queues[tcb[t].waitQ.value]
      modifies this, queues, timeouts
      ensures Coupled() && st == ExpireHead(old(st))
    {
      hide Housed, AllLists, IsList, Spare;
      Disarm(t);
      var k := tcb[t];
      if k.waitQ.Some? {
        Dequeue(k.waitQ.value, t);
      }
      PutTask(t, k.(waitQ := None, wake := WAIT_FOREVER, result := -1, status := Ready));
      Enqueue(ReadyQ(k.prio), t);
    }

    method ProcessTimeouts(ghost idle: Tid)
      requires Coupled() && Core(st, idle)
      modifies this, queues, timeouts
      ensures Coupled() && st == KernelState.ProcessTimeouts(old(st))
    {
      hide Housed, AllLists, IsList, Spare, ExpireHead, TopFrom, Core, TickReached;
      var now, t := tick, timeouts.head;
      timeouts.HeadIs();
      while t.Some? && TickReached(now, tcb[t.value].wake)
        invariant Coupled() && Core(st, idle) && tick == now && t == timeouts.head
        invariant t == if st.timeouts == [] then None else Some(st.timeouts[0])
        invariant t.Some? ==> t.value in tcb
        invariant Expire(st) == Expire(old(st))
        decreases |st.timeouts|
      {
        timeouts.HeadIs();
        var next := timeouts.nextOf[t.value];
        SleeperAtHome(st, idle);
        ExpireHeadCore(st, idle);
        ExpireFirst(t.value);
        timeouts.HeadIs();
        t := next;
      }
      CoreTidy(st, idle);
      Reschedule();
    }

    lemma SleeperAtHome(s: State, idle: Tid)
      requires Core(s, idle) && s.timeouts != []
      ensures var t := s.timeouts[0];
        && Shape(s) && t in s.tasks && s.tasks[t].waitQ == Some(Sleep) && Sleep in s.queues && t in s.queues[Sleep]
    {
    }

    method CommitSwitch()
      requires Coupled() && (current.Some? ==> current.value in tcb) && (chosen.Some? ==> chosen.value in tcb)
      modifies this
      ensures Coupled() && st == Commit(old(st))
    {
      hide AllLists, IsList, Spare;
      pended := false;
      st := st.(pended := false);
      if chosen.None? {
        return;
      }
      if current.Some? && current != chosen && tcb[current.value].status == Running {
        PutTask(current.value, tcb[current.value].(status := Ready));
      }
      current := chosen;
      st := st.(current := chosen);
      PutTask(current.value, tcb[current.value].(status := Running));
    }

    // ----- yield, delay, tick (kernel/task.c:173-177, kernel/tick.c:23-52)

    method RotateCurrent()
      requires Coupled() && Shape(st) && (current.Some? ==> current.value in tcb)
      modifies this, queues
      ensures Coupled() && st == KernelState.RotateCurrent(old(st))
    {
      hide AllLists, IsList, Spare;
      if current.Some? {
        var q := ReadyQ(tcb[current.value].prio);
        queues.Rotate(q, current.value);
        RotateHoused(st, current.value);
        st := Rotate(st, current.value);
      }
    }

    lemma RotateHoused(s: State, t: Tid)
      requires Housed(s) && Shape(s)
      ensures Housed(Rotate(s, t)) && Shape(Rotate(s, t))
      ensures var r := Rotate(s, t); r == s.(queues := r.queues)
    {
    }

    method Yield()
      requires Coupled() && Shape(st) && (current.Some? ==> current.value in tcb)
      modifies this, queues
      ensures Coupled() && st == KernelState.Yield(old(st))
    {
      hide AllLists, IsList, Spare, Rotate, TopFrom, Housed;
      if current.Some? {
        RotateHoused(st, current.value);
      }
      RotateCurrent();
      Schedule();
      PendSwitch();
    }

    /** `os_port_pendsv_trigger` sets a pending bit; the switch comes later. */
    method PendSwitch()
      requires Coupled()
      modifies this
      ensures Coupled() && st == old(st).(pended := true)
    {
      hide AllLists, IsList, Spare;
      pended := true;
      st := st.(pended := true);
    }

    method DelayTicks(ticks: Word)
      requires Coupled() && Tidy(st)
      requires current.Some? ==> current.value in tcb && !tcb[current.value].status.Blocked? && current.value !in st.timeouts
      modifies this, queues, timeouts
      ensures Coupled() && st == Delay(old(st), ticks)
    {
      hide Coupled, Block, KernelState.Yield, Records, Linked;
      if ticks == 0 {
        Yield();
        return;
      }
      BlockCurrent(Some(Sleep), ticks, false);
    }

    method SysTick(ghost idle: Tid)
      requires Coupled() && Core(st, idle) && (current.Some? ==> current.value in tcb)
      modifies this, queues, timeouts
      ensures Coupled() && st == Tick(old(st))
    {
      hide AllLists, IsList, Spare, Rotate, TopFrom, Housed, KernelState.ProcessTimeouts, Core, Shape;
      IncrementTick();
      ScheduleCore(old(st), st, idle);
      TimeoutsFrame(st, idle);
      ProcessTimeouts(idle);
      if current.Some? {
        RotateHoused(st, current.value);
      }
      RotateCurrent();
      LevelsExist(st);
      Reschedule();
    }

    method IncrementTick()
      requires Coupled()
      modifies this
      ensures Coupled() && st == old(st).(tick := (old(st).tick + 1) % 0x1_0000_0000)
    {
      hide AllLists, IsList, Spare;
      tick := (tick + 1) % 0x1_0000_0000;
      st := st.(tick := tick);
    }

    lemma TimeoutsFrame(s: State, idle: Tid)
      requires Core(s, idle)
      ensures var x := KernelState.ProcessTimeouts(s);
        Shape(x) && x.current == s.current && x.tasks.Keys == s.tasks.Keys
    {
      hide Core, Expire, TopFrom;
      ExpireCore(s, idle);
      CoreTidy(Expire(s), idle);
    }

    lemma LevelsExist(s: State)
      requires Shape(s)
      ensures forall p: Priority :: ReadyQ(p) in s.queues
    {
    }

    // ----- semaphores (kernel/semaphore.c:6-70)

    method SemInit(i: Option<Sid>, count: int) returns (rc: int)
      requires Coupled() && (i.Some? ==> SemQ(i.value) !in st.queues)
      modifies this, queues
      ensures Coupled() && rc == if i.None? || count < 0 then -1 else 0
      ensures st == if rc == 0 then NewSem(old(st), i.value, count) else old(st)
    {
      hide AllLists, IsList, Spare;
      if i.None? || count < 0 {
        return -1;
      }
      sem := sem[i.value := count];
      queues.NewQueue(SemQ(i.value));
      st := NewSem(st, i.value, count);
      return 0;
    }

    method SemTake(i: Option<Sid>) returns (rc: int)
      requires Coupled() && Tidy(st) && (i.Some? ==> i.value in sem)
      requires current.Some? ==> current.value in tcb && !tcb[current.value].status.Blocked? && current.value !in st.timeouts
      modifies this, queues, timeouts
      ensures Coupled() && rc == if i.None? then -1 else 0
      ensures st == if i.None? then old(st) else KernelState.SemTake(old(st), i.value)
    {
      hide AllLists, IsList, Spare, Block, Records, Linked;
      if i.None? {
        return -1;
      }
      if sem[i.value] > 0 {
        sem := sem[i.value := sem[i.value] - 1];
        st := st.(sems := sem);
        return 0;
      }
      hide Coupled;
      BlockCurrent(Some(SemQ(i.value)), WAIT_FOREVER, false);
      return 0;
    }

    method SemGive(i: Option<Sid>) returns (rc: int)
      requires Coupled() && Shape(st) && (i.Some? ==> i.value in sem)
      modifies this, queues, timeouts
      ensures Coupled() && rc == if i.None? then -1 else 0
      ensures st == if i.None? then old(st) else KernelState.SemGive(old(st), i.value)
    {
      hide AllLists, IsList, Spare, KernelState.WakeOne, TopFrom;
      if i.None? {
        return -1;
      }
      WakeFrame(st, SemQ(i.value));
      var t := WakeOne(Some(SemQ(i.value)));
      if t.Some? {
        Reschedule();
      } else {
        sem := sem[i.value := sem[i.value] + 1];
        st := st.(sems := sem);
      }
      return 0;
    }

    lemma WakeFrame(s: State, q: QueueId)
      requires Shape(s) && q in s.queues
      ensures Shape(KernelState.WakeOne(s, q))
      ensures QueueOf(s, q) == [] ==> KernelState.WakeOne(s, q) == s
      ensures var r := KernelState.WakeOne(s, q); r == s.(tasks := r.tasks, queues := r.queues, timeouts := r.timeouts)
    {
    }

    // ----- mutexes (kernel/mutex.c)

    /** The `next_mutex` field is left as the memory had it. */
    method MutexInit(m: Option<Mid>, link: Option<Mid>) returns (rc: int)
      requires Coupled() && (m.Some? ==> MutexQ(m.value) !in st.queues)
      modifies this, queues
      ensures Coupled() && rc == if m.None? then -1 else 0
      ensures st == if rc == 0 then NewMutex(old(st), m.value, link) else old(st)
    {
      hide AllLists, IsList, Spare;
      if m.None? {
        return -1;
      }
      mutex := mutex[m.value := Mutex(None, link)];
      queues.NewQueue(MutexQ(m.value));
      st := NewMutex(st, m.value, link);
      return 0;
    }

    method AddToOwned(t: Tid, m: Mid)
      requires Coupled() && t in tcb && m in mutex
      modifies this
      ensures Coupled() && st == KernelState.AddToOwned(old(st), t, m)
    {
      hide AllLists, IsList, Spare, Housed;
      PutMutex(m, mutex[m].(next := tcb[t].owned));
      PutTask(t, tcb[t].(owned := Some(m)));
    }

    method RemoveFromOwned(t: Tid, m: Mid)
      requires Coupled() && t in tcb && m in mutex && (m in OwnedList(st, t) || OwnedIs(st, t, OwnedList(st, t)))
      modifies this
      ensures Coupled() && st == KernelState.RemoveFromOwned(old(st), t, m)
    {
      hide AllLists, IsList, Spare, Housed, OwnedIs, OwnedList;
      ghost var l := OwnedList(st, t);
      ghost var i := 0;
      var prev: Option<Mid> := None;
      var curr := tcb[t].owned;
      if l == [] { OwnedEmpty(st, t); } else { OwnedLinks(st, t, m, 0); }
      while curr.Some?
        invariant st == old(st) && Coupled() && i <= |l| && forall k :: 0 <= k < i ==> l[k] != m
        invariant curr == At(l, i) && prev == if i == 0 then None else Some(l[i - 1])
        decreases |l| - i
      {
        OwnedLinks(st, t, m, i);
        if curr == Some(m) {
          assert IndexOf(l, m) == i;
          if prev.None? {
            PutTask(t, tcb[t].(owned := mutex[m].next));
          } else {
            PutMutex(prev.value, mutex[prev.value].(next := mutex[m].next));
          }
          PutMutex(m, mutex[m].(next := None));
          return;
        }
        prev := curr;
        curr := mutex[curr.value].next;
        i := i + 1;
      }
    }

    /** The search goes along the list: up to `m` if `m` is on it, and to its end otherwise. */
    lemma OwnedLinks(s: State, t: Tid, m: Mid, i: nat)
      requires t in s.tasks && (m in OwnedList(s, t) || OwnedIs(s, t, OwnedList(s, t)))
      requires i < |OwnedList(s, t)| && forall k :: 0 <= k < i ==> OwnedList(s, t)[k] != m
      ensures var l := OwnedList(s, t);
        && s.tasks[t].owned == Some(l[0]) && l[i] in s.mutexes
        && (l[i] != m ==> s.mutexes[l[i]].next == At(l, i + 1))
    {
      FollowLinks(s.mutexes, s.tasks[t].owned, s.mutexes.Keys, i);
      hide OwnedList;
      var l := OwnedList(s, t);
      if m !in l {
        ChainLinks(s.mutexes, s.tasks[t].owned, l, i);
      }
    }

    lemma OwnedEmpty(s: State, t: Tid)
      requires OwnedIs(s, t, [])
      ensures s.tasks[t].owned.None?
    {
    }

    method RecomputePriority(t: Tid) returns (result: Priority)
      requires Coupled() && Shape(st) && t in tcb && OwnedIs(st, t, OwnedList(st, t))
      ensures result == Recompute(st, t)
    {
      hide AllLists, IsList, Spare, Chain, OwnedList;
      ghost var l := OwnedList(st, t);
      ghost var i := 0;
      result := tcb[t].base;
      var m := tcb[t].owned;
      assert tcb[t].owned == At(l, 0) by {
        if l != [] { ChainLinks(mutex, tcb[t].owned, l, 0); } else { ChainEmpty(mutex, tcb[t].owned); }
      }
      while m.Some?
        invariant i <= |l| && m == At(l, i)
        invariant MinHeads(st, l[i..], result) == MinHeads(st, l, tcb[t].base)
        decreases |l| - i
      {
        ChainLinks(mutex, tcb[t].owned, l, i);
        var h := queues.Peek(MutexQ(m.value));
        if h.Some? && tcb[h.value].prio < result {
          result := tcb[h.value].prio;
        }
        assert l[i..][1..] == l[i + 1..];
        m := mutex[m.value].next;
        i := i + 1;
      }
    }

    /** The walk of lines 45-53; `g_current->priority` does not change on the way. */
    method RaiseOwners(c: Tid, first: Option<Tid>)
      requires Coupled() && Raisable(st) && c in tcb && (first.Some? ==> first.value in tcb)
      modifies this, queues
      ensures Coupled() && st == Boost(old(st), old(tcb)[c].prio, first)
    {
      hide AllLists, IsList, Spare, Housed, Shape, Records, Linked, Sorted, MutexesOk, Hinted, KernelState.SetPriority;
      ghost var p := tcb[c].prio;
      var owner := first;
      while owner.Some? && tcb[c].prio < tcb[owner.value].prio
        invariant Coupled() && Raisable(st) && c in tcb && tcb[c].prio == p
        invariant owner.Some? ==> owner.value in tcb
        invariant Boost(st, p, owner) == Boost(old(st), p, first)
        decreases LessUrgent(tcb, p)
      {
        ghost var s := st;
        RaiseFrame(s, c, owner.value);
        SetPriority(owner.value, tcb[c].prio);
        OwnersExist(st, owner.value);
        var k := tcb[owner.value];
        if k.status == Blocked && k.blockedOn.Some? {
          owner := mutex[k.blockedOn.value].owner;
        } else {
          break;
        }
      }
    }

    lemma RaiseFrame(s: State, c: Tid, o: Tid)
      requires Raisable(s) && c in s.tasks && o in s.tasks && s.tasks[c].prio < s.tasks[o].prio
      ensures var p := s.tasks[c].prio; var r := KernelState.SetPriority(s, o, p);
        && Raisable(r) && r.tasks == s.tasks[o := s.tasks[o].(prio := p)] && r.mutexes == s.mutexes
        && LessUrgent(r.tasks, p) < LessUrgent(s.tasks, p)
    {
      hide Linked, Sorted, Records, MutexesOk, Hinted, KernelState.SetPriority;
      var p := s.tasks[c].prio;
      SetPriorityMoves(s, o, p);
      RaisedFields(s.tasks, s.mutexes, o, p);
      var r := KernelState.SetPriority(s, o, p);
      assert o in LessUrgent(s.tasks, p) && o !in LessUrgent(r.tasks, p);
    }

    lemma RaisedFields(tasks: map<Tid, Task>, mutexes: map<Mid, Mutex>, o: Tid, p: Priority)
      requires Records(tasks) && MutexesOk(tasks, mutexes) && Hinted(tasks, mutexes) && o in tasks
      ensures var r := tasks[o := tasks[o].(prio := p)]; Records(r) && MutexesOk(r, mutexes) && Hinted(r, mutexes)
    {
    }

    lemma OwnersExist(s: State, t: Tid)
      requires Raisable(s) && t in s.tasks
      ensures s.tasks[t].status.Blocked? && s.tasks[t].blockedOn.Some? ==>
        && s.tasks[t].blockedOn.value in s.mutexes
        && (NextOwner(s, t).Some? ==> NextOwner(s, t).value in s.tasks)
    {
    }

    /** Lines 20-55 of kernel/mutex.c; `blocked` tells whether the last of them was reached. */
    method LockBegin(m: Mid, ghost reading: Reading, ghost idle: Tid) returns (rc: int, blocked: bool)
      requires Coupled() && Inv(reading, st, idle) && MayCall(st, idle) && m in mutex
      modifies this, queues, timeouts
      ensures Coupled() && st == LockCall(old(st), m)
      ensures rc == (if old(mutex)[m].owner == old(current) then -1 else 0) && blocked == Contended(old(st), m)
    {
      hide Inv, Block, Boost, AllLists, IsList, Spare, Housed;
      var c := current.value;
      if mutex[m].owner.None? {
        PutMutex(m, mutex[m].(owner := current));
        AddToOwned(c, m);
        return 0, false;
      }
      if mutex[m].owner == current {
        return -1, false;
      }
      LockContended(m, reading, idle);
      return 0, true;
    }

    /** Lines 41-55: announce, raise the owners along the chain, wait. */
    method LockContended(m: Mid, ghost reading: Reading, ghost idle: Tid)
      requires Coupled() && Inv(reading, st, idle) && MayCall(st, idle) && m in mutex && Contended(st, m)
      modifies this, queues, timeouts
      ensures Coupled() && st == LockCall(old(st), m)
    {
      hide Inv, Block, Boost, Tidy, Raisable, AllLists, IsList, Spare, Housed;
      LockMiddle(reading, st, idle, m);
      var c := current.value;
      PutTask(c, tcb[c].(blockedOn := Some(m)));
      RaiseOwners(c, mutex[m].owner);
      BlockCurrent(Some(MutexQ(m)), WAIT_FOREVER, true);
    }

    /** Lines 57-58, on behalf of the task that is current. */
    method LockFinish(m: Mid)
      requires Coupled() && m in mutex && current.Some? && current.value in tcb
      modifies this
      ensures Coupled() && st == LockResume(old(st), m)
    {
      hide AllLists, IsList, Spare, Housed;
      PutTask(current.value, tcb[current.value].(blockedOn := None));
      AddToOwned(current.value, m);
    }

    /** The routine as it executes: triggering PendSV only sets a bit, so blocking returns. */
    method MutexLock(m: Option<Mid>, ghost reading: Reading, ghost idle: Tid) returns (rc: int)
      requires Coupled() && Inv(reading, st, idle) && MayCall(st, idle) && (m.Some? ==> m.value in mutex)
      modifies this, queues, timeouts
      ensures Coupled() && st == if m.None? then old(st) else LockExecuted(old(st), m.value)
      ensures rc == if m.None? || old(mutex)[m.value].owner == old(current) then -1 else 0
    {
      hide Inv, LockCall, LockResume, AllLists, IsList, Spare, Housed;
      if m.None? {
        return -1;
      }
      LockCallFrame(reading, st, idle, m.value);
      var blocked;
      rc, blocked := LockBegin(m.value, reading, idle);
      if blocked {
        LockFinish(m.value);
      }
    }

    method MutexUnlock(m: Option<Mid>, ghost reading: Reading, ghost idle: Tid) returns (rc: int)
      requires Coupled() && Inv(reading, st, idle) && MayCall(st, idle) && (m.Some? ==> m.value in mutex)
      requires m.Some? && mutex[m.value].owner == current ==> Returns(st, current.value, m.value)
      modifies this, queues, timeouts
      ensures Coupled() && st == if m.None? then old(st) else Unlock(old(st), m.value)
      ensures rc == if m.None? || old(mutex)[m.value].owner != old(current) then -1 else 0
    {
      hide Inv, KernelState.RemoveFromOwned, Recompute, KernelState.SetPriority, KernelState.WakeOne, Returns, OwnedIs, OwnedList,
        AllLists, IsList, Spare, Housed, Top, Tidy;
      if m.None? || mutex[m.value].owner != current {
        return -1;
      }
      var c := current.value;
      UnlockMiddle(reading, st, idle, m.value);
      RemoveFromOwned(c, m.value);
      var p := RecomputePriority(c);
      SetPriority(c, p);
      WakeFrame(st, MutexQ(m.value));
      var t := WakeOne(Some(MutexQ(m.value)));
      if t.Some? {
        PutMutex(m.value, mutex[m.value].(owner := t));
        Reschedule();
      } else {
        PutMutex(m.value, mutex[m.value].(owner := None));
      }
      return 0;
    }

    // ----- creation and start (kernel/task.c:85-134, kernel/task.c:136-166)

    /** Fill in a new control block: nothing points to it yet. */
    method InitTask(t: Tid, p: Priority)
      requires Coupled() && t !in tcb
      modifies this, timeouts
      ensures Coupled() && st == SetTask(old(st), t, NewTask(p)) && Absent(st.queues, t)
    {
      hide AllLists, IsList, Spare;
      tcb := tcb[t := NewTask(p)];
      timeouts.Enrol(t);
      st := SetTask(st, t, NewTask(p));
    }

    method AddTask(t: Tid, p: Priority)
      requires Coupled() && Shape(st) && t !in tcb
      modifies this, queues, timeouts
      ensures Coupled() && st == Create(old(st), t, p)
    {
      hide AllLists, IsList, Spare, Housed, Absent, TopFrom;
      InitTask(t, p);
      Enqueue(ReadyQ(p), t);
      Schedule();
      if current.Some? && chosen != current {
        PendSwitch();
      }
    }

    /** `os_start` up to its first switch; with no task at all it would spin here. */
    method StartScheduler()
      requires Coupled() && Shape(st)
      modifies this
      ensures Coupled() && st == Start(old(st))
    {
      hide AllLists, IsList, Spare, TopFrom;
      Schedule();
      current := chosen;
      st := st.(current := chosen);
      if current.Some? {
        PendSwitch();
      }
    }

    // ----- the whole machine

    lemma SameFields()
      requires Coupled()
      ensures tcb == st.tasks && mutex == st.mutexes && sem == st.sems && current == st.current && chosen == st.next
    {
    }

    /** A call by the running task. */
    method Serve(e: Event, reading: Reading, ghost idle: Tid)
      requires Coupled() && Inv(reading, st, idle) && Enabled(reading, st, idle, e) && MayCall(st, idle) && Completes(st, e)
      requires e.YieldCall? || e.DelayCall? || e.TakeCall? || e.GiveCall? || e.LockMutex? || e.UnlockMutex?
      modifies this, queues, timeouts
      ensures Coupled() && st == Step(reading, old(st), e)
    {
      SameFields();
      CallerFacts(reading, st, idle);
      hide Coupled, Inv, Returns, Records, Linked, Shape, KernelState.Yield, Delay, KernelState.SemTake, KernelState.SemGive, LockCall,
        LockExecuted, Unlock, Core;
      match e
      case YieldCall => Yield();
      case DelayCall(n) => DelayTicks(n);
      case TakeCall(i) => var _ := SemTake(Some(i));
      case GiveCall(i) => var _ := SemGive(Some(i));
      case LockMutex(m) =>
        if reading == Intended {
          var _, _ := LockBegin(m, reading, idle);
        } else {
          var _ := MutexLock(Some(m), reading, idle);
        }
      case UnlockMutex(m) => var _ := MutexUnlock(Some(m), reading, idle);
    }

    /** Everything else that can happen. */
    method Attend(e: Event, reading: Reading, ghost idle: Tid)
      requires Coupled() && Inv(reading, st, idle) && Enabled(reading, st, idle, e)
      requires !(e.YieldCall? || e.DelayCall? || e.TakeCall? || e.GiveCall? || e.LockMutex? || e.UnlockMutex?)
      modifies this, queues, timeouts
      ensures Coupled() && st == Step(reading, old(st), e)
    {
      hide Coupled, Inv, LockResume, Create, Start, Tick, Commit, NewMutex, NewSem, Shape, Core;
      SameFields();
      EventFacts(reading, st, idle, e);
      if e.InitMutex? || e.InitSem? || e.CreateTask? {
        Admit(e, reading, idle);
        return;
      }
      match e
      case ResumeLock => LockFinish(tcb[current.value].blockedOn.value);
      case StartKernel => StartScheduler();
      case TickInterrupt => SysTick(idle);
      case SwitchContext => CommitSwitch();
    }

    /** New objects. */
    method Admit(e: Event, reading: Reading, ghost idle: Tid)
      requires Coupled() && Inv(reading, st, idle) && Enabled(reading, st, idle, e)
      requires e.InitMutex? || e.InitSem? || e.CreateTask?
      modifies this, queues, timeouts
      ensures Coupled() && st == Step(reading, old(st), e)
    {
      hide Coupled, Inv, Create, NewMutex, NewSem, Shape, Core;
      SameFields();
      EventFacts(reading, st, idle, e);
      match e
      case CreateTask(t, p) => AddTask(t, p);
      case InitMutex(m, link) => var _ := MutexInit(Some(m), link);
      case InitSem(i, n) => var _ := SemInit(Some(i), n);
    }

    /** Whatever happens next, the memory follows the state machine and keeps its invariant.
        The system calls are those dispatched at arch/arm_cm/port.c:91-124. */
    method Perform(e: Event, reading: Reading, ghost idle: Tid)
      requires Coupled() && Inv(reading, st, idle) && Enabled(reading, st, idle, e) && Completes(st, e)
      modifies this, queues, timeouts
      ensures Coupled() && st == Step(reading, old(st), e) && Inv(reading, st, idle)
      ensures FullInv(reading, old(st), idle) && SafelyEnabled(reading, old(st), idle, e) ==> FullInv(reading, st, idle)
    {
      hide Coupled, Inv, FullInv, SafelyEnabled, Step, MayCall, Completes;
      StepInv(reading, st, idle, e);
      if FullInv(reading, st, idle) && SafelyEnabled(reading, st, idle, e) {
        StepFullInv(reading, st, idle, e);
      }
      if e.YieldCall? || e.DelayCall? || e.TakeCall? || e.GiveCall? || e.LockMutex? || e.UnlockMutex? {
        Serve(e, reading, idle);
      } else {
        Attend(e, reading, idle);
      }
    }
  }

  /** `os_boot_main` up to the application (kernel/main.c:16-28). */
  method Boot(idle: Tid) returns (k: Kernel)
    ensures fresh(k) && fresh(k.queues) && fresh(k.timeouts)
    ensures k.Coupled() && k.st == Booted(idle) && forall reading :: FullInv(reading, k.st, idle) && Inv(reading, k.st, idle)
  {
    hide Inv, FullInv, AllLists, IsList, Spare;
    k := new Kernel();
    k.AddTask(idle, IDLE_PRIORITY);
    forall reading
      ensures FullInv(reading, k.st, idle) && Inv(reading, k.st, idle)
    {
      BootedFullInv(reading, idle);
      BootedInv(reading, idle);
    }
  }

  /** What the invariant says when an event is about to happen. */
  lemma EventFacts(reading: Reading, s: State, idle: Tid, e: Event)
    requires Inv(reading, s, idle) && Enabled(reading, s, idle, e)
    ensures Shape(s) && Core(s, idle)
    ensures s.current.Some? ==> s.current.value in s.tasks
    ensures e.SwitchContext? ==> s.next.Some? && s.next.value in s.tasks
    ensures e.ResumeLock? ==> s.tasks[s.current.value].blockedOn.value in s.mutexes
    ensures e.InitMutex? ==> MutexQ(e.mutex) !in s.queues
    ensures e.InitSem? ==> SemQ(e.sem) !in s.queues
  {
    hide Placed, Top;
    TopAwake(s, idle);
  }

  lemma CoreTidy(s: State, idle: Tid)
    requires Core(s, idle)
    ensures Tidy(s) && Shape(s) && forall p: Priority :: ReadyQ(p) in s.queues
  {
  }

  /** What the invariant says about the task making a call. */
  lemma CallerFacts(reading: Reading, s: State, idle: Tid)
    requires Inv(reading, s, idle) && MayCall(s, idle)
    ensures var c := s.current.value;
      && Tidy(s) && Core(s, idle) && c in s.tasks && !s.tasks[c].status.Blocked? && c !in s.timeouts
  {
    hide Linked, Sorted;
    AwakeCaller(s, idle);
  }

  /** The states the contended lock goes through. */
  lemma LockMiddle(reading: Reading, s: State, idle: Tid, m: Mid)
    requires Inv(reading, s, idle) && MayCall(s, idle) && m in s.mutexes && Contended(s, m)
    ensures var c := s.current.value; var a := Announced(s, c, m);
      var b := Boost(a, s.tasks[c].prio, s.mutexes[m].owner);
      && Raisable(a) && s.mutexes[m].owner.value in s.tasks
      && Tidy(b) && c in b.tasks && !b.tasks[c].status.Blocked? && c !in b.timeouts
      && MutexQ(m) in b.queues && b.current == s.current
  {
    hide Linked, Sorted, MutexesOk, Hinted, Shape, Boost, Records, Attended, TimeoutsOk, SemsOk, IdleOk;
    var c := s.current.value;
    CallerFacts(reading, s, idle);
    AnnouncedCore(s, idle, c, m);
    AnnouncedFields(s, c, m);
    var a := Announced(s, c, m);
    BoostCore(a, idle, s.tasks[c].prio, s.mutexes[m].owner);
    BoostFrame(a, s.tasks[c].prio, s.mutexes[m].owner);
    MutexQueueExists(Boost(a, s.tasks[c].prio, s.mutexes[m].owner), m);
  }

  lemma AnnouncedFields(s: State, c: Tid, m: Mid)
    requires MutexesOk(s.tasks, s.mutexes) && Hinted(s.tasks, s.mutexes) && c in s.tasks && m in s.mutexes
    ensures var a := Announced(s, c, m); MutexesOk(a.tasks, a.mutexes) && Hinted(a.tasks, a.mutexes)
    ensures s.mutexes[m].owner.Some? ==> s.mutexes[m].owner.value in s.tasks
  {
  }

  lemma LockCallFrame(reading: Reading, s: State, idle: Tid, m: Mid)
    requires Inv(reading, s, idle) && MayCall(s, idle) && m in s.mutexes
    ensures Contended(s, m) ==>
      var r := LockCall(s, m); r.current == s.current && s.current.value in r.tasks && m in r.mutexes
  {
    hide LockCall, Core, Attended;
    if Contended(s, m) {
      LockCallOngoing(s, idle, m);
    }
  }

  /** The states an unlock goes through. */
  lemma UnlockMiddle(reading: Reading, s: State, idle: Tid, m: Mid)
    requires Inv(reading, s, idle) && MayCall(s, idle) && m in s.mutexes && s.mutexes[m].owner == s.current
    requires Returns(s, s.current.value, m)
    ensures var c := s.current.value; var a := RemoveFromOwned(s, c, m); var b := SetPriority(a, c, Recompute(a, c));
      && (m in OwnedList(s, c) || OwnedIs(s, c, OwnedList(s, c))) && OwnedIs(a, c, OwnedList(a, c))
      && Tidy(a) && Shape(a) && c in a.tasks && Shape(b) && MutexQ(m) in b.queues && m in b.mutexes
      && a.current == s.current && b.current == s.current
  {
    hide RemoveFromOwned, SetPriority, Recompute, OwnedList, OwnedIs, Core;
    var c := s.current.value;
    CallerFacts(reading, s, idle);
    UnlistedCore(s, idle, c, m);
    var a := RemoveFromOwned(s, c, m);
    CoreTidy(a, idle);
    SetCore(a, idle, c, Recompute(a, c), m);
    CoreTidy(SetPriority(a, c, Recompute(a, c)), idle);
    MutexQueueExists(SetPriority(a, c, Recompute(a, c)), m);
  }
}
