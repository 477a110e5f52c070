/** The blocking queue on the kernel itself: tasks that run `os_queue_send` and `os_queue_recv`
    between any other steps of the machine.  Each such run is a run of the queue's threads, so
    what is proved of those holds of the kernel's tasks. */
module KernelQueue {
  import opened Base
  import opened KernelState
  import opened OwnedLists
  import opened Machine
  import opened StepChanges
  import opened Runs
  import opened KernelObjects
  import opened Ring
  import Q = BlockingQueue
  import QR = QueueRuns
  import QA = QueueResults

  /** The kernel objects inside an `os_queue_t`. */
  datatype Objects = Objects(lock: Mid, spaces: Sid, items: Sid)

  datatype Joint<M> = Joint(s: State, q: Q.Queue<M>)

  /** The kernel's objects are in the state in which the queue's threads see them. */
  ghost predicate Agree<M>(o: Objects, j: Joint<M>) {
    && o.lock in j.s.mutexes && o.spaces in j.s.sems && o.items in j.s.sems && o.spaces != o.items
    && SemView(j.s, o.spaces) == j.q.spaces && SemView(j.s, o.items) == j.q.items && LockView(j.s, o.lock) == j.q.lock
  }

  /** A step of the kernel that is no call on the queue's objects, or a step of the current task
      inside the queue's routines. */
  datatype Act<M> = Kernel(e: Event) | Thread(t: Q.Event<M>)

  function Permit(o: Objects, sending: bool): (i: Sid) {
    if sending then o.spaces else o.items
  }

  /** The system call that a step inside the routines makes, if it makes one. */
  function CallOf<M>(o: Objects, q: Q.Queue<M>, e: Q.Event<M>): (k: Option<Event>) {
    var pc := Q.PcOf(q, e.t);
    match e
    case Take(_) => if pc.Ask? then Some(TakeCall(Permit(o, pc.job.Sending?))) else None
    case AcquireLock(_) => Some(LockMutex(o.lock))
    case DirectLock(_) => Some(LockMutex(o.lock))
    case ReleaseLock(_, _) => Some(UnlockMutex(o.lock))
    case DirectUnlock(_, _) => Some(UnlockMutex(o.lock))
    case Give(_, _) =>
      if pc.Signal? then Some(GiveCall(Permit(o, !pc.job.Sending?)))
      else if pc.Refused? then Some(GiveCall(Permit(o, pc.job.Sending?))) else None
    case _ => None
  }

  /** The step is the next one in its routine. */
  ghost predicate InTurn<M>(q: Q.Queue<M>, e: Q.Event<M>) {
    var pc := Q.PcOf(q, e.t);
    match e
    case Call(_, _) => pc.Out?
    case Take(_) => pc.Ask?
    case AcquireLock(_) => pc.Permit?
    case Scribble(_, _) => pc.Inside? && pc.job.Sending?
    case Copy(_) => pc.Inside?
    case Bump(_) => pc.Copied?
    case Wrap(_) => pc.Bumped?
    case ReleaseLock(_, _) => pc.Leaving?
    case Give(_, _) => pc.Signal? || pc.Refused?
    case DirectLock(_) => pc.Out?
    case DirectUnlock(_, _) => pc.Out?
  }

  /** Who the kernel hands the permit or the lock to: the head of the queue. */
  function HeirOf(s: State, k: Event): (h: Option<Tid>) {
    match k
    case GiveCall(i) => First(s, SemQ(i))
    case UnlockMutex(m) => First(s, MutexQ(m))
    case _ => None
  }

  /** A kernel step that is none of the queue's business. */
  ghost predicate Foreign(o: Objects, e: Event) {
    && e != TakeCall(o.spaces) && e != TakeCall(o.items) && e != GiveCall(o.spaces) && e != GiveCall(o.items)
    && e != LockMutex(o.lock) && e != UnlockMutex(o.lock)
  }

  ghost predicate MayAct<M>(reading: Reading, o: Objects, j: Joint<M>, idle: Tid, a: Act<M>) {
    match a
    case Kernel(e) => Enabled(reading, j.s, idle, e) && Foreign(o, e)
    case Thread(e) =>
      && MayCall(j.s, idle) && e.t == j.s.current.value && InTurn(j.q, e)
      && (CallOf(o, j.q, e).Some? ==>
            && Enabled(reading, j.s, idle, CallOf(o, j.q, e).value)
            && (e.ReleaseLock? || e.Give? || e.DirectUnlock? ==> e.heir == HeirOf(j.s, CallOf(o, j.q, e).value)))
  }

  ghost function Acted<M>(reading: Reading, o: Objects, j: Joint<M>, a: Act<M>): (r: Joint<M>) {
    match a
    case Kernel(e) => Joint(Step(reading, j.s, e), j.q)
    case Thread(e) =>
      Joint(if CallOf(o, j.q, e).Some? then Step(reading, j.s, CallOf(o, j.q, e).value) else j.s,
            if Q.Enabled(j.q, e) then Q.Next(j.q, e) else j.q)
  }

  /** The heir the kernel chooses is one the queue's threads expect. */
  lemma TurnEnabled<M>(reading: Reading, o: Objects, j: Joint<M>, idle: Tid, e: Q.Event<M>)
    requires Reachable(reading, j.s, idle) && Agree(o, j) && MayAct(reading, o, j, idle, Thread(e))
    ensures Q.Enabled(j.q, e)
  {
    hide Reachable, Enabled, MayCall, Q.IsHeir;
    if e.ReleaseLock? || e.DirectUnlock? {
      MutexStep(reading, j.s, idle, UnlockMutex(o.lock), o.lock);
    } else if e.Give? {
      var k := CallOf(o, j.q, e).value;
      SemaphoreStep(reading, j.s, idle, k, k.sem);
    }
  }

  lemma ObjectsStay(reading: Reading, s: State, idle: Tid, e: Event)
    requires Reachable(reading, s, idle) && Enabled(reading, s, idle, e)
    ensures s.mutexes.Keys <= Step(reading, s, e).mutexes.Keys && s.sems.Keys <= Step(reading, s, e).sems.Keys
  {
    hide Reachable, Inv, Enabled, Step, WaitsOnly, HintsOnly;
    ReachableInv(reading, s, idle);
    StepChangesOnly(reading, s, idle, e);
  }

  lemma KernelAgrees<M>(reading: Reading, o: Objects, j: Joint<M>, idle: Tid, e: Event)
    requires Reachable(reading, j.s, idle) && Agree(o, j) && Enabled(reading, j.s, idle, e) && Foreign(o, e)
    ensures Agree(o, Joint(Step(reading, j.s, e), j.q))
  {
    hide Reachable, Enabled, Step;
    ObjectsStay(reading, j.s, idle, e);
    SemaphoreStep(reading, j.s, idle, e, o.spaces);
    SemaphoreStep(reading, j.s, idle, e, o.items);
    MutexStep(reading, j.s, idle, e, o.lock);
  }

  /** A system call does to the kernel's objects what it does to those of the threads. */
  lemma CallAgrees<M>(reading: Reading, o: Objects, j: Joint<M>, idle: Tid, e: Q.Event<M>)
    requires Reachable(reading, j.s, idle) && Agree(o, j) && MayAct(reading, o, j, idle, Thread(e))
    requires CallOf(o, j.q, e).Some? && Q.Enabled(j.q, e)
    ensures Agree(o, Acted(reading, o, j, Thread(e)))
  {
    hide Reachable, Step, MayCall, Q.IsHeir, SemView, LockView, First;
    var k := CallOf(o, j.q, e).value;
    ObjectsStay(reading, j.s, idle, k);
    SemaphoreStep(reading, j.s, idle, k, o.spaces);
    SemaphoreStep(reading, j.s, idle, k, o.items);
    MutexStep(reading, j.s, idle, k, o.lock);
    LockOwner(j.s, o.lock);
    CurrentIs(j.s, idle, e.t);
  }

  lemma LockOwner(s: State, m: Mid)
    ensures LockView(s, m).owner == MutexOf(s, m).owner
  {
  }

  lemma CurrentIs(s: State, idle: Tid, t: Tid)
    requires MayCall(s, idle) && t == s.current.value
    ensures s.current == Some(t)
  {
  }

  lemma LocalAgrees<M>(reading: Reading, o: Objects, j: Joint<M>, e: Q.Event<M>)
    requires Agree(o, j) && Q.Enabled(j.q, e) && CallOf(o, j.q, e).None?
    ensures Agree(o, Acted(reading, o, j, Thread(e)))
  {
    hide SemView, LockView;
  }

  // ----- runs

  ghost predicate LegalActs<M>(reading: Reading, o: Objects, j: Joint<M>, idle: Tid, acts: seq<Act<M>>)
    decreases |acts|
  {
    acts == [] || (MayAct(reading, o, j, idle, acts[0]) && LegalActs(reading, o, Acted(reading, o, j, acts[0]), idle, acts[1..]))
  }

  ghost function RunActs<M>(reading: Reading, o: Objects, j: Joint<M>, acts: seq<Act<M>>): (r: Joint<M>)
    decreases |acts|
  {
    if acts == [] then j else RunActs(reading, o, Acted(reading, o, j, acts[0]), acts[1..])
  }

  /** The steps taken inside the queue's routines. */
  function Threads<M>(acts: seq<Act<M>>): (es: seq<Q.Event<M>>) {
    if acts == [] then [] else (if acts[0].Thread? then [acts[0].t] else []) + Threads(acts[1..])
  }

  /** One step of the joint machine: a kernel step keeps the queue's view, and a step of the current
      task is a step of that thread. */
  lemma StepProjects<M>(reading: Reading, o: Objects, j: Joint<M>, idle: Tid, a: Act<M>)
    requires Reachable(reading, j.s, idle) && Agree(o, j) && MayAct(reading, o, j, idle, a)
    ensures var r := Acted(reading, o, j, a);
      && Reachable(reading, r.s, idle) && Agree(o, r)
      && (if a.Thread? then Q.Enabled(j.q, a.t) && r.q == Q.Next(j.q, a.t) else r.q == j.q)
  {
    hide Reachable, Agree, Enabled, Step, MayCall, InTurn, Q.Enabled, Q.Next, Foreign;
    match a
    case Kernel(e) =>
      KernelAgrees(reading, o, j, idle, e);
      StaysReachable(reading, j.s, idle, e);
    case Thread(e) =>
      TurnEnabled(reading, o, j, idle, e);
      if CallOf(o, j.q, e).Some? {
        CallAgrees(reading, o, j, idle, e);
        StaysReachable(reading, j.s, idle, CallOf(o, j.q, e).value);
      } else {
        LocalAgrees(reading, o, j, e);
      }
  }

  lemma {:induction false} RunProjects<M>(reading: Reading, o: Objects, j: Joint<M>, idle: Tid, acts: seq<Act<M>>)
    requires Reachable(reading, j.s, idle) && Agree(o, j) && LegalActs(reading, o, j, idle, acts)
    ensures var r := RunActs(reading, o, j, acts);
      && Reachable(reading, r.s, idle) && Agree(o, r)
      && QR.Legal(j.q, Threads(acts)) && r.q == QR.Run(j.q, Threads(acts))
    decreases |acts|
  {
    hide Reachable, Agree, MayAct, Acted, Q.Enabled, Q.Next;
    if acts != [] {
      StepProjects(reading, o, j, idle, acts[0]);
      var j' := Acted(reading, o, j, acts[0]);
      RunProjects(reading, o, j', idle, acts[1..]);
      if acts[0].Thread? {
        assert Threads(acts)[1..] == Threads(acts[1..]);
      } else {
        assert Threads(acts) == Threads(acts[1..]);
      }
    }
  }

  /** The message queue of the kernel is first-in first-out: whatever the tasks, the ticks and the
      switches do, the messages received are a prefix of those sent, at most `n` are stored, in
      order, and each next step puts a message, gets the oldest, or does neither. */
  lemma KernelQueueIsFifo<M>(reading: Reading, o: Objects, s: State, idle: Tid, storage: seq<M>, size: Word, n: Word,
                             acts: seq<Act<M>>, next: Act<M>)
    requires Reachable(reading, s, idle) && |storage| == n && Q.Init(Some(storage), size, n).Some?
    requires Agree(o, Joint(s, Q.Init(Some(storage), size, n).value))
    requires LegalActs(reading, o, Joint(s, Q.Init(Some(storage), size, n).value), idle, acts)
    requires MayAct(reading, o, RunActs(reading, o, Joint(s, Q.Init(Some(storage), size, n).value), acts), idle, next)
    ensures var r := RunActs(reading, o, Joint(s, Q.Init(Some(storage), size, n).value), acts);
      && |r.q.received| <= |r.q.sent| <= |r.q.received| + n && r.q.received == r.q.sent[..|r.q.received|]
      && |r.q.storage| == n > 0
      && (forall i :: |r.q.received| <= i < |r.q.sent| ==> r.q.storage[Slot(i, n)] == r.q.sent[i])
      && (next.Thread? ==> Q.Enabled(r.q, next.t))
      && (next.Thread? ==> QR.BufferStep(n, QR.Buffer(r.q), QR.Buffer(Acted(reading, o, r, next).q), QR.Effect(r.q, next.t)))
      && (next.Kernel? ==> Acted(reading, o, r, next).q == r.q)
  {
    hide Reachable, Agree, MayAct, LegalActs, RunActs, Acted, QR.Legal, QR.Run, Q.Enabled, Q.Next, QR.Buffer, QR.Effect, QR.BufferStep;
    var j := Joint(s, Q.Init(Some(storage), size, n).value);
    var r := RunActs(reading, o, j, acts);
    RunProjects(reading, o, j, idle, acts);
    assert QR.Reached(storage, size, n, Threads(acts), r.q);
    QR.FirstInFirstOut(storage, size, n, Threads(acts), r.q);
    StepProjects(reading, o, r, idle, next);
    if next.Thread? {
      QR.RefinesBuffer(storage, size, n, Threads(acts), r.q, next.t);
    }
  }

  /** And its calls return what they should: whatever task made them, each has the answer it deserves. */
  lemma KernelCallsAnswered<M>(reading: Reading, o: Objects, s: State, idle: Tid, storage: seq<M>, size: Word, n: Word,
                               acts: seq<Act<M>>, t: Tid)
    requires Reachable(reading, s, idle) && |storage| == n && Q.Init(Some(storage), size, n).Some?
    requires Agree(o, Joint(s, Q.Init(Some(storage), size, n).value))
    requires LegalActs(reading, o, Joint(s, Q.Init(Some(storage), size, n).value), idle, acts)
    ensures var q := Q.Init(Some(storage), size, n).value; var r := RunActs(reading, o, Joint(s, q), acts);
      && QR.Legal(q, Threads(acts))
      && QA.Answered(QA.LogOver(map[], q, Threads(acts)), t, Q.PcOf(r.q, t))
  {
    hide Reachable, Agree, MayAct, LegalActs, RunActs, Acted, QR.Legal, QR.Run, QA.LogOver, QA.Answered;
    var j := Joint(s, Q.Init(Some(storage), size, n).value);
    RunProjects(reading, o, j, idle, acts);
    QA.CallsAnswered(storage, size, n, Threads(acts), RunActs(reading, o, j, acts).q, t);
  }
}
