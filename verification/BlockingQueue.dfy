/** Semaphores and mutexes as their callers see them, and the blocking message queue built on
    them (kernel/queue.c): any number of senders and receivers, interleaved between any two of
    their steps.  The queue refines a bounded first-in first-out buffer. */
module BlockingQueue {
  import opened Base

  type Thread = nat

  // ----- what blocking calls do

  datatype Sem = Sem(count: int, waiters: set<Thread>)

  datatype Lock = Lock(owner: Option<Thread>, waiters: set<Thread>)

  /** Who is handed a permit or a lock: some waiter, nobody only if nobody waits. */
  ghost predicate IsHeir(waiters: set<Thread>, heir: Option<Thread>) {
    if waiters == {} then heir.None? else heir.Some? && heir.value in waiters
  }

  function Without1(waiters: set<Thread>, heir: Option<Thread>): (r: set<Thread>) {
    if heir.Some? then waiters - {heir.value} else waiters
  }

  function Taken(s: Sem, t: Thread): (r: Sem) {
    if s.count > 0 then s.(count := s.count - 1) else s.(waiters := s.waiters + {t})
  }

  function Given(s: Sem, heir: Option<Thread>): (r: Sem) {
    Sem(if heir.Some? then s.count else s.count + 1, Without1(s.waiters, heir))
  }

  function Locked(l: Lock, t: Thread): (r: Lock) {
    if l.owner.None? then l.(owner := Some(t))
    else if l.owner == Some(t) then l else l.(waiters := l.waiters + {t})
  }

  function Released(l: Lock, heir: Option<Thread>): (r: Lock) {
    Lock(heir, Without1(l.waiters, heir))
  }

  // ----- the queue and the threads inside its routines

  /** What a thread is inside the queue for.  `nested` records that it already owned the lock
      when it called. */
  datatype Job<M> = Sending(msg: M, nested: bool) | Receiving(got: Option<M>, nested: bool)

  /** How far a thread has come in `os_queue_send` or `os_queue_recv`. */
  datatype Pc<M> =
    | Out(rc: int, got: Option<M>)   // outside; the last call returned `rc`
    | Ask(job: Job<M>)               // about to take a permit
    | AwaitPermit(job: Job<M>)       // in the semaphore's wait queue
    | Permit(job: Job<M>)            // holds a permit, about to lock
    | AwaitLock(job: Job<M>)         // in the mutex's wait queue
    | Inside(job: Job<M>)            // owns the lock, has not copied
    | Copied(job: Job<M>)            // has copied, index not yet advanced
    | Bumped(job: Job<M>)            // index advanced, not yet wrapped
    | Leaving(job: Job<M>)           // about to unlock
    | Signal(job: Job<M>)            // about to give the other permit
    | Refused(job: Job<M>)           // the lock returned an error; about to give the permit back
    | AwaitDirect                    // waits for the lock on its own account

  datatype Queue<M> = Queue(
    capacity: nat,
    storage: seq<M>,
    head: nat,
    tail: nat,
    spaces: Sem,
    items: Sem,
    lock: Lock,
    pcs: map<Thread, Pc<M>>,
    sent: seq<M>,       // history: messages in the order in which they were stored
    received: seq<M>)   // history: messages in the order in which they were fetched

  /** `os_queue_init`: NULL pointers, empty messages and empty queues are refused, and so is a
      capacity that is negative as an `int32_t`. */
  function Init<M>(storage: Option<seq<M>>, size: Word, capacity: Word): (r: Option<Queue<M>>)
    requires storage.Some? ==> |storage.value| == capacity
  {
    if storage.None? || size == 0 || capacity == 0 || capacity >= 0x8000_0000 then None
    else Some(Queue(capacity, storage.value, 0, 0, Sem(capacity, {}), Sem(0, {}), Lock(None, {}), map[], [], []))
  }

  function PcOf<M>(q: Queue<M>, t: Thread): (pc: Pc<M>) {
    if t in q.pcs then q.pcs[t] else Out(0, None)
  }

  function Goto<M>(q: Queue<M>, t: Thread, pc: Pc<M>): (r: Queue<M>) {
    q.(pcs := q.pcs[t := pc])
  }

  function Permits<M>(q: Queue<M>, sending: bool): (s: Sem) {
    if sending then q.spaces else q.items
  }

  function SetPermits<M>(q: Queue<M>, sending: bool, s: Sem): (r: Queue<M>) {
    if sending then q.(spaces := s) else q.(items := s)
  }

  /** A thread that was waiting goes on with what it waited for. */
  function Resumed<M>(pc: Pc<M>): (r: Pc<M>) {
    match pc
    case AwaitPermit(j) => Permit(j)
    case AwaitLock(j) => Inside(j)
    case AwaitDirect => Out(0, None)
    case _ => pc
  }

  function Resume<M>(q: Queue<M>, heir: Option<Thread>): (r: Queue<M>) {
    if heir.Some? then Goto(q, heir.value, Resumed(PcOf(q, heir.value))) else q
  }

  // ----- steps

  datatype Event<M> =
    | Call(t: Thread, job: Option<Job<M>>)   // None: a NULL argument
    | Take(t: Thread)
    | AcquireLock(t: Thread)
    | Scribble(t: Thread, junk: M)           // the copy into the slot is under way
    | Copy(t: Thread)
    | Bump(t: Thread)
    | Wrap(t: Thread)
    | ReleaseLock(t: Thread, heir: Option<Thread>)
    | Give(t: Thread, heir: Option<Thread>)
    | DirectLock(t: Thread)                  // a thread uses the queue's mutex by itself
    | DirectUnlock(t: Thread, heir: Option<Thread>)

  function Entered<M>(job: Job<M>, nested: bool): (r: Job<M>) {
    if job.Sending? then Sending(job.msg, nested) else Receiving(None, nested)
  }

  ghost predicate Enabled<M>(q: Queue<M>, e: Event<M>) {
    var pc := PcOf(q, e.t);
    match e
    case Call(_, _) => pc.Out?
    case Take(_) => pc.Ask?
    case AcquireLock(_) => pc.Permit?
    case Scribble(_, _) => pc.Inside? && pc.job.Sending?
    case Copy(_) => pc.Inside?
    case Bump(_) => pc.Copied?
    case Wrap(_) => pc.Bumped?
    case ReleaseLock(t, heir) => pc.Leaving? && (q.lock.owner == Some(t) ==> IsHeir(q.lock.waiters, heir))
    case Give(_, heir) =>
      || (pc.Signal? && IsHeir(Permits(q, !pc.job.Sending?).waiters, heir))
      || (pc.Refused? && IsHeir(Permits(q, pc.job.Sending?).waiters, heir))
    case DirectLock(_) => pc.Out?
    case DirectUnlock(t, heir) => pc.Out? && (q.lock.owner == Some(t) ==> IsHeir(q.lock.waiters, heir))
  }

  function TakeStep<M>(q: Queue<M>, t: Thread, job: Job<M>): (r: Queue<M>) {
    var s := Permits(q, job.Sending?);
    Goto(SetPermits(q, job.Sending?, Taken(s, t)), t, if s.count > 0 then Permit(job) else AwaitPermit(job))
  }

  function LockStep<M>(q: Queue<M>, t: Thread, job: Job<M>): (r: Queue<M>) {
    Goto(q.(lock := Locked(q.lock, t)), t,
      if q.lock.owner.None? then Inside(job) else if q.lock.owner == Some(t) then Refused(job) else AwaitLock(job))
  }

  function Store<M>(q: Queue<M>, m: M): (r: Queue<M>) {
    if q.tail < |q.storage| then q.(storage := q.storage[q.tail := m]) else q
  }

  function CopyStep<M>(q: Queue<M>, t: Thread, job: Job<M>): (r: Queue<M>) {
    if job.Sending? then Goto(Store(q, job.msg).(sent := q.sent + [job.msg]), t, Copied(job))
    else if q.head < |q.storage| then
      Goto(q.(received := q.received + [q.storage[q.head]]), t, Copied(job.(got := Some(q.storage[q.head]))))
    else q
  }

  function BumpStep<M>(q: Queue<M>, t: Thread, job: Job<M>): (r: Queue<M>) {
    Goto(if job.Sending? then q.(tail := q.tail + 1) else q.(head := q.head + 1), t, Bumped(job))
  }

  function WrapStep<M>(q: Queue<M>, t: Thread, job: Job<M>): (r: Queue<M>) {
    Goto(if job.Sending? then (if q.tail == q.capacity then q.(tail := 0) else q)
         else if q.head == q.capacity then q.(head := 0) else q, t, Leaving(job))
  }

  function UnlockStep<M>(q: Queue<M>, t: Thread, heir: Option<Thread>, done: Pc<M>): (r: Queue<M>) {
    if q.lock.owner != Some(t) then Goto(q, t, Out(-1, None))
    else Resume(Goto(q.(lock := Released(q.lock, heir)), t, done), heir)
  }

  function GiveStep<M>(q: Queue<M>, t: Thread, heir: Option<Thread>, sending: bool, done: Pc<M>): (r: Queue<M>) {
    Resume(Goto(SetPermits(q, sending, Given(Permits(q, sending), heir)), t, done), heir)
  }

  function GotBy<M>(job: Job<M>): (r: Option<M>) {
    if job.Sending? then None else job.got
  }

  function Next<M>(q: Queue<M>, e: Event<M>): (r: Queue<M>)
    requires Enabled(q, e)
  {
    var pc := PcOf(q, e.t);
    match e
    case Call(t, job) =>
      Goto(q, t, if job.None? then Out(-1, None) else Ask(Entered(job.value, q.lock.owner == Some(t))))
    case Take(t) => TakeStep(q, t, pc.job)
    case AcquireLock(t) => LockStep(q, t, pc.job)
    case Scribble(_, junk) => Store(q, junk)
    case Copy(t) => CopyStep(q, t, pc.job)
    case Bump(t) => BumpStep(q, t, pc.job)
    case Wrap(t) => WrapStep(q, t, pc.job)
    case ReleaseLock(t, heir) => UnlockStep(q, t, heir, Signal(pc.job))
    case Give(t, heir) =>
      if pc.Signal? then GiveStep(q, t, heir, !pc.job.Sending?, Out(0, GotBy(pc.job)))
      else GiveStep(q, t, heir, pc.job.Sending?, Out(-1, None))
    case DirectLock(t) =>
      Goto(q.(lock := Locked(q.lock, t)), t,
        if q.lock.owner.None? then Out(0, None) else if q.lock.owner == Some(t) then Out(-1, None) else AwaitDirect)
    case DirectUnlock(t, heir) => UnlockStep(q, t, heir, Out(0, None))
  }
}
