/** What the calls of the blocking queue return, over all runs. */
module QueueResults {
  import opened Base
  import Ring
  import opened BlockingQueue
  import opened QueueRuns

  /** What a thread has asked for last. */
  datatype Request<M> = Send(msg: M) | Receive | NullArgument | LockOnly | UnlockOnly

  /** The last call of a thread: whether the thread owned the lock when it made it, and the message
      that its own copy has put into the queue, or fetched from it, since. */
  datatype Entry<M> = Entry(request: Request<M>, owned: bool, moved: Option<M>)

  /** The message that a copy by `t` moves: the one it sends, or the oldest one stored. */
  ghost function Moves<M>(q: Queue<M>, request: Request<M>): (m: Option<M>) {
    if request.Send? then Some(request.msg) else if Buffer(q) != [] then Some(Buffer(q)[0]) else None
  }

  /** The calls made, and what they have moved, after a step. */
  ghost function LogAfter<M>(log: map<Thread, Entry<M>>, q: Queue<M>, e: Event<M>): (r: map<Thread, Entry<M>>) {
    var owned := q.lock.owner == Some(e.t);
    match e
    case Call(t, job) =>
      log[t := Entry(if job.None? then NullArgument else if job.value.Sending? then Send(job.value.msg) else Receive, owned, None)]
    case DirectLock(t) => log[t := Entry(LockOnly, owned, None)]
    case DirectUnlock(t, _) => log[t := Entry(UnlockOnly, owned, None)]
    case Copy(t) => if t in log then log[t := log[t].(moved := Moves(q, log[t].request))] else log
    case _ => log
  }

  ghost function LogOver<M>(log: map<Thread, Entry<M>>, q: Queue<M>, es: seq<Event<M>>): (r: map<Thread, Entry<M>>)
    requires Legal(q, es)
    decreases |es|
  {
    if es == [] then log else LogOver(LogAfter(log, q, es[0]), Next(q, es[0]), es[1..])
  }

  /** What a call whose entry is `a` returns: `rc`, and the message fetched. */
  ghost predicate Answers<M>(a: Entry<M>, rc: int, got: Option<M>) {
    match a.request
    case Send(m) => (rc == if a.owned then -1 else 0) && got.None? && a.moved == if a.owned then None else Some(m)
    case Receive => (rc == if a.owned then -1 else 0) && got == a.moved && (a.moved.Some? <==> !a.owned)
    case NullArgument => rc == -1 && got.None? && a.moved.None?
    case LockOnly => (rc == if a.owned then -1 else 0) && got.None? && a.moved.None?
    case UnlockOnly => (rc == if a.owned then 0 else -1) && got.None? && a.moved.None?
  }

  /** A thread inside a routine does what it has asked for. */
  ghost predicate Serves<M>(a: Entry<M>, job: Job<M>) {
    && a.owned == job.nested
    && (if job.Sending? then a.request == Send(job.msg) else a.request == Receive)
  }

  /** What has been moved agrees with how far the thread has come. */
  ghost predicate EntryOk<M>(pc: Pc<M>, a: Entry<M>) {
    match pc
    case Out(rc, got) => Answers(a, rc, got)
    case AwaitDirect => a == Entry(LockOnly, false, None)
    case Copied(job) => Serves(a, job) && a.moved == if job.Sending? then Some(job.msg) else job.got
    case Bumped(job) => Serves(a, job) && a.moved == if job.Sending? then Some(job.msg) else job.got
    case Leaving(job) => Serves(a, job) && a.moved == if job.Sending? then Some(job.msg) else job.got
    case Signal(job) => Serves(a, job) && a.moved == if job.Sending? then Some(job.msg) else job.got
    case _ => Serves(a, pc.job) && a.moved.None?
  }

  /** The receiver that has copied has a message. */
  predicate Fetched<M>(pc: Pc<M>) {
    (pc.Copied? || pc.Bumped? || pc.Leaving? || pc.Signal?) && pc.job.Receiving? ==> pc.job.got.Some?
  }

  /** A thread that has made no call is where it started. */
  ghost predicate ThreadLogged<M>(pc: Pc<M>, log: map<Thread, Entry<M>>, t: Thread) {
    if t in log then EntryOk(pc, log[t]) && Fetched(pc) else pc == Out(0, None)
  }

  ghost predicate LogOk<M>(q: Queue<M>, log: map<Thread, Entry<M>>) {
    forall t: Thread :: ThreadLogged(PcOf(q, t), log, t)
  }

  /** A thread that is handed something goes on with its call. */
  lemma ResumedOk<M>(pc: Pc<M>, a: Entry<M>)
    requires EntryOk(pc, a) && Fetched(pc)
    ensures EntryOk(Resumed(pc), a) && Fetched(Resumed(pc))
  {
  }

  /** Everybody but the thread that takes the step stays put, or is handed what it waits for. */
  lemma OthersMove<M>(q: Queue<M>, e: Event<M>, t: Thread)
    requires Enabled(q, e) && t != e.t
    ensures PcOf(Next(q, e), t) == PcOf(q, t) || PcOf(Next(q, e), t) == Resumed(PcOf(q, t))
  {
  }

  /** The copy of a receiver fetches the oldest message stored. */
  lemma FetchesOldest<M>(q: Queue<M>, t: Thread)
    requires Inv(q) && PcOf(q, t).Inside? && PcOf(q, t).job.Receiving?
    ensures Buffer(q) != [] && PcOf(CopyStep(q, t, PcOf(q, t).job), t) == Copied(PcOf(q, t).job.(got := Some(Buffer(q)[0])))
  {
    hide PermitsOk, ThreadsOk;
    OwnsInside(q, t);
    Room(q, t);
    assert q.head == Ring.Slot(|q.received|, q.capacity) by { HolderIs(q, t); }
    FetchNext(q.storage, q.sent, q.received);
  }

  lemma HolderIs<M>(q: Queue<M>, t: Thread)
    requires ContentOk(q) && q.lock.owner == Some(t) && PcOf(q, t).Inside?
    ensures q.head == Ring.Slot(|q.received|, q.capacity)
  {
  }

  /** A thread that gives up a lock or a permit does not hand it to itself. */
  lemma HandOk<M>(q: Queue<M>, e: Event<M>, log: map<Thread, Entry<M>>)
    requires Enabled(q, e) && (e.ReleaseLock? || e.Give? || e.DirectUnlock?) && ThreadLogged(PcOf(q, e.t), log, e.t)
    requires ThreadOk(q.lock, q.spaces, q.items, e.t, PcOf(q, e.t))
    ensures ThreadLogged(PcOf(Next(q, e), e.t), LogAfter(log, q, e), e.t)
  {
  }

  lemma OwnOk<M>(q: Queue<M>, e: Event<M>, log: map<Thread, Entry<M>>)
    requires Enabled(q, e) && !(e.ReleaseLock? || e.Give? || e.DirectUnlock? || e.Copy?) && ThreadLogged(PcOf(q, e.t), log, e.t)
    requires ThreadOk(q.lock, q.spaces, q.items, e.t, PcOf(q, e.t))
    ensures ThreadLogged(PcOf(Next(q, e), e.t), LogAfter(log, q, e), e.t)
  {
  }

  /** The thread that takes the step. */
  lemma MoverOk<M>(q: Queue<M>, e: Event<M>, log: map<Thread, Entry<M>>)
    requires Inv(q) && Enabled(q, e) && LogOk(q, log)
    ensures ThreadLogged(PcOf(Next(q, e), e.t), LogAfter(log, q, e), e.t)
  {
    hide PermitsOk, ContentOk, Buffer, ThreadOk, EntryOk, Fetched, Next;
    assert ThreadOk(q.lock, q.spaces, q.items, e.t, PcOf(q, e.t));
    assert ThreadLogged(PcOf(q, e.t), log, e.t);
    if e.Copy? {
      CopierLogged(q, e.t, log);
      CopyOk(q, e.t, log);
      CopyNext(q, e.t);
    } else if e.ReleaseLock? || e.Give? || e.DirectUnlock? {
      HandOk(q, e, log);
    } else {
      OwnOk(q, e, log);
    }
  }

  lemma CopierLogged<M>(q: Queue<M>, t: Thread, log: map<Thread, Entry<M>>)
    requires PcOf(q, t).Inside? && ThreadLogged(PcOf(q, t), log, t)
    ensures t in log
  {
  }

  lemma CopyNext<M>(q: Queue<M>, t: Thread)
    requires PcOf(q, t).Inside?
    ensures Next(q, Copy(t)) == CopyStep(q, t, PcOf(q, t).job)
  {
  }

  lemma CopyOk<M>(q: Queue<M>, t: Thread, log: map<Thread, Entry<M>>)
    requires Inv(q) && PcOf(q, t).Inside? && t in log && EntryOk(PcOf(q, t), log[t])
    ensures var pc := PcOf(CopyStep(q, t, PcOf(q, t).job), t);
      EntryOk(pc, log[t].(moved := Moves(q, log[t].request))) && Fetched(pc)
  {
    hide Inv, Buffer;
    if PcOf(q, t).job.Receiving? {
      FetchesOldest(q, t);
    }
  }

  lemma StepOk<M>(q: Queue<M>, e: Event<M>, log: map<Thread, Entry<M>>)
    requires Inv(q) && Enabled(q, e) && LogOk(q, log)
    ensures LogOk(Next(q, e), LogAfter(log, q, e))
  {
    var r, log' := Next(q, e), LogAfter(log, q, e);
    MoverOk(q, e, log);
    hide Inv, Next, EntryOk, Fetched, Enabled, Moves;
    forall t: Thread | t != e.t
      ensures ThreadLogged(PcOf(r, t), log', t)
    {
      OthersMove(q, e, t);
      assert ThreadLogged(PcOf(q, t), log, t);
      assert (t in log' <==> t in log) && (t in log ==> log'[t] == log[t]);
      if t in log {
        ResumedOk(PcOf(q, t), log[t]);
      }
    }
  }

  lemma {:induction false} RunOk<M>(q: Queue<M>, es: seq<Event<M>>, log: map<Thread, Entry<M>>)
    requires Inv(q) && Legal(q, es) && LogOk(q, log)
    ensures LogOk(Run(q, es), LogOver(log, q, es))
    decreases |es|
  {
    hide Inv, Enabled, Next, LogOk, LogAfter;
    if es != [] {
      InvStep(q, es[0]);
      StepOk(q, es[0], log);
      RunOk(Next(q, es[0]), es[1..], LogAfter(log, q, es[0]));
    }
  }

  /** A thread that is outside the routines has had the answer its last call deserves.  A send or
      receive has returned 0, and its own copy has moved its message, exactly if the thread did not own
      the lock when it called; a receiver has got the message that its copy fetched.  Otherwise, and for
      a NULL argument, the call has returned -1 and moved nothing. */
  ghost predicate Answered<M>(log: map<Thread, Entry<M>>, t: Thread, pc: Pc<M>) {
    && (t in log && pc.Out? ==>
          && (pc.rc == 0 || pc.rc == -1)
          && (log[t].request.Send? || log[t].request.Receive? || log[t].request.NullArgument? ==>
                && (pc.rc == 0 <==> log[t].moved.Some?)
                && (pc.rc == -1 <==> log[t].request.NullArgument? || log[t].owned))
          && (log[t].request.Send? && pc.rc == 0 ==> log[t].moved == Some(log[t].request.msg))
          && pc.got == (if log[t].request.Receive? then log[t].moved else None)
          && (log[t].request.LockOnly? ==> (pc.rc == -1 <==> log[t].owned))
          && (log[t].request.UnlockOnly? ==> (pc.rc == 0 <==> log[t].owned)))
    && (t !in log ==> pc == Out(0, None))
  }

  /** What calls return, over every run. */
  lemma CallsAnswered<M>(storage: seq<M>, size: Word, n: Word, es: seq<Event<M>>, q: Queue<M>, t: Thread)
    requires Reached(storage, size, n, es, q)
    ensures Answered(LogOver(map[], Init(Some(storage), size, n).value, es), t, PcOf(q, t))
  {
    hide Reached, Inv, Legal, Run, LogOver;
    ReachedRun(storage, size, n, es, q);
    InitInv(storage, size, n);
    RunOk(Init(Some(storage), size, n).value, es, map[]);
    assert ThreadLogged(PcOf(q, t), LogOver(map[], Init(Some(storage), size, n).value, es), t);
  }

  lemma ReachedRun<M>(storage: seq<M>, size: Word, n: Word, es: seq<Event<M>>, q: Queue<M>)
    requires Reached(storage, size, n, es, q)
    ensures |storage| == n && Init(Some(storage), size, n).Some?
    ensures Legal(Init(Some(storage), size, n).value, es) && q == Run(Init(Some(storage), size, n).value, es)
  {
  }

  /** What a copy moves is what it does to the buffer. */
  lemma MovesIsEffect<M>(storage: seq<M>, size: Word, n: Word, es: seq<Event<M>>, q: Queue<M>, t: Thread)
    requires Reached(storage, size, n, es, q) && PcOf(q, t).Inside?
    ensures var log := LogOver(map[], Init(Some(storage), size, n).value, es);
      && t in log && log[t].moved.None? && (log[t].request.Send? || log[t].request.Receive?)
      && Moves(q, log[t].request).Some?
      && Effect(q, Copy(t)) == (if log[t].request.Send? then Put(Moves(q, log[t].request).value) else Get(Moves(q, log[t].request).value))
  {
    hide Reached, Inv, Legal, Run, LogOver, Buffer, CopyStep;
    ReachedInv(storage, size, n, es, q);
    ReachedRun(storage, size, n, es, q);
    InitInv(storage, size, n);
    RunOk(Init(Some(storage), size, n).value, es, map[]);
    assert ThreadLogged(PcOf(q, t), LogOver(map[], Init(Some(storage), size, n).value, es), t);
    if PcOf(q, t).job.Receiving? {
      FetchesOldest(q, t);
    }
  }
}
