/** What every run of the blocking queue keeps: permits are conserved, the lock protects the
    indices, and messages come out in the order in which they went in. */
module QueueRuns {
  import opened Base
  import opened Ring
  import opened BlockingQueue

  // ----- who is where

  /** `t`'s position agrees with the lock and the wait sets. */
  ghost predicate ThreadOk<M>(lock: Lock, spaces: Sem, items: Sem, t: Thread, pc: Pc<M>) {
    var owns := lock.owner == Some(t);
    && (t in lock.waiters <==> pc.AwaitLock? || pc.AwaitDirect?)
    && (t in spaces.waiters <==> pc.AwaitPermit? && pc.job.Sending?)
    && (t in items.waiters <==> pc.AwaitPermit? && !pc.job.Sending?)
    && (pc.AwaitDirect? || pc.AwaitLock? || pc.Signal? ==> !owns)
    && (Holds(pc) ==> owns)
    && (pc.Ask? || pc.AwaitPermit? || pc.Permit? || pc.Refused? ==> (pc.job.nested <==> owns))
    && (Holds(pc) || pc.AwaitLock? || pc.Signal? ==> !pc.job.nested)
    && (pc.Refused? ==> pc.job.nested)
  }

  /** Between a successful lock and its unlock. */
  predicate Holds<M>(pc: Pc<M>) {
    pc.Inside? || pc.Copied? || pc.Bumped? || pc.Leaving?
  }

  ghost predicate ThreadsOk<M>(q: Queue<M>) {
    && (forall t: Thread :: ThreadOk(q.lock, q.spaces, q.items, t, PcOf(q, t)))
    && (q.lock.waiters != {} ==> q.lock.owner.Some?)
    && (q.spaces.count > 0 ==> q.spaces.waiters == {}) && (q.items.count > 0 ==> q.items.waiters == {})
  }

  /** `t` moves on by itself. */
  lemma ThreadsGoto<M>(q: Queue<M>, r: Queue<M>, t: Thread, pc: Pc<M>)
    requires ThreadsOk(q) && ThreadOk(q.lock, q.spaces, q.items, t, pc)
    requires r.pcs == q.pcs[t := pc] && r.lock == q.lock && r.spaces == q.spaces && r.items == q.items
    ensures ThreadsOk(r)
  {
    hide ThreadOk;
    forall x: Thread
      ensures ThreadOk(r.lock, r.spaces, r.items, x, PcOf(r, x))
    {
      assert ThreadOk(q.lock, q.spaces, q.items, x, PcOf(q, x));
    }
  }

  lemma ThreadsTake<M>(q: Queue<M>, t: Thread)
    requires ThreadsOk(q) && PcOf(q, t).Ask?
    ensures ThreadsOk(TakeStep(q, t, PcOf(q, t).job))
  {
    var r := TakeStep(q, t, PcOf(q, t).job);
    forall x: Thread
      ensures ThreadOk(r.lock, r.spaces, r.items, x, PcOf(r, x))
    {
      assert ThreadOk(q.lock, q.spaces, q.items, x, PcOf(q, x));
      assert x != t ==> PcOf(r, x) == PcOf(q, x);
    }
  }

  /** `t` asks for the lock and ends up with it, refused, or waiting. */
  lemma ThreadsLock<M>(q: Queue<M>, t: Thread, pc: Pc<M>)
    requires ThreadsOk(q) && ThreadOk(Locked(q.lock, t), q.spaces, q.items, t, pc)
    ensures ThreadsOk(Goto(q.(lock := Locked(q.lock, t)), t, pc))
  {
    var r := Goto(q.(lock := Locked(q.lock, t)), t, pc);
    forall x: Thread
      ensures ThreadOk(r.lock, r.spaces, r.items, x, PcOf(r, x))
    {
      assert ThreadOk(q.lock, q.spaces, q.items, x, PcOf(q, x));
      assert x != t ==> PcOf(r, x) == PcOf(q, x);
    }
  }

  lemma ThreadsUnlock<M>(q: Queue<M>, t: Thread, heir: Option<Thread>, done: Pc<M>)
    requires ThreadsOk(q) && q.lock.owner == Some(t) && IsHeir(q.lock.waiters, heir)
    requires done.Out? || (done.Signal? && !done.job.nested)
    requires PcOf(q, t).Out? || PcOf(q, t).Leaving?
    ensures ThreadsOk(UnlockStep(q, t, heir, done))
  {
    var r := UnlockStep(q, t, heir, done);
    assert ThreadOk(q.lock, q.spaces, q.items, t, PcOf(q, t));
    assert heir != Some(t);
    forall x: Thread
      ensures ThreadOk(r.lock, r.spaces, r.items, x, PcOf(r, x))
    {
      assert ThreadOk(q.lock, q.spaces, q.items, x, PcOf(q, x));
      assert x != t && heir != Some(x) ==> PcOf(r, x) == PcOf(q, x);
    }
  }

  lemma ThreadsGive<M>(q: Queue<M>, t: Thread, heir: Option<Thread>, sending: bool, done: Pc<M>)
    requires ThreadsOk(q) && IsHeir(Permits(q, sending).waiters, heir)
    requires done.Out? && (PcOf(q, t).Signal? || PcOf(q, t).Refused?)
    ensures ThreadsOk(GiveStep(q, t, heir, sending, done))
  {
    var r := GiveStep(q, t, heir, sending, done);
    assert ThreadOk(q.lock, q.spaces, q.items, t, PcOf(q, t));
    assert heir != Some(t);
    forall x: Thread
      ensures ThreadOk(r.lock, r.spaces, r.items, x, PcOf(r, x))
    {
      assert ThreadOk(q.lock, q.spaces, q.items, x, PcOf(q, x));
      assert x != t && heir != Some(x) ==> PcOf(r, x) == PcOf(q, x);
    }
  }

  lemma ThreadsStep<M>(q: Queue<M>, e: Event<M>)
    requires ThreadsOk(q) && Enabled(q, e)
    ensures ThreadsOk(Next(q, e))
  {
    var pc, r := PcOf(q, e.t), Next(q, e);
    assert ThreadOk(q.lock, q.spaces, q.items, e.t, pc);
    match e
    case Take(t) => ThreadsTake(q, t);
    case AcquireLock(t) => ThreadsLock(q, t, PcOf(r, t));
    case DirectLock(t) => ThreadsLock(q, t, PcOf(r, t));
    case ReleaseLock(t, heir) => ThreadsUnlock(q, t, heir, Signal(pc.job));
    case Give(t, heir) =>
      ThreadsGive(q, t, heir, if pc.Signal? then !pc.job.Sending? else pc.job.Sending?,
        if pc.Signal? then Out(0, GotBy(pc.job)) else Out(-1, None));
    case DirectUnlock(t, heir) =>
      if q.lock.owner == Some(t) { ThreadsUnlock(q, t, heir, Out(0, None)); } else { ThreadsGoto(q, r, t, PcOf(r, t)); }
    case _ => ThreadsGoto(q, r, e.t, PcOf(r, e.t));
  }

  // ----- permits

  /** Whether a thread holds a permit it has not used, or has used one and not yet signalled. */
  datatype Phase = Elsewhere | Pending(sending: bool) | Used(sending: bool)

  function PhaseOf<M>(pc: Pc<M>): (ph: Phase) {
    if pc.Permit? || pc.AwaitLock? || pc.Inside? || pc.Refused? then Pending(pc.job.Sending?)
    else if pc.Copied? || pc.Bumped? || pc.Leaving? || pc.Signal? then Used(pc.job.Sending?)
    else Elsewhere
  }

  ghost function Members<M>(pcs: map<Thread, Pc<M>>, ph: Phase): (r: set<Thread>) {
    set t | t in pcs && PhaseOf(pcs[t]) == ph
  }

  ghost function Count<M>(pcs: map<Thread, Pc<M>>, ph: Phase): (n: nat) {
    |Members(pcs, ph)|
  }

  /** 1 if `pc` is in phase `ph`, else 0. */
  function In<M>(pc: Pc<M>, ph: Phase): (n: nat) {
    if PhaseOf(pc) == ph then 1 else 0
  }

  lemma MembersGoto<M>(pcs: map<Thread, Pc<M>>, t: Thread, pc: Pc<M>, ph: Phase)
    ensures Members(pcs[t := pc], ph) == Members(pcs, ph) - {t} + (if PhaseOf(pc) == ph then {t} else {})
  {
  }

  lemma CountGoto<M>(q: Queue<M>, t: Thread, pc: Pc<M>, ph: Phase)
    requires ph != Elsewhere
    ensures Count(q.pcs[t := pc], ph) == Count(q.pcs, ph) - In(PcOf(q, t), ph) + In(pc, ph)
  {
    MembersGoto(q.pcs, t, pc, ph);
    assert PhaseOf(PcOf(q, t)) == ph <==> t in Members(q.pcs, ph);
    hide Members, PhaseOf;
  }

  /** Permit conservation, kernel/queue.c:36-60 and 71-95. */
  ghost predicate PermitsOk<M>(q: Queue<M>) {
    var stored := |q.sent| - |q.received|;
    && q.spaces.count >= 0 && q.items.count >= 0
    && q.spaces.count + Count(q.pcs, Pending(true)) + stored + Count(q.pcs, Used(false)) == q.capacity
    && q.items.count + Count(q.pcs, Used(true)) + Count(q.pcs, Pending(false)) == stored
  }

  lemma PermitsGoto<M>(q: Queue<M>, r: Queue<M>, t: Thread, pc: Pc<M>)
    requires PermitsOk(q) && r.pcs == q.pcs[t := pc] && r.capacity == q.capacity
    requires r.spaces.count >= 0 && r.items.count >= 0
    requires r.spaces.count + In(pc, Pending(true)) + |r.sent| - |r.received| + In(pc, Used(false))
      == q.spaces.count + In(PcOf(q, t), Pending(true)) + |q.sent| - |q.received| + In(PcOf(q, t), Used(false))
    requires r.items.count + In(pc, Used(true)) + In(pc, Pending(false)) - |r.sent| + |r.received|
      == q.items.count + In(PcOf(q, t), Used(true)) + In(PcOf(q, t), Pending(false)) - |q.sent| + |q.received|
    ensures PermitsOk(r)
  {
    hide Count;
    CountGoto(q, t, pc, Pending(true));
    CountGoto(q, t, pc, Pending(false));
    CountGoto(q, t, pc, Used(true));
    CountGoto(q, t, pc, Used(false));
  }

  /** Handing a permit over: the giver's move and the heir's move cancel out. */
  lemma PermitsGive<M>(q: Queue<M>, t: Thread, heir: Option<Thread>, sending: bool, done: Pc<M>)
    requires PermitsOk(q) && ThreadsOk(q) && IsHeir(Permits(q, sending).waiters, heir) && done.Out?
    requires var pc := PcOf(q, t); (pc.Signal? && pc.job.Sending? != sending) || (pc.Refused? && pc.job.Sending? == sending)
    ensures PermitsOk(GiveStep(q, t, heir, sending, done))
  {
    hide Count;
    assert ThreadOk(q.lock, q.spaces, q.items, t, PcOf(q, t));
    var a := Goto(SetPermits(q, sending, Permits(q, sending).(count := Permits(q, sending).count + 1)), t, done);
    PermitsGoto(q, a, t, done);
    var r := GiveStep(q, t, heir, sending, done);
    if heir.Some? {
      assert ThreadOk(q.lock, q.spaces, q.items, heir.value, PcOf(q, heir.value));
      PermitsGoto(a, r, heir.value, PcOf(r, heir.value));
    }
  }

  lemma PermitsUnlock<M>(q: Queue<M>, t: Thread, heir: Option<Thread>, done: Pc<M>)
    requires PermitsOk(q) && ThreadsOk(q) && q.lock.owner == Some(t) && IsHeir(q.lock.waiters, heir)
    requires PhaseOf(PcOf(q, t)) == PhaseOf(done)
    ensures PermitsOk(UnlockStep(q, t, heir, done))
  {
    hide Count;
    assert ThreadOk(q.lock, q.spaces, q.items, t, PcOf(q, t));
    var a := Goto(q, t, done);
    PermitsGoto(q, a, t, done);
    var r := UnlockStep(q, t, heir, done);
    if heir.Some? {
      assert ThreadOk(q.lock, q.spaces, q.items, heir.value, PcOf(q, heir.value));
      PermitsGoto(a, r, heir.value, PcOf(r, heir.value));
    }
  }

  /** `t` moves on within its phase. */
  lemma PermitsSame<M>(q: Queue<M>, r: Queue<M>, t: Thread, pc: Pc<M>)
    requires PermitsOk(q) && r.pcs == q.pcs[t := pc] && PhaseOf(pc) == PhaseOf(PcOf(q, t))
    requires r.capacity == q.capacity && r.sent == q.sent && r.received == q.received
    requires r.spaces == q.spaces && r.items == q.items
    ensures PermitsOk(r)
  {
    hide Count, PhaseOf;
    PermitsGoto(q, r, t, pc);
  }

  /** Steps in which only one thread moves. */
  lemma PermitsMove<M>(q: Queue<M>, e: Event<M>)
    requires PermitsOk(q) && ThreadsOk(q) && Enabled(q, e) && !e.ReleaseLock? && !e.Give? && !e.DirectUnlock?
    requires q.head < |q.storage| || !e.Copy?
    ensures PermitsOk(Next(q, e))
  {
    hide Count, ThreadsOk;
    var r := Next(q, e);
    if e.Take? || e.Copy? {
      PermitsGoto(q, r, e.t, PcOf(r, e.t));
    } else {
      PermitsSame(q, r, e.t, PcOf(r, e.t));
    }
  }

  lemma PermitsStep<M>(q: Queue<M>, e: Event<M>)
    requires PermitsOk(q) && ThreadsOk(q) && Enabled(q, e)
    requires q.head < |q.storage| || !e.Copy?
    ensures PermitsOk(Next(q, e))
  {
    hide Count;
    var pc, r := PcOf(q, e.t), Next(q, e);
    assert ThreadOk(q.lock, q.spaces, q.items, e.t, pc);
    match e
    case ReleaseLock(t, heir) => PermitsUnlock(q, t, heir, Signal(pc.job));
    case Give(t, heir) =>
      PermitsGive(q, t, heir, if pc.Signal? then !pc.job.Sending? else pc.job.Sending?,
        if pc.Signal? then Out(0, GotBy(pc.job)) else Out(-1, None));
    case DirectUnlock(t, heir) =>
      if q.lock.owner == Some(t) { PermitsUnlock(q, t, heir, Out(0, None)); } else { PermitsSame(q, r, t, PcOf(r, t)); }
    case _ => PermitsMove(q, e);
  }

  // ----- indices and contents

  function Holder<M>(q: Queue<M>): (pc: Pc<M>) {
    if q.lock.owner.Some? then PcOf(q, q.lock.owner.value) else Out(0, None)
  }

  /** How far the holder's index lags behind its copy: 1 after copying, 2 before wrapping. */
  function Lag<M>(pc: Pc<M>, sending: bool): (n: nat) {
    if pc.Copied? && pc.job.Sending? == sending then 1
    else if pc.Bumped? && pc.job.Sending? == sending then 2 else 0
  }

  /** `index` stands for position `n` of the message history. */
  ghost predicate Points(index: nat, n: nat, capacity: nat, lag: nat)
    requires capacity > 0
  {
    if lag == 0 then index == Slot(n, capacity)
    else n > 0 && index == Slot(n - 1, capacity) + (if lag == 1 then 0 else 1)
  }

  /** The unread slots hold the messages sent and not received, in order. */
  ghost predicate Holding<M>(storage: seq<M>, sent: seq<M>, received: seq<M>)
    requires |storage| > 0
  {
    && |received| <= |sent| && received == sent[..|received|]
    && forall i {:trigger sent[i]} :: |received| <= i < |sent| ==> storage[Slot(i, |storage|)] == sent[i]
  }

  ghost predicate ContentOk<M>(q: Queue<M>) {
    && |q.storage| == q.capacity > 0 && Holding(q.storage, q.sent, q.received)
    && Points(q.tail, |q.sent|, q.capacity, Lag(Holder(q), true))
    && Points(q.head, |q.received|, q.capacity, Lag(Holder(q), false))
  }

  lemma StoreNext<M>(storage: seq<M>, sent: seq<M>, received: seq<M>, m: M)
    requires |storage| > 0 && Holding(storage, sent, received) && |sent| - |received| < |storage|
    ensures Holding(storage[Slot(|sent|, |storage|) := m], sent + [m], received)
    ensures Holding(storage[Slot(|sent|, |storage|) := m], sent, received)
  {
    forall i | |received| <= i < |sent|
      ensures Slot(i, |storage|) != Slot(|sent|, |storage|)
    {
      SlotsDiffer(i, |sent|, |storage|);
    }
  }

  lemma FetchNext<M>(storage: seq<M>, sent: seq<M>, received: seq<M>)
    requires |storage| > 0 && Holding(storage, sent, received) && |received| < |sent|
    ensures storage[Slot(|received|, |storage|)] == sent[|received|]
    ensures Holding(storage, sent, received + [sent[|received|]])
  {
    hide Slot;
    var k := |received|;
    assert storage[Slot(k, |storage|)] == sent[k];
    OneMore(sent, k);
  }

  lemma OneMore<M>(s: seq<M>, k: nat)
    requires k < |s|
    ensures s[..k] + [s[k]] == s[..k + 1] && s[k..][0] == s[k] && s[k..][1..] == s[k + 1..]
  {
  }

  /** A thread that has a permit and the lock finds room, or a message. */
  lemma Room<M>(q: Queue<M>, t: Thread)
    requires PermitsOk(q) && PcOf(q, t).Inside?
    ensures PcOf(q, t).job.Sending? ==> |q.sent| - |q.received| < q.capacity
    ensures !PcOf(q, t).job.Sending? ==> |q.received| < |q.sent|
  {
    var ph := PhaseOf(PcOf(q, t));
    assert t in Members(q.pcs, ph);
  }

  lemma ContentCopy<M>(q: Queue<M>, t: Thread)
    requires ContentOk(q) && PermitsOk(q) && ThreadsOk(q) && PcOf(q, t).Inside?
    ensures ContentOk(CopyStep(q, t, PcOf(q, t).job))
    ensures forall m :: PcOf(q, t).job.Sending? ==> ContentOk(Store(q, m))
  {
    hide PermitsOk, Holding;
    Room(q, t);
    assert ThreadOk(q.lock, q.spaces, q.items, t, PcOf(q, t));
    hide ThreadOk, ThreadsOk;
    if PcOf(q, t).job.Sending? {
      forall m
        ensures ContentOk(Store(q, m))
      {
        StoreNext(q.storage, q.sent, q.received, m);
      }
      StoreNext(q.storage, q.sent, q.received, PcOf(q, t).job.msg);
    } else {
      FetchNext(q.storage, q.sent, q.received);
    }
  }

  lemma ContentIndex<M>(q: Queue<M>, t: Thread)
    requires ContentOk(q) && q.lock.owner == Some(t)
    ensures PcOf(q, t).Copied? ==> ContentOk(BumpStep(q, t, PcOf(q, t).job))
    ensures PcOf(q, t).Bumped? ==> ContentOk(WrapStep(q, t, PcOf(q, t).job))
  {
    hide Holding;
    var pc := PcOf(q, t);
    if pc.Bumped? {
      NextSlot((if pc.job.Sending? then |q.sent| else |q.received|) - 1, q.capacity);
    }
  }

  /** The holder's position has not moved, so neither indices nor contents are due to change. */
  lemma ContentKept<M>(q: Queue<M>, r: Queue<M>)
    requires ContentOk(q) && r.capacity == q.capacity && r.storage == q.storage && r.sent == q.sent && r.received == q.received
    requires r.head == q.head && r.tail == q.tail
    requires Lag(Holder(r), true) == Lag(Holder(q), true) && Lag(Holder(r), false) == Lag(Holder(q), false)
    ensures ContentOk(r)
  {
    hide Holding, Points, Lag, Holder;
  }

  /** Steps in which only one thread moves. */
  lemma ContentMove<M>(q: Queue<M>, e: Event<M>)
    requires ContentOk(q) && ThreadsOk(q) && Enabled(q, e)
    requires e.Call? || e.Take? || e.AcquireLock? || e.DirectLock?
    ensures ContentOk(Next(q, e))
  {
    hide ContentOk;
    assert ThreadOk(q.lock, q.spaces, q.items, e.t, PcOf(q, e.t));
    if q.lock.owner.Some? {
      assert ThreadOk(q.lock, q.spaces, q.items, q.lock.owner.value, PcOf(q, q.lock.owner.value));
    }
    hide ThreadsOk;
    ContentKept(q, Next(q, e));
  }

  /** Steps that may hand something over. */
  lemma ContentHand<M>(q: Queue<M>, e: Event<M>)
    requires ContentOk(q) && ThreadsOk(q) && Enabled(q, e)
    requires e.ReleaseLock? || e.Give? || e.DirectUnlock?
    ensures ContentOk(Next(q, e))
  {
    hide ContentOk;
    assert ThreadOk(q.lock, q.spaces, q.items, e.t, PcOf(q, e.t));
    if q.lock.owner.Some? {
      assert ThreadOk(q.lock, q.spaces, q.items, q.lock.owner.value, PcOf(q, q.lock.owner.value));
    }
    if e.heir.Some? {
      assert ThreadOk(q.lock, q.spaces, q.items, e.heir.value, PcOf(q, e.heir.value));
    }
    hide ThreadsOk;
    ContentKept(q, Next(q, e));
  }

  ghost predicate Inv<M>(q: Queue<M>) {
    ThreadsOk(q) && PermitsOk(q) && ContentOk(q)
  }

  lemma InvStep<M>(q: Queue<M>, e: Event<M>)
    requires Inv(q) && Enabled(q, e)
    ensures Inv(Next(q, e))
  {
    hide ThreadsOk, PermitsOk;
    ThreadsStep(q, e);
    if e.Copy? || e.Scribble? || e.Bump? || e.Wrap? {
      OwnsInside(q, e.t);
      if e.Copy? || e.Scribble? { ContentCopy(q, e.t); } else { ContentIndex(q, e.t); }
    } else {
      if e.ReleaseLock? || e.Give? || e.DirectUnlock? { ContentHand(q, e); } else { ContentMove(q, e); }
    }
    PermitsStep(q, e);
  }

  lemma OwnsInside<M>(q: Queue<M>, t: Thread)
    requires Inv(q) && Holds(PcOf(q, t))
    ensures q.lock.owner == Some(t)
    ensures PcOf(q, t).Inside? ==> q.head < |q.storage| && q.tail < |q.storage|
  {
  }

  // ----- runs

  ghost predicate Legal<M>(q: Queue<M>, es: seq<Event<M>>)
    decreases |es|
  {
    es == [] || (Enabled(q, es[0]) && Legal(Next(q, es[0]), es[1..]))
  }

  ghost function Run<M>(q: Queue<M>, es: seq<Event<M>>): (r: Queue<M>)
    requires Legal(q, es)
    decreases |es|
  {
    if es == [] then q else Run(Next(q, es[0]), es[1..])
  }

  lemma {:induction false} RunInv<M>(q: Queue<M>, es: seq<Event<M>>)
    requires Inv(q) && Legal(q, es)
    ensures Inv(Run(q, es))
    decreases |es|
  {
    hide Inv, Enabled, Next;
    if es != [] {
      InvStep(q, es[0]);
      RunInv(Next(q, es[0]), es[1..]);
    }
  }

  /** `q` is reached from a queue initialised with capacity `n` by the interleaving `es`. */
  ghost predicate Reached<M>(storage: seq<M>, size: Word, n: Word, es: seq<Event<M>>, q: Queue<M>) {
    && |storage| == n && Init(Some(storage), size, n).Some?
    && Legal(Init(Some(storage), size, n).value, es) && q == Run(Init(Some(storage), size, n).value, es)
  }

  lemma InitInv<M>(storage: seq<M>, size: Word, n: Word)
    requires |storage| == n && Init(Some(storage), size, n).Some?
    ensures Inv(Init(Some(storage), size, n).value)
  {
  }

  lemma ReachedInv<M>(storage: seq<M>, size: Word, n: Word, es: seq<Event<M>>, q: Queue<M>)
    requires Reached(storage, size, n, es, q)
    ensures Inv(q) && q.capacity == n
  {
    hide Inv;
    InitInv(storage, size, n);
    var q0 := Init(Some(storage), size, n).value;
    RunInv(q0, es);
    RunCapacity(q0, es);
  }

  lemma {:induction false} RunCapacity<M>(q: Queue<M>, es: seq<Event<M>>)
    requires Legal(q, es)
    ensures Run(q, es).capacity == q.capacity
    decreases |es|
  {
    if es != [] {
      RunCapacity(Next(q, es[0]), es[1..]);
    }
  }

  // ----- what callers can rely on

  /** A bounded first-in first-out buffer. */
  datatype Action<M> = Put(m: M) | Get(m: M) | Skip

  ghost predicate BufferStep<M>(n: nat, a: seq<M>, b: seq<M>, action: Action<M>) {
    match action
    case Put(m) => |a| < n && b == a + [m]
    case Get(m) => |a| > 0 && m == a[0] && b == a[1..]
    case Skip => b == a
  }

  /** The messages stored in the queue: sent and not yet received. */
  ghost function Buffer<M>(q: Queue<M>): (r: seq<M>) {
    if |q.received| <= |q.sent| then q.sent[|q.received|..] else []
  }

  /** What a step amounts to: a sender's copy puts its message, a receiver's copy gets the one
      it will return, and every other step leaves the buffer alone. */
  ghost function Effect<M>(q: Queue<M>, e: Event<M>): (a: Action<M>)
    requires Enabled(q, e)
  {
    if !e.Copy? then Skip
    else if PcOf(q, e.t).job.Sending? then Put(PcOf(q, e.t).job.msg)
    else if PcOf(Next(q, e), e.t).Copied? && PcOf(Next(q, e), e.t).job.Receiving? && PcOf(Next(q, e), e.t).job.got.Some?
    then Get(PcOf(Next(q, e), e.t).job.got.value) else Skip
  }

  lemma InvRefines<M>(q: Queue<M>, e: Event<M>)
    requires Inv(q) && Enabled(q, e)
    ensures BufferStep(q.capacity, Buffer(q), Buffer(Next(q, e)), Effect(q, e))
    ensures e.Copy? ==> Effect(q, e) != Skip
  {
    hide PermitsOk, ThreadsOk, ContentOk, Buffer, Slot, CopyStep;
    if e.Copy? {
      OwnsInside(q, e.t);
      Room(q, e.t);
      HoldingLengths(q);
      if PcOf(q, e.t).job.Sending? {
        PutRefines(q, e.t);
      } else {
        GetRefines(q, e.t);
      }
    } else {
      QuietStep(q, e);
    }
  }

  lemma QuietStep<M>(q: Queue<M>, e: Event<M>)
    requires Enabled(q, e) && !e.Copy?
    ensures Next(q, e).sent == q.sent && Next(q, e).received == q.received && Buffer(Next(q, e)) == Buffer(q)
  {
  }

  lemma GetRefines<M>(q: Queue<M>, t: Thread)
    requires ContentOk(q) && q.lock.owner == Some(t)
    requires PcOf(q, t).Inside? && !PcOf(q, t).job.Sending? && |q.received| < |q.sent| && q.head < |q.storage|
    ensures var r := CopyStep(q, t, PcOf(q, t).job); var pc := PcOf(r, t);
      && pc.Copied? && pc.job.Receiving? && pc.job.got.Some?
      && BufferStep(q.capacity, Buffer(q), Buffer(r), Get(pc.job.got.value))
  {
    FetchNext(q.storage, q.sent, q.received);
    OneMore(q.sent, |q.received|);
    hide Holding, Slot;
  }

  lemma PutRefines<M>(q: Queue<M>, t: Thread)
    requires PcOf(q, t).Inside? && PcOf(q, t).job.Sending? && |q.received| <= |q.sent| < |q.received| + q.capacity
    ensures var m := PcOf(q, t).job.msg; BufferStep(q.capacity, Buffer(q), Buffer(CopyStep(q, t, PcOf(q, t).job)), Put(m))
  {
  }

  lemma HoldingLengths<M>(q: Queue<M>)
    requires ContentOk(q)
    ensures |q.received| <= |q.sent|
  {
  }

  /** The queue refines a bounded FIFO buffer: so does every step of every run. */
  lemma RefinesBuffer<M>(storage: seq<M>, size: Word, n: Word, es: seq<Event<M>>, q: Queue<M>, e: Event<M>)
    requires Reached(storage, size, n, es, q) && Enabled(q, e)
    ensures BufferStep(n, Buffer(q), Buffer(Next(q, e)), Effect(q, e))
    ensures e.Copy? ==> Effect(q, e) != Skip
  {
    hide Inv, Enabled, Next, Buffer, Effect, Reached;
    ReachedInv(storage, size, n, es, q);
    InvRefines(q, e);
  }

  /** Messages are received in the order in which they were sent, at most `n` are stored, and
      they sit in the slots from the head on. */
  lemma FirstInFirstOut<M>(storage: seq<M>, size: Word, n: Word, es: seq<Event<M>>, q: Queue<M>)
    requires Reached(storage, size, n, es, q)
    ensures |q.received| <= |q.sent| <= |q.received| + n && q.received == q.sent[..|q.received|]
    ensures |q.storage| == n > 0 && forall i :: |q.received| <= i < |q.sent| ==> q.storage[Slot(i, n)] == q.sent[i]
  {
    hide Reached;
    ReachedInv(storage, size, n, es, q);
  }

  /** Permit conservation in every reachable state. */
  lemma PermitsConserved<M>(storage: seq<M>, size: Word, n: Word, es: seq<Event<M>>, q: Queue<M>)
    requires Reached(storage, size, n, es, q)
    ensures q.spaces.count + Count(q.pcs, Pending(true)) + |Buffer(q)| + Count(q.pcs, Used(false)) == n
    ensures q.items.count + Count(q.pcs, Used(true)) + Count(q.pcs, Pending(false)) == |Buffer(q)|
    ensures q.spaces.count >= 0 && q.items.count >= 0
  {
    hide Reached, ThreadsOk, Count;
    ReachedInv(storage, size, n, es, q);
  }

  /** A sender writes one slot only, inside the storage and holding no unread message. */
  lemma NoUnreadSlotWritten<M>(storage: seq<M>, size: Word, n: Word, es: seq<Event<M>>, q: Queue<M>, e: Event<M>)
    requires Reached(storage, size, n, es, q) && Enabled(q, e)
    requires e.Copy? || e.Scribble?
    ensures PcOf(q, e.t).job.Sending? ==>
      && q.tail < n && |q.storage| == n
      && (forall k :: 0 <= k < n && k != q.tail ==> Next(q, e).storage[k] == q.storage[k])
      && (forall i :: |q.received| <= i < |q.sent| ==> Slot(i, n) != q.tail)
  {
    hide Reached, PermitsOk, ThreadsOk;
    ReachedInv(storage, size, n, es, q);
    OwnsInside(q, e.t);
    Room(q, e.t);
    if PcOf(q, e.t).job.Sending? {
      forall i | |q.received| <= i < |q.sent|
        ensures Slot(i, n) != q.tail
      {
        SlotsDiffer(i, |q.sent|, n);
      }
    }
  }

  /** The error branches: locking fails exactly for a thread that owned the lock when it
      called, and unlocking never fails. */
  lemma ErrorBranches<M>(storage: seq<M>, size: Word, n: Word, es: seq<Event<M>>, q: Queue<M>, e: Event<M>)
    requires Reached(storage, size, n, es, q) && Enabled(q, e)
    ensures e.AcquireLock? ==> (PcOf(Next(q, e), e.t).Refused? <==> PcOf(q, e.t).job.nested)
    ensures e.ReleaseLock? ==> PcOf(Next(q, e), e.t).Signal?
    ensures PcOf(q, e.t).Inside? || PcOf(q, e.t).Leaving? || PcOf(q, e.t).Signal? ==> !PcOf(q, e.t).job.nested
  {
    hide Reached, PermitsOk, ContentOk;
    ReachedInv(storage, size, n, es, q);
    assert ThreadOk(q.lock, q.spaces, q.items, e.t, PcOf(q, e.t));
    if e.ReleaseLock? && e.heir.Some? {
      assert ThreadOk(q.lock, q.spaces, q.items, e.heir.value, PcOf(q, e.heir.value));
    }
  }

  /** Mutual exclusion: at most one thread is between lock and unlock. */
  lemma OneInside<M>(storage: seq<M>, size: Word, n: Word, es: seq<Event<M>>, q: Queue<M>, t: Thread, u: Thread)
    requires Reached(storage, size, n, es, q) && Holds(PcOf(q, t)) && Holds(PcOf(q, u))
    ensures t == u
  {
    hide Reached, Inv;
    ReachedInv(storage, size, n, es, q);
    OwnsInside(q, t);
    OwnsInside(q, u);
  }
}
