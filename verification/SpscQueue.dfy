/** The lock-free queue of kernel/lfqueue.c: one producer and one consumer, interleaved at
    single loads and stores of the two indices.  A load of the other side's index may be stale:
    it may return any value published since the last one seen. */
module SpscQueue {
  import opened Base
  import opened Ring

  /** How far a side has come in its location or its update function. */
  datatype Pc =
    | Idle
    | Loaded(index: nat)   // has loaded its own index, not yet the other side's
    | Lent(index: nat)     // was given the location at `index`
    | Updating(next: nat)  // has computed its next index, not yet stored it

  datatype Spsc<M> = Spsc(
    capacity: nat,
    storage: seq<M>,
    writeIndex: nat,
    readIndex: nat,
    producer: Pc,
    consumer: Pc,
    seenReads: nat,     // the latest read index the producer has seen, as a count of messages
    seenWrites: nat,    // the latest write index the consumer has seen
    produced: seq<M>,   // history: messages published
    consumed: seq<M>)   // history: messages consumed

  function NextIndex(capacity: nat, index: nat): (r: nat) {
    if index + 1 == capacity then 0 else index + 1
  }

  /** `lfqueue_init`: NULL pointers, empty messages and fewer than two slots are refused. */
  function Init<M>(storage: Option<seq<M>>, size: Word, capacity: Word): (r: Option<Spsc<M>>)
    requires storage.Some? ==> |storage.value| == capacity
  {
    if storage.None? || size == 0 || capacity < 2 then None
    else Some(Spsc(capacity, storage.value, 0, 0, Idle, Idle, 0, 0, [], []))
  }

  datatype Event<M> =
    | LoadWrite                 // get_write_location: own index
    | LoadReads(count: nat)     // get_write_location: the other index, as of `count` messages read
    | Write(m: M)               // the client writes into the location it was lent
    | StepWrite                 // update_write_index: load and advance
    | PublishWrite              // update_write_index: store
    | LoadRead                  // get_read_location: own index
    | LoadWrites(count: nat)    // get_read_location: the other index, as of `count` messages written
    | StepRead                  // update_read_index: load and advance
    | PublishRead               // update_read_index: store

  /** A location may be asked for at any time, and an index is advanced only by a side that
      has been given a location. */
  ghost predicate Enabled<M>(q: Spsc<M>, e: Event<M>) {
    match e
    case LoadWrite => q.producer.Idle? || q.producer.Lent?
    case LoadReads(count) => q.producer.Loaded? && q.seenReads <= count <= |q.consumed| && q.capacity > 0
    case Write(_) => q.producer.Lent?
    case StepWrite => q.producer.Lent?
    case PublishWrite => q.producer.Updating?
    case LoadRead => q.consumer.Idle? || q.consumer.Lent?
    case LoadWrites(count) => q.consumer.Loaded? && q.seenWrites <= count <= |q.produced| && q.capacity > 0
    case StepRead => q.consumer.Lent?
    case PublishRead => q.consumer.Updating?
  }

  /** What slot `i` holds, for the histories. */
  function Peek<M>(q: Spsc<M>, i: nat): (r: seq<M>) {
    if i < |q.storage| then [q.storage[i]] else []
  }

  function Next<M>(q: Spsc<M>, e: Event<M>): (r: Spsc<M>)
    requires Enabled(q, e)
  {
    match e
    case LoadWrite => q.(producer := Loaded(q.writeIndex))
    case LoadReads(count) =>
      var i := q.producer.index;
      q.(seenReads := count, producer := if NextIndex(q.capacity, i) == Slot(count, q.capacity) then Idle else Lent(i))
    case Write(m) => if q.producer.index < |q.storage| then q.(storage := q.storage[q.producer.index := m]) else q
    case StepWrite => q.(producer := Updating(NextIndex(q.capacity, q.writeIndex)))
    case PublishWrite =>
      q.(writeIndex := q.producer.next, producer := Idle, produced := q.produced + Peek(q, q.writeIndex))
    case LoadRead => q.(consumer := Loaded(q.readIndex))
    case LoadWrites(count) =>
      var i := q.consumer.index;
      q.(seenWrites := count, consumer := if i == Slot(count, q.capacity) then Idle else Lent(i))
    case StepRead => q.(consumer := Updating(NextIndex(q.capacity, q.readIndex)))
    case PublishRead =>
      q.(readIndex := q.consumer.next, consumer := Idle, consumed := q.consumed + Peek(q, q.readIndex))
  }

  // ----- the invariant

  ghost predicate ProducerOk<M>(q: Spsc<M>) {
    var n := |q.produced|;
    && q.capacity >= 2 && q.writeIndex == Slot(n, q.capacity)
    && q.seenReads <= |q.consumed| && n - q.seenReads < q.capacity
    && (q.producer.Loaded? || q.producer.Lent? ==> q.producer.index == q.writeIndex)
    && (q.producer.Lent? || q.producer.Updating? ==> n - q.seenReads < q.capacity - 1)
    && (q.producer.Updating? ==> q.producer.next == Slot(n + 1, q.capacity))
  }

  ghost predicate ConsumerOk<M>(q: Spsc<M>) {
    var n := |q.consumed|;
    && q.capacity >= 2 && q.readIndex == Slot(n, q.capacity)
    && n <= q.seenWrites <= |q.produced|
    && (q.consumer.Loaded? || q.consumer.Lent? ==> q.consumer.index == q.readIndex)
    && (q.consumer.Lent? || q.consumer.Updating? ==> n < q.seenWrites)
    && (q.consumer.Updating? ==> q.consumer.next == Slot(n + 1, q.capacity))
  }

  ghost predicate ContentOk<M>(q: Spsc<M>) {
    && |q.storage| == q.capacity > 0 && |q.consumed| <= |q.produced|
    && q.consumed == q.produced[..|q.consumed|]
    && forall i {:trigger q.produced[i]} :: |q.consumed| <= i < |q.produced| ==> q.storage[Slot(i, q.capacity)] == q.produced[i]
  }

  ghost predicate Inv<M>(q: Spsc<M>) {
    ProducerOk(q) && ConsumerOk(q) && ContentOk(q)
  }

  lemma NextIndexIsNext(n: nat, capacity: nat)
    requires capacity > 0
    ensures NextIndex(capacity, Slot(n, capacity)) == Slot(n + 1, capacity)
  {
    NextSlot(n, capacity);
  }

  /** Within one turn, equal slots mean equal positions or a whole turn. */
  lemma SameSlot(i: nat, n: nat, capacity: nat)
    requires capacity > 0 && i <= n <= i + capacity
    ensures Slot(i, capacity) == Slot(n, capacity) <==> n == i || n == i + capacity
  {
  }

  lemma ProducerStep<M>(q: Spsc<M>, e: Event<M>)
    requires Inv(q) && Enabled(q, e) && (e.LoadWrite? || e.LoadReads? || e.Write? || e.StepWrite? || e.PublishWrite?)
    ensures Inv(Next(q, e))
  {
    var n := |q.produced|;
    NextIndexIsNext(n, q.capacity);
    match e
    case LoadReads(count) => SameSlot(count, n + 1, q.capacity);
    case Write(m) =>
      forall i | |q.consumed| <= i < n
        ensures Slot(i, q.capacity) != q.writeIndex
      {
        SlotsDiffer(i, n, q.capacity);
      }
    case PublishWrite => Published(q);
    case _ =>
  }

  lemma Published<M>(q: Spsc<M>)
    requires Inv(q) && q.producer.Updating?
    ensures Inv(Next(q, PublishWrite))
  {
    hide Slot;
    var r := Next(q, PublishWrite);
    assert r.produced == q.produced + [q.storage[q.writeIndex]];
  }

  lemma ConsumerStep<M>(q: Spsc<M>, e: Event<M>)
    requires Inv(q) && Enabled(q, e) && (e.LoadRead? || e.LoadWrites? || e.StepRead? || e.PublishRead?)
    ensures Inv(Next(q, e))
  {
    var n := |q.consumed|;
    NextIndexIsNext(n, q.capacity);
    match e
    case LoadWrites(count) => SameSlot(n, count, q.capacity);
    case PublishRead => Consumed(q);
    case _ =>
  }

  lemma Consumed<M>(q: Spsc<M>)
    requires Inv(q) && q.consumer.Updating?
    ensures Inv(Next(q, PublishRead))
  {
  }

  lemma InvStep<M>(q: Spsc<M>, e: Event<M>)
    requires Inv(q) && Enabled(q, e)
    ensures Inv(Next(q, e))
  {
    if e.LoadRead? || e.LoadWrites? || e.StepRead? || e.PublishRead? { ConsumerStep(q, e); } else { ProducerStep(q, e); }
  }

  // ----- runs

  ghost predicate Legal<M>(q: Spsc<M>, es: seq<Event<M>>)
    decreases |es|
  {
    es == [] || (Enabled(q, es[0]) && Legal(Next(q, es[0]), es[1..]))
  }

  ghost function Run<M>(q: Spsc<M>, es: seq<Event<M>>): (r: Spsc<M>)
    requires Legal(q, es)
    decreases |es|
  {
    if es == [] then q else Run(Next(q, es[0]), es[1..])
  }

  lemma {:induction false} RunInv<M>(q: Spsc<M>, es: seq<Event<M>>)
    requires Inv(q) && Legal(q, es)
    ensures Inv(Run(q, es)) && Run(q, es).capacity == q.capacity
    decreases |es|
  {
    hide Inv;
    if es != [] {
      InvStep(q, es[0]);
      RunInv(Next(q, es[0]), es[1..]);
    }
  }

  /** `q` is reached from a queue of `n` slots by the interleaving `es`, stale loads included. */
  ghost predicate Reached<M>(storage: seq<M>, size: Word, n: Word, es: seq<Event<M>>, q: Spsc<M>) {
    && |storage| == n && Init(Some(storage), size, n).Some?
    && Legal(Init(Some(storage), size, n).value, es) && q == Run(Init(Some(storage), size, n).value, es)
  }

  lemma ReachedInv<M>(storage: seq<M>, size: Word, n: Word, es: seq<Event<M>>, q: Spsc<M>)
    requires Reached(storage, size, n, es, q)
    ensures Inv(q) && q.capacity == n
  {
    RunInv(Init(Some(storage), size, n).value, es);
  }

  // ----- what the two sides can rely on

  /** Messages are consumed in the order in which they were produced; at most `n - 1` are stored. */
  lemma ConsumedIsPrefix<M>(storage: seq<M>, size: Word, n: Word, es: seq<Event<M>>, q: Spsc<M>)
    requires Reached(storage, size, n, es, q)
    ensures |q.consumed| <= |q.produced| < |q.consumed| + n
    ensures q.consumed == q.produced[..|q.consumed|]
  {
    hide Reached;
    ReachedInv(storage, size, n, es, q);
  }

  /** The location lent to the producer is none the consumer may be reading and holds no unread
      message; the location lent to the consumer holds the next message, for as long as it is lent. */
  lemma LentLocations<M>(storage: seq<M>, size: Word, n: Word, es: seq<Event<M>>, q: Spsc<M>)
    requires Reached(storage, size, n, es, q)
    ensures q.producer.Lent? ==>
      && q.producer.index < n
      && (q.consumer.Lent? ==> q.producer.index != q.consumer.index)
      && forall i :: |q.consumed| <= i < |q.produced| ==> Slot(i, n) != q.producer.index
    ensures q.consumer.Lent? ==>
      && q.consumer.index < n == |q.storage| && |q.consumed| < |q.produced|
      && q.storage[q.consumer.index] == q.produced[|q.consumed|]
  {
    hide Reached;
    ReachedInv(storage, size, n, es, q);
    var w := |q.produced|;
    if q.producer.Lent? {
      forall i | |q.consumed| <= i < w
        ensures Slot(i, n) != q.producer.index
      {
        SlotsDiffer(i, w, n);
      }
      if w > |q.consumed| {
        SlotsDiffer(|q.consumed|, w, n);
      }
    }
  }

  /** A location is refused exactly when the queue is full, or empty, as far as this side has seen. */
  lemma RefusedIff<M>(storage: seq<M>, size: Word, n: Word, es: seq<Event<M>>, q: Spsc<M>, e: Event<M>)
    requires Reached(storage, size, n, es, q) && Enabled(q, e)
    ensures e.LoadReads? ==> (Next(q, e).producer.Idle? <==> |q.produced| - e.count == n - 1)
    ensures e.LoadWrites? ==> (Next(q, e).consumer.Idle? <==> e.count == |q.consumed|)
  {
    hide Reached;
    ReachedInv(storage, size, n, es, q);
    if e.LoadReads? {
      NextIndexIsNext(|q.produced|, n);
      SameSlot(e.count, |q.produced| + 1, n);
    } else if e.LoadWrites? {
      SameSlot(|q.consumed|, e.count, n);
    }
  }

  /** `update_write_index` whether or not a location was given: the slot counts as published. */
  function WriteAdvanced<M>(q: Spsc<M>): (r: Spsc<M>) {
    q.(writeIndex := NextIndex(q.capacity, q.writeIndex), producer := Idle, produced := q.produced + Peek(q, q.writeIndex))
  }

  /** `update_read_index` whether or not a location was given: the slot counts as consumed. */
  function ReadAdvanced<M>(q: Spsc<M>): (r: Spsc<M>) {
    q.(readIndex := NextIndex(q.capacity, q.readIndex), consumer := Idle, consumed := q.consumed + Peek(q, q.readIndex))
  }

  lemma AdvancedIsUpdate<M>(q: Spsc<M>)
    ensures q.producer.Lent? ==> WriteAdvanced(q) == Next(Next(q, StepWrite), PublishWrite)
    ensures q.consumer.Lent? ==> ReadAdvanced(q) == Next(Next(q, StepRead), PublishRead)
  {
  }

  /** With `k` messages known to be read, advancing the write index is safe exactly if that leaves room. */
  lemma WriteSafeIff<M>(q: Spsc<M>, k: nat)
    requires Inv(q) && q.seenReads <= k <= |q.consumed|
    ensures Inv(WriteAdvanced(q).(seenReads := k)) <==> |q.produced| - k < q.capacity - 1
  {
    hide Slot;
    NextIndexIsNext(|q.produced|, q.capacity);
    assert WriteAdvanced(q).produced == q.produced + [q.storage[q.writeIndex]];
  }

  /** With `k` messages known to be written, advancing the read index is safe exactly if one is unread. */
  lemma ReadSafeIff<M>(q: Spsc<M>, k: nat)
    requires Inv(q) && q.seenWrites <= k <= |q.produced|
    ensures Inv(ReadAdvanced(q).(seenWrites := k)) <==> |q.consumed| < k
  {
    hide Slot;
    var n := |q.consumed|;
    NextIndexIsNext(n, q.capacity);
    assert ReadAdvanced(q).consumed == q.consumed + [q.storage[q.readIndex]];
    if n < |q.produced| {
      assert q.storage[Slot(n, q.capacity)] == q.produced[n];
      assert q.produced[..n] + [q.produced[n]] == q.produced[..n + 1];
    }
  }

  /** The update functions do not check for themselves.  Called with or without a location, they
      keep the queue right exactly if it was not full, or not empty; otherwise a full queue looks
      empty afterwards, and an empty one full. */
  lemma UncheckedUpdate<M>(storage: seq<M>, size: Word, n: Word, es: seq<Event<M>>, q: Spsc<M>)
    requires Reached(storage, size, n, es, q)
    ensures Inv(WriteAdvanced(q).(seenReads := |q.consumed|)) <==> |q.produced| - |q.consumed| < n - 1
    ensures Inv(ReadAdvanced(q).(seenWrites := |q.produced|)) <==> |q.consumed| < |q.produced|
    ensures |q.produced| - |q.consumed| == n - 1 <==> WriteAdvanced(q).writeIndex == q.readIndex
    ensures |q.consumed| == |q.produced| <==> ReadAdvanced(q).readIndex == NextIndex(n, q.writeIndex)
  {
    hide Reached;
    ReachedInv(storage, size, n, es, q);
    var r, w := |q.consumed|, |q.produced|;
    WriteSafeIff(q, r);
    ReadSafeIff(q, w);
    NextIndexIsNext(w, n);
    NextIndexIsNext(r, n);
    SameSlot(r, w + 1, n);
    SameSlot(r + 1, w + 1, n);
  }
}
