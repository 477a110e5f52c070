/** The functions of kernel/lfqueue.c on the queue structure.  What a load of the other side's
    index returned is a parameter, since it may be stale. */
module SpscCode {
  import opened Base
  import opened Ring
  import opened SpscQueue

  class IndexedQueue<M(!new)> {
    var storage: array?<M>
    var capacity: nat
    var readIndex: nat
    var writeIndex: nat

    /** The fields are those of `q`. */
    ghost predicate Matches(q: Spsc<M>)
      reads this, storage
    {
      && storage != null && storage[..] == q.storage && capacity == q.capacity
      && readIndex == q.readIndex && writeIndex == q.writeIndex
    }

    constructor ()
    {
      storage, capacity, readIndex, writeIndex := null, 0, 0, 0;
    }

    method Initialise(buffer: array?<M>, size: Word, n: Word) returns (rc: int)
      requires buffer != null ==> buffer.Length == n
      modifies this
      ensures buffer == null ==> rc == -1
      ensures buffer != null ==> (rc == 0 <==> Init(Some(buffer[..]), size, n).Some?)
      ensures rc == 0 ==> storage == buffer && Matches(Init(Some(buffer[..]), size, n).value)
      ensures rc != 0 ==> rc == -1 && unchanged(this)
    {
      if buffer == null || size == 0 || n < 2 {
        return -1;
      }
      storage, capacity, readIndex, writeIndex := buffer, n, 0, 0;
      return 0;
    }

    method Advance(index: nat) returns (r: nat)
      ensures r == NextIndex(capacity, index)
    {
      r := index + 1;
      if r == capacity {
        r := 0;
      }
    }

    /** A slot number stands for the address of that slot, None for NULL. */
    method WriteLocation(loaded: nat, ghost q: Spsc<M>, ghost count: nat) returns (slot: Option<nat>)
      requires Matches(q) && Enabled(q, LoadWrite)
      requires Enabled(Next(q, LoadWrite), LoadReads(count)) && loaded == Slot(count, capacity)
      ensures Next(Next(q, LoadWrite), LoadReads(count)).producer == if slot.None? then Idle else Lent(slot.value)
    {
      var next := Advance(writeIndex);
      return if next == loaded then None else Some(writeIndex);
    }

    method UpdateWrite(ghost q: Spsc<M>)
      requires Matches(q)
      modifies this
      ensures storage == old(storage) && Matches(WriteAdvanced(q))
      ensures q.producer.Lent? ==> Matches(Next(Next(q, StepWrite), PublishWrite))
    {
      var next := Advance(writeIndex);
      writeIndex := next;
      AdvancedIsUpdate(q);
    }

    method ReadLocation(loaded: nat, ghost q: Spsc<M>, ghost count: nat) returns (slot: Option<nat>)
      requires Matches(q) && Enabled(q, LoadRead)
      requires Enabled(Next(q, LoadRead), LoadWrites(count)) && loaded == Slot(count, capacity)
      ensures Next(Next(q, LoadRead), LoadWrites(count)).consumer == if slot.None? then Idle else Lent(slot.value)
    {
      return if readIndex == loaded then None else Some(readIndex);
    }

    method UpdateRead(ghost q: Spsc<M>)
      requires Matches(q)
      modifies this
      ensures storage == old(storage) && Matches(ReadAdvanced(q))
      ensures q.consumer.Lent? ==> Matches(Next(Next(q, StepRead), PublishRead))
    {
      var next := Advance(readIndex);
      readIndex := next;
      AdvancedIsUpdate(q);
    }
  }
}
