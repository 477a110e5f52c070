/** The queue structure in memory: initialisation and the two critical sections, as the
    assignments of kernel/queue.c carry them out. */
module QueueCode {
  import opened Base
  import opened BlockingQueue
  import opened QueueRuns

  class MessageQueue<M(!new)> {
    var storage: array?<M>
    var capacity: nat
    var head: nat
    var tail: nat
    var lock: Lock
    var spaces: Sem
    var items: Sem

    /** The fields are those of `q`. */
    ghost predicate Matches(q: Queue<M>)
      reads this, storage
    {
      && storage != null && storage[..] == q.storage && capacity == q.capacity
      && head == q.head && tail == q.tail && lock == q.lock && spaces == q.spaces && items == q.items
    }

    constructor ()
    {
      storage, capacity, head, tail := null, 0, 0, 0;
      lock, spaces, items := Lock(None, {}), Sem(0, {}), Sem(0, {});
    }

    /** `os_sem_init`, which refuses a count that is negative as an `int32_t`. */
    static method SemInit(before: Sem, count: Word) returns (rc: int, sem: Sem)
      ensures rc == (if count < 0x8000_0000 then 0 else -1) && sem == if rc == 0 then Sem(count, {}) else before
    {
      var n := if count < 0x8000_0000 then count else count - 0x1_0000_0000;
      if n < 0 {
        return -1, before;
      }
      return 0, Sem(n, {});
    }

    method Initialise(buffer: array?<M>, size: Word, n: Word) returns (rc: int)
      requires buffer != null ==> buffer.Length == n
      modifies this
      ensures buffer == null ==> rc == -1
      ensures buffer != null ==> (rc == 0 <==> Init(Some(buffer[..]), size, n).Some?)
      ensures rc == 0 ==> storage == buffer && Matches(Init(Some(buffer[..]), size, n).value)
      ensures rc != 0 ==> rc == -1
    {
      if buffer == null || size == 0 || n == 0 {
        return -1;
      }
      storage, capacity, head, tail := buffer, n, 0, 0;
      lock := Lock(None, {});
      rc, spaces := SemInit(spaces, n);
      if rc != 0 {
        return -1;
      }
      rc, items := SemInit(items, 0);
    }

    /** kernel/queue.c:47-53, by a sender that holds the lock. */
    method StoreMessage(msg: M, ghost q: Queue<M>, ghost t: Thread)
      requires Matches(q) && Inv(q) && PcOf(q, t).Inside? && PcOf(q, t).job.Sending? && PcOf(q, t).job.msg == msg
      modifies this, storage
      ensures storage == old(storage)
      ensures Matches(Next(Next(Next(q, Copy(t)), Bump(t)), Wrap(t)))
    {
      hide Inv;
      OwnsInside(q, t);
      storage[tail] := msg;
      tail := tail + 1;
      if tail == capacity {
        tail := 0;
      }
    }

    /** kernel/queue.c:82-88, by a receiver that holds the lock. */
    method FetchMessage(ghost q: Queue<M>, ghost t: Thread) returns (msg: M)
      requires Matches(q) && Inv(q) && PcOf(q, t).Inside? && PcOf(q, t).job.Receiving?
      modifies this
      ensures storage == old(storage)
      ensures var r := Next(Next(Next(q, Copy(t)), Bump(t)), Wrap(t));
        Matches(r) && PcOf(r, t) == Leaving(PcOf(q, t).job.(got := Some(msg))) && |Buffer(q)| > 0 && msg == Buffer(q)[0]
    {
      hide Inv;
      OwnsInside(q, t);
      GetsFirst(q, t);
      msg := storage[head];
      head := head + 1;
      if head == capacity {
        head := 0;
      }
    }

    lemma GetsFirst(q: Queue<M>, t: Thread)
      requires Inv(q) && PcOf(q, t).Inside? && PcOf(q, t).job.Receiving? && q.head < |q.storage|
      ensures |Buffer(q)| > 0 && q.storage[q.head] == Buffer(q)[0]
    {
      hide Inv;
      OwnsInside(q, t);
      InvRefines(q, Copy(t));
    }
  }
}
