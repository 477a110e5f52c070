/** Positions of a message history and the slots of a ring that hold them. */
module Ring {

  /** The slot of the `n`th message: `n` modulo `capacity`. */
  function Slot(n: nat, capacity: nat): (r: nat)
    requires capacity > 0
    ensures r < capacity
  {
    if n < capacity then n else Slot(n - capacity, capacity)
  }

  /** Advancing an index: add one and wrap at the capacity. */
  lemma {:induction false} NextSlot(n: nat, capacity: nat)
    requires capacity > 0
    ensures Slot(n + 1, capacity) == if Slot(n, capacity) + 1 == capacity then 0 else Slot(n, capacity) + 1
  {
    if n >= capacity {
      NextSlot(n - capacity, capacity);
    }
  }

  /** Positions less than a whole turn apart are in different slots. */
  lemma {:induction false} SlotsDiffer(i: nat, n: nat, capacity: nat)
    requires i < n < i + capacity
    ensures Slot(i, capacity) != Slot(n, capacity)
  {
    if i >= capacity {
      SlotsDiffer(i - capacity, n - capacity, capacity);
    }
  }
}
