/** The pool routines on their structure in memory. */
module PoolCode {
  import opened Mempool

  class MemoryPool {
    var mem: map<Address, Address>
    var freeList: Address
    var poolStart: Address
    var poolEnd: Address
    var blockSize: nat
    var blockCount: nat
    var freeCount: int
    ghost var pool: Pool

    /** The fields are those of `pool`. */
    ghost predicate Coupled()
      reads this
    {
      && mem == pool.mem && freeList == pool.freeList && poolStart == pool.start && poolEnd == End(pool)
      && blockSize == pool.size && blockCount == pool.count && freeCount == pool.freeCount
    }

    constructor ()
      ensures Coupled() && pool == Blank()
    {
      hide Block, End;
      mem, freeList, poolStart, poolEnd, blockSize, blockCount, freeCount := map[], NULL, 0, 0, 0, 0, 0;
      pool := Blank();
    }

    method Initialise(buffer: Address, size: nat, count: nat)
      requires Coupled()
      modifies this
      ensures Coupled() && pool == Init(old(pool), buffer, size, count)
    {
      if buffer == NULL || size == 0 || count == 0 {
        return;
      }
      freeList, poolStart, poolEnd := NULL, buffer, buffer + size * count;
      blockSize, blockCount, freeCount := size, count, count;
      ghost var p := Pool(mem, NULL, buffer, size, count, count);
      pool := p;
      var i := 0;
      while i < count
        invariant 0 <= i <= count && Coupled() && pool == LinkBlocks(p, i)
        invariant pool.start == buffer && pool.size == size && pool.count == count
      {
        var node := buffer + i * size;
        mem := mem[node := freeList];
        freeList := node;
        i := i + 1;
        pool := LinkBlocks(p, i);
      }
    }

    method Allocate() returns (node: Address)
      requires Coupled()
      modifies this
      ensures Coupled() && pool == Alloc(old(pool)) && node == old(pool).freeList
    {
      node := freeList;
      if node != NULL {
        freeList := Read(mem, node);
        freeCount := freeCount - 1;
      }
      pool := Alloc(pool);
    }

    method Release(ptr: Address) returns (rc: int)
      requires Coupled() && pool.size > 0
      modifies this
      ensures Coupled() && pool == Free(old(pool), ptr)
      ensures rc == if Accepts(old(pool), ptr) then 0 else -1
    {
      if ptr == NULL {
        return -1;
      }
      if ptr < poolStart || ptr >= poolEnd {
        return -1;
      }
      if (ptr - poolStart) % blockSize != 0 {
        return -1;
      }
      mem := mem[ptr := freeList];
      freeList := ptr;
      freeCount := freeCount + 1;
      pool := Free(pool, ptr);
      return 0;
    }
  }
}
