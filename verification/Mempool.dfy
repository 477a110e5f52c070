/** The fixed-block memory pool of kernel/mempool.c.  The free list is kept inside the free
    blocks themselves, in memory that clients write to while they hold a block. */
module Mempool {
  import opened Base

  type Address = nat

  const NULL: Address := 0

  /** The size of a pointer, and the grain of memory: `mem` maps the address of a word to the word. */
  const WORD: nat := 4

  datatype Pool = Pool(
    mem: map<Address, Address>,
    freeList: Address,
    start: Address,
    size: nat,
    count: nat,
    freeCount: int)

  /** The pool structure as it is cleared at reset. */
  function Blank(): (p: Pool)
    ensures End(p) == 0
  {
    Pool(map[], NULL, 0, 0, 0, 0)
  }

  /** Where block `k` begins. */
  function Block(start: Address, size: nat, k: nat): (a: Address) {
    start + k * size
  }

  function End(p: Pool): (a: Address) {
    Block(p.start, p.size, p.count)
  }

  /** The word at `a`; memory never written reads as zero. */
  function Read(mem: map<Address, Address>, a: Address): (w: Address) {
    if a in mem then mem[a] else 0
  }

  // ----- the routines

  /** After `k` turns of the loop of `os_mempool_init`. */
  function LinkBlocks(p: Pool, k: nat): (r: Pool) {
    if k == 0 then p
    else
      var q := LinkBlocks(p, k - 1);
      var a := Block(p.start, p.size, k - 1);
      q.(mem := q.mem[a := q.freeList], freeList := a)
  }

  /** `os_mempool_init`; bad arguments leave the pool as it was. */
  function Init(p: Pool, buffer: Address, size: nat, count: nat): (r: Pool) {
    if buffer == NULL || size == 0 || count == 0 then p
    else LinkBlocks(Pool(p.mem, NULL, buffer, size, count, count), count)
  }

  function Alloc(p: Pool): (r: Pool) {
    if p.freeList == NULL then p else p.(freeList := Read(p.mem, p.freeList), freeCount := p.freeCount - 1)
  }

  /** The checks of `os_mempool_free`. */
  predicate Accepts(p: Pool, ptr: Address) {
    ptr != NULL && p.start <= ptr < End(p) && p.size > 0 && (ptr - p.start) % p.size == 0
  }

  function Free(p: Pool, ptr: Address): (r: Pool) {
    if !Accepts(p, ptr) then p
    else p.(mem := p.mem[ptr := p.freeList], freeList := ptr, freeCount := p.freeCount + 1)
  }

  // ----- blocks

  lemma BlocksApart(start: Address, size: nat, i: nat, j: nat)
    requires i < j
    ensures Block(start, size, i) + size <= Block(start, size, j)
  {
    AtLeastOne(j - i, size);
    assert (j - i) * size == j * size - i * size;
  }

  /** `a` is where one of the pool's blocks begins. */
  ghost predicate IsBlock(p: Pool, a: Address) {
    exists k: nat :: k < p.count && a == Block(p.start, p.size, k)
  }

  lemma MultipleMod(k: nat, size: nat)
    requires size > 0
    ensures (k * size) % size == 0
  {
    var d := (k * size) / size;
    assert (k - d) * size == (k * size) % size;
    if k > d {
      AtLeastOne(k - d, size);
    } else if d > k {
      AtLeastOne(d - k, size);
    }
  }

  lemma AtLeastOne(m: nat, size: nat)
    requires m > 0
    ensures m * size >= size
  {
  }

  lemma MultipleLess(k: int, n: nat, size: nat)
    requires size > 0 && k * size < n * size
    ensures k < n
  {
    if k >= n {
      MultipleMonotone(n, k, size);
    }
  }

  lemma MultipleMonotone(n: int, k: int, size: nat)
    requires n <= k
    ensures n * size <= k * size
  {
    assert (k - n) * size >= 0;
    assert k * size == n * size + (k - n) * size;
  }

  lemma AcceptedIsBlock(p: Pool, a: Address)
    requires Accepts(p, a)
    ensures IsBlock(p, a)
  {
    var k := (a - p.start) / p.size;
    assert a - p.start == k * p.size;
    MultipleLess(k, p.count, p.size);
    assert a == Block(p.start, p.size, k);
  }

  lemma BlockIsAccepted(p: Pool, a: Address)
    requires p.start > 0 && p.size > 0 && IsBlock(p, a)
    ensures Accepts(p, a)
  {
    var k: nat :| k < p.count && a == Block(p.start, p.size, k);
    MultipleMod(k, p.size);
    BlocksApart(p.start, p.size, k, p.count);
  }

  /** The checks accept exactly the addresses at which a block begins. */
  lemma AcceptsIff(p: Pool, a: Address)
    requires p.start > 0 && p.size > 0
    ensures Accepts(p, a) <==> IsBlock(p, a)
  {
    hide Accepts, IsBlock;
    if Accepts(p, a) { AcceptedIsBlock(p, a); }
    if IsBlock(p, a) { BlockIsAccepted(p, a); }
  }

  // ----- the free list

  /** The word that links element `i` of `l` to the next. */
  ghost function AddressAt(l: seq<Address>, i: nat): (a: Address) {
    if i < |l| then l[i] else NULL
  }

  /** The links run from `freeList` through exactly the blocks in `l`, each once. */
  ghost predicate FreeIs(p: Pool, l: seq<Address>) {
    && NoDup(l) && p.freeList == AddressAt(l, 0)
    && (forall i :: 0 <= i < |l| ==> IsBlock(p, l[i]) && l[i] in p.mem)
    && (forall i {:trigger Read(p.mem, l[i])} :: 0 <= i < |l| ==> Read(p.mem, l[i]) == AddressAt(l, i + 1))
  }

  /** Blocks are aligned and large enough to hold a link. */
  ghost predicate Sound(p: Pool) {
    p.start > 0 && p.start % WORD == 0 && p.size >= WORD && p.size % WORD == 0
  }

  /** Every block is either free or held, and not both; `freeCount` counts the free ones. */
  ghost predicate Partition(p: Pool, held: set<Address>, l: seq<Address>) {
    && Sound(p) && FreeIs(p, l) && p.freeCount == |l|
    && (forall a :: a in held ==> IsBlock(p, a) && a !in l)
    && (forall a {:trigger IsBlock(p, a)} :: IsBlock(p, a) ==> a in l || a in held)
    && |l| + |held| == p.count
  }

  ghost predicate Intact(p: Pool, held: set<Address>) {
    exists l :: Partition(p, held, l)
  }

  lemma SameBlocks(p: Pool, q: Pool)
    requires p.start == q.start && p.size == q.size && p.count == q.count
    ensures forall a :: IsBlock(p, a) <==> IsBlock(q, a)
  {
  }

  lemma BlockPositive(p: Pool, a: Address)
    requires IsBlock(p, a) && p.start > 0
    ensures a > 0
  {
  }

  /** Allocation hands out the first free block. */
  lemma AllocPartition(p: Pool, held: set<Address>, l: seq<Address>)
    requires Partition(p, held, l)
    ensures l == [] ==> p.freeList == NULL && Alloc(p) == p
    ensures l != [] ==>
      && p.freeList == l[0] != NULL && l[0] !in held && IsBlock(p, l[0])
      && Partition(Alloc(p), held + {l[0]}, l[1..])
  {
    if l != [] {
      var q := Alloc(p);
      BlockPositive(p, l[0]);
      SameBlocks(p, q);
      hide IsBlock;
      assert Read(p.mem, l[0]) == AddressAt(l, 1);
      assert FreeIs(q, l[1..]);
    }
  }

  /** Freeing a block that is held puts it first. */
  lemma FreePartition(p: Pool, held: set<Address>, l: seq<Address>, ptr: Address)
    requires Partition(p, held, l) && ptr in held
    ensures Accepts(p, ptr) && Partition(Free(p, ptr), held - {ptr}, [ptr] + l)
  {
    AcceptsIff(p, ptr);
    var q := Free(p, ptr);
    SameBlocks(p, q);
    hide IsBlock, Accepts;
    var r := [ptr] + l;
    forall i | 0 <= i < |r|
      ensures Read(q.mem, r[i]) == AddressAt(r, i + 1)
    {
      if i > 0 {
        assert Read(p.mem, l[i - 1]) == AddressAt(l, i);
      }
    }
    assert FreeIs(q, r);
  }

  /** Freeing undoes allocation, down to the last word. */
  lemma AllocThenFree(p: Pool, held: set<Address>)
    requires Intact(p, held) && p.freeList != NULL
    ensures p.freeList in p.mem && Accepts(Alloc(p), p.freeList) && Free(Alloc(p), p.freeList) == p
  {
    var l :| Partition(p, held, l);
    AllocPartition(p, held, l);
    FreePartition(Alloc(p), held + {l[0]}, l[1..], l[0]);
    assert p.mem[l[0] := p.mem[l[0]]] == p.mem;
  }

  /** A client may write the words of a block it holds. */
  ghost predicate MayWrite(p: Pool, held: set<Address>, a: Address) {
    exists b :: b in held && b <= a && a + WORD <= b + p.size
  }

  lemma WritePartition(p: Pool, held: set<Address>, l: seq<Address>, a: Address, v: Address)
    requires Partition(p, held, l) && MayWrite(p, held, a)
    ensures Partition(p.(mem := p.mem[a := v]), held, l)
  {
    var q := p.(mem := p.mem[a := v]);
    var b :| b in held && b <= a && a + WORD <= b + p.size;
    SameBlocks(p, q);
    forall i | 0 <= i < |l|
      ensures l[i] != a && Read(q.mem, l[i]) == AddressAt(l, i + 1)
    {
      Apart(p, b, l[i]);
      assert Read(p.mem, l[i]) == AddressAt(l, i + 1);
    }
    hide IsBlock;
    assert FreeIs(q, l);
  }

  /** Distinct blocks do not overlap. */
  lemma Apart(p: Pool, a: Address, b: Address)
    requires IsBlock(p, a) && IsBlock(p, b) && a != b
    ensures a + p.size <= b || b + p.size <= a
  {
    var i: nat :| i < p.count && a == Block(p.start, p.size, i);
    var j: nat :| j < p.count && b == Block(p.start, p.size, j);
    if i < j { BlocksApart(p.start, p.size, i, j); } else if j < i { BlocksApart(p.start, p.size, j, i); }
  }

  // ----- initialisation

  /** The first `k` blocks, last one first. */
  ghost function Backwards(start: Address, size: nat, k: nat): (l: seq<Address>)
    ensures |l| == k && forall i :: 0 <= i < k ==> l[i] == Block(start, size, k - 1 - i)
  {
    if k == 0 then [] else [Block(start, size, k - 1)] + Backwards(start, size, k - 1)
  }

  lemma {:induction false} LinkBlocksIs(p: Pool, k: nat)
    requires Sound(p) && p.freeList == NULL && k <= p.count
    ensures var q := LinkBlocks(p, k);
      && q == p.(mem := q.mem, freeList := q.freeList)
      && FreeIs(q, Backwards(p.start, p.size, k))
  {
    hide Block;
    if k > 0 {
      LinkBlocksIs(p, k - 1);
      var a := Block(p.start, p.size, k - 1);
      var l := Backwards(p.start, p.size, k - 1);
      var o, q := LinkBlocks(p, k - 1), LinkBlocks(p, k);
      SameBlocks(o, q);
      assert IsBlock(q, a);
      forall i | 0 <= i < |l|
        ensures l[i] < a && IsBlock(q, l[i]) && l[i] in q.mem && Read(q.mem, l[i]) == AddressAt(l, i + 1)
      {
        BlocksApart(p.start, p.size, k - 2 - i, k - 1);
        assert Read(o.mem, l[i]) == AddressAt(l, i + 1);
      }
      Prepend(q, l, a);
    }
  }

  lemma Prepend(q: Pool, l: seq<Address>, a: Address)
    requires NoDup(l) && a !in l && IsBlock(q, a) && q.freeList == a && a in q.mem && Read(q.mem, a) == AddressAt(l, 0)
    requires forall i :: 0 <= i < |l| ==> IsBlock(q, l[i]) && l[i] in q.mem && Read(q.mem, l[i]) == AddressAt(l, i + 1)
    ensures FreeIs(q, [a] + l)
  {
  }

  /** A pool starts out with every block free. */
  lemma InitPartition(p: Pool, buffer: Address, size: nat, count: nat)
    requires buffer > 0 && buffer % WORD == 0 && size >= WORD && size % WORD == 0 && count > 0
    ensures Partition(Init(p, buffer, size, count), {}, Backwards(buffer, size, count))
  {
    var o := Pool(p.mem, NULL, buffer, size, count, count);
    LinkBlocksIs(o, count);
    var q, l := Init(p, buffer, size, count), Backwards(buffer, size, count);
    forall a | IsBlock(q, a)
      ensures a in l
    {
      var k: nat :| k < count && a == Block(buffer, size, k);
      assert l[count - 1 - k] == a;
    }
  }

  // ----- freeing what is not held

  /** Freeing a free block links it in twice: whatever list is read off afterwards runs in a circle. */
  lemma {:induction false} CircleFollows(p: Pool, l: seq<Address>, ptr: Address, l': seq<Address>, i: nat)
    requires FreeIs(p, l) && ptr in l && p.start > 0 && FreeIs(Free(p, ptr), l') && Accepts(p, ptr)
    requires i <= IndexOf(l, ptr)
    ensures i + 1 < |l'| && l'[0] == ptr && l'[i + 1] == l[i]
  {
    var q := Free(p, ptr);
    BlockPositive(p, ptr);
    BlockPositive(p, l[i]);
    assert Read(q.mem, l'[0]) == AddressAt(l', 1);
    if i > 0 {
      CircleFollows(p, l, ptr, l', i - 1);
      assert Read(p.mem, l[i - 1]) == AddressAt(l, i);
      assert Read(q.mem, l'[i]) == AddressAt(l', i + 1);
    }
  }

  /** Freeing keeps the pool intact exactly when the block is held, whoever is then said to hold what. */
  lemma FreeKeepsIff(p: Pool, held: set<Address>, ptr: Address)
    requires Intact(p, held) && Accepts(p, ptr)
    ensures (exists held' :: Intact(Free(p, ptr), held')) <==> ptr in held
  {
    var l :| Partition(p, held, l);
    if ptr in held {
      FreePartition(p, held, l, ptr);
      assert Intact(Free(p, ptr), held - {ptr});
    } else {
      AcceptsIff(p, ptr);
      assert ptr in l;
      forall held' | Intact(Free(p, ptr), held')
        ensures false
      {
        var l' :| Partition(Free(p, ptr), held', l');
        CircleFollows(p, l, ptr, l', IndexOf(l, ptr));
      }
    }
  }

  // ----- runs

  datatype Event = AllocBlock | FreeBlock(ptr: Address) | ClientWrite(a: Address, v: Address)

  /** A pool and the blocks its clients hold. */
  datatype World = World(pool: Pool, held: set<Address>)

  /** Clients free only what they hold (any other pointer must be one that is rejected) and
      write only inside what they hold. */
  ghost predicate Enabled(w: World, e: Event) {
    match e
    case AllocBlock => true
    case FreeBlock(ptr) => !Accepts(w.pool, ptr) || ptr in w.held
    case ClientWrite(a, _) => MayWrite(w.pool, w.held, a)
  }

  function Step(w: World, e: Event): (r: World) {
    match e
    case AllocBlock =>
      World(Alloc(w.pool), if w.pool.freeList != NULL then w.held + {w.pool.freeList} else w.held)
    case FreeBlock(ptr) =>
      World(Free(w.pool, ptr), if Accepts(w.pool, ptr) then w.held - {ptr} else w.held)
    case ClientWrite(a, v) => w.(pool := w.pool.(mem := w.pool.mem[a := v]))
  }

  function Run(w: World, es: seq<Event>): (r: World)
    decreases |es|
  {
    if es == [] then w else Run(Step(w, es[0]), es[1..])
  }

  ghost predicate Legal(w: World, es: seq<Event>)
    decreases |es|
  {
    es == [] || (Enabled(w, es[0]) && Legal(Step(w, es[0]), es[1..]))
  }

  lemma StepIntact(w: World, e: Event)
    requires Intact(w.pool, w.held) && Enabled(w, e)
    ensures Intact(Step(w, e).pool, Step(w, e).held)
  {
    hide Partition, Accepts, MayWrite;
    var l :| Partition(w.pool, w.held, l);
    match e
    case AllocBlock =>
      AllocPartition(w.pool, w.held, l);
    case FreeBlock(ptr) =>
      if Accepts(w.pool, ptr) { FreePartition(w.pool, w.held, l, ptr); }
    case ClientWrite(a, v) => WritePartition(w.pool, w.held, l, a, v);
  }

  lemma {:induction false} RunIntact(w: World, es: seq<Event>)
    requires Intact(w.pool, w.held) && Legal(w, es)
    ensures Intact(Run(w, es).pool, Run(w, es).held)
    decreases |es|
  {
    hide Intact, Enabled, Step;
    if es != [] {
      StepIntact(w, es[0]);
      RunIntact(Step(w, es[0]), es[1..]);
    }
  }

  /** Pool safety: whatever clients do within the rules, free and held blocks partition the pool,
      and the free list inside the free blocks is acyclic with `freeCount` elements. */
  lemma PoolSafety(p: Pool, buffer: Address, size: nat, count: nat, es: seq<Event>)
    requires buffer > 0 && buffer % WORD == 0 && size >= WORD && size % WORD == 0 && count > 0
    requires Legal(World(Init(p, buffer, size, count), {}), es)
    ensures var w := Run(World(Init(p, buffer, size, count), {}), es); exists l :: Partition(w.pool, w.held, l)
  {
    hide Partition, Legal, Run;
    InitPartition(p, buffer, size, count);
    RunIntact(World(Init(p, buffer, size, count), {}), es);
  }
}
