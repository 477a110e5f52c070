/** Creating a task: a control block from one pool, a stack from another, and then the kernel
    (kernel/kalloc.c, kernel/task.c:85-134).  Either all of it happens or none. */
module TaskCreation {
  import opened Base
  import opened KernelState
  import opened Invariants
  import opened OwnedLists
  import opened Machine
  import opened Basics
  import opened Runs
  import opened KernelCode
  import opened PoolCode
  import opened Alignment
  import Pools = Mempool

  const OBJECT_SIZE: nat := 64
  const OBJECT_COUNT: nat := 32
  const STACK_WORDS: nat := 256
  const STACK_COUNT: nat := 8

  /** `sizeof(os_tcb_t)`: thirteen words. */
  const TCB_SIZE: nat := 52

  /** `os_task_create_args_t`, as far as the kernel looks at it. */
  datatype Args = Args(prio: Word, hasEntry: bool, stackWords: Word)

  /** The two pools with the blocks in use, and the kernel. */
  datatype Machinery = Machinery(objects: Pools.Pool, stacks: Pools.Pool, s: State)

  function ObjectAlloc(p: Pools.Pool, size: nat): (r: Pools.Pool) {
    if size == 0 || size > OBJECT_SIZE then p else Pools.Alloc(p)
  }

  function StackAlloc(p: Pools.Pool, words: nat): (r: Pools.Pool) {
    if words == 0 || words > STACK_WORDS then p else Pools.Alloc(p)
  }

  predicate GoodArgs(args: Option<Args>) {
    args.Some? && args.value.hasEntry && args.value.prio <= IDLE_PRIORITY
  }

  predicate StackAvailable(p: Pools.Pool, words: nat) {
    words != 0 && words <= STACK_WORDS && p.freeList != Pools.NULL
  }

  /** `os_kernel_task_create`, path by path: note that the stack is asked for after the block. */
  function TryCreate(m: Machinery, args: Option<Args>): (r: Machinery) {
    if !GoodArgs(args) then m
    else
      var t := m.objects.freeList;
      var objects := ObjectAlloc(m.objects, TCB_SIZE);
      if t == Pools.NULL then m.(objects := objects)
      else
        var stacks := StackAlloc(m.stacks, args.value.stackWords);
        if !StackAvailable(m.stacks, args.value.stackWords)
        then Machinery(Pools.Free(objects, t), stacks, m.s)
        else Machinery(objects, stacks, Create(m.s, t, args.value.prio))
  }

  /** What holds between kernel steps: the pools are intact, and every control block is held. */
  ghost predicate Sane(reading: Reading, m: Machinery, objects: set<Pools.Address>, stacks: set<Pools.Address>, idle: Tid) {
    && Pools.Intact(m.objects, objects) && Pools.Intact(m.stacks, stacks)
    && m.s.tasks.Keys <= objects && Inv(reading, m.s, idle)
  }

  predicate Succeeds(m: Machinery, args: Option<Args>) {
    GoodArgs(args) && m.objects.freeList != Pools.NULL && StackAvailable(m.stacks, args.value.stackWords)
  }

  lemma FreshBlock(p: Pools.Pool, held: set<Pools.Address>)
    requires Pools.Intact(p, held)
    ensures p.freeList != Pools.NULL ==> p.freeList !in held && Pools.Intact(Pools.Alloc(p), held + {p.freeList})
    ensures p.freeList == Pools.NULL ==> Pools.Alloc(p) == p
  {
    var l :| Pools.Partition(p, held, l);
    Pools.AllocPartition(p, held, l);
  }

  /** A failing create leaves both pools, down to their memory, and the kernel as they were. */
  lemma FailureChangesNothing(reading: Reading, m: Machinery, objects: set<Pools.Address>, stacks: set<Pools.Address>,
                              idle: Tid, args: Option<Args>)
    requires Sane(reading, m, objects, stacks, idle) && !Succeeds(m, args)
    ensures TryCreate(m, args) == m
  {
    hide Inv, Pools.Intact, Pools.Accepts;
    FreshBlock(m.objects, objects);
    FreshBlock(m.stacks, stacks);
    if GoodArgs(args) && m.objects.freeList != Pools.NULL {
      Pools.AllocThenFree(m.objects, objects);
    }
  }

  /** A successful create takes one block from each pool and adds one ready task, at the end of
      its priority's queue, under an address that no other task has; everything stays sane. */
  lemma SuccessAddsOneTask(reading: Reading, m: Machinery, objects: set<Pools.Address>, stacks: set<Pools.Address>,
                           idle: Tid, args: Option<Args>)
    requires Sane(reading, m, objects, stacks, idle) && Succeeds(m, args)
    requires m.s.current.None? || MayCall(m.s, idle)
    ensures var r := TryCreate(m, args); var t := m.objects.freeList; var p := args.value.prio;
      && t !in m.s.tasks && t !in objects
      && Sane(reading, r, objects + {t}, stacks + {m.stacks.freeList}, idle)
      && r.objects.freeCount == m.objects.freeCount - 1 && r.stacks.freeCount == m.stacks.freeCount - 1
      && r.s.tasks == m.s.tasks[t := NewTask(p)]
      && r.s.queues == m.s.queues[ReadyQ(p) := QueueOf(m.s, ReadyQ(p)) + [t]]
      && r.s == m.s.(tasks := r.s.tasks, queues := r.s.queues, next := r.s.next, pended := r.s.pended)
  {
    hide Inv, Pools.Intact, Top;
    FreshBlock(m.objects, objects);
    FreshBlock(m.stacks, stacks);
    StepInv(reading, m.s, idle, CreateTask(m.objects.freeList, args.value.prio));
  }

  /** A pool as `os_kalloc_init` leaves it: every block free. */
  ghost predicate AllFree(p: Pools.Pool) {
    Pools.Intact(p, {}) && p.freeList != Pools.NULL
  }

  /** The pool starts at `storage`, its blocks hold `bytes` each, and there are `count` of them, which
      fill exactly that many bytes. */
  ghost predicate LaidOut(p: Pools.Pool, storage: Pools.Address, bytes: nat, count: nat) {
    && p.start == storage && p.count == count && p.size >= bytes
    && Pools.End(p) == storage + count * bytes
  }

  /** The control blocks and the stacks, each in its own static storage (kernel/kalloc.c:8-13). */
  ghost predicate PoolsLaidOut(objects: Pools.Pool, stacks: Pools.Pool, objectStorage: Pools.Address, stackStorage: Pools.Address) {
    && LaidOut(objects, objectStorage, OBJECT_SIZE, OBJECT_COUNT) && TCB_SIZE <= OBJECT_SIZE
    && LaidOut(stacks, stackStorage, Pools.WORD * STACK_WORDS, STACK_COUNT)
  }

  lemma FreshPool(p: Pools.Pool, buffer: Pools.Address, size: nat, count: nat)
    requires buffer > 0 && buffer % Pools.WORD == 0 && size >= Pools.WORD && size % Pools.WORD == 0 && count > 0
    ensures AllFree(Pools.Init(p, buffer, size, count)) && LaidOut(Pools.Init(p, buffer, size, count), buffer, size, count)
  {
    Pools.LinkBlocksIs(Pools.Pool(p.mem, Pools.NULL, buffer, size, count, count), count);
    hide Pools.Init, Pools.Partition;
    Pools.InitPartition(p, buffer, size, count);
    Pools.AllocPartition(Pools.Init(p, buffer, size, count), {}, Pools.Backwards(buffer, size, count));
  }

  /** Booting creates the idle task, with 128 words of stack, and leaves everything sane. */
  lemma BootIsSane(reading: Reading, m: Machinery)
    requires AllFree(m.objects) && AllFree(m.stacks) && m.s == Cleared()
    ensures var idle := m.objects.freeList; var r := TryCreate(m, Some(Args(IDLE_PRIORITY, true, 128)));
      r.s == Booted(idle) && Sane(reading, r, {idle}, {m.stacks.freeList}, idle)
  {
    hide Inv, Pools.Intact, Create;
    var idle := m.objects.freeList;
    FreshBlock(m.objects, {});
    FreshBlock(m.stacks, {});
    assert {} + {idle} == {idle} && {} + {m.stacks.freeList} == {m.stacks.freeList};
    BootedInv(reading, idle);
    BootedIs(idle);
  }

  // ----- the routine in its own form

  class CreationService {
    const kernel: Kernel
    const objects: MemoryPool
    const stacks: MemoryPool

    constructor (k: Kernel, o: MemoryPool, s: MemoryPool)
      ensures kernel == k && objects == o && stacks == s
    {
      kernel, objects, stacks := k, o, s;
    }

    ghost function Now(): (m: Machinery)
      reads kernel, objects, stacks
    {
      Machinery(objects.pool, stacks.pool, kernel.st)
    }

    ghost predicate Coupled()
      reads kernel, kernel.queues, kernel.timeouts, objects, stacks
    {
      kernel.Coupled() && objects.Coupled() && stacks.Coupled() && objects != stacks
    }

    /** `os_kalloc_init`. */
    method InitialisePools(objectStorage: Pools.Address, stackStorage: Pools.Address)
      requires objects.Coupled() && stacks.Coupled() && objects != stacks
      requires objectStorage > 0 && objectStorage % Pools.WORD == 0 && stackStorage > 0 && stackStorage % Pools.WORD == 0
      modifies objects, stacks
      ensures objects.Coupled() && stacks.Coupled() && AllFree(objects.pool) && AllFree(stacks.pool)
      ensures PoolsLaidOut(objects.pool, stacks.pool, objectStorage, stackStorage)
    {
      hide AllFree, LaidOut, Pools.Init, MemoryPool.Coupled;
      var kernelBlock, stackBlock := BlockSizes();
      SetUp(objects, objectStorage, kernelBlock, OBJECT_COUNT);
      SetUp(stacks, stackStorage, stackBlock, STACK_COUNT);
    }

    static method SetUp(pool: MemoryPool, buffer: Pools.Address, size: nat, count: nat)
      requires pool.Coupled()
      requires buffer > 0 && buffer % Pools.WORD == 0 && size >= Pools.WORD && size % Pools.WORD == 0 && count > 0
      modifies pool
      ensures pool.Coupled() && AllFree(pool.pool) && LaidOut(pool.pool, buffer, size, count)
    {
      hide AllFree, LaidOut, Pools.Init, MemoryPool.Coupled;
      FreshPool(pool.pool, buffer, size, count);
      pool.Initialise(buffer, size, count);
    }

    method AllocObject(size: nat) returns (block: Pools.Address)
      requires objects.Coupled()
      modifies objects
      ensures objects.Coupled() && objects.pool == ObjectAlloc(old(objects.pool), size)
      ensures block == if size == 0 || size > OBJECT_SIZE then Pools.NULL else old(objects.pool).freeList
    {
      if size == 0 || size > OBJECT_SIZE {
        return Pools.NULL;
      }
      block := objects.Allocate();
    }

    method AllocStack(words: nat) returns (block: Pools.Address)
      requires stacks.Coupled()
      modifies stacks
      ensures stacks.Coupled() && stacks.pool == StackAlloc(old(stacks.pool), words)
      ensures block == if StackAvailable(old(stacks.pool), words) then old(stacks.pool).freeList else Pools.NULL
    {
      if words == 0 || words > STACK_WORDS {
        return Pools.NULL;
      }
      block := stacks.Allocate();
    }

    method CreateTask(args: Option<Args>, ghost reading: Reading, ghost idle: Tid,
                      ghost heldObjects: set<Pools.Address>, ghost heldStacks: set<Pools.Address>) returns (rc: int)
      requires Coupled() && Sane(reading, Now(), heldObjects, heldStacks, idle)
      modifies kernel, kernel.queues, kernel.timeouts, objects, stacks
      ensures Coupled() && Now() == TryCreate(old(Now()), args)
      ensures rc == if Succeeds(old(Now()), args) then 0 else -1
    {
      hide Inv, Create, Kernel.Coupled, MemoryPool.Coupled, Pools.Alloc, Pools.Free, Pools.Intact;
      if args.None? || !args.value.hasEntry || args.value.prio > IDLE_PRIORITY {
        return -1;
      }
      BeforeCreate(reading, Now(), heldObjects, heldStacks, idle);
      var tcb := AllocObject(TCB_SIZE);
      if tcb == Pools.NULL {
        return -1;
      }
      var stack := AllocStack(args.value.stackWords);
      if stack == Pools.NULL {
        var _ := objects.Release(tcb);
        return -1;
      }
      kernel.SameFields();
      kernel.AddTask(tcb, args.value.prio);
      return 0;
    }
  }

  lemma BeforeCreate(reading: Reading, m: Machinery, objects: set<Pools.Address>, stacks: set<Pools.Address>, idle: Tid)
    requires Sane(reading, m, objects, stacks, idle)
    ensures Shape(m.s) && Pools.Alloc(m.objects).size > 0
    ensures m.objects.freeList != Pools.NULL ==> m.objects.freeList !in m.s.tasks
  {
    hide Placed, Records, MutexesOk, Hinted, Attended;
    FreshBlock(m.objects, objects);
    var l :| Pools.Partition(m.objects, objects, l);
  }
}
