/** The memory of tasks, over all runs: every task has a control block and a stack of its own,
    and writes inside them disturb neither the pools nor any other task. */
module TaskMemory {
  import opened Base
  import opened KernelState
  import opened OwnedLists
  import opened Machine
  import opened StepChanges
  import opened Basics
  import opened Runs
  import opened TaskCreation
  import Pools = Mempool

  /** What `os_kstack_alloc` has given a task: `words` words from `bottom` up. */
  datatype Stack = Stack(bottom: Pools.Address, words: nat)

  /** The pools and the kernel, with the stacks handed out so far. */
  datatype World = World(m: Machinery, stacks: map<Tid, Stack>)

  /** A task is created, the kernel takes any other step, or a word of a task's stack or control
      block is written. */
  datatype Act =
    | MakeTask(args: Option<Args>)
    | Kernel(e: Event)
    | Push(t: Tid, a: Pools.Address, v: Pools.Address)
    | Note(t: Tid, a: Pools.Address, v: Pools.Address)

  /** The bytes of the stack of `t` reach from its bottom up to here. */
  function StackEnd(k: Stack): (a: Pools.Address) {
    k.bottom + Pools.WORD * k.words
  }

  ghost predicate MayAct(reading: Reading, w: World, idle: Tid, act: Act) {
    match act
    case MakeTask(_) => w.m.s.current.None? || MayCall(w.m.s, idle)
    case Kernel(e) => Enabled(reading, w.m.s, idle, e) && !e.CreateTask?
    case Push(t, a, _) => t in w.stacks && w.stacks[t].bottom <= a && a + Pools.WORD <= StackEnd(w.stacks[t])
    case Note(t, a, _) => t in w.stacks && t <= a && a + Pools.WORD <= t + TCB_SIZE
  }

  function Put(p: Pools.Pool, a: Pools.Address, v: Pools.Address): (r: Pools.Pool) {
    p.(mem := p.mem[a := v])
  }

  function Acted(reading: Reading, w: World, act: Act): (r: World) {
    match act
    case MakeTask(args) =>
      World(TryCreate(w.m, args),
        if Succeeds(w.m, args) then w.stacks[w.m.objects.freeList := Stack(w.m.stacks.freeList, args.value.stackWords)] else w.stacks)
    case Kernel(e) => w.(m := w.m.(s := Step(reading, w.m.s, e)))
    case Push(_, a, v) => w.(m := w.m.(stacks := Put(w.m.stacks, a, v)))
    case Note(_, a, v) => w.(m := w.m.(objects := Put(w.m.objects, a, v)))
  }

  ghost predicate LegalActs(reading: Reading, w: World, idle: Tid, acts: seq<Act>)
    decreases |acts|
  {
    acts == [] || (MayAct(reading, w, idle, acts[0]) && LegalActs(reading, Acted(reading, w, acts[0]), idle, acts[1..]))
  }

  function RunActs(reading: Reading, w: World, acts: seq<Act>): (r: World)
    decreases |acts|
  {
    if acts == [] then w else RunActs(reading, Acted(reading, w, acts[0]), acts[1..])
  }

  /** `m` as `os_kalloc_init` leaves it, with the kernel cleared. */
  ghost predicate Fresh(m: Machinery, objectStorage: Pools.Address, stackStorage: Pools.Address) {
    AllFree(m.objects) && AllFree(m.stacks) && PoolsLaidOut(m.objects, m.stacks, objectStorage, stackStorage) && m.s == Cleared()
  }

  /** The idle task and its stack of 128 words (kernel/main.c:24). */
  function Started(m: Machinery): (w: World) {
    Acted(Intended, World(m, map[]), MakeTask(Some(Args(IDLE_PRIORITY, true, 128))))
  }

  // ----- the invariant

  ghost function Bottoms(stacks: map<Tid, Stack>): (r: set<Pools.Address>) {
    set t | t in stacks :: stacks[t].bottom
  }

  /** Every task has a stack, no two begin at the same address, and none is longer than a block. */
  ghost predicate StacksOk(stacks: map<Tid, Stack>) {
    && (forall t, u :: t in stacks && u in stacks && t != u ==> stacks[t].bottom != stacks[u].bottom)
    && (forall t :: t in stacks ==> 1 <= stacks[t].words <= STACK_WORDS)
  }

  ghost predicate WorldOk(reading: Reading, w: World, idle: Tid, objectStorage: Pools.Address, stackStorage: Pools.Address) {
    && w.stacks.Keys == w.m.s.tasks.Keys && StacksOk(w.stacks)
    && Sane(reading, w.m, w.stacks.Keys, Bottoms(w.stacks), idle)
    && PoolsLaidOut(w.m.objects, w.m.stacks, objectStorage, stackStorage)
  }

  lemma BottomsAdd(stacks: map<Tid, Stack>, t: Tid, k: Stack)
    requires t !in stacks
    ensures Bottoms(stacks[t := k]) == Bottoms(stacks) + {k.bottom}
  {
    var r := stacks[t := k];
    assert forall u :: u in stacks ==> r[u] == stacks[u];
    forall a
      ensures a in Bottoms(r) <==> a in Bottoms(stacks) + {k.bottom}
    {
      if a in Bottoms(stacks) {
        var u :| u in stacks && stacks[u].bottom == a;
        assert u in r && r[u].bottom == a;
      }
      if a == k.bottom {
        assert t in r && r[t].bottom == a;
      }
    }
  }

  lemma {:induction false} BottomsCount(stacks: map<Tid, Stack>)
    requires StacksOk(stacks)
    ensures |Bottoms(stacks)| == |stacks|
    decreases |stacks|
  {
    if stacks == map[] {
      assert Bottoms(stacks) == {};
    } else {
      var t :| t in stacks;
      var rest := map u | u in stacks && u != t :: stacks[u];
      assert stacks == rest[t := stacks[t]] && t !in rest;
      BottomsCount(rest);
      BottomsAdd(rest, t, stacks[t]);
      assert stacks[t].bottom !in Bottoms(rest);
      assert |stacks| == |rest| + 1;
    }
  }

  /** A write inside a held block keeps a pool intact. */
  lemma PutIntact(p: Pools.Pool, held: set<Pools.Address>, b: Pools.Address, a: Pools.Address, v: Pools.Address)
    requires Pools.Intact(p, held) && b in held && b <= a && a + Pools.WORD <= b + p.size
    ensures Pools.Intact(Put(p, a, v), held)
  {
    hide Pools.Partition;
    var l :| Pools.Partition(p, held, l);
    assert Pools.MayWrite(p, held, a);
    Pools.WritePartition(p, held, l, a, v);
    assert Pools.Partition(Put(p, a, v), held, l);
  }

  // ----- one act

  /** Wherever a task comes from, it has a fresh block of each pool. */
  lemma MakeOk(reading: Reading, w: World, idle: Tid, args: Option<Args>, objectStorage: Pools.Address, stackStorage: Pools.Address)
    requires WorldOk(reading, w, idle, objectStorage, stackStorage) && MayAct(reading, w, idle, MakeTask(args))
    ensures WorldOk(reading, Acted(reading, w, MakeTask(args)), idle, objectStorage, stackStorage)
  {
    hide Inv, Pools.Intact, MayCall, PoolsLaidOut, Create;
    var m, objects, stacks := w.m, w.stacks.Keys, Bottoms(w.stacks);
    if Succeeds(m, args) {
      var t, k := m.objects.freeList, Stack(m.stacks.freeList, args.value.stackWords);
      SuccessAddsOneTask(reading, m, objects, stacks, idle, args);
      BottomsAdd(w.stacks, t, k);
      FreshBlock(m.stacks, stacks);
      StacksAdd(w.stacks, t, k);
      assert w.stacks[t := k].Keys == objects + {t};
      MakeLaidOut(m, args, objectStorage, stackStorage);
    } else {
      FailureChangesNothing(reading, m, objects, stacks, idle, args);
    }
  }

  lemma StacksAdd(stacks: map<Tid, Stack>, t: Tid, k: Stack)
    requires StacksOk(stacks) && t !in stacks && k.bottom !in Bottoms(stacks) && 1 <= k.words <= STACK_WORDS
    ensures StacksOk(stacks[t := k])
  {
    assert forall u :: u in stacks ==> stacks[u].bottom in Bottoms(stacks);
  }

  lemma MakeLaidOut(m: Machinery, args: Option<Args>, objectStorage: Pools.Address, stackStorage: Pools.Address)
    requires PoolsLaidOut(m.objects, m.stacks, objectStorage, stackStorage) && Succeeds(m, args)
    ensures var r := TryCreate(m, args); PoolsLaidOut(r.objects, r.stacks, objectStorage, stackStorage)
  {
    hide Create;
  }

  lemma KernelOk(reading: Reading, w: World, idle: Tid, e: Event, objectStorage: Pools.Address, stackStorage: Pools.Address)
    requires WorldOk(reading, w, idle, objectStorage, stackStorage) && MayAct(reading, w, idle, Kernel(e))
    ensures WorldOk(reading, Acted(reading, w, Kernel(e)), idle, objectStorage, stackStorage)
  {
    hide Inv, Pools.Intact, Enabled, Step, PoolsLaidOut, OwnersOnly, CountsOnly, HintsOnly, Mover;
    StepInv(reading, w.m.s, idle, e);
    StepChangesOnly(reading, w.m.s, idle, e);
  }

  lemma WriteOk(reading: Reading, w: World, idle: Tid, act: Act, objectStorage: Pools.Address, stackStorage: Pools.Address)
    requires WorldOk(reading, w, idle, objectStorage, stackStorage) && MayAct(reading, w, idle, act) && (act.Push? || act.Note?)
    ensures WorldOk(reading, Acted(reading, w, act), idle, objectStorage, stackStorage)
  {
    hide Inv, Pools.Intact, Step, Enabled;
    if act.Push? {
      assert w.stacks[act.t].bottom in Bottoms(w.stacks);
      PutIntact(w.m.stacks, Bottoms(w.stacks), w.stacks[act.t].bottom, act.a, act.v);
    } else {
      PutIntact(w.m.objects, w.stacks.Keys, act.t, act.a, act.v);
    }
  }

  lemma ActOk(reading: Reading, w: World, idle: Tid, act: Act, objectStorage: Pools.Address, stackStorage: Pools.Address)
    requires WorldOk(reading, w, idle, objectStorage, stackStorage) && MayAct(reading, w, idle, act)
    ensures WorldOk(reading, Acted(reading, w, act), idle, objectStorage, stackStorage)
  {
    hide WorldOk, MayAct, Acted;
    match act
    case MakeTask(args) => MakeOk(reading, w, idle, args, objectStorage, stackStorage);
    case Kernel(e) => KernelOk(reading, w, idle, e, objectStorage, stackStorage);
    case _ => WriteOk(reading, w, idle, act, objectStorage, stackStorage);
  }

  lemma {:induction false} RunOk(reading: Reading, w: World, idle: Tid, acts: seq<Act>, objectStorage: Pools.Address, stackStorage: Pools.Address)
    requires WorldOk(reading, w, idle, objectStorage, stackStorage) && LegalActs(reading, w, idle, acts)
    ensures WorldOk(reading, RunActs(reading, w, acts), idle, objectStorage, stackStorage)
    decreases |acts|
  {
    hide WorldOk, MayAct, Acted;
    if acts != [] {
      ActOk(reading, w, idle, acts[0], objectStorage, stackStorage);
      RunOk(reading, Acted(reading, w, acts[0]), idle, acts[1..], objectStorage, stackStorage);
    }
  }

  lemma StartedOk(reading: Reading, m: Machinery, objectStorage: Pools.Address, stackStorage: Pools.Address)
    requires Fresh(m, objectStorage, stackStorage)
    ensures WorldOk(reading, Started(m), m.objects.freeList, objectStorage, stackStorage)
  {
    hide Inv, Pools.Intact, Create, PoolsLaidOut;
    var args := Some(Args(IDLE_PRIORITY, true, 128));
    var idle, k := m.objects.freeList, Stack(m.stacks.freeList, 128);
    BootIsSane(reading, m);
    BootedIs(idle);
    var none: map<Tid, Stack> := map[];
    assert Bottoms(none) == {};
    BottomsAdd(none, idle, k);
    assert Bottoms(none[idle := k]) == {k.bottom} && none[idle := k].Keys == {idle};
    assert Succeeds(m, args) && Started(m).stacks == none[idle := k];
    MakeLaidOut(m, args, objectStorage, stackStorage);
  }

  // ----- what tasks can rely on

  /** `w` is reached from freshly initialised pools, with the idle task as the first. */
  ghost predicate Reached(reading: Reading, m: Machinery, objectStorage: Pools.Address, stackStorage: Pools.Address, acts: seq<Act>, w: World) {
    && Fresh(m, objectStorage, stackStorage)
    && LegalActs(reading, Started(m), m.objects.freeList, acts) && w == RunActs(reading, Started(m), acts)
  }

  lemma ReachedOk(reading: Reading, m: Machinery, objectStorage: Pools.Address, stackStorage: Pools.Address, acts: seq<Act>, w: World)
    requires Reached(reading, m, objectStorage, stackStorage, acts, w)
    ensures WorldOk(reading, w, m.objects.freeList, objectStorage, stackStorage)
  {
    hide Fresh, Started, LegalActs, RunActs, WorldOk;
    StartedOk(reading, m, objectStorage, stackStorage);
    RunOk(reading, Started(m), m.objects.freeList, acts, objectStorage, stackStorage);
  }

  /** Held blocks lie inside the pool and apart. */
  lemma HeldApart(p: Pools.Pool, held: set<Pools.Address>, a: Pools.Address, b: Pools.Address)
    requires Pools.Intact(p, held) && a in held && b in held
    ensures p.start <= a && a + p.size <= Pools.End(p)
    ensures a != b ==> a + p.size <= b || b + p.size <= a
  {
    var l :| Pools.Partition(p, held, l);
    assert Pools.IsBlock(p, a) && Pools.IsBlock(p, b);
    var k: nat :| k < p.count && a == Pools.Block(p.start, p.size, k);
    Pools.BlocksApart(p.start, p.size, k, p.count);
    if a != b { Pools.Apart(p, a, b); }
  }

  /** In every run each task has a stack of the words asked for and a control block, inside the
      storage for them; no two tasks share a byte of either. */
  lemma TasksApart(reading: Reading, m: Machinery, objectStorage: Pools.Address, stackStorage: Pools.Address, acts: seq<Act>, w: World, t: Tid, u: Tid)
    requires Reached(reading, m, objectStorage, stackStorage, acts, w) && t in w.m.s.tasks && u in w.m.s.tasks
    ensures t in w.stacks && u in w.stacks && 1 <= w.stacks[t].words <= 256
    ensures stackStorage <= w.stacks[t].bottom && StackEnd(w.stacks[t]) <= stackStorage + 8 * 1024
    ensures objectStorage <= t && t + TCB_SIZE <= objectStorage + 32 * 64
    ensures t != u ==> StackEnd(w.stacks[t]) <= w.stacks[u].bottom || StackEnd(w.stacks[u]) <= w.stacks[t].bottom
    ensures t != u ==> t + TCB_SIZE <= u || u + TCB_SIZE <= t
  {
    hide Reached, Inv, Pools.Intact, Pools.End;
    ReachedOk(reading, m, objectStorage, stackStorage, acts, w);
    assert w.stacks[t].bottom in Bottoms(w.stacks) && w.stacks[u].bottom in Bottoms(w.stacks);
    HeldApart(w.m.stacks, Bottoms(w.stacks), w.stacks[t].bottom, w.stacks[u].bottom);
    HeldApart(w.m.objects, w.stacks.Keys, t, u);
  }

  lemma FreeIff(p: Pools.Pool, held: set<Pools.Address>)
    requires Pools.Intact(p, held)
    ensures |held| <= p.count && (p.freeList == Pools.NULL <==> |held| == p.count)
  {
    var l :| Pools.Partition(p, held, l);
    Pools.AllocPartition(p, held, l);
    hide Pools.IsBlock;
  }

  /** In every run a task can be created if and only if the arguments are in order and there are
      fewer than eight tasks, the idle task included. */
  lemma CreateSucceedsIff(reading: Reading, m: Machinery, objectStorage: Pools.Address, stackStorage: Pools.Address, acts: seq<Act>,
                          w: World, args: Option<Args>)
    requires Reached(reading, m, objectStorage, stackStorage, acts, w)
    ensures Succeeds(w.m, args) <==>
      && args.Some? && args.value.hasEntry && args.value.prio <= 3 && 1 <= args.value.stackWords <= 256
      && |w.m.s.tasks| < 8
  {
    hide Reached, Inv, Pools.Intact, Pools.End;
    ReachedOk(reading, m, objectStorage, stackStorage, acts, w);
    FreeIff(w.m.objects, w.stacks.Keys);
    FreeIff(w.m.stacks, Bottoms(w.stacks));
    BottomsCount(w.stacks);
    assert |w.stacks.Keys| == |w.stacks| == |w.m.s.tasks.Keys| == |w.m.s.tasks|;
  }
}
