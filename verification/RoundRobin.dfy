/** Time slicing is fair: tasks ready at the most urgent level take turns, one tick each. */
module RoundRobin {
  import opened Base
  import opened KernelState
  import opened Invariants
  import opened OwnedLists
  import opened Dispatch
  import opened Machine
  import opened Basics
  import opened Runs

  /** A tick followed by the context switch it pends, if any. */
  function Slice(s: State): (r: State) {
    if Tick(s).pended then Commit(Tick(s)) else Tick(s)
  }

  function Slices(s: State, k: nat): (r: State) {
    if k == 0 then s else Slice(Slices(s, k - 1))
  }

  /** Nobody is due to wake at the `k`-th tick from now. */
  ghost predicate NobodyDue(s: State, k: nat) {
    s.timeouts != [] ==> !TickReached((s.tick + k) % 0x1_0000_0000, TaskOf(s.tasks, s.timeouts[0]).wake)
  }

  /** The running task heads the ready queue `l` of the most urgent level, `p`. */
  ghost predicate Heads(reading: Reading, s: State, idle: Tid, p: Priority, l: seq<Tid>) {
    && Inv(reading, s, idle) && !s.pended
    && l != [] && QueueOf(s, ReadyQ(p)) == l && s.current == Some(l[0]) && MostUrgent(s, p)
  }

  function Rotated(l: seq<Tid>, k: nat): (r: seq<Tid>)
    requires k <= |l|
  {
    l[k..] + l[..k]
  }

  lemma HeadPriority(reading: Reading, s: State, idle: Tid, p: Priority, l: seq<Tid>)
    requires Heads(reading, s, idle, p, l)
    ensures forall t :: t in l ==> t in s.tasks && s.tasks[t].prio == p && !s.tasks[t].status.Blocked?
    ensures NoDup(l) && Top(s) == Some(l[0])
  {
    hide Sorted, MutexesOk, Hinted, Rest;
    assert forall t :: t in l ==> t in s.queues[ReadyQ(p)];
    TopOfLevel(s, p);
  }

  /** With nobody due, processing the timeouts changes nothing but the choice of the next task. */
  lemma QuietTimeouts(s: State, a: State)
    requires a == s.(tick := (s.tick + 1) % 0x1_0000_0000) && NobodyDue(s, 1) && Top(s) == s.current && !s.pended
    ensures ProcessTimeouts(a) == a.(next := s.current)
  {
  }

  /** Rotating and rescheduling, when the running task heads the most urgent level. */
  lemma RotateAndPick(b: State, p: Priority, l: seq<Tid>)
    requires l != [] && QueueOf(b, ReadyQ(p)) == l && b.current == Some(l[0]) && MostUrgent(b, p) && NoDup(l)
    requires TaskOf(b.tasks, l[0]).prio == p && !b.pended && ReadyQ(p) in b.queues
    ensures var r := Reschedule(RotateCurrent(b));
      && QueueOf(r, ReadyQ(p)) == Rotated(l, 1) && MostUrgent(r, p)
      && r.next == Some(Rotated(l, 1)[0]) && r.pended == (|l| > 1)
      && r == b.(queues := r.queues, next := r.next, pended := r.pended)
  {
    hide Rotated, TopFrom;
    RotatedOnce(l);
    NextDiffers(l);
    var d := RotateCurrent(b);
    assert d == if |l| == 1 then b else SetQueue(b, ReadyQ(p), Rotated(l, 1));
    TopOfLevel(d, p);
  }

  /** With nobody due, the tick only moves the running task to the back of its level. */
  lemma QuietTick(reading: Reading, s: State, idle: Tid, p: Priority, l: seq<Tid>)
    requires Heads(reading, s, idle, p, l) && NobodyDue(s, 1)
    ensures Rotated(l, 1) != []
    ensures var r := Tick(s);
      && QueueOf(r, ReadyQ(p)) == Rotated(l, 1) && MostUrgent(r, p)
      && r.next == Some(Rotated(l, 1)[0]) && r.pended == (|l| > 1)
      && r == s.(tick := (s.tick + 1) % 0x1_0000_0000, queues := r.queues, next := r.next, pended := r.pended)
  {
    hide Inv, Rotated, Top, Reschedule, ProcessTimeouts, RotateCurrent, NobodyDue;
    HeadPriority(reading, s, idle, p, l);
    RotatedOnce(l);
    var a := s.(tick := (s.tick + 1) % 0x1_0000_0000);
    QuietTimeouts(s, a);
    RotateAndPick(a.(next := s.current), p, l);
  }

  lemma RotatedOnce(l: seq<Tid>)
    requires l != []
    ensures Rotated(l, 1) == l[1..] + [l[0]] && Rotated(l, 1) != [] && (|l| == 1 ==> Rotated(l, 1) == l)
  {
  }

  lemma NextDiffers(l: seq<Tid>)
    requires l != [] && NoDup(l)
    ensures Rotated(l, 1)[0] == l[0] <==> |l| == 1
  {
  }

  lemma SliceRotates(reading: Reading, s: State, idle: Tid, p: Priority, l: seq<Tid>)
    requires Heads(reading, s, idle, p, l) && NobodyDue(s, 1)
    ensures Heads(reading, Slice(s), idle, p, Rotated(l, 1))
    ensures Slice(s).timeouts == s.timeouts && Slice(s).tick == (s.tick + 1) % 0x1_0000_0000
    ensures forall t :: TaskOf(Slice(s).tasks, t).wake == TaskOf(s.tasks, t).wake
  {
    hide Inv, Rotated, TopFrom, Tick, Commit;
    QuietTick(reading, s, idle, p, l);
    TickKeeps(reading, s, idle);
    RotatedOnce(l);
    var r := Tick(s);
    if r.pended {
      CommitKeeps(reading, r, idle);
      CommitQueues(r, p);
    }
  }

  lemma TickKeeps(reading: Reading, s: State, idle: Tid)
    requires Inv(reading, s, idle) && s.current.Some?
    ensures Inv(reading, Tick(s), idle)
  {
    hide Inv, Tick;
    StepInv(reading, s, idle, TickInterrupt);
  }

  lemma CommitKeeps(reading: Reading, s: State, idle: Tid)
    requires Inv(reading, s, idle) && s.pended
    ensures Inv(reading, Commit(s), idle)
  {
    hide Inv, Commit;
    StepInv(reading, s, idle, SwitchContext);
  }

  lemma CommitQueues(s: State, p: Priority)
    requires s.next.Some?
    ensures var r := Commit(s);
      && QueueOf(r, ReadyQ(p)) == QueueOf(s, ReadyQ(p)) && (MostUrgent(s, p) ==> MostUrgent(r, p))
      && r.current == s.next && !r.pended && r.timeouts == s.timeouts && r.tick == s.tick
      && forall t :: TaskOf(r.tasks, t).wake == TaskOf(s.tasks, t).wake
  {
  }

  lemma RotatedTwice(l: seq<Tid>, k: nat)
    requires k < |l|
    ensures Rotated(Rotated(l, k), 1) == Rotated(l, k + 1)
  {
  }

  lemma {:induction false} SlicesRotate(reading: Reading, s: State, idle: Tid, p: Priority, l: seq<Tid>, k: nat)
    requires Heads(reading, s, idle, p, l) && k <= |l|
    requires forall j :: 1 <= j <= k ==> NobodyDue(s, j)
    ensures Heads(reading, Slices(s, k), idle, p, Rotated(l, k))
    ensures var r := Slices(s, k);
      && r.timeouts == s.timeouts && r.tick == (s.tick + k) % 0x1_0000_0000
      && forall t :: TaskOf(r.tasks, t).wake == TaskOf(s.tasks, t).wake
  {
    hide Inv, Slice, TickReached;
    if k > 0 {
      SlicesRotate(reading, s, idle, p, l, k - 1);
      var r := Slices(s, k - 1);
      TickAdds(s.tick, k - 1);
      assert NobodyDue(s, k);
      assert NobodyDue(r, 1);
      SliceRotates(reading, r, idle, p, Rotated(l, k - 1));
      RotatedTwice(l, k - 1);
    } else {
      assert Rotated(l, 0) == l;
    }
  }

  lemma TickAdds(tick: Word, k: nat)
    ensures ((tick + k) % 0x1_0000_0000 + 1) % 0x1_0000_0000 == (tick + (k + 1)) % 0x1_0000_0000
    ensures tick % 0x1_0000_0000 == tick
  {
  }

  /** Round-robin fairness: with `l` the ready queue of the most urgent level, the running task
      at its head and nobody due to wake, |l| time slices run every task of `l` exactly once,
      in queue order, and restore the queue. */
  lemma EveryTaskTakesItsTurn(reading: Reading, s: State, idle: Tid, p: Priority, l: seq<Tid>)
    requires Reachable(reading, s, idle) && !s.pended && l != []
    requires QueueOf(s, ReadyQ(p)) == l && s.current == Some(l[0]) && MostUrgent(s, p)
    requires forall j :: 1 <= j <= |l| ==> NobodyDue(s, j)
    ensures forall k :: 0 <= k < |l| ==> Slices(s, k).current == Some(l[k])
    ensures forall j, k :: 0 <= j < k < |l| ==> Slices(s, j).current != Slices(s, k).current
    ensures QueueOf(Slices(s, |l|), ReadyQ(p)) == l && Slices(s, |l|).current == Some(l[0])
  {
    hide Inv, Reachable, Slices, NobodyDue;
    ReachableInv(reading, s, idle);
    HeadPriority(reading, s, idle, p, l);
    forall k | 0 <= k <= |l|
      ensures Slices(s, k).current == Some(Rotated(l, k)[0]) && QueueOf(Slices(s, k), ReadyQ(p)) == Rotated(l, k)
    {
      SlicesRotate(reading, s, idle, p, l, k);
    }
    assert Rotated(l, |l|) == l;
  }
}
