/** All the queues in one memory: the kernel's queues share the `next`/`prev` links of the task
    control blocks, and no task is in two of them.  Rewriting one queue leaves the others as
    they are. */
module QueueMemory {
  import opened Base
  import opened KernelState
  import opened Links

  /** No task is in two queues. */
  ghost predicate Apart(lists: map<QueueId, seq<Tid>>) {
    forall p, q, t :: p in lists && q in lists && t in lists[p] && t in lists[q] ==> p == q
  }

  ghost predicate AllLists(next: map<Address, Pointer>, prev: map<Address, Pointer>,
                           heads: map<QueueId, Pointer>, tails: map<QueueId, Pointer>, lists: map<QueueId, seq<Tid>>) {
    && heads.Keys == lists.Keys && tails.Keys == lists.Keys && Apart(lists)
    && forall q :: q in lists ==> IsList(next, prev, heads[q], tails[q], lists[q])
  }

  /** One queue is rewritten; the links of everything outside it are as they were. */
  lemma OneListChanges(next: map<Address, Pointer>, prev: map<Address, Pointer>,
                       heads: map<QueueId, Pointer>, tails: map<QueueId, Pointer>, lists: map<QueueId, seq<Tid>>,
                       next': map<Address, Pointer>, prev': map<Address, Pointer>,
                       heads': map<QueueId, Pointer>, tails': map<QueueId, Pointer>, q: QueueId, l: seq<Tid>)
    requires AllLists(next, prev, heads, tails, lists) && q in lists && Apart(lists[q := l])
    requires q in heads' && q in tails' && heads' == heads[q := heads'[q]] && tails' == tails[q := tails'[q]]
    requires IsList(next', prev', heads'[q], tails'[q], l)
    requires forall x :: x !in lists[q] && x !in l ==> SameLinks(next, prev, next', prev', x)
    ensures AllLists(next', prev', heads', tails', lists[q := l])
  {
    hide IsList, SameLinks;
    forall p | p in lists && p != q
      ensures IsList(next', prev', heads'[p], tails'[p], lists[p])
    {
      forall x | x in lists[p]
        ensures SameLinks(next, prev, next', prev', x)
      {
        ApartFrom(lists, p, q, x);
        ApartFrom(lists[q := l], p, q, x);
      }
      ListFrame(next, prev, next', prev', heads[p], tails[p], lists[p]);
    }
  }

  lemma ApartFrom(lists: map<QueueId, seq<Tid>>, p: QueueId, q: QueueId, x: Tid)
    requires Apart(lists) && p in lists && q in lists && p != q && x in lists[p]
    ensures x !in lists[q]
  {
  }

  lemma ApartAfter(lists: map<QueueId, seq<Tid>>, q: QueueId, l: seq<Tid>)
    requires Apart(lists) && q in lists
    requires forall x, p :: x in l && p in lists && p != q ==> x !in lists[p]
    ensures Apart(lists[q := l])
  {
  }

  lemma AppendLists(next: map<Address, Pointer>, prev: map<Address, Pointer>,
                    heads: map<QueueId, Pointer>, tails: map<QueueId, Pointer>, lists: map<QueueId, seq<Tid>>,
                    next': map<Address, Pointer>, prev': map<Address, Pointer>,
                    heads': map<QueueId, Pointer>, tails': map<QueueId, Pointer>, q: QueueId, t: Tid)
    requires AllLists(next, prev, heads, tails, lists) && q in lists && forall p :: p in lists ==> t !in lists[p]
    requires next' == (if tails[q].Some? then next[t := None][tails[q].value := Some(t)] else next[t := None])
    requires prev' == prev[t := tails[q]]
    requires heads' == (if tails[q].Some? then heads else heads[q := Some(t)]) && tails' == tails[q := Some(t)]
    ensures AllLists(next', prev', heads', tails', lists[q := lists[q] + [t]])
  {
    var l := lists[q];
    ListAppend(next, prev, next', prev', heads[q], tails[q], l, t);
    assert heads == heads[q := heads[q]];
    assert tails[q].Some? ==> tails[q].value in l;
    hide IsList;
    ApartAfter(lists, q, l + [t]);
    hide Apart;
    OneListChanges(next, prev, heads, tails, lists, next', prev', heads', tails', q, l + [t]);
  }

  lemma RemoveLists(next: map<Address, Pointer>, prev: map<Address, Pointer>,
                    heads: map<QueueId, Pointer>, tails: map<QueueId, Pointer>, lists: map<QueueId, seq<Tid>>,
                    next': map<Address, Pointer>, prev': map<Address, Pointer>,
                    heads': map<QueueId, Pointer>, tails': map<QueueId, Pointer>, q: QueueId, t: Tid)
    requires AllLists(next, prev, heads, tails, lists) && q in lists && t in lists[q] && NoDup(lists[q]) && t in next && t in prev
    requires next' == (if prev[t].Some? then next[prev[t].value := next[t]] else next)[t := None]
    requires prev' == (if next[t].Some? then prev[next[t].value := prev[t]] else prev)[t := None]
    requires heads' == if prev[t].Some? then heads else heads[q := next[t]]
    requires tails' == if next[t].Some? then tails else tails[q := prev[t]]
    ensures AllLists(next', prev', heads', tails', lists[q := Without(lists[q], t)])
    ensures forall p :: p in lists && p != q ==> t !in lists[p]
    ensures t !in Without(lists[q], t)
  {
    hide IsList, Without, Apart;
    var l := lists[q];
    var k := IndexOf(l, t);
    Neighbours(next, prev, heads[q], tails[q], l, k);
    ListRemove(next, prev, next', prev', heads[q], tails[q], l, k);
    RemoveAt(lists, q, t);
    OneListChanges(next, prev, heads, tails, lists, next', prev', heads', tails', q, Without(l, t));
  }

  lemma RemoveAt(lists: map<QueueId, seq<Tid>>, q: QueueId, t: Tid)
    requires Apart(lists) && q in lists && t in lists[q] && NoDup(lists[q])
    ensures var l := lists[q]; Without(l, t) == l[..IndexOf(l, t)] + l[IndexOf(l, t) + 1..] && t !in Without(l, t)
    ensures Apart(lists[q := Without(lists[q], t)])
    ensures forall p :: p in lists && p != q ==> t !in lists[p]
  {
  }

  lemma InsertLists(next: map<Address, Pointer>, prev: map<Address, Pointer>,
                    heads: map<QueueId, Pointer>, tails: map<QueueId, Pointer>, lists: map<QueueId, seq<Tid>>,
                    next': map<Address, Pointer>, prev': map<Address, Pointer>,
                    heads': map<QueueId, Pointer>, q: QueueId, t: Tid, k: nat)
    requires AllLists(next, prev, heads, tails, lists) && q in lists && forall p :: p in lists ==> t !in lists[p]
    requires k < |lists[q]| && lists[q][k] in prev
    requires var p := prev[lists[q][k]];
      && next' == (if p.Some? then next[t := Some(lists[q][k])][p.value := Some(t)] else next[t := Some(lists[q][k])])
      && prev' == prev[t := p][lists[q][k] := Some(t)]
      && heads' == if p.Some? then heads else heads[q := Some(t)]
    ensures AllLists(next', prev', heads', tails, lists[q := InsertAt(lists[q], k, t)])
  {
    hide IsList, Apart;
    var l := lists[q];
    Neighbours(next, prev, heads[q], tails[q], l, k);
    ListInsert(next, prev, next', prev', heads[q], tails[q], l, k, t);
    InsertApart(lists, q, t, k);
    assert tails == tails[q := tails[q]];
    OneListChanges(next, prev, heads, tails, lists, next', prev', heads', tails, q, InsertAt(l, k, t));
  }

  lemma InsertApart(lists: map<QueueId, seq<Tid>>, q: QueueId, t: Tid, k: nat)
    requires Apart(lists) && q in lists && k <= |lists[q]| && forall p :: p in lists ==> t !in lists[p]
    ensures Apart(lists[q := InsertAt(lists[q], k, t)])
    ensures forall x :: x in InsertAt(lists[q], k, t) <==> x in lists[q] || x == t
  {
  }

  /** Links of an object that is in no queue may be set at will. */
  lemma LooseLinks(next: map<Address, Pointer>, prev: map<Address, Pointer>,
                   heads: map<QueueId, Pointer>, tails: map<QueueId, Pointer>, lists: map<QueueId, seq<Tid>>, t: Tid)
    requires AllLists(next, prev, heads, tails, lists) && forall p :: p in lists ==> t !in lists[p]
    ensures AllLists(next[t := None], prev[t := None], heads, tails, lists)
  {
    hide IsList, Apart;
    forall q | q in lists
      ensures IsList(next[t := None], prev[t := None], heads[q], tails[q], lists[q])
    {
      ListFrame(next, prev, next[t := None], prev[t := None], heads[q], tails[q], lists[q]);
    }
  }

  lemma RotateLists(next: map<Address, Pointer>, prev: map<Address, Pointer>,
                    heads: map<QueueId, Pointer>, tails: map<QueueId, Pointer>, lists: map<QueueId, seq<Tid>>,
                    next': map<Address, Pointer>, prev': map<Address, Pointer>,
                    heads': map<QueueId, Pointer>, tails': map<QueueId, Pointer>, q: QueueId)
    requires AllLists(next, prev, heads, tails, lists) && q in lists && |lists[q]| > 1
    requires next' == next[lists[q][0] := None][lists[q][|lists[q]| - 1] := Some(lists[q][0])]
    requires prev' == prev[lists[q][1] := None][lists[q][0] := tails[q]]
    requires heads' == heads[q := Some(lists[q][1])] && tails' == tails[q := Some(lists[q][0])]
    ensures AllLists(next', prev', heads', tails', lists[q := lists[q][1..] + [lists[q][0]]])
  {
    hide IsList, Apart;
    var l := lists[q];
    var r := l[1..] + [l[0]];
    ListRotate(next, prev, next', prev', heads[q], tails[q], l);
    assert forall x :: x in r ==> x in l;
    SubsetApart(lists, q, r);
    OneListChanges(next, prev, heads, tails, lists, next', prev', heads', tails', q, r);
  }

  lemma SubsetApart(lists: map<QueueId, seq<Tid>>, q: QueueId, l: seq<Tid>)
    requires Apart(lists) && q in lists && forall x :: x in l ==> x in lists[q]
    ensures Apart(lists[q := l])
  {
  }

  lemma PriorityPosIs(tasks: map<Tid, Task>, l: seq<Tid>, p: Priority, k: nat)
    requires k <= |l| && (forall i :: 0 <= i < k ==> TaskOf(tasks, l[i]).prio <= p)
    requires k < |l| ==> TaskOf(tasks, l[k]).prio > p
    ensures PriorityPos(tasks, l, p) == k
  {
  }

  lemma EmptyList(next: map<Address, Pointer>, prev: map<Address, Pointer>)
    ensures IsList(next, prev, None, None, [])
  {
  }

  /** `t` is in no queue. */
  ghost predicate Absent(lists: map<QueueId, seq<Tid>>, t: Tid) {
    forall q :: q in lists ==> t !in lists[q]
  }

  /** The `next`/`prev` links of the task control blocks and the queue heads and tails, with
      the routines of kernel/scheduler.c:17-117.  The ghost field `lists` is what they spell. */
  class TaskQueues {
    var nextOf: map<Tid, Pointer>
    var prevOf: map<Tid, Pointer>
    var headOf: map<QueueId, Pointer>
    var tailOf: map<QueueId, Pointer>
    ghost var lists: map<QueueId, seq<Tid>>

    ghost predicate Valid()
      reads this
    {
      AllLists(nextOf, prevOf, headOf, tailOf, lists)
    }

    constructor ()
      ensures Valid() && lists == Cleared().queues
    {
      nextOf, prevOf := map[], map[];
      headOf := map[ReadyQ(0) := None, ReadyQ(1) := None, ReadyQ(2) := None, ReadyQ(3) := None, Sleep := None];
      tailOf := map[ReadyQ(0) := None, ReadyQ(1) := None, ReadyQ(2) := None, ReadyQ(3) := None, Sleep := None];
      lists := Cleared().queues;
    }

    /** A queue struct is set up empty (kernel/mutex.c:11-12, kernel/semaphore.c:12-13). */
    method NewQueue(q: QueueId)
      requires Valid() && q !in lists
      modifies this
      ensures Valid() && lists == old(lists)[q := []]
    {
      hide IsList;
      headOf := headOf[q := None];
      tailOf := tailOf[q := None];
      lists := lists[q := []];
      EmptyList(nextOf, prevOf);
    }

    method Add(q: QueueId, t: Tid)
      requires Valid() && q in lists && Absent(lists, t)
      modifies this
      ensures Valid() && lists == old(lists)[q := old(lists)[q] + [t]]
    {
      hide IsList, Apart;
      nextOf := nextOf[t := None];
      prevOf := prevOf[t := tailOf[q]];
      if tailOf[q].Some? {
        nextOf := nextOf[tailOf[q].value := Some(t)];
      } else {
        headOf := headOf[q := Some(t)];
      }
      tailOf := tailOf[q := Some(t)];
      AppendLists(old(nextOf), old(prevOf), old(headOf), old(tailOf), lists, nextOf, prevOf, headOf, tailOf, q, t);
      lists := lists[q := lists[q] + [t]];
    }

    method Remove(q: QueueId, t: Tid)
      requires Valid() && q in lists && t in lists[q]
      modifies this
      ensures Valid() && lists == old(lists)[q := Without(old(lists)[q], t)] && Absent(lists, t)
    {
      hide IsList, Apart;
      HasLinks(q, t);
      var n, p := nextOf[t], prevOf[t];
      if p.Some? {
        nextOf := nextOf[p.value := n];
      } else {
        headOf := headOf[q := n];
      }
      if n.Some? {
        prevOf := prevOf[n.value := p];
      } else {
        tailOf := tailOf[q := p];
      }
      nextOf := nextOf[t := None];
      prevOf := prevOf[t := None];
      RemoveLists(old(nextOf), old(prevOf), old(headOf), old(tailOf), lists, nextOf, prevOf, headOf, tailOf, q, t);
      lists := lists[q := Without(lists[q], t)];
    }

    lemma HasLinks(q: QueueId, t: Tid)
      requires Valid() && q in lists && t in lists[q]
      ensures t in nextOf && t in prevOf && NoDup(lists[q])
    {
    }

    method Peek(q: QueueId) returns (t: Pointer)
      requires Valid() && q in lists
      ensures t == if lists[q] == [] then None else Some(lists[q][0])
    {
      HeadLinks(q);
      t := headOf[q];
    }

    method InsertByPriority(q: QueueId, t: Tid, tcb: map<Tid, Task>)
      requires Valid() && q in lists && Absent(lists, t) && t in tcb && forall x :: x in lists[q] ==> x in tcb
      modifies this
      ensures Valid()
      ensures var l := old(lists)[q]; lists == old(lists)[q := InsertAt(l, PriorityPos(tcb, l, tcb[t].prio), t)]
    {
      hide IsList, Apart, PriorityPos;
      LooseLinks(nextOf, prevOf, headOf, tailOf, lists, t);
      nextOf := nextOf[t := None];
      prevOf := prevOf[t := None];
      var iter, k := FirstLessUrgent(q, t, tcb);
      LinkAt(q, t, iter, k);
    }

    /** The search loop of the insertion. */
    method FirstLessUrgent(q: QueueId, t: Tid, tcb: map<Tid, Task>) returns (iter: Pointer, ghost k: nat)
      requires Valid() && q in lists && t in tcb && forall x :: x in lists[q] ==> x in tcb
      ensures k == PriorityPos(tcb, lists[q], tcb[t].prio)
      ensures iter == if k == |lists[q]| then None else Some(lists[q][k])
    {
      ghost var l := lists[q];
      ListOf(q);
      hide Apart, AllLists;
      iter := headOf[q];
      k := 0;
      while iter.Some? && tcb[iter.value].prio <= tcb[t].prio
        invariant k <= |l| && iter == if k == |l| then None else Some(l[k])
        invariant forall i :: 0 <= i < k ==> TaskOf(tcb, l[i]).prio <= tcb[t].prio
        decreases |l| - k
      {
        assert l[k] in nextOf;
        iter := nextOf[iter.value];
        k := k + 1;
      }
      PriorityPosIs(tcb, l, tcb[t].prio, k);
    }

    /** The second half of the insertion: link `t` in before `iter`, or last. */
    method LinkAt(q: QueueId, t: Tid, iter: Pointer, ghost k: nat)
      requires q in lists && Absent(lists, t) && t in nextOf && t in prevOf && nextOf[t].None? && prevOf[t].None?
      requires Valid() && k <= |lists[q]| && iter == if k == |lists[q]| then None else Some(lists[q][k])
      modifies this
      ensures Valid() && lists == old(lists)[q := InsertAt(old(lists)[q], k, t)]
    {
      hide IsList, Apart;
      if headOf[q].None? {
        EmptyQueue(q);
        headOf := headOf[q := Some(t)];
        tailOf := tailOf[q := Some(t)];
        assert nextOf == nextOf[t := None] && prevOf == prevOf[t := None];
        AppendLists(nextOf, prevOf, old(headOf), old(tailOf), lists, nextOf, prevOf, headOf, tailOf, q, t);
        assert lists[q] == [] && InsertAt(lists[q], k, t) == lists[q] + [t];
      } else if iter.None? {
        LastOf(q);
        prevOf := prevOf[t := tailOf[q]];
        nextOf := nextOf[tailOf[q].value := Some(t)];
        tailOf := tailOf[q := Some(t)];
        assert old(nextOf)[t := None] == old(nextOf);
        AppendLists(old(nextOf), old(prevOf), headOf, old(tailOf), lists, nextOf, prevOf, headOf, tailOf, q, t);
        assert InsertAt(lists[q], k, t) == lists[q] + [t];
      } else {
        ElementOf(q, k);
        nextOf := nextOf[t := iter];
        prevOf := prevOf[t := prevOf[iter.value]];
        if prevOf[iter.value].Some? {
          nextOf := nextOf[prevOf[iter.value].value := Some(t)];
        } else {
          headOf := headOf[q := Some(t)];
        }
        prevOf := prevOf[iter.value := Some(t)];
        InsertLists(old(nextOf), old(prevOf), old(headOf), tailOf, lists, nextOf, prevOf, headOf, q, t, k);
      }
      lists := lists[q := InsertAt(lists[q], k, t)];
    }

    lemma ListOf(q: QueueId)
      requires Valid() && q in lists
      ensures q in headOf && q in tailOf && IsList(nextOf, prevOf, headOf[q], tailOf[q], lists[q])
    {
    }

    lemma EmptyQueue(q: QueueId)
      requires Valid() && q in lists && headOf[q].None?
      ensures lists[q] == [] && tailOf[q].None?
    {
    }

    lemma LastOf(q: QueueId)
      requires Valid() && q in lists && headOf[q].Some?
      ensures lists[q] != [] && tailOf[q].Some? && tailOf[q].value in lists[q]
    {
    }

    lemma ElementOf(q: QueueId, k: nat)
      requires Valid() && q in lists && k < |lists[q]|
      ensures lists[q][k] in nextOf && lists[q][k] in prevOf && lists[q][k] in lists[q]
      ensures prevOf[lists[q][k]].Some? ==> prevOf[lists[q][k]].value in lists[q]
    {
    }

    method Rotate(q: QueueId, t: Tid)
      requires Valid() && q in lists
      modifies this
      ensures Valid()
      ensures var l := old(lists)[q];
        lists == if l == [] || l[0] != t || |l| == 1 then old(lists) else old(lists)[q := l[1..] + [t]]
    {
      hide IsList, Apart;
      HeadLinks(q);
      if headOf[q] != Some(t) || nextOf[t].None? {
        return;
      }
      headOf := headOf[q := nextOf[t]];
      prevOf := prevOf[headOf[q].value := None];
      nextOf := nextOf[t := None];
      prevOf := prevOf[t := tailOf[q]];
      nextOf := nextOf[tailOf[q].value := Some(t)];
      tailOf := tailOf[q := Some(t)];
      RotateLists(old(nextOf), old(prevOf), old(headOf), old(tailOf), lists, nextOf, prevOf, headOf, tailOf, q);
      lists := lists[q := lists[q][1..] + [t]];
    }

    lemma HeadLinks(q: QueueId)
      requires Valid() && q in lists
      ensures q in headOf && q in tailOf
      ensures headOf[q] == if lists[q] == [] then None else Some(lists[q][0])
      ensures lists[q] != [] ==>
        && lists[q][0] in nextOf && lists[q][0] in prevOf && tailOf[q] == Some(lists[q][|lists[q]| - 1])
        && nextOf[lists[q][0]] == if |lists[q]| == 1 then None else Some(lists[q][1])
      ensures |lists[q]| > 1 ==> lists[q][0] != lists[q][1] && lists[q][0] != lists[q][|lists[q]| - 1]
    {
    }
  }
}
