/** The timeout queue: sleeping tasks in the order in which they are to wake, on links of its
    own (kernel/scheduler.c:139-204). */
module TimeoutMemory {
  import opened Base
  import opened KernelState
  import opened Links

  lemma TimeoutPosIs(tasks: map<Tid, Task>, l: seq<Tid>, w: Word, k: nat)
    requires k <= |l| && (forall i :: 0 <= i < k ==> !TickReached(TaskOf(tasks, l[i]).wake, w))
    requires k < |l| ==> TickReached(TaskOf(tasks, l[k]).wake, w)
    ensures TimeoutPos(tasks, l, w) == k
  {
  }

  /** Only the tasks in `l` have links that are not NULL. */
  ghost predicate Spare(next: map<Address, Pointer>, prev: map<Address, Pointer>, l: seq<Tid>) {
    && next.Keys == prev.Keys && (forall t :: t in l ==> t in next)
    && forall t :: t in next && t !in l ==> next[t].None? && prev[t].None?
  }

  lemma SpareAppend(next: map<Address, Pointer>, prev: map<Address, Pointer>, last: Pointer, l: seq<Tid>, t: Tid)
    requires Spare(next, prev, l) && t in next && (last.Some? ==> last.value in l)
    ensures Spare(if last.Some? then next[t := None][last.value := Some(t)] else next[t := None], prev[t := last], l + [t])
  {
  }

  lemma SpareInsert(next: map<Address, Pointer>, prev: map<Address, Pointer>, l: seq<Tid>, k: nat, t: Tid)
    requires Spare(next, prev, l) && t in next && k < |l| && (prev[l[k]].Some? ==> prev[l[k]].value in l)
    ensures var p := prev[l[k]];
      Spare(if p.Some? then next[t := Some(l[k])][p.value := Some(t)] else next[t := Some(l[k])],
            prev[t := p][l[k] := Some(t)], InsertAt(l, k, t))
  {
  }

  lemma SpareRemove(next: map<Address, Pointer>, prev: map<Address, Pointer>, l: seq<Tid>, t: Tid)
    requires Spare(next, prev, l) && NoDup(l) && t in l
    requires (next[t].Some? ==> next[t].value in l) && (prev[t].Some? ==> prev[t].value in l)
    ensures Spare((if prev[t].Some? then next[prev[t].value := next[t]] else next)[t := None],
                  (if next[t].Some? then prev[next[t].value := prev[t]] else prev)[t := None], Without(l, t))
  {
  }

  class TimeoutQueue {
    var nextOf: map<Tid, Pointer>
    var prevOf: map<Tid, Pointer>
    var head: Pointer
    var tail: Pointer
    ghost var list: seq<Tid>

    /** The links spell out `list`, and those of all other tasks are NULL. */
    ghost predicate Valid()
      reads this
    {
      IsList(nextOf, prevOf, head, tail, list) && Spare(nextOf, prevOf, list)
    }

    constructor ()
      ensures Valid() && list == [] && nextOf == map[]
    {
      nextOf, prevOf, head, tail, list := map[], map[], None, None, [];
    }

    /** The timeout links of a new task. */
    method Enrol(t: Tid)
      requires Valid() && t !in list
      modifies this
      ensures Valid() && list == old(list) && nextOf.Keys == old(nextOf).Keys + {t}
    {
      hide IsList;
      ListFrame(nextOf, prevOf, nextOf[t := None], prevOf[t := None], head, tail, list);
      nextOf := nextOf[t := None];
      prevOf := prevOf[t := None];
    }

    method InsertSorted(t: Tid, tcb: map<Tid, Task>)
      requires Valid() && t !in list && t in tcb && t in nextOf && forall x :: x in list ==> x in tcb
      modifies this
      ensures Valid() && list == InsertAt(old(list), TimeoutPos(tcb, old(list), tcb[t].wake), t)
      ensures nextOf.Keys == old(nextOf).Keys
    {
      hide IsList, TimeoutPos;
      Enrol(t);
      var iter, k := FirstToWake(t, tcb);
      LinkAt(t, iter, k);
    }

    /** The search loop of the insertion. */
    method FirstToWake(t: Tid, tcb: map<Tid, Task>) returns (iter: Pointer, ghost k: nat)
      requires Valid() && t in tcb && forall x :: x in list ==> x in tcb
      ensures k == TimeoutPos(tcb, list, tcb[t].wake)
      ensures iter == if k == |list| then None else Some(list[k])
    {
      hide TickReached;
      iter := head;
      k := 0;
      while iter.Some? && !TickReached(tcb[iter.value].wake, tcb[t].wake)
        invariant k <= |list| && iter == if k == |list| then None else Some(list[k])
        invariant forall i :: 0 <= i < k ==> !TickReached(TaskOf(tcb, list[i]).wake, tcb[t].wake)
        decreases |list| - k
      {
        assert list[k] in nextOf;
        iter := nextOf[iter.value];
        k := k + 1;
      }
      TimeoutPosIs(tcb, list, tcb[t].wake, k);
    }

    /** The second half of the insertion: link `t` in before `iter`, or last. */
    method LinkAt(t: Tid, iter: Pointer, ghost k: nat)
      requires Valid() && t !in list && t in nextOf
      requires k <= |list| && iter == if k == |list| then None else Some(list[k])
      modifies this
      ensures Valid() && list == InsertAt(old(list), k, t) && nextOf.Keys == old(nextOf).Keys
    {
      hide IsList;
      EndsAt(k);
      if head.None? || iter.None? {
        assert InsertAt(list, k, t) == list + [t];
        assert nextOf == nextOf[t := None] && prevOf == prevOf[t := None];
        SpareAppend(nextOf, prevOf, tail, list, t);
        hide Spare;
        if head.None? {
          head := Some(t);
        } else {
          prevOf := prevOf[t := tail];
          nextOf := nextOf[tail.value := Some(t)];
        }
        tail := Some(t);
        ListAppend(old(nextOf), old(prevOf), nextOf, prevOf, old(head), old(tail), list, t);
      } else {
        SpareInsert(nextOf, prevOf, list, k, t);
        hide Spare;
        nextOf := nextOf[t := iter];
        prevOf := prevOf[t := prevOf[iter.value]];
        if prevOf[iter.value].Some? {
          nextOf := nextOf[prevOf[iter.value].value := Some(t)];
        } else {
          head := Some(t);
        }
        prevOf := prevOf[iter.value := Some(t)];
        ListInsert(old(nextOf), old(prevOf), nextOf, prevOf, old(head), tail, list, k, t);
      }
      list := InsertAt(list, k, t);
    }

    /** The links at index `k`, and the ends of the list. */
    lemma EndsAt(k: nat)
      requires Valid() && k <= |list|
      ensures NoDup(list) && head.None? == (list == []) && tail.None? == (list == [])
      ensures tail.Some? ==> tail.value in list
      ensures k < |list| ==> var t := list[k];
        && t in nextOf && t in prevOf
        && (if prevOf[t].None? then head == Some(t) else prevOf[t].value in list)
        && (if nextOf[t].None? then tail == Some(t) else nextOf[t].value in list)
    {
    }

    lemma HeadIs()
      requires Valid()
      ensures head == if list == [] then None else Some(list[0])
      ensures list != [] ==> list[0] in nextOf && nextOf[list[0]] == if |list| == 1 then None else Some(list[1])
    {
    }

    lemma NotAnEnd(t: Tid)
      requires Valid() && t in nextOf && t !in list
      ensures head != Some(t) && tail != Some(t) && nextOf[t].None? && prevOf[t].None?
    {
    }

    /** A task that is not queued has NULL links, and removing it changes nothing. */
    method Remove(t: Tid)
      requires Valid() && t in nextOf
      modifies this
      ensures Valid() && list == Without(old(list), t) && nextOf.Keys == old(nextOf).Keys
    {
      hide IsList;
      if t in list {
        EndsAt(IndexOf(list, t));
      } else {
        NotAnEnd(t);
      }
      var n, p := nextOf[t], prevOf[t];
      if p.Some? {
        nextOf := nextOf[p.value := n];
      } else if head == Some(t) {
        head := n;
      }
      if n.Some? {
        prevOf := prevOf[n.value := p];
      } else if tail == Some(t) {
        tail := p;
      }
      nextOf := nextOf[t := None];
      prevOf := prevOf[t := None];
      if t in list {
        ListRemove(old(nextOf), old(prevOf), nextOf, prevOf, old(head), old(tail), list, IndexOf(list, t));
        SpareRemove(old(nextOf), old(prevOf), list, t);
        hide Spare;
        list := Without(list, t);
      } else {
        assert nextOf == old(nextOf) && prevOf == old(prevOf);
      }
    }
  }
}
