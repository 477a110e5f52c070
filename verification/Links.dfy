/** Intrusive doubly linked lists in C memory: an object is its address, and a struct field is
    a map from addresses to values.  The operations rewrite links in place; each is shown to
    perform the corresponding operation on sequences and to leave other lists alone. */
module Links {
  import opened Base

  type Address = nat
  type Pointer = Option<Address>

  /** `next` leads from each element of `l` to the following one. */
  ghost predicate Forward(next: map<Address, Pointer>, l: seq<Address>) {
    forall i {:trigger l[i] in next} :: 0 <= i < |l| ==>
      l[i] in next && next[l[i]] == if i == |l| - 1 then None else Some(l[i + 1])
  }

  /** `prev` leads from each element of `l` to the preceding one. */
  ghost predicate Backward(prev: map<Address, Pointer>, l: seq<Address>) {
    forall i {:trigger l[i] in prev} :: 0 <= i < |l| ==>
      l[i] in prev && prev[l[i]] == if i == 0 then None else Some(l[i - 1])
  }

  /** From `first` to `last`, the links run through exactly `l`, forwards and backwards. */
  ghost predicate IsList(next: map<Address, Pointer>, prev: map<Address, Pointer>, first: Pointer, last: Pointer, l: seq<Address>) {
    && NoDup(l)
    && first == (if l == [] then None else Some(l[0]))
    && last == (if l == [] then None else Some(l[|l| - 1]))
    && Forward(next, l) && Backward(prev, l)
  }

  /** The links of `x` are the same in both memories. */
  ghost predicate SameLinks(next: map<Address, Pointer>, prev: map<Address, Pointer>,
                            next': map<Address, Pointer>, prev': map<Address, Pointer>, x: Address) {
    x in next && x in prev ==> x in next' && x in prev' && next'[x] == next[x] && prev'[x] == prev[x]
  }

  /** A list none of whose elements has been relinked. */
  lemma ListFrame(next: map<Address, Pointer>, prev: map<Address, Pointer>,
                  next': map<Address, Pointer>, prev': map<Address, Pointer>, first: Pointer, last: Pointer, l: seq<Address>)
    requires IsList(next, prev, first, last, l)
    requires forall x :: x in l ==> SameLinks(next, prev, next', prev', x)
    ensures IsList(next', prev', first, last, l)
  {
    forall i | 0 <= i < |l|
      ensures l[i] in next' && next'[l[i]] == if i == |l| - 1 then None else Some(l[i + 1])
      ensures l[i] in prev' && prev'[l[i]] == if i == 0 then None else Some(l[i - 1])
    {
      assert l[i] in next && l[i] in prev && SameLinks(next, prev, next', prev', l[i]);
    }
  }

  lemma ListAppend(next: map<Address, Pointer>, prev: map<Address, Pointer>,
                   next': map<Address, Pointer>, prev': map<Address, Pointer>, first: Pointer, last: Pointer, l: seq<Address>, t: Address)
    requires IsList(next, prev, first, last, l) && t !in l
    requires next' == (if last.Some? then next[t := None][last.value := Some(t)] else next[t := None])
    requires prev' == prev[t := last]
    ensures IsList(next', prev', if last.Some? then first else Some(t), Some(t), l + [t])
  {
  }

  lemma ListRemove(next: map<Address, Pointer>, prev: map<Address, Pointer>,
                   next': map<Address, Pointer>, prev': map<Address, Pointer>, first: Pointer, last: Pointer, l: seq<Address>, k: nat)
    requires IsList(next, prev, first, last, l) && k < |l| && l[k] in next && l[k] in prev
    requires var t := l[k]; var n, p := next[t], prev[t];
      && next' == (if p.Some? then next[p.value := n] else next)[t := None]
      && prev' == (if n.Some? then prev[n.value := p] else prev)[t := None]
    ensures var t := l[k]; var n, p := next[t], prev[t];
      IsList(next', prev', if p.Some? then first else n, if n.Some? then last else p, l[..k] + l[k + 1..])
  {
    assert l[k] in next && l[k] in prev;
    RemoveForward(next, l, k);
    RemoveBackward(prev, l, k);
    hide Forward, Backward;
  }

  lemma RemoveForward(next: map<Address, Pointer>, l: seq<Address>, k: nat)
    requires Forward(next, l) && NoDup(l) && k < |l| && l[k] in next
    ensures Forward((if k > 0 then next[l[k - 1] := next[l[k]]] else next)[l[k] := None], l[..k] + l[k + 1..])
  {
    var next' := (if k > 0 then next[l[k - 1] := next[l[k]]] else next)[l[k] := None];
    var r := l[..k] + l[k + 1..];
    forall i | 0 <= i < |r|
      ensures r[i] in next' && next'[r[i]] == if i == |r| - 1 then None else Some(r[i + 1])
    {
      var j := if i < k then i else i + 1;
      assert l[j] in next;
    }
  }

  lemma RemoveBackward(prev: map<Address, Pointer>, l: seq<Address>, k: nat)
    requires Backward(prev, l) && NoDup(l) && k < |l| && l[k] in prev
    ensures Backward((if k < |l| - 1 then prev[l[k + 1] := prev[l[k]]] else prev)[l[k] := None], l[..k] + l[k + 1..])
  {
    var prev' := (if k < |l| - 1 then prev[l[k + 1] := prev[l[k]]] else prev)[l[k] := None];
    var r := l[..k] + l[k + 1..];
    forall i | 0 <= i < |r|
      ensures r[i] in prev' && prev'[r[i]] == if i == 0 then None else Some(r[i - 1])
    {
      var j := if i < k then i else i + 1;
      assert l[j] in prev;
    }
  }

  lemma ListInsert(next: map<Address, Pointer>, prev: map<Address, Pointer>,
                   next': map<Address, Pointer>, prev': map<Address, Pointer>, first: Pointer, last: Pointer, l: seq<Address>,
                   k: nat, t: Address)
    requires IsList(next, prev, first, last, l) && k < |l| && t !in l && l[k] in prev
    requires var p := prev[l[k]];
      && next' == (if p.Some? then next[t := Some(l[k])][p.value := Some(t)] else next[t := Some(l[k])])
      && prev' == prev[t := p][l[k] := Some(t)]
    ensures IsList(next', prev', if prev[l[k]].Some? then first else Some(t), last, InsertAt(l, k, t))
  {
    assert l[k] in prev;
    InsertAtMembers(l, k, t);
    InsertForward(next, l, k, t);
    InsertBackward(prev, l, k, t);
    hide Forward, Backward;
  }

  lemma InsertForward(next: map<Address, Pointer>, l: seq<Address>, k: nat, t: Address)
    requires Forward(next, l) && NoDup(l) && k < |l| && t !in l
    ensures Forward(if k > 0 then next[t := Some(l[k])][l[k - 1] := Some(t)] else next[t := Some(l[k])], InsertAt(l, k, t))
  {
    var next' := if k > 0 then next[t := Some(l[k])][l[k - 1] := Some(t)] else next[t := Some(l[k])];
    var r := InsertAt(l, k, t);
    forall i | 0 <= i < |r|
      ensures r[i] in next' && next'[r[i]] == if i == |r| - 1 then None else Some(r[i + 1])
    {
      if i != k {
        var j := if i < k then i else i - 1;
        assert l[j] in next;
      }
    }
  }

  lemma InsertBackward(prev: map<Address, Pointer>, l: seq<Address>, k: nat, t: Address)
    requires Backward(prev, l) && NoDup(l) && k < |l| && t !in l && l[k] in prev
    ensures Backward(prev[t := prev[l[k]]][l[k] := Some(t)], InsertAt(l, k, t))
  {
    var prev' := prev[t := prev[l[k]]][l[k] := Some(t)];
    var r := InsertAt(l, k, t);
    forall i | 0 <= i < |r|
      ensures r[i] in prev' && prev'[r[i]] == if i == 0 then None else Some(r[i - 1])
    {
      if i != k {
        var j := if i < k then i else i - 1;
        assert l[j] in prev;
      }
    }
  }

  /** The neighbours of an element are elements. */
  lemma Neighbours(next: map<Address, Pointer>, prev: map<Address, Pointer>, first: Pointer, last: Pointer, l: seq<Address>, k: nat)
    requires IsList(next, prev, first, last, l) && k < |l|
    ensures l[k] in next && l[k] in prev
    ensures next[l[k]].Some? ==> next[l[k]].value in l
    ensures prev[l[k]].Some? ==> prev[l[k]].value in l
  {
  }

  lemma ListRotate(next: map<Address, Pointer>, prev: map<Address, Pointer>,
                   next': map<Address, Pointer>, prev': map<Address, Pointer>, first: Pointer, last: Pointer, l: seq<Address>)
    requires IsList(next, prev, first, last, l) && |l| > 1
    requires next' == next[l[0] := None][l[|l| - 1] := Some(l[0])]
    requires prev' == prev[l[1] := None][l[0] := last]
    ensures IsList(next', prev', Some(l[1]), Some(l[0]), l[1..] + [l[0]])
  {
  }
}
