/** Small vocabulary shared by every module: optional values, machine words,
    priorities, and duplicate-free sequences. */
module Base {

  datatype Option<+T> = None | Some(value: T)

  /** `uint32_t`. */
  type Word = x: int | 0 <= x < 0x1_0000_0000

  const WAIT_FOREVER: Word := 0xFFFF_FFFF

  /** `os_task_priority_t`: 0 is the most urgent level, 3 the idle level. */
  type Priority = p: int | 0 <= p <= 3

  const IDLE_PRIORITY: Priority := 3

  ghost predicate NoDup(l: seq<nat>) {
    forall i, j :: 0 <= i < j < |l| ==> l[i] != l[j]
  }

  function IndexOf(l: seq<nat>, x: nat): (i: nat)
    requires x in l
    ensures i < |l| && l[i] == x
    ensures forall j :: 0 <= j < i ==> l[j] != x
  {
    if l[0] == x then 0 else 1 + IndexOf(l[1..], x)
  }

  /** `l` with the first occurrence of `x`, if any, taken out. */
  function Without(l: seq<nat>, x: nat): (r: seq<nat>) {
    if x in l then var i := IndexOf(l, x); l[..i] + l[i + 1..] else l
  }

  lemma WithoutMembers(l: seq<nat>, x: nat)
    requires NoDup(l)
    ensures NoDup(Without(l, x))
    ensures forall y :: y in Without(l, x) <==> y in l && y != x
    ensures |Without(l, x)| == if x in l then |l| - 1 else |l|
  {
  }

  /** `l` with `x` placed before index `k`. */
  function InsertAt(l: seq<nat>, k: nat, x: nat): (r: seq<nat>)
    requires k <= |l|
  {
    l[..k] + [x] + l[k..]
  }

  lemma InsertAtMembers(l: seq<nat>, k: nat, x: nat)
    requires k <= |l|
    ensures forall y :: y in InsertAt(l, k, x) <==> y in l || y == x
    ensures NoDup(l) && x !in l ==> NoDup(InsertAt(l, k, x))
  {
  }
}
