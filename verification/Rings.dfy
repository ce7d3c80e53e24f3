/** What a ring buffer holds: `count` elements from `head` on, around the end of the buffer. */
module Rings {

  /** The place `i` steps after `head` in a ring of `cap` places. */
  function Slot(head: nat, i: nat, cap: nat): (r: nat)
    requires head < cap && i <= cap
    ensures r < cap && r == (head + i) % cap
  {
    if head + i < cap then head + i
    else
      assert (head + i) % cap == head + i - cap by { ModOnce(head + i, cap); }
      head + i - cap
  }

  lemma ModOnce(x: nat, cap: nat)
    requires cap <= x < 2 * cap
    ensures x % cap == x - cap
  {
    assert x / cap == 1;
  }

  /** Oldest first. */
  function Held<T>(buf: seq<T>, head: nat, count: nat): (r: seq<T>)
    requires head < |buf| && count <= |buf|
    ensures |r| == count
  {
    seq(count, i requires 0 <= i < count => buf[Slot(head, i, |buf|)])
  }

  lemma HeldPush<T>(buf: seq<T>, head: nat, count: nat, x: T)
    requires head < |buf| && count < |buf|
    ensures Held(buf[Slot(head, count, |buf|) := x], head, count + 1) == Held(buf, head, count) + [x]
  {
  }

  lemma HeldPop<T>(buf: seq<T>, head: nat, count: nat)
    requires head < |buf| && 0 < count <= |buf|
    ensures Held(buf, head, count)[0] == buf[head]
    ensures Held(buf, Slot(head, 1, |buf|), count - 1) == Held(buf, head, count)[1..]
  {
    var next := Slot(head, 1, |buf|);
    forall i | 0 <= i < count - 1 ensures buf[Slot(next, i, |buf|)] == Held(buf, head, count)[i + 1] {
      assert Slot(next, i, |buf|) == Slot(head, i + 1, |buf|);
    }
  }

  lemma HeldUpdate<T>(buf: seq<T>, head: nat, count: nat, m: nat, x: T)
    requires head < |buf| && m < count <= |buf|
    ensures Held(buf[Slot(head, m, |buf|) := x], head, count) == Held(buf, head, count)[m := x]
  {
    forall i | 0 <= i < count && i != m ensures Slot(head, i, |buf|) != Slot(head, m, |buf|) {
      SlotsDiffer(head, i, m, |buf|);
    }
  }

  lemma SlotsDiffer(head: nat, i: nat, j: nat, cap: nat)
    requires head < cap && i < cap && j < cap && i != j
    ensures Slot(head, i, cap) != Slot(head, j, cap)
  {
  }

  lemma SlotNext(head: nat, i: nat, cap: nat)
    requires head < cap && i < cap
    ensures Slot(Slot(head, i, cap), 1, cap) == Slot(head, i + 1, cap)
  {
  }

  /** In one piece, or in two around the end of the buffer. */
  lemma HeldSplits<T>(buf: seq<T>, head: nat, count: nat)
    requires head < |buf| && count <= |buf|
    ensures Held(buf, head, count) ==
      if head + count <= |buf| then buf[head..head + count] else buf[head..] + buf[..head + count - |buf|]
  {
  }

  lemma HeldTake<T>(buf: seq<T>, head: nat, count: nat, k: nat)
    requires head < |buf| && k <= count <= |buf|
    ensures Held(buf, head, count)[..k] == Held(buf, head, k)
  {
  }

  lemma HeldDrop<T>(buf: seq<T>, head: nat, count: nat, k: nat)
    requires head < |buf| && k <= count <= |buf|
    ensures Held(buf, Slot(head, k, |buf|), count - k) == Held(buf, head, count)[k..]
  {
    var next := Slot(head, k, |buf|);
    forall i | 0 <= i < count - k ensures Slot(next, i, |buf|) == Slot(head, k + i, |buf|) {
    }
  }
}
