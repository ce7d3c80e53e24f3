/** The byte ring of common/ring_buffer_posix.c: head, tail, a full flag, and copies split at
    the end of the buffer. Each blocking call is its critical section: it is done, or it would
    wait and nothing has changed. */
module ByteRing {
  import opened Rings

  class Ring {
    const buffer: array<bv8>
    const max: nat
    var head: nat
    var tail: nat
    var full: bool

    /** Every operation since the ring was last cleared. */
    ghost var ops: seq<Op>

    ghost predicate Shape()
      reads `head, `tail, `full
    {
      && 0 < max == buffer.Length && head < max && tail < max && (full ==> head == tail)
    }

    /** circular_buf_size_internal, size_buffer */
    function Size(): (n: nat)
      reads `head, `tail, `full
      requires Shape()
      ensures n <= max && head == Slot(tail, n, max)
    {
      if full then max
      else if head >= tail then head - tail
      else max + head - tail
    }

    /** circular_buf_free_size_internal, circular_buf_free_size */
    function FreeSize(): (n: nat)
      reads `head, `tail, `full
      requires Shape()
      ensures Size() + n == max
    {
      if full then 0
      else if head >= tail then max - (head - tail)
      else tail - head
    }

    /** Oldest first. */
    ghost function Contents(): (r: seq<bv8>)
      reads `head, `tail, `full, buffer
      requires Shape()
    {
      Held(buffer[..], tail, Size())
    }

    /** What the ring holds is what a run of its operations leaves. */
    ghost predicate Valid()
      reads this, buffer
    {
      Shape() && Contents() == Run(ops, max).held
    }

    constructor (buffer: array<bv8>)
      requires buffer.Length > 0
      ensures Valid() && Contents() == [] && ops == [] && this.buffer == buffer
    {
      this.buffer := buffer;
      max := buffer.Length;
      head, tail, full := 0, 0, false;
      ops := [];
    }

    ghost method Log(op: Op)
      requires Shape() && Contents() == Apply(Run(ops, max), op, max).held
      modifies this`ops
      ensures Valid() && ops == old(ops) + [op]
    {
      ghost var held := Contents();
      HeldAfter(ops, op, max, held);
      ops := ops + [op];
      assert Contents() == held;
    }

    /** Of this object: the bytes read since it was cleared, followed by those it holds, are the
        bytes written. */
    lemma Conserves()
      requires Valid()
      ensures Run(ops, max).taken + Contents() == Run(ops, max).written && |Contents()| <= max
    {
      BytesAreConserved(ops, max);
    }

    /** clear_buffer, circular_buf_reset */
    method Clear()
      requires Valid()
      modifies this
      ensures Valid() && Contents() == [] && ops == []
    {
      full := false;
      head := 0;
      tail := 0;
      ops := [];
    }

    method AdvancePointer(len: nat)
      requires Shape()
      modifies this`head, this`tail, this`full
      ensures tail == if old(full) then (old(tail) + len) % max else old(tail)
      ensures head == (old(head) + len) % max && full == (head == tail)
    {
      if full {
        tail := (tail + len) % max;
      }
      head := (head + len) % max;
      full := head == tail;
    }

    method RetreatPointer(len: nat)
      requires Shape()
      modifies this`full, this`tail
      ensures tail == (old(tail) + len) % max && !full
    {
      full := false;
      tail := (tail + len) % max;
    }

    /** write_buffer: all of data goes in, behind what is there, or it has to wait. */
    method Write(data: array<bv8>, len: nat) returns (done: bool)
      requires Valid() && len <= data.Length && data != buffer
      modifies this, buffer
      ensures Valid() && done == (|old(Contents())| + len <= max)
      ensures Contents() == if done then old(Contents()) + data[..len] else old(Contents())
      ensures ops == old(ops) + [In(data[..len])]
    {
      done := Append(data, len);
      Log(In(data[..len]));
    }

    method Append(data: array<bv8>, len: nat) returns (done: bool)
      requires Shape() && len <= data.Length && data != buffer
      modifies this`head, this`tail, this`full, buffer
      ensures Shape() && done == (|old(Contents())| + len <= max)
      ensures Contents() == if done then old(Contents()) + data[..len] else old(Contents())
    {
      if len == 0 {
        return true;
      }
      if FreeSize() < len {
        return false;
      }
      ghost var was, size := buffer[..], Size();
      assert head == Slot(tail, size, max);
      CopyIn(data, len);
      HeldAppend(was, tail, size, data[..len]);
      Advances(tail, size, len, max);
      AdvancePointer(len);
      return true;
    }

    /** The copies of a write, in two pieces if it reaches the end of the buffer. */
    method CopyIn(data: array<bv8>, len: nat)
      requires Shape() && 0 < len <= max && len <= data.Length && data != buffer
      modifies buffer
      ensures buffer[..] == Placed(old(buffer[..]), head, data[..len])
    {
      Wraps(head, len, max);
      if (head + len) % max > head {
        Copy(data, 0, buffer, head, len);
        assert data[0..len] == data[..len];
      } else {
        CopyAround(data, len);
      }
    }

    method CopyAround(data: array<bv8>, len: nat)
      requires Shape() && 0 < len <= max && len <= data.Length && data != buffer && head + len >= max
      modifies buffer
      ensures buffer[..] == Placed(old(buffer[..]), head, data[..len])
    {
      ghost var was := buffer[..];
      var cut := max - head;
      Copy(data, 0, buffer, head, cut);
      ghost var half := buffer[..];
      assert half == was[..head] + data[..cut];
      Copy(data, cut, buffer, 0, len - cut);
      assert buffer[..] == data[cut..len] + half[len - cut..];
      assert data[..len][..cut] == data[..cut] && data[..len][cut..] == data[cut..len];
      PlacedInTwo(was, half, buffer[..], head, data[..len]);
    }

    /** The copies of a read. */
    method CopyOut(data: array<bv8>, len: nat)
      requires Shape() && 0 < len <= max && len <= data.Length && data != buffer
      modifies data
      ensures data[..len] == Held(buffer[..], tail, len) && data[len..] == old(data[..])[len..]
    {
      HeldSplits(buffer[..], tail, len);
      Wraps(tail, len, max);
      if (tail + len) % max > tail {
        Copy(buffer, tail, data, 0, len);
      } else {
        CopyOutAround(data, len);
      }
    }

    method CopyOutAround(data: array<bv8>, len: nat)
      requires Shape() && 0 < len <= max && len <= data.Length && data != buffer && tail + len >= max
      modifies data
      ensures data[..len] == buffer[tail..] + buffer[..tail + len - max] && data[len..] == old(data[..])[len..]
    {
      var cut := max - tail;
      Copy(buffer, tail, data, 0, cut);
      ghost var half := data[..];
      assert half == buffer[tail..] + old(data[..])[cut..];
      Copy(buffer, 0, data, cut, len - cut);
      assert data[..] == half[..cut] + buffer[..len - cut] + half[len..];
      TwoPieces(half, old(data[..]), buffer[tail..], buffer[..len - cut], data[..]);
    }

    /** read_buffer: the oldest `len` bytes come out, or it has to wait. */
    method Read(data: array<bv8>, len: nat) returns (done: bool)
      requires Valid() && len <= data.Length && data != buffer
      modifies this, data
      ensures Valid() && done == (len <= |old(Contents())|)
      ensures done ==> data[..len] == old(Contents())[..len] && Contents() == old(Contents())[len..]
      ensures data[..] == if done then data[..len] + old(data[..])[len..] else old(data[..])
      ensures !done ==> Contents() == old(Contents())
      ensures ops == old(ops) + [Out(len)]
    {
      if len == 0 {
        Log(Out(len));
        return true;
      }
      if Size() < len {
        Log(Out(len));
        return false;
      }
      TakeOut(data, len);
      Log(Out(len));
      return true;
    }

    /** read_buffer_all: everything comes out, or it has to wait for a first byte. */
    method ReadAll(data: array<bv8>) returns (len: nat)
      requires Valid() && max <= data.Length && data != buffer
      modifies this, data
      ensures Valid() && len == |old(Contents())| && data[..len] == old(Contents()) && Contents() == []
      ensures data[len..] == old(data[..])[len..] && ops == old(ops) + [OutAll]
    {
      len := Size();
      if len > 0 {
        TakeOut(data, len);
      }
      Log(OutAll);
    }

    method TakeOut(data: array<bv8>, len: nat)
      requires Shape() && 0 < len <= Size() && len <= data.Length && data != buffer
      modifies this`full, this`tail, data
      ensures Shape() && data[..len] == old(Contents())[..len] && Contents() == old(Contents())[len..]
      ensures data[len..] == old(data[..])[len..]
    {
      ghost var size := Size();
      HeldTake(buffer[..], tail, size, len);
      HeldDrop(buffer[..], tail, size, len);
      CopyOut(data, len);
      Retreats(tail, size, len, max);
      RetreatPointer(len);
    }

    /** circular_buf_put */
    method Put(b: bv8) returns (done: bool)
      requires Valid()
      modifies this, buffer
      ensures Valid() && done == (|old(Contents())| < max)
      ensures Contents() == if done then old(Contents()) + [b] else old(Contents())
      ensures ops == old(ops) + [In([b])]
    {
      if full {
        Log(In([b]));
        return false;
      }
      HeldPush(buffer[..], tail, Size(), b);
      Advances(tail, Size(), 1, max);
      buffer[head] := b;
      AdvancePointer(1);
      Log(In([b]));
      return true;
    }

    /** circular_buf_get */
    method Get() returns (done: bool, b: bv8)
      requires Valid()
      modifies this
      ensures Valid() && done == (old(Contents()) != []) && ops == old(ops) + [Out(1)]
      ensures done ==> b == old(Contents())[0] && Contents() == old(Contents())[1..]
      ensures !done ==> Contents() == old(Contents())
    {
      if !full && head == tail {
        Log(Out(1));
        return false, 0;
      }
      HeldPop(buffer[..], tail, Size());
      Retreats(tail, Size(), 1, max);
      b := buffer[tail];
      RetreatPointer(1);
      Log(Out(1));
      done := true;
    }
  }

  /** memcpy between two arrays. */
  method Copy(src: array<bv8>, from: nat, dst: array<bv8>, at: nat, n: nat)
    requires from + n <= src.Length && at + n <= dst.Length && src != dst
    modifies dst
    ensures dst[..] == old(dst[..at]) + src[from..from + n] + old(dst[at + n..])
  {
    var i := 0;
    while i < n
      invariant 0 <= i <= n
      invariant forall k :: at <= k < at + i ==> dst[k] == src[k - at + from]
      invariant forall k :: 0 <= k < dst.Length && !(at <= k < at + i) ==> dst[k] == old(dst[k])
    {
      dst[at + i] := src[from + i];
      i := i + 1;
    }
    assert dst[at..at + n] == src[from..from + n];
    assert dst[..] == dst[..at] + dst[at..at + n] + dst[at + n..];
  }

  lemma TwoPieces(half: seq<bv8>, was: seq<bv8>, front: seq<bv8>, back: seq<bv8>, now: seq<bv8>)
    requires |front| + |back| <= |was| && half == front + was[|front|..]
    requires now == half[..|front|] + back + half[|front| + |back|..]
    ensures now[..|front| + |back|] == front + back && now[|front| + |back|..] == was[|front| + |back|..]
  {
  }

  // ------------------------------------------------------------------ pointer arithmetic

  /** The test for a copy in one piece. */
  lemma Wraps(p: nat, len: nat, max: nat)
    requires p < max && 0 < len <= max
    ensures ((p + len) % max > p) == (p + len < max)
  {
    if p + len >= max {
      ModOnce(p + len, max);
    }
  }

  lemma Advances(tail: nat, size: nat, len: nat, max: nat)
    requires tail < max && size + len <= max && 0 < len
    ensures (Slot(tail, size, max) + len) % max == Slot(tail, size + len, max)
    ensures (Slot(tail, size + len, max) == tail) == (size + len == max)
  {
    var h := Slot(tail, size, max);
    assert h == if tail + size < max then tail + size else tail + size - max;
    assert (h + len) % max == Slot(h, len, max);
  }

  lemma Retreats(tail: nat, size: nat, len: nat, max: nat)
    requires tail < max && 0 < len <= size <= max
    ensures var t := (tail + len) % max; t == Slot(tail, len, max) && Slot(t, size - len, max) == Slot(tail, size, max)
    ensures (Slot(tail, len, max) == Slot(tail, size, max)) == (len == size)
  {
  }

  /** The buffer `was` with `data` written from `h` on, around its end. */
  function Placed(was: seq<bv8>, h: nat, data: seq<bv8>): seq<bv8>
    requires h < |was| && |data| <= |was|
  {
    if h + |data| <= |was| then was[..h] + data + was[h + |data|..]
    else data[|was| - h..] + was[h + |data| - |was|..h] + data[..|was| - h]
  }

  lemma PlacedInTwo(was: seq<bv8>, half: seq<bv8>, now: seq<bv8>, h: nat, data: seq<bv8>)
    requires h < |was| && |was| - h <= |data| <= |was|
    requires half == was[..h] + data[..|was| - h]
    requires now == data[|was| - h..] + half[|data| - (|was| - h)..]
    ensures now == Placed(was, h, data)
  {
  }

  lemma HeldAppend(was: seq<bv8>, tail: nat, size: nat, data: seq<bv8>)
    requires tail < |was| && size + |data| <= |was| && data != []
    ensures Held(Placed(was, Slot(tail, size, |was|), data), tail, size + |data|) == Held(was, tail, size) + data
  {
  }

  // ------------------------------------------------------------------ whole runs

  datatype Op = In(data: seq<bv8>) | Out(len: nat) | OutAll

  /** What the ring holds, and all bytes that went in and came out. */
  datatype History = History(held: seq<bv8>, written: seq<bv8>, taken: seq<bv8>)

  /** Write, Read and ReadAll as their contracts have them. */
  function Apply(h: History, op: Op, max: nat): History {
    match op
    case In(data) => if |h.held| + |data| > max then h else h.(held := h.held + data, written := h.written + data)
    case Out(len) => if len > |h.held| then h else h.(held := h.held[len..], taken := h.taken + h.held[..len])
    case OutAll => h.(held := [], taken := h.taken + h.held)
  }

  function Run(ops: seq<Op>, max: nat): History {
    if ops == [] then History([], [], []) else Apply(Run(ops[..|ops| - 1], max), ops[|ops| - 1], max)
  }

  lemma RunStep(ops: seq<Op>, op: Op, max: nat)
    ensures Run(ops + [op], max) == Apply(Run(ops, max), op, max)
  {
    assert (ops + [op])[..|ops + [op]| - 1] == ops;
  }

  lemma HeldAfter(ops: seq<Op>, op: Op, max: nat, held: seq<bv8>)
    requires held == Apply(Run(ops, max), op, max).held
    ensures held == Run(ops + [op], max).held
  {
    RunStep(ops, op, max);
  }

  /** The bytes read, followed by the bytes held, are the bytes written. */
  predicate Balanced(h: History, max: nat) { h.taken + h.held == h.written && |h.held| <= max }

  lemma ApplyBalances(h: History, op: Op, max: nat)
    requires Balanced(h, max)
    ensures Balanced(Apply(h, op, max), max)
  {
    match op
    case In(data) => assert h.taken + (h.held + data) == h.taken + h.held + data;
    case Out(len) =>
      if len <= |h.held| {
        assert h.held == h.held[..len] + h.held[len..];
      }
    case OutAll =>
  }

  /** So it is in every run. */
  lemma {:induction false} BytesAreConserved(ops: seq<Op>, max: nat)
    ensures Balanced(Run(ops, max), max)
  {
    if ops != [] {
      BytesAreConserved(ops[..|ops| - 1], max);
      ApplyBalances(Run(ops[..|ops| - 1], max), ops[|ops| - 1], max);
    }
  }
}
