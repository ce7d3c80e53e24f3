/** The queue of modem actions (datalink_arq/arq_modem.c): a ring that is emptied out of order,
    control before payload, by shifting the actions ahead of the one taken. */
module ActionQueue {
  import opened Common
  import opened Rings

  const MAX_CAPACITY: nat := 128

  datatype Kind = TxControl | TxPayload | ModeSwitch
  datatype Action = Action(kind: Kind, mode: int, frameSize: nat, frameCount: nat)

  predicate Urgent(a: Action) { a.kind.TxControl? || a.kind.ModeSwitch? }

  // ------------------------------------------------------------------ what one call does

  /** The first urgent action, else the head. */
  function Pick(q: seq<Action>): (k: nat)
    requires q != []
    ensures k < |q|
  {
    var k := FirstUrgent(q);
    if k < |q| then k else 0
  }

  function FirstUrgent(q: seq<Action>): (k: nat)
    ensures k <= |q|
  {
    if q == [] || Urgent(q[0]) then 0 else FirstUrgent(q[1..]) + 1
  }

  lemma {:induction false} FirstUrgentIsFirst(q: seq<Action>)
    ensures var k := FirstUrgent(q);
      (forall i :: 0 <= i < k ==> !Urgent(q[i])) && (k < |q| ==> Urgent(q[k]))
  {
    if q != [] && !Urgent(q[0]) {
      var k := FirstUrgent(q[1..]);
      FirstUrgentIsFirst(q[1..]);
      forall i | 0 <= i < k + 1 ensures !Urgent(q[i]) {
        assert i > 0 ==> q[i] == q[1..][i - 1];
      }
    }
  }

  /** A payload is picked only if nothing but payloads is queued, and then it is the oldest;
      anything else is picked only if nothing but payloads stands before it. */
  lemma PickIsFirst(q: seq<Action>)
    requires q != []
    ensures var k := Pick(q);
      && (!q[k].kind.TxPayload? ==> forall i :: 0 <= i < k ==> q[i].kind.TxPayload?)
      && (q[k].kind.TxPayload? ==> k == 0 && forall i :: 0 <= i < |q| ==> q[i].kind.TxPayload?)
  {
    FirstUrgentIsFirst(q);
  }

  /** The first urgent action is determined by being urgent with none before it. */
  lemma {:induction false} FirstUrgentIs(q: seq<Action>, k: nat)
    requires k <= |q| && (forall i :: 0 <= i < k ==> !Urgent(q[i])) && (k < |q| ==> Urgent(q[k]))
    ensures FirstUrgent(q) == k
  {
    if q != [] && k > 0 {
      assert forall i :: 0 <= i < k - 1 ==> q[1..][i] == q[i + 1];
      FirstUrgentIs(q[1..], k - 1);
    }
  }

  function Without(q: seq<Action>, k: nat): seq<Action>
    requires k < |q|
  {
    q[..k] + q[k + 1..]
  }

  /** `q` with its elements from `m` up to `k` moved one place on, over the `k`-th. */
  function Shifted(q: seq<Action>, k: nat, m: nat): seq<Action>
    requires m <= k < |q|
  {
    q[..m + 1] + q[m..k] + q[k + 1..]
  }

  lemma ShiftedStep(q: seq<Action>, k: nat, m: nat)
    requires 0 < m <= k < |q|
    ensures Shifted(q, k, m)[m - 1] == q[m - 1]
    ensures Shifted(q, k, m)[m := q[m - 1]] == Shifted(q, k, m - 1)
  {
  }

  class Queue {
    const slots: array<Action>
    const cap: nat
    var head: nat
    var tail: nat
    var count: nat
    var closed: bool

    /** Every enqueue that was accepted and every dequeue. */
    ghost var ops: seq<Op>

    ghost predicate Shape()
      reads `head, `tail, `count
    {
      && 0 < cap == slots.Length <= MAX_CAPACITY && head < cap && count <= cap
      && tail == Slot(head, count, cap)
    }

    ghost function Contents(): (q: seq<Action>)
      reads `head, `tail, `count, slots
      requires Shape()
    {
      Held(slots[..], head, count)
    }

    /** What is queued is what a run of its operations leaves. */
    ghost predicate Valid()
      reads this, slots
    {
      Shape() && Contents() == Run(ops, cap).queue
    }

    ghost method Log(op: Op)
      requires Shape() && Contents() == Apply(Run(ops, cap), op, cap).queue
      modifies this`ops
      ensures Valid() && ops == old(ops) + [op]
    {
      ghost var q, all := Contents(), ops + [op];
      RunStep(ops, op, cap);
      assert q == Run(all, cap).queue;
      ops := all;
      assert Contents() == q;
    }

    /** Of this object: for each class, what it has given out followed by what it holds is what
        it accepted, in that order. */
    lemma IsFifo(payload: bool)
      requires Valid()
      ensures var h := Run(ops, cap);
        OfClass(h.taken, payload) + OfClass(Contents(), payload) == OfClass(h.accepted, payload)
    {
      EachClassIsFifo(ops, cap, payload);
    }

    /** arq_modem_queue_init */
    constructor (capacity: nat)
      ensures Valid() && fresh(slots) && Contents() == [] && !closed && ops == []
      ensures cap == if capacity == 0 || capacity > MAX_CAPACITY then MAX_CAPACITY else capacity
    {
      var n := if capacity == 0 || capacity > MAX_CAPACITY then MAX_CAPACITY else capacity;
      cap := n;
      slots := new Action[n](_ => Action(TxControl, 0, 0, 0));
      head, tail, count, closed, ops := 0, 0, 0, false, [];
    }

    method Shutdown()
      requires Valid()
      modifies this`closed
      ensures Valid() && closed && Contents() == old(Contents())
    {
      closed := true;
    }

    /** arq_modem_enqueue */
    method Enqueue(a: Action) returns (rc: int)
      requires Valid()
      modifies this`tail, this`count, this`ops, slots
      ensures Valid() && ops == if rc == 0 then old(ops) + [Put(a)] else old(ops)
      ensures rc == if closed || |old(Contents())| >= cap then -1 else 0
      ensures Contents() == if rc == 0 then old(Contents()) + [a] else old(Contents())
    {
      if closed || count >= cap {
        return -1;
      }
      HeldPush(slots[..], head, count, a);
      SlotNext(head, count, cap);
      slots[tail] := a;
      tail := (tail + 1) % cap;
      count := count + 1;
      Log(Put(a));
      return 0;
    }

    /** arq_modem_dequeue after its wait, which ends with an action, a shutdown or a timeout. */
    method Dequeue() returns (a: Option<Action>)
      requires Valid()
      modifies this`head, this`count, this`ops, slots
      ensures Valid() && ops == old(ops) + [Take]
      ensures old(Contents()) == [] ==> a == None && Contents() == []
      ensures old(Contents()) != [] ==>
        var q, k := old(Contents()), Pick(old(Contents())); a == Some(q[k]) && Contents() == Without(q, k)
      ensures old(Contents()) != [] && a.value.kind.TxPayload? ==>
        a == Some(old(Contents())[0]) && forall i :: 0 <= i < |old(Contents())| ==> old(Contents())[i].kind.TxPayload?
      ensures old(Contents()) != [] && !a.value.kind.TxPayload? ==>
        forall i :: 0 <= i < Pick(old(Contents())) ==> old(Contents())[i].kind.TxPayload?
    {
      if Contents() != [] {
        PickIsFirst(Contents());
      }
      if count == 0 {
        a := None;
      } else {
        var action := TakeOne();
        a := Some(action);
      }
      Log(Take);
    }

    method TakeOne() returns (a: Action)
      requires Shape() && count > 0
      modifies this`head, this`count, slots
      ensures Shape()
      ensures var q, k := old(Contents()), Pick(old(Contents())); a == q[k] && Contents() == Without(q, k)
    {
      ghost var q := Contents();
      var k := Choose();
      a := slots[Slot(head, k, cap)];
      ShiftUp(k);
      HeldPop(slots[..], head, count);
      assert Without(q, k) == Contents()[1..];
      head := (head + 1) % cap;
      count := count - 1;
    }

    /** The scan for the first control or mode-switch action, else the head. */
    method Choose() returns (k: nat)
      requires Shape() && count > 0
      ensures k < count && k == Pick(Contents())
    {
      ghost var q := Contents();
      var i := 0;
      while i < count
        invariant 0 <= i <= count
        invariant forall j :: 0 <= j < i ==> !Urgent(q[j])
      {
        if Urgent(slots[(head + i) % cap]) {
          FirstUrgentIs(q, i);
          return i;
        }
        i := i + 1;
      }
      FirstUrgentIs(q, count);
      return 0;
    }

    /** Moves the `k` oldest actions one place on, overwriting the one that was taken. */
    method ShiftUp(k: nat)
      requires Shape() && k < count
      modifies slots
      ensures Contents()[1..] == old(Contents())[..k] + old(Contents())[k + 1..]
    {
      ghost var q := Contents();
      ghost var m := k;
      var cur := Slot(head, k, cap);
      while cur != head
        invariant 0 <= m <= k && cur == Slot(head, m, cap)
        invariant Contents() == Shifted(q, k, m)
        decreases m
      {
        var prev := if cur == 0 then cap - 1 else cur - 1;
        assert prev == Slot(head, m - 1, cap);
        HeldUpdate(slots[..], head, count, m, slots[prev]);
        assert Contents()[m - 1] == slots[prev];
        ShiftedStep(q, k, m);
        ghost var before := slots[..];
        slots[cur] := slots[prev];
        assert slots[..] == before[cur := before[prev]];
        m := m - 1;
        cur := prev;
      }
      assert m == 0;
    }
  }

  // ------------------------------------------------------------------ whole runs

  datatype Op = Put(action: Action) | Take

  /** The queue and all that has gone in and come out. */
  datatype History = History(queue: seq<Action>, accepted: seq<Action>, taken: seq<Action>)

  function Apply(h: History, op: Op, cap: nat): History {
    match op
    case Put(a) =>
      if |h.queue| >= cap then h else h.(queue := h.queue + [a], accepted := h.accepted + [a])
    case Take =>
      if h.queue == [] then h
      else h.(queue := Without(h.queue, Pick(h.queue)), taken := h.taken + [h.queue[Pick(h.queue)]])
  }

  function Run(ops: seq<Op>, cap: nat): History {
    if ops == [] then History([], [], []) else Apply(Run(ops[..|ops| - 1], cap), ops[|ops| - 1], cap)
  }

  lemma RunStep(ops: seq<Op>, op: Op, cap: nat)
    ensures Run(ops + [op], cap) == Apply(Run(ops, cap), op, cap)
  {
    assert (ops + [op])[..|ops + [op]| - 1] == ops;
  }

  /** The payloads among the actions, or those that are not, in order. */
  function OfClass(q: seq<Action>, payload: bool): seq<Action> {
    if q == [] then []
    else (if q[0].kind.TxPayload? == payload then [q[0]] else []) + OfClass(q[1..], payload)
  }

  lemma {:induction false} OfClassConcat(p: seq<Action>, q: seq<Action>, payload: bool)
    ensures OfClass(p + q, payload) == OfClass(p, payload) + OfClass(q, payload)
  {
    if p == [] {
      assert p + q == q;
    } else {
      assert (p + q)[1..] == p[1..] + q;
      OfClassConcat(p[1..], q, payload);
    }
  }

  lemma {:induction false} NoneOfClass(q: seq<Action>, payload: bool)
    requires forall i :: 0 <= i < |q| ==> q[i].kind.TxPayload? != payload
    ensures OfClass(q, payload) == []
  {
    if q != [] {
      NoneOfClass(q[1..], payload);
    }
  }

  /** Taking an action takes the oldest of its class and leaves the other class as it was. */
  lemma TakingIsFirst(q: seq<Action>, payload: bool)
    requires q != []
    ensures var k := Pick(q);
      OfClass(q, payload) == OfClass([q[k]], payload) + OfClass(Without(q, k), payload)
  {
    var k := Pick(q);
    PickIsFirst(q);
    assert q == q[..k] + ([q[k]] + q[k + 1..]);
    OfClassConcat(q[..k], [q[k]] + q[k + 1..], payload);
    OfClassConcat([q[k]], q[k + 1..], payload);
    OfClassConcat(q[..k], q[k + 1..], payload);
    NoneOfClass(q[..k], false);
    if payload {
      assert OfClass([q[k]], payload) == [] || k == 0;
    }
  }

  /** In every run and for each class, what has been taken followed by what is queued is what
      was accepted, in that order: nothing is lost, doubled or overtaken within its class. */
  lemma {:induction false} EachClassIsFifo(ops: seq<Op>, cap: nat, payload: bool)
    ensures Fifo(Run(ops, cap), payload)
  {
    if ops != [] {
      EachClassIsFifo(ops[..|ops| - 1], cap, payload);
      FifoStep(Run(ops[..|ops| - 1], cap), ops[|ops| - 1], cap, payload);
    }
  }

  predicate Fifo(h: History, payload: bool) {
    OfClass(h.taken, payload) + OfClass(h.queue, payload) == OfClass(h.accepted, payload)
  }

  lemma FifoStep(h: History, op: Op, cap: nat, payload: bool)
    requires Fifo(h, payload)
    ensures Fifo(Apply(h, op, cap), payload)
  {
    match op
    case Put(a) =>
      OfClassConcat(h.queue, [a], payload);
      OfClassConcat(h.accepted, [a], payload);
    case Take =>
      if h.queue != [] {
        TakeStep(h, Pick(h.queue), payload);
      }
  }

  lemma TakeStep(h: History, k: nat, payload: bool)
    requires Fifo(h, payload) && h.queue != [] && k == Pick(h.queue)
    ensures Fifo(History(Without(h.queue, k), h.accepted, h.taken + [h.queue[k]]), payload)
  {
    TakingIsFirst(h.queue, payload);
    OfClassConcat(h.taken, [h.queue[k]], payload);
  }

  /** In every run, what the next dequeue takes is a payload only if all that is queued is. */
  lemma PayloadWaits(ops: seq<Op>, cap: nat, i: nat)
    requires i < |Run(ops, cap).queue|
    ensures var h, next := Run(ops, cap), Run(ops + [Take], cap);
      && |next.taken| == |h.taken| + 1 && next.taken[..|h.taken|] == h.taken
      && (next.taken[|h.taken|].kind.TxPayload? ==> h.queue[i].kind.TxPayload?)
  {
    RunStep(ops, Take, cap);
    PickIsFirst(Run(ops, cap).queue);
  }
}
