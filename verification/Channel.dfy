/** The buffered channel of common/chan.c: what each critical section does to the queue and to
    the threads blocked on, or woken from, the two condition variables. */
module Channel {
  import opened Common
  import opened Rings

  type Tid = nat

  datatype Outcome<T> = Sent | Received(item: T) | Blocks | Broken

  /** `waitR` and `waitW` are blocked on r_cond and w_cond; `sigR` and `sigW` have been woken
      and wait for the mutex. `accepted` and `taken` record all items sent and received. */
  datatype Chan<T> = Chan(
    cap: nat, queue: seq<T>, closed: bool,
    waitR: set<Tid>, sigR: set<Tid>, waitW: set<Tid>, sigW: set<Tid>,
    accepted: seq<T>, taken: seq<T>)

  // ------------------------------------------------------------------ critical sections

  /** pthread_cond_signal wakes at least one blocked thread if there is one, perhaps more. */
  predicate CanWake(blocked: set<Tid>, who: set<Tid>) { who <= blocked && (blocked != {} ==> who != {}) }

  /** Nobody is signalled unless the waiting counter says somebody waits. */
  function WakeReaders<T>(c: Chan<T>, who: set<Tid>): Chan<T> {
    if |c.waitR| + |c.sigR| > 0 then c.(waitR := c.waitR - who, sigR := c.sigR + who) else c
  }

  function WakeWriters<T>(c: Chan<T>, who: set<Tid>): Chan<T> {
    if |c.waitW| + |c.sigW| > 0 then c.(waitW := c.waitW - who, sigW := c.sigW + who) else c
  }

  /** buffered_chan_send from taking the mutex to releasing it, by a thread that has just come
      or has been woken. */
  function Send<T>(c: Chan<T>, t: Tid, item: T, who: set<Tid>): (Chan<T>, Outcome<T>) {
    var c := c.(sigW := c.sigW - {t});
    if |c.queue| == c.cap then
      if c.closed then (c, Broken) else (c.(waitW := c.waitW + {t}), Blocks)
    else if c.closed then (c, Broken)
    else (WakeReaders(c.(queue := c.queue + [item], accepted := c.accepted + [item]), who), Sent)
  }

  /** buffered_chan_recv, likewise. */
  function Recv<T>(c: Chan<T>, t: Tid, who: set<Tid>): (Chan<T>, Outcome<T>) {
    var c := c.(sigR := c.sigR - {t});
    if c.queue == [] then
      if c.closed then (c, Broken) else (c.(waitR := c.waitR + {t}), Blocks)
    else
      (WakeWriters(c.(queue := c.queue[1..], taken := c.taken + [c.queue[0]]), who), Received(c.queue[0]))
  }

  /** chan_close */
  function Close<T>(c: Chan<T>): (Chan<T>, int) {
    if c.closed then (c, -1)
    else
      (c.(closed := true, waitR := {}, sigR := c.sigR + c.waitR, waitW := {}, sigW := c.sigW + c.waitW), 0)
  }

  // ------------------------------------------------------------------ steps

  datatype Step<T> =
    | SendStep(t: Tid, item: T, who: set<Tid>) | RecvStep(t: Tid, who: set<Tid>)
    | CloseStep | Spurious(readers: set<Tid>, writers: set<Tid>)

  /** A blocked thread cannot run; a woken one resumes the call it was in. */
  predicate Enabled<T>(c: Chan<T>, step: Step<T>) {
    match step
    case SendStep(t, _, who) => t !in c.waitR && t !in c.waitW && t !in c.sigR && CanWake(c.waitR, who)
    case RecvStep(t, who) => t !in c.waitR && t !in c.waitW && t !in c.sigW && CanWake(c.waitW, who)
    case CloseStep => true
    case Spurious(readers, writers) => readers <= c.waitR && writers <= c.waitW
  }

  function After<T>(c: Chan<T>, step: Step<T>): Chan<T> {
    match step
    case SendStep(t, item, who) => Send(c, t, item, who).0
    case RecvStep(t, who) => Recv(c, t, who).0
    case CloseStep => Close(c).0
    case Spurious(readers, writers) =>
      c.(waitR := c.waitR - readers, sigR := c.sigR + readers, waitW := c.waitW - writers, sigW := c.sigW + writers)
  }

  /** No wakeup is lost: while a receiver is blocked, each item has a woken receiver coming for
      it; while a sender is blocked, each free place has a woken sender. */
  predicate NoLostWakeup<T>(c: Chan<T>) {
    && (c.waitR != {} ==> |c.queue| <= |c.sigR|)
    && (c.waitW != {} ==> c.cap - |c.queue| <= |c.sigW|)
  }

  ghost predicate Inv<T>(c: Chan<T>) {
    && |c.queue| <= c.cap && NoLostWakeup(c)
    && (c.closed ==> c.waitR == {} && c.waitW == {})
    && c.waitR !! c.sigR && c.waitW !! c.sigW
    && c.taken + c.queue == c.accepted
  }

  lemma CardinalityMinus(s: set<Tid>, t: Tid)
    ensures |s - {t}| >= |s| - 1 && (t !in s ==> s - {t} == s)
  {
    if t in s {
      assert s == (s - {t}) + {t};
    }
  }

  lemma CardinalityPlus(s: set<Tid>, more: set<Tid>)
    requires s !! more
    ensures |s + more| == |s| + |more| && (more != {} ==> |more| >= 1)
  {
  }

  lemma SendKeeps<T>(c: Chan<T>, t: Tid, item: T, who: set<Tid>)
    requires Inv(c) && Enabled(c, SendStep(t, item, who))
    ensures Inv(Send(c, t, item, who).0)
  {
    CardinalityMinus(c.sigW, t);
    if |c.queue| < c.cap && !c.closed {
      SentKeeps(c, t, item, who);
    }
  }

  lemma SentKeeps<T>(c: Chan<T>, t: Tid, item: T, who: set<Tid>)
    requires Inv(c) && Enabled(c, SendStep(t, item, who)) && |c.queue| < c.cap && !c.closed
    ensures Inv(Send(c, t, item, who).0)
  {
    CardinalityMinus(c.sigW, t);
    CardinalityPlus(c.sigR, who);
    assert c.taken + (c.queue + [item]) == c.taken + c.queue + [item];
  }

  lemma RecvKeeps<T>(c: Chan<T>, t: Tid, who: set<Tid>)
    requires Inv(c) && Enabled(c, RecvStep(t, who))
    ensures Inv(Recv(c, t, who).0)
  {
    CardinalityMinus(c.sigR, t);
    CardinalityPlus(c.sigW, who);
    if c.queue != [] {
      assert c.queue == [c.queue[0]] + c.queue[1..];
    }
  }

  lemma StepKeeps<T>(c: Chan<T>, step: Step<T>)
    requires Inv(c) && Enabled(c, step)
    ensures Inv(After(c, step))
  {
    match step
    case SendStep(t, item, who) => SendKeeps(c, t, item, who);
    case RecvStep(t, who) => RecvKeeps(c, t, who);
    case CloseStep =>
    case Spurious(readers, writers) =>
      CardinalityPlus(c.sigR, readers);
      CardinalityPlus(c.sigW, writers);
  }

  // ------------------------------------------------------------------ every run

  function Empty<T>(cap: nat): Chan<T> { Chan(cap, [], false, {}, {}, {}, {}, [], []) }

  /** The channel after `steps`, as long as each of them can happen. */
  function Reached<T>(cap: nat, steps: seq<Step<T>>): Chan<T> {
    if steps == [] then Empty(cap) else After(Reached(cap, steps[..|steps| - 1]), steps[|steps| - 1])
  }

  predicate Happens<T>(cap: nat, steps: seq<Step<T>>) {
    steps != [] ==>
      Happens(cap, steps[..|steps| - 1]) && Enabled(Reached(cap, steps[..|steps| - 1]), steps[|steps| - 1])
  }

  /** With any number of threads, newcomers overtaking the woken, and spurious wakeups: no
      wakeup is lost, and items come out in the order they went in, none lost or doubled. */
  lemma {:induction false} EveryRunIsSafe<T>(cap: nat, steps: seq<Step<T>>)
    requires Happens(cap, steps)
    ensures var c := Reached(cap, steps);
      NoLostWakeup(c) && c.taken <= c.accepted && c.taken + c.queue == c.accepted && Inv(c)
  {
    if steps != [] {
      EveryRunIsSafe(cap, steps[..|steps| - 1]);
      StepKeeps(Reached(cap, steps[..|steps| - 1]), steps[|steps| - 1]);
    }
  }

  /** An item never lies in the queue with every receiver asleep, nor a free place with every
      sender asleep. */
  lemma SomebodyComes<T>(cap: nat, steps: seq<Step<T>>)
    requires Happens(cap, steps)
    ensures var c := Reached(cap, steps);
      && (c.queue != [] && c.waitR != {} ==> c.sigR != {})
      && (|c.queue| < cap && c.waitW != {} ==> c.sigW != {})
  {
    EveryRunIsSafe(cap, steps);
    CapStays(cap, steps);
  }

  lemma {:induction false} CapStays<T>(cap: nat, steps: seq<Step<T>>)
    ensures Reached(cap, steps).cap == cap
  {
    if steps != [] {
      CapStays(cap, steps[..|steps| - 1]);
    }
  }

  /** What a sender is told, and what it leaves behind. On a full open channel it falls asleep;
      with a free place the item goes in and a sleeping receiver, if there is one, is woken. */
  lemma SendOutcome<T>(c: Chan<T>, t: Tid, item: T, who: set<Tid>)
    requires Inv(c) && Enabled(c, SendStep(t, item, who))
    ensures var (d, outcome) := Send(c, t, item, who);
      && (outcome == Broken <==> c.closed)
      && (outcome == Blocks <==> !c.closed && |c.queue| == c.cap)
      && (outcome == Sent <==> !c.closed && |c.queue| < c.cap)
      && d.accepted == (if outcome == Sent then c.accepted + [item] else c.accepted)
      && d.queue == (if outcome == Sent then c.queue + [item] else c.queue)
      && d.taken == c.taken && d.closed == c.closed && d.cap == c.cap
      && d.waitW == (if outcome == Blocks then c.waitW + {t} else c.waitW) && d.sigW == c.sigW - {t}
      && d.waitR + d.sigR == c.waitR + c.sigR
      && if outcome == Sent && c.waitR != {} then d.waitR < c.waitR else d.waitR == c.waitR
  {
    if !c.closed && |c.queue| < c.cap && c.waitR != {} {
      var r :| r in c.waitR;
      assert |c.waitR| > 0;
      var woken :| woken in who;
      assert woken in c.waitR && woken !in c.waitR - who;
    }
  }

  /** What a receiver is told, and what it leaves behind. On an empty open channel it falls
      asleep; otherwise it gets the oldest item and a sleeping sender, if there is one, is woken. */
  lemma RecvOutcome<T>(c: Chan<T>, t: Tid, who: set<Tid>)
    requires Inv(c) && Enabled(c, RecvStep(t, who))
    ensures var (d, outcome) := Recv(c, t, who);
      && (outcome == Broken <==> c.closed && c.queue == [])
      && (outcome == Blocks <==> !c.closed && c.queue == [])
      && (outcome.Received? <==> c.queue != [])
      && (outcome.Received? ==> |c.taken| < |c.accepted| && outcome.item == c.accepted[|c.taken|])
      && d.taken == (if outcome.Received? then c.taken + [outcome.item] else c.taken)
      && d.accepted == c.accepted && d.taken + d.queue == d.accepted && d.closed == c.closed && d.cap == c.cap
      && d.waitR == (if outcome == Blocks then c.waitR + {t} else c.waitR) && d.sigR == c.sigR - {t}
      && d.waitW + d.sigW == c.waitW + c.sigW
      && if outcome.Received? && c.waitW != {} then d.waitW < c.waitW else d.waitW == c.waitW
  {
    if c.queue != [] {
      assert c.accepted[|c.taken|] == (c.taken + c.queue)[|c.taken|];
      assert c.queue == [c.queue[0]] + c.queue[1..];
      if c.waitW != {} {
        var w :| w in c.waitW;
        assert |c.waitW| > 0;
        var woken :| woken in who;
        assert woken in c.waitW && woken !in c.waitW - who;
      }
    }
  }

  /** The first close succeeds and wakes everybody; a second is refused and changes nothing. */
  lemma CloseOutcome<T>(c: Chan<T>)
    ensures var (d, rc) := Close(c);
      && rc == (if c.closed then -1 else 0) && d.closed
      && d.accepted == c.accepted && d.taken == c.taken && d.queue == c.queue
      && if rc == -1 then d == c
         else d.waitR == {} && d.waitW == {} && d.sigR == c.sigR + c.waitR && d.sigW == c.sigW + c.waitW
  {
  }

  /** After the close nothing more is accepted and nobody blocks; receivers get exactly the
      items left, in order, and the error only when all have been taken. */
  lemma ClosedDrains<T>(cap: nat, steps: seq<Step<T>>, step: Step<T>)
    requires Happens(cap, steps) && Enabled(Reached(cap, steps), step) && Reached(cap, steps).closed
    ensures var c := Reached(cap, steps);
      && After(c, step).closed && After(c, step).accepted == c.accepted
      && (step.SendStep? ==> Send(c, step.t, step.item, step.who).1 == Broken)
      && (step.RecvStep? ==>
            var outcome := Recv(c, step.t, step.who).1;
            if c.taken == c.accepted then outcome == Broken
            else
              && |c.taken| < |c.accepted| && outcome == Received(c.accepted[|c.taken|])
              && After(c, step).taken == c.taken + [c.accepted[|c.taken|]])
  {
    EveryRunIsSafe(cap, steps);
  }

  // ------------------------------------------------------------------ the queue inside

  /** common/queue.c: a ring of fixed capacity that keeps its size and its next item. */
  class Queue<T(0)> {
    const capacity: nat
    const data: array<T>
    var size: nat
    var next: nat

    ghost predicate Valid()
      reads this
    {
      0 < capacity == data.Length && size <= capacity && next < capacity
    }

    ghost function Contents(): (q: seq<T>)
      reads this, data
      requires Valid()
    {
      Held(data[..], next, size)
    }

    constructor (capacity: nat)
      requires capacity > 0
      ensures Valid() && fresh(data) && Contents() == [] && this.capacity == capacity
    {
      this.capacity := capacity;
      data := new T[capacity];
      size, next := 0, 0;
    }

    /** queue_add */
    method Add(value: T) returns (rc: int)
      requires Valid()
      modifies this`size, data
      ensures Valid() && rc == if |old(Contents())| >= capacity then -1 else 0
      ensures Contents() == if rc == 0 then old(Contents()) + [value] else old(Contents())
    {
      if size >= capacity {
        return -1;
      }
      var pos := next + size;
      if pos >= capacity {
        pos := pos - capacity;
      }
      HeldPush(data[..], next, size, value);
      data[pos] := value;
      size := size + 1;
      return 0;
    }

    /** queue_remove: the oldest item, or NULL of an empty queue */
    method Remove() returns (value: Option<T>)
      requires Valid()
      modifies this
      ensures Valid()
      ensures old(Contents()) == [] ==> value == None && Contents() == []
      ensures old(Contents()) != [] ==> value == Some(old(Contents())[0]) && Contents() == old(Contents())[1..]
    {
      if size == 0 {
        return None;
      }
      HeldPop(data[..], next, size);
      value := Some(data[next]);
      next := next + 1;
      size := size - 1;
      if next >= capacity {
        next := next - capacity;
      }
    }
  }

  // ------------------------------------------------------------------ the channel itself

  /** chan_t: the queue, the closed flag and the two counters of waiting threads. The mutex
      and the condition variables are in `state`. */
  class BufferedChan<T(0)> {
    const queue: Queue<T>
    var closed: bool
    var rWaiting: nat
    var wWaiting: nat
    ghost var state: Chan<T>

    ghost predicate Valid()
      reads this, queue, queue.data
    {
      Linked() && Inv(state)
    }

    /** The fields say what `state` says, also halfway through a section. */
    ghost predicate Linked()
      reads this, queue, queue.data
    {
      && queue.Valid() && state.cap == queue.capacity && state.queue == queue.Contents() && state.closed == closed
      && rWaiting == |state.waitR| + |state.sigR| && wWaiting == |state.waitW| + |state.sigW|
    }

    constructor (capacity: nat)
      requires capacity > 0
      ensures Valid() && fresh(queue) && fresh(queue.data) && state == Empty(capacity)
    {
      var q := new Queue<T>(capacity);
      queue := q;
      closed, rWaiting, wWaiting := false, 0, 0;
      state := Empty(capacity);
    }

    /** A receiver comes back from the wait with the mutex held. */
    method BackR(t: Tid, resumes: bool)
      requires Linked() && resumes == (t in state.sigR)
      modifies this`rWaiting, this`state
      ensures Linked() && state == old(state).(sigR := old(state).sigR - {t})
    {
      Leaves(state.sigR, t);
      if resumes {
        rWaiting := rWaiting - 1;
        state := state.(sigR := state.sigR - {t});
      }
    }

    method BlockR(t: Tid)
      requires Linked() && t !in state.waitR
      modifies this`rWaiting, this`state
      ensures Linked() && state == old(state).(waitR := old(state).waitR + {t})
    {
      Joins(state.waitR, t);
      rWaiting := rWaiting + 1;
      state := state.(waitR := state.waitR + {t});
    }

    method SignalR(ghost who: set<Tid>)
      requires Linked() && state.waitR !! state.sigR && who <= state.waitR
      modifies this`state
      ensures Linked() && state == WakeReaders(old(state), who)
    {
      if rWaiting > 0 {
        Moves(state.waitR, state.sigR, who);
        state := state.(waitR := state.waitR - who, sigR := state.sigR + who);
      }
    }

    /** A sender comes back from the wait with the mutex held. */
    method BackW(t: Tid, resumes: bool)
      requires Linked() && resumes == (t in state.sigW)
      modifies this`wWaiting, this`state
      ensures Linked() && state == old(state).(sigW := old(state).sigW - {t})
    {
      Leaves(state.sigW, t);
      if resumes {
        wWaiting := wWaiting - 1;
        state := state.(sigW := state.sigW - {t});
      }
    }

    method BlockW(t: Tid)
      requires Linked() && t !in state.waitW
      modifies this`wWaiting, this`state
      ensures Linked() && state == old(state).(waitW := old(state).waitW + {t})
    {
      Joins(state.waitW, t);
      wWaiting := wWaiting + 1;
      state := state.(waitW := state.waitW + {t});
    }

    method SignalW(ghost who: set<Tid>)
      requires Linked() && state.waitW !! state.sigW && who <= state.waitW
      modifies this`state
      ensures Linked() && state == WakeWriters(old(state), who)
    {
      if wWaiting > 0 {
        Moves(state.waitW, state.sigW, who);
        state := state.(waitW := state.waitW - who, sigW := state.sigW + who);
      }
    }

    /** One pass through buffered_chan_send with the mutex held. A thread that `resumes` comes
        back from the wait; `who` are the readers a signal wakes. */
    method SendSection(t: Tid, item: T, resumes: bool, ghost who: set<Tid>) returns (outcome: Outcome<T>)
      requires Valid() && Enabled(state, SendStep(t, item, who)) && resumes == (t in state.sigW)
      modifies this, queue, queue.data
      ensures Valid() && (state, outcome) == Send(old(state), t, item, who)
    {
      SendKeeps(state, t, item, who);
      BackW(t, resumes);
      if queue.size == queue.capacity {
        if closed {
          return Broken;
        }
        BlockW(t);
        return Blocks;
      }
      if closed {
        return Broken;
      }
      var _ := queue.Add(item);
      state := state.(queue := state.queue + [item], accepted := state.accepted + [item]);
      SignalR(who);
      return Sent;
    }

    /** One pass through buffered_chan_recv with the mutex held. */
    method RecvSection(t: Tid, resumes: bool, ghost who: set<Tid>) returns (outcome: Outcome<T>)
      requires Valid() && Enabled(state, RecvStep(t, who)) && resumes == (t in state.sigR)
      modifies this, queue, queue.data
      ensures Valid() && (state, outcome) == Recv(old(state), t, who)
    {
      RecvKeeps(state, t, who);
      BackR(t, resumes);
      if queue.size == 0 {
        if closed {
          return Broken;
        }
        BlockR(t);
        return Blocks;
      }
      var item := queue.Remove();
      state := state.(queue := state.queue[1..], taken := state.taken + [item.value]);
      SignalW(who);
      return Received(item.value);
    }

    /** chan_close */
    method CloseSection() returns (rc: int)
      requires Valid()
      modifies this
      ensures Valid() && (state, rc) == Close(old(state))
    {
      StepKeeps(state, CloseStep);
      if closed {
        return -1;
      }
      CardinalityPlus(state.sigR, state.waitR);
      CardinalityPlus(state.sigW, state.waitW);
      closed := true;
      state := Close(state).0;
      return 0;
    }
  }

  lemma Leaves(s: set<Tid>, t: Tid)
    ensures t in s ==> |s - {t}| == |s| - 1
    ensures t !in s ==> s - {t} == s
  {
    CardinalityMinus(s, t);
  }

  lemma Joins(s: set<Tid>, t: Tid)
    requires t !in s
    ensures |s + {t}| == |s| + 1
  {
  }

  /** Waking moves threads between the sets, so the counters stay the sizes of both. */
  lemma Moves(blocked: set<Tid>, woken: set<Tid>, who: set<Tid>)
    requires blocked !! woken && who <= blocked
    ensures |blocked - who| + |woken + who| == |blocked| + |woken|
  {
    CardinalityPlus(woken, who);
    CardinalityPlus(blocked - who, who);
    assert (blocked - who) + who == blocked;
  }
}
