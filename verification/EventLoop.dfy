/** The event queue of datalink_arq/arq.c and one pass of its event loop: all queued events
    are dispatched in order, then an expired deadline is fired. */
module EventLoop {
  import opened Common
  import opened ArqTypes
  import Fsm
  import opened SessionObject
  import opened StationInvariants
  import opened StationRuns
  import Rings

  const QUEUE_CAP: nat := 64

  /** A ring over a fixed array; an event that does not fit is dropped. */
  class EventQueue {
    const slots: array<Event>
    var head: nat
    var tail: nat
    var count: nat

    ghost predicate Valid()
      reads this
    {
      slots.Length == QUEUE_CAP && head < QUEUE_CAP && count <= QUEUE_CAP && tail == Rings.Slot(head, count, QUEUE_CAP)
    }

    /** Oldest first. */
    ghost function Contents(): (r: seq<Event>)
      reads this, slots
      requires Valid()
    {
      Rings.Held(slots[..], head, count)
    }

    constructor ()
      ensures Valid() && fresh(slots) && Contents() == []
    {
      slots := new Event[QUEUE_CAP](_ => TxStarted);
      head, tail, count := 0, 0, 0;
    }

    /** evq_push */
    method Push(ev: Event)
      requires Valid()
      modifies this, slots
      ensures Valid()
      ensures Contents() == if |old(Contents())| < QUEUE_CAP then old(Contents()) + [ev] else old(Contents())
    {
      if count < QUEUE_CAP {
        Rings.HeldPush(slots[..], head, count, ev);
        slots[tail] := ev;
        tail := (tail + 1) % QUEUE_CAP;
        count := count + 1;
      }
    }

    /** evq_pop_locked */
    method Pop() returns (ev: Option<Event>)
      requires Valid()
      modifies this
      ensures Valid()
      ensures old(Contents()) == [] ==> ev == None && Contents() == []
      ensures old(Contents()) != [] ==> ev == Some(old(Contents())[0]) && Contents() == old(Contents())[1..]
    {
      if count == 0 {
        return None;
      }
      Rings.HeldPop(slots[..], head, count);
      ev := Some(slots[head]);
      head := (head + 1) % QUEUE_CAP;
      count := count - 1;
    }
  }

  /** Events dispatched one after the other, each at its own time. */
  function DispatchAll(cfg: Config, n: Node, events: seq<Event>, time: seq<nat>): Node
    requires |events| <= |time|
  {
    if events == [] then n
    else
      var last := |events| - 1;
      Fsm.Dispatch(cfg, DispatchAll(cfg, n, events[..last], time), events[last], time[last])
  }

  // ------------------------------------------------------------------ the end of a call

  /** The events that end a call, or what was left of one, for the application: the callback
      cb_notify_disconnected runs, which empties the TX ring and, while the application listens,
      queues APP_LISTEN. */
  predicate Notifies(s: Session, ev: Event) {
    match s.conn
    case Disconnected => ev.TxComplete? && s.teardown.notify
    case Calling => ev.AppDisconnect? || (ev == TimerFired(Retry) && s.retries == 0)
    case Accepting => ev.AppDisconnect?
    case Disconnecting =>
      (ev.RxDisconnect? && !Fsm.WrongSession(s, ev)) || (ev == TimerFired(Retry) && s.retries == 0)
    case _ => false
  }

  /** Outside a connection these, and no others, empty the TX ring; they leave the station
      disconnected, or listening if the application wants that. */
  lemma NotifiesEndCalls(cfg: Config, n: Node, ev: Event, now: nat)
    requires n.s.conn != Connected
    ensures var m := Fsm.Dispatch(cfg, n, ev, now);
      && m.ring == (if Notifies(n.s, ev) then [] else n.ring)
      && (Notifies(n.s, ev) ==> m.s.conn == if n.s.teardown.listen then Listening else Disconnected)
  {
    if !Fsm.WrongSession(n.s, ev) {
      HandlersEndCalls(cfg, n, Fsm.Noted(n, ev, now), ev, now);
    }
  }

  lemma HandlersEndCalls(cfg: Config, n: Node, c: Node, ev: Event, now: nat)
    requires n.s.conn != Connected && c == Fsm.Noted(n, ev, now) && !Fsm.WrongSession(n.s, ev)
    ensures var m := Fsm.Handle(cfg, c, ev, now);
      && m.ring == (if Notifies(n.s, ev) then [] else n.ring)
      && (Notifies(n.s, ev) ==> m.s.conn == if n.s.teardown.listen then Listening else Disconnected)
  {
    match n.s.conn
    case Disconnected => OldCallEnds(cfg, c, ev, now);
    case Listening => ListeningKeepsRing(cfg, c, ev, now);
    case Calling => CallingEndsCall(cfg, c, ev, now);
    case Accepting => AcceptingEndsCall(cfg, c, ev, now);
    case Disconnecting => TeardownEnds(n, c, ev, now);
  }

  lemma OldCallEnds(cfg: Config, n: Node, ev: Event, now: nat)
    ensures var m := Fsm.OnDisconnected(cfg, n, ev, now);
      if ev.TxComplete? && n.s.teardown.notify then
        m.ring == [] && m.s.conn == (if n.s.teardown.listen then Listening else Disconnected)
      else m.ring == n.ring
  {
  }

  lemma TeardownEnds(n: Node, c: Node, ev: Event, now: nat)
    requires n.s.conn == Disconnecting && c == Fsm.Noted(n, ev, now) && !Fsm.WrongSession(n.s, ev)
    ensures var m := Fsm.OnDisconnecting(c, ev, now);
      if Notifies(n.s, ev) then m.ring == [] && m.s.conn == (if n.s.teardown.listen then Listening else Disconnected)
      else m.ring == n.ring
  {
  }

  lemma CallingEndsCall(cfg: Config, n: Node, ev: Event, now: nat)
    requires n.s.conn == Calling
    ensures var m := Fsm.OnCalling(cfg, n, ev, now);
      if Notifies(n.s, ev) then m.ring == [] && m.s.conn == (if n.s.teardown.listen then Listening else Disconnected)
      else m.ring == n.ring
  {
    if ev.RxAccept? && ev.sid == n.s.sid {
      ConnectingKeepsRing(cfg, n, ev, now);
    }
  }

  lemma ConnectingKeepsRing(cfg: Config, n: Node, ev: Event, now: nat)
    requires ev.RxAccept?
    ensures Fsm.OnCalling(cfg, n, ev, now).ring == n.ring
  {
  }

  lemma CalleeKeepsRing(cfg: Config, n: Node, ev: Event, now: nat)
    requires ev.RxData? || ev.RxAck?
    ensures Fsm.BecomeCallee(cfg, n, ev, now).ring == n.ring
  {
    if ev.RxData? {
      var s := Fsm.FreshSession(cfg, n.s, Callee, now);
      var m := Fsm.EnterIdleIrs(Fsm.SessEnter(n.(s := s), Connected, Never, Retry, now), now);
      assert Fsm.OnDflow(cfg, m, ev, now) == Fsm.ReceiveData(m, ev, now);
    }
  }

  lemma ListeningKeepsRing(cfg: Config, n: Node, ev: Event, now: nat)
    ensures Fsm.OnListening(cfg, n, ev, now).ring == n.ring
  {
    if ev.RxData? || ev.RxAck? {
      CalleeKeepsRing(cfg, Fsm.CancelDisconnect(n), ev, now);
    }
  }

  lemma AcceptingEndsCall(cfg: Config, n: Node, ev: Event, now: nat)
    ensures var m := Fsm.OnAccepting(cfg, n, ev, now);
      if ev.AppDisconnect? then m.ring == [] && m.s.conn == (if n.s.teardown.listen then Listening else Disconnected)
      else m.ring == n.ring
  {
    if ev.RxData? || ev.RxAck? {
      CalleeKeepsRing(cfg, Fsm.ForgetOlla(n), ev, now);
    }
  }

  /** How often the callback queues APP_LISTEN while `events` are dispatched; `listens` says
      whether the application listens at each of them. */
  function Notices(cfg: Config, n: Node, events: seq<Event>, time: seq<nat>, listens: seq<bool>): (k: nat)
    requires |events| <= |time| && |events| <= |listens|
    ensures k <= |events|
  {
    if events == [] then 0
    else
      var last := |events| - 1;
      Notices(cfg, n, events[..last], time, listens)
      + if Notifies(DispatchAll(cfg, n, events[..last], time).s, events[last]) && listens[last] then 1 else 0
  }

  /** The same for the deadline at the end of a pass. */
  predicate LastNotice(n: Node, now: nat, listens: bool) {
    n.s.deadline != Never && now >= n.s.deadline.ms && Notifies(n.s, TimerFired(n.s.deadlineEvent)) && listens
  }

  function Listens(k: nat): (r: seq<Event>)
    ensures |r| == k
  {
    seq(k, _ => AppListen)
  }

  lemma ListensMore(k: nat)
    ensures Listens(k) + [AppListen] == Listens(k + 1)
  {
  }

  // ------------------------------------------------------------------ one pass

  /** What the queue holds: no timer events, and times after the start of the program. */
  predicate Orderly(events: seq<Event>, time: seq<nat>)
    requires |events| <= |time|
  {
    forall i :: 0 <= i < |events| ==> !events[i].TimerFired? && time[i] > 0
  }

  /** Sound before, sound after, but for the transmissions and the producers whose end was
      among the events. */
  ghost predicate PassesSound(n: Node, m: Node, events: seq<Event>) {
    forall busy, posted :: Sound(n, busy, posted) ==>
      Sound(m, busy && TxComplete !in events, posted && AppDataReady !in events)
  }

  lemma {:induction false} AllSound(cfg: Config, n: Node, events: seq<Event>, time: seq<nat>, busy: bool, posted: bool)
    requires |events| <= |time| && Orderly(events, time) && Sound(n, busy, posted)
    ensures Sound(DispatchAll(cfg, n, events, time), busy && TxComplete !in events, posted && AppDataReady !in events)
  {
    if events != [] {
      var last := |events| - 1;
      var front := events[..last];
      AllSound(cfg, n, front, time, busy, posted);
      AlsoIn(events, TxComplete);
      AlsoIn(events, AppDataReady);
      EventSound(cfg, DispatchAll(cfg, n, front, time), events[last], time[last], busy && TxComplete !in front,
        posted && AppDataReady !in front, busy && TxComplete !in events, posted && AppDataReady !in events);
    }
  }

  lemma AlsoIn(events: seq<Event>, ev: Event)
    requires events != []
    ensures ev in events <==> ev in events[..|events| - 1] || ev == events[|events| - 1]
  {
    assert events == events[..|events| - 1] + [events[|events| - 1]];
  }

  lemma EventSound(cfg: Config, m: Node, ev: Event, now: nat, busy: bool, posted: bool, busyAfter: bool,
      postedAfter: bool)
    requires Sound(m, busy, posted) && !ev.TimerFired? && now > 0
    requires busyAfter == (busy && ev != TxComplete) && postedAfter == (posted && ev != AppDataReady)
    ensures Sound(Fsm.Dispatch(cfg, m, ev, now), busyAfter, postedAfter)
  {
    DispatchKeeps(cfg, m, ev, now, busy, posted);
  }

  lemma PassUpholds(cfg: Config, n: Node, events: seq<Event>, time: seq<nat>, now: nat)
    requires |events| <= |time| && Orderly(events, time) && now > 0
    ensures PassesSound(n, Fsm.FireDeadline(cfg, DispatchAll(cfg, n, events, time), now), events)
  {
    var m := DispatchAll(cfg, n, events, time);
    forall busy, posted | Sound(n, busy, posted)
      ensures Sound(Fsm.FireDeadline(cfg, m, now), busy && TxComplete !in events, posted && AppDataReady !in events)
    {
      AllSound(cfg, n, events, time, busy, posted);
      TickIsSound(cfg, m, now, busy && TxComplete !in events, posted && AppDataReady !in events);
    }
  }

  /** The callback: APP_LISTEN goes into the queue, or is dropped if that is full. */
  method Notify(q: EventQueue, notified: bool, ghost k: nat)
    requires q.Valid() && q.Contents() == Listens(k)
    modifies q, q.slots
    ensures q.Valid()
    ensures q.Contents() == Listens(Min(if notified then k + 1 else k, QUEUE_CAP))
  {
    assert k <= QUEUE_CAP;
    if notified {
      ListensMore(k);
      q.Push(AppListen);
    }
  }

  /** One event, with the callback it may run. */
  method DispatchOne(q: EventQueue, station: ArqSession, ev: Event, now: nat, listens: bool, ghost k: nat)
    requires q.Valid() && station.Valid() && {q, q.slots} !! {station, station.window} && q.Contents() == Listens(k)
    modifies q, q.slots, station, station.window
    ensures q.Valid() && station.Valid()
    ensures station.View() == Fsm.Dispatch(station.settings, old(station.View()), ev, now)
    ensures q.Contents() == Listens(Min(if Notifies(old(station.View()).s, ev) && listens then k + 1 else k, QUEUE_CAP))
  {
    var notified := Notifies(station.s, ev) && listens;
    assert Notifies(station.s, ev) == Notifies(station.View().s, ev);
    station.Dispatch(ev, now);
    Notify(q, notified, k);
  }

  /** One pass: take every queued event, dispatch each, then fire the deadline if it is due. What
      is in the queue afterwards are the callback's events. */
  method Pass(q: EventQueue, station: ArqSession, time: seq<nat>, now: nat, listens: seq<bool>)
    requires q.Valid() && station.Valid() && {q, q.slots} !! {station, station.window}
    requires |q.Contents()| <= |time| && |q.Contents()| < |listens|
    modifies q, q.slots, station, station.window
    ensures q.Valid() && station.Valid()
    ensures var m := DispatchAll(station.settings, old(station.View()), old(q.Contents()), time);
      station.View() == Fsm.FireDeadline(station.settings, m, now)
    ensures q.Contents() == Listens(Left(station.settings, old(station.View()), old(q.Contents()), time, now, listens))
    ensures Orderly(old(q.Contents()), time) && now > 0 ==>
      PassesSound(old(station.View()), station.View(), old(q.Contents()))
  {
    ghost var before := station.View();
    var events := TakeAll(q);
    DispatchBatch(q, station, events, time, listens);
    if Orderly(events, time) && now > 0 {
      PassUpholds(station.settings, before, events, time, now);
    }
    FireOne(q, station, now, listens[|events|], Notices(station.settings, before, events, time, listens));
  }

  method DispatchBatch(q: EventQueue, station: ArqSession, events: seq<Event>, time: seq<nat>, listens: seq<bool>)
    requires q.Valid() && station.Valid() && {q, q.slots} !! {station, station.window}
    requires q.Contents() == [] && |events| <= QUEUE_CAP && |events| <= |time| && |events| <= |listens|
    modifies q, q.slots, station, station.window
    ensures q.Valid() && station.Valid()
    ensures station.View() == DispatchAll(station.settings, old(station.View()), events, time)
    ensures q.Contents() == Listens(Notices(station.settings, old(station.View()), events, time, listens))
  {
    ghost var before := station.View();
    ghost var k: nat := 0;
    assert [] == Listens(0);
    var i := 0;
    while i < |events|
      invariant 0 <= i <= |events| && q.Valid() && station.Valid()
      invariant station.View() == DispatchAll(station.settings, before, events[..i], time)
      invariant k == Notices(station.settings, before, events[..i], time, listens) <= i
      invariant q.Contents() == Listens(k)
    {
      k := DispatchNext(q, station, before, events, i, time, listens, k);
      i := i + 1;
    }
    assert events[..i] == events;
  }

  /** The next event of a batch, `k` notices so far. */
  method DispatchNext(q: EventQueue, station: ArqSession, ghost before: Node, events: seq<Event>, i: nat,
      time: seq<nat>, listens: seq<bool>, ghost k: nat) returns (ghost k': nat)
    requires q.Valid() && station.Valid() && {q, q.slots} !! {station, station.window} && q.Contents() == Listens(k)
    requires i < |events| <= QUEUE_CAP && |events| <= |time| && |events| <= |listens|
    requires station.View() == DispatchAll(station.settings, before, events[..i], time)
    requires k == Notices(station.settings, before, events[..i], time, listens) <= i
    modifies q, q.slots, station, station.window
    ensures q.Valid() && station.Valid() && q.Contents() == Listens(k')
    ensures station.View() == DispatchAll(station.settings, before, events[..i + 1], time)
    ensures k' == Notices(station.settings, before, events[..i + 1], time, listens)
  {
    ghost var m := station.View();
    NextInBatch(station.settings, before, events, i, time, listens, m, k);
    k' := if Notifies(m.s, events[i]) && listens[i] then k + 1 else k;
    DispatchOne(q, station, events[i], time[i], listens[i], k);
  }

  lemma NextInBatch(cfg: Config, n: Node, events: seq<Event>, i: nat, time: seq<nat>, listens: seq<bool>, m: Node,
      k: nat)
    requires i < |events| <= |time| && |events| <= |listens| && m == DispatchAll(cfg, n, events[..i], time)
    requires k == Notices(cfg, n, events[..i], time, listens)
    ensures DispatchAll(cfg, n, events[..i + 1], time) == Fsm.Dispatch(cfg, m, events[i], time[i])
    ensures Notices(cfg, n, events[..i + 1], time, listens)
         == if Notifies(m.s, events[i]) && listens[i] then k + 1 else k
  {
    assert events[..i + 1][..i] == events[..i];
  }

  /** How many events the callback has left in the queue after a pass. */
  function Left(cfg: Config, n: Node, events: seq<Event>, time: seq<nat>, now: nat, listens: seq<bool>): nat
    requires |events| <= |time| && |events| < |listens|
  {
    var k := Notices(cfg, n, events, time, listens);
    Min(if LastNotice(DispatchAll(cfg, n, events, time), now, listens[|events|]) then k + 1 else k, QUEUE_CAP)
  }

  /** The deadline, with the callback it may run. */
  method FireOne(q: EventQueue, station: ArqSession, now: nat, listens: bool, ghost k: nat)
    requires q.Valid() && station.Valid() && {q, q.slots} !! {station, station.window} && q.Contents() == Listens(k)
    modifies q, q.slots, station, station.window
    ensures q.Valid() && station.Valid()
    ensures station.View() == Fsm.FireDeadline(station.settings, old(station.View()), now)
    ensures q.Contents() == Listens(Min(if LastNotice(old(station.View()), now, listens) then k + 1 else k, QUEUE_CAP))
  {
    var due := station.s.deadline != Never && now >= station.s.deadline.ms;
    var notified := due && Notifies(station.s, TimerFired(station.s.deadlineEvent)) && listens;
    station.FireDeadline(now);
    Notify(q, notified, k);
  }

  lemma NextTaken(events: seq<Event>, held: seq<Event>)
    requires held != []
    ensures events + held == events + [held[0]] + held[1..]
  {
  }

  /** The batch buffer is as long as the queue, so the queue is always emptied. */
  method TakeAll(q: EventQueue) returns (events: seq<Event>)
    requires q.Valid()
    modifies q
    ensures q.Valid() && q.Contents() == [] && events == old(q.Contents()) && |events| <= QUEUE_CAP
  {
    events := [];
    while true
      invariant q.Valid() && events + q.Contents() == old(q.Contents())
      decreases q.count
    {
      ghost var held := q.Contents();
      var ev := q.Pop();
      if ev.None? || |events| >= QUEUE_CAP {
        break;
      }
      NextTaken(events, held);
      events := events + [ev.value];
    }
  }
}
