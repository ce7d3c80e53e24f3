/** A disconnect that was put off until the data is out: how long it can be put off. */
module Teardowns {
  import opened ArqTypes
  import opened Fsm

  /** The disconnect is due at `due` at the latest. */
  predicate PutOff(n: Node, due: nat) {
    n.s.conn == Connected && n.s.teardown.disconnect && n.s.teardown.drainUntil == due && due > 0
  }

  predicate KeepsTeardown(n: Node, m: Node) { m.s.conn == Connected ==> m.s.teardown == n.s.teardown }

  /** A request that finds data to send, or a frame in flight, is put off; any other is
      answered at once. */
  lemma HangUpIsPutOff(cfg: Config, n: Node, now: nat)
    requires n.s.conn == Connected && !DrainExpired(n.s, now) && now + cfg.drainMs > 0
    ensures var m := Dispatch(cfg, n, AppDisconnect, now);
      if n.ring != [] || n.s.dflow.DataTx? || n.s.dflow.WaitAck? then PutOff(m, now + cfg.drainMs)
      else m.s.conn == Disconnecting
  {
  }

  /** The due time after an event: a request before the due time sets it anew. */
  function DueAfter(cfg: Config, ev: Event, now: nat, due: nat): nat {
    if ev.AppDisconnect? && now < due then now + cfg.drainMs else due
  }

  function Postponed(n: Node, due: nat): Node { n.(s := n.s.(teardown := n.s.teardown.(drainUntil := due))) }

  /** A repeated request before the due time is put off or answered like a first one. Putting
      it off moves the due time and changes nothing else: the deadline is not absolute. */
  lemma RepeatPostpones(cfg: Config, n: Node, now: nat, due: nat)
    requires PutOff(n, due) && now < due && now + cfg.drainMs > 0
    ensures var m := Dispatch(cfg, n, AppDisconnect, now);
      if n.ring != [] || n.s.dflow.DataTx? || n.s.dflow.WaitAck?
      then m == Postponed(n, now + cfg.drainMs) && PutOff(m, now + cfg.drainMs)
      else m.s.conn == Disconnecting
  {
  }

  /** Until then nothing but leaving the connection ends it, and from then on the first event
      of this session, or of none, begins the air-side teardown. */
  lemma TeardownIsBounded(cfg: Config, n: Node, ev: Event, now: nat, due: nat)
    requires PutOff(n, due) && now + cfg.drainMs > 0
    ensures var m := Dispatch(cfg, n, ev, now);
      && (m.s.conn == Connected ==> PutOff(m, DueAfter(cfg, ev, now, due)))
      && (now >= due && !WrongSession(n.s, ev) ==> m.s.conn == Disconnecting && m.s.deadline != Never)
  {
    if now >= due {
      DrainIsOver(cfg, n, ev, now, due);
    } else if ev.AppDisconnect? {
      RepeatPostpones(cfg, n, now, due);
    } else if !WrongSession(n.s, ev) {
      var c := Noted(n, ev, now);
      assert Dispatch(cfg, n, ev, now) == OnConnected(cfg, c, ev, now);
      DflowKeepsTeardown(cfg, c, ev, now);
      StandsWhileConnected(cfg, c, ev, now, due);
    }
  }

  lemma DrainIsOver(cfg: Config, n: Node, ev: Event, now: nat, due: nat)
    requires PutOff(n, due) && now >= due
    ensures var m := Dispatch(cfg, n, ev, now);
      if WrongSession(n.s, ev) then PutOff(m, due) else m.s.conn == Disconnecting && m.s.deadline != Never
  {
    NotedStands(n, ev, now, due);
    var c := Noted(n, ev, now);
    if !WrongSession(n.s, ev) {
      assert Dispatch(cfg, n, ev, now) == OnConnected(cfg, c, ev, now);
      assert DrainExpired(c.s, now);
    }
  }

  lemma NotedStands(n: Node, ev: Event, now: nat, due: nat)
    requires PutOff(n, due)
    ensures PutOff(Noted(n, ev, now), due)
  {
  }

  lemma StandsWhileConnected(cfg: Config, n: Node, ev: Event, now: nat, due: nat)
    requires PutOff(n, due) && ev != AppDisconnect && now < due && KeepsTeardown(n, OnDflow(cfg, n, ev, now))
    ensures var m := OnConnected(cfg, n, ev, now); m.s.conn == Connected ==> PutOff(m, due)
  {
  }

  /** An event and the uptime at which it is dispatched. */
  datatype Timed = Timed(ev: Event, at: nat)

  /** A station that goes through `nodes` as it is given the events of `script`; a deadline may
      be cleared between two events, and the application may write. */
  ghost predicate Goes(cfg: Config, nodes: seq<Node>, script: seq<Timed>) {
    && |nodes| == |script| + 1
    && forall i :: 0 <= i < |script| ==> GoesAt(cfg, nodes[i], nodes[i + 1], script[i])
  }

  predicate GoesAt(cfg: Config, n: Node, next: Node, e: Timed) {
    var m := Dispatch(cfg, n, e.ev, e.at);
    next == m.(ring := next.ring, queue := next.queue, s := m.s.(deadline := next.s.deadline))
  }

  /** The due time once `script` is through. */
  function Due(cfg: Config, script: seq<Timed>, due: nat): nat {
    if script == [] then due
    else
      var last := |script| - 1;
      DueAfter(cfg, script[last].ev, script[last].at, Due(cfg, script[..last], due))
  }

  lemma DueSnoc(cfg: Config, script: seq<Timed>, due: nat, i: nat)
    requires i < |script|
    ensures Due(cfg, script[..i + 1], due) == DueAfter(cfg, script[i].ev, script[i].at, Due(cfg, script[..i], due))
  {
    assert script[..i + 1][..i] == script[..i];
  }

  predicate Connects(nodes: seq<Node>, i: nat)
    requires i < |nodes|
  {
    forall k :: 0 <= k <= i ==> nodes[k].s.conn.Connected?
  }

  /** However long the series: while the station is connected the request stands, with the due
      time of the moment. */
  lemma {:induction false} DueIsKept(cfg: Config, nodes: seq<Node>, script: seq<Timed>, due: nat, i: nat)
    requires Goes(cfg, nodes, script) && PutOff(nodes[0], due) && cfg.drainMs > 0 && i <= |script| && Connects(nodes, i)
    ensures PutOff(nodes[i], Due(cfg, script[..i], due))
  {
    if i > 0 {
      var k := i - 1;
      DueIsKept(cfg, nodes, script, due, k);
      assert GoesAt(cfg, nodes[k], nodes[k + 1], script[k]);
      StepStands(cfg, nodes[k], nodes[i], script[k], Due(cfg, script[..k], due));
      DueSnoc(cfg, script, due, k);
    }
  }

  /** And every event so far came before the due time of its moment, or belonged to another
      session. */
  lemma EventsBeforeDue(cfg: Config, nodes: seq<Node>, script: seq<Timed>, due: nat, k: nat)
    requires Goes(cfg, nodes, script) && PutOff(nodes[0], due) && cfg.drainMs > 0 && k < |script|
    requires Connects(nodes, k + 1)
    ensures script[k].at < Due(cfg, script[..k], due) || WrongSession(nodes[k].s, script[k].ev)
  {
    DueIsKept(cfg, nodes, script, due, k);
    assert GoesAt(cfg, nodes[k], nodes[k + 1], script[k]);
    StepStands(cfg, nodes[k], nodes[k + 1], script[k], Due(cfg, script[..k], due));
  }

  lemma StepStands(cfg: Config, n: Node, next: Node, e: Timed, due: nat)
    requires PutOff(n, due) && cfg.drainMs > 0 && next.s.conn.Connected? && GoesAt(cfg, n, next, e)
    ensures PutOff(next, DueAfter(cfg, e.ev, e.at, due)) && (e.at < due || WrongSession(n.s, e.ev))
  {
    TeardownIsBounded(cfg, n, e.ev, e.at, due);
  }

  /** Without a further request the due time stands. */
  lemma {:induction false} DueStands(cfg: Config, script: seq<Timed>, due: nat, j: nat, i: nat)
    requires j <= i <= |script| && forall k :: j <= k < i ==> script[k].ev != AppDisconnect
    ensures Due(cfg, script[..i], due) == Due(cfg, script[..j], due)
  {
    if j < i {
      DueStands(cfg, script, due, j, i - 1);
      DueSnoc(cfg, script, due, i - 1);
    }
  }

  /** The bound: a station still connected after `i` events, the last request among them being
      event `last`, has had no event of its session drainMs or more after that request. */
  lemma NobodyOutlivesIt(cfg: Config, nodes: seq<Node>, script: seq<Timed>, due: nat, last: nat, i: nat)
    requires Goes(cfg, nodes, script) && PutOff(nodes[0], due) && cfg.drainMs > 0
    requires last < i <= |script| && Connects(nodes, i) && script[last].ev == AppDisconnect
    requires forall k :: last < k < i ==> script[k].ev != AppDisconnect
    ensures PutOff(nodes[i], script[last].at + cfg.drainMs)
    ensures forall k :: last < k < i ==>
      script[k].at < script[last].at + cfg.drainMs || WrongSession(nodes[k].s, script[k].ev)
  {
    EventsBeforeDue(cfg, nodes, script, due, last);
    DueSnoc(cfg, script, due, last);
    DueStands(cfg, script, due, last + 1, i);
    DueIsKept(cfg, nodes, script, due, i);
    forall k | last < k < i
      ensures script[k].at < script[last].at + cfg.drainMs || WrongSession(nodes[k].s, script[k].ev)
    {
      DueStands(cfg, script, due, last + 1, k);
      EventsBeforeDue(cfg, nodes, script, due, k);
    }
  }

  /** The due time moved `k` times by `step`. */
  function Moved(due: nat, step: nat, k: nat): (r: nat)
    ensures r >= due
  {
    if k == 0 then due else Moved(due, step, k - 1) + step
  }

  lemma {:induction false} MovedFar(due: nat, step: nat, k: nat)
    ensures Moved(due, step, k) == due + k * step
  {
    if k > 0 {
      MovedFar(due, step, k - 1);
      assert k * step == (k - 1) * step + step;
    }
  }

  lemma OnceMore(cfg: Config, n: Node, due: nat, node: Node, next: Node)
    requires n.s.conn == Connected && n.s.teardown.disconnect && n.ring != [] && cfg.drainMs > 0 && due > 0
    requires node == Postponed(n, due) && next == Postponed(n, due + cfg.drainMs - 1)
    ensures GoesAt(cfg, node, next, Timed(AppDisconnect, due - 1))
  {
    RepeatPostpones(cfg, node, due - 1, due);
  }

  lemma OnAndOn(cfg: Config, n: Node, due: nat, nodes: seq<Node>, script: seq<Timed>)
    requires PutOff(n, due) && n.ring != [] && cfg.drainMs > 0 && |nodes| == |script| + 1
    requires forall k :: 0 <= k < |nodes| ==> nodes[k] == Postponed(n, Moved(due, cfg.drainMs - 1, k))
    requires forall k :: 0 <= k < |script| ==> script[k] == Timed(AppDisconnect, Moved(due, cfg.drainMs - 1, k) - 1)
    ensures Goes(cfg, nodes, script)
  {
    forall i | 0 <= i < |script| ensures GoesAt(cfg, nodes[i], nodes[i + 1], script[i]) {
      OnceMore(cfg, n, Moved(due, cfg.drainMs - 1, i), nodes[i], nodes[i + 1]);
    }
  }

  /** And a host that repeats its request in time, while there is data to send, postpones the
      teardown as long as it likes: after `count` requests it is due count * (drainMs - 1)
      later than at first. */
  lemma PostponedForever(cfg: Config, n: Node, due: nat, count: nat) returns (nodes: seq<Node>, script: seq<Timed>)
    requires PutOff(n, due) && n.ring != [] && cfg.drainMs > 0
    ensures |script| == count && Goes(cfg, nodes, script) && nodes[0] == n
    ensures forall k :: 0 <= k < count ==> script[k].ev == AppDisconnect
    ensures Connects(nodes, count) && PutOff(nodes[count], due + count * (cfg.drainMs - 1))
  {
    var step: nat := cfg.drainMs - 1;
    script := seq(count, (k: nat) => Timed(AppDisconnect, Moved(due, step, k) - 1));
    nodes := seq(count + 1, (k: nat) => Postponed(n, Moved(due, step, k)));
    OnAndOn(cfg, n, due, nodes, script);
    MovedFar(due, step, count);
  }

  // ------------------------------------------------------------------ no handler touches it

  lemma {:induction false} TopUpKeeps(n: Node, userBytes: nat, limit: nat)
    requires userBytes > 0
    ensures var m := TopUp(n, userBytes, limit); m.s.teardown == n.s.teardown && m.s.conn == n.s.conn
    decreases limit - |n.s.win.slots|
  {
    if |n.s.win.slots| < limit && n.ring != [] {
      TopUpKeeps(AddSlot(n, userBytes), userBytes, limit);
    }
  }

  lemma BurstKeeps(cfg: Config, n: Node, now: nat)
    ensures var m := SendDataBurst(cfg, n, now); m.s.teardown == n.s.teardown && m.s.conn == n.s.conn
  {
    var u := UserBytes(n.s.payloadMode);
    if u > 0 {
      TopUpKeeps(n, u, BurstMax(cfg, n.s, now));
    }
  }

  lemma GuardedKeeps(cfg: Config, n: Node, now: nat)
    requires n.s.conn == Connected
    ensures KeepsTeardown(n, EnterIdleIssGuarded(cfg, n, now))
  {
    var (u, started) := MaybeUpgrade(cfg, n.(s := n.s.(retries := cfg.dataRetries)), now);
    assert u.s.teardown == n.s.teardown;
  }

  lemma IdleIssKeeps(cfg: Config, n: Node, now: nat)
    requires n.s.conn == Connected
    ensures KeepsTeardown(n, EnterIdleIss(cfg, n, now))
  {
    BurstKeeps(cfg, DflowEnter(n.(s := n.s.(retries := cfg.dataRetries)), DataTx, Never, Retry), now);
  }

  lemma DflowKeepsTeardown(cfg: Config, n: Node, ev: Event, now: nat)
    requires n.s.conn == Connected
    ensures KeepsTeardown(n, OnDflow(cfg, n, ev, now))
  {
    match n.s.dflow
    case IdleIss => BurstKeeps(cfg, DflowEnter(n, DataTx, Never, Retry), now);
    case DataTx => BurstKeeps(cfg, n, now);
    case WaitAck => WaitAckKeeps(cfg, n, ev, now);
    case AckTx => AckTxKeeps(cfg, n, ev, now);
    case TurnReqWait => GuardedKeeps(cfg, n, now);
    case KeepaliveWait => KeepaliveWaitKeeps(cfg, n, ev, now);
    case KeepaliveAckTx => GuardedKeeps(cfg, n, now);
    case ModeReqTx => IdleIssKeeps(cfg, n.(s := n.s.(retries := cfg.dataRetries)), now);
    case ModeReqWait => ModeReqWaitKeeps(cfg, n, ev, now);
    case _ => RestKeeps(cfg, n, ev, now);
  }

  lemma RestKeeps(cfg: Config, n: Node, ev: Event, now: nat)
    requires n.s.conn == Connected
    requires var d := n.s.dflow;
      d.IdleIrs? || d.DataRx? || d.TurnReqTx? || d.TurnAckTx? || d.KeepaliveTx? || d.ModeAckTx?
    ensures KeepsTeardown(n, OnDflow(cfg, n, ev, now))
  {
    match n.s.dflow
    case IdleIrs => assert OnDflow(cfg, n, ev, now) == OnIdleIrs(n, ev, now);
    case DataRx => assert OnDflow(cfg, n, ev, now) == OnDataRx(n, ev, now);
    case _ =>
  }

  lemma AckTxKeeps(cfg: Config, n: Node, ev: Event, now: nat)
    requires n.s.conn == Connected && n.s.dflow.AckTx?
    ensures KeepsTeardown(n, OnDflow(cfg, n, ev, now))
  {
    var c := n.(s := n.s.(setup := n.s.setup.(confirm := false)));
    GuardedKeeps(cfg, c, now);
    GuardedKeeps(cfg, n, now);
    IdleIssKeeps(cfg, c, now);
    assert OnDflow(cfg, n, ev, now) == OnAckTx(cfg, n, ev, now);
  }

  lemma KeepaliveWaitKeeps(cfg: Config, n: Node, ev: Event, now: nat)
    requires n.s.conn == Connected && n.s.dflow.KeepaliveWait?
    ensures KeepsTeardown(n, OnDflow(cfg, n, ev, now))
  {
    GuardedKeeps(cfg, n.(s := n.s.(probe := n.s.probe.(misses := 0))), now);
    GuardedKeeps(cfg, Send(n, KeepaliveAckFrame(n.s.sid)).(s := n.s.(probe := n.s.probe.(misses := 0))), now);
    assert OnDflow(cfg, n, ev, now) == OnKeepaliveWait(cfg, n, ev, now);
  }

  lemma ModeReqWaitKeeps(cfg: Config, n: Node, ev: Event, now: nat)
    requires n.s.conn == Connected && n.s.dflow.ModeReqWait?
    ensures KeepsTeardown(n, OnDflow(cfg, n, ev, now))
  {
    assert OnDflow(cfg, n, ev, now) == OnModeReqWait(cfg, n, ev, now);
    if ev.RxModeAck? {
      var s := if !PayloadMode(ev.mode) then n.s
               else n.s.(link := ConfirmMode(n.s.link, n.s.payloadMode, ev.mode, now), payloadMode := ev.mode);
      GuardedKeeps(cfg, n.(s := s), now);
    }
  }

  lemma WaitAckKeeps(cfg: Config, n: Node, ev: Event, now: nat)
    requires n.s.conn == Connected && n.s.dflow.WaitAck?
    ensures KeepsTeardown(n, OnDflow(cfg, n, ev, now))
  {
    assert OnDflow(cfg, n, ev, now) == OnWaitAck(cfg, n, ev, now);
    match ev
    case RxAck(_, ack, hasData, snr) =>
      var k := Confirmed(n.s.win.slots, ack);
      AckKeeps(cfg, n.(s := n.s.(link := SeePeerSnr(n.s.link, snr))), k, hasData, now);
    case TimerFired(AckTimer) => TimeoutKeeps(cfg, n, now);
    case RxData(_, _, _, _, _, mode, snr) =>
      var m := n.(s := n.s.(link := SeePeerSnr(n.s.link, snr), peerTxMode := mode, lastRx := now));
      BurstKeeps(cfg, DflowEnter(m, DataTx, Never, Retry), now);
    case _ =>
  }

  lemma AckKeeps(cfg: Config, n: Node, k: nat, hasData: bool, now: nat)
    requires n.s.conn == Connected && k <= |n.s.win.slots|
    ensures KeepsTeardown(n, AckConfirms(cfg, n, k, hasData, now))
  {
    var w := Slide(n.s, k);
    var p := w.(retries := cfg.dataRetries, lastProgress := now, turn := w.turn.(peerHasData := hasData));
    GuardedKeeps(cfg, n.(s := p.(win := p.win.(retx := false),
        link := cfg.policy.record(p.link, p.payloadMode, CleanWindow(cfg, n.s)))), now);
  }

  lemma TimeoutKeeps(cfg: Config, n: Node, now: nat)
    requires n.s.conn == Connected
    ensures KeepsTeardown(n, OnAckTimeout(cfg, n, now))
  {
    var s := n.s;
    if s.retries > 0 {
      var left := if s.teardown.disconnect && s.retries > 1 then 1 else s.retries;
      var m := n.(s := s.(retries := left - 1, win := s.win.(retx := true)));
      BurstKeeps(cfg, DflowEnter(m, DataTx, Never, Retry), now);
    } else if !(now - s.lastProgress >= cfg.noProgressMs || s.teardown.disconnect) {
      var (u, started) := MaybeUpgrade(cfg, n.(s := s.(retries := cfg.dataRetries, link := PushDown(s.link))), now);
      BurstKeeps(cfg, DflowEnter(u, DataTx, Never, Retry), now);
    }
  }
}
