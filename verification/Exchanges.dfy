/** What two stations say to each other: the frame each exchange of the protocol puts on the air,
    what the other station makes of it, and where both are left. Every frame is passed on as
    the event it becomes at the receiver. */
module Exchanges {
  import opened Common
  import opened ArqTypes
  import opened Fsm

  /** The queue has gone out: the modem keyed up and the transmission has ended. */
  function Sent(cfg: Config, n: Node, now: nat): Node {
    Dispatch(cfg, Dispatch(cfg, n.(queue := []), TxStarted, now), TxComplete, now)
  }

  /** Both in a connection under the same session id. */
  predicate Linked(a: Node, b: Node) {
    a.s.conn == Connected && b.s.conn == Connected && a.s.sid == b.s.sid
  }

  /** Exactly one frame has been queued, and it becomes `ev` at the receiver. */
  predicate Queues(n: Node, m: Node, ev: Event, snr: Snr) {
    |m.queue| == |n.queue| + 1 && m.queue[..|n.queue|] == n.queue && EventOf(m.queue[|n.queue|], snr) == ev
  }

  predicate Armed(n: Node, timer: Timer, at: nat) { n.s.deadline == At(at) && n.s.deadlineEvent == timer }

  // ------------------------------------------------------------------ setting up a call

  /** A station that wants to connect transmits a CALL. Its session id is odd: the low seven bits of
      the uptime with the lowest set. */
  lemma CallGoesOut(cfg: Config, a: Node, now: nat, snr: Snr)
    requires a.s.conn == Disconnected || a.s.conn == Listening || a.s.conn == Accepting
    ensures var m := Dispatch(cfg, a, AppConnect, now);
      && m.s.conn == Calling && m.s.sid == (if now % 2 == 0 then now % 128 + 1 else now % 128) && m.ring == a.ring
      && Queues(a, m, RxCall(m.s.sid), snr)
      && Armed(m, Retry, now + cfg.callIntervalMs) && m.s.retries == cfg.callRetries
  {
    CallBegins(cfg, a, now);
    CallIsSent(cfg, Dropped(a, now), now, snr);
    assert Dropped(a, now).queue == a.queue && Dropped(a, now).ring == a.ring;
  }

  lemma CallIsSent(cfg: Config, a: Node, now: nat, snr: Snr)
    requires a.s.conn == Disconnected
    ensures var m := OnDisconnected(cfg, a, AppConnect, now);
      && m.s.conn == Calling && m.s.sid == (if now % 2 == 0 then now % 128 + 1 else now % 128) && m.ring == a.ring
      && Queues(a, m, RxCall(m.s.sid), snr)
      && Armed(m, Retry, now + cfg.callIntervalMs) && m.s.retries == cfg.callRetries
  {
    SessionIdIsOdd(now);
  }

  lemma SessionIdIsOdd(now: nat)
    ensures NewSessionId(now) == if now % 2 == 0 then now % 128 + 1 else now % 128
  {
    assert now % 128 % 2 == now % 2;
  }

  /** A station that accepts a call or waits for one drops that first. */
  function Dropped(a: Node, now: nat): Node {
    if a.s.conn == Disconnected then a else SessEnter(a, Disconnected, Never, Retry, now)
  }

  lemma CallBegins(cfg: Config, a: Node, now: nat)
    requires a.s.conn == Disconnected || a.s.conn == Listening || a.s.conn == Accepting
    ensures Dispatch(cfg, a, AppConnect, now) == OnDisconnected(cfg, Dropped(a, now), AppConnect, now)
  {
  }

  /** It starts afresh, with no disconnect due. */
  lemma CallStartsAfresh(cfg: Config, a: Node, now: nat)
    requires a.s.conn == Disconnected || a.s.conn == Listening || a.s.conn == Accepting
    ensures var m := Dispatch(cfg, a, AppConnect, now);
      NewLink(m.s) && m.s.teardown == a.s.teardown.(disconnect := false, drainUntil := 0)
  {
    CallBegins(cfg, a, now);
  }

  /** Nothing is held against the link from calls before. */
  predicate NewLink(s: Session) {
    && s.payloadMode == DATAC15 && s.peerTxMode == DATAC15
    && s.link.olla == 0.0 && s.link.badRun == 0 && s.link.holdUntil == 0 && s.link.speedLevel == 0
    && s.link.successes == 0
  }

  /** A call that the application gives up before it is answered is over at once. */
  lemma CallIsAbandoned(cfg: Config, a: Node, now: nat)
    requires a.s.conn == Calling || a.s.conn == Accepting
    ensures var m := Dispatch(cfg, a, AppDisconnect, now);
      CallIsOver(a, m) && m.queue == a.queue
  {
  }

  /** A station after a call: listening again if its application wants that, with an empty TX ring
      and no deadline, and decoding in the mode of before. */
  predicate CallIsOver(n: Node, m: Node) {
    && m.s.conn == (if n.s.teardown.listen then Listening else Disconnected) && m.ring == []
    && m.delivered == n.delivered && m.s.dflow == IdleIss && m.s.peerTxMode == n.s.initialMode
    && m.s.win.inflight == 0 && m.s.deadline == Never && !m.s.setup.confirm && !m.s.setup.guard
  }

  /** A listening station that hears it accepts, and once the channel guard is over transmits an
      ACCEPT under the caller's session id. */
  lemma CallIsAnswered(cfg: Config, b: Node, sid: Byte, now: nat, later: nat, snr: Snr)
    requires b.s.conn == Listening && cfg.acceptRetries > 0 && later >= now + 700
    ensures var m := Dispatch(cfg, b, RxCall(sid), now);
      && m.s.conn == Accepting && m.s.sid == sid && m.queue == b.queue && Armed(m, Retry, now + 700) && NewLink(m.s)
      && var r := FireDeadline(cfg, m, later);
      && r.s.conn == Accepting && r.s.sid == sid && r.s.retries == cfg.acceptRetries - 1
      && Queues(b, r, RxAccept(sid), snr)
      && Armed(r, Retry, later + cfg.callIntervalMs) && r.ring == b.ring && r.delivered == b.delivered
  {
    var m := Dispatch(cfg, b, RxCall(sid), now);
    AcceptGoesOut(cfg, m, later, snr);
  }

  lemma AcceptGoesOut(cfg: Config, b: Node, now: nat, snr: Snr)
    requires b.s.conn == Accepting && b.s.deadlineEvent == Retry && b.s.deadline.At? && b.s.deadline.ms <= now
    requires b.s.retries > 0
    ensures var m := FireDeadline(cfg, b, now);
      && m.s.conn == Accepting && m.s.sid == b.s.sid && m.s.retries == b.s.retries - 1
      && Queues(b, m, RxAccept(b.s.sid), snr)
      && Armed(m, Retry, now + cfg.callIntervalMs) && m.ring == b.ring && m.delivered == b.delivered
  {
  }

  /** What a connection starts from: counters at zero, the slowest payload mode both ways. */
  predicate NewSession(s: Session, role: Role, now: nat) {
    && s.role == role && s.txSeq == 0 && s.rxExpected == 0 && s.win == Window([], false, 0)
    && s.payloadMode == DATAC15 && s.peerTxMode == DATAC15 && s.startupUntil == now + 10000
    && s.lastProgress == now && !s.teardown.disconnect && s.pendingTxMode == 0
    && s.link.upgradeCount == 0 && s.link.speedLevel == 0 && s.link.successes == 0
  }

  /** The caller that hears the ACCEPT of its session is connected. With data it sends that first,
      without it owes an ACK; either after the guard. */
  lemma AcceptConnects(cfg: Config, a: Node, now: nat)
    requires a.s.conn == Calling
    ensures var m := Dispatch(cfg, a, RxAccept(a.s.sid), now);
      && m.s.conn == Connected && m.s.sid == a.s.sid && NewSession(m.s, Caller, now)
      && m.queue == a.queue && m.ring == a.ring && m.chunks == a.chunks && m.delivered == a.delivered
      && m.s.deadline == At(now + 900) && m.s.deadlineEvent == AckTimer
      && if a.ring == [] then m.s.dflow.AckTx? && m.s.setup.confirm else m.s.dflow.DataTx? && !m.s.setup.confirm
  {
  }

  /** What it then transmits: the ACK, or one DATA frame with as many bytes as fit. */
  lemma CallerSpeaks(cfg: Config, a: Node, now: nat, start: nat, snr: Snr)
    requires a.s.conn == Connected && NewSession(a.s, Caller, start) && a.s.deadlineEvent == AckTimer
    requires a.s.deadline.At? && a.s.deadline.ms <= now < start + 10000
    requires if a.ring == [] then a.s.dflow.AckTx? && a.s.setup.confirm else a.s.dflow.DataTx?
    ensures var m := FireDeadline(cfg, a, now);
      && m.s.conn == Connected && m.s.sid == a.s.sid && m.s.role == Caller && m.s.payloadMode == DATAC15
      && |m.queue| == |a.queue| + 1 && m.queue[..|a.queue|] == a.queue
      && m.ring == a.ring[Min(|a.ring|, 22)..]
      && EventOf(m.queue[|a.queue|], snr) == if a.ring == [] then RxAck(a.s.sid, 0, false, snr)
           else RxData(a.s.sid, 0, a.ring[..Min(|a.ring|, 22)], false, true, DATAC15, snr)
  {
    var c := a.(s := a.s.(deadline := Never));
    if a.ring == [] {
      assert OnDflow(cfg, c, TimerFired(AckTimer), now) == OnAckTx(cfg, c, TimerFired(AckTimer), now);
    } else {
      assert OnDflow(cfg, c, TimerFired(AckTimer), now) == OnDataTx(cfg, c, TimerFired(AckTimer), now);
      OneFrameBurst(cfg, c, now);
    }
  }

  lemma OneFrameBurst(cfg: Config, n: Node, now: nat)
    requires n.s.win == Window([], false, 0) && n.s.payloadMode == DATAC15 && now < n.s.startupUntil && n.ring != []
    ensures var m, k := SendDataBurst(cfg, n, now), Min(|n.ring|, 22);
      && m.ring == n.ring[k..] && m.s == n.s.(txSeq := m.s.txSeq, win := m.s.win)
      && m.queue == n.queue + [DataFrame(n.s.sid, n.s.txSeq, n.s.rxExpected, n.ring[..k], 22, DATAC15, true)]
  {
    var m := AddSlot(n, 22);
    assert TopUp(m, 22, 1) == m;
    assert TopUp(n, 22, 1) == m;
  }

  /** The accepting station that hears that is connected under the same session id, and has
      delivered what the frame carries. */
  lemma AnswerConnects(cfg: Config, b: Node, ev: Event, now: nat)
    requires b.s.conn == Accepting && (ev.RxAck? || (ev.RxData? && ev.seqNo == 0))
    ensures var m := Dispatch(cfg, b, ev, now);
      && m.s.conn == Connected && m.s.sid == b.s.sid && m.s.role == Callee && m.s.txSeq == 0
      && m.s.rxExpected == (if ev.RxData? then 1 else 0) && m.s.payloadMode == DATAC15
      && m.delivered == b.delivered + (if ev.RxData? then [ev.payload] else [])
      && m.s.deadlineEvent == (if ev.RxData? then AckTimer else PeerBacklog)
      && m.s.link.olla == 0.0 && m.s.pendingTxMode == 0 && m.s.win == Window([], false, 0)
      && if ev.RxData? then m.s.dflow.DataRx? else m.s.dflow.IdleIrs?
  {
    var c := Noted(b, ev, now);
    assert Dispatch(cfg, b, ev, now) == OnAccepting(cfg, c, ev, now) == BecomeCallee(cfg, ForgetOlla(c), ev, now);
    if ev.RxData? {
      var o := ForgetOlla(c);
      var f := EnterIdleIrs(SessEnter(o.(s := FreshSession(cfg, o.s, Callee, now)), Connected, Never, Retry, now), now);
      assert OnDflow(cfg, f, ev, now) == ReceiveData(f, ev, now);
    }
  }

  /** So is a station that had stopped waiting for it, if the session is the one it accepted. */
  lemma LateAnswerConnects(cfg: Config, b: Node, ev: Event, now: nat)
    requires b.s.conn == Listening && (ev.RxAck? || (ev.RxData? && ev.seqNo == 0))
    ensures var m := Dispatch(cfg, b, ev, now);
      if ev.sid == b.s.sid then
        && m.s.conn == Connected && m.s.sid == b.s.sid && m.s.role == Callee && !m.s.teardown.disconnect
        && m.s.rxExpected == (if ev.RxData? then 1 else 0) && m.s.payloadMode == DATAC15
        && m.delivered == b.delivered + (if ev.RxData? then [ev.payload] else [])
      else m == b.(s := b.s.(lastRx := now))
  {
    var c := Noted(b, ev, now);
    assert Dispatch(cfg, b, ev, now) == OnListening(cfg, c, ev, now);
    if ev.sid == b.s.sid && ev.RxData? {
      var o := CancelDisconnect(c);
      var f := EnterIdleIrs(SessEnter(o.(s := FreshSession(cfg, o.s, Callee, now)), Connected, Never, Retry, now), now);
      assert OnDflow(cfg, f, ev, now) == ReceiveData(f, ev, now);
    }
  }

  /** The end of the transmission of a CALL or an ACCEPT; the callee then waits for the caller. */
  lemma SetUpFrameSent(cfg: Config, n: Node, now: nat)
    requires n.s.conn == Calling || n.s.conn == Accepting
    ensures var m := Sent(cfg, n, now);
      m == n.(queue := [], s := if n.s.conn.Accepting? then n.s.(deadline := At(now + 9000)) else n.s)
  {
  }

  /** The first half: CALL and ACCEPT. */
  lemma CallAndAccept(cfg: Config, a: Node, b: Node, snr: Snr, t: nat) returns (a1: Node, b1: Node, b2: Node)
    requires a.s.conn == Disconnected && b.s.conn == Listening && a.queue == [] && b.queue == []
    requires cfg.acceptRetries > 0
    ensures a1 == Dispatch(cfg, a, AppConnect, t) && |a1.queue| == 1
    ensures b1 == Dispatch(cfg, b, EventOf(a1.queue[0], snr), t + 1)
    ensures b2 == FireDeadline(cfg, b1, t + 701) && |b2.queue| == 1
    ensures a1.s.conn == Calling && a1.ring == a.ring && a1.delivered == a.delivered
    ensures b2.s.conn == Accepting && b2.s.sid == a1.s.sid && b2.delivered == b.delivered
    ensures EventOf(b2.queue[0], snr) == RxAccept(a1.s.sid)
  {
    CallGoesOut(cfg, a, t, snr);
    a1 := Dispatch(cfg, a, AppConnect, t);
    CallIsAnswered(cfg, b, a1.s.sid, t + 1, t + 701, snr);
    b1 := Dispatch(cfg, b, EventOf(a1.queue[0], snr), t + 1);
    b2 := FireDeadline(cfg, b1, t + 701);
  }

  /** The second half: the caller connects and speaks. */
  lemma AcceptAndSpeak(cfg: Config, a: Node, ev: Event, snr: Snr, t: nat) returns (a2: Node, a3: Node)
    requires a.s.conn == Calling && ev == RxAccept(a.s.sid)
    ensures a2 == Dispatch(cfg, Sent(cfg, a, t), ev, t + 1)
    ensures a3 == FireDeadline(cfg, a2, t + 901) && |a3.queue| == 1
    ensures a3.s.conn == Connected && a3.s.sid == a.s.sid && a3.s.role == Caller && a3.s.payloadMode == DATAC15
    ensures a3.ring == a.ring[Min(|a.ring|, 22)..]
    ensures EventOf(a3.queue[0], snr) == if a.ring == [] then RxAck(a.s.sid, 0, false, snr)
         else RxData(a.s.sid, 0, a.ring[..Min(|a.ring|, 22)], false, true, DATAC15, snr)
  {
    SetUpFrameSent(cfg, a, t);
    var c := Sent(cfg, a, t);
    AcceptConnects(cfg, c, t + 1);
    a2 := Dispatch(cfg, c, ev, t + 1);
    CallerSpeaks(cfg, a2, t + 901, t + 1, snr);
    a3 := FireDeadline(cfg, a2, t + 901);
  }

  /** A call between a station that connects and one that listens, with nothing lost: both are
      connected under one session id, in the same mode, and the caller's first bytes are
      delivered. */
  lemma CallSucceeds(cfg: Config, a: Node, b: Node, snr: Snr, t: nat)
    returns (a1: Node, b1: Node, b2: Node, a2: Node, a3: Node, b3: Node)
    requires a.s.conn == Disconnected && b.s.conn == Listening && a.queue == [] && b.queue == []
    requires cfg.acceptRetries > 0
    ensures a1 == Dispatch(cfg, a, AppConnect, t) && |a1.queue| == 1
    ensures b1 == Dispatch(cfg, b, EventOf(a1.queue[0], snr), t + 1)
    ensures b2 == FireDeadline(cfg, b1, t + 701) && |b2.queue| == 1
    ensures a2 == Dispatch(cfg, Sent(cfg, a1, t + 701), EventOf(b2.queue[0], snr), t + 702)
    ensures a3 == FireDeadline(cfg, a2, t + 1602) && |a3.queue| == 1
    ensures b3 == Dispatch(cfg, Sent(cfg, b2, t + 702), EventOf(a3.queue[0], snr), t + 1603)
    ensures Linked(a3, b3) && a3.s.role == Caller && b3.s.role == Callee && a3.s.sid == a1.s.sid
    ensures a3.s.payloadMode == b3.s.payloadMode == DATAC15 && a3.ring == a.ring[Min(|a.ring|, 22)..]
    ensures b3.delivered == b.delivered + if a.ring == [] then [] else [a.ring[..Min(|a.ring|, 22)]]
  {
    a1, b1, b2 := CallAndAccept(cfg, a, b, snr, t);
    var accept := EventOf(b2.queue[0], snr);
    a2, a3 := AcceptAndSpeak(cfg, a1, accept, snr, t + 701);
    var first := EventOf(a3.queue[0], snr);
    b3 := CalleeHears(cfg, b2, first, t + 702);
  }

  lemma CalleeHears(cfg: Config, b: Node, ev: Event, t: nat) returns (b3: Node)
    requires b.s.conn == Accepting && (ev.RxAck? || (ev.RxData? && ev.seqNo == 0))
    ensures b3 == Dispatch(cfg, Sent(cfg, b, t), ev, t + 901)
    ensures b3.s.conn == Connected && b3.s.sid == b.s.sid && b3.s.role == Callee && b3.s.payloadMode == DATAC15
    ensures b3.delivered == b.delivered + if ev.RxData? then [ev.payload] else []
  {
    SetUpFrameSent(cfg, b, t);
    AnswerConnects(cfg, Sent(cfg, b, t), ev, t + 901);
    b3 := Dispatch(cfg, Sent(cfg, b, t), ev, t + 901);
  }

  // ------------------------------------------------------------------ within a connection

  /** The window, the ring and what was delivered are untouched, and so are the numbers. */
  predicate DataUntouched(n: Node, m: Node) {
    && m.s.win == n.s.win && m.s.txSeq == n.s.txSeq && m.s.rxExpected == n.s.rxExpected
    && m.ring == n.ring && m.chunks == n.chunks && m.delivered == n.delivered
    && m.s.conn == n.s.conn && m.s.sid == n.s.sid
  }

  /** A deadline that has come, with nothing else due. */
  predicate Due(n: Node, dflow: Dflow, timer: Timer, now: nat) {
    && n.s.conn == Connected && n.s.dflow == dflow && n.s.deadlineEvent == timer
    && n.s.deadline.At? && n.s.deadline.ms <= now && !DrainExpired(n.s, now)
  }

  /** Connected in this state, hearing a frame of the session, with no teardown due. */
  predicate Hears(n: Node, dflow: Dflow, sid: Byte, now: nat) {
    n.s.conn == Connected && n.s.dflow == dflow && sid == n.s.sid && !DrainExpired(n.s, now)
  }

  function Cleared(n: Node): Node { n.(s := n.s.(deadline := Never)) }

  /** In the sender's role: with bytes to send, behind the guard or in a negotiation that names
      the mode wanted; without any, idle, or ending the call if that was put off. */
  predicate InRole(cfg: Config, n: Node, m: Node, now: nat) {
    && m.s.conn == (if n.ring == [] && n.s.teardown.disconnect then Disconnecting else Connected)
    && if n.ring != [] then
         if m.s.dflow.ModeReqTx? then
           && Queues(n, m, RxModeReq(n.s.sid, m.s.pendingTxMode), None) && m.s.retries == 2
           && now >= n.s.startupUntil && m.s.win.slots == []
         else m.s.dflow.DataTx? && Armed(m, AckTimer, now + 900) && m.s.retries == cfg.dataRetries && m.queue == n.queue
       else if n.s.teardown.disconnect then
         Armed(m, AckTimer, now + 700) && m.s.retries == cfg.disconnectRetries && m.queue == n.queue
       else m.s.dflow.IdleIss? && m.s.deadline == Never && m.s.retries == cfg.dataRetries && m.queue == n.queue
  }

  /** Nothing else that concerns the data has changed; only a confirmed MODE_ACK changes the mode. */
  predicate TakesRole(cfg: Config, n: Node, m: Node, now: nat) {
    && InRole(cfg, n, m, now) && m.s.win == n.s.win && m.s.txSeq == n.s.txSeq && m.s.rxExpected == n.s.rxExpected
    && m.ring == n.ring && m.chunks == n.chunks && m.delivered == n.delivered && m.s.sid == n.s.sid
    && m.s.payloadMode == n.s.payloadMode && m.s.peerTxMode == n.s.peerTxMode
  }

  lemma RoleIsTaken(cfg: Config, n: Node, now: nat)
    requires n.s.conn == Connected
    ensures TakesRole(cfg, n, EnterIdleIssGuarded(cfg, n, now), now)
  {
  }

  /** An ACCEPT heard again means that the callee has not heard the confirming ACK: an idle caller
      owes it another one. */
  lemma AcceptIsRepeated(cfg: Config, a: Node, now: nat)
    requires Hears(a, IdleIss, a.s.sid, now)
    ensures var m := Dispatch(cfg, a, RxAccept(a.s.sid), now);
      && DataUntouched(a, m) && m.queue == a.queue
      && if a.s.role == Caller && !a.s.setup.confirm then
           m.s.dflow.AckTx? && m.s.setup.confirm && Armed(m, AckTimer, now + 900)
         else m == a.(s := a.s.(lastRx := now))
  {
    var c := Noted(a, RxAccept(a.s.sid), now);
    assert OnDflow(cfg, c, RxAccept(a.s.sid), now) == c;
  }

  lemma ConfirmationGoesOut(cfg: Config, a: Node, now: nat, snr: Snr)
    requires Due(a, AckTx, AckTimer, now) && a.s.setup.confirm
    ensures var m := FireDeadline(cfg, a, now);
      && Queues(a, m, RxAck(a.s.sid, a.s.rxExpected, a.ring != [], snr), snr) && DataUntouched(a, m)
      && m.s.dflow.AckTx? && m.s.setup.confirm
  {
    var ev := TimerFired(AckTimer);
    assert OnDflow(cfg, Cleared(a), ev, now) == OnAckTx(cfg, Cleared(a), ev, now);
  }

  // The turn. A receiver with data asks for it, the sender gives it, the receiver takes it.

  lemma TurnIsAskedFor(cfg: Config, a: Node, now: nat, snr: Snr)
    requires a.s.conn == Connected && a.s.dflow.IdleIrs? && !DrainExpired(a.s, now)
    ensures var m := Dispatch(cfg, a, AppDataReady, now);
      && Queues(a, m, RxTurnReq(a.s.sid), snr) && DataUntouched(a, m)
      && m.s.dflow.TurnReqTx? && m.s.retries == 2 && Armed(m, Retry, now + 8000)
      && m.queue[|a.queue|] == TurnReqFrame(a.s.sid, a.s.rxExpected)
  {
    assert Dispatch(cfg, a, AppDataReady, now) == OnIdleIrs(a, AppDataReady, now);
  }

  /** At the end of its hold a receiver probes a peer not heard for 75 s. */
  lemma HoldProbes(cfg: Config, a: Node, now: nat, snr: Snr)
    requires Due(a, IdleIrs, PeerBacklog, now) && a.s.lastRx > 0 && now - a.s.lastRx >= 75000
    ensures var m := FireDeadline(cfg, a, now);
      && Queues(a, m, RxKeepalive(a.s.sid), snr) && DataUntouched(a, m) && m.s.dflow.KeepaliveTx?
      && Armed(m, Retry, now + 8000) && m.s.probe.misses == 0 && m.s.probe.fromIrs
  {
    var ev := TimerFired(PeerBacklog);
    assert OnDflow(cfg, Cleared(a), ev, now) == OnIdleIrs(Cleared(a), ev, now);
  }

  /** Otherwise it asks for the turn if it has something to send, else it holds on. */
  lemma HoldEnds(cfg: Config, a: Node, now: nat, snr: Snr)
    requires Due(a, IdleIrs, PeerBacklog, now) && !(a.s.lastRx > 0 && now - a.s.lastRx >= 75000)
    ensures var m := FireDeadline(cfg, a, now);
      && DataUntouched(a, m)
      && if a.ring != [] then
           Queues(a, m, RxTurnReq(a.s.sid), snr) && m.s.dflow.TurnReqTx? && Armed(m, Retry, now + 8000)
         else m.queue == a.queue && m.s.dflow.IdleIrs? && Armed(m, PeerBacklog, now + 15000)
  {
    var ev := TimerFired(PeerBacklog);
    assert OnDflow(cfg, Cleared(a), ev, now) == OnIdleIrs(Cleared(a), ev, now);
  }

  lemma TurnRequestWaits(cfg: Config, a: Node, now: nat)
    requires a.s.conn == Connected && a.s.dflow.TurnReqTx? && !DrainExpired(a.s, now)
    ensures var m := Dispatch(cfg, a, TxComplete, now);
      m.queue == a.queue && DataUntouched(a, m) && m.s.dflow.TurnReqWait? && Armed(m, Retry, now + 8000)
      && m.s.retries == a.s.retries
  {
    assert Dispatch(cfg, a, TxComplete, now) == OnTurnReqTx(a, TxComplete, now);
  }

  lemma TurnIsGiven(cfg: Config, b: Node, sid: Byte, now: nat)
    requires Hears(b, b.s.dflow, sid, now) && (b.s.dflow.IdleIss? || b.s.dflow.IdleIrs? || b.s.dflow.WaitAck?)
    ensures var m := Dispatch(cfg, b, RxTurnReq(sid), now);
      m.queue == b.queue && DataUntouched(b, m) && m.s.dflow.TurnAckTx? && Armed(m, AckTimer, now + 700)
  {
    var c := Noted(b, RxTurnReq(sid), now);
    match b.s.dflow
    case IdleIss => assert OnDflow(cfg, c, RxTurnReq(sid), now) == OnIdleIss(cfg, c, RxTurnReq(sid), now);
    case IdleIrs => assert OnDflow(cfg, c, RxTurnReq(sid), now) == OnIdleIrs(c, RxTurnReq(sid), now);
    case WaitAck => assert OnDflow(cfg, c, RxTurnReq(sid), now) == OnWaitAck(cfg, c, RxTurnReq(sid), now);
  }

  lemma TurnAckGoesOut(cfg: Config, b: Node, now: nat, snr: Snr)
    requires Due(b, TurnAckTx, AckTimer, now)
    ensures var m := FireDeadline(cfg, b, now);
      && Queues(b, m, RxTurnAck(b.s.sid), snr) && DataUntouched(b, m) && m.s.dflow.TurnAckTx?
  {
    var ev := TimerFired(AckTimer);
    assert OnDflow(cfg, Cleared(b), ev, now) == OnTurnAckTx(Cleared(b), ev, now);
  }

  lemma TurnAckIsOut(cfg: Config, b: Node, now: nat)
    requires b.s.conn == Connected && b.s.dflow.TurnAckTx? && !DrainExpired(b.s, now)
    ensures var m := Dispatch(cfg, b, TxComplete, now);
      m.queue == b.queue && DataUntouched(b, m) && m.s.dflow.IdleIrs? && Armed(m, PeerBacklog, now + 15000)
  {
    assert OnDflow(cfg, b, TxComplete, now) == OnTurnAckTx(b, TxComplete, now);
  }
  lemma TurnIsTaken(cfg: Config, a: Node, now: nat)
    requires Hears(a, TurnReqWait, a.s.sid, now)
    ensures TakesRole(cfg, a, Dispatch(cfg, a, RxTurnAck(a.s.sid), now), now)
  {
    var c := Noted(a, RxTurnAck(a.s.sid), now);
    assert OnDflow(cfg, c, RxTurnAck(a.s.sid), now) == OnTurnReqWait(cfg, c, RxTurnAck(a.s.sid), now);
    RoleIsTaken(cfg, c, now);
  }

  /** Asked three times in vain, a receiver goes back to waiting. */
  lemma TurnRequestRepeats(cfg: Config, a: Node, now: nat, snr: Snr)
    requires Due(a, TurnReqWait, Retry, now)
    ensures var m := FireDeadline(cfg, a, now);
      && DataUntouched(a, m)
      && if a.s.retries > 0 then
           Queues(a, m, RxTurnReq(a.s.sid), snr) && m.s.dflow.TurnReqTx? && m.s.retries == a.s.retries - 1
         else m.queue == a.queue && m.s.dflow.IdleIrs? && Armed(m, PeerBacklog, now + 15000)
  {
    var ev := TimerFired(Retry);
    assert OnDflow(cfg, Cleared(a), ev, now) == OnTurnReqWait(cfg, Cleared(a), ev, now);
  }

  // The mode. The sender names one, the receiver confirms the same, and both then use it.

  /** The mode of the peer's frames; one that is no payload mode changes nothing. */
  lemma ModeIsAccepted(cfg: Config, b: Node, mode: int, sid: Byte, now: nat)
    requires Hears(b, IdleIrs, sid, now)
    ensures var m := Dispatch(cfg, b, RxModeReq(sid, mode), now);
      && m.queue == b.queue && DataUntouched(b, m) && m.s.payloadMode == b.s.payloadMode
      && if PayloadMode(mode) then m.s.peerTxMode == mode && m.s.dflow.ModeAckTx? && Armed(m, AckTimer, now + 700)
         else m == b
  {
    assert Dispatch(cfg, b, RxModeReq(sid, mode), now) == OnIdleIrs(b, RxModeReq(sid, mode), now);
  }

  /** A request that comes while an ACK is awaited also stands for that ACK. */
  lemma ModeRequestConfirms(cfg: Config, b: Node, mode: int, sid: Byte, now: nat)
    requires Hears(b, WaitAck, sid, now)
    ensures var m := Dispatch(cfg, b, RxModeReq(sid, mode), now);
      if PayloadMode(mode) then
        && m.s.win == Window([], false, 0) && m.s.retries == cfg.dataRetries && m.s.peerTxMode == mode
        && m.s.payloadMode == b.s.payloadMode && m.s.dflow.ModeAckTx? && Armed(m, AckTimer, now + 700)
        && m.queue == b.queue && m.ring == b.ring && m.delivered == b.delivered
        && m.s.link == cfg.policy.record(b.s.link, b.s.payloadMode, !b.s.win.retx && b.s.retries == cfg.dataRetries)
      else m == b
  {
    assert Dispatch(cfg, b, RxModeReq(sid, mode), now) == OnWaitAck(cfg, b, RxModeReq(sid, mode), now);
  }

  lemma ModeAckGoesOut(cfg: Config, b: Node, now: nat, snr: Snr)
    requires Due(b, ModeAckTx, AckTimer, now)
    ensures var m := FireDeadline(cfg, b, now);
      && Queues(b, m, RxModeAck(b.s.sid, b.s.peerTxMode), snr) && DataUntouched(b, m)
      && m.s.dflow.ModeAckTx? && m.s.peerTxMode == b.s.peerTxMode
  {
    assert OnDflow(cfg, Cleared(b), TimerFired(AckTimer), now) == OnModeAckTx(Cleared(b), TimerFired(AckTimer), now);
  }

  lemma ModeAckIsOut(cfg: Config, b: Node, now: nat)
    requires b.s.conn == Connected && b.s.dflow.ModeAckTx? && !DrainExpired(b.s, now)
    ensures var m := Dispatch(cfg, b, TxComplete, now);
      && m.queue == b.queue && DataUntouched(b, m) && m.s.peerTxMode == b.s.peerTxMode
      && m.s.dflow.IdleIrs? && Armed(m, PeerBacklog, now + 15000)
  {
    assert OnDflow(cfg, b, TxComplete, now) == OnModeAckTx(b, TxComplete, now);
  }

  /** The sender that hears the mode confirmed uses it from then on. */
  lemma ModeIsConfirmed(cfg: Config, a: Node, mode: int, now: nat)
    requires Hears(a, ModeReqWait, a.s.sid, now)
    ensures var m := Dispatch(cfg, a, RxModeAck(a.s.sid, mode), now);
      && m.s.payloadMode == (if PayloadMode(mode) then mode else a.s.payloadMode) && m.s.peerTxMode == a.s.peerTxMode
      && TakesRole(cfg, a.(s := a.s.(payloadMode := m.s.payloadMode)), m, now)
  {
    var ev := RxModeAck(a.s.sid, mode);
    assert OnDflow(cfg, a, ev, now) == OnModeReqWait(cfg, a, ev, now);
    var c := a.(s := if !PayloadMode(mode) then a.s
      else a.s.(link := ConfirmMode(a.s.link, a.s.payloadMode, mode, now), payloadMode := mode));
    RoleIsTaken(cfg, c, now);
  }

  /** A slower mode that is confirmed while the hold after a lost link runs, or has run, starts the
      hold anew. */
  lemma HoldIsRenewed(cfg: Config, a: Node, mode: int, now: nat)
    requires Hears(a, ModeReqWait, a.s.sid, now) && PayloadMode(mode) && a.ring == []
    ensures Dispatch(cfg, a, RxModeAck(a.s.sid, mode), now).s.link == a.s.link.(holdUntil :=
      if ModeRank(mode) < ModeRank(a.s.payloadMode) && a.s.link.holdUntil != 0 then now + 6000 else a.s.link.holdUntil)
  {
    var ev := RxModeAck(a.s.sid, mode);
    assert OnDflow(cfg, a, ev, now) == OnModeReqWait(cfg, a, ev, now);
  }

  /** An unanswered request is repeated. */
  lemma ModeRequestRepeats(cfg: Config, a: Node, now: nat, snr: Snr)
    requires Due(a, ModeReqWait, Retry, now) && a.s.retries > 0
    ensures var m := FireDeadline(cfg, a, now);
      && DataUntouched(a, m) && m.s.payloadMode == a.s.payloadMode && m.s.pendingTxMode == a.s.pendingTxMode
      && Queues(a, m, RxModeReq(a.s.sid, a.s.pendingTxMode), snr)
      && m.s.dflow.ModeReqTx? && m.s.retries == a.s.retries - 1
  {
    var ev := TimerFired(Retry);
    assert OnDflow(cfg, Cleared(a), ev, now) == OnModeReqWait(cfg, Cleared(a), ev, now);
  }

  /** In the end the old mode is named, once. */
  lemma ModeRequestReverts(cfg: Config, a: Node, now: nat, snr: Snr)
    requires Due(a, ModeReqWait, Retry, now) && a.s.retries == 0
    ensures var m := FireDeadline(cfg, a, now);
      && DataUntouched(a, m) && m.s.payloadMode == a.s.payloadMode && m.s.pendingTxMode == 0
      && Queues(a, m, RxModeReq(a.s.sid, a.s.payloadMode), snr) && m.s.dflow.ModeReqTx?
  {
    var ev := TimerFired(Retry);
    assert OnDflow(cfg, Cleared(a), ev, now) == OnModeReqWait(cfg, Cleared(a), ev, now);
  }

  /** With the request out the answer is awaited, except after the last: sending then goes on in
      the old mode. */
  lemma ModeRequestWaits(cfg: Config, a: Node, now: nat)
    requires a.s.conn == Connected && a.s.dflow.ModeReqTx? && !DrainExpired(a.s, now) && a.ring != []
    ensures var m := Dispatch(cfg, a, TxComplete, now);
      && DataUntouched(a, m) && m.queue == a.queue && m.s.payloadMode == a.s.payloadMode
      && if a.s.pendingTxMode != 0 then
           m.s.dflow.ModeReqWait? && Armed(m, Retry, now + 8000) && m.s.retries == a.s.retries
         else m.s.dflow.DataTx? && Armed(m, AckTimer, now + 7000) && m.s.retries == cfg.dataRetries
  {
    assert OnDflow(cfg, a, TxComplete, now) == OnModeReqTx(cfg, a, TxComplete, now);
  }

  // Probes. An idle station answers with a KEEPALIVE_ACK after the guard, a busy one at once.

  lemma ProbeIsAnswered(cfg: Config, b: Node, sid: Byte, now: nat, snr: Snr)
    requires Hears(b, b.s.dflow, sid, now) && !KeepaliveBusy(b.s.dflow)
    ensures var m := Dispatch(cfg, b, RxKeepalive(sid), now);
      && DataUntouched(b, m) && m.s.probe.misses == 0
      && if b.s.dflow.IdleIss? || b.s.dflow.IdleIrs? then
           && m.queue == b.queue && m.s.dflow.KeepaliveAckTx? && Armed(m, AckTimer, now + 700)
           && m.s.probe.ackFromIrs == b.s.dflow.IdleIrs?
         else Queues(b, m, RxKeepaliveAck(sid), snr) && m.s.dflow == b.s.dflow && m.s.deadline == b.s.deadline
  {
  }

  lemma ProbeAnswerGoesOut(cfg: Config, b: Node, now: nat, snr: Snr)
    requires Due(b, KeepaliveAckTx, AckTimer, now)
    ensures var m := FireDeadline(cfg, b, now);
      && Queues(b, m, RxKeepaliveAck(b.s.sid), snr) && DataUntouched(b, m)
      && m.s.dflow.KeepaliveAckTx? && m.s.probe == b.s.probe
  {
    var ev := TimerFired(AckTimer);
    assert OnDflow(cfg, Cleared(b), ev, now) == OnKeepaliveAckTx(cfg, Cleared(b), ev, now);
  }

  /** With the answer out the station is what it was: receiver, or sender. */
  lemma ProbeAnswerIsOut(cfg: Config, b: Node, now: nat)
    requires b.s.conn == Connected && b.s.dflow.KeepaliveAckTx? && !DrainExpired(b.s, now)
    ensures var m := Dispatch(cfg, b, TxComplete, now);
      if b.s.probe.ackFromIrs then
        m.queue == b.queue && DataUntouched(b, m) && m.s.dflow.IdleIrs? && Armed(m, PeerBacklog, now + 15000)
      else TakesRole(cfg, b, m, now)
  {
    assert OnDflow(cfg, b, TxComplete, now) == OnKeepaliveAckTx(cfg, b, TxComplete, now);
    RoleIsTaken(cfg, b, now);
  }

  lemma ProbeWaits(cfg: Config, a: Node, now: nat)
    requires a.s.conn == Connected && a.s.dflow.KeepaliveTx? && !DrainExpired(a.s, now)
    ensures var m := Dispatch(cfg, a, TxComplete, now);
      && m.queue == a.queue && DataUntouched(a, m) && m.s.dflow.KeepaliveWait? && Armed(m, Retry, now + 8000)
      && m.s.probe == a.s.probe
  {
    assert OnDflow(cfg, a, TxComplete, now) == OnKeepaliveTx(a, TxComplete, now);
  }

  /** An answer clears the misses. */
  lemma ProbeSucceeds(cfg: Config, a: Node, now: nat)
    requires Hears(a, KeepaliveWait, a.s.sid, now)
    ensures var m := Dispatch(cfg, a, RxKeepaliveAck(a.s.sid), now);
      && m.s.probe.misses == 0
      && if a.s.probe.fromIrs then
           m.queue == a.queue && DataUntouched(a, m) && m.s.dflow.IdleIrs? && Armed(m, PeerBacklog, now + 15000)
         else TakesRole(cfg, a, m, now)
  {
    var ev := RxKeepaliveAck(a.s.sid);
    var c := Noted(a, ev, now);
    assert OnDflow(cfg, c, ev, now) == OnKeepaliveWait(cfg, c, ev, now);
    RoleIsTaken(cfg, c.(s := c.s.(probe := c.s.probe.(misses := 0))), now);
  }

  /** So does the probe of the other station, which is answered. */
  lemma ProbesCross(cfg: Config, a: Node, now: nat, snr: Snr)
    requires Hears(a, KeepaliveWait, a.s.sid, now) && a.s.probe.fromIrs
    ensures var m := Dispatch(cfg, a, RxKeepalive(a.s.sid), now);
      && Queues(a, m, RxKeepaliveAck(a.s.sid), snr) && DataUntouched(a, m) && m.s.probe.misses == 0
      && m.s.dflow.IdleIrs? && Armed(m, PeerBacklog, now + 15000)
  {
    var ev := RxKeepalive(a.s.sid);
    var c := Noted(a, ev, now);
    assert OnDflow(cfg, c, ev, now) == OnKeepaliveWait(cfg, c, ev, now);
  }

  /** Each probe missed is counted; the first four are followed by another probe. */
  lemma ProbeIsMissed(cfg: Config, a: Node, now: nat, snr: Snr)
    requires Due(a, KeepaliveWait, Retry, now) && a.s.probe.misses < 4
    ensures var m := FireDeadline(cfg, a, now);
      && m.s.probe.misses == a.s.probe.misses + 1 && DataUntouched(a, m)
      && Queues(a, m, RxKeepalive(a.s.sid), snr) && m.s.dflow.KeepaliveTx? && Armed(m, Retry, now + 8000)
  {
    var ev := TimerFired(Retry);
    assert OnDflow(cfg, Cleared(a), ev, now) == OnKeepaliveWait(cfg, Cleared(a), ev, now);
  }

  /** The fifth ends the call with a DISCONNECT. */
  lemma FifthProbeIsMissed(cfg: Config, a: Node, now: nat, snr: Snr)
    requires Due(a, KeepaliveWait, Retry, now) && a.s.probe.misses >= 4
    ensures var m := FireDeadline(cfg, a, now);
      && Queues(a, m, RxDisconnect(a.s.sid), snr) && m.s.conn == Disconnecting && m.ring == a.ring
      && m.s.retries == cfg.disconnectRetries && Armed(m, Retry, now + 8000)
  {
    var ev := TimerFired(Retry);
    assert OnDflow(cfg, Cleared(a), ev, now) == OnKeepaliveWait(cfg, Cleared(a), ev, now);
  }

  // ------------------------------------------------------------------ ending a call

  /** A station with nothing to send that is told to disconnect waits for the guard to pass. */
  lemma HangUpBegins(cfg: Config, a: Node, now: nat)
    requires a.s.conn == Connected && a.ring == [] && !a.s.dflow.DataTx? && !a.s.dflow.WaitAck?
    requires !DrainExpired(a.s, now)
    ensures var m := Dispatch(cfg, a, AppDisconnect, now);
      && m.s.conn == Disconnecting && m.s.sid == a.s.sid && m.queue == a.queue && Armed(m, AckTimer, now + 700)
      && m.s.retries == cfg.disconnectRetries
  {
  }

  /** DISCONNECT goes out after the guard and again on every unanswered one, until the retries are
      used up. */
  lemma HangUpGoesOut(cfg: Config, a: Node, now: nat, snr: Snr)
    requires a.s.conn == Disconnecting && a.s.deadline.At? && a.s.deadline.ms <= now
    requires a.s.deadlineEvent == AckTimer || (a.s.deadlineEvent == Retry && a.s.retries > 0)
    ensures var m := FireDeadline(cfg, a, now);
      && Queues(a, m, RxDisconnect(a.s.sid), snr) && m.s.conn == Disconnecting && Armed(m, Retry, now + 8000)
      && m.s.sid == a.s.sid && m.ring == a.ring
      && m.s.retries == if a.s.deadlineEvent.Retry? then a.s.retries - 1 else a.s.retries
  {
  }

  /** The peer answers with its own DISCONNECT, and when that is out it is listening again if its
      application wants that. */
  lemma HangUpIsAnswered(cfg: Config, b: Node, sid: Byte, now: nat, snr: Snr)
    requires b.s.conn == Connected && sid == b.s.sid && !DrainExpired(b.s, now)
    ensures var m := Dispatch(cfg, b, RxDisconnect(sid), now);
      && Queues(b, m, RxDisconnect(sid), snr) && m.s.conn == Disconnected && m.delivered == b.delivered
      && m.s.teardown == b.s.teardown.(disconnect := false, notify := true) && m.s.initialMode == b.s.initialMode
  {
  }

  lemma HangUpAnswerIsOut(cfg: Config, b: Node, now: nat)
    requires b.s.conn == Disconnected && b.s.teardown.notify
    ensures var m := Dispatch(cfg, b, TxComplete, now);
      CallIsOver(b, m) && m.queue == b.queue && !m.s.teardown.notify
  {
  }

  /** The station that began hears it and is done too. */
  lemma HangUpIsHeard(cfg: Config, a: Node, now: nat)
    requires a.s.conn == Disconnecting
    ensures var m := Dispatch(cfg, a, RxDisconnect(a.s.sid), now);
      CallIsOver(a, m) && m.queue == a.queue
  {
  }

  /** An ACCEPT that comes when its caller has given up is answered with a DISCONNECT, and that
      takes the callee out of the connection it may have thought it had. */
  lemma StaleAcceptIsRefused(cfg: Config, a: Node, now: nat, snr: Snr)
    requires a.s.conn == Listening
    ensures var m := Dispatch(cfg, a, RxAccept(a.s.sid), now);
      Queues(a, m, RxDisconnect(a.s.sid), snr) && m.s.conn == Listening && m.s.sid == a.s.sid
  {
  }

  /** Whether the application wants calls is remembered in every state, and outside a call acted
      on at once. */
  lemma ListeningIsRemembered(cfg: Config, n: Node, on: bool, now: nat)
    requires n.s.conn != Connected
    ensures var m := Dispatch(cfg, n, if on then AppListen else AppStopListen, now);
      && m.s.teardown.listen == on && m.queue == n.queue && m.ring == n.ring
      && m.s.conn == if on && n.s.conn.Disconnected? then Listening
                     else if !on && n.s.conn.Listening? then Disconnected else n.s.conn
  {
  }
}
