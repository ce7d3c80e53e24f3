/** One connected station as its peer sees it: when it claims the turn, what its frames mean,
    and what each of its own steps and each frame it hears can change. */
module StationSteps {
  import opened ArqTypes
  import opened Fsm

  // ------------------------------------------------------------------ who holds the turn

  /** The station acts as sender. */
  predicate Iss(s: Session) {
    s.dflow.IdleIss? || s.dflow.DataTx? || s.dflow.WaitAck? || s.dflow.ModeReqTx? || s.dflow.ModeReqWait? ||
    (s.dflow.KeepaliveAckTx? && !s.probe.ackFromIrs) || s.setup.confirm
  }

  /** The station is, or is about to become, sender without asking again. */
  predicate Claiming(s: Session) {
    Iss(s) || (s.dflow.DataRx? && !s.turn.peerHasData) || (s.dflow.AckTx? && !s.turn.peerHasData && s.turn.ackHadData)
  }

  predicate Sending(s: Session) { (s.dflow.DataTx? || s.dflow.WaitAck?) && s.win.slots != [] }

  /** What holds of a frame of station `s` that the peer has yet to hear. */
  predicate FrameOk(s: Session, f: Frame) {
    match f
    case DataFrame(_, seqNo, _, payload, _, _, _) =>
      Sending(s) && seqNo == s.win.slots[0].seqNo && payload == s.win.slots[0].payload
    case AckFrame(_, ack, hasData) => ack == s.rxExpected && (hasData || !Claiming(s))
    case TurnAckFrame(_) => !Claiming(s)
    case ModeReqFrame(_, _) => Iss(s)
    case CallFrame(_, _) => false
    case _ => true
  }

  predicate FramesOk(s: Session, fs: seq<Frame>) {
    forall i :: 0 <= i < |fs| ==> FrameOk(s, fs[i])
  }

  predicate WindowHolds(slot: Slot, chunks: seq<seq<bv8>>)
    requires chunks != []
  {
    slot.payload == chunks[|chunks| - 1] && slot.seqNo == (|chunks| - 1) % 256
  }

  /** Invariant of one connected station. */
  predicate StationOk(n: Node) {
    && n.s.conn == Connected && n.s.deadlineEvent != Keepalive
    && (n.s.setup.confirm ==> n.s.dflow.AckTx? && n.s.deadline == Never)
    && (n.s.dflow.KeepaliveTx? || n.s.dflow.KeepaliveWait? ==> n.s.probe.fromIrs)
    && |n.s.win.slots| <= 1 && n.s.txSeq == |n.chunks| % 256
    && (n.s.win.slots != [] ==> n.chunks != [] && WindowHolds(n.s.win.slots[0], n.chunks))
    && n.s.rxExpected == |n.delivered| % 256
    && (n.s.dflow.ModeReqTx? || n.s.dflow.ModeReqWait? ==> n.s.win.slots == [])
    && FramesOk(n.s, n.queue)
  }

  /** Events a station meets on its own; a confirming ACK leaves no deadline to fire. */
  predicate Internal(s: Session, ev: Event) {
    ev != TimerFired(Keepalive) && (s.setup.confirm ==> !ev.TimerFired?) && FromWithin(ev)
  }

  predicate FromWithin(ev: Event) {
    ev.AppListen? || ev.AppStopListen? || ev.AppConnect? || ev.AppDisconnect? || ev.AppDataReady? ||
    ev.TxStarted? || ev.TxComplete? || ev.TimerFired?
  }

  /** What a station may do to itself without hearing the peer. */
  predicate Quiet(n: Node, m: Node) {
    && m.s.rxExpected == n.s.rxExpected && m.delivered == n.delivered
    && (m.s.setup.confirm ==> n.s.setup.confirm)
    && n.queue <= m.queue
    && ((m.s.win.slots == n.s.win.slots && m.chunks == n.chunks)
       || (n.s.win.slots == [] && |m.s.win.slots| == 1 && |m.chunks| == |n.chunks| + 1 && n.chunks <= m.chunks))
    && (Claiming(m.s) ==> Claiming(n.s))
    && (Iss(n.s) ==> Iss(m.s))
    && (Sending(n.s) ==> Sending(m.s))
    && (forall i :: |n.queue| <= i < |m.queue| && m.queue[i].ModeReqFrame? ==> m.s.win.slots == [])
  }

  lemma BurstOfOne(cfg: Config, n: Node, now: nat)
    requires cfg.burstFrames == 1 && |n.s.win.slots| <= 1
    ensures var u := UserBytes(n.s.payloadMode);
      SendDataBurst(cfg, n, now) ==
        if u <= 0 || (n.s.win.slots == [] && n.ring == []) then n
        else
          var m := if n.s.win.slots == [] then AddSlot(n, u) else n;
          Send(m, BuiltFrame(m.s, m.s.win.slots[0], true))
  {
    var u := UserBytes(n.s.payloadMode);
    if u > 0 {
      var m := if n.s.win.slots == [] && n.ring != [] then AddSlot(n, u) else n;
      assert TopUp(n, u, 1) == m;
      if m.s.win.slots == [] {
        assert BurstFrames(m.s) == [];
      } else {
        assert BurstFrames(m.s) == [BuiltFrame(m.s, m.s.win.slots[0], true)];
      }
    }
  }

  /** Sending a burst from a sending state keeps everything in order. */
  lemma BurstIsQuiet(cfg: Config, n: Node, now: nat)
    requires cfg.burstFrames == 1 && StationOk(n) && (n.s.dflow.DataTx? || n.s.dflow.WaitAck?)
    ensures var m := SendDataBurst(cfg, n, now); StationOk(m) && Quiet(n, m) && m.s.dflow == n.s.dflow
  {
    BurstOfOne(cfg, n, now);
  }

  /** Taking up the sender's role, for a station that already claims it. */
  lemma GuardedIsQuiet(cfg: Config, n: Node, now: nat)
    requires StationOk(n) && Claiming(n.s) && !Sending(n.s) && !n.s.setup.confirm
    ensures var m := EnterIdleIssGuarded(cfg, n, now);
      m.s.conn == Connected ==> StationOk(m) && Quiet(n, m) && Iss(m.s)
  {
    var m := n.(s := n.s.(retries := cfg.dataRetries));
    var (u, started) := MaybeUpgrade(cfg, m, now);
    assert u.s.win.slots == n.s.win.slots && u.ring == n.ring;
  }

  /** Nothing a connected station does on its own breaks its invariant or claims the turn. */
  lemma InternalStep(cfg: Config, n: Node, ev: Event, now: nat)
    requires cfg.burstFrames == 1 && StationOk(n) && Internal(n.s, ev)
    ensures var m := Dispatch(cfg, n, ev, now); m.s.conn == Connected ==> StationOk(m) && Quiet(n, m)
  {
    var l := Noted(n, ev, now);
    NotedIsQuiet(n, ev, now);
    InternalConnected(cfg, l, ev, now);
    assert Dispatch(cfg, n, ev, now) == OnConnected(cfg, l, ev, now);
    QuietTwice(n, l, Dispatch(cfg, n, ev, now));
  }

  /** Noting the event changes nothing a later step looks at. */
  lemma QuietTwice(n: Node, l: Node, m: Node)
    requires Quiet(l, m) || m.s.conn != Connected
    requires l == n.(s := n.s.(lastRx := l.s.lastRx, teardown := l.s.teardown))
    ensures m.s.conn == Connected ==> Quiet(n, m)
  {
  }

  lemma InternalConnected(cfg: Config, n: Node, ev: Event, now: nat)
    requires cfg.burstFrames == 1 && StationOk(n) && Internal(n.s, ev)
    ensures var m := OnConnected(cfg, n, ev, now); m.s.conn == Connected ==> StationOk(m) && Quiet(n, m)
  {
    if !DrainExpired(n.s, now) && !ev.AppDisconnect? {
      assert OnConnected(cfg, n, ev, now) == OnDflow(cfg, n, ev, now);
      InternalDflow(cfg, n, ev, now);
    }
  }

  lemma NotedIsQuiet(n: Node, ev: Event, now: nat)
    requires StationOk(n)
    ensures StationOk(Noted(n, ev, now)) && Quiet(n, Noted(n, ev, now))
  {
  }

  lemma InternalDflow(cfg: Config, n: Node, ev: Event, now: nat)
    requires cfg.burstFrames == 1 && StationOk(n) && Internal(n.s, ev)
    ensures var m := OnDflow(cfg, n, ev, now); m.s.conn == Connected ==> StationOk(m) && Quiet(n, m)
  {
    match n.s.dflow
    case IdleIss => InternalIdleIss(cfg, n, ev, now);
    case DataTx => InternalDataTx(cfg, n, ev, now);
    case WaitAck => InternalWaitAck(cfg, n, ev, now);
    case AckTx => InternalAckTx(cfg, n, ev, now);
    case KeepaliveAckTx => InternalKeepaliveAckTx(cfg, n, ev, now);
    case ModeReqTx => InternalModeReq(cfg, n, ev, now);
    case ModeReqWait => InternalModeReq(cfg, n, ev, now);
    case _ => InternalReceiver(cfg, n, ev, now);
  }

  /** The caller's confirming ACK has gone out: it starts as sender. */
  lemma ConfirmIsQuiet(cfg: Config, n: Node, now: nat)
    requires StationOk(n) && n.s.setup.confirm && Backlog(n) > 0
    ensures var m := EnterIdleIssGuarded(cfg, n.(s := n.s.(setup := n.s.setup.(confirm := false))), now);
      m.s.conn == Connected ==> StationOk(m) && Quiet(n, m)
  {
    var c := n.(s := n.s.(setup := n.s.setup.(confirm := false), retries := cfg.dataRetries));
    var (u, started) := MaybeUpgrade(cfg, c, now);
    assert u.s.win == n.s.win && u.ring == n.ring && u.s.setup == c.s.setup;
  }

  lemma NothingToConfirmIsQuiet(cfg: Config, n: Node, now: nat)
    requires StationOk(n) && n.s.setup.confirm && Backlog(n) == 0
    ensures var m := EnterIdleIss(cfg, n.(s := n.s.(setup := n.s.setup.(confirm := false))), now);
      m.s.conn == Connected ==> StationOk(m) && Quiet(n, m)
  {
  }

  lemma InternalAckTx(cfg: Config, n: Node, ev: Event, now: nat)
    requires StationOk(n) && Internal(n.s, ev) && n.s.dflow == AckTx
    ensures var m := OnAckTx(cfg, n, ev, now); m.s.conn == Connected ==> StationOk(m) && Quiet(n, m)
  {
    if ev.TxComplete? {
      AckSentIsQuiet(cfg, n, now);
    }
  }

  lemma AckSentIsQuiet(cfg: Config, n: Node, now: nat)
    requires StationOk(n) && n.s.dflow == AckTx
    ensures var m := OnAckTx(cfg, n, TxComplete, now); m.s.conn == Connected ==> StationOk(m) && Quiet(n, m)
  {
    if n.s.setup.confirm {
      ConfirmSentIsQuiet(cfg, n, now);
    } else if !n.s.turn.peerHasData && n.s.turn.ackHadData {
      GuardedIsQuiet(cfg, n, now);
    }
  }

  lemma ConfirmSentIsQuiet(cfg: Config, n: Node, now: nat)
    requires StationOk(n) && n.s.dflow == AckTx && n.s.setup.confirm
    ensures var m := OnAckTx(cfg, n, TxComplete, now); m.s.conn == Connected ==> StationOk(m) && Quiet(n, m)
  {
    if Backlog(n) > 0 {
      ConfirmIsQuiet(cfg, n, now);
    } else {
      NothingToConfirmIsQuiet(cfg, n, now);
    }
  }

  lemma InternalKeepaliveAckTx(cfg: Config, n: Node, ev: Event, now: nat)
    requires StationOk(n) && Internal(n.s, ev) && n.s.dflow == KeepaliveAckTx
    ensures var m := OnKeepaliveAckTx(cfg, n, ev, now); m.s.conn == Connected ==> StationOk(m) && Quiet(n, m)
  {
    if ev.TxComplete? && !n.s.probe.ackFromIrs {
      GuardedIsQuiet(cfg, n, now);
    }
  }

  lemma InternalModeReq(cfg: Config, n: Node, ev: Event, now: nat)
    requires cfg.burstFrames == 1 && StationOk(n) && Internal(n.s, ev)
    requires n.s.dflow.ModeReqTx? || n.s.dflow.ModeReqWait?
    ensures var m := OnDflow(cfg, n, ev, now); m.s.conn == Connected ==> StationOk(m) && Quiet(n, m)
  {
    if n.s.dflow.ModeReqTx? {
      assert OnDflow(cfg, n, ev, now) == OnModeReqTx(cfg, n, ev, now);
    } else {
      InternalModeReqWait(cfg, n, ev, now);
      assert OnDflow(cfg, n, ev, now) == OnModeReqWait(cfg, n, ev, now);
    }
  }

  lemma InternalModeReqWait(cfg: Config, n: Node, ev: Event, now: nat)
    requires StationOk(n) && Internal(n.s, ev) && n.s.dflow.ModeReqWait?
    ensures var m := OnModeReqWait(cfg, n, ev, now); m.s.conn == Connected ==> StationOk(m) && Quiet(n, m)
  {
  }

  /** The receiver's states: only frames that ask for or give up something are sent. */
  lemma InternalReceiver(cfg: Config, n: Node, ev: Event, now: nat)
    requires StationOk(n) && Internal(n.s, ev) && !Iss(n.s) && !n.s.dflow.AckTx? && !n.s.dflow.KeepaliveAckTx?
    ensures var m := OnDflow(cfg, n, ev, now); m.s.conn == Connected ==> StationOk(m) && Quiet(n, m)
  {
    match n.s.dflow
    case IdleIrs => InternalIdleIrs(n, ev, now);
    case TurnReqWait => InternalTurnReqWait(cfg, n, ev, now);
    case KeepaliveWait => InternalKeepaliveWait(cfg, n, ev, now);
    case DataRx => InternalDataRx(n, ev, now);
    case _ => InternalTransmitting(cfg, n, ev, now);
  }

  lemma InternalDataRx(n: Node, ev: Event, now: nat)
    requires StationOk(n) && Internal(n.s, ev) && n.s.dflow.DataRx?
    ensures StationOk(OnDataRx(n, ev, now)) && Quiet(n, OnDataRx(n, ev, now))
  {
  }

  /** Waiting for one's own TURN_REQ, TURN_ACK, MODE_ACK or KEEPALIVE to go out. */
  lemma InternalTransmitting(cfg: Config, n: Node, ev: Event, now: nat)
    requires StationOk(n) && Internal(n.s, ev)
    requires n.s.dflow.TurnReqTx? || n.s.dflow.TurnAckTx? || n.s.dflow.KeepaliveTx? || n.s.dflow.ModeAckTx?
    ensures var m := OnDflow(cfg, n, ev, now); StationOk(m) && Quiet(n, m)
  {
    if n.s.dflow.TurnReqTx? || n.s.dflow.TurnAckTx? {
      InternalTurn(cfg, n, ev, now);
    } else if n.s.dflow.KeepaliveTx? {
      assert OnDflow(cfg, n, ev, now) == OnKeepaliveTx(n, ev, now);
    } else {
      assert OnDflow(cfg, n, ev, now) == OnModeAckTx(n, ev, now);
    }
  }

  lemma InternalTurn(cfg: Config, n: Node, ev: Event, now: nat)
    requires StationOk(n) && Internal(n.s, ev) && (n.s.dflow.TurnReqTx? || n.s.dflow.TurnAckTx?)
    ensures var m := OnDflow(cfg, n, ev, now); StationOk(m) && Quiet(n, m)
  {
    if n.s.dflow.TurnReqTx? {
      assert OnDflow(cfg, n, ev, now) == OnTurnReqTx(n, ev, now);
    } else {
      assert OnDflow(cfg, n, ev, now) == OnTurnAckTx(n, ev, now);
    }
  }

  lemma InternalIdleIrs(n: Node, ev: Event, now: nat)
    requires StationOk(n) && Internal(n.s, ev) && n.s.dflow.IdleIrs?
    ensures StationOk(OnIdleIrs(n, ev, now)) && Quiet(n, OnIdleIrs(n, ev, now))
  {
    if ev == TimerFired(PeerBacklog) {
      HoldExpiresQuietly(n, now);
    }
  }

  lemma HoldExpiresQuietly(n: Node, now: nat)
    requires StationOk(n) && n.s.dflow.IdleIrs? && !n.s.setup.confirm
    ensures var m := OnIdleIrs(n, TimerFired(PeerBacklog), now); StationOk(m) && Quiet(n, m)
  {
  }

  lemma InternalTurnReqWait(cfg: Config, n: Node, ev: Event, now: nat)
    requires StationOk(n) && Internal(n.s, ev) && n.s.dflow.TurnReqWait?
    ensures StationOk(OnTurnReqWait(cfg, n, ev, now)) && Quiet(n, OnTurnReqWait(cfg, n, ev, now))
  {
  }

  lemma InternalKeepaliveWait(cfg: Config, n: Node, ev: Event, now: nat)
    requires StationOk(n) && Internal(n.s, ev) && n.s.dflow.KeepaliveWait?
    ensures var m := OnKeepaliveWait(cfg, n, ev, now); m.s.conn == Connected ==> StationOk(m) && Quiet(n, m)
  {
  }

  lemma InternalIdleIss(cfg: Config, n: Node, ev: Event, now: nat)
    requires cfg.burstFrames == 1 && StationOk(n) && Internal(n.s, ev) && n.s.dflow == IdleIss
    ensures var m := OnIdleIss(cfg, n, ev, now); StationOk(m) && Quiet(n, m)
  {
    if ev.AppDataReady? && Backlog(n) > 0 && !n.s.setup.guard {
      BurstIsQuiet(cfg, DflowEnter(n, DataTx, Never, Retry), now);
    }
  }

  lemma InternalDataTx(cfg: Config, n: Node, ev: Event, now: nat)
    requires cfg.burstFrames == 1 && StationOk(n) && Internal(n.s, ev) && n.s.dflow == DataTx
    ensures var m := OnDataTx(cfg, n, ev, now); StationOk(m) && Quiet(n, m)
  {
    if ev == TimerFired(AckTimer) {
      BurstIsQuiet(cfg, n, now);
    }
  }

  lemma InternalWaitAck(cfg: Config, n: Node, ev: Event, now: nat)
    requires cfg.burstFrames == 1 && StationOk(n) && Internal(n.s, ev) && n.s.dflow == WaitAck
    ensures var m := OnWaitAck(cfg, n, ev, now);
      m.s.conn == Connected ==> StationOk(m) && Quiet(n, m)
  {
    if ev == TimerFired(AckTimer) {
      TimeoutIsQuiet(cfg, n, now);
    }
  }

  lemma TimeoutIsQuiet(cfg: Config, n: Node, now: nat)
    requires cfg.burstFrames == 1 && StationOk(n) && n.s.dflow == WaitAck
    ensures var m := OnAckTimeout(cfg, n, now); m.s.conn == Connected ==> StationOk(m) && Quiet(n, m)
  {
    var s := n.s;
    if s.retries > 0 {
      RetryIsQuiet(cfg, n, now);
    } else if now - s.lastProgress >= cfg.noProgressMs || s.teardown.disconnect {
      assert OnAckTimeout(cfg, n, now).s.conn == Disconnecting;
    } else {
      PersistIsQuiet(cfg, n, now);
    }
  }

  lemma RetryIsQuiet(cfg: Config, n: Node, now: nat)
    requires cfg.burstFrames == 1 && StationOk(n) && n.s.dflow == WaitAck && n.s.retries > 0
    ensures var m := OnAckTimeout(cfg, n, now); StationOk(m) && Quiet(n, m)
  {
    var left := if n.s.teardown.disconnect && n.s.retries > 1 then 1 else n.s.retries;
    ResendIsQuiet(cfg, n, n.(s := n.s.(retries := left - 1, win := n.s.win.(retx := true))), now);
  }

  /** The two nodes differ in nothing the peer could notice. */
  predicate Alike(n: Node, m: Node) {
    && m.s.conn == n.s.conn && m.s.dflow == n.s.dflow && m.s.setup == n.s.setup && m.s.turn == n.s.turn
    && m.s.probe == n.s.probe && m.s.win.slots == n.s.win.slots && m.s.deadlineEvent == n.s.deadlineEvent
    && m.s.txSeq == n.s.txSeq && m.s.rxExpected == n.s.rxExpected && m.s.deadline == n.s.deadline
    && m.chunks == n.chunks && m.delivered == n.delivered && m.queue == n.queue
  }

  lemma ResendIsQuiet(cfg: Config, n: Node, k: Node, now: nat)
    requires cfg.burstFrames == 1 && StationOk(n) && n.s.dflow == WaitAck && Alike(n, k)
    ensures var m := SendDataBurst(cfg, DflowEnter(k, DataTx, Never, Retry), now); StationOk(m) && Quiet(n, m)
  {
    BurstIsQuiet(cfg, DflowEnter(k, DataTx, Never, Retry), now);
  }

  lemma PersistIsQuiet(cfg: Config, n: Node, now: nat)
    requires cfg.burstFrames == 1 && StationOk(n) && n.s.dflow == WaitAck
    ensures var c := n.(s := n.s.(retries := cfg.dataRetries, link := PushDown(n.s.link)));
      var (u, started) := MaybeUpgrade(cfg, c, now);
      var m := if started then u else SendDataBurst(cfg, DflowEnter(u, DataTx, Never, Retry), now);
      StationOk(m) && Quiet(n, m)
  {
    var (u, started) := MaybeUpgrade(cfg, n.(s := n.s.(retries := cfg.dataRetries, link := PushDown(n.s.link))), now);
    if !started {
      ResendIsQuiet(cfg, n, u, now);
    }
  }

  // ------------------------------------------------------------------ hearing the peer

  /** Nothing is read or delivered; the window stays, or was acknowledged while waiting for
      the ACK. */
  predicate Held(n: Node, m: Node) {
    && m.s.rxExpected == n.s.rxExpected && m.delivered == n.delivered && m.chunks == n.chunks
    && (m.s.setup.confirm ==> n.s.setup.confirm)
    && (m.s.win.slots == n.s.win.slots || (n.s.dflow.WaitAck? && m.s.win.slots == []))
  }

  /** A new frame was delivered; a window dropped on the way was an implicit ACK. */
  predicate Accepted(n: Node, m: Node, payload: seq<bv8>) {
    && m.delivered == n.delivered + [payload] && m.chunks == n.chunks && m.queue == n.queue
    && (m.s.setup.confirm ==> n.s.setup.confirm)
    && (m.s.win.slots == n.s.win.slots || (n.s.dflow.WaitAck? && m.s.win.slots == []))
  }

  /** DATA from the peer is delivered if expected; a duplicate gives the turn away or is ignored. */
  lemma HearData(cfg: Config, n: Node, ev: Event, now: nat)
    requires cfg.burstFrames == 1 && StationOk(n) && n.queue == [] && ev.RxData? && !ev.hasData
    ensures var m := OnDflow(cfg, n, ev, now);
      && m.s.conn == Connected && StationOk(m)
      && (Quiet(n, m)
         || (Fresh(n.s, ev) && Accepted(n, m, ev.payload))
         || (Held(n, m) && m.s.win.slots == n.s.win.slots && !Claiming(m.s) && m.queue == []))
  {
    match n.s.dflow
    case IdleIss => HearDataIdle(n, ev, now);
    case IdleIrs => HearDataIdle(n, ev, now);
    case DataRx => HearDataIdle(n, ev, now);
    case TurnReqWait => HearDataIdle(n, ev, now);
    case WaitAck =>
      assert OnDflow(cfg, n, ev, now) == OnDataInWaitAck(cfg, n, ev, now);
      HearDataWaiting(cfg, n, ev, now);
    case _ => assert OnDflow(cfg, n, ev, now) == n;
  }

  lemma HearDataWaiting(cfg: Config, n: Node, ev: Event, now: nat)
    requires cfg.burstFrames == 1 && StationOk(n) && n.queue == [] && ev.RxData? && !ev.hasData && n.s.dflow.WaitAck?
    ensures var m := OnDataInWaitAck(cfg, n, ev, now);
      && m.s.conn == Connected && StationOk(m)
      && if Fresh(n.s, ev) then Accepted(n, m, ev.payload) else Quiet(n, m)
  {
    if Fresh(n.s, ev) {
      NewDataWaiting(cfg, n, ev, now);
    } else {
      var m := n.(s := n.s.(link := SeePeerSnr(n.s.link, ev.snr), peerTxMode := ev.mode, lastRx := now));
      BurstIsQuiet(cfg, DflowEnter(m, DataTx, Never, Retry), now);
    }
  }

  lemma NewDataWaiting(cfg: Config, n: Node, ev: Event, now: nat)
    requires StationOk(n) && n.queue == [] && ev.RxData? && !ev.hasData && n.s.dflow.WaitAck? && Fresh(n.s, ev)
    ensures var m := OnDataInWaitAck(cfg, n, ev, now);
      m.s.conn == Connected && StationOk(m) && Accepted(n, m, ev.payload)
  {
  }

  lemma HearDataIdle(n: Node, ev: Event, now: nat)
    requires StationOk(n) && !n.s.setup.confirm && n.queue == [] && ev.RxData? && !ev.hasData
    ensures var m := ReceiveData(n, ev, now);
      && m.s.conn == Connected && StationOk(m) && m.queue == []
      && if Fresh(n.s, ev) then Accepted(n, m, ev.payload)
         else Held(n, m) && m.s.win.slots == n.s.win.slots && !Claiming(m.s)
  {
  }

  /** Control frames never deliver anything. Besides what a station may do on its own, they
      can acknowledge the window, hand over the turn, or take it away. */
  predicate Controlled(n: Node, f: Frame, m: Node) {
    || Quiet(n, m)
    || (Held(n, m) && m.queue == [] && !Claiming(m.s) && m.s.win.slots == n.s.win.slots)
    || (f.TurnAckFrame? && Held(n, m) && m.s.win.slots == n.s.win.slots && ModeReqOnlyWhenEmpty(m))
    || (f.ModeReqFrame? && Held(n, m) && n.s.dflow.WaitAck? && m.queue == [] && !Claiming(m.s))
    || (f.AckFrame? && Held(n, m) && n.s.dflow.WaitAck? && AckNamesNext(n.s, f.ack)
       && ModeReqOnlyWhenEmpty(m) && (f.hasData ==> !Claiming(m.s)))
  }

  predicate ModeReqOnlyWhenEmpty(m: Node) {
    forall i :: 0 <= i < |m.queue| && m.queue[i].ModeReqFrame? ==> m.s.win.slots == []
  }

  predicate AckNamesNext(s: Session, ack: Byte) {
    s.win.slots != [] && ack == Next(s.win.slots[0].seqNo)
  }

  lemma HearAck(cfg: Config, n: Node, ev: Event, now: nat)
    requires cfg.burstFrames == 1 && StationOk(n) && n.queue == [] && ev.RxAck?
    ensures var m := OnDflow(cfg, n, ev, now);
      m.s.conn == Connected ==> StationOk(m) && Controlled(n, AckFrame(ev.sid, ev.ack, ev.hasData), m)
  {
    if n.s.dflow.WaitAck? {
      assert OnDflow(cfg, n, ev, now) == OnAck(cfg, n, ev, now);
      if Confirmed(n.s.win.slots, ev.ack) != 0 {
        HearConfirmingAck(cfg, n, ev, now);
      }
    } else {
      assert OnDflow(cfg, n, ev, now) == n;
    }
  }

  lemma HearConfirmingAck(cfg: Config, n: Node, ev: Event, now: nat)
    requires StationOk(n) && n.queue == [] && ev.RxAck? && n.s.dflow.WaitAck? && Confirmed(n.s.win.slots, ev.ack) != 0
    ensures var m := OnAck(cfg, n, ev, now);
      m.s.conn == Connected ==> StationOk(m) && Controlled(n, AckFrame(ev.sid, ev.ack, ev.hasData), m)
  {
    assert Confirmed(n.s.win.slots, ev.ack) == 1 && AckNamesNext(n.s, ev.ack);
    var s := n.s.(link := SeePeerSnr(n.s.link, ev.snr));
    var w := Slide(s, 1);
    assert w.win.slots == [];
    var p := w.(retries := cfg.dataRetries, lastProgress := now, turn := s.turn.(peerHasData := ev.hasData));
    var c := n.(s := p.(win := p.win.(retx := false),
        link := cfg.policy.record(p.link, p.payloadMode, CleanWindow(cfg, s))));
    assert OnAck(cfg, n, ev, now) == if ev.hasData then EnterIdleIrs(c, now) else EnterIdleIssGuarded(cfg, c, now);
    if !ev.hasData {
      GuardedIsQuiet(cfg, c, now);
    }
  }

  lemma HearTurnAck(cfg: Config, n: Node, ev: Event, now: nat)
    requires cfg.burstFrames == 1 && StationOk(n) && n.queue == [] && ev.RxTurnAck?
    ensures var m := OnDflow(cfg, n, ev, now);
      m.s.conn == Connected ==> StationOk(m) && Controlled(n, TurnAckFrame(ev.sid), m)
  {
    if n.s.dflow.TurnReqWait? {
      assert OnDflow(cfg, n, ev, now) == EnterIdleIssGuarded(cfg, n, now);
      TurnGranted(cfg, n, ev.sid, now);
    } else {
      assert OnDflow(cfg, n, ev, now) == n;
    }
  }

  lemma TurnGranted(cfg: Config, n: Node, sid: Byte, now: nat)
    requires StationOk(n) && n.queue == [] && n.s.dflow.TurnReqWait?
    ensures var m := EnterIdleIssGuarded(cfg, n, now);
      m.s.conn == Connected ==> StationOk(m) && Controlled(n, TurnAckFrame(sid), m)
  {
    var c := n.(s := n.s.(retries := cfg.dataRetries));
    var (u, started) := MaybeUpgrade(cfg, c, now);
    assert u.s.win.slots == n.s.win.slots && u.ring == n.ring && u.s.setup == n.s.setup;
  }

  lemma HearModeReq(cfg: Config, n: Node, ev: Event, now: nat)
    requires cfg.burstFrames == 1 && StationOk(n) && n.queue == [] && ev.RxModeReq?
    ensures var m := OnDflow(cfg, n, ev, now);
      m.s.conn == Connected ==> StationOk(m) && Controlled(n, ModeReqFrame(ev.sid, ev.mode), m)
  {
    match n.s.dflow
    case WaitAck => assert OnDflow(cfg, n, ev, now) == OnWaitAck(cfg, n, ev, now);
    case IdleIrs => assert OnDflow(cfg, n, ev, now) == OnIdleIrs(n, ev, now);
    case _ => assert OnDflow(cfg, n, ev, now) == n;
  }

  lemma HearModeAck(cfg: Config, n: Node, ev: Event, now: nat)
    requires cfg.burstFrames == 1 && StationOk(n) && n.queue == [] && ev.RxModeAck?
    ensures var m := OnDflow(cfg, n, ev, now); m.s.conn == Connected ==> StationOk(m) && Quiet(n, m)
  {
    if n.s.dflow.ModeReqWait? {
      assert OnDflow(cfg, n, ev, now) == OnModeReqWait(cfg, n, ev, now);
      var s := if !PayloadMode(ev.mode) then n.s
               else n.s.(link := ConfirmMode(n.s.link, n.s.payloadMode, ev.mode, now), payloadMode := ev.mode);
      GuardedIsQuiet(cfg, n.(s := s), now);
    } else {
      assert OnDflow(cfg, n, ev, now) == n;
    }
  }

  lemma HearTurnReq(cfg: Config, n: Node, ev: Event, now: nat)
    requires cfg.burstFrames == 1 && StationOk(n) && n.queue == [] && ev.RxTurnReq?
    ensures var m := OnDflow(cfg, n, ev, now);
      m.s.conn == Connected ==> StationOk(m) && Controlled(n, TurnReqFrame(ev.sid, 0), m)
  {
    var m := OnDflow(cfg, n, ev, now);
    assert m == n || m == YieldTurn(n, now);
  }

  lemma HearKeepalive(cfg: Config, n: Node, ev: Event, now: nat)
    requires cfg.burstFrames == 1 && StationOk(n) && n.queue == [] && (ev.RxKeepalive? || ev.RxKeepaliveAck?)
    ensures var m := OnDflow(cfg, n, ev, now); m.s.conn == Connected ==> StationOk(m) && Quiet(n, m)
  {
    if n.s.dflow.KeepaliveWait? {
      assert OnDflow(cfg, n, ev, now) == OnKeepaliveWait(cfg, n, ev, now);
    } else {
      assert OnDflow(cfg, n, ev, now) == n;
    }
  }

  /** What hearing one frame can do to a station. */
  predicate Heard(n: Node, f: Frame, m: Node) {
    if f.DataFrame? then
      || Quiet(n, m)
      || (f.seqNo == n.s.rxExpected && Accepted(n, m, f.payload))
      || (Held(n, m) && m.s.win.slots == n.s.win.slots && !Claiming(m.s) && m.queue == [])
    else Controlled(n, f, m)
  }

  lemma HearStep(cfg: Config, n: Node, f: Frame, snr: Snr, now: nat)
    requires cfg.burstFrames == 1 && StationOk(n) && n.queue == [] && !f.CallFrame?
    ensures var m := Dispatch(cfg, n, EventOf(f, snr), now); m.s.conn == Connected ==> StationOk(m) && Heard(n, f, m)
  {
    var ev := EventOf(f, snr);
    var l := Noted(n, ev, now);
    NotedIsQuiet(n, ev, now);
    if !WrongSession(n.s, ev) && !DrainExpired(l.s, now) {
      HearConnected(cfg, l, f, snr, now);
    }
  }

  lemma HearConnected(cfg: Config, n: Node, f: Frame, snr: Snr, now: nat)
    requires cfg.burstFrames == 1 && StationOk(n) && n.queue == [] && !f.CallFrame? && !DrainExpired(n.s, now)
    ensures var m := OnConnected(cfg, n, EventOf(f, snr), now); m.s.conn == Connected ==> StationOk(m) && Heard(n, f, m)
  {
    var ev := EventOf(f, snr);
    match f
    case DataFrame(_, _, _, _, _, _, _) => HearData(cfg, n, ev, now);
    case AckFrame(_, _, _) => HearAck(cfg, n, ev, now);
    case TurnAckFrame(_) => HearTurnAck(cfg, n, ev, now);
    case TurnReqFrame(_, _) => HearTurnReq(cfg, n, ev, now);
    case ModeReqFrame(_, _) => HearModeReq(cfg, n, ev, now);
    case ModeAckFrame(_, _) => HearModeAck(cfg, n, ev, now);
    case KeepaliveAckFrame(_) => HearKeepalive(cfg, n, ev, now);
    case KeepaliveFrame(_) => HearProbe(cfg, n, ev, now);
    case DisconnectFrame(_) =>
  }

  lemma HearProbe(cfg: Config, n: Node, ev: Event, now: nat)
    requires cfg.burstFrames == 1 && StationOk(n) && n.queue == [] && ev.RxKeepalive? && !DrainExpired(n.s, now)
    ensures var m := OnConnected(cfg, n, ev, now); m.s.conn == Connected ==> StationOk(m) && Quiet(n, m)
  {
    if KeepaliveBusy(n.s.dflow) {
      HearKeepalive(cfg, n, ev, now);
    }
  }
}
