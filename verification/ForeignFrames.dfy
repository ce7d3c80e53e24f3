/** Frames of another session. The dispatcher checks the session id of most frames, but not
    of MODE_REQ and MODE_ACK, and only in a connection; the session id 0 passes its check. */
module ForeignFrames {
  import opened Common
  import opened ArqTypes
  import opened Fsm
  import opened StationRuns
  import opened StrandedWindow

  /** Frames that belong to one session. */
  predicate SessionFrame(ev: Event) {
    ev.RxData? || ev.RxAck? || ev.RxDisconnect? || ev.RxTurnReq? || ev.RxTurnAck? ||
    ev.RxKeepalive? || ev.RxKeepaliveAck? || ev.RxModeReq? || ev.RxModeAck?
  }

  predicate Foreign(s: Session, ev: Event) { SessionFrame(ev) && ev.sid != 0 && ev.sid != s.sid }

  /** A mode change a connected station acts on without looking at the session. */
  predicate Believed(s: Session, ev: Event) {
    || (ev.RxModeReq? && PayloadMode(ev.mode) && (s.dflow.WaitAck? || s.dflow.IdleIrs?))
    || (ev.RxModeAck? && s.dflow.ModeReqWait?)
  }

  /** The frames of another session a station acts on: DATA or ACK while it is accepting a call,
      believed mode changes in a connection, and there any MODE_REQ or MODE_ACK once a deferred
      disconnect is due. */
  predicate ActsOn(s: Session, ev: Event, now: nat) {
    || (s.conn.Accepting? && (ev.RxData? || ev.RxAck?))
    || (s.conn.Connected? && if DrainExpired(s, now) then ev.RxModeReq? || ev.RxModeAck? else Believed(s, ev))
  }

  /** In every state a frame of another session leaves the station as it was, but for the time it
      last heard one, exactly if it is none of those. */
  lemma ForeignFrame(cfg: Config, n: Node, ev: Event, now: nat)
    requires Foreign(n.s, ev)
    ensures Dispatch(cfg, n, ev, now) == Noted(n, ev, now) <==> !ActsOn(n.s, ev, now)
  {
    if n.s.conn.Accepting? && (ev.RxData? || ev.RxAck?) {
      AnyFrameConnects(cfg, n, ev, now);
    } else if n.s.conn.Connected? && DrainExpired(n.s, now) {
      ForeignWhenDue(cfg, n, ev, now);
    } else if n.s.conn.Connected? {
      ForeignInConnection(cfg, n, ev, now);
    }
  }

  lemma ForeignWhenDue(cfg: Config, n: Node, ev: Event, now: nat)
    requires n.s.conn == Connected && DrainExpired(n.s, now) && Foreign(n.s, ev)
    ensures var m := Dispatch(cfg, n, ev, now);
      if ev.RxModeReq? || ev.RxModeAck? then m.s.conn == Disconnecting else m == Noted(n, ev, now)
  {
  }

  lemma ForeignInConnection(cfg: Config, n: Node, ev: Event, now: nat)
    requires n.s.conn == Connected && !DrainExpired(n.s, now) && Foreign(n.s, ev)
    ensures Dispatch(cfg, n, ev, now) == Noted(n, ev, now) <==> !Believed(n.s, ev)
  {
    if ev.RxModeReq? {
      ForeignModeReq(cfg, n, ev.sid, ev.mode, now);
    } else if ev.RxModeAck? {
      ForeignModeAck(cfg, n, ev.sid, ev.mode, now);
    }
  }

  /** A MODE_REQ of any session: in WAIT_ACK it also counts as an ACK of the whole window. */
  lemma ForeignModeReq(cfg: Config, n: Node, sid: Byte, mode: int, now: nat)
    requires n.s.conn == Connected && !DrainExpired(n.s, now)
    ensures var m := Dispatch(cfg, n, RxModeReq(sid, mode), now);
      if !Believed(n.s, RxModeReq(sid, mode)) then m == n
      else
        && m.s.dflow.ModeAckTx? && m.s.peerTxMode == mode && m.delivered == n.delivered && m.ring == n.ring
        && m.s.win.slots == if n.s.dflow.WaitAck? then [] else n.s.win.slots
  {
    var ev := RxModeReq(sid, mode);
    assert Dispatch(cfg, n, ev, now) == OnDflow(cfg, n, ev, now);
    if n.s.dflow.WaitAck? {
      assert OnDflow(cfg, n, ev, now) == OnWaitAck(cfg, n, ev, now);
    } else if n.s.dflow.IdleIrs? {
      assert OnDflow(cfg, n, ev, now) == OnIdleIrs(n, ev, now);
    }
  }

  /** A MODE_ACK of any session ends the negotiation with the mode it names. */
  lemma ForeignModeAck(cfg: Config, n: Node, sid: Byte, mode: int, now: nat)
    requires n.s.conn == Connected && !DrainExpired(n.s, now)
    ensures var m := Dispatch(cfg, n, RxModeAck(sid, mode), now);
      if !n.s.dflow.ModeReqWait? then m == n
      else
        && (m.s.conn.Disconnecting? || !m.s.dflow.ModeReqWait?)
        && m.s.payloadMode == if PayloadMode(mode) then mode else n.s.payloadMode
  {
    var ev := RxModeAck(sid, mode);
    assert Dispatch(cfg, n, ev, now) == OnDflow(cfg, n, ev, now);
    if n.s.dflow.ModeReqWait? {
      assert OnDflow(cfg, n, ev, now) == OnModeReqWait(cfg, n, ev, now);
    }
  }

  /** DATA or an ACK of any session answers the call, and DATA numbered 0 is delivered. */
  lemma AnyFrameConnects(cfg: Config, n: Node, ev: Event, now: nat)
    requires n.s.conn == Accepting && (ev.RxData? || ev.RxAck?)
    ensures var m := Dispatch(cfg, n, ev, now);
      && m.s.conn == Connected && m.s.role == Callee && m.s.sid == n.s.sid
      && m.delivered == n.delivered + (if ev.RxData? && ev.seqNo == 0 then [ev.payload] else [])
  {
    var c := Noted(n, ev, now);
    assert Dispatch(cfg, n, ev, now) == OnAccepting(cfg, c, ev, now) == BecomeCallee(cfg, ForgetOlla(c), ev, now);
    var o := ForgetOlla(c);
    var f := SessEnter(o.(s := FreshSession(cfg, o.s, Callee, now)), Connected, Never, Retry, now);
    if ev.RxData? {
      assert OnDflow(cfg, EnterIdleIrs(f, now), ev, now) == ReceiveData(EnterIdleIrs(f, now), ev, now);
    }
  }

  /** Under the session id 0 a frame does in a connection, and in its teardown, what it would do
      under the id of the session. */
  lemma ZeroIsOurs(cfg: Config, n: Node, ev: Event, now: nat)
    requires SessionFrame(ev) && ev.sid == 0 && (n.s.conn.Connected? || n.s.conn.Disconnecting?)
    ensures Dispatch(cfg, n, ev, now) == Dispatch(cfg, n, ev.(sid := n.s.sid), now)
  {
    var own := ev.(sid := n.s.sid);
    var c := Noted(n, ev, now);
    assert c == Noted(n, own, now);
    if n.s.conn.Connected? {
      ZeroInDflow(cfg, c, ev, own, now);
      ZeroInConnection(cfg, c, ev, own, now);
    }
  }

  lemma ZeroInConnection(cfg: Config, n: Node, ev: Event, own: Event, now: nat)
    requires SessionFrame(ev) && own == ev.(sid := n.s.sid) && OnDflow(cfg, n, ev, now) == OnDflow(cfg, n, own, now)
    ensures OnConnected(cfg, n, ev, now) == OnConnected(cfg, n, own, now)
  {
  }

  lemma ZeroInDflow(cfg: Config, n: Node, ev: Event, own: Event, now: nat)
    requires SessionFrame(ev) && own == ev.(sid := n.s.sid)
    ensures OnDflow(cfg, n, ev, now) == OnDflow(cfg, n, own, now)
  {
    match n.s.dflow
    case IdleIss => ZeroInIdleIss(cfg, n, ev, own, now);
    case DataTx => assert OnDataTx(cfg, n, ev, now) == OnDataTx(cfg, n, own, now);
    case WaitAck => ZeroInWaitAck(cfg, n, ev, own, now);
    case KeepaliveWait => ZeroInWaits(cfg, n, ev, own, now);
    case ModeReqWait => ZeroInWaits(cfg, n, ev, own, now);
    case TurnReqWait => ZeroInTurnReqWait(cfg, n, ev, own, now);
    case IdleIrs => ZeroInReceiver(cfg, n, ev, own, now);
    case DataRx => ZeroInReceiver(cfg, n, ev, own, now);
    case _ => assert OnDflow(cfg, n, ev, now) == n;
  }

  lemma ZeroInIdleIss(cfg: Config, n: Node, ev: Event, own: Event, now: nat)
    requires SessionFrame(ev) && own == ev.(sid := n.s.sid)
    ensures OnIdleIss(cfg, n, ev, now) == OnIdleIss(cfg, n, own, now)
  {
  }

  lemma ZeroInWaitAck(cfg: Config, n: Node, ev: Event, own: Event, now: nat)
    requires SessionFrame(ev) && own == ev.(sid := n.s.sid)
    ensures OnWaitAck(cfg, n, ev, now) == OnWaitAck(cfg, n, own, now)
  {
    if ev.RxData? {
      assert OnDataInWaitAck(cfg, n, ev, now) == OnDataInWaitAck(cfg, n, own, now);
    } else if ev.RxAck? {
      assert OnAck(cfg, n, ev, now) == OnAck(cfg, n, own, now);
    }
  }

  lemma ZeroInWaits(cfg: Config, n: Node, ev: Event, own: Event, now: nat)
    requires SessionFrame(ev) && own == ev.(sid := n.s.sid) && (n.s.dflow.KeepaliveWait? || n.s.dflow.ModeReqWait?)
    ensures OnDflow(cfg, n, ev, now) == OnDflow(cfg, n, own, now)
  {
    if n.s.dflow.KeepaliveWait? {
      assert OnKeepaliveWait(cfg, n, ev, now) == OnKeepaliveWait(cfg, n, own, now);
    } else {
      assert OnModeReqWait(cfg, n, ev, now) == OnModeReqWait(cfg, n, own, now);
    }
  }

  lemma ZeroInTurnReqWait(cfg: Config, n: Node, ev: Event, own: Event, now: nat)
    requires SessionFrame(ev) && own == ev.(sid := n.s.sid)
    ensures OnTurnReqWait(cfg, n, ev, now) == OnTurnReqWait(cfg, n, own, now)
  {
  }

  lemma ZeroInReceiver(cfg: Config, n: Node, ev: Event, own: Event, now: nat)
    requires SessionFrame(ev) && own == ev.(sid := n.s.sid) && (n.s.dflow.IdleIrs? || n.s.dflow.DataRx?)
    ensures OnDflow(cfg, n, ev, now) == OnDflow(cfg, n, own, now)
  {
    if n.s.dflow.IdleIrs? {
      assert OnIdleIrs(n, ev, now) == OnIdleIrs(n, own, now);
    } else {
      assert OnDataRx(n, ev, now) == OnDataRx(n, own, now);
    }
  }

  /** A reachable station that accepts the call of session 1, and is connected by a DATA frame of
      session 2, whose byte it delivers. */
  lemma StrangerAnswersCall(cfg: Config) returns (r: Rig, r': Rig)
    ensures Reachable(cfg, r) && r.node.s.conn == Accepting && r.node.s.sid == 1 && r.node.delivered == []
    ensures var h := Hear(RxData(2, 0, [7], false, true, DATAC15, None));
      && Possible(r, h) && r' == After(cfg, r, h, 3)
      && r'.node.s.conn == Connected && r'.node.s.sid == 1 && r'.node.delivered == [[7]]
  {
    r := Starts(cfg);
    r := Reaches(cfg, r, Hear(AppListen), 1);
    r := Reaches(cfg, r, Hear(RxCall(1)), 2);
    var ev := RxData(2, 0, [7], false, true, DATAC15, None);
    AnyFrameConnects(cfg, r.node, ev, 3);
    r' := After(cfg, r, Hear(ev), 3);
  }

  /** A reachable station of session 1 that waits for the ACK of one byte, and loses the byte
      to the MODE_REQ of session 2. */
  lemma StrangerTakesWindow(cfg: Config) returns (r: Rig, r': Rig)
    ensures Reachable(cfg, r) && r.node.s.conn == Connected && r.node.s.dflow.WaitAck? && r.node.s.sid == 1
    ensures |r.node.s.win.slots| == 1 && r.node.s.win.slots[0].payload == [0]
    ensures Possible(r, Hear(RxModeReq(2, DATAC3))) && r' == After(cfg, r, Hear(RxModeReq(2, DATAC3)), 905)
    ensures r'.node.s.conn == Connected && r'.node.s.win.slots == [] && r'.node.ring == [] && r'.node.queue == []
  {
    r := Bursts(cfg);
    var n := r.node.(queue := []);
    assert OnDflow(cfg, n, TxComplete, 904) == OnDataTx(cfg, n, TxComplete, 904);
    r := Airs(cfg, r, 904);
    ForeignModeReq(cfg, r.node, 2, DATAC3, 905);
    assert OnDflow(cfg, r.node, RxModeReq(2, DATAC3), 905) == OnWaitAck(cfg, r.node, RxModeReq(2, DATAC3), 905);
    r' := After(cfg, r, Hear(RxModeReq(2, DATAC3)), 905);
  }
}
