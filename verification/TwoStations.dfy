/** Two connected stations on a half-duplex medium that may lose any frame: what one side
    has delivered is always a prefix of what the other side has read, and an implicit ACK
    never drops a frame the peer has not delivered. */
module TwoStations {
  import opened Common
  import opened ArqTypes
  import opened Fsm
  import opened StationSteps

  // ------------------------------------------------------------------ the two stations

  /** A station and its transmitter: the frame on the air, if any, and whether it has been
      decoded at the other end. */
  datatype Station = Station(node: Node, air: Option<Frame>, heard: bool)

  datatype Net = Net(a: Station, b: Station)

  /** The modem takes the first control frame if there is one, else the first frame. */
  function NextFrame(queue: seq<Frame>): (i: nat)
    requires queue != []
    ensures i < |queue|
    ensures queue[i].DataFrame? ==> forall k :: 0 <= k < |queue| ==> queue[k].DataFrame?
  {
    if !queue[0].DataFrame? then 0
    else if |queue| == 1 then 0
    else
      var i := NextFrame(queue[1..]);
      assert forall k :: 1 <= k < |queue| ==> queue[k] == queue[1..][k - 1];
      if queue[1..][i].DataFrame? then 0 else i + 1
  }

  /** What can happen next at one station: its application writes to the TX ring or posts an
      event, its deadline fires, its modem keys up, its frame is decoded by the other
      station, its transmission ends. A frame that is not decoded before its end is lost. */
  datatype Action =
    | Write(data: seq<bv8>) | Post(ev: Event) | Tick
    | KeyUp | Decoded(snr: Snr) | TxEnds

  predicate AppEvent(ev: Event) {
    ev.AppListen? || ev.AppStopListen? || ev.AppConnect? || ev.AppDisconnect? || ev.AppDataReady?
  }

  /** A station decodes nothing while it has a frame queued or on the air. */
  predicate Receiving(x: Station) { x.air.None? && x.node.queue == [] }

  predicate Enabled(x: Station, y: Station, act: Action) {
    match act
    case Write(_) => true
    case Post(ev) => AppEvent(ev)
    case Tick => true
    case KeyUp => x.air.None? && x.node.queue != []
    case Decoded(_) => x.air.Some? && !x.heard && Receiving(y)
    case TxEnds => x.air.Some?
  }

  /** The next frame leaves the queue and goes on the air. */
  function KeyedUp(x: Station): Station
    requires x.node.queue != []
  {
    var i := NextFrame(x.node.queue);
    Station(x.node.(queue := x.node.queue[..i] + x.node.queue[i + 1..]), Some(x.node.queue[i]), false)
  }

  /** The pair after `act` at the first station. */
  function Act(cfg: Config, x: Station, y: Station, act: Action, now: nat): (Station, Station)
    requires Enabled(x, y, act)
  {
    match act
    case Write(data) => (x.(node := x.node.(ring := x.node.ring + data)), y)
    case Post(ev) => (x.(node := Dispatch(cfg, x.node, ev, now)), y)
    case Tick => (x.(node := FireDeadline(cfg, x.node, now)), y)
    case KeyUp =>
      var k := KeyedUp(x);
      (k.(node := Dispatch(cfg, k.node, TxStarted, now)), y)
    case Decoded(snr) =>
      (x.(heard := true), y.(node := Dispatch(cfg, y.node, EventOf(x.air.value, snr), now)))
    case TxEnds => (Station(Dispatch(cfg, x.node, TxComplete, now), None, false), y)
  }

  predicate BothConnected(n: Net) { n.a.node.s.conn == Connected && n.b.node.s.conn == Connected }

  // ------------------------------------------------------------------ the invariant of the pair

  /** Frames of `x` the peer can still hear. */
  predicate TransmitterOk(x: Station) {
    && StationOk(x.node) && (x.node.s.setup.confirm ==> x.air.Some?)
    && (x.air.Some? && !x.heard ==> FrameOk(x.node.s, x.air.value))
    && (x.air.Some? && !x.heard && x.air.value.DataFrame? ==> !HasModeReq(x.node.queue))
  }

  predicate HasModeReq(queue: seq<Frame>) {
    exists i :: 0 <= i < |queue| && queue[i].ModeReqFrame?
  }

  predicate ModeReqPending(x: Station) {
    HasModeReq(x.node.queue) || (x.air.Some? && !x.heard && x.air.value.ModeReqFrame?)
  }

  /** What `y` has delivered is all of what `x` has read, or all but the window's frame; and
      a MODE_REQ still to be heard means the window's frame has not been delivered. */
  predicate Flow(x: Station, y: Station) {
    && y.node.delivered <= x.node.chunks
    && |x.node.chunks| - |x.node.s.win.slots| <= |y.node.delivered|
    && (ModeReqPending(x) ==> |y.node.delivered| == |x.node.chunks| - |x.node.s.win.slots|)
  }

  /** Still waiting for an ACK of a frame that has been delivered. */
  predicate Stale(x: Station, y: Station) {
    Sending(x.node.s) && |y.node.delivered| == |x.node.chunks|
  }

  predicate Pair(x: Station, y: Station) {
    && TransmitterOk(x) && TransmitterOk(y) && Flow(x, y) && Flow(y, x)
    && (Claiming(x.node.s) && Claiming(y.node.s) ==> Stale(x, y) || Stale(y, x))
  }

  /** A step a station takes on its own keeps the pair in order. */
  lemma QuietKeepsPair(x: Station, y: Station, m: Node)
    requires Pair(x, y) && StationOk(m) && Quiet(x.node, m)
    ensures Pair(x.(node := m), y)
  {
    var x' := x.(node := m);
    assert x.air.Some? && !x.heard ==> FrameOk(m.s, x.air.value);
    if ModeReqPending(x') {
      if !ModeReqPending(x) {
        var i :| 0 <= i < |m.queue| && m.queue[i].ModeReqFrame?;
        assert i >= |x.node.queue|;
      }
    }
  }

  /** Whenever an ACK, explicit or implicit, empties the window, its frame was delivered. */
  predicate AckWasTrue(x: Station, y: Station, m: Node) {
    y.node.s.win.slots != [] && m.s.win.slots == [] ==> |x.node.delivered| == |y.node.chunks|
  }

  /** New data is exactly the frame the receiver lacks. */
  lemma FreshIsNext(x: Station, y: Station, f: Frame)
    requires Pair(x, y) && f.DataFrame? && FrameOk(x.node.s, f) && f.seqNo == y.node.s.rxExpected
    ensures |y.node.delivered| == |x.node.chunks| - 1
    ensures y.node.delivered + [f.payload] == x.node.chunks
    ensures !Stale(x, y) && Claiming(x.node.s)
  {
    var n := |x.node.chunks|;
    assert WindowHolds(x.node.s.win.slots[0], x.node.chunks);
    assert x.node.chunks == x.node.chunks[..n - 1] + [x.node.chunks[n - 1]];
  }

  lemma AcceptedKeepsPair(x: Station, y: Station, m: Node)
    requires Pair(x, y) && x.air.Some? && !x.heard && x.air.value.DataFrame? && Receiving(y)
    requires StationOk(m) && Accepted(y.node, m, x.air.value.payload) && x.air.value.seqNo == y.node.s.rxExpected
    ensures Pair(x.(heard := true), y.(node := m)) && AckWasTrue(x, y, m)
  {
    FreshIsNext(x, y, x.air.value);
    assert y.node.s.win.slots != [] && m.s.win.slots == [] ==> Stale(y, x);
  }

  lemma ControlledKeepsPair(x: Station, y: Station, m: Node)
    requires Pair(x, y) && x.air.Some? && !x.heard && !x.air.value.DataFrame? && Receiving(y)
    requires StationOk(m) && Controlled(y.node, x.air.value, m)
    ensures Pair(x.(heard := true), y.(node := m)) && AckWasTrue(x, y, m)
  {
    var x' := x.(heard := true);
    if Quiet(y.node, m) {
      PairSwaps(x, y);
      QuietKeepsPair(y, x, m);
      PairSwaps(x, y.(node := m));
      HeardKeepsPair(x, y.(node := m));
    } else if y.node.s.win.slots != [] && m.s.win.slots == [] {
      if x.air.value.AckFrame? {
        AckCounts(y.node, x.node, x.air.value.ack);
      } else {
        assert ModeReqPending(x) && !Stale(x, y);
        assert Stale(y, x);
      }
    }
  }

  lemma AckCounts(n: Node, peer: Node, ack: Byte)
    requires StationOk(n) && StationOk(peer) && AckNamesNext(n.s, ack) && ack == peer.s.rxExpected
    requires |n.chunks| - 1 <= |peer.delivered| <= |n.chunks|
    ensures |peer.delivered| == |n.chunks|
  {
    assert WindowHolds(n.s.win.slots[0], n.chunks);
  }

  lemma PairSwaps(x: Station, y: Station)
    requires Pair(x, y)
    ensures Pair(y, x)
  {
  }

  lemma HeardKeepsPair(x: Station, y: Station)
    requires Pair(x, y)
    ensures Pair(x.(heard := true), y)
  {
  }

  lemma DecodingKeepsPair(cfg: Config, x: Station, y: Station, snr: Snr, now: nat)
    requires cfg.burstFrames == 1 && Pair(x, y) && Enabled(x, y, Decoded(snr))
    ensures var m := Dispatch(cfg, y.node, EventOf(x.air.value, snr), now);
      m.s.conn == Connected ==> Pair(x.(heard := true), y.(node := m)) && AckWasTrue(x, y, m)
  {
    HearStep(cfg, y.node, x.air.value, snr, now);
    var m := Dispatch(cfg, y.node, EventOf(x.air.value, snr), now);
    if m.s.conn == Connected {
      FrameKeepsPair(x, y, m);
    }
  }

  /** The receiver has become `m` by hearing the frame on the air. */
  lemma FrameKeepsPair(x: Station, y: Station, m: Node)
    requires Pair(x, y) && x.air.Some? && !x.heard && Receiving(y) && StationOk(m) && Heard(y.node, x.air.value, m)
    ensures Pair(x.(heard := true), y.(node := m)) && AckWasTrue(x, y, m)
  {
    var f := x.air.value;
    if !f.DataFrame? {
      ControlledKeepsPair(x, y, m);
    } else if Quiet(y.node, m) {
      PairSwaps(x, y);
      QuietKeepsPair(y, x, m);
      PairSwaps(x, y.(node := m));
      HeardKeepsPair(x, y.(node := m));
    } else if f.seqNo == y.node.s.rxExpected && Accepted(y.node, m, f.payload) {
      AcceptedKeepsPair(x, y, m);
    }
  }

  /** Keying up moves one frame from the queue to the air; data only after all control. */
  lemma KeyUpKeepsPair(x: Station, y: Station)
    requires Pair(x, y) && Enabled(x, y, KeyUp)
    ensures Pair(KeyedUp(x), y)
  {
    var i := NextFrame(x.node.queue);
    var rest := x.node.queue[..i] + x.node.queue[i + 1..];
    assert forall k :: 0 <= k < |rest| ==> rest[k] == x.node.queue[if k < i then k else k + 1];
    assert FrameOk(x.node.s, x.node.queue[i]);
    if HasModeReq(rest) {
      var k :| 0 <= k < |rest| && rest[k].ModeReqFrame?;
      assert x.node.queue[if k < i then k else k + 1].ModeReqFrame?;
    }
  }

  /** The window only empties by an ACK, and a confirmation is only owed to an ACCEPT. */
  predicate KeepsWindow(x: Station, x': Station) {
    && (x.node.s.win.slots != [] ==> x'.node.s.win.slots == x.node.s.win.slots)
    && (x'.node.s.setup.confirm ==> x.node.s.setup.confirm)
  }

  lemma OwnStepKeepsPair(cfg: Config, x: Station, y: Station, act: Action, now: nat)
    requires cfg.burstFrames == 1 && Pair(x, y) && Enabled(x, y, act) && !act.Decoded?
    ensures var (x', y') := Act(cfg, x, y, act, now);
      y' == y && (x'.node.s.conn == Connected ==> Pair(x', y) && KeepsWindow(x, x'))
  {
    match act
    case Write(data) => QuietKeepsPair(x, y, x.node.(ring := x.node.ring + data));
    case Post(ev) => InternalKeepsPair(cfg, x, y, ev, now);
    case Tick => TickKeepsPair(cfg, x, y, now);
    case KeyUp => StartOfTransmissionKeepsPair(cfg, x, y, now);
    case TxEnds =>
      InternalKeepsPair(cfg, x, y, TxComplete, now);
      if Dispatch(cfg, x.node, TxComplete, now).s.conn == Connected {
        EndOfTransmissionConfirms(cfg, x.node, now);
      }
  }

  lemma TickKeepsPair(cfg: Config, x: Station, y: Station, now: nat)
    requires cfg.burstFrames == 1 && Pair(x, y)
    ensures var x' := x.(node := FireDeadline(cfg, x.node, now));
      x'.node.s.conn == Connected ==> Pair(x', y) && KeepsWindow(x, x')
  {
    if x.node.s.deadline != Never && now >= x.node.s.deadline.ms {
      var c := x.node.(s := x.node.s.(deadline := Never));
      QuietKeepsPair(x, y, c);
      InternalKeepsPair(cfg, x.(node := c), y, TimerFired(x.node.s.deadlineEvent), now);
    }
  }

  lemma StartOfTransmissionKeepsPair(cfg: Config, x: Station, y: Station, now: nat)
    requires cfg.burstFrames == 1 && Pair(x, y) && Enabled(x, y, KeyUp)
    ensures var (x', y') := Act(cfg, x, y, KeyUp, now);
      x'.node.s.conn == Connected ==> Pair(x', y) && KeepsWindow(x, x')
  {
    KeyUpKeepsPair(x, y);
    var k := KeyedUp(x);
    KeyedUpKeepsPair(cfg, x, k, y, now);
  }

  lemma KeyedUpKeepsPair(cfg: Config, x: Station, k: Station, y: Station, now: nat)
    requires cfg.burstFrames == 1 && Pair(k, y) && k.node.s == x.node.s
    ensures var m := Dispatch(cfg, k.node, TxStarted, now);
      m.s.conn == Connected ==> Pair(k.(node := m), y) && KeepsWindow(x, k.(node := m))
  {
    InternalKeepsPair(cfg, k, y, TxStarted, now);
  }

  lemma EndOfTransmissionConfirms(cfg: Config, n: Node, now: nat)
    requires cfg.burstFrames == 1 && StationOk(n) && Dispatch(cfg, n, TxComplete, now).s.conn == Connected
    ensures !Dispatch(cfg, n, TxComplete, now).s.setup.confirm
  {
    if n.s.setup.confirm {
      assert OnDflow(cfg, n, TxComplete, now) == OnAckTx(cfg, n, TxComplete, now);
    } else if !DrainExpired(n.s, now) {
      InternalDflow(cfg, n, TxComplete, now);
    }
  }

  lemma InternalKeepsPair(cfg: Config, x: Station, y: Station, ev: Event, now: nat)
    requires cfg.burstFrames == 1 && Pair(x, y) && Internal(x.node.s, ev)
    ensures var m := Dispatch(cfg, x.node, ev, now);
      m.s.conn == Connected ==> Pair(x.(node := m), y) && KeepsWindow(x, x.(node := m))
  {
    InternalStep(cfg, x.node, ev, now);
    if Dispatch(cfg, x.node, ev, now).s.conn == Connected {
      QuietKeepsPair(x, y, Dispatch(cfg, x.node, ev, now));
    }
  }

  // ------------------------------------------------------------------ leaving the connection

  /** Still connected, or nothing read and nothing delivered. */
  predicate StaysOrIdles(n: Node, m: Node) {
    m.s.conn == Connected || (m.delivered == n.delivered && m.chunks == n.chunks)
  }

  /** The step that leaves the connection reads and delivers nothing. */
  lemma LeavingIsIdle(cfg: Config, n: Node, ev: Event, now: nat)
    requires n.s.conn == Connected
    ensures StaysOrIdles(n, Dispatch(cfg, n, ev, now))
  {
    if !WrongSession(n.s, ev) {
      LeavingDflow(cfg, Noted(n, ev, now), ev, now);
    }
  }

  lemma LeavingDflow(cfg: Config, n: Node, ev: Event, now: nat)
    requires n.s.conn == Connected
    ensures StaysOrIdles(n, OnDflow(cfg, n, ev, now))
  {
    match n.s.dflow
    case IdleIss => LeavingSender(cfg, n, ev, now);
    case DataTx => LeavingSender(cfg, n, ev, now);
    case WaitAck => LeavingWaitAck(cfg, n, ev, now);
    case AckTx => LeavingAckTx(cfg, n, ev, now);
    case TurnReqWait =>
      LeavingGuarded(cfg, n, now);
      assert OnDflow(cfg, n, ev, now) == OnTurnReqWait(cfg, n, ev, now);
    case KeepaliveAckTx => LeavingProbe(cfg, n, ev, now);
    case KeepaliveWait => LeavingProbe(cfg, n, ev, now);
    case ModeReqTx =>
      LeavingIdleIss(cfg, n.(s := n.s.(retries := cfg.dataRetries)), now);
      assert OnDflow(cfg, n, ev, now) == OnModeReqTx(cfg, n, ev, now);
    case ModeReqWait => LeavingModeReqWait(cfg, n, ev, now);
    case IdleIrs => assert OnDflow(cfg, n, ev, now) == OnIdleIrs(n, ev, now);
    case DataRx => assert OnDflow(cfg, n, ev, now) == OnDataRx(n, ev, now);
    case _ =>
  }

  lemma LeavingSender(cfg: Config, n: Node, ev: Event, now: nat)
    requires n.s.conn == Connected && (n.s.dflow.IdleIss? || n.s.dflow.DataTx?)
    ensures StaysOrIdles(n, OnDflow(cfg, n, ev, now))
  {
    if n.s.dflow.IdleIss? {
      BurstStaysConnected(cfg, DflowEnter(n, DataTx, Never, Retry), now);
      assert OnDflow(cfg, n, ev, now) == OnIdleIss(cfg, n, ev, now);
    } else {
      BurstStaysConnected(cfg, n, now);
      assert OnDflow(cfg, n, ev, now) == OnDataTx(cfg, n, ev, now);
    }
  }

  lemma LeavingProbe(cfg: Config, n: Node, ev: Event, now: nat)
    requires n.s.conn == Connected && (n.s.dflow.KeepaliveAckTx? || n.s.dflow.KeepaliveWait?)
    ensures StaysOrIdles(n, OnDflow(cfg, n, ev, now))
  {
    if n.s.dflow.KeepaliveAckTx? {
      LeavingGuarded(cfg, n, now);
      assert OnDflow(cfg, n, ev, now) == OnKeepaliveAckTx(cfg, n, ev, now);
    } else {
      LeavingGuarded(cfg, n.(s := n.s.(probe := n.s.probe.(misses := 0))), now);
      LeavingGuarded(cfg, Send(n, KeepaliveAckFrame(n.s.sid)).(s := n.s.(probe := n.s.probe.(misses := 0))), now);
      assert OnDflow(cfg, n, ev, now) == OnKeepaliveWait(cfg, n, ev, now);
    }
  }

  lemma {:induction false} TopUpStaysConnected(n: Node, userBytes: nat, limit: nat)
    requires userBytes > 0
    ensures TopUp(n, userBytes, limit).s.conn == n.s.conn
    decreases limit - |n.s.win.slots|
  {
    if |n.s.win.slots| < limit && n.ring != [] {
      TopUpStaysConnected(AddSlot(n, userBytes), userBytes, limit);
    }
  }

  lemma BurstStaysConnected(cfg: Config, n: Node, now: nat)
    ensures SendDataBurst(cfg, n, now).s.conn == n.s.conn
  {
    var u := UserBytes(n.s.payloadMode);
    if u > 0 {
      TopUpStaysConnected(n, u, BurstMax(cfg, n.s, now));
    }
  }

  lemma LeavingGuarded(cfg: Config, n: Node, now: nat)
    ensures var m := EnterIdleIssGuarded(cfg, n, now); m.delivered == n.delivered && m.chunks == n.chunks
  {
    var c := n.(s := n.s.(retries := cfg.dataRetries));
    var (u, started) := MaybeUpgrade(cfg, c, now);
    assert u.delivered == n.delivered && u.chunks == n.chunks;
  }

  lemma LeavingIdleIss(cfg: Config, n: Node, now: nat)
    requires n.s.conn == Connected
    ensures StaysOrIdles(n, EnterIdleIss(cfg, n, now))
  {
    BurstStaysConnected(cfg, DflowEnter(n.(s := n.s.(retries := cfg.dataRetries)), DataTx, Never, Retry), now);
  }

  lemma LeavingAckTx(cfg: Config, n: Node, ev: Event, now: nat)
    requires n.s.conn == Connected && n.s.dflow.AckTx?
    ensures StaysOrIdles(n, OnDflow(cfg, n, ev, now))
  {
    var c := n.(s := n.s.(setup := n.s.setup.(confirm := false)));
    LeavingGuarded(cfg, c, now);
    LeavingGuarded(cfg, n, now);
    LeavingIdleIss(cfg, c, now);
    assert OnDflow(cfg, n, ev, now) == OnAckTx(cfg, n, ev, now);
  }

  lemma LeavingModeReqWait(cfg: Config, n: Node, ev: Event, now: nat)
    requires n.s.conn == Connected && n.s.dflow.ModeReqWait?
    ensures StaysOrIdles(n, OnDflow(cfg, n, ev, now))
  {
    assert OnDflow(cfg, n, ev, now) == OnModeReqWait(cfg, n, ev, now);
    if ev.RxModeAck? {
      var s := if !PayloadMode(ev.mode) then n.s
               else n.s.(link := ConfirmMode(n.s.link, n.s.payloadMode, ev.mode, now), payloadMode := ev.mode);
      LeavingGuarded(cfg, n.(s := s), now);
    }
  }

  lemma LeavingWaitAck(cfg: Config, n: Node, ev: Event, now: nat)
    requires n.s.conn == Connected && n.s.dflow.WaitAck?
    ensures StaysOrIdles(n, OnDflow(cfg, n, ev, now))
  {
    assert OnDflow(cfg, n, ev, now) == OnWaitAck(cfg, n, ev, now);
    match ev
    case RxAck(_, ack, hasData, snr) =>
      var k := Confirmed(n.s.win.slots, ack);
      var s := n.s.(link := SeePeerSnr(n.s.link, snr));
      if k > 0 {
        var w := Slide(s, k).(retries := cfg.dataRetries, lastProgress := now, turn := s.turn.(peerHasData := hasData));
        var c := n.(s := w.(win := w.win.(retx := false),
            link := cfg.policy.record(w.link, w.payloadMode, CleanWindow(cfg, s))));
        LeavingGuarded(cfg, c, now);
      }
    case TimerFired(AckTimer) => LeavingTimeout(cfg, n, now);
    case RxData(_, _, _, _, _, mode, snr) =>
      var m := n.(s := n.s.(link := SeePeerSnr(n.s.link, snr), peerTxMode := mode, lastRx := now));
      BurstStaysConnected(cfg, DflowEnter(m, DataTx, Never, Retry), now);
    case _ =>
  }

  lemma LeavingTimeout(cfg: Config, n: Node, now: nat)
    requires n.s.conn == Connected
    ensures StaysOrIdles(n, OnAckTimeout(cfg, n, now))
  {
    var s := n.s;
    if s.retries > 0 {
      var left := if s.teardown.disconnect && s.retries > 1 then 1 else s.retries;
      var m := n.(s := s.(retries := left - 1, win := s.win.(retx := true)));
      BurstStaysConnected(cfg, DflowEnter(m, DataTx, Never, Retry), now);
    } else if !(now - s.lastProgress >= cfg.noProgressMs || s.teardown.disconnect) {
      var (u, started) := MaybeUpgrade(cfg, n.(s := s.(retries := cfg.dataRetries, link := PushDown(s.link))), now);
      BurstStaysConnected(cfg, DflowEnter(u, DataTx, Never, Retry), now);
    }
  }

  // ------------------------------------------------------------------ one step of the pair

  lemma ActKeepsPair(cfg: Config, x: Station, y: Station, act: Action, now: nat)
    requires cfg.burstFrames == 1 && Pair(x, y) && Enabled(x, y, act)
    ensures var (x', y') := Act(cfg, x, y, act, now);
      && (x'.node.s.conn == Connected && y'.node.s.conn == Connected ==> Pair(x', y'))
      && y'.node.delivered <= x'.node.chunks && x'.node.delivered <= y'.node.chunks
      && (y'.node.s.conn == Connected ==> AckWasTrue(x, y, y'.node))
      && (x'.node.s.conn == Connected ==> AckWasTrue(y, x, x'.node))
  {
    var (x', y') := Act(cfg, x, y, act, now);
    if act.Decoded? {
      DecodingKeepsPair(cfg, x, y, act.snr, now);
      LeavingIsIdle(cfg, y.node, EventOf(x.air.value, act.snr), now);
    } else {
      OwnStepKeepsPair(cfg, x, y, act, now);
      if x'.node.s.conn != Connected {
        LeavingByItself(cfg, x, y, act, now);
      }
    }
  }

  lemma LeavingByItself(cfg: Config, x: Station, y: Station, act: Action, now: nat)
    requires x.node.s.conn == Connected && Enabled(x, y, act) && !act.Decoded?
    ensures StaysOrIdles(x.node, Act(cfg, x, y, act, now).0.node)
  {
    match act
    case Write(data) =>
    case Post(ev) => LeavingIsIdle(cfg, x.node, ev, now);
    case Tick =>
      LeavingIsIdle(cfg, x.node.(s := x.node.s.(deadline := Never)), TimerFired(x.node.s.deadlineEvent), now);
    case KeyUp =>
      LeavingIsIdle(cfg, KeyedUp(x).node, TxStarted, now);
    case TxEnds => LeavingIsIdle(cfg, x.node, TxComplete, now);
  }
}
