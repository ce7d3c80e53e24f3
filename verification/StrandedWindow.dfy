/** A window whose turn was given away. Fsm keeps the unacknowledged frames for the time the
    turn comes back; whether they go out again then depends on the application's ring alone. */
module StrandedWindow {
  import opened ArqTypes
  import opened Fsm
  import opened StationInvariants
  import opened StationRuns

  /** Frames not yet acknowledged, and a state that neither sends them nor waits for an ACK. */
  predicate Stranded(n: Node) {
    n.s.conn == Connected && n.s.win.slots != [] && !n.s.dflow.DataTx? && !n.s.dflow.WaitAck?
  }

  // ------------------------------------------------------------------ giving the turn away

  /** A sender that may yield: waiting for an ACK, or in the guard before a burst. */
  predicate MayYield(s: Session) {
    s.dflow.WaitAck? || (s.dflow.DataTx? && s.deadlineEvent.AckTimer? && s.deadline.At?)
  }

  /** A TURN_REQ in the middle of an unacknowledged window leaves the window behind, whatever
      is in the ring; in the rest of a burst it changes nothing. */
  lemma YieldLeavesWindow(cfg: Config, n: Node, sid: Byte, now: nat)
    requires n.s.conn == Connected && n.s.win.slots != [] && (n.s.dflow.WaitAck? || n.s.dflow.DataTx?)
    requires (sid == n.s.sid || sid == 0) && !DrainExpired(n.s, now)
    ensures var m := Dispatch(cfg, n, RxTurnReq(sid), now);
      && m.s.win == n.s.win && m.ring == n.ring && m.queue == n.queue
      && (Stranded(m) <==> MayYield(n.s))
      && if MayYield(n.s) then m.s.dflow.TurnAckTx? else m.s.dflow == n.s.dflow && m.s.deadline == n.s.deadline
  {
    var ev, c := RxTurnReq(sid), Noted(n, RxTurnReq(sid), now);
    if n.s.dflow.WaitAck? {
      assert OnDflow(cfg, c, ev, now) == OnWaitAck(cfg, c, ev, now);
    } else {
      assert OnDflow(cfg, c, ev, now) == OnDataTx(cfg, c, ev, now);
    }
  }

  // ------------------------------------------------------------------ getting it back

  /** The handlers that take the turn and enter the sender's role behind a guard. */
  predicate TakesTurn(s: Session, ev: Event) {
    || (s.dflow.TurnReqWait? && ev.RxTurnAck?)
    || (s.dflow.AckTx? && ev.TxComplete? && !s.setup.confirm && !s.turn.peerHasData && s.turn.ackHadData)
    || (s.dflow.KeepaliveAckTx? && ev.TxComplete? && !s.probe.ackFromIrs)
    || (s.dflow.KeepaliveWait? && ev.RxKeepaliveAck? && !s.probe.fromIrs)
  }

  /** The turn brings the window back exactly when the ring is not empty. With an empty ring
      the station goes idle with the window unsent, or starts the teardown it had put off. */
  lemma TurnBringsBack(cfg: Config, n: Node, ev: Event, now: nat)
    requires Stranded(n) && TakesTurn(n.s, ev) && !WrongSession(n.s, ev) && !DrainExpired(n.s, now)
    ensures var m := Dispatch(cfg, n, ev, now);
      && m.s.win.slots == n.s.win.slots && m.ring == n.ring && m.queue == n.queue
      && (m.s.conn.Connected? && m.s.dflow.DataTx? <==> n.ring != [])
      && if n.ring != [] then m.s.deadline == At(now + ISS_POST_ACK_GUARD_MS) && m.s.deadlineEvent == AckTimer
         else if n.s.teardown.disconnect then m.s.conn.Disconnecting?
         else m.s.dflow.IdleIss? && m.s.deadline.Never?
  {
    var c := Noted(n, ev, now);
    assert Handle(cfg, c, ev, now) == OnDflow(cfg, c, ev, now);
    match n.s.dflow
    case TurnReqWait => assert OnDflow(cfg, c, ev, now) == OnTurnReqWait(cfg, c, ev, now);
    case AckTx => assert OnDflow(cfg, c, ev, now) == OnAckTx(cfg, c, ev, now);
    case KeepaliveAckTx => assert OnDflow(cfg, c, ev, now) == OnKeepaliveAckTx(cfg, c, ev, now);
    case KeepaliveWait => assert OnDflow(cfg, c, ev, now) == OnKeepaliveWait(cfg, c, ev, now);
  }

  /** With something in the ring, the turn and the guard after it put the whole window on the
      air again, in front of what is fresh. */
  lemma TurnResends(cfg: Config, n: Node, ev: Event, now: nat, later: nat)
    requires Stranded(n) && TakesTurn(n.s, ev) && !WrongSession(n.s, ev) && !DrainExpired(n.s, now)
    requires WindowFine(n) && n.ring != [] && later >= now + ISS_POST_ACK_GUARD_MS && !DrainExpired(n.s, later)
    ensures var m := FireDeadline(cfg, Dispatch(cfg, n, ev, now), later);
      n.s.win.slots <= m.s.win.slots && m.queue == n.queue + BurstFrames(m.s)
  {
    TurnBringsBack(cfg, n, ev, now);
    var m := Dispatch(cfg, n, ev, now);
    GuardExpires(cfg, m, later);
  }

  lemma GuardExpires(cfg: Config, m: Node, later: nat)
    requires m.s.conn == Connected && m.s.dflow.DataTx? && WindowFine(m) && !DrainExpired(m.s, later)
    requires m.s.deadlineEvent == AckTimer && m.s.deadline.At? && later >= m.s.deadline.ms
    ensures var m' := FireDeadline(cfg, m, later);
      m.s.win.slots <= m'.s.win.slots && m'.queue == m.queue + BurstFrames(m'.s)
  {
    GuardIsOver(cfg, m, later);
    BurstRefills(cfg, m.(s := m.s.(deadline := Never)), later);
  }

  lemma GuardIsOver(cfg: Config, m: Node, later: nat)
    requires m.s.conn == Connected && m.s.dflow.DataTx? && !DrainExpired(m.s, later)
    requires m.s.deadlineEvent == AckTimer && m.s.deadline.At? && later >= m.s.deadline.ms
    ensures FireDeadline(cfg, m, later) == SendDataBurst(cfg, m.(s := m.s.(deadline := Never)), later)
  {
    var c := m.(s := m.s.(deadline := Never));
    assert OnDflow(cfg, c, TimerFired(AckTimer), later) == SendDataBurst(cfg, c, later);
  }

  // ------------------------------------------------------------------ with an empty ring

  predicate SendsNoData(n: Node, m: Node) {
    n.queue <= m.queue && forall i :: |n.queue| <= i < |m.queue| ==> !m.queue[i].DataFrame?
  }

  /** As long as the call lasts the window is neither sent nor acknowledged. */
  predicate KeepsStranded(n: Node, m: Node) {
    m.s.conn == Connected ==> Stranded(m) && m.s.win.slots == n.s.win.slots && m.ring == [] && SendsNoData(n, m)
  }

  /** With an empty ring no event at all, not even the turn or a late APP_DATA_READY, sends
      the stranded frames. */
  lemma StrandedStays(cfg: Config, n: Node, ev: Event, now: nat)
    requires Stranded(n) && n.ring == []
    ensures KeepsStranded(n, Dispatch(cfg, n, ev, now))
  {
    if !WrongSession(n.s, ev) {
      StrandedConnected(cfg, Noted(n, ev, now), ev, now);
    }
  }

  lemma StrandedConnected(cfg: Config, n: Node, ev: Event, now: nat)
    requires Stranded(n) && n.ring == []
    ensures KeepsStranded(n, OnConnected(cfg, n, ev, now))
  {
    StrandedInDflow(cfg, n, ev, now);
  }

  lemma StrandedInDflow(cfg: Config, n: Node, ev: Event, now: nat)
    requires Stranded(n) && n.ring == []
    ensures KeepsStranded(n, OnDflow(cfg, n, ev, now))
  {
    if n.s.dflow.IdleIss? || n.s.dflow.IdleIrs? || n.s.dflow.DataRx? {
      StrandedIdle(cfg, n, ev, now);
    } else if n.s.dflow.AckTx? || n.s.dflow.KeepaliveTx? {
      StrandedAnswering(cfg, n, ev, now);
    } else if n.s.dflow.KeepaliveWait? || n.s.dflow.KeepaliveAckTx? {
      StrandedProbing(cfg, n, ev, now);
    } else if n.s.dflow.ModeReqTx? || n.s.dflow.ModeReqWait? || n.s.dflow.ModeAckTx? {
      StrandedNegotiating(cfg, n, ev, now);
    } else {
      StrandedTurning(cfg, n, ev, now);
    }
  }

  lemma StrandedIdle(cfg: Config, n: Node, ev: Event, now: nat)
    requires Stranded(n) && n.ring == [] && (n.s.dflow.IdleIss? || n.s.dflow.IdleIrs? || n.s.dflow.DataRx?)
    ensures KeepsStranded(n, OnDflow(cfg, n, ev, now))
  {
    match n.s.dflow
    case IdleIss => assert OnDflow(cfg, n, ev, now) == OnIdleIss(cfg, n, ev, now);
    case IdleIrs => assert OnDflow(cfg, n, ev, now) == OnIdleIrs(n, ev, now);
    case DataRx => assert OnDflow(cfg, n, ev, now) == OnDataRx(n, ev, now);
  }

  lemma StrandedAnswering(cfg: Config, n: Node, ev: Event, now: nat)
    requires Stranded(n) && n.ring == [] && (n.s.dflow.AckTx? || n.s.dflow.KeepaliveTx?)
    ensures KeepsStranded(n, OnDflow(cfg, n, ev, now))
  {
    match n.s.dflow
    case AckTx => assert OnDflow(cfg, n, ev, now) == OnAckTx(cfg, n, ev, now);
    case KeepaliveTx => assert OnDflow(cfg, n, ev, now) == OnKeepaliveTx(n, ev, now);
  }

  lemma StrandedProbing(cfg: Config, n: Node, ev: Event, now: nat)
    requires Stranded(n) && n.ring == [] && (n.s.dflow.KeepaliveWait? || n.s.dflow.KeepaliveAckTx?)
    ensures KeepsStranded(n, OnDflow(cfg, n, ev, now))
  {
    match n.s.dflow
    case KeepaliveWait => assert OnDflow(cfg, n, ev, now) == OnKeepaliveWait(cfg, n, ev, now);
    case KeepaliveAckTx => assert OnDflow(cfg, n, ev, now) == OnKeepaliveAckTx(cfg, n, ev, now);
  }

  lemma StrandedNegotiating(cfg: Config, n: Node, ev: Event, now: nat)
    requires Stranded(n) && n.ring == [] && (n.s.dflow.ModeReqTx? || n.s.dflow.ModeReqWait? || n.s.dflow.ModeAckTx?)
    ensures KeepsStranded(n, OnDflow(cfg, n, ev, now))
  {
    match n.s.dflow
    case ModeReqTx => assert OnDflow(cfg, n, ev, now) == OnModeReqTx(cfg, n, ev, now);
    case ModeReqWait => assert OnDflow(cfg, n, ev, now) == OnModeReqWait(cfg, n, ev, now);
    case ModeAckTx => assert OnDflow(cfg, n, ev, now) == OnModeAckTx(n, ev, now);
  }

  lemma StrandedTurning(cfg: Config, n: Node, ev: Event, now: nat)
    requires Stranded(n) && n.ring == [] && (n.s.dflow.TurnReqTx? || n.s.dflow.TurnReqWait? || n.s.dflow.TurnAckTx?)
    ensures KeepsStranded(n, OnDflow(cfg, n, ev, now))
  {
    match n.s.dflow
    case TurnReqTx => assert OnDflow(cfg, n, ev, now) == OnTurnReqTx(n, ev, now);
    case TurnReqWait => assert OnDflow(cfg, n, ev, now) == OnTurnReqWait(cfg, n, ev, now);
    case TurnAckTx => assert OnDflow(cfg, n, ev, now) == OnTurnAckTx(n, ev, now);
  }

  /** A connected station whose ring is empty. */
  predicate RanDry(r: Rig) { r.node.s.conn.Connected? && r.node.ring == [] }

  predicate Behind(r: Rig, slots: seq<Slot>) { Stranded(r.node) && r.node.s.win.slots == slots }

  lemma StepKeepsStranded(cfg: Config, r: Rig, r': Rig, slots: seq<Slot>)
    requires Step(cfg, r, r') && RanDry(r) && RanDry(r') && Behind(r, slots)
    ensures Behind(r', slots)
  {
    var h, now: nat :| now > 0 && Possible(r, h) && r' == After(cfg, r, h, now);
    match h
    case Write(data) =>
    case Post =>
    case TakeReady => StrandedStays(cfg, r.node, AppDataReady, now);
    case Hear(ev) => StrandedStays(cfg, r.node, ev, now);
    case Tick =>
      if r.node.s.deadline != Never && now >= r.node.s.deadline.ms {
        StrandedStays(cfg, r.node.(s := r.node.s.(deadline := Never)), TimerFired(r.node.s.deadlineEvent), now);
      }
    case KeyUp(rest) => StrandedStays(cfg, r.node.(queue := rest), TxStarted, now);
    case TxEnds => StrandedStays(cfg, r.node, TxComplete, now);
  }

  /** Over a run: nothing but a write of the application or the end of the call brings a
      stranded window back. */
  lemma {:induction false} OnlyAWriteHelps(cfg: Config, run: seq<Rig>, i: nat, j: nat, slots: seq<Slot>)
    requires IsRun(cfg, run) && i <= j < |run| && Behind(run[i], slots)
    requires forall k :: i <= k <= j ==> RanDry(run[k])
    ensures Behind(run[j], slots)
    decreases j
  {
    if i < j {
      OnlyAWriteHelps(cfg, run, i, j - 1, slots);
      assert StepAt(cfg, run, j - 1);
      StepKeepsStranded(cfg, run[j - 1], run[j], slots);
    }
  }

  // ------------------------------------------------------------------ such a run

  ghost predicate Reachable(cfg: Config, r: Rig) {
    exists run :: IsRun(cfg, run) && run[|run| - 1] == r
  }

  lemma Reaches(cfg: Config, r: Rig, h: Happening, now: nat) returns (r': Rig)
    requires Reachable(cfg, r) && Possible(r, h) && now > 0
    ensures r' == After(cfg, r, h, now) && Reachable(cfg, r')
  {
    var run :| IsRun(cfg, run) && run[|run| - 1] == r;
    r' := After(cfg, r, h, now);
    var longer := run + [r'];
    assert Step(cfg, r, r');
    forall i | 0 <= i < |longer| - 1 ensures StepAt(cfg, longer, i) {
      if i < |run| - 1 {
        assert StepAt(cfg, run, i);
      }
    }
    assert longer[|longer| - 1] == r';
  }

  /** Off the air, with nothing queued and no teardown under way. */
  predicate Still(r: Rig) { !r.onAir && r.ready == 0 && r.node.queue == [] && !r.node.s.teardown.disconnect }

  /** The modem takes the queued frame and sends it; a key-up by itself changes nothing. */
  lemma Airs(cfg: Config, r: Rig, now: nat) returns (r': Rig)
    requires Reachable(cfg, r) && now > 0 && !r.onAir && r.node.queue != [] && !r.node.s.teardown.disconnect
    ensures Reachable(cfg, r') && !r'.onAir && r'.ready == r.ready && r'.writing == r.writing
    ensures r'.node == Dispatch(cfg, r.node.(queue := []), TxComplete, now)
  {
    r' := Reaches(cfg, r, KeyUp([]), now);
    KeyUpIsSilent(cfg, r.node.(queue := []), now);
    r' := Reaches(cfg, r', TxEnds, now);
  }

  lemma KeyUpIsSilent(cfg: Config, n: Node, now: nat)
    requires !n.s.teardown.disconnect
    ensures Dispatch(cfg, n, TxStarted, now) == n
  {
    assert n.s.conn.Connected? ==> OnConnected(cfg, n, TxStarted, now) == OnDflow(cfg, n, TxStarted, now);
  }

  lemma Starts(cfg: Config) returns (r: Rig)
    ensures Reachable(cfg, r) && r == Rig(Node(INITIAL, [], [], [], []), false, 0, 0)
  {
    r := Rig(Node(INITIAL, [], [], [], []), false, 0, 0);
    assert IsRun(cfg, [r]) && [r][|[r]| - 1] == r;
  }

  lemma Calls(cfg: Config) returns (r: Rig)
    ensures Reachable(cfg, r) && Still(r) && r.writing == 0
    ensures r.node.s.conn.Calling? && r.node.s.sid == 1 && r.node.ring == []
  {
    r := Starts(cfg);
    r := Reaches(cfg, r, Hear(AppConnect), 1);
    r := Airs(cfg, r, 2);
  }

  /** The application writes one byte, the peer accepts. */
  lemma Connects(cfg: Config) returns (r: Rig)
    ensures Reachable(cfg, r) && Still(r) && r.writing == 1 && r.node.ring == [0]
    ensures r.node.s.conn.Connected? && r.node.s.dflow.DataTx? && r.node.s.sid == 1
    ensures r.node.s.win == Window([], false, 0)
    ensures r.node.s.deadline == At(903) && r.node.s.deadlineEvent == AckTimer
    ensures r.node.s.payloadMode == DATAC15 && r.node.s.startupUntil > 903
  {
    r := Calls(cfg);
    r := Reaches(cfg, r, Write([0]), 2);
    r := Reaches(cfg, r, Hear(RxAccept(1)), 3);
  }

  lemma OneFrame(cfg: Config, n: Node, now: nat)
    requires n.ring == [0] && n.s.win == Window([], false, 0) && n.s.payloadMode == DATAC15 && now < n.s.startupUntil
    ensures var m := SendDataBurst(cfg, n, now);
      && m.ring == [] && |m.s.win.slots| == 1 && m.s.win.slots[0].payload == [0] && |m.queue| == |n.queue| + 1
      && m.s == n.s.(txSeq := m.s.txSeq, win := m.s.win)
  {
    var m := AddSlot(n, 22);
    assert TopUp(m, 22, 1) == m;
    assert TopUp(n, 22, 1) == m;
  }

  /** The byte is handed over in one frame. */
  lemma Bursts(cfg: Config) returns (r: Rig)
    ensures Reachable(cfg, r) && !r.onAir && r.ready == 0 && r.writing == 1 && r.node.ring == [] && r.node.queue != []
    ensures r.node.s.conn.Connected? && r.node.s.dflow.DataTx? && r.node.s.sid == 1 && !r.node.s.teardown.disconnect
    ensures |r.node.s.win.slots| == 1 && r.node.s.win.slots[0].payload == [0]
  {
    r := Connects(cfg);
    var n := r.node.(s := r.node.s.(deadline := Never));
    OneFrame(cfg, n, 903);
    assert OnDflow(cfg, n, TimerFired(AckTimer), 903) == SendDataBurst(cfg, n, 903);
    r := Reaches(cfg, r, Tick, 903);
  }

  /** It goes out, and the peer asks for the turn instead of acknowledging. */
  lemma Yields(cfg: Config) returns (r: Rig)
    ensures Reachable(cfg, r) && Still(r) && r.writing == 1 && r.node.ring == []
    ensures Stranded(r.node) && r.node.s.dflow.TurnAckTx? && r.node.s.sid == 1 && r.node.s.win.slots[0].payload == [0]
    ensures r.node.s.deadline == At(1605) && r.node.s.deadlineEvent == AckTimer
  {
    r := Bursts(cfg);
    var n := r.node.(queue := []);
    assert OnDflow(cfg, n, TxComplete, 904) == OnDataTx(cfg, n, TxComplete, 904);
    r := Airs(cfg, r, 904);
    YieldLeavesWindow(cfg, r.node, 1, 905);
    r := Reaches(cfg, r, Hear(RxTurnReq(1)), 905);
  }

  /** The turn is given away. */
  lemma Gives(cfg: Config) returns (r: Rig)
    ensures Reachable(cfg, r) && Still(r) && r.writing == 1 && r.node.ring == []
    ensures Stranded(r.node) && r.node.s.dflow.IdleIrs? && r.node.s.sid == 1 && r.node.s.win.slots[0].payload == [0]
  {
    r := Yields(cfg);
    TurnAckGoes(cfg, r.node, 1605);
    r := Reaches(cfg, r, Tick, 1605);
    r := Airs(cfg, r, 1606);
  }

  lemma TurnAckGoes(cfg: Config, n: Node, now: nat)
    requires n.s.conn.Connected? && n.s.dflow.TurnAckTx? && !n.s.teardown.disconnect
    requires n.s.deadline == At(now) && n.s.deadlineEvent == AckTimer
    ensures var m := n.(s := n.s.(deadline := Never), queue := n.queue + [TurnAckFrame(n.s.sid)]);
      && FireDeadline(cfg, n, now) == m
      && Dispatch(cfg, m.(queue := []), TxComplete, now + 1) == EnterIdleIrs(m.(queue := []), now + 1)
  {
    var c := n.(s := n.s.(deadline := Never));
    assert OnDflow(cfg, c, TimerFired(AckTimer), now) == OnTurnAckTx(c, TimerFired(AckTimer), now);
  }

  /** The event of the write comes late, and asks for the turn with an empty ring. */
  lemma AsksLate(cfg: Config) returns (r: Rig)
    ensures Reachable(cfg, r) && Still(r) && r.writing == 0 && r.node.ring == []
    ensures Stranded(r.node) && r.node.s.dflow.TurnReqWait? && r.node.s.sid == 1 && r.node.s.win.slots[0].payload == [0]
  {
    r := Gives(cfg);
    r := Reaches(cfg, r, Post, 1607);
    r := Reaches(cfg, r, TakeReady, 1608);
    r := Airs(cfg, r, 1609);
  }

  /** A station that will never send its unacknowledged byte again by itself: the turn is its
      own, and it idles in it with no deadline, an empty queue and no event to come. */
  lemma WindowLeftBehind(cfg: Config) returns (r: Rig)
    ensures Reachable(cfg, r) && Still(r) && r.writing == 0 && r.node.ring == []
    ensures Stranded(r.node) && r.node.s.dflow.IdleIss? && r.node.s.deadline.Never?
    ensures r.node.s.win.slots[0].payload == [0]
  {
    r := AsksLate(cfg);
    TurnBringsBack(cfg, r.node, RxTurnAck(1), 1610);
    r := Reaches(cfg, r, Hear(RxTurnAck(1)), 1610);
  }
}
