/** A station whose peer has fallen silent: only deadlines fire and transmissions end. From
    every state that waits for the peer it comes back to LISTENING or DISCONNECTED. */
module SilentPeer {
  import opened Common
  import opened ArqTypes
  import opened Fsm
  import opened StationInvariants
  import opened StationRuns

  // ------------------------------------------------------------------ what can happen

  /** The deadline fires when it is due, the modem keys up, or a transmission ends. */
  predicate Silent(r: Rig, h: Happening, now: nat) {
    Possible(r, h) && (h.KeyUp? || h.TxEnds? || (h.Tick? && r.node.s.deadline != Never && now >= r.node.s.deadline.ms))
  }

  predicate Over(s: Session) { s.conn.Disconnected? || s.conn.Listening? }

  /** A call being set up, cleared, or answered for the peer: everything but an idle sender
      and the two answers that lead back to one. */
  predicate Underway(s: Session) {
    || s.conn.Calling? || s.conn.Accepting? || s.conn.Disconnecting?
    || (s.conn.Connected? && !s.dflow.IdleIss? && !s.setup.confirm && (s.dflow.KeepaliveAckTx? ==> s.probe.ackFromIrs))
  }

  // ------------------------------------------------------------------ the measure

  datatype Measure = Measure(phase: nat, budget: nat, stage: nat, retries: nat, rank: nat, frames: nat)

  predicate Less(a: Measure, b: Measure) {
    || a.phase < b.phase
    || (a.phase == b.phase && a.budget < b.budget)
    || (a.phase == b.phase && a.budget == b.budget && a.stage < b.stage)
    || (a.phase == b.phase && a.budget == b.budget && a.stage == b.stage && a.retries < b.retries)
    || (a.phase == b.phase && a.budget == b.budget && a.stage == b.stage && a.retries == b.retries && a.rank < b.rank)
    || (a.phase == b.phase && a.budget == b.budget && a.stage == b.stage && a.retries == b.retries && a.rank == b.rank
        && a.frames < b.frames)
  }

  /** Answering the peer, sending, receiving, probing, setting up or clearing the call. */
  function Phase(s: Session): nat {
    match s.conn
    case Disconnected => 0
    case Listening => 0
    case Connected =>
      (match s.dflow
       case DataRx => 5
       case AckTx => 5
       case DataTx => 4
       case WaitAck => 4
       case ModeReqTx => 4
       case ModeReqWait => 4
       case KeepaliveTx => 2
       case KeepaliveWait => 2
       case _ => 3)
    case _ => 1
  }

  function Left(end: int, time: int): nat { if end > time then end - time else 0 }

  function DeadlineOr(s: Session, time: nat): nat { if s.deadline == Never then time else s.deadline.ms }

  /** The earliest time at which this phase can look at its budget again. */
  function Horizon(s: Session, clock: nat): nat {
    match s.dflow
    case DataTx => var t := clock + AckTimeoutMs(s.payloadMode, 9000); Min(DeadlineOr(s, t), t)
    case WaitAck => DeadlineOr(s, clock)
    case ModeReqWait => DeadlineOr(s, clock)
    case IdleIrs => DeadlineOr(s, clock)
    case TurnReqWait => DeadlineOr(s, clock)
    case ModeReqTx => clock + 1
    case TurnReqTx => clock + 1
    case _ => clock
  }

  /** What is left of the no-progress budget, the inactivity budget, or the probes. */
  function Budget(cfg: Config, s: Session, clock: nat): nat {
    if Phase(s) == 4 then Left(s.lastProgress + cfg.noProgressMs, Horizon(s, clock))
    else if Phase(s) == 3 then Left(s.lastRx + IRS_INACTIVITY_MS, Horizon(s, clock))
    else if Phase(s) == 2 then Left(KEEPALIVE_MISS_LIMIT, s.probe.misses)
    else 0
  }

  function Stage(s: Session): nat {
    if s.conn.Disconnecting? then (if s.deadlineEvent.AckTimer? then 1 else 0)
    else if !s.conn.Connected? then 0
    else
      match s.dflow
      case DataRx => 1
      case ModeReqTx => if s.pendingTxMode == 0 then 1 else 2
      case ModeReqWait => 2
      case TurnReqTx => 1
      case TurnReqWait => 1
      case TurnAckTx => 2
      case ModeAckTx => 2
      case KeepaliveAckTx => 2
      case _ => 0
  }

  function Rank(s: Session): nat {
    var d := s.dflow;
    var sending := s.conn.Connected? && (d.DataTx? || d.ModeReqTx? || d.TurnReqTx? || d.KeepaliveTx?);
    (if sending then 2 else 0) + (if s.deadline != Never then 1 else 0)
  }

  function Frames(n: Node, onAir: bool): nat { 2 * |n.queue| + if onAir then 1 else 0 }

  function MeasureOf(cfg: Config, r: Rig, clock: nat): Measure {
    var s := r.node.s;
    Measure(Phase(s), Budget(cfg, s, clock), Stage(s), s.retries, Rank(s), Frames(r.node, r.onAir))
  }

  // ------------------------------------------------------------------ every step shrinks it

  predicate Shrinks(cfg: Config, r: Rig, clock: nat, r': Rig, now: nat) {
    Over(r'.node.s) || (Underway(r'.node.s) && Less(MeasureOf(cfg, r', now), MeasureOf(cfg, r, clock)))
  }

  /** The measure without its last part does not grow with the clock alone. */
  lemma ClockShrinks(cfg: Config, s: Session, clock: nat, now: nat)
    requires clock <= now
    ensures Budget(cfg, s, now) <= Budget(cfg, s, clock)
  {
  }

  /** TX_STARTED changes nothing but may find the drain time over. */
  lemma StartedDoesNothing(cfg: Config, n: Node, now: nat)
    ensures var m := Dispatch(cfg, n, TxStarted, now);
      if n.s.conn == Connected && DrainExpired(n.s, now) then m.s.conn == Disconnecting else m == n
  {
    assert OnDflow(cfg, n, TxStarted, now) == n;
  }

  lemma KeyUpShrinks(cfg: Config, r: Rig, clock: nat, rest: seq<Frame>, now: nat)
    requires Underway(r.node.s) && clock <= now && Possible(r, KeyUp(rest))
    ensures Shrinks(cfg, r, clock, After(cfg, r, KeyUp(rest), now), now)
  {
    StartedDoesNothing(cfg, r.node.(queue := rest), now);
    ClockShrinks(cfg, r.node.s, clock, now);
  }

  // ------------------------------------------------------------------ a deadline fires

  predicate Due(r: Rig, clock: nat, now: nat) {
    && RigSound(r) && Underway(r.node.s) && clock <= now
    && r.node.s.deadline != Never && now >= r.node.s.deadline.ms
  }

  predicate DueIn(r: Rig, clock: nat, now: nat, dflow: Dflow) {
    Due(r, clock, now) && r.node.s.conn == Connected && r.node.s.dflow == dflow
  }

  function Cleared(n: Node): Node { n.(s := n.s.(deadline := Never)) }

  function Fired(n: Node): Event { TimerFired(n.s.deadlineEvent) }

  /** Sending a burst leaves all but the window's part of the session as it was. */
  lemma BurstOnly(cfg: Config, n: Node, now: nat)
    requires WindowFine(n)
    ensures SameButWindow(n, SendDataBurst(cfg, n, now))
  {
    BurstRefills(cfg, n, now);
  }

  lemma DataTxFires(cfg: Config, r: Rig, clock: nat, now: nat)
    requires DueIn(r, clock, now, DataTx)
    ensures Shrinks(cfg, r, clock, r.(node := OnDataTx(cfg, Cleared(r.node), Fired(r.node), now)), now)
  {
    SameWindow(r.node, Cleared(r.node));
    BurstOnly(cfg, Cleared(r.node), now);
    var m := SendDataBurst(cfg, Cleared(r.node), now);
    assert OnDataTx(cfg, Cleared(r.node), Fired(r.node), now) == m;
  }

  /** Each unanswered transmission uses up a retry; each exhausted round uses up time. */
  lemma WaitAckFires(cfg: Config, r: Rig, clock: nat, now: nat)
    requires DueIn(r, clock, now, WaitAck)
    ensures Shrinks(cfg, r, clock, r.(node := OnAckTimeout(cfg, Cleared(r.node), now)), now)
  {
    var n := Cleared(r.node);
    if n.s.retries > 0 {
      SendingAgain(cfg, r, clock, now);
    } else if now - n.s.lastProgress >= cfg.noProgressMs || n.s.teardown.disconnect {
      assert OnAckTimeout(cfg, n, now).s.conn == Disconnecting;
    } else {
      Persisting(cfg, r, clock, now);
    }
  }

  lemma SendingAgain(cfg: Config, r: Rig, clock: nat, now: nat)
    requires DueIn(r, clock, now, WaitAck) && r.node.s.retries > 0
    ensures Shrinks(cfg, r, clock, r.(node := OnAckTimeout(cfg, Cleared(r.node), now)), now)
  {
    var n := Cleared(r.node);
    var left := if n.s.teardown.disconnect && n.s.retries > 1 then 1 else n.s.retries;
    var c := DflowEnter(n.(s := n.s.(retries := left - 1, win := n.s.win.(retx := true))), DataTx, Never, Retry);
    SameWindow(r.node, c);
    BurstOnly(cfg, c, now);
    assert OnAckTimeout(cfg, n, now) == SendDataBurst(cfg, c, now);
  }

  lemma Persisting(cfg: Config, r: Rig, clock: nat, now: nat)
    requires DueIn(r, clock, now, WaitAck) && r.node.s.retries == 0
    requires now - r.node.s.lastProgress < cfg.noProgressMs && !r.node.s.teardown.disconnect
    ensures Shrinks(cfg, r, clock, r.(node := OnAckTimeout(cfg, Cleared(r.node), now)), now)
  {
    var n := Cleared(r.node);
    var c := n.(s := n.s.(retries := cfg.dataRetries, link := PushDown(n.s.link)));
    SameWindow(r.node, c);
    UpgradeKeeps(cfg, c, now, true, true);
    var (u, started) := MaybeUpgrade(cfg, c, now);
    if !started {
      var d := DflowEnter(u, DataTx, Never, Retry);
      SameWindow(r.node, d);
      assert OnAckTimeout(cfg, n, now) == SendDataBurst(cfg, d, now);
      SendingOn(cfg, r, clock, now, d);
    } else {
      assert OnAckTimeout(cfg, n, now) == u;
      Negotiating(cfg, r, clock, now, u);
    }
  }

  /** Time has gone by, and a burst or a negotiation begins with the budget for progress smaller. */
  predicate StillTrying(cfg: Config, r: Rig, clock: nat, now: nat, m: Node) {
    && DueIn(r, clock, now, WaitAck) && now - r.node.s.lastProgress < cfg.noProgressMs
    && m.s.conn == Connected && m.s.deadline == Never && m.s.lastProgress == r.node.s.lastProgress
    && !m.s.setup.confirm && m.s.payloadMode == r.node.s.payloadMode
  }

  lemma SendingOn(cfg: Config, r: Rig, clock: nat, now: nat, d: Node)
    requires StillTrying(cfg, r, clock, now, d) && d.s.dflow.DataTx? && WindowFine(d)
    ensures Shrinks(cfg, r, clock, r.(node := SendDataBurst(cfg, d, now)), now)
  {
    BurstOnly(cfg, d, now);
  }

  lemma Negotiating(cfg: Config, r: Rig, clock: nat, now: nat, u: Node)
    requires StillTrying(cfg, r, clock, now, u) && u.s.dflow.ModeReqTx?
    ensures Shrinks(cfg, r, clock, r.(node := u), now)
  {
  }

  lemma IdleIrsFires(cfg: Config, r: Rig, clock: nat, now: nat)
    requires DueIn(r, clock, now, IdleIrs)
    ensures Shrinks(cfg, r, clock, r.(node := OnIdleIrs(Cleared(r.node), Fired(r.node), now)), now)
  {
  }

  lemma TurnReqWaitFires(cfg: Config, r: Rig, clock: nat, now: nat)
    requires DueIn(r, clock, now, TurnReqWait)
    ensures Shrinks(cfg, r, clock, r.(node := OnTurnReqWait(cfg, Cleared(r.node), Fired(r.node), now)), now)
  {
  }

  lemma ModeReqWaitFires(cfg: Config, r: Rig, clock: nat, now: nat)
    requires DueIn(r, clock, now, ModeReqWait)
    ensures Shrinks(cfg, r, clock, r.(node := OnModeReqWait(cfg, Cleared(r.node), Fired(r.node), now)), now)
  {
  }

  lemma KeepaliveWaitFires(cfg: Config, r: Rig, clock: nat, now: nat)
    requires DueIn(r, clock, now, KeepaliveWait)
    ensures Shrinks(cfg, r, clock, r.(node := OnKeepaliveWait(cfg, Cleared(r.node), Fired(r.node), now)), now)
  {
  }

  lemma DataRxFires(cfg: Config, r: Rig, clock: nat, now: nat)
    requires DueIn(r, clock, now, DataRx)
    ensures Shrinks(cfg, r, clock, r.(node := OnDataRx(Cleared(r.node), Fired(r.node), now)), now)
  {
  }

  /** The deadline of a transmitting state sends the frame, or passes unanswered. */
  lemma TransmittingFires(cfg: Config, r: Rig, clock: nat, now: nat)
    requires Due(r, clock, now) && r.node.s.conn == Connected
    requires var d := r.node.s.dflow;
      d.TurnReqTx? || d.TurnAckTx? || d.KeepaliveTx? || d.KeepaliveAckTx? || d.ModeAckTx?
    ensures Shrinks(cfg, r, clock, r.(node := OnDflow(cfg, Cleared(r.node), Fired(r.node), now)), now)
  {
    var n, ev := Cleared(r.node), Fired(r.node);
    match n.s.dflow
    case TurnReqTx => assert OnDflow(cfg, n, ev, now) == OnTurnReqTx(n, ev, now);
    case TurnAckTx => assert OnDflow(cfg, n, ev, now) == OnTurnAckTx(n, ev, now);
    case KeepaliveTx => ProbingFires(cfg, r, clock, now);
    case KeepaliveAckTx => ProbingFires(cfg, r, clock, now);
    case ModeAckTx => assert OnDflow(cfg, n, ev, now) == OnModeAckTx(n, ev, now);
  }

  lemma ProbingFires(cfg: Config, r: Rig, clock: nat, now: nat)
    requires Due(r, clock, now) && r.node.s.conn == Connected
    requires r.node.s.dflow.KeepaliveTx? || r.node.s.dflow.KeepaliveAckTx?
    ensures Shrinks(cfg, r, clock, r.(node := OnDflow(cfg, Cleared(r.node), Fired(r.node), now)), now)
  {
    var n, ev := Cleared(r.node), Fired(r.node);
    if r.node.s.dflow.KeepaliveTx? {
      assert OnDflow(cfg, n, ev, now) == OnKeepaliveTx(n, ev, now);
    } else {
      assert OnDflow(cfg, n, ev, now) == OnKeepaliveAckTx(cfg, n, ev, now);
    }
  }

  lemma OutsideFires(cfg: Config, r: Rig, clock: nat, now: nat)
    requires Due(r, clock, now) && r.node.s.conn != Connected
    ensures Shrinks(cfg, r, clock, r.(node := FireDeadline(cfg, r.node, now)), now)
  {
    assert Noted(Cleared(r.node), Fired(r.node), now) == Cleared(r.node);
  }

  lemma DflowFires(cfg: Config, r: Rig, clock: nat, now: nat)
    requires Due(r, clock, now) && r.node.s.conn == Connected
    ensures Shrinks(cfg, r, clock, r.(node := OnDflow(cfg, Cleared(r.node), Fired(r.node), now)), now)
  {
    match r.node.s.dflow
    case DataTx => DataTxFires(cfg, r, clock, now);
    case WaitAck => WaitAckFires(cfg, r, clock, now);
    case IdleIrs => IdleIrsFires(cfg, r, clock, now);
    case DataRx => DataRxFires(cfg, r, clock, now);
    case TurnReqWait => WaitingFires(cfg, r, clock, now);
    case ModeReqWait => WaitingFires(cfg, r, clock, now);
    case KeepaliveWait => WaitingFires(cfg, r, clock, now);
    case _ => TransmittingFires(cfg, r, clock, now);
  }

  lemma WaitingFires(cfg: Config, r: Rig, clock: nat, now: nat)
    requires Due(r, clock, now) && r.node.s.conn == Connected
    requires r.node.s.dflow.TurnReqWait? || r.node.s.dflow.ModeReqWait? || r.node.s.dflow.KeepaliveWait?
    ensures Shrinks(cfg, r, clock, r.(node := OnDflow(cfg, Cleared(r.node), Fired(r.node), now)), now)
  {
    match r.node.s.dflow
    case TurnReqWait => TurnReqWaitFires(cfg, r, clock, now);
    case ModeReqWait => ModeReqWaitFires(cfg, r, clock, now);
    case KeepaliveWait => KeepaliveWaitFires(cfg, r, clock, now);
  }

  lemma TickShrinks(cfg: Config, r: Rig, clock: nat, now: nat)
    requires Due(r, clock, now)
    ensures Shrinks(cfg, r, clock, r.(node := FireDeadline(cfg, r.node, now)), now)
  {
    if r.node.s.conn != Connected {
      OutsideFires(cfg, r, clock, now);
    } else {
      var n, ev := Cleared(r.node), Fired(r.node);
      assert Noted(n, ev, now) == n && FireDeadline(cfg, r.node, now) == OnConnected(cfg, n, ev, now);
      if !DrainExpired(n.s, now) {
        NeverKeepalive(r);
        assert OnConnected(cfg, n, ev, now) == OnDflow(cfg, n, ev, now);
        DflowFires(cfg, r, clock, now);
      }
    }
  }

  lemma NeverKeepalive(r: Rig)
    requires RigSound(r) && r.node.s.conn == Connected && r.node.s.deadline != Never
    ensures r.node.s.deadlineEvent != Keepalive
  {
  }

  // ------------------------------------------------------------------ a transmission ends

  predicate Ends(r: Rig, clock: nat, now: nat) {
    RigSound(r) && Underway(r.node.s) && clock <= now && r.onAir
  }

  predicate EndsIn(r: Rig, clock: nat, now: nat, dflow: Dflow) {
    Ends(r, clock, now) && r.node.s.conn == Connected && r.node.s.dflow == dflow
  }

  function Ended(r: Rig, m: Node): Rig { r.(node := m, onAir := false) }

  /** The ACK is out: back to waiting, or on to sending with a backlog. */
  lemma AckTxEnds(cfg: Config, r: Rig, clock: nat, now: nat)
    requires EndsIn(r, clock, now, AckTx)
    ensures Shrinks(cfg, r, clock, Ended(r, OnAckTx(cfg, r.node, TxComplete, now)), now)
  {
    var n := r.node;
    if !n.s.turn.peerHasData && n.s.turn.ackHadData {
      GuardedKeeps(cfg, n, now, false, true);
      var c := n.(s := n.s.(retries := cfg.dataRetries));
      var (u, started) := MaybeUpgrade(cfg, c, now);
      assert u.s.conn == Connected && u.s.setup == n.s.setup;
    }
  }

  lemma ModeReqTxEnds(cfg: Config, r: Rig, clock: nat, now: nat)
    requires EndsIn(r, clock, now, ModeReqTx)
    ensures Shrinks(cfg, r, clock, Ended(r, OnModeReqTx(cfg, r.node, TxComplete, now)), now)
  {
  }

  lemma DataTxEnds(cfg: Config, r: Rig, clock: nat, now: nat)
    requires EndsIn(r, clock, now, DataTx)
    ensures Shrinks(cfg, r, clock, Ended(r, OnDataTx(cfg, r.node, TxComplete, now)), now)
  {
  }

  lemma ReceiverTxEnds(cfg: Config, r: Rig, clock: nat, now: nat)
    requires Ends(r, clock, now) && r.node.s.conn == Connected
    requires var d := r.node.s.dflow;
      d.TurnReqTx? || d.TurnAckTx? || d.KeepaliveTx? || d.KeepaliveAckTx? || d.ModeAckTx?
    ensures Shrinks(cfg, r, clock, Ended(r, OnDflow(cfg, r.node, TxComplete, now)), now)
  {
    var n, ev := r.node, TxComplete;
    match n.s.dflow
    case TurnReqTx => assert OnDflow(cfg, n, ev, now) == OnTurnReqTx(n, ev, now);
    case TurnAckTx => assert OnDflow(cfg, n, ev, now) == OnTurnAckTx(n, ev, now);
    case KeepaliveTx => ProbeTxEnds(cfg, r, clock, now);
    case KeepaliveAckTx => ProbeTxEnds(cfg, r, clock, now);
    case ModeAckTx => assert OnDflow(cfg, n, ev, now) == OnModeAckTx(n, ev, now);
  }

  lemma ProbeTxEnds(cfg: Config, r: Rig, clock: nat, now: nat)
    requires Ends(r, clock, now) && r.node.s.conn == Connected
    requires r.node.s.dflow.KeepaliveTx? || r.node.s.dflow.KeepaliveAckTx?
    ensures Shrinks(cfg, r, clock, Ended(r, OnDflow(cfg, r.node, TxComplete, now)), now)
  {
    if r.node.s.dflow.KeepaliveTx? {
      assert OnDflow(cfg, r.node, TxComplete, now) == OnKeepaliveTx(r.node, TxComplete, now);
    } else {
      assert OnDflow(cfg, r.node, TxComplete, now) == OnKeepaliveAckTx(cfg, r.node, TxComplete, now);
    }
  }

  /** Where nothing is being sent, the end of a late transmission changes nothing. */
  lemma WaitingEnds(cfg: Config, r: Rig, clock: nat, now: nat)
    requires Ends(r, clock, now) && r.node.s.conn == Connected
    requires var d := r.node.s.dflow;
      d.WaitAck? || d.IdleIrs? || d.DataRx? || d.TurnReqWait? || d.ModeReqWait? || d.KeepaliveWait?
    ensures Shrinks(cfg, r, clock, Ended(r, OnDflow(cfg, r.node, TxComplete, now)), now)
  {
    assert OnDflow(cfg, r.node, TxComplete, now) == r.node;
    ClockShrinks(cfg, r.node.s, clock, now);
  }

  lemma DflowEnds(cfg: Config, r: Rig, clock: nat, now: nat)
    requires Ends(r, clock, now) && r.node.s.conn == Connected
    ensures Shrinks(cfg, r, clock, Ended(r, OnDflow(cfg, r.node, TxComplete, now)), now)
  {
    match r.node.s.dflow
    case DataTx => DataTxEnds(cfg, r, clock, now);
    case AckTx => AckTxEnds(cfg, r, clock, now);
    case ModeReqTx => ModeReqTxEnds(cfg, r, clock, now);
    case TurnReqTx => ReceiverTxEnds(cfg, r, clock, now);
    case TurnAckTx => ReceiverTxEnds(cfg, r, clock, now);
    case KeepaliveTx => ReceiverTxEnds(cfg, r, clock, now);
    case KeepaliveAckTx => ReceiverTxEnds(cfg, r, clock, now);
    case ModeAckTx => ReceiverTxEnds(cfg, r, clock, now);
    case _ => WaitingEnds(cfg, r, clock, now);
  }

  lemma OutsideEnds(cfg: Config, r: Rig, clock: nat, now: nat)
    requires Ends(r, clock, now) && r.node.s.conn != Connected
    ensures Shrinks(cfg, r, clock, Ended(r, Dispatch(cfg, r.node, TxComplete, now)), now)
  {
    assert Noted(r.node, TxComplete, now) == r.node;
  }

  lemma TxEndsShrinks(cfg: Config, r: Rig, clock: nat, now: nat)
    requires Ends(r, clock, now)
    ensures Shrinks(cfg, r, clock, Ended(r, Dispatch(cfg, r.node, TxComplete, now)), now)
  {
    var n := r.node;
    if n.s.conn != Connected {
      OutsideEnds(cfg, r, clock, now);
    } else {
      assert Noted(n, TxComplete, now) == n;
      assert Dispatch(cfg, n, TxComplete, now) == OnConnected(cfg, n, TxComplete, now);
      if !DrainExpired(n.s, now) {
        assert OnConnected(cfg, n, TxComplete, now) == OnDflow(cfg, n, TxComplete, now);
        DflowEnds(cfg, r, clock, now);
      }
    }
  }

  // ------------------------------------------------------------------ every silent run ends

  /** One thing that happens to a station with a silent peer: the call ends, or it goes on and
      the measure shrinks. */
  lemma SilentStepShrinks(cfg: Config, r: Rig, clock: nat, h: Happening, now: nat)
    requires RigSound(r) && Underway(r.node.s) && Silent(r, h, now) && 0 < now && clock <= now
    ensures RigSound(After(cfg, r, h, now)) && Shrinks(cfg, r, clock, After(cfg, r, h, now), now)
  {
    AfterIsSound(cfg, r, h, now);
    match h
    case KeyUp(rest) => KeyUpShrinks(cfg, r, clock, rest, now);
    case TxEnds => TxEndsShrinks(cfg, r, clock, now);
    case Tick => TickShrinks(cfg, r, clock, now);
  }

  /** Until the call is over, something is left to happen: no silent run gets stuck. */
  lemma SilentNeverStuck(r: Rig)
    requires RigSound(r) && Underway(r.node.s)
    ensures exists h, now: nat :: Silent(r, h, now)
  {
    if r.onAir {
      assert Silent(r, TxEnds, 0);
    } else if r.node.queue != [] {
      assert Silent(r, KeyUp([]), 0);
    } else {
      assert Silent(r, Tick, r.node.s.deadline.ms);
    }
  }

  datatype Moment = Moment(rig: Rig, clock: nat)

  /** Time does not run back, and while the call is underway one silent thing happens. */
  ghost predicate SilentStep(cfg: Config, m: Moment, m': Moment) {
    && 0 < m'.clock && m.clock <= m'.clock
    && exists h :: Silent(m.rig, h, m'.clock) && m'.rig == After(cfg, m.rig, h, m'.clock)
  }

  lemma SilentMomentShrinks(cfg: Config, m: Moment, m': Moment)
    requires RigSound(m.rig) && Underway(m.rig.node.s) && SilentStep(cfg, m, m')
    ensures RigSound(m'.rig) && Shrinks(cfg, m.rig, m.clock, m'.rig, m'.clock)
  {
    var h :| Silent(m.rig, h, m'.clock) && m'.rig == After(cfg, m.rig, h, m'.clock);
    SilentStepShrinks(cfg, m.rig, m.clock, h, m'.clock);
  }

  ghost predicate SilentFrom(cfg: Config, run: nat -> Moment, i: nat) {
    forall k: nat :: k >= i && Underway(run(k).rig.node.s) ==> SilentStep(cfg, run(k), run(k + 1))
  }

  function MeasureAt(cfg: Config, run: nat -> Moment, i: nat): Measure { MeasureOf(cfg, run(i).rig, run(i).clock) }

  /** Every silent run reaches LISTENING or DISCONNECTED, whatever the order and the timing:
      an endless sequence of silent steps cannot keep the call underway. */
  lemma {:induction false} SilentRunEnds(cfg: Config, run: nat -> Moment, i: nat) returns (j: nat)
    requires RigSound(run(i).rig) && Underway(run(i).rig.node.s)
    requires SilentFrom(cfg, run, i)
    ensures j > i && Over(run(j).rig.node.s)
    decreases
      MeasureAt(cfg, run, i).phase, MeasureAt(cfg, run, i).budget, MeasureAt(cfg, run, i).stage,
      MeasureAt(cfg, run, i).retries, MeasureAt(cfg, run, i).rank, MeasureAt(cfg, run, i).frames
  {
    assert SilentStep(cfg, run(i), run(i + 1));
    SilentMomentShrinks(cfg, run(i), run(i + 1));
    if Over(run(i + 1).rig.node.s) {
      j := i + 1;
    } else {
      j := SilentRunEnds(cfg, run, i + 1);
    }
  }
}
