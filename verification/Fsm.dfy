/** datalink_arq/arq_fsm.c as functions on values: one function for each static function
    and one for each state's part of the dispatch. `now` is the uptime of the dispatch. */
module Fsm {
  import opened Common
  import opened ArqTypes

  // ------------------------------------------------------------------ entering states

  function SessEnter(n: Node, conn: Conn, deadline: Deadline, timer: Timer, now: nat): Node {
    var s := n.s.(conn := conn, deadline := deadline, deadlineEvent := timer);
    var s := if conn != Connected then s.(setup := Setup(false, false))
             else s.(lastProgress := now);
    var s := if conn.Disconnected? || conn.Listening?
             then s.(dflow := IdleIss, peerTxMode := s.initialMode, win := s.win.(inflight := 0)) else s;
    n.(s := s)
  }

  function DflowEnter(n: Node, dflow: Dflow, deadline: Deadline, timer: Timer): Node {
    n.(s := n.s.(dflow := dflow, deadline := deadline, deadlineEvent := timer))
  }

  function RetryMs(mode: int): nat {
    match Timing(mode) case Some(t) => t.retryMs case None => 7000
  }

  function AckTimeoutMs(mode: int, fallback: nat): nat {
    match Timing(mode) case Some(t) => t.ackTimeoutMs case None => fallback
  }

  function ControlRetryAt(now: nat): Deadline { At(now + RetryMs(CONTROL_MODE)) }

  // ------------------------------------------------------------------ sending

  function Send(n: Node, f: Frame): Node { n.(queue := n.queue + [f]) }

  function Backlog(n: Node): nat { |n.ring| }

  function SendAck(n: Node): Node { Send(n, AckFrame(n.s.sid, n.s.rxExpected, Backlog(n) > 0)) }

  /** tx_read: the oldest bytes of the ring, at most `len`. */
  function ReadLen(ring: seq<bv8>, len: nat): nat { if |ring| > len then len else |ring| }

  /** Room for user bytes in a frame of the current mode. */
  function UserBytes(mode: int): int {
    match Timing(mode) case Some(t) => t.payloadBytes - FRAME_HDR_SIZE case None => 0
  }

  function BurstMax(cfg: Config, s: Session, now: nat): nat {
    if now < s.startupUntil then 1
    else if cfg.burstFrames < 1 then 1
    else if cfg.burstFrames > BURST_MAX then BURST_MAX
    else cfg.burstFrames
  }

  /** One fresh frame at the end of the window. */
  function AddSlot(n: Node, userBytes: nat): Node
    requires userBytes > 0
  {
    var k := ReadLen(n.ring, userBytes);
    var chunk := n.ring[..k];
    n.(ring := n.ring[k..], chunks := n.chunks + [chunk],
       s := n.s.(txSeq := Next(n.s.txSeq), win := n.s.win.(
         slots := n.s.win.slots + [Slot(n.s.txSeq, n.s.rxExpected, chunk, userBytes)],
         inflight := n.s.win.inflight + k)))
  }

  /** Tops up the window with fresh frames while there is room and backlog. */
  function TopUp(n: Node, userBytes: nat, limit: nat): Node
    requires userBytes > 0
    decreases limit - |n.s.win.slots|
  {
    if |n.s.win.slots| >= limit || n.ring == [] then n
    else TopUp(AddSlot(n, userBytes), userBytes, limit)
  }

  function BuiltFrame(s: Session, slot: Slot, last: bool): Frame {
    DataFrame(s.sid, slot.seqNo, slot.ack, slot.payload, slot.userBytes, s.payloadMode, last)
  }

  /** The window's frames in order; the last one ends the burst. */
  function BurstFrames(s: Session): (r: seq<Frame>)
    ensures |r| == |s.win.slots|
  {
    seq(|s.win.slots|, i requires 0 <= i < |s.win.slots| => BuiltFrame(s, s.win.slots[i], i == |s.win.slots| - 1))
  }

  function SendDataBurst(cfg: Config, n: Node, now: nat): Node {
    if UserBytes(n.s.payloadMode) <= 0 then n
    else
      var m := TopUp(n, UserBytes(n.s.payloadMode), BurstMax(cfg, n.s, now));
      m.(queue := m.queue + BurstFrames(m.s))
  }

  // ------------------------------------------------------------------ receiving

  function SeePeerSnr(link: Link, snr: Snr): Link {
    match snr
    case None => link
    case Some(x10) => link.(peerSnrX10 := x10, peerSnrValid := true)
  }

  predicate Fresh(s: Session, ev: Event)
    requires ev.RxData?
  {
    ev.seqNo == s.rxExpected
  }

  /** deliver_rx_checked: delivers and advances only on the expected sequence number. */
  function DeliverChecked(n: Node, ev: Event): Node
    requires ev.RxData?
  {
    if !Fresh(n.s, ev) then n
    else n.(delivered := n.delivered + [ev.payload], s := n.s.(rxExpected := Next(ev.seqNo)))
  }

  function ArmAckDeadline(n: Node, ev: Event, now: nat): Node
    requires ev.RxData?
  {
    var frameMs := match Timing(n.s.peerTxMode) case Some(t) => t.frameMs case None => 5000;
    var wait := if ev.burstEnd then CHANNEL_GUARD_MS else frameMs * 3 / 2;
    DflowEnter(n, DataRx, At(now + wait), AckTimer)
  }

  /** A DATA frame received while idle, as receiver, or waiting for the turn. */
  function ReceiveData(n: Node, ev: Event, now: nat): Node
    requires ev.RxData?
  {
    var m := n.(s := n.s.(link := SeePeerSnr(n.s.link, ev.snr), peerTxMode := ev.mode));
    var m := DeliverChecked(m, ev);
    var hasData := if Fresh(n.s, ev) then ev.hasData else true;
    var m := m.(s := m.s.(lastRx := now, turn := m.s.turn.(peerHasData := hasData)));
    ArmAckDeadline(m, ev, now)
  }

  // ------------------------------------------------------------------ choosing a mode

  function ModeRank(mode: int): nat {
    if mode == QAM16FM then 6
    else if mode == QAM16C2 then 5
    else if mode == DATAC17 then 4
    else if mode == DATAC1 then 3
    else if mode == DATAC3 then 2
    else if mode == DATAC4 then 1
    else 0
  }

  predicate Wideband(mode: int) { mode == DATAC1 || mode == DATAC17 || mode == QAM16C2 || mode == QAM16FM }

  predicate BandwidthAllows(narrow: bool, mode: int) { Wideband(mode) ==> !narrow }

  function ClampToBandwidth(narrow: bool, mode: int): int {
    if BandwidthAllows(narrow, mode) then mode else DATAC3
  }

  const SNR_HYST: real := 5.0

  function SnrFloor(mode: int): real {
    if mode == QAM16FM then 14.5
    else if mode == QAM16C2 then 13.0
    else if mode == DATAC17 then 7.0
    else if mode == DATAC1 then 3.0
    else if mode == DATAC3 then -1.0
    else if mode == DATAC4 then -6.0
    else -100.0
  }

  function BacklogMin(mode: int): nat {
    if mode == QAM16FM then 200
    else if mode == QAM16C2 then 1173
    else if mode == DATAC17 then 503
    else if mode == DATAC1 then 126
    else if mode == DATAC3 then 56
    else if mode == DATAC4 then 31
    else 0
  }

  function PeerSnr(link: Link): real { link.peerSnrX10 as real / 10.0 }

  /** The link supports `mode`: its floor, with hysteresis when it would be a step up. */
  predicate Supports(mode: int, currentRank: nat, snr: real, backlog: nat) {
    snr >= SnrFloor(mode) + (if currentRank >= ModeRank(mode) then 0.0 else SNR_HYST) && backlog >= BacklogMin(mode)
  }

  function SelectBestMode(narrow: bool, link: Link, payloadMode: int, backlog: nat): int {
    var mode := ClampToBandwidth(narrow, payloadMode);
    if link.badRun >= HARD_LOSS_THRESHOLD && ModeRank(mode) > 0 then DATAC15
    else if Timing(mode).Some? && backlog <= UserBytes(mode) then mode
    else
      var snr, rank := PeerSnr(link) + link.olla, ModeRank(mode);
      if !narrow && Supports(QAM16FM, rank, snr, backlog) then QAM16FM
      else if !narrow && Supports(QAM16C2, rank, snr, backlog) then QAM16C2
      else if !narrow && Supports(DATAC17, rank, snr, backlog) then DATAC17
      else if !narrow && Supports(DATAC1, rank, snr, backlog) then DATAC1
      else if Supports(DATAC3, rank, snr, backlog) then DATAC3
      else if Supports(DATAC4, rank, snr, backlog) then DATAC4
      else DATAC15
  }

  function OllaUpdate(offset: real, clean: bool): real {
    var o := if clean then offset + 3.0 / 7.0 else offset - 1.0;
    if o < -20.0 then -20.0 else if o > 3.0 then 3.0 else o
  }

  /** The forward link comfortably carries the mode: a retry was a lost ACK. */
  predicate ForwardLinkFine(link: Link, mode: int) {
    link.peerSnrValid && PeerSnr(link) >= SnrFloor(mode) + 2.0
  }

  function RecordOutcome(link: Link, mode: int, clean: bool): Link {
    if !clean && ForwardLinkFine(link, mode) then link
    else
      var l := link.(olla := OllaUpdate(link.olla, clean));
      if !clean then
        l.(speedLevel := if l.speedLevel > 0 then l.speedLevel - 1 else 0, successes := 0, badRun := l.badRun + 1)
      else
        var l := l.(badRun := 0, successes := l.successes + 1);
        if l.successes >= LADDER_UP_SUCCESSES && l.speedLevel < LADDER_LEVELS - 1
        then l.(speedLevel := l.speedLevel + 1, successes := 0) else l
  }

  /** The original's policy for a narrow (500 Hz) or a full-width session. */
  function SourcePolicy(narrow: bool): Policy {
    Policy((link, mode, backlog: nat, now: nat) => ChooseMode(narrow, link, mode, backlog, now),
           (link, mode, clean) => RecordOutcome(link, mode, clean))
  }

  /** The configuration as shipped. */
  function Shipped(narrow: bool): Config { Config(SourcePolicy(narrow), 1, 4, 4, 10, 2, 180000, 45000, 8000) }

  predicate CleanWindow(cfg: Config, s: Session) { !s.win.retx && s.retries == cfg.dataRetries }

  /** The gates maybe_upgrade_mode passes before it picks a mode. */
  predicate MayNegotiate(s: Session, now: nat) {
    now >= s.startupUntil && s.win.slots == [] && (s.link.peerSnrValid || s.link.badRun >= HARD_LOSS_THRESHOLD)
  }

  function ChooseMode(narrow: bool, link: Link, payloadMode: int, backlog: nat, now: nat): Choice {
    var mode := SelectBestMode(narrow, link, payloadMode, backlog);
    if mode == payloadMode then Keep(link.(upgradeCount := 0))
    else if ModeRank(mode) > ModeRank(payloadMode) && now < link.holdUntil then Keep(link)
    else if link.upgradeCount + 1 < MODE_SWITCH_HYST_COUNT then Keep(link.(upgradeCount := link.upgradeCount + 1))
    else
      var l := if ModeRank(mode) < ModeRank(payloadMode) && link.badRun >= HARD_LOSS_THRESHOLD
               then link.(holdUntil := now + MODE_HOLD_AFTER_DOWNGRADE_MS, badRun := 0) else link;
      Switch(mode, l.(upgradeCount := 0))
  }

  /** maybe_upgrade_mode: the flag tells whether a negotiation was started. */
  function MaybeUpgrade(cfg: Config, n: Node, now: nat): (Node, bool) {
    if !MayNegotiate(n.s, now) then (n, false)
    else
      match cfg.policy.choose(n.s.link, n.s.payloadMode, Backlog(n), now)
      case Keep(link) => (n.(s := n.s.(link := link)), false)
      case Switch(mode, link) =>
        var s := n.s.(link := link, pendingTxMode := mode, retries := MODE_REQ_RETRIES);
        (DflowEnter(Send(n.(s := s), ModeReqFrame(s.sid, mode)), ModeReqTx, Never, Retry), true)
  }

  // ------------------------------------------------------------------ roles

  function StartDisconnect(cfg: Config, n: Node, now: nat): Node {
    var m := n.(s := n.s.(teardown := n.s.teardown.(disconnect := false), retries := cfg.disconnectRetries));
    SessEnter(m, Disconnecting, At(now + CHANNEL_GUARD_MS), AckTimer, now)
  }

  function EnterIdleIss(cfg: Config, n: Node, now: nat): Node {
    var m := n.(s := n.s.(retries := cfg.dataRetries));
    if Backlog(m) > 0 then SendDataBurst(cfg, DflowEnter(m, DataTx, Never, Retry), now)
    else if m.s.teardown.disconnect then StartDisconnect(cfg, m, now)
    else DflowEnter(m, IdleIss, Never, Retry)
  }

  function EnterIdleIssGuarded(cfg: Config, n: Node, now: nat): Node {
    var m := n.(s := n.s.(retries := cfg.dataRetries));
    if Backlog(m) > 0 then
      var (u, started) := MaybeUpgrade(cfg, m, now);
      if started then u else DflowEnter(u, DataTx, At(now + ISS_POST_ACK_GUARD_MS), AckTimer)
    else if m.s.teardown.disconnect then StartDisconnect(cfg, m, now)
    else DflowEnter(m, IdleIss, Never, Retry)
  }

  function EnterIdleIrs(n: Node, now: nat): Node {
    DflowEnter(n, IdleIrs, At(now + PEER_PAYLOAD_HOLD_MS), PeerBacklog)
  }

  /** The call is over: the notified application's TX ring is emptied. */
  function EndCall(n: Node, now: nat): Node {
    SessEnter(n.(ring := []), if n.s.teardown.listen then Listening else Disconnected, Never, Retry, now)
  }

  function ArmConnectConfirm(n: Node, now: nat): Node {
    DflowEnter(n.(s := n.s.(setup := n.s.setup.(confirm := true))), AckTx, At(now + ISS_POST_ACK_GUARD_MS), AckTimer)
  }

  function YieldTurn(n: Node, now: nat): Node { DflowEnter(n, TurnAckTx, At(now + CHANNEL_GUARD_MS), AckTimer) }

  function RequestTurn(n: Node, now: nat): Node {
    var m := Send(n, TurnReqFrame(n.s.sid, n.s.rxExpected));
    DflowEnter(m.(s := m.s.(retries := TURN_REQ_RETRIES)), TurnReqTx, ControlRetryAt(now), Retry)
  }

  function AcceptModeReq(n: Node, mode: int, now: nat): Node {
    DflowEnter(n.(s := n.s.(peerTxMode := mode)), ModeAckTx, At(now + CHANNEL_GUARD_MS), AckTimer)
  }

  /** What an implicit ACK does to the window: everything in it counts as delivered. */
  function ClearWindow(cfg: Config, s: Session): Session {
    s.(link := cfg.policy.record(s.link, s.payloadMode, CleanWindow(cfg, s)),
       win := Window([], false, 0), retries := cfg.dataRetries)
  }

  // ------------------------------------------------------------------ level 1, outside a connection

  function FreshModes(s: Session): Session {
    s.(payloadMode := DATAC15, peerTxMode := DATAC15,
       link := s.link.(speedLevel := 0, successes := 0, olla := 0.0, badRun := 0, holdUntil := 0))
  }

  /** session_id = (uptime & 0x7F) | 1 */
  function NewSessionId(now: nat): Byte { (now % 128) / 2 * 2 + 1 }

  function OnDisconnected(cfg: Config, n: Node, ev: Event, now: nat): Node {
    match ev
    case TxComplete =>
      if n.s.teardown.notify then EndCall(n.(s := n.s.(teardown := n.s.teardown.(notify := false))), now) else n
    case AppListen => SessEnter(n, Listening, Never, Retry, now)
    case AppConnect =>
      var s := FreshModes(n.s.(sid := NewSessionId(now), retries := cfg.callRetries,
                                   teardown := n.s.teardown.(disconnect := false, drainUntil := 0)));
      var m := Send(n.(s := s), CallFrame(s.sid, false));
      SessEnter(m, Calling, At(now + cfg.callIntervalMs), Retry, now)
    case _ => n
  }

  /** The counters and buffers of a new connection. */
  function FreshSession(cfg: Config, s: Session, role: Role, now: nat): Session {
    s.(role := role, txSeq := 0, rxExpected := 0, win := Window([], false, 0),
       retries := cfg.dataRetries, payloadMode := DATAC15, peerTxMode := DATAC15, pendingTxMode := 0,
       link := s.link.(upgradeCount := 0, speedLevel := 0, successes := 0), startupUntil := now + STARTUP_MAX_MS)
  }

  function CancelDisconnect(n: Node): Node { n.(s := n.s.(teardown := n.s.teardown.(disconnect := false))) }

  function BecomeCallee(cfg: Config, n: Node, ev: Event, now: nat): Node {
    var m := SessEnter(n.(s := FreshSession(cfg, n.s, Callee, now)), Connected, Never, Retry, now);
    var m := EnterIdleIrs(m, now);
    if ev.RxData? then OnDflow(cfg, m, ev, now) else m
  }

  function OnListening(cfg: Config, n: Node, ev: Event, now: nat): Node {
    match ev
    case RxCall(sid) =>
      var s := FreshModes(n.s.(sid := sid, retries := cfg.acceptRetries));
      SessEnter(n.(s := s), Accepting, At(now + CHANNEL_GUARD_MS), Retry, now)
    case RxAccept(sid) => if sid == n.s.sid then Send(n, DisconnectFrame(n.s.sid)) else n
    case AppConnect => OnDisconnected(cfg, SessEnter(n, Disconnected, Never, Retry, now), ev, now)
    case AppStopListen => SessEnter(n, Disconnected, Never, Retry, now)
    case RxData(sid, _, _, _, _, _, _) =>
      if sid == n.s.sid then BecomeCallee(cfg, CancelDisconnect(n), ev, now) else n
    case RxAck(sid, _, _, _) =>
      if sid == n.s.sid then BecomeCallee(cfg, CancelDisconnect(n), ev, now) else n
    case _ => n
  }

  function OnCalling(cfg: Config, n: Node, ev: Event, now: nat): Node {
    match ev
    case RxAccept(sid) =>
      if sid != n.s.sid then n
      else
        var s := FreshSession(cfg, n.s, Caller, now).(
          teardown := n.s.teardown.(disconnect := false), setup := Setup(false, Backlog(n) > 0));
        var m := SessEnter(n.(s := s), Connected, Never, Retry, now);
        if Backlog(n) > 0 then EnterIdleIssGuarded(cfg, m, now) else ArmConnectConfirm(m, now)
    case TimerFired(Retry) =>
      if n.s.retries > 0 then
        var m := Send(n.(s := n.s.(retries := n.s.retries - 1)), CallFrame(n.s.sid, false));
        m.(s := m.s.(deadline := At(now + cfg.callIntervalMs)))
      else EndCall(n, now)
    case AppDisconnect => EndCall(n, now)
    case _ => n
  }

  function ForgetOlla(n: Node): Node { n.(s := n.s.(link := n.s.link.(olla := 0.0))) }

  function OnAccepting(cfg: Config, n: Node, ev: Event, now: nat): Node {
    match ev
    case RxData(_, _, _, _, _, _, _) => BecomeCallee(cfg, ForgetOlla(n), ev, now)
    case RxAck(_, _, _, _) => BecomeCallee(cfg, ForgetOlla(n), ev, now)
    case RxCall(_) => n.(s := n.s.(retries := cfg.acceptRetries))
    case TxComplete => n.(s := n.s.(deadline := At(now + ACCEPT_RX_WINDOW_MS)))
    case TimerFired(Retry) =>
      if n.s.retries > 0 then
        var m := Send(n.(s := n.s.(retries := n.s.retries - 1)), CallFrame(n.s.sid, true));
        m.(s := m.s.(deadline := At(now + cfg.callIntervalMs)))
      else SessEnter(n, Listening, Never, Retry, now)
    case AppConnect => OnDisconnected(cfg, SessEnter(n, Disconnected, Never, Retry, now), ev, now)
    case AppDisconnect => EndCall(n, now)
    case _ => n
  }

  function OnDisconnecting(n: Node, ev: Event, now: nat): Node {
    match ev
    case TimerFired(AckTimer) =>
      var m := Send(n, DisconnectFrame(n.s.sid));
      m.(s := m.s.(deadline := ControlRetryAt(now), deadlineEvent := Retry))
    case RxDisconnect(_) => EndCall(n, now)
    case TimerFired(Retry) =>
      if n.s.retries > 0 then
        var m := Send(n.(s := n.s.(retries := n.s.retries - 1)), DisconnectFrame(n.s.sid));
        m.(s := m.s.(deadline := ControlRetryAt(now)))
      else EndCall(n, now)
    case _ => n
  }

  // ------------------------------------------------------------------ level 1, connected

  predicate DrainExpired(s: Session, now: nat) {
    s.teardown.disconnect && s.teardown.drainUntil != 0 && now >= s.teardown.drainUntil
  }

  predicate KeepaliveBusy(dflow: Dflow) { dflow.KeepaliveTx? || dflow.KeepaliveWait? || dflow.KeepaliveAckTx? }

  function OnConnected(cfg: Config, n: Node, ev: Event, now: nat): Node {
    if DrainExpired(n.s, now) then StartDisconnect(cfg, n.(s := n.s.(teardown := n.s.teardown.(drainUntil := 0))), now)
    else match ev
      case AppDisconnect =>
        if Backlog(n) > 0 || n.s.dflow.DataTx? || n.s.dflow.WaitAck? then
          n.(s := n.s.(teardown := n.s.teardown.(disconnect := true, drainUntil := now + cfg.drainMs)))
        else StartDisconnect(cfg, n, now)
      case RxDisconnect(_) =>
        var m := Send(n, DisconnectFrame(n.s.sid));
        var m := m.(s := m.s.(teardown := m.s.teardown.(disconnect := false, notify := true)));
        SessEnter(m, Disconnected, Never, Retry, now)
      case RxAccept(sid) =>
        if n.s.role == Caller && sid == n.s.sid && n.s.dflow == IdleIss && !n.s.setup.confirm
        then ArmConnectConfirm(n, now) else OnDflow(cfg, n, ev, now)
      case TimerFired(Keepalive) =>
        var m := Send(n.(s := n.s.(probe := n.s.probe.(fromIrs := false))), KeepaliveFrame(n.s.sid));
        DflowEnter(m, KeepaliveTx, ControlRetryAt(now), Retry)
      case RxKeepalive(_) =>
        if KeepaliveBusy(n.s.dflow) then OnDflow(cfg, n, ev, now)
        else
          var m := n.(s := n.s.(probe := n.s.probe.(misses := 0)));
          if n.s.dflow.IdleIrs? || n.s.dflow.IdleIss? then
            var m := m.(s := m.s.(probe := m.s.probe.(ackFromIrs := n.s.dflow.IdleIrs?)));
            DflowEnter(m, KeepaliveAckTx, At(now + CHANNEL_GUARD_MS), AckTimer)
          else Send(m, KeepaliveAckFrame(n.s.sid))
      case _ => OnDflow(cfg, n, ev, now)
  }

  // ------------------------------------------------------------------ level 2

  function OnDflow(cfg: Config, n: Node, ev: Event, now: nat): Node {
    match n.s.dflow
    case IdleIss => OnIdleIss(cfg, n, ev, now)
    case DataTx => OnDataTx(cfg, n, ev, now)
    case WaitAck => OnWaitAck(cfg, n, ev, now)
    case IdleIrs => OnIdleIrs(n, ev, now)
    case DataRx => OnDataRx(n, ev, now)
    case AckTx => OnAckTx(cfg, n, ev, now)
    case TurnReqTx => OnTurnReqTx(n, ev, now)
    case TurnReqWait => OnTurnReqWait(cfg, n, ev, now)
    case TurnAckTx => OnTurnAckTx(n, ev, now)
    case KeepaliveTx => OnKeepaliveTx(n, ev, now)
    case KeepaliveWait => OnKeepaliveWait(cfg, n, ev, now)
    case KeepaliveAckTx => OnKeepaliveAckTx(cfg, n, ev, now)
    case ModeReqTx => OnModeReqTx(cfg, n, ev, now)
    case ModeReqWait => OnModeReqWait(cfg, n, ev, now)
    case ModeAckTx => OnModeAckTx(n, ev, now)
  }

  function OnIdleIss(cfg: Config, n: Node, ev: Event, now: nat): Node {
    match ev
    case AppDataReady =>
      if Backlog(n) == 0 then n
      else if n.s.setup.guard then
        var m := n.(s := n.s.(setup := n.s.setup.(guard := false)));
        DflowEnter(m, DataTx, At(now + ISS_POST_ACK_GUARD_MS), AckTimer)
      else SendDataBurst(cfg, DflowEnter(n, DataTx, Never, Retry), now)
    case RxData(_, _, _, _, _, _, _) => ReceiveData(n, ev, now)
    case RxTurnReq(_) => YieldTurn(n, now)
    case _ => n
  }

  function OnDataTx(cfg: Config, n: Node, ev: Event, now: nat): Node {
    match ev
    case TimerFired(AckTimer) => SendDataBurst(cfg, n, now)
    case TxComplete => DflowEnter(n, WaitAck, At(now + AckTimeoutMs(n.s.payloadMode, 9000)), AckTimer)
    case RxTurnReq(_) => if n.s.deadlineEvent == AckTimer && n.s.deadline != Never then YieldTurn(n, now) else n
    case _ => n
  }

  /** How many frames of the window a cumulative ACK confirms. */
  function Confirmed(window: seq<Slot>, ack: Byte): (k: nat)
    ensures k <= |window|
  {
    if window == [] then 0
    else
      var dist := (ack - window[0].seqNo) % 256;
      if 1 <= dist <= |window| then dist else 0
  }

  function PayloadSum(window: seq<Slot>): nat {
    if window == [] then 0 else PayloadSum(window[..|window| - 1]) + |window[|window| - 1].payload|
  }

  /** Slides the window past `k` confirmed frames. */
  function Slide(s: Session, k: nat): Session
    requires k <= |s.win.slots|
  {
    var rest := s.win.inflight - PayloadSum(s.win.slots[..k]);
    s.(win := s.win.(slots := s.win.slots[k..], inflight := if rest < 0 then 0 else rest))
  }

  /** The window slides; what is left goes out again, else the turn may change. */
  function AckConfirms(cfg: Config, n: Node, k: nat, hasData: bool, now: nat): Node
    requires k <= |n.s.win.slots|
  {
    var clean := CleanWindow(cfg, n.s);
    var s := Slide(n.s, k);
    var s := s.(retries := cfg.dataRetries, lastProgress := now, turn := s.turn.(peerHasData := hasData));
    if s.win.slots != [] then
      var m := n.(s := s.(win := s.win.(retx := true), link := cfg.policy.record(s.link, s.payloadMode, false)));
      DflowEnter(m, DataTx, At(now + ISS_POST_ACK_GUARD_MS), AckTimer)
    else
      var m := n.(s := s.(win := s.win.(retx := false), link := cfg.policy.record(s.link, s.payloadMode, clean)));
      if hasData then EnterIdleIrs(m, now) else EnterIdleIssGuarded(cfg, m, now)
  }

  function OnAck(cfg: Config, n: Node, ev: Event, now: nat): Node
    requires ev.RxAck?
  {
    var k := Confirmed(n.s.win.slots, ev.ack);
    var m := n.(s := n.s.(link := SeePeerSnr(n.s.link, ev.snr)));
    if k == 0 then m else AckConfirms(cfg, m, k, ev.hasData, now)
  }

  /** Raises the failure count so that mode selection considers a slower mode. */
  function PushDown(link: Link): Link {
    if link.badRun < RETRY_DOWNGRADE_THRESHOLD then link.(badRun := RETRY_DOWNGRADE_THRESHOLD) else link
  }

  function OnAckTimeout(cfg: Config, n: Node, now: nat): Node {
    var s := n.s;
    if s.retries > 0 then
      var left := if s.teardown.disconnect && s.retries > 1 then 1 else s.retries;
      var m := n.(s := s.(retries := left - 1, win := s.win.(retx := true)));
      SendDataBurst(cfg, DflowEnter(m, DataTx, Never, Retry), now)
    else if now - s.lastProgress >= cfg.noProgressMs || s.teardown.disconnect then
      var m := Send(n.(s := s.(teardown := s.teardown.(disconnect := false))), DisconnectFrame(s.sid));
      SessEnter(m.(s := m.s.(retries := cfg.disconnectRetries)), Disconnecting, ControlRetryAt(now), Retry, now)
    else
      var m := n.(s := s.(retries := cfg.dataRetries, link := PushDown(s.link)));
      var (u, started) := MaybeUpgrade(cfg, m, now);
      if started then u else SendDataBurst(cfg, DflowEnter(u, DataTx, Never, Retry), now)
  }

  /** DATA while waiting for an ACK: new data is an implicit ACK, a duplicate is not. */
  function OnDataInWaitAck(cfg: Config, n: Node, ev: Event, now: nat): Node
    requires ev.RxData?
  {
    var m := n.(s := n.s.(link := SeePeerSnr(n.s.link, ev.snr), peerTxMode := ev.mode, lastRx := now));
    if Fresh(n.s, ev) then
      var s := ClearWindow(cfg, m.s).(lastProgress := now, turn := m.s.turn.(peerHasData := ev.hasData));
      ArmAckDeadline(DeliverChecked(m.(s := s), ev), ev, now)
    else SendDataBurst(cfg, DflowEnter(m, DataTx, Never, Retry), now)
  }

  function OnWaitAck(cfg: Config, n: Node, ev: Event, now: nat): Node {
    match ev
    case RxAck(_, _, _, _) => OnAck(cfg, n, ev, now)
    case RxTurnReq(_) => YieldTurn(n, now)
    case TimerFired(AckTimer) => OnAckTimeout(cfg, n, now)
    case RxData(_, _, _, _, _, _, _) => OnDataInWaitAck(cfg, n, ev, now)
    case RxModeReq(_, mode) =>
      if PayloadMode(mode) then AcceptModeReq(n.(s := ClearWindow(cfg, n.s)), mode, now) else n
    case _ => n
  }

  function OnIdleIrs(n: Node, ev: Event, now: nat): Node {
    match ev
    case RxData(_, _, _, _, _, _, _) => ReceiveData(n, ev, now)
    case TimerFired(PeerBacklog) =>
      if n.s.lastRx > 0 && now - n.s.lastRx >= IRS_INACTIVITY_MS then
        var m := Send(n.(s := n.s.(probe := n.s.probe.(misses := 0, fromIrs := true))), KeepaliveFrame(n.s.sid));
        DflowEnter(m, KeepaliveTx, ControlRetryAt(now), Retry)
      else if Backlog(n) > 0 then RequestTurn(n, now)
      else EnterIdleIrs(n, now)
    case AppDataReady => RequestTurn(n, now)
    case RxTurnReq(_) => YieldTurn(n, now)
    case RxModeReq(_, mode) => if PayloadMode(mode) then AcceptModeReq(n, mode, now) else n
    case _ => n
  }

  function OnDataRx(n: Node, ev: Event, now: nat): Node {
    match ev
    case TimerFired(AckTimer) =>
      DflowEnter(SendAck(n.(s := n.s.(turn := n.s.turn.(ackHadData := Backlog(n) > 0)))), AckTx, Never, Retry)
    case RxData(_, _, _, _, _, _, _) => ReceiveData(n, ev, now)
    case _ => n
  }

  function OnAckTx(cfg: Config, n: Node, ev: Event, now: nat): Node {
    match ev
    case TimerFired(AckTimer) =>
      if n.s.setup.confirm then DflowEnter(SendAck(n), AckTx, Never, Retry) else n
    case TxComplete =>
      if n.s.setup.confirm then
        var m := n.(s := n.s.(setup := n.s.setup.(confirm := false)));
        if Backlog(m) > 0 then EnterIdleIssGuarded(cfg, m, now) else EnterIdleIss(cfg, m, now)
      else if n.s.turn.peerHasData then EnterIdleIrs(n, now)
      else if n.s.turn.ackHadData then EnterIdleIssGuarded(cfg, n, now)
      else if Backlog(n) > 0 then DflowEnter(n, IdleIrs, At(now + TURN_WAIT_AFTER_ACK_MS), PeerBacklog)
      else EnterIdleIrs(n, now)
    case _ => n
  }

  function OnTurnReqTx(n: Node, ev: Event, now: nat): Node {
    match ev
    case TimerFired(AckTimer) => Send(n, TurnReqFrame(n.s.sid, n.s.rxExpected))
    case TxComplete => DflowEnter(n, TurnReqWait, ControlRetryAt(now), Retry)
    case _ => n
  }

  function OnTurnReqWait(cfg: Config, n: Node, ev: Event, now: nat): Node {
    match ev
    case RxTurnAck(_) => EnterIdleIssGuarded(cfg, n, now)
    case RxData(_, _, _, _, _, _, _) => ReceiveData(n, ev, now)
    case TimerFired(Retry) =>
      if n.s.retries > 0 then
        var m := Send(n.(s := n.s.(retries := n.s.retries - 1)), TurnReqFrame(n.s.sid, n.s.rxExpected));
        DflowEnter(m, TurnReqTx, ControlRetryAt(now), Retry)
      else EnterIdleIrs(n, now)
    case _ => n
  }

  function OnTurnAckTx(n: Node, ev: Event, now: nat): Node {
    match ev
    case TimerFired(AckTimer) => Send(n, TurnAckFrame(n.s.sid))
    case TxComplete => EnterIdleIrs(n, now)
    case _ => n
  }

  function OnKeepaliveTx(n: Node, ev: Event, now: nat): Node {
    match ev
    case TxComplete => DflowEnter(n, KeepaliveWait, ControlRetryAt(now), Retry)
    case _ => n
  }

  function LeaveKeepalive(cfg: Config, n: Node, now: nat): Node {
    var m := n.(s := n.s.(probe := n.s.probe.(misses := 0)));
    if m.s.probe.fromIrs then EnterIdleIrs(m, now) else EnterIdleIssGuarded(cfg, m, now)
  }

  function OnKeepaliveWait(cfg: Config, n: Node, ev: Event, now: nat): Node {
    match ev
    case RxKeepaliveAck(_) => LeaveKeepalive(cfg, n, now)
    case RxKeepalive(_) => LeaveKeepalive(cfg, Send(n, KeepaliveAckFrame(n.s.sid)), now)
    case TimerFired(Retry) =>
      var m := n.(s := n.s.(probe := n.s.probe.(misses := n.s.probe.misses + 1)));
      if m.s.probe.misses >= KEEPALIVE_MISS_LIMIT then
        var m := Send(m, DisconnectFrame(n.s.sid));
        SessEnter(m.(s := m.s.(retries := cfg.disconnectRetries)), Disconnecting, ControlRetryAt(now), Retry, now)
      else DflowEnter(Send(m, KeepaliveFrame(n.s.sid)), KeepaliveTx, ControlRetryAt(now), Retry)
    case _ => n
  }

  function OnKeepaliveAckTx(cfg: Config, n: Node, ev: Event, now: nat): Node {
    match ev
    case TimerFired(AckTimer) => Send(n, KeepaliveAckFrame(n.s.sid))
    case TxComplete => if n.s.probe.ackFromIrs then EnterIdleIrs(n, now) else EnterIdleIssGuarded(cfg, n, now)
    case _ => n
  }

  function OnModeReqTx(cfg: Config, n: Node, ev: Event, now: nat): Node {
    match ev
    case TxComplete =>
      if n.s.pendingTxMode == 0 then
        var m := n.(s := n.s.(retries := cfg.dataRetries));
        if Backlog(m) > 0 then DflowEnter(m, DataTx, At(now + AckTimeoutMs(CONTROL_MODE, 6000)), AckTimer)
        else EnterIdleIss(cfg, m, now)
      else DflowEnter(n, ModeReqWait, ControlRetryAt(now), Retry)
    case _ => n
  }

  /** A confirmed downgrade restarts the hold. */
  function ConfirmMode(link: Link, payloadMode: int, mode: int, now: nat): Link {
    if ModeRank(mode) < ModeRank(payloadMode) && link.holdUntil != 0
    then link.(holdUntil := now + MODE_HOLD_AFTER_DOWNGRADE_MS) else link
  }

  function OnModeReqWait(cfg: Config, n: Node, ev: Event, now: nat): Node {
    match ev
    case RxModeAck(_, mode) =>
      var s := n.s;
      var s := if !PayloadMode(mode) then s
               else s.(link := ConfirmMode(s.link, s.payloadMode, mode, now), payloadMode := mode);
      EnterIdleIssGuarded(cfg, n.(s := s), now)
    case TimerFired(Retry) =>
      if n.s.retries > 0 then
        var m := Send(n.(s := n.s.(retries := n.s.retries - 1)), ModeReqFrame(n.s.sid, n.s.pendingTxMode));
        DflowEnter(m, ModeReqTx, Never, Retry)
      else
        var m := Send(n.(s := n.s.(pendingTxMode := 0)), ModeReqFrame(n.s.sid, n.s.payloadMode));
        DflowEnter(m, ModeReqTx, Never, Retry)
    case _ => n
  }

  function OnModeAckTx(n: Node, ev: Event, now: nat): Node {
    match ev
    case TimerFired(AckTimer) => Send(n, ModeAckFrame(n.s.sid, n.s.peerTxMode))
    case TxComplete => EnterIdleIrs(n, now)
    case _ => n
  }

  // ------------------------------------------------------------------ dispatch

  predicate HearsPeer(ev: Event) {
    ev.RxData? || ev.RxAck? || ev.RxCall? || ev.RxAccept? || ev.RxDisconnect? ||
    ev.RxTurnReq? || ev.RxTurnAck? || ev.RxKeepalive? || ev.RxKeepaliveAck?
  }

  /** A frame of another session; MODE_REQ and MODE_ACK are not checked. */
  predicate WrongSession(s: Session, ev: Event) {
    (s.conn.Connected? || s.conn.Disconnecting?) && HearsPeer(ev) && !ev.RxCall? && !ev.RxAccept? &&
    ev.sid != 0 && ev.sid != s.sid
  }

  /** What the dispatcher notes before looking at the state: when a frame was last heard,
      and whether the application wants to listen. */
  function Noted(n: Node, ev: Event, now: nat): Node {
    if HearsPeer(ev) then n.(s := n.s.(lastRx := now))
    else if ev.AppListen? then n.(s := n.s.(teardown := n.s.teardown.(listen := true)))
    else if ev.AppStopListen? then n.(s := n.s.(teardown := n.s.teardown.(listen := false)))
    else n
  }

  function Handle(cfg: Config, n: Node, ev: Event, now: nat): Node {
    match n.s.conn
    case Disconnected => OnDisconnected(cfg, n, ev, now)
    case Listening => OnListening(cfg, n, ev, now)
    case Calling => OnCalling(cfg, n, ev, now)
    case Accepting => OnAccepting(cfg, n, ev, now)
    case Connected => OnConnected(cfg, n, ev, now)
    case Disconnecting => OnDisconnecting(n, ev, now)
  }

  function Dispatch(cfg: Config, n: Node, ev: Event, now: nat): Node {
    if WrongSession(n.s, ev) then Noted(n, ev, now) else Handle(cfg, Noted(n, ev, now), ev, now)
  }

  /** The event loop firing an expired deadline: it clears the deadline, then dispatches. */
  function FireDeadline(cfg: Config, n: Node, now: nat): Node {
    if n.s.deadline == Never || now < n.s.deadline.ms then n
    else Dispatch(cfg, n.(s := n.s.(deadline := Never)), TimerFired(n.s.deadlineEvent), now)
  }
}
