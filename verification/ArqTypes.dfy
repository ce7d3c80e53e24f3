/** The data of the ARQ link: modes, timings, frames, events and the session record of
    datalink_arq/arq_fsm.h, with times in whole milliseconds. */
module ArqTypes {
  import opened Common

  type Byte = b: int | 0 <= b < 256

  // ------------------------------------------------------------------ modes

  const DATAC1: int := 10
  const DATAC3: int := 12
  const DATAC4: int := 18
  const DATAC15: int := 22
  const DATAC16: int := 23
  const DATAC17: int := 24
  const QAM16C2: int := 25
  const QAM16FM: int := 26
  const CONTROL_MODE: int := DATAC16

  /** One row of arq_mode_table; the burst column lives in Config. */
  datatype ModeTiming = ModeTiming(mode: int, frameMs: nat, ackTimeoutMs: nat, retryMs: nat, payloadBytes: nat)

  const MODE_TABLE: seq<ModeTiming> := [
    ModeTiming(DATAC16, 3740, 7000, 8000, 14),
    ModeTiming(DATAC15, 4400, 11000, 12000, 30),
    ModeTiming(DATAC4, 5800, 13000, 14000, 54),
    ModeTiming(DATAC3, 3820, 11000, 12000, 126),
    ModeTiming(DATAC1, 4810, 12000, 13000, 510),
    ModeTiming(DATAC17, 7400, 14000, 15000, 1180),
    ModeTiming(QAM16C2, 3700, 11000, 12000, 1213),
    ModeTiming(QAM16FM, 450, 7000, 8000, 256)
  ]

  /** arq_protocol_mode_timing */
  function Timing(mode: int): Option<ModeTiming> {
    if mode == DATAC16 then Some(MODE_TABLE[0])
    else if mode == DATAC15 then Some(MODE_TABLE[1])
    else if mode == DATAC4 then Some(MODE_TABLE[2])
    else if mode == DATAC3 then Some(MODE_TABLE[3])
    else if mode == DATAC1 then Some(MODE_TABLE[4])
    else if mode == DATAC17 then Some(MODE_TABLE[5])
    else if mode == QAM16C2 then Some(MODE_TABLE[6])
    else if mode == QAM16FM then Some(MODE_TABLE[7])
    else None
  }

  predicate PayloadMode(mode: int) { Timing(mode).Some? && mode != CONTROL_MODE }

  const FRAME_HDR_SIZE: nat := 8
  const BURST_MAX: nat := 5

  // ------------------------------------------------------------------ constants

  const CHANNEL_GUARD_MS: nat := 700
  const ISS_POST_ACK_GUARD_MS: nat := 900
  const TURN_WAIT_AFTER_ACK_MS: nat := 5000
  const ACCEPT_RX_WINDOW_MS: nat := 9000
  const KEEPALIVE_MISS_LIMIT: nat := 5
  const TURN_REQ_RETRIES: nat := 2
  const MODE_REQ_RETRIES: nat := 2
  const PEER_PAYLOAD_HOLD_MS: nat := 15000
  const IRS_INACTIVITY_MS: nat := 75000
  const MODE_SWITCH_HYST_COUNT: nat := 1
  const STARTUP_MAX_MS: nat := 10000
  const LADDER_LEVELS: nat := 7
  const LADDER_UP_SUCCESSES: nat := 2
  const RETRY_DOWNGRADE_THRESHOLD: nat := 2
  const MODE_HOLD_AFTER_DOWNGRADE_MS: nat := 6000
  const HARD_LOSS_THRESHOLD: nat := 8

  // ------------------------------------------------------------------ states and events

  datatype Conn = Disconnected | Listening | Calling | Accepting | Connected | Disconnecting

  datatype Dflow =
    | IdleIss | DataTx | WaitAck | IdleIrs | DataRx | AckTx
    | TurnReqTx | TurnReqWait | TurnAckTx
    | ModeReqTx | ModeReqWait | ModeAckTx
    | KeepaliveTx | KeepaliveWait | KeepaliveAckTx

  datatype Role = NoRole | Caller | Callee

  datatype Timer = Retry | Timeout | AckTimer | PeerBacklog | Keepalive

  datatype Deadline = Never | At(ms: nat)

  /** The SNR a frame reports back, in tenths of a dB; None when it reports none. */
  type Snr = Option<int>

  datatype Event =
    | AppListen | AppStopListen | AppConnect | AppDisconnect | AppDataReady
    | RxCall(sid: Byte) | RxAccept(sid: Byte)
    | RxAck(sid: Byte, ack: Byte, hasData: bool, snr: Snr)
    | RxData(sid: Byte, seqNo: Byte, payload: seq<bv8>, hasData: bool, burstEnd: bool, mode: int, snr: Snr)
    | RxDisconnect(sid: Byte) | RxTurnReq(sid: Byte) | RxTurnAck(sid: Byte)
    | RxModeReq(sid: Byte, mode: int) | RxModeAck(sid: Byte, mode: int)
    | RxKeepalive(sid: Byte) | RxKeepaliveAck(sid: Byte)
    | TimerFired(timer: Timer)
    | TxStarted | TxComplete

  /** Frames handed to the modem. */
  datatype Frame =
    | DataFrame(sid: Byte, seqNo: Byte, ack: Byte, payload: seq<bv8>, userBytes: nat, mode: int, burstEnd: bool)
    | AckFrame(sid: Byte, ack: Byte, hasData: bool)
    | DisconnectFrame(sid: Byte) | KeepaliveFrame(sid: Byte) | KeepaliveAckFrame(sid: Byte)
    | TurnReqFrame(sid: Byte, ack: Byte) | TurnAckFrame(sid: Byte)
    | ModeReqFrame(sid: Byte, mode: int) | ModeAckFrame(sid: Byte, mode: int)
    | CallFrame(sid: Byte, isAccept: bool)

  /** One slot of the go-back-N window: a built DATA frame and what it carries. */
  datatype Slot = Slot(seqNo: Byte, ack: Byte, payload: seq<bv8>, userBytes: nat)

  /** The event a frame becomes at the receiver; `snr` is the reading it carries back. */
  function EventOf(f: Frame, snr: Snr): Event {
    match f
    case DataFrame(sid, seqNo, _, payload, _, mode, burstEnd) => RxData(sid, seqNo, payload, false, burstEnd, mode, snr)
    case AckFrame(sid, ack, hasData) => RxAck(sid, ack, hasData, snr)
    case DisconnectFrame(sid) => RxDisconnect(sid)
    case KeepaliveFrame(sid) => RxKeepalive(sid)
    case KeepaliveAckFrame(sid) => RxKeepaliveAck(sid)
    case TurnReqFrame(sid, _) => RxTurnReq(sid)
    case TurnAckFrame(sid) => RxTurnAck(sid)
    case ModeReqFrame(sid, mode) => RxModeReq(sid, mode)
    case ModeAckFrame(sid, mode) => RxModeAck(sid, mode)
    case CallFrame(sid, isAccept) => if isAccept then RxAccept(sid) else RxCall(sid)
  }

  /** What mode selection knows about the link. */
  datatype Link = Link(
    speedLevel: nat, successes: nat, upgradeCount: int, badRun: nat, holdUntil: nat,
    olla: real, peerSnrX10: int, peerSnrValid: bool)

  /** How payload modes are chosen and link quality is tracked. The protocol is proved for
      every such policy; Fsm.SourcePolicy is the one of the original. */
  datatype Policy = Policy(
    choose: (Link, int, nat, nat) -> Choice,   // link, payload mode, backlog, uptime
    record: (Link, int, bool) -> Link)         // link, payload mode, clean delivery

  /** Keep the payload mode, or ask the peer to switch; either way the link record changes. */
  datatype Choice = Keep(link: Link) | Switch(mode: int, link: Link)

  /** What the operator can set: retry slots and budgets, the CALL interval, and the burst
      column of the mode table (1 as shipped). */
  datatype Config = Config(
    policy: Policy, burstFrames: int,
    callRetries: nat, acceptRetries: nat, dataRetries: nat, disconnectRetries: nat,
    noProgressMs: nat, drainMs: nat, callIntervalMs: nat)

  /** The go-back-N window of one burst. */
  datatype Window = Window(slots: seq<Slot>, retx: bool, inflight: int)

  /** HAS_DATA as last seen from the peer, and as last sent to it. */
  datatype Turn = Turn(peerHasData: bool, ackHadData: bool)

  /** The caller owes the callee a confirming ACK; the first DATA waits for the guard. */
  datatype Setup = Setup(confirm: bool, guard: bool)

  /** The application's listen intent, and teardowns put off until later. */
  datatype Teardown = Teardown(listen: bool, notify: bool, disconnect: bool, drainUntil: nat)

  datatype Probe = Probe(misses: nat, fromIrs: bool, ackFromIrs: bool)

  datatype Session = Session(
    conn: Conn, dflow: Dflow, role: Role, sid: Byte,
    txSeq: Byte, rxExpected: Byte,
    payloadMode: int, initialMode: int, peerTxMode: int, pendingTxMode: int,
    link: Link, win: Window, turn: Turn, setup: Setup, teardown: Teardown, probe: Probe,
    retries: nat, startupUntil: nat, lastRx: nat, lastProgress: nat,
    deadline: Deadline, deadlineEvent: Timer)

  /** A session and what it is wired to: the application's TX ring, the modem's queue, and
      a record of the chunks read from the ring and of those delivered to the application. */
  datatype Node = Node(s: Session, ring: seq<bv8>, queue: seq<Frame>, chunks: seq<seq<bv8>>, delivered: seq<seq<bv8>>)

  function Flatten(chunks: seq<seq<bv8>>): seq<bv8> {
    if chunks == [] then [] else Flatten(chunks[..|chunks| - 1]) + chunks[|chunks| - 1]
  }

  /** arq_fsm_init */
  const INITIAL := Session(
    Disconnected, IdleIss, NoRole, 0, 0, 0, DATAC15, DATAC15, DATAC15, 0,
    Link(0, 0, 0, 0, 0, 0.0, 0, false), Window([], false, 0), Turn(false, false), Setup(false, false),
    Teardown(false, false, false, 0), Probe(0, false, false), 0, 0, 0, 0, Never, Retry)

  function Next(b: Byte): Byte { (b + 1) % 256 }
}
