/** What holds of one station in every reachable state, for every burst size the mode table
    may give, every mode-selection policy and every sequence of events: the go-back-N window
    is in order, no waiting state can sleep forever, and a sender always has something to send. */
module StationInvariants {
  import opened Common
  import opened ArqTypes
  import opened Fsm

  // ------------------------------------------------------------------ the window

  /** The slot that was filled `age` frames ago (1 is the newest). */
  predicate SlotOk(slot: Slot, age: nat, txSeq: Byte, mode: int, chunks: seq<seq<bv8>>)
    requires age <= |chunks|
  {
    && slot.seqNo == (txSeq - age) % 256 && slot.userBytes == UserBytes(mode)
    && 1 <= |slot.payload| <= slot.userBytes
    && (age > 0 ==> slot.payload == chunks[|chunks| - age])
  }

  /** At most five frames with consecutive numbers ending just before txSeq, holding the
      chunks read last, all of the size of the payload mode, and counted exactly. */
  predicate WindowOk(win: Window, txSeq: Byte, mode: int, chunks: seq<seq<bv8>>) {
    && |win.slots| <= BURST_MAX && |win.slots| <= |chunks| && PayloadMode(mode)
    && win.inflight == PayloadSum(win.slots)
    && forall i :: 0 <= i < |win.slots| ==> SlotOk(win.slots[i], |win.slots| - i, txSeq, mode, chunks)
  }

  predicate WindowFine(n: Node) { WindowOk(n.s.win, n.s.txSeq, n.s.payloadMode, n.chunks) }

  lemma {:induction false} PayloadSumSplits(slots: seq<Slot>, k: nat)
    requires k <= |slots|
    ensures PayloadSum(slots) == PayloadSum(slots[..k]) + PayloadSum(slots[k..])
    decreases |slots|
  {
    if k < |slots| {
      var front := slots[..|slots| - 1];
      PayloadSumSplits(front, k);
      assert front[..k] == slots[..k];
      assert front[k..] == slots[k..][..|slots[k..]| - 1];
    } else {
      assert slots[..k] == slots;
    }
  }

  lemma PayloadSumAppend(slots: seq<Slot>, slot: Slot)
    ensures PayloadSum(slots + [slot]) == PayloadSum(slots) + |slot.payload|
  {
    var all := slots + [slot];
    assert all[..|all| - 1] == slots;
  }

  /** Sliding never meets the clamp at zero: what is left is exactly the rest of the window. */
  lemma SlideIsExact(s: Session, k: nat, chunks: seq<seq<bv8>>)
    requires WindowOk(s.win, s.txSeq, s.payloadMode, chunks) && k <= |s.win.slots|
    ensures s.win.inflight - PayloadSum(s.win.slots[..k]) == PayloadSum(s.win.slots[k..]) >= 0
    ensures WindowOk(Slide(s, k).win, s.txSeq, s.payloadMode, chunks)
  {
    PayloadSumSplits(s.win.slots, k);
    PayloadSumIsNat(s.win.slots[k..]);
    var w := Slide(s, k).win;
    forall i | 0 <= i < |w.slots| ensures SlotOk(w.slots[i], |w.slots| - i, s.txSeq, s.payloadMode, chunks) {
      assert SlotOk(s.win.slots[i + k], |s.win.slots| - (i + k), s.txSeq, s.payloadMode, chunks);
    }
  }

  lemma {:induction false} PayloadSumIsNat(slots: seq<Slot>)
    ensures PayloadSum(slots) >= 0
  {
  }

  // ------------------------------------------------------------------ sending a burst

  /** Frames numbered from the first chunk of the session on. */
  predicate SeqCounts(n: Node) { n.s.txSeq == |n.chunks| % 256 }

  /** The window's base in the record of chunks: all before it have been acknowledged. */
  function Base(n: Node): int { |n.chunks| - |n.s.win.slots| }

  /** Only the window, the sequence number, the ring and the record of chunks may differ. */
  predicate SameButWindow(n: Node, m: Node) {
    && m.delivered == n.delivered
    && m.s == n.s.(txSeq := m.s.txSeq, win := n.s.win.(slots := m.s.win.slots, inflight := m.s.win.inflight))
  }

  /** Fresh chunks have moved from the ring to the end of the window. */
  predicate Refilled(n: Node, m: Node) {
    && WindowFine(m) && n.s.win.slots <= m.s.win.slots && n.chunks <= m.chunks && Base(m) == Base(n)
    && (SeqCounts(n) ==> SeqCounts(m))
    && Flatten(m.chunks) + m.ring == Flatten(n.chunks) + n.ring
  }

  lemma AddSlotKeepsWindow(n: Node)
    requires WindowFine(n) && |n.s.win.slots| < BURST_MAX && n.ring != []
    ensures WindowFine(AddSlot(n, UserBytes(n.s.payloadMode)))
  {
    var m := AddSlot(n, UserBytes(n.s.payloadMode));
    var last := |n.s.win.slots|;
    AppendKeepsWindow(n.s.win, n.s.txSeq, n.s.payloadMode, n.chunks, m.s.win.slots[last], m.s.win.inflight);
  }

  lemma AppendKeepsWindow(win: Window, txSeq: Byte, mode: int, chunks: seq<seq<bv8>>, slot: Slot, inflight: int)
    requires WindowOk(win, txSeq, mode, chunks) && |win.slots| < BURST_MAX
    requires inflight == win.inflight + |slot.payload|
    requires slot.seqNo == txSeq && slot.userBytes == UserBytes(mode) && 1 <= |slot.payload| <= slot.userBytes
    ensures var w := win.(slots := win.slots + [slot], inflight := inflight);
      WindowOk(w, Next(txSeq), mode, chunks + [slot.payload])
  {
    PayloadSumAppend(win.slots, slot);
    var slots, all := win.slots + [slot], chunks + [slot.payload];
    forall i | 0 <= i < |slots| ensures SlotOk(slots[i], |slots| - i, Next(txSeq), mode, all) {
      if i < |win.slots| {
        OlderSlot(win.slots[i], |win.slots| - i, txSeq, mode, chunks, slot.payload);
      } else {
        NewestSlot(slot, txSeq, mode, chunks);
      }
    }
  }

  lemma NewestSlot(slot: Slot, txSeq: Byte, mode: int, chunks: seq<seq<bv8>>)
    requires slot.seqNo == txSeq && slot.userBytes == UserBytes(mode) && 1 <= |slot.payload| <= slot.userBytes
    ensures SlotOk(slot, 1, Next(txSeq), mode, chunks + [slot.payload])
  {
  }

  lemma OlderSlot(slot: Slot, age: nat, txSeq: Byte, mode: int, chunks: seq<seq<bv8>>, chunk: seq<bv8>)
    requires 0 < age <= |chunks| && SlotOk(slot, age, txSeq, mode, chunks)
    ensures SlotOk(slot, age + 1, Next(txSeq), mode, chunks + [chunk])
  {
  }

  lemma AddSlotMovesBytes(n: Node)
    requires PayloadMode(n.s.payloadMode)
    ensures var m := AddSlot(n, UserBytes(n.s.payloadMode)); Flatten(m.chunks) + m.ring == Flatten(n.chunks) + n.ring
  {
    var k := ReadLen(n.ring, UserBytes(n.s.payloadMode));
    var chunks := n.chunks + [n.ring[..k]];
    assert chunks[..|chunks| - 1] == n.chunks;
    assert n.ring == n.ring[..k] + n.ring[k..];
  }

  lemma AddSlotRefills(n: Node)
    requires WindowFine(n) && |n.s.win.slots| < BURST_MAX && n.ring != []
    ensures var m := AddSlot(n, UserBytes(n.s.payloadMode));
      SameButWindow(n, m) && m.queue == n.queue && Refilled(n, m) && m.s.win.slots != []
  {
    AddSlotKeepsWindow(n);
    AddSlotMovesBytes(n);
    AddSlotCounts(n);
  }

  lemma AddSlotCounts(n: Node)
    requires PayloadMode(n.s.payloadMode) && n.ring != []
    ensures var m := AddSlot(n, UserBytes(n.s.payloadMode)); Base(m) == Base(n) && (SeqCounts(n) ==> SeqCounts(m))
  {
  }

  lemma {:induction false} TopUpRefills(n: Node, limit: nat)
    requires WindowFine(n) && limit <= BURST_MAX
    ensures var m := TopUp(n, UserBytes(n.s.payloadMode), limit);
      && SameButWindow(n, m) && m.queue == n.queue && Refilled(n, m)
      && (limit > 0 && n.ring != [] ==> m.s.win.slots != [])
    decreases limit - |n.s.win.slots|
  {
    if |n.s.win.slots| < limit && n.ring != [] {
      AddSlotRefills(n);
      var a := AddSlot(n, UserBytes(n.s.payloadMode));
      TopUpRefills(a, limit);
    }
  }

  /** A burst is the whole window after topping up; it is not empty if there is a window or
      a backlog. */
  lemma BurstRefills(cfg: Config, n: Node, now: nat)
    requires WindowFine(n)
    ensures var m := SendDataBurst(cfg, n, now);
      && SameButWindow(n, m) && Refilled(n, m) && m.queue == n.queue + BurstFrames(m.s)
      && (n.s.win.slots != [] || n.ring != [] ==> m.s.win.slots != [] && |m.queue| > |n.queue|)
  {
    TopUpRefills(n, BurstMax(cfg, n.s, now));
    var m := SendDataBurst(cfg, n, now);
    assert BurstFrames(m.s) == BurstFrames(TopUp(n, UserBytes(n.s.payloadMode), BurstMax(cfg, n.s, now)).s);
  }

  /** Places in a window of at most `limit` frames. */
  function Free(win: Window, limit: nat): nat { if |win.slots| < limit then limit - |win.slots| else 0 }

  /** Frame `i` of the window of `m` is fresh: its number follows, it acknowledges what is
      expected next, and it is full unless it took the last bytes of the ring. */
  predicate FreshSlot(n: Node, m: Node, i: int, userBytes: nat)
    requires |n.s.win.slots| <= i < |m.s.win.slots|
  {
    && m.s.win.slots[i].seqNo == (n.s.txSeq + (i - |n.s.win.slots|)) % 256
    && m.s.win.slots[i].ack == n.s.rxExpected && m.s.win.slots[i].userBytes == userBytes
    && (|m.s.win.slots[i].payload| == userBytes || (i == |m.s.win.slots| - 1 && m.ring == []))
  }

  lemma AddSlotFills(n: Node, userBytes: nat)
    requires userBytes > 0 && n.ring != []
    ensures var a := AddSlot(n, userBytes);
      && |a.s.win.slots| == |n.s.win.slots| + 1 && n.s.win.slots <= a.s.win.slots
      && |n.ring| - |a.ring| == Min(|n.ring|, userBytes) && FreshSlot(n, a, |n.s.win.slots|, userBytes)
      && a.s.rxExpected == n.s.rxExpected && a.s.txSeq == Next(n.s.txSeq)
  {
  }

  /** Frames fresh after one more is added were fresh before. */
  lemma FreshBefore(n: Node, a: Node, m: Node, i: int, userBytes: nat)
    requires |a.s.win.slots| == |n.s.win.slots| + 1 && |n.s.win.slots| <= i < |m.s.win.slots|
    requires a.s.rxExpected == n.s.rxExpected && a.s.txSeq == Next(n.s.txSeq) && a.s.win.slots <= m.s.win.slots
    requires FreshSlot(n, a, |n.s.win.slots|, userBytes)
    requires i > |n.s.win.slots| ==> FreshSlot(a, m, i, userBytes)
    requires i == |n.s.win.slots| && a.ring == [] ==> m.ring == a.ring && |m.s.win.slots| == i + 1
    ensures FreshSlot(n, m, i, userBytes)
  {
    if i > |n.s.win.slots| {
      NextNumber(n.s.txSeq, i - |n.s.win.slots|);
    }
  }

  lemma NextNumber(txSeq: Byte, k: nat)
    requires k > 0
    ensures (Next(txSeq) + (k - 1)) % 256 == (txSeq + k) % 256
  {
  }

  /** What one frame leaves of the room for `free` of them. */
  lemma RoomLeft(bytes: nat, free: nat, userBytes: nat)
    requires free > 0
    ensures var taken := Min(bytes, userBytes);
      taken + Min(bytes - taken, (free - 1) * userBytes) == Min(bytes, free * userBytes)
  {
    assert free * userBytes == (free - 1) * userBytes + userBytes;
    assert (free - 1) * userBytes >= 0;
  }

  /** Topping up takes from the ring as much as the free frames hold, and fills each of them. */
  lemma {:induction false} TopUpFills(n: Node, userBytes: nat, limit: nat)
    requires userBytes > 0
    ensures var m := TopUp(n, userBytes, limit);
      && |n.ring| - |m.ring| == Min(|n.ring|, Free(n.s.win, limit) * userBytes)
      && n.s.win.slots <= m.s.win.slots
      && forall i :: |n.s.win.slots| <= i < |m.s.win.slots| ==> FreshSlot(n, m, i, userBytes)
    decreases limit - |n.s.win.slots|
  {
    if |n.s.win.slots| < limit && n.ring != [] {
      var a, m := AddSlot(n, userBytes), TopUp(n, userBytes, limit);
      AddSlotFills(n, userBytes);
      TopUpFills(a, userBytes, limit);
      RoomLeft(|n.ring|, Free(n.s.win, limit), userBytes);
      forall i | |n.s.win.slots| <= i < |m.s.win.slots| ensures FreshSlot(n, m, i, userBytes) {
        if i > |n.s.win.slots| {
          assert FreshSlot(a, m, i, userBytes);
        } else if a.ring == [] {
          assert m == a;
        }
        FreshBefore(n, a, m, i, userBytes);
      }
    }
  }

  /** How much a burst takes: the window is topped up to one frame while the session starts up,
      else to the configured burst of one to five, with frames as large as the mode allows. */
  lemma BurstFills(cfg: Config, n: Node, now: nat, limit: nat, userBytes: nat)
    requires PayloadMode(n.s.payloadMode) && userBytes == Timing(n.s.payloadMode).value.payloadBytes - 8
    requires limit == if now < n.s.startupUntil || cfg.burstFrames < 1 then 1 else Min(cfg.burstFrames, 5)
    ensures var m := SendDataBurst(cfg, n, now);
      && |n.ring| - |m.ring| == Min(|n.ring|, Free(n.s.win, limit) * userBytes)
      && n.s.win.slots <= m.s.win.slots
      && forall i :: |n.s.win.slots| <= i < |m.s.win.slots| ==> FreshSlot(n, m, i, userBytes)
  {
    assert BurstMax(cfg, n.s, now) == limit;
    assert UserBytes(n.s.payloadMode) == userBytes > 0;
    TopUpFills(n, userBytes, limit);
    var t, m := TopUp(n, userBytes, limit), SendDataBurst(cfg, n, now);
    assert m == t.(queue := t.queue + BurstFrames(t.s));
    forall i | |n.s.win.slots| <= i < |m.s.win.slots| ensures FreshSlot(n, m, i, userBytes) {
      assert FreshSlot(n, t, i, userBytes);
    }
  }

  // ------------------------------------------------------------------ the invariant

  /** A transmission will end: a frame waits for the modem or is on the air. */
  predicate Pending(n: Node, busy: bool) { n.queue != [] || busy }

  /** What wakes a state up: nothing is needed; no deadline may be set; a deadline with this
      timer; a deadline of a DISCONNECT; a guard deadline before a transmission or, once the
      frame is handed over, the end of it; the end of a transmission, before or after an
      unanswered deadline. */
  datatype Wake = Any | Nothing | ByTimer(timer: Timer) | Closing | Guarded | Transmitting(late: bool)

  function WakeOf(s: Session): Wake {
    match s.conn
    case Disconnected => Any
    case Listening => Any
    case Calling => ByTimer(Retry)
    case Accepting => ByTimer(Retry)
    case Disconnecting => Closing
    case Connected =>
      match s.dflow
      case IdleIss => Nothing
      case WaitAck => ByTimer(AckTimer)
      case DataRx => ByTimer(AckTimer)
      case IdleIrs => ByTimer(PeerBacklog)
      case TurnReqWait => ByTimer(Retry)
      case ModeReqWait => ByTimer(Retry)
      case KeepaliveWait => ByTimer(Retry)
      case AckTx => if s.setup.confirm then Guarded else Transmitting(false)
      case TurnReqTx => Transmitting(true)
      case KeepaliveTx => Transmitting(true)
      case ModeReqTx => Transmitting(false)
      case _ => Guarded
  }

  /** Every state but the idle ones waits for a deadline its handler answers, or for the end
      of a transmission that will come. */
  predicate Timed(n: Node, busy: bool) { Wakes(WakeOf(n.s), n.s.deadline, n.s.deadlineEvent, Pending(n, busy)) }

  predicate Wakes(wake: Wake, deadline: Deadline, timer: Timer, pending: bool) {
    match wake
    case Any => true
    case Nothing => deadline == Never
    case ByTimer(t) => deadline != Never && timer == t
    case Closing => deadline != Never && (timer == Retry || timer == AckTimer)
    case Guarded => if deadline == Never then pending else timer == AckTimer
    case Transmitting(late) => pending && (deadline == Never || (late && timer == Retry))
  }

  /** A sender has something to send; an idle one with a backlog is about to be told so. */
  predicate Backed(n: Node, posted: bool) {
    && (n.s.dflow.DataTx? || n.s.dflow.WaitAck? ==> n.s.win.slots != [] || n.ring != [])
    && (n.s.dflow.ModeReqTx? || n.s.dflow.ModeReqWait? ==> n.s.win.slots == [] && n.ring != [])
    && (n.s.dflow.AckTx? && !n.s.setup.confirm && n.s.turn.ackHadData ==> n.ring != [])
    && (n.s.dflow.IdleIss? ==> n.ring == [] || posted)
    && (n.s.setup.confirm ==> n.s.dflow.AckTx?) && n.s.lastRx > 0
  }

  /** `busy`: a frame is on the air. `posted`: an APP_DATA_READY is queued, or its producer is
      between writing to the ring and posting it. */
  predicate Sound(n: Node, busy: bool, posted: bool) {
    && Timed(n, busy) && (n.s.conn == Connected ==> WindowFine(n) && Backed(n, posted))
    && (n.s.conn != Connected ==> !n.s.setup.confirm)
  }

  /** The state in which `ev` is dispatched: a timer's deadline has been cleared. */
  predicate Ready(n: Node, ev: Event, busy: bool, posted: bool) {
    if ev.TimerFired? then
      n.s.deadline == Never && n.s.deadlineEvent == ev.timer && Sound(n.(s := n.s.(deadline := At(0))), busy, posted)
    else Sound(n, busy, posted)
  }

  predicate ReadyIn(n: Node, ev: Event, busy: bool, posted: bool, dflow: Dflow) {
    n.s.conn == Connected && n.s.dflow == dflow && Ready(n, ev, busy, posted)
  }

  predicate SoundAfter(m: Node, ev: Event, busy: bool, posted: bool) {
    Sound(m, busy && !ev.TxComplete?, posted && !ev.AppDataReady?)
  }

  // ------------------------------------------------------------------ how a step moves the window

  /** How many frames of the window an event confirms. */
  function Acked(s: Session, ev: Event): (k: nat)
    ensures k <= |s.win.slots|
  {
    if !s.dflow.WaitAck? || WrongSession(s, ev) then 0
    else if ev.RxAck? then Confirmed(s.win.slots, ev.ack)
    else if (ev.RxData? && Fresh(s, ev)) || (ev.RxModeReq? && PayloadMode(ev.mode)) then |s.win.slots|
    else 0
  }

  predicate IsControl(f: Frame, rxExpected: Byte) { !f.DataFrame? && (f.AckFrame? ==> f.ack == rxExpected) }

  /** Frames a step hands to the modem: control frames, every ACK naming the next frame
      wanted, or one burst with exactly the window. */
  predicate Emits(m: Session, fs: seq<Frame>) {
    (forall i :: 0 <= i < |fs| ==> IsControl(fs[i], m.rxExpected)) || fs == BurstFrames(m)
  }

  /** Delivers the payload of an expected DATA frame, or nothing. */
  predicate Delivers(n: Node, m: Node, ev: Event) {
    || (m.delivered == n.delivered && m.s.rxExpected == n.s.rxExpected)
    || (ev.RxData? && Fresh(n.s, ev) && m.delivered == n.delivered + [ev.payload]
        && m.s.rxExpected == Next(n.s.rxExpected))
  }

  predicate Moves(n: Node, m: Node, ev: Event) {
    && n.chunks <= m.chunks && Base(m) == Base(n) + Acked(n.s, ev)
    && (SeqCounts(n) ==> SeqCounts(m))
    && Flatten(m.chunks) + m.ring == Flatten(n.chunks) + n.ring
    && Delivers(n, m, ev)
    && n.queue <= m.queue && Emits(m.s, m.queue[|n.queue|..])
    && (m.s.payloadMode != n.s.payloadMode ==> n.s.win.slots == [])
  }

  /** The window, the ring, the records and both sequence numbers are as before. */
  predicate SameFlow(n: Node, m: Node) {
    && m.s.win.slots == n.s.win.slots && m.s.win.inflight == n.s.win.inflight
    && m.s.txSeq == n.s.txSeq && m.s.payloadMode == n.s.payloadMode && m.s.rxExpected == n.s.rxExpected
    && m.ring == n.ring && m.chunks == n.chunks && m.delivered == n.delivered
  }

  /** The queue has grown by at most two control frames. */
  predicate Queued(n: Node, m: Node) {
    && n.queue <= m.queue
    && forall i :: |n.queue| <= i < |m.queue| ==> IsControl(m.queue[i], m.s.rxExpected)
  }

  predicate Still(n: Node, m: Node) { SameFlow(n, m) && Queued(n, m) }

  lemma StillMoves(n: Node, m: Node, ev: Event)
    requires Still(n, m) && Acked(n.s, ev) == 0
    ensures Moves(n, m, ev)
  {
  }

  /** Every clause of the invariant after `ev`, and how the window moved. */
  predicate Keeps(n: Node, m: Node, ev: Event, busy: bool, posted: bool) {
    SoundAfter(m, ev, busy, posted) && (m.s.conn == Connected ==> Moves(n, m, ev))
  }

  lemma StillKeeps(n: Node, m: Node, ev: Event, busy: bool, posted: bool)
    requires WindowFine(n) && Still(n, m) && Acked(n.s, ev) == 0 && m.s.conn == Connected
    requires Timed(m, busy && !ev.TxComplete?) && Backed(m, posted && !ev.AppDataReady?)
    ensures Keeps(n, m, ev, busy, posted)
  {
  }

  /** A connected station about to answer an event that confirms nothing. */
  predicate Calm(n: Node, ev: Event) {
    n.s.conn == Connected && WindowFine(n) && n.s.lastRx > 0 && !n.s.setup.confirm && Acked(n.s, ev) == 0
  }

  lemma IdleIrsKeeps(n: Node, ev: Event, now: nat, busy: bool, posted: bool)
    requires Calm(n, ev)
    ensures Keeps(n, EnterIdleIrs(n, now), ev, busy, posted)
  {
    StillKeeps(n, EnterIdleIrs(n, now), ev, busy, posted);
  }

  lemma YieldKeeps(n: Node, ev: Event, now: nat, busy: bool, posted: bool)
    requires Calm(n, ev)
    ensures Keeps(n, YieldTurn(n, now), ev, busy, posted)
  {
    StillKeeps(n, YieldTurn(n, now), ev, busy, posted);
  }

  lemma RequestTurnKeeps(n: Node, ev: Event, now: nat, busy: bool, posted: bool)
    requires Calm(n, ev)
    ensures Keeps(n, RequestTurn(n, now), ev, busy, posted)
  {
    StillKeeps(n, RequestTurn(n, now), ev, busy, posted);
  }

  lemma ModeReqKeeps(n: Node, ev: Event, now: nat, busy: bool, posted: bool)
    requires Calm(n, ev) && ev.RxModeReq?
    ensures Keeps(n, AcceptModeReq(n, ev.mode, now), ev, busy, posted)
  {
    StillKeeps(n, AcceptModeReq(n, ev.mode, now), ev, busy, posted);
  }

  lemma SameKeeps(n: Node, ev: Event, busy: bool, posted: bool)
    requires Calm(n, ev) && Timed(n, busy && !ev.TxComplete?) && Backed(n, posted && !ev.AppDataReady?)
    ensures Keeps(n, n, ev, busy, posted)
  {
    StillKeeps(n, n, ev, busy, posted);
  }

  // ------------------------------------------------------------------ taking up a role

  lemma GuardedKeeps(cfg: Config, n: Node, now: nat, busy: bool, posted: bool)
    requires n.s.conn == Connected && WindowFine(n) && n.s.lastRx > 0 && !n.s.setup.confirm
    ensures var m := EnterIdleIssGuarded(cfg, n, now);
      Sound(m, busy, posted) && (m.s.conn == Connected ==> Still(n, m))
  {
    if Backlog(n) > 0 {
      var c := n.(s := n.s.(retries := cfg.dataRetries));
      UpgradeKeeps(cfg, c, now, busy, posted);
    }
  }

  /** Negotiation starts only with an empty window. */
  lemma UpgradeKeeps(cfg: Config, n: Node, now: nat, busy: bool, posted: bool)
    requires n.s.conn == Connected && WindowFine(n) && n.s.lastRx > 0 && !n.s.setup.confirm
    requires n.s.win.slots != [] || n.ring != []
    ensures var (u, started) := MaybeUpgrade(cfg, n, now);
      && Still(n, u) && (started ==> Sound(u, busy, posted))
      && (!started ==> u == n.(s := n.s.(link := u.s.link)))
  {
  }

  lemma IdleIssKeeps(cfg: Config, n: Node, now: nat, busy: bool, posted: bool, ev: Event)
    requires n.s.conn == Connected && WindowFine(n) && n.s.lastRx > 0 && !n.s.setup.confirm && Acked(n.s, ev) == 0
    ensures var m := EnterIdleIss(cfg, n, now);
      Sound(m, busy, posted) && (m.s.conn == Connected ==> Moves(n, m, ev))
  {
    if Backlog(n) > 0 {
      BurstKeeps(cfg, n, n.(s := n.s.(retries := cfg.dataRetries)), now, busy, posted, ev);
    } else {
      assert EnterIdleIss(cfg, n, now).s.conn == Connected ==> Still(n, EnterIdleIss(cfg, n, now));
    }
  }

  lemma SameWindow(n: Node, m: Node)
    requires WindowFine(n) && SameFlow(n, m)
    ensures WindowFine(m)
  {
    forall i | 0 <= i < |m.s.win.slots|
      ensures SlotOk(m.s.win.slots[i], |m.s.win.slots| - i, m.s.txSeq, m.s.payloadMode, m.chunks)
    {
      assert SlotOk(n.s.win.slots[i], |n.s.win.slots| - i, n.s.txSeq, n.s.payloadMode, n.chunks);
    }
  }

  /** Sending the burst from `c`, which differs from `n` only in what the window does not see. */
  lemma BurstKeeps(cfg: Config, n: Node, c: Node, now: nat, busy: bool, posted: bool, ev: Event)
    requires c.s.conn == Connected && WindowFine(n) && c.s.lastRx > 0 && !c.s.setup.confirm && Acked(n.s, ev) == 0
    requires n.s.win.slots != [] || n.ring != []
    requires SameFlow(n, c) && c.queue == n.queue
    ensures var m := SendDataBurst(cfg, DflowEnter(c, DataTx, Never, Retry), now);
      Sound(m, busy, posted) && Moves(n, m, ev)
  {
    BurstFrom(cfg, n, DflowEnter(c, DataTx, Never, Retry), now, busy, posted, ev);
  }

  lemma BurstFrom(cfg: Config, n: Node, d: Node, now: nat, busy: bool, posted: bool, ev: Event)
    requires d.s.conn == Connected && d.s.dflow == DataTx && d.s.deadline == Never
    requires WindowFine(n) && d.s.lastRx > 0 && !d.s.setup.confirm && Acked(n.s, ev) == 0
    requires n.s.win.slots != [] || n.ring != []
    requires SameFlow(n, d) && d.queue == n.queue
    ensures var m := SendDataBurst(cfg, d, now); Sound(m, busy, posted) && Moves(n, m, ev)
  {
    SameWindow(n, d);
    BurstRefills(cfg, d, now);
    var m := SendDataBurst(cfg, d, now);
    assert m.queue[|n.queue|..] == BurstFrames(m.s);
  }

  // ------------------------------------------------------------------ receiving data

  lemma ReceiveKeeps(n: Node, ev: Event, now: nat, busy: bool, posted: bool)
    requires n.s.conn == Connected && WindowFine(n) && !n.s.setup.confirm && ev.RxData? && now > 0
    requires Acked(n.s, ev) == 0
    ensures Keeps(n, ReceiveData(n, ev, now), ev, busy, posted)
  {
  }

  // ------------------------------------------------------------------ each state

  lemma IdleIssState(cfg: Config, n: Node, ev: Event, now: nat, busy: bool, posted: bool)
    requires ReadyIn(n, ev, busy, posted, IdleIss) && now > 0
    ensures Keeps(n, OnIdleIss(cfg, n, ev, now), ev, busy, posted)
  {
    if ev.AppDataReady? {
      DataIsReady(cfg, n, now, busy, posted);
    } else if ev.RxData? {
      DataWhileIdle(cfg, n, ev, now, busy, posted);
    } else {
      NothingToSend(cfg, n, ev, now, busy, posted);
    }
  }

  lemma DataWhileIdle(cfg: Config, n: Node, ev: Event, now: nat, busy: bool, posted: bool)
    requires n.s.conn == Connected && n.s.dflow == IdleIss && WindowFine(n) && !n.s.setup.confirm && ev.RxData?
    requires now > 0
    ensures Keeps(n, OnIdleIss(cfg, n, ev, now), ev, busy, posted)
  {
    ReceiveKeeps(n, ev, now, busy, posted);
  }

  lemma NothingToSend(cfg: Config, n: Node, ev: Event, now: nat, busy: bool, posted: bool)
    requires ReadyIn(n, ev, busy, posted, IdleIss) && !ev.AppDataReady? && !ev.RxData?
    ensures Keeps(n, OnIdleIss(cfg, n, ev, now), ev, busy, posted)
  {
    if ev.RxTurnReq? {
      YieldKeeps(n, ev, now, busy, posted);
    } else {
      SameKeeps(n, ev, busy, posted);
    }
  }

  lemma DataIsReady(cfg: Config, n: Node, now: nat, busy: bool, posted: bool)
    requires ReadyIn(n, AppDataReady, busy, posted, IdleIss)
    ensures Keeps(n, OnIdleIss(cfg, n, AppDataReady, now), AppDataReady, busy, posted)
  {
    if Backlog(n) > 0 && !n.s.setup.guard {
      BurstKeeps(cfg, n, n, now, busy, false, AppDataReady);
    } else {
      StillKeeps(n, OnIdleIss(cfg, n, AppDataReady, now), AppDataReady, busy, posted);
    }
  }

  lemma DataTxState(cfg: Config, n: Node, ev: Event, now: nat, busy: bool, posted: bool)
    requires ReadyIn(n, ev, busy, posted, DataTx) && now > 0
    ensures Keeps(n, OnDataTx(cfg, n, ev, now), ev, busy, posted)
  {
    match ev
    case TimerFired(_) => GuardFires(cfg, n, ev, now, busy, posted);
    case TxComplete => StillKeeps(n, OnDataTx(cfg, n, ev, now), ev, busy, posted);
    case _ => TurnWhileSending(cfg, n, ev, now, busy, posted);
  }

  lemma TurnWhileSending(cfg: Config, n: Node, ev: Event, now: nat, busy: bool, posted: bool)
    requires ReadyIn(n, ev, busy, posted, DataTx) && !ev.TimerFired? && !ev.TxComplete?
    ensures Keeps(n, OnDataTx(cfg, n, ev, now), ev, busy, posted)
  {
    SameKeeps(n, ev, busy, posted);
    if ev.RxTurnReq? {
      YieldKeeps(n, ev, now, busy, posted);
    }
  }

  lemma GuardFires(cfg: Config, n: Node, ev: Event, now: nat, busy: bool, posted: bool)
    requires ReadyIn(n, ev, busy, posted, DataTx) && ev.TimerFired?
    ensures Keeps(n, OnDataTx(cfg, n, ev, now), ev, busy, posted)
  {
    assert ev == TimerFired(AckTimer);
    var m := SendDataBurst(cfg, n, now);
    assert OnDataTx(cfg, n, ev, now) == m;
    GuardElapses(cfg, n, now, busy, posted);
  }

  lemma GuardElapses(cfg: Config, n: Node, now: nat, busy: bool, posted: bool)
    requires Calm(n, TimerFired(AckTimer)) && n.s.dflow == DataTx && n.s.deadline == Never
    requires n.s.win.slots != [] || n.ring != []
    ensures Keeps(n, SendDataBurst(cfg, n, now), TimerFired(AckTimer), busy, posted)
  {
    BurstFrom(cfg, n, n, now, busy, posted, TimerFired(AckTimer));
  }

  lemma IdleIrsState(n: Node, ev: Event, now: nat, busy: bool, posted: bool)
    requires ReadyIn(n, ev, busy, posted, IdleIrs) && now > 0
    ensures Keeps(n, OnIdleIrs(n, ev, now), ev, busy, posted)
  {
    if ev.RxData? {
      ReceiveKeeps(n, ev, now, busy, posted);
    } else if ev.TimerFired? {
      HoldElapses(n, ev, now, busy, posted);
    } else {
      ControlWhileIdle(n, ev, now, busy, posted);
    }
  }

  lemma ControlWhileIdle(n: Node, ev: Event, now: nat, busy: bool, posted: bool)
    requires ReadyIn(n, ev, busy, posted, IdleIrs) && !ev.RxData? && !ev.TimerFired?
    ensures Keeps(n, OnIdleIrs(n, ev, now), ev, busy, posted)
  {
    if ev.RxModeReq? {
      ModeReqWhileIdle(n, ev, now, busy, posted);
    } else {
      TurnWhileIdle(n, ev, now, busy, posted);
    }
  }

  lemma TurnWhileIdle(n: Node, ev: Event, now: nat, busy: bool, posted: bool)
    requires ReadyIn(n, ev, busy, posted, IdleIrs) && !ev.RxData? && !ev.TimerFired? && !ev.RxModeReq?
    ensures Keeps(n, OnIdleIrs(n, ev, now), ev, busy, posted)
  {
    if ev.AppDataReady? {
      RequestTurnKeeps(n, ev, now, busy, posted);
    } else if ev.RxTurnReq? {
      YieldKeeps(n, ev, now, busy, posted);
    } else {
      SameKeeps(n, ev, busy, posted);
    }
  }

  lemma ModeReqWhileIdle(n: Node, ev: Event, now: nat, busy: bool, posted: bool)
    requires ReadyIn(n, ev, busy, posted, IdleIrs) && ev.RxModeReq?
    ensures Keeps(n, OnIdleIrs(n, ev, now), ev, busy, posted)
  {
    if PayloadMode(ev.mode) {
      ModeReqKeeps(n, ev, now, busy, posted);
    } else {
      SameKeeps(n, ev, busy, posted);
    }
  }

  lemma HoldElapses(n: Node, ev: Event, now: nat, busy: bool, posted: bool)
    requires ReadyIn(n, ev, busy, posted, IdleIrs) && ev.TimerFired?
    ensures Keeps(n, OnIdleIrs(n, ev, now), ev, busy, posted)
  {
    if n.s.lastRx > 0 && now - n.s.lastRx >= IRS_INACTIVITY_MS {
      StillKeeps(n, OnIdleIrs(n, ev, now), ev, busy, posted);
    } else if Backlog(n) > 0 {
      RequestTurnKeeps(n, ev, now, busy, posted);
    } else {
      IdleIrsKeeps(n, ev, now, busy, posted);
    }
  }

  lemma DataRxState(n: Node, ev: Event, now: nat, busy: bool, posted: bool)
    requires ReadyIn(n, ev, busy, posted, DataRx) && now > 0
    ensures Keeps(n, OnDataRx(n, ev, now), ev, busy, posted)
  {
    if ev.RxData? {
      ReceiveKeeps(n, ev, now, busy, posted);
    } else if ev.TimerFired? {
      AckIsDue(n, ev, now, busy, posted);
    } else {
      SameKeeps(n, ev, busy, posted);
    }
  }

  lemma AckIsDue(n: Node, ev: Event, now: nat, busy: bool, posted: bool)
    requires Calm(n, ev) && n.s.dflow == DataRx && ev == TimerFired(AckTimer)
    ensures Keeps(n, OnDataRx(n, ev, now), ev, busy, posted)
  {
    StillKeeps(n, OnDataRx(n, ev, now), ev, busy, posted);
  }

  lemma AckTxState(cfg: Config, n: Node, ev: Event, now: nat, busy: bool, posted: bool)
    requires ReadyIn(n, ev, busy, posted, AckTx) && now > 0
    ensures Keeps(n, OnAckTx(cfg, n, ev, now), ev, busy, posted)
  {
    if ev.TxComplete? {
      if n.s.setup.confirm {
        ConfirmationSent(cfg, n, now, busy, posted);
      } else {
        AckSent(cfg, n, now, busy, posted);
      }
    } else {
      StillKeeps(n, OnAckTx(cfg, n, ev, now), ev, busy, posted);
    }
  }

  lemma ConfirmationSent(cfg: Config, n: Node, now: nat, busy: bool, posted: bool)
    requires ReadyIn(n, TxComplete, busy, posted, AckTx) && n.s.setup.confirm
    ensures Keeps(n, OnAckTx(cfg, n, TxComplete, now), TxComplete, busy, posted)
  {
    var c := n.(s := n.s.(setup := n.s.setup.(confirm := false)));
    if Backlog(c) > 0 {
      GuardedKeeps(cfg, c, now, false, posted);
      GuardedMoves(cfg, n, c, TxComplete, now);
    } else {
      IdleIssKeeps(cfg, c, now, false, posted, TxComplete);
    }
  }

  lemma GuardedMoves(cfg: Config, n: Node, c: Node, ev: Event, now: nat)
    requires c.s.conn == Connected && WindowFine(c) && c.s.lastRx > 0 && !c.s.setup.confirm
    requires SameFlow(n, c) && n.queue == c.queue && Acked(n.s, ev) == 0
    ensures var m := EnterIdleIssGuarded(cfg, c, now); m.s.conn == Connected ==> Moves(n, m, ev)
  {
    GuardedKeeps(cfg, c, now, false, false);
    StillMoves(n, EnterIdleIssGuarded(cfg, c, now), ev);
  }

  lemma AckSent(cfg: Config, n: Node, now: nat, busy: bool, posted: bool)
    requires ReadyIn(n, TxComplete, busy, posted, AckTx) && !n.s.setup.confirm
    ensures Keeps(n, OnAckTx(cfg, n, TxComplete, now), TxComplete, busy, posted)
  {
    if n.s.turn.peerHasData {
      IdleIrsKeeps(n, TxComplete, now, busy, posted);
    } else if n.s.turn.ackHadData {
      GuardedKeeps(cfg, n, now, false, posted);
      GuardedMoves(cfg, n, n, TxComplete, now);
    } else if Backlog(n) > 0 {
      StillKeeps(n, DflowEnter(n, IdleIrs, At(now + TURN_WAIT_AFTER_ACK_MS), PeerBacklog), TxComplete, busy, posted);
    } else {
      IdleIrsKeeps(n, TxComplete, now, busy, posted);
    }
  }

  lemma TurnReqTxState(n: Node, ev: Event, now: nat, busy: bool, posted: bool)
    requires ReadyIn(n, ev, busy, posted, TurnReqTx) && now > 0
    ensures Keeps(n, OnTurnReqTx(n, ev, now), ev, busy, posted)
  {
    StillKeeps(n, OnTurnReqTx(n, ev, now), ev, busy, posted);
  }

  lemma TurnReqWaitState(cfg: Config, n: Node, ev: Event, now: nat, busy: bool, posted: bool)
    requires ReadyIn(n, ev, busy, posted, TurnReqWait) && now > 0
    ensures Keeps(n, OnTurnReqWait(cfg, n, ev, now), ev, busy, posted)
  {
    if ev.TimerFired? {
      TurnRequestMissed(cfg, n, ev, now, busy, posted);
    } else {
      TurnAnswered(cfg, n, ev, now, busy, posted);
    }
  }

  lemma TurnAnswered(cfg: Config, n: Node, ev: Event, now: nat, busy: bool, posted: bool)
    requires ReadyIn(n, ev, busy, posted, TurnReqWait) && now > 0 && !ev.TimerFired?
    ensures Keeps(n, OnTurnReqWait(cfg, n, ev, now), ev, busy, posted)
  {
    if ev.RxTurnAck? {
      TurnGranted(cfg, n, ev, now, busy, posted);
    } else if ev.RxData? {
      ReceiveKeeps(n, ev, now, busy, posted);
    } else {
      SameKeeps(n, ev, busy, posted);
    }
  }

  lemma TurnGranted(cfg: Config, n: Node, ev: Event, now: nat, busy: bool, posted: bool)
    requires Calm(n, ev) && ev.RxTurnAck?
    ensures Keeps(n, EnterIdleIssGuarded(cfg, n, now), ev, busy, posted)
  {
    GuardedKeeps(cfg, n, now, busy, posted);
    GuardedMoves(cfg, n, n, ev, now);
  }

  lemma TurnRequestMissed(cfg: Config, n: Node, ev: Event, now: nat, busy: bool, posted: bool)
    requires ReadyIn(n, ev, busy, posted, TurnReqWait) && ev.TimerFired?
    ensures Keeps(n, OnTurnReqWait(cfg, n, ev, now), ev, busy, posted)
  {
    if n.s.retries > 0 {
      TurnRequestedAgain(cfg, n, ev, now, busy, posted);
    } else {
      IdleIrsKeeps(n, ev, now, busy, posted);
    }
  }

  lemma TurnRequestedAgain(cfg: Config, n: Node, ev: Event, now: nat, busy: bool, posted: bool)
    requires Calm(n, ev) && n.s.dflow == TurnReqWait && ev == TimerFired(Retry) && n.s.retries > 0
    ensures Keeps(n, OnTurnReqWait(cfg, n, ev, now), ev, busy, posted)
  {
    StillKeeps(n, OnTurnReqWait(cfg, n, ev, now), ev, busy, posted);
  }

  lemma TurnAckTxState(n: Node, ev: Event, now: nat, busy: bool, posted: bool)
    requires ReadyIn(n, ev, busy, posted, TurnAckTx) && now > 0
    ensures Keeps(n, OnTurnAckTx(n, ev, now), ev, busy, posted)
  {
    StillKeeps(n, OnTurnAckTx(n, ev, now), ev, busy, posted);
  }

  lemma KeepaliveTxState(n: Node, ev: Event, now: nat, busy: bool, posted: bool)
    requires ReadyIn(n, ev, busy, posted, KeepaliveTx) && now > 0
    ensures Keeps(n, OnKeepaliveTx(n, ev, now), ev, busy, posted)
  {
    StillKeeps(n, OnKeepaliveTx(n, ev, now), ev, busy, posted);
  }

  lemma LeaveKeepaliveKeeps(cfg: Config, n: Node, now: nat, busy: bool, posted: bool)
    requires n.s.conn == Connected && WindowFine(n) && n.s.lastRx > 0 && !n.s.setup.confirm
    ensures var m := LeaveKeepalive(cfg, n, now);
      Sound(m, busy, posted) && (m.s.conn == Connected ==> Still(n, m))
  {
    if !n.s.probe.fromIrs {
      GuardedKeeps(cfg, n.(s := n.s.(probe := n.s.probe.(misses := 0))), now, busy, posted);
    }
  }

  lemma KeepaliveWaitState(cfg: Config, n: Node, ev: Event, now: nat, busy: bool, posted: bool)
    requires ReadyIn(n, ev, busy, posted, KeepaliveWait) && now > 0
    ensures Keeps(n, OnKeepaliveWait(cfg, n, ev, now), ev, busy, posted)
  {
    match ev
    case RxKeepaliveAck(_) => ProbeAnswered(cfg, n, n, ev, now, busy, posted);
    case RxKeepalive(_) => ProbeAnswered(cfg, n, Send(n, KeepaliveAckFrame(n.s.sid)), ev, now, busy, posted);
    case TimerFired(_) => ProbeMissed(cfg, n, ev, now, busy, posted);
    case _ => SameKeeps(n, ev, busy, posted);
  }

  lemma ProbeAnswered(cfg: Config, n: Node, c: Node, ev: Event, now: nat, busy: bool, posted: bool)
    requires Calm(n, ev) && Calm(c, ev) && Still(n, c) && !ev.TxComplete? && !ev.AppDataReady?
    ensures Keeps(n, LeaveKeepalive(cfg, c, now), ev, busy, posted)
  {
    LeaveKeepaliveKeeps(cfg, c, now, busy, posted);
    if LeaveKeepalive(cfg, c, now).s.conn == Connected {
      StillMoves(n, LeaveKeepalive(cfg, c, now), ev);
    }
  }

  lemma ProbeMissed(cfg: Config, n: Node, ev: Event, now: nat, busy: bool, posted: bool)
    requires ReadyIn(n, ev, busy, posted, KeepaliveWait) && ev.TimerFired?
    ensures Keeps(n, OnKeepaliveWait(cfg, n, ev, now), ev, busy, posted)
  {
    if n.s.probe.misses + 1 >= KEEPALIVE_MISS_LIMIT {
      ProbeGivesUp(cfg, n, ev, now, busy, posted);
    } else {
      ProbeAgain(cfg, n, ev, now, busy, posted);
    }
  }

  lemma ProbeAgain(cfg: Config, n: Node, ev: Event, now: nat, busy: bool, posted: bool)
    requires Calm(n, ev) && n.s.dflow == KeepaliveWait && ev == TimerFired(Retry)
    requires n.s.probe.misses + 1 < KEEPALIVE_MISS_LIMIT
    ensures Keeps(n, OnKeepaliveWait(cfg, n, ev, now), ev, busy, posted)
  {
    var c := n.(s := n.s.(probe := n.s.probe.(misses := n.s.probe.misses + 1)));
    var m := DflowEnter(Send(c, KeepaliveFrame(n.s.sid)), KeepaliveTx, ControlRetryAt(now), Retry);
    assert OnKeepaliveWait(cfg, n, ev, now) == m;
    StillKeeps(n, m, ev, busy, posted);
  }

  lemma ProbeGivesUp(cfg: Config, n: Node, ev: Event, now: nat, busy: bool, posted: bool)
    requires n.s.conn == Connected && n.s.dflow == KeepaliveWait && ev == TimerFired(Retry)
    requires n.s.probe.misses + 1 >= KEEPALIVE_MISS_LIMIT
    ensures Keeps(n, OnKeepaliveWait(cfg, n, ev, now), ev, busy, posted)
  {
  }

  lemma KeepaliveAckTxState(cfg: Config, n: Node, ev: Event, now: nat, busy: bool, posted: bool)
    requires ReadyIn(n, ev, busy, posted, KeepaliveAckTx) && now > 0
    ensures Keeps(n, OnKeepaliveAckTx(cfg, n, ev, now), ev, busy, posted)
  {
    var m := OnKeepaliveAckTx(cfg, n, ev, now);
    if ev.TxComplete? {
      ProbeAnswerSent(cfg, n, now, busy, posted);
    } else {
      StillKeeps(n, m, ev, busy, posted);
    }
  }

  lemma ProbeAnswerSent(cfg: Config, n: Node, now: nat, busy: bool, posted: bool)
    requires Calm(n, TxComplete) && n.s.dflow == KeepaliveAckTx
    ensures Keeps(n, OnKeepaliveAckTx(cfg, n, TxComplete, now), TxComplete, busy, posted)
  {
    if n.s.probe.ackFromIrs {
      IdleIrsKeeps(n, TxComplete, now, busy, posted);
    } else {
      GuardedKeeps(cfg, n, now, false, posted);
      GuardedMoves(cfg, n, n, TxComplete, now);
    }
  }

  lemma ModeReqTxState(cfg: Config, n: Node, ev: Event, now: nat, busy: bool, posted: bool)
    requires ReadyIn(n, ev, busy, posted, ModeReqTx) && now > 0
    ensures Keeps(n, OnModeReqTx(cfg, n, ev, now), ev, busy, posted)
  {
    StillMoves(n, OnModeReqTx(cfg, n, ev, now), ev);
  }

  /** The only place the payload mode changes, and the window is empty there. */
  lemma ModeReqWaitState(cfg: Config, n: Node, ev: Event, now: nat, busy: bool, posted: bool)
    requires ReadyIn(n, ev, busy, posted, ModeReqWait) && now > 0
    ensures Keeps(n, OnModeReqWait(cfg, n, ev, now), ev, busy, posted)
  {
    if ev.RxModeAck? {
      ModeConfirmed(cfg, n, ev, now, busy, posted);
    } else {
      ModeUnconfirmed(cfg, n, ev, now, busy, posted);
    }
  }

  lemma ModeUnconfirmed(cfg: Config, n: Node, ev: Event, now: nat, busy: bool, posted: bool)
    requires ReadyIn(n, ev, busy, posted, ModeReqWait) && !ev.RxModeAck?
    ensures Keeps(n, OnModeReqWait(cfg, n, ev, now), ev, busy, posted)
  {
    if ev.TimerFired? {
      StillKeeps(n, OnModeReqWait(cfg, n, ev, now), ev, busy, posted);
    } else {
      SameKeeps(n, ev, busy, posted);
    }
  }

  lemma ModeConfirmed(cfg: Config, n: Node, ev: Event, now: nat, busy: bool, posted: bool)
    requires ReadyIn(n, ev, busy, posted, ModeReqWait) && ev.RxModeAck?
    ensures Keeps(n, OnModeReqWait(cfg, n, ev, now), ev, busy, posted)
  {
    var s := if !PayloadMode(ev.mode) then n.s
             else n.s.(link := ConfirmMode(n.s.link, n.s.payloadMode, ev.mode, now), payloadMode := ev.mode);
    GuardedKeeps(cfg, n.(s := s), now, busy, posted);
  }

  lemma ModeAckTxState(n: Node, ev: Event, now: nat, busy: bool, posted: bool)
    requires ReadyIn(n, ev, busy, posted, ModeAckTx) && now > 0
    ensures Keeps(n, OnModeAckTx(n, ev, now), ev, busy, posted)
  {
    StillKeeps(n, OnModeAckTx(n, ev, now), ev, busy, posted);
  }

  // ------------------------------------------------------------------ waiting for the ACK

  lemma WaitAckState(cfg: Config, n: Node, ev: Event, now: nat, busy: bool, posted: bool)
    requires ReadyIn(n, ev, busy, posted, WaitAck) && now > 0 && !WrongSession(n.s, ev)
    ensures Keeps(n, OnWaitAck(cfg, n, ev, now), ev, busy, posted)
  {
    match ev
    case RxAck(_, _, _, _) => AckArrives(cfg, n, ev, now, busy, posted);
    case TimerFired(_) => AckTimesOut(cfg, n, ev, now, busy, posted);
    case RxData(_, _, _, _, _, _, _) => DataArrives(cfg, n, ev, now, busy, posted);
    case RxModeReq(_, _) => ModeReqArrives(cfg, n, ev, now, busy, posted);
    case _ => NothingConfirmed(cfg, n, ev, now, busy, posted);
  }

  lemma NothingConfirmed(cfg: Config, n: Node, ev: Event, now: nat, busy: bool, posted: bool)
    requires ReadyIn(n, ev, busy, posted, WaitAck) && Acked(n.s, ev) == 0
    requires !ev.TimerFired? && !ev.RxAck? && !ev.RxData? && !ev.RxModeReq?
    ensures Keeps(n, OnWaitAck(cfg, n, ev, now), ev, busy, posted)
  {
    if ev.RxTurnReq? {
      YieldKeeps(n, ev, now, busy, posted);
    } else {
      SameKeeps(n, ev, busy, posted);
    }
  }

  lemma ModeReqArrives(cfg: Config, n: Node, ev: Event, now: nat, busy: bool, posted: bool)
    requires ReadyIn(n, ev, busy, posted, WaitAck) && ev.RxModeReq? && !WrongSession(n.s, ev)
    ensures Keeps(n, OnWaitAck(cfg, n, ev, now), ev, busy, posted)
  {
    if !PayloadMode(ev.mode) {
      SameKeeps(n, ev, busy, posted);
    }
  }

  lemma AckArrives(cfg: Config, n: Node, ev: Event, now: nat, busy: bool, posted: bool)
    requires ReadyIn(n, ev, busy, posted, WaitAck) && ev.RxAck? && !WrongSession(n.s, ev) && now > 0
    ensures Keeps(n, OnWaitAck(cfg, n, ev, now), ev, busy, posted)
  {
    if Confirmed(n.s.win.slots, ev.ack) > 0 {
      WindowSlides(cfg, n, ev, now, busy, posted);
    } else {
      StillKeeps(n, OnWaitAck(cfg, n, ev, now), ev, busy, posted);
    }
  }

  /** The whole window is confirmed, or what is left goes out again after the guard. */
  lemma WindowSlides(cfg: Config, n: Node, ev: Event, now: nat, busy: bool, posted: bool)
    requires ReadyIn(n, ev, busy, posted, WaitAck) && ev.RxAck? && !WrongSession(n.s, ev) && now > 0
    requires Confirmed(n.s.win.slots, ev.ack) > 0
    ensures Keeps(n, OnAck(cfg, n, ev, now), ev, busy, posted)
  {
    var k := Confirmed(n.s.win.slots, ev.ack);
    var s := n.s.(link := SeePeerSnr(n.s.link, ev.snr));
    SlideIsExact(s, k, n.chunks);
    if k < |n.s.win.slots| {
      PartlyConfirmed(cfg, n, s, k, ev, now, busy, posted);
    } else {
      var w := Slide(s, k).(retries := cfg.dataRetries, lastProgress := now,
          turn := s.turn.(peerHasData := ev.hasData));
      var c := n.(s := w.(win := w.win.(retx := false),
          link := cfg.policy.record(w.link, w.payloadMode, CleanWindow(cfg, s))));
      GuardedKeeps(cfg, c, now, busy, posted);
    }
  }

  lemma PartlyConfirmed(cfg: Config, n: Node, s: Session, k: nat, ev: Event, now: nat, busy: bool, posted: bool)
    requires n.s.conn == Connected && n.s.dflow == WaitAck && !n.s.setup.confirm && WindowFine(n) && now > 0
    requires n.s.lastRx > 0
    requires ev.RxAck? && !WrongSession(n.s, ev) && 0 < k < |n.s.win.slots| && k == Confirmed(n.s.win.slots, ev.ack)
    requires s == n.s.(link := SeePeerSnr(n.s.link, ev.snr))
    ensures Keeps(n, OnAck(cfg, n, ev, now), ev, busy, posted)
  {
    SlideIsExact(s, k, n.chunks);
  }

  lemma AckTimesOut(cfg: Config, n: Node, ev: Event, now: nat, busy: bool, posted: bool)
    requires ReadyIn(n, ev, busy, posted, WaitAck) && ev.TimerFired?
    ensures Keeps(n, OnWaitAck(cfg, n, ev, now), ev, busy, posted)
  {
    if n.s.retries > 0 {
      Retransmits(cfg, n, ev, now, busy, posted);
    } else {
      RoundIsOver(cfg, n, ev, now, busy, posted);
    }
  }

  lemma RoundIsOver(cfg: Config, n: Node, ev: Event, now: nat, busy: bool, posted: bool)
    requires Calm(n, ev) && ev.TimerFired? && (n.s.win.slots != [] || n.ring != []) && n.s.retries == 0
    ensures Keeps(n, OnAckTimeout(cfg, n, now), ev, busy, posted)
  {
    if now - n.s.lastProgress >= cfg.noProgressMs || n.s.teardown.disconnect {
      GivesUp(cfg, n, ev, now, busy, posted);
    } else {
      Persists(cfg, n, ev, now, busy, posted);
    }
  }

  lemma GivesUp(cfg: Config, n: Node, ev: Event, now: nat, busy: bool, posted: bool)
    requires n.s.retries == 0 && (now - n.s.lastProgress >= cfg.noProgressMs || n.s.teardown.disconnect)
    ensures Keeps(n, OnAckTimeout(cfg, n, now), ev, busy, posted)
  {
  }

  lemma Retransmits(cfg: Config, n: Node, ev: Event, now: nat, busy: bool, posted: bool)
    requires Calm(n, ev) && ev.TimerFired? && (n.s.win.slots != [] || n.ring != []) && n.s.retries > 0
    ensures Keeps(n, OnAckTimeout(cfg, n, now), ev, busy, posted)
  {
    var left := if n.s.teardown.disconnect && n.s.retries > 1 then 1 else n.s.retries;
    var c := n.(s := n.s.(retries := left - 1, win := n.s.win.(retx := true)));
    var m := SendDataBurst(cfg, DflowEnter(c, DataTx, Never, Retry), now);
    BurstKeeps(cfg, n, c, now, busy, posted, ev);
    assert OnAckTimeout(cfg, n, now) == m;
  }

  lemma Persists(cfg: Config, n: Node, ev: Event, now: nat, busy: bool, posted: bool)
    requires Calm(n, ev) && ev.TimerFired? && (n.s.win.slots != [] || n.ring != [])
    ensures var c := n.(s := n.s.(retries := cfg.dataRetries, link := PushDown(n.s.link)));
      var (u, started) := MaybeUpgrade(cfg, c, now);
      Keeps(n, if started then u else SendDataBurst(cfg, DflowEnter(u, DataTx, Never, Retry), now), ev, busy, posted)
  {
    var c := n.(s := n.s.(retries := cfg.dataRetries, link := PushDown(n.s.link)));
    UpgradeKeeps(cfg, c, now, busy, posted);
    var (u, started) := MaybeUpgrade(cfg, c, now);
    if started {
      StillMoves(n, u, ev);
    } else {
      BurstKeeps(cfg, n, u, now, busy, posted, ev);
    }
  }

  lemma DataArrives(cfg: Config, n: Node, ev: Event, now: nat, busy: bool, posted: bool)
    requires ReadyIn(n, ev, busy, posted, WaitAck) && ev.RxData? && !WrongSession(n.s, ev) && now > 0
    ensures Keeps(n, OnWaitAck(cfg, n, ev, now), ev, busy, posted)
  {
    if !Fresh(n.s, ev) {
      var m := n.(s := n.s.(link := SeePeerSnr(n.s.link, ev.snr), peerTxMode := ev.mode, lastRx := now));
      BurstKeeps(cfg, n, m, now, busy, posted, ev);
    }
  }

  // ------------------------------------------------------------------ the dispatcher

  lemma DflowKeeps(cfg: Config, n: Node, ev: Event, now: nat, busy: bool, posted: bool)
    requires n.s.conn == Connected && Ready(n, ev, busy, posted) && now > 0
    requires n.s.dflow.WaitAck? ==> !WrongSession(n.s, ev)
    ensures Keeps(n, OnDflow(cfg, n, ev, now), ev, busy, posted)
  {
    match n.s.dflow
    case IdleIss => IdleIssState(cfg, n, ev, now, busy, posted);
    case DataTx => DataTxState(cfg, n, ev, now, busy, posted);
    case WaitAck => WaitAckState(cfg, n, ev, now, busy, posted);
    case IdleIrs => IdleIrsState(n, ev, now, busy, posted);
    case DataRx => DataRxState(n, ev, now, busy, posted);
    case AckTx => AckTxState(cfg, n, ev, now, busy, posted);
    case _ => NegotiationKeeps(cfg, n, ev, now, busy, posted);
  }

  /** The states that ask for or yield the turn, probe the peer, or negotiate a mode. */
  lemma NegotiationKeeps(cfg: Config, n: Node, ev: Event, now: nat, busy: bool, posted: bool)
    requires n.s.conn == Connected && Ready(n, ev, busy, posted) && now > 0
    requires !n.s.dflow.IdleIss? && !n.s.dflow.DataTx? && !n.s.dflow.WaitAck? && !n.s.dflow.IdleIrs?
    requires !n.s.dflow.DataRx? && !n.s.dflow.AckTx?
    ensures Keeps(n, OnDflow(cfg, n, ev, now), ev, busy, posted)
  {
    match n.s.dflow
    case TurnReqTx => TurnReqTxState(n, ev, now, busy, posted);
    case TurnReqWait => TurnReqWaitState(cfg, n, ev, now, busy, posted);
    case TurnAckTx => TurnAckTxState(n, ev, now, busy, posted);
    case KeepaliveTx => KeepaliveTxState(n, ev, now, busy, posted);
    case KeepaliveWait => KeepaliveWaitState(cfg, n, ev, now, busy, posted);
    case KeepaliveAckTx => KeepaliveAckTxState(cfg, n, ev, now, busy, posted);
    case ModeReqTx => ModeReqTxState(cfg, n, ev, now, busy, posted);
    case ModeReqWait => ModeReqWaitState(cfg, n, ev, now, busy, posted);
    case ModeAckTx => ModeAckTxState(n, ev, now, busy, posted);
  }

  lemma ConnectedKeeps(cfg: Config, n: Node, ev: Event, now: nat, busy: bool, posted: bool)
    requires n.s.conn == Connected && Ready(n, ev, busy, posted) && now > 0 && !WrongSession(n.s, ev)
    ensures Keeps(n, OnConnected(cfg, n, ev, now), ev, busy, posted)
  {
    if DrainExpired(n.s, now) || ev.RxDisconnect? {
      assert OnConnected(cfg, n, ev, now).s.conn != Connected;
    } else if ev.AppDisconnect? || ev.RxAccept? || ev.RxKeepalive? {
      AnsweredFirst(cfg, n, ev, now, busy, posted);
    } else {
      PassedOn(cfg, n, ev, now, busy, posted);
    }
  }

  lemma AnsweredFirst(cfg: Config, n: Node, ev: Event, now: nat, busy: bool, posted: bool)
    requires n.s.conn == Connected && Ready(n, ev, busy, posted) && now > 0 && !WrongSession(n.s, ev)
    requires !DrainExpired(n.s, now) && (ev.AppDisconnect? || ev.RxAccept? || ev.RxKeepalive?)
    ensures Keeps(n, OnConnected(cfg, n, ev, now), ev, busy, posted)
  {
    match ev
    case AppDisconnect => HangUp(cfg, n, now, busy, posted);
    case RxAccept(_) => AcceptRepeated(cfg, n, ev, now, busy, posted);
    case RxKeepalive(_) => ProbeArrives(cfg, n, ev, now, busy, posted);
  }

  lemma PassedOn(cfg: Config, n: Node, ev: Event, now: nat, busy: bool, posted: bool)
    requires n.s.conn == Connected && Ready(n, ev, busy, posted) && now > 0 && !WrongSession(n.s, ev)
    requires !DrainExpired(n.s, now)
    requires !ev.AppDisconnect? && !ev.RxAccept? && !ev.RxKeepalive? && !ev.RxDisconnect?
    ensures Keeps(n, OnConnected(cfg, n, ev, now), ev, busy, posted)
  {
    assert ev != TimerFired(Keepalive);
    assert OnConnected(cfg, n, ev, now) == OnDflow(cfg, n, ev, now);
    DflowKeeps(cfg, n, ev, now, busy, posted);
  }

  lemma HangUp(cfg: Config, n: Node, now: nat, busy: bool, posted: bool)
    requires n.s.conn == Connected && Sound(n, busy, posted)
    ensures Keeps(n, OnConnected(cfg, n, AppDisconnect, now), AppDisconnect, busy, posted)
  {
    if !DrainExpired(n.s, now) && (n.ring != [] || n.s.dflow.DataTx? || n.s.dflow.WaitAck?) {
      HangUpLater(cfg, n, now, busy, posted);
    }
  }

  lemma HangUpLater(cfg: Config, n: Node, now: nat, busy: bool, posted: bool)
    requires n.s.conn == Connected && Sound(n, busy, posted) && !DrainExpired(n.s, now)
    requires n.ring != [] || n.s.dflow.DataTx? || n.s.dflow.WaitAck?
    ensures Keeps(n, OnConnected(cfg, n, AppDisconnect, now), AppDisconnect, busy, posted)
  {
    var m := n.(s := n.s.(teardown := n.s.teardown.(disconnect := true, drainUntil := now + cfg.drainMs)));
    assert OnConnected(cfg, n, AppDisconnect, now) == m;
    StillKeeps(n, m, AppDisconnect, busy, posted);
  }

  lemma AcceptRepeated(cfg: Config, n: Node, ev: Event, now: nat, busy: bool, posted: bool)
    requires n.s.conn == Connected && Ready(n, ev, busy, posted) && now > 0 && ev.RxAccept? && !DrainExpired(n.s, now)
    ensures Keeps(n, OnConnected(cfg, n, ev, now), ev, busy, posted)
  {
    if n.s.role == Caller && ev.sid == n.s.sid && n.s.dflow == IdleIss && !n.s.setup.confirm {
      StillKeeps(n, ArmConnectConfirm(n, now), ev, busy, posted);
    } else {
      DflowKeeps(cfg, n, ev, now, busy, posted);
    }
  }

  lemma ProbeArrives(cfg: Config, n: Node, ev: Event, now: nat, busy: bool, posted: bool)
    requires n.s.conn == Connected && Ready(n, ev, busy, posted) && now > 0
    requires ev.RxKeepalive? && !WrongSession(n.s, ev) && !DrainExpired(n.s, now)
    ensures Keeps(n, OnConnected(cfg, n, ev, now), ev, busy, posted)
  {
    if KeepaliveBusy(n.s.dflow) {
      DflowKeeps(cfg, n, ev, now, busy, posted);
    } else {
      ProbeAnsweredLater(cfg, n, ev, now, busy, posted);
    }
  }

  lemma ProbeAnsweredLater(cfg: Config, n: Node, ev: Event, now: nat, busy: bool, posted: bool)
    requires n.s.conn == Connected && Sound(n, busy, posted) && ev.RxKeepalive?
    requires !KeepaliveBusy(n.s.dflow) && !DrainExpired(n.s, now)
    ensures Keeps(n, OnConnected(cfg, n, ev, now), ev, busy, posted)
  {
    if n.s.dflow.IdleIrs? || n.s.dflow.IdleIss? {
      ProbeAnsweredIdle(cfg, n, ev, now, busy, posted);
    } else {
      var m := Send(n.(s := n.s.(probe := n.s.probe.(misses := 0))), KeepaliveAckFrame(n.s.sid));
      assert OnConnected(cfg, n, ev, now) == m;
      StillKeeps(n, m, ev, busy, posted);
    }
  }

  lemma ProbeAnsweredIdle(cfg: Config, n: Node, ev: Event, now: nat, busy: bool, posted: bool)
    requires n.s.conn == Connected && Sound(n, busy, posted) && ev.RxKeepalive? && !DrainExpired(n.s, now)
    requires n.s.dflow.IdleIrs? || n.s.dflow.IdleIss?
    ensures Keeps(n, OnConnected(cfg, n, ev, now), ev, busy, posted)
  {
    StillKeeps(n, OnConnected(cfg, n, ev, now), ev, busy, posted);
  }

  // ------------------------------------------------------------------ outside a connection

  predicate Outside(n: Node, ev: Event, busy: bool, posted: bool, conn: Conn) {
    n.s.conn == conn != Connected && Ready(n, ev, busy, posted) && (HearsPeer(ev) ==> n.s.lastRx > 0)
  }

  lemma DisconnectedState(cfg: Config, n: Node, ev: Event, now: nat, busy: bool, posted: bool)
    requires Outside(n, ev, busy, posted, Disconnected)
    ensures SoundAfter(OnDisconnected(cfg, n, ev, now), ev, busy, posted)
  {
  }

  lemma ListeningState(cfg: Config, n: Node, ev: Event, now: nat, busy: bool, posted: bool)
    requires Outside(n, ev, busy, posted, Listening) && now > 0
    ensures SoundAfter(OnListening(cfg, n, ev, now), ev, busy, posted)
  {
    if ev.RxData? || ev.RxAck? {
      CalleeIsSound(cfg, CancelDisconnect(n), ev, now, busy, posted);
    } else {
      ListeningGoesOn(cfg, n, ev, now, busy, posted);
    }
  }

  lemma ListeningGoesOn(cfg: Config, n: Node, ev: Event, now: nat, busy: bool, posted: bool)
    requires Outside(n, ev, busy, posted, Listening) && !ev.RxData? && !ev.RxAck?
    ensures SoundAfter(OnListening(cfg, n, ev, now), ev, busy, posted)
  {
  }

  lemma CallingState(cfg: Config, n: Node, ev: Event, now: nat, busy: bool, posted: bool)
    requires Outside(n, ev, busy, posted, Calling) && now > 0
    ensures SoundAfter(OnCalling(cfg, n, ev, now), ev, busy, posted)
  {
    if ev.RxAccept? {
      CallerIsSound(cfg, n, ev, now, busy, posted);
    }
  }

  lemma AcceptingState(cfg: Config, n: Node, ev: Event, now: nat, busy: bool, posted: bool)
    requires Outside(n, ev, busy, posted, Accepting) && now > 0
    ensures SoundAfter(OnAccepting(cfg, n, ev, now), ev, busy, posted)
  {
    if ev.RxData? || ev.RxAck? {
      CalleeIsSound(cfg, ForgetOlla(n), ev, now, busy, posted);
    } else {
      AcceptingGoesOn(cfg, n, ev, now, busy, posted);
    }
  }

  lemma AcceptingGoesOn(cfg: Config, n: Node, ev: Event, now: nat, busy: bool, posted: bool)
    requires Outside(n, ev, busy, posted, Accepting) && !ev.RxData? && !ev.RxAck?
    ensures SoundAfter(OnAccepting(cfg, n, ev, now), ev, busy, posted)
  {
    if ev.TimerFired? {
      AcceptingTimesOut(cfg, n, ev, now, busy, posted);
    }
  }

  lemma AcceptingTimesOut(cfg: Config, n: Node, ev: Event, now: nat, busy: bool, posted: bool)
    requires n.s.conn == Accepting && !n.s.setup.confirm && ev == TimerFired(Retry) && n.s.deadlineEvent == Retry
    ensures SoundAfter(OnAccepting(cfg, n, ev, now), ev, busy, posted)
  {
  }

  lemma DisconnectingState(n: Node, ev: Event, now: nat, busy: bool, posted: bool)
    requires Outside(n, ev, busy, posted, Disconnecting)
    ensures SoundAfter(OnDisconnecting(n, ev, now), ev, busy, posted)
  {
  }

  /** A new session starts with an empty window. */
  lemma CalleeIsSound(cfg: Config, n: Node, ev: Event, now: nat, busy: bool, posted: bool)
    requires n.s.conn != Connected && n.s.lastRx > 0 && !n.s.setup.confirm && now > 0 && (ev.RxData? || ev.RxAck?)
    ensures SoundAfter(BecomeCallee(cfg, n, ev, now), ev, busy, posted)
  {
    var m := EnterIdleIrs(SessEnter(n.(s := FreshSession(cfg, n.s, Callee, now)), Connected, Never, Retry, now), now);
    assert Sound(m, busy, posted);
    if ev.RxData? {
      IdleIrsState(m, ev, now, busy, posted);
    }
  }

  lemma CallerIsSound(cfg: Config, n: Node, ev: Event, now: nat, busy: bool, posted: bool)
    requires Outside(n, ev, busy, posted, Calling) && now > 0 && ev.RxAccept?
    ensures SoundAfter(OnCalling(cfg, n, ev, now), ev, busy, posted)
  {
    if ev.sid == n.s.sid && Backlog(n) > 0 {
      var s := FreshSession(cfg, n.s, Caller, now).(
        teardown := n.s.teardown.(disconnect := false), setup := Setup(false, Backlog(n) > 0));
      GuardedKeeps(cfg, SessEnter(n.(s := s), Connected, Never, Retry, now), now, busy, posted);
    }
  }

  // ------------------------------------------------------------------ one event

  lemma NotedIsReady(n: Node, ev: Event, now: nat, busy: bool, posted: bool)
    requires Ready(n, ev, busy, posted) && now > 0
    ensures var m := Noted(n, ev, now);
      && Ready(m, ev, busy, posted) && m.s.conn == n.s.conn && (HearsPeer(ev) ==> m.s.lastRx > 0)
      && WrongSession(m.s, ev) == WrongSession(n.s, ev)
      && m == n.(s := n.s.(lastRx := m.s.lastRx, teardown := m.s.teardown))
  {
    if HearsPeer(ev) {
      HeardIsReady(n, ev, now, busy, posted);
    }
  }

  lemma HeardIsReady(n: Node, ev: Event, now: nat, busy: bool, posted: bool)
    requires Sound(n, busy, posted) && now > 0 && HearsPeer(ev)
    ensures Sound(n.(s := n.s.(lastRx := now)), busy, posted)
    ensures WrongSession(n.s.(lastRx := now), ev) == WrongSession(n.s, ev)
  {
  }

  /** One event keeps every clause of the invariant. */
  lemma DispatchKeeps(cfg: Config, n: Node, ev: Event, now: nat, busy: bool, posted: bool)
    requires Ready(n, ev, busy, posted) && now > 0
    ensures SoundAfter(Dispatch(cfg, n, ev, now), ev, busy, posted)
  {
    NotedIsReady(n, ev, now, busy, posted);
    var m := Noted(n, ev, now);
    if !WrongSession(n.s, ev) {
      if n.s.conn == Connected {
        ConnectedKeeps(cfg, m, ev, now, busy, posted);
      } else {
        OutsideKeeps(cfg, m, ev, now, busy, posted);
      }
    }
  }

  lemma OutsideKeeps(cfg: Config, m: Node, ev: Event, now: nat, busy: bool, posted: bool)
    requires Outside(m, ev, busy, posted, m.s.conn) && now > 0
    ensures SoundAfter(Handle(cfg, m, ev, now), ev, busy, posted)
  {
    match m.s.conn
    case Disconnected => DisconnectedState(cfg, m, ev, now, busy, posted);
    case Listening => ListeningState(cfg, m, ev, now, busy, posted);
    case Calling => CallingState(cfg, m, ev, now, busy, posted);
    case Accepting => AcceptingState(cfg, m, ev, now, busy, posted);
    case Disconnecting => DisconnectingState(m, ev, now, busy, posted);
  }

  /** `ev` takes every state that is sound, for any modem and any producer, to a sound one. */
  ghost predicate Upholds(n: Node, m: Node, ev: Event) {
    forall busy, posted :: Ready(n, ev, busy, posted) ==> SoundAfter(m, ev, busy, posted)
  }

  lemma DispatchUpholds(cfg: Config, n: Node, ev: Event, now: nat)
    requires now > 0
    ensures Upholds(n, Dispatch(cfg, n, ev, now), ev)
  {
    forall busy, posted | Ready(n, ev, busy, posted) ensures SoundAfter(Dispatch(cfg, n, ev, now), ev, busy, posted) {
      DispatchKeeps(cfg, n, ev, now, busy, posted);
    }
  }

  /** While connected, an event confirms exactly the frames it acknowledges, moves bytes from
      the ring to the end of the window, and delivers only the frame expected. */
  lemma DispatchMoves(cfg: Config, n: Node, ev: Event, now: nat, busy: bool, posted: bool)
    requires Ready(n, ev, busy, posted) && now > 0 && n.s.conn == Connected
    requires Dispatch(cfg, n, ev, now).s.conn == Connected
    ensures Moves(n, Dispatch(cfg, n, ev, now), ev)
  {
    NotedIsReady(n, ev, now, busy, posted);
    var m := Noted(n, ev, now);
    if WrongSession(n.s, ev) {
      StillMoves(n, m, ev);
    } else {
      ConnectedKeeps(cfg, m, ev, now, busy, posted);
      assert Acked(m.s, ev) == Acked(n.s, ev);
    }
  }
}
