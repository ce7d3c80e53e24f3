/** The ARQ session as datalink_arq/arq_fsm.c keeps it: one object whose handlers update its
    fields in place. Every handler is proved to do what the function of the same part of Fsm
    says, so all that is proved about Fsm holds of this object. */
module SessionObject {
  import opened Common
  import opened ArqTypes
  import Fsm
  import StationInvariants
  import StationRuns

  /** arq_protocol_mode_timing: a search of the mode table. */
  method TimingOf(mode: int) returns (t: Option<ModeTiming>)
    ensures t == Timing(mode)
  {
    var i := 0;
    while i < |MODE_TABLE|
      invariant 0 <= i <= |MODE_TABLE|
      invariant forall k :: 0 <= k < i ==> MODE_TABLE[k].mode != mode
    {
      if MODE_TABLE[i].mode == mode {
        return Some(MODE_TABLE[i]);
      }
      i := i + 1;
    }
    assert MODE_TABLE[0].mode != mode && MODE_TABLE[1].mode != mode && MODE_TABLE[2].mode != mode;
    assert MODE_TABLE[3].mode != mode;
    assert MODE_TABLE[4].mode != mode && MODE_TABLE[5].mode != mode && MODE_TABLE[6].mode != mode;
    assert MODE_TABLE[7].mode != mode;
    t := None;
  }

  class ArqSession {
    const settings: Config
    const narrow: bool

    /** The scalar fields. Its window stays empty: the slots live in the array. */
    var s: Session
    const window: array<Slot>
    var count: nat

    // What the callbacks reach: the application's TX ring, the modem's queue, what the
    // application has received, and a record of what was read from the ring.
    var ring: seq<bv8>
    var queue: seq<Frame>
    var delivered: seq<seq<bv8>>
    ghost var chunks: seq<seq<bv8>>

    ghost predicate Valid()
      reads this
    {
      && window.Length == BURST_MAX && count <= BURST_MAX && s.win.slots == []
      && settings.policy == Fsm.SourcePolicy(narrow)
    }

    ghost function View(): Node
      reads this, window
      requires Valid()
    {
      Node(s.(win := s.win.(slots := window[..count])), ring, queue, chunks, delivered)
    }

    /** arq_fsm_init */
    constructor (settings: Config, narrow: bool)
      requires settings.policy == Fsm.SourcePolicy(narrow)
      ensures Valid() && fresh(window) && View() == Node(INITIAL, [], [], [], []) && this.settings == settings
      ensures StationInvariants.Sound(View(), false, false)
    {
      this.settings := settings;
      this.narrow := narrow;
      s := INITIAL;
      window := new Slot[BURST_MAX](_ => Slot(0, 0, [], 0));
      count := 0;
      ring, queue, delivered, chunks := [], [], [], [];
    }

    // ---------------------------------------------------------------- entering states

    method SessEnter(conn: Conn, at: Deadline, timer: Timer, now: nat)
      requires Valid()
      modifies this`s
      ensures Valid() && View() == Fsm.SessEnter(old(View()), conn, at, timer, now)
    {
      s := s.(conn := conn, deadline := at, deadlineEvent := timer);
      if conn != Connected {
        s := s.(setup := Setup(false, false));
      } else {
        s := s.(lastProgress := now);
      }
      if conn == Disconnected || conn == Listening {
        s := s.(dflow := IdleIss, peerTxMode := s.initialMode, win := s.win.(inflight := 0));
      }
    }

    method DflowEnter(dflow: Dflow, at: Deadline, timer: Timer)
      requires Valid()
      modifies this`s
      ensures Valid() && View() == Fsm.DflowEnter(old(View()), dflow, at, timer)
    {
      s := s.(dflow := dflow, deadline := at, deadlineEvent := timer);
    }

    method ControlRetry(now: nat) returns (at: Deadline)
      ensures at == Fsm.ControlRetryAt(now)
    {
      var tm := TimingOf(CONTROL_MODE);
      at := At(now + match tm case Some(t) => t.retryMs case None => 7000);
    }

    // ---------------------------------------------------------------- sending

    method Send(f: Frame)
      requires Valid()
      modifies this`queue
      ensures Valid() && View() == Fsm.Send(old(View()), f)
    {
      queue := queue + [f];
    }

    method SendAck()
      requires Valid()
      modifies this`queue
      ensures Valid() && View() == Fsm.SendAck(old(View()))
    {
      Send(AckFrame(s.sid, s.rxExpected, |ring| > 0));
    }

    /** tx_read: takes the oldest bytes, at most `len`. */
    method TxRead(len: nat) returns (chunk: seq<bv8>)
      modifies this`ring
      ensures chunk + ring == old(ring) && |chunk| == Min(|old(ring)|, len)
      ensures |chunk| == Fsm.ReadLen(old(ring), len)
    {
      var n := if |ring| > len then len else |ring|;
      chunk := ring[..n];
      ring := ring[n..];
    }

    /** Fills the free slots of the window from the ring, then hands the whole window to the
        modem, the last frame marked as the end of the burst. */
    method SendDataBurst(now: nat)
      requires Valid()
      modifies this, window
      ensures Valid() && View() == Fsm.SendDataBurst(settings, old(View()), now)
    {
      var tm := TimingOf(s.payloadMode);
      if tm.None? || tm.value.payloadBytes <= FRAME_HDR_SIZE {
        return;
      }
      var userBytes: nat := tm.value.payloadBytes - FRAME_HDR_SIZE;
      var burstMax := settings.burstFrames;
      if burstMax < 1 {
        burstMax := 1;
      }
      if burstMax > BURST_MAX {
        burstMax := BURST_MAX;
      }
      if now < s.startupUntil {
        burstMax := 1;
      }
      TopUp(userBytes, burstMax);
      HandOver();
    }

    method TopUp(userBytes: nat, burstMax: nat)
      requires Valid() && userBytes > 0 && burstMax <= BURST_MAX
      modifies this, window
      ensures Valid() && View() == Fsm.TopUp(old(View()), userBytes, burstMax)
    {
      while count < burstMax
        invariant Valid()
        invariant Fsm.TopUp(View(), userBytes, burstMax) == Fsm.TopUp(old(View()), userBytes, burstMax)
        decreases burstMax - count
      {
        if |ring| == 0 {
          break;
        }
        AddSlot(userBytes);
      }
    }

    /** One fresh frame goes into the first free slot. */
    method AddSlot(userBytes: nat)
      requires Valid() && userBytes > 0 && count < BURST_MAX
      modifies this, window
      ensures Valid() && count == old(count) + 1 && View() == Fsm.AddSlot(old(View()), userBytes)
    {
      var chunk := TxRead(userBytes);
      window[count] := Slot(s.txSeq, s.rxExpected, chunk, userBytes);
      chunks := chunks + [chunk];
      count := count + 1;
      s := s.(txSeq := (s.txSeq + 1) % 256, win := s.win.(inflight := s.win.inflight + |chunk|));
      assert window[..count] == old(window[..count]) + [Slot(old(s).txSeq, old(s).rxExpected, chunk, userBytes)];
    }

    method HandOver()
      requires Valid()
      modifies this`queue
      ensures Valid() && queue == old(queue) + Fsm.BurstFrames(View().s)
    {
      ghost var frames := Fsm.BurstFrames(View().s);
      var i := 0;
      while i < count
        invariant 0 <= i <= count
        invariant queue == old(queue) + frames[..i]
      {
        var slot := window[i];
        var last := i == count - 1;
        queue := queue + [DataFrame(s.sid, slot.seqNo, slot.ack, slot.payload, slot.userBytes, s.payloadMode, last)];
        assert frames[..i + 1] == frames[..i] + [frames[i]];
        i := i + 1;
      }
    }

    // ---------------------------------------------------------------- receiving

    method SeePeerSnr(snr: Snr)
      requires Valid()
      modifies this`s
      ensures Valid() && s == old(s).(link := Fsm.SeePeerSnr(old(s).link, snr))
    {
      match snr {
        case None =>
        case Some(x10) => s := s.(link := s.link.(peerSnrX10 := x10, peerSnrValid := true));
      }
    }

    method DeliverRxChecked(ev: Event) returns (isNew: bool)
      requires Valid() && ev.RxData?
      modifies this`delivered, this`s
      ensures Valid() && View() == Fsm.DeliverChecked(old(View()), ev) && isNew == Fsm.Fresh(old(s), ev)
    {
      if ev.seqNo != s.rxExpected {
        return false;
      }
      delivered := delivered + [ev.payload];
      s := s.(rxExpected := (ev.seqNo + 1) % 256);
      return true;
    }

    method ArmAckDeadline(ev: Event, now: nat)
      requires Valid() && ev.RxData?
      modifies this`s
      ensures Valid() && View() == Fsm.ArmAckDeadline(old(View()), ev, now)
    {
      var wait := CHANNEL_GUARD_MS;
      if !ev.burstEnd {
        var tm := TimingOf(s.peerTxMode);
        var frameMs := match tm case Some(t) => t.frameMs case None => 5000;
        wait := frameMs * 3 / 2;
      }
      DflowEnter(DataRx, At(now + wait), AckTimer);
    }

    method ReceiveData(ev: Event, now: nat)
      requires Valid() && ev.RxData?
      modifies this
      ensures Valid() && View() == Fsm.ReceiveData(old(View()), ev, now)
    {
      SeePeerSnr(ev.snr);
      s := s.(peerTxMode := ev.mode);
      var isNew := DeliverRxChecked(ev);
      s := s.(lastRx := now, turn := s.turn.(peerHasData := if isNew then ev.hasData else true));
      ArmAckDeadline(ev, now);
    }

    // ---------------------------------------------------------------- choosing a mode

    method SelectBestMode(backlog: nat) returns (mode: int)
      requires Valid()
      ensures mode == Fsm.SelectBestMode(narrow, s.link, s.payloadMode, backlog)
    {
      var effective := Fsm.ClampToBandwidth(narrow, s.payloadMode);
      if s.link.badRun >= HARD_LOSS_THRESHOLD && Fsm.ModeRank(effective) > 0 {
        return DATAC15;
      }
      var cur := TimingOf(effective);
      if cur.Some? && backlog <= cur.value.payloadBytes - FRAME_HDR_SIZE {
        return effective;
      }
      var snr := Fsm.PeerSnr(s.link) + s.link.olla;
      var rank := Fsm.ModeRank(effective);
      if !narrow && Fsm.Supports(QAM16FM, rank, snr, backlog) {
        return QAM16FM;
      }
      if !narrow && Fsm.Supports(QAM16C2, rank, snr, backlog) {
        return QAM16C2;
      }
      if !narrow && Fsm.Supports(DATAC17, rank, snr, backlog) {
        return DATAC17;
      }
      if !narrow && Fsm.Supports(DATAC1, rank, snr, backlog) {
        return DATAC1;
      }
      if Fsm.Supports(DATAC3, rank, snr, backlog) {
        return DATAC3;
      }
      if Fsm.Supports(DATAC4, rank, snr, backlog) {
        return DATAC4;
      }
      return DATAC15;
    }

    method RecordTxOutcome(clean: bool)
      requires Valid()
      modifies this`s
      ensures Valid() && s == old(s).(link := settings.policy.record(old(s).link, old(s).payloadMode, clean))
    {
      var l := s.link;
      if !clean && Fsm.ForwardLinkFine(l, s.payloadMode) {
        return;
      }
      l := l.(olla := Fsm.OllaUpdate(l.olla, clean));
      if !clean {
        if l.speedLevel > 0 {
          l := l.(speedLevel := l.speedLevel - 1);
        }
        l := l.(successes := 0, badRun := l.badRun + 1);
      } else {
        l := l.(badRun := 0, successes := l.successes + 1);
        if l.successes >= LADDER_UP_SUCCESSES && l.speedLevel < LADDER_LEVELS - 1 {
          l := l.(speedLevel := l.speedLevel + 1, successes := 0);
        }
      }
      s := s.(link := l);
    }

    /** Starts a mode negotiation if one is warranted, and says whether it did. */
    method MaybeUpgradeMode(now: nat) returns (started: bool)
      requires Valid()
      modifies this`s, this`queue
      ensures Valid() && (View(), started) == Fsm.MaybeUpgrade(settings, old(View()), now)
    {
      if now < s.startupUntil || count > 0 {
        return false;
      }
      if !s.link.peerSnrValid && s.link.badRun < HARD_LOSS_THRESHOLD {
        return false;
      }
      assert Fsm.MayNegotiate(View().s, now);
      var desired := SelectBestMode(|ring|);
      var choice := Fsm.ChooseMode(narrow, s.link, s.payloadMode, |ring|, now);
      assert choice == settings.policy.choose(s.link, s.payloadMode, |ring|, now);
      if desired == s.payloadMode {
        s := s.(link := s.link.(upgradeCount := 0));
        return false;
      }
      var up := Fsm.ModeRank(desired) > Fsm.ModeRank(s.payloadMode);
      var down := Fsm.ModeRank(desired) < Fsm.ModeRank(s.payloadMode);
      if up && now < s.link.holdUntil {
        return false;
      }
      if s.link.upgradeCount + 1 < MODE_SWITCH_HYST_COUNT {
        s := s.(link := s.link.(upgradeCount := s.link.upgradeCount + 1));
        return false;
      }
      if down && s.link.badRun >= HARD_LOSS_THRESHOLD {
        s := s.(link := s.link.(holdUntil := now + MODE_HOLD_AFTER_DOWNGRADE_MS, badRun := 0));
      }
      s := s.(link := s.link.(upgradeCount := 0), pendingTxMode := desired, retries := MODE_REQ_RETRIES);
      Send(ModeReqFrame(s.sid, desired));
      DflowEnter(ModeReqTx, Never, Retry);
      return true;
    }

    // ---------------------------------------------------------------- roles

    method StartDisconnect(now: nat)
      requires Valid()
      modifies this`s
      ensures Valid() && View() == Fsm.StartDisconnect(settings, old(View()), now)
    {
      s := s.(teardown := s.teardown.(disconnect := false), retries := settings.disconnectRetries);
      SessEnter(Disconnecting, At(now + CHANNEL_GUARD_MS), AckTimer, now);
    }

    method EnterIdleIss(now: nat)
      requires Valid()
      modifies this, window
      ensures Valid() && View() == Fsm.EnterIdleIss(settings, old(View()), now)
    {
      s := s.(retries := settings.dataRetries);
      if |ring| > 0 {
        DflowEnter(DataTx, Never, Retry);
        SendDataBurst(now);
      } else if s.teardown.disconnect {
        StartDisconnect(now);
      } else {
        DflowEnter(IdleIss, Never, Retry);
      }
    }

    method EnterIdleIssGuarded(now: nat)
      requires Valid()
      modifies this`s, this`queue
      ensures Valid() && View() == Fsm.EnterIdleIssGuarded(settings, old(View()), now)
    {
      s := s.(retries := settings.dataRetries);
      if |ring| > 0 {
        var started := MaybeUpgradeMode(now);
        if started {
          return;
        }
        DflowEnter(DataTx, At(now + ISS_POST_ACK_GUARD_MS), AckTimer);
      } else if s.teardown.disconnect {
        StartDisconnect(now);
      } else {
        DflowEnter(IdleIss, Never, Retry);
      }
    }

    method EnterIdleIrs(now: nat)
      requires Valid()
      modifies this`s
      ensures Valid() && View() == Fsm.EnterIdleIrs(old(View()), now)
    {
      DflowEnter(IdleIrs, At(now + PEER_PAYLOAD_HOLD_MS), PeerBacklog);
    }

    /** notify_disconnected, which empties the TX ring, then enter_idle_after_call. */
    method EndCall(now: nat)
      requires Valid()
      modifies this`s, this`ring
      ensures Valid() && View() == Fsm.EndCall(old(View()), now)
    {
      ring := [];
      SessEnter(if s.teardown.listen then Listening else Disconnected, Never, Retry, now);
    }

    method ArmConnectConfirm(now: nat)
      requires Valid()
      modifies this`s
      ensures Valid() && View() == Fsm.ArmConnectConfirm(old(View()), now)
    {
      s := s.(setup := s.setup.(confirm := true));
      DflowEnter(AckTx, At(now + ISS_POST_ACK_GUARD_MS), AckTimer);
    }

    method YieldTurn(now: nat)
      requires Valid()
      modifies this`s
      ensures Valid() && View() == Fsm.YieldTurn(old(View()), now)
    {
      DflowEnter(TurnAckTx, At(now + CHANNEL_GUARD_MS), AckTimer);
    }

    method RequestTurn(now: nat)
      requires Valid()
      modifies this`s, this`queue
      ensures Valid() && View() == Fsm.RequestTurn(old(View()), now)
    {
      Send(TurnReqFrame(s.sid, s.rxExpected));
      s := s.(retries := TURN_REQ_RETRIES);
      var at := ControlRetry(now);
      DflowEnter(TurnReqTx, at, Retry);
    }

    /** An implicit ACK: the whole window counts as delivered. */
    method ClearWindow()
      requires Valid()
      modifies this`s, this`count
      ensures Valid() && View() == old(View()).(s := Fsm.ClearWindow(settings, old(View()).s))
    {
      RecordTxOutcome(!s.win.retx && s.retries == settings.dataRetries);
      count := 0;
      s := s.(win := Window([], false, 0), retries := settings.dataRetries);
    }

    method AcceptModeReq(mode: int, now: nat)
      requires Valid()
      modifies this`s
      ensures Valid() && View() == Fsm.AcceptModeReq(old(View()), mode, now)
    {
      s := s.(peerTxMode := mode);
      DflowEnter(ModeAckTx, At(now + CHANNEL_GUARD_MS), AckTimer);
    }

    // ---------------------------------------------------------------- outside a connection

    method FreshModes()
      requires Valid()
      modifies this`s
      ensures Valid() && s == Fsm.FreshModes(old(s))
    {
      s := s.(payloadMode := DATAC15, peerTxMode := DATAC15,
              link := s.link.(speedLevel := 0, successes := 0, olla := 0.0, badRun := 0, holdUntil := 0));
    }

    method FreshSession(role: Role, now: nat)
      requires Valid()
      modifies this`s, this`count
      ensures Valid() && View() == old(View()).(s := Fsm.FreshSession(settings, old(View()).s, role, now))
    {
      count := 0;
      s := s.(role := role, txSeq := 0, rxExpected := 0, win := Window([], false, 0), retries := settings.dataRetries,
              payloadMode := DATAC15, peerTxMode := DATAC15, pendingTxMode := 0,
              link := s.link.(upgradeCount := 0, speedLevel := 0, successes := 0),
              startupUntil := now + STARTUP_MAX_MS);
    }

    method OnDisconnected(ev: Event, now: nat)
      requires Valid()
      modifies this`s, this`ring, this`queue
      ensures Valid() && View() == Fsm.OnDisconnected(settings, old(View()), ev, now)
    {
      match ev {
        case TxComplete =>
          if s.teardown.notify {
            s := s.(teardown := s.teardown.(notify := false));
            EndCall(now);
          }
        case AppListen => SessEnter(Listening, Never, Retry, now);
        case AppConnect =>
          s := s.(sid := Fsm.NewSessionId(now), retries := settings.callRetries,
                  teardown := s.teardown.(disconnect := false, drainUntil := 0));
          FreshModes();
          Send(CallFrame(s.sid, false));
          SessEnter(Calling, At(now + settings.callIntervalMs), Retry, now);
        case _ =>
      }
    }

    method BecomeCallee(ev: Event, now: nat)
      requires Valid()
      modifies this, window
      ensures Valid() && View() == Fsm.BecomeCallee(settings, old(View()), ev, now)
    {
      FreshSession(Callee, now);
      SessEnter(Connected, Never, Retry, now);
      EnterIdleIrs(now);
      if ev.RxData? {
        OnDflow(ev, now);
      }
    }

    method OnListening(ev: Event, now: nat)
      requires Valid()
      modifies this, window
      ensures Valid() && View() == Fsm.OnListening(settings, old(View()), ev, now)
    {
      match ev {
        case RxCall(sid) => AcceptCall(sid, now);
        case RxAccept(sid) =>
          if sid == s.sid {
            Send(DisconnectFrame(s.sid));
          }
        case AppConnect =>
          SessEnter(Disconnected, Never, Retry, now);
          OnDisconnected(ev, now);
        case AppStopListen => SessEnter(Disconnected, Never, Retry, now);
        case RxData(_, _, _, _, _, _, _) => ConnectLate(ev, now);
        case RxAck(_, _, _, _) => ConnectLate(ev, now);
        case _ =>
      }
    }

    method AcceptCall(sid: Byte, now: nat)
      requires Valid()
      modifies this`s
      ensures Valid() && View() == Fsm.OnListening(settings, old(View()), RxCall(sid), now)
    {
      s := s.(sid := sid, retries := settings.acceptRetries);
      FreshModes();
      SessEnter(Accepting, At(now + CHANNEL_GUARD_MS), Retry, now);
    }

    /** The caller's DATA or ACK comes after the accepting window has closed. */
    method ConnectLate(ev: Event, now: nat)
      requires Valid() && (ev.RxData? || ev.RxAck?)
      modifies this, window
      ensures Valid()
      ensures var n := old(View());
        View() == if ev.sid == n.s.sid then Fsm.BecomeCallee(settings, Fsm.CancelDisconnect(n), ev, now) else n
    {
      if ev.sid == s.sid {
        s := s.(teardown := s.teardown.(disconnect := false));
        BecomeCallee(ev, now);
      }
    }

    method OnCalling(ev: Event, now: nat)
      requires Valid()
      modifies this, window
      ensures Valid() && View() == Fsm.OnCalling(settings, old(View()), ev, now)
    {
      match ev {
        case RxAccept(sid) =>
          if sid == s.sid {
            CallAccepted(now);
          }
        case TimerFired(Retry) =>
          if s.retries > 0 {
            s := s.(retries := s.retries - 1);
            Send(CallFrame(s.sid, false));
            s := s.(deadline := At(now + settings.callIntervalMs));
          } else {
            EndCall(now);
          }
        case AppDisconnect => EndCall(now);
        case _ =>
      }
    }

    /** The callee has answered: data first if there is any, else a confirming ACK. */
    method CallAccepted(now: nat)
      requires Valid()
      modifies this, window
      ensures Valid() && View() == Fsm.OnCalling(settings, old(View()), RxAccept(old(s).sid), now)
    {
      var backlog := |ring| > 0;
      FreshSession(Caller, now);
      s := s.(teardown := s.teardown.(disconnect := false), setup := Setup(false, backlog));
      SessEnter(Connected, Never, Retry, now);
      if backlog {
        EnterIdleIssGuarded(now);
      } else {
        ArmConnectConfirm(now);
      }
    }

    method OnAccepting(ev: Event, now: nat)
      requires Valid()
      modifies this, window
      ensures Valid() && View() == Fsm.OnAccepting(settings, old(View()), ev, now)
    {
      if ev.RxData? || ev.RxAck? {
        s := s.(link := s.link.(olla := 0.0));
        BecomeCallee(ev, now);
      } else {
        StillAccepting(ev, now);
      }
    }

    method StillAccepting(ev: Event, now: nat)
      requires Valid() && !ev.RxData? && !ev.RxAck?
      modifies this`s, this`ring, this`queue
      ensures Valid() && View() == Fsm.OnAccepting(settings, old(View()), ev, now)
    {
      match ev {
        case RxCall(_) => s := s.(retries := settings.acceptRetries);
        case TxComplete => s := s.(deadline := At(now + ACCEPT_RX_WINDOW_MS));
        case TimerFired(Retry) => AcceptAgain(now);
        case AppConnect =>
          SessEnter(Disconnected, Never, Retry, now);
          OnDisconnected(ev, now);
        case AppDisconnect => EndCall(now);
        case _ =>
      }
    }

    method AcceptAgain(now: nat)
      requires Valid()
      modifies this`s, this`queue
      ensures Valid() && View() == Fsm.OnAccepting(settings, old(View()), TimerFired(Retry), now)
    {
      if s.retries > 0 {
        s := s.(retries := s.retries - 1);
        Send(CallFrame(s.sid, true));
        s := s.(deadline := At(now + settings.callIntervalMs));
      } else {
        SessEnter(Listening, Never, Retry, now);
      }
    }

    method OnDisconnecting(ev: Event, now: nat)
      requires Valid()
      modifies this
      ensures Valid() && View() == Fsm.OnDisconnecting(old(View()), ev, now)
    {
      match ev {
        case TimerFired(AckTimer) =>
          Send(DisconnectFrame(s.sid));
          var at := ControlRetry(now);
          s := s.(deadline := at, deadlineEvent := Retry);
        case RxDisconnect(_) => EndCall(now);
        case TimerFired(Retry) =>
          if s.retries > 0 {
            s := s.(retries := s.retries - 1);
            Send(DisconnectFrame(s.sid));
            var at := ControlRetry(now);
            s := s.(deadline := at);
          } else {
            EndCall(now);
          }
        case _ =>
      }
    }

    // ---------------------------------------------------------------- connected

    /** A DISCONNECT goes out at once and the call is cleared on its retries. */
    method GiveUp(now: nat)
      requires Valid()
      modifies this`s, this`queue
      ensures Valid()
      ensures View() == Fsm.SessEnter(
        Fsm.Send(old(View()), DisconnectFrame(old(s).sid)).(s := old(View()).s.(retries := settings.disconnectRetries)),
        Disconnecting, Fsm.ControlRetryAt(now), Retry, now)
    {
      Send(DisconnectFrame(s.sid));
      s := s.(retries := settings.disconnectRetries);
      var at := ControlRetry(now);
      SessEnter(Disconnecting, at, Retry, now);
    }

    method OnConnected(ev: Event, now: nat)
      requires Valid()
      modifies this, window
      ensures Valid() && View() == Fsm.OnConnected(settings, old(View()), ev, now)
    {
      if s.teardown.disconnect && s.teardown.drainUntil != 0 && now >= s.teardown.drainUntil {
        s := s.(teardown := s.teardown.(drainUntil := 0));
        StartDisconnect(now);
      } else {
        OnConnectedEvent(ev, now);
      }
    }

    method OnConnectedEvent(ev: Event, now: nat)
      requires Valid() && !Fsm.DrainExpired(s, now)
      modifies this, window
      ensures Valid() && View() == Fsm.OnConnected(settings, old(View()), ev, now)
    {
      match ev {
        case AppDisconnect => OnHangUp(now);
        case RxDisconnect(_) => OnPeerHangUp(ev, now);
        case RxAccept(_) => OnAcceptAgain(ev, now);
        case TimerFired(Keepalive) => OnKeepaliveTimer(now);
        case RxKeepalive(_) => OnKeepalive(ev, now);
        case _ => OnDflow(ev, now);
      }
    }

    /** The disconnect waits while data is queued or in flight. */
    method OnHangUp(now: nat)
      requires Valid() && !Fsm.DrainExpired(s, now)
      modifies this`s
      ensures Valid() && View() == Fsm.OnConnected(settings, old(View()), AppDisconnect, now)
    {
      if |ring| > 0 || s.dflow.DataTx? || s.dflow.WaitAck? {
        s := s.(teardown := s.teardown.(disconnect := true, drainUntil := now + settings.drainMs));
      } else {
        StartDisconnect(now);
      }
    }

    method OnPeerHangUp(ev: Event, now: nat)
      requires Valid() && ev.RxDisconnect? && !Fsm.DrainExpired(s, now)
      modifies this`s, this`queue
      ensures Valid() && View() == Fsm.OnConnected(settings, old(View()), ev, now)
    {
      Send(DisconnectFrame(s.sid));
      s := s.(teardown := s.teardown.(disconnect := false, notify := true));
      SessEnter(Disconnected, Never, Retry, now);
    }

    /** The callee repeats ACCEPT: it has not heard the confirmation. */
    method OnAcceptAgain(ev: Event, now: nat)
      requires Valid() && ev.RxAccept? && !Fsm.DrainExpired(s, now)
      modifies this, window
      ensures Valid() && View() == Fsm.OnConnected(settings, old(View()), ev, now)
    {
      if s.role == Caller && ev.sid == s.sid && s.dflow == IdleIss && !s.setup.confirm {
        ArmConnectConfirm(now);
      } else {
        OnDflow(ev, now);
      }
    }

    method OnKeepaliveTimer(now: nat)
      requires Valid() && !Fsm.DrainExpired(s, now)
      modifies this`s, this`queue
      ensures Valid() && View() == Fsm.OnConnected(settings, old(View()), TimerFired(Keepalive), now)
    {
      s := s.(probe := s.probe.(fromIrs := false));
      SendKeepalive(now);
    }

    method SendKeepalive(now: nat)
      requires Valid()
      modifies this`s, this`queue
      ensures Valid()
      ensures var m := Fsm.Send(old(View()), KeepaliveFrame(old(s).sid));
        View() == Fsm.DflowEnter(m, KeepaliveTx, Fsm.ControlRetryAt(now), Retry)
    {
      Send(KeepaliveFrame(s.sid));
      var at := ControlRetry(now);
      DflowEnter(KeepaliveTx, at, Retry);
    }

    /** A probe is answered from every state: after a guard when idle, else at once. */
    method OnKeepalive(ev: Event, now: nat)
      requires Valid() && ev.RxKeepalive? && !Fsm.DrainExpired(s, now)
      modifies this, window
      ensures Valid() && View() == Fsm.OnConnected(settings, old(View()), ev, now)
    {
      if s.dflow.KeepaliveTx? || s.dflow.KeepaliveWait? || s.dflow.KeepaliveAckTx? {
        OnDflow(ev, now);
      } else {
        s := s.(probe := s.probe.(misses := 0));
        if s.dflow.IdleIrs? || s.dflow.IdleIss? {
          s := s.(probe := s.probe.(ackFromIrs := s.dflow.IdleIrs?));
          DflowEnter(KeepaliveAckTx, At(now + CHANNEL_GUARD_MS), AckTimer);
        } else {
          Send(KeepaliveAckFrame(s.sid));
        }
      }
    }

    // ---------------------------------------------------------------- data flow

    method OnDflow(ev: Event, now: nat)
      requires Valid()
      modifies this, window
      ensures Valid() && View() == Fsm.OnDflow(settings, old(View()), ev, now)
    {
      match s.dflow {
        case IdleIss => OnIdleIss(ev, now);
        case DataTx => OnDataTx(ev, now);
        case WaitAck => OnWaitAck(ev, now);
        case IdleIrs => OnIdleIrs(ev, now);
        case DataRx => OnDataRx(ev, now);
        case AckTx => OnAckTx(ev, now);
        case _ => OnNegotiation(ev, now);
      }
    }

    /** The states that ask for or yield the turn, probe the peer, or negotiate a mode. */
    method OnNegotiation(ev: Event, now: nat)
      requires Valid()
      requires !s.dflow.IdleIss? && !s.dflow.DataTx? && !s.dflow.WaitAck? && !s.dflow.IdleIrs?
      requires !s.dflow.DataRx? && !s.dflow.AckTx?
      modifies this, window
      ensures Valid() && View() == Fsm.OnDflow(settings, old(View()), ev, now)
    {
      match s.dflow {
        case TurnReqTx => OnTurnReqTx(ev, now);
        case TurnReqWait => OnTurnReqWait(ev, now);
        case TurnAckTx => OnTurnAckTx(ev, now);
        case ModeReqTx => OnModeReqTx(ev, now);
        case ModeReqWait => OnModeReqWait(ev, now);
        case ModeAckTx => OnModeAckTx(ev, now);
        case KeepaliveTx => OnProbing(ev, now);
        case KeepaliveWait => OnProbing(ev, now);
        case KeepaliveAckTx => OnProbing(ev, now);
      }
    }

    method OnProbing(ev: Event, now: nat)
      requires Valid() && (s.dflow.KeepaliveTx? || s.dflow.KeepaliveWait? || s.dflow.KeepaliveAckTx?)
      modifies this, window
      ensures Valid() && View() == Fsm.OnDflow(settings, old(View()), ev, now)
    {
      match s.dflow {
        case KeepaliveTx => OnKeepaliveTx(ev, now);
        case KeepaliveWait => OnKeepaliveWait(ev, now);
        case KeepaliveAckTx => OnKeepaliveAckTx(ev, now);
      }
    }

    method OnIdleIss(ev: Event, now: nat)
      requires Valid()
      modifies this, window
      ensures Valid() && View() == Fsm.OnIdleIss(settings, old(View()), ev, now)
    {
      match ev {
        case AppDataReady =>
          if |ring| > 0 {
            if s.setup.guard {
              s := s.(setup := s.setup.(guard := false));
              DflowEnter(DataTx, At(now + ISS_POST_ACK_GUARD_MS), AckTimer);
            } else {
              DflowEnter(DataTx, Never, Retry);
              SendDataBurst(now);
            }
          }
        case RxData(_, _, _, _, _, _, _) => ReceiveData(ev, now);
        case RxTurnReq(_) => YieldTurn(now);
        case _ =>
      }
    }

    method OnDataTx(ev: Event, now: nat)
      requires Valid()
      modifies this, window
      ensures Valid() && View() == Fsm.OnDataTx(settings, old(View()), ev, now)
    {
      if ev == TimerFired(AckTimer) {
        SendDataBurst(now);
      } else if ev.TxComplete? {
        AwaitAck(now);
      } else if ev.RxTurnReq? {
        OnTurnReqInDataTx(now);
      }
    }

    /** The turn is given away in the guard, before the burst has been handed over. */
    method OnTurnReqInDataTx(now: nat)
      requires Valid()
      modifies this`s
      ensures Valid()
      ensures var n := old(View());
        View() == if n.s.deadlineEvent == AckTimer && n.s.deadline != Never then Fsm.YieldTurn(n, now) else n
    {
      if s.deadlineEvent == AckTimer && s.deadline != Never {
        YieldTurn(now);
      }
    }

    method AwaitAck(now: nat)
      requires Valid()
      modifies this`s
      ensures Valid()
      ensures var n := old(View());
        View() == Fsm.DflowEnter(n, WaitAck, At(now + Fsm.AckTimeoutMs(n.s.payloadMode, 9000)), AckTimer)
    {
      var tm := TimingOf(s.payloadMode);
      var timeout := match tm case Some(t) => t.ackTimeoutMs case None => 9000;
      DflowEnter(WaitAck, At(now + timeout), AckTimer);
    }

    /** Drops the first `k` slots and what they count for. */
    method Slide(k: nat)
      requires Valid() && k <= count
      modifies this`s, this`count, window
      ensures Valid() && View() == old(View()).(s := Fsm.Slide(old(View()).s, k))
    {
      var confirmed := PayloadBytes(k);
      var left := s.win.inflight - confirmed;
      if left < 0 {
        left := 0;
      }
      assert window[..count][..k] == window[..k];
      s := s.(win := s.win.(inflight := left));
      ShiftDown(k);
    }

    method PayloadBytes(k: nat) returns (sum: int)
      requires Valid() && k <= count
      ensures sum == Fsm.PayloadSum(window[..k])
    {
      sum := 0;
      var i := 0;
      while i < k
        invariant 0 <= i <= k
        invariant sum == Fsm.PayloadSum(window[..i])
      {
        assert window[..i + 1][..i] == window[..i];
        sum := sum + |window[i].payload|;
        i := i + 1;
      }
    }

    /** Moves the slots from `k` on to the front, one by one. */
    method ShiftDown(k: nat)
      requires Valid() && k <= count
      modifies this`count, window
      ensures Valid() && count == old(count) - k && window[..count] == old(window[..count])[k..]
    {
      ghost var slots := window[..count];
      var i := k;
      while i < count
        modifies window
        invariant k <= i <= count
        invariant window[..i - k] == slots[k..i]
        invariant forall j :: i <= j < count ==> window[j] == slots[j]
      {
        window[i - k] := window[i];
        i := i + 1;
      }
      assert window[..count - k] == slots[k..];
      count := count - k;
    }

    method Confirmed(ack: Byte) returns (k: nat)
      requires Valid()
      ensures k == Fsm.Confirmed(window[..count], ack) && k <= count
    {
      k := 0;
      if count > 0 {
        var dist := (ack - window[0].seqNo) % 256;
        if dist >= 1 && dist <= count {
          k := dist;
        }
      }
    }

    method OnAck(ev: Event, now: nat)
      requires Valid() && ev.RxAck?
      modifies this, window
      ensures Valid() && View() == Fsm.OnAck(settings, old(View()), ev, now)
    {
      var k := Confirmed(ev.ack);
      SeePeerSnr(ev.snr);
      if k > 0 {
        AckConfirms(k, ev, now);
      }
    }

    method AckConfirms(k: nat, ev: Event, now: nat)
      requires Valid() && ev.RxAck? && 0 < k <= count
      modifies this, window
      ensures Valid() && View() == Fsm.AckConfirms(settings, old(View()), k, ev.hasData, now)
    {
      var clean := !s.win.retx && s.retries == settings.dataRetries;
      Slide(k);
      s := s.(retries := settings.dataRetries, lastProgress := now, turn := s.turn.(peerHasData := ev.hasData));
      if count > 0 {
        s := s.(win := s.win.(retx := true));
        RecordTxOutcome(false);
        DflowEnter(DataTx, At(now + ISS_POST_ACK_GUARD_MS), AckTimer);
      } else {
        WindowDone(clean, ev.hasData, now);
      }
    }

    /** The whole window is acknowledged: the turn goes to the peer if it has data. */
    method WindowDone(clean: bool, hasData: bool, now: nat)
      requires Valid()
      modifies this`s, this`queue
      ensures Valid()
      ensures var s := old(View()).s;
        var m := old(View()).(s := s.(win := s.win.(retx := false),
            link := settings.policy.record(s.link, s.payloadMode, clean)));
        View() == if hasData then Fsm.EnterIdleIrs(m, now) else Fsm.EnterIdleIssGuarded(settings, m, now)
    {
      RecordTxOutcome(clean);
      s := s.(win := s.win.(retx := false));
      if hasData {
        EnterIdleIrs(now);
      } else {
        EnterIdleIssGuarded(now);
      }
    }

    method OnAckTimeout(now: nat)
      requires Valid()
      modifies this, window
      ensures Valid() && View() == Fsm.OnAckTimeout(settings, old(View()), now)
    {
      if s.retries > 0 {
        if s.teardown.disconnect && s.retries > 1 {
          s := s.(retries := 1);
        }
        s := s.(retries := s.retries - 1, win := s.win.(retx := true));
        DflowEnter(DataTx, Never, Retry);
        SendDataBurst(now);
      } else if now - s.lastProgress >= settings.noProgressMs || s.teardown.disconnect {
        s := s.(teardown := s.teardown.(disconnect := false));
        GiveUp(now);
      } else {
        s := s.(retries := settings.dataRetries);
        if s.link.badRun < RETRY_DOWNGRADE_THRESHOLD {
          s := s.(link := s.link.(badRun := RETRY_DOWNGRADE_THRESHOLD));
        }
        var started := MaybeUpgradeMode(now);
        if started {
          return;
        }
        DflowEnter(DataTx, Never, Retry);
        SendDataBurst(now);
      }
    }

    method OnDataInWaitAck(ev: Event, now: nat)
      requires Valid() && ev.RxData?
      modifies this, window
      ensures Valid() && View() == Fsm.OnDataInWaitAck(settings, old(View()), ev, now)
    {
      SeePeerSnr(ev.snr);
      s := s.(peerTxMode := ev.mode, lastRx := now);
      if ev.seqNo == s.rxExpected {
        ClearWindow();
        s := s.(lastProgress := now, turn := s.turn.(peerHasData := ev.hasData));
        var _ := DeliverRxChecked(ev);
        ArmAckDeadline(ev, now);
      } else {
        DflowEnter(DataTx, Never, Retry);
        SendDataBurst(now);
      }
    }

    method OnWaitAck(ev: Event, now: nat)
      requires Valid()
      modifies this, window
      ensures Valid() && View() == Fsm.OnWaitAck(settings, old(View()), ev, now)
    {
      if ev.RxAck? {
        OnAck(ev, now);
      } else if ev == TimerFired(AckTimer) {
        OnAckTimeout(now);
      } else if ev.RxData? {
        OnDataInWaitAck(ev, now);
      } else {
        OnRequestInWaitAck(ev, now);
      }
    }

    /** The peer asks for the turn or for another mode. */
    method OnRequestInWaitAck(ev: Event, now: nat)
      requires Valid() && !ev.RxAck? && !ev.RxData? && ev != TimerFired(AckTimer)
      modifies this`s, this`count
      ensures Valid() && View() == Fsm.OnWaitAck(settings, old(View()), ev, now)
    {
      match ev {
        case RxTurnReq(_) => YieldTurn(now);
        case RxModeReq(_, mode) => OnModeReqInWaitAck(mode, now);
        case _ =>
      }
    }

    /** The peer has taken the turn, so it has the window's frame. */
    method OnModeReqInWaitAck(mode: int, now: nat)
      requires Valid()
      modifies this`s, this`count
      ensures Valid()
      ensures var n := old(View());
        View() == if PayloadMode(mode) then Fsm.AcceptModeReq(n.(s := Fsm.ClearWindow(settings, n.s)), mode, now) else n
    {
      if PayloadMode(mode) {
        ClearWindow();
        AcceptModeReq(mode, now);
      }
    }

    method OnIdleIrs(ev: Event, now: nat)
      requires Valid()
      modifies this
      ensures Valid() && View() == Fsm.OnIdleIrs(old(View()), ev, now)
    {
      match ev {
        case RxData(_, _, _, _, _, _, _) => ReceiveData(ev, now);
        case TimerFired(PeerBacklog) => OnHoldElapsed(now);
        case AppDataReady => RequestTurn(now);
        case RxTurnReq(_) => YieldTurn(now);
        case RxModeReq(_, mode) =>
          if PayloadMode(mode) {
            AcceptModeReq(mode, now);
          }
        case _ =>
      }
    }

    /** The receiver's hold is over: probe a silent peer, ask for the turn, or wait on. */
    method OnHoldElapsed(now: nat)
      requires Valid()
      modifies this
      ensures Valid() && View() == Fsm.OnIdleIrs(old(View()), TimerFired(PeerBacklog), now)
    {
      if s.lastRx > 0 && now - s.lastRx >= IRS_INACTIVITY_MS {
        s := s.(probe := s.probe.(misses := 0, fromIrs := true));
        SendKeepalive(now);
      } else if |ring| > 0 {
        RequestTurn(now);
      } else {
        EnterIdleIrs(now);
      }
    }

    method OnDataRx(ev: Event, now: nat)
      requires Valid()
      modifies this
      ensures Valid() && View() == Fsm.OnDataRx(old(View()), ev, now)
    {
      match ev {
        case TimerFired(AckTimer) =>
          s := s.(turn := s.turn.(ackHadData := |ring| > 0));
          SendAck();
          DflowEnter(AckTx, Never, Retry);
        case RxData(_, _, _, _, _, _, _) => ReceiveData(ev, now);
        case _ =>
      }
    }

    method OnAckTx(ev: Event, now: nat)
      requires Valid()
      modifies this, window
      ensures Valid() && View() == Fsm.OnAckTx(settings, old(View()), ev, now)
    {
      match ev {
        case TimerFired(AckTimer) =>
          if s.setup.confirm {
            SendAck();
            DflowEnter(AckTx, Never, Retry);
          }
        case TxComplete =>
          if s.setup.confirm {
            s := s.(setup := s.setup.(confirm := false));
            if |ring| > 0 {
              EnterIdleIssGuarded(now);
            } else {
              EnterIdleIss(now);
            }
          } else if s.turn.peerHasData {
            EnterIdleIrs(now);
          } else if s.turn.ackHadData {
            EnterIdleIssGuarded(now);
          } else if |ring| > 0 {
            DflowEnter(IdleIrs, At(now + TURN_WAIT_AFTER_ACK_MS), PeerBacklog);
          } else {
            EnterIdleIrs(now);
          }
        case _ =>
      }
    }

    method OnTurnReqTx(ev: Event, now: nat)
      requires Valid()
      modifies this
      ensures Valid() && View() == Fsm.OnTurnReqTx(old(View()), ev, now)
    {
      match ev {
        case TimerFired(AckTimer) => Send(TurnReqFrame(s.sid, s.rxExpected));
        case TxComplete =>
          var at := ControlRetry(now);
          DflowEnter(TurnReqWait, at, Retry);
        case _ =>
      }
    }

    method OnTurnReqWait(ev: Event, now: nat)
      requires Valid()
      modifies this
      ensures Valid() && View() == Fsm.OnTurnReqWait(settings, old(View()), ev, now)
    {
      match ev {
        case RxTurnAck(_) => EnterIdleIssGuarded(now);
        case RxData(_, _, _, _, _, _, _) => ReceiveData(ev, now);
        case TimerFired(Retry) => OnTurnReqUnanswered(now);
        case _ =>
      }
    }

    /** Asks for the turn again, or does without it. */
    method OnTurnReqUnanswered(now: nat)
      requires Valid()
      modifies this`s, this`queue
      ensures Valid() && View() == Fsm.OnTurnReqWait(settings, old(View()), TimerFired(Retry), now)
    {
      if s.retries > 0 {
        s := s.(retries := s.retries - 1);
        Send(TurnReqFrame(s.sid, s.rxExpected));
        var at := ControlRetry(now);
        DflowEnter(TurnReqTx, at, Retry);
      } else {
        EnterIdleIrs(now);
      }
    }

    method OnTurnAckTx(ev: Event, now: nat)
      requires Valid()
      modifies this
      ensures Valid() && View() == Fsm.OnTurnAckTx(old(View()), ev, now)
    {
      match ev {
        case TimerFired(AckTimer) => Send(TurnAckFrame(s.sid));
        case TxComplete => EnterIdleIrs(now);
        case _ =>
      }
    }

    method OnKeepaliveTx(ev: Event, now: nat)
      requires Valid()
      modifies this
      ensures Valid() && View() == Fsm.OnKeepaliveTx(old(View()), ev, now)
    {
      if ev.TxComplete? {
        var at := ControlRetry(now);
        DflowEnter(KeepaliveWait, at, Retry);
      }
    }

    method LeaveKeepalive(now: nat)
      requires Valid()
      modifies this
      ensures Valid() && View() == Fsm.LeaveKeepalive(settings, old(View()), now)
    {
      s := s.(probe := s.probe.(misses := 0));
      if s.probe.fromIrs {
        EnterIdleIrs(now);
      } else {
        EnterIdleIssGuarded(now);
      }
    }

    method OnKeepaliveWait(ev: Event, now: nat)
      requires Valid()
      modifies this
      ensures Valid() && View() == Fsm.OnKeepaliveWait(settings, old(View()), ev, now)
    {
      match ev {
        case RxKeepaliveAck(_) => LeaveKeepalive(now);
        case RxKeepalive(_) =>
          Send(KeepaliveAckFrame(s.sid));
          LeaveKeepalive(now);
        case TimerFired(Retry) => OnProbeMissed(now);
        case _ =>
      }
    }

    method OnProbeMissed(now: nat)
      requires Valid()
      modifies this`s, this`queue
      ensures Valid() && View() == Fsm.OnKeepaliveWait(settings, old(View()), TimerFired(Retry), now)
    {
      s := s.(probe := s.probe.(misses := s.probe.misses + 1));
      if s.probe.misses >= KEEPALIVE_MISS_LIMIT {
        GiveUp(now);
      } else {
        SendKeepalive(now);
      }
    }

    method OnKeepaliveAckTx(ev: Event, now: nat)
      requires Valid()
      modifies this
      ensures Valid() && View() == Fsm.OnKeepaliveAckTx(settings, old(View()), ev, now)
    {
      match ev {
        case TimerFired(AckTimer) => Send(KeepaliveAckFrame(s.sid));
        case TxComplete =>
          if s.probe.ackFromIrs {
            EnterIdleIrs(now);
          } else {
            EnterIdleIssGuarded(now);
          }
        case _ =>
      }
    }

    method OnModeReqTx(ev: Event, now: nat)
      requires Valid()
      modifies this, window
      ensures Valid() && View() == Fsm.OnModeReqTx(settings, old(View()), ev, now)
    {
      if ev.TxComplete? {
        if s.pendingTxMode == 0 {
          s := s.(retries := settings.dataRetries);
          var tm := TimingOf(CONTROL_MODE);
          var guard := match tm case Some(t) => t.ackTimeoutMs case None => 6000;
          if |ring| > 0 {
            DflowEnter(DataTx, At(now + guard), AckTimer);
          } else {
            EnterIdleIss(now);
          }
        } else {
          var at := ControlRetry(now);
          DflowEnter(ModeReqWait, at, Retry);
        }
      }
    }

    method OnModeReqWait(ev: Event, now: nat)
      requires Valid()
      modifies this
      ensures Valid() && View() == Fsm.OnModeReqWait(settings, old(View()), ev, now)
    {
      match ev {
        case RxModeAck(_, mode) =>
          if PayloadMode(mode) {
            if Fsm.ModeRank(mode) < Fsm.ModeRank(s.payloadMode) && s.link.holdUntil != 0 {
              s := s.(link := s.link.(holdUntil := now + MODE_HOLD_AFTER_DOWNGRADE_MS));
            }
            s := s.(payloadMode := mode);
          }
          EnterIdleIssGuarded(now);
        case TimerFired(Retry) => OnModeReqUnanswered(now);
        case _ =>
      }
    }

    /** Asks for the mode again, or for the old one back. */
    method OnModeReqUnanswered(now: nat)
      requires Valid()
      modifies this`s, this`queue
      ensures Valid() && View() == Fsm.OnModeReqWait(settings, old(View()), TimerFired(Retry), now)
    {
      if s.retries > 0 {
        s := s.(retries := s.retries - 1);
        Send(ModeReqFrame(s.sid, s.pendingTxMode));
      } else {
        s := s.(pendingTxMode := 0);
        Send(ModeReqFrame(s.sid, s.payloadMode));
      }
      DflowEnter(ModeReqTx, Never, Retry);
    }

    method OnModeAckTx(ev: Event, now: nat)
      requires Valid()
      modifies this
      ensures Valid() && View() == Fsm.OnModeAckTx(old(View()), ev, now)
    {
      match ev {
        case TimerFired(AckTimer) => Send(ModeAckFrame(s.sid, s.peerTxMode));
        case TxComplete => EnterIdleIrs(now);
        case _ =>
      }
    }

    // ---------------------------------------------------------------- the dispatcher

    /** arq_fsm_dispatch. From a sound state it reaches a sound one: the window in order and
        counted exactly, a deadline for every state that waits, something to send for a sender. */
    method Dispatch(ev: Event, now: nat)
      requires Valid()
      modifies this, window
      ensures Valid() && View() == Fsm.Dispatch(settings, old(View()), ev, now)
      ensures now > 0 ==> StationInvariants.Upholds(old(View()), View(), ev)
    {
      if now > 0 {
        StationInvariants.DispatchUpholds(settings, View(), ev, now);
      }
      var ours := Note(ev, now);
      if ours {
        HandOn(ev, now);
      }
    }

    /** Notes when the peer was last heard and the application's listen intent; a frame of
        another session goes no further. */
    method Note(ev: Event, now: nat) returns (ours: bool)
      requires Valid()
      modifies this`s
      ensures Valid() && View() == Fsm.Noted(old(View()), ev, now) && ours == !Fsm.WrongSession(old(View()).s, ev)
    {
      if Fsm.HearsPeer(ev) {
        s := s.(lastRx := now);
        var checked := (s.conn.Connected? || s.conn.Disconnecting?) && !ev.RxCall? && !ev.RxAccept?;
        if checked && ev.sid != 0 && ev.sid != s.sid {
          return false;
        }
      }
      if ev.AppListen? {
        s := s.(teardown := s.teardown.(listen := true));
      } else if ev.AppStopListen? {
        s := s.(teardown := s.teardown.(listen := false));
      }
      return true;
    }

    method HandOn(ev: Event, now: nat)
      requires Valid()
      modifies this, window
      ensures Valid() && View() == Fsm.Handle(settings, old(View()), ev, now)
    {
      match s.conn {
        case Disconnected => OnDisconnected(ev, now);
        case Listening => OnListening(ev, now);
        case Connected => OnConnected(ev, now);
        case _ => HandOnInSetUp(ev, now);
      }
    }

    /** While a call is being set up or cleared. */
    method HandOnInSetUp(ev: Event, now: nat)
      requires Valid() && (s.conn.Calling? || s.conn.Accepting? || s.conn.Disconnecting?)
      modifies this, window
      ensures Valid() && View() == Fsm.Handle(settings, old(View()), ev, now)
    {
      match s.conn {
        case Calling => OnCalling(ev, now);
        case Accepting => OnAccepting(ev, now);
        case Disconnecting => OnDisconnecting(ev, now);
      }
    }

    /** The event loop's last act in each pass: an expired deadline is cleared, then its
        event is dispatched. */
    method FireDeadline(now: nat)
      requires Valid()
      modifies this, window
      ensures Valid() && View() == Fsm.FireDeadline(settings, old(View()), now)
      ensures now > 0 ==> StationRuns.StaysSound(old(View()), View())
    {
      if now > 0 {
        StationRuns.TickUpholds(settings, View(), now);
      }
      if s.deadline != Never && now >= s.deadline.ms {
        s := s.(deadline := Never);
        Dispatch(TimerFired(s.deadlineEvent), now);
      }
    }
  }
}
