/** Whole calls: from the moment the caller hears the ACCEPT, while the callee still waits for
    the first frame of the session, to the moment either side leaves the connection. */
module Calls {
  import opened Common
  import opened ArqTypes
  import opened Fsm
  import opened StationSteps
  import opened TwoStations

  // ------------------------------------------------------------------ before the callee connects

  /** A receiver at the start of a session. */
  predicate FreshIrs(y: Station) {
    && y.node.s.conn == Connected && y.node.s.dflow.IdleIrs? && !y.node.s.setup.confirm
    && y.node.s.deadlineEvent != Keepalive && y.node.s.win.slots == []
    && y.node.s.txSeq == 0 && y.node.s.rxExpected == 0
    && y.node.chunks == [] && y.node.delivered == [] && y.node.queue == [] && y.air.None?
  }

  /** Until the callee connects, the caller is paired with the receiver it will become. */
  const CALLEE_TO_BE: Station :=
    Station(Node(INITIAL.(conn := Connected, dflow := IdleIrs), [], [], [], []), None, false)

  lemma AnyFreshIrs(x: Station, y: Station, y': Station)
    requires Pair(x, y) && FreshIrs(y) && FreshIrs(y')
    ensures Pair(x, y')
  {
  }

  /** Frames of a station that is not connected: CALL, ACCEPT and DISCONNECT. */
  predicate Courtesy(f: Frame) { f.CallFrame? || f.DisconnectFrame? }

  /** The callee, accepting the call or already listening again. */
  predicate Answering(b: Station) {
    && (b.node.s.conn.Accepting? || b.node.s.conn.Listening?) && !b.node.s.setup.confirm
    && b.node.chunks == [] && b.node.delivered == []
    && (forall i :: 0 <= i < |b.node.queue| ==> Courtesy(b.node.queue[i]))
    && (b.air.Some? ==> Courtesy(b.air.value))
  }

  /** The caller that owes a confirming ACK: as if that ACK had just been heard. */
  function AckHeard(x: Station): Station {
    Station(x.node.(queue := [], s := x.node.s.(deadline := Never)), Some(AckFrame(0, 0, false)), true)
  }

  predicate IsConfirmation(x: Station, f: Frame) { f.AckFrame? && f.ack == x.node.s.rxExpected }

  /** The confirming ACK waits for its guard, for the modem, or is on the air, and nothing else
      is. */
  predicate OwesAck(x: Station) {
    && x.node.s.setup.confirm && Pair(AckHeard(x), CALLEE_TO_BE)
    && (if x.node.s.deadline != Never then x.node.s.deadlineEvent == AckTimer && x.node.queue == [] && x.air.None?
        else if x.air.None? then |x.node.queue| == 1 && IsConfirmation(x, x.node.queue[0])
        else x.node.queue == [] && IsConfirmation(x, x.air.value))
  }

  /** The caller is connected, the callee is not yet. */
  predicate CallerReady(x: Station) {
    OwesAck(x) || (!x.node.s.setup.confirm && Pair(x, CALLEE_TO_BE))
  }

  predicate Opening(x: Station, y: Station) { CallerReady(x) && Answering(y) }

  // ------------------------------------------------------------------ the callee's own steps

  /** Nothing read, nothing delivered, and still answering or gone. */
  predicate StillAnswering(y': Station) {
    && y'.node.chunks == [] && y'.node.delivered == [] && y'.node.s.conn != Connected
    && (y'.node.s.conn.Accepting? || y'.node.s.conn.Listening? ==> Answering(y'))
  }

  lemma CalleeWaits(cfg: Config, b: Station, x: Station, act: Action, now: nat)
    requires Answering(b) && Enabled(b, x, act) && !act.Decoded?
    ensures StillAnswering(Act(cfg, b, x, act, now).0)
  {
    match act
    case Write(data) =>
    case Post(ev) => AnsweringEvent(cfg, b, ev, now);
    case Tick =>
      if b.node.s.deadline != Never && now >= b.node.s.deadline.ms {
        AnsweringEvent(cfg, b.(node := b.node.(s := b.node.s.(deadline := Never))),
            TimerFired(b.node.s.deadlineEvent), now);
      }
    case KeyUp => AnsweringKeyUp(cfg, b, now);
    case TxEnds =>
      AnsweringEvent(cfg, b, TxComplete, now);
      assert StillAnswering(b.(node := Dispatch(cfg, b.node, TxComplete, now)));
  }

  lemma AnsweringKeyUp(cfg: Config, b: Station, now: nat)
    requires Answering(b) && b.node.queue != [] && b.air.None?
    ensures var k := KeyedUp(b); StillAnswering(k.(node := Dispatch(cfg, k.node, TxStarted, now)))
  {
    var i := NextFrame(b.node.queue);
    var rest := b.node.queue[..i] + b.node.queue[i + 1..];
    assert forall k :: 0 <= k < |rest| ==> rest[k] == b.node.queue[if k < i then k else k + 1];
    AnsweringEvent(cfg, KeyedUp(b), TxStarted, now);
  }

  lemma AnsweringEvent(cfg: Config, b: Station, ev: Event, now: nat)
    requires Answering(b) && FromWithin(ev)
    ensures StillAnswering(b.(node := Dispatch(cfg, b.node, ev, now)))
  {
    var n := Noted(b.node, ev, now);
    if b.node.s.conn.Accepting? {
      assert Dispatch(cfg, b.node, ev, now) == OnAccepting(cfg, n, ev, now);
      AcceptingWaits(cfg, b.(node := n), ev, now);
    } else {
      assert Dispatch(cfg, b.node, ev, now) == OnListening(cfg, n, ev, now);
      ListeningWaits(cfg, b.(node := n), ev, now);
    }
  }

  lemma AcceptingWaits(cfg: Config, b: Station, ev: Event, now: nat)
    requires Answering(b) && FromWithin(ev) && b.node.s.conn.Accepting?
    ensures StillAnswering(b.(node := OnAccepting(cfg, b.node, ev, now)))
  {
  }

  lemma ListeningWaits(cfg: Config, b: Station, ev: Event, now: nat)
    requires Answering(b) && FromWithin(ev) && b.node.s.conn.Listening?
    ensures StillAnswering(b.(node := OnListening(cfg, b.node, ev, now)))
  {
  }

  // ------------------------------------------------------------------ the caller's own steps

  lemma CallerSteps(cfg: Config, x: Station, act: Action, now: nat)
    requires cfg.burstFrames == 1 && CallerReady(x) && Enabled(x, CALLEE_TO_BE, act) && !act.Decoded?
    ensures var x' := Act(cfg, x, CALLEE_TO_BE, act, now).0;
      (x'.node.s.conn == Connected ==> CallerReady(x')) && x'.node.delivered == []
  {
    if x.node.s.setup.confirm {
      OwingSteps(cfg, x, act, now);
    } else {
      OwnStepKeepsPair(cfg, x, CALLEE_TO_BE, act, now);
      LeavingByItself(cfg, x, CALLEE_TO_BE, act, now);
    }
  }

  lemma OwingSteps(cfg: Config, x: Station, act: Action, now: nat)
    requires cfg.burstFrames == 1 && OwesAck(x) && Enabled(x, CALLEE_TO_BE, act) && !act.Decoded?
    ensures var x' := Act(cfg, x, CALLEE_TO_BE, act, now).0;
      (x'.node.s.conn == Connected ==> CallerReady(x')) && x'.node.delivered == []
  {
    match act
    case Write(data) => OwingIsQuiet(x, x.(node := x.node.(ring := x.node.ring + data)));
    case Post(ev) => OwingPosts(cfg, x, ev, now);
    case Tick => OwingTicks(cfg, x, now);
    case KeyUp => OwingKeysUp(cfg, x, now);
    case TxEnds => AckEnds(cfg, x, now);
  }

  /** A step that touches neither the window nor the record nor the modem. */
  lemma OwingIsQuiet(x: Station, x': Station)
    requires OwesAck(x) && Alike(x.node, x'.node) && x'.air == x.air && x'.heard == x.heard
    ensures OwesAck(x')
  {
    QuietKeepsPair(AckHeard(x), CALLEE_TO_BE, AckHeard(x').node);
  }

  lemma OwingPosts(cfg: Config, x: Station, ev: Event, now: nat)
    requires OwesAck(x) && AppEvent(ev)
    ensures var x' := x.(node := Dispatch(cfg, x.node, ev, now));
      (x'.node.s.conn == Connected ==> OwesAck(x')) && x'.node.delivered == []
  {
    var x' := x.(node := Dispatch(cfg, x.node, ev, now));
    OwingIgnores(cfg, x.node, ev, now);
    if x'.node.s.conn == Connected {
      OwingIsQuiet(x, x');
    }
  }

  /** While the confirming ACK is owed, the application changes nothing but the teardown. */
  lemma OwingIgnores(cfg: Config, n: Node, ev: Event, now: nat)
    requires n.s.conn == Connected && n.s.dflow.AckTx? && AppEvent(ev)
    ensures var m := Dispatch(cfg, n, ev, now);
      m.delivered == n.delivered && (m.s.conn == Connected ==> Alike(n, m))
  {
    var c := Noted(n, ev, now);
    assert OnDflow(cfg, c, ev, now) == c;
  }

  lemma OwingTicks(cfg: Config, x: Station, now: nat)
    requires OwesAck(x)
    ensures var x' := x.(node := FireDeadline(cfg, x.node, now));
      (x'.node.s.conn == Connected ==> OwesAck(x')) && x'.node.delivered == []
  {
    if x.node.s.deadline != Never && now >= x.node.s.deadline.ms {
      var c := x.node.(s := x.node.s.(deadline := Never));
      assert OnDflow(cfg, c, TimerFired(AckTimer), now) == OnAckTx(cfg, c, TimerFired(AckTimer), now);
      var x' := x.(node := FireDeadline(cfg, x.node, now));
      if x'.node.s.conn == Connected {
        QuietKeepsPair(AckHeard(x), CALLEE_TO_BE, AckHeard(x').node);
      }
    }
  }

  lemma OwingKeysUp(cfg: Config, x: Station, now: nat)
    requires OwesAck(x) && x.air.None? && x.node.queue != []
    ensures var k := KeyedUp(x);
      var x' := k.(node := Dispatch(cfg, k.node, TxStarted, now));
      (x'.node.s.conn == Connected ==> OwesAck(x')) && x'.node.delivered == []
  {
    var k := KeyedUp(x);
    assert OnDflow(cfg, k.node, TxStarted, now) == k.node;
    assert k.node.queue == [];
    assert AckHeard(k) == AckHeard(x);
  }

  /** The confirming ACK has gone out, heard or not: the caller holds the turn. */
  lemma AckEnds(cfg: Config, x: Station, now: nat)
    requires cfg.burstFrames == 1 && OwesAck(x) && x.air.Some?
    ensures var x' := Station(Dispatch(cfg, x.node, TxComplete, now), None, false);
      (x'.node.s.conn == Connected ==> CallerReady(x')) && x'.node.delivered == []
  {
    var c := AckHeard(x);
    assert c.node == x.node;
    OwnStepKeepsPair(cfg, c, CALLEE_TO_BE, TxEnds, now);
    LeavingByItself(cfg, c, CALLEE_TO_BE, TxEnds, now);
    if Dispatch(cfg, x.node, TxComplete, now).s.conn == Connected {
      EndOfTransmissionConfirms(cfg, x.node, now);
    }
  }

  // ------------------------------------------------------------------ the caller hears the callee

  lemma CallerHears(cfg: Config, x: Station, f: Frame, snr: Snr, now: nat)
    requires CallerReady(x) && Receiving(x) && Courtesy(f)
    ensures var x' := x.(node := Dispatch(cfg, x.node, EventOf(f, snr), now));
      (x'.node.s.conn == Connected ==> CallerReady(x')) && x'.node.delivered == []
  {
    var x' := x.(node := Dispatch(cfg, x.node, EventOf(f, snr), now));
    CourtesyChangesLittle(cfg, x.node, f, snr, now);
    if x'.node.s.conn == Connected {
      if !Alike(x.node, x'.node) {
        OwesAgain(x, x');
      } else if x.node.s.setup.confirm {
        OwingIsQuiet(x, x');
      } else {
        QuietKeepsPair(x, CALLEE_TO_BE, x'.node);
      }
    }
  }

  /** A CALL is ignored, a DISCONNECT ends the call, an ACCEPT may ask for another ACK. */
  lemma CourtesyChangesLittle(cfg: Config, n: Node, f: Frame, snr: Snr, now: nat)
    requires n.s.conn == Connected && Courtesy(f)
    ensures var m := Dispatch(cfg, n, EventOf(f, snr), now);
      && m.delivered == n.delivered
      && (m.s.conn == Connected && !Alike(n, m) ==>
            n.s.dflow.IdleIss? && !n.s.setup.confirm && m == ArmConnectConfirm(n.(s := n.s.(lastRx := now)), now))
  {
    var c := Noted(n, EventOf(f, snr), now);
    assert f.CallFrame? ==> OnDflow(cfg, c, EventOf(f, snr), now) == c;
  }

  /** A repeated ACCEPT makes an idle caller confirm again. */
  lemma OwesAgain(x: Station, x': Station)
    requires !x.node.s.setup.confirm && Pair(x, CALLEE_TO_BE) && Receiving(x) && x.node.s.dflow.IdleIss?
    requires exists now: nat, s :: x'.node == ArmConnectConfirm(x.node.(s := x.node.s.(lastRx := s)), now)
    requires x'.air == x.air && x'.heard == x.heard
    ensures OwesAck(x')
  {
  }

  // ------------------------------------------------------------------ the callee hears the caller

  /** DATA or an ACK connects the callee: of any session while it accepts, of its own once it
      listens again. Anything else is ignored. */
  predicate Connects(b: Node, f: Frame) {
    (f.DataFrame? || f.AckFrame?) && (b.s.conn.Listening? ==> f.sid == b.s.sid)
  }

  /** The callee as it enters the connection, before it looks at the frame. */
  function Entered(cfg: Config, n: Node, now: nat): Node {
    EnterIdleIrs(SessEnter(n.(s := FreshSession(cfg, n.s, Callee, now)), Connected, Never, Retry, now), now)
  }

  lemma CalleeHears(cfg: Config, x: Station, b: Station, snr: Snr, now: nat)
    requires cfg.burstFrames == 1 && Opening(x, b) && Enabled(x, b, Decoded(snr))
    ensures var m := Dispatch(cfg, b.node, EventOf(x.air.value, snr), now);
      if m.s.conn == Connected then Pair(x.(heard := true), b.(node := m))
      else CallerReady(x.(heard := true)) && StillAnswering(b.(node := m))
  {
    var f := x.air.value;
    if x.node.s.setup.confirm {
      assert x.(heard := true).air.Some?;
      HeardConfirmation(x);
    } else {
      HeardKeepsPair(x, CALLEE_TO_BE);
    }
    if Connects(b.node, f) {
      CalleeConnects(cfg, x, b, snr, now);
    } else {
      CalleeIgnores(cfg, b, f, snr, now);
    }
  }

  lemma CalleeIgnores(cfg: Config, b: Station, f: Frame, snr: Snr, now: nat)
    requires Answering(b) && !Connects(b.node, f) && !f.CallFrame?
    ensures StillAnswering(b.(node := Dispatch(cfg, b.node, EventOf(f, snr), now)))
  {
  }

  lemma HeardConfirmation(x: Station)
    requires OwesAck(x) && x.air.Some?
    ensures OwesAck(x.(heard := true)) && Pair(x.(heard := true), CALLEE_TO_BE)
  {
    assert AckHeard(x).node == x.node;
  }

  lemma CalleeConnects(cfg: Config, x: Station, b: Station, snr: Snr, now: nat)
    requires cfg.burstFrames == 1 && Opening(x, b) && Enabled(x, b, Decoded(snr)) && Connects(b.node, x.air.value)
    ensures var m := Dispatch(cfg, b.node, EventOf(x.air.value, snr), now);
      m.s.conn == Connected && Pair(x.(heard := true), b.(node := m))
  {
    var f, ev := x.air.value, EventOf(x.air.value, snr);
    var e := EnteredBy(cfg, b.node, ev, now);
    var y := b.(node := e);
    EntersFresh(cfg, b, f, snr, now);
    if f.AckFrame? {
      if x.node.s.setup.confirm {
        HeardConfirmation(x);
      } else {
        HeardKeepsPair(x, CALLEE_TO_BE);
      }
      AnyFreshIrs(x.(heard := true), CALLEE_TO_BE, y);
    } else {
      FirstData(cfg, x, y, snr, now);
    }
  }

  function EnteredBy(cfg: Config, n: Node, ev: Event, now: nat): Node {
    var m := Noted(n, ev, now);
    Entered(cfg, if n.s.conn.Listening? then CancelDisconnect(m) else ForgetOlla(m), now)
  }

  lemma EntersFresh(cfg: Config, b: Station, f: Frame, snr: Snr, now: nat)
    requires Answering(b) && Receiving(b) && Connects(b.node, f)
    ensures var ev := EventOf(f, snr);
      var e := EnteredBy(cfg, b.node, ev, now);
      && Dispatch(cfg, b.node, ev, now) == (if f.DataFrame? then OnDflow(cfg, e, ev, now) else e)
      && FreshIrs(b.(node := e)) && StationOk(e)
  {
  }

  /** The session's first frame is DATA: it is delivered as by any receiver. */
  lemma FirstData(cfg: Config, x: Station, y: Station, snr: Snr, now: nat)
    requires cfg.burstFrames == 1 && CallerReady(x) && FreshIrs(y) && StationOk(y.node)
    requires x.air.Some? && !x.heard && x.air.value.DataFrame?
    ensures var m := OnDflow(cfg, y.node, EventOf(x.air.value, snr), now);
      m.s.conn == Connected && Pair(x.(heard := true), y.(node := m))
  {
    var ev := EventOf(x.air.value, snr);
    AnyFreshIrs(x, CALLEE_TO_BE, y);
    HearData(cfg, y.node, ev, now);
    FrameKeepsPair(x, y, OnDflow(cfg, y.node, ev, now));
  }

  // ------------------------------------------------------------------ runs

  /** A call: `talking` from the moment the callee is connected too. */
  datatype Call = Call(a: Station, b: Station, talking: bool)

  /** The caller is connected, and the callee is, or still answers. */
  predicate Live(c: Call) {
    c.a.node.s.conn == Connected &&
    if c.talking then c.b.node.s.conn == Connected else c.b.node.s.conn.Accepting? || c.b.node.s.conn.Listening?
  }

  /** One step of either station in a live call. */
  ghost predicate Step(cfg: Config, c: Call, c': Call) {
    && Live(c) && c'.talking == (c.talking || c'.b.node.s.conn == Connected)
    && exists act, now: nat ::
         || (Enabled(c.a, c.b, act) && (c'.a, c'.b) == Act(cfg, c.a, c.b, act, now))
         || (Enabled(c.b, c.a, act) && (c'.b, c'.a) == Act(cfg, c.b, c.a, act, now))
  }

  /** A station that is calling: a new session, with nothing read, delivered or queued. */
  predicate IsCalling(n: Node) {
    n.s.conn.Calling? && !n.s.setup.confirm && n.chunks == [] && n.delivered == [] && n.queue == []
  }

  /** The caller has just heard the ACCEPT of a callee that is accepting. */
  ghost predicate Begins(cfg: Config, c: Call) {
    && !c.talking && Answering(c.b) && c.a.air.None?
    && exists n: Node, now: nat :: IsCalling(n) && c.a.node == Dispatch(cfg, n, RxAccept(n.s.sid), now)
  }

  ghost predicate IsRun(cfg: Config, run: seq<Call>) {
    && run != [] && Begins(cfg, run[0])
    && forall i :: 0 <= i < |run| - 1 ==> Step(cfg, run[i], run[i + 1])
  }

  predicate Inv(c: Call) { Live(c) ==> if c.talking then Pair(c.a, c.b) else Opening(c.a, c.b) }

  /** Chunk by chunk, what one side has delivered is a prefix of what the other has read. */
  predicate InOrder(c: Call) {
    c.b.node.delivered <= c.a.node.chunks && c.a.node.delivered <= c.b.node.chunks
  }

  /** Both directions, in bytes. */
  predicate PrefixSafe(c: Call) {
    && Flatten(c.b.node.delivered) <= Flatten(c.a.node.chunks)
    && Flatten(c.a.node.delivered) <= Flatten(c.b.node.chunks)
  }

  /** With data to send the caller prepares to send it; without, it owes an ACK. */
  lemma CallerConnects(cfg: Config, n: Node, now: nat, x: Station)
    requires IsCalling(n) && x.air.None? && x.node == Dispatch(cfg, n, RxAccept(n.s.sid), now)
    ensures x.node.s.conn == Connected && CallerReady(x) && x.node.delivered == [] && x.node.chunks == []
  {
    var c := Noted(n, RxAccept(n.s.sid), now);
    assert x.node == OnCalling(cfg, c, RxAccept(n.s.sid), now);
    var s := FreshSession(cfg, c.s, Caller, now).(
      teardown := c.s.teardown.(disconnect := false), setup := Setup(false, Backlog(c) > 0));
    var m := SessEnter(c.(s := s), Connected, Never, Retry, now);
    if Backlog(c) > 0 {
      FirstDataIsGuarded(cfg, m, now);
      NewCallerMaySend(x);
    } else {
      assert x.node == ArmConnectConfirm(m, now);
      NewCallerOwesAck(x);
    }
  }

  predicate NewCaller(x: Station) {
    && x.node.s.conn == Connected && x.node.s.deadline != Never && x.node.s.deadlineEvent == AckTimer
    && x.node.s.win.slots == [] && x.node.s.txSeq == 0 && x.node.s.rxExpected == 0
    && x.node.chunks == [] && x.node.delivered == [] && x.node.queue == [] && x.air.None?
  }

  lemma NewCallerMaySend(x: Station)
    requires NewCaller(x) && x.node.s.dflow.DataTx? && !x.node.s.setup.confirm
    ensures Pair(x, CALLEE_TO_BE)
  {
  }

  lemma NewCallerOwesAck(x: Station)
    requires NewCaller(x) && x.node.s.dflow.AckTx? && x.node.s.setup.confirm
    ensures OwesAck(x)
  {
  }

  /** Within the startup window there is no mode negotiation. */
  lemma FirstDataIsGuarded(cfg: Config, m: Node, now: nat)
    requires now < m.s.startupUntil && Backlog(m) > 0
    ensures EnterIdleIssGuarded(cfg, m, now) ==
      DflowEnter(m.(s := m.s.(retries := cfg.dataRetries)), DataTx, At(now + ISS_POST_ACK_GUARD_MS), AckTimer)
  {
  }

  lemma RingingStep(cfg: Config, c: Call, c': Call, act: Action, now: nat)
    requires cfg.burstFrames == 1 && Live(c) && !c.talking && Opening(c.a, c.b)
    requires c'.talking == (c'.b.node.s.conn == Connected)
    requires
      || (Enabled(c.a, c.b, act) && (c'.a, c'.b) == Act(cfg, c.a, c.b, act, now))
      || (Enabled(c.b, c.a, act) && (c'.b, c'.a) == Act(cfg, c.b, c.a, act, now))
    ensures Inv(c') && InOrder(c')
  {
    if Enabled(c.a, c.b, act) && (c'.a, c'.b) == Act(cfg, c.a, c.b, act, now) {
      CallerActs(cfg, c.a, c.b, act, now);
    } else {
      CalleeActs(cfg, c.b, c.a, act, now);
    }
  }

  lemma CallerActs(cfg: Config, x: Station, b: Station, act: Action, now: nat)
    requires cfg.burstFrames == 1 && Opening(x, b) && Enabled(x, b, act)
    ensures var (x', b') := Act(cfg, x, b, act, now);
      && b'.node.delivered <= x'.node.chunks && x'.node.delivered <= b'.node.chunks
      && (b'.node.s.conn == Connected ==> x'.node.s.conn == Connected ==> Pair(x', b'))
      && (b'.node.s.conn != Connected && x'.node.s.conn == Connected ==> CallerReady(x') && StillAnswering(b'))
  {
    if act.Decoded? {
      CalleeHears(cfg, x, b, act.snr, now);
    } else {
      assert Act(cfg, x, b, act, now).0 == Act(cfg, x, CALLEE_TO_BE, act, now).0;
      CallerSteps(cfg, x, act, now);
    }
  }

  lemma CalleeActs(cfg: Config, b: Station, x: Station, act: Action, now: nat)
    requires Opening(x, b) && Enabled(b, x, act)
    ensures var (b', x') := Act(cfg, b, x, act, now);
      && b'.node.delivered == [] && x'.node.delivered == [] && b'.node.s.conn != Connected
      && (x'.node.s.conn == Connected ==> CallerReady(x')) && StillAnswering(b')
  {
    if act.Decoded? {
      CallerHears(cfg, x, b.air.value, act.snr, now);
    } else {
      CalleeWaits(cfg, b, x, act, now);
    }
  }

  lemma TalkingStep(cfg: Config, c: Call, c': Call, act: Action, now: nat)
    requires cfg.burstFrames == 1 && Live(c) && c.talking && c'.talking && Pair(c.a, c.b)
    requires
      || (Enabled(c.a, c.b, act) && (c'.a, c'.b) == Act(cfg, c.a, c.b, act, now))
      || (Enabled(c.b, c.a, act) && (c'.b, c'.a) == Act(cfg, c.b, c.a, act, now))
    ensures Inv(c') && InOrder(c')
    ensures c'.a.node.s.conn == Connected ==> AckWasTrue(c.b, c.a, c'.a.node)
    ensures c'.b.node.s.conn == Connected ==> AckWasTrue(c.a, c.b, c'.b.node)
  {
    PairSwaps(c.a, c.b);
    if Enabled(c.a, c.b, act) && (c'.a, c'.b) == Act(cfg, c.a, c.b, act, now) {
      ActKeepsPair(cfg, c.a, c.b, act, now);
    } else {
      ActKeepsPair(cfg, c.b, c.a, act, now);
      if Live(c') {
        PairSwaps(c'.b, c'.a);
      }
    }
  }

  lemma StepKeeps(cfg: Config, c: Call, c': Call)
    requires cfg.burstFrames == 1 && Inv(c) && Step(cfg, c, c')
    ensures Inv(c') && InOrder(c')
    ensures c.talking && c'.a.node.s.conn == Connected ==> AckWasTrue(c.b, c.a, c'.a.node)
    ensures c.talking && c'.b.node.s.conn == Connected ==> AckWasTrue(c.a, c.b, c'.b.node)
  {
    var act, now: nat :|
      || (Enabled(c.a, c.b, act) && (c'.a, c'.b) == Act(cfg, c.a, c.b, act, now))
      || (Enabled(c.b, c.a, act) && (c'.b, c'.a) == Act(cfg, c.b, c.a, act, now));
    if c.talking {
      TalkingStep(cfg, c, c', act, now);
    } else {
      RingingStep(cfg, c, c', act, now);
    }
  }

  lemma {:induction false} FlattenPrefix(short: seq<seq<bv8>>, long: seq<seq<bv8>>)
    requires short <= long
    ensures Flatten(short) <= Flatten(long)
    decreases |long|
  {
    if |short| < |long| {
      var front := long[..|long| - 1];
      assert short <= front;
      FlattenPrefix(short, front);
    } else {
      assert short == long;
    }
  }

  lemma {:induction false} EveryRunKeepsInv(cfg: Config, run: seq<Call>, i: nat)
    requires cfg.burstFrames == 1 && IsRun(cfg, run) && i < |run|
    ensures Inv(run[i]) && InOrder(run[i])
  {
    if i == 0 {
      var n: Node, now: nat :| IsCalling(n) && run[0].a.node == Dispatch(cfg, n, RxAccept(n.s.sid), now);
      CallerConnects(cfg, n, now, run[0].a);
    } else {
      EveryRunKeepsInv(cfg, run, i - 1);
      assert Step(cfg, run[i - 1], run[i - 1 + 1]);
      StepKeeps(cfg, run[i - 1], run[i]);
    }
  }

  /** Safety of every call, of any length, over any losses and any timing: in each direction
      the bytes delivered are a prefix of the bytes read from the sender's ring. */
  lemma EveryRunIsSafe(cfg: Config, run: seq<Call>, i: nat)
    requires cfg.burstFrames == 1 && IsRun(cfg, run) && i < |run|
    ensures PrefixSafe(run[i])
  {
    EveryRunKeepsInv(cfg, run, i);
    FlattenPrefix(run[i].b.node.delivered, run[i].a.node.chunks);
    FlattenPrefix(run[i].a.node.delivered, run[i].b.node.chunks);
  }

  /** The configuration as shipped, narrow or full-width, is one of those. */
  lemma ShippedIsSafe(narrow: bool, run: seq<Call>, i: nat)
    requires IsRun(Shipped(narrow), run) && i < |run|
    ensures PrefixSafe(run[i])
  {
    EveryRunIsSafe(Shipped(narrow), run, i);
  }

  /** In every call, a window is emptied only once the peer has delivered all that was read:
      every ACK acted upon, explicit or implicit, was a true one. */
  lemma EveryAckIsTrue(cfg: Config, run: seq<Call>, i: nat)
    requires cfg.burstFrames == 1 && IsRun(cfg, run) && i + 1 < |run| && run[i].talking && Live(run[i + 1])
    ensures AckWasTrue(run[i].b, run[i].a, run[i + 1].a.node)
    ensures AckWasTrue(run[i].a, run[i].b, run[i + 1].b.node)
  {
    EveryRunKeepsInv(cfg, run, i);
    StepKeeps(cfg, run[i], run[i + 1]);
  }
}
