/** Runs of one station with its modem, its application and whatever it hears: the invariant
    of StationInvariants holds in every reachable state, and what follows from it. */
module StationRuns {
  import opened ArqTypes
  import opened Fsm
  import opened StationInvariants

  // ------------------------------------------------------------------ the station and its threads

  /** `onAir`: the modem is transmitting. `ready`: APP_DATA_READY events queued. `writing`:
      producers that have written to the TX ring and not yet posted the event. */
  datatype Rig = Rig(node: Node, onAir: bool, ready: nat, writing: nat)

  /** The modem takes a control frame, or a whole burst of DATA frames, and keys up; `rest`
      is what it leaves in the queue. */
  datatype Happening =
    | Write(data: seq<bv8>) | Post | TakeReady | Hear(ev: Event) | Tick
    | KeyUp(rest: seq<Frame>) | TxEnds

  predicate FromOutside(ev: Event) {
    !ev.AppDataReady? && !ev.TimerFired? && !ev.TxStarted? && !ev.TxComplete?
  }

  predicate Possible(r: Rig, h: Happening) {
    match h
    case Write(data) => data != []
    case Post => r.writing > 0
    case TakeReady => r.ready > 0
    case Hear(ev) => FromOutside(ev)
    case Tick => true
    case KeyUp(rest) => !r.onAir && r.node.queue != [] && |rest| < |r.node.queue|
    case TxEnds => r.onAir
  }

  function After(cfg: Config, r: Rig, h: Happening, now: nat): Rig
    requires Possible(r, h)
  {
    match h
    case Write(data) => r.(node := r.node.(ring := r.node.ring + data), writing := r.writing + 1)
    case Post => r.(ready := r.ready + 1, writing := r.writing - 1)
    case TakeReady => r.(node := Dispatch(cfg, r.node, AppDataReady, now), ready := r.ready - 1)
    case Hear(ev) => r.(node := Dispatch(cfg, r.node, ev, now))
    case Tick => r.(node := FireDeadline(cfg, r.node, now))
    case KeyUp(rest) => r.(node := Dispatch(cfg, r.node.(queue := rest), TxStarted, now), onAir := true)
    case TxEnds => r.(node := Dispatch(cfg, r.node, TxComplete, now), onAir := false)
  }

  predicate Posted(r: Rig) { r.ready > 0 || r.writing > 0 }

  predicate RigSound(r: Rig) { Sound(r.node, r.onAir, Posted(r)) }

  lemma PostedIsEnough(n: Node, busy: bool, p: bool, q: bool)
    requires Sound(n, busy, p) && (p ==> q)
    ensures Sound(n, busy, q)
  {
  }

  lemma AfterIsSound(cfg: Config, r: Rig, h: Happening, now: nat)
    requires RigSound(r) && Possible(r, h) && now > 0
    ensures RigSound(After(cfg, r, h, now))
  {
    match h
    case Write(data) =>
    case Post =>
    case TakeReady =>
      DispatchKeeps(cfg, r.node, AppDataReady, now, r.onAir, Posted(r));
      PostedIsEnough(After(cfg, r, h, now).node, r.onAir, false, Posted(After(cfg, r, h, now)));
    case Hear(ev) => DispatchKeeps(cfg, r.node, ev, now, r.onAir, Posted(r));
    case Tick => TickIsSound(cfg, r.node, now, r.onAir, Posted(r));
    case KeyUp(rest) => DispatchKeeps(cfg, r.node.(queue := rest), TxStarted, now, true, Posted(r));
    case TxEnds => DispatchKeeps(cfg, r.node, TxComplete, now, r.onAir, Posted(r));
  }

  /** Clearing an expired deadline and dispatching its event leaves no state without one. */
  lemma TickIsSound(cfg: Config, n: Node, now: nat, busy: bool, posted: bool)
    requires Sound(n, busy, posted) && now > 0
    ensures Sound(FireDeadline(cfg, n, now), busy, posted)
  {
    if n.s.deadline != Never && now >= n.s.deadline.ms {
      var c := n.(s := n.s.(deadline := Never));
      AnyDeadline(n, c, busy, posted);
      DispatchKeeps(cfg, c, TimerFired(n.s.deadlineEvent), now, busy, posted);
    }
  }

  /** Sound states, for any modem and any producer, stay sound. */
  ghost predicate StaysSound(n: Node, m: Node) {
    forall busy, posted :: Sound(n, busy, posted) ==> Sound(m, busy, posted)
  }

  lemma TickUpholds(cfg: Config, n: Node, now: nat)
    requires now > 0
    ensures StaysSound(n, FireDeadline(cfg, n, now))
  {
    forall busy, posted | Sound(n, busy, posted) ensures Sound(FireDeadline(cfg, n, now), busy, posted) {
      TickIsSound(cfg, n, now, busy, posted);
    }
  }

  lemma AnyDeadline(n: Node, c: Node, busy: bool, posted: bool)
    requires Sound(n, busy, posted) && n.s.deadline != Never && c == n.(s := n.s.(deadline := Never))
    ensures Ready(c, TimerFired(n.s.deadlineEvent), busy, posted)
  {
    var z := c.(s := c.s.(deadline := At(0)));
    assert WindowFine(n) ==> WindowFine(z);
  }

  // ------------------------------------------------------------------ every run

  ghost predicate IsRun(cfg: Config, run: seq<Rig>) {
    && run != [] && run[0] == Rig(Node(INITIAL, [], [], [], []), false, 0, 0)
    && forall i :: 0 <= i < |run| - 1 ==> StepAt(cfg, run, i)
  }

  ghost predicate StepAt(cfg: Config, run: seq<Rig>, i: int)
    requires 0 <= i < |run| - 1
  {
    Step(cfg, run[i], run[i + 1])
  }

  ghost predicate Step(cfg: Config, r: Rig, r': Rig) {
    exists h, now: nat :: now > 0 && Possible(r, h) && r' == After(cfg, r, h, now)
  }

  /** In every reachable state the window is in order, a sender has something to send, and
      every waiting state has a deadline its handler answers. */
  lemma {:induction false} EveryStateIsSound(cfg: Config, run: seq<Rig>, i: nat)
    requires IsRun(cfg, run) && i < |run|
    ensures RigSound(run[i])
  {
    if i > 0 {
      EveryStateIsSound(cfg, run, i - 1);
      assert StepAt(cfg, run, i - 1);
      StepIsSound(cfg, run[i - 1], run[i]);
    }
  }

  lemma StepIsSound(cfg: Config, r: Rig, r': Rig)
    requires RigSound(r) && Step(cfg, r, r')
    ensures RigSound(r')
  {
    var h, now: nat :| now > 0 && Possible(r, h) && r' == After(cfg, r, h, now);
    AfterIsSound(cfg, r, h, now);
  }

  // ------------------------------------------------------------------ what follows

  predicate Waiting(s: Session) {
    || s.conn.Calling? || s.conn.Accepting? || s.conn.Disconnecting?
    || (s.conn.Connected? && (s.dflow.WaitAck? || s.dflow.DataRx? || s.dflow.IdleIrs? || s.dflow.TurnReqWait? ||
                              s.dflow.ModeReqWait? || s.dflow.KeepaliveWait?))
  }

  /** A waiting state always has a deadline; when it fires, the state changes or waits anew. */
  lemma NoStateSleeps(cfg: Config, run: seq<Rig>, i: nat, now: nat)
    requires IsRun(cfg, run) && i < |run| && Waiting(run[i].node.s) && now > 0
    ensures run[i].node.s.deadline != Never
    ensures now >= run[i].node.s.deadline.ms ==>
      var m := FireDeadline(cfg, run[i].node, now); !Waiting(m.s) || m.s.deadline != Never
  {
    EveryStateIsSound(cfg, run, i);
    var n, busy, posted := run[i].node, run[i].onAir, Posted(run[i]);
    SoundWaits(n, busy, posted);
    TickIsSound(cfg, n, now, busy, posted);
    SoundWaits(FireDeadline(cfg, n, now), busy, posted);
  }

  lemma SoundWaits(n: Node, busy: bool, posted: bool)
    requires Sound(n, busy, posted)
    ensures Waiting(n.s) ==> n.s.deadline != Never
  {
  }

  /** Whenever a sender sends, there is at least one frame: transmission never stalls. */
  lemma SenderAlwaysSends(cfg: Config, run: seq<Rig>, i: nat, now: nat)
    requires IsRun(cfg, run) && i < |run|
    requires run[i].node.s.conn == Connected && (run[i].node.s.dflow.DataTx? || run[i].node.s.dflow.WaitAck?)
    ensures |SendDataBurst(cfg, run[i].node, now).queue| > |run[i].node.queue|
  {
    EveryStateIsSound(cfg, run, i);
    BurstRefills(cfg, run[i].node, now);
  }

  /** The mode is kept under frames that have not been acknowledged, and the bytes of the
      application are in the ring or in a chunk. */
  predicate KeepsBytesAndMode(n: Node, m: Node, written: seq<bv8>) {
    && (m.s.payloadMode != n.s.payloadMode ==> n.s.win.slots == [])
    && Flatten(m.chunks) + m.ring == Flatten(n.chunks) + n.ring + written
    && m.s.win.inflight == PayloadSum(m.s.win.slots) && |m.s.win.slots| <= BURST_MAX
  }

  /** No step of a run changes the mode under unacknowledged frames, or loses or doubles a byte. */
  lemma StepsKeepBytesAndMode(cfg: Config, run: seq<Rig>, i: nat, h: Happening, now: nat)
    requires IsRun(cfg, run) && i < |run| && Possible(run[i], h) && now > 0
    requires run[i].node.s.conn == Connected && After(cfg, run[i], h, now).node.s.conn == Connected
    ensures KeepsBytesAndMode(run[i].node, After(cfg, run[i], h, now).node, if h.Write? then h.data else [])
  {
    EveryStateIsSound(cfg, run, i);
    var r := run[i];
    match h
    case Write(data) =>
      var read := Flatten(r.node.chunks);
      assert read + (r.node.ring + data) == read + r.node.ring + data;
    case Post =>
    case TakeReady => EventKeepsBytes(cfg, r.node, AppDataReady, now, r.onAir, Posted(r));
    case Hear(ev) => EventKeepsBytes(cfg, r.node, ev, now, r.onAir, Posted(r));
    case Tick => TickKeepsBytes(cfg, r.node, now, r.onAir, Posted(r));
    case KeyUp(rest) => EventKeepsBytes(cfg, r.node.(queue := rest), TxStarted, now, true, Posted(r));
    case TxEnds => EventKeepsBytes(cfg, r.node, TxComplete, now, r.onAir, Posted(r));
  }

  lemma EventKeepsBytes(cfg: Config, n: Node, ev: Event, now: nat, busy: bool, posted: bool)
    requires Ready(n, ev, busy, posted) && now > 0
    requires n.s.conn == Connected && Dispatch(cfg, n, ev, now).s.conn == Connected
    ensures KeepsBytesAndMode(n, Dispatch(cfg, n, ev, now), [])
  {
    DispatchKeeps(cfg, n, ev, now, busy, posted);
    DispatchMoves(cfg, n, ev, now, busy, posted);
  }

  lemma TickKeepsBytes(cfg: Config, n: Node, now: nat, busy: bool, posted: bool)
    requires Sound(n, busy, posted) && now > 0
    requires n.s.conn == Connected && FireDeadline(cfg, n, now).s.conn == Connected
    ensures KeepsBytesAndMode(n, FireDeadline(cfg, n, now), [])
  {
    if n.s.deadline != Never && now >= n.s.deadline.ms {
      var c := n.(s := n.s.(deadline := Never));
      AnyDeadline(n, c, busy, posted);
      EventKeepsBytes(cfg, c, TimerFired(n.s.deadlineEvent), now, busy, posted);
    }
  }

  /** When the hold of an idle receiver expires, it probes a peer that has been silent too long;
      otherwise it asks for the turn exactly when it has something to send, and waits on when
      it has not. */
  lemma HoldAsksForTurn(cfg: Config, run: seq<Rig>, i: nat, now: nat)
    requires IsRun(cfg, run) && i < |run| && now > 0
    requires run[i].node.s.conn == Connected && run[i].node.s.dflow.IdleIrs? && !DrainExpired(run[i].node.s, now)
    requires run[i].node.s.deadline != Never && now >= run[i].node.s.deadline.ms
    ensures var n, m := run[i].node, FireDeadline(cfg, run[i].node, now);
      if now - n.s.lastRx >= IRS_INACTIVITY_MS then
        m.s.dflow.KeepaliveTx? && m.queue == n.queue + [KeepaliveFrame(n.s.sid)] && m.s.probe.misses == 0
      else if n.ring != [] then m.s.dflow.TurnReqTx? && m.queue == n.queue + [TurnReqFrame(n.s.sid, n.s.rxExpected)]
      else m.s.dflow.IdleIrs? && m.queue == n.queue && m.s.deadline == At(now + PEER_PAYLOAD_HOLD_MS)
  {
    EveryStateIsSound(cfg, run, i);
    var c := run[i].node.(s := run[i].node.s.(deadline := Never));
    assert OnDflow(cfg, c, TimerFired(PeerBacklog), now) == OnIdleIrs(c, TimerFired(PeerBacklog), now);
  }
}
