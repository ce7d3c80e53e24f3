/** One round of the data exchange when nothing is lost: the burst goes out, the receiver hears
    it, its ACK comes back. Also the same round after a lost ACK, when the receiver has
    some of the frames already. */
module Deliveries {
  import opened Common
  import opened ArqTypes
  import opened Fsm
  import opened Exchanges
  import opened StationInvariants

  // ------------------------------------------------------------------ hearing DATA

  /** Connected, and ready to become the receiver of a burst or in the middle of one. */
  predicate Receives(n: Node) {
    && n.s.conn == Connected
    && (n.s.dflow.IdleIrs? || n.s.dflow.DataRx? || n.s.dflow.TurnReqWait? || n.s.dflow.IdleIss?)
  }

  /** A station apart from what hearing DATA changes: what it has to send, its retries, its
      teardown and its session stay as they are. */
  function Aside(n: Node): Node {
    n.(delivered := [], s := n.s.(rxExpected := 0, dflow := IdleIrs, peerTxMode := 0, lastRx := 0, deadline := Never,
      deadlineEvent := Retry, link := INITIAL.link, turn := n.s.turn.(peerHasData := false)))
  }

  /** Time on the air of a frame in a mode. */
  function AirMs(mode: int): nat { match Timing(mode) case Some(t) => t.frameMs case None => 5000 }

  /** The last reading the peer reported, if the frame brings one. */
  function Reported(link: Link, snr: Snr): Link {
    if snr == None then link else link.(peerSnrX10 := snr.value, peerSnrValid := true)
  }

  /** The frame expected is delivered and the next expected; any other is not. The ACK waits one
      frame and a half for the next frame of the burst, or the guard after the last. */
  lemma FrameIsHeard(cfg: Config, b: Node, f: Frame, snr: Snr, now: nat)
    requires Receives(b) && f.DataFrame? && f.sid == b.s.sid && !DrainExpired(b.s, now)
    ensures var m := Dispatch(cfg, b, EventOf(f, snr), now);
      && Aside(m) == Aside(b) && m.s.dflow.DataRx? && m.s.peerTxMode == f.mode && m.s.lastRx == now
      && Armed(m, AckTimer, now + (if f.burstEnd then 700 else AirMs(f.mode) * 3 / 2))
      && m.s.link == Reported(b.s.link, snr)
      && if f.seqNo == b.s.rxExpected then
           && m.delivered == b.delivered + [f.payload] && m.s.rxExpected == (f.seqNo + 1) % 256
           && !m.s.turn.peerHasData
         else m.delivered == b.delivered && m.s.rxExpected == b.s.rxExpected && m.s.turn.peerHasData
  {
    var ev := EventOf(f, snr);
    var c := Noted(b, ev, now);
    assert Dispatch(cfg, b, ev, now) == OnDflow(cfg, c, ev, now);
    assert OnDflow(cfg, c, ev, now) == ReceiveData(c, ev, now);
  }

  /** A burst: frames of a session, numbered from `first`, of which the last ends it. */
  predicate Numbered(frames: seq<Frame>, sid: Byte, first: nat) {
    forall i :: 0 <= i < |frames| ==> FrameAt(frames, i, sid, first)
  }

  predicate FrameAt(frames: seq<Frame>, i: nat, sid: Byte, first: nat)
    requires i < |frames|
  {
    && frames[i].DataFrame? && frames[i].sid == sid && frames[i].seqNo == (first + i) % 256
    && frames[i].burstEnd == (i == |frames| - 1)
  }

  function PayloadOf(f: Frame): seq<bv8> { if f.DataFrame? then f.payload else [] }

  function Payloads(frames: seq<Frame>): (r: seq<seq<bv8>>)
    ensures |r| == |frames|
  {
    seq(|frames|, i requires 0 <= i < |frames| => PayloadOf(frames[i]))
  }

  /** The states of a receiver that hears the frames one after the other, each at its time. */
  predicate Hearing(cfg: Config, run: seq<Node>, frames: seq<Frame>, snr: Snr, times: seq<nat>) {
    && |run| == |frames| + 1 && |times| == |frames|
    && forall i :: 0 <= i < |frames| ==> HearsAt(cfg, run, frames, snr, times, i)
  }

  predicate HearsAt(cfg: Config, run: seq<Node>, frames: seq<Frame>, snr: Snr, times: seq<nat>, i: nat)
    requires i < |frames| == |times| && |run| == |frames| + 1
  {
    run[i + 1] == Dispatch(cfg, run[i], EventOf(frames[i], snr), times[i])
  }

  /** No teardown comes due at any of these times. */
  predicate Lasts(s: Session, times: seq<nat>) { forall i :: 0 <= i < |times| ==> !DrainExpired(s, times[i]) }

  /** What those of the first `j` frames carry that come after the first `k`. */
  function NewOnes(frames: seq<Frame>, k: nat, j: nat): seq<seq<bv8>>
    requires j <= |frames|
  {
    if j <= k then [] else Payloads(frames[k..j])
  }

  /** The number expected after `count` frames from `first` on, `k` of them known already. */
  function NextAfter(first: nat, count: nat, k: nat): Byte { (first + if count <= k then k else count) % 256 }

  predicate Heard(b: Node, m: Node, frames: seq<Frame>, first: nat, k: nat, j: nat)
    requires j <= |frames|
  {
    && Receives(m) && Aside(m) == Aside(b)
    && m.delivered == b.delivered + NewOnes(frames, k, j) && m.s.rxExpected == NextAfter(first, j, k)
  }

  /** After hearing `f`: the ACK is due when the guard is over if `f` ended the burst. */
  predicate Closed(m: Node, f: Frame, isNew: bool, now: nat) {
    && m.s.dflow.DataRx? && m.s.turn.peerHasData == !isNew
    && (f.DataFrame? && f.burstEnd ==> Armed(m, AckTimer, now + 700))
  }

  lemma OneMoreHeard(cfg: Config, b: Node, p: Node, frames: seq<Frame>, first: nat, k: nat, j: nat, snr: Snr,
                     now: nat)
    requires j < |frames| <= 255 && Heard(b, p, frames, first, k, j) && k < 256 && !DrainExpired(b.s, now)
    requires frames[j].DataFrame? && frames[j].sid == b.s.sid && frames[j].seqNo == NextAfter(first, j, 0)
    ensures var m := Dispatch(cfg, p, EventOf(frames[j], snr), now);
      Heard(b, m, frames, first, k, j + 1) && Closed(m, frames[j], j >= k, now)
  {
    FrameIsHeard(cfg, p, frames[j], snr, now);
    NumbersApart(first, j, k);
    Appended(frames, k, j);
  }

  /** A frame is expected exactly if it is none of those known already. */
  lemma NumbersApart(first: nat, i: nat, k: nat)
    requires i < 255 && k < 256
    ensures NextAfter(first, i, 0) == NextAfter(first, i, k) <==> i >= k
    ensures NextAfter(first, i + 1, k) == if i >= k then (NextAfter(first, i, 0) + 1) % 256 else NextAfter(first, i, k)
  {
    if i < k {
      Apart(first, i, k);
    }
  }

  lemma Apart(first: nat, i: nat, k: nat)
    requires i < k < i + 256
    ensures (first + i) % 256 != (first + k) % 256
  {
  }

  lemma Appended(frames: seq<Frame>, k: nat, j: nat)
    requires j < |frames| && frames[j].DataFrame?
    ensures NewOnes(frames, k, j + 1) == NewOnes(frames, k, j) + if j >= k then [frames[j].payload] else []
  {
    if j >= k {
      assert frames[k..j + 1] == frames[k..j] + [frames[j]];
    }
  }

  lemma {:induction false} FramesAreHeard(cfg: Config, run: seq<Node>, frames: seq<Frame>, snr: Snr, times: seq<nat>,
                                          first: nat, k: nat, j: nat)
    requires Hearing(cfg, run, frames, snr, times) && j <= |frames| <= 255 && k < 256
    requires Numbered(frames, run[0].s.sid, first) && Lasts(run[0].s, times)
    requires Receives(run[0]) && run[0].s.rxExpected == NextAfter(first, 0, k)
    ensures Heard(run[0], run[j], frames, first, k, j)
    ensures j > 0 ==> Closed(run[j], frames[j - 1], j > k, times[j - 1])
  {
    if j > 0 {
      FramesAreHeard(cfg, run, frames, snr, times, first, k, j - 1);
      NumberAt(frames, j - 1, run[0].s.sid, first);
      OneMoreHeard(cfg, run[0], run[j - 1], frames, first, k, j - 1, snr, times[j - 1]);
      assert HearsAt(cfg, run, frames, snr, times, j - 1);
    }
  }

  lemma NumberAt(frames: seq<Frame>, i: nat, sid: Byte, first: nat)
    requires i < |frames| && Numbered(frames, sid, first)
    ensures frames[i].DataFrame? && frames[i].sid == sid && frames[i].seqNo == NextAfter(first, i, 0)
  {
    assert FrameAt(frames, i, sid, first);
  }

  // ------------------------------------------------------------------ acknowledging it

  /** The ACK names the next number expected and tells whether the receiver has data to send. */
  lemma AckGoesOut(cfg: Config, b: Node, now: nat, snr: Snr)
    requires Due(b, DataRx, AckTimer, now)
    ensures var m := FireDeadline(cfg, b, now);
      && Queues(b, m, RxAck(b.s.sid, b.s.rxExpected, b.ring != [], snr), snr) && DataUntouched(b, m)
      && m.s.dflow.AckTx? && m.s.turn == b.s.turn.(ackHadData := b.ring != []) && m.s.setup == b.s.setup
      && m.s.teardown == b.s.teardown
  {
    var ev := TimerFired(AckTimer);
    assert OnDflow(cfg, Cleared(b), ev, now) == OnDataRx(Cleared(b), ev, now);
  }

  /** With the ACK out, the station that announced data takes the sender's role, unless the burst
      ended with a frame it had already: then, as without data, it waits for the other's backlog. */
  lemma AckIsOut(cfg: Config, b: Node, now: nat)
    requires b.s.conn == Connected && b.s.dflow.AckTx? && !b.s.setup.confirm && !DrainExpired(b.s, now)
    ensures var m := Dispatch(cfg, b, TxComplete, now);
      if b.s.turn.ackHadData && !b.s.turn.peerHasData then TakesRole(cfg, b, m, now)
      else
        && DataUntouched(b, m) && m.queue == b.queue && m.s.dflow.IdleIrs?
        && Armed(m, PeerBacklog, now + if b.ring != [] && !b.s.turn.peerHasData then 5000 else 15000)
  {
    assert OnDflow(cfg, b, TxComplete, now) == OnAckTx(cfg, b, TxComplete, now);
    RoleIsTaken(cfg, b, now);
  }

  /** A caller with nothing to send confirms the ACCEPT with an ACK, and then has the sender's role. */
  lemma ConfirmationIsOut(cfg: Config, a: Node, now: nat)
    requires a.s.conn == Connected && a.s.dflow.AckTx? && a.s.setup.confirm && !DrainExpired(a.s, now)
    ensures var m := Dispatch(cfg, a, TxComplete, now);
      TakesRole(cfg, a, m, now) && !m.s.setup.confirm
  {
    assert OnDflow(cfg, a, TxComplete, now) == OnAckTx(cfg, a, TxComplete, now);
    RoleIsTaken(cfg, a.(s := a.s.(setup := a.s.setup.(confirm := false))), now);
  }

  /** Numbers of the window. */
  predicate WindowFrom(slots: seq<Slot>, first: nat) {
    forall i :: 0 <= i < |slots| ==> slots[i].seqNo == (first + i) % 256
  }

  lemma ConfirmedIs(slots: seq<Slot>, first: nat, k: nat)
    requires WindowFrom(slots, first) && 1 <= k <= |slots| <= 255
    ensures Confirmed(slots, (first + k) % 256) == k
  {
    assert ((first + k) % 256 - first % 256) % 256 == k;
  }

  /** The window went out once and none of its retries was used. */
  predicate FirstTry(cfg: Config, s: Session) { !s.win.retx && s.retries == cfg.dataRetries }

  /** An ACK that names no frame after one of the window confirms nothing. */
  lemma StaleAckIsIgnored(cfg: Config, a: Node, first: nat, ack: Byte, hasData: bool, snr: Snr, now: nat)
    requires Hears(a, WaitAck, a.s.sid, now) && WindowFrom(a.s.win.slots, first) && |a.s.win.slots| <= 255
    requires !(1 <= (ack - first) % 256 <= |a.s.win.slots|)
    ensures Dispatch(cfg, a, RxAck(a.s.sid, ack, hasData, snr), now) ==
      a.(s := a.s.(lastRx := now, link := Reported(a.s.link, snr)))
  {
    var ev := RxAck(a.s.sid, ack, hasData, snr);
    var c := Noted(a, ev, now);
    assert Dispatch(cfg, a, ev, now) == OnDflow(cfg, c, ev, now) == OnWaitAck(cfg, c, ev, now);
    assert OnWaitAck(cfg, c, ev, now) == OnAck(cfg, c, ev, now);
    NoneConfirmed(a.s.win.slots, first, ack);
  }

  lemma NoneConfirmed(slots: seq<Slot>, first: nat, ack: Byte)
    requires WindowFrom(slots, first) && |slots| <= 255
    requires !(1 <= (ack - first) % 256 <= |slots|)
    ensures Confirmed(slots, ack) == 0
  {
    if slots != [] {
      assert (ack - first % 256) % 256 == (ack - first) % 256;
    }
  }

  /** New DATA while an ACK is awaited stands for that ACK: the window is done, and the frame is
      delivered and will be acknowledged. */
  lemma NewDataConfirms(cfg: Config, a: Node, f: Frame, snr: Snr, now: nat)
    requires f.DataFrame? && Hears(a, WaitAck, f.sid, now) && f.seqNo == a.s.rxExpected
    ensures var m := Dispatch(cfg, a, EventOf(f, snr), now);
      && m.s.win == Window([], false, 0) && m.s.retries == cfg.dataRetries && m.s.lastProgress == now
      && m.delivered == a.delivered + [f.payload] && m.s.rxExpected == (f.seqNo + 1) % 256
      && m.queue == a.queue && m.ring == a.ring && m.chunks == a.chunks && m.s.dflow.DataRx?
      && Armed(m, AckTimer, now + (if f.burstEnd then 700 else AirMs(f.mode) * 3 / 2))
      && m.s.link == cfg.policy.record(Reported(a.s.link, snr), a.s.payloadMode, FirstTry(cfg, a.s))
  {
    var ev := EventOf(f, snr);
    var c := Noted(a, ev, now);
    assert Dispatch(cfg, a, ev, now) == OnDflow(cfg, c, ev, now) == OnWaitAck(cfg, c, ev, now);
    assert OnWaitAck(cfg, c, ev, now) == OnDataInWaitAck(cfg, c, ev, now);
  }

  /** A frame known already is not delivered; the window, if any, goes out again at once. */
  lemma OldDataRepeats(cfg: Config, a: Node, f: Frame, snr: Snr, now: nat)
    requires f.DataFrame? && Hears(a, WaitAck, f.sid, now) && f.seqNo != a.s.rxExpected && WindowFine(a)
    ensures var m := Dispatch(cfg, a, EventOf(f, snr), now);
      && a.s.win.slots <= m.s.win.slots && m.queue == a.queue + BurstFrames(m.s) && m.delivered == a.delivered
      && m.s.rxExpected == a.s.rxExpected && m.s.dflow.DataTx? && m.s.deadline == Never
  {
    var ev := EventOf(f, snr);
    var c := Noted(a, ev, now);
    assert Dispatch(cfg, a, ev, now) == OnDflow(cfg, c, ev, now) == OnWaitAck(cfg, c, ev, now);
    assert OnWaitAck(cfg, c, ev, now) == OnDataInWaitAck(cfg, c, ev, now);
    var d := c.(s := c.s.(link := SeePeerSnr(c.s.link, ev.snr), peerTxMode := ev.mode, lastRx := now));
    BurstRefills(cfg, DflowEnter(d, DataTx, Never, Retry), now);
  }

  /** What the application writes sends an idle sender on its way: at once, or behind the guard if
      a caller's confirmation went before. */
  lemma WriteWakesSender(cfg: Config, a: Node, now: nat)
    requires Hears(a, IdleIss, a.s.sid, now) && a.ring != [] && WindowFine(a)
    ensures var m := Dispatch(cfg, a, AppDataReady, now);
      && m.s.dflow.DataTx? && m.delivered == a.delivered
      && if a.s.setup.guard then
           m.queue == a.queue && m.ring == a.ring && Armed(m, AckTimer, now + 900) && !m.s.setup.guard
         else m.queue == a.queue + BurstFrames(m.s) && m.s.win.slots != [] && m.s.deadline == Never
  {
    assert Dispatch(cfg, a, AppDataReady, now) == OnIdleIss(cfg, a, AppDataReady, now);
    BurstRefills(cfg, DflowEnter(a, DataTx, Never, Retry), now);
  }

  /** An ACK that names the frame after the first `k` confirms those. What is left goes out again
      after the guard; with nothing left the roles change if the receiver announced data. */
  lemma AckIsHeard(cfg: Config, a: Node, first: nat, k: nat, hasData: bool, snr: Snr, now: nat)
    requires Hears(a, WaitAck, a.s.sid, now) && WindowFrom(a.s.win.slots, first) && 1 <= k <= |a.s.win.slots| <= 255
    ensures var m := Dispatch(cfg, a, RxAck(a.s.sid, (first + k) % 256, hasData, snr), now);
      && m.s.win.slots == a.s.win.slots[k..] && m.s.txSeq == a.s.txSeq && m.s.rxExpected == a.s.rxExpected
      && m.ring == a.ring && m.chunks == a.chunks && m.delivered == a.delivered
      && if k < |a.s.win.slots| then
           && m.s.dflow.DataTx? && Armed(m, AckTimer, now + 900) && m.s.win.retx && m.queue == a.queue
           && m.s.retries == cfg.dataRetries && m.s.lastProgress == now
           && m.s.link == cfg.policy.record(Reported(a.s.link, snr), a.s.payloadMode, false)
         else if hasData then
           && m.s.conn == Connected && m.s.dflow.IdleIrs? && Armed(m, PeerBacklog, now + 15000)
           && m.queue == a.queue && m.s.link ==
             cfg.policy.record(Reported(a.s.link, snr), a.s.payloadMode, FirstTry(cfg, a.s))
         else InRole(cfg, a, m, now)
  {
    var ev := RxAck(a.s.sid, (first + k) % 256, hasData, snr);
    var c := Noted(a, ev, now);
    assert Dispatch(cfg, a, ev, now) == OnDflow(cfg, c, ev, now) == OnWaitAck(cfg, c, ev, now);
    ConfirmedIs(a.s.win.slots, first, k);
    var d := c.(s := c.s.(link := SeePeerSnr(c.s.link, snr)));
    assert OnWaitAck(cfg, c, ev, now) == AckConfirms(cfg, d, k, hasData, now);
    AckSlides(cfg, d, k, hasData, now);
  }

  lemma AckSlides(cfg: Config, a: Node, k: nat, hasData: bool, now: nat)
    requires a.s.conn == Connected && 1 <= k <= |a.s.win.slots|
    ensures var m := AckConfirms(cfg, a, k, hasData, now);
      && m.s.win.slots == a.s.win.slots[k..] && m.s.txSeq == a.s.txSeq && m.s.rxExpected == a.s.rxExpected
      && m.ring == a.ring && m.chunks == a.chunks && m.delivered == a.delivered
      && if k < |a.s.win.slots| then
           && m.s.dflow.DataTx? && Armed(m, AckTimer, now + 900) && m.s.win.retx && m.queue == a.queue
           && m.s.retries == cfg.dataRetries && m.s.lastProgress == now
           && m.s.link == cfg.policy.record(a.s.link, a.s.payloadMode, false)
         else if hasData then
           && m.s.conn == Connected && m.s.dflow.IdleIrs? && Armed(m, PeerBacklog, now + 15000)
           && m.queue == a.queue && m.s.link == cfg.policy.record(a.s.link, a.s.payloadMode, FirstTry(cfg, a.s))
         else InRole(cfg, a, m, now)
  {
    if k == |a.s.win.slots| && !hasData {
      var clean := CleanWindow(cfg, a.s);
      var s := Slide(a.s, k).(retries := cfg.dataRetries, lastProgress := now,
        turn := a.s.turn.(peerHasData := hasData));
      var m := a.(s := s.(win := s.win.(retx := false), link := cfg.policy.record(s.link, s.payloadMode, clean)));
      RoleIsTaken(cfg, m, now);
    }
  }

  // ------------------------------------------------------------------ a round

  /** The number of the first frame of the window. */
  function First(n: Node): nat { (n.s.txSeq - |n.s.win.slots|) % 256 }

  lemma WindowIsNumbered(n: Node)
    requires WindowFine(n)
    ensures WindowFrom(n.s.win.slots, First(n)) && n.s.txSeq == NextAfter(First(n), |n.s.win.slots|, 0)
    ensures Numbered(BurstFrames(n.s), n.s.sid, First(n))
  {
    forall i | 0 <= i < |n.s.win.slots|
      ensures n.s.win.slots[i].seqNo == (First(n) + i) % 256
      ensures FrameAt(BurstFrames(n.s), i, n.s.sid, First(n))
    {
      SlotIsNumbered(n, i);
    }
    LastNumber(n.s.txSeq, |n.s.win.slots|);
  }

  lemma LastNumber(txSeq: Byte, count: nat)
    ensures txSeq == NextAfter((txSeq - count) % 256, count, 0)
  {
  }

  lemma WindowCarries(n: Node)
    requires WindowFine(n)
    ensures Payloads(BurstFrames(n.s)) == n.chunks[Base(n)..]
  {
    forall i | 0 <= i < |n.s.win.slots| ensures PayloadOf(BurstFrames(n.s)[i]) == n.chunks[Base(n) + i] {
      SlotIsNumbered(n, i);
    }
  }

  lemma SlotIsNumbered(n: Node, i: nat)
    requires WindowFine(n) && i < |n.s.win.slots|
    ensures n.s.win.slots[i].seqNo == (First(n) + i) % 256
    ensures FrameAt(BurstFrames(n.s), i, n.s.sid, First(n))
    ensures PayloadOf(BurstFrames(n.s)[i]) == n.chunks[Base(n) + i]
  {
    assert SlotOk(n.s.win.slots[i], |n.s.win.slots| - i, n.s.txSeq, n.s.payloadMode, n.chunks);
    assert BurstFrames(n.s)[i] == BuiltFrame(n.s, n.s.win.slots[i], i == |n.s.win.slots| - 1);
    NumberOf(n.s.txSeq, |n.s.win.slots|, i);
  }

  lemma NumberOf(txSeq: Byte, count: nat, i: nat)
    requires i < count
    ensures (txSeq - (count - i)) % 256 == ((txSeq - count) % 256 + i) % 256
  {
  }

  /** A window that is topped up still begins with the same number. */
  lemma AddedFirst(n: Node, userBytes: nat)
    requires userBytes > 0
    ensures First(AddSlot(n, userBytes)) == First(n)
  {
  }

  lemma {:induction false} TopUpKeepsFirst(n: Node, m: Node, limit: nat, userBytes: nat)
    requires userBytes > 0 && m == TopUp(n, userBytes, limit)
    ensures First(m) == First(n)
    decreases limit - |n.s.win.slots|
  {
    if |n.s.win.slots| < limit && n.ring != [] {
      AddedFirst(n, userBytes);
      TopUpKeepsFirst(AddSlot(n, userBytes), m, limit, userBytes);
    }
  }

  lemma BurstKeepsFirst(cfg: Config, n: Node, now: nat)
    requires WindowFine(n)
    ensures First(SendDataBurst(cfg, n, now)) == First(n)
  {
    var limit, userBytes := BurstMax(cfg, n.s, now), UserBytes(n.s.payloadMode);
    TopUpKeepsFirst(n, TopUp(n, userBytes, limit), limit, userBytes);
  }

  /** The whole window goes out, topped up with fresh bytes, and only that. */
  predicate GoesOut(n: Node, m: Node) {
    && m.queue == n.queue + BurstFrames(m.s) && 1 <= |m.s.win.slots| <= 5
    && WindowFine(m) && n.chunks <= m.chunks && First(m) == First(n) && Base(m) == Base(n)
    && Flatten(m.chunks) + m.ring == Flatten(n.chunks) + n.ring
    && m.s.conn == n.s.conn && m.s.sid == n.s.sid && m.s.dflow == n.s.dflow && m.s.teardown == n.s.teardown
  }

  /** So it does when the guard is over. */
  lemma BurstGoesOut(cfg: Config, a: Node, now: nat)
    requires Due(a, DataTx, AckTimer, now) && WindowFine(a) && (a.ring != [] || a.s.win.slots != [])
    ensures GoesOut(a, FireDeadline(cfg, a, now))
  {
    DueBursts(cfg, a, now);
    BurstOut(cfg, Cleared(a), now);
    ClearedToo(a, FireDeadline(cfg, a, now));
  }

  lemma ClearedToo(n: Node, m: Node)
    requires GoesOut(Cleared(n), m)
    ensures GoesOut(n, m)
  {
  }

  lemma BurstOut(cfg: Config, a: Node, now: nat)
    requires WindowFine(a) && (a.ring != [] || a.s.win.slots != [])
    ensures GoesOut(a, SendDataBurst(cfg, a, now))
  {
    BurstRefills(cfg, a, now);
    BurstKeepsFirst(cfg, a, now);
  }

  lemma DueBursts(cfg: Config, a: Node, now: nat)
    requires Due(a, DataTx, AckTimer, now)
    ensures FireDeadline(cfg, a, now) == SendDataBurst(cfg, Cleared(a), now)
  {
    var c := Cleared(a);
    assert OnDflow(cfg, c, TimerFired(AckTimer), now) == OnDataTx(cfg, c, TimerFired(AckTimer), now);
  }

  /** The end of the transmission starts the wait for the ACK. */
  lemma BurstIsOut(cfg: Config, a: Node, now: nat)
    requires a.s.conn == Connected && a.s.dflow.DataTx? && PayloadMode(a.s.payloadMode) && !DrainExpired(a.s, now)
    ensures var m := Sent(cfg, a, now);
      && m == a.(queue := [], s := a.s.(dflow := WaitAck, deadline := m.s.deadline, deadlineEvent := AckTimer))
      && Armed(m, AckTimer, now + Timing(a.s.payloadMode).value.ackTimeoutMs)
  {
    var c := a.(queue := []);
    assert OnDflow(cfg, c, TxStarted, now) == OnDataTx(cfg, c, TxStarted, now);
    assert OnDflow(cfg, c, TxComplete, now) == OnDataTx(cfg, c, TxComplete, now);
  }

  /** The receiver has what the sender read, apart from the window after its first `k` frames. */
  predicate InStep(a: Node, b: Node, k: nat) {
    && k <= |a.s.win.slots| <= |a.chunks| && a.s.sid == b.s.sid
    && b.s.rxExpected == NextAfter(First(a), 0, k) && b.delivered == a.chunks[..Base(a) + k]
  }

  /** The receiver's half of a round. */
  lemma ReceiverTakesAll(cfg: Config, a: Node, run: seq<Node>, k: nat, snr: Snr, times: seq<nat>, reply: nat)
    requires a.queue == BurstFrames(a.s) != [] && WindowFine(a) && Hearing(cfg, run, a.queue, snr, times)
    requires InStep(a, run[0], k) && Receives(run[0]) && run[0].queue == [] && !run[0].s.setup.confirm
    requires !run[0].s.teardown.disconnect && reply >= times[|times| - 1] + 700
    ensures var b, r := run[0], FireDeadline(cfg, run[|times|], reply);
      && |r.queue| == 1 && EventOf(r.queue[0], snr) == RxAck(a.s.sid, a.s.txSeq, b.ring != [], snr)
      && r.delivered == a.chunks && r.s.rxExpected == a.s.txSeq && r.ring == b.ring && r.s.sid == a.s.sid
      && r.s.conn == Connected && r.s.dflow.AckTx? && !r.s.setup.confirm && !r.s.teardown.disconnect
      && r.s.turn.ackHadData == (b.ring != []) && r.s.turn.peerHasData == (k == |a.s.win.slots|)
  {
    WindowIsNumbered(a);
    FramesAreHeard(cfg, run, a.queue, snr, times, First(a), k, |times|);
    assert FrameAt(a.queue, |a.queue| - 1, a.s.sid, First(a));
    AllDelivered(a, k);
    HeardIs(a, run[0], run[|times|], k);
    AckGoesOut(cfg, run[|times|], reply, snr);
  }

  lemma HeardIs(a: Node, b: Node, m: Node, k: nat)
    requires InStep(a, b, k) && Aside(m) == Aside(b) && k <= |a.s.win.slots|
    requires m.delivered == b.delivered + NewOnes(BurstFrames(a.s), k, |a.s.win.slots|)
    requires a.chunks == a.chunks[..Base(a) + k] + NewOnes(BurstFrames(a.s), k, |a.s.win.slots|)
    ensures m.delivered == a.chunks && m.ring == b.ring && m.queue == b.queue && m.s.conn == b.s.conn
    ensures m.s.sid == a.s.sid && m.s.setup == b.s.setup && m.s.teardown == b.s.teardown
  {
  }

  lemma AllDelivered(a: Node, k: nat)
    requires WindowFine(a) && k <= |a.s.win.slots|
    ensures a.chunks == a.chunks[..Base(a) + k] + NewOnes(BurstFrames(a.s), k, |a.s.win.slots|)
    ensures a.s.txSeq == NextAfter(First(a), |a.s.win.slots|, k)
  {
    WindowCarries(a);
    Rest(BurstFrames(a.s), k, a.chunks, Base(a));
    LastNumber(a.s.txSeq, |a.s.win.slots|);
    assert NextAfter(First(a), |a.s.win.slots|, k) == NextAfter(First(a), |a.s.win.slots|, 0);
  }

  lemma Rest(frames: seq<Frame>, k: nat, chunks: seq<seq<bv8>>, base: nat)
    requires k <= |frames| && base + |frames| == |chunks| && Payloads(frames) == chunks[base..]
    ensures chunks[..base + k] + NewOnes(frames, k, |frames|) == chunks
  {
    var rest := NewOnes(frames, k, |frames|);
    assert |rest| == |frames| - k;
    forall i | 0 <= i < |rest| ensures rest[i] == chunks[base + k + i] {
      assert rest[i] == Payloads(frames)[k + i];
    }
  }

  predicate Acknowledged(a: Node, m: Node, hasData: bool, back: nat) {
    && m.s.win.slots == [] && m.s.txSeq == a.s.txSeq && m.ring == a.ring && m.chunks == a.chunks
    && m.delivered == a.delivered && m.s.conn == Connected
    && if hasData then m.s.dflow.IdleIrs? && Armed(m, PeerBacklog, back + 15000)
       else if a.ring == [] then m.s.dflow.IdleIss? else m.s.dflow.DataTx? || m.s.dflow.ModeReqTx?
  }

  lemma AllConfirmed(cfg: Config, a: Node, first: nat, hasData: bool, snr: Snr, now: nat)
    requires Hears(a, WaitAck, a.s.sid, now) && WindowFrom(a.s.win.slots, first) && 1 <= |a.s.win.slots| <= 255
    requires a.s.txSeq == NextAfter(first, |a.s.win.slots|, 0) && !a.s.teardown.disconnect
    ensures Acknowledged(a, Dispatch(cfg, a, RxAck(a.s.sid, a.s.txSeq, hasData, snr), now), hasData, now)
  {
    AckIsHeard(cfg, a, first, |a.s.win.slots|, hasData, snr, now);
    var m := Dispatch(cfg, a, RxAck(a.s.sid, a.s.txSeq, hasData, snr), now);
    assert m.s.win.slots == [];
    if !hasData {
      InRoleIs(cfg, a, m, now);
    }
  }

  lemma InRoleIs(cfg: Config, a: Node, m: Node, now: nat)
    requires InRole(cfg, a, m, now) && !a.s.teardown.disconnect
    ensures m.s.conn == Connected
    ensures if a.ring == [] then m.s.dflow.IdleIss? else m.s.dflow.DataTx? || m.s.dflow.ModeReqTx?
  {
  }

  /** The sender's half. */
  lemma SenderIsDone(cfg: Config, a: Node, hasData: bool, snr: Snr, done: nat, back: nat)
    requires a.s.conn == Connected && a.s.dflow.DataTx? && WindowFine(a) && a.s.win.slots != []
    requires !a.s.teardown.disconnect
    ensures var m := Dispatch(cfg, Sent(cfg, a, done), RxAck(a.s.sid, a.s.txSeq, hasData, snr), back);
      Acknowledged(a, m, hasData, back)
  {
    var w := Sent(cfg, a, done);
    BurstIsOut(cfg, a, done);
    WindowIsNumbered(a);
    AllConfirmed(cfg, w, First(a), hasData, snr, back);
    assert w.s.sid == a.s.sid && w.s.txSeq == a.s.txSeq;
    SameAcknowledged(a, w, Dispatch(cfg, w, RxAck(w.s.sid, w.s.txSeq, hasData, snr), back), hasData, back);
  }

  lemma SameAcknowledged(a: Node, w: Node, m: Node, hasData: bool, back: nat)
    requires w == a.(queue := [], s := w.s) && w.s.txSeq == a.s.txSeq && Acknowledged(w, m, hasData, back)
    ensures Acknowledged(a, m, hasData, back)
  {
  }

  /** Who goes on to send: the receiver if it had data and did not know the last frame already,
      the sender if the receiver had none, and for a hold nobody if both held back. */
  predicate RolesAfter(a: Node, b: Node, oldRing: seq<bv8>, allKnown: bool) {
    if oldRing == [] then
      && b.s.dflow.IdleIrs?
      && (if a.ring == [] then a.s.dflow.IdleIss? else a.s.dflow.DataTx? || a.s.dflow.ModeReqTx?)
    else a.s.dflow.IdleIrs? && if allKnown then b.s.dflow.IdleIrs? else b.s.dflow.DataTx? || b.s.dflow.ModeReqTx?
  }

  /** The burst goes out, is heard and acknowledged with nothing lost: all that the sender ever
      read has been delivered, its window is empty, and the bytes read are gone from its ring. */
  lemma BurstIsDelivered(cfg: Config, a: Node, run: seq<Node>, k: nat, snr: Snr, start: nat, times: seq<nat>,
                         done: nat, reply: nat, back: nat)
    returns (a1: Node, b2: Node, a3: Node, b3: Node)
    requires Due(a, DataTx, AckTimer, start) && WindowFine(a) && (a.ring != [] || a.s.win.slots != []) && a.queue == []
    requires Hearing(cfg, run, FireDeadline(cfg, a, start).queue, snr, times)
    requires InStep(a, run[0], k) && Receives(run[0]) && run[0].queue == [] && !run[0].s.setup.confirm
    requires !a.s.teardown.disconnect && !run[0].s.teardown.disconnect
    requires |times| > 0 && reply >= times[|times| - 1] + 700
    ensures a1 == FireDeadline(cfg, a, start) && b2 == FireDeadline(cfg, run[|times|], reply) && |b2.queue| == 1
    ensures a3 == Dispatch(cfg, Sent(cfg, a1, done), EventOf(b2.queue[0], snr), back) && b3 == Sent(cfg, b2, back)
    ensures b3.delivered == a3.chunks && b3.s.rxExpected == a3.s.txSeq && a3.s.win.slots == []
    ensures Flatten(a3.chunks) + a3.ring == Flatten(a.chunks) + a.ring && b3.ring == run[0].ring
    ensures a3.s.conn == b3.s.conn == Connected && RolesAfter(a3, b3, run[0].ring, k == |a1.s.win.slots|)
  {
    var b := run[0];
    a1 := FireDeadline(cfg, a, start);
    BurstGoesOut(cfg, a, start);
    assert InStep(a1, b, k) by { StillInStep(a, a1, b, k); }
    ReceiverTakesAll(cfg, a1, run, k, snr, times, reply);
    b2 := FireDeadline(cfg, run[|times|], reply);
    SenderIsDone(cfg, a1, b.ring != [], snr, done, back);
    a3 := Dispatch(cfg, Sent(cfg, a1, done), EventOf(b2.queue[0], snr), back);
    b3 := Sent(cfg, b2, back);
    AckIsSent(cfg, b2, back);
  }

  lemma StillInStep(a: Node, m: Node, b: Node, k: nat)
    requires InStep(a, b, k) && WindowFine(m) && First(m) == First(a) && Base(m) == Base(a) && a.chunks <= m.chunks
    requires m.s.sid == a.s.sid
    ensures InStep(m, b, k)
  {
    assert a.chunks[..Base(a) + k] == m.chunks[..Base(m) + k];
  }

  lemma AckIsSent(cfg: Config, b: Node, now: nat)
    requires b.s.conn == Connected && b.s.dflow.AckTx? && !b.s.setup.confirm && !b.s.teardown.disconnect
    requires b.s.turn.ackHadData == (b.ring != [])
    ensures var m := Sent(cfg, b, now);
      && m.delivered == b.delivered && m.s.rxExpected == b.s.rxExpected && m.ring == b.ring && m.s.conn == Connected
      && if b.ring != [] && !b.s.turn.peerHasData then m.s.dflow.DataTx? || m.s.dflow.ModeReqTx? else m.s.dflow.IdleIrs?
  {
    var c := b.(queue := []);
    assert OnDflow(cfg, c, TxStarted, now) == OnAckTx(cfg, c, TxStarted, now);
    AckIsOut(cfg, c, now);
  }
}
