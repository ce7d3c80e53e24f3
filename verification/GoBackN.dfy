/** One direction of the go-back-N protocol with explicit cumulative ACKs: any burst size from
    one to five, sequence numbers of eight bits, and channels both ways that may delay and lose
    frames but not reorder them. Both ends run the whole state machine of Fsm. */
module GoBackN {
  import opened ArqTypes
  import opened Fsm
  import opened StationInvariants
  import opened StationRuns

  /** A DATA frame on its way, with the place its payload has in the sender's record. */
  datatype Sent = Sent(frame: Frame, place: nat)

  /** An ACK on its way, with the number of chunks its sender had delivered. */
  datatype SentAck = SentAck(ack: Byte, count: nat)

  /** The two ends, DATA frames on their way to the receiver, ACKs on their way back. */
  datatype Path = Path(tx: Node, rx: Node, data: seq<Sent>, acks: seq<SentAck>)

  // ------------------------------------------------------------------ steps

  /** The DATA frames among those handed to the modem, numbered from the window's base. */
  function Numbered(fs: seq<Frame>, base: nat): seq<Sent> {
    if fs == [] then []
    else if fs[0].DataFrame? then [Sent(fs[0], base)] + Numbered(fs[1..], base + 1)
    else Numbered(fs[1..], base)
  }

  /** The ACKs among the frames handed to the modem. */
  function Acks(fs: seq<Frame>, count: nat): seq<SentAck> {
    if fs == [] then []
    else if fs[0].AckFrame? then [SentAck(fs[0].ack, count)] + Acks(fs[1..], count)
    else Acks(fs[1..], count)
  }

  datatype Act =
    | TxHears(ev: Event) | TxTick | TxWrites(data: seq<bv8>)
    | RxHears(ev: Event) | RxTick
    | DataArrives(hasData: bool, snr: Snr) | AckArrives(sid: Byte, hasData: bool, snr: Snr)
    | LoseData(i: nat) | LoseAck(i: nat)

  /** The sender hears ACKs only through the channel, and while it waits for one nothing it
      would take for an implicit ACK; the receiver hears DATA only through the channel. */
  predicate Can(g: Path, act: Act) {
    match act
    case TxHears(ev) => !ev.TimerFired? && !ev.RxAck? && Acked(g.tx.s, ev) == 0
    case RxHears(ev) => !ev.TimerFired? && !ev.RxData?
    case DataArrives(_, _) => g.data != [] && g.data[0].frame.DataFrame?
    case AckArrives(_, _, _) => g.acks != []
    case LoseData(i) => i < |g.data|
    case LoseAck(i) => i < |g.acks|
    case _ => true
  }

  function Heard(f: Frame, hasData: bool, snr: Snr): Event
    requires f.DataFrame?
  {
    RxData(f.sid, f.seqNo, f.payload, hasData, f.burstEnd, f.mode, snr)
  }

  /** What the sender's modem is handed goes into the data channel. */
  function TxTo(g: Path, m: Node): Path
    requires |m.s.win.slots| <= |m.chunks|
  {
    g.(tx := m.(queue := []), data := g.data + Numbered(m.queue, Base(m)))
  }

  function RxTo(g: Path, m: Node): Path {
    g.(rx := m.(queue := []), acks := g.acks + Acks(m.queue, |m.delivered|))
  }

  /** The sender's or the receiver's node after `act`. */
  function TxNode(cfg: Config, g: Path, act: Act, now: nat): Node
    requires Can(g, act)
  {
    match act
    case TxHears(ev) => Dispatch(cfg, g.tx, ev, now)
    case TxTick => FireDeadline(cfg, g.tx, now)
    case TxWrites(data) => g.tx.(ring := g.tx.ring + data)
    case AckArrives(sid, hasData, snr) => Dispatch(cfg, g.tx, RxAck(sid, g.acks[0].ack, hasData, snr), now)
    case _ => g.tx
  }

  function RxNode(cfg: Config, g: Path, act: Act, now: nat): Node
    requires Can(g, act)
  {
    match act
    case RxHears(ev) => Dispatch(cfg, g.rx, ev, now)
    case RxTick => FireDeadline(cfg, g.rx, now)
    case DataArrives(hasData, snr) => Dispatch(cfg, g.rx, Heard(g.data[0].frame, hasData, snr), now)
    case _ => g.rx
  }

  /** What is left in the channels before new frames go in. */
  function Delayed(g: Path, act: Act): Path
    requires Can(g, act)
  {
    match act
    case DataArrives(_, _) => g.(data := g.data[1..])
    case AckArrives(_, _, _) => g.(acks := g.acks[1..])
    case LoseData(i) => g.(data := g.data[..i] + g.data[i + 1..])
    case LoseAck(i) => g.(acks := g.acks[..i] + g.acks[i + 1..])
    case _ => g
  }

  predicate BothConnected(tx: Node, rx: Node) { tx.s.conn == Connected && rx.s.conn == Connected }

  ghost predicate PathStep(cfg: Config, g: Path, g': Path) {
    exists act, now: nat :: now > 0 && StepBy(cfg, g, act, now, g')
  }

  predicate StepBy(cfg: Config, g: Path, act: Act, now: nat, g': Path) {
    && Can(g, act)
    && var tx, rx := TxNode(cfg, g, act, now), RxNode(cfg, g, act, now);
    && BothConnected(tx, rx) && |tx.s.win.slots| <= |tx.chunks|
    && g' == RxTo(TxTo(Delayed(g, act), tx), rx)
  }

  // ------------------------------------------------------------------ the invariant

  predicate SentOk(f: Sent, chunks: seq<seq<bv8>>, delivered: nat) {
    && f.place < |chunks| && delivered <= f.place + BURST_MAX
    && f.frame.DataFrame? && f.frame.seqNo == f.place % 256 && f.frame.payload == chunks[f.place]
  }

  /** Each DATA frame on its way carries a chunk read, no older than five behind the receiver. */
  predicate DataOk(data: seq<Sent>, chunks: seq<seq<bv8>>, delivered: nat) {
    && (forall i :: 0 <= i < |data| ==> SentOk(data[i], chunks, delivered))
    && (forall i, j :: 0 <= i < j < |data| ==> data[i].place < data[j].place + BURST_MAX)
  }

  /** ACKs on their way never run ahead of the receiver nor fall behind the sender. */
  predicate AcksOk(acks: seq<SentAck>, base: int, delivered: nat) {
    && (forall i :: 0 <= i < |acks| ==> acks[i].ack == acks[i].count % 256 && base <= acks[i].count <= delivered)
    && (forall i, j :: 0 <= i < j < |acks| ==> acks[i].count <= acks[j].count)
  }

  predicate EndsOk(tx: Node, rx: Node) {
    && BothConnected(tx, rx) && Sound(tx, true, true) && Sound(rx, true, true) && SeqCounts(tx)
    && rx.s.rxExpected == |rx.delivered| % 256
    && Base(tx) <= |rx.delivered| && rx.delivered <= tx.chunks
  }

  predicate Inv(g: Path) {
    && EndsOk(g.tx, g.rx) && g.tx.queue == [] && g.rx.queue == []
    && DataOk(g.data, g.tx.chunks, |g.rx.delivered|) && AcksOk(g.acks, Base(g.tx), |g.rx.delivered|)
  }

  // ------------------------------------------------------------------ the arithmetic of eight bits

  /** Within the reach of the channel, equal sequence numbers mean equal frames. */
  lemma SameNumberSameFrame(place: nat, delivered: nat)
    requires delivered <= place + BURST_MAX && place < delivered + BURST_MAX && place % 256 == delivered % 256
    ensures place == delivered
  {
  }

  lemma ByteBack(n: int, k: int)
    ensures (n % 256 - k) % 256 == (n - k) % 256
  {
    assert n == 256 * (n / 256) + n % 256;
    var r := n % 256 - k;
    assert n - k == 256 * (n / 256) + r;
  }

  lemma DistanceInByte(count: nat, read: nat, size: nat)
    requires 0 <= size <= BURST_MAX && read - size <= count <= read
    ensures (count % 256 - (read % 256 - size) % 256) % 256 == count - (read - size)
  {
    var x := count - (read - size);
    var q := (count % 256 - (read % 256 - size) % 256) - x;
    assert count % 256 == count - 256 * (count / 256);
    assert read % 256 == read - 256 * (read / 256);
  }

  /** A cumulative ACK confirms exactly the frames the receiver had delivered. */
  lemma AckCountsExactly(n: Node, count: nat)
    requires WindowFine(n) && SeqCounts(n) && Base(n) <= count <= |n.chunks|
    ensures Confirmed(n.s.win.slots, count % 256) == count - Base(n)
  {
    var slots := n.s.win.slots;
    DistanceInByte(count, |n.chunks|, |slots|);
    if slots != [] {
      assert SlotOk(slots[0], |slots|, n.s.txSeq, n.s.payloadMode, n.chunks);
    }
  }

  // ------------------------------------------------------------------ what the modem is handed

  lemma {:induction false} NumberedBurst(fs: seq<Frame>, base: nat)
    requires forall i :: 0 <= i < |fs| ==> fs[i].DataFrame?
    ensures |Numbered(fs, base)| == |fs|
    ensures forall i :: 0 <= i < |fs| ==> Numbered(fs, base)[i] == Sent(fs[i], base + i)
  {
    if fs != [] {
      NumberedBurst(fs[1..], base + 1);
      forall i | 0 < i < |fs| ensures Numbered(fs, base)[i] == Sent(fs[i], base + i) {
        assert Numbered(fs, base)[i] == Numbered(fs[1..], base + 1)[i - 1];
      }
    }
  }

  lemma {:induction false} NumberedControl(fs: seq<Frame>, base: nat)
    requires forall i :: 0 <= i < |fs| ==> !fs[i].DataFrame?
    ensures Numbered(fs, base) == []
  {
    if fs != [] {
      NumberedControl(fs[1..], base);
    }
  }

  lemma {:induction false} AcksName(fs: seq<Frame>, count: nat, ack: Byte)
    requires forall i :: 0 <= i < |fs| && fs[i].AckFrame? ==> fs[i].ack == ack
    ensures forall i :: 0 <= i < |Acks(fs, count)| ==> Acks(fs, count)[i] == SentAck(ack, count)
  {
    if fs != [] {
      AcksName(fs[1..], count, ack);
    }
  }

  predicate Within(data: seq<Sent>, base: int, chunks: seq<seq<bv8>>) {
    forall i :: 0 <= i < |data| ==>
      base <= data[i].place < |chunks| && data[i].frame.DataFrame? &&
      data[i].frame.seqNo == data[i].place % 256 && data[i].frame.payload == chunks[data[i].place]
  }

  /** A burst holds the window's frames, numbered from its base. */
  lemma BurstWithin(m: Node, fs: seq<Frame>)
    requires WindowFine(m) && SeqCounts(m) && Emits(m.s, fs)
    ensures Within(Numbered(fs, Base(m)), Base(m), m.chunks)
  {
    if forall i :: 0 <= i < |fs| ==> IsControl(fs[i], m.s.rxExpected) {
      NumberedControl(fs, Base(m));
    } else {
      NumberedBurst(fs, Base(m));
      var data := Numbered(fs, Base(m));
      forall i | 0 <= i < |data|
        ensures data[i].place == Base(m) + i < |m.chunks| && data[i].frame.DataFrame?
        ensures data[i].frame.seqNo == data[i].place % 256 && data[i].frame.payload == m.chunks[data[i].place]
      {
        SlotAt(m, i);
        assert fs[i] == BuiltFrame(m.s, m.s.win.slots[i], i == |m.s.win.slots| - 1);
      }
    }
  }

  lemma SlotAt(m: Node, i: nat)
    requires WindowFine(m) && SeqCounts(m) && i < |m.s.win.slots|
    ensures Base(m) >= 0 && m.s.win.slots[i].seqNo == (Base(m) + i) % 256
    ensures m.s.win.slots[i].payload == m.chunks[Base(m) + i]
  {
    var age := |m.s.win.slots| - i;
    assert SlotOk(m.s.win.slots[i], age, m.s.txSeq, m.s.payloadMode, m.chunks);
    ByteBack(|m.chunks|, age);
  }

  // ------------------------------------------------------------------ each end keeps the invariant

  lemma NewDataOk(data: seq<Sent>, more: seq<Sent>, before: seq<seq<bv8>>, base: int, chunks: seq<seq<bv8>>,
      delivered: nat)
    requires DataOk(data, before, delivered) && before <= chunks && delivered <= |before|
    requires Within(more, base, chunks) && |chunks| <= base + BURST_MAX
    ensures DataOk(data + more, chunks, delivered)
  {
    var all := data + more;
    forall i | 0 <= i < |all| ensures SentOk(all[i], chunks, delivered) {
      if i < |data| {
        assert SentOk(data[i], before, delivered);
      } else {
        assert all[i] == more[i - |data|];
      }
    }
    forall i, j | 0 <= i < j < |all| ensures all[i].place < all[j].place + BURST_MAX {
      if j >= |data| {
        assert all[j] == more[j - |data|];
      }
    }
  }

  /** The sender's step: `ev` confirms only frames the receiver has delivered. */
  lemma TxKeeps(g: Path, m: Node, ev: Event)
    requires Inv(g) && Moves(g.tx, m, ev) && m.s.conn == Connected && Sound(m, true, true)
    requires Base(g.tx) + Acked(g.tx.s, ev) <= |g.rx.delivered|
    requires forall i :: 0 <= i < |g.acks| ==> Base(g.tx) + Acked(g.tx.s, ev) <= g.acks[i].count
    ensures Inv(TxTo(g, m))
  {
    assert m.queue[|g.tx.queue|..] == m.queue;
    BurstWithin(m, m.queue);
    NewDataOk(g.data, Numbered(m.queue, Base(m)), g.tx.chunks, Base(m), m.chunks, |g.rx.delivered|);
    SoundWithoutQueue(m);
  }

  lemma SoundWithoutQueue(m: Node)
    requires Sound(m, true, true)
    ensures Sound(m.(queue := []), true, true)
  {
  }

  /** The receiver's step: it delivers nothing, or exactly the next chunk. */
  lemma RxKeeps(g: Path, m: Node, ev: Event)
    requires Inv(g) && Moves(g.rx, m, ev) && m.s.conn == Connected && Sound(m, true, true)
    requires m.delivered <= g.tx.chunks
    requires DataOk(g.data, g.tx.chunks, |m.delivered|)
    ensures Inv(RxTo(g, m))
  {
    assert m.queue[|g.rx.queue|..] == m.queue;
    SoundWithoutQueue(m);
    RxCounts(g.rx, m, ev);
    NewAcksOk(g.acks, m, Base(g.tx), |g.rx.delivered|);
  }

  lemma RxCounts(n: Node, m: Node, ev: Event)
    requires Delivers(n, m, ev) && n.s.rxExpected == |n.delivered| % 256
    ensures m.s.rxExpected == |m.delivered| % 256 && |n.delivered| <= |m.delivered|
  {
    ByteBack(|n.delivered|, -1);
  }

  lemma NewAcksOk(acks: seq<SentAck>, m: Node, base: int, before: nat)
    requires AcksOk(acks, base, before) && base <= before <= |m.delivered|
    requires Emits(m.s, m.queue) && m.s.rxExpected == |m.delivered| % 256
    ensures AcksOk(acks + Acks(m.queue, |m.delivered|), base, |m.delivered|)
  {
    AcksName(m.queue, |m.delivered|, m.s.rxExpected);
  }

  /** The frame at the head of the channel is delivered only if it is the next one. */
  lemma HeadIsNext(g: Path, hasData: bool, snr: Snr, m: Node)
    requires Inv(g) && g.data != []
    requires Moves(g.rx, m, Heard(g.data[0].frame, hasData, snr))
    ensures m.delivered <= g.tx.chunks
    ensures DataOk(g.data[1..], g.tx.chunks, |m.delivered|)
  {
    var f := g.data[0];
    assert SentOk(f, g.tx.chunks, |g.rx.delivered|);
    if m.delivered != g.rx.delivered {
      SameNumberSameFrame(f.place, |g.rx.delivered|);
      var n := |g.rx.delivered|;
      assert g.tx.chunks[..n + 1] == g.tx.chunks[..n] + [g.tx.chunks[n]];
    }
    forall i | 0 <= i < |g.data[1..]| ensures SentOk(g.data[1..][i], g.tx.chunks, |m.delivered|) {
      assert SentOk(g.data[i + 1], g.tx.chunks, |g.rx.delivered|);
    }
  }

  // ------------------------------------------------------------------ every step

  lemma LosingKeeps(g: Path, act: Act)
    requires Inv(g) && Can(g, act)
    ensures Inv(Delayed(g, act))
  {
    match act
    case LoseData(i) =>
      var left := g.data[..i] + g.data[i + 1..];
      forall k | 0 <= k < |left| ensures SentOk(left[k], g.tx.chunks, |g.rx.delivered|) {
        assert SentOk(g.data[if k < i then k else k + 1], g.tx.chunks, |g.rx.delivered|);
      }
    case DataArrives(_, _) =>
      forall k | 0 <= k < |g.data[1..]| ensures SentOk(g.data[1..][k], g.tx.chunks, |g.rx.delivered|) {
        assert SentOk(g.data[k + 1], g.tx.chunks, |g.rx.delivered|);
      }
    case _ =>
  }

  /** A deadline that fires confirms and delivers nothing, like TX_STARTED. */
  lemma TickMoves(cfg: Config, n: Node, now: nat)
    requires Sound(n, true, true) && n.s.conn == Connected && now > 0 && FireDeadline(cfg, n, now).s.conn == Connected
    ensures Moves(n, FireDeadline(cfg, n, now), TxStarted) && Sound(FireDeadline(cfg, n, now), true, true)
  {
    TickIsSound(cfg, n, now, true, true);
    if n.s.deadline != Never && now >= n.s.deadline.ms {
      var c := n.(s := n.s.(deadline := Never));
      var ev := TimerFired(n.s.deadlineEvent);
      AnyDeadline(n, c, true, true);
      DispatchMoves(cfg, c, ev, now, true, true);
      SameMoves(n, c, FireDeadline(cfg, n, now), ev);
    } else {
      StillMoves(n, n, TxStarted);
    }
  }

  lemma SameMoves(n: Node, c: Node, m: Node, ev: Event)
    requires c == n.(s := n.s.(deadline := Never)) && ev.TimerFired? && Moves(c, m, ev)
    ensures Moves(n, m, TxStarted)
  {
  }

  lemma EventMoves(cfg: Config, n: Node, ev: Event, now: nat)
    requires Sound(n, true, true) && n.s.conn == Connected && now > 0 && !ev.TimerFired?
    requires Dispatch(cfg, n, ev, now).s.conn == Connected
    ensures Moves(n, Dispatch(cfg, n, ev, now), ev) && Sound(Dispatch(cfg, n, ev, now), true, true)
  {
    DispatchKeeps(cfg, n, ev, now, true, true);
    DispatchMoves(cfg, n, ev, now, true, true);
    SoundIsMonotone(Dispatch(cfg, n, ev, now), !ev.TxComplete?, !ev.AppDataReady?);
  }

  lemma SoundIsMonotone(n: Node, busy: bool, posted: bool)
    requires Sound(n, busy, posted)
    ensures Sound(n, true, true)
  {
  }

  /** The event a step brings to the sender; TX_STARTED stands for any that confirms nothing. */
  function TxEvent(g: Path, act: Act): Event
    requires Can(g, act)
  {
    match act
    case TxHears(ev) => ev
    case AckArrives(sid, hasData, snr) => RxAck(sid, g.acks[0].ack, hasData, snr)
    case _ => TxStarted
  }

  function RxEvent(g: Path, act: Act): Event
    requires Can(g, act)
  {
    match act
    case RxHears(ev) => ev
    case DataArrives(hasData, snr) => Heard(g.data[0].frame, hasData, snr)
    case _ => TxStarted
  }

  lemma TxStepMoves(cfg: Config, g: Path, act: Act, now: nat)
    requires Inv(g) && Can(g, act) && now > 0 && TxNode(cfg, g, act, now).s.conn == Connected && !act.TxWrites?
    ensures var m := TxNode(cfg, g, act, now); Moves(g.tx, m, TxEvent(g, act)) && Sound(m, true, true)
  {
    match act
    case TxHears(ev) => EventMoves(cfg, g.tx, ev, now);
    case TxTick => TickMoves(cfg, g.tx, now);
    case AckArrives(_, _, _) => EventMoves(cfg, g.tx, TxEvent(g, act), now);
    case _ => StillMoves(g.tx, g.tx, TxStarted);
  }

  lemma RxStepMoves(cfg: Config, g: Path, act: Act, now: nat)
    requires Inv(g) && Can(g, act) && now > 0 && RxNode(cfg, g, act, now).s.conn == Connected
    ensures var m := RxNode(cfg, g, act, now); Moves(g.rx, m, RxEvent(g, act)) && Sound(m, true, true)
  {
    match act
    case RxHears(ev) => EventMoves(cfg, g.rx, ev, now);
    case RxTick => TickMoves(cfg, g.rx, now);
    case DataArrives(_, _) => EventMoves(cfg, g.rx, RxEvent(g, act), now);
    case _ => StillMoves(g.rx, g.rx, TxStarted);
  }

  /** What a step confirms, the receiver had delivered. */
  lemma ConfirmsDelivered(g: Path, act: Act)
    requires Inv(g) && Can(g, act)
    ensures var k := Acked(g.tx.s, TxEvent(g, act));
      && Base(g.tx) + k <= |g.rx.delivered|
      && forall i :: 0 <= i < |Delayed(g, act).acks| ==> Base(g.tx) + k <= Delayed(g, act).acks[i].count
  {
    if act.AckArrives? {
      AckCountsExactly(g.tx, g.acks[0].count);
    } else {
      LosingKeeps(g, act);
    }
  }

  lemma TxHalf(cfg: Config, g: Path, act: Act, now: nat)
    requires Inv(g) && Can(g, act) && now > 0 && TxNode(cfg, g, act, now).s.conn == Connected
    ensures Base(TxNode(cfg, g, act, now)) >= 0
    ensures Inv(TxTo(Delayed(g, act), TxNode(cfg, g, act, now)))
    ensures Base(TxNode(cfg, g, act, now)) <= |g.rx.delivered|
  {
    LosingKeeps(g, act);
    match act
    case TxWrites(data) => WritingKeeps(Delayed(g, act), data);
    case _ => TxMovesKeep(cfg, g, act, now, Delayed(g, act), TxNode(cfg, g, act, now));
  }

  lemma TxMovesKeep(cfg: Config, g: Path, act: Act, now: nat, d: Path, m: Node)
    requires Inv(g) && Can(g, act) && now > 0 && m == TxNode(cfg, g, act, now) && m.s.conn == Connected
    requires !act.TxWrites? && d == Delayed(g, act) && Inv(d)
    ensures Base(m) >= 0 && Inv(TxTo(d, m)) && Base(m) <= |g.rx.delivered|
  {
    TxStepMoves(cfg, g, act, now);
    ConfirmsDelivered(g, act);
    TxKeeps(d, m, TxEvent(g, act));
  }

  lemma WritingKeeps(g: Path, data: seq<bv8>)
    requires Inv(g)
    ensures Inv(TxTo(g, g.tx.(ring := g.tx.ring + data)))
  {
    var m := g.tx.(ring := g.tx.ring + data);
    assert WindowFine(m);
    assert Numbered(m.queue, Base(m)) == [];
    assert g.data + [] == g.data;
  }

  lemma RxHalf(cfg: Config, g: Path, act: Act, now: nat, h: Path)
    requires Inv(g) && Can(g, act) && now > 0 && RxNode(cfg, g, act, now).s.conn == Connected
    requires Inv(h) && h.rx == g.rx && g.tx.chunks <= h.tx.chunks
    requires act.DataArrives? ==> h == Delayed(g, act)
    ensures Inv(RxTo(h, RxNode(cfg, g, act, now)))
  {
    var m := RxNode(cfg, g, act, now);
    RxStepMoves(cfg, g, act, now);
    match act
    case DataArrives(hasData, snr) =>
      HeadIsNext(g, hasData, snr, m);
      RxKeeps(h, m, RxEvent(g, act));
    case _ => RxKeeps(h, m, RxEvent(g, act));
  }

  /** One step keeps the invariant; every frame that leaves the window had been delivered. */
  lemma StepKeeps(cfg: Config, g: Path, act: Act, now: nat, g': Path)
    requires Inv(g) && now > 0 && StepBy(cfg, g, act, now, g')
    ensures Inv(g') && Base(g'.tx) <= |g.rx.delivered|
  {
    TxHalf(cfg, g, act, now);
    var h := TxTo(Delayed(g, act), TxNode(cfg, g, act, now));
    TxGrows(cfg, g, act, now);
    if act.DataArrives? {
      assert g.tx.(queue := []) == g.tx;
      assert Numbered([], Base(g.tx)) == [];
      assert Delayed(g, act).data + [] == Delayed(g, act).data;
    }
    RxHalf(cfg, g, act, now, h);
  }

  lemma TxGrows(cfg: Config, g: Path, act: Act, now: nat)
    requires Inv(g) && Can(g, act) && now > 0 && TxNode(cfg, g, act, now).s.conn == Connected
    ensures g.tx.chunks <= TxNode(cfg, g, act, now).chunks
  {
    if !act.TxWrites? {
      TxStepMoves(cfg, g, act, now);
    }
  }

  // ------------------------------------------------------------------ every run

  /** Both ends have just connected: nothing read, delivered, or on its way. */
  predicate JustConnected(g: Path) {
    && BothConnected(g.tx, g.rx) && Sound(g.tx, true, true) && Sound(g.rx, true, true)
    && g.tx.s.txSeq == 0 && g.rx.s.rxExpected == 0 && g.tx.s.win.slots == []
    && g.tx.chunks == [] && g.rx.delivered == [] && g.tx.queue == [] && g.rx.queue == []
    && g.data == [] && g.acks == []
  }

  ghost predicate IsPathRun(cfg: Config, run: seq<Path>) {
    && run != [] && JustConnected(run[0])
    && forall i :: 0 <= i < |run| - 1 ==> PathStep(cfg, run[i], run[i + 1])
  }

  /** Go-back-N is correct: whatever the burst size, the losses and the delays, what has been
      delivered is a prefix of what has been read, and all that the sender has let go of has
      been delivered, once and in order. */
  lemma {:induction false} EveryRunIsInOrder(cfg: Config, run: seq<Path>, i: nat)
    requires IsPathRun(cfg, run) && i < |run|
    ensures Inv(run[i])
    ensures run[i].rx.delivered <= run[i].tx.chunks
    ensures Base(run[i].tx) >= 0 && run[i].tx.chunks[..Base(run[i].tx)] <= run[i].rx.delivered
  {
    if i > 0 {
      EveryRunIsInOrder(cfg, run, i - 1);
      assert PathStep(cfg, run[i - 1], run[i - 1 + 1]);
      var act, now: nat :| now > 0 && StepBy(cfg, run[i - 1], act, now, run[i]);
      StepKeeps(cfg, run[i - 1], act, now, run[i]);
    }
  }
}
