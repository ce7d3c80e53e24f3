/** How long a station keeps trying when nobody answers: exactly as often as configured when a
    call is set up or ended, and as long as there was progress lately when data is sent. */
module Patience {
  import opened Common
  import opened ArqTypes
  import opened Fsm
  import opened Exchanges
  import opened StationInvariants

  // ------------------------------------------------------------------ CALL, ACCEPT and DISCONNECT

  predicate Repeats(s: Session) { s.conn.Calling? || s.conn.Accepting? || s.conn.Disconnecting? }

  /** What the peer hears again and again. */
  function Repeated(s: Session): Event
    requires Repeats(s)
  {
    if s.conn.Calling? then RxCall(s.sid) else if s.conn.Accepting? then RxAccept(s.sid) else RxDisconnect(s.sid)
  }

  /** Time between two of them: an ACCEPT waits nine seconds once it is out, a DISCONNECT eight. */
  function Gap(cfg: Config, conn: Conn): nat {
    if conn.Calling? then cfg.callIntervalMs else if conn.Accepting? then 9000 else 8000
  }

  /** The deadline expires, and what it queued, if anything, is out within the same tick. */
  function Tick(cfg: Config, n: Node, now: nat): Node {
    Dispatch(cfg, FireDeadline(cfg, n, now), TxComplete, now)
  }

  function Ticks(cfg: Config, n: Node, times: seq<nat>): Node
    decreases |times|
  {
    if times == [] then n else Ticks(cfg, Tick(cfg, n, times[0]), times[1..])
  }

  /** Each time is that of the deadline or later, and the next one a gap later still. */
  predicate Spaced(cfg: Config, s: Session, times: seq<nat>) {
    && s.deadline.At? && s.deadlineEvent.Retry?
    && (times != [] ==> s.deadline.ms <= times[0])
    && forall i :: 0 < i < |times| ==> times[i - 1] + Gap(cfg, s.conn) <= times[i]
  }

  /** Frames of the queue past its first `k`, as the peer hears them. */
  predicate HeardAs(queue: seq<Frame>, k: nat, ev: Event, snr: Snr) {
    forall i :: k <= i < |queue| ==> EventOf(queue[i], snr) == ev
  }

  lemma RestSpaced(cfg: Config, s: Session, t: Session, times: seq<nat>)
    requires Spaced(cfg, s, times) && times != [] && t.conn == s.conn
    requires t.deadline == At(times[0] + Gap(cfg, s.conn)) && t.deadlineEvent == Retry
    ensures Spaced(cfg, t, times[1..])
  {
    var rest := times[1..];
    forall i | 0 < i < |rest| ensures rest[i - 1] + Gap(cfg, t.conn) <= rest[i] {
      assert times[i] + Gap(cfg, s.conn) <= times[i + 1];
    }
  }

  /** In the same state, `count` frames and retries later. */
  predicate Spent(n: Node, m: Node, count: nat, snr: Snr)
    requires Repeats(n.s)
  {
    && m.s.conn == n.s.conn && m.s.sid == n.s.sid && m.s.retries == n.s.retries - count && m.ring == n.ring
    && |m.queue| == |n.queue| + count && n.queue <= m.queue && HeardAs(m.queue, |n.queue|, Repeated(n.s), snr)
  }

  lemma SpentChain(n: Node, t: Node, m: Node, count: nat, snr: Snr)
    requires Repeats(n.s) && Spent(n, t, 1, snr) && Spent(t, m, count, snr)
    ensures Spent(n, m, count + 1, snr)
  {
    assert m.queue[|n.queue|] == t.queue[|n.queue|];
  }

  lemma FiresAgain(cfg: Config, n: Node, now: nat, snr: Snr)
    requires Repeats(n.s) && n.s.retries > 0 && n.s.deadline.At? && n.s.deadlineEvent.Retry? && n.s.deadline.ms <= now
    ensures var m := FireDeadline(cfg, n, now);
      && m == n.(queue := m.queue, s := n.s.(retries := n.s.retries - 1, deadline := m.s.deadline))
      && Armed(m, Retry, now + if n.s.conn.Disconnecting? then 8000 else cfg.callIntervalMs)
      && Queues(n, m, Repeated(n.s), snr)
  {
  }

  lemma OneFrame(n: Node, m: Node, snr: Snr)
    requires Repeats(n.s) && n.s.retries > 0 && Queues(n, m, Repeated(n.s), snr) && m.s.retries == n.s.retries - 1
    requires m.s.conn == n.s.conn && m.s.sid == n.s.sid && m.ring == n.ring
    ensures Spent(n, m, 1, snr)
  {
  }

  lemma FrameOut(cfg: Config, n: Node, now: nat)
    requires Repeats(n.s)
    ensures Dispatch(cfg, n, TxComplete, now) ==
      if n.s.conn.Accepting? then n.(s := n.s.(deadline := At(now + 9000))) else n
  {
  }

  lemma OneMore(cfg: Config, n: Node, now: nat, snr: Snr)
    requires Repeats(n.s) && n.s.retries > 0 && n.s.deadline.At? && n.s.deadlineEvent.Retry? && n.s.deadline.ms <= now
    ensures var m := Tick(cfg, n, now);
      Spent(n, m, 1, snr) && Armed(m, Retry, now + Gap(cfg, n.s.conn))
  {
    FiresAgain(cfg, n, now, snr);
    var f := FireDeadline(cfg, n, now);
    FrameOut(cfg, f, now);
    OneFrame(n, Tick(cfg, n, now), snr);
  }

  /** With nobody answering, each retry left is used for one more frame. */
  lemma {:induction false} EveryRetryIsUsed(cfg: Config, n: Node, times: seq<nat>, snr: Snr)
    requires Repeats(n.s) && |times| <= n.s.retries && Spaced(cfg, n.s, times)
    ensures var m := Ticks(cfg, n, times);
      && Spent(n, m, |times|, snr)
      && Armed(m, Retry, if times == [] then n.s.deadline.ms else times[|times| - 1] + Gap(cfg, n.s.conn))
    decreases |times|
  {
    if times != [] {
      OneMore(cfg, n, times[0], snr);
      var t := Tick(cfg, n, times[0]);
      RestSpaced(cfg, n.s, t.s, times);
      EveryRetryIsUsed(cfg, t, times[1..], snr);
      SpentChain(n, t, Ticks(cfg, t, times[1..]), |times| - 1, snr);
    }
  }

  /** When none is left, a caller or a station that hangs up is through, and its application is
      told; a station that was called listens again. */
  lemma ThenItEnds(cfg: Config, n: Node, now: nat)
    requires Repeats(n.s) && n.s.retries == 0 && n.s.deadline.At? && n.s.deadlineEvent.Retry? && n.s.deadline.ms <= now
    ensures var m := FireDeadline(cfg, n, now);
      && m.queue == n.queue
      && if n.s.conn.Accepting? then m.s.conn == Listening && m.ring == n.ring && m.s.deadline == Never
         else CallIsOver(n, m)
  {
  }

  /** A caller that is not answered transmits its CALL once and then once for each retry,
      and only then gives up. */
  lemma CallerGivesUp(cfg: Config, a: Node, start: nat, times: seq<nat>, last: nat, snr: Snr)
    requires a.s.conn == Disconnected || a.s.conn == Listening
    requires |times| == cfg.callRetries
    requires forall i :: 0 < i < |times| ==> times[i - 1] + cfg.callIntervalMs <= times[i]
    requires |times| > 0 ==> start + cfg.callIntervalMs <= times[0]
    requires last >= cfg.callIntervalMs + if times == [] then start else times[|times| - 1]
    ensures var c := Dispatch(cfg, a, AppConnect, start);
      var m := Ticks(cfg, c, times);
      && m.s.conn == Calling && |m.queue| == |a.queue| + 1 + cfg.callRetries
      && HeardAs(m.queue, |a.queue|, RxCall(c.s.sid), snr)
      && var e := FireDeadline(cfg, m, last);
      e.queue == m.queue && (e.s.conn == Listening || e.s.conn == Disconnected)
  {
    var c := Dispatch(cfg, a, AppConnect, start);
    CallGoesOut(cfg, a, start, snr);
    assert Spaced(cfg, c.s, times);
    EveryRetryIsUsed(cfg, c, times, snr);
    AllAreCalls(a.queue, c, Ticks(cfg, c, times), |times|, snr);
    ThenItEnds(cfg, Ticks(cfg, c, times), last);
  }

  lemma AllAreCalls(before: seq<Frame>, c: Node, m: Node, count: nat, snr: Snr)
    requires c.s.conn == Calling && Spent(c, m, count, snr) && |c.queue| == |before| + 1
    requires EventOf(c.queue[|before|], snr) == RxCall(c.s.sid)
    ensures HeardAs(m.queue, |before|, RxCall(c.s.sid), snr)
  {
    assert m.queue[|before|] == c.queue[|before|];
  }

  /** A CALL heard again renews the retries of the station that accepts. */
  lemma CallRepeated(cfg: Config, b: Node, sid: Byte, now: nat)
    requires b.s.conn == Accepting
    ensures Dispatch(cfg, b, RxCall(sid), now) == b.(s := b.s.(retries := cfg.acceptRetries, lastRx := now))
  {
  }

  // ------------------------------------------------------------------ data

  lemma TimesOut(cfg: Config, a: Node, now: nat)
    requires Due(a, WaitAck, AckTimer, now)
    ensures FireDeadline(cfg, a, now) == OnAckTimeout(cfg, Cleared(a), now)
  {
    var c := Cleared(a);
    assert OnDflow(cfg, c, TimerFired(AckTimer), now) == OnWaitAck(cfg, c, TimerFired(AckTimer), now);
  }

  /** The whole window goes out once more, and whatever fresh frames fit behind it. */
  predicate SendsAgain(a: Node, m: Node, left: nat) {
    && m.s.conn == Connected && m.s.dflow.DataTx? && m.s.deadline == Never && m.s.retries == left
    && a.s.win.slots <= m.s.win.slots && m.queue == a.queue + BurstFrames(m.s)
  }

  lemma BurstAgain(cfg: Config, a: Node, c: Node, now: nat)
    requires WindowFine(c) && c.s.win.slots == a.s.win.slots != [] && c.queue == a.queue && c.s.conn == Connected
    ensures var m := SendDataBurst(cfg, DflowEnter(c, DataTx, Never, Retry), now);
      SendsAgain(a, m, c.s.retries) && m.s.win.retx == c.s.win.retx && m.s.link == c.s.link
  {
    BurstRefills(cfg, DflowEnter(c, DataTx, Never, Retry), now);
  }

  /** While retries are left an unanswered window goes out again. With a disconnect pending at most
      one retry is left. */
  lemma UnansweredBurstRepeats(cfg: Config, a: Node, now: nat)
    requires Due(a, WaitAck, AckTimer, now) && WindowFine(a) && a.s.win.slots != [] && a.s.retries > 0
    ensures var m := FireDeadline(cfg, a, now);
      SendsAgain(a, m, if a.s.teardown.disconnect then 0 else a.s.retries - 1) && m.s.win.retx
  {
    TimesOut(cfg, a, now);
    TimeoutRepeats(cfg, a, Cleared(a), now);
  }

  lemma TimeoutRepeats(cfg: Config, a: Node, c: Node, now: nat)
    requires WindowFine(a) && a.s.win.slots != [] && a.s.retries > 0 && a.s.conn == Connected && c == Cleared(a)
    ensures var m := OnAckTimeout(cfg, c, now);
      SendsAgain(a, m, if a.s.teardown.disconnect then 0 else a.s.retries - 1) && m.s.win.retx
  {
    var left := if a.s.teardown.disconnect then 0 else a.s.retries - 1;
    var r := c.(s := c.s.(retries := left, win := c.s.win.(retx := true)));
    assert OnAckTimeout(cfg, c, now) == SendDataBurst(cfg, DflowEnter(r, DataTx, Never, Retry), now);
    BurstAgain(cfg, a, r, now);
  }

  /** The retries used up, the call is given up if the peer has confirmed nothing for the configured
      time or a disconnect is pending. */
  lemma ExhaustedRoundEnds(cfg: Config, a: Node, now: nat, snr: Snr)
    requires Due(a, WaitAck, AckTimer, now) && a.s.retries == 0
    requires now - a.s.lastProgress >= cfg.noProgressMs || a.s.teardown.disconnect
    ensures var m := FireDeadline(cfg, a, now);
      && m.s.conn == Disconnecting && Queues(a, m, RxDisconnect(a.s.sid), snr) && Armed(m, Retry, now + 8000)
      && m.s.retries == cfg.disconnectRetries && !m.s.teardown.disconnect
  {
    TimesOut(cfg, a, now);
  }

  /** Otherwise the window stays, goes out again, and the retries are renewed. */
  lemma ExhaustedRoundPersists(cfg: Config, a: Node, now: nat)
    requires Due(a, WaitAck, AckTimer, now) && WindowFine(a) && a.s.win.slots != [] && a.s.retries == 0
    requires now - a.s.lastProgress < cfg.noProgressMs && !a.s.teardown.disconnect
    ensures var m := FireDeadline(cfg, a, now);
      && SendsAgain(a, m, cfg.dataRetries)
      && m.s.link == a.s.link.(badRun := if a.s.link.badRun < 2 then 2 else a.s.link.badRun)
  {
    TimesOut(cfg, a, now);
    TimeoutPersists(cfg, a, Cleared(a), now);
  }

  lemma TimeoutPersists(cfg: Config, a: Node, c: Node, now: nat)
    requires WindowFine(a) && a.s.win.slots != [] && a.s.retries == 0 && a.s.conn == Connected && c == Cleared(a)
    requires now - a.s.lastProgress < cfg.noProgressMs && !a.s.teardown.disconnect
    ensures var m := OnAckTimeout(cfg, c, now);
      && SendsAgain(a, m, cfg.dataRetries)
      && m.s.link == a.s.link.(badRun := if a.s.link.badRun < 2 then 2 else a.s.link.badRun)
  {
    var r := c.(s := c.s.(retries := cfg.dataRetries, link := PushDown(c.s.link)));
    assert MaybeUpgrade(cfg, r, now) == (r, false);
    BurstAgain(cfg, a, r, now);
  }
}
