/** What the original's choice of payload modes promises: it fits the bandwidth, it is stable,
    and it does not swing back after an upgrade. */
module ModeSelection {
  import opened Common
  import opened ArqTypes
  import opened Fsm

  /** A payload mode: user bytes in a frame, the SNR it needs, the backlog it is worth. */
  datatype Speed = Speed(mode: int, userBytes: nat, floor: real, least: nat)

  /** The payload modes, slowest first; the first three are narrow. */
  const SPEEDS: seq<Speed> := [
    Speed(DATAC15, 22, -100.0, 0), Speed(DATAC4, 46, -6.0, 31), Speed(DATAC3, 118, -1.0, 56),
    Speed(DATAC1, 502, 3.0, 126), Speed(DATAC17, 1172, 7.0, 503), Speed(QAM16C2, 1205, 13.0, 1173),
    Speed(QAM16FM, 248, 14.5, 200)]

  function Allowed(narrow: bool): nat { if narrow then 3 else 7 }

  /** The SNR reaches the floor of a mode, and for a mode faster than the present one 5 dB more. */
  predicate Carried(speed: Speed, faster: bool, snr: real, backlog: nat) {
    snr >= speed.floor + (if faster then 5.0 else 0.0) && backlog >= speed.least
  }

  /** After eight failures in a row the floor; with a backlog for one frame no change; else the
      fastest mode that fits the bandwidth and is carried, or the slowest if none is. */
  lemma ChoiceIsFastest(narrow: bool, link: Link, at: nat, backlog: nat) returns (i: nat)
    requires at < 7
    ensures i < Allowed(narrow) && SelectBestMode(narrow, link, SPEEDS[at].mode, backlog) == SPEEDS[i].mode
    ensures var now, snr := if narrow && at > 2 then 2 else at, link.peerSnrX10 as real / 10.0 + link.olla;
      if link.badRun >= 8 && now > 0 then i == 0
      else if backlog <= SPEEDS[now].userBytes then i == now
      else
        && (i > 0 ==> Carried(SPEEDS[i], i > now, snr, backlog))
        && forall j :: i < j < Allowed(narrow) ==> !Carried(SPEEDS[j], j > now, snr, backlog)
  {
    var mode := SelectBestMode(narrow, link, SPEEDS[at].mode, backlog);
    i := PlaceOf(mode);
    SameMode(narrow, at);
    ChoiceOf(narrow, link, if narrow && at > 2 then 2 else at, at, backlog, i);
  }

  lemma SameMode(narrow: bool, at: nat)
    requires at < 7
    ensures ClampToBandwidth(narrow, SPEEDS[at].mode) == SPEEDS[if narrow && at > 2 then 2 else at].mode
    ensures ModeRank(SPEEDS[at].mode) == at && UserBytes(SPEEDS[at].mode) == SPEEDS[at].userBytes
    ensures Timing(SPEEDS[at].mode).Some?
  {
  }

  function PlaceOf(mode: int): (i: nat)
    ensures i < 7
  {
    if mode == DATAC4 then 1 else if mode == DATAC3 then 2 else if mode == DATAC1 then 3
    else if mode == DATAC17 then 4 else if mode == QAM16C2 then 5 else if mode == QAM16FM then 6 else 0
  }

  lemma ChoiceOf(narrow: bool, link: Link, now: nat, at: nat, backlog: nat, i: nat)
    requires now < 7 && at < 7 && now < Allowed(narrow) && now == if narrow && at > 2 then 2 else at
    requires i == PlaceOf(SelectBestMode(narrow, link, SPEEDS[at].mode, backlog))
    ensures i < Allowed(narrow) && SelectBestMode(narrow, link, SPEEDS[at].mode, backlog) == SPEEDS[i].mode
    ensures var snr := link.peerSnrX10 as real / 10.0 + link.olla;
      if link.badRun >= 8 && now > 0 then i == 0
      else if backlog <= SPEEDS[now].userBytes then i == now
      else
        && (i > 0 ==> Carried(SPEEDS[i], i > now, snr, backlog))
        && forall j :: i < j < Allowed(narrow) ==> !Carried(SPEEDS[j], j > now, snr, backlog)
  {
    SameMode(narrow, at);
    SameMode(narrow, now);
    if !(link.badRun >= 8 && now > 0) && backlog > SPEEDS[now].userBytes {
      var snr := link.peerSnrX10 as real / 10.0 + link.olla;
      forall j | 1 <= j < Allowed(narrow)
        ensures Supports(SPEEDS[j].mode, now, snr, backlog) == Carried(SPEEDS[j], j > now, snr, backlog)
      {
        SupportIs(j, now, snr, backlog);
      }
      assert Supports(SPEEDS[1].mode, now, snr, backlog) == Carried(SPEEDS[1], 1 > now, snr, backlog);
      assert Supports(SPEEDS[2].mode, now, snr, backlog) == Carried(SPEEDS[2], 2 > now, snr, backlog);
      if !narrow {
        assert Supports(SPEEDS[3].mode, now, snr, backlog) == Carried(SPEEDS[3], 3 > now, snr, backlog);
        assert Supports(SPEEDS[4].mode, now, snr, backlog) == Carried(SPEEDS[4], 4 > now, snr, backlog);
        assert Supports(SPEEDS[5].mode, now, snr, backlog) == Carried(SPEEDS[5], 5 > now, snr, backlog);
        assert Supports(SPEEDS[6].mode, now, snr, backlog) == Carried(SPEEDS[6], 6 > now, snr, backlog);
      }
    }
  }

  lemma SupportIs(j: nat, now: nat, snr: real, backlog: nat)
    requires j < 7 && now < 7
    ensures Supports(SPEEDS[j].mode, now, snr, backlog) == Carried(SPEEDS[j], j > now, snr, backlog)
  {
  }

  /** When a change of mode is asked for: the choice differs, and a faster one waits for the end of
      the hold. Leaving a lost link for a slower mode starts a hold of six seconds. */
  lemma ChangeIsAskedFor(narrow: bool, link: Link, at: nat, backlog: nat, now: nat)
    requires at < 7 && link.upgradeCount >= 0
    ensures var best, choice := SelectBestMode(narrow, link, SPEEDS[at].mode, backlog),
                                ChooseMode(narrow, link, SPEEDS[at].mode, backlog, now);
      && (choice.Switch? <==> best != SPEEDS[at].mode && (PlaceOf(best) > at ==> now >= link.holdUntil))
      && (choice.Switch? ==> choice.mode == best)
      && var lost := choice.Switch? && PlaceOf(best) < at && link.badRun >= 8;
      && choice.link.holdUntil == (if lost then now + 6000 else link.holdUntil)
      && choice.link.badRun == (if lost then 0 else link.badRun)
      && choice.link.olla == link.olla && choice.link.peerSnrX10 == link.peerSnrX10
  {
    SameMode(narrow, at);
    ChoiceFits(narrow, link, SPEEDS[at].mode, backlog);
    var best := SelectBestMode(narrow, link, SPEEDS[at].mode, backlog);
    assert ModeRank(best) == PlaceOf(best);
  }

  /** A narrow session is never sent to a wideband mode, and every choice is a payload mode. */
  lemma ChoiceFits(narrow: bool, link: Link, mode: int, backlog: nat)
    requires PayloadMode(mode)
    ensures var choice := SelectBestMode(narrow, link, mode, backlog);
      BandwidthAllows(narrow, choice) && PayloadMode(choice)
  {
  }

  /** Short of a lost link, the mode chosen is chosen again: no back and forth on one reading. */
  lemma ChoiceIsStable(narrow: bool, link: Link, mode: int, backlog: nat)
    requires PayloadMode(mode) && link.badRun < HARD_LOSS_THRESHOLD
    ensures var choice := SelectBestMode(narrow, link, mode, backlog);
      SelectBestMode(narrow, link, choice, backlog) == choice
  {
  }

  /** The SNR that mode selection goes by. */
  function EffectiveSnr(link: Link): real { PeerSnr(link) + link.olla }

  /** After an upgrade, a loss of no more than the hysteresis does not bring the mode down. */
  lemma UpgradeHolds(narrow: bool, link: Link, later: Link, mode: int, backlog: nat, laterBacklog: nat)
    requires PayloadMode(mode) && link.badRun < HARD_LOSS_THRESHOLD && later.badRun < HARD_LOSS_THRESHOLD
    requires EffectiveSnr(later) >= EffectiveSnr(link) - SNR_HYST && laterBacklog >= backlog
    requires ModeRank(SelectBestMode(narrow, link, mode, backlog)) > ModeRank(ClampToBandwidth(narrow, mode))
    ensures var choice := SelectBestMode(narrow, link, mode, backlog);
      ModeRank(SelectBestMode(narrow, later, choice, laterBacklog)) >= ModeRank(choice)
  {
  }

  /** The bounds the link record keeps. */
  predicate LinkOk(link: Link) { -20.0 <= link.olla <= 3.0 && link.speedLevel < LADDER_LEVELS }

  /** The record of any series of outcomes, oldest first. */
  function Recorded(link: Link, mode: int, outcomes: seq<bool>): Link {
    if outcomes == [] then link
    else RecordOutcome(Recorded(link, mode, outcomes[..|outcomes| - 1]), mode, outcomes[|outcomes| - 1])
  }

  /** The forward link carries the mode with 2 dB to spare: a loss then is a lost ACK. */
  predicate LostAck(link: Link, at: nat)
    requires at < 7
  {
    link.peerSnrValid && link.peerSnrX10 as real / 10.0 >= SPEEDS[at].floor + 2.0
  }

  /** How far a series of outcomes moves the correction: three losses weigh as much as seven clean
      deliveries. */
  function Drift(outcomes: seq<bool>): real {
    if outcomes == [] then 0.0
    else Drift(outcomes[..|outcomes| - 1]) + if outcomes[|outcomes| - 1] then 3.0 / 7.0 else -1.0
  }

  /** The failures at the end of a series. */
  function Failures(outcomes: seq<bool>): nat {
    if outcomes == [] || outcomes[|outcomes| - 1] then 0 else Failures(outcomes[..|outcomes| - 1]) + 1
  }

  /** Neither bound of the correction is reached on the way. */
  ghost predicate Unclamped(olla: real, outcomes: seq<bool>) {
    forall k :: 0 <= k <= |outcomes| ==> -20.0 <= olla + Drift(outcomes[..k]) <= 3.0
  }

  /** The correction is the sum of all outcomes, as long as it keeps within its bounds, and the
      run of failures is that at the end. */
  lemma {:induction false} RecordAddsUp(link: Link, at: nat, outcomes: seq<bool>)
    requires at < 7 && Unclamped(link.olla, outcomes) && !LostAck(link, at)
    ensures var l := Recorded(link, SPEEDS[at].mode, outcomes);
      && l.olla == link.olla + Drift(outcomes) && l.peerSnrX10 == link.peerSnrX10 && l.peerSnrValid == link.peerSnrValid
      && l.badRun == if Failures(outcomes) == |outcomes| then link.badRun + |outcomes| else Failures(outcomes)
    decreases |outcomes|
  {
    assert outcomes[..|outcomes|] == outcomes;
    if outcomes != [] {
      var front := outcomes[..|outcomes| - 1];
      forall k | 0 <= k <= |front| ensures -20.0 <= link.olla + Drift(front[..k]) <= 3.0 {
        assert front[..k] == outcomes[..k];
      }
      RecordAddsUp(link, at, front);
      FailuresFit(front);
      OneOutcome(Recorded(link, SPEEDS[at].mode, front), at, outcomes[|outcomes| - 1]);
    }
  }

  lemma {:induction false} FailuresFit(outcomes: seq<bool>)
    ensures Failures(outcomes) <= |outcomes|
  {
    if outcomes != [] && !outcomes[|outcomes| - 1] {
      FailuresFit(outcomes[..|outcomes| - 1]);
    }
  }

  /** One outcome: a clean one counts towards the next level, any loss but of an ACK against it. */
  lemma OneOutcome(link: Link, at: nat, clean: bool)
    requires at < 7
    ensures var l, o := RecordOutcome(link, SPEEDS[at].mode, clean), link.olla + if clean then 3.0 / 7.0 else -1.0;
      if !clean && LostAck(link, at) then l == link
      else
        && l.olla == (if o < -20.0 then -20.0 else if o > 3.0 then 3.0 else o)
        && l.badRun == (if clean then 0 else link.badRun + 1)
        && l.peerSnrX10 == link.peerSnrX10 && l.peerSnrValid == link.peerSnrValid && l.holdUntil == link.holdUntil
        && var up := clean && link.successes >= 1 && link.speedLevel < 6;
        && l.speedLevel == (if up then link.speedLevel + 1
                            else if clean || link.speedLevel == 0 then link.speedLevel else link.speedLevel - 1)
        && l.successes == (if clean && !up then link.successes + 1 else 0)
  {
    assert SnrFloor(SPEEDS[at].mode) == SPEEDS[at].floor;
  }

  /** Whatever the outcomes, the correction and the ladder stay within their bounds, and losses
      on the way back, with a forward link that carries the mode, change nothing. */
  lemma {:induction false} RecordStaysBounded(link: Link, mode: int, outcomes: seq<bool>)
    requires LinkOk(link)
    ensures LinkOk(Recorded(link, mode, outcomes))
    ensures ForwardLinkFine(link, mode) && (forall i :: 0 <= i < |outcomes| ==> !outcomes[i]) ==>
      Recorded(link, mode, outcomes) == link
  {
    if outcomes != [] {
      RecordStaysBounded(link, mode, outcomes[..|outcomes| - 1]);
    }
  }

  /** A run of failures of a forward link that does not carry the mode leads to the floor. */
  lemma {:induction false} FailuresReachFloor(narrow: bool, link: Link, mode: int, outcomes: seq<bool>, backlog: nat)
    requires LinkOk(link) && !ForwardLinkFine(link, mode) && forall i :: 0 <= i < |outcomes| ==> !outcomes[i]
    requires |outcomes| >= HARD_LOSS_THRESHOLD && ModeRank(ClampToBandwidth(narrow, mode)) > 0
    ensures SelectBestMode(narrow, Recorded(link, mode, outcomes), mode, backlog) == DATAC15
  {
    FailuresCount(link, mode, outcomes);
  }

  lemma {:induction false} FailuresCount(link: Link, mode: int, outcomes: seq<bool>)
    requires !ForwardLinkFine(link, mode) && forall i :: 0 <= i < |outcomes| ==> !outcomes[i]
    ensures var l := Recorded(link, mode, outcomes);
      l.badRun == link.badRun + |outcomes| && l.peerSnrX10 == link.peerSnrX10 && l.peerSnrValid == link.peerSnrValid
  {
    if outcomes != [] {
      FailuresCount(link, mode, outcomes[..|outcomes| - 1]);
    }
  }
}
