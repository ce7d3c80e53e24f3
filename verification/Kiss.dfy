/** KISS framing (datalink_broadcast/kiss.c): the byte-fed parser and the frame writer. */
module Kiss {

  const FEND: bv8 := 0xC0
  const FESC: bv8 := 0xDB
  const TFEND: bv8 := 0xDC
  const TFESC: bv8 := 0xDD

  const CMD_AX25: bv8 := 0x00
  const CMD_AX25CALLSIGN: bv8 := 0x01
  const CMD_DATA: bv8 := 0x02
  const CMD_UNKNOWN: bv8 := 0xFE
  const MAX_PAYLOAD: nat := 756

  predicate CarriesData(cmd: bv8) { cmd == CMD_DATA || cmd == CMD_AX25 || cmd == CMD_AX25CALLSIGN }

  datatype Framed = Framed(cmd: bv8, payload: seq<bv8>)

  predicate Sendable(f: Framed) { CarriesData(f.cmd) && 1 <= |f.payload| <= MAX_PAYLOAD }

  // ------------------------------------------------------------------ the parser

  /** The parser's globals; `frame` is what the caller's buffer holds so far. */
  datatype Parser = Parser(frame: seq<bv8>, inFrame: bool, escape: bool, command: bv8)

  const RESET := Parser([], false, false, CMD_UNKNOWN)

  /** A byte of the frame's data, unescaped. */
  function TakeByte(p: Parser, b: bv8): Parser {
    var c := if p.escape && b == TFEND then FEND else if p.escape && b == TFESC then FESC else b;
    p.(frame := p.frame + [c], escape := false)
  }

  predicate EndsFrame(p: Parser, b: bv8) { p.inFrame && b == FEND && CarriesData(p.command) }

  function Feed(p: Parser, b: bv8): Parser {
    if EndsFrame(p, b) then p.(inFrame := false)
    else if b == FEND then p.(inFrame := true, command := CMD_UNKNOWN, frame := [])
    else if !p.inFrame || |p.frame| >= MAX_PAYLOAD then p
    else if p.frame == [] && p.command == CMD_UNKNOWN then p.(command := b & 0x0F)
    else if !CarriesData(p.command) then p
    else if b == FESC then p.(escape := true)
    else TakeByte(p, b)
  }

  /** The parser and the complete frames after a stream of bytes; an empty frame is none. */
  function FeedAll(p: Parser, bytes: seq<bv8>): (Parser, seq<Framed>) {
    if bytes == [] then (p, [])
    else
      var (q, frames) := FeedAll(p, bytes[..|bytes| - 1]);
      var b := bytes[|bytes| - 1];
      (Feed(q, b), if EndsFrame(q, b) && q.frame != [] then frames + [Framed(q.command, q.frame)] else frames)
  }

  /** kiss_read and its globals. */
  class Reader {
    const buffer: array<bv8>
    var frameLen: nat
    var inFrame: bool
    var escape: bool
    var command: bv8

    ghost predicate Valid()
      reads this
    {
      buffer.Length == MAX_PAYLOAD && frameLen <= MAX_PAYLOAD
    }

    ghost function State(): Parser
      reads this, buffer
      requires Valid()
    {
      Parser(buffer[..frameLen], inFrame, escape, command)
    }

    /** kiss_reset_state */
    constructor ()
      ensures Valid() && fresh(buffer) && State() == RESET
    {
      buffer := new bv8[MAX_PAYLOAD](_ => 0);
      frameLen, inFrame, escape, command := 0, false, false, CMD_UNKNOWN;
    }

    /** Returns the length of the frame in the buffer when `byte` ends one, else 0. */
    method Read(byte: bv8) returns (len: nat)
      requires Valid()
      modifies this, buffer
      ensures Valid() && State() == Feed(old(State()), byte)
      ensures len == if EndsFrame(old(State()), byte) then |old(State()).frame| else 0
      ensures len > 0 ==> buffer[..len] == old(State()).frame && command == old(command)
    {
      var b := byte;
      if inFrame && b == FEND && CarriesData(command) {
        inFrame := false;
        return frameLen;
      }
      if b == FEND {
        inFrame := true;
        command := CMD_UNKNOWN;
        frameLen := 0;
        return 0;
      }
      if inFrame && frameLen < MAX_PAYLOAD {
        if frameLen == 0 && command == CMD_UNKNOWN {
          command := b & 0x0F;
          return 0;
        }
        if CarriesData(command) {
          if b == FESC {
            escape := true;
            return 0;
          }
          if escape {
            if b == TFEND {
              b := FEND;
            }
            if b == TFESC {
              b := FESC;
            }
            escape := false;
          }
          buffer[frameLen] := b;
          frameLen := frameLen + 1;
        }
      }
      return 0;
    }
  }

  // ------------------------------------------------------------------ the writer

  function EscapeByte(b: bv8): seq<bv8> {
    if b == FEND then [FESC, TFEND] else if b == FESC then [FESC, TFESC] else [b]
  }

  function Escape(payload: seq<bv8>): seq<bv8> {
    if payload == [] then [] else Escape(payload[..|payload| - 1]) + EscapeByte(payload[|payload| - 1])
  }

  function Encode(f: Framed): seq<bv8> { [FEND, f.cmd] + Escape(f.payload) + [FEND] }

  /** kiss_write_frame */
  method WriteFrame(payload: array<bv8>, at: nat, len: nat, cmd: bv8, out: array<bv8>) returns (n: nat)
    requires at + len <= payload.Length && 2 * len + 3 <= out.Length && payload != out
    modifies out
    ensures n <= 2 * len + 3 && out[..n] == Encode(Framed(cmd, payload[at..at + len]))
  {
    out[0], out[1] := FEND, cmd;
    n := EscapeInto(payload, at, len, out, 2);
    out[n] := FEND;
    n := n + 1;
  }

  lemma EscapeNext(before: seq<bv8>, p: seq<bv8>, i: nat)
    requires i < |p|
    ensures before + Escape(p[..i + 1]) == before + Escape(p[..i]) + EscapeByte(p[i])
  {
    assert p[..i + 1][..i] == p[..i];
  }

  method EscapeInto(payload: array<bv8>, at: nat, len: nat, out: array<bv8>, from: nat) returns (n: nat)
    requires at + len <= payload.Length && from + 2 * len <= out.Length && payload != out
    modifies out
    ensures from <= n <= from + 2 * len && out[..n] == old(out[..from]) + Escape(payload[at..at + len])
  {
    ghost var p := payload[at..at + len];
    n := from;
    var i := 0;
    while i < len
      invariant 0 <= i <= len && from <= n <= from + 2 * i
      invariant out[..n] == old(out[..from]) + Escape(p[..i])
    {
      EscapeNext(old(out[..from]), p, i);
      n := WriteByte(payload[at + i], out, n);
      i := i + 1;
    }
    assert p[..len] == p;
  }

  /** One byte of the payload, escaped if it has to be. */
  method WriteByte(b: bv8, out: array<bv8>, at: nat) returns (n: nat)
    requires at + 2 <= out.Length
    modifies out
    ensures at <= n <= at + 2 && out[..n] == old(out[..at]) + EscapeByte(b)
  {
    n := at;
    if b == FEND {
      out[n], out[n + 1] := FESC, TFEND;
      n := n + 2;
    } else if b == FESC {
      out[n], out[n + 1] := FESC, TFESC;
      n := n + 2;
    } else {
      out[n] := b;
      n := n + 1;
    }
  }

  lemma {:induction false} EncodedLength(f: Framed)
    ensures |f.payload| + 3 <= |Encode(f)| <= 2 * |f.payload| + 3
    decreases |f.payload|
  {
    if f.payload != [] {
      EncodedLength(f.(payload := f.payload[..|f.payload| - 1]));
    }
  }

  // ------------------------------------------------------------------ reading what was written

  lemma {:induction false} FeedAllConcat(p: Parser, xs: seq<bv8>, ys: seq<bv8>)
    ensures var (q, fs) := FeedAll(p, xs); var (r, gs) := FeedAll(q, ys); FeedAll(p, xs + ys) == (r, fs + gs)
    decreases |ys|
  {
    if ys == [] {
      assert xs + ys == xs;
      var fs := FeedAll(p, xs).1;
      assert fs + [] == fs;
    } else {
      var last := |ys| - 1;
      var all := xs + ys;
      assert all[..|all| - 1] == xs + ys[..last] && all[|all| - 1] == ys[last];
      FeedAllConcat(p, xs, ys[..last]);
      var (q, fs) := FeedAll(p, xs);
      var (r, gs) := FeedAll(q, ys[..last]);
      LastByte(p, all, r, fs + gs);
      LastByte(q, ys, r, gs);
      assert fs + (gs + [Framed(r.command, r.frame)]) == fs + gs + [Framed(r.command, r.frame)];
    }
  }

  lemma LastByte(p: Parser, bytes: seq<bv8>, q: Parser, frames: seq<Framed>)
    requires bytes != [] && FeedAll(p, bytes[..|bytes| - 1]) == (q, frames)
    ensures var b := bytes[|bytes| - 1];
      var all := if EndsFrame(q, b) && q.frame != [] then frames + [Framed(q.command, q.frame)] else frames;
      FeedAll(p, bytes) == (Feed(q, b), all)
  {
  }

  lemma FeedQuietly(p: Parser, xs: seq<bv8>, q: Parser, ys: seq<bv8>, r: Parser)
    requires FeedAll(p, xs) == (q, []) && FeedAll(q, ys) == (r, [])
    ensures FeedAll(p, xs + ys) == (r, [])
  {
    FeedLast(p, xs, q, ys);
  }

  lemma FeedLast(p: Parser, xs: seq<bv8>, q: Parser, ys: seq<bv8>)
    requires FeedAll(p, xs) == (q, [])
    ensures FeedAll(p, xs + ys) == FeedAll(q, ys)
  {
    FeedAllConcat(p, xs, ys);
    var read := FeedAll(q, ys).1;
    assert [] + read == read;
  }

  /** In the data of a frame, what the writer puts for a byte is read back as that byte. */
  lemma EscapedByteIsRead(p: Parser, b: bv8)
    requires p.inFrame && CarriesData(p.command) && |p.frame| < MAX_PAYLOAD
    requires p.escape ==> b != TFEND && b != TFESC
    ensures FeedAll(p, EscapeByte(b)) == (p.(frame := p.frame + [b], escape := false), [])
  {
    if b == FEND || b == FESC {
      FeedAllConcat(p, EscapeByte(b)[..1], EscapeByte(b)[1..]);
      assert EscapeByte(b) == EscapeByte(b)[..1] + EscapeByte(b)[1..];
      FeedOne(p, FESC);
      FeedOne(Feed(p, FESC), EscapeByte(b)[1]);
    } else {
      FeedOne(p, b);
    }
  }

  lemma FeedOne(p: Parser, b: bv8)
    ensures FeedAll(p, [b]) ==
      (Feed(p, b), if EndsFrame(p, b) && p.frame != [] then [Framed(p.command, p.frame)] else [])
  {
    assert [b][..0] == [];
    assert FeedAll(p, []) == (p, []);
    var f := Framed(p.command, p.frame);
    assert [] + [f] == [f];
  }

  /** The first byte of the payload cannot be mistaken for the end of an escape left pending. */
  predicate Unconfused(escape: bool, payload: seq<bv8>) {
    escape && payload != [] ==> payload[0] != TFEND && payload[0] != TFESC
  }

  lemma {:induction false} PayloadIsRead(p: Parser, payload: seq<bv8>)
    requires p.inFrame && CarriesData(p.command) && p.frame == [] && |payload| <= MAX_PAYLOAD
    requires Unconfused(p.escape, payload)
    ensures FeedAll(p, Escape(payload)) == (p.(frame := payload, escape := p.escape && payload == []), [])
    decreases |payload|, 0
  {
    if payload == [] {
      assert Escape(payload) == [];
    } else {
      var front, b := payload[..|payload| - 1], payload[|payload| - 1];
      assert payload == front + [b];
      FrontIsRead(p, front, b);
      OneByteMore(p, front, b);
    }
  }

  lemma {:induction false} FrontIsRead(p: Parser, front: seq<bv8>, b: bv8)
    requires p.inFrame && CarriesData(p.command) && p.frame == [] && |front| < MAX_PAYLOAD
    requires Unconfused(p.escape, front + [b])
    ensures FeedAll(p, Escape(front)) == (p.(frame := front, escape := p.escape && front == []), [])
    decreases |front|, 1
  {
    assert front != [] ==> (front + [b])[0] == front[0];
    PayloadIsRead(p, front);
  }

  lemma OneByteMore(p: Parser, front: seq<bv8>, b: bv8)
    requires p.inFrame && CarriesData(p.command) && |front| < MAX_PAYLOAD && Unconfused(p.escape, front + [b])
    requires FeedAll(p, Escape(front)) == (p.(frame := front, escape := p.escape && front == []), [])
    ensures FeedAll(p, Escape(front + [b])) == (p.(frame := front + [b], escape := false), [])
  {
    var q, all := p.(frame := front, escape := p.escape && front == []), front + [b];
    EscapedByteIsRead(q, b);
    assert all[..|all| - 1] == front;
    FeedQuietly(p, Escape(front), q, EscapeByte(b), p.(frame := all, escape := false));
  }

  /** The opening of a frame: a FEND and the command byte. */
  lemma OpeningIsRead(p: Parser, cmd: bv8)
    requires !p.inFrame && CarriesData(cmd)
    ensures FeedAll(p, [FEND, cmd]) == (Parser([], true, p.escape, cmd), [])
  {
    assert [FEND, cmd] == [FEND] + [cmd];
    FeedAllConcat(p, [FEND], [cmd]);
    FeedOne(p, FEND);
    FeedOne(Feed(p, FEND), cmd);
    assert cmd & 0x0F == cmd;
  }

  /** Between frames, an encoded frame is read back as exactly that frame. */
  lemma EncodedIsRead(p: Parser, f: Framed)
    requires !p.inFrame && Sendable(f) && Unconfused(p.escape, f.payload)
    ensures FeedAll(p, Encode(f)) == (Parser(f.payload, false, false, f.cmd), [f])
  {
    OpeningIsRead(p, f.cmd);
    var q := Parser([], true, p.escape, f.cmd);
    PayloadIsRead(q, f.payload);
    var r := q.(frame := f.payload, escape := false);
    FeedOne(r, FEND);
    FeedAllConcat(q, Escape(f.payload), [FEND]);
    FeedAllConcat(p, [FEND, f.cmd], Escape(f.payload) + [FEND]);
    assert Encode(f) == [FEND, f.cmd] + (Escape(f.payload) + [FEND]);
  }

  /** kiss.c does not clear ESCAPE at a FEND: after a frame broken off behind an escape, the
      next frame is read back exactly if it does not begin with TFEND or TFESC. */
  lemma PendingEscape(p: Parser, f: Framed)
    requires !p.inFrame && p.escape && Sendable(f)
    ensures FeedAll(p, Encode(f)).1 == [f] <==> f.payload[0] != TFEND && f.payload[0] != TFESC
  {
    if Unconfused(true, f.payload) {
      EncodedIsRead(p, f);
    } else {
      FirstByteIsLost(p, f);
    }
  }

  lemma ConfusedByte(cmd: bv8, first: bv8)
    requires CarriesData(cmd) && (first == TFEND || first == TFESC)
    ensures FeedAll(Parser([], true, true, cmd), [first]) ==
      (Parser([if first == TFEND then FEND else FESC], true, false, cmd), [])
  {
    var wrong := if first == TFEND then FEND else FESC;
    FeedOne(Parser([], true, true, cmd), first);
    assert [] + [wrong] == [wrong];
  }

  /** What becomes of a frame whose first byte is taken for the end of an escape. */
  lemma MisreadByte(p: Parser, f: Framed)
    requires !p.inFrame && p.escape && Sendable(f) && (f.payload[0] == TFEND || f.payload[0] == TFESC)
    ensures FeedAll(p, Encode(f)).1 ==
      [Framed(f.cmd, [if f.payload[0] == TFEND then FEND else FESC] + f.payload[1..])]
  {
    var first, rest := f.payload[0], f.payload[1..];
    var q1 := Parser([if first == TFEND then FEND else FESC], true, false, f.cmd);
    OpeningIsRead(p, f.cmd);
    ConfusedByte(f.cmd, first);
    TailIsRead(q1, rest);
    FeedThree(p, [FEND, f.cmd], Parser([], true, true, f.cmd), [first], q1, Escape(rest) + [FEND]);
    EncodedInThree(f);
  }

  lemma FirstByteIsLost(p: Parser, f: Framed)
    requires !p.inFrame && p.escape && Sendable(f) && (f.payload[0] == TFEND || f.payload[0] == TFESC)
    ensures FeedAll(p, Encode(f)).1 != [f]
  {
    MisreadByte(p, f);
    assert ([if f.payload[0] == TFEND then FEND else FESC] + f.payload[1..])[0] != f.payload[0];
  }

  /** A frame broken off behind an escape, and the frame after it, which is misread. */
  const BROKEN: seq<bv8> := [FEND, CMD_AX25, FESC, FEND]

  lemma EscapeIsLeftPending()
    ensures FeedAll(RESET, BROKEN) == (Parser([], false, true, CMD_AX25), [])
    ensures FeedAll(RESET, BROKEN + Encode(Framed(CMD_AX25, [TFEND]))).1 == [Framed(CMD_AX25, [FEND])]
  {
    var f, left := Framed(CMD_AX25, [TFEND]), Parser([], false, true, CMD_AX25);
    OpeningIsRead(RESET, CMD_AX25);
    var q := Parser([], true, false, CMD_AX25);
    FeedOne(q, FESC);
    FeedOne(q.(escape := true), FEND);
    FeedThree(RESET, [FEND, CMD_AX25], q, [FESC], q.(escape := true), [FEND]);
    assert BROKEN == [FEND, CMD_AX25] + [FESC] + [FEND];
    FeedLast(RESET, BROKEN, left, Encode(f));
    MisreadByte(left, f);
    assert [FEND] + f.payload[1..] == [FEND];
  }

  lemma EncodedInThree(f: Framed)
    requires f.payload != [] && EscapeByte(f.payload[0]) == [f.payload[0]]
    ensures Encode(f) == [FEND, f.cmd] + [f.payload[0]] + (Escape(f.payload[1..]) + [FEND])
  {
    EscapeHead(f.payload);
  }

  lemma FeedThree(p: Parser, xs: seq<bv8>, q: Parser, ys: seq<bv8>, r: Parser, zs: seq<bv8>)
    requires FeedAll(p, xs) == (q, []) && FeedAll(q, ys) == (r, [])
    ensures FeedAll(p, xs + ys + zs) == FeedAll(r, zs)
  {
    FeedQuietly(p, xs, q, ys, r);
    FeedLast(p, xs + ys, r, zs);
  }

  /** The rest of a frame that has begun, and its end. */
  lemma TailIsRead(p: Parser, rest: seq<bv8>)
    requires p.inFrame && CarriesData(p.command) && !p.escape && p.frame != [] && |p.frame| + |rest| <= MAX_PAYLOAD
    ensures FeedAll(p, Escape(rest) + [FEND]).1 == [Framed(p.command, p.frame + rest)]
  {
    RestIsRead(p, rest);
    FeedOne(p.(frame := p.frame + rest), FEND);
    FeedAllConcat(p, Escape(rest), [FEND]);
  }

  lemma EscapeHead(payload: seq<bv8>)
    requires payload != []
    ensures Escape(payload) == EscapeByte(payload[0]) + Escape(payload[1..])
  {
    assert payload == payload[..1] + payload[1..];
    EscapeSplits(payload[..1], payload[1..]);
    assert payload[..1][..0] == [];
  }

  lemma {:induction false} EscapeSplits(xs: seq<bv8>, ys: seq<bv8>)
    ensures Escape(xs + ys) == Escape(xs) + Escape(ys)
    decreases |ys|
  {
    if ys == [] {
      assert xs + ys == xs;
    } else {
      assert (xs + ys)[..|xs + ys| - 1] == xs + ys[..|ys| - 1];
      EscapeSplits(xs, ys[..|ys| - 1]);
    }
  }

  lemma {:induction false} RestIsRead(p: Parser, payload: seq<bv8>)
    requires p.inFrame && CarriesData(p.command) && !p.escape && p.frame != [] && |p.frame| + |payload| <= MAX_PAYLOAD
    ensures FeedAll(p, Escape(payload)) == (p.(frame := p.frame + payload), [])
    decreases |payload|
  {
    if payload == [] {
      assert p.frame + payload == p.frame;
    } else {
      var last := |payload| - 1;
      RestIsRead(p, payload[..last]);
      var q := p.(frame := p.frame + payload[..last]);
      EscapedByteIsRead(q, payload[last]);
      assert q.frame + [payload[last]] == p.frame + payload;
      FeedQuietly(p, Escape(payload[..last]), q, EscapeByte(payload[last]), q.(frame := p.frame + payload));
    }
  }

  // ------------------------------------------------------------------ any frame

  /** No byte but the ends of a frame is FEND, and only the two replacements follow FESC. */
  predicate CleanAt(e: seq<bv8>, i: nat)
    requires i < |e|
  {
    e[i] != 0xC0 && (e[i] == 0xDB ==> i + 1 < |e| && (e[i + 1] == 0xDC || e[i + 1] == 0xDD))
  }

  predicate Clean(e: seq<bv8>) { forall i :: 0 <= i < |e| ==> CleanAt(e, i) }

  lemma {:induction false} EscapedIsClean(payload: seq<bv8>)
    ensures Clean(Escape(payload))
  {
    if payload != [] {
      EscapedIsClean(payload[..|payload| - 1]);
      CleanAppended(Escape(payload[..|payload| - 1]), payload[|payload| - 1]);
    }
  }

  lemma CleanAppended(front: seq<bv8>, b: bv8)
    requires Clean(front)
    ensures Clean(front + EscapeByte(b))
  {
    var e := front + EscapeByte(b);
    forall i | 0 <= i < |e| ensures CleanAt(e, i) {
      if i < |front| {
        assert CleanAt(front, i);
      }
    }
  }

  lemma NoFendInside(payload: seq<bv8>)
    ensures forall i :: 0 <= i < |Escape(payload)| ==> Escape(payload)[i] != FEND
  {
    EscapedIsClean(payload);
    forall i | 0 <= i < |Escape(payload)| ensures Escape(payload)[i] != FEND {
      assert CleanAt(Escape(payload), i);
    }
  }

  /** Bytes the parser takes no notice of: the frame is full, or its command is none it knows. */
  predicate Deaf(p: Parser) {
    p.inFrame && (|p.frame| >= MAX_PAYLOAD || (p.command != CMD_UNKNOWN && !CarriesData(p.command)))
  }

  lemma {:induction false} DeafTo(p: Parser, bytes: seq<bv8>)
    requires Deaf(p) && forall i :: 0 <= i < |bytes| ==> bytes[i] != FEND
    ensures FeedAll(p, bytes) == (p, [])
  {
    if bytes != [] {
      DeafTo(p, bytes[..|bytes| - 1]);
    }
  }

  /** A payload of any length leaves in the buffer what fits. */
  lemma PayloadIsCut(p: Parser, payload: seq<bv8>)
    requires p.inFrame && CarriesData(p.command) && p.frame == [] && Unconfused(p.escape, payload)
    requires |payload| > MAX_PAYLOAD
    ensures FeedAll(p, Escape(payload)) == (p.(frame := payload[..MAX_PAYLOAD], escape := false), [])
  {
    var fits, rest := payload[..MAX_PAYLOAD], payload[MAX_PAYLOAD..];
    var q := p.(frame := fits, escape := false);
    assert payload == fits + rest && fits[0] == payload[0];
    EscapeSplits(fits, rest);
    PayloadIsRead(p, fits);
    NoFendInside(rest);
    DeafTo(q, Escape(rest));
    FeedQuietly(p, Escape(fits), q, Escape(rest), q);
  }

  /** The upper half of the command byte, a port number, is not looked at. */
  lemma AnyOpening(p: Parser, c: bv8)
    requires !p.inFrame && c != FEND
    ensures FeedAll(p, [FEND, c]) == (Parser([], true, p.escape, c & 0x0F), [])
  {
    assert [FEND, c] == [FEND] + [c];
    FeedAllConcat(p, [FEND], [c]);
    FeedOne(p, FEND);
    FeedOne(Feed(p, FEND), c);
  }

  /** What any frame a client sends is read as, whatever its command byte and length: nothing if
      the command is none of the three or there is no payload, else the first 756 bytes. */
  lemma AnyFrameIsRead(p: Parser, c: bv8, payload: seq<bv8>)
    requires !p.inFrame && c != 0xC0 && (p.escape && payload != [] ==> payload[0] != 0xDC && payload[0] != 0xDD)
    ensures FeedAll(p, Encode(Framed(c, payload))).1 ==
      if c & 0x0F > 2 || payload == [] then []
      else [Framed(c & 0x0F, if |payload| > 756 then payload[..756] else payload)]
  {
    AnyOpening(p, c);
    var q := Parser([], true, p.escape, c & 0x0F);
    assert CarriesData(c & 0x0F) == (c & 0x0F <= 2);
    assert c & 0x0F != CMD_UNKNOWN;
    assert Encode(Framed(c, payload)) == [FEND, c] + Escape(payload) + [FEND];
    NoFendInside(payload);
    var r := if !CarriesData(c & 0x0F) then q else if |payload| > MAX_PAYLOAD then
      q.(frame := payload[..MAX_PAYLOAD], escape := false)
      else q.(frame := payload, escape := q.escape && payload == []);
    if !CarriesData(c & 0x0F) {
      DeafTo(q, Escape(payload));
    } else if |payload| > MAX_PAYLOAD {
      PayloadIsCut(q, payload);
    } else {
      PayloadIsRead(q, payload);
    }
    FeedThree(p, [FEND, c], q, Escape(payload), r, [FEND]);
    FeedOne(r, FEND);
  }

  // ------------------------------------------------------------------ streams of frames

  function EncodeAll(fs: seq<Framed>): seq<bv8> {
    if fs == [] then [] else EncodeAll(fs[..|fs| - 1]) + Encode(fs[|fs| - 1])
  }

  /** From reset, a stream of encoded frames is read back as those frames, in order. */
  lemma {:induction false} StreamIsRead(fs: seq<Framed>)
    requires forall i :: 0 <= i < |fs| ==> Sendable(fs[i])
    ensures var (p, read) := FeedAll(RESET, EncodeAll(fs)); read == fs && !p.inFrame && !p.escape
  {
    if fs != [] {
      var last := |fs| - 1;
      StreamIsRead(fs[..last]);
      FeedAllConcat(RESET, EncodeAll(fs[..last]), Encode(fs[last]));
      EncodedIsRead(FeedAll(RESET, EncodeAll(fs[..last])).0, fs[last]);
      assert fs[..last] + [fs[last]] == fs;
    }
  }
}
