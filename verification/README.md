# Mercury: a verified model of the ARQ data link and its surroundings

Mercury is a software modem for HF radio. This project models, in Dafny, the parts of it whose
correctness is a matter of invariants over whole runs, and proves what they are for:

* the **ARQ data link**: connection set-up, go-back-N with cumulative and implicit ACKs,
  half-duplex turn passing, mode negotiation, keepalives and teardown;
* the **arithmetic coder** for callsigns and the CALL, ACCEPT and CQ frames built on it;
* the **frames on the wire**, and the recovery of length and mode from them;
* the **buffers and queues** around the link: the thread-safe channel, the queue of modem
  actions, the byte ring, the event queue, the feeder of the demodulator, the dictionary;
* **broadcast framing**: KISS and the length prefix.

`dafny verify dfyconfig.toml` checks everything.

## How it is built

`ArqTypes` and `Fsm` state the link's state machine as functions on values, one for each static
function of `datalink_arq/arq_fsm.c`. `Session.dfy` has the same machine as an object that is
updated in place: each of its handlers is proved against the function of the same name, and its
dispatcher carries the invariant of `StationInvariants`. Results about the machine are lemmas
about the functions:

| file | result |
|---|---|
| `StationInvariants`, `StationRuns` | one station, any burst size from 1 to 5, any policy for choosing modes: the window, the timers, and progress of the sender, in every reachable state |
| `Exchanges`, `Deliveries`, `Patience` | what each exchange puts on the air and what the other station makes of it: a call from APP_CONNECT to the first bytes delivered, a round of data, the turn, the mode, probes, the end of a call; how often and how long a station tries alone |
| `StationSteps`, `TwoStations`, `Calls` | two stations, from the ACCEPT on: safety of both directions over a lossy half-duplex medium |
| `GoBackN` | one direction, bursts of 1 to 5, lossy FIFO channels with delay |
| `StrandedWindow`, `ForeignFrames` | when an unacknowledged window is left behind, and what frames of another session can do |
| `ModeSelection`, `Teardowns` | the original's choice of modes, and how long a disconnect can be deferred |
| `SilentPeer` | termination when the peer falls silent, by an explicit measure |
| `EventLoop`, `WireFrames` | what drives the machine, and what its frames look like as bytes |

`BitStrings`, `CoderSpec`, `CoderProofs`, `Coder` and `CallFrames` are the coder: its meaning on
bit strings, the proof that decoding inverts encoding, the loops as the original has them, and
the frames; `SlotLimit` is how much of a callsign a CALL can carry. `Channel`, `ActionQueue`,
`ByteRing`, `ChunkFeeder`, `Dictionary`, `Kiss` and `Broadcast` stand alone; `Common`, `Rings` and
`Framer` are shared.

The model of two stations (`TwoStations.Act`, `Calls.Step`) is this. Either station may at any
time have its application write to the TX ring or post an event, have its deadline fire once it
is due, key up, or end a transmission. The modem takes the first control frame, else the first
frame. A frame on the air may be decoded by the other station at any time before it ends, or
never; a station decodes nothing while it has a frame queued or on the air. Times, losses, SNR
readings and mode choices are arbitrary. A call begins when the caller hears the ACCEPT, with
the callee still accepting (or already listening again), and ends when a station that has
connected leaves the connection.

## Where the code does not do what is said of it

* A station that yields the turn before its window is acknowledged keeps the window and is said to
  send it again once it regains the turn, so that no data is lost
  (`datalink_arq/arq_fsm.c:1553-1555`). It does so exactly when something is in its TX ring at
  that time (`StrandedWindow.TurnBringsBack`, `StrandedWindow.TurnResends`). With an empty ring
  neither the turn nor a late APP_DATA_READY brings the window back, only a further write of the
  application (`StrandedWindow.StrandedStays`, `StrandedWindow.OnlyAWriteHelps`), and a run ends
  with such a station idle in its own turn (`StrandedWindow.WindowLeftBehind`). What the peer has
  been given is still a prefix (`Calls.EveryRunIsSafe`).
* Frames of another session are dropped only in a connection and its teardown, only if their
  session id is not 0, and not if they are a MODE_REQ or a MODE_ACK
  (`datalink_arq/arq_fsm.c:2189-2215`). `ForeignFrames.ForeignFrame` says for every state exactly
  which frames of another session are acted on. A station that accepts a call is connected by the
  DATA or ACK of anybody, and delivers such DATA (`ForeignFrames.StrangerAnswersCall`); a station in
  WAIT_ACK takes anybody's MODE_REQ for an ACK of the frames in flight
  (`ForeignFrames.StrangerTakesWindow`). The safety of a call therefore holds while no third station
  transmits. Session id 0 passes for the id of every connection (`ForeignFrames.ZeroIsOurs`).
* The deadline of a deferred disconnect is called absolute (`datalink_arq/arq_fsm.c:1256-1257`).
  It is set anew by every further request that finds data to send or a frame in flight: the
  teardown is bounded relative to the last request (`Teardowns.NobodyOutlivesIt`), and requests
  repeated in time move the deadline without end (`Teardowns.PostponedForever`), which leaves the
  other two of the three bounds named there.
* `TIMER_KEEPALIVE` is handled but never armed (`SilentPeer.NeverKeepalive`): only a receiver
  ever probes its peer.
* Callsigns longer than 14 characters are said not to encode
  (`datalink_arq/arq_protocol.c:400-401`). The code cuts the encoding to ten bytes instead, and
  builds a frame from which no such callsign comes back (`CallFrames.CallRoundTrip`): fifteen A
  arrive as fourteen (`CallFrames.FifteenLosesOne`).
* The SNR of a frame is said to be rounded to whole decibels (`datalink_arq/arq_protocol.c:189`).
  The cast cuts towards zero: below -0.5 dB a reading arrives at least half a decibel too high, and
  -3 dB as -2 dB (`WireFrames.SnrRoundTrip`, `WireFrames.SnrIsRounded`).
* `arithmetic_decode` reports the empty message as an error (`Coder.EmptyMessage`).
* DATA frames never carry HAS_DATA; the model does the same.
* The KISS parser does not clear a pending escape at the start of a frame: `Kiss.PendingEscape`
  says exactly which frames are then misread, `Kiss.EscapeIsLeftPending` gives one.
* The room for a broadcast AX.25 frame is an unsigned difference that wraps around when the modem
  frame has 1 or 2 bytes. Nothing is cut then, and all such frames are discarded
  (`Broadcast.NoRoomForPrefix`), but only after the payload has been moved up by three bytes: with
  more than 753 of them that is past the end of the 756-byte buffer
  (`data_interfaces/tcp_interfaces.c:895`), a case `Broadcast.InjectPrefix` leaves out.

## Model

| member | source | states |
|---|---|---|
| Coder.FindIndex | datalink_arq/arith.c:38-44 | the place of a character in the 38-symbol alphabet, or -1 exactly for characters outside it |
| Coder.BitWriter.WriteBit | datalink_arq/arith.c:60-72 | one more bit behind those written; the rest of the buffer keeps its meaning; refused only when the buffer is full |
| Coder.BitWriter.WriteWithPending | datalink_arq/arith.c:136-147 | a bit followed by the pending run of its opposites |
| Coder.BitWriter.Bytes | datalink_arq/arith.c:74-76 | the number of bytes that hold the bits written |
| Coder.BitReader.ReadBit | datalink_arq/arith.c:95-112 | the next bit of the buffer, then 23 zeros, then -1: the 24-step read-ahead counter |
| Coder.EncoderRenormalise | datalink_arq/arith.c:133-157 | the renormalisation loop does what the recursive specification says, with every bit and pending bit it implies |
| Coder.ArithmeticEncode | datalink_arq/arith.c:114-181 | the output holds exactly the specified bits, padded with zeros to a byte; 0 for a character outside the alphabet |
| Coder.MatchSymbol | datalink_arq/arith.c:212-221 | on every settled interval and value inside it the search ends at a symbol, and the narrowed interval contains the value: the branch for no matching symbol cannot be taken |
| Coder.DecoderRenormalise | datalink_arq/arith.c:233-252 | keeps low <= value <= high below 2^32 and follows the specified shifts, stopping when the reader runs dry |
| Coder.ArithmeticDecode | datalink_arq/arith.c:183-257 | for every input byte string the output holds the specified decoding with its terminator, and the result is -1 exactly for the error cases and the empty text |
| CoderSpec.SettledIsWide | datalink_arq/arith.c:205-206 | once renormalised the range exceeds 2^30 |
| CoderSpec.PickSymbolFits | datalink_arq/arith.c:205-221 | for every decoder state a symbol exists whose narrowed interval holds the value |
| CoderSpec.PickSymbolUnique | datalink_arq/arith.c:209-221 | and only one does |
| CoderProofs.RenormContains | datalink_arq/arith.c:133-157 | through all three renormalisation cases and any run of pending bits, the bits still to come stay inside the encoder's interval |
| CoderProofs.FlushContains | datalink_arq/arith.c:166-178 | the two final-bit cases put every continuation of the output inside the last interval |
| CoderProofs.SymbolShifts | datalink_arq/arith.c:124-157 | every symbol, the end marker included, forces at least four shifts |
| CoderProofs.ShiftBound | datalink_arq/arith.c:133-178 | the number of bits is the number of shifts plus two, bounded through 38 to the n-th power |
| CoderProofs.EncodedLength | datalink_arq/arith.c:114-181 | the encoding of n characters takes between 4n+6 and 6n+8 bits, at most 80 for 14 characters and at most 85 for 15 |
| CoderProofs.RenormFollows | datalink_arq/arith.c:233-252 | the decoder's register is always the first 32 bits of the remaining stream of the encoder |
| CoderProofs.BuildTrace | datalink_arq/arith.c:183-257 | the decoder goes through the same intervals as the encoder, symbol by symbol |
| CoderProofs.RoundTripBits | datalink_arq/arith.c:114-257 | decoding any stream that starts with the encoded bits returns the symbols, cut to the output's room; the read-ahead may stop it only after the last of them |
| Coder.RoundTrip | datalink_arq/arith.c:114-257 | decode of encode is the message, for every non-empty message of the alphabet, whether the decoder gets the exact bytes or bytes followed by anything |
| Coder.EmptyMessage | datalink_arq/arith.c:183-257 | the empty message decodes to nothing, which arithmetic_decode reports as -1 |
| Coder.ShortMessagesFit | datalink_arq/arith.c:114-181 | every message of up to 5460 characters fits the encoder's buffer |
| CallFrames.NormaliseCallsign | datalink_arq/arq_protocol.c:416-425 | the first 15 characters, those from a to z 32 lower, the others as they are |
| CallFrames.EncodeCallsign | datalink_arq/arq_protocol.c:427-436 | the encoding cut to the slot, or nothing when a character is outside the alphabet |
| CallFrames.BuildCallAccept | datalink_arq/arq_protocol.c:499-526 | builds exactly the CALL or ACCEPT frame; -1 if and only if the buffer is shorter than 14 bytes, the bandwidth is none of 500, 2300 and 2750, or one of the first 15 characters is outside A-Z, a-z, 0-9 and the hyphen |
| CallFrames.ParseCallAccept | datalink_arq/arq_protocol.c:544-561 | the session id, callsign and bandwidth of a frame, or rejected |
| CallFrames.BuildCq | datalink_arq/arq_protocol.c:581-603 | builds exactly the CQ frame; -1 under the same condition |
| CallFrames.ParseCq | datalink_arq/arq_protocol.c:605-618 | the callsign and bandwidth of a CQ frame, or none |
| CallFrames.CallsignFits | datalink_arq/arq_protocol.c:402-437 | 1 to 14 characters always fit the ten bytes of a CALL, 1 to 15 the thirteen of a CQ |
| CallFrames.SlotRoundTrip | datalink_arq/arq_protocol.c:441-456 | a slot with room for the whole encoding gives back the callsign |
| CallFrames.SlotGivesFourteen | datalink_arq/arq_protocol.c:441-456 | ten bytes never decode to more than 14 characters |
| SlotLimit.SlotHoldsFourteen | datalink_arq/arith.c:183-257 | nor does any 103-bit stream: fourteen symbols cost 72 bits beyond the register |
| CallFrames.CallRoundTrip | datalink_arq/arq_protocol.c:499-579 | parse of build returns the callsign, with a to z as A to Z character by character, if and only if it has at most 14 characters; session id, bandwidth, CRC and accept flag come back in any case |
| CallFrames.FifteenLosesOne | datalink_arq/arq_protocol.c:427-437 | the frame of fifteen A is parsed as fourteen A |
| CallFrames.CqRoundTrip | datalink_arq/arq_protocol.c:581-618 | parse of build returns any non-empty callsign in the same way, and the bandwidth |
| CallFrames.NormalisedIsUpperCase | datalink_arq/arq_protocol.c:416-425 | one character after the other, a to z become A to Z and nothing else changes |
| CallFrames.SlotGivesCall | datalink_arq/arq_protocol.c:441-456 | the ten bytes of a CALL give back a callsign of up to 14 characters in upper case |
| Framer.HeaderRoundTrip | modem/framer.c:41-48 | type and extension come back from the header byte |
| WireFrames.BuildData | datalink_arq/arq_protocol.c:352-375 | header, payload and padding of a DATA frame, or -1 for a short buffer or an empty payload |
| WireFrames.BuildControl | datalink_arq/arq_protocol.c:244-350 | the bytes of every control frame, which fill up with zeros to the 14 the receiver gets, or -1 for a short buffer |
| WireFrames.FindMode | datalink_arq/arq.c:675-683 | the mode whose slot has the frame's size, DATAC15 if none |
| WireFrames.LengthRoundTrip | datalink_arq/arq.c:691-710 | the length comes back from its low byte and three flags; the sentinel for a full slot is never taken for a length, nor the reverse |
| WireFrames.DataRoundTrip | datalink_arq/arq.c:650-718 | a DATA frame of any mode and length becomes at the receiver the event the two-station model uses |
| WireFrames.ControlRoundTrip | datalink_arq/arq.c:719-748 | so does every control frame |
| WireFrames.DataLayout | datalink_arq/arq_protocol.c:352-375 | the bytes of a DATA frame at their places: type and subtype, flags, numbers, length, payload, zeros |
| WireFrames.ControlLayout | datalink_arq/arq_protocol.c:244-350 | the fourteen bytes of every control frame at their places |
| WireFrames.UnknownIsDropped | datalink_arq/arq.c:650-750 | exactly which byte strings become no event |
| WireFrames.AnyData | datalink_arq/arq.c:650-718 | what any DATA frame is taken for, a length beyond its slot cut to the slot |
| WireFrames.SnrRoundTrip | datalink_arq/arq_protocol.c:193-206 | a reading is never taken for none; from -0.5 dB on it arrives as the nearest whole decibel, below at least half a decibel too high, outside the range as its end |
| WireFrames.SnrIsRounded | datalink_arq/arq_protocol.c:186-199 | the documented rounding holds from -0.5 dB on and, below, exactly half way between two whole decibels; -3 dB arrives as -2 dB |
| SessionObject.TimingOf | datalink_arq/arq_protocol.c:100-108 | the search of the mode table |
| SessionObject.ArqSession.constructor | datalink_arq/arq_fsm.c:119-134 | the initial session, which is sound |
| SessionObject.ArqSession.TxRead | datalink_arq/arq.c:274-285 | what is read and what stays are the ring; as many bytes are read as asked for, or all there are |
| SessionObject.ArqSession.SendDataBurst | datalink_arq/arq_fsm.c:686-781 | tops up the window from the ring and hands over the whole window as one burst; how much that is, StationInvariants.BurstFills says |
| SessionObject.ArqSession.HandOver | datalink_arq/arq_fsm.c:762-780 | every frame of the window, in order, the last one ending the burst |
| SessionObject.ArqSession.Slide | datalink_arq/arq_fsm.c:1506-1513 | drops the confirmed slots by moving the rest to the front, and their bytes from the count |
| SessionObject.ArqSession.Dispatch | datalink_arq/arq_fsm.c:2179-2237 | one event turns the object into what Fsm.Dispatch says, whose exchanges are those of Exchanges, Deliveries and Patience, and takes a sound object to a sound one: window in order and counted exactly, deadlines armed, senders with something to send |
| SessionObject.ArqSession.FireDeadline | datalink_arq/arq.c:551-558 | an expired deadline is cleared, then its event dispatched; a sound object stays sound |
| EventLoop.EventQueue.Push | datalink_arq/arq.c:112-128 | appends, or drops the event when 64 are queued |
| EventLoop.EventQueue.Pop | datalink_arq/arq.c:131-138 | the oldest event |
| EventLoop.NotifiesEndCalls | datalink_arq/arq.c:229-258 | outside a connection exactly the events that run the disconnect callback empty the TX ring, and leave the station listening or disconnected as the application wants |
| EventLoop.Pass | datalink_arq/arq.c:536-559 | one pass of the loop: every queued event in order, then the deadline; the batch buffer loses none, the queue then holds exactly the APP_LISTEN events of the disconnect callback, and a sound session stays sound |
| StationInvariants.SlideIsExact | datalink_arq/arq_fsm.c:1506-1513 | the count of bytes in flight after a slide is the sum of what is left, so the clamp at zero never fires |
| StationInvariants.BurstRefills | datalink_arq/arq_fsm.c:709-780 | a burst keeps the window in order, moves bytes from ring to window without loss, and is never empty when there is a window or a backlog |
| StationInvariants.BurstFills | datalink_arq/arq_fsm.c:703-757 | a burst takes from the ring as many bytes as the free frames of the window hold, up to one frame while the session starts up and else the configured burst, and each fresh frame is full or took the last byte of the ring; numbers and ACK numbers as due |
| StationInvariants.UpgradeKeeps | datalink_arq/arq_fsm.c:510-520 | negotiation starts only with an empty window |
| StationInvariants.WindowSlides | datalink_arq/arq_fsm.c:1495-1545 | a cumulative ACK keeps the window in order |
| StationInvariants.ModeConfirmed | datalink_arq/arq_fsm.c:2113-2133 | the payload mode changes only here, with an empty window |
| StationInvariants.DispatchKeeps | datalink_arq/arq_fsm.c:2179-2237 | any event keeps the whole invariant: window, timers, and a sender that has something to send |
| StationInvariants.DispatchMoves | datalink_arq/arq_fsm.c:1366-2173 | any event confirms exactly the frames it acknowledges, delivers only the expected frame, and hands over control frames or exactly the window |
| StationRuns.TickIsSound | datalink_arq/arq.c:551-558 | clear-then-dispatch leaves no state without the deadline it needs |
| StationRuns.EveryStateIsSound | datalink_arq/arq_fsm.c:119-2237 | in every reachable state, for bursts of 1 to 5: at most 5 frames with consecutive numbers ending before tx_seq, bytes in flight exact, frame sizes of the current mode, deadlines armed, senders backed, an idle sender with a backlog about to be told |
| StationRuns.NoStateSleeps | datalink_arq/arq_fsm.c:148-197 | every waiting state has a finite deadline, and when it fires the state changes or waits anew |
| StationRuns.SenderAlwaysSends | datalink_arq/arq_fsm.c:789-850 | in DATA_TX and WAIT_ACK a burst always has a frame |
| StationRuns.StepsKeepBytesAndMode | datalink_arq/arq_fsm.c:510-520 | no step of a run, be it an event, a timer, a write or a transmission, changes the mode under unacknowledged frames; bytes read plus bytes in the ring are those of before plus those written |
| StationRuns.HoldAsksForTurn | datalink_arq/arq_fsm.c:1777-1813 | in every reachable IDLE_IRS state the end of the hold probes a peer silent for 75 s, else asks for the turn exactly when there is something to send |
| StrandedWindow.YieldLeavesWindow | datalink_arq/arq_fsm.c:1447-1560 | a TURN_REQ heard while waiting for an ACK, or in the guard before a burst, leaves the unacknowledged window behind whatever the ring holds; once the burst is handed over it changes nothing |
| StrandedWindow.TurnBringsBack | datalink_arq/arq_fsm.c:821-850 | where the turn is taken (TURN_ACK, the end of an ACK with HAS_DATA, the two ways out of a probe) the station goes on to send a window left behind if and only if its ring is not empty; otherwise it goes idle without a deadline, or starts a deferred teardown |
| StrandedWindow.TurnResends | datalink_arq/arq_fsm.c:821-850 | with something in the ring the guard then puts the whole window on the air again, ahead of anything fresh |
| StrandedWindow.StrandedStays | datalink_arq/arq_fsm.c:1366-2173 | with an empty ring no event, be it the turn or a late APP_DATA_READY, sends or confirms a window left behind while the call lasts |
| StrandedWindow.OnlyAWriteHelps | datalink_arq/arq_fsm.c:1366-2173 | the same over any run: only a write of the application or the end of the call helps |
| StrandedWindow.WindowLeftBehind | datalink_arq/arq_fsm.c:1547-1822 | a run from the initial state to such a station: it holds the turn, idle, with no deadline, nothing queued, no event to come and one unacknowledged byte |
| ForeignFrames.ForeignFrame | datalink_arq/arq_fsm.c:1081-2237 | in every connection state a frame of another session changes nothing but the time a frame was last heard, if and only if it is none of: DATA or ACK in ACCEPTING; a MODE_REQ with a payload mode in WAIT_ACK or IDLE_IRS; a MODE_ACK in MODE_REQ_WAIT; and, once a deferred disconnect is due, any MODE_REQ or MODE_ACK |
| ForeignFrames.AnyFrameConnects | datalink_arq/arq_fsm.c:1081-1111 | in ACCEPTING the DATA or ACK of any session answers the call, and DATA numbered 0 is delivered |
| ForeignFrames.ZeroIsOurs | datalink_arq/arq_fsm.c:2201-2215 | in a connection and its teardown a frame under the session id 0 does what it would do under the id of the session |
| ForeignFrames.ForeignModeReq | datalink_arq/arq_fsm.c:1717-1746 | a MODE_REQ of any session takes effect in those two states, and in WAIT_ACK empties the window without anything being delivered |
| ForeignFrames.ForeignModeAck | datalink_arq/arq_fsm.c:2111-2133 | a MODE_ACK of any session ends the negotiation with the mode it names |
| ForeignFrames.StrangerTakesWindow | datalink_arq/arq_fsm.c:1717-1746 | a reachable station that loses its one byte in flight to the MODE_REQ of another session |
| ForeignFrames.StrangerAnswersCall | datalink_arq/arq_fsm.c:1081-1111 | a reachable station that accepts a call and delivers the byte of another session, by which it is connected |
| Exchanges.CallGoesOut | datalink_arq/arq_fsm.c:882-908 | APP_CONNECT puts a CALL on the air under the session id (uptime & 127) | 1 |
| Exchanges.CallStartsAfresh | datalink_arq/arq_fsm.c:882-908 | with nothing left of earlier calls: slowest mode, link record cleared, no disconnect due |
| Exchanges.CallIsAbandoned | datalink_arq/arq_fsm.c:1071-1166 | a call given up by its application before it is answered is over at once |
| Exchanges.CallIsAnswered | datalink_arq/arq_fsm.c:927-950 | a listening station that hears it answers, 700 ms later, with an ACCEPT of that session |
| Exchanges.AcceptConnects | datalink_arq/arq_fsm.c:1015-1055 | the caller that hears it is connected, all counters new, and speaks first after the guard |
| Exchanges.CallerSpeaks | datalink_arq/arq_fsm.c:686-781 | with its ACK, or with one DATA frame of as many bytes as fit |
| Exchanges.AnswerConnects | datalink_arq/arq_fsm.c:1081-1111 | either connects the callee under the same session, and DATA is delivered |
| Exchanges.LateAnswerConnects | datalink_arq/arq_fsm.c:973-1004 | a station that stopped waiting for the caller is still connected by the DATA or ACK of that session, and of no other |
| Exchanges.CallSucceeds | datalink_arq/arq_fsm.c:870-1111 | from DISCONNECTED and LISTENING to a connection of both under one session id and mode, over the frames each of them puts on the air, with the caller's first bytes delivered |
| Exchanges.AcceptIsRepeated | datalink_arq/arq_fsm.c:1292-1304 | an ACCEPT heard again by an idle caller asks it for another ACK, and changes nothing for any other idle sender |
| Exchanges.ConfirmationGoesOut | datalink_arq/arq_fsm.c:1891-1896 | which goes out after the guard |
| Exchanges.StaleAcceptIsRefused | datalink_arq/arq_fsm.c:952-962 | an ACCEPT heard after the call was given up is answered with a DISCONNECT |
| Exchanges.RoleIsTaken | datalink_arq/arq_fsm.c:821-850 | taking the sender's role: with bytes to send behind the guard or with a MODE_REQ for the mode wanted, without any idle, or disconnecting if that was put off |
| Exchanges.HoldProbes | datalink_arq/arq_fsm.c:1777-1813 | at the end of its hold a receiver probes a peer not heard for 75 s |
| Exchanges.HoldEnds | datalink_arq/arq_fsm.c:1777-1813 | else it asks for the turn exactly if its ring is not empty |
| Exchanges.TurnIsAskedFor | datalink_arq/arq_fsm.c:1814-1822 | a receiver that gets data to send transmits a TURN_REQ |
| Exchanges.TurnIsGiven | datalink_arq/arq_fsm.c:1404-1560 | a station without a burst on the air that hears it will answer |
| Exchanges.TurnAckGoesOut | datalink_arq/arq_fsm.c:2000-2005 | with a TURN_ACK |
| Exchanges.TurnIsTaken | datalink_arq/arq_fsm.c:1948-1953 | which hands over the sender's role |
| Exchanges.TurnRequestRepeats | datalink_arq/arq_fsm.c:1982-1998 | an unanswered TURN_REQ goes out again while retries are left; then the receiver stays receiver |
| Exchanges.ModeIsAccepted | datalink_arq/arq_fsm.c:1830-1848 | a receiver takes the mode of a MODE_REQ for the peer's frames, if it is a payload mode, and for nothing else |
| Exchanges.ModeRequestConfirms | datalink_arq/arq_fsm.c:1717-1746 | one heard while waiting for an ACK also empties the window |
| Exchanges.ModeAckGoesOut | datalink_arq/arq_fsm.c:2160-2168 | the MODE_ACK names that mode |
| Exchanges.ModeIsConfirmed | datalink_arq/arq_fsm.c:2111-2133 | and the requester sends in it from then on |
| Exchanges.HoldIsRenewed | datalink_arq/arq_fsm.c:2111-2133 | a slower mode confirmed after a lost link starts the hold of six seconds anew |
| Exchanges.ModeRequestRepeats | datalink_arq/arq_fsm.c:2134-2142 | an unanswered MODE_REQ goes out again while retries are left |
| Exchanges.ModeRequestReverts | datalink_arq/arq_fsm.c:2143-2156 | in the end it names the old mode, once |
| Exchanges.ProbeIsAnswered | datalink_arq/arq_fsm.c:1315-1350 | a probe is answered with KEEPALIVE_ACK, at once or, from an idle state, after the guard |
| Exchanges.ProbeSucceeds | datalink_arq/arq_fsm.c:2017-2025 | which clears the misses |
| Exchanges.ProbesCross | datalink_arq/arq_fsm.c:2026-2034 | so does the probe of the other station, which is answered |
| Exchanges.ProbeAnswerIsOut | datalink_arq/arq_fsm.c:2061-2074 | having answered, a station is receiver or sender as before |
| Exchanges.ProbeIsMissed | datalink_arq/arq_fsm.c:2035-2058 | the first four misses lead to another probe |
| Exchanges.FifthProbeIsMissed | datalink_arq/arq_fsm.c:2035-2058 | the fifth to a DISCONNECT |
| Exchanges.HangUpGoesOut | datalink_arq/arq_fsm.c:1173-1216 | DISCONNECT goes out after the guard and once for each retry |
| Exchanges.HangUpIsAnswered | datalink_arq/arq_fsm.c:1281-1290 | a connected station answers it with its own |
| Exchanges.HangUpAnswerIsOut | datalink_arq/arq_fsm.c:863-881 | and is through when that is out |
| Exchanges.HangUpIsHeard | datalink_arq/arq_fsm.c:1188-1193 | and so is the first on hearing that |
| Exchanges.ListeningIsRemembered | datalink_arq/arq_fsm.c:2219-2226 | the listen intent is kept in every state outside a connection and acted on in the idle ones |
| Deliveries.FrameIsHeard | datalink_arq/arq_fsm.c:593-618 | the frame expected is delivered and no other; the ACK waits for the guard after the last frame of a burst, one and a half frames after another; peer mode and SNR are noted |
| Deliveries.AckGoesOut | datalink_arq/arq_fsm.c:669-684 | the ACK names the next frame expected and has HAS_DATA exactly if the ring is not empty |
| Deliveries.AckIsOut | datalink_arq/arq_fsm.c:1904-1931 | a receiver that announced data takes the sender's role, unless it knew the last frame already |
| Deliveries.ConfirmationIsOut | datalink_arq/arq_fsm.c:1891-1906 | a caller that confirmed the ACCEPT with an ACK has the sender's role |
| Deliveries.AckIsHeard | datalink_arq/arq_fsm.c:1472-1545 | an ACK of the first k frames confirms those; the rest goes out again; with none left the roles go by HAS_DATA; the outcome is recorded as clean only for a window sent once |
| Deliveries.StaleAckIsIgnored | datalink_arq/arq_fsm.c:1472-1479 | any other ACK changes only what is known of the peer |
| Deliveries.NewDataConfirms | datalink_arq/arq_fsm.c:1674-1697 | new DATA while waiting for an ACK empties the window and is delivered |
| Deliveries.OldDataRepeats | datalink_arq/arq_fsm.c:1699-1712 | known DATA brings the whole window on the air again at once |
| Deliveries.WriteWakesSender | datalink_arq/arq_fsm.c:1372-1395 | what the application writes sends an idle sender on its way |
| Deliveries.BurstIsDelivered | datalink_arq/arq_fsm.c:686-1931 | a round without loss, of a burst of 1 to 5, from any agreement of window and receiver: all that was ever read is delivered, the window is empty, the ring has lost just what was read, and the next sender is determined |
| Patience.EveryRetryIsUsed | datalink_arq/arq_fsm.c:1057-1211 | a station in CALLING, ACCEPTING or DISCONNECTING that nobody answers transmits its frame once for each retry left, at the intervals of its state |
| Patience.CallerGivesUp | datalink_arq/arq_fsm.c:882-1079 | so a caller transmits 1 + callRetries CALLs and only then gives up |
| Patience.ThenItEnds | datalink_arq/arq_fsm.c:1057-1211 | what it is left in |
| Patience.CallRepeated | datalink_arq/arq_fsm.c:1113-1118 | a CALL heard again renews the retries |
| Patience.UnansweredBurstRepeats | datalink_arq/arq_fsm.c:1561-1596 | while retries are left an unanswered window goes out again in full |
| Patience.ExhaustedRoundEnds | datalink_arq/arq_fsm.c:1597-1637 | with none left the call is given up if nothing was confirmed for the configured time or a disconnect is pending |
| Patience.ExhaustedRoundPersists | datalink_arq/arq_fsm.c:1638-1665 | otherwise the window goes out again, the retries are renewed and the failures count as two at least |
| StationSteps.InternalStep | datalink_arq/arq_fsm.c:1218-2173 | on its own, a station with burst 1 never starts to claim the turn, never loses its window, and never queues a misleading frame |
| StationSteps.HearData | datalink_arq/arq_fsm.c:1372-1712 | DATA is delivered if expected; otherwise the receiver gives the turn away or changes nothing |
| StationSteps.HearStep | datalink_arq/arq_fsm.c:1218-2173 | every frame the peer can send has one of the listed effects |
| TwoStations.AckCounts | datalink_arq/arq_fsm.c:1472-1479 | an ACK that confirms the one frame in flight names a frame the peer has delivered |
| TwoStations.FreshIsNext | datalink_arq/arq_fsm.c:606-618 | a frame with the expected number is exactly the chunk the receiver lacks |
| TwoStations.ControlledKeepsPair | datalink_arq/arq_fsm.c:1717-1746 | an explicit ACK or a MODE_REQ taken as an implicit one empties the window only if its frame was delivered |
| TwoStations.AcceptedKeepsPair | datalink_arq/arq_fsm.c:1674-1697 | new data taken as an implicit ACK empties the window only if its frame was delivered |
| TwoStations.ActKeepsPair | datalink_arq/arq_fsm.c:1465-1747 | any step of either station keeps the pair in order |
| Calls.CallerConnects | datalink_arq/arq_fsm.c:1011-1055 | hearing the ACCEPT leaves the caller with data to send or an ACK to send |
| Calls.CalleeConnects | datalink_arq/arq_fsm.c:1081-1111 | the first DATA or ACK connects the callee into an ordered pair |
| Calls.CallerHears | datalink_arq/arq_fsm.c:1292-1304 | a repeated ACCEPT asks an idle caller for another ACK and breaks nothing |
| Calls.EveryRunIsSafe | datalink_arq/arq_fsm.c:1465-1747 | in every call, over any losses, timing and mode choices, the bytes delivered each way are a prefix of the bytes read from the other side's TX ring |
| Calls.ShippedIsSafe | datalink_arq/arq_protocol.c:80-90 | in particular with the burst sizes and the mode selection as shipped, for narrow and full-width sessions |
| Calls.EveryAckIsTrue | datalink_arq/arq_fsm.c:1465-1747 | every window emptied by an ACK, explicit or implicit, had been delivered in full |
| GoBackN.SameNumberSameFrame | datalink_arq/arq_fsm.c:606-618 | within the reach of the channel equal sequence numbers modulo 256 mean equal frames |
| GoBackN.AckCountsExactly | datalink_arq/arq_fsm.c:1472-1479 | a cumulative ACK confirms exactly the frames delivered when it was sent |
| GoBackN.BurstWithin | datalink_arq/arq_fsm.c:762-780 | a burst carries exactly the chunks of the window |
| GoBackN.HeadIsNext | datalink_arq/arq_fsm.c:606-618 | the frame at the head of the channel is delivered only if it is the next one |
| GoBackN.StepKeeps | datalink_arq/arq_fsm.c:686-781 | every step, with any loss and delay, keeps the order |
| GoBackN.EveryRunIsInOrder | datalink_arq/arq_fsm.c:686-781 | for bursts of 1 to 5 and lossy FIFO channels, what is delivered is a prefix of what is read, and every frame slid out of the window was delivered once and in order |
| ModeSelection.ChoiceIsFastest | datalink_arq/arq_fsm.c:400-481 | the floor after eight failures in a row; no change for a backlog of one frame; else the fastest of the modes that the bandwidth, the SNR in decibels and the backlog in bytes carry |
| ModeSelection.ChangeIsAskedFor | datalink_arq/arq_fsm.c:528-571 | a change is asked for if and only if the choice differs and is slower or the hold is over; leaving a lost link starts a hold of six seconds |
| ModeSelection.RecordAddsUp | datalink_arq/arq_fsm.c:339-389 | within its bounds the OLLA offset moves by 3/7 dB for every clean delivery and -1 dB for every loss, and the run of failures is that at the end of the series |
| ModeSelection.OneOutcome | datalink_arq/arq_fsm.c:339-389 | a loss on a forward link 2 dB above the floor changes nothing; else offset, run of failures and ladder move by one step |
| ModeSelection.ChoiceFits | datalink_arq/arq_fsm.c:400-481 | a narrow session is never sent to a wideband mode |
| ModeSelection.ChoiceIsStable | datalink_arq/arq_fsm.c:429-431 | short of a lost link the mode chosen is chosen again: no oscillation on one reading |
| ModeSelection.UpgradeHolds | datalink_arq/arq_fsm.c:429-431 | after an upgrade, a loss of SNR within the hysteresis does not bring the mode down |
| ModeSelection.RecordStaysBounded | datalink_arq/arq_fsm.c:339-389 | over any series of outcomes the OLLA offset and the ladder stay in range, and repeats on a fine forward link change nothing |
| ModeSelection.FailuresReachFloor | datalink_arq/arq_fsm.c:404-415 | a long run of failures leads to the floor |
| Teardowns.HangUpIsPutOff | datalink_arq/arq_fsm.c:1245-1279 | a disconnect is put off exactly when data is queued or in flight |
| Teardowns.RepeatPostpones | datalink_arq/arq_fsm.c:1245-1279 | a further request before the due time moves the due time and changes nothing else, or is answered at once |
| Teardowns.TeardownIsBounded | datalink_arq/arq_fsm.c:1222-1279 | once put off it stands while connected, due drainMs after the last request before the due time, and the first event of the session at or after the due time begins the air-side teardown |
| Teardowns.EventsBeforeDue | datalink_arq/arq_fsm.c:1222-1279 | however long the series of events, each one handled in CONNECTED came before the due time of its moment or belonged to another session |
| Teardowns.NobodyOutlivesIt | datalink_arq/arq_fsm.c:1246-1259 | so in CONNECTED no event of the session is handled drainMs or more after the last request |
| Teardowns.PostponedForever | datalink_arq/arq_fsm.c:1246-1279 | but requests repeated in time, with data to send, move the deadline as far as the host likes |
| SilentPeer.WaitAckFires | datalink_arq/arq_fsm.c:1561-1666 | each retry or each exhausted round shrinks the measure, or the call is being cleared |
| SilentPeer.IdleIrsFires | datalink_arq/arq_fsm.c:1777-1813 | each hold shrinks the inactivity budget or starts the probes |
| SilentPeer.KeepaliveWaitFires | datalink_arq/arq_fsm.c:2035-2058 | each missed probe counts |
| SilentPeer.NeverKeepalive | datalink_arq/arq_fsm.c:1306-1313 | TIMER_KEEPALIVE is never armed in a connected state |
| SilentPeer.SilentStepShrinks | datalink_arq/arq_fsm.c:870-2237 | every deadline and every end of a transmission ends the call or shrinks an explicit measure |
| SilentPeer.SilentNeverStuck | datalink_arq/arq_fsm.c:136-142 | until then something is always left to happen |
| SilentPeer.SilentRunEnds | datalink_arq/arq_fsm.c:1561-1665 | with a silent peer every run from CALLING, ACCEPTING, DISCONNECTING or any waiting data-flow state other than IDLE_ISS reaches LISTENING or DISCONNECTED |
| Channel.Queue.Add | common/queue.c:77-95 | appends, or -1 at capacity |
| Channel.Queue.Remove | common/queue.c:99-115 | removes the oldest item, or nothing from an empty queue |
| Channel.BufferedChan.SendSection | common/chan.c:243-278 | one pass with the mutex held does what the state machine says to queue, counters and waiting threads, with the outcomes of Channel.SendOutcome |
| Channel.BufferedChan.RecvSection | common/chan.c:280-312 | likewise, with the outcomes of Channel.RecvOutcome |
| Channel.BufferedChan.CloseSection | common/chan.c:185-204 | closes and wakes everybody, or -1 |
| Channel.StepKeeps | common/chan.c:243-312 | every step keeps the invariant |
| Channel.SendOutcome | common/chan.c:243-268 | a send fails exactly on a closed channel, blocks exactly on a full open one, and else is accepted, with the item behind the others |
| Channel.RecvOutcome | common/chan.c:280-304 | a receive fails exactly on a closed empty channel, blocks exactly on an open empty one, and else takes the oldest item not yet taken |
| Channel.CloseOutcome | common/chan.c:185-204 | the first close closes and wakes all, a further one fails |
| Channel.EveryRunIsSafe | common/chan.c:243-312 | no wakeup is lost, with any number of threads, overtaking and spurious wakeups; items come out in order, none lost or doubled |
| Channel.SomebodyComes | common/chan.c:270-308 | an item never waits with all receivers asleep, nor a free place with all senders asleep |
| Channel.ClosedDrains | common/chan.c:179-204 | after the close exactly the items left come out, then the error, and nothing is accepted |
| ActionQueue.Queue.Enqueue | datalink_arq/arq_modem.c:55-71 | appends, or -1 when full or shut down |
| ActionQueue.Queue.Dequeue | datalink_arq/arq_modem.c:93-132 | takes the first action that is no payload, else the head; a payload only if every action queued is one; the others keep their order |
| ActionQueue.Queue.ShiftUp | datalink_arq/arq_modem.c:117-128 | the in-place shift, through wraparound |
| ActionQueue.EachClassIsFifo | datalink_arq/arq_modem.c:55-133 | over any run, the payloads come out in the order they went in, and so do the others, none lost or doubled |
| ActionQueue.Queue.IsFifo | datalink_arq/arq_modem.c:55-133 | the same of every queue object, for the operations it has seen |
| ActionQueue.PayloadWaits | datalink_arq/arq_modem.c:98-113 | whatever was queued and taken before, the next action taken is a payload only if all those queued are |
| ByteRing.Ring.Size | common/ring_buffer_posix.c:92-112 | the size, consistent with head, tail and the full flag |
| ByteRing.Ring.FreeSize | common/ring_buffer_posix.c:115-135 | size plus free size is the capacity |
| ByteRing.Ring.Write | common/ring_buffer_posix.c:619-657 | appends exactly len bytes, or has to wait and changes nothing |
| ByteRing.Ring.Read | common/ring_buffer_posix.c:579-617 | takes exactly the oldest len bytes, or has to wait and changes nothing |
| ByteRing.Ring.ReadAll | common/ring_buffer_posix.c:487-524 | takes everything there is |
| ByteRing.Ring.CopyIn | common/ring_buffer_posix.c:634-642 | the split copy, also for a length equal to the capacity |
| ByteRing.Ring.Put | common/ring_buffer_posix.c:401-429 | one byte in |
| ByteRing.Ring.Get | common/ring_buffer_posix.c:431-459 | one byte out |
| ByteRing.BytesAreConserved | common/ring_buffer_posix.c:487-657 | over any run, bytes read followed by bytes held are the bytes written |
| ByteRing.Ring.Conserves | common/ring_buffer_posix.c:487-657 | the same of every ring object, for the operations since it was cleared |
| Kiss.Reader.Read | datalink_broadcast/kiss.c:40-83 | one byte through the parser, and the length of the frame it ends |
| Kiss.WriteFrame | datalink_broadcast/kiss.c:85-109 | the escaped frame, within 2n+3 bytes |
| Kiss.EncodedLength | datalink_broadcast/kiss.c:85-109 | between n+3 and 2n+3 bytes |
| Kiss.EncodedIsRead | datalink_broadcast/kiss.c:40-109 | a written frame is read back as that frame |
| Kiss.PendingEscape | datalink_broadcast/kiss.c:47-75 | after a frame broken off behind an escape, the next frame is read back exactly if it does not begin with TFEND or TFESC |
| Kiss.EscapeIsLeftPending | datalink_broadcast/kiss.c:47-75 | a stream that leaves the parser so, and the frame after it read with a wrong byte |
| Kiss.StreamIsRead | datalink_broadcast/kiss.c:40-109 | from reset, a stream of written frames is read back as those frames |
| Kiss.AnyFrameIsRead | datalink_broadcast/kiss.c:40-83 | a frame with any command byte and any length is read as its first 756 bytes under the low half of the command, and as nothing for an unknown command or no payload |
| Kiss.EscapedIsClean | datalink_broadcast/kiss.c:85-109 | inside a frame no byte is FEND, and FESC is followed by one of its two replacements only |
| Broadcast.Port.ProcessDecodedFrame | data_interfaces/tcp_interfaces.c:869-922 | rewrites, cuts, pads and queues a decoded frame, or discards it, and latches the reply command |
| Broadcast.InjectPrefix | data_interfaces/tcp_interfaces.c:885-901 | header, length and payload, moved in place and cut to the unsigned difference |
| Broadcast.GetTxPayload | data_interfaces/tcp_interfaces.c:943-979 | which bytes and which command go to the client |
| Broadcast.WrapRoundTrip | data_interfaces/tcp_interfaces.c:869-979 | an AX.25 frame comes back with its command exactly if it fits, whatever the latch |
| Broadcast.NoRoomForPrefix | data_interfaces/tcp_interfaces.c:885-909 | with a frame size of 1 or 2, where the unsigned difference wraps around, every AX.25 frame is discarded, and with no other |
| Broadcast.RawRoundTrip | data_interfaces/tcp_interfaces.c:904-978 | a raw frame comes back padded, a longer one is discarded |
| Broadcast.PrefixBytes | data_interfaces/tcp_interfaces.c:892-901 | the three bytes in front of an AX.25 frame: 0x83 or 0x81 by its command, and its length, high byte first |
| Broadcast.PrefixedFrame | data_interfaces/tcp_interfaces.c:952-964 | a frame with a prefix is delivered by the prefix alone |
| Broadcast.LegacyFrame | data_interfaces/tcp_interfaces.c:966-978 | a frame without one goes whole to a client that sends raw frames, and without its header byte to one that sends AX.25 |
| Broadcast.EndToEnd | data_interfaces/tcp_interfaces.c:869-979 | client to modem to client: same payloads, commands and order |
| ChunkFeeder.Decoder.ConsumeChunk | modem/modem.c:1176-1294 | an empty chunk or a missing decoder is left alone; else, for any answers of the demodulator, the samples taken are the earlier ones followed by the part of the chunk fed, all of it unless the guard is hit or the decoder goes missing; feeding ends early only on an answer that wants more than there is, or wants nothing and has decoded nothing, and with a chunk that fits into the buffer on the first such answer; with a demodulator that keeps wanting samples the guard is hit only if there are samples for all its steps |
| ChunkFeeder.Decoder.FeedPiece | modem/modem.c:1208-1218 | as much as there is space for, never more than the buffer holds |
| ChunkFeeder.Decoder.Drop | modem/modem.c:1247-1257 | consumed samples leave from the front, the rest keep their order |
| Dictionary.DictionaryHash | common/iniparser/dictionary.c:111-130 | the hash of a key |
| Dictionary.KnownHashes | common/iniparser/dictionary.c:111-130 | hashes of known keys, one with a character that is negative as a char |
| Dictionary.Dict.Get | common/iniparser/dictionary.c:209-230 | the value of a key, or the default exactly when the key is absent: no stored hash hides a key |
| Dictionary.Dict.Set | common/iniparser/dictionary.c:258-304 | the map with the key set, growing when full |
| Dictionary.Dict.Unset | common/iniparser/dictionary.c:317-352 | the map without the key |
| Dictionary.Dict.Grow | common/iniparser/dictionary.c:61-94 | the same map in twice the space |
| Dictionary.Dict.FreeSlot | common/iniparser/dictionary.c:292-297 | the wrapping search ends at a free slot |
| Dictionary.SomeFree | common/iniparser/dictionary.c:292-297 | with fewer occupied slots than slots there is a free one |

## Left out

- Floating point: deadlines are whole milliseconds; SNR and the OLLA offset are reals. The smoothing of the local SNR is not computed: a frame carries any reading.
- Clocks: each dispatch reads the time once, and time does not run back; uptime is not zero when an event is dispatched.
- Threads: a dispatch is atomic with respect to writes to the TX ring; each critical section of the channel and of the byte ring is one step. The waits of the byte ring and of the action queue are their outcome only.
- Integer widths: sequence numbers wrap at 256 and the coder works below 2^32 as in the code; counters and sizes are unbounded.
- SessionObject.ArqSession: the scalar fields of arq_session_t are one record that its methods replace, the window is an array updated in place; callbacks are fields holding the TX ring, the modem's queue and what was delivered. Notifications to the TNC, timing records and logging are not modelled.
- External writes to the session: arq_set_active_modem_mode storing the payload mode, link metrics, and ABORT clearing the TX ring do not occur; the TX ring is emptied only when a call ends.
- Calls.EveryRunIsSafe: burst size 1 as in the shipped mode table, control frames that are heard at the end of their transmission or not at all, and no third station; a station with a frame queued and not yet keyed hears nothing; implicit ACKs with longer bursts are not claimed to be true ones.
- GoBackN.EveryRunIsInOrder: the sender hears nothing it would take for an implicit ACK while it waits for one, and the channels do not reorder.
- SilentPeer.SilentRunEnds: not from IDLE_ISS, from the confirming ACK of a caller without data, or from answering a probe as sender, where an idle sender without a backlog waits for its application.
- Delivery of all data, liveness of traffic both ways, and agreement on the payload mode after lost MODE_ACKs are not promised by the code and not claimed.
- CallFrames.CallRoundTrip: the CRC of the destination callsign is a parameter; freedv_gen_crc16 is not part of this model.
- Broadcast.Port.ProcessDecodedFrame: with a frame size of 1 or 2 an AX.25 frame of more than 753 bytes, which does not fit the buffer behind the prefix, is not modelled.
- Broadcast.InjectPrefix: the same frames.
- Channel: unbuffered channels and chan_select; allocation failures there and in Dictionary.
- ChunkFeeder: the demodulator, its metrics and the processing of decoded frames; only its answers count.
- Dictionary.DictionaryHash: keys are byte strings and char is signed, as on the platforms the original runs on; NULL keys and dictionaries are not modelled.
- Audio, FreeDV, radio control, sockets, the user interface, configuration files and the Windows and shared-memory variants of the byte ring.
