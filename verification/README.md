# Verification of the TCP model and the Ethernet frame extractor

This project models two cores of the repository in Dafny and proves what they are for.

**The TCP engine** (`src/verif/pyhdl/tcp_model`) is a synchronous RFC 9293 endpoint: connection machine, send path,
receive path, timers, arithmetic modulo 2^32. `TcpEngine.dfy` writes it as the source does, as an object whose methods
update its fields step by step, with its loops; every method is proved to take the object's value to what `EngineSpec.dfy`
says. The properties are proved about those functions, over whole runs:

- `EngineInvariant.dfy` to `EngineRuns.dfy`: an invariant of every entry point against any peer. The theorems are drawn
  from it: conservation, no lost wakeup, exact cutting, state and flag coupling (`RunTheorems.dfy`), Karn's rule read of the
  wire (`Karn.dfy`), the give-up bound (`GiveUp.dfy`), receive-window discipline (`WindowEdge.dfy`, `ReceiveWindow.dfy`,
  `EdgeStride.dfy` for passive openers, `ActiveEdge.dfy` for active ones).
- `Corners.dfy` and `Witness.dfy`: where a careless statement about the engine fails. The first says exactly when, the
  second builds runs of a fresh engine in which it does.
- `Reassembly.dfy`: reassembly is maximal and does not depend on the order of arrival.
- `HonestPeer.dfy`, `HonestSteps.dfy`, `TwoEngines.dfy`: two engines over a channel that loses, delays, duplicates and
  reorders. Stream integrity, close integrity and agreement on sequence numbers.
- `FifoWire.dfy`: on the lossy channel with a constant positive delay the segment lifetime assumption of section 3.4 of
  RFC 9293 is itself a theorem. `Flights.dfy`: on the scheduler they share, the deliveries of that channel stay live and
  fire in the order they were sent; `LossyWire.dfy` is the channel as an object. `TimedWire.dfy`: both engines, the channel
  and the clock as one machine, whose runs are runs of the channel and in time for every timer.
- `UserCalls.dfy`: the same integrity in terms of what SENDs were given and RECEIVEs returned, and which error is reported when.
- `Handshake.dfy`, `ConnectionEnd.dfy`, `Resets.dfy`: how a connection opens, ends and is reset, between two engines.
- `TextArrival.dfy`, `WindowUpdate.dfy`, `SegmentSizes.dfy`: exactly what of a segment is taken, which acknowledgements move
  the window and what an opening window sets going, and how large segments get.
- `Timing.dfy`: from when, and for how long, every timer runs. `Keepalive.dfy`: probes are answered by a live peer and a
  dead one is given up.
- `EngineFacts.dfy`, `WireLog.dfy`: what the engine's functions leave alone, and how they start timers.

**The Ethernet frame extractor** (`src/rtl/ether.sv`) finds frame ends only by the CRC-32 residue. `Crc32.dfy` proves that
the residue is read exactly on a frame check sequence; `EtherExtraction.dfy` proves that any stream of frames, filler and
stalls gives exactly the frames; `EtherSoundness.dfy` proves what a good report is worth for any bytes whatever.
`Ether.dfy` is the register machine, updated in place at each clock.

Supporting parts: the wire format (`SegmentCodec.dfy`), the second codec that must agree with it (`TcpItem.dfy`), the
virtual-time scheduler (`Scheduler.dfy`, `ManualScheduler.dfy`) and the round-trip estimator (`RttEstimator.dfy`).

## How the model reads

- Positions. Every sequence number has an unwrapped position: the SYN is 0, byte i of the stream is 1 + i, the FIN
  follows. `SentEnd` and `RecvPos` are SND.NXT and RCV.NXT unwrapped, `hist.unaPos` is SND.UNA. These, `hist`, the
  positions in packets and blocks, `copies`, and the scheduler's `due` and `fired` are history: no operation reads them.
- `hist` over several attempts. A reset of a passive open starts the history of the attempt over (`BackToListen`), since
  the source drops what the application had handed over for it; integrity speaks of what was accepted since the engine last
  entered LISTEN. `hist.since` is how much was on the wire when the present attempt began. One `cfg.iss` serves every
  attempt of an engine; the source does that when an initial number is configured, and draws a new one for each otherwise
  (`engine.py:1037-1040`).
- `peer`. Invariants take `None` for any peer, or the initial sequence number of a known honest one.
- The 2^32 wrap-around is in the model: positions are tied to the 32-bit fields by remainders, never assumed away.
- Runs. `Allowed` says what the environment may do: one connection per fresh engine (the source keeps state such as
  `peer_fin` across CLOSED), only live timers fire, segments have a 16-bit window, and the persist timer only probes while
  the probes unanswered so far leave room in half the sequence space. Every other call, segment and order is covered.
- `HonestPeer.Timely` is the lifetime assumption: a packet other than a reset arrives while its numbers are within 2^31 of
  the receiver's. `FifoWire` does without it.
- `hide` in a proof tells the solver which definitions the proof does not need.

## Where the code departs from its documentation or from what one expects

- The diagram in `src/verif/pyhdl/tcp_model/docs/ARCHITECTURE.md` has an arc FIN-WAIT-1 to TIME-WAIT. The code takes two
  changes, by way of FIN-WAIT-2 (`engine.py:541-584`); `SendInvariant.Arc` has no such arc, and `OnlyArcs` proves that none
  is taken.
- `src/rtl/ether.sv:19-22` calls MAX_FRAME_BYTES the largest accepted byte count. A frame one byte longer is reported good
  as well (`ether.sv:144`, `270-281`); `GoodIffWithinLimit` gives the exact limit.
- A timer may survive CLOSED: the persist timer (`engine.py:905-908`, `1023-1032`). `TimersAfterClosing` says exactly when,
  and `PersistSurvives` is a run.
- Data on a SYN that crosses ours is stored whatever the window (`engine.py:459-461`). `SynDataFillsBuffer` says exactly when
  the buffer then holds more than its size, and `BufferOverfull` is a run.
- Karn's rule (`engine.py:625-632`, `728-733`) speaks of retransmissions. A SYN may be on the wire twice without one, in a
  simultaneous open (`SimultaneousOpenKeepsTiming`) or when a listener with a configured initial number is reset and
  opened again (`AnsweredTwice` is a run); `TimedOnce` says exactly when.
- The right edge an active opener records with its SYN is counted from RCV.NXT before the peer's number is known
  (`engine.py:597-602`). Avoidance still moves its edge in strides exactly if the peer's SYN moves RCV.NXT forward in serial
  arithmetic (`ActiveStridesExactly`); otherwise the record lags and the edge creeps (`EdgeCreeps` builds a run for every
  such number).
- A refused OPEN still binds the ports and the user timeout it was given (`engine.py:251-263`); `OpenTakes` says so.
- In LISTEN without a foreign socket SEND buffers the data before it refuses the call (`engine.py:301-307`); so does the
  model.

## Model

| member | source | states |
|---|---|---|
| `TwoEngines.StreamIntegrity` | src/verif/pyhdl/tcp_model/core/engine.py:673-849 | in every run of two fresh engines over a channel that loses, delays, duplicates and reorders, what either side delivered is a prefix of what the other side's application handed to SEND, across 2^32 wraparound |
| `TwoEngines.FinComesLastAndOnce` | src/verif/pyhdl/tcp_model/core/engine.py:541-588 | each side consumes the peer's FIN at most once, and only when it has delivered everything the peer sent |
| `TwoEngines.AcknowledgedFinMeansAllDelivered` | src/verif/pyhdl/tcp_model/core/engine.py:706-756 | either side, its own FIN acknowledged, knows that the peer delivered its application's whole stream and saw the end |
| `TwoEngines.EnginesAgree` | src/verif/pyhdl/tcp_model/core/engine.py:392-466 | once both sides are synchronized each IRS is the other's ISS, and SND.UNA <= RCV.NXT <= SND.NXT holds in both directions, unwrapped and for the 32-bit variables, for three-way and simultaneous open alike |
| `TwoEngines.LastAckClosesKnowing` | src/verif/pyhdl/tcp_model/core/engine.py:541-550 | either side leaves LAST-ACK for CLOSED, other than by a reset, only when the peer has delivered everything and seen the end |
| `TwoEngines.ReachableFlipped` | src/verif/pyhdl/tcp_model/core/engine.py:238-1035 | the two sides are interchangeable: with a state of the system its mirror image is reached too |
| `TwoEngines.MovedKeeps` | src/verif/pyhdl/tcp_model/core/engine.py:365-588 | every step of the two-engine system (call, timer, arrival of any packet ever sent) keeps the system invariant |
| `UserCalls.ReadIsPrefixOfWritten` | src/verif/pyhdl/tcp_model/core/engine.py:283-326 | stream integrity of the calls: in every run of two fresh engines over that channel, the bytes the RECEIVEs of either side returned, in order, are a prefix of the bytes the SENDs of the other side handed over since it last entered LISTEN |
| `UserCalls.AcknowledgedMeansRead` | src/verif/pyhdl/tcp_model/core/engine.py:283-326 | a side whose FIN is acknowledged: what the other's RECEIVEs returned and what waits in its buffer is all that the SENDs here handed over |
| `UserCalls.CallsAreStreams` | src/verif/pyhdl/tcp_model/core/engine.py:283-335 | in every run of one engine against any peer: what it has accepted is the data of the SENDs not refused, since LISTEN was last entered; what RECEIVEs returned, followed by the buffer, is what was delivered, and a prefix of it once closed |
| `UserCalls.SendTakes` | src/verif/pyhdl/tcp_model/core/engine.py:283-312 | SEND is refused without a connection, when closing or closed by the user, or in LISTEN without a foreign socket; Done counts all of the data, and exactly what is taken is accepted |
| `UserCalls.ReceiveTakes` | src/verif/pyhdl/tcp_model/core/engine.py:314-335 | RECEIVE hands over the first bytes of the buffer, as many as asked for and there are, and leaves the rest; it is refused exactly when nothing can come any more |
| `UserCalls.ErrorsTellWhy` | src/verif/pyhdl/tcp_model/core/engine.py:988-1010 | every step reports an error only when it closes the connection, and then the one that belongs to what closed it and to the state |
| `TextArrival.TextTakenExactly` | src/verif/pyhdl/tcp_model/core/engine.py:553-588 | in every run of two engines, when a packet is let through to its text: the positions the receiver then holds, delivered or stored, are those it held and exactly those of the packet below its right edge; a FIN makes the end known; and the end is taken iff it is known and all before it delivered |
| `Handshake.OpenTakes` | src/verif/pyhdl/tcp_model/core/engine.py:238-281 | OPEN is refused exactly with a connection or attempt, or a passive one with a listener; ports are bound even then; else SYN-SENT or LISTEN |
| `Handshake.OpenSaysSyn` | src/verif/pyhdl/tcp_model/core/engine.py:238-275 | an active OPEN binds the ports it is given and puts one SYN on the wire, with our initial number, no acknowledgement and our segment size |
| `Handshake.ListenAnswersSyn` | src/verif/pyhdl/tcp_model/core/engine.py:392-415 | a listener takes over port, number, window and segment size from the SYN it answers |
| `Handshake.ThreeSegmentsOpen` | src/verif/pyhdl/tcp_model/core/engine.py:392-466 | SYN, SYN-ACK and ACK open an active and a passive side in any configuration: each expects the number the other sends next, has its SYN acknowledged, and may send what the other offered last |
| `Handshake.CrossingSynsOpen` | src/verif/pyhdl/tcp_model/core/engine.py:452-466 | so do two SYNs that cross, a SYN-ACK and an acknowledgement from each side |
| `Handshake.SynAckTextTaken` | src/verif/pyhdl/tcp_model/core/engine.py:439-451 | text and FIN that come with the answer to our SYN are delivered as far as the window takes them |
| `ConnectionEnd.CloseAsksForFin` | src/verif/pyhdl/tcp_model/core/engine.py:341-351 | CLOSE: the exact refusals; a connection not opened yet is dropped; else all that was accepted stays and the FIN is out or waits, with a timer that will wake it |
| `ConnectionEnd.CloseIsKept` | src/verif/pyhdl/tcp_model/core/engine.py:706-722 | a CLOSE asked for is never forgotten while there is a connection, whatever happens |
| `ConnectionEnd.FinAfterAll` | src/verif/pyhdl/tcp_model/core/engine.py:706-722 | in every reached state a FIN that is out stands right behind all that was accepted |
| `ConnectionEnd.GivingUpSendsReset` | src/verif/pyhdl/tcp_model/core/engine.py:1004-1010 | ABORT, a timeout and a peer found dead all end in a reset at SND.NXT, from the states the source sends one from |
| `ConnectionEnd.GivingUpReachesPeer` | src/verif/pyhdl/tcp_model/core/engine.py:353-360 | that reset closes the side of a peer that has received all, and is reported there |
| `ConnectionEnd.AbortDrops` | src/verif/pyhdl/tcp_model/core/engine.py:353-360 | ABORT drops whatever connection there is, and is refused only without one |
| `Resets.ResetHonouredExactly` | src/verif/pyhdl/tcp_model/core/engine.py:425-497 | a reset closes the connection, or takes a passive opener back to LISTEN, iff it acknowledges our SYN or stands exactly at RCV.NXT; any other changes nothing and is answered iff in the window or in TIME-WAIT |
| `Resets.ResetIsHonoured` | src/verif/pyhdl/tcp_model/core/engine.py:382-404 | the reset with which an engine answers a segment it has no connection for is one that the segment's sender honours, if it is still where it was |
| `Resets.StrayIsAnswered` | src/verif/pyhdl/tcp_model/core/engine.py:472-533 | out of the window, a SYN in it, an acknowledgement of what was never sent: one acknowledgement of where the engine is, field by field, and no other change |
| `Resets.PassesWithoutTrace` | src/verif/pyhdl/tcp_model/core/engine.py:365-410 | a segment for another port changes nothing in any state; nor does in LISTEN what is not for the listener, nor a reset without a connection; without one only a reset goes out |
| `Resets.LostAckIsRepeated` | src/verif/pyhdl/tcp_model/core/engine.py:485-489 | a packet that was received already is answered with one acknowledgement, which tells its sender all that was received |
| `FifoWire.InFlightIsTimely` | src/verif/pyhdl/tcp_model/ports/net_port.py:91-117 | on the channel with a constant positive delay every packet in flight is within 2^31 of what its receiver expects: the segment lifetime assumption is a theorem there |
| `FifoWire.FifoIsTimely` | src/verif/pyhdl/tcp_model/ports/net_port.py:60-117 | every state reached over that lossy channel is reached by timely deliveries, so all two-engine theorems hold without the assumption |
| `FifoWire.FifoIntegrity` | src/verif/pyhdl/tcp_model/ports/net_port.py:60-117 | stream and close integrity of both sides over that channel, with no assumption on delays |
| `FifoWire.ArrivalKeepsLink` | src/verif/pyhdl/tcp_model/ports/net_port.py:110-117 | what the receiver holds after an arrival is a piece of the sender's stream as it was when that packet was sent, and it knows no later acknowledgement |
| `LossyWireClass.LossyWire.SendFromA` | src/verif/pyhdl/tcp_model/ports/net_port.py:91-117 | in place: counted, and dropped or scheduled with the constant delay as the filter says; what arrived and what is in flight stay exactly the kept segments in order |
| `LossyWireClass.LossyWire.SendFromB` | src/verif/pyhdl/tcp_model/ports/net_port.py:91-117 | in place: the other direction |
| `LossyWireClass.LossyWire.ArriveAtB` | src/verif/pyhdl/tcp_model/ports/net_port.py:110-117 | in place: when the scheduler has taken the timer of a delivery off its heap, it is that of the one sent first of those in flight; its segment arrives, once, and wire and scheduler agree again |
| `LossyWireClass.LossyWire.ArriveAtA` | src/verif/pyhdl/tcp_model/ports/net_port.py:110-117 | in place: the other direction |
| `Flights.FirstFires` | src/verif/pyhdl/tcp_model/ports/net_port.py:110-117 | the delivery whose timer the scheduler fires is the one sent first of its direction, and the others stay live |
| `Flights.ArrivesInOrder` | src/verif/pyhdl/tcp_model/ports/net_port.py:91-117 | over any run of deliveries, other timers started, cancelled, fired or passed over, and time passing: what arrived and then what is under way is what was sent, in order and once |
| `TimedWire.TimedIntegrity` | src/verif/pyhdl/tcp_model/ports/net_port.py:60-117 | every state of the machine of two engines, channel and clock is one of the lossy channel, with stream integrity and no deadline behind the clock |
| `TimedWire.SchedulerIsInTime` | src/verif/pyhdl/tcp_model/ports/scheduler.py:35-74 | a scheduler with a live timer for every deadline of the machine fires when the machine may: nothing is due before |
| `TimedWire.FiringIsTurn` | src/verif/pyhdl/tcp_model/ports/net_port.py:110-117 | when it fires a delivery, the machine may take the turn in which the packet sent first arrives |
| `EngineRuns.StepOk` | src/verif/pyhdl/tcp_model/core/engine.py:238-1035 | every entry point, called in any order on any arguments and segments, keeps the engine invariant |
| `EngineRuns.RunOk` | src/verif/pyhdl/tcp_model/core/engine.py:238-1035 | the invariant holds after every run of a fresh engine, whatever the peer sends |
| `RunTheorems.NothingLostNothingTwice` | src/verif/pyhdl/tcp_model/core/engine.py:620-753 | accepted bytes are the acknowledged ones, then the queued payloads, then the application buffer; the queue covers SND.UNA to SND.NXT without gap or overlap, also after partial acknowledgements |
| `RunTheorems.NoLostWakeup` | src/verif/pyhdl/tcp_model/core/engine.py:673-722 | a non-empty retransmission queue has a live RTO timer, and work left in a sending state waits for a shut window with the persist timer armed, a full window or Nagle with the RTO armed; the send path could do nothing more now |
| `RunTheorems.SettledIffFixpoint` | src/verif/pyhdl/tcp_model/core/engine.py:673-722 | calling the send path changes nothing if and only if the window is shut and probed, full, or Nagle holds a short tail, or nothing is left |
| `RunTheorems.NoForgottenAck` | src/verif/pyhdl/tcp_model/core/engine.py:642-655 | at most one segment waits for a delayed acknowledgement, and then its timer runs |
| `RunTheorems.LoopCutsExactly` | src/verif/pyhdl/tcp_model/core/engine.py:683-722 | the send loop of an engine whose send side is in order adds segments that continue the stream at SND.NXT; each carries exactly SND.MSS bytes, or ends exactly at SND.UNA + SND.WND, or is the last accepted data, and with Nagle is short only if nothing is outstanding; none ends beyond that window |
| `WindowUpdate.WindowUpdatedExactly` | src/verif/pyhdl/tcp_model/core/engine.py:530-540 | for any peer: an acceptable acknowledgement sets SND.WND, SND.WL1 and SND.WL2 iff its SEQ is above that of the last update, or the same and its ACK no lower, in unwrapped positions; else all three stay |
| `WindowUpdate.ReopenedWindowSends` | src/verif/pyhdl/tcp_model/core/engine.py:532-540 | an acknowledgement that reopens a shut window puts the next segment of the waiting data on the wire in the same step, unless probes fill the window or Nagle holds it |
| `WindowUpdate.ReadingReopensWindow` | src/verif/pyhdl/tcp_model/core/engine.py:324-330 | in every run, if the last the peer was told is that it may send nothing, the RECEIVE that makes room tells it at once; one that makes none sends nothing, and the offer stays noted |
| `WindowUpdate.ReadingIsQuiet` | src/verif/pyhdl/tcp_model/core/engine.py:324-330 | with no offer of nothing noted RECEIVE sends nothing |
| `SegmentSizes.SynBindsSize` | src/verif/pyhdl/tcp_model/core/engine.py:412-413 | after a SYN with a nonzero segment size no packet of that connection carries more, nor more than configured, whatever comes later |
| `SegmentSizes.SizesAgree` | src/verif/pyhdl/tcp_model/core/engine.py:436-437 | two engines never send each other a segment longer than either is configured for |
| `Timing.TimeoutsCountFromProgress` | src/verif/pyhdl/tcp_model/core/engine.py:854-880 | in every run retransmission timer and user timeout run iff something is outstanding; they count from when something first was or SND.UNA last moved, with the estimator's timeout, and run on through everything else |
| `Timing.TextIsAcknowledged` | src/verif/pyhdl/tcp_model/core/engine.py:642-655 | text let through is acknowledged at once, with all received, iff out of order or nothing new, or the end is taken, or one acknowledgement waits, or none is delayed; else one waits, with its timer |
| `Timing.DelayedAckIsSent` | src/verif/pyhdl/tcp_model/core/engine.py:653-655 | the timer of a delayed acknowledgement sends one |
| `Timing.ProbesGoOn` | src/verif/pyhdl/tcp_model/core/engine.py:910-933 | while the window stays shut each expiry of the persist timer sends exactly the next byte, and the intervals are min(2^k persist_min, persist_max) |
| `Timing.FinIsProbed` | src/verif/pyhdl/tcp_model/core/engine.py:919-933 | with all data sent the waiting FIN is the probe |
| `Timing.ProbingStarts` | src/verif/pyhdl/tcp_model/core/engine.py:899-903 | other than after a probe the persist timer starts with persist_min, and it runs whenever work waits for a shut window |
| `Timing.IdleCountsFromLastHeard` | src/verif/pyhdl/tcp_model/core/engine.py:365-370 | in ESTABLISHED idle time counts from the last segment for the connection, or from when it was established, with no probe counted |
| `Timing.UserTimeoutIsAsCalled` | src/verif/pyhdl/tcp_model/core/engine.py:297-298 | after any step the user timeout is what the last OPEN or SEND that gave one set, refused SENDs apart |
| `Timing.UserTimeoutExactly` | src/verif/pyhdl/tcp_model/core/engine.py:872-884 | a retransmission timeout ends in the user-timeout error iff one is set and has passed since what it counts from |
| `Timing.KeepaliveFiring` | src/verif/pyhdl/tcp_model/core/engine.py:950-983 | the keepalive timer only runs again while anything is outstanding; else one probe at SND.UNA - 1, and again after the interval, or the peer is given up after keepalive_count |
| `RunTheorems.FlagsFollowState` | src/verif/pyhdl/tcp_model/docs/ARCHITECTURE.md:56-92 | FIN sent iff a closing state, peer FIN taken iff CLOSE-WAIT, CLOSING, LAST-ACK or TIME-WAIT; FIN-WAIT-2 and TIME-WAIT mean own FIN acknowledged and nothing queued or after it; exactly TIME-WAIT has the 2*MSL timer |
| `RunTheorems.OnlyArcs` | src/verif/pyhdl/tcp_model/docs/ARCHITECTURE.md:56-92 | every reported state change is an arc of the diagram, from the state the changes before it led to |
| `RunTheorems.TimeWaitTimer` | src/verif/pyhdl/tcp_model/core/engine.py:472-483 | TIME-WAIT ends by its timer, an ABORT or an exact reset and by nothing else, and its timer is restarted by a FIN and by nothing else |
| `Corners.TimersAfterClosing` | src/verif/pyhdl/tcp_model/core/engine.py:1023-1035 | whatever event takes an open engine to CLOSED, no timer runs on except the persist timer, and that iff the send window was shut and work was left |
| `Witness.PersistSurvives` | src/verif/pyhdl/tcp_model/core/engine.py:905-908 | a run of a fresh engine, for every configuration, that ends CLOSED with the persist timer running |
| `Corners.SecondFinConsumed` | src/verif/pyhdl/tcp_model/core/engine.py:559-584 | in CLOSE-WAIT an arriving segment makes the engine consume another FIN iff it passes the checks of steps one to six and its FIN, or one noted earlier, stands at RCV.NXT: end-of-stream once needs an honest peer |
| `Witness.TwoFins` | src/verif/pyhdl/tcp_model/core/engine.py:559-584 | a run of a fresh engine in which two FINs are consumed |
| `Karn.CopiesOnWire` | src/verif/pyhdl/tcp_model/core/engine.py:620-633 | how often the last number of a queued segment is on the wire, counted over all packets sent |
| `Karn.TimedOnce` | src/verif/pyhdl/tcp_model/core/engine.py:625-632 | what is being timed lies between SND.UNA and SND.NXT, is in the queue with its first sending time and not retransmitted, and is on the wire exactly once iff it is neither a simultaneous open's SYN nor a SYN that an earlier attempt sent too |
| `Witness.AnsweredTwice` | src/verif/pyhdl/tcp_model/core/engine.py:988-1002 | a run of a fresh listener, reset and opened again, that ends with the same SYN-ACK on the wire twice and timed as sent once |
| `Karn.NoSampleFromRetransmission` | src/verif/pyhdl/tcp_model/core/engine.py:728-733 | whenever an arriving segment changes what the estimator knows, it is by one sample, the time since a queued segment was sent that was not retransmitted and is on the wire once, the two kinds of SYN excepted |
| `Karn.SimultaneousOpenKeepsTiming` | src/verif/pyhdl/tcp_model/core/engine.py:452-466 | after a simultaneous open the timed segment was sent once iff nothing was being timed before |
| `Karn.SampleTakenExactly` | src/verif/pyhdl/tcp_model/core/engine.py:727-733 | an acknowledgement let through gives the estimator the time since the timed segment was sent iff it covers that segment, and nothing otherwise |
| `Karn.SendIsMeasured` | src/verif/pyhdl/tcp_model/core/engine.py:620-633 | when a SEND puts data on the wire and nothing is timed, its first segment is, from that moment; what is timed stays so |
| `RunTheorems.SegmentsSurviveTheWire` | src/verif/pyhdl/tcp_model/core/engine.py:593-618 | everything an engine ever sends is read back unchanged from its bytes |
| `GiveUpBound.GivesUpExactlyThen` | src/verif/pyhdl/tcp_model/core/engine.py:872-897 | from a timer armed at t0 with interval r and no new acknowledgement, the engine retransmits exactly max_retransmits times and is closed at t0 + sum min(2^i r, rto_max), no later with a user timeout, whatever else happens |
| `GiveUpBound.TimeoutStep` | src/verif/pyhdl/tcp_model/core/engine.py:872-897 | one timeout sends the oldest entry again and doubles the interval, or closes when the count is used up |
| `GiveUpBound.SchedulerIsOnTime` | src/verif/pyhdl/tcp_model/ports/scheduler.py:58-74 | while the retransmission timer's handle is live, calls from outside and other timers come no later than its deadline, and it fires at its deadline |
| `TimedWire.TimedGivesUp` | src/verif/pyhdl/tcp_model/core/engine.py:872-897 | on the machine of two engines, channel and clock, as long as nothing new is acknowledged: side A is closed once the clock is past t0 + sum min(2^i r, rto_max), and without a user timeout not before |
| `Keepalive.DeadPeerGivenUp` | src/verif/pyhdl/tcp_model/core/engine.py:969-983 | an idle connection that is not answered sends exactly keepalive_count probes, one per expiry, and the next expiry closes it |
| `Keepalive.ProbeIsAnswered` | src/verif/pyhdl/tcp_model/core/engine.py:978-981 | the packet that a keepalive expiry puts on the wire, arriving at a synchronized peer in whatever state and whatever that has received, elicits an acknowledgement and otherwise only restarts the peer's keepalive |
| `WindowEdge.WindowNearFreeBuffer` | src/verif/pyhdl/tcp_model/core/engine.py:770-781 | raw - threshold < offered window <= raw |
| `ReceiveWindow.BufferNeverOverfull` | src/verif/pyhdl/tcp_model/core/engine.py:783-849 | the receive buffer never exceeds its size in any run, if no SYN without ACK that arrives in SYN-SENT carries more data than that |
| `ReceiveWindow.EdgeNeverMovesLeft` | src/verif/pyhdl/tcp_model/core/engine.py:593-602 | over any stretch of any run in which the connection is synchronized, the advertised right edges never move left |
| `ReceiveWindow.StepClimbs` | src/verif/pyhdl/tcp_model/core/engine.py:593-602 | every step keeps the buffer bound and the edges climbing, from the moment the peer's number is known |
| `EdgeStride.EdgeMovesInStrides` | src/verif/pyhdl/tcp_model/core/engine.py:770-781 | in every run of a passive opener with avoidance on, from one segment that advertises an edge to the next the edge stays, or advances by at least min(MSS, buffer/2), or by exactly one over a FIN consumed between them |
| `EdgeStride.StridingStep` | src/verif/pyhdl/tcp_model/core/engine.py:593-602 | every step keeps what that needs: the edge advertised last, and how far RCV.NXT and the stored blocks may be from it |
| `ActiveEdge.ForwardStrides` | src/verif/pyhdl/tcp_model/core/engine.py:597-602 | if the peer's SYN moves RCV.NXT forward or leaves it, in serial arithmetic, an active opener's edges move in strides from then on in every run; data that crosses with the SYN must fit the window offered first |
| `ActiveEdge.ActiveStridesExactly` | src/verif/pyhdl/tcp_model/core/engine.py:770-781 | for every reached SYN-SENT and every plain SYN-ACK: the edges move in strides in every later run iff its number moves RCV.NXT forward or leaves it, or the threshold is one |
| `Witness.OpenedStridesExactly` | src/verif/pyhdl/tcp_model/core/engine.py:597-602 | a fresh engine that opens and is answered with number irs: strides in every run iff irs + 1 is in the lower half of the sequence space, or the threshold is one |
| `Witness.EdgeCreeps` | src/verif/pyhdl/tcp_model/core/engine.py:597-602 | for every irs with irs + 1 in the upper half and every threshold of two or more, a run in which two consecutive edges are no stride apart |
| `Corners.SynDataFillsBuffer` | src/verif/pyhdl/tcp_model/core/engine.py:452-466 | in every reached SYN-SENT, a crossing SYN with data and then the acknowledgement of our SYN leave exactly that data in the buffer: it is within its size iff the data was |
| `Witness.BufferOverfull` | src/verif/pyhdl/tcp_model/core/engine.py:459-461 | a run of a fresh engine that ends with more in the buffer than its size |
| `Reassembly.MergeIsMaximal` | src/verif/pyhdl/tcp_model/core/engine.py:827-849 | merging delivers exactly the bytes up to the first uncovered position, keeps exactly the blocks beyond it, and stops |
| `Reassembly.MergeDependsOnCoverageOnly` | src/verif/pyhdl/tcp_model/core/engine.py:827-849 | delivered bytes and RCV.NXT depend only on which positions the stored blocks cover |
| `Reassembly.ArrivalOrderDoesNotMatter` | src/verif/pyhdl/tcp_model/core/engine.py:821-849 | consistent pieces stored in any order, any number of times, reassemble to the same delivery |
| `HonestSteps.DeliverHonest` | src/verif/pyhdl/tcp_model/core/engine.py:365-588 | a genuine packet within its lifetime leaves what the engine holds a piece of the peer's stream |
| `SeqNum.SerialOrder` | src/verif/pyhdl/tcp_model/core/seqnum.py:13-42 | all comparisons agree with integer order at distances below 2^31 |
| `SeqNum.SerialOrderFailsAtHalf` | src/verif/pyhdl/tcp_model/core/seqnum.py:13-42 | at distance 2^31 each of two numbers is below the other |
| `SeqNum.AcceptableUnwrapped` | src/verif/pyhdl/tcp_model/core/seqnum.py:54-67 | the four-case test is exactly: first or last sequence number in the unwrapped window |
| `SeqNum.AcceptableIsOverlap` | src/verif/pyhdl/tcp_model/core/seqnum.py:54-67 | a segment with content is acceptable iff it overlaps the window and does not both begin before it and end beyond it, which takes more than RCV.WND + 1 numbers |
| `TcpEngineClass.TcpEngine.constructor` | src/verif/pyhdl/tcp_model/core/engine.py:78-153 | in place: a new object has the fresh engine's value |
| `TcpEngineClass.TcpEngine.MakeSegment` | src/verif/pyhdl/tcp_model/core/engine.py:593-615 | in place: the segment built, and the advertised edge and zero-window mark it leaves |
| `TcpEngineClass.TcpEngine.SendAck` | src/verif/pyhdl/tcp_model/core/engine.py:635-640 | in place: one acknowledgement, delayed-ACK state cleared |
| `TcpEngineClass.TcpEngine.ScheduleAck` | src/verif/pyhdl/tcp_model/core/engine.py:642-651 | in place: delayed acknowledgement: count, timer or immediate answer |
| `TcpEngineClass.TcpEngine.EmitRstReply` | src/verif/pyhdl/tcp_model/core/engine.py:657-667 | in place: the reset that answers an unacceptable segment |
| `TcpEngineClass.TcpEngine.QueueAndSend` | src/verif/pyhdl/tcp_model/core/engine.py:620-633 | in place: send at SND.NXT, queue a copy, start RTT timing and the RTO |
| `TcpEngineClass.TcpEngine.SendPending` | src/verif/pyhdl/tcp_model/core/engine.py:673-722 | in place: the segmentation loop does what PumpData specifies, of which exact cutting and settledness are proved |
| `TcpEngineClass.TcpEngine.TrimQueue` | src/verif/pyhdl/tcp_model/core/engine.py:737-753 | in place: the in-place loop trims the queue to what is not acknowledged, cutting a partly acknowledged head |
| `TcpEngineClass.TcpEngine.ProcessAck` | src/verif/pyhdl/tcp_model/core/engine.py:727-765 | in place: RTT sample, SND.UNA, trimmed queue, FIN acknowledged, timers |
| `TcpEngineClass.TcpEngine.RecvData` | src/verif/pyhdl/tcp_model/core/engine.py:789-819 | in place: trim, cut to the window, deliver or store, answer |
| `TcpEngineClass.TcpEngine.StoreOoo` | src/verif/pyhdl/tcp_model/core/engine.py:821-825 | in place: a block is stored unless one at the same number is as long |
| `TcpEngineClass.TcpEngine.Merge` | src/verif/pyhdl/tcp_model/core/engine.py:827-849 | in place: the restart-on-progress loop reaches the maximal merge |
| `TcpEngineClass.TcpEngine.ProcessFin` | src/verif/pyhdl/tcp_model/core/engine.py:570-584 | in place: consume the FIN, answer, move on |
| `TcpEngineClass.TcpEngine.EnterTimeWait` | src/verif/pyhdl/tcp_model/core/engine.py:935-939 | in place: timers stopped, 2*MSL started |
| `TcpEngineClass.TcpEngine.DoReset` | src/verif/pyhdl/tcp_model/core/engine.py:988-1002 | in place: back to LISTEN for a passive SYN-RECEIVED, else closed with the right error |
| `TcpEngineClass.TcpEngine.GiveUp` | src/verif/pyhdl/tcp_model/core/engine.py:1004-1010 | in place: RST from synchronized states, error, closed |
| `TcpEngineClass.TcpEngine.EnterClosed` | src/verif/pyhdl/tcp_model/core/engine.py:1023-1035 | in place: all timers and buffers dropped, in the source's order |
| `TcpEngineClass.TcpEngine.HandleListen` | src/verif/pyhdl/tcp_model/core/engine.py:392-415 | in place: SYN answered, resets ignored, ACKs reset |
| `TcpEngineClass.TcpEngine.HandleSynSent` | src/verif/pyhdl/tcp_model/core/engine.py:418-466 | in place: acceptability, refusal, establishment with data, simultaneous open |
| `TcpEngineClass.TcpEngine.HandleSynchronized` | src/verif/pyhdl/tcp_model/core/engine.py:469-508 | in place: acceptability, reset, SYN and ACK checks |
| `TcpEngineClass.TcpEngine.HandleAck` | src/verif/pyhdl/tcp_model/core/engine.py:509-568 | in place: acknowledgement, window update, own FIN acknowledged, text and FIN |
| `TcpEngineClass.TcpEngine.OnSegment` | src/verif/pyhdl/tcp_model/core/engine.py:365-379 | in place: dispatch on the state |
| `TcpEngineClass.TcpEngine.ActiveOpen` | src/verif/pyhdl/tcp_model/core/engine.py:265-275 | in place: OPEN, active |
| `TcpEngineClass.TcpEngine.PassiveOpen` | src/verif/pyhdl/tcp_model/core/engine.py:277-281 | in place: OPEN, passive |
| `TcpEngineClass.TcpEngine.Open` | src/verif/pyhdl/tcp_model/core/engine.py:238-263 | in place: ports and user timeout bound first |
| `TcpEngineClass.TcpEngine.Send` | src/verif/pyhdl/tcp_model/core/engine.py:283-312 | in place: refusals, buffering, and sending |
| `TcpEngineClass.TcpEngine.Receive` | src/verif/pyhdl/tcp_model/core/engine.py:314-335 | in place: drain, and a window update after a zero window |
| `TcpEngineClass.TcpEngine.Close` | src/verif/pyhdl/tcp_model/core/engine.py:341-351 | in place: FIN after queued data, or closed |
| `TcpEngineClass.TcpEngine.Abort` | src/verif/pyhdl/tcp_model/core/engine.py:353-360 | in place: RST and closed |
| `TcpEngineClass.TcpEngine.OnRto` | src/verif/pyhdl/tcp_model/core/engine.py:872-897 | in place: user timeout, give-up, or retransmission with backoff |
| `TcpEngineClass.TcpEngine.OnPersist` | src/verif/pyhdl/tcp_model/core/engine.py:910-933 | in place: one-byte or FIN probe, interval doubled |
| `TcpEngineClass.TcpEngine.OnKeepalive` | src/verif/pyhdl/tcp_model/core/engine.py:969-983 | in place: probe, or give-up after the configured count |
| `TcpEngineClass.TcpEngine.OnTimeWait` | src/verif/pyhdl/tcp_model/core/engine.py:945-947 | in place: closed |
| `TcpEngineClass.TcpEngine.OnDelack` | src/verif/pyhdl/tcp_model/core/engine.py:653-655 | in place: the delayed acknowledgement |
| `TcpEngineClass.TcpEngine.SetState` | src/verif/pyhdl/tcp_model/core/engine.py:1042-1052 | in place: state, keepalive and the report of the change |
| `TcpEngineClass.TcpEngine.RestartKeepalive` | src/verif/pyhdl/tcp_model/core/engine.py:950-962 | in place: keepalive timer restarted in ESTABLISHED only |
| `RttEstimatorClass.RttEstimator.Sample` | src/verif/pyhdl/tcp_model/core/rtt.py:22-30 | in place: RFC 6298 update |
| `RttEstimatorClass.RttEstimator.Backoff` | src/verif/pyhdl/tcp_model/core/rtt.py:32-34 | in place: doubling up to the maximum |
| `RttEstimatorClass.EstimateStaysInRange` | src/verif/pyhdl/tcp_model/core/rtt.py:19-30 | the smoothed time stays in the range of its samples and the timeout between its bounds |
| `RttEstimatorClass.FirstSample` | src/verif/pyhdl/tcp_model/core/rtt.py:24-30 | the first sample is the smoothed time, half of it the variation |
| `RttEstimatorClass.EstimateConverges` | src/verif/pyhdl/tcp_model/core/rtt.py:22-30 | k equal samples v take SRTT to v + (7/8)^k (s - v); the variation in closed form as well; the timeout is SRTT + max(G, 4 RTTVAR) cut to its bounds |
| `RttEstimatorClass.BackoffDoubles` | src/verif/pyhdl/tcp_model/core/rtt.py:32-34 | k timeouts make the interval min(2^k r, rto_max) |
| `SegmentCodec.BuildOptions` | src/verif/pyhdl/tcp_model/core/segment.py:85-95 | the padding loop gives the encoded options padded to a multiple of four |
| `SegmentCodec.ParseOptions` | src/verif/pyhdl/tcp_model/core/segment.py:142-166 | the index loop finds the options in order up to the first malformed one |
| `SegmentCodec.BuildSegment` | src/verif/pyhdl/tcp_model/core/segment.py:97-113 | the bytes of a segment |
| `SegmentCodec.ParseSegment` | src/verif/pyhdl/tcp_model/core/segment.py:115-140 | a segment, or the error of a malformed header |
| `SegmentCodec.RoundTrip` | src/verif/pyhdl/tcp_model/core/segment.py:85-166 | parsing built bytes gives the segment back (window cut to 16 bits) iff its options fit 40 bytes and the undecoded ones are well-formed |
| `SegmentCodec.NormalForm` | src/verif/pyhdl/tcp_model/core/segment.py:85-166 | for every accepted byte string, build and parse of the parsed segment give it back, and the header is no longer than the original |
| `SegmentCodec.ParsedAsDrawn` | src/verif/pyhdl/tcp_model/core/segment.py:115-140 | whatever is accepted is read word by word as section 3.1 of RFC 9293 draws the header: ports, numbers, control bits, window, checksum, urgent pointer, and the payload after the data offset |
| `SegmentCodec.BuiltAsDrawn` | src/verif/pyhdl/tcp_model/core/segment.py:97-113 | what is built is drawn so |
| `SegmentCodec.OptionKinds` | src/verif/pyhdl/tcp_model/core/segment.py:142-166 | kinds 0 and 1 end and pad the list, 2 and 3 with their lengths are segment size and window scale |
| `TcpItem.SeqItem.Serialize` | src/verif/pyhdl/tcp/tcp_item.sv:54-76 | the push-back loops give the wire image |
| `TcpItem.SeqItem.Deserialize` | src/verif/pyhdl/tcp/tcp_item.sv:80-102 | in place: fields, options and payload, and acceptance |
| `TcpItem.ItemAccepts` | src/verif/pyhdl/tcp/tcp_item.sv:78-102 | the item accepts iff the segment codec does, and writes the bytes back up to the reserved nibble |
| `TcpItem.ItemIsTransparent` | src/verif/pyhdl/tcp/tcp_item.sv:54-102 | passing accepted bytes through the item leaves their parse unchanged |
| `TcpItem.BuiltPassesThrough` | src/verif/pyhdl/tcp/tcp_item.sv:54-102 | a built segment passes through the item byte for byte |
| `ManualSchedulerClass.ManualScheduler.StartTimer` | src/verif/pyhdl/tcp_model/ports/scheduler.py:46-51 | in place: a handle with the next number, negative delays cut to zero |
| `ManualSchedulerClass.ManualScheduler.Advance` | src/verif/pyhdl/tcp_model/ports/scheduler.py:58-74 | in place: the loop drains what is due and moves the clock; the count returned is the number of callbacks run |
| `ManualSchedulerClass.ManualScheduler.RunUntilIdle` | src/verif/pyhdl/tcp_model/ports/scheduler.py:76-90 | in place: the loop empties the heap or reports a timer storm |
| `Scheduler.FiredInOrderOnTime` | src/verif/pyhdl/tcp_model/ports/scheduler.py:35-94 | over any calls and any callbacks, timers fire in strict order of deadline and number, each at the deadline it was given |
| `Scheduler.CancelledNeverFires` | src/verif/pyhdl/tcp_model/ports/scheduler.py:53-69 | a timer cancelled before it fired never fires |
| `Scheduler.DueTimersHaveFired` | src/verif/pyhdl/tcp_model/ports/scheduler.py:58-90 | when advance returns every timer due by then has fired or was cancelled; when run_until_idle returns, every timer |
| `Scheduler.SameDelayKeepsOrder` | src/verif/pyhdl/tcp_model/ports/scheduler.py:35-74 | of two timers started one after the other with the same delay the first fires first, unless it was cancelled |
| `Crc32.Crc32Next` | src/rtl/ether.sv:118-125 | the loop over a local variable is eight bit steps of the register |
| `Crc32.ResidueIffFcs` | src/rtl/ether.sv:65-70 | the running register reads the residue iff the last four bytes are the frame check sequence of those before |
| `Crc32.BitStepsLinear` | src/rtl/ether.sv:118-125 | the bit step is linear |
| `Crc32.BitStepsInjective` | src/rtl/ether.sv:118-125 | the bit step is invertible |
| `Ether.Ether.Tick` | src/rtl/ether.sv:146-290 | in place: one clock edge |
| `EtherExtraction.EveryFrameExtracted` | src/rtl/ether.sv:146-290 | any number of frames, with filler, preamble and stalls, give exactly their payloads cut at the 802.3 length, the last byte marked, and one right report each, and leave the extractor ready |
| `EtherExtraction.FrameExtracted` | src/verif/basic/tb_ether_basic.sv:114-191 | one frame from HUNT: payload, mark, addresses, type, tag, byte count, good |
| `EtherExtraction.StallsDoNotMatter` | src/rtl/ether.sv:16-17 | stalls change nothing of what is extracted |
| `EtherExtraction.PayloadRun` | src/rtl/ether.sv:89-106 | an attempt emits exactly the bytes that left the four-byte holdback and reports once, at the first byte that closes it |
| `EtherExtraction.GoodIffWithinLimit` | src/rtl/ether.sv:142-144 | a frame is reported good iff it has at most MAX_FRAME_BYTES + 1 bytes |
| `EtherSoundness.GoodReportIsSound` | src/rtl/ether.sv:146-290 | for any bytes and stalls, a good report is of the bytes since a delimiter behind at least MIN_PREAMBLE_LEN preamble bytes, which end in their own check sequence; unless that reaches into the header they are a frame, and what was shown since the delimiter is its payload and report |

## Left out

- PSH and URG indicators, the urgent pointer, window-scale use and the checksum: carried in segments by the codec, not
  interpreted by the engine model.
- Random initial sequence numbers and `seed()`: the initial number is an arbitrary configured 32-bit value.
- Re-opening an engine after CLOSED, and callbacks or a zero-delay channel that re-enter an engine in the middle of a call.
- `status()`, snapshots, connection names and logging; wall-clock and simulator schedulers; `CaptureNet`.
- Floating-point rounding: times are real numbers.
- The fields of the TCB and of the parser are grouped in record-valued fields of the classes; aliasing between them does
  not arise in the source. The scheduler's heap is kept in the order in which `heapq` pops, since that library is not part
  of this model.
- That a sender stays inside the peer's actual advertised window across two engines: the WL1/WL2 guard does not give it for
  retransmitted segments; the local bound is proved (`LoopCutsExactly`).
- FifoWire: any packet in flight may be lost at any time, which includes every filter of the source's channel.
- The chance of a residue inside a payload: the extraction theorems assume that no earlier prefix of the payload ends in its
  own check sequence, since such a prefix is a frame.
- TwoEngines.StreamIntegrity: assumes `Timely` of what arrives, MSS below 2^16 and a receive window below 2^30; `FifoIntegrity`
  drops the first.
- UserCalls.CallsAreStreams: with an `on_data` sink RECEIVE returns nothing; what the sink was given is `hist.delivered`.
- TextArrival.TextTakenExactly: assumes `Timely` of the packet and a receive window below 2^30.
- Resets.ResetHonouredExactly, the lemmas beside it and those of `Handshake.dfy`: for receive windows below 2^30.
- Timing.ProbesGoOn: for `persist_min <= persist_max`.
- Karn.SendIsMeasured: of the calls of SEND; segments that an arrival or a timer sends are not spoken of.
- GiveUpBound.GivesUpExactlyThen: assumes that each timeout fires when it is due and no event happens after it;
  `TimedGivesUp` has that from the clock.
- TimedWire.SchedulerIsInTime: that the scheduler has a live timer for every deadline is a premise; that the engine starts
  and cancels its handles with its deadlines is read from the source, whose handles the model keeps as deadlines.
- Progress of the two engines: that once nothing is lost any more all accepted data arrives and both sides close. Proved is
  safety, and that no waiting engine is without the timer that wakes it (`NoLostWakeup`, `NoForgottenAck`).
- ManualSchedulerClass.ManualScheduler.Advance: takes a bound on how many timers it may pop, since callbacks that restart
  themselves without delay keep the source's loop from ending; the theorems speak of calls that return.
- ReceiveWindow.BufferNeverOverfull: for receive windows below 2^16.
- ReceiveWindow.EdgeNeverMovesLeft: for receive windows below 2^16 and at most 65535 bytes on a SYN that crosses ours.
- ReceiveWindow.StepClimbs: for the same.
- EdgeStride.EdgeMovesInStrides: for receive windows below 2^16, while the connection is synchronized.
- ActiveEdge.ForwardStrides: for receive windows below 2^16. For a SYN that crosses ours the condition is sufficient; that it
  is needed is proved for a SYN-ACK without data or FIN, since data or a FIN can carry the edge past a lagging record.
- Corners.SynDataFillsBuffer: for less than 2^31 bytes on the SYN.
- EtherSoundness.GoodReportIsSound: what is shown is spelt out for frames of less than 2^16 bytes; longer ones are only taken
  with MAX_FRAME_BYTES at 65535, whose counter wraps.
