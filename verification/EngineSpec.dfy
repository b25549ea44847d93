/** What every entry point of the engine does, as a function on the engine's value. The class `TcpEngine` is
    proved to do exactly this in place, and the protocol properties are proved about these functions. */
module EngineSpec {
  import opened SeqNum
  import opened EngineState

  // ---------------------------------------------------------------------------------------------
  // Round-trip estimation (RFC 6298)
  // ---------------------------------------------------------------------------------------------

  function AbsR(x: real): real { if x < 0.0 then -x else x }

  function RtoClamp(t: TimerConfig, v: real): real { MinR(MaxR(v, t.rtoMin), t.rtoMax) }

  function RttSample(t: TimerConfig, r: Rtt, sample: real): Rtt {
    var srtt := if r.srtt.None? then sample else (1.0 - 1.0/8.0) * r.srtt.value + (1.0/8.0) * sample;
    var rttvar := if r.srtt.None? then sample / 2.0
                  else (1.0 - 1.0/4.0) * r.rttvar + (1.0/4.0) * AbsR(r.srtt.value - sample);
    Rtt(Some(srtt), rttvar, RtoClamp(t, srtt + MaxR(t.rttG, 4.0 * rttvar)))
  }

  function RttBackoff(t: TimerConfig, r: Rtt): Rtt { r.(rto := MinR(r.rto * 2.0, t.rtoMax)) }

  // ---------------------------------------------------------------------------------------------
  // Emitting segments
  // ---------------------------------------------------------------------------------------------

  function RawWindow(e: Engine): nat { Max(0, e.cfg.rcvWnd - |e.rcv.buf|) }

  function SwsThreshold(e: Engine): nat { Min(e.snd.mss, Max(1, e.cfg.rcvWnd / 2)) }

  /** The window to advertise, with receiver silly-window avoidance (section 3.8.6.2.2 of RFC 9293). */
  function RcvWnd(e: Engine): nat {
    var raw := RawWindow(e);
    if !e.cfg.timers.swsAvoidance || e.rcv.advRight.None? then raw
    else
      var curRight := Add(e.rcv.nxt, raw);
      var adv := e.rcv.advRight.value;
      if SeqGt(curRight, adv) && Sub(curRight, adv) < SwsThreshold(e) then Max(0, S32(Sub(adv, e.rcv.nxt)))
      else raw
  }

  function AdvertisedRight(e: Engine): u32 {
    var right := Add(e.rcv.nxt, RcvWnd(e));
    if e.rcv.advRight.None? || SeqGt(right, e.rcv.advRight.value) then right else e.rcv.advRight.value
  }

  function MakeSegment(e: Engine, sn: u32, flags: Flags, payload: seq<byte>, withMss: bool): Segment {
    Segment(e.localPort, e.remotePort, sn, if flags.ack then e.rcv.nxt else 0, flags, RcvWnd(e), 0, 0, payload,
      if withMss then Some(e.snd.mss) else None, None, [])
  }

  /** How far the stream goes, with `len` sequence numbers from `sn` on included. */
  function Reach(e: Engine, sn: u32, len: nat): int { Max(SentEnd(e.hist), PosOf(e, sn) + len) }

  /** `_make_segment` followed by `_transmit`. */
  function Emit(e: Engine, sn: u32, flags: Flags, payload: seq<byte>, withMss: bool): Engine {
    e.(rcv := e.rcv.(zeroWin := e.rcv.zeroWin || RcvWnd(e) == 0, advRight := Some(AdvertisedRight(e))),
       wire := e.wire + [Packet(MakeSegment(e, sn, flags, payload, withMss), PosOf(e, sn), RecvPos(e.hist),
                                Reach(e, sn, SpaceLen(flags, payload)), e.hist.fins)])
  }

  function EmitRstReply(e: Engine, seg: Segment, sn: u32, ack: u32, ackFlag: bool): Engine {
    var r := Segment(if seg.dstPort != 0 then seg.dstPort else e.localPort,
                     if seg.srcPort != 0 then seg.srcPort else e.remotePort,
                     sn, ack, if ackFlag then RST_ACK else RST, 0, 0, 0, [], None, None, []);
    e.(wire := e.wire + [Packet(r, 0, 0, 0, 0)])
  }

  function SendAck(e: Engine): Engine {
    var f := Emit(e, e.snd.nxt, ACK, [], false);
    f.(tm := f.tm.(ackCount := 0, ack := None))
  }

  /** `call_later`: the deadline a timer started now gets. */
  function Later(tm: Timers, delay: real): Option<real> { Some(tm.now + MaxR(delay, 0.0)) }

  function ScheduleAck(e: Engine, force: bool): Engine {
    if e.cfg.timers.delayedAck.None? || force then SendAck(e)
    else if e.tm.ackCount + 1 >= 2 then SendAck(e.(tm := e.tm.(ackCount := e.tm.ackCount + 1)))
    else e.(tm := e.tm.(ackCount := e.tm.ackCount + 1,
                        ack := if e.tm.ack.None? then Later(e.tm, e.cfg.timers.delayedAck.value) else e.tm.ack))
  }

  /** A new entry at the end of the retransmission queue; RTT timing starts unless it runs already. */
  function Enqueued(s: SendSide, o: Outgoing, now: real): SendSide {
    s.(retx := s.retx + [o], nxt := o.End(),
       rttPending := if s.rttPending.None? then Some((o.End(), now)) else s.rttPending)
  }

  /** The user-timeout basis starts with the oldest entry, and the RTO runs. */
  function Timed(tm: Timers, first: bool, rto: real): Timers {
    tm.(unaSince := if first then Some(tm.now) else tm.unaSince, rt := if tm.rt.None? then Later(tm, rto) else tm.rt)
  }

  /** The history after sending `payload` under `flags`. */
  function Sending(h: History, flags: Flags, payload: seq<byte>): History {
    h.(synOut := h.synOut || flags.syn, sent := h.sent + payload, finOut := h.finOut || flags.fin)
  }

  /** `_queue_and_send`: send at SND.NXT, keep a copy for retransmission, start RTT timing and the RTO. */
  function QueueAndSend(e: Engine, flags: Flags, payload: seq<byte>, withMss: bool): Engine {
    var f := Emit(e, e.snd.nxt, flags, payload, withMss);
    var o := Outgoing(e.snd.nxt, flags, payload, e.tm.now, false, SentEnd(e.hist), 1);
    f.(snd := Enqueued(f.snd, o, f.tm.now), tm := Timed(f.tm, f.snd.retx == [], f.rtt.rto),
       hist := Sending(f.hist, flags, payload))
  }

  // ---------------------------------------------------------------------------------------------
  // State changes and keepalive
  // ---------------------------------------------------------------------------------------------

  function RestartKeepalive(e: Engine, resetProbes: bool): Engine {
    if e.cfg.timers.keepaliveIdle.None? then e
    else
      var probes := if resetProbes then 0 else e.tm.kaProbes;
      var delay := if probes == 0 then e.cfg.timers.keepaliveIdle.value else e.cfg.timers.keepaliveInterval;
      e.(tm := e.tm.(kaProbes := probes, ka := if e.state == ESTABLISHED then Later(e.tm, delay) else None))
  }

  function CancelKeepalive(e: Engine): Engine { e.(tm := e.tm.(ka := None, kaProbes := 0)) }

  function SetState(e: Engine, to: ConnState): Engine {
    if e.state == to then e
    else
      var f := e.(state := to, signals := e.signals + [StateChange(e.state, to)]);
      if to == ESTABLISHED then RestartKeepalive(f, true)
      else if e.state == ESTABLISHED then CancelKeepalive(f)
      else f
  }

  function SignalError(e: Engine, what: ErrorSignal): Engine { e.(signals := e.signals + [Error(what)]) }

  // ---------------------------------------------------------------------------------------------
  // Sending
  // ---------------------------------------------------------------------------------------------

  function UsableWindow(e: Engine): int { S32(Sub(Add(e.snd.una, e.snd.wnd), e.snd.nxt)) }

  function ArmPersist(e: Engine): Engine {
    if e.tm.persist.Some? then e
    else e.(tm := e.tm.(persistBackoff := e.cfg.timers.persistMin, persist := Later(e.tm, e.cfg.timers.persistMin)))
  }

  /** Cut the first `n` buffered bytes into a segment. */
  function SendChunk(e: Engine, n: nat): Engine
    requires n <= |e.snd.appBuf|
  {
    QueueAndSend(e.(snd := e.snd.(appBuf := e.snd.appBuf[n..])), ACK, e.snd.appBuf[..n], false)
  }

  function FinState(s: ConnState): ConnState {
    match s
    case ESTABLISHED => FIN_WAIT_1
    case SYN_RECEIVED => FIN_WAIT_1
    case CLOSE_WAIT => LAST_ACK
    case _ => s
  }

  function SendFin(e: Engine): Engine {
    var f := QueueAndSend(e.(snd := e.snd.(finSeq := e.snd.nxt)), FIN_ACK, [], false);
    SetState(f.(snd := f.snd.(finSent := true)), FinState(f.state))
  }

  /** The segmentation loop: one unit of work per unfolding. */
  function PumpData(e: Engine): Engine
    decreases |e.snd.appBuf|
  {
    if e.snd.appBuf == [] then PumpFin(e)
    else if e.snd.wnd == 0 then ArmPersist(e)
    else
      var usable := UsableWindow(e);
      if usable <= 0 then e
      else
        var n := Min(Min(e.snd.mss, usable), |e.snd.appBuf|);
        if e.cfg.timers.nagle && e.snd.retx != [] && n < e.snd.mss then e
        else PumpData(SendChunk(e, n))
  }

  function PumpFin(e: Engine): Engine {
    if e.snd.finPending && !e.snd.finSent && e.snd.appBuf == [] then
      if e.snd.wnd == 0 then ArmPersist(e)
      else if UsableWindow(e) < 1 then e
      else SendFin(e)
    else e
  }

  predicate MaySend(e: Engine) {
    e.state == ESTABLISHED || e.state == CLOSE_WAIT
    || (e.state == SYN_RECEIVED && e.snd.finPending && e.snd.appBuf == [])
  }

  function SendPending(e: Engine): Engine { if MaySend(e) then PumpData(e) else e }

  function CancelPersist(e: Engine): Engine { SendPending(e.(tm := e.tm.(persist := None))) }

  // ---------------------------------------------------------------------------------------------
  // Acknowledgements
  // ---------------------------------------------------------------------------------------------

  function TrimSyn(o: Outgoing, ack: u32): Outgoing {
    if o.flags.syn && Sub(ack, o.seqNo) >= 1 then
      o.(flags := o.flags.(syn := false), seqNo := Add(o.seqNo, 1), pos := o.pos + 1)
    else o
  }

  /** Cut the acknowledged front off a partially acknowledged entry. */
  function TrimHead(o: Outgoing, ack: u32): Outgoing {
    var trim := Sub(ack, o.seqNo);
    var p := TrimSyn(o, ack);
    var t := if o.flags.syn && trim >= 1 then trim - 1 else trim;
    if t > 0 then p.(payload := p.payload[Min(t, |p.payload|)..], seqNo := ack, pos := p.pos + t) else p
  }

  function Trim(retx: seq<Outgoing>, ack: u32): seq<Outgoing> {
    if retx == [] then []
    else if SeqLeq(retx[0].End(), ack) then Trim(retx[1..], ack)
    else if SeqLt(retx[0].seqNo, ack) then [TrimHead(retx[0], ack)] + retx[1..]
    else retx
  }

  function StopRt(e: Engine): Engine { e.(tm := e.tm.(rt := None, rtoCount := 0)) }

  predicate TakesSample(e: Engine, ack: u32) {
    e.snd.rttPending.Some? && SeqGeq(ack, e.snd.rttPending.value.0)
  }

  /** The send side once `ack` is taken: the queue is cut, and our FIN may be covered. */
  function AckedSend(s: SendSide, ack: u32): SendSide {
    s.(una := ack, retx := Trim(s.retx, ack),
       finAcked := s.finAcked || (s.finSent && SeqGt(ack, s.finSeq)))
  }

  /** The timers once an acknowledgement left the queue empty (`idle`) or not. */
  function AckedTimers(tm: Timers, idle: bool, rto: real): Timers {
    tm.(unaSince := if idle then None else Some(tm.now), rtoCount := 0, rt := if idle then None else Later(tm, rto))
  }

  function ProcessAck(e: Engine, ack: u32): Engine {
    var sampled := TakesSample(e, ack);
    var rtt := if sampled then RttSample(e.cfg.timers, e.rtt, e.tm.now - e.snd.rttPending.value.1) else e.rtt;
    var snd := AckedSend(if sampled then e.snd.(rttPending := None) else e.snd, ack);
    e.(rtt := rtt, snd := snd, tm := AckedTimers(e.tm, snd.retx == [], rtt.rto),
       hist := e.hist.(unaPos := e.hist.unaPos + Sub(ack, e.snd.una)))
  }

  // ---------------------------------------------------------------------------------------------
  // Receiving and reassembly
  // ---------------------------------------------------------------------------------------------

  /** Hand in-sequence bytes to the application and move RCV.NXT over them. */
  function Deliver(e: Engine, data: seq<byte>): Engine {
    e.(rcv := e.rcv.(buf := if e.cfg.streaming then e.rcv.buf else e.rcv.buf + data, nxt := Add(e.rcv.nxt, |data|)),
       hist := e.hist.(delivered := e.hist.delivered + data))
  }

  /** A block the merge can act on: it ends at or below RCV.NXT, or straddles it. */
  predicate Mergeable(b: Block, nxt: u32) {
    SeqLeq(b.End(), nxt) || (SeqLeq(b.seqNo, nxt) && SeqGt(b.End(), nxt))
  }

  function FirstMergeable(ooo: seq<Block>, nxt: u32): (i: nat)
    ensures i <= |ooo|
    ensures i < |ooo| ==> Mergeable(ooo[i], nxt)
    ensures forall j :: 0 <= j < i ==> !Mergeable(ooo[j], nxt)
  {
    if ooo == [] || Mergeable(ooo[0], nxt) then 0 else 1 + FirstMergeable(ooo[1..], nxt)
  }

  function MergeStep(e: Engine, i: nat): Engine
    requires i < |e.rcv.ooo|
  {
    var b := e.rcv.ooo[i];
    var off := Sub(e.rcv.nxt, b.seqNo);
    var f := if SeqLeq(b.End(), e.rcv.nxt) then e else Deliver(e, b.data[Min(off, |b.data|)..]);
    f.(rcv := f.rcv.(ooo := e.rcv.ooo[..i] + e.rcv.ooo[i+1..]))
  }

  function Merge(e: Engine): Engine
    decreases |e.rcv.ooo|
  {
    var i := FirstMergeable(e.rcv.ooo, e.rcv.nxt);
    if i == |e.rcv.ooo| then e else Merge(MergeStep(e, i))
  }

  predicate Subsumed(ooo: seq<Block>, sn: u32, len: nat) {
    exists i :: 0 <= i < |ooo| && ooo[i].seqNo == sn && |ooo[i].data| >= len
  }

  function StoreOoo(e: Engine, sn: u32, data: seq<byte>): Engine {
    if Subsumed(e.rcv.ooo, sn, |data|) then e
    else e.(rcv := e.rcv.(ooo := e.rcv.ooo + [Block(sn, data, RecvPos(e.hist) + S32(sn - e.rcv.nxt))]))
  }

  /** In-order or out-of-order arrival of bytes already cut to the window. */
  function Place(e: Engine, sn: u32, data: seq<byte>): Engine {
    if sn == e.rcv.nxt then ScheduleAck(Merge(Deliver(e, data)), false)
    else ScheduleAck(StoreOoo(e, sn, data), true)
  }

  function RecvData(e: Engine, seg: Segment): Engine {
    if seg.payload == [] then e
    else
      var stale := SeqLt(seg.seqNo, e.rcv.nxt);
      var off := if stale then Sub(e.rcv.nxt, seg.seqNo) else 0;
      if off >= |seg.payload| then ScheduleAck(e, true)
      else
        var data := seg.payload[off..];
        var sn := if stale then e.rcv.nxt else seg.seqNo;
        var space := S32(Sub(Add(e.rcv.nxt, RcvWnd(e)), sn));
        if space <= 0 then ScheduleAck(e, true)
        else Place(e, sn, data[..Min(space, |data|)])
  }

  // ---------------------------------------------------------------------------------------------
  // Closing
  // ---------------------------------------------------------------------------------------------

  function ResetBuffers(e: Engine): Engine {
    e.(snd := e.snd.(appBuf := [], retx := [], finPending := false, finSent := false, finAcked := false,
                     rttPending := None),
       rcv := e.rcv.(buf := [], ooo := [], pendingFin := None, advRight := None),
       tm := e.tm.(unaSince := None))
  }

  function EnterClosed(e: Engine): Engine {
    var f := CancelKeepalive(CancelPersist(StopRt(e)));
    SetState(ResetBuffers(f.(tm := f.tm.(tw := None, ack := None))), CLOSED)
  }

  function EnterTimeWait(e: Engine): Engine {
    var f := SetState(CancelPersist(StopRt(e)), TIME_WAIT);
    f.(tm := f.tm.(tw := Later(f.tm, 2.0 * f.cfg.timers.msl)))
  }

  function RestartTimeWait(e: Engine): Engine { e.(tm := e.tm.(tw := Later(e.tm, 2.0 * e.cfg.timers.msl))) }

  /** A reset of a passive open returns to LISTEN; the connection attempt it ends has sent no data, so its
      history starts over. */
  function BackToListen(e: Engine): Engine {
    var f := CancelPersist(StopRt(ResetBuffers(SetState(e, LISTEN))));
    f.(remotePort := f.cfg.remotePort, hist := f.hist.(synOut := false, accepted := []))
  }

  function DoReset(e: Engine): Engine {
    if e.state == SYN_RECEIVED && e.passive then BackToListen(e)
    else if e.state == SYN_RECEIVED then EnterClosed(SignalError(e, ConnectionRefused))
    else EnterClosed(SignalError(e, ConnectionReset))
  }

  predicate SendsRstOnAbort(s: ConnState) {
    s == SYN_RECEIVED || s == ESTABLISHED || s == FIN_WAIT_1 || s == FIN_WAIT_2 || s == CLOSE_WAIT
  }

  function SendRst(e: Engine): Engine {
    if SendsRstOnAbort(e.state) then Emit(e, e.snd.nxt, RST, [], false) else e
  }

  /** `_abort`. */
  function GiveUp(e: Engine, why: ErrorSignal): Engine { EnterClosed(SignalError(SendRst(e), why)) }

  /** Move RCV.NXT over the peer's FIN. */
  function TakeFin(e: Engine): Engine {
    e.(rcv := e.rcv.(pendingFin := None, nxt := Add(e.rcv.nxt, 1), peerFin := true),
       hist := e.hist.(fins := e.hist.fins + 1))
  }

  function ProcessFin(e: Engine): Engine { StateAfterFin(SendAck(TakeFin(e))) }

  /** The state that follows the peer's FIN. */
  function StateAfterFin(f: Engine): Engine {
    match f.state
    case ESTABLISHED => SetState(f, CLOSE_WAIT)
    case FIN_WAIT_1 => SetState(f, CLOSING)
    case FIN_WAIT_2 => EnterTimeWait(f)
    case _ => f
  }

  function CheckPendingFin(e: Engine): Engine {
    if e.rcv.pendingFin == Some(e.rcv.nxt) then ProcessFin(e) else e
  }

  function NoteFin(e: Engine, seg: Segment): Engine {
    var finSeq := Add(seg.seqNo, |seg.payload|);
    if !seg.flags.fin then e
    else if e.rcv.nxt == finSeq then ProcessFin(e)
    else if SeqGt(finSeq, e.rcv.nxt) then e.(rcv := e.rcv.(pendingFin := Some(finSeq)))
    else e
  }

  // ---------------------------------------------------------------------------------------------
  // SEGMENT ARRIVES
  // ---------------------------------------------------------------------------------------------

  function Open(e: Engine): Engine {
    var f := SetState(e.(passive := false,
                         snd := e.snd.(iss := e.cfg.iss, una := e.cfg.iss, nxt := e.cfg.iss, wnd := 0),
                         hist := e.hist.(started := true, unaPos := 0, since := |e.wire|)), SYN_SENT);
    QueueAndSend(f, SYN, [], true)
  }

  function PeerMss(e: Engine, seg: Segment): segsize {
    if seg.mss.Some? && seg.mss.value != 0 then Min(e.cfg.mss, seg.mss.value) else e.snd.mss
  }

  function HandleClosed(e: Engine, seg: Segment): Engine {
    if seg.flags.rst then e
    else if seg.flags.ack then EmitRstReply(e, seg, seg.ackNo, 0, false)
    else EmitRstReply(e, seg, 0, Add(seg.seqNo, seg.SegLen()), true)
  }

  function NumbersFromSyn(s: SendSide, iss: u32, seg: Segment): SendSide {
    s.(iss := iss, una := iss, nxt := iss, wnd := seg.window, wl1 := seg.seqNo, wl2 := iss)
  }

  /** Set up both directions for the peer that sent this SYN. */
  function AnswerSyn(e: Engine, seg: Segment): Engine {
    e.(rcv := e.rcv.(irs := seg.seqNo, nxt := Add(seg.seqNo, 1)),
       snd := NumbersFromSyn(e.snd, e.cfg.iss, seg).(mss := PeerMss(e, seg)),
       hist := e.hist.(unaPos := 0, since := |e.wire|))
  }

  function HandleListen(e: Engine, seg: Segment): Engine {
    if seg.flags.rst then e
    else if seg.flags.ack then EmitRstReply(e, seg, seg.ackNo, 0, false)
    else if !seg.flags.syn then e
    else if e.remotePort != 0 && seg.srcPort != 0 && seg.srcPort != e.remotePort then e
    else
      var f := e.(remotePort := if e.remotePort == 0 then seg.srcPort else e.remotePort);
      QueueAndSend(SetState(AnswerSyn(f, seg), SYN_RECEIVED), SYN_ACK, [], true)
  }

  /** Take the peer's SYN in SYN-SENT: its sequence number, options, acknowledgement and window. */
  function TakeSyn(e: Engine, seg: Segment): Engine {
    var f := e.(rcv := e.rcv.(irs := seg.seqNo, nxt := Add(seg.seqNo, 1)), snd := e.snd.(mss := PeerMss(e, seg)));
    FirstWindow(if seg.flags.ack then ProcessAck(f, seg.ackNo) else f, seg)
  }

  function FirstWindow(e: Engine, seg: Segment): Engine {
    e.(snd := e.snd.(wnd := seg.window, wl1 := seg.seqNo, wl2 := if seg.flags.ack then seg.ackNo else e.snd.una))
  }

  /** The outstanding SYN is to acknowledge the peer's SYN too. */
  function SynBecomesSynAck(e: Engine): Engine {
    if e.snd.retx != [] && e.snd.retx[0].flags.syn then
      var o := e.snd.retx[0];
      e.(snd := e.snd.(retx := [o.(flags := o.flags.(ack := true), copies := o.copies + 1)] + e.snd.retx[1..]))
    else e
  }

  /** Data and FIN that came with the peer's SYN wait for ESTABLISHED. */
  function HoldSynData(e: Engine, seg: Segment): Engine {
    var f := if seg.payload != [] then StoreOoo(e, Add(seg.seqNo, 1), seg.payload) else e;
    if seg.flags.fin then f.(rcv := f.rcv.(pendingFin := Some(Add(Add(seg.seqNo, 1), |seg.payload|)))) else f
  }

  /** Simultaneous open: the SYN goes out a second time, as a SYN-ACK. */
  function SimultaneousOpen(e: Engine, seg: Segment): Engine {
    var f := HoldSynData(SynBecomesSynAck(SetState(e, SYN_RECEIVED)), seg);
    Emit(f, f.snd.iss, SYN_ACK, [], true)
  }

  function HandleSynSent(e: Engine, seg: Segment): Engine {
    if seg.flags.ack && (SeqLeq(seg.ackNo, e.snd.iss) || SeqGt(seg.ackNo, e.snd.nxt)) then
      if seg.flags.rst then e else EmitRstReply(e, seg, seg.ackNo, 0, false)
    else if seg.flags.rst then
      if seg.flags.ack && Between(e.snd.una, seg.ackNo, e.snd.nxt) then EnterClosed(SignalError(e, ConnectionRefused))
      else e
    else if !seg.flags.syn then e
    else
      var f := TakeSyn(e, seg);
      if SeqGt(f.snd.una, f.snd.iss) then
        var g := SendPending(SendAck(SetState(f, ESTABLISHED)));
        if seg.payload != [] || seg.flags.fin then
          HandleSynchronized(g, seg.(flags := seg.flags.(syn := false), seqNo := Add(seg.seqNo, 1)))
        else g
      else SimultaneousOpen(f, seg)
  }

  function HandleTimeWait(e: Engine, seg: Segment): Engine {
    if seg.flags.rst then
      if seg.seqNo == e.rcv.nxt then EnterClosed(e) else SendAck(e)
    else if seg.flags.fin then RestartTimeWait(SendAck(e))
    else SendAck(e)
  }

  function UpdateWindow(e: Engine, seg: Segment): Engine {
    if SeqLt(e.snd.wl1, seg.seqNo) || (e.snd.wl1 == seg.seqNo && SeqLeq(e.snd.wl2, seg.ackNo)) then
      var f := e.(snd := e.snd.(wnd := seg.window, wl1 := seg.seqNo, wl2 := seg.ackNo));
      if seg.window > 0 && e.snd.wnd == 0 then CancelPersist(f) else f
    else e
  }

  /** Steps seven and eight of section 3.10.7.4 of RFC 9293: text, then FIN. */
  function TextAndFin(e: Engine, seg: Segment): Engine {
    var takesData := e.state == ESTABLISHED || e.state == FIN_WAIT_1 || e.state == FIN_WAIT_2;
    var f := if takesData then RecvData(e, seg) else e;
    CheckPendingFin(NoteFin(SendPending(f), seg))
  }

  /** Step five in SYN-RECEIVED, for an acknowledgement of our SYN. */
  function Establish(e: Engine, seg: Segment): Engine {
    var f := ProcessAck(e, seg.ackNo);
    var g := f.(snd := f.snd.(wnd := seg.window, wl1 := seg.seqNo, wl2 := seg.ackNo));
    SendPending(Merge(SetState(g, ESTABLISHED)))
  }

  function AckAndWindow(e: Engine, seg: Segment): Engine {
    UpdateWindow(if SeqGt(seg.ackNo, e.snd.una) then ProcessAck(e, seg.ackNo) else e, seg)
  }

  /** What follows an acceptable acknowledgement: our own FIN acknowledged, then text and FIN. */
  function AfterAck(f: Engine, seg: Segment): Engine {
    if f.state == FIN_WAIT_1 && f.snd.finAcked then TextAndFin(SetState(f, FIN_WAIT_2), seg)
    else if f.state == CLOSING && f.snd.finAcked then EnterTimeWait(f)
    else if f.state == LAST_ACK && f.snd.finAcked then EnterClosed(f)
    else TextAndFin(f, seg)
  }

  function HandleAck(e: Engine, seg: Segment): Engine {
    if e.state == SYN_RECEIVED then
      if SeqLt(e.snd.una, seg.ackNo) && SeqLeq(seg.ackNo, e.snd.nxt) then TextAndFin(Establish(e, seg), seg)
      else EmitRstReply(e, seg, seg.ackNo, 0, false)
    else if SeqGt(seg.ackNo, e.snd.nxt) then SendAck(e)
    else AfterAck(AckAndWindow(e, seg), seg)
  }

  function HandleSynchronized(e: Engine, seg: Segment): Engine {
    if e.state == TIME_WAIT then HandleTimeWait(e, seg)
    else if !Acceptable(seg.seqNo, seg.SegLen(), e.rcv.nxt, RcvWnd(e)) then
      if seg.flags.rst then e else SendAck(e)
    else if seg.flags.rst then
      if seg.seqNo == e.rcv.nxt then DoReset(e) else SendAck(e)
    else if seg.flags.syn then SendAck(e)
    else if !seg.flags.ack then e
    else HandleAck(e, seg)
  }

  predicate ForUs(e: Engine, seg: Segment) {
    !(e.localPort != 0 && seg.dstPort != 0 && seg.dstPort != e.localPort)
  }

  function OnSegment(e: Engine, seg: Segment): Engine {
    if !ForUs(e, seg) then e
    else
      var f := if e.state == ESTABLISHED then RestartKeepalive(e, true) else e;
      match f.state
      case CLOSED => HandleClosed(f, seg)
      case LISTEN => HandleListen(f, seg)
      case SYN_SENT => HandleSynSent(f, seg)
      case _ => HandleSynchronized(f, seg)
  }

  // ---------------------------------------------------------------------------------------------
  // User calls
  // ---------------------------------------------------------------------------------------------

  function ActiveOpen(e: Engine): (Engine, Outcome<()>) {
    if e.state != CLOSED && e.state != LISTEN then (e, Refused(AlreadyExists)) else (Open(e), Done(()))
  }

  function PassiveOpen(e: Engine): (Engine, Outcome<()>) {
    if e.state != CLOSED then (e, Refused(AlreadyExists))
    else (SetState(e.(passive := true, hist := e.hist.(started := true)), LISTEN), Done(()))
  }

  /** OPEN: bind ports and user timeout, then open actively or passively. */
  function OpenCall(e: Engine, active: bool, remotePort: Option<u16>, localPort: Option<u16>, timeout: Option<real>)
    : (Engine, Outcome<()>)
  {
    var f := e.(remotePort := if remotePort.Some? then remotePort.value else e.remotePort,
                localPort := if localPort.Some? then localPort.value else e.localPort,
                tm := e.tm.(userTimeout := if timeout.Some? then timeout else e.tm.userTimeout));
    if active then ActiveOpen(f) else PassiveOpen(f)
  }

  predicate IsClosing(s: ConnState) {
    s == FIN_WAIT_1 || s == FIN_WAIT_2 || s == CLOSING || s == LAST_ACK || s == TIME_WAIT
  }

  function Buffer(e: Engine, data: seq<byte>): Engine {
    e.(snd := e.snd.(appBuf := e.snd.appBuf + data), hist := e.hist.(accepted := e.hist.accepted + data))
  }

  /** SEND. In LISTEN without a foreign socket the data is buffered before the call is refused. */
  function Send(e: Engine, data: seq<byte>, timeout: Option<real>): (Engine, Outcome<nat>) {
    if e.state == CLOSED then (e, Refused(DoesNotExist))
    else if IsClosing(e.state) || e.snd.finPending then (e, Refused(Closing))
    else
      var f := Buffer(e.(tm := e.tm.(userTimeout := if timeout.Some? then timeout else e.tm.userTimeout)), data);
      if e.state == LISTEN then
        if e.remotePort == 0 then (f, Refused(ForeignSocketUnspecified)) else (Open(f), Done(|data|))
      else if e.state == ESTABLISHED || e.state == CLOSE_WAIT then (SendPending(f), Done(|data|))
      else (f, Done(|data|))
  }

  function Receive(e: Engine, maxLen: nat): (Engine, Outcome<seq<byte>>) {
    if e.state == CLOSED then (e, Refused(DoesNotExist))
    else if e.state == CLOSING || e.state == LAST_ACK || e.state == TIME_WAIT then (e, Refused(Closing))
    else if e.state == CLOSE_WAIT && e.rcv.buf == [] then (e, Refused(Closing))
    else
      var n := Min(maxLen, |e.rcv.buf|);
      var f := e.(rcv := e.rcv.(buf := e.rcv.buf[n..]));
      (if n > 0 && f.rcv.zeroWin && RcvWnd(f) > 0 then SendAck(f.(rcv := f.rcv.(zeroWin := false))) else f,
       Done(e.rcv.buf[..n]))
  }

  function Close(e: Engine): (Engine, Outcome<()>) {
    if e.state == CLOSED then (e, Refused(DoesNotExist))
    else if IsClosing(e.state) then (e, Refused(Closing))
    else if e.state == LISTEN || e.state == SYN_SENT then (EnterClosed(e), Done(()))
    else (SendPending(e.(snd := e.snd.(finPending := true))), Done(()))
  }

  function Abort(e: Engine): (Engine, Outcome<()>) {
    if e.state == CLOSED then (e, Refused(DoesNotExist)) else (EnterClosed(SendRst(e)), Done(()))
  }

  // ---------------------------------------------------------------------------------------------
  // Timer callbacks
  // ---------------------------------------------------------------------------------------------

  predicate UserTimedOut(e: Engine) {
    e.tm.userTimeout.Some? && e.tm.unaSince.Some? && e.tm.now - e.tm.unaSince.value >= e.tm.userTimeout.value
  }

  /** Retransmit the oldest entry after backing off (Karn: its RTT is no longer timed). */
  function Retransmit(e: Engine): Engine
    requires e.snd.retx != []
  {
    var o := e.snd.retx[0].(retransmitted := true, sentTime := e.tm.now, copies := e.snd.retx[0].copies + 1);
    var f := e.(rtt := RttBackoff(e.cfg.timers, e.rtt),
                snd := e.snd.(rttPending := None, retx := [o] + e.snd.retx[1..]));
    var g := Emit(f, o.seqNo, o.flags, o.payload, o.flags.syn);
    g.(tm := g.tm.(rt := Later(g.tm, g.rtt.rto)))
  }

  function OnRto(e: Engine): Engine {
    var f := e.(tm := e.tm.(rt := None));
    if f.snd.retx == [] then f
    else if UserTimedOut(f) then GiveUp(f, UserTimeout)
    else
      var g := f.(tm := f.tm.(rtoCount := f.tm.rtoCount + 1));
      if g.tm.rtoCount > g.cfg.timers.maxRetransmits then GiveUp(g, RetransmissionTimeout)
      else Retransmit(g)
  }

  function RearmPersist(e: Engine): Engine {
    var backoff := MinR(MaxR(e.tm.persistBackoff * 2.0, e.cfg.timers.persistMin), e.cfg.timers.persistMax);
    e.(tm := e.tm.(persistBackoff := backoff, persist := Later(e.tm, backoff)))
  }

  function OnPersist(e: Engine): Engine {
    var f := e.(tm := e.tm.(persist := None));
    if f.snd.wnd > 0 then SendPending(f)
    else if f.snd.appBuf != [] then RearmPersist(SendChunk(f, 1))
    else if f.snd.finPending && !f.snd.finSent then RearmPersist(SendFin(f))
    else f
  }

  function OnTimeWait(e: Engine): Engine { EnterClosed(e.(tm := e.tm.(tw := None))) }

  function OnDelack(e: Engine): Engine { SendAck(e.(tm := e.tm.(ack := None))) }

  function OnKeepalive(e: Engine): Engine {
    var f := e.(tm := e.tm.(ka := None));
    if f.cfg.timers.keepaliveIdle.None? || f.state != ESTABLISHED then f
    else if f.snd.retx != [] then RestartKeepalive(f, false)
    else if f.tm.kaProbes >= f.cfg.timers.keepaliveCount then GiveUp(f, KeepaliveTimeout)
    else
      var g := Emit(f, Sub(f.snd.una, 1), ACK, [], false);
      RestartKeepalive(g.(tm := g.tm.(kaProbes := g.tm.kaProbes + 1)), false)
  }
}
