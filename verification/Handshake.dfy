/** Opening a connection: three segments open it between an active and a passive side, and crossing SYNs between two active
    ones; each side then expects exactly what the other sends next, and may send what the other offered. */
module Handshake {
  import opened SeqNum
  import opened EngineState
  import opened EngineSpec
  import opened EngineFacts
  import opened SendInvariant
  import opened SendPath
  import opened EngineInvariant
  import opened SegmentArrives
  import opened Opening
  import opened EngineRuns
  import opened Reassembly
  import opened RunTheorems
  import opened Corners
  import opened WireLog
  import opened WindowUpdate
  import T = TextArrival
  import R = Resets
  import H = HonestPeer
  import U = UserCalls

  // ---------------------------------------------------------------------------------------------
  // One segment at a time
  // ---------------------------------------------------------------------------------------------

  /** The segment says where its sender's stream begins, or goes on: ports, numbers, flags and segment size. */
  predicate Says(seg: Segment, from: u16, to: u16, flags: Flags, sn: u32, ack: u32) {
    && seg.srcPort == from && seg.dstPort == to && seg.flags == flags && seg.seqNo == sn && seg.ackNo == ack && seg.payload == []
    && (flags.syn ==> seg.mss.Some? && seg.mss.value > 0) && seg.window < 0x1_0000
  }

  predicate GrowsByOne(e: Engine, f: Engine) { |f.wire| == |e.wire| + 1 && f.wire[..|e.wire|] == e.wire }

  /** What `e` put on the wire with its `i`-th `tx` call, as it comes off the wire. */
  function Sent(e: Engine, i: nat): Segment
    requires i < |e.wire|
  {
    OffWire(e.wire[i].seg)
  }

  lemma QueueSends(e: Engine, flags: Flags)
    requires flags == SYN || flags == SYN_ACK
    ensures var f := QueueAndSend(e, flags, [], true);
            && GrowsByOne(e, f) && Says(Sent(f, |e.wire|), e.localPort, e.remotePort, flags, e.snd.nxt, if flags.ack then e.rcv.nxt else 0)
            && f.snd.nxt == Add(e.snd.nxt, 1) && f.snd == e.snd.(nxt := f.snd.nxt, retx := f.snd.retx, rttPending := f.snd.rttPending)
            && f.state == e.state && f.localPort == e.localPort && f.remotePort == e.remotePort && f.cfg == e.cfg
            && f.rcv == e.rcv.(zeroWin := f.rcv.zeroWin, advRight := f.rcv.advRight) && f.passive == e.passive
  {
    hide RcvWnd, AdvertisedRight, PosOf, Reach, Add;
  }

  /** An active OPEN puts a SYN on the wire. */
  lemma OpenSaysSyn(e: Engine, now: real, r: Option<u16>, l: Option<u16>, t: Option<real>)
    requires e.state == CLOSED || e.state == LISTEN
    ensures var f := Step(e, now, OpenCalled(true, r, l, t));
            && f.state == SYN_SENT && GrowsByOne(e, f) && Says(Sent(f, |e.wire|), f.localPort, f.remotePort, SYN, e.cfg.iss, 0)
            && f.localPort == (if l.Some? then l.value else e.localPort) && f.remotePort == (if r.Some? then r.value else e.remotePort)
            && f.cfg == e.cfg && f.snd.nxt == Add(e.cfg.iss, 1) && f.snd.una == e.cfg.iss
  {
    hide QueueAndSend, SetState, Says, Add, EngineSpec.Open;
    var a := At(e, now);
    var g := a.(remotePort := if r.Some? then r.value else a.remotePort, localPort := if l.Some? then l.value else a.localPort,
                tm := a.tm.(userTimeout := if t.Some? then t else a.tm.userTimeout));
    OpeningSyn(g);
    assert Step(e, now, OpenCalled(true, r, l, t)) == EngineSpec.Open(g);
  }

  lemma OpeningSyn(g: Engine)
    ensures var f := EngineSpec.Open(g);
            && f.state == SYN_SENT && GrowsByOne(g, f) && Says(Sent(f, |g.wire|), g.localPort, g.remotePort, SYN, g.cfg.iss, 0)
            && f.localPort == g.localPort && f.remotePort == g.remotePort && f.cfg == g.cfg && !f.passive
            && f.snd.nxt == Add(g.cfg.iss, 1) && f.snd.una == g.cfg.iss
  {
    hide QueueAndSend, SetState, Says, Add;
    var h := g.(passive := false, snd := g.snd.(iss := g.cfg.iss, una := g.cfg.iss, nxt := g.cfg.iss, wnd := 0),
                hist := g.hist.(started := true, unaPos := 0, since := |g.wire|));
    StateTouches(h, SYN_SENT);
    QueueSends(SetState(h, SYN_SENT), SYN);
  }

  /** OPEN is refused exactly if there is a connection or an attempt, or for a passive one a listener; ports and user timeout
      are bound even then. Else the side listens, or sends its SYN. */
  lemma OpenTakes(e: Engine, now: real, act: bool, r: Option<u16>, l: Option<u16>, t: Option<real>)
    ensures var f, o := Step(e, now, OpenCalled(act, r, l, t)), OpenCall(At(e, now), act, r, l, t).1;
            && (o.Refused? <==> Active(e.state) || (e.state == LISTEN && !act)) && (o.Refused? ==> o.why == AlreadyExists)
            && f.localPort == (if l.Some? then l.value else e.localPort) && f.remotePort == (if r.Some? then r.value else e.remotePort)
            && (if o.Refused? then f.state == e.state && f.wire == e.wire && f.snd == e.snd && f.rcv == e.rcv && f.hist == e.hist
                else if act then f.state == SYN_SENT && !f.passive else f.state == LISTEN && f.passive && f.wire == e.wire)
  {
    hide EngineSpec.Open, SetState, Says, Add, OpenCall;
    var a := At(e, now);
    var g := a.(remotePort := if r.Some? then r.value else a.remotePort, localPort := if l.Some? then l.value else a.localPort,
                tm := a.tm.(userTimeout := if t.Some? then t else a.tm.userTimeout));
    OpeningSyn(g);
    var p := g.(passive := true, hist := g.hist.(started := true));
    StateTouches(p, LISTEN);
    U.OpenCallIs(a, act, r, l, t);
    OpenAnswer(a, act, r, l, t);
  }

  lemma OpenAnswer(e: Engine, act: bool, r: Option<u16>, l: Option<u16>, t: Option<real>)
    ensures OpenCall(e, act, r, l, t).1 == if e.state != CLOSED && !(act && e.state == LISTEN) then Refused(AlreadyExists) else Done(())
  {
    hide EngineSpec.Open, SetState;
  }

  predicate KnowsPort(e: Engine, seg: Segment) { e.remotePort == 0 || seg.srcPort == 0 || seg.srcPort == e.remotePort }

  /** A SYN in LISTEN is answered by a SYN of ours that acknowledges it; the listener takes over whose it is, how much that
      may be sent, and where its stream begins. */
  lemma ListenAnswersSyn(e: Engine, now: real, seg: Segment)
    requires e.state == LISTEN && ForUs(e, seg) && seg.flags == SYN && KnowsPort(e, seg)
    ensures var f := Step(e, now, Arrives(seg));
            && f.state == SYN_RECEIVED && GrowsByOne(e, f)
            && Says(Sent(f, |e.wire|), e.localPort, f.remotePort, SYN_ACK, e.cfg.iss, Add(seg.seqNo, 1))
            && f.localPort == e.localPort && f.remotePort == (if e.remotePort == 0 then seg.srcPort else e.remotePort)
            && f.cfg == e.cfg && f.snd.wnd == seg.window && f.snd.wl1 == seg.seqNo && f.snd.wl2 == f.snd.una == e.cfg.iss
            && f.snd.nxt == Add(e.cfg.iss, 1)
            && f.rcv.nxt == Add(seg.seqNo, 1) && f.snd.finPending == e.snd.finPending && f.rcv.ooo == e.rcv.ooo
            && f.rcv.pendingFin == e.rcv.pendingFin && f.snd.appBuf == e.snd.appBuf
  {
    hide QueueAndSend, SetState, Says, Add, PeerMss;
    var a := At(e, now);
    var g := AnswerSyn(a.(remotePort := if a.remotePort == 0 then seg.srcPort else a.remotePort), seg);
    StateTouches(g, SYN_RECEIVED);
    QueueSends(SetState(g, SYN_RECEIVED), SYN_ACK);
  }

  /** Without a CLOSE the send path sends no FIN. */
  lemma {:induction false} NoFinStays(e: Engine)
    requires !e.snd.finPending
    ensures PumpData(e).state == e.state && !PumpData(e).snd.finPending
    decreases |e.snd.appBuf|
  {
    hide RcvWnd, AdvertisedRight, PosOf, Reach, UsableWindow;
    if e.snd.appBuf != [] && e.snd.wnd != 0 && UsableWindow(e) > 0 {
      var n := Min(Min(e.snd.mss, UsableWindow(e)), |e.snd.appBuf|);
      if !(e.cfg.timers.nagle && e.snd.retx != [] && n < e.snd.mss) { NoFinStays(SendChunk(e, n)); }
    }
  }

  /** `f` is open: it may send what `seg` says, which counts as the last window update, and expects the number `nxt`. */
  predicate Open(f: Engine, seg: Segment, nxt: u32) {
    && f.state == ESTABLISHED && f.rcv.nxt == nxt
    && f.snd.wnd == seg.window && f.snd.wl1 == seg.seqNo && f.snd.wl2 == seg.ackNo
  }

  lemma SendStaysOpen(e: Engine, seg: Segment, nxt: u32)
    requires Open(e, seg, nxt) && !e.snd.finPending
    ensures var f := SendPending(e); Open(f, seg, nxt) && e.wire <= f.wire && f.snd.una == e.snd.una
  {
    hide PumpData;
    NoFinStays(e);
    SendOnlySends(e);
    SendAppends(e);
  }

  lemma AckSays(e: Engine)
    requires e.cfg.rcvWnd < QUARTER
    ensures GrowsByOne(e, SendAck(e)) && Says(Sent(SendAck(e), |e.wire|), e.localPort, e.remotePort, ACK, e.snd.nxt, e.rcv.nxt)
    ensures SendAck(e).snd == e.snd && SendAck(e).rcv.nxt == e.rcv.nxt && SendAck(e).state == e.state && SendAck(e).cfg == e.cfg
  {
    hide RcvWnd, AdvertisedRight, PosOf, Reach;
  }

  lemma TakenSyn(e: Engine, seg: Segment)
    requires Inv(e, None) && e.state == SYN_SENT && seg.flags.syn && !seg.flags.rst && seg.window < 0x1_0000
    requires seg.flags.ack ==> seg.ackNo == e.snd.nxt
    ensures seg.flags.ack ==> !SeqLeq(seg.ackNo, e.snd.iss) && !SeqGt(seg.ackNo, e.snd.nxt)
    ensures var f := TakeSyn(e, seg);
            && SynTaken(e, f, seg, None) && f.wire == e.wire && f.snd.wnd == seg.window && f.snd.nxt == e.snd.nxt
            && f.snd.wl1 == seg.seqNo && f.snd.wl2 == (if seg.flags.ack then seg.ackNo else e.cfg.iss)
            && f.snd.iss == e.snd.iss == e.cfg.iss && f.localPort == e.localPort && f.remotePort == e.remotePort && !f.snd.finPending
            && e.snd.nxt == Add(e.cfg.iss, 1)
  {
    hide Trail, Tiles, PeerMss, S32, Settled, KarnOk, WireOk, Wrap, SynTaken, Trim, RttSample, TakesSample, Tally, AllAck, RtLive;
    R.SynOut(e);
    AddWraps(e.snd.iss, 0, 1);
    assert e.snd.iss + 0 + 1 == e.snd.iss + 1;
    SerialOrder(e.snd.iss, 1, 0);
    SerialOrder(e.snd.iss, 1, 1);
    TakeSynOk(e, seg, None);
  }

  /** The answer to our SYN opens our side, and is acknowledged before anything else is sent. */
  lemma SynAckOpens(e: Engine, now: real, seg: Segment)
    requires Inv(e, None) && e.state == SYN_SENT && ForUs(e, seg) && seg.flags == SYN_ACK && seg.ackNo == e.snd.nxt
    requires seg.payload == [] && seg.window < 0x1_0000 && e.cfg.rcvWnd < QUARTER
    ensures var f := Step(e, now, Arrives(seg));
            && Open(f, seg, Add(seg.seqNo, 1)) && f.snd.una == Add(e.cfg.iss, 1) && e.wire < f.wire
            && Says(Sent(f, |e.wire|), e.localPort, e.remotePort, ACK, Add(e.cfg.iss, 1), Add(seg.seqNo, 1))
  {
    hide Inv, TakeSyn, SetState, SendPending, SendAck, SimultaneousOpen, HandleSynchronized, Says, SeqLeq, SeqGt, SendOk, WireOk;
    ClockOk(e, now, None);
    var a := At(e, now);
    ArrivalIs(e, now, seg);
    TakenSyn(a, seg);
    var f := TakeSyn(a, seg);
    StateTouches(f, ESTABLISHED);
    StateKeepsWire(f, ESTABLISHED);
    var m := SetState(f, ESTABLISHED);
    AckSays(m);
    SendStaysOpen(SendAck(m), seg, Add(seg.seqNo, 1));
    assert OnSegment(a, seg) == SendPending(SendAck(m));
  }

  /** The acknowledgement of our SYN opens a side that waits for it. */
  lemma AckOpens(e: Engine, now: real, seg: Segment)
    requires Inv(e, None) && e.state == SYN_RECEIVED && ForUs(e, seg) && Says(seg, seg.srcPort, seg.dstPort, ACK, e.rcv.nxt, e.snd.nxt)
    requires !e.snd.finPending && e.rcv.ooo == [] && e.rcv.pendingFin == None && e.cfg.rcvWnd < QUARTER
    ensures var f := Step(e, now, Arrives(seg)); Open(f, seg, e.rcv.nxt) && f.snd.una == e.snd.nxt
  {
    hide Inv, SetState, SendPending, ProcessAck, HandleTimeWait, DoReset, SendAck, EmitRstReply, Acceptable, RcvWnd, SeqLt, SeqLeq;
    ClockOk(e, now, None);
    var a := At(e, now);
    ArrivalIs(e, now, seg);
    R.AtNxt(a, 0);
    NxtAcksSyn(a);
    AckProcessedTouches(a, seg.ackNo);
    AckKeepsSend(a, seg.ackNo);
    AckSetsUna(a, seg.ackNo);
    AckKeepsFin(a, seg.ackNo);
    var f := ProcessAck(a, seg.ackNo);
    var g := f.(snd := f.snd.(wnd := seg.window, wl1 := seg.seqNo, wl2 := seg.ackNo));
    StateTouches(g, ESTABLISHED);
    var k := SetState(g, ESTABLISHED);
    assert Merge(k) == k;
    SendStaysOpen(k, seg, e.rcv.nxt);
    var h := SendPending(k);
    SendOnlySends(k);
    NoFinAgain(k);
    SendStaysOpen(h, seg, e.rcv.nxt);
    SendOnlySends(h);
    assert OnSegment(a, seg) == TextAndFin(h, seg) == SendPending(h);
  }

  lemma AckKeepsFin(e: Engine, ack: u32)
    ensures ProcessAck(e, ack).snd.finPending == e.snd.finPending
  {
    hide Trim, RttSample, TakesSample;
  }

  lemma NoFinAgain(e: Engine)
    requires !e.snd.finPending
    ensures !SendPending(e).snd.finPending
  {
    hide PumpData;
    NoFinStays(e);
  }

  // ---------------------------------------------------------------------------------------------
  // Three segments
  // ---------------------------------------------------------------------------------------------

  /** An OPEN of each side, active and passive, and three segments: both are open, each expects what the other sends next,
      and may send as much as the other offered last. */
  lemma ThreeSegmentsOpen(a: Engine, b: Engine, i: nat, t1: real, t2: real, t3: real)
    requires Reached(a) && a.state == SYN_SENT && Reached(b) && b.state == LISTEN && a.cfg.rcvWnd < QUARTER && b.cfg.rcvWnd < QUARTER
    requires i < |a.wire| && Says(Sent(a, i), a.localPort, a.remotePort, SYN, a.cfg.iss, 0)
    requires a.localPort != 0 && (b.remotePort == 0 || b.remotePort == a.localPort)
    requires b.localPort == 0 || a.remotePort == 0 || a.remotePort == b.localPort
    ensures var b1 := Step(b, t1, Arrives(Sent(a, i)));
            && b1.state == SYN_RECEIVED && |b1.wire| == |b.wire| + 1 && b1.remotePort == a.localPort
            && var a1 := Step(a, t2, Arrives(Sent(b1, |b.wire|)));
               && Open(a1, Sent(b1, |b.wire|), Add(b.cfg.iss, 1)) && a1.snd.una == Add(a.cfg.iss, 1) && |a1.wire| > |a.wire|
               && var b2 := Step(b1, t3, Arrives(Sent(a1, |a.wire|)));
                  && Open(b2, Sent(a1, |a.wire|), Add(a.cfg.iss, 1)) && b2.snd.una == Add(b.cfg.iss, 1)
  {
    hide Reached, Inv, Step, Add;
    ReachedInv(a);
    ReachedInv(b);
    R.SynOut(a);
    SynNumber(a);
    ListenClean(b);
    ListenAnswersSyn(b, t1, Sent(a, i));
    var b1 := Step(b, t1, Arrives(Sent(a, i)));
    SynAckOpens(a, t2, Sent(b1, |b.wire|));
    var a1 := Step(a, t2, Arrives(Sent(b1, |b.wire|)));
    StepOk(b, t1, Arrives(Sent(a, i)), None);
    AckOpens(b1, t3, Sent(a1, |a.wire|));
  }

  lemma SynNumber(e: Engine)
    requires Inv(e, None) && e.state == SYN_SENT
    ensures e.snd.nxt == Add(e.cfg.iss, 1)
  {
    hide Trail, Tiles, Settled, KarnOk, WireOk, Tally, AllAck, RtLive;
    AddWraps(e.snd.iss, 0, 1);
    WrapOfU32(e.snd.iss);
    assert e.snd.iss + 0 + 1 == e.snd.iss + 1;
  }

  lemma ListenClean(e: Engine)
    requires Inv(e, None) && e.state == LISTEN
    ensures !e.snd.finPending && e.rcv.ooo == [] && e.rcv.pendingFin == None
  {
    hide Trail, Settled, WireOk;
  }

  // ---------------------------------------------------------------------------------------------
  // Crossing SYNs
  // ---------------------------------------------------------------------------------------------

  /** A side whose SYN crossed the other's: it has sent its own again with an acknowledgement, and waits for one. */
  predicate Crossed(e: Engine, f: Engine, seg: Segment) {
    && f.state == SYN_RECEIVED && GrowsByOne(e, f) && f.cfg == e.cfg && f.localPort == e.localPort && f.remotePort == e.remotePort
    && Says(Sent(f, |e.wire|), e.localPort, e.remotePort, SYN_ACK, e.cfg.iss, Add(seg.seqNo, 1))
    && f.snd.wnd == seg.window && f.snd.wl1 == seg.seqNo && f.snd.wl2 == e.cfg.iss
    && f.snd.nxt == e.snd.nxt && f.rcv.nxt == Add(seg.seqNo, 1)
    && !f.snd.finPending && f.rcv.ooo == [] && f.rcv.pendingFin == None
  }

  lemma CrossingSynAnswered(e: Engine, now: real, seg: Segment)
    requires Inv(e, None) && e.state == SYN_SENT && ForUs(e, seg) && seg.flags == SYN && seg.payload == [] && seg.window < 0x1_0000
    ensures Crossed(e, Step(e, now, Arrives(seg)), seg)
  {
    hide Inv, TakeSyn, SetState, Emit, Add, SendOk, WireOk, Says, RtLive;
    ClockOk(e, now, None);
    var a := At(e, now);
    ArrivalIs(e, now, seg);
    TakenSyn(a, seg);
    NothingYet(a);
    var f := TakeSyn(a, seg);
    assert !SeqGt(f.snd.una, f.snd.iss);
    StateTouches(f, SYN_RECEIVED);
    StateKeepsWire(f, SYN_RECEIVED);
    var g := SynBecomesSynAck(SetState(f, SYN_RECEIVED));
    assert HoldSynData(g, seg) == g;
    EmitSays(g);
  }

  lemma EmitSays(e: Engine)
    ensures var f := Emit(e, e.snd.iss, SYN_ACK, [], true);
            && GrowsByOne(e, f) && Says(Sent(f, |e.wire|), e.localPort, e.remotePort, SYN_ACK, e.snd.iss, e.rcv.nxt)
            && f == e.(rcv := e.rcv.(zeroWin := f.rcv.zeroWin, advRight := f.rcv.advRight), wire := f.wire)
  {
    hide RcvWnd, AdvertisedRight, PosOf, Reach;
  }

  /** The other's SYN-ACK comes too late for that: it is answered with an acknowledgement of where we are. */
  lemma SynAgainAnswered(e: Engine, now: real, seg: Segment, iss: u32)
    requires Inv(e, None) && e.state == SYN_RECEIVED && ForUs(e, seg) && e.rcv.nxt == Add(iss, 1) && e.cfg.rcvWnd < QUARTER
    requires Says(seg, seg.srcPort, seg.dstPort, SYN_ACK, iss, seg.ackNo)
    ensures R.AcksOnly(e, Step(e, now, Arrives(seg)))
  {
    hide Inv, Step, RcvWnd, R.AcksOnly, Wrap, Acceptable;
    H.RcvWndWithinBuffer(e);
    WrapOfU32(iss);
    AddWraps(iss, 0, 1);
    assert iss + 0 + 1 == iss + 1;
    AcceptableUnwrapped(iss, 0, 1, 1, RcvWnd(e));
    R.StrayIsAnswered(e, now, seg);
  }

  /** The current acknowledgement of the other side opens ours. */
  lemma CurrentAckOpens(a: Engine, b: Engine, now: real)
    requires Inv(a, None) && a.state == SYN_RECEIVED && !a.snd.finPending && a.rcv.ooo == [] && a.rcv.pendingFin == None
    requires a.cfg.rcvWnd < QUARTER && b.snd.nxt == a.rcv.nxt && b.rcv.nxt == a.snd.nxt
    requires a.localPort == 0 || b.remotePort == a.localPort
    ensures var f := Step(a, now, Arrives(OffWire(R.CurrentAck(b).seg)));
            Open(f, OffWire(R.CurrentAck(b).seg), b.snd.nxt) && f.snd.una == b.rcv.nxt
  {
    hide Inv, Step, RcvWnd;
    AckOpens(a, now, OffWire(R.CurrentAck(b).seg));
  }

  predicate ForEachOther(a: Engine, b: Engine) { a.localPort == b.remotePort && b.localPort == a.remotePort }

  lemma CrossingStep(a: Engine, b: Engine, i: nat, t1: real, t2: real, synAck: Segment)
    requires Inv(a, None) && a.state == SYN_SENT && ForEachOther(a, b) && a.cfg.rcvWnd < QUARTER
    requires i < |b.wire| && Says(Sent(b, i), b.localPort, b.remotePort, SYN, b.cfg.iss, 0)
    requires Says(synAck, b.localPort, b.remotePort, SYN_ACK, b.cfg.iss, Add(a.cfg.iss, 1))
    ensures var a1 := Step(a, t1, Arrives(Sent(b, i)));
            && Crossed(a, a1, Sent(b, i)) && Inv(a1, None)
            && var a2 := Step(a1, t2, Arrives(synAck));
               && Inv(a2, None) && R.AcksOnly(a1, a2)
  {
    hide Inv, Step, RcvWnd, R.AcksOnly;
    CrossingSynAnswered(a, t1, Sent(b, i));
    var a1 := Step(a, t1, Arrives(Sent(b, i)));
    StepOk(a, t1, Arrives(Sent(b, i)), None);
    SynAgainAnswered(a1, t2, synAck, b.cfg.iss);
    StepOk(a1, t2, Arrives(synAck), None);
  }

  /** Simultaneous open: two SYNs that cross, a SYN-ACK and an acknowledgement from each side, and both are open: each expects
      what the other sends next, and may send as much as the other offered last. */
  lemma CrossingSynsOpen(a: Engine, b: Engine, i: nat, j: nat, t1: real, t2: real, t3: real)
    requires Reached(a) && a.state == SYN_SENT && Reached(b) && b.state == SYN_SENT && a.cfg.rcvWnd < QUARTER && b.cfg.rcvWnd < QUARTER
    requires ForEachOther(a, b)
    requires i < |a.wire| && Says(Sent(a, i), a.localPort, a.remotePort, SYN, a.cfg.iss, 0)
    requires j < |b.wire| && Says(Sent(b, j), b.localPort, b.remotePort, SYN, b.cfg.iss, 0)
    ensures var a1, b1 := Step(a, t1, Arrives(Sent(b, j))), Step(b, t1, Arrives(Sent(a, i)));
            && Crossed(a, a1, Sent(b, j)) && Crossed(b, b1, Sent(a, i))
            && var a2, b2 := Step(a1, t2, Arrives(Sent(b1, |b.wire|))), Step(b1, t2, Arrives(Sent(a1, |a.wire|)));
               && |a2.wire| == |a1.wire| + 1 && |b2.wire| == |b1.wire| + 1
               && var a3, b3 := Step(a2, t3, Arrives(Sent(b2, |b1.wire|))), Step(b2, t3, Arrives(Sent(a2, |a1.wire|)));
                  && Open(a3, Sent(b2, |b1.wire|), b3.snd.una) && Open(b3, Sent(a2, |a1.wire|), a3.snd.una)
                  && a3.snd.una == Add(a.cfg.iss, 1) && b3.snd.una == Add(b.cfg.iss, 1)
  {
    hide Reached, Inv, Step, RcvWnd, R.AcksOnly, Says;
    ReachedInv(a);
    ReachedInv(b);
    SynIs(a, i);
    SynIs(b, j);
    CrossingSynAnswered(a, t1, Sent(b, j));
    CrossingSynAnswered(b, t1, Sent(a, i));
    var a1, b1 := Step(a, t1, Arrives(Sent(b, j))), Step(b, t1, Arrives(Sent(a, i)));
    CrossingStep(a, b, j, t1, t2, Sent(b1, |b.wire|));
    CrossingStep(b, a, i, t1, t2, Sent(a1, |a.wire|));
    SynNumber(a);
    SynNumber(b);
    var a2, b2 := Step(a1, t2, Arrives(Sent(b1, |b.wire|))), Step(b1, t2, Arrives(Sent(a1, |a.wire|)));
    AckedLast(a1, a2);
    AckedLast(b1, b2);
    CurrentAckOpens(a2, b1, t3);
    CurrentAckOpens(b2, a1, t3);
  }

  lemma SynIs(e: Engine, i: nat)
    requires i < |e.wire| && Says(Sent(e, i), e.localPort, e.remotePort, SYN, e.cfg.iss, 0)
    ensures Sent(e, i).flags == SYN && Sent(e, i).payload == [] && Sent(e, i).window < 0x1_0000 && Sent(e, i).seqNo == e.cfg.iss
    ensures Sent(e, i).dstPort == e.remotePort
  {
  }

  lemma AckedLast(e: Engine, f: Engine)
    requires R.AcksOnly(e, f)
    ensures |f.wire| == |e.wire| + 1 && Sent(f, |e.wire|) == OffWire(R.CurrentAck(e).seg)
    ensures f.state == e.state && f.snd == e.snd && f.rcv.nxt == e.rcv.nxt && f.rcv.ooo == e.rcv.ooo && f.rcv.pendingFin == e.rcv.pendingFin
    ensures f.cfg == e.cfg && f.localPort == e.localPort && f.remotePort == e.remotePort
  {
  }

  // ---------------------------------------------------------------------------------------------
  // Data with the SYN-ACK
  // ---------------------------------------------------------------------------------------------

  /** How much of the segment's text the window takes. */
  function Fits(seg: Segment, window: nat): nat { Min(window, |seg.payload|) }

  /** `f` has taken what fits of the first text, and its FIN if that was all. */
  predicate TookText(e: Engine, f: Engine, seg: Segment, window: nat) {
    && f.hist.delivered == e.hist.delivered + seg.payload[..Fits(seg, window)]
    && (seg.flags.fin ==> f.hist.fins == e.hist.fins + Bit(Fits(seg, window) == |seg.payload|))
  }

  lemma InOrderText(e: Engine, seg: Segment, window: nat)
    requires e.rcv.ooo == [] && seg.seqNo == e.rcv.nxt && RcvWnd(e) == window > 0 && e.cfg.rcvWnd < QUARTER
    ensures var f := RecvData(e, seg);
            && f.hist == e.hist.(delivered := e.hist.delivered + seg.payload[..Fits(seg, window)])
            && f.rcv.nxt == Add(e.rcv.nxt, Fits(seg, window)) && f.rcv.pendingFin == e.rcv.pendingFin
  {
    hide RcvWnd, SendAck, S32, Wrap;
    H.RcvWndWithinBuffer(e);
    WrapOfU32(e.rcv.nxt);
    SerialOrder(e.rcv.nxt, 0, 0);
    if seg.payload == [] {
      assert e.hist.delivered + [] == e.hist.delivered;
    } else {
      H.SpaceIs(e.rcv.nxt, 0, window, 0);
      assert seg.payload[0..] == seg.payload;
      var d := Deliver(e, seg.payload[..Fits(seg, window)]);
      assert Merge(d) == d;
      AckTouches(d);
      AckTouches(d.(tm := d.tm.(ackCount := d.tm.ackCount + 1)));
    }
  }

  lemma FirstText(e: Engine, seg: Segment, window: nat)
    requires e.state == ESTABLISHED && e.rcv.ooo == [] && e.rcv.pendingFin == None && seg.seqNo == e.rcv.nxt
    requires RcvWnd(e) == window > 0 && e.cfg.rcvWnd < QUARTER && |seg.payload| < HALF
    ensures TookText(e, TextAndFin(e, seg), seg, window)
  {
    hide RecvData, SendPending, ProcessFin, RcvWnd, SeqGt;
    InOrderText(e, seg, window);
    var g := RecvData(e, seg);
    SendOnlySends(g);
    var h := SendPending(g);
    FinConsumed(h);
    NotAllTaken(e.rcv.nxt, Fits(seg, window), |seg.payload|);
  }

  lemma NotAllTaken(x: u32, k: nat, n: nat)
    requires k <= n < HALF
    ensures Add(x, k) == Add(x, n) <==> k == n
  {
    WrapOfU32(x);
    AddWraps(x, 0, k);
    AddWraps(x, 0, n);
    SerialOrder(x, k, n);
  }

  /** Text and FIN that come with the answer to our SYN are taken as any: what fits in the window offered once the other's
      number is known is delivered at once, and the FIN if it fits too. */
  lemma SynAckTextTaken(e: Engine, now: real, seg: Segment)
    requires Inv(e, None) && e.state == SYN_SENT && ForUs(e, seg) && seg.flags.syn && seg.flags.ack && !seg.flags.rst
    requires seg.ackNo == e.snd.nxt && seg.window < 0x1_0000 && e.cfg.rcvWnd < QUARTER && |seg.payload| < HALF
    requires RcvWnd(TakeSyn(At(e, now), seg)) > 0
    ensures TookText(e, Step(e, now, Arrives(seg)), seg, RcvWnd(TakeSyn(At(e, now), seg)))
  {
    hide Inv, TakeSyn, SetState, SendPending, SendAck, SimultaneousOpen, HandleSynchronized, RcvWnd, SeqLeq, SeqGt, SendOk, WireOk, TookText;
    ClockOk(e, now, None);
    var a := At(e, now);
    var window := RcvWnd(TakeSyn(a, seg));
    ArrivalIs(e, now, seg);
    TakenSyn(a, seg);
    NothingYet(a);
    var f := TakeSyn(a, seg);
    StateTouches(f, ESTABLISHED);
    var m := SetState(f, ESTABLISHED);
    T.OfferDependsOn(f, m);
    AckTouches(m);
    AckKeepsOffer(m);
    var k := SendAck(m);
    SendStaysOpen(k, seg, Add(seg.seqNo, 1));
    NoFinAgain(k);
    SendOnlySends(k);
    T.SendKeepsOffer(k);
    var g := SendPending(k);
    SynSentGoesOn(a, seg);
    var cont := seg.(flags := seg.flags.(syn := false), seqNo := Add(seg.seqNo, 1));
    if seg.payload != [] || seg.flags.fin {
      assert OnSegment(a, seg) == HandleSynchronized(g, cont);
      ContinuedText(g, cont, window);
      SameText(e, g, HandleSynchronized(g, cont), seg, cont, window);
    } else {
      assert OnSegment(a, seg) == g;
      NothingTaken(e, g, seg, window);
    }
  }

  lemma SynSentGoesOn(e: Engine, seg: Segment)
    requires Inv(e, None) && e.state == SYN_SENT && seg.flags.syn && seg.flags.ack && !seg.flags.rst && seg.window < 0x1_0000
    requires !SeqLeq(seg.ackNo, e.snd.iss) && !SeqGt(seg.ackNo, e.snd.nxt)
    ensures Inv(SendPending(SendAck(SetState(TakeSyn(e, seg), ESTABLISHED))), None)
  {
    hide TakeSyn, SendPending, SendAck, SetState, SeqLeq, SeqGt, Tiles, Wrap, KarnOk, PacketOk, Trail, Settled;
    TakeSynOk(e, seg, None);
    SynSentEstablishes(TakeSyn(e, seg), None);
  }

  lemma AckKeepsOffer(e: Engine)
    requires e.cfg.rcvWnd < QUARTER
    ensures RcvWnd(SendAck(e)) == RcvWnd(e)
  {
    hide RcvWnd, Emit;
    T.EmitKeepsOffer(e, e.snd.nxt, ACK, [], false);
    T.OfferDependsOn(Emit(e, e.snd.nxt, ACK, [], false), SendAck(e));
  }

  lemma SameText(e: Engine, g: Engine, f: Engine, seg: Segment, cont: Segment, window: nat)
    requires TookText(g, f, cont, window) && g.hist.delivered == e.hist.delivered && g.hist.fins == e.hist.fins
    requires cont.payload == seg.payload && cont.flags.fin == seg.flags.fin
    ensures TookText(e, f, seg, window)
  {
  }

  lemma NothingTaken(e: Engine, g: Engine, seg: Segment, window: nat)
    requires g.hist.delivered == e.hist.delivered && seg.payload == [] && !seg.flags.fin
    ensures TookText(e, g, seg, window)
  {
    assert e.hist.delivered + [] == e.hist.delivered;
  }

  lemma ContinuedText(g: Engine, seg: Segment, window: nat)
    requires Inv(g, None) && g.state == ESTABLISHED && g.rcv.ooo == [] && g.rcv.pendingFin == None && !g.snd.finPending
    requires seg.seqNo == g.rcv.nxt && seg.ackNo == g.snd.una && !seg.flags.rst && !seg.flags.syn && seg.flags.ack
    requires RcvWnd(g) == window > 0 && g.cfg.rcvWnd < QUARTER && |seg.payload| < HALF && seg.window < 0x1_0000
    ensures TookText(g, HandleSynchronized(g, seg), seg, window)
  {
    hide Inv, RcvWnd, TextAndFin, CancelPersist, Acceptable, SeqLt, SeqLeq, TookText, SendPending;
    R.AtNxt(g, seg.SegLen());
    UnaNotBeyond(g);
    NotAbove(g.snd.una);
    T.AckKeepsOffer(g, seg);
    var h := AckAndWindow(g, seg);
    var u := g.(snd := g.snd.(wnd := seg.window, wl1 := seg.seqNo, wl2 := seg.ackNo));
    SendOnlySends(u);
    CancelStays(u);
    FirstText(h, seg, window);
    SameText(g, h, TextAndFin(h, seg), seg, seg, window);
  }

  lemma CancelStays(e: Engine)
    requires !e.snd.finPending
    ensures CancelPersist(e).state == e.state
  {
    hide PumpData;
    NoFinStays(e.(tm := e.tm.(persist := None)));
  }

  lemma UnaNotBeyond(g: Engine)
    requires Inv(g, None) && g.state == ESTABLISHED
    ensures !SeqGt(g.snd.una, g.snd.nxt)
  {
    hide WireOk, Trail, Coupled, Settled, Tiles, KarnOk, Tally, AllAck, Wrap, RtLive;
    SerialOrder(g.snd.iss, g.hist.unaPos, SentEnd(g.hist));
  }
}
