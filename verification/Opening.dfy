/** The opening handshake keeps the engine's invariant: OPEN, LISTEN, SYN-SENT, simultaneous open. */
module Opening {
  import opened SeqNum
  import opened EngineState
  import opened EngineSpec
  import opened SendInvariant
  import opened SendPath
  import opened AckPath
  import opened RecvPath
  import opened EngineInvariant
  import opened SegmentArrives

  /** A SYN, if the segment has one, carries the initial sequence number the peer is known by. */
  predicate SynFrom(seg: Segment, peer: Option<u32>) {
    peer.Some? && seg.flags.syn && !seg.flags.rst ==> seg.seqNo == peer.value
  }

  /** Queueing the first SYN of a connection attempt. */
  lemma FirstSyn(e: Engine, flags: Flags, peer: Option<u32>)
    requires WireOk(e, peer) && e.snd.iss == e.snd.una == e.snd.nxt == e.cfg.iss && e.snd.retx == []
    requires !e.hist.synOut && e.hist.sent == [] && !e.hist.finOut && e.hist.unaPos == 0
    requires e.hist.accepted == e.snd.appBuf && e.snd.wnd < 0x1_0000
    requires !e.snd.finSent && !e.snd.finAcked && e.snd.rttPending == None
    requires e.hist.since == |e.wire| && flags.ack == e.passive
    requires (flags == SYN || flags == SYN_ACK) && (flags.ack ==> Knows(e, peer))
    ensures var f := QueueAndSend(e, flags, [], true);
            && SendOk(f) && WireOk(f, peer) && RtLive(f) && OnlySyn(f) && !f.hist.finOut
            && f.snd.retx[0].flags == flags && |f.snd.retx| == 1
            && f.hist == e.hist.(synOut := true)
            && f.state == e.state && f.signals == e.signals && f.cfg == e.cfg
            && f.rcv == e.rcv.(zeroWin := f.rcv.zeroWin, advRight := f.rcv.advRight)
            && f.tm == e.tm.(unaSince := f.tm.unaSince, rt := f.tm.rt)
            && f.snd.finPending == e.snd.finPending && f.passive == e.passive
  {
    hide PacketOk, RcvWnd, AdvertisedRight, PosOf, MakeSegment, Reach, Tally, AllAck;
    assert e.snd.nxt == Wrap(e.snd.iss + SentEnd(e.hist));
    FirstTally(e, peer);
    QueueAndSendOk(e, flags, [], true, peer);
    assert e.hist.sent + [] == e.hist.sent;
  }

  /** When an attempt begins, nothing of it was sent, and nothing but SYNs before. */
  lemma FirstTally(e: Engine, peer: Option<u32>)
    requires WireOk(e, peer) && e.hist.since == |e.wire| && e.hist.sent == [] && !e.hist.finOut && e.snd.retx == []
    ensures Tally(e.snd.retx, e.wire, e.hist.since) && AllAck(e.snd.retx, e.passive)
  {
    hide Genuine, Wrap;
    forall i | 0 <= i < |e.wire| ensures OnlySynAt(e.wire[i]) {
      assert PacketOk(e.wire[i], e.cfg.iss, e.hist, peer);
    }
  }

  lemma OpenOk(e: Engine, peer: Option<u32>)
    requires Inv(e, peer) && (e.state == CLOSED || e.state == LISTEN) && (e.state == CLOSED ==> !e.hist.started)
    ensures var f := EngineSpec.Open(e);
            Inv(f, peer) && Continues(e, f) && f.hist.unaPos == 0 && f.state == SYN_SENT && Unreceived(f)
            && SameReceived(e, f)
  {
    hide PacketOk, Wrap, Trail, SetState, QueueAndSend, PumpData;
    var g := e.(passive := false, snd := e.snd.(iss := e.cfg.iss, una := e.cfg.iss, nxt := e.cfg.iss, wnd := 0),
                hist := e.hist.(started := true, unaPos := 0, since := |e.wire|));
    WireGrows(e, g, peer);
    SetStateIs(g, SYN_SENT);
    FirstSyn(SetState(g, SYN_SENT), SYN, peer);
  }

  lemma HandleListenOk(e: Engine, seg: Segment, peer: Option<u32>)
    requires Inv(e, peer) && e.state == LISTEN && seg.window < 0x1_0000 && SynFrom(seg, peer)
    ensures Next(e, HandleListen(e, seg), seg, peer)
  {
    hide PacketOk, Trail, SetState, QueueAndSend, EmitRstReply, PumpData, Settled, PeerMss;
    if !seg.flags.rst {
      if seg.flags.ack {
        RstReplyKeepsInv(e, seg, seg.ackNo, 0, false, peer);
      } else if seg.flags.syn && !(e.remotePort != 0 && seg.srcPort != 0 && seg.srcPort != e.remotePort) {
        ListenAccepts(e, seg, peer);
      }
    }
  }

  lemma ListenAccepts(e: Engine, seg: Segment, peer: Option<u32>)
    requires Inv(e, peer) && e.state == LISTEN && seg.window < 0x1_0000 && SynFrom(seg, peer)
    requires !seg.flags.rst && !seg.flags.ack && seg.flags.syn
    requires !(e.remotePort != 0 && seg.srcPort != 0 && seg.srcPort != e.remotePort)
    ensures var f := HandleListen(e, seg);
            Inv(f, peer) && Continues(e, f) && f.hist.unaPos == 0 && f.state == SYN_RECEIVED && Unreceived(f)
            && f.rcv.irs == seg.seqNo
  {
    hide PacketOk, Trail, SetState, QueueAndSend, PumpData, PeerMss, Tally, AllAck, KarnOk, Tiles;
    var g := AnswerSyn(e.(remotePort := if e.remotePort == 0 then seg.srcPort else e.remotePort), seg);
    WireGrows(e, g, peer);
    SetStateIs(g, SYN_RECEIVED);
    FirstSyn(SetState(g, SYN_RECEIVED), SYN_ACK, peer);
  }

  // ---------------------------------------------------------------------------------------------
  // SYN-SENT
  // ---------------------------------------------------------------------------------------------

  /** What taking the peer's SYN establishes, acknowledged or not. */
  ghost predicate SynTaken(e: Engine, f: Engine, seg: Segment, peer: Option<u32>) {
    && SendOk(f) && WireOk(f, peer) && RtLive(f) && Knows(f, peer)
    && f.cfg == e.cfg && f.state == e.state && f.signals == e.signals
    && f.hist == e.hist.(unaPos := if seg.flags.ack then 1 else 0)
    && (SeqGt(f.snd.una, f.snd.iss) <==> seg.flags.ack)
    && f.rcv == e.rcv.(irs := seg.seqNo, nxt := Add(seg.seqNo, 1))
    && f.snd.finPending == e.snd.finPending
    && (if seg.flags.ack then f.snd.una == seg.ackNo else f.snd.retx == e.snd.retx)
    && f.passive == e.passive
    && f.tm == e.tm.(unaSince := f.tm.unaSince, rt := f.tm.rt, rtoCount := f.tm.rtoCount)
  }

  /** Taking note of the peer's number and segment size changes nothing of the send side. */
  lemma PeerLearnt(e: Engine, seg: Segment, peer: Option<u32>)
    requires Inv(e, peer) && e.state == SYN_SENT
    ensures var f := e.(rcv := e.rcv.(irs := seg.seqNo, nxt := Add(seg.seqNo, 1)), snd := e.snd.(mss := PeerMss(e, seg)));
            SendOk(f) && WireOk(f, peer) && RtLive(f) && e.snd.una == e.snd.iss && e.hist.unaPos == 0
  {
    hide PacketOk, Trail, Tiles, PeerMss, S32, Settled, KarnOk;
    WrapOfU32(e.snd.iss);
    WireGrows(e, e.(rcv := e.rcv.(irs := seg.seqNo, nxt := Add(seg.seqNo, 1)), snd := e.snd.(mss := PeerMss(e, seg))), peer);
  }

  /** In SYN-SENT the acknowledgement that is accepted acknowledges the SYN. */
  lemma SynAcked(e: Engine, ack: u32)
    requires SendOk(e) && OnlySyn(e) && !e.hist.finOut && e.snd.una == e.snd.iss
    requires !SeqLeq(ack, e.snd.iss) && !SeqGt(ack, e.snd.nxt)
    ensures e.hist.unaPos < AckPos(e, ack) <= SentEnd(e.hist) && ack == Wrap(e.snd.iss + AckPos(e, ack))
    ensures AckPos(e, ack) == 1 && SeqGt(ack, e.snd.iss)
  {
    hide KarnOk, Tiles, S32, Wrap;
    AckPosition(e, ack);
  }

  lemma FirstWindowOk(e: Engine, g: Engine, seg: Segment, peer: Option<u32>)
    requires SendOk(g) && WireOk(g, peer) && RtLive(g) && seg.window < 0x1_0000 && SynFrom(seg, peer)
    requires g.cfg == e.cfg && g.state == e.state && g.signals == e.signals && g.passive == e.passive
    requires Unreceived(e) && OnlySyn(e) && g.hist == e.hist.(unaPos := if seg.flags.ack then 1 else 0)
    requires g.rcv == e.rcv.(irs := seg.seqNo, nxt := Add(seg.seqNo, 1)) && seg.flags.syn && !seg.flags.rst
    requires g.snd.finPending == e.snd.finPending && (SeqGt(g.snd.una, g.snd.iss) <==> seg.flags.ack)
    requires if seg.flags.ack then g.snd.una == seg.ackNo else g.snd.retx == e.snd.retx
    requires g.tm == e.tm.(unaSince := g.tm.unaSince, rt := g.tm.rt, rtoCount := g.tm.rtoCount)
    ensures SynTaken(e, FirstWindow(g, seg), seg, peer)
  {
    hide PacketOk, Tiles, KarnOk, SeqGt;
  }

  lemma TakeSynOk(e: Engine, seg: Segment, peer: Option<u32>)
    requires Inv(e, peer) && e.state == SYN_SENT && seg.window < 0x1_0000 && SynFrom(seg, peer)
    requires seg.flags.syn && !seg.flags.rst
    requires seg.flags.ack ==> !SeqLeq(seg.ackNo, e.snd.iss) && !SeqGt(seg.ackNo, e.snd.nxt)
    ensures SynTaken(e, TakeSyn(e, seg), seg, peer) && (seg.flags.ack ==> AckPos(e, seg.ackNo) == 1)
  {
    hide Trail, ProcessAck, Tiles, PeerMss, S32, Settled, KarnOk, WireOk, Wrap, FirstWindow, SynTaken, SeqLeq, SeqGt;
    var f := e.(rcv := e.rcv.(irs := seg.seqNo, nxt := Add(seg.seqNo, 1)), snd := e.snd.(mss := PeerMss(e, seg)));
    PeerLearnt(e, seg, peer);
    NotAbove(f.snd.iss);
    if seg.flags.ack {
      SynAcked(f, seg.ackNo);
      ProcessAckOk(f, seg.ackNo, peer);
      AckSetsUna(f, seg.ackNo);
    }
    FirstWindowOk(e, if seg.flags.ack then ProcessAck(f, seg.ackNo) else f, seg, peer);
  }

  lemma NotAbove(x: u32)
    ensures !SeqGt(x, x)
  {
  }

  lemma AckSetsUna(e: Engine, ack: u32)
    ensures ProcessAck(e, ack).snd.una == ack
  {
    hide Trim, RttSample, TakesSample;
  }

  lemma SynBecomesSynAckOk(e: Engine)
    requires SendOk(e) && RtLive(e) && !e.passive && (e.snd.retx != [] ==> !e.snd.retx[0].flags.ack)
    ensures var f := SynBecomesSynAck(e);
            && RtLive(f) && f == e.(snd := e.snd.(retx := f.snd.retx))
            && forall w :: Tally(f.snd.retx, w, e.hist.since) ==> SendOk(f.(wire := w))
  {
    hide Wrap, EntryOk, Tally;
    if e.snd.retx != [] && e.snd.retx[0].flags.syn {
      var t := SynBecomesSynAck(e).snd.retx;
      TilesHead(e.snd.retx, e.snd.iss, e.hist.unaPos, e.hist, t[0]);
      if e.snd.rttPending.Some? {
        var i :| 0 <= i < |e.snd.retx| && TimedBy(e.snd.retx[i], e.snd.rttPending.value, e.passive);
        assert TimedBy(t[i], e.snd.rttPending.value, e.passive);
      }
    }
  }

  lemma HoldSynDataTouches(e: Engine, seg: Segment)
    ensures var f := HoldSynData(e, seg);
            && f == e.(rcv := e.rcv.(ooo := f.rcv.ooo, pendingFin := f.rcv.pendingFin))
            && (seg.payload == [] && !seg.flags.fin ==> f == e)
  {
  }

  lemma SimultaneousOpenOk(e: Engine, seg: Segment, peer: Option<u32>)
    requires AckTimed(e.tm)
    requires SendOk(e) && WireOk(e, peer) && RtLive(e) && Knows(e, peer) && Trail(e.signals, e.state)
    requires e.state == SYN_SENT && OnlySyn(e) && e.hist.delivered == [] && e.hist.fins == 0 && !e.hist.finOut
    requires !e.rcv.peerFin && !e.snd.finPending && e.hist.started && e.tm.tw == None && e.tm.ack == None && e.tm.ka == None
    requires e.tm.persist == None && !e.passive && (e.snd.retx != [] ==> !e.snd.retx[0].flags.ack)
    ensures var f := SimultaneousOpen(e, seg);
            && Inv(f, peer) && f.hist == e.hist && f.cfg == e.cfg && f.state == SYN_RECEIVED && f.rcv.irs == e.rcv.irs
            && (seg.payload == [] && !seg.flags.fin ==> f.rcv.ooo == e.rcv.ooo && f.rcv.pendingFin == e.rcv.pendingFin)
  {
    hide PacketOk, Trail, SetState, Wrap, Tiles, HoldSynData, SynBecomesSynAck, Emit, KarnOk, Tally, AllAck;
    SetStateIs(e, SYN_RECEIVED);
    var f := SetState(e, SYN_RECEIVED);
    SynBecomesSynAckOk(f);
    var g := SynBecomesSynAck(f);
    SynAgainTally(f, seg);
    HoldSynDataTouches(g, seg);
    var k := HoldSynData(g, seg);
    WireGrows(e, k, peer);
    WrapOfU32(k.cfg.iss);
    EmitOk(k, 0, SYN_ACK, [], true, k.hist, peer);
    EmitTouches(k, k.snd.iss, SYN_ACK, [], true);
  }

  /** The SYN-ACK counts as sending the SYN once more. */
  lemma SynAgainTally(e: Engine, seg: Segment)
    requires SendOk(e) && OnlySyn(e) && !e.hist.finOut
    ensures var k := HoldSynData(SynBecomesSynAck(e), seg);
            Tally(k.snd.retx, Emit(k, k.snd.iss, SYN_ACK, [], true).wire, e.hist.since)
  {
    hide Tally, KarnOk, AllAck, HoldSynData, RcvWnd, AdvertisedRight, Reach, PosOf;
    var g := SynBecomesSynAck(e);
    HoldSynDataTouches(g, seg);
    var k := HoldSynData(g, seg);
    WrapOfU32(e.snd.iss);
    PosOfWraps(k, 0);
    TilesEmpty(e.snd.retx, e.snd.iss, e.hist.unaPos, e.hist);
    TilesBound(e.snd.retx, e.snd.iss, e.hist.unaPos, e.hist);
    TilesEmpty(e.snd.retx[1..], e.snd.iss, e.snd.retx[0].EndPos(), e.hist);
    var p := Emit(k, k.snd.iss, SYN_ACK, [], true).wire[|e.wire|];
    TallyAgain(e.snd.retx, e.wire, e.hist.since, p, g.snd.retx[0]);
  }

  lemma WrapOfU32(x: u32)
    ensures Wrap(x) == x && Wrap(x + 0) == x
  {
  }

  lemma HandleSynSentOk(e: Engine, seg: Segment, peer: Option<u32>)
    requires Inv(e, peer) && e.state == SYN_SENT && seg.window < 0x1_0000 && SynFrom(seg, peer)
    ensures Next(e, HandleSynSent(e, seg), seg, peer)
  {
    hide EmitRstReply, EnterClosed, TakeSyn, SendPending, SendAck, SetState, HandleSynchronized, SimultaneousOpen;
    hide Inv, SignalError, SeqLeq, SeqGt, Between, Closable;
    RstReplyKeepsInv(e, seg, seg.ackNo, 0, false, peer);
    if seg.flags.ack && (SeqLeq(seg.ackNo, e.snd.iss) || SeqGt(seg.ackNo, e.snd.nxt)) {
    } else if seg.flags.rst {
      RefusedOk(e, peer);
    } else if seg.flags.syn {
      SynSentTakes(e, seg, peer);
    }
  }

  lemma RefusedOk(e: Engine, peer: Option<u32>)
    requires Inv(e, peer) && e.state == SYN_SENT
    ensures var f := EnterClosed(SignalError(e, ConnectionRefused));
            Inv(f, peer) && Continues(e, f) && f.hist.unaPos == e.hist.unaPos
  {
    hide Inv, Closable, EnterClosed, SignalError;
    InvClosable(e, peer);
    ErrorTrail(e, ConnectionRefused, peer);
    SignalErrorTouches(e, ConnectionRefused);
    EnterClosedOk(SignalError(e, ConnectionRefused), peer);
  }

  lemma SynSentTakes(e: Engine, seg: Segment, peer: Option<u32>)
    requires Inv(e, peer) && e.state == SYN_SENT && seg.window < 0x1_0000 && SynFrom(seg, peer)
    requires seg.flags.syn && !seg.flags.rst
    requires seg.flags.ack ==> !SeqLeq(seg.ackNo, e.snd.iss) && !SeqGt(seg.ackNo, e.snd.nxt)
    ensures Next(e, HandleSynSent(e, seg), seg, peer) && HandleSynSent(e, seg).state != SYN_SENT
  {
    hide TakeSyn, SendPending, SendAck, SetState, HandleSynchronized, SimultaneousOpen, SeqLeq, SeqGt, Tiles, Wrap, KarnOk;
    hide PacketOk, Trail, Settled, EmitRstReply, EnterClosed;
    TakeSynOk(e, seg, peer);
    var f := TakeSyn(e, seg);
    if seg.flags.ack {
      SynSentEstablishes(f, peer);
      var g := SendPending(SendAck(SetState(f, ESTABLISHED)));
      if seg.payload != [] || seg.flags.fin {
        var cont := seg.(flags := seg.flags.(syn := false), seqNo := Add(seg.seqNo, 1));
        HandleSynchronizedOk(g, cont, peer);
        assert AckPos(g, cont.ackNo) == g.hist.unaPos by { WrapOfU32(0); }
      }
    } else {
      SimultaneousOpenOk(f, seg, peer);
    }
  }

  lemma SynSentEstablishes(f: Engine, peer: Option<u32>)
    requires AckTimed(f.tm)
    requires SendOk(f) && WireOk(f, peer) && RtLive(f) && Knows(f, peer) && Trail(f.signals, f.state)
    requires f.state == SYN_SENT && f.hist.unaPos == 1 && f.hist.sent == [] && f.hist.delivered == [] && f.hist.fins == 0
    requires !f.hist.finOut && !f.rcv.peerFin && f.hist.started && f.tm.tw == None && f.tm.ack == None
    ensures var g := SendPending(SendAck(SetState(f, ESTABLISHED)));
            && Inv(g, peer) && Continues(f, g) && g.hist.unaPos == 1 && Synced(g.state) && g.hist.delivered == []
            && g.hist.fins == 0 && g.rcv.ooo == f.rcv.ooo && g.rcv.pendingFin == f.rcv.pendingFin
            && g.rcv.irs == f.rcv.irs && g.snd.una == f.snd.una
  {
    hide SendPending, SendAck, SetState, Live, Settled, Inv, RtLive, SendOk, WireOk, Knows, Trail;
    EstablishedIsRunning(f, f, peer);
    var k := SetState(f, ESTABLISHED);
    SendAckLive(k, peer);
    AnswersRuns(k, SendAck(k), peer);
    RunningSends(SendAck(k), peer);
    RunningIsInv(SendPending(SendAck(k)), peer);
  }

  lemma AnswersRuns(e: Engine, f: Engine, peer: Option<u32>)
    requires Running(e, peer) && AwaitsFinAck(e) && TextOpen(e.state) && Live(f, peer) && Answers(e, f)
    ensures Running(f, peer) && AwaitsFinAck(f)
  {
    hide Live;
  }

  lemma HandleClosedOk(e: Engine, seg: Segment, peer: Option<u32>)
    requires Inv(e, peer) && e.state == CLOSED
    ensures Next(e, HandleClosed(e, seg), seg, peer)
  {
    hide Inv, EmitRstReply;
    RstReplyKeepsInv(e, seg, seg.ackNo, 0, false, peer);
    RstReplyKeepsInv(e, seg, 0, Add(seg.seqNo, seg.SegLen()), true, peer);
  }

  lemma RestartKeepaliveOk(e: Engine, peer: Option<u32>)
    requires Inv(e, peer) && e.state == ESTABLISHED
    ensures var f := RestartKeepalive(e, true);
            Inv(f, peer) && f == e.(tm := e.tm.(ka := f.tm.ka, kaProbes := f.tm.kaProbes))
  {
    hide Inv, WireOk;
    SameWire(e, RestartKeepalive(e, true), peer);
    InvLooksAway(e, RestartKeepalive(e, true), peer);
  }

  /** SEGMENT ARRIVES, in every state and for every segment. */
  lemma OnSegmentOk(e: Engine, seg: Segment, peer: Option<u32>)
    requires Inv(e, peer) && seg.window < 0x1_0000 && SynFrom(seg, peer)
    ensures Next(e, OnSegment(e, seg), seg, peer)
  {
    hide Inv, RestartKeepalive, HandleClosed, HandleListen, HandleSynSent, HandleSynchronized;
    var f := if e.state == ESTABLISHED then RestartKeepalive(e, true) else e;
    if e.state == ESTABLISHED { RestartKeepaliveOk(e, peer); }
    match f.state
    case CLOSED => HandleClosedOk(f, seg, peer);
    case LISTEN => HandleListenOk(f, seg, peer);
    case SYN_SENT => HandleSynSentOk(f, seg, peer);
    case _ => HandleSynchronizedOk(f, seg, peer);
  }

  /** In SYN-SENT exactly our SYN is queued. */
  lemma OneSynQueued(e: Engine, peer: Option<u32>)
    requires Inv(e, peer) && e.state == SYN_SENT
    ensures |e.snd.retx| == 1 && e.snd.retx[0].flags.syn && !e.snd.retx[0].flags.rst && e.snd.una == e.snd.iss
    ensures e.snd.rttPending.Some? ==> e.snd.retx[0].copies == 1 && e.snd.retx[0].End() == e.snd.rttPending.value.0
  {
    hide WireOk, Trail, Wrap, Settled;
    WrapOfU32(e.snd.iss);
    TilesEmpty(e.snd.retx, e.snd.iss, e.hist.unaPos, e.hist);
    TilesBound(e.snd.retx, e.snd.iss, e.hist.unaPos, e.hist);
    TilesEmpty(e.snd.retx[1..], e.snd.iss, e.snd.retx[0].EndPos(), e.hist);
  }
}
