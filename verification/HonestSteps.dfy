/** Every entry point keeps the agreement with an honest peer: FIN, acknowledgements, opening, resets. */
module HonestSteps {
  import opened SeqNum
  import opened EngineState
  import opened EngineSpec
  import opened SendInvariant
  import opened SendPath
  import opened AckPath
  import opened RecvPath
  import opened EngineInvariant
  import opened SegmentArrives
  import opened Opening
  import opened EngineRuns
  import opened Reassembly
  import opened HonestPeer

  lemma RecvOkSame(e: Engine, f: Engine, r: Stream)
    requires RecvOk(e, r) && SameReceived(e, f) && f.cfg == e.cfg
    ensures RecvOk(f, r)
  {
    hide BlockOk;
  }

  /** The peer's stream having grown changes nothing of what was taken from it. */
  lemma RecvOkGrows(e: Engine, r: Stream, r': Stream)
    requires RecvOk(e, r) && r'.iss == r.iss && r.sent <= r'.sent && (r.fin ==> r' == r)
    ensures RecvOk(e, r')
  {
    forall b | b in e.rcv.ooo ensures BlockOk(b, r', RecvPos(e.hist)) {
      assert BlockOk(b, r, RecvPos(e.hist));
    }
  }

  // ---------------------------------------------------------------------------------------------
  // FIN
  // ---------------------------------------------------------------------------------------------

  /** Consuming the FIN at the end of the stream: nothing is left out of order. */
  lemma FinTaken(e: Engine, f: Engine, r: Stream)
    requires RecvOk(e, r) && e.hist.fins == 0 && r.fin && RecvPos(e.hist) == 1 + |r.sent|
    requires f.hist == e.hist.(fins := e.hist.fins + 1) && f.rcv.ooo == e.rcv.ooo && f.rcv.pendingFin == None
    requires f.rcv.irs == e.rcv.irs && f.cfg == e.cfg && Synced(e.state) && f.state != SYN_RECEIVED
    ensures RecvOk(f, r)
  {
    hide BlockOk;
    assert e.hist.delivered == r.sent;
    if e.rcv.ooo != [] {
      assert e.rcv.ooo[0] in e.rcv.ooo;
      NoBlockBeyond(e.rcv.ooo[0], r);
    }
    assert f.rcv.ooo == [];
  }

  lemma NoBlockBeyond(b: Block, r: Stream)
    ensures !BlockOk(b, r, 1 + |r.sent|)
  {
  }

  /** The FIN that RCV.NXT has reached is the end of the stream, and was not consumed before. */
  lemma FinHere(e: Engine, r: Stream)
    requires RecvOk(e, r) && Running(e, Peer(r)) && AwaitsFinAck(e) && Settled(e) && TextOpen(e.state)
    requires e.hist.fins == 0 && r.fin && RecvPos(e.hist) == 1 + |r.sent|
    ensures RecvOk(ProcessFin(e), r) && RecvPos(ProcessFin(e).hist) == RecvPos(e.hist) + 1
    ensures ProcessFin(e).rcv.pendingFin == None
  {
    hide ProcessFin, Live, Settled, RecvOk, Coupled;
    ProcessFinOk(e, Peer(r));
    FinTaken(e, ProcessFin(e), r);
  }

  lemma NotedFinReached(e: Engine, r: Stream)
    requires RecvOk(e, r) && Knows(e, Peer(r)) && e.rcv.pendingFin == Some(e.rcv.nxt)
    ensures e.hist.fins == 0 && r.fin && RecvPos(e.hist) == 1 + |r.sent|
  {
    hide BlockOk, Wrap, S32;
    SerialOrder(r.iss, 1 + |r.sent|, RecvPos(e.hist));
    assert r.iss + 1 + |r.sent| == r.iss + (1 + |r.sent|);
  }

  lemma CheckPendingFinHonest(e: Engine, r: Stream)
    requires RecvOk(e, r) && Running(e, Peer(r)) && AwaitsFinAck(e) && Settled(e) && TextOpen(e.state)
    ensures RecvOk(CheckPendingFin(e), r) && RecvPos(e.hist) <= RecvPos(CheckPendingFin(e).hist)
  {
    hide ProcessFin, Base, Settled, RecvOk, Coupled;
    if e.rcv.pendingFin == Some(e.rcv.nxt) {
      NotedFinReached(e, r);
      FinHere(e, r);
    }
  }

  /** Where a genuine segment's FIN falls. */
  lemma FinFalls(e: Engine, seg: Segment, pos: int, r: Stream)
    requires RecvOk(e, r) && Knows(e, Peer(r)) && seg.flags.fin
    requires Piecewise(seg, pos, r) && pos + |seg.payload| - RecvPos(e.hist) < HALF
    ensures var finSeq := Add(seg.seqNo, |seg.payload|); var end := 1 + |r.sent|;
            && finSeq == Wrap(r.iss + 1 + |r.sent|) && r.fin
            && (e.rcv.nxt == finSeq <==> RecvPos(e.hist) == end)
            && (SeqGt(finSeq, e.rcv.nxt) <==> RecvPos(e.hist) < end)
            && end < RecvPos(e.hist) + HALF
  {
    hide BlockOk, Wrap, S32;
    var end := 1 + |r.sent|;
    AddWraps(r.iss, pos, |seg.payload|);
    assert r.iss + pos + |seg.payload| == r.iss + end == r.iss + 1 + |r.sent|;
    SerialOrder(r.iss, end, RecvPos(e.hist));
  }

  lemma NoteFinHonest(e: Engine, seg: Segment, pos: int, r: Stream)
    requires RecvOk(e, r) && Running(e, Peer(r)) && AwaitsFinAck(e) && Settled(e) && TextOpen(e.state)
    requires Piecewise(seg, pos, r) && (seg.flags.fin ==> pos + |seg.payload| - RecvPos(e.hist) < HALF)
    ensures var f := CheckPendingFin(NoteFin(e, seg)); RecvOk(f, r) && RecvPos(e.hist) <= RecvPos(f.hist)
  {
    hide ProcessFin, CheckPendingFin, Base, Settled, RecvOk, Coupled, Piecewise, SeqGt;
    if !seg.flags.fin {
      CheckPendingFinHonest(e, r);
    } else {
      FinFalls(e, seg, pos, r);
      if RecvPos(e.hist) == 1 + |r.sent| {
        FinsAtEnd(e, r);
        FinHere(e, r);
        NothingNoted(ProcessFin(e));
      } else {
        NoteFinStored(e, seg, r);
        CheckPendingFinHonest(NoteFin(e, seg), r);
      }
    }
  }

  lemma NothingNoted(e: Engine)
    requires e.rcv.pendingFin == None
    ensures CheckPendingFin(e) == e
  {
  }

  lemma FinsAtEnd(e: Engine, r: Stream)
    requires RecvOk(e, r) && RecvPos(e.hist) <= 1 + |r.sent|
    ensures e.hist.fins == 0
  {
  }

  /** A FIN ahead of RCV.NXT is noted; one behind it is a duplicate. */
  lemma NoteFinStored(e: Engine, seg: Segment, r: Stream)
    requires RecvOk(e, r) && Running(e, Peer(r)) && AwaitsFinAck(e) && Settled(e) && TextOpen(e.state)
    requires var finSeq := Add(seg.seqNo, |seg.payload|);
             && finSeq == Wrap(r.iss + 1 + |r.sent|) && r.fin && e.rcv.nxt != finSeq
             && (SeqGt(finSeq, e.rcv.nxt) <==> RecvPos(e.hist) < 1 + |r.sent|)
             && 1 + |r.sent| < RecvPos(e.hist) + HALF
    ensures var g := NoteFin(e, seg);
            && RecvOk(g, r) && Running(g, Peer(r)) && AwaitsFinAck(g) && Settled(g) && TextOpen(g.state)
            && g.hist == e.hist
  {
    hide ProcessFin, Live, Settled, Coupled, BlockOk, S32, Wrap, SeqGt;
    var g := NoteFin(e, seg);
    SetPendingFin(e, g.rcv.pendingFin, Peer(r));
    if RecvPos(e.hist) < 1 + |r.sent| { FinsAtEnd(e, r); }
  }

  // ---------------------------------------------------------------------------------------------
  // Text, acknowledgement
  // ---------------------------------------------------------------------------------------------

  lemma SendFrameSame(e: Engine, f: Engine)
    requires SendFrame(e, f) && Synced(e.state) && f.state != SYN_RECEIVED && f.state != SYN_SENT
    ensures SameReceived(e, f) && f.cfg == e.cfg
  {
  }

  lemma TextAndFinHonest(e: Engine, seg: Segment, pos: int, r: Stream)
    requires RecvOk(e, r) && Running(e, Peer(r)) && AwaitsFinAck(e) && TextOpen(e.state)
    requires Piecewise(seg, pos, r) && TimelyData(pos, seg.SegLen(), RecvPos(e.hist))
    ensures RecvOk(TextAndFin(e, seg), r)
  {
    hide RecvData, SendPending, NoteFin, CheckPendingFin, Live, Settled, RtLive, RecvOk, Wrap, Genuine;
    var takes := e.state == ESTABLISHED || e.state == FIN_WAIT_1 || e.state == FIN_WAIT_2;
    var g := if takes then RecvData(e, seg) else e;
    if takes {
      RecvDataHonest(e, seg, pos, r);
      RecvDataLive(e, seg, Peer(r));
      RunningTakes(e, g, Peer(r));
    }
    RunningSends(g, Peer(r));
    SendFrameSame(g, SendPending(g));
    RecvOkSame(g, SendPending(g), r);
    NoteFinHonest(SendPending(g), seg, pos, r);
  }

  lemma AfterAckHonest(e: Engine, seg: Segment, pos: int, r: Stream)
    requires RecvOk(e, r) && Running(e, Peer(r)) && TextOpen(e.state)
    requires Piecewise(seg, pos, r) && TimelyData(pos, seg.SegLen(), RecvPos(e.hist))
    ensures RecvOk(AfterAck(e, seg), r)
  {
    hide TextAndFin, EnterClosed, EnterTimeWait, Live, Settled, SetState, Trail, RtLive, RecvOk, Wrap, Genuine;
    LiveTrail(e, Peer(r));
    if e.state == FIN_WAIT_1 && e.snd.finAcked {
      SetStateIs(e, FIN_WAIT_2);
      ToFinWait2(e, Peer(r));
      RecvOkSame(e, SetState(e, FIN_WAIT_2), r);
      TextAndFinHonest(SetState(e, FIN_WAIT_2), seg, pos, r);
    } else if e.state == CLOSING && e.snd.finAcked {
      EnterTimeWaitIs(e);
      RecvOkSame(e, EnterTimeWait(e), r);
    } else if e.state == LAST_ACK && e.snd.finAcked {
      RunningClosable(e, Peer(r));
      EnterClosedOk(e, Peer(r));
      RecvOkSame(e, EnterClosed(e), r);
    } else {
      TextAndFinHonest(e, seg, pos, r);
    }
  }

  /** With an honest peer nothing waited for ESTABLISHED. */
  lemma EstablishHonest(e: Engine, seg: Segment, r: Stream)
    requires RecvOk(e, r) && Inv(e, Peer(r)) && e.state == SYN_RECEIVED && seg.window < 0x1_0000
    requires SeqLt(e.snd.una, seg.ackNo) && SeqLeq(seg.ackNo, e.snd.nxt)
    ensures RecvOk(Establish(e, seg), r) && RecvPos(e.hist) == RecvPos(Establish(e, seg).hist)
  {
    hide SendPending, SetState, ProcessAck, Tiles, Wrap, Trail, PacketOk, S32, Sub, Add, BlockOk, KarnOk;
    SynAckPosition(e, seg.ackNo);
    ProcessAckOk(e, seg.ackNo, Peer(r));
    var f := ProcessAck(e, seg.ackNo);
    var g := f.(snd := f.snd.(wnd := seg.window, wl1 := seg.seqNo, wl2 := seg.ackNo));
    EstablishedIsRunning(e, g, Peer(r));
    var k := SetState(g, ESTABLISHED);
    assert Merge(k) == k;
    RunningSends(k, Peer(r));
    SendFrameSame(k, SendPending(k));
    RecvOkSame(k, SendPending(k), r);
  }

  lemma HandleAckHonest(e: Engine, seg: Segment, pos: int, r: Stream)
    requires RecvOk(e, r) && Inv(e, Peer(r)) && Synced(e.state) && e.state != TIME_WAIT
    requires seg.flags.ack && !seg.flags.rst && seg.window < 0x1_0000
    requires Piecewise(seg, pos, r) && TimelyData(pos, seg.SegLen(), RecvPos(e.hist))
    ensures RecvOk(HandleAck(e, seg), r)
  {
    hide Inv, Running, Establish, TextAndFin, EmitRstReply, SendAck, AckAndWindow, AfterAck, Settled, RecvOk, Wrap, Genuine;
    if e.state == SYN_RECEIVED {
      if SeqLt(e.snd.una, seg.ackNo) && SeqLeq(seg.ackNo, e.snd.nxt) {
        EstablishOk(e, seg, Peer(r));
        EstablishHonest(e, seg, r);
        TextAndFinHonest(Establish(e, seg), seg, pos, r);
      } else {
        RstReplyKeepsInv(e, seg, seg.ackNo, 0, false, Peer(r));
        RecvOkSame(e, EmitRstReply(e, seg, seg.ackNo, 0, false), r);
      }
    } else if SeqGt(seg.ackNo, e.snd.nxt) {
      AckKeepsInv(e, Peer(r));
      RecvOkSame(e, SendAck(e), r);
    } else {
      AckAndWindowOk(e, seg, Peer(r));
      RecvOkSame(e, AckAndWindow(e, seg), r);
      AfterAckHonest(AckAndWindow(e, seg), seg, pos, r);
    }
  }

  lemma HandleSynchronizedHonest(e: Engine, seg: Segment, pos: int, r: Stream)
    requires RecvOk(e, r) && Inv(e, Peer(r)) && Synced(e.state) && seg.window < 0x1_0000 && !seg.flags.rst
    requires Piecewise(seg, pos, r) && TimelyData(pos, seg.SegLen(), RecvPos(e.hist))
    ensures RecvOk(HandleSynchronized(e, seg), r)
  {
    hide Inv, HandleAck, SendAck, Acceptable, RcvWnd, RecvOk, Wrap, Genuine;
    AckKeepsInv(e, Peer(r));
    RecvOkSame(e, SendAck(e), r);
    if e.state == TIME_WAIT {
      RestartedTimer(SendAck(e));
      RecvOkSame(SendAck(e), RestartTimeWait(SendAck(e)), r);
    } else if seg.flags.ack {
      HandleAckHonest(e, seg, pos, r);
    }
  }

  lemma RestartedTimer(e: Engine)
    ensures SameReceived(e, RestartTimeWait(e)) && RestartTimeWait(e).cfg == e.cfg
  {
  }

  // ---------------------------------------------------------------------------------------------
  // Resets and opening
  // ---------------------------------------------------------------------------------------------

  /** A reset, whatever it carries, adds nothing to what was received. */
  lemma ResetAddsNothing(e: Engine, seg: Segment, peer: Option<u32>)
    requires Inv(e, peer) && seg.flags.rst && Synced(e.state)
    ensures SameReceived(e, HandleSynchronized(e, seg))
  {
    hide Inv, SendAck, DoReset, EnterClosed, Acceptable, RcvWnd, Closable;
    AckKeepsInv(e, peer);
    DoResetOk(e, peer);
    InvClosable(e, peer);
    EnterClosedOk(e, peer);
  }

  lemma RefusedAddsNothing(e: Engine, peer: Option<u32>)
    requires Inv(e, peer) && e.state == SYN_SENT
    ensures SameReceived(e, EnterClosed(SignalError(e, ConnectionRefused)))
  {
    hide Inv, Closable, EnterClosed, SignalError;
    InvClosable(e, peer);
    ErrorTrail(e, ConnectionRefused, peer);
    SignalErrorTouches(e, ConnectionRefused);
    EnterClosedOk(SignalError(e, ConnectionRefused), peer);
  }

  /** An engine that has just learnt its peer has received exactly the SYN. */
  lemma JustOpened(f: Engine, r: Stream)
    requires Unreceived(f) && f.rcv.irs == r.iss && f.cfg.rcvWnd < QUARTER
    ensures RecvOk(f, r)
  {
  }

  lemma HandleListenHonest(e: Engine, seg: Segment, r: Stream)
    requires RecvOk(e, r) && Inv(e, Peer(r)) && e.state == LISTEN && seg.window < 0x1_0000 && SynFrom(seg, Peer(r))
    ensures RecvOk(HandleListen(e, seg), r)
  {
    hide Inv, EmitRstReply, QueueAndSend, SetState, RecvOk;
    RstReplyKeepsInv(e, seg, seg.ackNo, 0, false, Peer(r));
    RecvOkSame(e, EmitRstReply(e, seg, seg.ackNo, 0, false), r);
    if !seg.flags.rst && !seg.flags.ack && seg.flags.syn
       && !(e.remotePort != 0 && seg.srcPort != 0 && seg.srcPort != e.remotePort) {
      ListenAccepts(e, seg, Peer(r));
      WindowOf(e, r);
      JustOpened(HandleListen(e, seg), r);
    }
  }

  lemma WindowOf(e: Engine, r: Stream)
    requires RecvOk(e, r)
    ensures e.cfg.rcvWnd < QUARTER
  {
  }

  lemma SynSentHonest(e: Engine, seg: Segment, r: Stream)
    requires RecvOk(e, r) && Inv(e, Peer(r)) && e.state == SYN_SENT && seg.window < 0x1_0000 && SynFrom(seg, Peer(r))
    requires seg.flags.syn && !seg.flags.rst && seg.payload == [] && !seg.flags.fin
    requires seg.flags.ack ==> !SeqLeq(seg.ackNo, e.snd.iss) && !SeqGt(seg.ackNo, e.snd.nxt)
    ensures RecvOk(HandleSynSent(e, seg), r)
  {
    hide TakeSyn, SendPending, SendAck, SetState, HandleSynchronized, SimultaneousOpen, SeqLeq, SeqGt, Tiles, Wrap, KarnOk;
    hide PacketOk, Trail, Settled, EmitRstReply, EnterClosed, BlockOk, KarnOk;
    TakeSynOk(e, seg, Peer(r));
    var f := TakeSyn(e, seg);
    if seg.flags.ack { SynSentEstablishes(f, Peer(r)); } else { SimultaneousOpenOk(f, seg, Peer(r)); }
  }

  lemma HandleSynSentHonest(e: Engine, seg: Segment, r: Stream)
    requires RecvOk(e, r) && Inv(e, Peer(r)) && e.state == SYN_SENT && seg.window < 0x1_0000 && SynFrom(seg, Peer(r))
    requires seg.flags.syn && !seg.flags.rst ==> seg.payload == [] && !seg.flags.fin
    ensures RecvOk(HandleSynSent(e, seg), r)
  {
    hide EmitRstReply, EnterClosed, TakeSyn, SendPending, SendAck, SetState, HandleSynchronized, SimultaneousOpen;
    hide Inv, SignalError, SeqLeq, SeqGt, Between, RecvOk;
    RstReplyKeepsInv(e, seg, seg.ackNo, 0, false, Peer(r));
    RecvOkSame(e, EmitRstReply(e, seg, seg.ackNo, 0, false), r);
    if seg.flags.ack && (SeqLeq(seg.ackNo, e.snd.iss) || SeqGt(seg.ackNo, e.snd.nxt)) {
    } else if seg.flags.rst {
      RefusedAddsNothing(e, Peer(r));
      RefusedOk(e, Peer(r));
      RecvOkSame(e, EnterClosed(SignalError(e, ConnectionRefused)), r);
    } else if seg.flags.syn {
      SynSentHonest(e, seg, r);
    }
  }

  lemma HandleClosedHonest(e: Engine, seg: Segment, r: Stream)
    requires RecvOk(e, r) && Inv(e, Peer(r))
    ensures RecvOk(HandleClosed(e, seg), r)
  {
    hide Inv, EmitRstReply, RecvOk;
    RstReplyKeepsInv(e, seg, seg.ackNo, 0, false, Peer(r));
    RstReplyKeepsInv(e, seg, 0, Add(seg.seqNo, seg.SegLen()), true, Peer(r));
    RecvOkSame(e, EmitRstReply(e, seg, seg.ackNo, 0, false), r);
    RecvOkSame(e, EmitRstReply(e, seg, 0, Add(seg.seqNo, seg.SegLen()), true), r);
  }

  // ---------------------------------------------------------------------------------------------
  // Any step
  // ---------------------------------------------------------------------------------------------

  /** `p` is a packet the sender of `r` may have emitted. */
  ghost predicate FromPeer(p: Packet, h: History, r: Stream, mine: u32) {
    PacketOk(p, r.iss, h, Some(mine)) && h.sent == r.sent && h.finOut == r.fin
  }

  lemma PacketIsPiece(p: Packet, h: History, r: Stream, mine: u32)
    requires FromPeer(p, h, r, mine)
    ensures var seg := OffWire(p.seg);
            && SynFrom(seg, Peer(r))
            && (!seg.flags.rst ==> Piecewise(seg, p.pos, r) && (seg.flags.syn ==> seg.payload == [] && !seg.flags.fin))
  {
    if p.seg.flags.syn && !p.seg.flags.rst { WrapOfU32(r.iss); }
  }

  /** Delivering a packet of the peer, within the segment lifetime. */
  lemma DeliverHonest(e: Engine, p: Packet, h: History, r: Stream)
    requires RecvOk(e, r) && Inv(e, Peer(r)) && FromPeer(p, h, r, e.cfg.iss) && Timely(e, p)
    ensures RecvOk(OnSegment(e, OffWire(p.seg)), r)
  {
    hide Inv, RestartKeepalive, HandleClosed, HandleListen, HandleSynSent, HandleSynchronized, RecvOk, FromPeer, Piecewise;
    PacketIsPiece(p, h, r, e.cfg.iss);
    var seg := OffWire(p.seg);
    var f := if e.state == ESTABLISHED then RestartKeepalive(e, true) else e;
    if e.state == ESTABLISHED {
      RestartKeepaliveOk(e, Peer(r));
      RecvOkSame(e, f, r);
    }
    match f.state
    case CLOSED => HandleClosedHonest(f, seg, r);
    case LISTEN => HandleListenHonest(f, seg, r);
    case SYN_SENT => HandleSynSentHonest(f, seg, r);
    case _ =>
      if seg.flags.rst {
        ResetAddsNothing(f, seg, Peer(r));
        HandleSynchronizedOk(f, seg, Peer(r));
        RecvOkSame(f, HandleSynchronized(f, seg), r);
      } else {
        HandleSynchronizedHonest(f, seg, p.pos, r);
      }
  }

  /** An accepted acknowledgement is one the peer really gave: SND.UNA never passes what the peer took in. */
  lemma AckIsKnown(e: Engine, f: Engine, p: Packet, h: History, r: Stream)
    requires Inv(e, Peer(r)) && FromPeer(p, h, r, e.cfg.iss) && Timely(e, p)
    requires AckMoves(e, f, OffWire(p.seg)) && e.hist.unaPos <= RecvPos(h) <= 1 + |e.hist.sent| + Bit(e.hist.finOut)
    ensures f.hist.unaPos <= RecvPos(h)
    ensures f.hist.unaPos > e.hist.unaPos ==> !p.seg.flags.rst && p.seg.flags.ack && f.hist.unaPos == p.ackPos
  {
    hide Wrap, Tiles, Trail, Genuine, Settled, Coupled, KarnOk;
    if f.hist.unaPos > e.hist.unaPos {
      AckPosition(e, p.seg.ackNo);
      SerialOrder(e.cfg.iss, AckPos(e, p.seg.ackNo), p.ackPos);
    }
  }
}
