/** SEGMENT ARRIVES keeps the engine's invariant in every state, for every segment. */
module SegmentArrives {
  import opened SeqNum
  import opened EngineState
  import opened EngineSpec
  import opened EngineFacts
  import opened SendInvariant
  import opened SendPath
  import opened AckPath
  import opened RecvPath
  import opened EngineInvariant

  /** States in which text and FIN are looked at. */
  predicate TextOpen(s: ConnState) { Synced(s) && s != SYN_RECEIVED && s != TIME_WAIT }

  lemma RunningTakes(e: Engine, f: Engine, peer: Option<u32>)
    requires Running(e, peer) && AwaitsFinAck(e) && TextOpen(e.state) && Live(f, peer) && Takes(e, f)
    ensures Running(f, peer) && AwaitsFinAck(f)
  {
    hide Live;
  }

  /** After the send path has run, state and flags agree again. */
  lemma RunningPumps(e: Engine, peer: Option<u32>)
    requires Running(e, peer) && TextOpen(e.state)
    ensures var f := SendPending(e);
            && Running(f, peer) && TextOpen(f.state) && Settled(f) && SendFrame(e, f)
            && (f.state == e.state || AwaitsFinAck(f))
  {
    hide Tiles, Wrap, Trail, PacketOk, SendPending, Settled, KarnOk;
    SendPendingOk(e, peer);
  }

  lemma RunningSends(e: Engine, peer: Option<u32>)
    requires Running(e, peer) && AwaitsFinAck(e) && TextOpen(e.state)
    ensures var f := SendPending(e);
            && Running(f, peer) && AwaitsFinAck(f) && TextOpen(f.state) && Settled(f) && SendFrame(e, f)
  {
    hide Tiles, Wrap, Trail, PacketOk, SendPending, Settled, KarnOk;
    SendPendingOk(e, peer);
  }

  lemma NoteFinOk(e: Engine, seg: Segment, peer: Option<u32>)
    requires Running(e, peer) && AwaitsFinAck(e) && Settled(e) && TextOpen(e.state)
    ensures var f := CheckPendingFin(NoteFin(e, seg));
            && Inv(f, peer) && Synced(f.state) && f.cfg == e.cfg
            && (f.hist == e.hist || f.hist == e.hist.(fins := e.hist.fins + 1))
  {
    hide ProcessFin, Live, Settled, Coupled, Inv;
    ProcessFinOk(e, peer);
    var g := NoteFin(e, seg);
    if g != ProcessFin(e) {
      SetPendingFin(e, g.rcv.pendingFin, peer);
      ProcessFinOk(g, peer);
      RunningIsInv(g, peer);
    }
  }

  lemma SetPendingFin(e: Engine, p: Option<u32>, peer: Option<u32>)
    requires Running(e, peer) && AwaitsFinAck(e) && Settled(e) && TextOpen(e.state)
    ensures var f := e.(rcv := e.rcv.(pendingFin := p)); Running(f, peer) && AwaitsFinAck(f) && Settled(f)
  {
    hide Tiles, Wrap, Trail, PacketOk, S32, Sub, Add, KarnOk;
  }

  lemma TextAndFinOk(e: Engine, seg: Segment, peer: Option<u32>)
    requires Running(e, peer) && AwaitsFinAck(e) && TextOpen(e.state)
    ensures var f := TextAndFin(e, seg);
            && Inv(f, peer) && Synced(f.state) && Continues(e, f) && f.hist.unaPos == e.hist.unaPos
  {
    hide RecvData, SendPending, NoteFin, CheckPendingFin, Live, Settled, Coupled, Inv, RtLive;
    var takes := e.state == ESTABLISHED || e.state == FIN_WAIT_1 || e.state == FIN_WAIT_2;
    var g := if takes then RecvData(e, seg) else e;
    if takes {
      RecvDataLive(e, seg, peer);
      RunningTakes(e, g, peer);
    }
    RunningSends(g, peer);
    NoteFinOk(SendPending(g), seg, peer);
  }

  // ---------------------------------------------------------------------------------------------
  // The acknowledgement step
  // ---------------------------------------------------------------------------------------------

  /** SND.UNA did not move, or moved to the segment's acknowledgement. */
  ghost predicate AckMoves(e: Engine, f: Engine, seg: Segment) {
    || f.hist.unaPos <= e.hist.unaPos
    || (seg.flags.ack && !seg.flags.rst && Active(e.state) && e.hist.unaPos < AckPos(e, seg.ackNo) <= SentEnd(e.hist) && f.hist.unaPos == AckPos(e, seg.ackNo))
  }

  ghost predicate WindowFrame(e: Engine, f: Engine) {
    && Continues(e, f) && f.hist.unaPos == e.hist.unaPos
    && (f.state == e.state || AwaitsFinAck(f))
    && f.hist.delivered == e.hist.delivered && f.hist.fins == e.hist.fins
    && f.rcv == e.rcv.(zeroWin := f.rcv.zeroWin, advRight := f.rcv.advRight)
  }

  lemma WindowSet(e: Engine, wnd: nat, wl1: u32, wl2: u32, peer: Option<u32>)
    requires Running(e, peer) && wnd < 0x1_0000
    ensures var f := e.(snd := e.snd.(wnd := wnd, wl1 := wl1, wl2 := wl2)); Running(f, peer)
  {
    hide Tiles, Wrap, Trail, PacketOk, KarnOk;
  }

  lemma RunningCancels(e: Engine, peer: Option<u32>)
    requires Running(e, peer) && TextOpen(e.state)
    ensures var f := CancelPersist(e); Running(f, peer) && TextOpen(f.state) && WindowFrame(e, f)
  {
    hide Live, SendPending, Settled;
    var g := e.(tm := e.tm.(persist := None));
    assert Running(g, peer) by { DropPersist(e, peer); }
    RunningPumps(g, peer);
  }

  lemma DropPersist(e: Engine, peer: Option<u32>)
    requires Running(e, peer)
    ensures Running(e.(tm := e.tm.(persist := None)), peer)
  {
    hide Tiles, Wrap, Trail, PacketOk, KarnOk;
  }

  lemma UpdateWindowOk(e: Engine, seg: Segment, peer: Option<u32>)
    requires Running(e, peer) && TextOpen(e.state) && seg.window < 0x1_0000
    ensures var f := UpdateWindow(e, seg); Running(f, peer) && TextOpen(f.state) && WindowFrame(e, f)
  {
    hide Running, CancelPersist, SeqLt, SeqLeq;
    WindowSet(e, seg.window, seg.seqNo, seg.ackNo, peer);
    RunningCancels(e.(snd := e.snd.(wnd := seg.window, wl1 := seg.seqNo, wl2 := seg.ackNo)), peer);
  }

  lemma AckAndWindowOk(e: Engine, seg: Segment, peer: Option<u32>)
    requires Inv(e, peer) && TextOpen(e.state) && seg.window < 0x1_0000 && seg.flags.ack && !seg.flags.rst && !SeqGt(seg.ackNo, e.snd.nxt)
    ensures var f := AckAndWindow(e, seg);
            && Running(f, peer) && TextOpen(f.state) && Continues(e, f) && AckMoves(e, f, seg)
            && (f.state == e.state || AwaitsFinAck(f))
            && f.hist.delivered == e.hist.delivered && f.hist.fins == e.hist.fins
            && f.rcv == e.rcv.(zeroWin := f.rcv.zeroWin, advRight := f.rcv.advRight)
  {
    hide Running, SendOk, WireOk, Inv, UpdateWindow, S32, Sub, Add, ProcessAck;
    var g := if SeqGt(seg.ackNo, e.snd.una) then ProcessAck(e, seg.ackNo) else e;
    AckTakenOk(e, seg, peer);
    UpdateWindowOk(g, seg, peer);
  }

  /** What taking the acknowledgement, or not, leaves. */
  ghost predicate AckTaken(e: Engine, g: Engine, seg: Segment) {
    && Continues(e, g) && g.state == e.state && g.rcv == e.rcv
    && g.hist == e.hist.(unaPos := g.hist.unaPos)
    && (g.hist.unaPos == e.hist.unaPos
        || (Active(e.state) && e.hist.unaPos < AckPos(e, seg.ackNo) <= SentEnd(e.hist) && g.hist.unaPos == AckPos(e, seg.ackNo)))
  }

  lemma AckTakenOk(e: Engine, seg: Segment, peer: Option<u32>)
    requires Inv(e, peer) && TextOpen(e.state) && !SeqGt(seg.ackNo, e.snd.nxt)
    ensures var g := if SeqGt(seg.ackNo, e.snd.una) then ProcessAck(e, seg.ackNo) else e;
            Running(g, peer) && AckTaken(e, g, seg)
  {
    hide Inv, Coupled, SendOk, WireOk, Trail, S32, Sub, Add, ProcessAck, RtLive, Knows;
    InvLive(e, peer);
    LiveParts(e, peer);
    AckPosition(e, seg.ackNo);
    if SeqGt(seg.ackNo, e.snd.una) {
      ProcessAckOk(e, seg.ackNo, peer);
      AckedRuns(e, ProcessAck(e, seg.ackNo), peer);
    }
  }

  lemma LiveParts(e: Engine, peer: Option<u32>)
    requires Live(e, peer)
    ensures SendOk(e) && WireOk(e, peer) && Knows(e, peer)
  {
    hide SendOk, WireOk, Knows, Trail;
  }

  lemma AckedRuns(e: Engine, f: Engine, peer: Option<u32>)
    requires Running(e, peer) && TextOpen(e.state) && SendOk(f) && WireOk(f, peer) && AckFrame(e, f) && RtLive(f)
    requires e.hist.unaPos < f.hist.unaPos <= SentEnd(e.hist)
    ensures Running(f, peer)
  {
    hide WireOk, Tiles, Trail, Wrap, KarnOk;
  }

  lemma AfterAckOk(e: Engine, seg: Segment, peer: Option<u32>)
    requires Running(e, peer) && TextOpen(e.state)
    ensures var f := AfterAck(e, seg);
            && Inv(f, peer) && Continues(e, f) && f.hist.unaPos == e.hist.unaPos && f.state != SYN_SENT
  {
    hide TextAndFin, EnterClosed, EnterTimeWait, Live, Settled, Inv, SetState, Trail, RtLive;
    LiveTrail(e, peer);
    if e.state == FIN_WAIT_1 && e.snd.finAcked {
      SetStateIs(e, FIN_WAIT_2);
      ToFinWait2(e, peer);
      TextAndFinOk(SetState(e, FIN_WAIT_2), seg, peer);
    } else if e.state == CLOSING && e.snd.finAcked {
      EnterTimeWaitOk(e, peer);
    } else if e.state == LAST_ACK && e.snd.finAcked {
      RunningClosable(e, peer);
      EnterClosedOk(e, peer);
    } else {
      TextAndFinOk(e, seg, peer);
    }
  }

  lemma RunningClosable(e: Engine, peer: Option<u32>)
    requires Running(e, peer)
    ensures Closable(e, peer)
  {
    hide Tiles, Wrap, Trail, PacketOk, KarnOk;
  }

  lemma InvClosable(e: Engine, peer: Option<u32>)
    requires Inv(e, peer) && e.state != CLOSED
    ensures Closable(e, peer)
  {
    hide Tiles, Wrap, Trail, PacketOk, Settled, KarnOk;
  }

  lemma ToFinWait2(e: Engine, peer: Option<u32>)
    requires Running(e, peer) && e.state == FIN_WAIT_1 && e.snd.finAcked
    ensures Running(SetState(e, FIN_WAIT_2), peer)
  {
    hide Tiles, Wrap, Trail, PacketOk, SetState, KarnOk;
    SetStateIs(e, FIN_WAIT_2);
  }

  /** In SYN-RECEIVED the acknowledgement that is accepted acknowledges exactly the SYN. */
  lemma SynAckPosition(e: Engine, ack: u32)
    requires SendOk(e) && OnlySyn(e) && !e.hist.finOut
    requires SeqLt(e.snd.una, ack) && SeqLeq(ack, e.snd.nxt)
    ensures AckPos(e, ack) == 1 == SentEnd(e.hist) && ack == Wrap(e.snd.iss + 1)
  {
    hide Tiles, KarnOk, Wrap, SeqLt, SeqLeq;
    JustAbove(e.snd.iss, ack);
    SubWraps(e.snd.iss, 1, 0);
  }

  lemma EstablishOk(e: Engine, seg: Segment, peer: Option<u32>)
    requires Inv(e, peer) && e.state == SYN_RECEIVED && seg.window < 0x1_0000
    requires SeqLt(e.snd.una, seg.ackNo) && SeqLeq(seg.ackNo, e.snd.nxt)
    ensures var f := Establish(e, seg);
            && Running(f, peer) && AwaitsFinAck(f) && TextOpen(f.state) && Settled(f) && Continues(e, f)
            && f.hist.unaPos == AckPos(e, seg.ackNo) == 1
  {
    hide Merge, SendPending, SetState, ProcessAck, Tiles, Wrap, Trail, PacketOk, S32, Sub, Add, KarnOk, Tally, AllAck;
    SynAckPosition(e, seg.ackNo);
    ProcessAckOk(e, seg.ackNo, peer);
    var f := ProcessAck(e, seg.ackNo);
    var g := f.(snd := f.snd.(wnd := seg.window, wl1 := seg.seqNo, wl2 := seg.ackNo));
    EstablishedIsRunning(e, g, peer);
    var k := SetState(g, ESTABLISHED);
    MergeLive(k, peer);
    MergeRuns(k, Merge(k), peer);
    RunningSends(Merge(k), peer);
  }

  lemma EstablishedIsRunning(e: Engine, g: Engine, peer: Option<u32>)
    requires AckTimed(g.tm)
    requires SendOk(g) && WireOk(g, peer) && RtLive(g) && Trail(g.signals, g.state) && Knows(g, peer)
    requires (g.state == SYN_RECEIVED || g.state == SYN_SENT) && g.hist.unaPos >= 1 && g.hist.started
    requires !g.hist.finOut && g.hist.fins == 0 && !g.rcv.peerFin && g.tm.tw == None && g.tm.ack == None
    ensures var f := SetState(g, ESTABLISHED);
            && Running(f, peer) && AwaitsFinAck(f) && f.hist == g.hist && f.cfg == g.cfg && f.rcv == g.rcv
            && f.snd == g.snd && f.state == ESTABLISHED && f.wire == g.wire
  {
    hide Tiles, Wrap, Trail, PacketOk, SetState, KarnOk;
    SetStateIs(g, ESTABLISHED);
  }

  lemma MergeRuns(e: Engine, f: Engine, peer: Option<u32>)
    requires Running(e, peer) && AwaitsFinAck(e) && TextOpen(e.state) && Live(f, peer) && Takes(e, f)
    ensures Running(f, peer) && AwaitsFinAck(f) && Continues(e, f) && f.hist.unaPos == e.hist.unaPos
  {
    hide Live;
  }

  // ---------------------------------------------------------------------------------------------
  // Synchronized states
  // ---------------------------------------------------------------------------------------------

  lemma InvLive(e: Engine, peer: Option<u32>)
    requires Inv(e, peer) && Synced(e.state)
    ensures Live(e, peer) && Running(e, peer)
  {
    hide Tiles, Wrap, Trail, PacketOk, Settled, KarnOk;
  }

  /** Answering with an acknowledgement keeps the invariant. */
  lemma AckKeepsInv(e: Engine, peer: Option<u32>)
    requires Inv(e, peer) && Synced(e.state)
    ensures Inv(SendAck(e), peer) && SendAck(e).hist == e.hist && SendAck(e).cfg == e.cfg && SendAck(e).state == e.state
    ensures SameReceived(e, SendAck(e))
  {
    hide Tiles, Wrap, Trail, PacketOk, SendAck, S32, Sub, Add, KarnOk;
    InvLive(e, peer);
    SendAckLive(e, peer);
  }

  lemma RstReplyKeepsInv(e: Engine, seg: Segment, sn: u32, ack: u32, ackFlag: bool, peer: Option<u32>)
    requires Inv(e, peer)
    ensures var f := EmitRstReply(e, seg, sn, ack, ackFlag); Inv(f, peer) && f.hist == e.hist && f.cfg == e.cfg
                                                                   && SameReceived(e, f)
  {
    hide Inv, WireOk, EmitRstReply, Tally;
    RstReplyTouches(e, seg, sn, ack, ackFlag);
    RstReplyWire(e, seg, sn, ack, ackFlag, peer);
    InvLooksAway(e, EmitRstReply(e, seg, sn, ack, ackFlag), peer);
  }

  lemma RstReplyWire(e: Engine, seg: Segment, sn: u32, ack: u32, ackFlag: bool, peer: Option<u32>)
    requires Inv(e, peer)
    ensures var f := EmitRstReply(e, seg, sn, ack, ackFlag);
            WireOk(f, peer) && (Active(e.state) ==> Tally(f.snd.retx, f.wire, f.hist.since))
  {
    hide Tiles, Wrap, Trail, PacketOk, Coupled, Settled, EmitRstReply, KarnOk, Tally, AllAck;
    RstReplyTouches(e, seg, sn, ack, ackFlag);
    RstReplyOk(e, seg, sn, ack, ackFlag, peer);
    if Active(e.state) { RstReplyTally(e, seg, sn, ack, ackFlag); }
  }

  lemma RstReplyTouches(e: Engine, seg: Segment, sn: u32, ack: u32, ackFlag: bool)
    ensures var f := EmitRstReply(e, seg, sn, ack, ackFlag); f == e.(wire := f.wire)
  {
  }

  lemma RestartTimeWaitOk(e: Engine, peer: Option<u32>)
    requires Inv(e, peer) && e.state == TIME_WAIT
    ensures var f := RestartTimeWait(e); Inv(f, peer) && f.hist == e.hist && f.cfg == e.cfg && f.state == e.state
  {
    hide Tiles, Wrap, Trail, PacketOk, S32, Sub, Add, KarnOk;
  }

  /** `f` is an invariant continuation of `e` in which SND.UNA moved by this segment or not at all. */
  ghost predicate Next(e: Engine, f: Engine, seg: Segment, peer: Option<u32>) {
    Inv(f, peer) && Continues(e, f) && AckMoves(e, f, seg) && (f.state == SYN_SENT ==> !Synced(e.state))
  }

  lemma HandleTimeWaitOk(e: Engine, seg: Segment, peer: Option<u32>)
    requires Inv(e, peer) && e.state == TIME_WAIT
    ensures Next(e, HandleTimeWait(e, seg), seg, peer)
  {
    hide Inv, EnterClosed, SendAck, RestartTimeWait, Closable;
    AckTouches(e);
    AckKeepsInv(e, peer);
    RestartTimeWaitOk(SendAck(e), peer);
    InvClosable(e, peer);
    EnterClosedOk(e, peer);
  }

  lemma HandleAckOk(e: Engine, seg: Segment, peer: Option<u32>)
    requires Inv(e, peer) && Synced(e.state) && e.state != TIME_WAIT && seg.flags.ack && !seg.flags.rst && seg.window < 0x1_0000
    ensures Next(e, HandleAck(e, seg), seg, peer)
  {
    hide Inv, Running, Establish, TextAndFin, EmitRstReply, SendAck, AckAndWindow, AfterAck, Settled;
    if e.state == SYN_RECEIVED {
      if SeqLt(e.snd.una, seg.ackNo) && SeqLeq(seg.ackNo, e.snd.nxt) {
        EstablishOk(e, seg, peer);
        TextAndFinOk(Establish(e, seg), seg, peer);
        SynRcvdAck(e, seg.ackNo, peer);
      } else {
        RstReplyKeepsInv(e, seg, seg.ackNo, 0, false, peer);
        RstReplyTouches(e, seg, seg.ackNo, 0, false);
      }
    } else if SeqGt(seg.ackNo, e.snd.nxt) {
      AckKeepsInv(e, peer);
      AckTouches(e);
    } else {
      AckAndWindowOk(e, seg, peer);
      AfterAckOk(AckAndWindow(e, seg), seg, peer);
    }
  }

  lemma SynRcvdAck(e: Engine, ack: u32, peer: Option<u32>)
    requires Inv(e, peer) && e.state == SYN_RECEIVED && SeqLt(e.snd.una, ack) && SeqLeq(ack, e.snd.nxt)
    ensures e.hist.unaPos == 0 && AckPos(e, ack) == 1 == SentEnd(e.hist)
  {
    hide Tiles, Wrap, Trail, PacketOk, S32, Settled, KarnOk;
    SynAckPosition(e, ack);
  }

  lemma HandleSynchronizedOk(e: Engine, seg: Segment, peer: Option<u32>)
    requires Inv(e, peer) && Synced(e.state) && seg.window < 0x1_0000
    ensures Next(e, HandleSynchronized(e, seg), seg, peer)
  {
    hide Inv, HandleTimeWait, HandleAck, SendAck, DoReset, Acceptable, RcvWnd;
    AckKeepsInv(e, peer);
    if e.state == TIME_WAIT {
      HandleTimeWaitOk(e, seg, peer);
    } else {
      DoResetOk(e, peer);
      if seg.flags.ack && !seg.flags.rst { HandleAckOk(e, seg, peer); }
    }
  }
}
