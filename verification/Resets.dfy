/** Segments that only get an answer: which resets an engine honours, whatever the peer, and that the reset with which it
    answers a segment is one that the segment's sender honours; and that a segment come too late is answered with what its
    sender needs to know. */
module Resets {
  import opened SeqNum
  import opened EngineState
  import opened EngineSpec
  import opened EngineFacts
  import opened SendInvariant
  import opened SendPath
  import opened AckPath
  import opened EngineInvariant
  import opened SegmentArrives
  import opened Opening
  import opened EngineRuns
  import opened Reassembly
  import opened HonestPeer
  import opened HonestSteps
  import opened TwoEngines
  import opened RunTheorems
  import opened WindowUpdate
  import U = UserCalls
  import P = Corners

  // ---------------------------------------------------------------------------------------------
  // One acknowledgement, and nothing else
  // ---------------------------------------------------------------------------------------------

  /** The acknowledgement that tells where the engine is: SND.NXT, RCV.NXT and the window. */
  function CurrentAck(e: Engine): Packet {
    Packet(Segment(e.localPort, e.remotePort, e.snd.nxt, e.rcv.nxt, ACK, RcvWnd(e), 0, 0, [], None, None, []),
           SentEnd(e.hist), RecvPos(e.hist), SentEnd(e.hist), e.hist.fins)
  }

  /** From `e` to `f` that acknowledgement went out; besides only timers of acknowledgement, keepalive and TIME-WAIT moved. */
  predicate AcksOnly(e: Engine, f: Engine) {
    && f == e.(rcv := e.rcv.(zeroWin := f.rcv.zeroWin, advRight := f.rcv.advRight), tm := f.tm, wire := e.wire + [CurrentAck(e)])
    && f.tm == e.tm.(now := f.tm.now, ack := None, ackCount := 0, ka := f.tm.ka, kaProbes := f.tm.kaProbes, tw := f.tm.tw)
  }

  predicate Ignores(e: Engine, f: Engine) { f == e.(tm := e.tm.(now := f.tm.now, ka := f.tm.ka, kaProbes := f.tm.kaProbes)) }

  lemma AckIsCurrent(e: Engine)
    ensures AcksOnly(e, SendAck(e))
  {
    hide RcvWnd, AdvertisedRight;
    assert PosOf(e, e.snd.nxt) == SentEnd(e.hist) by { NxtPos(e); }
  }

  predicate InTheWindow(e: Engine, seg: Segment) { Acceptable(seg.seqNo, seg.SegLen(), e.rcv.nxt, RcvWnd(e)) }

  /** Out of the window; a reset or a SYN in it; or an acknowledgement of what was never sent. In TIME-WAIT: anything, but the
      reset that ends it. */
  predicate Stray(e: Engine, seg: Segment) {
    if e.state == TIME_WAIT then !(seg.flags.rst && seg.seqNo == e.rcv.nxt)
    else if !InTheWindow(e, seg) then !seg.flags.rst
    else if seg.flags.rst then seg.seqNo != e.rcv.nxt
    else seg.flags.syn || (seg.flags.ack && e.state != SYN_RECEIVED && SeqGt(seg.ackNo, e.snd.nxt))
  }

  /** Resets out of the window, and segments in it without an acknowledgement. */
  predicate Mute(e: Engine, seg: Segment) {
    e.state != TIME_WAIT && if seg.flags.rst then !InTheWindow(e, seg) else InTheWindow(e, seg) && !seg.flags.syn && !seg.flags.ack
  }

  lemma HeardSame(e: Engine, now: real)
    ensures var g := Heard(e, now); RcvWnd(g) == RcvWnd(e) && CurrentAck(g) == CurrentAck(e)
    ensures Heard(e, now) == e.(tm := e.tm.(now := now, ka := Heard(e, now).tm.ka, kaProbes := Heard(e, now).tm.kaProbes))
  {
  }

  /** Once synchronized, an engine answers a stray segment with one acknowledgement of where it is, and a mute one with
      nothing; and neither changes anything else. */
  lemma StrayIsAnswered(e: Engine, now: real, seg: Segment)
    requires Synced(e.state) && ForUs(e, seg)
    ensures Stray(e, seg) ==> AcksOnly(e, Step(e, now, Arrives(seg)))
    ensures Mute(e, seg) ==> Ignores(e, Step(e, now, Arrives(seg)))
  {
    hide RcvWnd, SendAck, Acceptable, SeqGt, HandleSynchronized, CurrentAck;
    var g := Heard(e, now);
    HeardSame(e, now);
    AckIsCurrent(g);
    ArrivalIs(e, now, seg);
    assert OnSegment(At(e, now), seg) == HandleSynchronized(g, seg);
    StrayCases(g, seg);
    if Stray(g, seg) { assert AcksOnly(g, HandleSynchronized(g, seg)); }
  }

  lemma StrayCases(g: Engine, seg: Segment)
    requires Synced(g.state) && AcksOnly(g, SendAck(g))
    ensures Stray(g, seg) ==> AcksOnly(g, HandleSynchronized(g, seg))
    ensures Mute(g, seg) ==> HandleSynchronized(g, seg) == g
  {
    hide RcvWnd, SendAck, Acceptable, SeqGt, DoReset, EnterClosed, CurrentAck, AckAndWindow, AfterAck, Establish;
  }

  /** For another port. */
  predicate Misdirected(e: Engine, seg: Segment) { e.localPort != 0 && seg.dstPort != 0 && seg.dstPort != e.localPort }

  /** Not a SYN, nothing to be answered with a reset, or a SYN from a port the listener does not wait for. */
  predicate NotForListener(e: Engine, seg: Segment) {
    seg.flags.rst || (!seg.flags.ack && (!seg.flags.syn || (e.remotePort != 0 && seg.srcPort != 0 && seg.srcPort != e.remotePort)))
  }

  /** What passes without a trace: a segment for another port, in any state; in LISTEN what is not for the listener; without a
      connection a reset. Without a connection nothing at all changes but the wire. */
  lemma PassesWithoutTrace(e: Engine, now: real, seg: Segment)
    ensures Misdirected(e, seg) || (e.state == LISTEN && NotForListener(e, seg)) || (e.state == CLOSED && seg.flags.rst) ==>
              Step(e, now, Arrives(seg)) == At(e, now)
    ensures e.state == CLOSED ==> Step(e, now, Arrives(seg)) == At(e, now).(wire := Step(e, now, Arrives(seg)).wire)
    ensures ForUs(e, seg) <==> !Misdirected(e, seg)
  {
    hide EmitRstReply, QueueAndSend, SetState, PeerMss, HandleSynchronized, HandleSynSent;
    var a := At(e, now);
    RstReplyTouches(a, seg, seg.ackNo, 0, false);
    RstReplyTouches(a, seg, 0, Add(seg.seqNo, seg.SegLen()), true);
  }

  // ---------------------------------------------------------------------------------------------
  // Resets that are honoured
  // ---------------------------------------------------------------------------------------------

  /** The sender of the reset knows the connection: in SYN-SENT it acknowledges our SYN, elsewhere it stands exactly at
      RCV.NXT; with text, it also has to fit in the window. */
  predicate Exact(e: Engine, seg: Segment) {
    if e.state == SYN_SENT then seg.flags.ack && seg.ackNo == e.snd.nxt
    else seg.seqNo == e.rcv.nxt && (e.state == TIME_WAIT || seg.SegLen() == 0 || RcvWnd(e) > 0)
  }

  /** What a reset leads to. */
  function ResetTo(e: Engine): ConnState { if e.state == SYN_RECEIVED && e.passive then LISTEN else CLOSED }

  lemma AtNxt(e: Engine, len: nat)
    requires e.cfg.rcvWnd < QUARTER
    ensures Acceptable(e.rcv.nxt, len, e.rcv.nxt, RcvWnd(e)) <==> len == 0 || RcvWnd(e) > 0
  {
    hide RcvWnd;
    RcvWndWithinBuffer(e);
    WrapOfU32(e.rcv.nxt);
    InWindowUnwrapped(e.rcv.nxt, 0, 0, RcvWnd(e));
  }

  /** In SYN-SENT the numbers stand at our SYN. */
  lemma SynOut(e: Engine)
    requires Inv(e, None) && e.state == SYN_SENT
    ensures e.snd.nxt == Wrap(e.snd.iss + 1) && e.snd.una == e.snd.iss == Wrap(e.snd.iss + 0)
  {
    hide WireOk, Trail, Settled, Tiles, KarnOk, Tally, AllAck;
    WrapOfU32(e.snd.iss);
  }

  lemma SynSentReset(e: Engine, seg: Segment)
    requires Inv(e, None) && e.state == SYN_SENT && seg.flags.rst
    ensures HandleSynSent(e, seg) == if Exact(e, seg) then EnterClosed(SignalError(e, ConnectionRefused)) else e
  {
    hide Inv, Wrap, EnterClosed, S32;
    SynOut(e);
    var iss := e.snd.iss;
    SerialOrder(iss, 1, 0);
    SerialOrder(iss, 1, 1);
    SerialOrder(iss, 0, 1);
    if seg.flags.ack && !SeqLeq(seg.ackNo, iss) && !SeqGt(seg.ackNo, e.snd.nxt) && Between(e.snd.una, seg.ackNo, e.snd.nxt) {
      SerialPosition(iss, 0, seg.ackNo);
      SerialOrder(iss, 0, S32(seg.ackNo - Wrap(iss + 0)));
      JustAbove(iss, seg.ackNo);
    }
  }

  /** A reset closes the connection, or takes a passive opener back to LISTEN, exactly if it is an exact one; and reports the
      error that belongs to the state. Any other changes nothing, and is answered by an acknowledgement exactly if the
      connection is synchronized and the reset in the window, or the state TIME-WAIT. */
  lemma ResetHonouredExactly(e: Engine, now: real, seg: Segment)
    requires Reached(e) && Active(e.state) && ForUs(e, seg) && seg.flags.rst && Allowed(e, Arrives(seg)) && e.cfg.rcvWnd < QUARTER
    ensures var f := Step(e, now, Arrives(seg));
            if Exact(e, seg) then f.state == ResetTo(e) && Errors(f.signals) == Errors(e.signals) + U.Reported(e)
                                  && (f.state == LISTEN ==> f.remotePort == e.cfg.remotePort)
            else if Synced(e.state) && (e.state == TIME_WAIT || InTheWindow(e, seg)) then AcksOnly(e, f) else Ignores(e, f)
  {
    hide Reached, Inv, RcvWnd, Acceptable, React, EnterClosed, DoReset, HandleSynchronized, HandleSynSent, AcksOnly;
    ReachedInv(e);
    HeardSame(e, now);
    AtNxt(e, seg.SegLen());
    var f := Step(e, now, Arrives(seg));
    if Exact(e, seg) {
      ExactCloses(e, now, seg);
      U.ErrorsTellWhy(e, now, Arrives(seg));
      if f.state == LISTEN { ListensQuietly(e, now, seg); }
    } else if Synced(e.state) {
      StrayIsAnswered(e, now, seg);
    } else {
      ClockOk(e, now, None);
      SynSentReset(At(e, now), seg);
      ArrivalIs(e, now, seg);
    }
  }

  lemma ExactCloses(e: Engine, now: real, seg: Segment)
    requires Inv(e, None) && Active(e.state) && ForUs(e, seg) && seg.flags.rst && e.cfg.rcvWnd < QUARTER && Exact(e, seg)
    ensures Step(e, now, Arrives(seg)).state == ResetTo(e)
    ensures Step(e, now, Arrives(seg)).state == LISTEN ==> Step(e, now, Arrives(seg)).remotePort == e.cfg.remotePort
  {
    hide Inv, RcvWnd, Acceptable, React, EnterClosed, SetState, CancelPersist;
    var g := Heard(e, now);
    HeardSame(e, now);
    AtNxt(e, seg.SegLen());
    ArrivalIs(e, now, seg);
    ClosedIsClosed(g);
    ClosedIsClosed(SignalError(g, ConnectionRefused));
    ClosedIsClosed(SignalError(g, ConnectionReset));
    if e.state == SYN_SENT {
      ClockOk(e, now, None);
      SynSentReset(g, seg);
    }
    if ResetTo(e) == LISTEN {
      StateTouches(g, LISTEN);
      SendOnlySends(StopRt(ResetBuffers(SetState(g, LISTEN))));
    }
  }

  /** Going back to LISTEN reports no error. */
  lemma ListensQuietly(e: Engine, now: real, seg: Segment)
    requires Step(e, now, Arrives(seg)).state == LISTEN && seg.flags.rst && Active(e.state)
    ensures Errors(Step(e, now, Arrives(seg)).signals) == Errors(e.signals)
  {
    hide U.Hands, Step;
    U.OtherHands(e, now, Arrives(seg));
  }

  // ---------------------------------------------------------------------------------------------
  // The reset an engine answers with
  // ---------------------------------------------------------------------------------------------

  /** What makes `y` answer with a reset: there is no connection for it, or it acknowledges what `y` never sent. */
  predicate Refuses(y: Engine, seg: Segment) {
    && ForUs(y, seg) && !seg.flags.rst
    && match y.state
       case CLOSED => true
       case LISTEN => seg.flags.ack
       case SYN_SENT => seg.flags.ack && (SeqLeq(seg.ackNo, y.snd.iss) || SeqGt(seg.ackNo, y.snd.nxt))
       case _ => false
  }

  /** `seg` is current: it tells what `x` expects next, or is the SYN that `x` waits an answer to. */
  predicate Current(x: Engine, seg: Segment) {
    && seg.srcPort == x.localPort && x.state != TIME_WAIT && Active(x.state)
    && (if x.state == SYN_SENT then !seg.flags.ack && seg.seqNo == x.snd.iss && seg.SegLen() == 1 else seg.flags.ack && seg.ackNo == x.rcv.nxt)
  }

  function ResetFor(y: Engine, now: real, seg: Segment): Segment
    requires |Step(y, now, Arrives(seg)).wire| > 0
  {
    var w := Step(y, now, Arrives(seg)).wire;
    OffWire(w[|w| - 1].seg)
  }

  lemma RefusedByReset(y: Engine, now: real, seg: Segment)
    requires Refuses(y, seg)
    ensures var w := Step(y, now, Arrives(seg)).wire;
            && |w| == |y.wire| + 1 && w[..|y.wire|] == y.wire
            && var r := ResetFor(y, now, seg);
               && r.flags.rst && r.payload == [] && !r.flags.syn && !r.flags.fin && r.window == 0
               && (seg.srcPort != 0 ==> r.dstPort == seg.srcPort)
               && (if seg.flags.ack then r.seqNo == seg.ackNo && !r.flags.ack else r.flags.ack && r.ackNo == Add(seg.seqNo, seg.SegLen()))
  {
    hide S32, Step, SeqLeq, SeqGt, Add;
    var a := At(y, now);
    ArrivalIs(y, now, seg);
    var r := if y.state == CLOSED && !seg.flags.ack then EmitRstReply(a, seg, 0, Add(seg.seqNo, seg.SegLen()), true)
             else EmitRstReply(a, seg, seg.ackNo, 0, false);
    assert OnSegment(a, seg) == r;
    assert r.wire == y.wire + [r.wire[|y.wire|]];
  }

  /** A segment sent to an engine that has no connection for it, or not the one it belongs to, comes back as a reset that its
      sender honours if it is still where it was: the connection it was for is closed, or the listener back. */
  lemma ResetIsHonoured(x: Engine, y: Engine, seg: Segment, now: real, later: real)
    requires Reached(x) && x.cfg.rcvWnd < QUARTER && Current(x, seg) && Refuses(y, seg)
    ensures |Step(y, now, Arrives(seg)).wire| == |y.wire| + 1
    ensures var f := Step(x, later, Arrives(ResetFor(y, now, seg)));
            f.state == ResetTo(x) && Errors(f.signals) == Errors(x.signals) + U.Reported(x)
  {
    hide Reached, Inv, Step, RcvWnd, Wrap;
    ReachedInv(x);
    RefusedByReset(y, now, seg);
    if x.state == SYN_SENT {
      SynOut(x);
      AddWraps(x.snd.iss, 0, 1);
      assert x.snd.iss + 0 + 1 == x.snd.iss + 1;
    }
    ResetHonouredExactly(x, later, ResetFor(y, now, seg));
  }

  // ---------------------------------------------------------------------------------------------
  // An acknowledgement that was lost
  // ---------------------------------------------------------------------------------------------

  /** The packet carries nothing that is not received yet. */
  predicate AllOld(b: Engine, p: Packet) { 0 < p.seg.SegLen() && p.pos + p.seg.SegLen() <= RecvPos(b.hist) && !p.seg.flags.rst }

  lemma OldIsStray(a: Engine, b: Engine, i: nat)
    requires Side(b, a) && Inv(a, Some(b.cfg.iss)) && i < |a.wire| && Synced(b.state) && Timely(b, a.wire[i]) && AllOld(b, a.wire[i])
    ensures Stray(b, OffWire(a.wire[i].seg))
  {
    hide Inv, Wrap, RcvWnd, Acceptable, Genuine, BlocksOk, NotedFinOk;
    var p, r := a.wire[i], StreamOf(a);
    assert FromPeer(p, a.hist, r, b.cfg.iss) by { WireGives(a, i, Some(b.cfg.iss)); }
    PacketIsPiece(p, a.hist, r, b.cfg.iss);
    InvLive(b, Peer(r));
    LiveParts(b, Peer(r));
    RcvWndWithinBuffer(b);
    AcceptableUnwrapped(r.iss, p.pos, p.seg.SegLen(), RecvPos(b.hist), RcvWnd(b));
  }

  /** The acknowledgement of where `b` is passes every check at `a`. */
  lemma CurrentPasses(a: Engine, b: Engine)
    requires a.cfg.rcvWnd < QUARTER && Agree(a, b) && Agree(b, a) && Active(a.state)
    requires SentEnd(b.hist) == RecvPos(a.hist) && ForUs(a, OffWire(CurrentAck(b).seg))
    ensures P.PassesChecks(a, OffWire(CurrentAck(b).seg))
  {
    hide Wrap, RcvWnd, S32, Acceptable;
    AtNxt(a, 0);
    SerialOrder(a.snd.iss, RecvPos(b.hist), SentEnd(a.hist));
  }

  lemma AckCatchesUp(a: Engine, b: Engine, now: real)
    requires Side(a, b) && Agree(a, b) && Agree(b, a) && TextOpen(a.state)
    requires SentEnd(b.hist) == RecvPos(a.hist) && ForUs(a, OffWire(CurrentAck(b).seg))
    ensures Step(a, now, Arrives(OffWire(CurrentAck(b).seg))).hist.unaPos == RecvPos(b.hist)
  {
    hide Inv, RecvOk, Agree, RcvWnd, AfterAck, AckAndWindow, Step, Running, SendOk, P.PassesChecks, ForUs, SeqGt;
    var seg, peer := OffWire(CurrentAck(b).seg), Some(b.cfg.iss);
    assert a.cfg.rcvWnd < QUARTER by { WindowOf(a, StreamOf(b)); }
    CurrentPasses(a, b);
    HeardInv(a, now, peer);
    var g := Checked(a, now, seg);
    assert Agree(g, b) by { HeardAgrees(a, g, b); }
    assert !SeqGt(seg.ackNo, g.snd.nxt) by { PassedAck(a, seg); }
    AckAndWindowOk(g, seg, peer);
    AfterAckOk(AckAndWindow(g, seg), seg, peer);
    InvLive(g, peer);
    LiveParts(g, peer);
    Caught(g, b, seg);
  }

  lemma HeardAgrees(a: Engine, g: Engine, b: Engine)
    requires Agree(a, b) && g == a.(tm := g.tm)
    ensures Agree(g, b)
  {
  }

  lemma Caught(g: Engine, b: Engine, seg: Segment)
    requires SendOk(g) && Agree(g, b) && seg.ackNo == b.rcv.nxt
    ensures AckAndWindow(g, seg).hist.unaPos == RecvPos(b.hist)
  {
    hide Tiles, Wrap, S32, Sub, KarnOk, Tally, AllAck, CancelPersist, Trim, RttSample, TakesSample;
    SerialOrder(g.snd.iss, RecvPos(b.hist), g.hist.unaPos);
    SubWraps(g.snd.iss, RecvPos(b.hist), g.hist.unaPos);
    var h := if SeqGt(seg.ackNo, g.snd.una) then ProcessAck(g, seg.ackNo) else g;
    assert h.hist.unaPos == RecvPos(b.hist);
    SendOnlySends(h.(snd := h.snd.(wnd := seg.window, wl1 := seg.seqNo, wl2 := seg.ackNo)));
  }

  /** If the acknowledgement was lost, the retransmission gets it again: a packet that `b` has received all of already is
      answered by one acknowledgement, and that tells `a`, unless something of `b` is under way before it, all that `b`
      has taken. */
  lemma LostAckIsRepeated(s: System, i: nat, now: real, later: real)
    requires Reachable(s) && i < |s.a.wire| && Timely(s.b, s.a.wire[i]) && AllOld(s.b, s.a.wire[i])
    requires TextOpen(s.a.state) && Synced(s.b.state) && SentEnd(s.b.hist) == RecvPos(s.a.hist)
    requires ForUs(s.b, OffWire(s.a.wire[i].seg)) && ForUs(s.a, OffWire(CurrentAck(s.b).seg))
    ensures var b := Step(s.b, now, Arrives(OffWire(s.a.wire[i].seg)));
            && b.wire == s.b.wire + [CurrentAck(s.b)]
            && Step(s.a, later, Arrives(OffWire(b.wire[|s.b.wire|].seg))).hist.unaPos == RecvPos(s.b.hist)
  {
    hide Reachable, Side, Agree, Step, Stray, Timely, CurrentAck, RcvWnd;
    ReachableInv(s);
    EnginesAgree(s);
    assert Inv(s.a, Some(s.b.cfg.iss)) by { SideInv(s.a, s.b); }
    OldIsStray(s.a, s.b, i);
    StrayIsAnswered(s.b, now, OffWire(s.a.wire[i].seg));
    AckCatchesUp(s.a, s.b, later);
  }

  lemma SideInv(a: Engine, b: Engine)
    requires Side(a, b)
    ensures Inv(a, Some(b.cfg.iss))
  {
    hide Inv, RecvOk;
  }
}
