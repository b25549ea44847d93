/** What becomes of the text and of the FIN of a segment: of what a genuine segment brings, exactly the part inside the
    window is held afterwards, delivered or waiting in the store; and the end of the stream is taken exactly when it is
    known and everything before it is delivered. */
module TextArrival {
  import opened SeqNum
  import opened EngineState
  import opened EngineSpec
  import opened EngineFacts
  import opened SendInvariant
  import opened SendPath
  import opened AckPath
  import opened RecvPath
  import opened EngineInvariant
  import opened SegmentArrives
  import opened Opening
  import opened EngineRuns
  import opened Reassembly
  import opened HonestPeer
  import opened HonestSteps
  import opened TwoEngines
  import opened Corners
  import opened WindowEdge
  import opened WindowUpdate

  /** The byte at position `x` is delivered or stored. */
  ghost predicate Held(e: Engine, x: int) { 1 <= x <= |e.hist.delivered| || Covered(e.rcv.ooo, x) }

  /** The payload at `pos` reaches position `x`. */
  predicate Brings(seg: Segment, pos: int, x: int) { pos <= x < pos + |seg.payload| }

  /** `f` holds what `e` held and what the payload has below `edge`. */
  ghost predicate Gains(e: Engine, f: Engine, seg: Segment, pos: int, edge: int) {
    forall x :: x >= 1 ==> (Held(f, x) <==> Held(e, x) || (Brings(seg, pos, x) && x < edge))
  }

  ghost predicate HoldsSame(e: Engine, f: Engine) { f.rcv.ooo == e.rcv.ooo && f.hist.delivered == e.hist.delivered }

  // ---------------------------------------------------------------------------------------------
  // The offered window while the acknowledgement is taken
  // ---------------------------------------------------------------------------------------------

  lemma EmitKeepsOffer(e: Engine, sn: u32, flags: Flags, payload: seq<byte>, withMss: bool)
    requires e.cfg.rcvWnd < QUARTER
    ensures RcvWnd(Emit(e, sn, flags, payload, withMss)) == RcvWnd(e)
  {
    hide RcvWnd;
    EmitEdge(e, sn, flags, payload, withMss);
    EdgeAdvertised(e, Emit(e, sn, flags, payload, withMss));
  }

  lemma EmitEdge(e: Engine, sn: u32, flags: Flags, payload: seq<byte>, withMss: bool)
    ensures var f := Emit(e, sn, flags, payload, withMss);
            f == e.(rcv := e.rcv.(zeroWin := f.rcv.zeroWin, advRight := Some(AdvertisedRight(e))), wire := f.wire)
  {
  }

  /** The window depends only on the configuration, the receive side and the segment size. */
  lemma OfferDependsOn(e: Engine, f: Engine)
    requires f.cfg == e.cfg && f.rcv == e.rcv && f.snd.mss == e.snd.mss
    ensures RcvWnd(f) == RcvWnd(e)
  {
  }

  lemma QueueKeepsOffer(e: Engine, flags: Flags, payload: seq<byte>, withMss: bool)
    requires e.cfg.rcvWnd < QUARTER
    ensures RcvWnd(QueueAndSend(e, flags, payload, withMss)) == RcvWnd(e)
  {
    hide RcvWnd, Emit;
    EmitKeepsOffer(e, e.snd.nxt, flags, payload, withMss);
    EmitEdge(e, e.snd.nxt, flags, payload, withMss);
    OfferDependsOn(Emit(e, e.snd.nxt, flags, payload, withMss), QueueAndSend(e, flags, payload, withMss));
  }

  lemma FinKeepsOffer(e: Engine)
    requires e.cfg.rcvWnd < QUARTER
    ensures RcvWnd(SendFin(e)) == RcvWnd(e)
  {
    hide RcvWnd, QueueAndSend, SetState;
    var g := e.(snd := e.snd.(finSeq := e.snd.nxt));
    OfferDependsOn(e, g);
    QueueKeepsOffer(g, FIN_ACK, [], false);
    var h := QueueAndSend(g, FIN_ACK, [], false);
    StateTouches(h.(snd := h.snd.(finSent := true)), FinState(h.state));
    OfferDependsOn(h, SendFin(e));
  }

  lemma {:induction false} PumpKeepsOffer(e: Engine)
    requires e.cfg.rcvWnd < QUARTER
    ensures RcvWnd(PumpData(e)) == RcvWnd(e)
    decreases |e.snd.appBuf|
  {
    hide RcvWnd, QueueAndSend, SendFin, UsableWindow;
    OfferDependsOn(e, ArmPersist(e));
    if e.snd.appBuf == [] {
      FinKeepsOffer(e);
    } else if e.snd.wnd != 0 && UsableWindow(e) > 0 {
      var n := Min(Min(e.snd.mss, UsableWindow(e)), |e.snd.appBuf|);
      if !(e.cfg.timers.nagle && e.snd.retx != [] && n < e.snd.mss) {
        var g := e.(snd := e.snd.(appBuf := e.snd.appBuf[n..]));
        OfferDependsOn(e, g);
        QueueKeepsOffer(g, ACK, e.snd.appBuf[..n], false);
        QueueOnlySends(g, ACK, e.snd.appBuf[..n], false);
        ChunkTakes(e, n);
        PumpKeepsOffer(SendChunk(e, n));
      }
    }
  }

  lemma SendKeepsOffer(e: Engine)
    requires e.cfg.rcvWnd < QUARTER
    ensures RcvWnd(SendPending(e)) == RcvWnd(e) && RcvWnd(CancelPersist(e)) == RcvWnd(e)
  {
    hide RcvWnd, PumpData;
    var g := e.(tm := e.tm.(persist := None));
    OfferDependsOn(e, g);
    PumpKeepsOffer(e);
    PumpKeepsOffer(g);
  }

  lemma AckKeepsOffer(e: Engine, seg: Segment)
    requires e.cfg.rcvWnd < QUARTER
    ensures RcvWnd(AckAndWindow(e, seg)) == RcvWnd(e)
  {
    hide RcvWnd, ProcessAck, CancelPersist, SeqGt, SeqLt, SeqLeq;
    AckKeepsSend(e, seg.ackNo);
    AckProcessedTouches(e, seg.ackNo);
    OfferDependsOn(e, ProcessAck(e, seg.ackNo));
    var g := if SeqGt(seg.ackNo, e.snd.una) then ProcessAck(e, seg.ackNo) else e;
    var h := g.(snd := g.snd.(wnd := seg.window, wl1 := seg.seqNo, wl2 := seg.ackNo));
    OfferDependsOn(g, h);
    SendKeepsOffer(h);
  }

  // ---------------------------------------------------------------------------------------------
  // Text
  // ---------------------------------------------------------------------------------------------

  lemma DeliverHolds(e: Engine, data: seq<byte>, x: int)
    requires x >= 1
    ensures Held(Deliver(e, data), x) <==> Held(e, x) || |e.hist.delivered| < x <= |e.hist.delivered| + |data|
    ensures Deliver(e, data).rcv.ooo == e.rcv.ooo
  {
  }

  /** Merging changes nothing of what is held. */
  lemma MergeHolds(e: Engine, base: int, rp0: int, c: int -> byte, x: int)
    requires Store(e.rcv.ooo, base, rp0, c) && e.hist.fins == 0 && x >= 1
    requires e.rcv.nxt == Wrap(base + RecvPos(e.hist)) && rp0 <= RecvPos(e.hist) < rp0 + QUARTER
    ensures Held(Merge(e), x) <==> Held(e, x)
  {
    hide Merge, Wrap, Store, Bytes;
    MergeIsMaximal(e, base, rp0, c);
    var f := Merge(e);
    var rp' := RecvPos(f.hist);
    if Covered(f.rcv.ooo, x) {
      var i :| 0 <= i < |f.rcv.ooo| && Reaches(f.rcv.ooo[i], x);
      assert f.rcv.ooo[i] in f.rcv.ooo;
      InCovers(e.rcv.ooo, f.rcv.ooo[i], x);
    }
    if Covered(e.rcv.ooo, x) && x >= rp' {
      var i :| 0 <= i < |e.rcv.ooo| && Reaches(e.rcv.ooo[i], x);
      var b := e.rcv.ooo[i];
      assert b.pos > rp' by { if b.pos <= rp' { InCovers(e.rcv.ooo, b, rp'); } }
      InCovers(f.rcv.ooo, b, x);
    }
  }

  lemma InCovers(ooo: seq<Block>, b: Block, x: int)
    requires b in ooo && Reaches(b, x)
    ensures Covered(ooo, x)
  {
  }

  lemma AnswerHolds(e: Engine, force: bool)
    ensures HoldsSame(e, ScheduleAck(e, force))
  {
    hide SendAck;
    AckTouches(e);
    AckTouches(e.(tm := e.tm.(ackCount := e.tm.ackCount + 1)));
  }

  lemma PlaceHolds(e: Engine, r: Stream, q: int, data: seq<byte>, x: int)
    requires RecvOk(e, r) && Knows(e, Peer(r)) && e.hist.fins == 0 && x >= 1
    requires RecvPos(e.hist) <= q && data != [] && q + |data| < RecvPos(e.hist) + QUARTER && q + |data| <= 1 + |r.sent|
    requires data == r.sent[q - 1..q - 1 + |data|]
    ensures Held(Place(e, Wrap(r.iss + q), data), x) <==> Held(e, x) || q <= x < q + |data|
  {
    hide Wrap, S32, Merge, ScheduleAck, StoreOoo, Deliver, BlockOk, NotedFinOk;
    var rp := RecvPos(e.hist);
    SerialOrder(r.iss, q, rp);
    BlocksFit(e, r, rp);
    if q == rp {
      var d := Deliver(e, data);
      DeliverHolds(e, data, x);
      DeliverMoves(e, data, r.iss);
      MergeHolds(d, r.iss, rp, Content(r), x);
      AnswerHolds(Merge(d), false);
    } else {
      StoreCovers(e, Piece(q, data), r.iss, Content(r));
      var s := StoreOoo(e, Wrap(r.iss + q), data);
      assert Covered(s.rcv.ooo, x) <==> Covered(e.rcv.ooo, x) || PieceReaches(Piece(q, data), x);
      AnswerHolds(s, true);
    }
  }

  lemma DeliverMoves(e: Engine, data: seq<byte>, base: int)
    requires e.rcv.nxt == Wrap(base + RecvPos(e.hist))
    ensures var d := Deliver(e, data);
            RecvPos(d.hist) == RecvPos(e.hist) + |data| && d.rcv.nxt == Wrap(base + RecvPos(d.hist)) && d.hist.fins == e.hist.fins
  {
    hide Wrap;
    AddWraps(base, RecvPos(e.hist), |data|);
    assert base + RecvPos(e.hist) + |data| == base + RecvPos(Deliver(e, data).hist);
  }

  lemma DataHolds(e: Engine, seg: Segment, pos: int, r: Stream)
    requires RecvOk(e, r) && Knows(e, Peer(r)) && e.hist.fins == 0
    requires Piecewise(seg, pos, r) && TimelyData(pos, |seg.payload|, RecvPos(e.hist))
    ensures Gains(e, RecvData(e, seg), seg, pos, RecvPos(e.hist) + RcvWnd(e))
  {
    forall x: int | x >= 1
      ensures Held(RecvData(e, seg), x) <==> Held(e, x) || (Brings(seg, pos, x) && x < RecvPos(e.hist) + RcvWnd(e))
    {
      DataHoldsAt(e, seg, pos, r, x);
    }
  }

  lemma DataHoldsAt(e: Engine, seg: Segment, pos: int, r: Stream, x: int)
    requires RecvOk(e, r) && Knows(e, Peer(r)) && e.hist.fins == 0 && x >= 1
    requires Piecewise(seg, pos, r) && TimelyData(pos, |seg.payload|, RecvPos(e.hist))
    ensures Held(RecvData(e, seg), x) <==> Held(e, x) || (Brings(seg, pos, x) && x < RecvPos(e.hist) + RcvWnd(e))
  {
    hide Wrap, S32, Place, ScheduleAck, RcvWnd, BlocksOk, NotedFinOk, Genuine, Covered;
    if seg.payload != [] {
      var rp, n := RecvPos(e.hist), |seg.payload|;
      AnswerHolds(e, true);
      SerialOrder(r.iss, pos, rp);
      if pos < rp { SubWraps(r.iss, rp, pos); }
      var off := if pos < rp then rp - pos else 0;
      if off < n {
        var q := pos + off;
        RcvWndWithinBuffer(e);
        SpaceIs(r.iss, rp, RcvWnd(e), q);
        var space := rp + RcvWnd(e) - q;
        if space > 0 {
          var data := seg.payload[off..][..Min(space, n - off)];
          PieceSlice(seg, pos, r, off, |data|);
          PlaceHolds(e, r, q, data, x);
        }
      }
    }
  }

  // ---------------------------------------------------------------------------------------------
  // The end of the stream
  // ---------------------------------------------------------------------------------------------

  /** The end of the peer's stream is known: taken, or noted for later. */
  predicate EndKnown(e: Engine) { e.hist.fins == 1 || e.rcv.pendingFin.Some? }

  /** The segment's FIN makes the end known, and the end is taken exactly when all before it is delivered. */
  predicate Ends(e: Engine, f: Engine, seg: Segment, r: Stream) {
    && (EndKnown(f) <==> EndKnown(e) || seg.flags.fin)
    && (f.hist.fins == 1 <==> EndKnown(f) && f.hist.delivered == r.sent)
  }

  lemma FinEnds(e: Engine, seg: Segment, pos: int, r: Stream)
    requires RecvOk(e, r) && Running(e, Peer(r)) && AwaitsFinAck(e) && Settled(e) && TextOpen(e.state)
    requires Piecewise(seg, pos, r) && (seg.flags.fin ==> pos + |seg.payload| - RecvPos(e.hist) < HALF)
    ensures var f := CheckPendingFin(NoteFin(e, seg)); HoldsSame(e, f) && Ends(e, f, seg, r)
  {
    hide ProcessFin, Live, Settled, Coupled, Piecewise, SeqGt, BlocksOk;
    ProcessFinOk(e, Peer(r));
    assert Knows(e, Peer(r)) by { KnowsOf(e, Peer(r)); }
    if seg.flags.fin { FinFalls(e, seg, pos, r); }
    if e.rcv.pendingFin.Some? { NotedStands(e, r); }
    var g := NoteFin(e, seg);
    if g != ProcessFin(e) {
      SetPendingFin(e, g.rcv.pendingFin, Peer(r));
      ProcessFinOk(g, Peer(r));
      if g != e {
        assert g.rcv.pendingFin.value != g.rcv.nxt;
      }
    }
  }

  lemma KnowsOf(e: Engine, peer: Option<u32>)
    requires Running(e, peer)
    ensures Knows(e, peer)
  {
    hide Wrap, Trail, Coupled, Base, KarnOk;
  }

  /** A noted FIN stands at RCV.NXT exactly when all before it is delivered. */
  lemma NotedStands(e: Engine, r: Stream)
    requires RecvOk(e, r) && Knows(e, Peer(r)) && e.rcv.pendingFin.Some?
    ensures e.hist.fins == 0 && r.fin && (e.rcv.pendingFin.value == e.rcv.nxt <==> e.hist.delivered == r.sent)
  {
    hide BlockOk, Wrap, S32;
    SerialOrder(r.iss, 1 + |r.sent|, RecvPos(e.hist));
    assert r.iss + 1 + |r.sent| == r.iss + (1 + |r.sent|);
  }

  // ---------------------------------------------------------------------------------------------
  // The segment
  // ---------------------------------------------------------------------------------------------

  /** Text and FIN of a segment are taken as they should be. */
  ghost predicate TakesText(e: Engine, f: Engine, seg: Segment, pos: int, r: Stream) {
    Gains(e, f, seg, pos, Edge(e)) && Ends(e, f, seg, r)
  }

  /** Once the end is taken nothing new can come. */
  lemma NothingMissing(e: Engine, f: Engine, seg: Segment, pos: int, r: Stream)
    requires RecvOk(e, r) && e.hist.fins == 1 && Piecewise(seg, pos, r)
    requires f.hist.delivered == e.hist.delivered && f.hist.fins == 1 && (f.rcv.ooo == e.rcv.ooo || f.rcv.ooo == [])
    ensures TakesText(e, f, seg, pos, r)
  {
    hide Wrap, RcvWnd;
    NothingStored(e, r);
  }

  lemma NothingStored(e: Engine, r: Stream)
    requires RecvOk(e, r) && e.hist.fins == 1
    ensures e.rcv.ooo == []
  {
    hide BlockOk;
    if e.rcv.ooo != [] {
      assert e.rcv.ooo[0] in e.rcv.ooo;
      NoBlockPast(e.rcv.ooo[0], r);
    }
  }

  lemma NoBlockPast(b: Block, r: Stream)
    ensures !BlockOk(b, r, 2 + |r.sent|)
  {
  }

  /** What happens before the text is looked at. */
  ghost predicate Readies(e: Engine, g: Engine) {
    && g.rcv == e.rcv.(zeroWin := g.rcv.zeroWin, advRight := g.rcv.advRight) && g.cfg == e.cfg && RcvWnd(g) == RcvWnd(e)
    && g.hist.delivered == e.hist.delivered && g.hist.fins == e.hist.fins
  }

  lemma ReadiedTakes(e: Engine, g: Engine, f: Engine, seg: Segment, pos: int, r: Stream)
    requires Readies(e, g) && TakesText(g, f, seg, pos, r)
    ensures TakesText(e, f, seg, pos, r)
  {
    hide RcvWnd, Covered;
    assert forall x :: Held(g, x) <==> Held(e, x);
  }

  lemma TextTakes(e: Engine, seg: Segment, pos: int, r: Stream)
    requires RecvOk(e, r) && Running(e, Peer(r)) && AwaitsFinAck(e) && TextOpen(e.state)
    requires Piecewise(seg, pos, r) && TimelyData(pos, seg.SegLen(), RecvPos(e.hist))
    ensures TakesText(e, TextAndFin(e, seg), seg, pos, r)
  {
    hide RecvData, SendPending, NoteFin, CheckPendingFin, Live, Settled, RtLive, RecvOk, Wrap, Genuine, RcvWnd, Held, Coupled;
    var takes := e.state == ESTABLISHED || e.state == FIN_WAIT_1 || e.state == FIN_WAIT_2;
    var g := if takes then RecvData(e, seg) else e;
    FinTakenSoFar(e);
    KnowsOf(e, Peer(r));
    if takes {
      RecvDataHonest(e, seg, pos, r);
      RecvDataLive(e, seg, Peer(r));
      RunningTakes(e, g, Peer(r));
      DataHolds(e, seg, pos, r);
    } else {
      OneFin(e, r);
      NothingMissing(e, e, seg, pos, r);
    }
    assert Gains(e, g, seg, pos, Edge(e));
    RunningSends(g, Peer(r));
    var h := SendPending(g);
    SendFrameSame(g, h);
    RecvOkSame(g, h, r);
    SendOnlySends(g);
    FinEnds(h, seg, pos, r);
    HeldAlike(g, h);
    HeldAlike(h, TextAndFin(e, seg));
  }

  lemma HeldAlike(e: Engine, f: Engine)
    requires HoldsSame(e, f)
    ensures forall x :: Held(f, x) <==> Held(e, x)
  {
  }

  lemma FinTakenSoFar(e: Engine)
    requires Coupled(e) && Active(e.state)
    ensures (e.hist.fins > 0) == FinTakenIn(e.state)
  {
  }

  lemma OneFin(e: Engine, r: Stream)
    requires RecvOk(e, r) && e.hist.fins > 0
    ensures e.hist.fins == 1
  {
  }

  lemma AfterAckTakes(e: Engine, seg: Segment, pos: int, r: Stream)
    requires RecvOk(e, r) && Running(e, Peer(r)) && TextOpen(e.state)
    requires Piecewise(seg, pos, r) && TimelyData(pos, seg.SegLen(), RecvPos(e.hist))
    ensures TakesText(e, AfterAck(e, seg), seg, pos, r)
  {
    hide TextAndFin, EnterClosed, EnterTimeWait, Live, Settled, SetState, Trail, RtLive, RecvOk, Wrap, Genuine, TakesText, Coupled;
    LiveTrail(e, Peer(r));
    FinTakenSoFar(e);
    if e.state == FIN_WAIT_1 && e.snd.finAcked {
      SetStateIs(e, FIN_WAIT_2);
      ToFinWait2(e, Peer(r));
      var g := SetState(e, FIN_WAIT_2);
      RecvOkSame(e, g, r);
      TextTakes(g, seg, pos, r);
      OfferDependsOn(e, g);
      ReadiedTakes(e, g, TextAndFin(g, seg), seg, pos, r);
    } else if e.state == CLOSING && e.snd.finAcked {
      EnterTimeWaitIs(e);
      OneFin(e, r);
      NothingMissing(e, EnterTimeWait(e), seg, pos, r);
    } else if e.state == LAST_ACK && e.snd.finAcked {
      RunningClosable(e, Peer(r));
      EnterClosedOk(e, Peer(r));
      OneFin(e, r);
      NothingMissing(e, EnterClosed(e), seg, pos, r);
    } else {
      TextTakes(e, seg, pos, r);
    }
  }

  /** In SYN-RECEIVED an acknowledgement has to acknowledge our SYN. */
  predicate AcksSyn(e: Engine, seg: Segment) {
    e.state == SYN_RECEIVED ==> SeqLt(e.snd.una, seg.ackNo) && SeqLeq(seg.ackNo, e.snd.nxt)
  }

  lemma HandleAckTakes(e: Engine, seg: Segment, pos: int, r: Stream)
    requires RecvOk(e, r) && Inv(e, Peer(r)) && (TextOpen(e.state) || e.state == SYN_RECEIVED)
    requires seg.flags.ack && !seg.flags.rst && seg.window < 0x1_0000 && AcksSyn(e, seg) && !SeqGt(seg.ackNo, e.snd.nxt)
    requires Piecewise(seg, pos, r) && TimelyData(pos, seg.SegLen(), RecvPos(e.hist))
    ensures TakesText(e, HandleAck(e, seg), seg, pos, r)
  {
    hide Inv, Running, Establish, TextAndFin, EmitRstReply, SendAck, AckAndWindow, AfterAck, Settled, RecvOk, Wrap, Genuine, TakesText, RcvWnd, SeqGt;
    if e.state == SYN_RECEIVED {
      var g := Establish(e, seg);
      EstablishOk(e, seg, Peer(r));
      EstablishHonest(e, seg, r);
      EstablishReadies(e, seg, r);
      TextTakes(g, seg, pos, r);
      ReadiedTakes(e, g, TextAndFin(g, seg), seg, pos, r);
    } else {
      var g := AckAndWindow(e, seg);
      AckAndWindowOk(e, seg, Peer(r));
      RecvOkSame(e, g, r);
      SmallWindow(e, r);
      AckKeepsOffer(e, seg);
      AfterAckTakes(g, seg, pos, r);
      ReadiedTakes(e, g, AfterAck(g, seg), seg, pos, r);
    }
  }

  lemma SmallWindow(e: Engine, r: Stream)
    requires RecvOk(e, r)
    ensures e.cfg.rcvWnd < QUARTER && (e.state == SYN_RECEIVED ==> e.rcv.ooo == [])
  {
  }

  lemma EstablishReadies(e: Engine, seg: Segment, r: Stream)
    requires RecvOk(e, r) && e.state == SYN_RECEIVED
    ensures Readies(e, Establish(e, seg))
  {
    hide ProcessAck, SetState, SendPending, RcvWnd, RecvOk;
    SmallWindow(e, r);
    AckProcessedTouches(e, seg.ackNo);
    AckKeepsSend(e, seg.ackNo);
    var f := ProcessAck(e, seg.ackNo);
    var g := f.(snd := f.snd.(wnd := seg.window, wl1 := seg.seqNo, wl2 := seg.ackNo));
    StateTouches(g, ESTABLISHED);
    var k := SetState(g, ESTABLISHED);
    assert Merge(k) == k;
    OfferDependsOn(e, k);
    SendKeepsOffer(k);
    SendOnlySends(k);
  }

  /** The segment is let through to its text. */
  predicate LetThrough(e: Engine, seg: Segment) {
    (TextOpen(e.state) || e.state == SYN_RECEIVED) && PassesChecks(e, seg) && AcksSyn(e, seg)
  }

  lemma ArrivalTakes(a: Engine, b: Engine, i: nat, now: real)
    requires Side(b, a) && i < |a.wire| && Inv(a, Some(b.cfg.iss)) && Timely(b, a.wire[i]) && LetThrough(b, OffWire(a.wire[i].seg))
    ensures TakesText(b, Step(b, now, Arrives(OffWire(a.wire[i].seg))), OffWire(a.wire[i].seg), a.wire[i].pos, StreamOf(a))
  {
    hide Inv, RecvOk, HandleAck, PacketOk, TakesText, RcvWnd, Acceptable, React, SeqGt, Wrap;
    var p, r := a.wire[i], StreamOf(a);
    var seg := OffWire(p.seg);
    assert FromPeer(p, a.hist, r, b.cfg.iss) by { WireGives(a, i, Some(b.cfg.iss)); }
    PacketIsPiece(p, a.hist, r, b.cfg.iss);
    var g := Heard(b, now);
    ClockOk(b, now, Peer(r));
    if b.state == ESTABLISHED { RestartKeepaliveOk(At(b, now), Peer(r)); }
    RecvOkSame(b, g, r);
    ArrivalIs(b, now, seg);
    assert RcvWnd(g) == RcvWnd(b) by { SameOffer(b, g); }
    assert Step(b, now, Arrives(seg)) == HandleAck(g, seg);
    HandleAckTakes(g, seg, p.pos, r);
    ReadiedTakes(b, g, HandleAck(g, seg), seg, p.pos, r);
  }

  /** Text and FIN, in every run of two engines over the channel: when a packet is let through to its text, what its
      receiver then holds, delivered or stored, is what it held before and exactly the bytes of the packet inside the
      window; a FIN makes the end of the stream known; and the end is taken exactly when it is known and all before it
      is delivered. */
  lemma TextTakenExactly(s: System, i: nat, now: real)
    requires Reachable(s) && i < |s.a.wire| && Timely(s.b, s.a.wire[i]) && LetThrough(s.b, OffWire(s.a.wire[i].seg))
    ensures var p := s.a.wire[i];
            var f := Step(s.b, now, Arrives(OffWire(p.seg)));
            && (forall x :: x >= 1 ==> (Held(f, x) <==> Held(s.b, x) || (p.pos <= x < p.pos + |p.seg.payload| && x < Edge(s.b))))
            && (EndKnown(f) <==> EndKnown(s.b) || p.seg.flags.fin)
            && (f.hist.fins == 1 <==> EndKnown(f) && f.hist.delivered == s.a.hist.sent)
  {
    hide Reachable, Inv, RecvOk, LetThrough, Timely, Held, Step, RcvWnd;
    ReachableInv(s);
    ArrivalTakes(s.a, s.b, i, now);
    var p := s.a.wire[i];
    assert forall x :: Brings(OffWire(p.seg), p.pos, x) <==> p.pos <= x < p.pos + |p.seg.payload|;
  }
}
