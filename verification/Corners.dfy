/** Where careless expectations of the engine fail, each with the exact condition: a timer that survives CLOSED, an
    end of stream consumed twice, and a receive buffer filled beyond its size. */
module Corners {
  import opened SeqNum
  import opened EngineState
  import opened EngineSpec
  import opened EngineFacts
  import opened SendInvariant
  import opened SendPath
  import opened AckPath
  import opened EngineInvariant
  import opened SegmentArrives
  import opened Opening
  import opened EngineRuns
  import opened Reassembly
  import opened HonestPeer
  import opened RunTheorems

  // ---------------------------------------------------------------------------------------------
  // Timers at the end
  // ---------------------------------------------------------------------------------------------

  /** Without the persist timer the send path arms it again exactly if work waits for a shut window. */
  lemma SettledRearms(e: Engine)
    requires Settled(e)
    ensures CancelPersist(e) == if HasWork(e) && e.snd.wnd == 0 then ArmPersist(e.(tm := e.tm.(persist := None)))
                                else e.(tm := e.tm.(persist := None))
  {
    hide SendChunk, SendFin, QueueAndSend;
    var f := e.(tm := e.tm.(persist := None));
    assert UsableWindow(f) == UsableWindow(e);
  }

  /** No timer runs but perhaps the persist timer, and that exactly if work waited for a shut window. */
  predicate OnlyPersistLeft(e: Engine, f: Engine) {
    && f.tm.rt == None && f.tm.tw == None && f.tm.ack == None && f.tm.ka == None
    && (f.tm.persist.Some? <==> HasWork(e) && e.snd.wnd == 0)
  }

  lemma ClosedTimers(e: Engine)
    requires Settled(e)
    ensures OnlyPersistLeft(e, EnterClosed(e))
  {
    hide CancelPersist, HasWork, Settled, SetState;
    StopKeepsWork(e);
    SettledRearms(StopRt(e));
    var f := CancelKeepalive(CancelPersist(StopRt(e)));
    ClosingState(ResetBuffers(f.(tm := f.tm.(tw := None, ack := None))));
  }

  lemma StopKeepsWork(e: Engine)
    ensures Settled(StopRt(e)) == Settled(e) && HasWork(StopRt(e)) == HasWork(e)
  {
    assert UsableWindow(StopRt(e)) == UsableWindow(e);
  }

  lemma ClosingState(e: Engine)
    requires e.tm.ka == None
    ensures var f := SetState(e, CLOSED); f.state == CLOSED && f.tm == e.tm.(ka := None, kaProbes := f.tm.kaProbes)
  {
  }

  /** What is dropped in a step is the engine as it was, as far as sending goes; or one that had nothing to send. */
  predicate SameWork(e: Engine, x: Engine) {
    || (x.state == e.state && x.snd == e.snd && x.cfg == e.cfg && x.tm.persist == e.tm.persist)
    || (!MaySend(x) && !MaySend(e))
  }

  lemma SameWorkTimers(e: Engine, x: Engine)
    requires Settled(e) && SameWork(e, x)
    ensures OnlyPersistLeft(e, EnterClosed(x))
  {
    hide EnterClosed;
    assert UsableWindow(x) == UsableWindow(e) || !MaySend(x);
    ClosedTimers(x);
  }

  /** The step from `e` drops the connection. */
  ghost predicate DropsSame(e: Engine, f: Engine) { exists x: Engine :: SameWork(e, x) && f == EnterClosed(x) }

  lemma DropOf(e: Engine, x: Engine)
    requires SameWork(e, x)
    ensures DropsSame(e, EnterClosed(x))
  {
    hide EnterClosed, SameWork;
  }

  lemma AfterAckDrops(e: Engine, g: Engine, seg: Segment)
    requires Running(g, None) && TextOpen(g.state) && (g.state == e.state || AwaitsFinAck(g))
    requires AfterAck(g, seg).state == CLOSED
    ensures e.state == LAST_ACK == g.state && AfterAck(g, seg) == EnterClosed(g)
  {
    hide TextAndFin, EnterClosed, EnterTimeWait, Live, SetState, RtLive, Coupled, Inv;
    if g.state == FIN_WAIT_1 && g.snd.finAcked {
      ToFinWait2(g, None);
      StateTouches(g, FIN_WAIT_2);
      TextAndFinOk(SetState(g, FIN_WAIT_2), seg, None);
    } else if g.state == CLOSING && g.snd.finAcked {
      TimeWaitTouches(g);
    } else if !(g.state == LAST_ACK && g.snd.finAcked) {
      TextAndFinOk(g, seg, None);
    }
  }

  lemma SegmentDrops(e: Engine, seg: Segment)
    requires Inv(e, None) && Synced(e.state) && seg.window < 0x1_0000 && HandleSynchronized(e, seg).state == CLOSED
    ensures DropsSame(e, HandleSynchronized(e, seg))
  {
    hide Inv, HandleAck, SendAck, EnterClosed, Acceptable, RcvWnd, SameWork, DropsSame, BackToListen;
    AckTouches(e);
    assert SameWork(e, e) && forall why :: SameWork(e, SignalError(e, why)) by { DropsAlike(e); }
    DropOf(e, e);
    DropOf(e, SignalError(e, ConnectionRefused));
    DropOf(e, SignalError(e, ConnectionReset));
    ListenAgain(e);
    if e.state == TIME_WAIT {
      RestartedState(SendAck(e));
    } else if HandleSynchronized(e, seg) == HandleAck(e, seg) && seg.flags.ack && !seg.flags.rst {
      AckDrops(e, seg);
    }
  }

  lemma RestartedState(e: Engine)
    ensures RestartTimeWait(e).state == e.state
  {
  }

  lemma ListenAgain(e: Engine)
    ensures BackToListen(e).state == LISTEN
  {
    hide SetState;
    StateTouches(e, LISTEN);
  }

  lemma DropsAlike(e: Engine)
    ensures SameWork(e, e) && forall why :: SameWork(e, SignalError(e, why))
  {
  }

  lemma AckDrops(e: Engine, seg: Segment)
    requires Inv(e, None) && Synced(e.state) && e.state != TIME_WAIT && seg.flags.ack && !seg.flags.rst
    requires seg.window < 0x1_0000 && HandleAck(e, seg).state == CLOSED
    ensures DropsSame(e, HandleAck(e, seg))
  {
    hide Inv, Running, Establish, TextAndFin, EmitRstReply, SendAck, AckAndWindow, AfterAck, EnterClosed, SeqGt, SeqLt, SeqLeq, DropsSame;
    AckTouches(e);
    if e.state == SYN_RECEIVED {
      if SeqLt(e.snd.una, seg.ackNo) && SeqLeq(seg.ackNo, e.snd.nxt) {
        EstablishOk(e, seg, None);
        TextAndFinOk(Establish(e, seg), seg, None);
      } else {
        RstReplyTouches(e, seg, seg.ackNo, 0, false);
      }
    } else if !SeqGt(seg.ackNo, e.snd.nxt) {
      AckAndWindowOk(e, seg, None);
      var g := AckAndWindow(e, seg);
      AfterAckDrops(e, g, seg);
      assert !MaySend(g) && !MaySend(e);
      DropOf(e, g);
    }
  }

  lemma SynSentDrops(e: Engine, seg: Segment)
    requires Inv(e, None) && e.state == SYN_SENT && seg.window < 0x1_0000 && HandleSynSent(e, seg).state == CLOSED
    ensures DropsSame(e, HandleSynSent(e, seg))
  {
    hide EmitRstReply, EnterClosed, TakeSyn, SendPending, SendAck, SetState, HandleSynchronized, SimultaneousOpen;
    hide Inv, SeqLeq, SeqGt, Between, DropsSame;
    RstReplyTouches(e, seg, seg.ackNo, 0, false);
    DropsAlike(e);
    DropOf(e, SignalError(e, ConnectionRefused));
    if seg.flags.syn && !seg.flags.rst && !(seg.flags.ack && (SeqLeq(seg.ackNo, e.snd.iss) || SeqGt(seg.ackNo, e.snd.nxt))) {
      EstablishedStays(e, seg);
    }
  }

  /** Taking the peer's SYN never drops the connection, whatever data and FIN come with it. */
  lemma EstablishedStays(e: Engine, seg: Segment)
    requires Inv(e, None) && e.state == SYN_SENT && seg.window < 0x1_0000 && seg.flags.syn && !seg.flags.rst
    requires seg.flags.ack ==> !SeqLeq(seg.ackNo, e.snd.iss) && !SeqGt(seg.ackNo, e.snd.nxt)
    ensures HandleSynSent(e, seg).state != CLOSED
  {
    hide TakeSyn, SendPending, SendAck, SetState, HandleSynchronized, SimultaneousOpen, SeqLeq, SeqGt, Tiles, Wrap;
    hide PacketOk, Trail, Settled, EmitRstReply, EnterClosed, KarnOk, Tally, AllAck;
    TakeSynOk(e, seg, None);
    var f := TakeSyn(e, seg);
    if seg.flags.ack {
      SynSentEstablishes(f, None);
      var g := SendPending(SendAck(SetState(f, ESTABLISHED)));
      StateTouches(f, ESTABLISHED);
      AckTouches(SetState(f, ESTABLISHED));
      SendOnlySends(SendAck(SetState(f, ESTABLISHED)));
      NeverDropped(g, seg.(flags := seg.flags.(syn := false), seqNo := Add(seg.seqNo, 1)));
    } else {
      SimultaneousOpenOk(f, seg, None);
    }
  }

  lemma NeverDropped(g: Engine, seg: Segment)
    requires Inv(g, None) && (g.state == ESTABLISHED || g.state == FIN_WAIT_1) && !seg.flags.rst && seg.window < 0x1_0000
    ensures HandleSynchronized(g, seg).state != CLOSED
  {
    hide Inv, Running, TextAndFin, EmitRstReply, SendAck, AckAndWindow, AfterAck, EnterClosed, SeqGt, Acceptable, RcvWnd;
    AckTouches(g);
    if seg.flags.ack && !SeqGt(seg.ackNo, g.snd.nxt) {
      AckAndWindowOk(g, seg, None);
      if AfterAck(AckAndWindow(g, seg), seg).state == CLOSED { AfterAckDrops(g, AckAndWindow(g, seg), seg); }
    }
  }

  lemma ArrivalDrops(a: Engine, seg: Segment)
    requires Inv(a, None) && a.state != CLOSED && seg.window < 0x1_0000 && OnSegment(a, seg).state == CLOSED
    ensures DropsSame(a, OnSegment(a, seg))
  {
    hide Inv, RestartKeepalive, HandleListen, HandleSynSent, HandleSynchronized, DropsSame;
    var f := if a.state == ESTABLISHED then RestartKeepalive(a, true) else a;
    if a.state == ESTABLISHED { RestartKeepaliveOk(a, None); }
    if a.state == LISTEN {
      ListenStays(a, seg);
    } else if a.state == SYN_SENT {
      SynSentDrops(a, seg);
    } else {
      SegmentDrops(f, seg);
      if a.state == ESTABLISHED { DropsFrom(a, f, HandleSynchronized(f, seg)); }
    }
  }

  lemma DropsFrom(a: Engine, f: Engine, g: Engine)
    requires DropsSame(f, g) && f == a.(tm := a.tm.(ka := f.tm.ka, kaProbes := f.tm.kaProbes))
    ensures DropsSame(a, g)
  {
    hide EnterClosed;
    var x: Engine :| SameWork(f, x) && g == EnterClosed(x);
    assert SameWork(a, x);
  }

  lemma ListenStays(e: Engine, seg: Segment)
    requires e.state == LISTEN
    ensures HandleListen(e, seg).state != CLOSED
  {
    hide QueueAndSend, SetState, AnswerSyn, EmitRstReply;
    RstReplyTouches(e, seg, seg.ackNo, 0, false);
    var f := e.(remotePort := if e.remotePort == 0 then seg.srcPort else e.remotePort);
    StateTouches(AnswerSyn(f, seg), SYN_RECEIVED);
    QueueOnlySends(SetState(AnswerSyn(f, seg), SYN_RECEIVED), SYN_ACK, [], true);
  }

  lemma CallDrops(a: Engine, ev: Event)
    requires a.state != CLOSED && !ev.Arrives? && React(a, ev).state == CLOSED
    ensures DropsSame(a, React(a, ev))
  {
    hide EnterClosed, SendPending, SendAck, Emit, EngineSpec.Open, SetState, DropsSame, Retransmit, SendFin, SendChunk, RestartKeepalive;
    DropsAlike(a);
    SendOnlySends(a);
    match ev
    case OpenCalled(act, r, l, t) => OpenStays(a, act, r, l, t);
    case SendCalled(d, t) => SendStays(a, d, t);
    case ReceiveCalled(n) =>
      var m := Min(n, |a.rcv.buf|);
      AckTouches(a.(rcv := a.rcv.(buf := a.rcv.buf[m..], zeroWin := false)));
    case CloseCalled =>
      DropOf(a, a);
      SendOnlySends(a.(snd := a.snd.(finPending := true)));
    case AbortCalled => DropOf(a, SendRst(a)) by { RstAlike(a, a); }
    case RtoFires => RtoDrops(a);
    case PersistFires => PersistStays(a);
    case TimeWaitFires => DropOf(a, a.(tm := a.tm.(tw := None)));
    case DelackFires => AckTouches(a.(tm := a.tm.(ack := None)));
    case KeepaliveFires => KeepaliveDrops(a);
  }

  lemma RstAlike(a: Engine, x: Engine)
    requires SameWork(a, x)
    ensures SameWork(a, SendRst(x)) && forall why :: SameWork(a, SignalError(SendRst(x), why))
  {
    hide RcvWnd, AdvertisedRight, PosOf, Reach;
  }

  lemma OpenStays(a: Engine, act: bool, r: Option<u16>, l: Option<u16>, t: Option<real>)
    requires a.state != CLOSED
    ensures OpenCall(a, act, r, l, t).0.state != CLOSED
  {
    hide EngineSpec.Open, SetState;
    var f := a.(remotePort := if r.Some? then r.value else a.remotePort,
                localPort := if l.Some? then l.value else a.localPort,
                tm := a.tm.(userTimeout := if t.Some? then t else a.tm.userTimeout));
    OpenState(f);
  }

  lemma SendStays(a: Engine, d: seq<byte>, t: Option<real>)
    requires a.state != CLOSED
    ensures Send(a, d, t).0.state != CLOSED
  {
    hide EngineSpec.Open, SendPending;
    var f := Buffer(a.(tm := a.tm.(userTimeout := if t.Some? then t else a.tm.userTimeout)), d);
    OpenState(f);
    SendOnlySends(f);
  }

  lemma RtoDrops(a: Engine)
    requires a.state != CLOSED && OnRto(a).state == CLOSED
    ensures DropsSame(a, OnRto(a))
  {
    hide EnterClosed, DropsSame, UserTimedOut, Retransmit, SendRst;
    var f := a.(tm := a.tm.(rt := None));
    var g := f.(tm := f.tm.(rtoCount := f.tm.rtoCount + 1));
    RstAlike(a, f);
    RstAlike(a, g);
    DropOf(a, SignalError(SendRst(f), UserTimeout));
    DropOf(a, SignalError(SendRst(g), RetransmissionTimeout));
    if g.snd.retx != [] { RetransmitStays(g); }
  }

  lemma RetransmitStays(e: Engine)
    requires e.snd.retx != []
    ensures Retransmit(e).state == e.state
  {
    hide RcvWnd, AdvertisedRight, PosOf, Reach;
  }

  lemma PersistStays(a: Engine)
    requires a.state != CLOSED
    ensures OnPersist(a).state != CLOSED
  {
    hide SendPending, QueueAndSend, SendFin;
    var f := a.(tm := a.tm.(persist := None));
    SendOnlySends(f);
    FinOnlySends(f);
    if f.snd.appBuf != [] { QueueOnlySends(f.(snd := f.snd.(appBuf := f.snd.appBuf[1..])), ACK, f.snd.appBuf[..1], false); }
  }

  lemma KeepaliveDrops(a: Engine)
    requires a.state != CLOSED && OnKeepalive(a).state == CLOSED
    ensures DropsSame(a, OnKeepalive(a))
  {
    hide EnterClosed, DropsSame, SendRst, RcvWnd, AdvertisedRight, PosOf, Reach;
    var f := a.(tm := a.tm.(ka := None));
    RstAlike(a, f);
    DropOf(a, SignalError(SendRst(f), KeepaliveTimeout));
  }

  /** Whatever drops a connection (a call, a reset, a timeout, the last acknowledgement), no timer survives it but
      one: the persist timer runs on in CLOSED exactly if the window was shut and something was left to send. */
  lemma TimersAfterClosing(e: Engine, now: real, ev: Event)
    requires Reached(e) && e.state != CLOSED && Allowed(e, ev) && Step(e, now, ev).state == CLOSED
    ensures OnlyPersistLeft(e, Step(e, now, ev))
  {
    hide Reached, React, Inv, DropsSame, OnlyPersistLeft, SameWork, EnterClosed;
    ReachedInv(e);
    IsSettled(e);
    var a := At(e, now);
    ClockOk(e, now, None);
    if ev.Arrives? {
      ArrivalIs(e, now, ev.seg);
      ArrivalDrops(a, ev.seg);
    } else {
      CallDrops(a, ev);
    }
    DroppedTimers(e, a, Step(e, now, ev));
  }

  lemma DroppedTimers(e: Engine, a: Engine, f: Engine)
    requires Settled(e) && a == e.(tm := e.tm.(now := a.tm.now)) && DropsSame(a, f)
    ensures OnlyPersistLeft(e, f)
  {
    hide EnterClosed, OnlyPersistLeft;
    var x: Engine :| SameWork(a, x) && f == EnterClosed(x);
    assert SameWork(e, x);
    SameWorkTimers(e, x);
  }

  lemma IsSettled(e: Engine)
    requires Reached(e)
    ensures Settled(e)
  {
    hide Reached, Settled, SendOk, WireOk, Coupled, Trail;
    ReachedInv(e);
  }

  // ---------------------------------------------------------------------------------------------
  // The end of the stream, twice
  // ---------------------------------------------------------------------------------------------

  /** The segment brings a FIN that is in sequence, or what was noted earlier is. */
  predicate FinDue(e: Engine, seg: Segment) {
    var finSeq := Add(seg.seqNo, |seg.payload|);
    || (seg.flags.fin && finSeq == e.rcv.nxt)
    || (!(seg.flags.fin && SeqGt(finSeq, e.rcv.nxt)) && e.rcv.pendingFin == Some(e.rcv.nxt))
  }

  /** The segment passes every check up to the eighth. */
  predicate PassesChecks(e: Engine, seg: Segment) {
    && ForUs(e, seg) && Acceptable(seg.seqNo, seg.SegLen(), e.rcv.nxt, RcvWnd(e))
    && !seg.flags.rst && !seg.flags.syn && seg.flags.ack && !SeqGt(seg.ackNo, e.snd.nxt)
  }

  lemma FinCounted(e: Engine, seg: Segment)
    ensures CheckPendingFin(NoteFin(e, seg)).hist.fins == e.hist.fins + Bit(FinDue(e, seg))
  {
    hide ProcessFin, SeqGt;
    FinConsumed(e);
    FinConsumed(NoteFin(e, seg));
  }

  lemma FinDueSame(e: Engine, f: Engine, seg: Segment)
    requires f.rcv == e.rcv.(zeroWin := f.rcv.zeroWin, advRight := f.rcv.advRight)
    ensures FinDue(f, seg) == FinDue(e, seg)
  {
  }

  lemma AckStepState(e: Engine, seg: Segment)
    ensures AckAndWindow(e, seg).state == e.state || AckAndWindow(e, seg).state == FinState(e.state)
  {
    hide ProcessAck, CancelPersist, SeqGt, SeqLt, SeqLeq;
    AckProcessedTouches(e, seg.ackNo);
    var g := if SeqGt(seg.ackNo, e.snd.una) then ProcessAck(e, seg.ackNo) else e;
    SendOnlySends(g.(snd := g.snd.(wnd := seg.window, wl1 := seg.seqNo, wl2 := seg.ackNo)));
  }

  lemma TextCountsFin(g: Engine, seg: Segment)
    requires g.state == CLOSE_WAIT || g.state == LAST_ACK
    ensures TextAndFin(g, seg).hist.fins == g.hist.fins + Bit(FinDue(g, seg))
  {
    hide SendPending, NoteFin, CheckPendingFin, FinDue;
    SendOnlySends(g);
    FinDueSame(g, SendPending(g), seg);
    FinCounted(SendPending(g), seg);
  }

  lemma AckCountsFin(e: Engine, seg: Segment)
    requires Inv(e, None) && e.state == CLOSE_WAIT && seg.flags.ack && !seg.flags.rst && seg.window < 0x1_0000
    requires !SeqGt(seg.ackNo, e.snd.nxt)
    ensures HandleAck(e, seg).hist.fins == e.hist.fins + Bit(FinDue(e, seg))
  {
    hide Inv, Running, TextAndFin, AckAndWindow, EnterClosed, EnterTimeWait, SetState, SeqGt, FinDue;
    AckAndWindowOk(e, seg, None);
    AckStepState(e, seg);
    var g := AckAndWindow(e, seg);
    FinDueSame(e, g, seg);
    TextCountsFin(g, seg);
  }

  /** Without an honest peer a FIN is not consumed only once: in CLOSE-WAIT a segment that passes the checks
      brings the end of the stream again exactly if its FIN, or one noted earlier, stands at RCV.NXT. */
  lemma SecondFinConsumed(e: Engine, now: real, seg: Segment)
    requires Reached(e) && e.state == CLOSE_WAIT && Allowed(e, Arrives(seg))
    ensures Step(e, now, Arrives(seg)).hist.fins == e.hist.fins + Bit(PassesChecks(e, seg) && FinDue(e, seg))
  {
    hide Reached, Inv, HandleAck, SendAck, DoReset, Acceptable, RcvWnd, FinDue, SeqGt, React;
    ReachedInv(e);
    ClockOk(e, now, None);
    var a := At(e, now);
    ArrivalIs(e, now, seg);
    assert FinDue(a, seg) == FinDue(e, seg) && RcvWnd(a) == RcvWnd(e) by { ClockIgnored(e, now, seg); }
    AckTouches(a);
    DoResetOk(a, None);
    if seg.flags.ack && !seg.flags.rst {
      if SeqGt(seg.ackNo, a.snd.nxt) {
        BeyondNxt(a, seg);
      } else {
        AckCountsFin(a, seg);
      }
    }
  }

  lemma BeyondNxt(a: Engine, seg: Segment)
    requires a.state == CLOSE_WAIT && SeqGt(seg.ackNo, a.snd.nxt)
    ensures HandleAck(a, seg) == SendAck(a)
  {
    hide SendAck;
  }

  lemma ClockIgnored(e: Engine, now: real, seg: Segment)
    ensures FinDue(At(e, now), seg) == FinDue(e, seg) && RcvWnd(At(e, now)) == RcvWnd(e)
  {
  }

  // ---------------------------------------------------------------------------------------------
  // Data on a SYN
  // ---------------------------------------------------------------------------------------------

  /** The acknowledgement of our SYN, and nothing else. */
  predicate SynAcknowledged(e: Engine, syn: Segment, seg: Segment) {
    && ForUs(e, seg) && seg.flags == ACK && seg.payload == [] && seg.seqNo == Add(syn.seqNo, 1) && seg.ackNo == e.snd.nxt
    && seg.window < 0x1_0000
  }

  /** What a crossing SYN leaves: its data stored, whatever the window. */
  ghost predicate Crossed(e: Engine, f: Engine, syn: Segment) {
    && f.state == SYN_RECEIVED && f.cfg == e.cfg && f.localPort == e.localPort && f.snd.nxt == e.snd.nxt
    && f.rcv.nxt == Add(syn.seqNo, 1) && f.rcv.buf == []
    && f.rcv.ooo == if syn.payload == [] then [] else [Block(f.rcv.nxt, syn.payload, RecvPos(f.hist))]
  }

  lemma SynStored(e: Engine, syn: Segment)
    requires Unreceived(e) && e.rcv.nxt == Add(syn.seqNo, 1)
    ensures var f := HoldSynData(e, syn);
            && f == e.(rcv := e.rcv.(ooo := f.rcv.ooo, pendingFin := f.rcv.pendingFin))
            && f.rcv.ooo == if syn.payload == [] then [] else [Block(e.rcv.nxt, syn.payload, RecvPos(e.hist))]
  {
  }

  lemma SynCrosses(e: Engine, now: real, syn: Segment)
    requires Reached(e) && CrossingSyn(e, syn) && Allowed(e, Arrives(syn))
    ensures Crossed(e, Step(e, now, Arrives(syn)), syn)
  {
    hide Reached, Inv, TakeSyn, HoldSynData, SetState, Emit, React, SeqGt, SeqLeq;
    ReachedInv(e);
    ClockOk(e, now, None);
    var a := At(e, now);
    ArrivalIs(e, now, syn);
    NothingYet(a);
    var t := TakeSyn(a, syn);
    TakeSynOk(a, syn, None);
    StateTouches(t, SYN_RECEIVED);
    var g := SynBecomesSynAck(SetState(t, SYN_RECEIVED));
    SynStored(g, syn);
    EmitTouches(HoldSynData(g, syn), g.snd.iss, SYN_ACK, [], true);
    NumbersKept(a, syn);
  }

  lemma NumbersKept(e: Engine, syn: Segment)
    requires !syn.flags.ack
    ensures TakeSyn(e, syn).snd.nxt == e.snd.nxt && TakeSyn(e, syn).localPort == e.localPort
  {
  }

  lemma NothingYet(e: Engine)
    requires Inv(e, None) && e.state == SYN_SENT
    ensures Unreceived(e)
  {
    hide WireOk, Trail, Settled, SendOk;
  }

  /** Merging hands the stored data over whole. */
  lemma MergeHandsOver(e: Engine, data: seq<byte>)
    requires !e.cfg.streaming && e.rcv.buf == [] && |data| < HALF
    requires e.rcv.ooo == if data == [] then [] else [Block(e.rcv.nxt, data, RecvPos(e.hist))]
    ensures Merge(e).rcv.buf == data && Merge(e).state == e.state
  {
    if data != [] {
      var b := e.rcv.ooo[0];
      WrapOfU32(e.rcv.nxt);
      SerialOrder(e.rcv.nxt, |data|, 0);
      SerialOrder(e.rcv.nxt, 0, 0);
      AddWraps(e.rcv.nxt, 0, |data|);
      assert Mergeable(b, e.rcv.nxt);
      assert data[0..] == data;
      var f := MergeStep(e, 0);
      assert f.rcv.ooo == [] && f.rcv.buf == [] + data;
      assert Merge(f) == f;
    }
  }

  lemma EstablishHandsOver(e: Engine, seg: Segment, data: seq<byte>)
    requires e.state == SYN_RECEIVED && !e.cfg.streaming && e.rcv.buf == [] && |data| < HALF && seg.payload == []
    requires e.rcv.ooo == if data == [] then [] else [Block(e.rcv.nxt, data, RecvPos(e.hist))]
    ensures TextAndFin(Establish(e, seg), seg).rcv.buf == data
  {
    hide ProcessAck, SetState, Merge, SendPending, ProcessFin, SeqGt;
    AckProcessedTouches(e, seg.ackNo);
    var f := ProcessAck(e, seg.ackNo);
    var g := f.(snd := f.snd.(wnd := seg.window, wl1 := seg.seqNo, wl2 := seg.ackNo));
    StateTouches(g, ESTABLISHED);
    var k := SetState(g, ESTABLISHED);
    MergeHandsOver(k, data);
    SendOnlySends(Merge(k));
    var m := Establish(e, seg);
    SendOnlySends(m);
    FinConsumed(SendPending(m));
    FinConsumed(NoteFin(SendPending(m), seg));
  }

  lemma AckEstablishes(e: Engine, now: real, seg: Segment, data: seq<byte>)
    requires Inv(e, None) && e.state == SYN_RECEIVED && !e.cfg.streaming && e.rcv.buf == [] && |data| < HALF
    requires e.rcv.ooo == if data == [] then [] else [Block(e.rcv.nxt, data, RecvPos(e.hist))]
    requires ForUs(e, seg) && seg.flags == ACK && seg.payload == [] && seg.seqNo == e.rcv.nxt && seg.ackNo == e.snd.nxt
    requires e.cfg.rcvWnd < 0x1_0000
    ensures Step(e, now, Arrives(seg)).rcv.buf == data
  {
    hide Inv, Establish, TextAndFin, RcvWnd, React, Acceptable, SeqLt, SeqLeq, EmitRstReply;
    ClockOk(e, now, None);
    var a := At(e, now);
    ArrivalIs(e, now, seg);
    AtNxtAcceptable(a);
    NxtAcksSyn(a);
    EstablishHandsOver(a, seg, data);
    assert OnSegment(a, seg) == HandleSynchronized(a, seg) == HandleAck(a, seg);
  }

  lemma AtNxtAcceptable(e: Engine)
    requires e.cfg.rcvWnd < 0x1_0000
    ensures Acceptable(e.rcv.nxt, 0, e.rcv.nxt, RcvWnd(e))
  {
    hide RcvWnd;
    RcvWndWithinBuffer(e);
    WrapOfU32(e.rcv.nxt);
    InWindowUnwrapped(e.rcv.nxt, 0, 0, RcvWnd(e));
  }

  lemma NxtAcksSyn(e: Engine)
    requires Inv(e, None) && e.state == SYN_RECEIVED
    ensures SeqLt(e.snd.una, e.snd.nxt) && SeqLeq(e.snd.nxt, e.snd.nxt)
  {
    hide WireOk, Trail, Settled, Tiles, KarnOk, Tally, AllAck, Wrap, S32;
    SerialOrder(e.snd.iss, 0, 1);
    SerialOrder(e.snd.iss, 1, 1);
  }

  /** Data on a SYN that crosses ours escapes the window: once our SYN is acknowledged all of it is in the receive
      buffer. So the buffer stays within its size exactly if the data did. */
  lemma SynDataFillsBuffer(e: Engine, t1: real, syn: Segment, t2: real, ack: Segment)
    requires Reached(e) && CrossingSyn(e, syn) && Allowed(e, Arrives(syn)) && SynAcknowledged(e, syn, ack)
    requires !e.cfg.streaming && e.cfg.rcvWnd < 0x1_0000 && |syn.payload| < HALF
    ensures var f := Step(Step(e, t1, Arrives(syn)), t2, Arrives(ack));
            f.rcv.buf == syn.payload && (|f.rcv.buf| <= f.cfg.rcvWnd <==> |syn.payload| <= e.cfg.rcvWnd)
  {
    hide Reached, Step, Inv, Allowed;
    SynCrosses(e, t1, syn);
    ReachedInv(e);
    StepOk(e, t1, Arrives(syn), None);
    var m := Step(e, t1, Arrives(syn));
    AckEstablishes(m, t2, ack, syn.payload);
    CfgKept(m, t2, ack);
  }

  lemma CfgKept(e: Engine, now: real, seg: Segment)
    requires Inv(e, None) && seg.window < 0x1_0000
    ensures Step(e, now, Arrives(seg)).cfg == e.cfg
  {
    hide Inv, Step;
    StepOk(e, now, Arrives(seg), None);
  }
}
