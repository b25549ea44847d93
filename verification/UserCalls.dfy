/** What the application hands over and what it gets, read of its calls: the bytes of its SENDs are what the engine
    accepted, and the bytes its RECEIVEs returned are the front of what was delivered, in order. */
module UserCalls {
  import opened SeqNum
  import opened EngineState
  import opened EngineSpec
  import opened EngineFacts
  import opened SendInvariant
  import opened SendPath
  import opened EngineInvariant
  import opened SegmentArrives
  import opened Opening
  import opened EngineRuns
  import opened HonestPeer
  import opened TwoEngines
  import opened GiveUpBound
  import opened RunTheorems
  import opened WireLog
  import Q = EdgeStride

  // ---------------------------------------------------------------------------------------------
  // What each part of the engine hands over
  // ---------------------------------------------------------------------------------------------

  /** The receive buffer once everything up to `delivered` has gone into it, or past it to the sink. */
  function Filled(e: Engine, delivered: seq<byte>): seq<byte>
    requires |e.hist.delivered| <= |delivered|
  {
    if e.cfg.streaming then e.rcv.buf else e.rcv.buf + delivered[|e.hist.delivered|..]
  }

  /** From `e` to `f` nothing was accepted, what was delivered went to the end of the buffer, no error was reported, and a CLOSE
      asked for was not forgotten. */
  predicate Hands(e: Engine, f: Engine) {
    && f.cfg == e.cfg && f.hist.accepted == e.hist.accepted && e.hist.delivered <= f.hist.delivered
    && f.rcv.buf == Filled(e, f.hist.delivered) && Errors(f.signals) == Errors(e.signals)
    && (e.snd.finPending ==> f.snd.finPending)
  }

  /** From `e` to `f` the connection was dropped, with `why` reported; or the listener is back, and what was accepted for it
      is dropped too. */
  predicate Closes(e: Engine, f: Engine, why: seq<Signal>) {
    && Errors(f.signals) == Errors(e.signals) + why && f.cfg == e.cfg && f.hist.delivered == e.hist.delivered && f.rcv.buf == []
    && (if f.state == LISTEN then f.hist.accepted == [] && Linked(e.state) && why == [] else f.state == CLOSED && f.hist.accepted == e.hist.accepted)
  }

  predicate HandsOrCloses(e: Engine, f: Engine, why: seq<Signal>) {
    Closes(e, f, why) || (Hands(e, f) && (Linked(f.state) || f.state == e.state))
  }

  /** A connection, or an attempt at one. */
  predicate Linked(s: ConnState) { s != LISTEN && s != CLOSED }

  lemma HandsOn(e: Engine, m: Engine, f: Engine)
    requires Hands(e, m) && Hands(m, f)
    ensures Hands(e, f)
  {
    var a, b, c := e.hist.delivered, m.hist.delivered, f.hist.delivered;
    assert c[|a|..] == b[|a|..] + c[|b|..];
  }

  lemma HandsNothing(e: Engine, f: Engine)
    requires f.cfg == e.cfg && f.hist.accepted == e.hist.accepted && f.hist.delivered == e.hist.delivered && f.rcv.buf == e.rcv.buf
    requires Errors(f.signals) == Errors(e.signals) && (e.snd.finPending ==> f.snd.finPending)
    ensures Hands(e, f)
  {
    assert f.hist.delivered[|e.hist.delivered|..] == [];
  }

  lemma SendHands(e: Engine)
    ensures Hands(e, SendPending(e)) && Hands(e, CancelPersist(e))
    ensures Linked(e.state) ==> Linked(SendPending(e).state) && Linked(CancelPersist(e).state)
    ensures !Linked(e.state) ==> SendPending(e).state == CancelPersist(e).state == e.state
  {
    hide SendPending, CancelPersist;
    SendOnlySends(e);
    HandsNothing(e, SendPending(e));
    HandsNothing(e, CancelPersist(e));
  }

  lemma AnswerHands(e: Engine, force: bool)
    ensures Hands(e, SendAck(e)) && SendAck(e).state == e.state
    ensures Hands(e, ScheduleAck(e, force)) && ScheduleAck(e, force).state == e.state
  {
    hide SendAck;
    AckTouches(e);
    var f := e.(tm := e.tm.(ackCount := e.tm.ackCount + 1));
    AckTouches(f);
    HandsNothing(e, SendAck(e));
    HandsNothing(e, ScheduleAck(e, force));
  }

  lemma DeliverHands(e: Engine, data: seq<byte>)
    ensures Hands(e, Deliver(e, data)) && Deliver(e, data).state == e.state
  {
    assert (e.hist.delivered + data)[|e.hist.delivered|..] == data;
  }

  lemma {:induction false} MergeHands(e: Engine)
    ensures Hands(e, Merge(e)) && Merge(e).state == e.state
    decreases |e.rcv.ooo|
  {
    hide Mergeable, Deliver, Hands;
    var i := FirstMergeable(e.rcv.ooo, e.rcv.nxt);
    if i == |e.rcv.ooo| {
      HandsNothing(e, e);
    } else {
      MergeStepHands(e, i);
      MergeShrinks(e, i);
      MergeHands(MergeStep(e, i));
      HandsOn(e, MergeStep(e, i), Merge(e));
    }
  }

  lemma MergeStepHands(e: Engine, i: nat)
    requires i < |e.rcv.ooo|
    ensures Hands(e, MergeStep(e, i)) && MergeStep(e, i).state == e.state
  {
    hide Deliver, SeqLeq;
    var b := e.rcv.ooo[i];
    var off := Sub(e.rcv.nxt, b.seqNo);
    var data := b.data[Min(off, |b.data|)..];
    DeliverHands(e, data);
    HandsNothing(e, e);
    var f := if SeqLeq(b.End(), e.rcv.nxt) then e else Deliver(e, data);
    HandsNothing(f, MergeStep(e, i));
    HandsOn(e, f, MergeStep(e, i));
  }

  lemma PlaceHands(e: Engine, sn: u32, data: seq<byte>)
    ensures Hands(e, Place(e, sn, data)) && Place(e, sn, data).state == e.state
  {
    hide ScheduleAck, Merge, Deliver, Hands;
    var d := Deliver(e, data);
    DeliverHands(e, data);
    MergeHands(d);
    HandsOn(e, d, Merge(d));
    AnswerHands(Merge(d), false);
    HandsOn(e, Merge(d), ScheduleAck(Merge(d), false));
    var f := StoreOoo(e, sn, data);
    HandsNothing(e, f);
    AnswerHands(f, true);
    HandsOn(e, f, ScheduleAck(f, true));
  }

  lemma DataHands(e: Engine, seg: Segment)
    ensures Hands(e, RecvData(e, seg)) && RecvData(e, seg).state == e.state
  {
    hide ScheduleAck, Place, RcvWnd, S32, Sub, Add, Hands;
    HandsNothing(e, e);
    AnswerHands(e, true);
    if seg.payload != [] {
      var stale := SeqLt(seg.seqNo, e.rcv.nxt);
      var off := if stale then Sub(e.rcv.nxt, seg.seqNo) else 0;
      if off < |seg.payload| {
        var data := seg.payload[off..];
        var sn := if stale then e.rcv.nxt else seg.seqNo;
        var space := S32(Sub(Add(e.rcv.nxt, RcvWnd(e)), sn));
        if space > 0 { PlaceHands(e, sn, data[..Min(space, |data|)]); }
      }
    }
  }

  lemma TimeWaitHands(e: Engine)
    ensures Hands(e, EnterTimeWait(e)) && EnterTimeWait(e).state == TIME_WAIT
  {
    hide CancelPersist, SetState, Hands;
    var s := StopRt(e);
    HandsNothing(e, s);
    SendHands(s);
    HandsOn(e, s, CancelPersist(s));
    StateTouches(CancelPersist(s), TIME_WAIT);
    HandsNothing(CancelPersist(s), EnterTimeWait(e));
    HandsOn(e, CancelPersist(s), EnterTimeWait(e));
  }

  lemma FinHands(e: Engine)
    requires Linked(e.state)
    ensures Hands(e, ProcessFin(e)) && Linked(ProcessFin(e).state)
  {
    hide SendAck, SetState, EnterTimeWait, Hands;
    var g := TakeFin(e);
    HandsNothing(e, g);
    AnswerHands(g, true);
    HandsOn(e, g, SendAck(g));
    var f := SendAck(g);
    AckTouches(g);
    HandsNothing(f, f);
    StateTouches(f, CLOSE_WAIT);
    StateTouches(f, CLOSING);
    HandsNothing(f, SetState(f, CLOSE_WAIT));
    HandsNothing(f, SetState(f, CLOSING));
    TimeWaitHands(f);
    HandsOn(e, f, ProcessFin(e));
  }

  lemma TextHands(e: Engine, seg: Segment)
    requires Linked(e.state)
    ensures Hands(e, TextAndFin(e, seg)) && Linked(TextAndFin(e, seg).state)
  {
    hide RecvData, SendPending, ProcessFin, Hands;
    HandsNothing(e, e);
    DataHands(e, seg);
    var takes := e.state == ESTABLISHED || e.state == FIN_WAIT_1 || e.state == FIN_WAIT_2;
    var g := if takes then RecvData(e, seg) else e;
    SendHands(g);
    var h := SendPending(g);
    HandsOn(e, g, h);
    FinHands(h);
    var n := NoteFin(h, seg);
    if n != ProcessFin(h) { HandsNothing(h, n); }
    HandsOn(e, h, n);
    FinHands(n);
    if n.rcv.pendingFin == Some(n.rcv.nxt) { HandsOn(e, n, ProcessFin(n)); }
  }

  lemma DropCloses(e: Engine)
    ensures Closes(e, EnterClosed(e), []) && EnterClosed(e).state == CLOSED
  {
    hide CancelPersist, SetState, Hands;
    SendHands(StopRt(e));
    SendSame(StopRt(e));
    var f := CancelKeepalive(CancelPersist(StopRt(e)));
    StateTouches(ResetBuffers(f.(tm := f.tm.(tw := None, ack := None))), CLOSED);
  }

  lemma SendSame(e: Engine)
    ensures var f := CancelPersist(e);
            && f.cfg == e.cfg && f.hist.delivered == e.hist.delivered && f.hist.accepted == e.hist.accepted
            && Errors(f.signals) == Errors(e.signals)
  {
    hide CancelPersist;
    SendOnlySends(e);
  }

  lemma ResetDrops(e: Engine)
    requires Linked(e.state) && e.state != TIME_WAIT && e.state != SYN_SENT
    ensures Closes(e, DoReset(e), Reported(e))
  {
    hide CancelPersist, SetState, EnterClosed;
    StateTouches(e, LISTEN);
    SendSame(StopRt(ResetBuffers(SetState(e, LISTEN))));
    SendOnlySends(StopRt(ResetBuffers(SetState(e, LISTEN))));
    DropCloses(SignalError(e, ConnectionRefused));
    DropCloses(SignalError(e, ConnectionReset));
    ErrorsPush(e.signals, Error(ConnectionRefused));
    ErrorsPush(e.signals, Error(ConnectionReset));
  }

  /** What a reset is reported as. */
  function Reported(e: Engine): seq<Signal> {
    if e.state == TIME_WAIT || (e.state == SYN_RECEIVED && e.passive) then []
    else if e.state == SYN_SENT || e.state == SYN_RECEIVED then [Error(ConnectionRefused)]
    else [Error(ConnectionReset)]
  }

  lemma GiveUpDrops(e: Engine, why: ErrorSignal)
    ensures Closes(e, GiveUp(e, why), [Error(why)]) && Closes(e, EnterClosed(SendRst(e)), [])
  {
    hide EnterClosed, RcvWnd, AdvertisedRight, PosOf, Reach;
    DropCloses(SignalError(SendRst(e), why));
    ErrorsPush(e.signals, Error(why));
    DropCloses(SendRst(e));
  }

  // ---------------------------------------------------------------------------------------------
  // Segments
  // ---------------------------------------------------------------------------------------------

  lemma AckHands(e: Engine, ack: u32)
    ensures Hands(e, ProcessAck(e, ack)) && ProcessAck(e, ack).state == e.state
  {
    hide ProcessAck;
    AckProcessedTouches(e, ack);
    HandsNothing(e, ProcessAck(e, ack));
  }

  lemma AckStepHands(e: Engine, seg: Segment)
    requires Linked(e.state)
    ensures Hands(e, AckAndWindow(e, seg)) && Linked(AckAndWindow(e, seg).state)
  {
    hide ProcessAck, CancelPersist, SeqGt, SeqLt, SeqLeq, Hands;
    HandsNothing(e, e);
    AckHands(e, seg.ackNo);
    var g := if SeqGt(seg.ackNo, e.snd.una) then ProcessAck(e, seg.ackNo) else e;
    var h := g.(snd := g.snd.(wnd := seg.window, wl1 := seg.seqNo, wl2 := seg.ackNo));
    HandsNothing(g, h);
    SendHands(h);
    HandsOn(e, g, h);
    HandsOn(e, h, CancelPersist(h));
  }

  lemma EstablishHands(e: Engine, seg: Segment)
    ensures Hands(e, Establish(e, seg)) && Linked(Establish(e, seg).state)
  {
    hide ProcessAck, SetState, Merge, SendPending, Hands;
    AckHands(e, seg.ackNo);
    var f := ProcessAck(e, seg.ackNo);
    var g := f.(snd := f.snd.(wnd := seg.window, wl1 := seg.seqNo, wl2 := seg.ackNo));
    HandsNothing(f, g);
    HandsOn(e, f, g);
    StateTouches(g, ESTABLISHED);
    var k := SetState(g, ESTABLISHED);
    HandsNothing(g, k);
    HandsOn(e, g, k);
    MergeHands(k);
    HandsOn(e, k, Merge(k));
    SendHands(Merge(k));
    HandsOn(e, Merge(k), Establish(e, seg));
  }

  lemma AfterAckHands(e: Engine, seg: Segment)
    requires Linked(e.state)
    ensures HandsOrCloses(e, AfterAck(e, seg), [])
  {
    hide TextAndFin, EnterTimeWait, EnterClosed, SetState, Hands, Closes;
    StateTouches(e, FIN_WAIT_2);
    var m := SetState(e, FIN_WAIT_2);
    HandsNothing(e, m);
    TextHands(m, seg);
    HandsOn(e, m, TextAndFin(m, seg));
    TextHands(e, seg);
    TimeWaitHands(e);
    DropCloses(e);
  }

  lemma HandsThenCloses(e: Engine, m: Engine, f: Engine, why: seq<Signal>)
    requires Hands(e, m) && m.hist.delivered == e.hist.delivered && HandsOrCloses(m, f, why) && Linked(e.state) && Linked(m.state)
    ensures HandsOrCloses(e, f, why)
  {
    if Hands(m, f) { HandsOn(e, m, f); }
  }

  lemma HandleAckHands(e: Engine, seg: Segment)
    requires Linked(e.state)
    ensures HandsOrCloses(e, HandleAck(e, seg), [])
  {
    hide Establish, TextAndFin, EmitRstReply, SendAck, AckAndWindow, AfterAck, SeqLt, SeqLeq, SeqGt, Hands, Closes;
    EstablishHands(e, seg);
    TextHands(Establish(e, seg), seg);
    HandsOn(e, Establish(e, seg), TextAndFin(Establish(e, seg), seg));
    RstReplyTouches(e, seg, seg.ackNo, 0, false);
    HandsNothing(e, EmitRstReply(e, seg, seg.ackNo, 0, false));
    AnswerHands(e, true);
    AckStepHands(e, seg);
    AckStepDelivers(e, seg);
    AfterAckHands(AckAndWindow(e, seg), seg);
    HandsThenCloses(e, AckAndWindow(e, seg), AfterAck(AckAndWindow(e, seg), seg), []);
  }

  lemma AckStepDelivers(e: Engine, seg: Segment)
    ensures AckAndWindow(e, seg).hist.delivered == e.hist.delivered
  {
    hide ProcessAck, CancelPersist, SeqGt, SeqLt, SeqLeq;
    AckProcessedTouches(e, seg.ackNo);
    var g := if SeqGt(seg.ackNo, e.snd.una) then ProcessAck(e, seg.ackNo) else e;
    SendSame(g.(snd := g.snd.(wnd := seg.window, wl1 := seg.seqNo, wl2 := seg.ackNo)));
  }

  lemma SynchronizedHands(e: Engine, seg: Segment)
    requires Linked(e.state) && e.state != SYN_SENT
    ensures HandsOrCloses(e, HandleSynchronized(e, seg), if seg.flags.rst then Reported(e) else [])
  {
    hide SendAck, EnterClosed, DoReset, HandleAck, Acceptable, RcvWnd, Hands, Closes;
    HandsNothing(e, e);
    AnswerHands(e, true);
    var g := SendAck(e);
    HandsNothing(g, RestartTimeWait(g));
    HandsOn(e, g, RestartTimeWait(g));
    DropCloses(e);
    if e.state != TIME_WAIT { ResetDrops(e); }
    HandleAckHands(e, seg);
  }

  lemma TakeSynHands(e: Engine, seg: Segment)
    ensures Hands(e, TakeSyn(e, seg)) && TakeSyn(e, seg).hist.delivered == e.hist.delivered && TakeSyn(e, seg).state == e.state
  {
    hide ProcessAck, PeerMss;
    var f := e.(rcv := e.rcv.(irs := seg.seqNo, nxt := Add(seg.seqNo, 1)), snd := e.snd.(mss := PeerMss(e, seg)));
    AckProcessedTouches(f, seg.ackNo);
    HandsNothing(e, TakeSyn(e, seg));
  }

  lemma SimultaneousHands(e: Engine, seg: Segment)
    ensures Hands(e, SimultaneousOpen(e, seg)) && SimultaneousOpen(e, seg).state == SYN_RECEIVED
  {
    hide SetState, RcvWnd, AdvertisedRight, PosOf, Reach;
    StateTouches(e, SYN_RECEIVED);
    HandsNothing(e, SimultaneousOpen(e, seg));
  }

  lemma SynSentHands(e: Engine, seg: Segment)
    requires e.state == SYN_SENT
    ensures HandsOrCloses(e, HandleSynSent(e, seg), if seg.flags.rst then Reported(e) else [])
  {
    hide EmitRstReply, EnterClosed, TakeSyn, SendPending, SendAck, SetState, HandleSynchronized, SimultaneousOpen;
    hide SeqLeq, SeqGt, Between, Hands, Closes;
    HandsNothing(e, e);
    RstReplyTouches(e, seg, seg.ackNo, 0, false);
    HandsNothing(e, EmitRstReply(e, seg, seg.ackNo, 0, false));
    RefusalCloses(e);
    TakeSynHands(e, seg);
    var f := TakeSyn(e, seg);
    SimultaneousHands(f, seg);
    HandsOn(e, f, SimultaneousOpen(f, seg));
    var g := SendPending(SendAck(SetState(f, ESTABLISHED)));
    OpenedHands(f);
    HandsOn(e, f, g);
    var cont := seg.(flags := seg.flags.(syn := false), seqNo := Add(seg.seqNo, 1));
    SynchronizedHands(g, cont);
    HandsThenCloses(e, g, HandleSynchronized(g, cont), if seg.flags.rst then Reported(g) else []);
  }

  lemma OpenedHands(f: Engine)
    ensures var g := SendPending(SendAck(SetState(f, ESTABLISHED)));
            Hands(f, g) && g.hist.delivered == f.hist.delivered && Linked(g.state) && g.state != SYN_SENT
  {
    hide SendPending, SendAck, SetState, Hands;
    StateTouches(f, ESTABLISHED);
    var m := SetState(f, ESTABLISHED);
    HandsNothing(f, m);
    AnswerHands(m, true);
    AckTouches(m);
    HandsOn(f, m, SendAck(m));
    SendHands(SendAck(m));
    SendOnlySends(SendAck(m));
    HandsOn(f, SendAck(m), SendPending(SendAck(m)));
  }

  lemma RefusalCloses(e: Engine)
    ensures Closes(e, EnterClosed(SignalError(e, ConnectionRefused)), [Error(ConnectionRefused)])
  {
    hide EnterClosed;
    ErrorsPush(e.signals, Error(ConnectionRefused));
    DropCloses(SignalError(e, ConnectionRefused));
  }

  lemma ListenHands(e: Engine, seg: Segment)
    requires e.state == LISTEN
    ensures Hands(e, HandleListen(e, seg))
    ensures HandleListen(e, seg).state == LISTEN || HandleListen(e, seg).state == SYN_RECEIVED
  {
    hide EmitRstReply, SetState, QueueAndSend, AnswerSyn, Hands;
    HandsNothing(e, e);
    RstReplyTouches(e, seg, seg.ackNo, 0, false);
    HandsNothing(e, EmitRstReply(e, seg, seg.ackNo, 0, false));
    var f := e.(remotePort := if e.remotePort == 0 then seg.srcPort else e.remotePort);
    SynTouches(f, seg);
    var g := AnswerSyn(f, seg);
    StateTouches(g, SYN_RECEIVED);
    QueueOnlySends(SetState(g, SYN_RECEIVED), SYN_ACK, [], true);
    HandsNothing(e, QueueAndSend(SetState(g, SYN_RECEIVED), SYN_ACK, [], true));
  }

  lemma SynTouches(e: Engine, seg: Segment)
    ensures var g := AnswerSyn(e, seg);
            && g.cfg == e.cfg && g.hist == e.hist.(unaPos := 0, since := |e.wire|)
            && g.rcv == e.rcv.(irs := seg.seqNo, nxt := Add(seg.seqNo, 1)) && g.state == e.state && g.signals == e.signals
            && g.snd.finPending == e.snd.finPending
  {
  }

  lemma SegmentHands(e: Engine, seg: Segment)
    ensures HandsOrCloses(e, OnSegment(e, seg), if seg.flags.rst then Reported(e) else [])
  {
    hide EmitRstReply, HandleListen, HandleSynSent, HandleSynchronized, Hands, Closes;
    HandsNothing(e, e);
    var f := if e.state == ESTABLISHED then RestartKeepalive(e, true) else e;
    HandsNothing(e, f);
    RstReplyTouches(f, seg, seg.ackNo, 0, false);
    RstReplyTouches(f, seg, 0, Add(seg.seqNo, seg.SegLen()), true);
    HandsNothing(e, EmitRstReply(f, seg, seg.ackNo, 0, false));
    HandsNothing(e, EmitRstReply(f, seg, 0, Add(seg.seqNo, seg.SegLen()), true));
    if e.state == LISTEN {
      ListenHands(f, seg);
    } else if e.state == SYN_SENT {
      SynSentHands(f, seg);
    } else if e.state != CLOSED {
      SynchronizedHands(f, seg);
      HandsThenCloses(e, f, HandleSynchronized(f, seg), if seg.flags.rst then Reported(f) else []);
    }
  }

  // ---------------------------------------------------------------------------------------------
  // Calls and timers
  // ---------------------------------------------------------------------------------------------

  /** The states in which data may be handed over, and before a CLOSE. */
  predicate MayHandOver(e: Engine) {
    && (e.state == LISTEN || e.state == SYN_SENT || e.state == SYN_RECEIVED || e.state == ESTABLISHED || e.state == CLOSE_WAIT)
    && !e.snd.finPending
  }

  /** SEND, in terms of its argument: which refusals there are, that Done counts all of it, and that exactly what is
      taken is accepted. */
  lemma SendTakes(e: Engine, data: seq<byte>, t: Option<real>)
    ensures var (f, r) := Send(e, data, t);
            && f.cfg == e.cfg && f.hist.delivered == e.hist.delivered && f.rcv.buf == e.rcv.buf && (f.state == LISTEN ==> e.state == LISTEN)
            && f.hist.accepted == e.hist.accepted + (if MayHandOver(e) then data else [])
            && (r.Done? ==> MayHandOver(e) && r.value == |data|)
            && (r.Refused? <==> !MayHandOver(e) || (e.state == LISTEN && e.remotePort == 0))
            && (r.Refused? ==> r.why == if e.state == CLOSED then DoesNotExist
                                        else if !MayHandOver(e) then Closing else ForeignSocketUnspecified)
            && (MayHandOver(e) <==> TakesData(e))
  {
    hide SendPending, EngineSpec.Open;
    var f := Buffer(e.(tm := e.tm.(userTimeout := if t.Some? then t else e.tm.userTimeout)), data);
    SendOnlySends(f);
    OpenTouches(f);
    OpenState(f);
  }

  lemma OpenTouches(e: Engine)
    ensures var f := EngineSpec.Open(e);
            && f.cfg == e.cfg && f.hist.accepted == e.hist.accepted && f.hist.delivered == e.hist.delivered && f.rcv.buf == e.rcv.buf
            && Errors(f.signals) == Errors(e.signals) && f.snd.finPending == e.snd.finPending
  {
    hide QueueAndSend, SetState;
    var g := e.(passive := false, snd := e.snd.(iss := e.cfg.iss, una := e.cfg.iss, nxt := e.cfg.iss, wnd := 0),
                hist := e.hist.(started := true, unaPos := 0, since := |e.wire|));
    StateTouches(g, SYN_SENT);
    QueueOnlySends(SetState(g, SYN_SENT), SYN, [], true);
  }

  /** No connection, or the end of the peer's stream is taken and read up to. */
  predicate NothingToCome(e: Engine) {
    || e.state == CLOSED || e.state == CLOSING || e.state == LAST_ACK || e.state == TIME_WAIT
    || (e.state == CLOSE_WAIT && e.rcv.buf == [])
  }

  /** RECEIVE returns up to `n` bytes from the front of the buffer, and leaves the rest. */
  lemma ReceiveTakes(e: Engine, n: nat)
    ensures var (f, r) := Receive(e, n);
            && f.cfg == e.cfg && f.hist.accepted == e.hist.accepted && f.hist.delivered == e.hist.delivered && f.state == e.state
            && e.rcv.buf == Got(r) + f.rcv.buf && |Got(r)| <= n && (r.Done? && |Got(r)| < n ==> f.rcv.buf == [])
            && (r.Refused? <==> NothingToCome(e))
  {
    hide SendAck, RcvWnd;
    var m := Min(n, |e.rcv.buf|);
    var f := e.(rcv := e.rcv.(buf := e.rcv.buf[m..], zeroWin := false));
    AckTouches(f);
    assert e.rcv.buf == e.rcv.buf[..m] + e.rcv.buf[m..];
  }

  /** The bytes that an outcome of RECEIVE hands over. */
  function Got(r: Outcome<seq<byte>>): seq<byte> { if r.Done? then r.value else [] }

  lemma CloseHands(e: Engine)
    ensures HandsOrCloses(e, Close(e).0, [])
  {
    hide SendPending, EnterClosed, Hands, Closes;
    HandsNothing(e, e);
    DropCloses(e);
    EnterCloses(e);
    var f := e.(snd := e.snd.(finPending := true));
    HandsNothing(e, f);
    SendHands(f);
    HandsOn(e, f, SendPending(f));
  }

  lemma EnterCloses(e: Engine)
    ensures EnterClosed(e).state == CLOSED
  {
    hide EnterClosed;
    ClosedIsClosed(e);
  }

  lemma RtoHands(e: Engine)
    ensures HandsOrCloses(e, OnRto(e), if UserTimedOut(e) then [Error(UserTimeout)] else [Error(RetransmissionTimeout)])
  {
    hide GiveUp, Retransmit, Hands, Closes, Errors;
    var f := e.(tm := e.tm.(rt := None));
    HandsNothing(e, f);
    var g := f.(tm := f.tm.(rtoCount := f.tm.rtoCount + 1));
    GaveUp(e, f, UserTimeout);
    GaveUp(e, g, RetransmissionTimeout);
    if g.snd.retx != [] {
      RetransmitTouches(g);
      HandsNothing(e, Retransmit(g));
    }
  }

  lemma GaveUp(e: Engine, f: Engine, why: ErrorSignal)
    requires f == e.(tm := f.tm)
    ensures Closes(e, GiveUp(f, why), [Error(why)])
  {
    hide GiveUp;
    GiveUpDrops(f, why);
    GiveUpCloses(f, why);
  }

  lemma RetransmitTouches(e: Engine)
    requires e.snd.retx != []
    ensures var f := Retransmit(e);
            f.cfg == e.cfg && f.hist == e.hist && f.rcv.buf == e.rcv.buf && f.state == e.state && f.signals == e.signals
            && f.snd.finPending == e.snd.finPending
  {
    hide RcvWnd, AdvertisedRight, PosOf, Reach;
  }

  lemma PersistHands(e: Engine)
    ensures Hands(e, OnPersist(e)) && (Linked(OnPersist(e).state) || OnPersist(e).state == e.state)
  {
    hide SendPending, QueueAndSend, SendFin, Hands;
    var f := e.(tm := e.tm.(persist := None));
    HandsNothing(e, f);
    SendHands(f);
    HandsOn(e, f, SendPending(f));
    FinOnlySends(f);
    HandsNothing(e, RearmPersist(SendFin(f)));
    if f.snd.appBuf != [] {
      QueueOnlySends(f.(snd := f.snd.(appBuf := f.snd.appBuf[1..])), ACK, f.snd.appBuf[..1], false);
      HandsNothing(e, RearmPersist(SendChunk(f, 1)));
    }
  }

  lemma KeepaliveHands(e: Engine)
    ensures HandsOrCloses(e, OnKeepalive(e), [Error(KeepaliveTimeout)])
  {
    hide GiveUp, Hands, Closes, RcvWnd, AdvertisedRight, PosOf, Reach;
    var f := e.(tm := e.tm.(ka := None));
    GaveUp(e, f, KeepaliveTimeout);
    if OnKeepalive(e) != GiveUp(f, KeepaliveTimeout) { HandsNothing(e, OnKeepalive(e)); }
  }

  lemma OpenHands(e: Engine, act: bool, r: Option<u16>, l: Option<u16>, t: Option<real>)
    ensures Hands(e, OpenCall(e, act, r, l, t).0)
  {
    hide EngineSpec.Open, SetState, Hands, Errors, OpenCall;
    var f := e.(remotePort := if r.Some? then r.value else e.remotePort,
                localPort := if l.Some? then l.value else e.localPort,
                tm := e.tm.(userTimeout := if t.Some? then t else e.tm.userTimeout));
    HandsNothing(e, f);
    OpenTouches(f);
    HandsNothing(f, EngineSpec.Open(f));
    HandsOn(e, f, EngineSpec.Open(f));
    var g := f.(passive := true, hist := f.hist.(started := true));
    HandsNothing(f, g);
    StateTouches(g, LISTEN);
    HandsNothing(f, SetState(g, LISTEN));
    HandsOn(e, f, SetState(g, LISTEN));
    OpenCallIs(e, act, r, l, t);
  }

  lemma OpenCallIs(e: Engine, act: bool, r: Option<u16>, l: Option<u16>, t: Option<real>)
    ensures var f := e.(remotePort := if r.Some? then r.value else e.remotePort,
                        localPort := if l.Some? then l.value else e.localPort,
                        tm := e.tm.(userTimeout := if t.Some? then t else e.tm.userTimeout));
            OpenCall(e, act, r, l, t).0 == if f.state != CLOSED && !(act && f.state == LISTEN) then f
                                           else if act then EngineSpec.Open(f)
                                           else SetState(f.(passive := true, hist := f.hist.(started := true)), LISTEN)
  {
    hide EngineSpec.Open, SetState;
  }

  // ---------------------------------------------------------------------------------------------
  // Runs
  // ---------------------------------------------------------------------------------------------

  /** Read of the calls alone: `given` is what SENDs took since LISTEN was last entered, `got` all that RECEIVEs returned. */
  datatype Calls = Calls(given: seq<byte>, got: seq<byte>)

  function Taken(e: Engine, ev: Event): seq<byte> { if ev.SendCalled? && MayHandOver(e) then ev.data else [] }

  function Returned(e: Engine, now: real, ev: Event): seq<byte> {
    if ev.ReceiveCalled? then Got(Receive(At(e, now), ev.maxLen).1) else []
  }

  /** The calls of one more event. */
  function Note(c: Calls, e: Engine, now: real, ev: Event): Calls {
    Calls(if Step(e, now, ev).state == LISTEN && e.state != LISTEN then [] else c.given + Taken(e, ev), c.got + Returned(e, now, ev))
  }

  function NoteAll(c: Calls, e: Engine, evs: seq<(real, Event)>): Calls
    decreases |evs|
  {
    if evs == [] then c else NoteAll(Note(c, e, evs[0].0, evs[0].1), Step(e, evs[0].0, evs[0].1), evs[1..])
  }

  /** What was accepted is what SENDs took; what RECEIVEs returned is the front of what was delivered, and the rest of that
      waits in the buffer, unless the connection is closed. */
  predicate Booked(e: Engine, c: Calls) {
    && e.hist.accepted == c.given && c.got <= e.hist.delivered
    && (e.state == CLOSED ==> e.rcv.buf == [])
    && (e.cfg.streaming ==> e.rcv.buf == [] && c.got == [])
    && (!e.cfg.streaming && e.state != CLOSED ==> c.got + e.rcv.buf == e.hist.delivered)
  }

  lemma HandsBooked(e: Engine, f: Engine, c: Calls)
    requires Booked(e, c) && Hands(e, f) && (f.state == CLOSED ==> f.rcv.buf == [])
    requires e.state == CLOSED ==> f.hist.delivered == e.hist.delivered && (f.state == CLOSED || e.hist.delivered == [])
    ensures Booked(f, c)
  {
    var a, b := e.hist.delivered, f.hist.delivered;
    assert b == a + b[|a|..];
    if !e.cfg.streaming && e.state != CLOSED { assert c.got + f.rcv.buf == (c.got + e.rcv.buf) + b[|a|..]; }
  }

  lemma ClosesBooked(e: Engine, f: Engine, c: Calls, why: seq<Signal>)
    requires Booked(e, c) && Closes(e, f, why) && (f.state == LISTEN ==> f.hist.delivered == [])
    ensures Booked(f, if f.state == LISTEN then c.(given := []) else c)
  {
  }

  /** Facts of the invariant about an engine that has no connection. */
  lemma Unconnected(e: Engine)
    requires Inv(e, None)
    ensures e.state == CLOSED ==> e.rcv.buf == [] && (!e.hist.started ==> e.hist.accepted == [] && e.hist.delivered == [])
    ensures e.state == LISTEN || e.state == SYN_SENT || e.state == SYN_RECEIVED ==> e.hist.delivered == []
  {
    hide WireOk, SendOk, Trail, Settled;
  }

  lemma CallBooked(e: Engine, now: real, ev: Event, c: Calls)
    requires Inv(e, None) && Allowed(e, ev) && Booked(e, c) && (ev.SendCalled? || ev.ReceiveCalled?) && Inv(Step(e, now, ev), None)
    ensures Booked(Step(e, now, ev), Note(c, e, now, ev))
  {
    hide Inv, Send, Receive, Booked;
    Unconnected(Step(e, now, ev));
    if ev.SendCalled? { SendBooked(e, now, ev, c); } else { ReceiveBooked(e, now, ev, c); }
  }

  lemma SendBooked(e: Engine, now: real, ev: Event, c: Calls)
    requires Booked(e, c) && ev.SendCalled? && (Step(e, now, ev).state == CLOSED ==> Step(e, now, ev).rcv.buf == [])
    ensures Booked(Step(e, now, ev), Note(c, e, now, ev))
  {
    hide Send;
    var a := At(e, now);
    SendTakes(a, ev.data, ev.sendTimeout);
    assert Taken(e, ev) == if MayHandOver(a) then ev.data else [];
    SendLeavesClosed(a, ev.data, ev.sendTimeout);
    assert c.got + [] == c.got;
  }

  lemma ReceiveBooked(e: Engine, now: real, ev: Event, c: Calls)
    requires Booked(e, c) && ev.ReceiveCalled? && (Step(e, now, ev).state == CLOSED ==> Step(e, now, ev).rcv.buf == [])
    ensures Booked(Step(e, now, ev), Note(c, e, now, ev))
  {
    hide Receive;
    var a := At(e, now);
    ReceiveTakes(a, ev.maxLen);
    var g := Got(Receive(a, ev.maxLen).1);
    if !e.cfg.streaming && e.state != CLOSED {
      assert (c.got + g) + Step(e, now, ev).rcv.buf == c.got + (g + Step(e, now, ev).rcv.buf);
    }
    assert c.got + [] == c.got && c.given + [] == c.given;
  }

  lemma SendLeavesClosed(e: Engine, data: seq<byte>, t: Option<real>)
    ensures e.state == CLOSED ==> Send(e, data, t).0 == e
  {
  }

  /** What is reported if the event closes the connection. */
  function WhyClosed(e: Engine, now: real, ev: Event): seq<Signal> {
    match ev
    case Arrives(seg) => if seg.flags.rst then Reported(e) else []
    case RtoFires => if UserTimedOut(At(e, now)) then [Error(UserTimeout)] else [Error(RetransmissionTimeout)]
    case KeepaliveFires => [Error(KeepaliveTimeout)]
    case _ => []
  }

  /** What the step leaves in closed states and what it changes elsewhere, calls of SEND and RECEIVE apart. */
  lemma OtherHands(e: Engine, now: real, ev: Event)
    requires !ev.SendCalled? && !ev.ReceiveCalled?
    ensures ev.OpenCalled? ==> Hands(e, Step(e, now, ev))
    ensures !ev.OpenCalled? ==> HandsOrCloses(e, Step(e, now, ev), WhyClosed(e, now, ev))
  {
    hide OpenCall, Close, Abort, OnSegment, OnRto, OnPersist, OnKeepalive, EnterClosed, SendAck, Hands, Closes;
    var a := At(e, now);
    HandsNothing(e, a);
    match ev
    case OpenCalled(act, r, l, t) => OpenHands(a, act, r, l, t); HandsOn(e, a, OpenCall(a, act, r, l, t).0);
    case CloseCalled => CloseHands(a); ClockHands(e, a, Close(a).0, WhyClosed(e, now, ev));
    case AbortCalled => AbortHands(a); ClockHands(e, a, Abort(a).0, WhyClosed(e, now, ev));
    case Arrives(seg) => SegmentHands(a, seg); ClockHands(e, a, OnSegment(a, seg), WhyClosed(e, now, ev));
    case RtoFires => RtoHands(a); ClockHands(e, a, OnRto(a), WhyClosed(e, now, ev));
    case PersistFires => PersistHands(a); ClockHands(e, a, OnPersist(a), WhyClosed(e, now, ev));
    case TimeWaitFires =>
      var b := a.(tm := a.tm.(tw := None));
      DropCloses(b);
      EnterCloses(b);
      ClockHands(e, b, EnterClosed(b), WhyClosed(e, now, ev));
    case DelackFires =>
      var b := a.(tm := a.tm.(ack := None));
      AnswerHands(b, true);
      ClockHands(e, b, SendAck(b), WhyClosed(e, now, ev));
    case KeepaliveFires => KeepaliveHands(a); ClockHands(e, a, OnKeepalive(a), WhyClosed(e, now, ev));
  }

  lemma AbortHands(e: Engine)
    ensures HandsOrCloses(e, Abort(e).0, [])
  {
    hide EnterClosed, SendRst, Hands;
    HandsNothing(e, e);
    GiveUpDrops(e, UserTimeout);
  }

  lemma ClockHands(e: Engine, a: Engine, f: Engine, why: seq<Signal>)
    requires a == e.(tm := a.tm) && HandsOrCloses(a, f, why)
    ensures HandsOrCloses(e, f, why)
  {
  }

  lemma StepBooked(e: Engine, now: real, ev: Event, c: Calls)
    requires Inv(e, None) && Allowed(e, ev) && Booked(e, c)
    ensures Booked(Step(e, now, ev), Note(c, e, now, ev))
  {
    hide Inv, Step, Booked, Hands, Closes;
    var f := Step(e, now, ev);
    StepOk(e, now, ev, None);
    if ev.SendCalled? || ev.ReceiveCalled? {
      CallBooked(e, now, ev, c);
    } else {
      OtherHands(e, now, ev);
      OtherBooked(e, now, ev, c);
    }
  }

  lemma OtherBooked(e: Engine, now: real, ev: Event, c: Calls)
    requires Inv(e, None) && Allowed(e, ev) && Booked(e, c) && Inv(Step(e, now, ev), None) && !ev.SendCalled? && !ev.ReceiveCalled?
    requires if ev.OpenCalled? then Hands(e, Step(e, now, ev)) else HandsOrCloses(e, Step(e, now, ev), WhyClosed(e, now, ev))
    ensures Booked(Step(e, now, ev), Note(c, e, now, ev))
  {
    hide Inv, Step, Booked, Hands;
    var f, d := Step(e, now, ev), Note(c, e, now, ev);
    Unconnected(e);
    Unconnected(f);
    assert d.got == c.got + [] == c.got && c.given + [] == c.given;
    ClosedStill(e, now, ev);
    if !ev.OpenCalled? && Closes(e, f, WhyClosed(e, now, ev)) {
      ClosesBooked(e, f, c, WhyClosed(e, now, ev));
    } else {
      HandsBooked(e, f, c);
      if f.state == LISTEN && e.state != LISTEN { ListensAnew(e, now, ev, c); }
    }
  }

  /** Without a connection nothing is delivered; and one only opens from nothing. */
  lemma ClosedStill(e: Engine, now: real, ev: Event)
    requires Inv(e, None) && Allowed(e, ev) && Inv(Step(e, now, ev), None) && !ev.SendCalled? && !ev.ReceiveCalled?
    ensures var f := Step(e, now, ev);
            e.state == CLOSED ==> f.hist.delivered == e.hist.delivered && (f.state == CLOSED || e.hist.delivered == [])
  {
    hide Inv, Step;
    if e.state == CLOSED {
      StepOk(e, now, ev, None);
      Unconnected(e);
      if ev.Arrives? {
        ClosedSegment(e, now, ev.seg);
      } else if e.hist.started {
        ClosedStays(e, now, ev);
      }
    }
  }

  lemma ClosedSegment(e: Engine, now: real, seg: Segment)
    requires e.state == CLOSED
    ensures Step(e, now, Arrives(seg)).hist == e.hist && Step(e, now, Arrives(seg)).state == CLOSED
  {
    var a := At(e, now);
    RstReplyTouches(a, seg, seg.ackNo, 0, false);
    RstReplyTouches(a, seg, 0, Add(seg.seqNo, seg.SegLen()), true);
  }

  /** LISTEN is entered by OPEN, with nothing accepted before. */
  lemma ListensAnew(e: Engine, now: real, ev: Event, c: Calls)
    requires Inv(e, None) && Allowed(e, ev) && Booked(e, c) && ev.OpenCalled? && e.state != LISTEN && Step(e, now, ev).state == LISTEN
    ensures c.given == []
  {
    hide Inv;
    Unconnected(e);
    hide EngineSpec.Open;
    OpenState(e);
  }

  lemma {:induction false} RunBooked(e: Engine, evs: seq<(real, Event)>, c: Calls)
    requires Inv(e, None) && AllowedRun(e, evs) && Booked(e, c)
    ensures Booked(After(e, evs), NoteAll(c, e, evs))
    decreases |evs|
  {
    hide Inv, Step, Allowed, Booked, Note;
    if evs != [] {
      StepOk(e, evs[0].0, evs[0].1, None);
      StepBooked(e, evs[0].0, evs[0].1, c);
      RunBooked(Step(e, evs[0].0, evs[0].1), evs[1..], Note(c, e, evs[0].0, evs[0].1));
    }
  }

  const NOTHING := Calls([], [])

  /** In every run of a fresh engine, whatever arrives: what it has accepted is exactly what the SENDs since LISTEN was last
      entered handed over, refused ones apart; what the RECEIVEs returned is a prefix of what was delivered, and while
      there is a connection the rest of that is what waits in the buffer. */
  lemma CallsAreStreams(cfg: Config, port: u16, ut: Option<real>, t: real, evs: seq<(real, Event)>)
    requires AllowedRun(Fresh(cfg, port, ut, t), evs)
    ensures var e0 := Fresh(cfg, port, ut, t);
            var e, c := After(e0, evs), NoteAll(NOTHING, e0, evs);
            && e.hist.accepted == c.given && c.got <= e.hist.delivered
            && (!e.cfg.streaming && e.state != CLOSED ==> c.got + e.rcv.buf == e.hist.delivered)
  {
    hide Inv, AllowedRun, After, NoteAll;
    FreshOk(cfg, port, ut, t, None);
    RunBooked(Fresh(cfg, port, ut, t), evs, NOTHING);
  }

  // ---------------------------------------------------------------------------------------------
  // Two engines
  // ---------------------------------------------------------------------------------------------

  /** What the move is to side A, if anything. */
  function SeenByA(s: System, m: Move): seq<(real, Event)>
    requires MayMove(s, m)
  {
    if !AtA(m) then []
    else
      match m
      case Local(_, now, ev) => [(now, ev)]
      case Carry(_, now, i) => [(now, Arrives(OffWire(s.b.wire[i].seg)))]
  }

  function AllSeenByA(s: System, ms: seq<Move>): seq<(real, Event)>
    requires MayRun(s, ms)
    decreases |ms|
  {
    if ms == [] then [] else SeenByA(s, ms[0]) + AllSeenByA(Moved(s, ms[0]), ms[1..])
  }

  lemma MoveSeen(s: System, m: Move)
    requires MayMove(s, m)
    ensures var evs := SeenByA(s, m); |evs| <= 1 && AllowedRun(s.a, evs) && Moved(s, m).a == After(s.a, evs)
  {
    hide Step, Timely;
    var evs := SeenByA(s, m);
    if evs != [] { assert evs[1..] == []; }
  }

  lemma {:induction false} RunSeen(s: System, ms: seq<Move>)
    requires MayRun(s, ms)
    ensures var evs := AllSeenByA(s, ms); AllowedRun(s.a, evs) && Ran(s, ms).a == After(s.a, evs)
    decreases |ms|
  {
    hide Moved, MayMove, SeenByA, Step, Allowed;
    if ms != [] {
      var first, rest := SeenByA(s, ms[0]), AllSeenByA(Moved(s, ms[0]), ms[1..]);
      MoveSeen(s, ms[0]);
      RunSeen(Moved(s, ms[0]), ms[1..]);
      if first == [] {
        assert first + rest == rest;
      } else {
        assert (first + rest)[0] == first[0] && (first + rest)[1..] == rest && first[1..] == [];
      }
    }
  }

  /** The calls at side A of a run. */
  function CallsAtA(s: System, ms: seq<Move>): Calls
    requires MayRun(s, ms)
  {
    NoteAll(NOTHING, s.a, AllSeenByA(s, ms))
  }

  lemma SideCalls(s: System, ms: seq<Move>)
    requires IsFresh(s.a) && MayRun(s, ms)
    ensures Booked(Ran(s, ms).a, CallsAtA(s, ms))
  {
    hide MayRun, Ran, AllSeenByA, AllowedRun, After, NoteAll, Inv, Booked;
    var port: u16, ut: Option<real>, t: real :| s.a == Fresh(s.a.cfg, port, ut, t);
    RunSeen(s, ms);
    FreshOk(s.a.cfg, port, ut, t, None);
    assert Booked(s.a, NOTHING) by { FreshBooked(s.a.cfg, port, ut, t); }
    RunBooked(s.a, AllSeenByA(s, ms), NOTHING);
  }

  lemma FreshBooked(cfg: Config, port: u16, ut: Option<real>, t: real)
    ensures Booked(Fresh(cfg, port, ut, t), NOTHING)
  {
  }

  /** Side B has read what side A handed over: of the calls at A and at B. */
  predicate ReadsInOrder(from: Calls, to: Calls) { to.got <= from.given }

  lemma ReadsAtB(s0: System, ms: seq<Move>)
    requires IsFresh(s0.a) && IsFresh(s0.b) && MayRun(s0, ms) && MayRun(Flip(s0), AllOpposite(ms))
    ensures ReadsInOrder(CallsAtA(s0, ms), CallsAtA(Flip(s0), AllOpposite(ms)))
  {
    hide MayRun, Ran, CallsAtA, IsFresh;
    var s := Ran(s0, ms);
    RanFlipped(s0, ms);
    assert Reachable(s) by { Arrived(s0, ms); }
    StreamIntegrity(s);
    SideCalls(s0, ms);
    SideCalls(Flip(s0), AllOpposite(ms));
  }

  lemma Arrived(s0: System, ms: seq<Move>)
    requires IsFresh(s0.a) && IsFresh(s0.b) && MayRun(s0, ms)
    ensures Reachable(Ran(s0, ms))
  {
    hide IsFresh, MayRun, Ran;
  }

  /** Stream integrity, of the calls: in every run of two fresh engines over a channel that loses, delays, duplicates and
      reorders, the bytes that the RECEIVEs of either side returned are a prefix of the bytes that the SENDs of the other
      side handed over. */
  lemma ReadIsPrefixOfWritten(s0: System, ms: seq<Move>)
    requires IsFresh(s0.a) && IsFresh(s0.b) && MayRun(s0, ms)
    ensures MayRun(Flip(s0), AllOpposite(ms))
    ensures var a, b := CallsAtA(s0, ms), CallsAtA(Flip(s0), AllOpposite(ms)); b.got <= a.given && a.got <= b.given
  {
    hide MayRun, Ran, CallsAtA, IsFresh, Moved, MayMove;
    RanFlipped(s0, ms);
    ReadsAtB(s0, ms);
    RanFlipped(Flip(s0), AllOpposite(ms));
    TwiceOpposite(ms);
    ReadsAtB(Flip(s0), AllOpposite(ms));
  }

  lemma {:induction false} TwiceOpposite(ms: seq<Move>)
    ensures AllOpposite(AllOpposite(ms)) == ms
  {
    if ms != [] {
      TwiceOpposite(ms[1..]);
      assert AllOpposite(ms)[1..] == AllOpposite(ms[1..]);
    }
  }

  /** Close integrity, of the calls: a side whose FIN is acknowledged knows that the other's RECEIVEs have returned all it
      ever handed over, but for what waits in the buffer there. */
  lemma AcknowledgedMeansRead(s0: System, ms: seq<Move>)
    requires IsFresh(s0.a) && IsFresh(s0.b) && MayRun(s0, ms) && MayRun(Flip(s0), AllOpposite(ms))
    requires var s := Ran(s0, ms); Active(s.a.state) && s.a.snd.finAcked && !s.b.cfg.streaming && s.b.state != CLOSED
    ensures CallsAtA(Flip(s0), AllOpposite(ms)).got + Ran(s0, ms).b.rcv.buf == CallsAtA(s0, ms).given
  {
    hide MayRun, Ran, CallsAtA, IsFresh, HasAll;
    var s := Ran(s0, ms);
    RanFlipped(s0, ms);
    assert Reachable(s) by { Arrived(s0, ms); }
    AcknowledgedFinMeansAllDelivered(s);
    assert s.b.hist.delivered == s.a.hist.accepted by { HasIt(s.a, s.b); }
    SideCalls(s0, ms);
    SideCalls(Flip(s0), AllOpposite(ms));
  }

  lemma HasIt(a: Engine, b: Engine)
    requires HasAll(a, b)
    ensures b.hist.delivered == a.hist.accepted
  {
  }

  // ---------------------------------------------------------------------------------------------
  // Errors
  // ---------------------------------------------------------------------------------------------

  /** Every error that is ever reported closes the connection, and tells why: a timeout by user or count, a peer found dead,
      a reset, refused before the connection is established; calls, the last acknowledgement and TIME-WAIT report none. */
  lemma ErrorsTellWhy(e: Engine, now: real, ev: Event)
    requires Reached(e) && Allowed(e, ev)
    ensures var f := Step(e, now, ev);
            Errors(f.signals) == Errors(e.signals) + if e.state != CLOSED && f.state == CLOSED then WhyClosed(e, now, ev) else []
  {
    hide Reached, Inv, Step, WhyClosed;
    ReachedInv(e);
    StepOk(e, now, ev, None);
    if ev.SendCalled? || ev.ReceiveCalled? {
      CallReports(e, now, ev);
    } else {
      OtherHands(e, now, ev);
      if e.state == CLOSED && !ev.OpenCalled? { ClosedReports(e, now, ev); }
      if ev.OpenCalled? && e.state != CLOSED { OpenLeavesOpen(e, now, ev); }
    }
  }

  lemma OpenLeavesOpen(e: Engine, now: real, ev: Event)
    requires ev.OpenCalled? && e.state != CLOSED
    ensures Step(e, now, ev).state != CLOSED
  {
    hide EngineSpec.Open;
    var a := At(e, now);
    OpenState(a.(remotePort := if ev.remotePort.Some? then ev.remotePort.value else a.remotePort,
                 localPort := if ev.localPort.Some? then ev.localPort.value else a.localPort,
                 tm := a.tm.(userTimeout := if ev.timeout.Some? then ev.timeout else a.tm.userTimeout)));
  }

  lemma CallReports(e: Engine, now: real, ev: Event)
    requires ev.SendCalled? || ev.ReceiveCalled?
    ensures var f := Step(e, now, ev); Errors(f.signals) == Errors(e.signals) && WhyClosed(e, now, ev) == []
  {
    hide Send, Receive, Errors;
    var a := At(e, now);
    match ev
    case SendCalled(d, t) => SendReports(a, d, t);
    case ReceiveCalled(n) => ReceiveReports(a, n);
    case _ =>
  }

  lemma SendReports(e: Engine, data: seq<byte>, t: Option<real>)
    ensures Errors(Send(e, data, t).0.signals) == Errors(e.signals)
  {
    hide SendPending, EngineSpec.Open, Errors;
    var f := Buffer(e.(tm := e.tm.(userTimeout := if t.Some? then t else e.tm.userTimeout)), data);
    SendOnlySends(f);
    OpenTouches(f);
  }

  lemma ReceiveReports(e: Engine, n: nat)
    ensures Receive(e, n).0.signals == e.signals
  {
    hide SendAck, RcvWnd;
    AckTouches(e.(rcv := e.rcv.(buf := e.rcv.buf[Min(n, |e.rcv.buf|)..], zeroWin := false)));
  }

  /** Without a connection there is nothing to report. */
  lemma ClosedReports(e: Engine, now: real, ev: Event)
    requires Inv(e, None) && Allowed(e, ev) && e.state == CLOSED && !ev.OpenCalled? && !ev.SendCalled? && !ev.ReceiveCalled?
    ensures Step(e, now, ev).signals == e.signals
  {
    hide Inv, OnRto, OnPersist, OnTimeWait, OnDelack, OnKeepalive, EnterClosed, SendRst;
    Q.Idle(e);
    var a := At(e, now);
    match ev
    case Arrives(seg) =>
      RstReplyTouches(a, seg, seg.ackNo, 0, false);
      RstReplyTouches(a, seg, 0, Add(seg.seqNo, seg.SegLen()), true);
    case CloseCalled =>
    case AbortCalled =>
    case _ => Q.QuietTimer(a, ev);
  }

  lemma RtoWhy(e: Engine, now: real)
    ensures WhyClosed(e, now, RtoFires) ==
              if e.tm.userTimeout.Some? && e.tm.unaSince.Some? && now - e.tm.unaSince.value >= e.tm.userTimeout.value
              then [Error(UserTimeout)] else [Error(RetransmissionTimeout)]
  {
  }
}
