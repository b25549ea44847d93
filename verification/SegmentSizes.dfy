/** How large segments get: no larger than SND.MSS, which a peer's SYN can only lower; so between two engines no larger than
    what either is configured for. */
module SegmentSizes {
  import opened SeqNum
  import opened EngineState
  import opened EngineSpec
  import opened EngineFacts
  import opened SendInvariant
  import opened SendPath
  import opened AckPath
  import opened EngineInvariant
  import opened SegmentArrives
  import opened Opening
  import opened EngineRuns
  import opened HonestPeer
  import opened TwoEngines
  import opened RunTheorems
  import W = ReceiveWindow

  // ---------------------------------------------------------------------------------------------
  // What every part of the engine keeps
  // ---------------------------------------------------------------------------------------------

  /** A packet fits `mss`; a SYN tells a segment size of its own, of at most `most`; a reset is empty. */
  predicate FairPacket(p: Packet, mss: nat, most: nat) {
    && |p.seg.payload| <= mss
    && (p.seg.flags.syn && !p.seg.flags.rst ==> p.seg.mss.Some? && 0 < p.seg.mss.value <= most)
    && (p.seg.flags.rst ==> p.seg.payload == [])
  }

  ghost predicate Fair(e: Engine) {
    && (forall i :: 0 <= i < |e.wire| ==> FairPacket(e.wire[i], e.snd.mss, e.cfg.mss))
    && (forall i :: 0 <= i < |e.snd.retx| ==> |e.snd.retx[i].payload| <= e.snd.mss && !e.snd.retx[i].flags.rst)
    && e.snd.mss <= e.cfg.mss
  }

  ghost predicate KeepsFair(e: Engine, f: Engine) { f.cfg == e.cfg && f.snd.mss == e.snd.mss && (Fair(e) ==> Fair(f)) }

  lemma FairOn(e: Engine, m: Engine, f: Engine)
    requires KeepsFair(e, m) && KeepsFair(m, f)
    ensures KeepsFair(e, f)
  {
    hide Fair;
  }

  lemma SameFair(e: Engine, f: Engine)
    requires f.cfg == e.cfg && f.snd.mss == e.snd.mss && f.wire == e.wire && f.snd.retx == e.snd.retx
    ensures KeepsFair(e, f)
  {
  }

  lemma EmitFair(e: Engine, sn: u32, flags: Flags, payload: seq<byte>, withMss: bool)
    requires |payload| <= e.snd.mss && (flags.syn ==> withMss) && (flags.rst ==> payload == [])
    ensures KeepsFair(e, Emit(e, sn, flags, payload, withMss))
  {
    hide RcvWnd, AdvertisedRight, PosOf, Reach;
    var f := Emit(e, sn, flags, payload, withMss);
    assert f.wire == e.wire + [f.wire[|e.wire|]];
  }

  lemma AckFair(e: Engine)
    ensures KeepsFair(e, SendAck(e))
  {
    hide Emit, Fair;
    EmitFair(e, e.snd.nxt, ACK, [], false);
    SameFair(Emit(e, e.snd.nxt, ACK, [], false), SendAck(e));
  }

  lemma AnswerFair(e: Engine, force: bool)
    ensures KeepsFair(e, ScheduleAck(e, force))
  {
    hide SendAck, Fair;
    AckFair(e);
    var c := e.(tm := e.tm.(ackCount := e.tm.ackCount + 1));
    SameFair(e, c);
    AckFair(c);
    FairOn(e, c, SendAck(c));
    if !(e.cfg.timers.delayedAck.None? || force) && e.tm.ackCount + 1 < 2 { SameFair(e, ScheduleAck(e, force)); }
  }

  lemma RstReplyFair(e: Engine, seg: Segment, sn: u32, ack: u32, ackFlag: bool)
    ensures KeepsFair(e, EmitRstReply(e, seg, sn, ack, ackFlag))
  {
    var f := EmitRstReply(e, seg, sn, ack, ackFlag);
    assert f.wire == e.wire + [f.wire[|e.wire|]];
  }

  lemma QueueFair(e: Engine, flags: Flags, payload: seq<byte>, withMss: bool)
    requires |payload| <= e.snd.mss && (flags.syn ==> withMss) && !flags.rst
    ensures KeepsFair(e, QueueAndSend(e, flags, payload, withMss))
  {
    hide Emit;
    EmitFair(e, e.snd.nxt, flags, payload, withMss);
    EmitTouches(e, e.snd.nxt, flags, payload, withMss);
  }

  lemma StateFair(e: Engine, to: ConnState)
    ensures KeepsFair(e, SetState(e, to))
  {
    hide SetState, Fair;
    StateTouches(e, to);
    SameFair(e, SetState(e, to));
  }

  lemma FinFair(e: Engine)
    ensures KeepsFair(e, SendFin(e))
  {
    hide QueueAndSend, SetState, Fair;
    var g := e.(snd := e.snd.(finSeq := e.snd.nxt));
    SameFair(e, g);
    QueueFair(g, FIN_ACK, [], false);
    var h := QueueAndSend(g, FIN_ACK, [], false);
    FairOn(e, g, h);
    var k := h.(snd := h.snd.(finSent := true));
    SameFair(h, k);
    FairOn(e, h, k);
    StateFair(k, FinState(k.state));
    FairOn(e, k, SendFin(e));
  }

  lemma {:induction false} PumpFair(e: Engine)
    ensures KeepsFair(e, PumpData(e))
    decreases |e.snd.appBuf|
  {
    hide QueueAndSend, SendFin, UsableWindow, Fair;
    SameFair(e, e);
    SameFair(e, ArmPersist(e));
    FinFair(e);
    if e.snd.appBuf != [] && e.snd.wnd != 0 && UsableWindow(e) > 0 {
      var n := Min(Min(e.snd.mss, UsableWindow(e)), |e.snd.appBuf|);
      if !(e.cfg.timers.nagle && e.snd.retx != [] && n < e.snd.mss) {
        ChunkFair(e, n);
        ChunkTakes(e, n);
        PumpFair(SendChunk(e, n));
        FairOn(e, SendChunk(e, n), PumpData(e));
      }
    }
  }

  lemma ChunkFair(e: Engine, n: nat)
    requires n <= |e.snd.appBuf| && n <= e.snd.mss
    ensures KeepsFair(e, SendChunk(e, n))
  {
    hide QueueAndSend, Fair;
    var g := e.(snd := e.snd.(appBuf := e.snd.appBuf[n..]));
    SameFair(e, g);
    QueueFair(g, ACK, e.snd.appBuf[..n], false);
    FairOn(e, g, SendChunk(e, n));
  }

  lemma SendFair(e: Engine)
    ensures KeepsFair(e, SendPending(e)) && KeepsFair(e, CancelPersist(e))
  {
    hide PumpData, Fair;
    SameFair(e, e);
    PumpFair(e);
    var g := e.(tm := e.tm.(persist := None));
    SameFair(e, g);
    PumpFair(g);
    FairOn(e, g, PumpData(g));
  }

  lemma {:induction false} MergeFair(e: Engine)
    ensures var f := Merge(e); f.cfg == e.cfg && f.snd == e.snd && f.wire == e.wire
    decreases |e.rcv.ooo|
  {
    hide Mergeable;
    var i := FirstMergeable(e.rcv.ooo, e.rcv.nxt);
    if i < |e.rcv.ooo| { MergeFair(MergeStep(e, i)); }
  }

  lemma PlaceFair(e: Engine, sn: u32, data: seq<byte>)
    ensures KeepsFair(e, Place(e, sn, data))
  {
    hide ScheduleAck, Merge, Fair;
    var m := Merge(Deliver(e, data));
    MergeFair(Deliver(e, data));
    SameFair(e, m);
    AnswerFair(m, false);
    FairOn(e, m, ScheduleAck(m, false));
    var f := StoreOoo(e, sn, data);
    SameFair(e, f);
    AnswerFair(f, true);
    FairOn(e, f, ScheduleAck(f, true));
  }

  lemma DataFair(e: Engine, seg: Segment)
    ensures KeepsFair(e, RecvData(e, seg))
  {
    hide ScheduleAck, Place, RcvWnd, S32, Sub, Add, Fair;
    SameFair(e, e);
    AnswerFair(e, true);
    if seg.payload != [] {
      var stale := SeqLt(seg.seqNo, e.rcv.nxt);
      var off := if stale then Sub(e.rcv.nxt, seg.seqNo) else 0;
      if off < |seg.payload| {
        var data := seg.payload[off..];
        var sn := if stale then e.rcv.nxt else seg.seqNo;
        var space := S32(Sub(Add(e.rcv.nxt, RcvWnd(e)), sn));
        if space > 0 { PlaceFair(e, sn, data[..Min(space, |data|)]); }
      }
    }
  }

  lemma TimeWaitFair(e: Engine)
    ensures KeepsFair(e, EnterTimeWait(e))
  {
    hide CancelPersist, SetState, Fair;
    var s := StopRt(e);
    SameFair(e, s);
    SendFair(s);
    FairOn(e, s, CancelPersist(s));
    StateFair(CancelPersist(s), TIME_WAIT);
    var t := SetState(CancelPersist(s), TIME_WAIT);
    FairOn(e, CancelPersist(s), t);
    SameFair(t, EnterTimeWait(e));
    FairOn(e, t, EnterTimeWait(e));
  }

  /** Emptying the queue leaves the rest fair. */
  lemma ClearedFair(e: Engine)
    ensures KeepsFair(e, ResetBuffers(e))
  {
  }

  lemma DropFair(e: Engine)
    ensures KeepsFair(e, EnterClosed(e))
  {
    hide CancelPersist, SetState, ResetBuffers, Fair;
    var s := StopRt(e);
    SameFair(e, s);
    SendFair(s);
    FairOn(e, s, CancelPersist(s));
    var c := CancelKeepalive(CancelPersist(s));
    var d := c.(tm := c.tm.(tw := None, ack := None));
    SameFair(CancelPersist(s), d);
    FairOn(e, CancelPersist(s), d);
    ClearedFair(d);
    FairOn(e, d, ResetBuffers(d));
    StateFair(ResetBuffers(d), CLOSED);
    FairOn(e, ResetBuffers(d), EnterClosed(e));
  }

  lemma SignalledFair(e: Engine, why: ErrorSignal)
    ensures KeepsFair(e, EnterClosed(SignalError(e, why)))
  {
    hide EnterClosed, Fair;
    SameFair(e, SignalError(e, why));
    DropFair(SignalError(e, why));
    FairOn(e, SignalError(e, why), EnterClosed(SignalError(e, why)));
  }

  lemma ListenAgainFair(e: Engine)
    ensures KeepsFair(e, BackToListen(e))
  {
    hide CancelPersist, SetState, ResetBuffers, Fair;
    StateFair(e, LISTEN);
    var l := SetState(e, LISTEN);
    ClearedFair(l);
    FairOn(e, l, ResetBuffers(l));
    var s := StopRt(ResetBuffers(l));
    SameFair(ResetBuffers(l), s);
    FairOn(e, ResetBuffers(l), s);
    SendFair(s);
    FairOn(e, s, CancelPersist(s));
    SameFair(CancelPersist(s), BackToListen(e));
    FairOn(e, CancelPersist(s), BackToListen(e));
  }

  lemma ResetFair(e: Engine)
    ensures KeepsFair(e, DoReset(e))
  {
    hide EnterClosed, BackToListen, Fair;
    ListenAgainFair(e);
    SignalledFair(e, ConnectionRefused);
    SignalledFair(e, ConnectionReset);
  }

  lemma GiveUpFair(e: Engine, why: ErrorSignal)
    ensures KeepsFair(e, GiveUp(e, why)) && KeepsFair(e, EnterClosed(SendRst(e)))
  {
    hide EnterClosed, Emit, Fair;
    SameFair(e, e);
    EmitFair(e, e.snd.nxt, RST, [], false);
    SignalledFair(SendRst(e), why);
    DropFair(SendRst(e));
    FairOn(e, SendRst(e), GiveUp(e, why));
    FairOn(e, SendRst(e), EnterClosed(SendRst(e)));
  }

  lemma ProcessFinFair(e: Engine)
    ensures KeepsFair(e, ProcessFin(e))
  {
    hide SendAck, SetState, EnterTimeWait, Fair;
    var g := TakeFin(e);
    SameFair(e, g);
    AckFair(g);
    FairOn(e, g, SendAck(g));
    var f := SendAck(g);
    SameFair(f, f);
    StateFair(f, CLOSE_WAIT);
    StateFair(f, CLOSING);
    TimeWaitFair(f);
    FairOn(e, f, ProcessFin(e));
  }

  lemma TextFair(e: Engine, seg: Segment)
    ensures KeepsFair(e, TextAndFin(e, seg))
  {
    hide RecvData, SendPending, ProcessFin, Fair;
    SameFair(e, e);
    DataFair(e, seg);
    var takes := e.state == ESTABLISHED || e.state == FIN_WAIT_1 || e.state == FIN_WAIT_2;
    var g := if takes then RecvData(e, seg) else e;
    SendFair(g);
    var h := SendPending(g);
    FairOn(e, g, h);
    ProcessFinFair(h);
    var n := NoteFin(h, seg);
    if n != ProcessFin(h) { SameFair(h, n); }
    FairOn(e, h, n);
    ProcessFinFair(n);
    SameFair(n, n);
    FairOn(e, n, CheckPendingFin(n));
  }

  lemma {:induction false} TrimFair(retx: seq<Outgoing>, ack: u32, mss: nat)
    requires forall i :: 0 <= i < |retx| ==> |retx[i].payload| <= mss && !retx[i].flags.rst
    ensures forall i :: 0 <= i < |Trim(retx, ack)| ==> |Trim(retx, ack)[i].payload| <= mss && !Trim(retx, ack)[i].flags.rst
    decreases |retx|
  {
    if retx != [] && SeqLeq(retx[0].End(), ack) { TrimFair(retx[1..], ack, mss); }
  }

  lemma ProcessAckFair(e: Engine, ack: u32)
    ensures KeepsFair(e, ProcessAck(e, ack))
  {
    hide Trim, RttSample, TakesSample;
    if Fair(e) { TrimFair(e.snd.retx, ack, e.snd.mss); }
  }

  lemma AckStepFair(e: Engine, seg: Segment)
    ensures KeepsFair(e, AckAndWindow(e, seg))
  {
    hide ProcessAck, CancelPersist, SeqGt, SeqLt, SeqLeq, Fair;
    SameFair(e, e);
    ProcessAckFair(e, seg.ackNo);
    var g := if SeqGt(seg.ackNo, e.snd.una) then ProcessAck(e, seg.ackNo) else e;
    var h := g.(snd := g.snd.(wnd := seg.window, wl1 := seg.seqNo, wl2 := seg.ackNo));
    SameFair(g, h);
    SendFair(h);
    FairOn(e, g, h);
    FairOn(e, h, CancelPersist(h));
  }

  lemma EstablishFair(e: Engine, seg: Segment)
    ensures KeepsFair(e, Establish(e, seg))
  {
    hide ProcessAck, SetState, Merge, SendPending, Fair;
    ProcessAckFair(e, seg.ackNo);
    var f := ProcessAck(e, seg.ackNo);
    var g := f.(snd := f.snd.(wnd := seg.window, wl1 := seg.seqNo, wl2 := seg.ackNo));
    SameFair(f, g);
    FairOn(e, f, g);
    StateFair(g, ESTABLISHED);
    var k := SetState(g, ESTABLISHED);
    FairOn(e, g, k);
    MergeFair(k);
    SameFair(k, Merge(k));
    FairOn(e, k, Merge(k));
    SendFair(Merge(k));
    FairOn(e, Merge(k), Establish(e, seg));
  }

  lemma AfterAckFair(e: Engine, seg: Segment)
    ensures KeepsFair(e, AfterAck(e, seg))
  {
    hide TextAndFin, EnterTimeWait, EnterClosed, SetState, Fair;
    StateFair(e, FIN_WAIT_2);
    TextFair(SetState(e, FIN_WAIT_2), seg);
    FairOn(e, SetState(e, FIN_WAIT_2), TextAndFin(SetState(e, FIN_WAIT_2), seg));
    TextFair(e, seg);
    TimeWaitFair(e);
    DropFair(e);
  }

  lemma HandleAckFair(e: Engine, seg: Segment)
    ensures KeepsFair(e, HandleAck(e, seg))
  {
    hide Establish, TextAndFin, EmitRstReply, SendAck, AckAndWindow, AfterAck, SeqLt, SeqLeq, SeqGt, Fair;
    EstablishFair(e, seg);
    TextFair(Establish(e, seg), seg);
    FairOn(e, Establish(e, seg), TextAndFin(Establish(e, seg), seg));
    RstReplyFair(e, seg, seg.ackNo, 0, false);
    AckFair(e);
    AckStepFair(e, seg);
    AfterAckFair(AckAndWindow(e, seg), seg);
    FairOn(e, AckAndWindow(e, seg), AfterAck(AckAndWindow(e, seg), seg));
  }

  lemma SynchronizedFair(e: Engine, seg: Segment)
    ensures KeepsFair(e, HandleSynchronized(e, seg))
  {
    hide SendAck, EnterClosed, DoReset, HandleAck, Acceptable, RcvWnd, Fair;
    SameFair(e, e);
    AckFair(e);
    SameFair(SendAck(e), RestartTimeWait(SendAck(e)));
    FairOn(e, SendAck(e), RestartTimeWait(SendAck(e)));
    DropFair(e);
    ResetFair(e);
    HandleAckFair(e, seg);
  }

  // ---------------------------------------------------------------------------------------------
  // The peer's SYN
  // ---------------------------------------------------------------------------------------------

  /** Before the connection there is no data to be too long for a new segment size. */
  lemma Resized(e: Engine, m: segsize)
    requires Inv(e, None) && Fair(e) && (e.state == LISTEN || e.state == SYN_SENT) && m <= e.cfg.mss
    ensures Fair(e.(snd := e.snd.(mss := m)))
  {
    hide Trail, Settled, Wrap, KarnOk, Tally, AllAck, AckOk;
    forall i | 0 <= i < |e.wire| ensures FairPacket(e.wire[i], m, e.cfg.mss) {
      assert PacketOk(e.wire[i], e.cfg.iss, e.hist, None) && FairPacket(e.wire[i], e.snd.mss, e.cfg.mss);
    }
    forall i | 0 <= i < |e.snd.retx| ensures |e.snd.retx[i].payload| <= m && !e.snd.retx[i].flags.rst {
      TilesWithin(e.snd.retx, e.snd.iss, e.hist.unaPos, e.hist, i);
    }
  }

  lemma TakeSynFair(e: Engine, seg: Segment)
    requires Inv(e, None) && Fair(e) && e.state == SYN_SENT
    ensures var f := TakeSyn(e, seg); Fair(f) && f.cfg == e.cfg && f.snd.mss == PeerMss(e, seg)
  {
    hide ProcessAck, Inv;
    Resized(e, PeerMss(e, seg)) by { OfferFits(e, seg); }
    var r := e.(snd := e.snd.(mss := PeerMss(e, seg)));
    var f := e.(rcv := e.rcv.(irs := seg.seqNo, nxt := Add(seg.seqNo, 1)), snd := e.snd.(mss := PeerMss(e, seg)));
    SameFair(r, f);
    ProcessAckFair(f, seg.ackNo);
    var g := if seg.flags.ack then ProcessAck(f, seg.ackNo) else f;
    SameFair(g, FirstWindow(g, seg));
  }

  lemma OfferFits(e: Engine, seg: Segment)
    requires Fair(e)
    ensures PeerMss(e, seg) <= e.cfg.mss
  {
  }

  lemma SimultaneousFair(e: Engine, seg: Segment)
    ensures KeepsFair(e, SimultaneousOpen(e, seg))
  {
    hide SetState, Emit, StoreOoo, Fair;
    StateFair(e, SYN_RECEIVED);
    var s := SetState(e, SYN_RECEIVED);
    var g := SynBecomesSynAck(s);
    AgainFair(s);
    FairOn(e, s, g);
    var h := HoldSynData(g, seg);
    HeldTouches(g, seg);
    SameFair(g, h);
    FairOn(e, g, h);
    EmitFair(h, h.snd.iss, SYN_ACK, [], true);
    FairOn(e, h, SimultaneousOpen(e, seg));
  }

  lemma AgainFair(s: Engine)
    ensures KeepsFair(s, SynBecomesSynAck(s))
  {
  }

  lemma HeldTouches(g: Engine, seg: Segment)
    ensures var h := HoldSynData(g, seg); h == g.(rcv := h.rcv)
  {
  }

  lemma SynSentFair(e: Engine, seg: Segment)
    requires Inv(e, None) && Fair(e) && e.state == SYN_SENT && seg.window < 0x1_0000
    ensures var f := HandleSynSent(e, seg);
            && Fair(f) && f.cfg == e.cfg
            && (f.state == SYN_SENT || f.state == CLOSED || (seg.flags.syn && !seg.flags.rst && f.snd.mss == PeerMss(e, seg)))
  {
    hide EmitRstReply, EnterClosed, TakeSyn, SendPending, SendAck, SetState, HandleSynchronized, SimultaneousOpen, PeerMss;
    hide SeqLeq, SeqGt, Between, Inv, Fair;
    SameFair(e, e);
    RstReplyFair(e, seg, seg.ackNo, 0, false);
    RstReplyTouches(e, seg, seg.ackNo, 0, false);
    SignalledFair(e, ConnectionRefused);
    ClosedIsClosed(SignalError(e, ConnectionRefused));
    TakeSynFair(e, seg);
    var f := TakeSyn(e, seg);
    SimultaneousFair(f, seg);
    StateFair(f, ESTABLISHED);
    var m := SetState(f, ESTABLISHED);
    AckFair(m);
    FairOn(f, m, SendAck(m));
    SendFair(SendAck(m));
    FairOn(f, SendAck(m), SendPending(SendAck(m)));
    var g := SendPending(SendAck(m));
    var cont := seg.(flags := seg.flags.(syn := false), seqNo := Add(seg.seqNo, 1));
    SynchronizedFair(g, cont);
    FairOn(f, g, HandleSynchronized(g, cont));
  }

  lemma ListenFair(e: Engine, seg: Segment)
    requires Inv(e, None) && Fair(e) && e.state == LISTEN
    ensures var f := HandleListen(e, seg);
            && Fair(f) && f.cfg == e.cfg
            && (f.state == LISTEN || (seg.flags.syn && !seg.flags.rst && f.state == SYN_RECEIVED && f.snd.mss == PeerMss(e, seg)))
  {
    hide EmitRstReply, SetState, QueueAndSend, Inv, Fair, PeerMss;
    SameFair(e, e);
    RstReplyFair(e, seg, seg.ackNo, 0, false);
    RstReplyTouches(e, seg, seg.ackNo, 0, false);
    Resized(e, PeerMss(e, seg)) by { OfferFits(e, seg); }
    var r := e.(snd := e.snd.(mss := PeerMss(e, seg)));
    var f := e.(remotePort := if e.remotePort == 0 then seg.srcPort else e.remotePort);
    var g := AnswerSyn(f, seg);
    assert g.snd.mss == PeerMss(e, seg) by { SameOfferMss(e, f, seg); }
    SameFair(r, g);
    StateFair(g, SYN_RECEIVED);
    StateTouches(g, SYN_RECEIVED);
    QueueFair(SetState(g, SYN_RECEIVED), SYN_ACK, [], true);
    QueueOnlySends(SetState(g, SYN_RECEIVED), SYN_ACK, [], true);
    FairOn(g, SetState(g, SYN_RECEIVED), QueueAndSend(SetState(g, SYN_RECEIVED), SYN_ACK, [], true));
  }

  lemma SameOfferMss(e: Engine, f: Engine, seg: Segment)
    requires f.cfg == e.cfg && f.snd.mss == e.snd.mss
    ensures PeerMss(f, seg) == PeerMss(e, seg)
  {
  }

  /** What an arriving segment makes of the segment size: in LISTEN and SYN-SENT a SYN sets it, and nothing else does. */
  lemma ArrivalFair(e: Engine, seg: Segment)
    requires Inv(e, None) && Fair(e) && seg.window < 0x1_0000
    ensures var f := OnSegment(e, seg);
            && Fair(f) && f.cfg == e.cfg
            && (Synced(e.state) || e.state == CLOSED ==> f.snd.mss == e.snd.mss)
            && (Synced(f.state) && !Synced(e.state) ==> seg.flags.syn && !seg.flags.rst && f.snd.mss == PeerMss(e, seg))
  {
    hide EmitRstReply, HandleListen, HandleSynSent, HandleSynchronized, Fair, Inv, PeerMss;
    SameFair(e, e);
    var f := if e.state == ESTABLISHED then RestartKeepalive(e, true) else e;
    SameFair(e, f);
    RstReplyFair(f, seg, seg.ackNo, 0, false);
    RstReplyFair(f, seg, 0, Add(seg.seqNo, seg.SegLen()), true);
    RstReplyTouches(f, seg, seg.ackNo, 0, false);
    RstReplyTouches(f, seg, 0, Add(seg.seqNo, seg.SegLen()), true);
    if e.state == LISTEN { ListenFair(e, seg); }
    if e.state == SYN_SENT { SynSentFair(e, seg); }
    SynchronizedFair(f, seg);
    FairOn(e, f, HandleSynchronized(f, seg));
  }

  // ---------------------------------------------------------------------------------------------
  // Calls and timers
  // ---------------------------------------------------------------------------------------------

  lemma OpenFair(e: Engine)
    ensures KeepsFair(e, EngineSpec.Open(e))
  {
    hide QueueAndSend, SetState, Fair;
    var g := e.(passive := false, snd := e.snd.(iss := e.cfg.iss, una := e.cfg.iss, nxt := e.cfg.iss, wnd := 0),
                hist := e.hist.(started := true, unaPos := 0, since := |e.wire|));
    SameFair(e, g);
    StateFair(g, SYN_SENT);
    FairOn(e, g, SetState(g, SYN_SENT));
    QueueFair(SetState(g, SYN_SENT), SYN, [], true);
    FairOn(e, SetState(g, SYN_SENT), EngineSpec.Open(e));
  }

  lemma OpenCallFair(e: Engine, act: bool, r: Option<u16>, l: Option<u16>, t: Option<real>)
    ensures KeepsFair(e, OpenCall(e, act, r, l, t).0)
  {
    hide EngineSpec.Open, SetState, Fair;
    var f := e.(remotePort := if r.Some? then r.value else e.remotePort,
                localPort := if l.Some? then l.value else e.localPort,
                tm := e.tm.(userTimeout := if t.Some? then t else e.tm.userTimeout));
    SameFair(e, f);
    OpenFair(f);
    FairOn(e, f, EngineSpec.Open(f));
    var p := f.(passive := true, hist := f.hist.(started := true));
    SameFair(e, p);
    StateFair(p, LISTEN);
    FairOn(e, p, SetState(p, LISTEN));
  }

  lemma SendCallFair(e: Engine, data: seq<byte>, t: Option<real>)
    ensures KeepsFair(e, Send(e, data, t).0)
  {
    hide EngineSpec.Open, SendPending, Fair;
    SameFair(e, e);
    var f := Buffer(e.(tm := e.tm.(userTimeout := if t.Some? then t else e.tm.userTimeout)), data);
    SameFair(e, f);
    OpenFair(f);
    FairOn(e, f, EngineSpec.Open(f));
    SendFair(f);
    FairOn(e, f, SendPending(f));
  }

  lemma CallFair(e: Engine, ev: Event)
    requires ev.OpenCalled? || ev.SendCalled? || ev.ReceiveCalled? || ev.CloseCalled? || ev.AbortCalled?
    ensures KeepsFair(e, React(e, ev))
  {
    hide OpenCall, Send, SendPending, SendAck, EnterClosed, SendRst, RcvWnd, Fair;
    SameFair(e, e);
    match ev
    case OpenCalled(act, r, l, t) => OpenCallFair(e, act, r, l, t);
    case SendCalled(d, t) => SendCallFair(e, d, t);
    case ReceiveCalled(n) =>
      var f := e.(rcv := e.rcv.(buf := e.rcv.buf[Min(n, |e.rcv.buf|)..]));
      SameFair(e, f);
      var z := f.(rcv := f.rcv.(zeroWin := false));
      SameFair(e, z);
      AckFair(z);
      FairOn(e, z, SendAck(z));
    case CloseCalled =>
      DropFair(e);
      var f := e.(snd := e.snd.(finPending := true));
      SameFair(e, f);
      SendFair(f);
      FairOn(e, f, SendPending(f));
    case AbortCalled => GiveUpFair(e, UserTimeout);
  }

  lemma RetransmitFair(e: Engine)
    requires e.snd.retx != []
    ensures KeepsFair(e, Retransmit(e))
  {
    hide Emit, RttBackoff;
    if Fair(e) {
      var o := e.snd.retx[0].(retransmitted := true, sentTime := e.tm.now, copies := e.snd.retx[0].copies + 1);
      var f := e.(rtt := RttBackoff(e.cfg.timers, e.rtt), snd := e.snd.(rttPending := None, retx := [o] + e.snd.retx[1..]));
      EmitFair(f, o.seqNo, o.flags, o.payload, o.flags.syn);
      SameFair(Emit(f, o.seqNo, o.flags, o.payload, o.flags.syn), Retransmit(e));
    }
    RetransmitSame(e);
  }

  lemma RetransmitSame(e: Engine)
    requires e.snd.retx != []
    ensures Retransmit(e).cfg == e.cfg && Retransmit(e).snd.mss == e.snd.mss
  {
    hide RcvWnd, AdvertisedRight, PosOf, Reach;
  }

  lemma TimerFair(e: Engine, ev: Event)
    requires ev.RtoFires? || ev.PersistFires? || ev.TimeWaitFires? || ev.DelackFires? || ev.KeepaliveFires?
    ensures KeepsFair(e, React(e, ev))
  {
    hide GiveUp, Retransmit, UserTimedOut, SendPending, SendChunk, SendFin, SendAck, EnterClosed, Emit, Fair;
    match ev
    case RtoFires =>
      var f := e.(tm := e.tm.(rt := None));
      var g := f.(tm := f.tm.(rtoCount := f.tm.rtoCount + 1));
      SameFair(e, f);
      SameFair(e, g);
      GiveUpFair(f, UserTimeout);
      FairOn(e, f, GiveUp(f, UserTimeout));
      GiveUpFair(g, RetransmissionTimeout);
      FairOn(e, g, GiveUp(g, RetransmissionTimeout));
      if g.snd.retx != [] {
        RetransmitFair(g);
        FairOn(e, g, Retransmit(g));
      }
    case PersistFires =>
      var f := e.(tm := e.tm.(persist := None));
      SameFair(e, f);
      SendFair(f);
      FairOn(e, f, SendPending(f));
      if f.snd.appBuf != [] { ProbeFair(e, f, SendChunk(f, 1)) by { ChunkFair(f, 1); } }
      FinFair(f);
      ProbeFair(e, f, SendFin(f));
    case TimeWaitFires =>
      var f := e.(tm := e.tm.(tw := None));
      SameFair(e, f);
      DropFair(f);
      FairOn(e, f, EnterClosed(f));
    case DelackFires =>
      var f := e.(tm := e.tm.(ack := None));
      SameFair(e, f);
      AckFair(f);
      FairOn(e, f, SendAck(f));
    case KeepaliveFires => KeepaliveFair(e);
  }

  lemma ProbeFair(e: Engine, f: Engine, g: Engine)
    requires KeepsFair(e, f) && KeepsFair(f, g)
    ensures KeepsFair(e, RearmPersist(g))
  {
    hide Fair;
    FairOn(e, f, g);
    SameFair(g, RearmPersist(g));
    FairOn(e, g, RearmPersist(g));
  }

  lemma KeepaliveFair(e: Engine)
    ensures KeepsFair(e, OnKeepalive(e))
  {
    hide GiveUp, Emit, Fair;
    var f := e.(tm := e.tm.(ka := None));
    SameFair(e, f);
    GiveUpFair(f, KeepaliveTimeout);
    FairOn(e, f, GiveUp(f, KeepaliveTimeout));
    SameFair(e, RestartKeepalive(f, false));
    EmitFair(f, Sub(f.snd.una, 1), ACK, [], false);
    var g := Emit(f, Sub(f.snd.una, 1), ACK, [], false);
    FairOn(e, f, g);
    var h := RestartKeepalive(g.(tm := g.tm.(kaProbes := g.tm.kaProbes + 1)), false);
    SameFair(g, h);
    FairOn(e, g, h);
  }

  // ---------------------------------------------------------------------------------------------
  // Steps and runs
  // ---------------------------------------------------------------------------------------------

  /** Every step keeps packets fair; the segment size stays, but for a SYN in LISTEN or SYN-SENT. */
  lemma StepFair(e: Engine, now: real, ev: Event)
    requires Inv(e, None) && Fair(e) && Allowed(e, ev)
    ensures var f := Step(e, now, ev);
            && Fair(f) && f.cfg == e.cfg
            && (Synced(e.state) ==> f.snd.mss == e.snd.mss)
            && (Synced(f.state) && !Synced(e.state) ==> ev.Arrives? && ev.seg.flags.syn && !ev.seg.flags.rst && f.snd.mss == PeerMss(At(e, now), ev.seg))
  {
    hide Inv, React, Fair, PeerMss;
    var a := At(e, now);
    SameFair(e, a);
    if ev.Arrives? {
      ClockOk(e, now, None);
      ArrivalIs(e, now, ev.seg);
      ArrivalFair(a, ev.seg);
    } else {
      StepOk(e, now, ev, None);
      if ev.OpenCalled? || ev.SendCalled? || ev.ReceiveCalled? || ev.CloseCalled? || ev.AbortCalled? {
        CallFair(a, ev);
      } else {
        TimerFair(a, ev);
      }
    }
  }

  lemma {:induction false} RunFair(e: Engine, evs: seq<(real, Event)>)
    requires Inv(e, None) && Fair(e) && AllowedRun(e, evs)
    ensures Fair(After(e, evs)) && After(e, evs).cfg == e.cfg
    decreases |evs|
  {
    hide Inv, Step, Allowed, Fair;
    if evs != [] {
      StepOk(e, evs[0].0, evs[0].1, None);
      StepFair(e, evs[0].0, evs[0].1);
      RunFair(Step(e, evs[0].0, evs[0].1), evs[1..]);
    }
  }

  lemma FreshFair(cfg: Config, port: u16, ut: Option<real>, t: real)
    ensures Fair(Fresh(cfg, port, ut, t))
  {
  }

  lemma ReachedFair(e: Engine)
    requires Reached(e)
    ensures Fair(e)
  {
    hide Inv, AllowedRun, After, Fresh, Fair;
    var cfg: Config, port: u16, ut: Option<real>, t: real, evs: seq<(real, Event)> :|
      AllowedRun(Fresh(cfg, port, ut, t), evs) && e == After(Fresh(cfg, port, ut, t), evs);
    FreshOk(cfg, port, ut, t, None);
    FreshFair(cfg, port, ut, t);
    RunFair(Fresh(cfg, port, ut, t), evs);
  }

  /** A SYN with a nonzero segment size that opens the connection binds every data segment of it, whatever comes later: none
      is longer than the peer takes, or than the engine is configured for. */
  lemma SynBindsSize(e: Engine, now: real, seg: Segment, later: seq<(real, Event)>, i: nat)
    requires Reached(e) && !Synced(e.state) && Allowed(e, Arrives(seg)) && seg.mss.Some? && seg.mss.value != 0
    requires var f := Step(e, now, Arrives(seg)); Synced(f.state) && AllowedRun(f, later) && W.StaysSynced(f, later)
    requires i < |After(Step(e, now, Arrives(seg)), later).wire|
    ensures |After(Step(e, now, Arrives(seg)), later).wire[i].seg.payload| <= Min(e.cfg.mss, seg.mss.value)
  {
    hide Reached, Inv, Step, AllowedRun, After, Fair, W.StaysSynced;
    ReachedInv(e);
    ReachedFair(e);
    var f := Step(e, now, Arrives(seg));
    StepOk(e, now, Arrives(seg), None);
    StepFair(e, now, Arrives(seg));
    SizeStays(f, later);
    RunFair(f, later);
    FairAt(After(f, later), i);
  }

  lemma FairAt(e: Engine, i: nat)
    requires Fair(e) && i < |e.wire|
    ensures |e.wire[i].seg.payload| <= e.snd.mss && e.snd.mss <= e.cfg.mss
  {
  }

  lemma {:induction false} SizeStays(e: Engine, evs: seq<(real, Event)>)
    requires Inv(e, None) && Fair(e) && AllowedRun(e, evs) && W.StaysSynced(e, evs)
    ensures After(e, evs).snd.mss == e.snd.mss
    decreases |evs|
  {
    hide Inv, Step, Allowed, Fair;
    if evs != [] {
      StepOk(e, evs[0].0, evs[0].1, None);
      StepFair(e, evs[0].0, evs[0].1);
      SizeStays(Step(e, evs[0].0, evs[0].1), evs[1..]);
    }
  }

  // ---------------------------------------------------------------------------------------------
  // Two engines
  // ---------------------------------------------------------------------------------------------

  /** Side `a` knows what `b` takes. */
  ghost predicate Sized(a: Engine, b: Engine) { Fair(a) && (Synced(a.state) ==> a.snd.mss <= b.cfg.mss) }

  lemma MoveSized(s: System, m: Move)
    requires SysInv(s) && Sized(s.a, s.b) && Fair(s.b) && MayMoveA(s, m)
    ensures Sized(MoveA(s, m).a, s.b) && MoveA(s, m).b == s.b && MoveA(s, m).a.cfg == s.a.cfg
  {
    hide Inv, RecvOk, Step, Timely, Allowed, Fair, Synced;
    AnyPeer(s.a, Some(s.b.cfg.iss));
    match m
    case Local(_, now, ev) => StepFair(s.a, now, ev);
    case Carry(_, now, i) =>
      var seg := OffWire(s.b.wire[i].seg);
      CarriedAllowed(s.a, seg);
      StepFair(s.a, now, Arrives(seg));
      if Synced(Step(s.a, now, Arrives(seg)).state) && !Synced(s.a.state) { OfferTaken(At(s.a, now), s.b, i); }
  }

  lemma CarriedAllowed(a: Engine, seg: Segment)
    requires seg.window < 0x1_0000
    ensures Allowed(a, Arrives(seg))
  {
  }

  lemma OfferTaken(a: Engine, b: Engine, i: nat)
    requires Fair(b) && i < |b.wire| && b.wire[i].seg.flags.syn && !b.wire[i].seg.flags.rst
    ensures PeerMss(a, OffWire(b.wire[i].seg)) <= b.cfg.mss
  {
    assert FairPacket(b.wire[i], b.snd.mss, b.cfg.mss);
  }

  ghost predicate BothSized(s: System) { Sized(s.a, s.b) && Sized(s.b, s.a) }

  lemma MovedSized(s: System, m: Move)
    requires SysInv(s) && BothSized(s) && MayMove(s, m)
    ensures BothSized(Moved(s, m))
  {
    hide SysInv, Fair, MoveA, MayMoveA;
    MoveSized(if AtA(m) then s else Flip(s), m) by { FlippedInv(s); }
  }

  lemma FlippedInv(s: System)
    requires SysInv(s)
    ensures SysInv(Flip(s))
  {
    hide Side;
  }

  lemma {:induction false} RanSized(s: System, ms: seq<Move>)
    requires SysInv(s) && BothSized(s) && MayRun(s, ms)
    ensures BothSized(Ran(s, ms)) && SysInv(Ran(s, ms))
    decreases |ms|
  {
    hide SysInv, BothSized, Moved, MayMove;
    if ms != [] {
      MovedKeeps(s, ms[0]);
      MovedSized(s, ms[0]);
      RanSized(Moved(s, ms[0]), ms[1..]);
    }
  }

  lemma ReachableSized(s: System)
    requires Reachable(s)
    ensures BothSized(s)
  {
    hide SysInv, Ran, MayRun, IsFresh, Fair, Side, Sized;
    var s0: System, ms: seq<Move> :| IsFresh(s0.a) && IsFresh(s0.b) && MayRun(s0, ms) && s == Ran(s0, ms);
    FreshSide(s0.a, s0.b);
    FreshSide(s0.b, s0.a);
    assert SysInv(s0) by { InvOfSides(s0); }
    FreshSized(s0.a, s0.b);
    FreshSized(s0.b, s0.a);
    RanSized(s0, ms);
  }

  /** Two engines that speak to each other never send a segment longer than either is configured for: each tells its size
      with its SYN, and heeds the other's. */
  lemma SizesAgree(s: System)
    requires Reachable(s)
    ensures var most := Min(s.a.cfg.mss, s.b.cfg.mss);
            && (Synced(s.a.state) ==> forall i :: 0 <= i < |s.a.wire| ==> |s.a.wire[i].seg.payload| <= most)
            && (Synced(s.b.state) ==> forall i :: 0 <= i < |s.b.wire| ==> |s.b.wire[i].seg.payload| <= most)
  {
    hide Reachable;
    ReachableSized(s);
  }

  lemma FreshSized(a: Engine, b: Engine)
    requires IsFresh(a)
    ensures Sized(a, b)
  {
    var port: u16, ut: Option<real>, t: real :| a == Fresh(a.cfg, port, ut, t);
  }
}
