/** What was sent stays sent: every entry point only appends to the sequence of `tx` calls. And what a timer that runs was
    started with, and that an offer of nothing is remembered. */
module WireLog {
  import opened SeqNum
  import opened EngineState
  import opened EngineSpec
  import opened EngineFacts
  import opened EngineRuns

  // ---------------------------------------------------------------------------------------------
  // What a part of the engine may do to timers and wire
  // ---------------------------------------------------------------------------------------------

  /** A timer that runs is the one that ran, or was started now with the delay it should have: the retransmission timer with
      the estimator's timeout, and that always and with no timeout counted when SND.UNA has moved, the others as configured. And what the user timeout
      counts from stays, or is now, and that again when SND.UNA has moved. */
  predicate RearmsMost(e: Engine, f: Engine) {
    var t, u, c, moved := e.tm, f.tm, e.cfg.timers, f.hist.unaPos > e.hist.unaPos;
    && f.cfg == e.cfg && u.now == t.now && u.userTimeout == t.userTimeout
    && (u.rt == None || u.rt == Later(u, f.rtt.rto) || (u.rt == t.rt && f.rtt == e.rtt && !moved))
    && (u.rtoCount == 0 || (u.rtoCount == t.rtoCount && !moved))
    && (u.unaSince == None || u.unaSince == Some(u.now) || (u.unaSince == t.unaSince && !moved))
    && (u.ack == None || u.ack == t.ack || (c.delayedAck.Some? && u.ack == Later(u, c.delayedAck.value)))
    && (u.tw == None || u.tw == t.tw || u.tw == Later(u, 2.0 * c.msl))
  }

  /** ... and so of the persist timer, with its shortest delay, and of the keepalive timer. */
  predicate Rearms(e: Engine, f: Engine) {
    var t, u, c := e.tm, f.tm, e.cfg.timers;
    && RearmsMost(e, f)
    && (u.persist == None || (u.persist == t.persist && u.persistBackoff == t.persistBackoff)
        || (u.persist == Later(u, c.persistMin) && u.persistBackoff == c.persistMin))
    && (if c.keepaliveIdle.Some? then KeepsCount(e, f) else u.ka == None || u.ka == t.ka)
  }

  /** Idle time is counted on as it was; or anew, from now, and only in ESTABLISHED. */
  predicate KeepsCount(e: Engine, f: Engine)
    requires e.cfg.timers.keepaliveIdle.Some?
  {
    || (f.tm.ka == e.tm.ka && f.tm.kaProbes == e.tm.kaProbes && (f.state == ESTABLISHED <==> e.state == ESTABLISHED))
    || (f.tm.kaProbes == 0 && f.tm.ka == if f.state == ESTABLISHED then Later(f.tm, e.cfg.timers.keepaliveIdle.value) else None)
  }

  /** A packet that tells the peer how much it may send. */
  predicate OffersNothing(p: Packet) { !p.seg.flags.rst && p.seg.window == 0 }

  /** `ps` without its first `n` has such packets only if `noted`. */
  ghost predicate NotedIn(ps: seq<Packet>, n: nat, noted: bool) { forall i :: n <= i < |ps| && OffersNothing(ps[i]) ==> noted }

  /** Nothing sent is taken back, an active opener does not turn passive, timers are what they should be, and an offer of
      nothing is noted. */
  ghost predicate Appends(e: Engine, f: Engine) {
    && e.wire <= f.wire && (f.passive ==> e.passive) && Rearms(e, f)
    && (e.rcv.zeroWin ==> f.rcv.zeroWin) && NotedIn(f.wire, |e.wire|, f.rcv.zeroWin)
  }

  /** ... and what the estimator knows stays. */
  ghost predicate Plainly(e: Engine, f: Engine) { Appends(e, f) && f.rtt == e.rtt }

  ghost predicate LeavesWire(e: Engine, f: Engine) { Plainly(e, f) && f.wire == e.wire }

  lemma RearmsOn(e: Engine, m: Engine, f: Engine)
    requires Rearms(e, m) && Rearms(m, f)
    ensures Rearms(e, f)
  {
  }

  lemma AppendsOn(e: Engine, m: Engine, f: Engine)
    requires Appends(e, m) && Appends(m, f)
    ensures Appends(e, f)
  {
    hide Rearms;
    RearmsOn(e, m, f);
  }

  lemma Silent(e: Engine, f: Engine)
    requires f.wire == e.wire && (f.passive ==> e.passive) && f.rcv.zeroWin == e.rcv.zeroWin && Rearms(e, f)
    ensures Appends(e, f)
  {
  }

  lemma EmitAppends(e: Engine, sn: u32, flags: Flags, payload: seq<byte>, withMss: bool)
    ensures Plainly(e, Emit(e, sn, flags, payload, withMss))
  {
    hide AdvertisedRight, PosOf, RcvWnd, Reach;
    var f := Emit(e, sn, flags, payload, withMss);
    assert f.wire == e.wire + [f.wire[|e.wire|]];
  }

  lemma RstReplyAppends(e: Engine, seg: Segment, sn: u32, ack: u32, ackFlag: bool)
    ensures Plainly(e, EmitRstReply(e, seg, sn, ack, ackFlag))
  {
    var f := EmitRstReply(e, seg, sn, ack, ackFlag);
    assert f.wire == e.wire + [f.wire[|e.wire|]];
  }

  lemma StateKeepsWire(e: Engine, to: ConnState)
    ensures LeavesWire(e, SetState(e, to))
  {
    hide Appends;
    Silent(e, SetState(e, to));
  }

  // ---------------------------------------------------------------------------------------------
  // Sending
  // ---------------------------------------------------------------------------------------------

  lemma AckAppends(e: Engine)
    ensures Plainly(e, SendAck(e))
  {
    hide Emit, Appends;
    var f := Emit(e, e.snd.nxt, ACK, [], false);
    EmitAppends(e, e.snd.nxt, ACK, [], false);
    Silent(f, SendAck(e));
    AppendsOn(e, f, SendAck(e));
  }

  lemma AnswerAppends(e: Engine, force: bool)
    ensures Plainly(e, SendAck(e)) && Plainly(e, ScheduleAck(e, force))
  {
    hide SendAck, Appends;
    AckAppends(e);
    var f := e.(tm := e.tm.(ackCount := e.tm.ackCount + 1));
    Silent(e, f);
    AckAppends(f);
    AppendsOn(e, f, SendAck(f));
    if !(e.cfg.timers.delayedAck.None? || force) && e.tm.ackCount + 1 < 2 { Silent(e, ScheduleAck(e, force)); }
  }

  lemma QueueAppends(e: Engine, flags: Flags, payload: seq<byte>, withMss: bool)
    ensures Plainly(e, QueueAndSend(e, flags, payload, withMss))
  {
    hide Emit, Appends;
    var f := Emit(e, e.snd.nxt, flags, payload, withMss);
    EmitAppends(e, e.snd.nxt, flags, payload, withMss);
    Silent(f, QueueAndSend(e, flags, payload, withMss));
    AppendsOn(e, f, QueueAndSend(e, flags, payload, withMss));
  }

  lemma FinAppends(e: Engine)
    ensures Plainly(e, SendFin(e))
  {
    hide QueueAndSend, SetState, Appends;
    var g := e.(snd := e.snd.(finSeq := e.snd.nxt));
    Silent(e, g);
    QueueAppends(g, FIN_ACK, [], false);
    var h := QueueAndSend(g, FIN_ACK, [], false);
    AppendsOn(e, g, h);
    var k := h.(snd := h.snd.(finSent := true));
    Silent(h, k);
    AppendsOn(e, h, k);
    StateKeepsWire(k, FinState(k.state));
    AppendsOn(e, k, SendFin(e));
  }

  lemma ChunkAppends(e: Engine, n: nat)
    requires n <= |e.snd.appBuf|
    ensures Plainly(e, SendChunk(e, n))
  {
    hide QueueAndSend, Appends;
    var g := e.(snd := e.snd.(appBuf := e.snd.appBuf[n..]));
    Silent(e, g);
    QueueAppends(g, ACK, e.snd.appBuf[..n], false);
    AppendsOn(e, g, SendChunk(e, n));
  }

  lemma {:induction false} PumpAppends(e: Engine)
    ensures Plainly(e, PumpData(e))
    decreases |e.snd.appBuf|
  {
    hide SendChunk, SendFin, UsableWindow, Appends;
    Silent(e, e);
    Silent(e, ArmPersist(e));
    FinAppends(e);
    if e.snd.appBuf != [] && e.snd.wnd != 0 && UsableWindow(e) > 0 {
      var n := Min(Min(e.snd.mss, UsableWindow(e)), |e.snd.appBuf|);
      if !(e.cfg.timers.nagle && e.snd.retx != [] && n < e.snd.mss) {
        ChunkAppends(e, n);
        ChunkTakes(e, n);
        PumpAppends(SendChunk(e, n));
        AppendsOn(e, SendChunk(e, n), PumpData(e));
      }
    }
  }

  lemma SendAppends(e: Engine)
    ensures Plainly(e, SendPending(e)) && Plainly(e, CancelPersist(e))
  {
    hide PumpData, Appends;
    var f := e.(tm := e.tm.(persist := None));
    Silent(e, e);
    Silent(e, f);
    PumpAppends(e);
    PumpAppends(f);
    AppendsOn(e, f, PumpData(f));
  }

  // ---------------------------------------------------------------------------------------------
  // Receiving
  // ---------------------------------------------------------------------------------------------

  lemma {:induction false} MergeKeepsWire(e: Engine)
    ensures LeavesWire(e, Merge(e)) && Merge(e).tm == e.tm && Merge(e).passive == e.passive
    decreases |e.rcv.ooo|
  {
    hide Appends;
    var i := FirstMergeable(e.rcv.ooo, e.rcv.nxt);
    Silent(e, e);
    if i < |e.rcv.ooo| {
      Silent(e, MergeStep(e, i));
      MergeKeepsWire(MergeStep(e, i));
      AppendsOn(e, MergeStep(e, i), Merge(e));
    }
  }

  lemma PlaceAppends(e: Engine, sn: u32, data: seq<byte>)
    ensures Plainly(e, Place(e, sn, data))
  {
    hide ScheduleAck, Merge, Appends;
    var d, s := Deliver(e, data), StoreOoo(e, sn, data);
    Silent(e, d);
    MergeKeepsWire(d);
    AppendsOn(e, d, Merge(d));
    AnswerAppends(Merge(d), false);
    AppendsOn(e, Merge(d), ScheduleAck(Merge(d), false));
    Silent(e, s);
    AnswerAppends(s, true);
    AppendsOn(e, s, ScheduleAck(s, true));
  }

  lemma DataAppends(e: Engine, seg: Segment)
    ensures Plainly(e, RecvData(e, seg))
  {
    hide ScheduleAck, Place, RcvWnd, S32, Sub, Add, Appends;
    Silent(e, e);
    AnswerAppends(e, true);
    if seg.payload != [] {
      var stale := SeqLt(seg.seqNo, e.rcv.nxt);
      var off := if stale then Sub(e.rcv.nxt, seg.seqNo) else 0;
      if off < |seg.payload| {
        var data := seg.payload[off..];
        var sn := if stale then e.rcv.nxt else seg.seqNo;
        var space := S32(Sub(Add(e.rcv.nxt, RcvWnd(e)), sn));
        if space > 0 { PlaceAppends(e, sn, data[..Min(space, |data|)]); }
      }
    }
  }

  // ---------------------------------------------------------------------------------------------
  // Closing
  // ---------------------------------------------------------------------------------------------

  lemma StopsAppends(e: Engine)
    ensures Plainly(e, CancelPersist(StopRt(e)))
  {
    hide CancelPersist, Appends;
    Silent(e, StopRt(e));
    SendAppends(StopRt(e));
    AppendsOn(e, StopRt(e), CancelPersist(StopRt(e)));
  }

  lemma CloseAppends(e: Engine)
    ensures Plainly(e, EnterClosed(e))
  {
    hide CancelPersist, Appends;
    StopsAppends(e);
    var c := CancelPersist(StopRt(e));
    Silent(c, EnterClosed(e));
    AppendsOn(e, c, EnterClosed(e));
  }

  lemma TimeWaitAppends(e: Engine)
    ensures Plainly(e, EnterTimeWait(e))
  {
    hide CancelPersist, SetState, Appends;
    StopsAppends(e);
    var c := CancelPersist(StopRt(e));
    StateKeepsWire(c, TIME_WAIT);
    AppendsOn(e, c, SetState(c, TIME_WAIT));
    Silent(SetState(c, TIME_WAIT), EnterTimeWait(e));
    AppendsOn(e, SetState(c, TIME_WAIT), EnterTimeWait(e));
  }

  lemma ErrorAppends(e: Engine, why: ErrorSignal)
    ensures Plainly(e, EnterClosed(SignalError(e, why)))
  {
    hide EnterClosed, Appends;
    Silent(e, SignalError(e, why));
    CloseAppends(SignalError(e, why));
    AppendsOn(e, SignalError(e, why), EnterClosed(SignalError(e, why)));
  }

  lemma ListenAgainAppends(e: Engine)
    ensures Plainly(e, BackToListen(e))
  {
    hide CancelPersist, SetState, Appends;
    StateKeepsWire(e, LISTEN);
    var g := SetState(e, LISTEN);
    Silent(g, ResetBuffers(g));
    AppendsOn(e, g, ResetBuffers(g));
    StopsAppends(ResetBuffers(g));
    var c := CancelPersist(StopRt(ResetBuffers(g)));
    AppendsOn(e, ResetBuffers(g), c);
    Silent(c, BackToListen(e));
    AppendsOn(e, c, BackToListen(e));
  }

  lemma ResetAppends(e: Engine)
    ensures Plainly(e, DoReset(e))
  {
    hide BackToListen, EnterClosed, Appends;
    ListenAgainAppends(e);
    ErrorAppends(e, ConnectionRefused);
    ErrorAppends(e, ConnectionReset);
  }

  lemma GiveUpAppends(e: Engine, why: ErrorSignal)
    ensures Plainly(e, SendRst(e)) && Plainly(e, GiveUp(e, why))
  {
    hide EnterClosed, Emit, Appends;
    Silent(e, e);
    EmitAppends(e, e.snd.nxt, RST, [], false);
    ErrorAppends(SendRst(e), why);
    AppendsOn(e, SendRst(e), GiveUp(e, why));
  }

  lemma ProcessFinAppends(e: Engine)
    ensures Plainly(e, ProcessFin(e))
  {
    hide SendAck, SetState, EnterTimeWait, Appends;
    var g := TakeFin(e);
    Silent(e, g);
    AnswerAppends(g, true);
    var f := SendAck(g);
    AppendsOn(e, g, f);
    StateKeepsWire(f, CLOSE_WAIT);
    StateKeepsWire(f, CLOSING);
    TimeWaitAppends(f);
    if StateAfterFin(f) != f { AppendsOn(e, f, StateAfterFin(f)); }
  }

  lemma NoteAppends(h: Engine, seg: Segment)
    ensures Plainly(h, CheckPendingFin(NoteFin(h, seg)))
  {
    hide ProcessFin, Appends;
    ProcessFinAppends(h);
    var n := NoteFin(h, seg);
    if n != ProcessFin(h) { Silent(h, n); }
    ProcessFinAppends(n);
    if n.rcv.pendingFin == Some(n.rcv.nxt) { AppendsOn(h, n, ProcessFin(n)); }
  }

  lemma TextAppends(e: Engine, seg: Segment)
    ensures Plainly(e, TextAndFin(e, seg))
  {
    hide RecvData, SendPending, NoteFin, CheckPendingFin, Appends;
    DataAppends(e, seg);
    Silent(e, e);
    var takes := e.state == ESTABLISHED || e.state == FIN_WAIT_1 || e.state == FIN_WAIT_2;
    var g := if takes then RecvData(e, seg) else e;
    SendAppends(g);
    AppendsOn(e, g, SendPending(g));
    NoteAppends(SendPending(g), seg);
    AppendsOn(e, SendPending(g), TextAndFin(e, seg));
  }

  // ---------------------------------------------------------------------------------------------
  // Segments
  // ---------------------------------------------------------------------------------------------

  lemma AckKeepsWire(e: Engine, ack: u32)
    ensures Appends(e, ProcessAck(e, ack)) && ProcessAck(e, ack).wire == e.wire && ProcessAck(e, ack).passive == e.passive
  {
    hide Trim, RttSample, TakesSample, Appends;
    Silent(e, ProcessAck(e, ack));
  }

  lemma EstablishAppends(e: Engine, seg: Segment)
    ensures Appends(e, Establish(e, seg))
  {
    hide ProcessAck, SetState, Merge, SendPending, Appends;
    AckKeepsWire(e, seg.ackNo);
    var f := ProcessAck(e, seg.ackNo);
    var g := f.(snd := f.snd.(wnd := seg.window, wl1 := seg.seqNo, wl2 := seg.ackNo));
    Silent(f, g);
    AppendsOn(e, f, g);
    StateKeepsWire(g, ESTABLISHED);
    var k := SetState(g, ESTABLISHED);
    AppendsOn(e, g, k);
    MergeKeepsWire(k);
    AppendsOn(e, k, Merge(k));
    SendAppends(Merge(k));
    AppendsOn(e, Merge(k), Establish(e, seg));
  }

  lemma AckStepAppends(e: Engine, seg: Segment)
    ensures Appends(e, AckAndWindow(e, seg))
  {
    hide ProcessAck, CancelPersist, SeqGt, SeqLt, SeqLeq, Appends;
    Silent(e, e);
    AckKeepsWire(e, seg.ackNo);
    var g := if SeqGt(seg.ackNo, e.snd.una) then ProcessAck(e, seg.ackNo) else e;
    var h := g.(snd := g.snd.(wnd := seg.window, wl1 := seg.seqNo, wl2 := seg.ackNo));
    Silent(g, h);
    AppendsOn(e, g, h);
    SendAppends(h);
    AppendsOn(e, h, CancelPersist(h));
  }

  lemma AfterAckAppends(e: Engine, seg: Segment)
    ensures Plainly(e, AfterAck(e, seg))
  {
    hide TextAndFin, EnterTimeWait, EnterClosed, SetState, Appends;
    StateKeepsWire(e, FIN_WAIT_2);
    var m := SetState(e, FIN_WAIT_2);
    TextAppends(m, seg);
    AppendsOn(e, m, TextAndFin(m, seg));
    TextAppends(e, seg);
    TimeWaitAppends(e);
    CloseAppends(e);
  }

  lemma HandleAckAppends(e: Engine, seg: Segment)
    ensures Appends(e, HandleAck(e, seg))
  {
    hide Establish, TextAndFin, EmitRstReply, SendAck, AckAndWindow, AfterAck, SeqLt, SeqLeq, SeqGt, Appends;
    EstablishAppends(e, seg);
    TextAppends(Establish(e, seg), seg);
    AppendsOn(e, Establish(e, seg), TextAndFin(Establish(e, seg), seg));
    RstReplyAppends(e, seg, seg.ackNo, 0, false);
    AnswerAppends(e, true);
    AckStepAppends(e, seg);
    AfterAckAppends(AckAndWindow(e, seg), seg);
    AppendsOn(e, AckAndWindow(e, seg), AfterAck(AckAndWindow(e, seg), seg));
  }

  lemma WaitingAppends(e: Engine, seg: Segment)
    ensures Plainly(e, HandleTimeWait(e, seg))
  {
    hide SendAck, EnterClosed, Appends;
    CloseAppends(e);
    AnswerAppends(e, true);
    Silent(SendAck(e), RestartTimeWait(SendAck(e)));
    AppendsOn(e, SendAck(e), RestartTimeWait(SendAck(e)));
  }

  lemma SynchronizedAppends(e: Engine, seg: Segment)
    ensures Appends(e, HandleSynchronized(e, seg))
  {
    hide SendAck, DoReset, HandleAck, HandleTimeWait, Acceptable, RcvWnd, Appends;
    Silent(e, e);
    WaitingAppends(e, seg);
    AnswerAppends(e, true);
    ResetAppends(e);
    HandleAckAppends(e, seg);
  }

  lemma TakeSynKeepsWire(e: Engine, seg: Segment)
    ensures var f := TakeSyn(e, seg); Appends(e, f) && f.wire == e.wire && f.passive == e.passive
  {
    hide ProcessAck, PeerMss, Appends;
    var f := e.(rcv := e.rcv.(irs := seg.seqNo, nxt := Add(seg.seqNo, 1)), snd := e.snd.(mss := PeerMss(e, seg)));
    Silent(e, f);
    Silent(f, f);
    AckKeepsWire(f, seg.ackNo);
    var g := if seg.flags.ack then ProcessAck(f, seg.ackNo) else f;
    AppendsOn(e, f, g);
    Silent(g, TakeSyn(e, seg));
    AppendsOn(e, g, TakeSyn(e, seg));
  }

  lemma SimultaneousAppends(e: Engine, seg: Segment)
    ensures Plainly(e, SimultaneousOpen(e, seg))
  {
    hide SetState, Emit, Appends, Subsumed;
    StateKeepsWire(e, SYN_RECEIVED);
    var g := SetState(e, SYN_RECEIVED);
    var f := HoldSynData(SynBecomesSynAck(g), seg);
    Silent(g, f);
    AppendsOn(e, g, f);
    EmitAppends(f, f.snd.iss, SYN_ACK, [], true);
    AppendsOn(e, f, SimultaneousOpen(e, seg));
  }

  lemma SynSentAppends(e: Engine, seg: Segment)
    ensures Appends(e, HandleSynSent(e, seg))
  {
    hide EmitRstReply, EnterClosed, TakeSyn, SendPending, SendAck, SetState, HandleSynchronized, SimultaneousOpen;
    hide SeqLeq, SeqGt, Between, Appends;
    Silent(e, e);
    RstReplyAppends(e, seg, seg.ackNo, 0, false);
    ErrorAppends(e, ConnectionRefused);
    TakeSynKeepsWire(e, seg);
    var f := TakeSyn(e, seg);
    var m := SetState(f, ESTABLISHED);
    StateKeepsWire(f, ESTABLISHED);
    AppendsOn(e, f, m);
    AnswerAppends(m, true);
    AppendsOn(e, m, SendAck(m));
    SendAppends(SendAck(m));
    var g := SendPending(SendAck(m));
    AppendsOn(e, SendAck(m), g);
    var cont := seg.(flags := seg.flags.(syn := false), seqNo := Add(seg.seqNo, 1));
    SynchronizedAppends(g, cont);
    AppendsOn(e, g, HandleSynchronized(g, cont));
    SimultaneousAppends(f, seg);
    AppendsOn(e, f, SimultaneousOpen(f, seg));
  }

  lemma ListenAppends(e: Engine, seg: Segment)
    ensures Plainly(e, HandleListen(e, seg))
  {
    hide EmitRstReply, SetState, QueueAndSend, Appends, PeerMss;
    Silent(e, e);
    RstReplyAppends(e, seg, seg.ackNo, 0, false);
    var g := AnswerSyn(e.(remotePort := if e.remotePort == 0 then seg.srcPort else e.remotePort), seg);
    Silent(e, g);
    StateKeepsWire(g, SYN_RECEIVED);
    var k := SetState(g, SYN_RECEIVED);
    AppendsOn(e, g, k);
    QueueAppends(k, SYN_ACK, [], true);
    AppendsOn(e, k, QueueAndSend(k, SYN_ACK, [], true));
  }

  lemma SegmentAppends(e: Engine, seg: Segment)
    ensures Appends(e, OnSegment(e, seg))
  {
    hide HandleClosed, HandleListen, HandleSynSent, HandleSynchronized, Appends, ForUs;
    Silent(e, e);
    var f := if e.state == ESTABLISHED then RestartKeepalive(e, true) else e;
    Silent(e, f);
    NoneAppends(f, seg);
    ListenAppends(f, seg);
    SynSentAppends(f, seg);
    SynchronizedAppends(f, seg);
    if ForUs(e, seg) { AppendsOn(e, f, OnSegment(e, seg)); }
  }

  lemma NoneAppends(e: Engine, seg: Segment)
    ensures Plainly(e, HandleClosed(e, seg))
  {
    hide EmitRstReply, Appends;
    Silent(e, e);
    RstReplyAppends(e, seg, seg.ackNo, 0, false);
    RstReplyAppends(e, seg, 0, Add(seg.seqNo, seg.SegLen()), true);
  }

  // ---------------------------------------------------------------------------------------------
  // Calls
  // ---------------------------------------------------------------------------------------------

  lemma OpenAppends(e: Engine)
    ensures Plainly(e, EngineSpec.Open(e))
  {
    hide QueueAndSend, SetState, Appends;
    var g := e.(passive := false, snd := e.snd.(iss := e.cfg.iss, una := e.cfg.iss, nxt := e.cfg.iss, wnd := 0),
                hist := e.hist.(started := true, unaPos := 0, since := |e.wire|));
    Silent(e, g);
    StateKeepsWire(g, SYN_SENT);
    AppendsOn(e, g, SetState(g, SYN_SENT));
    QueueAppends(SetState(g, SYN_SENT), SYN, [], true);
    AppendsOn(e, SetState(g, SYN_SENT), EngineSpec.Open(e));
  }

  /** The engine with the user timeout that a call gives, if it gives one. */
  function WithTimeout(e: Engine, t: Option<real>): Engine {
    e.(tm := e.tm.(userTimeout := if t.Some? then t else e.tm.userTimeout))
  }

  /** `f` is like an engine to which `e` appends, but a passive OPEN was made. */
  ghost predicate Opens(e: Engine, f: Engine) { Plainly(e, f.(passive := false)) && (e.state != CLOSED ==> Plainly(e, f)) }

  lemma OpenCallAppends(e: Engine, act: bool, r: Option<u16>, l: Option<u16>, t: Option<real>)
    ensures Opens(WithTimeout(e, t), OpenCall(e, act, r, l, t).0)
  {
    hide EngineSpec.Open, SetState, Appends;
    var a := WithTimeout(e, t);
    var f := a.(remotePort := if r.Some? then r.value else e.remotePort, localPort := if l.Some? then l.value else e.localPort);
    Silent(a, f);
    Silent(a, f.(passive := false));
    var o := EngineSpec.Open(f);
    OpenAppends(f);
    AppendsOn(a, f, o);
    Silent(o, o.(passive := false));
    AppendsOn(a, o, o.(passive := false));
    if f.state == CLOSED {
      var p := f.(passive := true, hist := f.hist.(started := true));
      StateKeepsWire(p, LISTEN);
      PassiveKeepsWire(a, p, SetState(p, LISTEN));
    }
  }

  lemma PassiveKeepsWire(e: Engine, p: Engine, f: Engine)
    requires LeavesWire(p, f) && p.wire == e.wire && p.tm == e.tm && p.rtt == e.rtt && p.cfg == e.cfg
    requires p.rcv == e.rcv && p.state == e.state && p.hist.unaPos == e.hist.unaPos
    ensures Plainly(e, f.(passive := false))
  {
  }

  /** SEND takes the data: it is not refused, or only for want of a foreign socket. */
  predicate TakesData(e: Engine) { e.state != CLOSED && !IsClosing(e.state) && !e.snd.finPending }

  lemma SendCallAppends(e: Engine, data: seq<byte>, t: Option<real>)
    ensures Plainly(if TakesData(e) then WithTimeout(e, t) else e, Send(e, data, t).0)
  {
    hide EngineSpec.Open, SendPending, Appends;
    var a := WithTimeout(e, t);
    var f := Buffer(a, data);
    Silent(e, e);
    Silent(a, f);
    OpenAppends(f);
    AppendsOn(a, f, EngineSpec.Open(f));
    SendAppends(f);
    AppendsOn(a, f, SendPending(f));
  }

  lemma CloseCallAppends(e: Engine)
    ensures Plainly(e, Close(e).0)
  {
    hide SendPending, EnterClosed, Appends;
    Silent(e, e);
    CloseAppends(e);
    var f := e.(snd := e.snd.(finPending := true));
    Silent(e, f);
    SendAppends(f);
    AppendsOn(e, f, SendPending(f));
  }

  lemma AbortAppends(e: Engine)
    ensures Plainly(e, Abort(e).0)
  {
    hide SendRst, EnterClosed, Appends;
    Silent(e, e);
    GiveUpAppends(e, UserTimeout);
    CloseAppends(SendRst(e));
    AppendsOn(e, SendRst(e), EnterClosed(SendRst(e)));
  }

  /** RECEIVE: as everything else, but that it forgets an offer of nothing when it makes a better one. */
  lemma ReceiveAppends(e: Engine, n: nat)
    ensures var f := Receive(e, n).0;
            && e.wire <= f.wire && f.passive == e.passive && Rearms(e, f) && f.rtt == e.rtt
            && (((e.rcv.zeroWin ==> f.rcv.zeroWin) && f.wire == e.wire)
                || (|f.wire| == |e.wire| + 1 && !f.wire[|e.wire|].seg.flags.rst && f.wire[|e.wire|].seg.window > 0))
  {
    hide AdvertisedRight, PosOf, RcvWnd, Reach;
    var m := Min(n, |e.rcv.buf|);
    var g := e.(rcv := e.rcv.(buf := e.rcv.buf[m..]));
    OfferUnmarked(g);
    assert SendAck(g.(rcv := g.rcv.(zeroWin := false))).wire[..|e.wire|] == e.wire;
  }

  lemma OfferUnmarked(e: Engine)
    ensures RcvWnd(e.(rcv := e.rcv.(zeroWin := false))) == RcvWnd(e)
  {
  }

  // ---------------------------------------------------------------------------------------------
  // Timers
  // ---------------------------------------------------------------------------------------------

  /** One more timeout counts, if there is anything to retransmit and the user timeout has not passed. */
  function Counting(e: Engine): Engine {
    if e.snd.retx == [] || UserTimedOut(e) then e else e.(tm := e.tm.(rtoCount := e.tm.rtoCount + 1))
  }

  lemma RtoAppends(e: Engine)
    ensures Appends(Counting(e), OnRto(e))
  {
    hide GiveUp, Retransmit, UserTimedOut, Appends;
    var f := e.(tm := e.tm.(rt := None));
    TimeoutSame(e, f);
    RtoStarts(e);
    GiveUpAppends(f, UserTimeout);
    AppendsOn(e, f, GiveUp(f, UserTimeout));
    var c := e.(tm := e.tm.(rtoCount := e.tm.rtoCount + 1));
    RtoStarts(c);
    var g := f.(tm := f.tm.(rtoCount := f.tm.rtoCount + 1));
    GiveUpAppends(g, RetransmissionTimeout);
    AppendsOn(c, g, GiveUp(g, RetransmissionTimeout));
    if g.snd.retx != [] {
      RetransmitAppends(g);
      AppendsOn(c, g, Retransmit(g));
    }
  }

  lemma RtoStarts(e: Engine)
    ensures Appends(e, e.(tm := e.tm.(rt := None)))
  {
    hide Appends;
    Silent(e, e.(tm := e.tm.(rt := None)));
  }

  lemma TimeoutSame(e: Engine, f: Engine)
    requires f == e.(tm := e.tm.(rt := None))
    ensures UserTimedOut(f) <==> UserTimedOut(e)
  {
  }

  lemma RetransmitAppends(e: Engine)
    requires e.snd.retx != [] && e.tm.rt == None
    ensures Appends(e, Retransmit(e))
  {
    hide Emit, Appends;
    var o := e.snd.retx[0].(retransmitted := true, sentTime := e.tm.now, copies := e.snd.retx[0].copies + 1);
    var f := e.(rtt := RttBackoff(e.cfg.timers, e.rtt), snd := e.snd.(rttPending := None, retx := [o] + e.snd.retx[1..]));
    Silent(e, f);
    EmitAppends(f, o.seqNo, o.flags, o.payload, o.flags.syn);
    var g := Emit(f, o.seqNo, o.flags, o.payload, o.flags.syn);
    AppendsOn(e, f, g);
    Silent(g, Retransmit(e));
    AppendsOn(e, g, Retransmit(e));
  }

  /** As everything else, but that a probe may be timed in its own way. */
  ghost predicate Loosely(e: Engine, f: Engine) {
    && e.wire <= f.wire && (f.passive ==> e.passive) && f.rtt == e.rtt && RearmsMost(e, f) && RenewsAll(e.tm, f.tm)
    && (e.rcv.zeroWin ==> f.rcv.zeroWin) && NotedIn(f.wire, |e.wire|, f.rcv.zeroWin)
  }

  lemma PlainIsLoose(e: Engine, f: Engine)
    requires Plainly(e, f)
    ensures Loosely(e, f)
  {
    hide Rearms, RearmsMost, RenewsAll;
    RearmsRenews(e, f);
    assert RearmsMost(e, f) by { RearmsIs(e, f); }
  }

  lemma RearmsIs(e: Engine, f: Engine)
    requires Rearms(e, f)
    ensures RearmsMost(e, f)
  {
  }

  lemma LooselyOn(e: Engine, m: Engine, f: Engine)
    requires Loosely(e, m) && Loosely(m, f)
    ensures Loosely(e, f)
  {
  }

  lemma Loose(e: Engine, f: Engine)
    requires f.wire == e.wire && f.passive == e.passive && f.rtt == e.rtt && RearmsMost(e, f) && RenewsAll(e.tm, f.tm)
    requires f.rcv.zeroWin == e.rcv.zeroWin
    ensures Loosely(e, f)
  {
  }

  lemma PersistAppends(e: Engine)
    ensures Loosely(e, OnPersist(e))
  {
    hide SendPending, SendChunk, SendFin, Plainly, Loosely;
    var f := e.(tm := e.tm.(persist := None));
    Loose(e, f);
    SendAppends(f);
    PlainIsLoose(f, SendPending(f));
    LooselyOn(e, f, SendPending(f));
    FinAppends(f);
    ProbeLoose(e, f, SendFin(f));
    if f.snd.appBuf != [] {
      ChunkAppends(f, 1);
      ProbeLoose(e, f, SendChunk(f, 1));
    }
  }

  lemma ProbeLoose(e: Engine, f: Engine, g: Engine)
    requires Loosely(e, f) && Plainly(f, g)
    ensures Loosely(e, RearmPersist(g))
  {
    hide Plainly, Loosely;
    PlainIsLoose(f, g);
    Loose(g, RearmPersist(g));
    LooselyOn(e, f, g);
    LooselyOn(e, g, RearmPersist(g));
  }

  lemma KeepaliveAppends(e: Engine)
    ensures Loosely(e, OnKeepalive(e))
  {
    hide GiveUp, Emit, Plainly, Loosely, RestartKeepalive;
    var f := e.(tm := e.tm.(ka := None));
    Loose(e, f);
    GiveUpAppends(f, KeepaliveTimeout);
    PlainIsLoose(f, GiveUp(f, KeepaliveTimeout));
    LooselyOn(e, f, GiveUp(f, KeepaliveTimeout));
    RestartLoose(f);
    LooselyOn(e, f, RestartKeepalive(f, false));
    EmitAppends(f, Sub(f.snd.una, 1), ACK, [], false);
    var g := Emit(f, Sub(f.snd.una, 1), ACK, [], false);
    PlainIsLoose(f, g);
    LooselyOn(e, f, g);
    var c := g.(tm := g.tm.(kaProbes := g.tm.kaProbes + 1));
    Loose(g, c);
    LooselyOn(e, g, c);
    RestartLoose(c);
    LooselyOn(e, c, RestartKeepalive(c, false));
  }

  lemma RestartLoose(e: Engine)
    ensures Loosely(e, RestartKeepalive(e, false))
  {
    hide Loosely;
    Loose(e, RestartKeepalive(e, false));
  }

  // ---------------------------------------------------------------------------------------------
  // Steps
  // ---------------------------------------------------------------------------------------------

  /** The calls and timers that have something of their own to say. */
  predicate Special(ev: Event) { ev.OpenCalled? || ev.SendCalled? || ev.ReceiveCalled? || ev.PersistFires? || ev.KeepaliveFires? }

  lemma PlainSteps(e: Engine, ev: Event)
    requires !Special(ev)
    ensures Appends(Called(e, ev), React(e, ev))
  {
    hide Close, Abort, OnSegment, OnRto, EnterClosed, SendAck, Appends;
    match ev
    case CloseCalled => CloseCallAppends(e);
    case AbortCalled => AbortAppends(e);
    case Arrives(seg) => SegmentAppends(e, seg);
    case RtoFires => RtoAppends(e);
    case TimeWaitFires =>
      var f := e.(tm := e.tm.(tw := None));
      Silent(e, f);
      CloseAppends(f);
      AppendsOn(e, f, EnterClosed(f));
    case DelackFires =>
      var f := e.(tm := e.tm.(ack := None));
      Silent(e, f);
      AnswerAppends(f, true);
      AppendsOn(e, f, SendAck(f));
  }

  /** A deadline stays, is dropped, or is a new one from now on. */
  predicate Renews(d: Option<real>, d': Option<real>, now: real) { d' == d || (d'.Some? ==> d'.value >= now) }

  predicate RenewsAll(t: Timers, t': Timers) {
    && t'.now == t.now && Renews(t.rt, t'.rt, t.now) && Renews(t.persist, t'.persist, t.now) && Renews(t.tw, t'.tw, t.now)
    && Renews(t.ack, t'.ack, t.now) && Renews(t.ka, t'.ka, t.now)
  }

  lemma RearmsRenews(e: Engine, f: Engine)
    requires Rearms(e, f)
    ensures RenewsAll(e.tm, f.tm)
  {
  }

  /** The engine once the call has set its user timeout, if it sets one, or the timeout is counted. */
  function Called(e: Engine, ev: Event): Engine {
    match ev
    case OpenCalled(_, _, _, t) => WithTimeout(e, t)
    case SendCalled(_, t) => if TakesData(e) then WithTimeout(e, t) else e
    case RtoFires => Counting(e)
    case _ => e
  }

  lemma SpecialSteps(e: Engine, ev: Event)
    requires Special(ev)
    ensures var a, f := Called(e, ev), React(e, ev);
            && e.wire <= f.wire && (e.state != CLOSED && f.passive ==> e.passive) && RearmsMost(a, f) && RenewsAll(a.tm, f.tm)
            && (!ev.PersistFires? && !ev.KeepaliveFires? ==> Rearms(a, f))
            && (!ev.ReceiveCalled? ==> (e.rcv.zeroWin ==> f.rcv.zeroWin) && NotedIn(f.wire, |e.wire|, f.rcv.zeroWin))
  {
    hide OpenCall, Send, Receive, OnPersist, OnKeepalive, RearmsMost, RenewsAll, NotedIn, TakesData;
    var a, f := Called(e, ev), React(e, ev);
    match ev
    case OpenCalled(act, r, l, t) =>
      OpenCallAppends(e, act, r, l, t);
      RearmsRenews(a, f.(passive := false));
      assert RearmsMost(a, f.(passive := false)) ==> RearmsMost(a, f) by { PassiveIgnored(a, f); }
    case SendCalled(d, t) =>
      SendCallAppends(e, d, t);
      RearmsRenews(a, f);
    case ReceiveCalled(n) =>
      ReceiveAppends(e, n);
      RearmsRenews(e, f);
    case PersistFires => PersistAppends(e);
    case KeepaliveFires => KeepaliveAppends(e);
  }

  lemma PassiveIgnored(a: Engine, f: Engine)
    ensures RearmsMost(a, f.(passive := false)) <==> RearmsMost(a, f)
  {
  }

  /** Every entry point only appends to what was sent, and starts timers only as they should be. */
  lemma ReactAppends(e: Engine, ev: Event)
    ensures var a, f := Called(e, ev), React(e, ev);
            && e.wire <= f.wire && (e.state != CLOSED && f.passive ==> e.passive) && RearmsMost(a, f) && RenewsAll(a.tm, f.tm)
            && (!ev.PersistFires? && !ev.KeepaliveFires? ==> Rearms(a, f))
            && (!ev.ReceiveCalled? ==> (e.rcv.zeroWin ==> f.rcv.zeroWin) && NotedIn(f.wire, |e.wire|, f.rcv.zeroWin))
  {
    hide React, RearmsMost, RenewsAll, NotedIn;
    if Special(ev) {
      SpecialSteps(e, ev);
    } else {
      PlainSteps(e, ev);
      RearmsRenews(Called(e, ev), React(e, ev));
    }
  }

  /** Every entry point only appends to what was sent, starts no timer with a deadline past, and turns an engine passive only
      before the connection. */
  lemma StepAppends(e: Engine, now: real, ev: Event)
    ensures e.wire <= Step(e, now, ev).wire && RenewsAll(At(e, now).tm, Step(e, now, ev).tm)
    ensures e.state != CLOSED && Step(e, now, ev).passive ==> e.passive
  {
    hide React, Rearms, RearmsMost, RenewsAll, NotedIn;
    ReactAppends(At(e, now), ev);
    TimeoutRenews(At(e, now), ev, Step(e, now, ev));
  }

  lemma TimeoutRenews(e: Engine, ev: Event, f: Engine)
    requires RenewsAll(Called(e, ev).tm, f.tm)
    ensures RenewsAll(e.tm, f.tm)
  {
  }
}
