/** How long an engine tries: while no acknowledgement advances and no reset arrives, it retransmits exactly
    `maxRetransmits` times, at intervals that double up to the maximum, and then gives up. */
module GiveUpBound {
  import opened SeqNum
  import opened EngineState
  import opened EngineSpec
  import opened EngineFacts
  import opened SendInvariant
  import opened SendPath
  import opened AckPath
  import opened RecvPath
  import opened EngineInvariant
  import opened SegmentArrives
  import opened Opening
  import opened EngineRuns
  import S = Scheduler

  // ---------------------------------------------------------------------------------------------
  // The intervals
  // ---------------------------------------------------------------------------------------------

  function Pow2(i: nat): real { if i == 0 then 1.0 else 2.0 * Pow2(i - 1) }

  /** The `i`-th interval, counted from 0. */
  function Interval(r: real, max: real, i: nat): real { MinR(Pow2(i) * r, max) }

  /** When the `k`-th timeout is due, counted from 0. */
  function DueAt(t0: real, r: real, max: real, k: nat): real {
    Interval(r, max, k) + if k == 0 then t0 else DueAt(t0, r, max, k - 1)
  }

  lemma {:induction false} Pow2AtLeastOne(i: nat)
    ensures Pow2(i) >= 1.0
  {
    if i > 0 { Pow2AtLeastOne(i - 1); }
  }

  /** Doubling and capping steps through the intervals. */
  lemma Doubles(r: real, max: real, i: nat)
    requires 0.0 <= r <= max
    ensures MinR(Interval(r, max, i) * 2.0, max) == Interval(r, max, i + 1) >= 0.0
  {
    Pow2AtLeastOne(i);
    assert Pow2(i + 1) * r == Pow2(i) * r * 2.0;
    assert Pow2(i) * r >= 0.0;
  }

  lemma {:induction false} DueAtGrows(t0: real, r: real, max: real, j: nat, k: nat)
    requires 0.0 <= r <= max && j <= k
    ensures DueAt(t0, r, max, j) <= DueAt(t0, r, max, k)
    decreases k
  {
    if j < k {
      DueAtGrows(t0, r, max, j, k - 1);
      Doubles(r, max, k - 1);
    }
  }

  // ---------------------------------------------------------------------------------------------
  // What leaves the retransmission timer running
  // ---------------------------------------------------------------------------------------------

  /** The timer runs on as it was, for something still unacknowledged. */
  predicate RunsOn(e: Engine, f: Engine) {
    && f.tm.rt == e.tm.rt && f.tm.rtoCount == e.tm.rtoCount && f.rtt == e.rtt && f.cfg == e.cfg
    && f.tm.now == e.tm.now && f.snd.retx != [] && f.snd.una == e.snd.una && f.hist.unaPos == e.hist.unaPos
    && f.tm.userTimeout == e.tm.userTimeout && f.tm.unaSince == e.tm.unaSince
  }

  predicate Waits(e: Engine) { e.tm.rt.Some? && e.snd.retx != [] }

  lemma QueueRunsOn(e: Engine, flags: Flags, payload: seq<byte>, withMss: bool)
    requires Waits(e)
    ensures RunsOn(e, QueueAndSend(e, flags, payload, withMss)) && QueueAndSend(e, flags, payload, withMss).state == e.state
  {
    hide RcvWnd, AdvertisedRight, PosOf;
  }

  lemma SetStateRunsOn(e: Engine, to: ConnState)
    requires Waits(e)
    ensures RunsOn(e, SetState(e, to)) && SetState(e, to).state == to
  {
  }

  lemma SendFinRunsOn(e: Engine)
    requires Waits(e)
    ensures RunsOn(e, SendFin(e)) && SendFin(e).state == FinState(e.state)
  {
    hide QueueAndSend, SetState;
    var g := e.(snd := e.snd.(finSeq := e.snd.nxt));
    QueueRunsOn(g, FIN_ACK, [], false);
    var h := QueueAndSend(g, FIN_ACK, [], false);
    SetStateRunsOn(h.(snd := h.snd.(finSent := true)), FinState(h.state));
  }

  /** States in which something can be unacknowledged. */
  predicate OpenStill(s: ConnState) { Active(s) && s != FIN_WAIT_2 && s != TIME_WAIT }

  lemma {:induction false} PumpRunsOn(e: Engine)
    requires Waits(e) && OpenStill(e.state)
    ensures RunsOn(e, PumpData(e)) && OpenStill(PumpData(e).state)
    decreases |e.snd.appBuf|
  {
    hide QueueAndSend, SendFin, UsableWindow;
    if e.snd.appBuf == [] {
      SendFinRunsOn(e);
    } else if e.snd.wnd != 0 && UsableWindow(e) > 0 {
      var n := Min(Min(e.snd.mss, UsableWindow(e)), |e.snd.appBuf|);
      if !(e.cfg.timers.nagle && e.snd.retx != [] && n < e.snd.mss) {
        var g := e.(snd := e.snd.(appBuf := e.snd.appBuf[n..]));
        QueueRunsOn(g, ACK, e.snd.appBuf[..n], false);
        ChunkTakes(e, n);
        PumpRunsOn(SendChunk(e, n));
      }
    }
  }

  lemma SendPendingRunsOn(e: Engine)
    requires Waits(e) && OpenStill(e.state)
    ensures RunsOn(e, SendPending(e)) && OpenStill(SendPending(e).state)
  {
    hide PumpData;
    PumpRunsOn(e);
  }

  lemma AnswerRunsOn(e: Engine, force: bool)
    requires Waits(e)
    ensures RunsOn(e, SendAck(e)) && SendAck(e).state == e.state
    ensures RunsOn(e, ScheduleAck(e, force)) && ScheduleAck(e, force).state == e.state
  {
    hide RcvWnd, AdvertisedRight, PosOf;
  }

  lemma {:induction false} MergeRunsOn(e: Engine)
    requires Waits(e)
    ensures RunsOn(e, Merge(e)) && Merge(e).state == e.state
    decreases |e.rcv.ooo|
  {
    var i := FirstMergeable(e.rcv.ooo, e.rcv.nxt);
    if i < |e.rcv.ooo| { MergeRunsOn(MergeStep(e, i)); }
  }

  lemma RecvDataRunsOn(e: Engine, seg: Segment)
    requires Waits(e)
    ensures RunsOn(e, RecvData(e, seg)) && RecvData(e, seg).state == e.state
  {
    hide ScheduleAck, Merge, RcvWnd, S32, Sub, Add;
    AnswerRunsOn(e, true);
    if seg.payload != [] {
      var stale := SeqLt(seg.seqNo, e.rcv.nxt);
      var off := if stale then Sub(e.rcv.nxt, seg.seqNo) else 0;
      if off < |seg.payload| {
        var data := seg.payload[off..];
        var sn := if stale then e.rcv.nxt else seg.seqNo;
        var space := S32(Sub(Add(e.rcv.nxt, RcvWnd(e)), sn));
        if space > 0 { PlaceRunsOn(e, sn, data[..Min(space, |data|)]); }
      }
    }
  }

  lemma PlaceRunsOn(e: Engine, sn: u32, data: seq<byte>)
    requires Waits(e)
    ensures RunsOn(e, Place(e, sn, data)) && Place(e, sn, data).state == e.state
  {
    hide ScheduleAck, Merge, Deliver, StoreOoo;
    DeliverTouches(e, sn, data);
    MergeRunsOn(Deliver(e, data));
    AnswerRunsOn(Merge(Deliver(e, data)), false);
    AnswerRunsOn(StoreOoo(e, sn, data), true);
  }

  lemma DeliverTouches(e: Engine, sn: u32, data: seq<byte>)
    requires Waits(e)
    ensures RunsOn(e, Deliver(e, data)) && Deliver(e, data).state == e.state
    ensures RunsOn(e, StoreOoo(e, sn, data)) && StoreOoo(e, sn, data).state == e.state
  {
  }

  lemma TakeFinRunsOn(e: Engine)
    requires Waits(e)
    ensures RunsOn(e, TakeFin(e)) && TakeFin(e).state == e.state
  {
  }

  lemma ProcessFinRunsOn(e: Engine)
    requires Waits(e) && OpenStill(e.state)
    ensures RunsOn(e, ProcessFin(e)) && OpenStill(ProcessFin(e).state)
  {
    hide SendAck, SetState, TakeFin;
    var g := TakeFin(e);
    TakeFinRunsOn(e);
    AnswerRunsOn(g, true);
    var f := SendAck(g);
    if f.state == ESTABLISHED { SetStateRunsOn(f, CLOSE_WAIT); }
    if f.state == FIN_WAIT_1 { SetStateRunsOn(f, CLOSING); }
  }

  lemma FinRunsOn(e: Engine, seg: Segment)
    requires Waits(e) && OpenStill(e.state)
    ensures var f := CheckPendingFin(NoteFin(e, seg)); RunsOn(e, f) && OpenStill(f.state)
  {
    hide ProcessFin;
    ProcessFinRunsOn(e);
    var g := NoteFin(e, seg);
    ProcessFinRunsOn(g);
  }

  lemma TextRunsOn(e: Engine, seg: Segment)
    requires Waits(e) && OpenStill(e.state)
    ensures RunsOn(e, TextAndFin(e, seg)) && OpenStill(TextAndFin(e, seg).state)
  {
    hide RecvData, SendPending, NoteFin, CheckPendingFin;
    RecvDataRunsOn(e, seg);
    var takes := e.state == ESTABLISHED || e.state == FIN_WAIT_1 || e.state == FIN_WAIT_2;
    var g := if takes then RecvData(e, seg) else e;
    SendPendingRunsOn(g);
    FinRunsOn(SendPending(g), seg);
  }

  lemma WindowRunsOn(e: Engine, seg: Segment)
    requires Waits(e) && OpenStill(e.state)
    ensures RunsOn(e, UpdateWindow(e, seg)) && OpenStill(UpdateWindow(e, seg).state)
  {
    hide SendPending, SeqLt, SeqLeq;
    var f := e.(snd := e.snd.(wnd := seg.window, wl1 := seg.seqNo, wl2 := seg.ackNo));
    SendPendingRunsOn(f.(tm := f.tm.(persist := None)));
  }

  lemma RstReplyRunsOn(e: Engine, seg: Segment, sn: u32, ack: u32, ackFlag: bool)
    requires Waits(e)
    ensures RunsOn(e, EmitRstReply(e, seg, sn, ack, ackFlag)) && EmitRstReply(e, seg, sn, ack, ackFlag).state == e.state
  {
  }

  // ---------------------------------------------------------------------------------------------
  // Segments
  // ---------------------------------------------------------------------------------------------

  /** A segment that neither resets the connection nor acknowledges anything new. */
  predicate Idle(e: Engine, seg: Segment) {
    !seg.flags.rst && (seg.flags.ack ==> !(e.hist.unaPos < AckPos(e, seg.ackNo) <= SentEnd(e.hist)))
  }

  /** Something is unacknowledged, and the state is one in which that can be. */
  lemma WaitsOpen(e: Engine)
    requires Inv(e, None) && e.snd.retx != []
    ensures Waits(e) && OpenStill(e.state) && SendOk(e) && !e.snd.finAcked
    ensures e.hist.unaPos < SentEnd(e.hist)
  {
    hide WireOk, Trail, Wrap, Settled, EntryOk;
    TilesEmpty(e.snd.retx, e.snd.iss, e.hist.unaPos, e.hist);
  }

  lemma NotAcked(e: Engine, peer: Option<u32>)
    requires Running(e, peer) && e.snd.retx != []
    ensures !e.snd.finAcked
  {
    hide WireOk, Trail, Wrap, EntryOk;
    TilesEmpty(e.snd.retx, e.snd.iss, e.hist.unaPos, e.hist);
  }

  lemma HandleAckRunsOn(e: Engine, seg: Segment)
    requires Inv(e, None) && e.snd.retx != [] && Synced(e.state) && Idle(e, seg) && seg.flags.ack && seg.window < 0x1_0000
    ensures RunsOn(e, HandleAck(e, seg)) && OpenStill(HandleAck(e, seg).state)
  {
    hide Inv, Running, Establish, TextAndFin, EmitRstReply, SendAck, UpdateWindow, ProcessAck, SetState, EnterTimeWait, EnterClosed;
    WaitsOpen(e);
    RstReplyRunsOn(e, seg, seg.ackNo, 0, false);
    AnswerRunsOn(e, true);
    AckPosition(e, seg.ackNo);
    if e.state == SYN_RECEIVED {
      if SeqLt(e.snd.una, seg.ackNo) && SeqLeq(seg.ackNo, e.snd.nxt) {
        SynRcvdAck(e, seg.ackNo, None);
      }
    } else if !SeqGt(seg.ackNo, e.snd.nxt) {
      AckAndWindowOk(e, seg, None);
      WindowRunsOn(e, seg);
      var g := UpdateWindow(e, seg);
      NotAcked(g, None);
      TextRunsOn(g, seg);
    }
  }

  lemma HandleSynchronizedRunsOn(e: Engine, seg: Segment)
    requires Inv(e, None) && e.snd.retx != [] && Synced(e.state) && Idle(e, seg) && seg.window < 0x1_0000
    ensures RunsOn(e, HandleSynchronized(e, seg)) && OpenStill(HandleSynchronized(e, seg).state)
  {
    hide Inv, HandleTimeWait, HandleAck, SendAck, DoReset, Acceptable, RcvWnd;
    WaitsOpen(e);
    AnswerRunsOn(e, true);
    if seg.flags.ack { HandleAckRunsOn(e, seg); }
  }

  lemma HandleSynSentRunsOn(e: Engine, seg: Segment)
    requires Inv(e, None) && e.snd.retx != [] && e.state == SYN_SENT && Idle(e, seg) && seg.window < 0x1_0000
    ensures RunsOn(e, HandleSynSent(e, seg)) && OpenStill(HandleSynSent(e, seg).state)
  {
    hide Inv, EmitRstReply, TakeSyn, SendPending, SendAck, SetState, HandleSynchronized, SimultaneousOpen, SeqGt, SeqLeq;
    WaitsOpen(e);
    RstReplyRunsOn(e, seg, seg.ackNo, 0, false);
    if seg.flags.syn && !(seg.flags.ack && (SeqLeq(seg.ackNo, e.snd.iss) || SeqGt(seg.ackNo, e.snd.nxt))) {
      TakeSynOk(e, seg, None);
      FirstSynPending(e);
      TakeSynRunsOn(e, seg);
      SimultaneousOpenRunsOn(TakeSyn(e, seg), seg);
    }
  }

  lemma FirstSynPending(e: Engine)
    requires Inv(e, None) && e.state == SYN_SENT
    ensures e.hist.unaPos == 0 && SentEnd(e.hist) == 1
  {
    hide WireOk, Trail, Wrap, Settled, Tiles, KarnOk;
  }

  lemma TakeSynRunsOn(e: Engine, seg: Segment)
    requires Waits(e) && !seg.flags.ack
    ensures RunsOn(e, TakeSyn(e, seg)) && TakeSyn(e, seg).state == e.state
  {
  }

  lemma SimultaneousOpenRunsOn(e: Engine, seg: Segment)
    requires Waits(e)
    ensures RunsOn(e, SimultaneousOpen(e, seg)) && SimultaneousOpen(e, seg).state == SYN_RECEIVED
  {
    hide Emit, HoldSynData, SetState;
    SetStateRunsOn(e, SYN_RECEIVED);
    var f := SynBecomesSynAck(SetState(e, SYN_RECEIVED));
    HoldSynDataTouches(f, seg);
    EmitTouches(HoldSynData(f, seg), HoldSynData(f, seg).snd.iss, SYN_ACK, [], true);
  }

  lemma OnSegmentRunsOn(e: Engine, seg: Segment)
    requires Inv(e, None) && e.snd.retx != [] && Idle(e, seg) && seg.window < 0x1_0000
    ensures RunsOn(e, OnSegment(e, seg)) && OpenStill(OnSegment(e, seg).state)
  {
    hide Inv, RestartKeepalive, HandleClosed, HandleListen, HandleSynSent, HandleSynchronized;
    WaitsOpen(e);
    var f := if e.state == ESTABLISHED then RestartKeepalive(e, true) else e;
    if e.state == ESTABLISHED { RestartKeepaliveOk(e, None); KeepaliveRunsOn(e, true); }
    if f.state == SYN_SENT { HandleSynSentRunsOn(f, seg); } else { HandleSynchronizedRunsOn(f, seg); }
  }

  lemma KeepaliveRunsOn(e: Engine, reset: bool)
    requires Waits(e)
    ensures RunsOn(e, RestartKeepalive(e, reset)) && RestartKeepalive(e, reset).state == e.state
  {
  }

  // ---------------------------------------------------------------------------------------------
  // Events
  // ---------------------------------------------------------------------------------------------

  /** An event that neither acknowledges anything new nor drops the connection on purpose. */
  predicate Quiet(e: Engine, ev: Event) {
    match ev
    case Arrives(seg) => Idle(e, seg)
    case AbortCalled => false
    case CloseCalled => e.state != SYN_SENT
    case _ => true
  }

  /** The engine goes on waiting for the same timeout, for the same bytes. */
  predicate GoesOn(e: Engine, f: Engine) {
    && f.tm.rt == e.tm.rt && f.tm.rtoCount == e.tm.rtoCount && f.rtt == e.rtt && f.cfg == e.cfg
    && f.snd.retx != [] && f.hist.unaPos == e.hist.unaPos && OpenStill(f.state) && f.tm.unaSince == e.tm.unaSince
  }

  predicate SameTimeout(e: Engine, f: Engine) { f.tm.userTimeout == e.tm.userTimeout }

  /** The call sets a user timeout. */
  predicate SetsTimeout(ev: Event) {
    (ev.OpenCalled? && ev.timeout.Some?) || (ev.SendCalled? && ev.sendTimeout.Some?)
  }

  lemma SendRunsOn(e: Engine, data: seq<byte>, t: Option<real>)
    requires Waits(e) && OpenStill(e.state)
    ensures GoesOn(e, Send(e, data, t).0) && (t == None ==> SameTimeout(e, Send(e, data, t).0))
  {
    hide SendPending;
    SendPendingRunsOn(Buffer(e.(tm := e.tm.(userTimeout := if t.Some? then t else e.tm.userTimeout)), data));
  }

  lemma ReceiveRunsOn(e: Engine, n: nat)
    requires Waits(e) && OpenStill(e.state)
    ensures GoesOn(e, Receive(e, n).0) && SameTimeout(e, Receive(e, n).0)
  {
    hide SendAck, RcvWnd;
    var m := Min(n, |e.rcv.buf|);
    AnswerRunsOn(e.(rcv := e.rcv.(buf := e.rcv.buf[m..], zeroWin := false)), true);
  }

  lemma CloseRunsOn(e: Engine)
    requires Waits(e) && OpenStill(e.state) && e.state != SYN_SENT
    ensures GoesOn(e, Close(e).0) && SameTimeout(e, Close(e).0)
  {
    hide SendPending;
    SendPendingRunsOn(e.(snd := e.snd.(finPending := true)));
  }

  lemma PersistRunsOn(e: Engine)
    requires Waits(e) && OpenStill(e.state)
    ensures GoesOn(e, OnPersist(e)) && SameTimeout(e, OnPersist(e))
  {
    hide SendPending, QueueAndSend, SendFin;
    var f := e.(tm := e.tm.(persist := None));
    SendPendingRunsOn(f);
    SendFinRunsOn(f);
    if f.snd.appBuf != [] { QueueRunsOn(f.(snd := f.snd.(appBuf := f.snd.appBuf[1..])), ACK, f.snd.appBuf[..1], false); }
  }

  lemma QuietStep(e: Engine, now: real, ev: Event)
    requires Inv(e, None) && e.snd.retx != [] && Allowed(e, ev) && Quiet(e, ev) && !ev.RtoFires?
    ensures GoesOn(e, Step(e, now, ev)) && (!SetsTimeout(ev) ==> SameTimeout(e, Step(e, now, ev)))
  {
    hide Inv, OnSegment, OnPersist, SendAck, Close, Receive, Send, EngineSpec.Open, EnterClosed;
    ClockOk(e, now, None);
    var a := At(e, now);
    WaitsOpen(a);
    TimeWaitOnly(a);
    match ev
    case Arrives(seg) => OnSegmentRunsOn(a, seg);
    case SendCalled(d, t) => SendRunsOn(a, d, t);
    case ReceiveCalled(n) => ReceiveRunsOn(a, n);
    case CloseCalled => CloseRunsOn(a);
    case PersistFires => PersistRunsOn(a);
    case DelackFires => AnswerRunsOn(a.(tm := a.tm.(ack := None)), true);
    case _ =>
  }

  lemma TimeWaitOnly(e: Engine)
    requires Inv(e, None) && OpenStill(e.state)
    ensures e.tm.tw == None
  {
    hide WireOk, Trail, Settled;
  }

  /** A timeout: the oldest entry goes out once more and the interval doubles, until the count is used up. */
  lemma TimeoutStep(e: Engine, now: real)
    requires Inv(e, None) && e.snd.retx != []
    ensures var f, a := Step(e, now, RtoFires), At(e, now);
            if UserTimedOut(a) || e.tm.rtoCount >= e.cfg.timers.maxRetransmits then f.state == CLOSED
            else && f.tm.rtoCount == e.tm.rtoCount + 1 && f.rtt.rto == MinR(e.rtt.rto * 2.0, e.cfg.timers.rtoMax)
                 && f.tm.rt == Some(now + MaxR(f.rtt.rto, 0.0)) && f.cfg == e.cfg
                 && f.snd.retx != [] && f.hist.unaPos == e.hist.unaPos && f.state == e.state
                 && SentAgain(e, f) && SameTimeout(e, f)
  {
    hide SentAgain, UserTimedOut, OnRto, Inv, React, RttBackoff, Retransmit;
    assert Step(e, now, RtoFires) == OnRto(At(e, now)) by { FiringIs(e, now); }
    var a := At(e, now);
    TimeoutCases(a);
    var g := a.(tm := a.tm.(rt := None, rtoCount := a.tm.rtoCount + 1));
    RetransmitSends(g);
    SentAgainSame(e, g, Retransmit(g));
    BackoffIs(e);
  }

  lemma FiringIs(e: Engine, now: real)
    ensures Step(e, now, RtoFires) == OnRto(At(e, now))
  {
    hide OnRto;
  }

  lemma BackoffIs(e: Engine)
    ensures RttBackoff(e.cfg.timers, e.rtt).rto == MinR(e.rtt.rto * 2.0, e.cfg.timers.rtoMax)
  {
  }

  lemma TimeoutCases(a: Engine)
    requires a.snd.retx != []
    ensures if UserTimedOut(a) || a.tm.rtoCount >= a.cfg.timers.maxRetransmits then OnRto(a).state == CLOSED
            else OnRto(a) == Retransmit(a.(tm := a.tm.(rt := None, rtoCount := a.tm.rtoCount + 1)))
  {
    hide GiveUp, Retransmit;
    GiveUpCloses(a.(tm := a.tm.(rt := None)), UserTimeout);
    GiveUpCloses(a.(tm := a.tm.(rt := None, rtoCount := a.tm.rtoCount + 1)), RetransmissionTimeout);
  }

  lemma SentAgainSame(e: Engine, g: Engine, f: Engine)
    requires e.snd.retx != [] && g.snd == e.snd && g.wire == e.wire && SentAgain(g, f)
    ensures SentAgain(e, f)
  {
  }

  /** The oldest entry of `e` was put on the wire once more, and nothing else. */
  predicate SentAgain(e: Engine, f: Engine)
    requires e.snd.retx != []
  {
    && |f.wire| == |e.wire| + 1 && f.wire[..|e.wire|] == e.wire
    && f.wire[|e.wire|].seg.seqNo == e.snd.retx[0].seqNo && f.wire[|e.wire|].seg.flags == e.snd.retx[0].flags
    && f.wire[|e.wire|].seg.payload == e.snd.retx[0].payload
  }

  lemma RetransmitSends(e: Engine)
    requires e.snd.retx != []
    ensures var f := Retransmit(e);
            && SentAgain(e, f) && f.tm == e.tm.(rt := Later(e.tm, f.rtt.rto)) && f.rtt == RttBackoff(e.cfg.timers, e.rtt)
            && f.cfg == e.cfg && f.snd.retx != [] && f.hist == e.hist && f.state == e.state
  {
    hide RcvWnd, AdvertisedRight, PosOf;
  }

  // ---------------------------------------------------------------------------------------------
  // Runs
  // ---------------------------------------------------------------------------------------------

  /** Every event happens no later than the running timeout, and the timeout fires when it is due. */
  predicate OnTime(e: Engine, now: real, ev: Event) {
    e.tm.rt.Some? ==> now <= e.tm.rt.value && (ev.RtoFires? ==> now == e.tm.rt.value)
  }

  /** The scheduler keeps to that. While the handle `t` of the retransmission timer is live, a call from outside comes no
      later than its deadline; and what fires next is the timeout when it is due, or another timer no later than it. */
  lemma SchedulerIsOnTime(s: S.Sched, t: S.Timer, script: S.Script, e: Engine, ev: Event)
    requires S.Inv(s) && S.Live(s, t) && e.tm.rt == Some(t.deadline)
    ensures !ev.RtoFires? ==> OnTime(e, s.now, ev)
    ensures s.heap != []
    ensures var now := S.Popped(s, script).now;
            if s.heap[0] == t then OnTime(e, now, RtoFires) else !ev.RtoFires? ==> OnTime(e, now, ev)
  {
    hide S.Popped;
    S.LiveIsAhead(s, t);
    S.NextIsFirst(s, t, script);
  }

  /** A run in which nothing new is acknowledged and nobody drops the connection on purpose. */
  predicate QuietRun(e: Engine, evs: seq<(real, Event)>)
    decreases |evs|
  {
    evs != [] ==> Allowed(e, evs[0].1) && Quiet(e, evs[0].1) && OnTime(e, evs[0].0, evs[0].1)
                  && QuietRun(Step(e, evs[0].0, evs[0].1), evs[1..])
  }

  function Timeouts(evs: seq<(real, Event)>): nat
    decreases |evs|
  {
    if evs == [] then 0 else Bit(evs[0].1.RtoFires?) + Timeouts(evs[1..])
  }

  /** No call of the run sets a user timeout. */
  predicate NoUserTimeout(evs: seq<(real, Event)>) {
    forall i :: 0 <= i < |evs| ==> !SetsTimeout(evs[i].1)
  }

  /** `f` has timed out `k` times since `e` armed its timer at `t0` with interval `r`. */
  predicate Trying(e: Engine, f: Engine, t0: real, r: real, k: nat) {
    && f.cfg == e.cfg && f.snd.retx != [] && f.hist.unaPos == e.hist.unaPos && f.state != CLOSED
    && f.tm.rtoCount == k <= e.cfg.timers.maxRetransmits && f.rtt.rto == Interval(r, e.cfg.timers.rtoMax, k)
    && f.tm.rt == Some(DueAt(t0, r, e.cfg.timers.rtoMax, k))
  }

  lemma TryingStep(e: Engine, f: Engine, t0: real, r: real, k: nat, now: real, ev: Event)
    requires Inv(f, None) && Trying(e, f, t0, r, k) && 0.0 <= r <= e.cfg.timers.rtoMax
    requires Allowed(f, ev) && Quiet(f, ev) && OnTime(f, now, ev)
    ensures var g := Step(f, now, ev);
            if !ev.RtoFires? then Trying(e, g, t0, r, k)
            else if UserTimedOut(At(f, now)) || k == e.cfg.timers.maxRetransmits then g.state == CLOSED
            else Trying(e, g, t0, r, k + 1) && SentAgain(f, g)
    ensures var g := Step(f, now, ev); g.state != CLOSED && !SetsTimeout(ev) ==> SameTimeout(f, g)
  {
    hide Inv, Step, Quiet, Allowed, UserTimedOut;
    if ev.RtoFires? {
      TimeoutStep(f, now);
      Doubles(r, e.cfg.timers.rtoMax, k);
      WaitsOpen(f);
    } else {
      QuietStep(f, now, ev);
    }
  }

  lemma ClosedStays(e: Engine, now: real, ev: Event)
    requires Inv(e, None) && e.state == CLOSED && e.hist.started && Allowed(e, ev)
    ensures Step(e, now, ev).state == CLOSED
  {
    hide GiveUp, PumpData, Emit, EnterClosed, SendAck, Tiles, PacketOk, Trail, EmitRstReply, Settled, KarnOk;
    var a := At(e, now);
    assert Step(e, now, ev) == React(a, ev) && a.state == CLOSED;
    match ev
    case Arrives(seg) => ClosedAnswers(a, seg);
    case _ =>
  }

  lemma ClosedAnswers(e: Engine, seg: Segment)
    requires e.state == CLOSED
    ensures OnSegment(e, seg).state == CLOSED
  {
  }

  /** Closed for good, or still trying. */
  ghost predicate ClosedOrTrying(e: Engine, f: Engine, t0: real, r: real, k: nat) {
    (f.state == CLOSED && f.hist.started) || Trying(e, f, t0, r, k)
  }

  lemma {:induction false} QuietRunTries(e: Engine, f: Engine, evs: seq<(real, Event)>, t0: real, r: real, k: nat)
    requires Inv(f, None) && f.hist.started && 0.0 <= r <= e.cfg.timers.rtoMax
    requires ClosedOrTrying(e, f, t0, r, k) && QuietRun(f, evs)
    ensures var g, n := After(f, evs), k + Timeouts(evs);
            && Inv(g, None) && ClosedOrTrying(e, g, t0, r, n)
            && (f.state != CLOSED && f.tm.userTimeout == None && NoUserTimeout(evs) && n <= e.cfg.timers.maxRetransmits
                ==> g.state != CLOSED && g.tm.userTimeout == None)
    decreases |evs|
  {
    hide Inv, Step, Allowed, Quiet, OnTime, Trying, UserTimedOut;
    if evs != [] {
      var now, ev := evs[0].0, evs[0].1;
      var m := Step(f, now, ev);
      StepOk(f, now, ev, None);
      if f.state == CLOSED && f.hist.started {
        ClosedStays(f, now, ev);
        QuietRunTries(e, m, evs[1..], t0, r, k + Bit(ev.RtoFires?));
      } else {
        TryingStep(e, f, t0, r, k, now, ev);
        NoTimeoutNoAbort(f, now);
        TryingCount(e, f, t0, r, k);
        if Trying(e, m, t0, r, k + Bit(ev.RtoFires?)) { TryingCount(e, m, t0, r, k + Bit(ev.RtoFires?)); }
        QuietRunTries(e, m, evs[1..], t0, r, k + Bit(ev.RtoFires?));
      }
      assert NoUserTimeout(evs) ==> !SetsTimeout(ev) && NoUserTimeout(evs[1..]);
    }
  }

  lemma NoTimeoutNoAbort(e: Engine, now: real)
    ensures e.tm.userTimeout == None ==> !UserTimedOut(At(e, now))
  {
  }

  lemma TryingCount(e: Engine, f: Engine, t0: real, r: real, k: nat)
    requires Trying(e, f, t0, r, k)
    ensures f.state != CLOSED && k <= e.cfg.timers.maxRetransmits
  {
  }

  /** The retransmission timer was armed at `t0` with interval `r`. */
  predicate Armed(e: Engine, t0: real, r: real) {
    e.snd.retx != [] && e.tm.rt == Some(t0 + r) && e.rtt.rto == r && 0.0 <= r <= e.cfg.timers.rtoMax && e.tm.rtoCount == 0
  }

  lemma ArmedIsTrying(e: Engine, t0: real, r: real)
    requires Armed(e, t0, r) && e.state != CLOSED
    ensures Trying(e, e, t0, r, 0)
  {
    assert Pow2(0) == 1.0;
  }

  /** The give-up bound. From a timer armed at `t0` with interval `r`, whatever is sent, probed or received
      meanwhile, as long as nothing new is acknowledged and no reset comes:
      the engine is never open later than the last of the `maxRetransmits + 1` timeouts, user timeout or not;
      and without a user timeout it is open before, retransmitting once at each timeout. */
  lemma GivesUpExactlyThen(e: Engine, evs: seq<(real, Event)>, t0: real, r: real, now: real, ev: Event)
    requires Inv(e, None) && Armed(e, t0, r) && QuietRun(e, evs)
    requires var f := After(e, evs); Allowed(f, ev) && Quiet(f, ev) && OnTime(f, now, ev)
    ensures var f, max := After(e, evs), e.cfg.timers.maxRetransmits;
            && (now > DueAt(t0, r, e.cfg.timers.rtoMax, max) ==> f.state == CLOSED)
            && (Timeouts(evs) > max ==> f.state == CLOSED)
            && (e.tm.userTimeout == None && NoUserTimeout(evs) ==>
                  (f.state == CLOSED <==> Timeouts(evs) > max)
                  && (ev.RtoFires? && Timeouts(evs) <= max ==>
                        && now == DueAt(t0, r, e.cfg.timers.rtoMax, Timeouts(evs)) && f.snd.retx != []
                        && (if Timeouts(evs) == max then Step(f, now, ev).state == CLOSED else SentAgain(f, Step(f, now, ev)))))
  {
    hide Inv, Step, Allowed, Quiet, QuietRun, After, UserTimedOut;
    WaitsOpen(e);
    ActiveStarted(e);
    ArmedIsTrying(e, t0, r);
    QuietRunTries(e, e, evs, t0, r, 0);
    var f, max := After(e, evs), e.cfg.timers.maxRetransmits;
    if Trying(e, f, t0, r, Timeouts(evs)) {
      DueAtGrows(t0, r, e.cfg.timers.rtoMax, Timeouts(evs), max);
      NoTimeoutNoAbort(f, now);
      TryingStep(e, f, t0, r, Timeouts(evs), now, ev);
    }
  }

  lemma ActiveStarted(e: Engine)
    requires Inv(e, None) && e.state != CLOSED
    ensures e.hist.started
  {
    hide WireOk, Trail, Settled;
  }
}
