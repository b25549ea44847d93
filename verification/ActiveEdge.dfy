/** The advertised edge of an active opener. Its SYN recorded a right edge before the peer's number was known; whether
    the edge then moves in strides is decided when the peer's SYN comes, by which way that moves RCV.NXT. */
module ActiveEdge {
  import opened SeqNum
  import opened EngineState
  import opened EngineSpec
  import opened EngineFacts
  import opened SendInvariant
  import opened SendPath
  import opened EngineInvariant
  import opened EngineRuns
  import opened SegmentArrives
  import opened Opening
  import opened WireLog
  import opened WindowEdge
  import opened ReceiveWindow
  import opened EdgeStride
  import opened GiveUpBound
  import opened RunTheorems

  // ---------------------------------------------------------------------------------------------
  // From the peer's SYN on
  // ---------------------------------------------------------------------------------------------

  /** An active opener that knows its peer, or has closed. */
  ghost predicate Going(e: Engine, base: int, lim: Bound) {
    && Inv(e, None) && e.hist.started && (Synced(e.state) || e.state == CLOSED)
    && (Synced(e.state) ==> !e.passive && Roomy(e, base, lim))
  }

  lemma GoingStep(e: Engine, now: real, ev: Event, base: int, lim: Bound)
    requires Going(e, base, lim) && Allowed(e, ev)
    ensures var f := Step(e, now, ev); Going(f, base, lim) && (Synced(f.state) ==> Synced(e.state) && KeepsWindow(e, f, base, lim))
  {
    hide Inv, Step, Allowed, Roomy, Climbs, Heard;
    var f := Step(e, now, ev);
    StepOk(e, now, ev, None);
    StepAppends(e, now, ev);
    Started(e, f);
    if e.state == CLOSED {
      ClosedStays(e, now, ev);
    } else {
      SyncedStep(e, now, ev, base, lim);
      if f.state == LISTEN { NothingInListen(f); }
    }
  }

  lemma {:induction false} GoingRun(e: Engine, evs: seq<(real, Event)>, base: int, lim: Bound)
    requires Going(e, base, lim) && AllowedRun(e, evs)
    ensures var f := After(e, evs);
            Going(f, base, lim) && (Synced(f.state) ==> Synced(e.state) && KeepsWindow(e, f, base, lim))
    decreases |evs|
  {
    hide Inv, Step, Allowed, Roomy, Climbs;
    if evs == [] {
      if Synced(e.state) { SameKeeps(e, e, base, lim); }
    } else {
      var m := Step(e, evs[0].0, evs[0].1);
      GoingStep(e, evs[0].0, evs[0].1, base, lim);
      GoingRun(m, evs[1..], base, lim);
      if Synced(After(e, evs).state) { KeepsOn(e, m, After(e, evs), base, lim); }
    }
  }

  /** Consecutive advertising packets from the place `from` on are a stride apart. */
  ghost predicate StridesFrom(e: Engine, from: nat) {
    forall i: nat, j: nat :: from <= i && Consecutive(e.wire, i, j) ==> Stride(e.wire[i], e.wire[j], SwsThreshold(e))
  }

  /** ... and so they are as long as the connection lives, whatever happens. */
  ghost predicate AlwaysStrides(e: Engine, from: nat) {
    forall later: seq<(real, Event)> :: AllowedRun(e, later) && Synced(After(e, later).state) ==> StridesFrom(After(e, later), from)
  }

  lemma RoomyStrides(e: Engine, base: int, lim: Bound)
    requires Roomy(e, base, lim) && lim.strides
    ensures StridesFrom(e, lim.from)
  {
    hide Fitted, LastStands, Strides, Stride, StillOpening, SwsThreshold, Told;
    forall i: nat, j: nat | lim.from <= i && Consecutive(e.wire, i, j)
      ensures Stride(e.wire[i], e.wire[j], SwsThreshold(e))
    {
      ToldConsecutive(e, lim.from, i, j);
      StrideBetween(Told(e, lim.from), i - lim.from, j - lim.from, SwsThreshold(e));
    }
  }

  lemma ToldConsecutive(e: Engine, from: nat, i: nat, j: nat)
    requires from <= i && Consecutive(e.wire, i, j)
    ensures Consecutive(Told(e, from), i - from, j - from)
    ensures Told(e, from)[i - from] == e.wire[i] && Told(e, from)[j - from] == e.wire[j]
  {
  }

  /** An engine whose SYN is out, in any run. */
  ghost predicate Opener(e: Engine) {
    Reached(e) && e.state == SYN_SENT && e.cfg.timers.swsAvoidance && e.cfg.rcvWnd < 0x1_0000
  }

  lemma OpenerRecorded(e: Engine)
    requires Opener(e)
    ensures Inv(e, None) && Recorded(e) && !e.passive && e.hist.started
  {
    hide Inv, AllowedRun, After, Fresh, Roomy;
    var cfg: Config, port: u16, ut: Option<real>, t: real, evs: seq<(real, Event)> :|
      AllowedRun(Fresh(cfg, port, ut, t), evs) && e == After(Fresh(cfg, port, ut, t), evs);
    var e0 := Fresh(cfg, port, ut, t);
    FreshOk(cfg, port, ut, t, None);
    CfgStays(e0, evs);
    assert Striding(e0) && e0.cfg == cfg by { FreshStrides(cfg, port, ut, t); }
    StridingRun(e0, evs);
    RunOk(e0, evs);
    NothingInListen(e);
    OpenStarted(e);
  }

  lemma OpenStarted(e: Engine)
    requires Inv(e, None) && e.state != CLOSED
    ensures e.hist.started
  {
    hide WireOk, Trail, Settled, SendOk;
  }

  lemma FreshStrides(cfg: Config, port: u16, ut: Option<real>, t: real)
    ensures Striding(Fresh(cfg, port, ut, t)) && Fresh(cfg, port, ut, t).cfg == cfg
  {
  }

  /** The peer's SYN takes the opener on: from there the invariant of its window holds. */
  lemma SynTakesOn(e: Engine, now: real, seg: Segment, lim: Bound) returns (m: Engine, base: int)
    requires Opener(e) && Allowed(e, Arrives(seg)) && seg.flags.syn && Synced(Step(e, now, Arrives(seg)).state)
    requires Bounds(lim, e.cfg) && Fitting(e, Arrives(seg), lim.room)
    requires lim.strides ==> BeginsStrides(e, seg) && lim.from == |e.wire|
    ensures var f := Step(e, now, Arrives(seg)); Going(f, base, lim) && m.wire == e.wire && KeepsWindow(m, f, base, lim)
  {
    hide Reached, Inv, Step, Allowed, Roomy, Climbs, BeginsStrides;
    OpenerRecorded(e);
    var f := Step(e, now, Arrives(seg));
    StepOk(e, now, Arrives(seg), None);
    StepAppends(e, now, Arrives(seg));
    Started(e, f);
    OpeningStep(e, now, Arrives(seg), lim);
    m, base :| m.wire == e.wire && KeepsWindow(m, f, base, lim);
  }

  /** If the peer's number moves RCV.NXT forward, or leaves it, the edges move in strides ever after: what crosses with the
      peer's SYN must be within the window offered first. */
  lemma ForwardStrides(e: Engine, now: real, seg: Segment)
    requires Opener(e) && Allowed(e, Arrives(seg)) && seg.flags.syn && Synced(Step(e, now, Arrives(seg)).state)
    requires MovesForward(e, seg.seqNo) && (!seg.flags.ack ==> |seg.payload| <= FirstWindowFor(e, seg))
    ensures AlwaysStrides(Step(e, now, Arrives(seg)), |e.wire|)
  {
    hide Reached, Step, AllowedRun, After, StridesFrom, Inv, Allowed, Roomy, Climbs, MovesForward;
    OpenerRecorded(e);
    var lim := Bound(e.cfg.rcvWnd, true, |e.wire|);
    var m, base := SynTakesOn(e, now, seg, lim);
    var f := Step(e, now, Arrives(seg));
    forall later | AllowedRun(f, later) && Synced(After(f, later).state) ensures StridesFrom(After(f, later), |e.wire|) {
      GoingRun(f, later, base, lim);
      RoomyStrides(After(f, later), base, lim);
    }
  }

  /** With a threshold of one every edge that does not move left is a stride. */
  lemma AnyEdgeStrides(e: Engine, now: real, seg: Segment)
    requires Opener(e) && Allowed(e, Arrives(seg)) && seg.flags.syn && Synced(Step(e, now, Arrives(seg)).state)
    requires Fitting(e, Arrives(seg), e.cfg.rcvWnd) && SwsThreshold(Step(e, now, Arrives(seg))) <= 1
    ensures AlwaysStrides(Step(e, now, Arrives(seg)), |e.wire|)
  {
    hide Reached, Step, AllowedRun, After, StridesFrom, Inv, Allowed, Roomy, Climbs;
    var lim := Bound(e.cfg.rcvWnd, false, 0);
    var m, base := SynTakesOn(e, now, seg, lim);
    var f := Step(e, now, Arrives(seg));
    forall later | AllowedRun(f, later) && Synced(After(f, later).state) ensures StridesFrom(After(f, later), |e.wire|) {
      var g := After(f, later);
      GoingRun(f, later, base, lim);
      ClimbsOn(m, f, g);
      ClimbingStrides(m, g);
    }
  }

  lemma ClimbingStrides(m: Engine, g: Engine)
    requires Climbs(m, g) && SwsThreshold(g) <= 1
    ensures StridesFrom(g, |m.wire|)
  {
    hide Edge, SwsThreshold;
    forall i: nat, j: nat | |m.wire| <= i && Consecutive(g.wire, i, j)
      ensures Stride(g.wire[i], g.wire[j], SwsThreshold(g))
    {
      assert New(m, g, i) && New(m, g, j);
    }
  }

  // ---------------------------------------------------------------------------------------------
  // A peer's number behind
  // ---------------------------------------------------------------------------------------------

  /** The edge on record is at or beyond that of the whole free buffer, in serial arithmetic. */
  predicate Lags(e: Engine) { e.rcv.advRight.Some? && Ahead(e) <= 0 && e.cfg.rcvWnd < 0x1_0000 }

  lemma LaggingOffer(e: Engine)
    requires Lags(e)
    ensures RcvWnd(e) == RawWindow(e) && AdvertisedRight(e) == e.rcv.advRight.value
  {
    hide RcvWnd;
    RcvWndIs(e);
  }

  /** All but what an emission marks. */
  predicate OnlyMarks(e: Engine, f: Engine) {
    && f.rcv == e.rcv.(zeroWin := f.rcv.zeroWin) && f.state == e.state && f.cfg == e.cfg && f.hist.delivered == e.hist.delivered
    && f.hist.fins == e.hist.fins && f.snd.finPending == e.snd.finPending && f.snd.mss == e.snd.mss && f.snd.wnd == e.snd.wnd
    && f.localPort == e.localPort
  }

  lemma EmitMarks(e: Engine, sn: u32, flags: Flags, payload: seq<byte>, withMss: bool)
    requires Lags(e)
    ensures OnlyMarks(e, Emit(e, sn, flags, payload, withMss)) && Emit(e, sn, flags, payload, withMss).snd == e.snd
  {
    hide RcvWnd, AdvertisedRight, PosOf, Reach, Ahead;
    LaggingOffer(e);
  }

  lemma QueueMarks(e: Engine, flags: Flags, payload: seq<byte>, withMss: bool)
    requires Lags(e)
    ensures OnlyMarks(e, QueueAndSend(e, flags, payload, withMss))
  {
    hide Emit, Ahead;
    EmitMarks(e, e.snd.nxt, flags, payload, withMss);
  }

  lemma LagsOn(e: Engine, f: Engine)
    requires Lags(e) && OnlyMarks(e, f)
    ensures Lags(f)
  {
  }

  lemma {:induction false} PumpMarks(e: Engine)
    requires Lags(e) && !e.snd.finPending
    ensures OnlyMarks(e, PumpData(e))
    decreases |e.snd.appBuf|
  {
    hide QueueAndSend, SendFin, UsableWindow, Ahead;
    if e.snd.appBuf != [] && e.snd.wnd != 0 && UsableWindow(e) > 0 {
      var n := Min(Min(e.snd.mss, UsableWindow(e)), |e.snd.appBuf|);
      if !(e.cfg.timers.nagle && e.snd.retx != [] && n < e.snd.mss) {
        var g := e.(snd := e.snd.(appBuf := e.snd.appBuf[n..]));
        LagsOn(e, g);
        QueueMarks(g, ACK, e.snd.appBuf[..n], false);
        ChunkTakes(e, n);
        LagsOn(e, SendChunk(e, n));
        PumpMarks(SendChunk(e, n));
      }
    }
  }

  /** A SYN-ACK with nothing else, that answers our SYN. */
  predicate PlainSynAck(e: Engine, seg: Segment) {
    ForUs(e, seg) && seg.flags == SYN_ACK && seg.payload == [] && seg.ackNo == e.snd.nxt && seg.window < 0x1_0000
  }

  /** Connected, with `k` bytes received, and the record lagging. */
  ghost predicate Lagging(f: Engine, k: nat) {
    && Inv(f, None) && f.state == ESTABLISHED && !f.snd.finPending && f.rcv.ooo == [] && f.rcv.pendingFin == None
    && f.hist.fins == 0 && |f.hist.delivered| == k && Lags(f) && 4 <= f.cfg.rcvWnd
  }

  lemma BehindLags(e: Engine, seg: Segment, m: Engine)
    requires Recorded(e) && !MovesForward(e, seg.seqNo) && e.cfg.rcvWnd < 0x1_0000
    requires m.rcv == e.rcv.(irs := seg.seqNo, nxt := Add(seg.seqNo, 1)) && m.rcv.buf == [] && m.cfg == e.cfg
    ensures Lags(m) && Ahead(m) < 0
  {
    hide S32;
    ShiftBoth(m.rcv.nxt, e.rcv.nxt, e.cfg.rcvWnd);
  }

  /** After the peer's plain SYN-ACK, with a number behind. */
  lemma ConnectsLagging(e: Engine, now: real, seg: Segment)
    requires Opener(e) && PlainSynAck(e, seg) && !MovesForward(e, seg.seqNo) && SwsThreshold(Step(e, now, Arrives(seg))) >= 2
    ensures var f := Step(e, now, Arrives(seg)); Lagging(f, 0) && Ahead(f) < 0 && f.rcv.buf == [] && |e.wire| <= |f.wire| && f.cfg == e.cfg
  {
    hide Reached, Inv, TakeSyn, SendPending, SendAck, SetState, React, SwsThreshold, Recorded, MovesForward, SeqGt, SeqLeq, Ahead;
    OpenerRecorded(e);
    var a, f := At(e, now), Step(e, now, Arrives(seg));
    ClockOk(e, now, None);
    ArrivalIs(e, now, seg);
    StepOk(e, now, Arrives(seg), None);
    StepAppends(e, now, Arrives(seg));
    NothingInListen(a);
    AnswersSyn(a, seg);
    TakeSynOk(a, seg, None);
    SynTakenIs(a, seg);
    var t := TakeSyn(a, seg);
    TakenPlainly(a, t, seg);
    var m := SetState(t, ESTABLISHED);
    StateTouches(t, ESTABLISHED);
    BehindLags(e, seg, m);
    AckMarks(m);
    LagsOn(m, SendAck(m));
    SendMarks(SendAck(m));
    LagsOn(SendAck(m), SendPending(SendAck(m)));
    assert f == SendPending(SendAck(m));
    ThresholdRoom(f);
    SameAhead(m, f);
  }

  lemma AckMarks(m: Engine)
    requires Lags(m)
    ensures OnlyMarks(m, SendAck(m)) && SendAck(m).snd == m.snd
  {
    hide Emit, Ahead;
    EmitMarks(m, m.snd.nxt, ACK, [], false);
  }

  lemma SendMarks(e: Engine)
    requires Lags(e) && !e.snd.finPending
    ensures OnlyMarks(e, SendPending(e))
  {
    hide PumpData, Ahead;
    PumpMarks(e);
  }

  lemma SameAhead(e: Engine, f: Engine)
    requires f.rcv == e.rcv.(zeroWin := f.rcv.zeroWin) && f.cfg == e.cfg && e.rcv.advRight.Some?
    ensures Ahead(f) == Ahead(e)
  {
  }

  lemma ThresholdRoom(f: Engine)
    requires SwsThreshold(f) >= 2
    ensures f.cfg.rcvWnd >= 4
  {
  }

  lemma AnswersSyn(e: Engine, seg: Segment)
    requires Inv(e, None) && e.state == SYN_SENT && seg.ackNo == e.snd.nxt
    ensures !SeqLeq(seg.ackNo, e.snd.iss) && !SeqGt(seg.ackNo, e.snd.nxt)
  {
    hide WireOk, Trail, Settled, Tiles, KarnOk, Tally, AllAck, Wrap, S32;
    SerialOrder(e.snd.iss, 1, 0);
    SerialOrder(e.snd.iss, 1, 1);
    WrapOfU32(e.snd.iss);
    assert e.snd.iss + 0 == e.snd.iss && SentEnd(e.hist) == 1;
  }

  lemma TakenPlainly(e: Engine, t: Engine, seg: Segment)
    requires SynTaken(e, t, seg, None) && Inv(e, None) && e.state == SYN_SENT
    ensures !t.snd.finPending && t.hist.delivered == [] && t.hist.fins == 0 && t.state == SYN_SENT
  {
    hide WireOk, Trail, Settled, SendOk;
  }

  // ---------------------------------------------------------------------------------------------
  // Four events that move the edge by one
  // ---------------------------------------------------------------------------------------------

  /** A segment with nothing but the header fields that matter. */
  function Bare(sn: u32, ackNo: u32, window: nat, payload: seq<byte>): Segment {
    Segment(0, 0, sn, ackNo, ACK, window, 0, 0, payload, None, None, [])
  }

  /** At most one packet more: it advertises the edge of the whole free buffer. */
  predicate Adds(e: Engine, f: Engine) {
    && |e.wire| <= |f.wire| <= |e.wire| + 1 && f.wire[..|e.wire|] == e.wire
    && (|f.wire| > |e.wire| ==> TellsRaw(f, f.wire[|e.wire|]))
  }

  predicate TellsRaw(f: Engine, p: Packet) { Advertises(p) && PacketEdge(p) == RawEdge(f) && p.fins == f.hist.fins }

  lemma AckTells(e: Engine)
    requires Lags(e)
    ensures var f := SendAck(e); OnlyMarks(e, f) && Adds(e, f) && |f.wire| == |e.wire| + 1 && f.snd == e.snd && f.rcv.buf == e.rcv.buf
  {
    hide AdvertisedRight, PosOf, Reach, Ahead, RcvWnd;
    LaggingOffer(e);
    AckMarks(e);
    assert SendAck(e).wire[..|e.wire|] == e.wire;
  }

  /** An old segment, to be answered at once. */
  function Stale(e: Engine): Segment { Bare(Sub(e.rcv.nxt, 1), 0, 0, []) }

  lemma StaleAnswered(e: Engine, k: nat)
    requires Lagging(e, k)
    ensures var f := Step(e, 0.0, Arrives(Stale(e)));
            Lagging(f, k) && OnlyMarks(e, f) && Adds(e, f) && |f.wire| == |e.wire| + 1
  {
    hide Inv, SendAck, React, Ahead, Acceptable, RcvWnd;
    var seg, a := Stale(e), RestartKeepalive(At(e, 0.0), true);
    ArrivalIs(e, 0.0, seg);
    StepOk(e, 0.0, Arrives(seg), None);
    SameAhead(e, a);
    WindowNearFreeBuffer(a);
    OldRefused(a.rcv.nxt, RcvWnd(a));
    AckTells(a);
    LagsOn(a, SendAck(a));
    assert Step(e, 0.0, Arrives(seg)) == SendAck(a);
  }

  lemma OldRefused(nxt: u32, wnd: nat)
    requires wnd < 0x1_0000
    ensures !Acceptable(Sub(nxt, 1), 0, nxt, wnd)
  {
  }

  /** One byte in sequence, that acknowledges nothing new and leaves the window as it is. */
  function NextByte(e: Engine): Segment
    requires e.snd.wnd < 0x1_0000
  {
    Bare(e.rcv.nxt, e.snd.una, e.snd.wnd, [0])
  }

  /** What the byte's segment leaves of the window update. */
  predicate OnlyNotes(a: Engine, h: Engine) { h == a.(snd := a.snd.(wl1 := h.snd.wl1, wl2 := h.snd.wl2)) }

  lemma ByteNoted(a: Engine, seg: Segment)
    requires seg.ackNo == a.snd.una && seg.window == a.snd.wnd
    ensures OnlyNotes(a, AckAndWindow(a, seg))
  {
    hide CancelPersist, ProcessAck, SeqLt, SeqLeq;
  }

  lemma ByteReceived(h: Engine, seg: Segment)
    requires Lags(h) && 0 < RawWindow(h) && seg.seqNo == h.rcv.nxt && seg.payload == [0] && h.rcv.ooo == []
    ensures RecvData(h, seg) == ScheduleAck(Deliver(h, [0]), false)
  {
    hide ScheduleAck, RcvWnd, S32, Sub, SeqLt, Merge, Ahead;
    LaggingOffer(h);
    SpaceFrom(seg.seqNo, RawWindow(h));
    assert seg.payload[0..] == seg.payload && seg.payload[..1] == seg.payload;
    assert Merge(Deliver(h, [0])) == Deliver(h, [0]) by { NothingToMerge(h); }
  }

  lemma NothingToMerge(h: Engine)
    requires h.rcv.ooo == []
    ensures Merge(Deliver(h, [0])) == Deliver(h, [0])
  {
  }

  lemma SpaceFrom(sn: u32, wnd: nat)
    requires wnd < 0x1_0000
    ensures !SeqLt(sn, sn) && S32(Sub(Add(sn, wnd), sn)) == wnd
  {
  }

  /** Handing the byte over moves the raw edge by one, or not at all while the byte is in the buffer. */
  lemma DeliverLags(h: Engine)
    requires Lags(h) && Ahead(h) < 0 && |h.rcv.buf| < h.cfg.rcvWnd
    ensures var d := Deliver(h, [0]);
            Lags(d) && RawEdge(d) == RawEdge(h) + (if h.cfg.streaming then 1 else 0) && (!h.cfg.streaming ==> Ahead(d) < 0)
  {
    hide Ahead, Wrap;
    WrapOfU32(h.rcv.nxt);
    AheadRange(h);
    AheadMoves(h, Deliver(h, [0]));
  }

  lemma AnswerAdds(d: Engine)
    requires Lags(d)
    ensures var g := ScheduleAck(d, false);
            OnlyMarks(d, g) && Adds(d, g) && g.rcv.buf == d.rcv.buf && g.tm.persist == d.tm.persist && g.snd == d.snd
  {
    hide SendAck, Ahead;
    AckTells(d);
    var c := d.(tm := d.tm.(ackCount := d.tm.ackCount + 1));
    SameAhead(d, c);
    AckTells(c);
    AckTimers(d);
    AckTimers(c);
  }

  lemma AckTimers(d: Engine)
    ensures SendAck(d).tm.persist == d.tm.persist
  {
  }

  lemma QuietlySettled(e: Engine, g: Engine)
    requires Settled(e) && g.state == e.state && g.cfg == e.cfg && g.tm.persist == e.tm.persist
    requires g.snd == e.snd.(wl1 := g.snd.wl1, wl2 := g.snd.wl2)
    ensures SendPending(g) == g
  {
    assert UsableWindow(g) == UsableWindow(e);
    SettledIsFixpoint(g);
  }

  lemma BytePasses(a: Engine, seg: Segment)
    requires Lags(a) && 0 < RawWindow(a) && a.state == ESTABLISHED && seg.seqNo == a.rcv.nxt && |seg.payload| == 1 && seg.flags == ACK
    requires !SeqGt(seg.ackNo, a.snd.nxt)
    ensures HandleSynchronized(a, seg) == AfterAck(AckAndWindow(a, seg), seg)
  {
    hide RcvWnd, Acceptable, AfterAck, AckAndWindow, Ahead;
    LaggingOffer(a);
    FirstAcceptable(seg.seqNo, RawWindow(a));
  }

  lemma FirstAcceptable(sn: u32, wnd: nat)
    requires 0 < wnd < 0x1_0000
    ensures Acceptable(sn, 1, sn, wnd)
  {
  }

  lemma NothingNewAcked(e: Engine)
    requires Inv(e, None) && e.state == ESTABLISHED
    ensures !SeqGt(e.snd.una, e.snd.nxt) && e.snd.wnd < 0x1_0000 && Settled(e)
  {
    hide WireOk, Trail, Coupled, Tiles, KarnOk, Tally, AllAck, Wrap, S32, Settled;
    SerialOrder(e.snd.iss, e.hist.unaPos, SentEnd(e.hist));
  }

  /** Taken at once: what is left of the window update, delivered and answered. */
  lemma ByteStep(e: Engine) returns (h: Engine)
    requires Lagging(e, 0) && Ahead(e) < 0 && e.rcv.buf == []
    ensures e.snd.wnd < 0x1_0000 && Step(e, 0.0, Arrives(NextByte(e))) == ScheduleAck(Deliver(h, [0]), false)
    ensures h.rcv == e.rcv && h.wire == e.wire && h.hist == e.hist && h.cfg == e.cfg && h.state == e.state
    ensures h.snd == e.snd.(wl1 := h.snd.wl1, wl2 := h.snd.wl2)
  {
    hide Inv, React, Ahead, RcvWnd, Settled, AckAndWindow, RecvData, ScheduleAck, SendPending, HandleSynchronized, AfterAck;
    NothingNewAcked(e);
    var seg, a := NextByte(e), RestartKeepalive(At(e, 0.0), true);
    ArrivalIs(e, 0.0, seg);
    SameAhead(e, a);
    BytePasses(a, seg);
    h := AckAndWindow(a, seg);
    ByteNoted(a, seg);
    SameAhead(a, h);
    ByteReceived(h, seg);
    var d := Deliver(h, [0]);
    DeliverLags(h);
    AnswerAdds(d);
    QuietlySettled(e, ScheduleAck(d, false));
    ByteText(h, seg, ScheduleAck(d, false));
  }

  lemma ByteTaken(e: Engine)
    requires Lagging(e, 0) && Ahead(e) < 0 && e.rcv.buf == []
    ensures e.snd.wnd < 0x1_0000
    ensures var f := Step(e, 0.0, Arrives(NextByte(e)));
            && Lagging(f, 1) && Adds(e, f) && f.snd.mss == e.snd.mss && f.cfg == e.cfg
            && RawEdge(f) == RawEdge(e) + (if e.cfg.streaming then 1 else 0) && (!e.cfg.streaming ==> Ahead(f) < 0)
            && |f.rcv.buf| == (if e.cfg.streaming then 0 else 1)
  {
    hide Inv, Step, Ahead, RcvWnd, ScheduleAck;
    var h := ByteStep(e);
    StepOk(e, 0.0, Arrives(NextByte(e)), None);
    SameAhead(e, h);
    var d := Deliver(h, [0]);
    DeliverLags(h);
    AnswerAdds(d);
    var g := ScheduleAck(d, false);
    LagsOn(d, g);
    SameAhead(d, g);
  }

  lemma ByteText(h: Engine, seg: Segment, g: Engine)
    requires h.state == ESTABLISHED && RecvData(h, seg) == g && SendPending(g) == g && g.rcv.pendingFin == None && !seg.flags.fin
    ensures AfterAck(h, seg) == g
  {
    hide RecvData, SendPending, SetState, EnterTimeWait, EnterClosed, ProcessFin;
  }

  /** The application reads one byte. */
  lemma ByteRead(e: Engine)
    requires Lagging(e, 1) && (if e.cfg.streaming then e.rcv.buf == [] else |e.rcv.buf| == 1 && Ahead(e) < 0)
    ensures var f := Step(e, 0.0, ReceiveCalled(1));
            && Lagging(f, 1) && Adds(e, f) && f.snd.mss == e.snd.mss && f.cfg == e.cfg
            && RawEdge(f) == RawEdge(e) + (if e.cfg.streaming then 0 else 1)
  {
    hide Inv, React, Ahead, RcvWnd, SendAck;
    StepOk(e, 0.0, ReceiveCalled(1), None);
    var a := At(e, 0.0);
    SameAhead(e, a);
    var d := a.(rcv := a.rcv.(buf := []));
    ReadLags(a, d);
    var z := d.(rcv := d.rcv.(zeroWin := false));
    SameAhead(d, z);
    AckTells(z);
    LagsOn(z, SendAck(z));
    ReadIs(a);
    assert Step(e, 0.0, ReceiveCalled(1)) == Receive(a, 1).0 by { ReadStep(e); }
  }

  lemma ReadStep(e: Engine)
    ensures Step(e, 0.0, ReceiveCalled(1)) == Receive(At(e, 0.0), 1).0
  {
    hide Receive;
  }

  lemma ReadIs(a: Engine)
    requires a.state == ESTABLISHED && |a.rcv.buf| <= 1
    ensures var d := a.(rcv := a.rcv.(buf := []));
            Receive(a, 1).0 == d || Receive(a, 1).0 == SendAck(d.(rcv := d.rcv.(zeroWin := false)))
  {
    hide SendAck, RcvWnd;
  }

  lemma ReadLags(a: Engine, d: Engine)
    requires Lags(a) && d == a.(rcv := a.rcv.(buf := [])) && |a.rcv.buf| <= 1 <= a.cfg.rcvWnd && (a.rcv.buf != [] ==> Ahead(a) < 0)
    ensures Lags(d) && RawEdge(d) == RawEdge(a) + |a.rcv.buf|
  {
    hide Ahead;
    WrapOfU32(a.rcv.nxt);
    AheadRange(a);
    AheadMoves(a, d);
  }

  // ---------------------------------------------------------------------------------------------
  // Exactly when
  // ---------------------------------------------------------------------------------------------

  /** Consecutive packets a stride apart make strides. */
  lemma {:induction false} StridesOf(ps: seq<Packet>, thr: int)
    requires forall i: nat, j: nat :: Consecutive(ps, i, j) ==> Stride(ps[i], ps[j], thr)
    ensures Strides(ps, thr)
  {
    hide Stride;
    if ps != [] {
      var n := |ps| - 1;
      var qs := ps[..n];
      forall i: nat, j: nat | Consecutive(qs, i, j) ensures Stride(qs[i], qs[j], thr) {
        assert Consecutive(ps, i, j);
      }
      StridesOf(qs, thr);
      if Advertises(ps[n]) && Last(qs).Some? {
        var i := LastPlace(qs);
        assert Consecutive(ps, i, n);
      }
    }
  }

  lemma {:induction false} LastPlace(ps: seq<Packet>) returns (i: nat)
    requires Last(ps).Some?
    ensures i < |ps| && Advertises(ps[i]) && ps[i] == Last(ps).value && forall k :: i < k < |ps| ==> !Advertises(ps[k])
  {
    i := |ps| - 1;
    if !Advertises(ps[i]) { i := LastPlace(ps[..i]); }
  }

  lemma ToldStrides(e: Engine, from: nat)
    requires StridesFrom(e, from) && from <= |e.wire|
    ensures Strides(Told(e, from), SwsThreshold(e))
  {
    hide Stride, Strides, SwsThreshold;
    var ps := Told(e, from);
    forall i: nat, j: nat | Consecutive(ps, i, j) ensures Stride(ps[i], ps[j], SwsThreshold(e)) {
      assert ps[i] == e.wire[from + i] && ps[j] == e.wire[from + j];
      forall k | from + i < k < from + j ensures !Advertises(e.wire[k]) { assert ps[k - from] == e.wire[k]; }
      assert Consecutive(e.wire, from + i, from + j);
    }
    StridesOf(ps, SwsThreshold(e));
  }

  /** The edge advertised last is `edge`, before any FIN. */
  predicate LastTells(e: Engine, from: nat, edge: int) {
    Last(Told(e, from)).Some? && PacketEdge(Last(Told(e, from)).value) == edge && Last(Told(e, from)).value.fins == 0
  }

  lemma PriorStrides(e: Engine, f: Engine, from: nat, thr: int)
    requires Adds(e, f) && from <= |e.wire| && Strides(Told(f, from), thr)
    ensures Strides(Told(e, from), thr)
  {
    hide Strides, Last;
    if |f.wire| > |e.wire| {
      var p := f.wire[|e.wire|];
      assert f.wire == e.wire + [p];
      ToldPush(e, f, from, p);
      StridesPush(Told(e, from), p, thr);
    } else {
      assert f.wire == e.wire;
    }
  }

  /** In strides of at least two the edge cannot move by one. */
  lemma EdgeHolds(e: Engine, f: Engine, from: nat, thr: int, edge: int)
    requires Adds(e, f) && from <= |e.wire| && Strides(Told(f, from), thr) && thr >= 2
    requires LastTells(e, from, edge) && RawEdge(f) <= edge + 1 && f.hist.fins == 0
    ensures LastTells(f, from, edge) && (|f.wire| > |e.wire| ==> RawEdge(f) == edge)
  {
    hide Strides, Last, RawEdge;
    if |f.wire| > |e.wire| {
      var p := f.wire[|e.wire|];
      assert f.wire == e.wire + [p];
      ToldPush(e, f, from, p);
      StridesPush(Told(e, from), p, thr);
    } else {
      assert f.wire == e.wire;
    }
  }

  lemma FirstTells(e: Engine, f: Engine, from: nat)
    requires Adds(e, f) && |f.wire| == |e.wire| + 1 && from <= |e.wire| && f.hist.fins == 0
    ensures LastTells(f, from, RawEdge(f))
  {
    hide Last, RawEdge;
    var p := f.wire[|e.wire|];
    assert f.wire == e.wire + [p];
    ToldPush(e, f, from, p);
  }

  lemma FourSteps(e: Engine, a: Event, b: Event, c: Event, d: Event)
    requires Allowed(e, a)
    requires var e1 := Step(e, 0.0, a); Allowed(e1, b)
    requires var e2 := Step(Step(e, 0.0, a), 0.0, b); Allowed(e2, c) && Allowed(Step(e2, 0.0, c), d)
    ensures var evs := [(0.0, a), (0.0, b), (0.0, c), (0.0, d)];
            AllowedRun(e, evs) && After(e, evs) == Step(Step(Step(Step(e, 0.0, a), 0.0, b), 0.0, c), 0.0, d)
  {
    hide Step, Allowed, AllowedRun, After;
    var e1 := Step(e, 0.0, a);
    var e2 := Step(e1, 0.0, b);
    var e3 := Step(e2, 0.0, c);
    EventFirst(e3, d, []);
    NoEvents(Step(e3, 0.0, d));
    EventFirst(e2, c, [(0.0, d)]);
    EventFirst(e1, b, [(0.0, c), (0.0, d)]);
    EventFirst(e, a, [(0.0, b), (0.0, c), (0.0, d)]);
    var x, y: seq<(real, Event)> := [(0.0, c)] + [(0.0, d)], [(0.0, d)] + [];
    assert x == [(0.0, c), (0.0, d)] && y == [(0.0, d)] && [(0.0, b)] + x == [(0.0, b), (0.0, c), (0.0, d)];
    assert [(0.0, a)] + [(0.0, b), (0.0, c), (0.0, d)] == [(0.0, a), (0.0, b), (0.0, c), (0.0, d)];
  }

  lemma EventFirst(e: Engine, ev: Event, rest: seq<(real, Event)>)
    requires Allowed(e, ev)
    ensures var evs := [(0.0, ev)] + rest;
            (AllowedRun(e, evs) <==> AllowedRun(Step(e, 0.0, ev), rest)) && After(e, evs) == After(Step(e, 0.0, ev), rest)
  {
    hide Step, Allowed;
    assert ([(0.0, ev)] + rest)[1..] == rest;
  }

  /** While the record lags: an old segment, a byte, a read and an old segment move the edge by one. */
  lemma Creeps(f: Engine, from: nat) returns (later: seq<(real, Event)>)
    requires Lagging(f, 0) && Ahead(f) < 0 && f.rcv.buf == [] && SwsThreshold(f) >= 2 && from <= |f.wire|
    ensures AllowedRun(f, later) && Synced(After(f, later).state) && !StridesFrom(After(f, later), from)
  {
    hide Inv, Step, AllowedRun, After, StridesFrom, Ahead, Strides, RawEdge, LastTells, Lags;
    var f1 := Step(f, 0.0, Arrives(Stale(f)));
    StaleAnswered(f, 0);
    SameAhead(f, f1) by { LagsOn(f, f1); assert Lags(f); RecordThere(f); }
    ByteTaken(f1);
    var f2 := Step(f1, 0.0, Arrives(NextByte(f1)));
    BufferCount(f2);
    ByteRead(f2);
    var f3 := Step(f2, 0.0, ReceiveCalled(1));
    StaleAnswered(f3, 1);
    var f4 := Step(f3, 0.0, Arrives(Stale(f3)));
    FourSteps(f, Arrives(Stale(f)), Arrives(NextByte(f1)), ReceiveCalled(1), Arrives(Stale(f3)));
    later := [(0.0, Arrives(Stale(f))), (0.0, Arrives(NextByte(f1))), (0.0, ReceiveCalled(1)), (0.0, Arrives(Stale(f3)))];
    var edge, thr := RawEdge(f1), SwsThreshold(f4);
    assert RawEdge(f4) == RawEdge(f3) by { SameRaw(f3, f4); }
    if StridesFrom(f4, from) {
      ToldStrides(f4, from);
      PriorStrides(f3, f4, from, thr);
      PriorStrides(f2, f3, from, thr);
      PriorStrides(f1, f2, from, thr);
      FirstTells(f, f1, from);
      EdgeHolds(f1, f2, from, thr, edge);
      EdgeHolds(f2, f3, from, thr, edge);
      EdgeHolds(f3, f4, from, thr, edge);
      assert false;
    }
  }

  lemma RecordThere(e: Engine)
    requires Lags(e)
    ensures e.rcv.advRight.Some?
  {
  }

  lemma BufferCount(e: Engine)
    ensures |e.rcv.buf| == 0 ==> e.rcv.buf == []
  {
  }

  lemma SameRaw(e: Engine, f: Engine)
    requires OnlyMarks(e, f)
    ensures RawEdge(f) == RawEdge(e)
  {
  }

  /** When the edges of an active opener move in strides, for a peer that answers our SYN with a plain SYN-ACK: exactly if
      its number moves RCV.NXT forward from where it was, or leaves it there; or every edge is a stride. */
  lemma ActiveStridesExactly(e: Engine, now: real, seg: Segment)
    requires Opener(e) && PlainSynAck(e, seg)
    ensures var f := Step(e, now, Arrives(seg));
            f.state == ESTABLISHED && (AlwaysStrides(f, |e.wire|) <==> MovesForward(e, seg.seqNo) || SwsThreshold(f) <= 1)
  {
    hide Reached, Step, AlwaysStrides, SwsThreshold, MovesForward, Inv, AllowedRun, After, StridesFrom, Lags, Ahead;
    PlainConnects(e, now, seg);
    var f := Step(e, now, Arrives(seg));
    if MovesForward(e, seg.seqNo) {
      ForwardStrides(e, now, seg);
    } else if SwsThreshold(f) <= 1 {
      AnyEdgeStrides(e, now, seg);
    } else {
      ConnectsLagging(e, now, seg);
      var later := Creeps(f, |e.wire|);
      assert !AlwaysStrides(f, |e.wire|) by { NotAlways(f, |e.wire|, later); }
    }
  }

  lemma NotAlways(f: Engine, from: nat, later: seq<(real, Event)>)
    requires AllowedRun(f, later) && Synced(After(f, later).state) && !StridesFrom(After(f, later), from)
    ensures !AlwaysStrides(f, from)
  {
    hide AllowedRun, After, StridesFrom;
  }

  lemma PlainConnects(e: Engine, now: real, seg: Segment)
    requires Opener(e) && PlainSynAck(e, seg)
    ensures Step(e, now, Arrives(seg)).state == ESTABLISHED
  {
    hide Reached, Inv, TakeSyn, SendPending, SendAck, SetState, React, SeqGt, SeqLeq, PumpData;
    OpenerRecorded(e);
    var a := At(e, now);
    ClockOk(e, now, None);
    ArrivalIs(e, now, seg);
    AnswersSyn(a, seg);
    TakeSynOk(a, seg, None);
    SynTakenIs(a, seg);
    TakenPlainly(a, TakeSyn(a, seg), seg);
    var m := SetState(TakeSyn(a, seg), ESTABLISHED);
    StateTouches(TakeSyn(a, seg), ESTABLISHED);
    AckTouches(m);
    StaysEstablished(SendAck(m));
    assert Step(e, now, Arrives(seg)) == SendPending(SendAck(m));
  }

  /** With no FIN pending the send path leaves the state alone. */
  lemma StaysEstablished(e: Engine)
    requires !e.snd.finPending
    ensures SendPending(e).state == e.state
  {
    hide PumpData;
    PumpStays(e);
  }

  lemma {:induction false} PumpStays(e: Engine)
    requires !e.snd.finPending
    ensures PumpData(e).state == e.state
    decreases |e.snd.appBuf|
  {
    hide QueueAndSend, SendFin, UsableWindow;
    if e.snd.appBuf != [] && e.snd.wnd != 0 && UsableWindow(e) > 0 {
      var n := Min(Min(e.snd.mss, UsableWindow(e)), |e.snd.appBuf|);
      if !(e.cfg.timers.nagle && e.snd.retx != [] && n < e.snd.mss) {
        var g := e.(snd := e.snd.(appBuf := e.snd.appBuf[n..]));
        QueueOnlySends(g, ACK, e.snd.appBuf[..n], false);
        QueueLeavesFin(g, ACK, e.snd.appBuf[..n], false);
        ChunkTakes(e, n);
        PumpStays(SendChunk(e, n));
      }
    }
  }

  lemma QueueLeavesFin(e: Engine, flags: Flags, payload: seq<byte>, withMss: bool)
    ensures QueueAndSend(e, flags, payload, withMss).snd.finPending == e.snd.finPending
  {
    hide RcvWnd, AdvertisedRight, PosOf, Reach;
  }
}
