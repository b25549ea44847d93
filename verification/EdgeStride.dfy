/** Receiver silly-window avoidance over whole runs: a passive opener's advertised right edge stays where it is or
    moves on by at least the threshold, but for a FIN's own number. */
module EdgeStride {
  import opened SeqNum
  import opened EngineState
  import opened EngineSpec
  import opened EngineFacts
  import opened SendInvariant
  import opened SendPath
  import opened EngineInvariant
  import opened EngineRuns
  import opened SegmentArrives
  import opened Opening
  import opened WireLog
  import opened WindowEdge
  import opened ReceiveWindow
  import opened GiveUpBound

  function Full(cfg: Config): Bound { Bound(cfg.rcvWnd, true, 0) }

  /** An active opener's SYN has recorded the edge of the whole buffer, from RCV.NXT as it then was. */
  predicate Recorded(e: Engine) { e.rcv.advRight == Some(Add(e.rcv.nxt, e.cfg.rcvWnd)) }

  /** A passive opener's edges move in strides, and did not before the SYN of its present peer. */
  ghost predicate Striding(e: Engine) {
    && (e.state == SYN_SENT ==> Recorded(e))
    && (e.passive && Synced(e.state) ==> exists base: int :: Roomy(e, base, Full(e.cfg)))
    && (e.passive && e.state == LISTEN ==> Heard(e))
    && (e.state == CLOSED && !e.hist.started ==> Heard(e))
  }

  /** Without a connection attempt nothing is advertised. */
  ghost predicate Quiet(e: Engine, f: Engine) {
    && !Synced(f.state) && (f.state == LISTEN ==> e.state == LISTEN || !e.hist.started)
    && (Awaits(f) ==> f.rcv.advRight == e.rcv.advRight && f.tm.ackCount == e.tm.ackCount && f.cfg == e.cfg)
    && (f.state == SYN_SENT && e.rcv.advRight == None && e.rcv.buf == [] ==> Recorded(f) && Awaits(e))
    && (Awaits(f) ==> f.wire == e.wire || exists p :: f.wire == e.wire + [p] && !Advertises(p))
  }

  /** A connection may yet be opened. */
  predicate Awaits(e: Engine) { e.state == LISTEN || (e.state == CLOSED && !e.hist.started) }

  lemma QuietHeard(e: Engine, f: Engine)
    requires Quiet(e, f) && Heard(e) && Awaits(f)
    ensures Heard(f)
  {
  }

  /** No data, no timer but perhaps a persist timer left over. */
  lemma Idle(e: Engine)
    requires Inv(e, None) && (e.state == CLOSED || e.state == LISTEN)
    ensures Cleared(e) && e.tm.tw == None && e.tm.ack == None && e.tm.ka == None
    ensures if e.state == LISTEN then e.rcv.buf == [] && e.hist.started && e.tm.persist == None else e.snd.appBuf == []
  {
    hide WireOk, Trail, Settled;
  }

  /** A SYN records the edge of the whole buffer. */
  lemma OpenRecords(e: Engine)
    requires e.rcv.advRight == None && e.rcv.buf == []
    ensures Recorded(EngineSpec.Open(e))
  {
    hide PosOf, Reach;
  }

  lemma QuietOpen(e: Engine, act: bool, r: Option<u16>, l: Option<u16>, t: Option<real>)
    requires (e.state == CLOSED && !e.hist.started) || (e.state == LISTEN && e.hist.started)
    ensures Quiet(e, OpenCall(e, act, r, l, t).0)
  {
    hide QueueAndSend;
    var f := e.(remotePort := if r.Some? then r.value else e.remotePort,
                localPort := if l.Some? then l.value else e.localPort,
                tm := e.tm.(userTimeout := if t.Some? then t else e.tm.userTimeout));
    if act {
      OpenState(f);
      if e.rcv.advRight == None && e.rcv.buf == [] { OpenRecords(f); }
    }
  }

  /** Nothing is waiting that a timer could send. */
  lemma QuietTimer(e: Engine, ev: Event)
    requires Cleared(e) && e.tm.tw == None && e.tm.ack == None && e.tm.ka == None && (e.tm.persist.Some? ==> e.snd.appBuf == [])
    requires Allowed(e, ev) && (ev.RtoFires? || ev.PersistFires? || ev.TimeWaitFires? || ev.DelackFires? || ev.KeepaliveFires?)
    requires e.state == CLOSED || e.state == LISTEN
    ensures React(e, ev) == e.(tm := React(e, ev).tm) && React(e, ev).tm.ackCount == e.tm.ackCount
  {
    hide GiveUp, Retransmit, PumpData, SendChunk, SendFin, Emit;
  }

  lemma QuietArrival(e: Engine, seg: Segment)
    requires e.state == CLOSED
    ensures var f := OnSegment(e, seg); Quiet(e, f)
  {
    hide Add;
    RstReplyTouches(e, seg, seg.ackNo, 0, false);
    RstReplyTouches(e, seg, 0, Add(seg.seqNo, seg.SegLen()), true);
  }

  /** SEND and RECEIVE find nothing to do. */
  lemma QuietCall(e: Engine, d: seq<byte>, t: Option<real>, n: nat)
    requires e.state == CLOSED || (e.state == LISTEN && e.rcv.buf == [] && e.hist.started)
    ensures Quiet(e, Send(e, d, t).0) && Quiet(e, Receive(e, n).0)
  {
    hide EngineSpec.Open, SendAck, SendPending;
    var f := Buffer(e.(tm := e.tm.(userTimeout := if t.Some? then t else e.tm.userTimeout)), d);
    OpenState(f);
    if e.rcv.advRight == None && e.rcv.buf == [] { OpenRecords(f); }
  }

  lemma QuietStep(e: Engine, now: real, ev: Event)
    requires Inv(e, None) && Allowed(e, ev) && (e.state == CLOSED || (e.state == LISTEN && !ev.Arrives?))
    ensures Quiet(e, Step(e, now, ev))
  {
    hide Inv, EnterClosed, OpenCall, Send, Receive, OnSegment, OnRto, OnPersist, OnTimeWait, OnDelack, OnKeepalive, SendRst;
    Idle(e);
    var a := At(e, now);
    StepOk(e, now, ev, None);
    Started(e, Step(e, now, ev));
    match ev
    case OpenCalled(act, r, l, t) => QuietOpen(a, act, r, l, t);
    case SendCalled(d, t) => QuietCall(a, d, t, 0);
    case ReceiveCalled(n) => QuietCall(a, [], None, n);
    case CloseCalled => ClosedIsClosed(a);
    case AbortCalled => ClosedIsClosed(SendRst(a));
    case Arrives(seg) => QuietArrival(a, seg);
    case _ => QuietTimer(a, ev);
  }

  lemma StridingStep(e: Engine, now: real, ev: Event)
    requires Inv(e, None) && Striding(e) && Allowed(e, ev) && Bounds(Full(e.cfg), e.cfg)
    ensures Striding(Step(e, now, ev))
  {
    hide Inv, Step, Allowed, Roomy, Climbs, Quiet, Heard, Fitting;
    var f := Step(e, now, ev);
    StepOk(e, now, ev, None);
    StepAppends(e, now, ev);
    Started(e, f);
    if e.state == CLOSED || (e.state == LISTEN && !ev.Arrives?) {
      QuietStep(e, now, ev);
      QuietEnds(e, f);
      if f.state == SYN_SENT { QuietRecords(e, now, ev); }
      if Awaits(f) && Heard(e) { QuietHeard(e, f); }
    } else if e.state == SYN_SENT {
      NothingInListen(e);
      SynSentKeeps(e, now, ev);
    } else if e.state == LISTEN {
      NothingInListen(e);
      ListenFits(e, ev);
      ListenStep(e, now, ev);
      OpeningStep(e, now, ev, Full(e.cfg));
    } else if e.passive {
      var base: int :| Roomy(e, base, Full(e.cfg));
      SyncedStep(e, now, ev, base, Full(e.cfg));
    }
  }

  /** A connection that is not open yet opens with no edge on record. */
  lemma QuietRecords(e: Engine, now: real, ev: Event)
    requires Inv(e, None) && Striding(e) && Allowed(e, ev) && (e.state == CLOSED || (e.state == LISTEN && !ev.Arrives?))
    requires Step(e, now, ev).state == SYN_SENT
    ensures Recorded(Step(e, now, ev))
  {
    hide Inv, Step, Allowed, Roomy, Recorded, SameEdges;
    QuietStep(e, now, ev);
    StepOk(e, now, ev, None);
    Idle(e);
    if e.state == CLOSED { ClosedOpens(e, now, ev); } else { NothingInListen(e); }
  }

  lemma ClosedOpens(e: Engine, now: real, ev: Event)
    requires Inv(e, None) && Allowed(e, ev) && e.state == CLOSED && Step(e, now, ev).state == SYN_SENT
    ensures !e.hist.started && e.rcv.buf == []
  {
    hide WireOk, Trail, Settled, SetState;
    if e.hist.started { ClosedStays(e, now, ev); }
  }

  lemma ListenStep(e: Engine, now: real, ev: Event)
    requires e.state == LISTEN && ev.Arrives?
    ensures Step(e, now, ev).state != SYN_SENT && Step(e, now, ev).state != CLOSED
  {
    hide QueueAndSend, SetState, AnswerSyn, EmitRstReply;
    var a, seg := At(e, now), ev.seg;
    RstReplyTouches(a, seg, seg.ackNo, 0, false);
    var f := a.(remotePort := if a.remotePort == 0 then seg.srcPort else a.remotePort);
    StateTouches(AnswerSyn(f, seg), SYN_RECEIVED);
    QueueOnlySends(SetState(AnswerSyn(f, seg), SYN_RECEIVED), SYN_ACK, [], true);
  }

  /** While our SYN is out the record stays. */
  lemma SynSentKeeps(e: Engine, now: real, ev: Event)
    requires Inv(e, None) && e.state == SYN_SENT && Recorded(e) && Allowed(e, ev) && Unreceived(e) && e.cfg.rcvWnd < 0x1_0000
    ensures Step(e, now, ev).state == SYN_SENT ==> Recorded(Step(e, now, ev))
  {
    hide Inv, GiveUp, Retransmit, EnterClosed, SendRst, OnSegment, UserTimedOut;
    SynSentTimers(e);
    var a := At(e, now);
    match ev
    case Arrives(seg) =>
      ClockOk(e, now, None);
      if OnSegment(a, seg).state == SYN_SENT { SynSentArrival(a, seg); }
    case RtoFires =>
      var f := a.(tm := a.tm.(rt := None));
      var g := f.(tm := f.tm.(rtoCount := f.tm.rtoCount + 1));
      GiveUpCloses(f, UserTimeout);
      GiveUpCloses(g, RetransmissionTimeout);
      if g.snd.retx != [] { AgainRecords(g); }
    case CloseCalled => ClosedIsClosed(a);
    case AbortCalled => ClosedIsClosed(SendRst(a));
    case _ =>
  }

  lemma SynSentTimers(e: Engine)
    requires Inv(e, None) && e.state == SYN_SENT
    ensures e.tm.persist == None && e.tm.ack == None && e.tm.ka == None && e.tm.tw == None
  {
    hide WireOk, Trail, Settled, SendOk;
  }

  lemma AgainRecords(e: Engine)
    requires e.snd.retx != [] && Recorded(e) && e.rcv.buf == [] && e.cfg.rcvWnd < 0x1_0000
    ensures Recorded(Retransmit(e))
  {
    hide PosOf, Reach;
    NotAhead(e.rcv.nxt, e.cfg.rcvWnd);
  }

  lemma NotAhead(x: u32, w: nat)
    requires w < 0x1_0000
    ensures !SeqGt(Add(x, w), Add(x, w))
  {
  }

  lemma SynSentArrival(e: Engine, seg: Segment)
    requires Inv(e, None) && e.state == SYN_SENT && Recorded(e) && seg.window < 0x1_0000 && OnSegment(e, seg).state == SYN_SENT
    ensures Recorded(OnSegment(e, seg))
  {
    hide Inv, EmitRstReply, EnterClosed, TakeSyn, SendPending, SendAck, SetState, HandleSynchronized, SimultaneousOpen, SeqLeq, SeqGt, Between;
    RstReplyTouches(e, seg, seg.ackNo, 0, false);
    ClosedIsClosed(SignalError(e, ConnectionRefused));
    if seg.flags.syn && !seg.flags.rst && !(seg.flags.ack && (SeqLeq(seg.ackNo, e.snd.iss) || SeqGt(seg.ackNo, e.snd.nxt))) {
      SynSentTakes(e, seg, None);
    }
  }

  lemma Started(e: Engine, f: Engine)
    requires Inv(e, None) && Continues(e, f)
    ensures (e.state != CLOSED ==> e.hist.started) && (e.hist.started ==> f.hist.started) && f.cfg == e.cfg
  {
    hide WireOk, Trail, Settled, SendOk;
  }

  lemma QuietEnds(e: Engine, f: Engine)
    requires Quiet(e, f)
    ensures !Synced(f.state) && (f.state == LISTEN ==> e.state == LISTEN || !e.hist.started)
  {
  }

  lemma ListenFits(e: Engine, ev: Event)
    requires e.state == LISTEN
    ensures Fitting(e, ev, e.cfg.rcvWnd)
  {
  }

  lemma {:induction false} StridingRun(e: Engine, evs: seq<(real, Event)>)
    requires Inv(e, None) && Striding(e) && AllowedRun(e, evs) && Bounds(Full(e.cfg), e.cfg)
    ensures Striding(After(e, evs)) && After(e, evs).cfg == e.cfg
    decreases |evs|
  {
    hide Inv, Step, Allowed, Striding;
    if evs != [] {
      StepOk(e, evs[0].0, evs[0].1, None);
      StridingStep(e, evs[0].0, evs[0].1);
      StridingRun(Step(e, evs[0].0, evs[0].1), evs[1..]);
    }
  }

  /** Two packets that advertise an edge, with none between that does. */
  predicate Consecutive(ps: seq<Packet>, i: nat, j: nat) {
    i < j < |ps| && Advertises(ps[i]) && Advertises(ps[j]) && forall k :: i < k < j ==> !Advertises(ps[k])
  }

  lemma {:induction false} LastIs(ps: seq<Packet>, i: nat)
    requires i < |ps| && Advertises(ps[i]) && forall k :: i < k < |ps| ==> !Advertises(ps[k])
    ensures Last(ps) == Some(ps[i])
  {
    if i < |ps| - 1 { LastIs(ps[..|ps| - 1], i); }
  }

  lemma {:induction false} StrideBetween(ps: seq<Packet>, i: nat, j: nat, thr: int)
    requires Strides(ps, thr) && Consecutive(ps, i, j)
    ensures Stride(ps[i], ps[j], thr)
  {
    hide Stride;
    if j == |ps| - 1 { LastIs(ps[..j], i); } else { StrideBetween(ps[..|ps| - 1], i, j, thr); }
  }

  /** Silly-window avoidance by a passive opener, in any run against any peer: from one segment that advertises an edge
      to the next the edge stays, or moves right by at least the threshold, or moves by one over a FIN consumed
      between them. */
  lemma EdgeMovesInStrides(cfg: Config, port: u16, ut: Option<real>, t: real, evs: seq<(real, Event)>, i: nat, j: nat)
    requires cfg.timers.swsAvoidance && cfg.rcvWnd < 0x1_0000 && AllowedRun(Fresh(cfg, port, ut, t), evs)
    requires var e := After(Fresh(cfg, port, ut, t), evs);
             e.passive && Synced(e.state) && Consecutive(e.wire, i, j)
    ensures var e := After(Fresh(cfg, port, ut, t), evs);
            var p, q := e.wire[i], e.wire[j];
            || PacketEdge(q) == PacketEdge(p)
            || PacketEdge(q) >= PacketEdge(p) + SwsThreshold(e)
            || (PacketEdge(q) == PacketEdge(p) + 1 && q.fins == p.fins + 1)
  {
    hide Inv, AllowedRun, After, Consecutive, Fitted, LastStands, Strides;
    var e0 := Fresh(cfg, port, ut, t);
    FreshOk(cfg, port, ut, t, None);
    StridingRun(e0, evs);
    var e := After(e0, evs);
    StrideBetween(e.wire, i, j, SwsThreshold(e));
  }
}
