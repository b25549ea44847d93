/** What every run of one engine keeps, whatever its peer sends: the theorems the run invariant was built for. */
module RunTheorems {
  import opened SeqNum
  import opened EngineState
  import opened EngineSpec
  import opened EngineFacts
  import opened SendInvariant
  import opened SendPath
  import opened AckPath
  import opened EngineInvariant
  import opened SegmentArrives
  import opened Opening
  import opened EngineRuns
  import opened SegmentCodec

  /** `e` is what some allowed run of a fresh engine leads to. */
  ghost predicate Reached(e: Engine) {
    exists cfg: Config, port: u16, ut: Option<real>, t: real, evs: seq<(real, Event)> ::
      AllowedRun(Fresh(cfg, port, ut, t), evs) && e == After(Fresh(cfg, port, ut, t), evs)
  }

  lemma ReachedInv(e: Engine)
    requires Reached(e)
    ensures Inv(e, None)
  {
    hide Inv, AllowedRun, After, Fresh;
    var cfg: Config, port: u16, ut: Option<real>, t: real, evs: seq<(real, Event)> :|
      AllowedRun(Fresh(cfg, port, ut, t), evs) && e == After(Fresh(cfg, port, ut, t), evs);
    FreshOk(cfg, port, ut, t, None);
    RunOk(Fresh(cfg, port, ut, t), evs);
  }

  lemma {:induction false} RunOneMore(e: Engine, evs: seq<(real, Event)>, now: real, ev: Event)
    requires AllowedRun(e, evs) && Allowed(After(e, evs), ev)
    ensures AllowedRun(e, evs + [(now, ev)]) && After(e, evs + [(now, ev)]) == Step(After(e, evs), now, ev)
    decreases |evs|
  {
    hide Step, Allowed;
    var all := evs + [(now, ev)];
    if evs == [] {
      assert all[1..] == [];
    } else {
      RunOneMore(Step(e, evs[0].0, evs[0].1), evs[1..], now, ev);
      assert all[1..] == evs[1..] + [(now, ev)];
    }
  }

  lemma ReachedOn(e: Engine, now: real, ev: Event)
    requires Reached(e) && Allowed(e, ev)
    ensures Reached(Step(e, now, ev))
  {
    hide AllowedRun, After, Fresh, Step, Allowed;
    var cfg: Config, port: u16, ut: Option<real>, t: real, evs: seq<(real, Event)> :|
      AllowedRun(Fresh(cfg, port, ut, t), evs) && e == After(Fresh(cfg, port, ut, t), evs);
    RunOneMore(Fresh(cfg, port, ut, t), evs, now, ev);
  }

  // ---------------------------------------------------------------------------------------------
  // Conservation
  // ---------------------------------------------------------------------------------------------

  /** The queued payloads, in order. */
  function Queued(retx: seq<Outgoing>): seq<byte> {
    if retx == [] then [] else retx[0].payload + Queued(retx[1..])
  }

  /** The entries cover the sequence numbers from `una` to `nxt`, each starting where the one before ends. */
  predicate Chained(retx: seq<Outgoing>, una: u32, nxt: u32) {
    if retx == [] then una == nxt
    else retx[0].seqNo == una && retx[0].SegLen() > 0 && Chained(retx[1..], retx[0].End(), nxt)
  }

  /** How many bytes of the stream lie below position `pos`. */
  function BytesBelow(pos: int, sent: seq<byte>): nat { Min(Max(pos - 1, 0), |sent|) }

  lemma {:induction false} TilesHoldTheRest(retx: seq<Outgoing>, iss: u32, from: int, h: History)
    requires Tiles(retx, iss, from, h) && h.synOut && 0 <= from
    ensures Queued(retx) == h.sent[BytesBelow(from, h.sent)..]
    ensures Chained(retx, Wrap(iss + from), Wrap(iss + SentEnd(h)))
  {
    hide Wrap;
    if retx != [] {
      var o := retx[0];
      TilesHoldTheRest(retx[1..], iss, o.EndPos(), h);
      EntryEnd(o, iss, h);
      var i, j := BytesBelow(from, h.sent), BytesBelow(o.EndPos(), h.sent);
      assert o.payload == h.sent[i..j];
      assert h.sent[i..] == h.sent[i..j] + h.sent[j..];
    }
  }

  /** Conservation: what the application handed to SEND is the acknowledged bytes, then the payloads in the
      retransmission queue, then the application buffer; and the queue covers SND.UNA to SND.NXT exactly. */
  lemma NothingLostNothingTwice(e: Engine)
    requires Reached(e) && Active(e.state)
    ensures Queued(e.snd.retx) + e.snd.appBuf == e.hist.accepted[BytesBelow(e.hist.unaPos, e.hist.accepted)..]
    ensures Chained(e.snd.retx, e.snd.una, e.snd.nxt)
  {
    hide Reached, Tiles, WireOk, Trail, Coupled, Settled, Wrap, KarnOk;
    ReachedInv(e);
    TilesHoldTheRest(e.snd.retx, e.snd.iss, e.hist.unaPos, e.hist);
    var i := BytesBelow(e.hist.unaPos, e.hist.sent);
    assert e.hist.sent[i..] + e.snd.appBuf == (e.hist.sent + e.snd.appBuf)[i..];
  }

  // ---------------------------------------------------------------------------------------------
  // No lost wakeup
  // ---------------------------------------------------------------------------------------------

  predicate HasWork(e: Engine) {
    MaySend(e) && (e.snd.appBuf != [] || (e.snd.finPending && !e.snd.finSent))
  }

  /** What an engine with work left is waiting for, and the timer that will wake it. */
  predicate Woken(e: Engine) {
    || (e.snd.wnd == 0 && e.tm.persist.Some?)
    || (e.snd.wnd > 0 && UsableWindow(e) <= 0 && e.snd.retx != [] && e.tm.rt.Some?)
    || (e.cfg.timers.nagle && e.snd.retx != [] && e.tm.rt.Some?
        && Min(UsableWindow(e), |e.snd.appBuf|) < e.snd.mss)
  }

  /** No reachable state with work left is stuck: the window is shut and the persist timer runs, or it is
      full, or Nagle holds a short tail, and in both cases something is in flight and the RTO runs. Nor is
      anything left undone that could be done now. */
  lemma NoLostWakeup(e: Engine)
    requires Reached(e)
    ensures e.snd.retx != [] ==> e.tm.rt.Some?
    ensures HasWork(e) ==> Woken(e)
    ensures SendPending(e) == e
  {
    hide Reached, Tiles, WireOk, Trail, Wrap, UsableWindow, SendPending, KarnOk;
    ReachedInv(e);
    SettledIsFixpoint(e);
    if HasWork(e) {
      UsableWindowIs(e);
      TilesEmpty(e.snd.retx, e.snd.iss, e.hist.unaPos, e.hist);
    }
  }

  /** Each unit of the send loop only takes from the buffer and never unarms the persist timer. */
  lemma {:induction false} PumpProgress(e: Engine)
    ensures |PumpData(e).snd.appBuf| <= |e.snd.appBuf|
    decreases |e.snd.appBuf|
  {
    hide QueueAndSend, SetState, UsableWindow;
    if e.snd.appBuf == [] {
      FinLeavesBuffer(e);
    } else if e.snd.wnd != 0 && UsableWindow(e) > 0 {
      var n := Min(Min(e.snd.mss, UsableWindow(e)), |e.snd.appBuf|);
      if !(e.cfg.timers.nagle && e.snd.retx != [] && n < e.snd.mss) {
        ChunkTakes(e, n);
        PumpProgress(SendChunk(e, n));
      }
    }
  }

  lemma FinIsSent(e: Engine)
    ensures SendFin(e).snd.finSent
  {
    hide MakeSegment, AdvertisedRight, PosOf;
  }

  /** Calling the send path again changes nothing exactly when there is nothing it could do. */
  lemma SettledIffFixpoint(e: Engine)
    ensures SendPending(e) == e <==> Settled(e)
  {
    hide QueueAndSend, SendChunk, SendFin, UsableWindow;
    if Settled(e) {
      SettledIsFixpoint(e);
    } else if e.snd.appBuf == [] {
      FinIsSent(e);
    } else if e.snd.wnd != 0 {
      var n := Min(Min(e.snd.mss, UsableWindow(e)), |e.snd.appBuf|);
      ChunkTakes(e, n);
      PumpProgress(SendChunk(e, n));
    }
  }

  /** A delayed acknowledgement is never forgotten: at most one segment waits for it, and then its timer runs. */
  lemma NoForgottenAck(e: Engine)
    requires Reached(e) && e.state != CLOSED
    ensures e.tm.ackCount <= 1 && (e.tm.ackCount == 1 ==> e.tm.ack.Some?)
  {
    hide Reached, SendOk, WireOk, Trail, Settled, Knows;
    ReachedInv(e);
  }

  // ---------------------------------------------------------------------------------------------
  // Exact cutting
  // ---------------------------------------------------------------------------------------------

  /** The limits of the send loop: segment size, right edge of the peer's window, and where all that was accepted ends. */
  datatype Limits = Limits(mss: nat, edge: int, end: int, nagle: bool)

  /** A segment at position `from` is as long as it may be: of full size, or up to the window's edge, or all that is left;
      with Nagle, short only if nothing is outstanding. */
  predicate AsLongAsMay(p: Packet, from: int, l: Limits, idle: bool) {
    var n := |p.seg.payload|;
    && n <= l.mss && (n > 0 ==> n == l.mss || from + n == l.edge || from + n == l.end)
    && (l.nagle && !idle && n > 0 ==> n == l.mss)
  }

  /** The segments of `ps` carry consecutive pieces from position `from` on, each as long as it may be, none beyond the edge. */
  ghost predicate Cut(ps: seq<Packet>, from: int, l: Limits, idle: bool)
    decreases |ps|
  {
    ps == [] || (&& ps[0].pos == from && 0 < ps[0].seg.SegLen() && AsLongAsMay(ps[0], from, l, idle)
                 && from + ps[0].seg.SegLen() <= l.edge
                 && Cut(ps[1..], from + ps[0].seg.SegLen(), l, false))
  }

  function LimitsOf(e: Engine): Limits {
    Limits(e.snd.mss, e.hist.unaPos + e.snd.wnd, 1 + |e.hist.accepted|, e.cfg.timers.nagle)
  }

  /** Exact cutting: the send loop adds segments that continue the stream at SND.NXT without gap or overlap, none ending
      beyond SND.UNA + SND.WND, and each of exactly SND.MSS bytes unless the window or the data ends before. */
  lemma {:induction false} LoopCutsExactly(e: Engine, peer: Option<u32>)
    requires Live(e, peer) && MaySend(e)
    ensures var f := PumpData(e);
            && |e.wire| <= |f.wire| && f.wire[..|e.wire|] == e.wire
            && Cut(f.wire[|e.wire|..], SentEnd(e.hist), LimitsOf(e), e.snd.retx == [])
    decreases |e.snd.appBuf|
  {
    hide Live, UsableWindow, SendChunk, SendFin, SetState, SendOk, AsLongAsMay, LimitsOf, Cut;
    assert SendOk(e) by { LiveSendOk(e, peer); }
    UsableWindowIs(e);
    EdgeIs(e);
    NoCut(SentEnd(e.hist), LimitsOf(e), e.snd.retx == []);
    assert e.wire[|e.wire|..] == [] && ArmPersist(e).wire == e.wire;
    if e.snd.appBuf == [] {
      if e.snd.finPending && !e.snd.finSent && e.snd.wnd > 0 && UsableWindow(e) >= 1 {
        FinIsCut(e);
        var p := SendFin(e).wire[|e.wire|];
        NoDataIsLong(p, SentEnd(e.hist), LimitsOf(e), e.snd.retx == []);
        NoCut(SentEnd(e.hist) + 1, LimitsOf(e), false);
        CutFirst(p, [], SentEnd(e.hist), LimitsOf(e), e.snd.retx == []);
        assert SendFin(e).wire[|e.wire|..] == [p] + [];
      }
    } else if e.snd.wnd != 0 && UsableWindow(e) > 0 {
      var n := Min(Min(e.snd.mss, UsableWindow(e)), |e.snd.appBuf|);
      if !(e.cfg.timers.nagle && e.snd.retx != [] && n < e.snd.mss) {
        ChunkIsCut(e, n, peer);
        var g := SendChunk(e, n);
        ChunkIsLong(e, n, g.wire[|e.wire|]);
        LoopCutsExactly(g, peer);
        var f := PumpData(g);
        assert f.wire[|e.wire|..] == [g.wire[|e.wire|]] + f.wire[|g.wire|..] by {
          assert f.wire == g.wire + f.wire[|g.wire|..];
        }
        CutFirst(g.wire[|e.wire|], f.wire[|g.wire|..], SentEnd(e.hist), LimitsOf(e), e.snd.retx == []);
      }
    }
  }

  lemma NoCut(from: int, l: Limits, idle: bool)
    ensures Cut([], from, l, idle)
  {
  }

  lemma CutFirst(p: Packet, rest: seq<Packet>, from: int, l: Limits, idle: bool)
    requires p.pos == from && 0 < p.seg.SegLen() && AsLongAsMay(p, from, l, idle) && from + p.seg.SegLen() <= l.edge
    requires Cut(rest, from + p.seg.SegLen(), l, false)
    ensures Cut([p] + rest, from, l, idle)
  {
    assert ([p] + rest)[1..] == rest;
  }

  lemma EdgeIs(e: Engine)
    ensures LimitsOf(e).edge == e.hist.unaPos + e.snd.wnd
  {
  }

  lemma NoDataIsLong(p: Packet, from: int, l: Limits, idle: bool)
    requires p.seg.payload == []
    ensures AsLongAsMay(p, from, l, idle)
  {
  }

  lemma ChunkIsLong(e: Engine, n: nat, p: Packet)
    requires SendOk(e) && e.snd.appBuf != [] && UsableWindow(e) == e.snd.wnd - (SentEnd(e.hist) - e.hist.unaPos) > 0
    requires n == Min(Min(e.snd.mss, UsableWindow(e)), |e.snd.appBuf|) == |p.seg.payload|
    requires !(e.cfg.timers.nagle && e.snd.retx != [] && n < e.snd.mss)
    ensures AsLongAsMay(p, SentEnd(e.hist), LimitsOf(e), e.snd.retx == [])
  {
    hide SendOk, UsableWindow;
    BufferEnds(e);
  }

  lemma BufferEnds(e: Engine)
    requires SendOk(e) && e.snd.appBuf != []
    ensures SentEnd(e.hist) + |e.snd.appBuf| == 1 + |e.hist.accepted|
  {
    hide Tiles, Wrap, KarnOk, Tally, AllAck;
  }

  lemma LiveSendOk(e: Engine, peer: Option<u32>)
    requires Live(e, peer)
    ensures SendOk(e)
  {
    hide SendOk, WireOk, Trail, Knows;
  }

  lemma ChunkIsCut(e: Engine, n: nat, peer: Option<u32>)
    requires Live(e, peer) && 0 < n <= |e.snd.appBuf| && n <= e.snd.mss && n <= UsableWindow(e)
    ensures var g := SendChunk(e, n);
            && Live(g, peer) && g.state == e.state && g.snd.finPending == e.snd.finPending && |g.snd.appBuf| < |e.snd.appBuf|
            && |g.wire| == |e.wire| + 1 && g.wire[..|e.wire|] == e.wire
            && g.wire[|e.wire|].pos == SentEnd(e.hist) && g.wire[|e.wire|].seg.SegLen() == n
            && |g.wire[|e.wire|].seg.payload| == n
            && SentEnd(g.hist) == SentEnd(e.hist) + n && g.hist.unaPos == e.hist.unaPos
            && LimitsOf(g) == LimitsOf(e) && g.snd.retx != [] && SentEnd(e.hist) + n <= e.hist.unaPos + e.snd.wnd
  {
    hide Tiles, Wrap, PacketOk, Trail, RcvWnd, AdvertisedRight, PosOf, UsableWindow, KarnOk;
    UsableWindowIs(e);
    SendChunkOk(e, n, peer);
    NxtPos(e.(snd := e.snd.(appBuf := e.snd.appBuf[n..])));
  }

  lemma FinIsCut(e: Engine)
    ensures var g := SendFin(e);
            && |g.wire| == |e.wire| + 1 && g.wire[..|e.wire|] == e.wire
            && g.wire[|e.wire|].pos == SentEnd(e.hist) && g.wire[|e.wire|].seg.SegLen() == 1
            && g.wire[|e.wire|].seg.payload == []
  {
    hide RcvWnd, AdvertisedRight, PosOf;
    NxtPos(e.(snd := e.snd.(finSeq := e.snd.nxt)));
  }

  // ---------------------------------------------------------------------------------------------
  // State and flags
  // ---------------------------------------------------------------------------------------------

  /** State and flags agree: a FIN is out exactly in the closing states, the peer's FIN is taken exactly in the
      states that follow it, FIN-WAIT-2 and TIME-WAIT mean that our FIN is acknowledged and nothing is queued,
      and exactly TIME-WAIT has the 2*MSL timer running. */
  lemma FlagsFollowState(e: Engine)
    requires Reached(e) && Active(e.state)
    ensures e.snd.finSent <==> FinSentIn(e.state)
    ensures e.rcv.peerFin <==> FinTakenIn(e.state)
    ensures e.snd.finAcked ==> e.state == FIN_WAIT_2 || e.state == TIME_WAIT
    ensures e.state == FIN_WAIT_2 || e.state == TIME_WAIT ==>
              e.snd.finAcked && e.snd.retx == [] && e.snd.appBuf == [] && e.snd.una == e.snd.nxt
    ensures e.snd.finSent ==> e.snd.nxt == Add(e.snd.finSeq, 1)
    ensures e.state == TIME_WAIT <==> e.tm.tw.Some?
    ensures e.tm.ka.Some? ==> e.state == ESTABLISHED
  {
    hide Reached, Tiles, WireOk, Trail, Wrap, KarnOk;
    ReachedInv(e);
    TilesEmpty(e.snd.retx, e.snd.iss, e.hist.unaPos, e.hist);
    AddWraps(e.snd.iss, 1 + |e.hist.sent|, 1);
    assert e.snd.iss + (1 + |e.hist.sent|) == e.snd.iss + 1 + |e.hist.sent|;
  }

  /** The state that a sequence of signals leads to from CLOSED. */
  function StateAfter(signals: seq<Signal>): ConnState {
    if signals == [] then CLOSED
    else
      var last := signals[|signals| - 1];
      if last.StateChange? then last.to else StateAfter(signals[..|signals| - 1])
  }

  lemma {:induction false} TrailIsPath(signals: seq<Signal>, s: ConnState, i: nat)
    requires Trail(signals, s)
    ensures s == StateAfter(signals)
    ensures i < |signals| && signals[i].StateChange? ==>
              Arc(signals[i].from, signals[i].to) && signals[i].from == StateAfter(signals[..i])
    decreases |signals|
  {
    if signals != [] {
      var front, last := signals[..|signals| - 1], signals[|signals| - 1];
      var before := if last.StateChange? then last.from else s;
      TrailIsPath(front, before, i);
      assert i < |front| ==> front[..i] == signals[..i];
      assert i == |front| ==> front == signals[..i];
    }
  }

  /** Every state change an engine ever reports is an arc of the connection diagram, from the state the
      changes before it led to; and they lead to the state it is in. */
  lemma OnlyArcs(e: Engine, i: nat)
    requires Reached(e)
    ensures e.state == StateAfter(e.signals)
    ensures i < |e.signals| && e.signals[i].StateChange? ==>
              Arc(e.signals[i].from, e.signals[i].to) && e.signals[i].from == StateAfter(e.signals[..i])
  {
    hide Reached, WireOk, Coupled, Settled, SendOk, Arc;
    ReachedInv(e);
    TrailIsPath(e.signals, e.state, i);
  }

  /** What ends TIME-WAIT. */
  predicate EndsTimeWait(e: Engine, ev: Event) {
    || ev.TimeWaitFires? || ev.AbortCalled?
    || (ev.Arrives? && ForUs(e, ev.seg) && ev.seg.flags.rst && ev.seg.seqNo == e.rcv.nxt)
  }

  predicate RestartsTimeWait(e: Engine, ev: Event) {
    ev.Arrives? && ForUs(e, ev.seg) && !ev.seg.flags.rst && ev.seg.flags.fin
  }

  /** TIME-WAIT ends by its timer, an ABORT or an exact reset, and by nothing else; and its timer is restarted
      by a FIN, and by nothing else. */
  lemma TimeWaitTimer(e: Engine, now: real, ev: Event)
    requires Reached(e) && e.state == TIME_WAIT && Allowed(e, ev)
    ensures var f := Step(e, now, ev);
            if EndsTimeWait(e, ev) then f.state == CLOSED && f.tm.tw == None
            else f.state == TIME_WAIT
                 && f.tm.tw == if RestartsTimeWait(e, ev) then Later(At(e, now).tm, 2.0 * e.cfg.timers.msl) else e.tm.tw
  {
    hide Reached, React;
    FlagsFollowState(e);
    InTimeWait(At(e, now), ev);
  }

  /** What one event does in TIME-WAIT, where nothing is left to send. */
  lemma InTimeWait(a: Engine, ev: Event)
    requires a.state == TIME_WAIT && a.snd.retx == [] && a.snd.appBuf == [] && a.snd.finSent
    ensures var f := React(a, ev);
            if EndsTimeWait(a, ev) then f.state == CLOSED && f.tm.tw == None
            else f.state == TIME_WAIT
                 && f.tm.tw == if RestartsTimeWait(a, ev) then Later(a.tm, 2.0 * a.cfg.timers.msl) else a.tm.tw
  {
    hide OnSegment, SendAck, EnterClosed, Emit, PumpData, SendFin, SendChunk, GiveUp, Retransmit, EngineSpec.Open, RestartKeepalive;
    match ev
    case Arrives(seg) => SegmentInTimeWait(a, seg);
    case AbortCalled => ClosedIsClosed(SendRst(a));
    case DelackFires => AckAnswers(a.(tm := a.tm.(ack := None)));
    case TimeWaitFires => ClosedIsClosed(a.(tm := a.tm.(tw := None)));
    case _ =>
  }

  lemma SegmentInTimeWait(a: Engine, seg: Segment)
    requires a.state == TIME_WAIT
    ensures var f := OnSegment(a, seg);
            if EndsTimeWait(a, Arrives(seg)) then f.state == CLOSED && f.tm.tw == None
            else f.state == TIME_WAIT
                 && f.tm.tw == if RestartsTimeWait(a, Arrives(seg)) then Later(a.tm, 2.0 * a.cfg.timers.msl) else a.tm.tw
  {
    hide SendAck, EnterClosed, HandleClosed, HandleListen, HandleSynSent, HandleAck, DoReset, Acceptable, RestartKeepalive;
    AckAnswers(a);
    ClosedIsClosed(a);
  }

  lemma AckAnswers(e: Engine)
    ensures var f := SendAck(e); f.state == e.state && f.tm.tw == e.tm.tw && f.tm.now == e.tm.now && f.cfg == e.cfg
  {
  }

  // ---------------------------------------------------------------------------------------------
  // The wire format
  // ---------------------------------------------------------------------------------------------

  /** Everything an engine ever sends survives the wire format: parsing the built bytes gives the segment back. */
  lemma SegmentsSurviveTheWire(e: Engine, i: nat)
    requires Reached(e) && i < |e.wire|
    ensures Parse(Build(e.wire[i].seg)) == Ok(OffWire(e.wire[i].seg))
  {
    hide Reached, Parse, Build, Trail, Coupled, Settled, SendOk;
    ReachedInv(e);
    assert PacketOk(e.wire[i], e.cfg.iss, e.hist, None);
    RoundTrip(e.wire[i].seg);
  }
}
