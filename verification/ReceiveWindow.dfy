/** The receive window, against any peer: the advertised right edge never moves left once the peer's initial
    sequence number is known, the window never exceeds the free buffer nor falls short of it by the avoidance
    threshold, and the buffer never holds more than it was given. */
module ReceiveWindow {
  import opened SeqNum
  import opened EngineState
  import opened EngineSpec
  import opened EngineFacts
  import opened SendInvariant
  import opened SendPath
  import opened RecvPath
  import opened EngineInvariant
  import opened SegmentArrives
  import opened Opening
  import opened EngineRuns
  import opened Reassembly
  import opened HonestPeer
  import opened WireLog
  import opened WindowEdge
  import opened AckPath

  // ---------------------------------------------------------------------------------------------
  // What every part of the engine keeps
  // ---------------------------------------------------------------------------------------------

  /** What is kept: at most `room` bytes fit the buffer; with `strides`, the edges advertised from the place `from` of
      the wire on move in strides. */
  datatype Bound = Bound(room: nat, strides: bool, from: nat)

  predicate Bounds(lim: Bound, cfg: Config) {
    cfg.rcvWnd <= lim.room < 0x1_0000 && (lim.strides ==> lim.room == cfg.rcvWnd && cfg.timers.swsAvoidance)
  }

  predicate Inside(b: Block, base: int, from: int, to: int) {
    b.seqNo == Wrap(base + b.pos) && from <= b.pos && b.EndPos() <= to
  }

  /** How far data may reach if that many bytes fit the buffer. */
  function Room(e: Engine, lim: Bound): int { RecvPos(e.hist) + lim.room - |e.rcv.buf| }

  ghost predicate AllInside(e: Engine, base: int, from: int, lim: Bound) {
    forall i :: 0 <= i < |e.rcv.ooo| ==> Inside(e.rcv.ooo[i], base, from, Room(e, lim))
  }

  /** RCV.NXT stands at the stream position; the buffer holds what it may, and so will it with what is stored. */
  ghost predicate Fitted(e: Engine, base: int, lim: Bound) {
    && Bounds(lim, e.cfg)
    && e.rcv.nxt == Wrap(base + RecvPos(e.hist))
    && |e.rcv.buf| <= lim.room
    && (TakesText(e.state) ==> e.hist.fins <= 1 && AllInside(e, base, DataPos(e.hist), lim))
  }

  /** Everything queued carries an acknowledgement, and is no reset. */
  predicate AllAcknowledge(retx: seq<Outgoing>) {
    forall i :: 0 <= i < |retx| ==> retx[i].flags.ack && !retx[i].flags.rst
  }

  /** Fit to send from: the edges have moved in strides. */
  ghost predicate Ready(e: Engine, base: int, lim: Bound, late: nat, fin: nat) {
    Fitted(e, base, lim) && (lim.strides ==> Strided(e, base, lim.from, late, fin))
  }

  /** ... with an edge advertised, and an acknowledgement put off at most once. */
  ghost predicate Roomy(e: Engine, base: int, lim: Bound) {
    Ready(e, base, lim, 0, 0) && (lim.strides ==> e.rcv.advRight.Some? && e.tm.ackCount <= 1 && AllAcknowledge(e.snd.retx))
  }

  /** Where the delivered data ends, FINs aside. */
  function DataPos(h: History): int { 1 + |h.delivered| }

  predicate New(e: Engine, f: Engine, i: nat) { |e.wire| <= i < |f.wire| && Advertises(f.wire[i]) }

  /** The edges advertised from `e` to `f` never move left. */
  ghost predicate Climbs(e: Engine, f: Engine) {
    && e.wire <= f.wire && Edge(e) <= Edge(f)
    && (forall i: nat :: New(e, f, i) ==> Edge(e) <= PacketEdge(f.wire[i]) <= Edge(f))
    && (forall i: nat, j: nat :: i < j && New(e, f, i) && New(e, f, j) ==> PacketEdge(f.wire[i]) <= PacketEdge(f.wire[j]))
  }

  lemma ClimbsOn(e: Engine, m: Engine, f: Engine)
    requires Climbs(e, m) && Climbs(m, f)
    ensures Climbs(e, f)
  {
    hide Edge;
    assert forall i :: 0 <= i < |m.wire| ==> m.wire[i] == f.wire[i];
    forall i: nat | New(e, f, i) ensures Edge(e) <= PacketEdge(f.wire[i]) <= Edge(f) {
      if i < |m.wire| { assert New(e, m, i); } else { assert New(m, f, i); }
    }
    forall i: nat, j: nat | i < j && New(e, f, i) && New(e, f, j)
      ensures PacketEdge(f.wire[i]) <= PacketEdge(f.wire[j])
    {
      if i < |m.wire| { assert New(e, m, i); } else { assert New(m, f, i); }
      if j < |m.wire| { assert New(e, m, j); } else { assert New(m, f, j); }
    }
  }

  /** From `e` to `f` the edges climb and the buffer still fits. */
  ghost predicate Fits(e: Engine, f: Engine, base: int, lim: Bound) {
    Fitted(f, base, lim) && Climbs(e, f) && f.cfg == e.cfg && f.passive == e.passive && f.snd.mss == e.snd.mss
  }

  /** ... in strides. */
  ghost predicate KeepsWindow(e: Engine, f: Engine, base: int, lim: Bound) {
    Roomy(f, base, lim) && Climbs(e, f) && f.cfg == e.cfg && f.passive == e.passive && f.snd.mss == e.snd.mss
  }

  lemma KeepsOn(e: Engine, m: Engine, f: Engine, base: int, lim: Bound)
    requires KeepsWindow(e, m, base, lim) && KeepsWindow(m, f, base, lim)
    ensures KeepsWindow(e, f, base, lim)
  {
    hide Roomy, Climbs;
    ClimbsOn(e, m, f);
  }

  /** Nothing the window looks at has changed. */
  predicate SameWindow(e: Engine, f: Engine) {
    && f.cfg == e.cfg && f.snd.mss == e.snd.mss && f.wire == e.wire && f.passive == e.passive
    && f.tm.ackCount == e.tm.ackCount && (f.state == SYN_RECEIVED ==> e.state == SYN_RECEIVED)
    && f.hist.delivered == e.hist.delivered && f.hist.fins == e.hist.fins
    && f.rcv.nxt == e.rcv.nxt && f.rcv.buf == e.rcv.buf && f.rcv.ooo == e.rcv.ooo && f.rcv.advRight == e.rcv.advRight
    && (TakesText(f.state) ==> TakesText(e.state)) && (AllAcknowledge(e.snd.retx) ==> AllAcknowledge(f.snd.retx))
  }

  lemma SameKeeps(e: Engine, f: Engine, base: int, lim: Bound)
    requires Roomy(e, base, lim) && SameWindow(e, f)
    ensures KeepsWindow(e, f, base, lim)
  {
    hide Wrap, Inside, Strides, Last, SameEdges, AllAcknowledge;
    assert RcvWnd(f) == RcvWnd(e) && RawEdge(f) == RawEdge(e) && SwsThreshold(f) == SwsThreshold(e);
  }

  lemma PlacedFor32(e: Engine, base: int, lim: Bound)
    requires Fitted(e, base, lim) && lim.strides
    ensures Placed32(e, base)
  {
    hide Wrap;
  }

  lemma EmitFits(e: Engine, sn: u32, flags: Flags, payload: seq<byte>, withMss: bool, base: int, lim: Bound)
    requires Fitted(e, base, lim)
    ensures var f := Emit(e, sn, flags, payload, withMss);
            Fits(e, f, base, lim) && f.state == e.state && f.rcv.buf == e.rcv.buf && f.tm == e.tm && f.snd == e.snd
  {
    hide Wrap, Inside, PosOf, Reach, AdvertisedRight, RcvWnd;
    var f := Emit(e, sn, flags, payload, withMss);
    EdgeAdvertised(e, f);
    assert |f.wire| == |e.wire| + 1 && PacketEdge(f.wire[|e.wire|]) == Edge(e);
  }

  /** What is sent with an acknowledgement advertises the edge offered, late deliveries and a FIN included. */
  lemma EmitFrom(e: Engine, sn: u32, flags: Flags, payload: seq<byte>, withMss: bool, base: int, lim: Bound, late: nat, fin: nat)
    requires Ready(e, base, lim, late, fin) && (lim.strides ==> flags.ack && !flags.rst)
    ensures var f := Emit(e, sn, flags, payload, withMss);
            && Fits(e, f, base, lim) && f.state == e.state && f.rcv.buf == e.rcv.buf && f.tm == e.tm && f.snd == e.snd
            && (lim.strides ==> Settles(f, base, lim.from))
  {
    hide Emit, Fitted, Climbs, Strided, Settles;
    EmitFits(e, sn, flags, payload, withMss, base, lim);
    if lim.strides {
      PlacedFor32(e, base, lim);
      EmitStrides(e, sn, flags, payload, withMss, base, lim.from, late, fin);
    }
  }

  /** Having advertised an edge is all that `Roomy` asks for besides. */
  lemma Offered(f: Engine, base: int, lim: Bound)
    requires Fitted(f, base, lim)
    requires lim.strides ==> Settles(f, base, lim.from) && f.tm.ackCount <= 1 && AllAcknowledge(f.snd.retx)
    ensures Roomy(f, base, lim)
  {
    hide Fitted, Strided, JustSent, AllAcknowledge;
  }

  lemma EmitReady(e: Engine, sn: u32, flags: Flags, payload: seq<byte>, withMss: bool, base: int, lim: Bound)
    requires Ready(e, base, lim, 0, 0) && (lim.strides ==> flags.ack && !flags.rst && e.tm.ackCount <= 1 && AllAcknowledge(e.snd.retx))
    ensures var f := Emit(e, sn, flags, payload, withMss);
            KeepsWindow(e, f, base, lim) && f.state == e.state && f.rcv.buf == e.rcv.buf && f.snd == e.snd
  {
    hide Emit, Fitted, Climbs, Strided, Settles, AllAcknowledge;
    EmitFrom(e, sn, flags, payload, withMss, base, lim, 0, 0);
    Offered(Emit(e, sn, flags, payload, withMss), base, lim);
  }

  lemma EmitKeeps(e: Engine, sn: u32, flags: Flags, payload: seq<byte>, withMss: bool, base: int, lim: Bound)
    requires Roomy(e, base, lim) && (lim.strides ==> flags.ack && !flags.rst)
    ensures var f := Emit(e, sn, flags, payload, withMss);
            KeepsWindow(e, f, base, lim) && f.state == e.state && f.rcv.buf == e.rcv.buf && f.snd == e.snd
  {
    hide Emit, Ready, KeepsWindow, AllAcknowledge;
    EmitReady(e, sn, flags, payload, withMss, base, lim);
  }

  lemma RstReplyKeeps(e: Engine, seg: Segment, sn: u32, ack: u32, ackFlag: bool, base: int, lim: Bound)
    requires Roomy(e, base, lim)
    ensures KeepsWindow(e, EmitRstReply(e, seg, sn, ack, ackFlag), base, lim)
  {
    hide Wrap, Inside, Strides, Last;
    var f := EmitRstReply(e, seg, sn, ack, ackFlag);
    assert RcvWnd(f) == RcvWnd(e) && RawEdge(f) == RawEdge(e) && SwsThreshold(f) == SwsThreshold(e);
    assert |f.wire| == |e.wire| + 1 && !Advertises(f.wire[|e.wire|]);
    if lim.strides {
      ToldPush(e, f, lim.from, f.wire[|e.wire|]);
      StridesPush(Told(e, lim.from), f.wire[|e.wire|], SwsThreshold(e));
    }
  }

  lemma SendAckFrom(e: Engine, base: int, lim: Bound, late: nat, fin: nat)
    requires Ready(e, base, lim, late, fin) && (lim.strides ==> AllAcknowledge(e.snd.retx))
    ensures KeepsWindow(e, SendAck(e), base, lim) && SendAck(e).state == e.state && SendAck(e).rcv.buf == e.rcv.buf
  {
    hide Emit, Ready, Fitted, Climbs, Strided, Settles, AllAcknowledge;
    var f := Emit(e, e.snd.nxt, ACK, [], false);
    EmitFrom(e, e.snd.nxt, ACK, [], false, base, lim, late, fin);
    CountReset(f, SendAck(e), base, lim);
    ClimbsOn(e, f, SendAck(e));
  }

  /** Having advertised, acknowledgements put off count anew. */
  lemma CountReset(f: Engine, g: Engine, base: int, lim: Bound)
    requires Fitted(f, base, lim) && g == f.(tm := g.tm) && g.tm.ackCount == 0
    requires lim.strides ==> Settles(f, base, lim.from) && AllAcknowledge(f.snd.retx)
    ensures KeepsWindow(f, g, base, lim)
  {
    hide Wrap, Inside, Strided, JustSent, Last, AllAcknowledge, Told;
    assert RcvWnd(g) == RcvWnd(f);
    if lim.strides { CountCleared(f, g, base, lim.from); }
  }

  lemma SendAckKeeps(e: Engine, base: int, lim: Bound)
    requires Roomy(e, base, lim)
    ensures KeepsWindow(e, SendAck(e), base, lim) && SendAck(e).state == e.state && SendAck(e).rcv.buf == e.rcv.buf
  {
    hide SendAck, Ready, KeepsWindow;
    SendAckFrom(e, base, lim, 0, 0);
  }

  /** An acknowledgement put off is counted, and what was delivered late with it. */
  lemma PutOff(e: Engine, g: Engine, base: int, lim: Bound, late: nat)
    requires Ready(e, base, lim, late, 0) && late <= 1 && g == e.(tm := g.tm) && g.tm.ackCount == e.tm.ackCount + 1
    requires lim.strides ==> e.tm.ackCount <= 1
    ensures Ready(g, base, lim, 0, 0) && Climbs(e, g)
  {
    hide Wrap, Inside, Strides, Last, SameEdges;
    assert RcvWnd(g) == RcvWnd(e) && SwsThreshold(g) == SwsThreshold(e) && Told(g, lim.from) == Told(e, lim.from);
  }

  lemma AnswerKeeps(e: Engine, force: bool, base: int, lim: Bound, late: nat)
    requires Ready(e, base, lim, late, 0) && late <= 1
    requires lim.strides ==> e.rcv.advRight.Some? && e.tm.ackCount <= 1 && AllAcknowledge(e.snd.retx)
    ensures KeepsWindow(e, ScheduleAck(e, force), base, lim) && ScheduleAck(e, force).state == e.state
  {
    hide SendAck, Ready, Climbs, AllAcknowledge;
    if e.cfg.timers.delayedAck.None? || force {
      SendAckFrom(e, base, lim, late, 0);
    } else if e.tm.ackCount + 1 >= 2 {
      var g := e.(tm := e.tm.(ackCount := e.tm.ackCount + 1));
      PutOff(e, g, base, lim, late);
      SendAckFrom(g, base, lim, 0, 0);
      ClimbsOn(e, g, SendAck(g));
    } else {
      PutOff(e, ScheduleAck(e, force), base, lim, late);
    }
  }

  lemma QueueReady(e: Engine, flags: Flags, payload: seq<byte>, withMss: bool, base: int, lim: Bound)
    requires Ready(e, base, lim, 0, 0) && flags.ack && !flags.rst && (lim.strides ==> e.tm.ackCount <= 1 && AllAcknowledge(e.snd.retx))
    ensures KeepsWindow(e, QueueAndSend(e, flags, payload, withMss), base, lim)
    ensures QueueAndSend(e, flags, payload, withMss).state == e.state
  {
    hide Emit, Ready, Roomy, Climbs;
    var f := Emit(e, e.snd.nxt, flags, payload, withMss);
    EmitReady(e, e.snd.nxt, flags, payload, withMss, base, lim);
    SameKeeps(f, QueueAndSend(e, flags, payload, withMss), base, lim);
    KeepsOn(e, f, QueueAndSend(e, flags, payload, withMss), base, lim);
  }

  lemma QueueKeeps(e: Engine, flags: Flags, payload: seq<byte>, withMss: bool, base: int, lim: Bound)
    requires Roomy(e, base, lim) && flags.ack && !flags.rst
    ensures KeepsWindow(e, QueueAndSend(e, flags, payload, withMss), base, lim)
    ensures QueueAndSend(e, flags, payload, withMss).state == e.state
  {
    hide QueueAndSend, Ready, KeepsWindow, AllAcknowledge;
    QueueReady(e, flags, payload, withMss, base, lim);
  }

  lemma StateKeeps(e: Engine, to: ConnState, base: int, lim: Bound)
    requires Roomy(e, base, lim) && (TakesText(to) ==> TakesText(e.state)) && to != SYN_RECEIVED
    ensures KeepsWindow(e, SetState(e, to), base, lim) && SetState(e, to).state == to
  {
    hide Roomy, Climbs;
    SameKeeps(e, SetState(e, to), base, lim);
  }

  lemma FinKeeps(e: Engine, base: int, lim: Bound)
    requires Roomy(e, base, lim)
    ensures KeepsWindow(e, SendFin(e), base, lim) && SendFin(e).state == FinState(e.state)
  {
    hide QueueAndSend, SetState, Roomy, Climbs;
    var g := e.(snd := e.snd.(finSeq := e.snd.nxt));
    SameKeeps(e, g, base, lim);
    var h := QueueAndSend(g, FIN_ACK, [], false);
    QueueKeeps(g, FIN_ACK, [], false, base, lim);
    KeepsOn(e, g, h, base, lim);
    var k := h.(snd := h.snd.(finSent := true));
    SameKeeps(h, k, base, lim);
    KeepsOn(e, h, k, base, lim);
    StateKeeps(k, FinState(k.state), base, lim);
    KeepsOn(e, k, SendFin(e), base, lim);
  }

  /** A FIN of ours takes a state that takes text to one that does. */
  predicate SameKind(s: ConnState, t: ConnState) { Synced(s) ==> Synced(t) && (TakesText(s) <==> TakesText(t)) }

  lemma {:induction false} PumpKeeps(e: Engine, base: int, lim: Bound)
    requires Roomy(e, base, lim)
    ensures KeepsWindow(e, PumpData(e), base, lim) && SameKind(e.state, PumpData(e).state)
    decreases |e.snd.appBuf|
  {
    hide QueueAndSend, SendFin, UsableWindow, Roomy, Climbs;
    SameKeeps(e, e, base, lim);
    SameKeeps(e, ArmPersist(e), base, lim);
    if e.snd.appBuf == [] {
      FinKeeps(e, base, lim);
    } else if e.snd.wnd != 0 && UsableWindow(e) > 0 {
      var n := Min(Min(e.snd.mss, UsableWindow(e)), |e.snd.appBuf|);
      if !(e.cfg.timers.nagle && e.snd.retx != [] && n < e.snd.mss) {
        var g := e.(snd := e.snd.(appBuf := e.snd.appBuf[n..]));
        SameKeeps(e, g, base, lim);
        QueueKeeps(g, ACK, e.snd.appBuf[..n], false, base, lim);
        KeepsOn(e, g, SendChunk(e, n), base, lim);
        ChunkTakes(e, n);
        PumpKeeps(SendChunk(e, n), base, lim);
        KeepsOn(e, SendChunk(e, n), PumpData(e), base, lim);
      }
    }
  }

  lemma SendKeeps(e: Engine, base: int, lim: Bound)
    requires Roomy(e, base, lim)
    ensures KeepsWindow(e, SendPending(e), base, lim) && SameKind(e.state, SendPending(e).state)
    ensures KeepsWindow(e, CancelPersist(e), base, lim) && SameKind(e.state, CancelPersist(e).state)
  {
    hide PumpData, Roomy, Climbs;
    SameKeeps(e, e, base, lim);
    PumpKeeps(e, base, lim);
    var g := e.(tm := e.tm.(persist := None));
    SameKeeps(e, g, base, lim);
    PumpKeeps(g, base, lim);
    if MaySend(g) { KeepsOn(e, g, PumpData(g), base, lim); }
  }

  // ---------------------------------------------------------------------------------------------
  // Receiving
  // ---------------------------------------------------------------------------------------------

  /** As `Roomy`, in the middle of delivering: stored blocks lie between `rp0` and `to`. */
  ghost predicate Loose(e: Engine, base: int, rp0: int, to: int, lim: Bound) {
    && Bounds(lim, e.cfg)
    && e.rcv.nxt == Wrap(base + RecvPos(e.hist)) && |e.rcv.buf| <= lim.room
    && rp0 <= RecvPos(e.hist) <= to <= Room(e, lim) && to <= rp0 + 0x1_0000 && rp0 <= DataPos(e.hist) && e.hist.fins <= 1
    && forall i :: 0 <= i < |e.rcv.ooo| ==> Inside(e.rcv.ooo[i], base, rp0, to)
  }

  /** From `e` to `f`, received bytes up to `to` were handed over and nothing was sent. */
  ghost predicate Handed(e: Engine, f: Engine, to: int) {
    && f == e.(rcv := e.rcv.(buf := f.rcv.buf, ooo := f.rcv.ooo, nxt := f.rcv.nxt), hist := e.hist.(delivered := f.hist.delivered))
    && RawEdge(e) <= RawEdge(f) && RecvPos(f.hist) <= to
    && forall b :: b in f.rcv.ooo ==> b in e.rcv.ooo
  }

  /** Handing over data that fits the buffer moves the edge right, if at all. */
  lemma DeliverClimbs(e: Engine, data: seq<byte>, base: int, lim: Bound)
    requires e.rcv.nxt == Wrap(base + RecvPos(e.hist)) && Bounds(lim, e.cfg) && |e.rcv.buf| + |data| <= lim.room
    ensures var f := Deliver(e, data);
            && Climbs(e, f) && f.rcv.nxt == Wrap(base + RecvPos(f.hist)) && RecvPos(f.hist) == RecvPos(e.hist) + |data|
            && |f.rcv.buf| <= lim.room && Room(e, lim) <= Room(f, lim) <= Room(e, lim) + |data|
            && RawEdge(e) <= RawEdge(f)
  {
    hide Wrap;
    var f := Deliver(e, data);
    AddWraps(base, RecvPos(e.hist), |data|);
    assert base + RecvPos(e.hist) + |data| == base + RecvPos(f.hist);
    EdgeGrows(e, f);
  }

  lemma BlockTests(b: Block, base: int, rp0: int, rp: int, to: int)
    requires Inside(b, base, rp0, to) && rp0 <= rp < rp0 + QUARTER && to < rp0 + QUARTER
    ensures SeqLeq(b.End(), Wrap(base + rp)) <==> b.EndPos() <= rp
    ensures SeqLeq(b.seqNo, Wrap(base + rp)) <==> b.pos <= rp
    ensures SeqGt(b.End(), Wrap(base + rp)) <==> b.EndPos() > rp
    ensures b.pos <= rp ==> Sub(Wrap(base + rp), b.seqNo) == rp - b.pos
  {
    PlacedTests(b, base, rp0, rp);
  }

  lemma MergeStepKeeps(e: Engine, i: nat, base: int, rp0: int, to: int, lim: Bound)
    requires i < |e.rcv.ooo| && Mergeable(e.rcv.ooo[i], e.rcv.nxt) && Loose(e, base, rp0, to, lim)
    ensures var f := MergeStep(e, i); Climbs(e, f) && Loose(f, base, rp0, to, lim) && Handed(e, f, to)
  {
    hide Wrap, S32, Climbs, RcvWnd;
    var b, rp := e.rcv.ooo[i], RecvPos(e.hist);
    BlockTests(b, base, rp0, rp, to);
    var f := MergeStep(e, i);
    if b.EndPos() > rp {
      var data := b.data[rp - b.pos..];
      DeliverClimbs(e, data, base, lim);
      OooClimbs(Deliver(e, data), f);
      ClimbsOn(e, Deliver(e, data), f);
    } else {
      OooClimbs(e, f);
    }
    forall j | 0 <= j < |f.rcv.ooo| ensures Inside(f.rcv.ooo[j], base, rp0, to) {
      assert f.rcv.ooo[j] == e.rcv.ooo[if j < i then j else j + 1];
    }
  }

  lemma {:induction false} MergeKeeps(e: Engine, base: int, rp0: int, to: int, lim: Bound)
    requires Loose(e, base, rp0, to, lim)
    ensures Fits(e, Merge(e), base, lim) && Handed(e, Merge(e), to)
    decreases |e.rcv.ooo|
  {
    hide MergeStep, Climbs, Wrap, S32, RcvWnd;
    var i := FirstMergeable(e.rcv.ooo, e.rcv.nxt);
    if i == |e.rcv.ooo| {
      OooClimbs(e, e);
      forall j | 0 <= j < |e.rcv.ooo| ensures Inside(e.rcv.ooo[j], base, DataPos(e.hist), Room(e, lim)) {
        BlockTests(e.rcv.ooo[j], base, rp0, RecvPos(e.hist), to);
        assert !Mergeable(e.rcv.ooo[j], e.rcv.nxt);
      }
    } else {
      MergeStepKeeps(e, i, base, rp0, to, lim);
      MergeShrinks(e, i);
      MergeKeeps(MergeStep(e, i), base, rp0, to, lim);
      ClimbsOn(e, MergeStep(e, i), Merge(e));
    }
  }

  lemma OooClimbs(e: Engine, f: Engine)
    requires f == e.(rcv := e.rcv.(ooo := f.rcv.ooo))
    ensures Climbs(e, f)
  {
    assert RcvWnd(f) == RcvWnd(e);
  }

  /** Merging what is stored, as the end of opening does: what came with the peer's SYN is within the edge advertised. */
  lemma MergeFits(e: Engine, base: int, lim: Bound)
    requires Roomy(e, base, lim) && TakesText(e.state) && e.state != SYN_RECEIVED
    requires lim.strides ==> Last(Told(e, lim.from)).Some? && StoredWithin(e, PacketEdge(Last(Told(e, lim.from)).value))
    ensures KeepsWindow(e, Merge(e), base, lim) && Merge(e).state == e.state
  {
    hide Wrap, Strided, Told, Last, RcvWnd;
    if lim.strides {
      PlacedFor32(e, base, lim);
      LastWithin(e, base, lim.from);
      var edge := PacketEdge(Last(Told(e, lim.from)).value);
      MergeKeeps(e, base, DataPos(e.hist), edge, lim);
      StridedGrows(e, Merge(e), base, lim.from, 0);
    } else {
      MergeKeeps(e, base, DataPos(e.hist), Room(e, lim), lim);
    }
  }

  lemma LastWithin(e: Engine, base: int, from: nat)
    requires Strided(e, base, from, 0, 0) && e.rcv.advRight.Some?
    ensures Last(Told(e, from)).Some? && PacketEdge(Last(Told(e, from)).value) <= RawEdge(e)
  {
    hide Strides;
  }

  /** How far bytes may be taken. */
  function TakenTo(e: Engine, lim: Bound): int {
    if lim.strides then Taken(e, lim.from, RawEdge(e)) else Room(e, lim)
  }

  /** The window ends at or before what may be taken, and what is stored lies within it. */
  lemma WindowReaches(e: Engine, base: int, lim: Bound)
    requires Roomy(e, base, lim) && TakesText(e.state)
    ensures Edge(e) <= TakenTo(e, lim) <= Room(e, lim)
    ensures AllPlaced(e.rcv.ooo, base, DataPos(e.hist), TakenTo(e, lim))
  {
    hide Wrap, RcvWnd, Strides, Last;
    WindowNearFreeBuffer(e);
    WithinRoom(e, lim);
    if lim.strides {
      PlacedFor32(e, base, lim);
      EdgeFromLast(e, base, Last(Told(e, lim.from)).value, 0, 0);
    }
  }

  ghost predicate AllPlaced(ooo: seq<Block>, base: int, from: int, to: int) {
    forall i :: 0 <= i < |ooo| ==> Inside(ooo[i], base, from, to)
  }

  /** Bytes in the window are delivered or stored, and fit. */
  lemma PlaceKeeps(e: Engine, sn: u32, data: seq<byte>, base: int, lim: Bound)
    requires Roomy(e, base, lim) && TakesText(e.state) && (lim.strides ==> e.state != SYN_RECEIVED)
    requires 0 <= S32(sn - e.rcv.nxt) && S32(sn - e.rcv.nxt) + |data| <= RcvWnd(e)
    ensures KeepsWindow(e, Place(e, sn, data), base, lim) && Place(e, sn, data).state == e.state
  {
    hide Merge, ScheduleAck, Ready, Climbs, Wrap, S32, RcvWnd;
    WindowReaches(e, base, lim);
    if sn == e.rcv.nxt {
      InOrderKeeps(e, data, base, lim);
    } else {
      var f := StoreOoo(e, sn, data);
      OooClimbs(e, f);
      StoreInside(e, sn, data, base, lim);
      AnswerKeeps(f, true, base, lim, 0);
      ClimbsOn(e, f, Place(e, sn, data));
    }
  }

  lemma InOrderKeeps(e: Engine, data: seq<byte>, base: int, lim: Bound)
    requires Roomy(e, base, lim) && TakesText(e.state) && (lim.strides ==> e.state != SYN_RECEIVED)
    requires |data| <= RcvWnd(e) && Edge(e) <= TakenTo(e, lim) <= Room(e, lim)
    requires AllPlaced(e.rcv.ooo, base, DataPos(e.hist), TakenTo(e, lim))
    ensures var f := ScheduleAck(Merge(Deliver(e, data)), false); KeepsWindow(e, f, base, lim) && f.state == e.state
  {
    hide Merge, ScheduleAck, Climbs, Wrap, S32, RcvWnd, Strided;
    var d := Deliver(e, data);
    DeliverClimbs(e, data, base, lim);
    MergeKeeps(d, base, DataPos(e.hist), TakenTo(e, lim), lim);
    var m := Merge(d);
    ClimbsOn(e, d, m);
    if lim.strides {
      PlacedFor32(e, base, lim);
      StridedGrows(e, m, base, lim.from, 1);
    }
    AnswerKeeps(m, false, base, lim, 1);
    ClimbsOn(e, m, ScheduleAck(m, false));
  }

  lemma WithinRoom(e: Engine, lim: Bound)
    requires e.cfg.rcvWnd <= lim.room && |e.rcv.buf| <= lim.room
    ensures RawWindow(e) <= lim.room - |e.rcv.buf|
  {
  }

  lemma StoreInside(e: Engine, sn: u32, data: seq<byte>, base: int, lim: Bound)
    requires Roomy(e, base, lim) && TakesText(e.state) && (lim.strides ==> e.state != SYN_RECEIVED)
    requires 0 <= S32(sn - e.rcv.nxt) && S32(sn - e.rcv.nxt) + |data| <= RcvWnd(e)
    requires Edge(e) <= TakenTo(e, lim) <= Room(e, lim)
    ensures Roomy(StoreOoo(e, sn, data), base, lim)
  {
    hide Wrap, S32, RcvWnd, Strides, Last, SameEdges;
    SerialPosition(base, RecvPos(e.hist), sn);
    assert base + RecvPos(e.hist) + S32(sn - e.rcv.nxt) == base + (RecvPos(e.hist) + S32(sn - e.rcv.nxt));
    var f := StoreOoo(e, sn, data);
    assert RawEdge(f) == RawEdge(e) && SwsThreshold(f) == SwsThreshold(e);
  }

  lemma RecvDataKeeps(e: Engine, seg: Segment, base: int, lim: Bound)
    requires Roomy(e, base, lim) && TakesText(e.state) && e.state != SYN_RECEIVED
    ensures KeepsWindow(e, RecvData(e, seg), base, lim) && RecvData(e, seg).state == e.state
  {
    hide ScheduleAck, Place, RcvWnd, S32, Sub, Add, Ready, Climbs;
    SameKeeps(e, e, base, lim);
    AnswerKeeps(e, true, base, lim, 0);
    if seg.payload != [] {
      var stale := SeqLt(seg.seqNo, e.rcv.nxt);
      var off := if stale then Sub(e.rcv.nxt, seg.seqNo) else 0;
      if off < |seg.payload| {
        var data := seg.payload[off..];
        var sn := if stale then e.rcv.nxt else seg.seqNo;
        var space := S32(Sub(Add(e.rcv.nxt, RcvWnd(e)), sn));
        if space > 0 {
          NotBelowItself(e.rcv.nxt);
          SpaceLeft(e, sn, lim, base);
          PlaceKeeps(e, sn, data[..Min(space, |data|)], base, lim);
        }
      }
    }
  }

  lemma NotBelowItself(x: u32)
    ensures !SeqLt(x, x)
  {
  }

  /** The space computed for in-window data is what the window leaves from there on. */
  lemma SpaceLeft(e: Engine, sn: u32, lim: Bound, base: int)
    requires Roomy(e, base, lim) && !SeqLt(sn, e.rcv.nxt) && S32(Sub(Add(e.rcv.nxt, RcvWnd(e)), sn)) > 0
    ensures 0 <= S32(sn - e.rcv.nxt) && S32(sn - e.rcv.nxt) + S32(Sub(Add(e.rcv.nxt, RcvWnd(e)), sn)) <= RcvWnd(e)
  {
    hide RcvWnd, Inside;
    WindowNearFreeBuffer(e);
    SpaceSplits(e.rcv.nxt, sn, RcvWnd(e));
  }

  lemma SpaceSplits(nxt: u32, sn: u32, w: nat)
    requires w < 0x1_0000 && 0 <= S32(sn - nxt) && S32(Sub(Add(nxt, w), sn)) > 0
    ensures S32(sn - nxt) + S32(Sub(Add(nxt, w), sn)) == w
  {
    hide S32, Wrap;
    var d := S32(sn - nxt);
    WrapOfU32(nxt);
    SerialPosition(nxt, 0, sn);
    AddWraps(nxt, 0, w);
    SignedOfSub(Add(nxt, w), sn);
    SerialDifference(nxt, w, d);
  }

  lemma ProcessFinKeeps(e: Engine, base: int, lim: Bound)
    requires Roomy(e, base, lim) && Synced(e.state) && (TakesText(e.state) ==> e.hist.fins == 0)
    requires e.state != SYN_RECEIVED && e.state != TIME_WAIT
    ensures KeepsWindow(e, ProcessFin(e), base, lim) && Synced(ProcessFin(e).state)
  {
    hide SendAck, StateAfterFin, TakeFin, Ready, Fitted, Climbs;
    var g := TakeFin(e);
    SameState(e);
    FinMovesEdge(e, g, base, lim);
    SendAckFrom(g, base, lim, 0, 1);
    var f := SendAck(g);
    ClimbsOn(e, g, f);
    KeptFits(e, f, base, lim);
    StateAfterFinKeeps(f, base, lim);
    KeepsOn(e, f, ProcessFin(e), base, lim);
  }

  lemma StateAfterFinKeeps(f: Engine, base: int, lim: Bound)
    requires Roomy(f, base, lim) && Synced(f.state)
    ensures KeepsWindow(f, StateAfterFin(f), base, lim) && Synced(StateAfterFin(f).state)
  {
    hide SetState, EnterTimeWait, Roomy, KeepsWindow;
    if f.state == ESTABLISHED {
      StateKeeps(f, CLOSE_WAIT, base, lim);
    } else if f.state == FIN_WAIT_1 {
      StateKeeps(f, CLOSING, base, lim);
    } else if f.state == FIN_WAIT_2 {
      TimeWaitKeeps(f, base, lim);
    } else {
      SameKeeps(f, f, base, lim);
    }
  }

  lemma SameState(e: Engine)
    ensures TakeFin(e).state == e.state && TakeFin(e).cfg == e.cfg && TakeFin(e).passive == e.passive && TakeFin(e).snd == e.snd
  {
  }

  lemma KeptFits(e: Engine, f: Engine, base: int, lim: Bound)
    requires KeepsWindow(e, f, base, lim)
    ensures Roomy(f, base, lim)
  {
    hide Roomy, Climbs;
  }

  /** Taking the FIN moves RCV.NXT and the edge by one. */
  lemma FinMovesEdge(e: Engine, g: Engine, base: int, lim: Bound)
    requires Roomy(e, base, lim) && (TakesText(e.state) ==> e.hist.fins == 0) && e.state != SYN_RECEIVED
    requires g == TakeFin(e)
    ensures Fits(e, g, base, lim) && Ready(g, base, lim, 0, 1)
  {
    hide Wrap, Strides, Last, SameEdges;
    AddWraps(base, RecvPos(e.hist), 1);
    assert base + RecvPos(e.hist) + 1 == base + RecvPos(g.hist);
    assert SwsThreshold(g) == SwsThreshold(e);
    EdgeGrows(e, g);
  }

  lemma TimeWaitKeeps(e: Engine, base: int, lim: Bound)
    requires Roomy(e, base, lim)
    ensures KeepsWindow(e, EnterTimeWait(e), base, lim) && EnterTimeWait(e).state == TIME_WAIT
  {
    hide SetState, CancelPersist, Roomy, Climbs;
    var s := StopRt(e);
    SameKeeps(e, s, base, lim);
    SendKeeps(s, base, lim);
    KeepsOn(e, s, CancelPersist(s), base, lim);
    StateKeeps(CancelPersist(s), TIME_WAIT, base, lim);
    var t := SetState(CancelPersist(s), TIME_WAIT);
    KeepsOn(e, CancelPersist(s), t, base, lim);
    SameKeeps(t, EnterTimeWait(e), base, lim);
    KeepsOn(e, t, EnterTimeWait(e), base, lim);
  }

  lemma NoFinsYet(e: Engine)
    requires Coupled(e) && TakesText(e.state)
    ensures e.hist.fins == 0
  {
  }

  lemma NoteFinKeeps(e: Engine, seg: Segment, base: int, lim: Bound)
    requires Roomy(e, base, lim) && Coupled(e) && TextOpen(e.state)
    ensures var f := CheckPendingFin(NoteFin(e, seg)); KeepsWindow(e, f, base, lim) && Synced(f.state)
  {
    hide Roomy, ProcessFin, Coupled, KeepsWindow;
    if TakesText(e.state) { NoFinsYet(e); }
    ProcessFinKeeps(e, base, lim);
    SameKeeps(e, e, base, lim);
    var g := NoteFin(e, seg);
    if g == ProcessFin(e) {
      NothingPending(e);
    } else {
      SameKeeps(e, g, base, lim);
      KeptFits(e, g, base, lim);
      ProcessFinKeeps(g, base, lim);
      if CheckPendingFin(g) == ProcessFin(g) { KeepsOn(e, g, ProcessFin(g), base, lim); }
    }
  }

  lemma NothingPending(e: Engine)
    ensures CheckPendingFin(ProcessFin(e)) == ProcessFin(e)
  {
    hide SendAck, StateAfterFin;
    AckTouches(TakeFin(e));
    StateAfterFinTouches(SendAck(TakeFin(e)));
  }

  lemma StateAfterFinTouches(f: Engine)
    ensures StateAfterFin(f).rcv == f.rcv
  {
    hide SetState, EnterTimeWait;
    StateTouches(f, CLOSE_WAIT);
    StateTouches(f, CLOSING);
    if f.state == FIN_WAIT_2 { TimeWaitTouches(f); }
  }

  lemma TextKeeps(e: Engine, seg: Segment, base: int, lim: Bound)
    requires Running(e, None) && AwaitsFinAck(e) && TextOpen(e.state) && Roomy(e, base, lim)
    ensures KeepsWindow(e, TextAndFin(e, seg), base, lim) && Synced(TextAndFin(e, seg).state)
  {
    hide RecvData, SendPending, NoteFin, CheckPendingFin, Live, Settled, Coupled, RtLive, Roomy, Climbs;
    SameKeeps(e, e, base, lim);
    var takes := e.state == ESTABLISHED || e.state == FIN_WAIT_1 || e.state == FIN_WAIT_2;
    var g := if takes then RecvData(e, seg) else e;
    if takes {
      RecvDataLive(e, seg, None);
      RunningTakes(e, g, None);
      RecvDataKeeps(e, seg, base, lim);
    }
    RunningSends(g, None);
    SendKeeps(g, base, lim);
    KeepsOn(e, g, SendPending(g), base, lim);
    NoteFinKeeps(SendPending(g), seg, base, lim);
    KeepsOn(e, SendPending(g), TextAndFin(e, seg), base, lim);
  }

  // ---------------------------------------------------------------------------------------------
  // SEGMENT ARRIVES
  // ---------------------------------------------------------------------------------------------

  lemma AckStepKeeps(e: Engine, seg: Segment, base: int, lim: Bound)
    requires Roomy(e, base, lim)
    ensures KeepsWindow(e, AckAndWindow(e, seg), base, lim)
  {
    hide ProcessAck, CancelPersist, SeqGt, SeqLt, SeqLeq, Roomy, Climbs;
    SameKeeps(e, e, base, lim);
    AckTouchesNothing(e, seg.ackNo);
    SameKeeps(e, ProcessAck(e, seg.ackNo), base, lim);
    var g := if SeqGt(seg.ackNo, e.snd.una) then ProcessAck(e, seg.ackNo) else e;
    var h := g.(snd := g.snd.(wnd := seg.window, wl1 := seg.seqNo, wl2 := seg.ackNo));
    SameKeeps(g, h, base, lim);
    KeepsOn(e, g, h, base, lim);
    SendKeeps(h, base, lim);
    KeepsOn(e, h, CancelPersist(h), base, lim);
    WindowUpdateIs(g, seg);
  }

  lemma WindowUpdateIs(g: Engine, seg: Segment)
    ensures var h := g.(snd := g.snd.(wnd := seg.window, wl1 := seg.seqNo, wl2 := seg.ackNo));
            UpdateWindow(g, seg) == g || UpdateWindow(g, seg) == h || UpdateWindow(g, seg) == CancelPersist(h)
  {
    hide CancelPersist, SeqLt, SeqLeq;
  }

  lemma AckTouchesNothing(e: Engine, ack: u32)
    ensures SameWindow(e, ProcessAck(e, ack)) && ProcessAck(e, ack).state == e.state
  {
    hide Trim, RttSample, TakesSample;
    if AllAcknowledge(e.snd.retx) { TrimAcknowledges(e.snd.retx, ack); }
  }

  /** Cutting the queue leaves what is in it as it was. */
  lemma {:induction false} TrimAcknowledges(retx: seq<Outgoing>, ack: u32)
    requires AllAcknowledge(retx)
    ensures AllAcknowledge(Trim(retx, ack))
    decreases |retx|
  {
    if retx != [] && SeqLeq(retx[0].End(), ack) { TrimAcknowledges(retx[1..], ack); }
  }

  /** What an opener that waits for a SYN has advertised: nothing but its whole buffer. */
  ghost predicate Heard(e: Engine) {
    e.rcv.advRight == None && e.tm.ackCount <= 1 && SameEdges(e.wire, 1 + e.cfg.rcvWnd)
  }

  /** Either the connection is dropped, or the edges climb. */
  ghost predicate KeepsOrDrops(e: Engine, f: Engine, base: int, lim: Bound) {
    && (Synced(f.state) ==> KeepsWindow(e, f, base, lim))
    && (f.state == LISTEN && lim.strides ==> Heard(f))
  }

  lemma AfterAckKeeps(e: Engine, seg: Segment, base: int, lim: Bound)
    requires Running(e, None) && TextOpen(e.state) && Roomy(e, base, lim)
    ensures KeepsOrDrops(e, AfterAck(e, seg), base, lim)
  {
    hide TextAndFin, EnterClosed, EnterTimeWait, Live, Settled, SetState, RtLive, Roomy, KeepsWindow, Coupled;
    if e.state == FIN_WAIT_1 && e.snd.finAcked {
      StateKeeps(e, FIN_WAIT_2, base, lim);
      var g := SetState(e, FIN_WAIT_2);
      ToFinWait2(e, None);
      KeptFits(e, g, base, lim);
      TextKeeps(g, seg, base, lim);
      KeepsOn(e, g, TextAndFin(g, seg), base, lim);
    } else if e.state == CLOSING && e.snd.finAcked {
      TimeWaitKeeps(e, base, lim);
    } else if e.state == LAST_ACK && e.snd.finAcked {
      ClosedIsClosed(e);
    } else {
      TextKeeps(e, seg, base, lim);
    }
  }

  lemma StoredEarly(e: Engine, base: int, lim: Bound)
    requires Roomy(e, base, lim) && e.state == SYN_RECEIVED && lim.strides
    ensures e.rcv.buf == [] && Last(Told(e, lim.from)).Some? && StoredWithin(e, PacketEdge(Last(Told(e, lim.from)).value))
  {
    hide Fitted, Strides, LastStands;
  }

  lemma EstablishKeeps(e: Engine, seg: Segment, base: int, lim: Bound)
    requires Roomy(e, base, lim) && e.state == SYN_RECEIVED
    ensures KeepsWindow(e, Establish(e, seg), base, lim)
  {
    hide ProcessAck, SetState, Merge, SendPending, Roomy, KeepsWindow;
    AckTouchesNothing(e, seg.ackNo);
    var f := ProcessAck(e, seg.ackNo);
    var g := f.(snd := f.snd.(wnd := seg.window, wl1 := seg.seqNo, wl2 := seg.ackNo));
    SameKeeps(e, g, base, lim);
    KeptFits(e, g, base, lim);
    StateKeeps(g, ESTABLISHED, base, lim);
    var k := SetState(g, ESTABLISHED);
    KeptFits(g, k, base, lim);
    KeepsOn(e, g, k, base, lim);
    StateTouches(g, ESTABLISHED);
    if lim.strides {
      StoredEarly(g, base, lim);
      assert Told(k, lim.from) == Told(g, lim.from);
    }
    MergeFits(k, base, lim);
    KeptFits(k, Merge(k), base, lim);
    KeepsOn(e, k, Merge(k), base, lim);
    SendKeeps(Merge(k), base, lim);
    KeepsOn(e, Merge(k), Establish(e, seg), base, lim);
  }

  lemma HandleAckKeeps(e: Engine, seg: Segment, base: int, lim: Bound)
    requires Inv(e, None) && Synced(e.state) && e.state != TIME_WAIT && Roomy(e, base, lim)
    requires seg.flags.ack && !seg.flags.rst && seg.window < 0x1_0000
    ensures KeepsOrDrops(e, HandleAck(e, seg), base, lim)
  {
    hide Inv, Running, Establish, TextAndFin, EmitRstReply, SendAck, AckAndWindow, AfterAck, Settled, Roomy, KeepsWindow;
    hide SeqLt, SeqLeq, SeqGt;
    if e.state == SYN_RECEIVED {
      if SeqLt(e.snd.una, seg.ackNo) && SeqLeq(seg.ackNo, e.snd.nxt) {
        EstablishOk(e, seg, None);
        EstablishKeeps(e, seg, base, lim);
        KeptFits(e, Establish(e, seg), base, lim);
        TextKeeps(Establish(e, seg), seg, base, lim);
        KeepsOn(e, Establish(e, seg), TextAndFin(Establish(e, seg), seg), base, lim);
      } else {
        RstReplyKeeps(e, seg, seg.ackNo, 0, false, base, lim);
        RstReplyTouches(e, seg, seg.ackNo, 0, false);
      }
    } else if SeqGt(seg.ackNo, e.snd.nxt) {
      SendAckKeeps(e, base, lim);
    } else {
      AckAndWindowOk(e, seg, None);
      AckStepKeeps(e, seg, base, lim);
      var g := AckAndWindow(e, seg);
      KeptFits(e, g, base, lim);
      AfterAckKeeps(g, seg, base, lim);
      if Synced(AfterAck(g, seg).state) { KeepsOn(e, g, AfterAck(g, seg), base, lim); }
    }
  }

  /** A passive opener that is reset listens again, having advertised nothing but its whole buffer. */
  lemma ResetHeard(e: Engine, base: int, lim: Bound)
    requires Roomy(e, base, lim) && lim.strides && e.state == SYN_RECEIVED && e.passive
    ensures Heard(DoReset(e))
  {
    hide SetState, Fitted, Strides, LastStands;
    StateTouches(e, LISTEN);
    CountStays(e, LISTEN);
  }

  lemma CountStays(e: Engine, to: ConnState)
    ensures SetState(e, to).tm.ackCount == e.tm.ackCount
  {
  }

  lemma ResetCloses(e: Engine)
    requires !(e.state == SYN_RECEIVED && e.passive)
    ensures DoReset(e).state == CLOSED
  {
    hide EnterClosed;
    ClosedIsClosed(SignalError(e, ConnectionRefused));
    ClosedIsClosed(SignalError(e, ConnectionReset));
  }

  lemma ResetKeeps(e: Engine, base: int, lim: Bound)
    requires Roomy(e, base, lim) && Synced(e.state)
    ensures KeepsOrDrops(e, DoReset(e), base, lim)
  {
    hide DoReset, Roomy, KeepsWindow, Heard;
    if e.state == SYN_RECEIVED && e.passive {
      if lim.strides { ResetHeard(e, base, lim); }
      ListensAgain(e);
    } else {
      ResetCloses(e);
    }
  }

  lemma ListensAgain(e: Engine)
    requires e.state == SYN_RECEIVED && e.passive
    ensures DoReset(e).state == LISTEN
  {
    hide SetState;
    StateTouches(e, LISTEN);
  }

  lemma SynchronizedKeeps(e: Engine, seg: Segment, base: int, lim: Bound)
    requires Inv(e, None) && Synced(e.state) && Roomy(e, base, lim) && seg.window < 0x1_0000
    ensures KeepsOrDrops(e, HandleSynchronized(e, seg), base, lim)
  {
    hide Inv, HandleAck, SendAck, DoReset, EnterClosed, Acceptable, RcvWnd, Roomy, Climbs;
    SameKeeps(e, e, base, lim);
    SendAckKeeps(e, base, lim);
    ClosedIsClosed(e);
    ResetKeeps(e, base, lim);
    if e.state == TIME_WAIT {
      var g := SendAck(e);
      SameKeeps(g, RestartTimeWait(g), base, lim);
      KeepsOn(e, g, RestartTimeWait(g), base, lim);
    } else if seg.flags.ack && !seg.flags.rst {
      HandleAckKeeps(e, seg, base, lim);
    }
  }

  // ---------------------------------------------------------------------------------------------
  // Opening
  // ---------------------------------------------------------------------------------------------

  /** From some moment of the step on, before anything was sent, the edges climb. */
  ghost predicate Opens(e: Engine, f: Engine, lim: Bound) {
    Synced(f.state) ==> exists m: Engine, base: int :: m.wire == e.wire && KeepsWindow(m, f, base, lim)
  }

  /** Nothing received, and RCV.NXT just past the peer's SYN. */
  lemma FitsFromNothing(e: Engine, sn: u32, lim: Bound)
    requires e.rcv.nxt == Add(sn, 1) && e.hist.delivered == [] && e.hist.fins == 0 && e.rcv.buf == [] && e.rcv.ooo == []
    requires Bounds(lim, e.cfg)
    ensures Fitted(e, sn, lim)
  {
  }

  lemma HeardReady(e: Engine, sn: u32, lim: Bound)
    requires Fitted(e, sn, lim) && Heard(e) && e.passive && lim.from == 0
    requires e.hist.delivered == [] && e.hist.fins == 0 && e.rcv.buf == [] && e.rcv.ooo == []
    ensures Ready(e, sn, lim, 0, 0) && e.tm.ackCount <= 1
  {
    hide Fitted;
    SameEdgesTold(e, 0, 1 + e.cfg.rcvWnd, SwsThreshold(e));
  }

  lemma ListenOpens(e: Engine, seg: Segment, lim: Bound)
    requires Inv(e, None) && e.state == LISTEN && Bounds(lim, e.cfg) && (lim.strides ==> Heard(e) && lim.from == 0)
    ensures Opens(e, HandleListen(e, seg), lim) && HandleListen(e, seg).state != CLOSED
    ensures lim.strides && HandleListen(e, seg).state == LISTEN ==> Heard(HandleListen(e, seg))
  {
    hide Inv, QueueAndSend, SetState, EmitRstReply, Ready, Roomy, KeepsWindow, Heard, Fitted;
    RstReplyHeard(e, seg, seg.ackNo, 0, false);
    if !seg.flags.rst && !seg.flags.ack && seg.flags.syn
       && !(e.remotePort != 0 && seg.srcPort != 0 && seg.srcPort != e.remotePort) {
      var g := AnswerSyn(e.(remotePort := if e.remotePort == 0 then seg.srcPort else e.remotePort), seg);
      var m := SetState(g, SYN_RECEIVED);
      StateTouches(g, SYN_RECEIVED);
      CountStays(g, SYN_RECEIVED);
      NothingInListen(e);
      SynAnswered(e, seg);
      FitsFromNothing(m, seg.seqNo, lim);
      if lim.strides {
        StillHeard(e, m);
        HeardReady(m, seg.seqNo, lim);
      } else {
        PlainReady(m, seg.seqNo, lim);
      }
      QueueReady(m, SYN_ACK, [], true, seg.seqNo, lim);
    }
  }

  lemma PlainReady(e: Engine, base: int, lim: Bound)
    requires Fitted(e, base, lim) && !lim.strides
    ensures Ready(e, base, lim, 0, 0) && Roomy(e, base, lim)
  {
    hide Fitted;
  }

  lemma StillHeard(e: Engine, f: Engine)
    requires Heard(e) && f.rcv.advRight == e.rcv.advRight && f.tm.ackCount == e.tm.ackCount && f.wire == e.wire && f.cfg == e.cfg
    ensures Heard(f)
  {
  }

  /** A reset sent in reply advertises nothing. */
  lemma RstReplyHeard(e: Engine, seg: Segment, sn: u32, ack: u32, ackFlag: bool)
    ensures var f := EmitRstReply(e, seg, sn, ack, ackFlag); (Heard(e) ==> Heard(f)) && f.state == e.state
  {
  }

  lemma NothingInListen(e: Engine)
    requires Inv(e, None) && (e.state == LISTEN || e.state == SYN_SENT)
    ensures Unreceived(e) && e.passive == (e.state == LISTEN) && (e.state == LISTEN ==> e.snd.retx == [])
    ensures e.tm.ackCount <= 1
  {
    hide WireOk, Trail, Settled, SendOk;
  }

  lemma SynAnswered(e: Engine, seg: Segment)
    ensures var g := AnswerSyn(e.(remotePort := if e.remotePort == 0 then seg.srcPort else e.remotePort), seg);
            && g.rcv == e.rcv.(irs := seg.seqNo, nxt := Add(seg.seqNo, 1)) && g.wire == e.wire && g.cfg == e.cfg
            && g.hist == e.hist.(unaPos := 0, since := |e.wire|) && g.tm == e.tm && g.snd.retx == e.snd.retx && g.passive == e.passive && g.state == e.state
  {
  }

  /** The window offered with the first segment that answers the peer's SYN. */
  function FirstWindowFor(e: Engine, seg: Segment): int {
    var d, w := S32(Add(seg.seqNo, 1) - e.rcv.nxt), e.cfg.rcvWnd;
    if 0 < d < Min(PeerMss(e, seg), Max(1, w / 2)) then w - d else w
  }

  /** Our SYN recorded its edge; the peer's moves RCV.NXT forward, and if it crosses ours, its data is within the window
      offered first. */
  predicate BeginsStrides(e: Engine, seg: Segment) {
    && e.rcv.advRight == Some(Add(e.rcv.nxt, e.cfg.rcvWnd)) && MovesForward(e, seg.seqNo)
    && (!seg.flags.ack ==> |seg.payload| <= FirstWindowFor(e, seg))
  }

  lemma SynSentOpens(e: Engine, seg: Segment, lim: Bound)
    requires Inv(e, None) && e.state == SYN_SENT && Bounds(lim, e.cfg) && seg.window < 0x1_0000
    requires seg.flags.syn && !seg.flags.ack && !seg.flags.rst ==> |seg.payload| <= lim.room
    requires lim.strides && seg.flags.syn ==> BeginsStrides(e, seg) && lim.from == |e.wire|
    ensures Opens(e, HandleSynSent(e, seg), lim)
  {
    hide EmitRstReply, EnterClosed, TakeSyn, SendPending, SendAck, SetState, HandleSynchronized, SimultaneousOpen;
    hide Inv, SeqLeq, SeqGt, Between, Roomy, KeepsWindow, BeginsStrides;
    RstReplyTouches(e, seg, seg.ackNo, 0, false);
    ClosedIsClosed(SignalError(e, ConnectionRefused));
    if seg.flags.syn && !seg.flags.rst && !(seg.flags.ack && (SeqLeq(seg.ackNo, e.snd.iss) || SeqGt(seg.ackNo, e.snd.nxt))) {
      TakeSynOk(e, seg, None);
      SynTakenIs(e, seg);
      TakeSynKeepsWire(e, seg);
      NothingInListen(e);
      var f := TakeSyn(e, seg);
      if SeqGt(f.snd.una, f.snd.iss) {
        EstablishedOpens(e, f, seg, lim);
      } else {
        OneSynQueued(e, None);
        SimultaneousOpens(e, f, seg, lim);
      }
    }
  }

  lemma SynTakenIs(e: Engine, seg: Segment)
    requires SynTaken(e, TakeSyn(e, seg), seg, None)
    ensures var f := TakeSyn(e, seg);
            && f.rcv == e.rcv.(irs := seg.seqNo, nxt := Add(seg.seqNo, 1)) && f.cfg == e.cfg && f.state == e.state
            && f.hist == e.hist.(unaPos := if seg.flags.ack then 1 else 0) && f.passive == e.passive
            && f.tm.ackCount == e.tm.ackCount && f.snd.mss == PeerMss(e, seg)
            && (SeqGt(f.snd.una, f.snd.iss) <==> seg.flags.ack)
  {
  }

  lemma EstablishedOpens(e: Engine, f: Engine, seg: Segment, lim: Bound)
    requires Inv(e, None) && e.state == SYN_SENT && f == TakeSyn(e, seg) && SynTaken(e, f, seg, None) && seg.flags.ack && seg.window < 0x1_0000
    requires Unreceived(e) && e.tm.ackCount <= 1 && Bounds(lim, e.cfg) && f.wire == e.wire && !f.passive
    requires lim.strides ==> BeginsStrides(e, seg) && lim.from == |e.wire|
    ensures var g := SendPending(SendAck(SetState(f, ESTABLISHED)));
            var cont := seg.(flags := seg.flags.(syn := false), seqNo := Add(seg.seqNo, 1));
            Opens(e, g, lim) && Opens(e, HandleSynchronized(g, cont), lim)
  {
    hide SendPending, SendAck, SetState, HandleSynchronized, TakeSyn, Ready, Roomy, KeepsWindow, Inv, SynTaken, Heard, BeginsStrides;
    TakenEstablishes(e, f, seg);
    var m := SetState(f, ESTABLISHED);
    StateTouches(f, ESTABLISHED);
    CountStays(f, ESTABLISHED);
    FitsFromNothing(m, seg.seqNo, lim);
    SynTakenIs(e, seg);
    if lim.strides {
      FirstAckOffers(e, m, seg, lim);
    } else {
      PlainReady(m, seg.seqNo, lim);
      SendAckKeeps(m, seg.seqNo, lim);
    }
    EstablishedKeeps(m, seg, seg.seqNo, lim);
  }

  /** The acknowledgement of the peer's SYN-ACK begins the strides. */
  lemma FirstAckOffers(e: Engine, m: Engine, seg: Segment, lim: Bound)
    requires Fitted(m, seg.seqNo, lim) && lim.strides && BeginsStrides(e, seg) && lim.from == |e.wire| == |m.wire|
    requires m.rcv == e.rcv.(irs := seg.seqNo, nxt := Add(seg.seqNo, 1)) && m.cfg == e.cfg && !m.passive && m.tm.ackCount <= 1
    requires m.hist.delivered == [] && m.hist.fins == 0 && m.rcv.buf == [] && m.rcv.ooo == [] && m.snd.retx == []
    ensures KeepsWindow(m, SendAck(m), seg.seqNo, lim)
  {
    hide Emit, Climbs, Settles, S32, Wrap;
    FirstOffer(m, m.snd.nxt, ACK, [], false, seg.seqNo, e.rcv.nxt);
    EmitFits(m, m.snd.nxt, ACK, [], false, seg.seqNo, lim);
    var f := Emit(m, m.snd.nxt, ACK, [], false);
    CountReset(f, SendAck(m), seg.seqNo, lim);
    ClimbsOn(m, f, SendAck(m));
  }

  lemma TakenEstablishes(e: Engine, f: Engine, seg: Segment)
    requires Inv(e, None) && e.state == SYN_SENT && SynTaken(e, f, seg, None) && seg.flags.ack && Unreceived(e)
    ensures var g := SendPending(SendAck(SetState(f, ESTABLISHED))); Inv(g, None) && Synced(g.state)
    ensures f.rcv == e.rcv.(irs := seg.seqNo, nxt := Add(seg.seqNo, 1)) && f.cfg == e.cfg
            && f.hist == e.hist.(unaPos := 1) && f.snd.retx == []
  {
    hide SendPending, SendAck, SetState, SeqGt, Tiles, Wrap, PacketOk, Settled, KarnOk, Tally, AllAck;
    SynSentEstablishes(f, None);
    TilesEmpty(f.snd.retx, f.snd.iss, f.hist.unaPos, f.hist);
  }

  lemma EstablishedKeeps(m: Engine, seg: Segment, base: int, lim: Bound)
    requires KeepsWindow(m, SendAck(m), base, lim)
    requires Inv(SendPending(SendAck(m)), None) && Synced(SendPending(SendAck(m)).state) && seg.window < 0x1_0000
    ensures var g := SendPending(SendAck(m));
            var cont := seg.(flags := seg.flags.(syn := false), seqNo := Add(seg.seqNo, 1));
            KeepsWindow(m, g, base, lim) && KeepsOrDrops(m, HandleSynchronized(g, cont), base, lim)
  {
    hide SendPending, SendAck, HandleSynchronized, Roomy, KeepsWindow, Inv, Heard;
    KeptFits(m, SendAck(m), base, lim);
    SendKeeps(SendAck(m), base, lim);
    var g := SendPending(SendAck(m));
    KeepsOn(m, SendAck(m), g, base, lim);
    KeptFits(m, g, base, lim);
    var cont := seg.(flags := seg.flags.(syn := false), seqNo := Add(seg.seqNo, 1));
    SynchronizedKeeps(g, cont, base, lim);
    if Synced(HandleSynchronized(g, cont).state) { KeepsOn(m, g, HandleSynchronized(g, cont), base, lim); }
  }

  lemma SimultaneousOpens(e: Engine, f: Engine, seg: Segment, lim: Bound)
    requires f.rcv == e.rcv.(irs := seg.seqNo, nxt := Add(seg.seqNo, 1)) && Unreceived(f) && f.cfg == e.cfg && f.wire == e.wire
    requires Bounds(lim, f.cfg) && |seg.payload| <= lim.room && !f.passive && f.tm.ackCount <= 1
    requires |f.snd.retx| == 1 && f.snd.retx[0].flags.syn && !f.snd.retx[0].flags.rst && f.snd.mss == PeerMss(e, seg)
    requires lim.strides ==> BeginsStrides(e, seg) && lim.from == |e.wire| && !seg.flags.ack
    ensures Opens(f, SimultaneousOpen(f, seg), lim)
  {
    hide SetState, Emit, KeepsWindow, HoldSynData, Fitted, Settles, BeginsStrides;
    StateTouches(f, SYN_RECEIVED);
    CountStays(f, SYN_RECEIVED);
    var g := SynBecomesSynAck(SetState(f, SYN_RECEIVED));
    var m := HoldSynData(g, seg);
    SynDataFits(g, seg, lim);
    if lim.strides {
      FirstSynAckOffers(e, m, seg, lim);
    } else {
      PlainReady(m, seg.seqNo, lim);
      EmitKeeps(m, m.snd.iss, SYN_ACK, [], true, seg.seqNo, lim);
    }
  }

  /** Data on the peer's SYN that fits the buffer is within it from the start. */
  lemma SynDataFits(g: Engine, seg: Segment, lim: Bound)
    requires g.rcv.nxt == Add(seg.seqNo, 1) && Unreceived(g) && Bounds(lim, g.cfg) && |seg.payload| <= lim.room
    ensures var m := HoldSynData(g, seg);
            && Fitted(m, seg.seqNo, lim) && m == g.(rcv := m.rcv)
            && m.rcv == g.rcv.(ooo := m.rcv.ooo, pendingFin := m.rcv.pendingFin)
            && forall i :: 0 <= i < |m.rcv.ooo| ==> m.rcv.ooo[i].EndPos() == 1 + |seg.payload|
  {
  }

  /** The SYN-ACK of a simultaneous open begins the strides. */
  lemma FirstSynAckOffers(e: Engine, m: Engine, seg: Segment, lim: Bound)
    requires Fitted(m, seg.seqNo, lim) && lim.strides && BeginsStrides(e, seg) && lim.from == |e.wire| == |m.wire| && !seg.flags.ack
    requires m.rcv == e.rcv.(irs := seg.seqNo, nxt := Add(seg.seqNo, 1), ooo := m.rcv.ooo, pendingFin := m.rcv.pendingFin)
    requires m.cfg == e.cfg && !m.passive && m.tm.ackCount <= 1 && m.snd.mss == PeerMss(e, seg) && AllAcknowledge(m.snd.retx)
    requires m.hist.delivered == [] && m.hist.fins == 0 && m.rcv.buf == []
    requires forall i :: 0 <= i < |m.rcv.ooo| ==> m.rcv.ooo[i].EndPos() == 1 + |seg.payload|
    ensures KeepsWindow(m, Emit(m, m.snd.iss, SYN_ACK, [], true), seg.seqNo, lim)
  {
    hide Emit, Climbs, Settles, S32, Wrap, RcvWnd;
    FirstEdge(m, seg.seqNo, e.rcv.nxt);
    assert Edge(m) == 1 + FirstWindowFor(e, seg);
    FirstOffer(m, m.snd.iss, SYN_ACK, [], true, seg.seqNo, e.rcv.nxt);
    EmitFits(m, m.snd.iss, SYN_ACK, [], true, seg.seqNo, lim);
    Offered(Emit(m, m.snd.iss, SYN_ACK, [], true), seg.seqNo, lim);
  }

  // ---------------------------------------------------------------------------------------------
  // Steps and runs
  // ---------------------------------------------------------------------------------------------

  /** A SYN that crosses ours carries no more data than `room`. */
  predicate Fitting(e: Engine, ev: Event, room: nat) {
    ev.Arrives? && CrossingSyn(e, ev.seg) ==> |ev.seg.payload| <= room
  }

  ghost predicate WindowOk(e: Engine, lim: Bound) {
    Synced(e.state) ==> exists base: int :: Roomy(e, base, lim)
  }

  lemma SegmentKeeps(e: Engine, seg: Segment, base: int, lim: Bound)
    requires Inv(e, None) && Synced(e.state) && Roomy(e, base, lim) && seg.window < 0x1_0000
    ensures KeepsOrDrops(e, OnSegment(e, seg), base, lim)
  {
    hide Inv, RestartKeepalive, HandleSynchronized, Roomy, KeepsWindow, Heard;
    SameKeeps(e, e, base, lim);
    if ForUs(e, seg) {
      var f := if e.state == ESTABLISHED then RestartKeepalive(e, true) else e;
      if e.state == ESTABLISHED {
        RestartKeepaliveOk(e, None);
        SameKeeps(e, f, base, lim);
        KeptFits(e, f, base, lim);
      }
      SynchronizedKeeps(f, seg, base, lim);
      if Synced(HandleSynchronized(f, seg).state) { KeepsOn(e, f, HandleSynchronized(f, seg), base, lim); }
    }
  }

  lemma SendCallKeeps(e: Engine, data: seq<byte>, t: Option<real>, base: int, lim: Bound)
    requires Roomy(e, base, lim) && Synced(e.state)
    ensures KeepsWindow(e, Send(e, data, t).0, base, lim) && Synced(Send(e, data, t).0.state)
  {
    hide SendPending, Roomy, Climbs;
    SameKeeps(e, e, base, lim);
    var f := Buffer(e.(tm := e.tm.(userTimeout := if t.Some? then t else e.tm.userTimeout)), data);
    SameKeeps(e, f, base, lim);
    SendKeeps(f, base, lim);
    KeepsOn(e, f, SendPending(f), base, lim);
  }

  lemma ReceiveKeeps(e: Engine, n: nat, base: int, lim: Bound)
    requires Roomy(e, base, lim) && Synced(e.state)
    ensures KeepsWindow(e, Receive(e, n).0, base, lim) && Receive(e, n).0.state == e.state
  {
    hide SendAck, RcvWnd, Roomy, Climbs;
    SameKeeps(e, e, base, lim);
    var m := Min(n, |e.rcv.buf|);
    var f := e.(rcv := e.rcv.(buf := e.rcv.buf[m..]));
    DrainKeeps(e, m, base, lim);
    KeptFits(e, f, base, lim);
    var g := f.(rcv := f.rcv.(zeroWin := false));
    SameKeeps(f, g, base, lim);
    KeepsOn(e, f, g, base, lim);
    SendAckKeeps(g, base, lim);
    KeepsOn(e, g, SendAck(g), base, lim);
  }

  /** Draining the buffer moves the edge right, if at all. */
  lemma DrainKeeps(e: Engine, n: nat, base: int, lim: Bound)
    requires Roomy(e, base, lim) && n <= |e.rcv.buf|
    ensures KeepsWindow(e, e.(rcv := e.rcv.(buf := e.rcv.buf[n..])), base, lim)
  {
    hide RcvWnd, Wrap, Strided;
    var f := e.(rcv := e.rcv.(buf := e.rcv.buf[n..]));
    WrapOfU32(e.rcv.nxt);
    EdgeGrows(e, f);
    if lim.strides {
      if e.state == SYN_RECEIVED {
        StoredEarly(e, base, lim);
        assert f == e;
      } else {
        PlacedFor32(e, base, lim);
        StridedGrows(e, f, base, lim.from, 0);
      }
    }
  }

  lemma CloseCallKeeps(e: Engine, base: int, lim: Bound)
    requires Roomy(e, base, lim) && Synced(e.state)
    ensures KeepsOrDrops(e, Close(e).0, base, lim)
  {
    hide SendPending, EnterClosed, Roomy, Climbs;
    SameKeeps(e, e, base, lim);
    var f := e.(snd := e.snd.(finPending := true));
    SameKeeps(e, f, base, lim);
    SendKeeps(f, base, lim);
    KeepsOn(e, f, SendPending(f), base, lim);
  }

  lemma RtoKeeps(e: Engine, base: int, lim: Bound)
    requires Roomy(e, base, lim) && Synced(e.state)
    ensures KeepsOrDrops(e, OnRto(e), base, lim)
  {
    hide GiveUp, Retransmit, UserTimedOut, Roomy, KeepsWindow;
    var f := e.(tm := e.tm.(rt := None));
    SameKeeps(e, f, base, lim);
    var g := f.(tm := f.tm.(rtoCount := f.tm.rtoCount + 1));
    SameKeeps(e, g, base, lim);
    KeptFits(e, g, base, lim);
    GiveUpCloses(f, UserTimeout);
    GiveUpCloses(g, RetransmissionTimeout);
    if g.snd.retx != [] {
      RetransmitKeepsWindow(g, base, lim);
      KeepsOn(e, g, Retransmit(g), base, lim);
    }
  }

  lemma QueueAcknowledges(e: Engine, base: int, lim: Bound)
    requires Roomy(e, base, lim) && lim.strides
    ensures AllAcknowledge(e.snd.retx)
  {
    hide Ready;
  }

  lemma RetransmitKeepsWindow(e: Engine, base: int, lim: Bound)
    requires Roomy(e, base, lim) && e.snd.retx != []
    ensures KeepsWindow(e, Retransmit(e), base, lim) && Retransmit(e).state == e.state
  {
    hide Emit, Roomy, Climbs;
    if lim.strides { QueueAcknowledges(e, base, lim); }
    var o := e.snd.retx[0].(retransmitted := true, sentTime := e.tm.now, copies := e.snd.retx[0].copies + 1);
    var f := e.(rtt := RttBackoff(e.cfg.timers, e.rtt), snd := e.snd.(rttPending := None, retx := [o] + e.snd.retx[1..]));
    SameKeeps(e, f, base, lim);
    EmitKeeps(f, o.seqNo, o.flags, o.payload, o.flags.syn, base, lim);
    var g := Emit(f, o.seqNo, o.flags, o.payload, o.flags.syn);
    KeepsOn(e, f, g, base, lim);
    SameKeeps(g, Retransmit(e), base, lim);
    KeepsOn(e, g, Retransmit(e), base, lim);
  }

  lemma PersistKeeps(e: Engine, base: int, lim: Bound)
    requires Roomy(e, base, lim) && Synced(e.state)
    ensures KeepsWindow(e, OnPersist(e), base, lim) && Synced(OnPersist(e).state)
  {
    hide SendPending, SendChunk, SendFin, Roomy, KeepsWindow;
    var f := e.(tm := e.tm.(persist := None));
    SameKeeps(e, f, base, lim);
    KeptFits(e, f, base, lim);
    if f.snd.wnd > 0 {
      SendKeeps(f, base, lim);
      KeepsOn(e, f, SendPending(f), base, lim);
    } else if f.snd.appBuf != [] {
      ChunkKeeps(f, 1, base, lim);
      RearmKeeps(f, SendChunk(f, 1), base, lim);
      KeepsOn(e, f, RearmPersist(SendChunk(f, 1)), base, lim);
    } else if f.snd.finPending && !f.snd.finSent {
      FinKeeps(f, base, lim);
      RearmKeeps(f, SendFin(f), base, lim);
      KeepsOn(e, f, RearmPersist(SendFin(f)), base, lim);
    }
  }

  lemma ChunkKeeps(e: Engine, n: nat, base: int, lim: Bound)
    requires Roomy(e, base, lim) && n <= |e.snd.appBuf|
    ensures KeepsWindow(e, SendChunk(e, n), base, lim) && SendChunk(e, n).state == e.state
  {
    hide QueueAndSend, Roomy, Climbs;
    var g := e.(snd := e.snd.(appBuf := e.snd.appBuf[n..]));
    SameKeeps(e, g, base, lim);
    QueueKeeps(g, ACK, e.snd.appBuf[..n], false, base, lim);
    KeepsOn(e, g, SendChunk(e, n), base, lim);
  }

  lemma RearmKeeps(e: Engine, f: Engine, base: int, lim: Bound)
    requires KeepsWindow(e, f, base, lim)
    ensures KeepsWindow(e, RearmPersist(f), base, lim)
  {
    hide Roomy, Climbs;
    SameKeeps(f, RearmPersist(f), base, lim);
    KeepsOn(e, f, RearmPersist(f), base, lim);
  }

  lemma KeepaliveKeeps(e: Engine, base: int, lim: Bound)
    requires Roomy(e, base, lim) && Synced(e.state)
    ensures KeepsOrDrops(e, OnKeepalive(e), base, lim)
  {
    hide GiveUp, Emit, Roomy, Climbs, Sub;
    var f := e.(tm := e.tm.(ka := None));
    SameKeeps(e, f, base, lim);
    GiveUpCloses(f, KeepaliveTimeout);
    SameKeeps(e, RestartKeepalive(f, false), base, lim);
    EmitKeeps(f, Sub(f.snd.una, 1), ACK, [], false, base, lim);
    var g := Emit(f, Sub(f.snd.una, 1), ACK, [], false);
    KeepsOn(e, f, g, base, lim);
    var k := RestartKeepalive(g.(tm := g.tm.(kaProbes := g.tm.kaProbes + 1)), false);
    SameKeeps(g, k, base, lim);
    KeepsOn(e, g, k, base, lim);
  }

  lemma SyncedStep(e: Engine, now: real, ev: Event, base: int, lim: Bound)
    requires Inv(e, None) && Synced(e.state) && Roomy(e, base, lim) && Allowed(e, ev)
    ensures KeepsOrDrops(e, Step(e, now, ev), base, lim)
  {
    hide Inv, OnSegment, Send, Receive, Close, OnRto, OnPersist, OnKeepalive, EnterClosed, SendAck, Roomy, Climbs;
    var a := At(e, now);
    ClockOk(e, now, None);
    SameKeeps(e, a, base, lim);
    KeptFits(e, a, base, lim);
    ClosedIsClosed(a.(tm := a.tm.(tw := None)));
    match ev
    case Arrives(seg) => SegmentKeeps(a, seg, base, lim); Onward(e, a, OnSegment(a, seg), base, lim);
    case SendCalled(d, t) => SendCallKeeps(a, d, t, base, lim); Onward(e, a, Send(a, d, t).0, base, lim);
    case ReceiveCalled(n) => ReceiveKeeps(a, n, base, lim); Onward(e, a, Receive(a, n).0, base, lim);
    case CloseCalled => CloseCallKeeps(a, base, lim); Onward(e, a, Close(a).0, base, lim);
    case AbortCalled => ClosedIsClosed(SendRst(a));
    case RtoFires => RtoKeeps(a, base, lim); Onward(e, a, OnRto(a), base, lim);
    case PersistFires => PersistKeeps(a, base, lim); Onward(e, a, OnPersist(a), base, lim);
    case DelackFires =>
      var f := a.(tm := a.tm.(ack := None));
      SameKeeps(a, f, base, lim);
      SendAckKeeps(f, base, lim);
      KeepsOn(a, f, SendAck(f), base, lim);
      KeepsOn(e, a, SendAck(f), base, lim);
    case KeepaliveFires => KeepaliveKeeps(a, base, lim); Onward(e, a, OnKeepalive(a), base, lim);
    case OpenCalled(act, r, l, t) => RefusedKeeps(a, act, r, l, t, base, lim); Onward(e, a, OpenCall(a, act, r, l, t).0, base, lim);
    case TimeWaitFires =>
  }

  lemma Onward(e: Engine, m: Engine, f: Engine, base: int, lim: Bound)
    requires KeepsWindow(e, m, base, lim) && KeepsOrDrops(m, f, base, lim)
    ensures KeepsOrDrops(e, f, base, lim)
  {
    hide Roomy, Climbs, Heard;
    if Synced(f.state) { KeepsOn(e, m, f, base, lim); }
  }

  lemma RefusedKeeps(e: Engine, act: bool, r: Option<u16>, l: Option<u16>, t: Option<real>, base: int, lim: Bound)
    requires Roomy(e, base, lim) && Synced(e.state)
    ensures KeepsWindow(e, OpenCall(e, act, r, l, t).0, base, lim)
  {
    hide Roomy, Climbs;
    SameKeeps(e, OpenCall(e, act, r, l, t).0, base, lim);
  }

  /** A step of an engine that does not know its peer yet either stays so, or the edges climb from there on. */
  lemma OpeningStep(e: Engine, now: real, ev: Event, lim: Bound)
    requires Inv(e, None) && !Synced(e.state) && Allowed(e, ev) && Fitting(e, ev, lim.room) && Bounds(lim, e.cfg)
    requires lim.strides && e.state == LISTEN ==> Heard(e) && lim.from == 0
    requires lim.strides && e.state == SYN_SENT && ev.Arrives? && ev.seg.flags.syn ==> BeginsStrides(e, ev.seg) && lim.from == |e.wire|
    ensures Opens(e, Step(e, now, ev), lim)
    ensures e.state == LISTEN && lim.strides && ev.Arrives? && Step(e, now, ev).state == LISTEN ==> Heard(Step(e, now, ev))
  {
    hide Inv, HandleListen, HandleSynSent, EmitRstReply, KeepsWindow, React, Heard;
    var a := At(e, now);
    if ev.Arrives? {
      ClockOk(e, now, None);
      if lim.strides && e.state == LISTEN { StillHeard(e, a); }
      var seg := ev.seg;
      assert Step(e, now, ev) == OnSegment(a, seg) by { ArrivalIs(e, now, seg); }
      if ForUs(a, seg) {
        if a.state == LISTEN {
          ListenOpens(a, seg, lim);
        } else if a.state == SYN_SENT {
          SynSentOpens(a, seg, lim);
        } else {
          RstReplyTouches(a, seg, seg.ackNo, 0, false);
          RstReplyTouches(a, seg, 0, Add(seg.seqNo, seg.SegLen()), true);
        }
      }
    } else {
      StepOk(e, now, ev, None);
    }
  }

  /** Every step keeps the buffer within its bound, and the advertised edge from moving left. */
  lemma StepClimbs(e: Engine, now: real, ev: Event, room: nat)
    requires Inv(e, None) && WindowOk(e, Plain(room)) && Allowed(e, ev) && Fitting(e, ev, room) && e.cfg.rcvWnd <= room < 0x1_0000
    ensures var f := Step(e, now, ev);
            && WindowOk(f, Plain(room))
            && (Synced(e.state) && Synced(f.state) ==> Climbs(e, f))
            && (!Synced(e.state) ==> Opens(e, f, Plain(room)))
  {
    hide Inv, Step, Allowed, Roomy, Climbs;
    if Synced(e.state) {
      var base: int :| Roomy(e, base, Plain(room));
      SyncedStep(e, now, ev, base, Plain(room));
    } else {
      OpeningStep(e, now, ev, Plain(room));
    }
  }

  /** Room in the buffer, whatever the strides. */
  function Plain(room: nat): Bound { Bound(room, false, 0) }

  /** Every SYN of the run that crosses ours carries no more data than `room`. */
  predicate FittingRun(e: Engine, evs: seq<(real, Event)>, room: nat)
    decreases |evs|
  {
    evs != [] ==> Fitting(e, evs[0].1, room) && FittingRun(Step(e, evs[0].0, evs[0].1), evs[1..], room)
  }

  /** The connection stays synchronized throughout. */
  predicate StaysSynced(e: Engine, evs: seq<(real, Event)>)
    decreases |evs|
  {
    Synced(e.state) && (evs != [] ==> StaysSynced(Step(e, evs[0].0, evs[0].1), evs[1..]))
  }

  lemma {:induction false} WindowRun(e: Engine, evs: seq<(real, Event)>, room: nat)
    requires Inv(e, None) && WindowOk(e, Plain(room)) && AllowedRun(e, evs) && FittingRun(e, evs, room)
    requires e.cfg.rcvWnd <= room < 0x1_0000
    ensures WindowOk(After(e, evs), Plain(room))
    ensures StaysSynced(e, evs) ==> Climbs(e, After(e, evs))
    decreases |evs|
  {
    hide Inv, Step, Allowed, Fitting, Climbs, WindowOk;
    if evs == [] {
      assert Climbs(e, e) by { StaysPut(e); }
    } else {
      var m := Step(e, evs[0].0, evs[0].1);
      StepOk(e, evs[0].0, evs[0].1, None);
      StepClimbs(e, evs[0].0, evs[0].1, room);
      WindowRun(m, evs[1..], room);
      if StaysSynced(e, evs) { ClimbsOn(e, m, After(e, evs)); }
    }
  }

  lemma StaysPut(e: Engine)
    ensures Climbs(e, e)
  {
  }

  /** The buffer never holds more than it was given, in any run against any peer, as long as no SYN that crosses ours
      carries more data than that. */
  lemma BufferNeverOverfull(cfg: Config, port: u16, ut: Option<real>, t: real, evs: seq<(real, Event)>)
    requires cfg.rcvWnd < 0x1_0000 && FittingRun(Fresh(cfg, port, ut, t), evs, cfg.rcvWnd)
    requires AllowedRun(Fresh(cfg, port, ut, t), evs)
    ensures var e := After(Fresh(cfg, port, ut, t), evs); Synced(e.state) ==> |e.rcv.buf| <= e.cfg.rcvWnd && e.cfg == cfg
  {
    hide Inv, AllowedRun, After, FittingRun;
    var e := Fresh(cfg, port, ut, t);
    FreshOk(cfg, port, ut, t, None);
    WindowRun(e, evs, cfg.rcvWnd);
    CfgStays(e, evs);
  }

  lemma {:induction false} CfgStays(e: Engine, evs: seq<(real, Event)>)
    requires Inv(e, None) && AllowedRun(e, evs)
    ensures After(e, evs).cfg == e.cfg
    decreases |evs|
  {
    hide Inv, Step, Allowed;
    if evs != [] {
      StepOk(e, evs[0].0, evs[0].1, None);
      CfgStays(Step(e, evs[0].0, evs[0].1), evs[1..]);
    }
  }

  /** The advertised right edge never moves left: in any run against any peer, over any stretch in which the
      connection is synchronized, each acknowledging segment advertises an edge no further left than those
      before it. */
  lemma EdgeNeverMovesLeft(cfg: Config, port: u16, ut: Option<real>, t: real, first: seq<(real, Event)>, later: seq<(real, Event)>)
    requires cfg.rcvWnd < 0x1_0000
    requires AllowedRun(Fresh(cfg, port, ut, t), first) && FittingRun(Fresh(cfg, port, ut, t), first, 0xFFFF)
    requires var e := After(Fresh(cfg, port, ut, t), first); AllowedRun(e, later) && StaysSynced(e, later)
    ensures var e := After(Fresh(cfg, port, ut, t), first); Climbs(e, After(e, later))
  {
    hide Inv, AllowedRun, After, FittingRun, Climbs, WindowOk, StaysSynced;
    var e0 := Fresh(cfg, port, ut, t);
    FreshOk(cfg, port, ut, t, None);
    assert WindowOk(e0, Plain(0xFFFF)) by { FreshWindow(cfg, port, ut, t); }
    WindowRun(e0, first, 0xFFFF);
    CfgStays(e0, first);
    RunOk(e0, first);
    NoneCrosses(After(e0, first), later);
    WindowRun(After(e0, first), later, 0xFFFF);
  }

  /** Once synchronized, no SYN crosses ours. */
  lemma {:induction false} NoneCrosses(e: Engine, evs: seq<(real, Event)>)
    requires StaysSynced(e, evs)
    ensures FittingRun(e, evs, 0xFFFF)
    decreases |evs|
  {
    hide Step;
    if evs != [] { NoneCrosses(Step(e, evs[0].0, evs[0].1), evs[1..]); }
  }

  lemma FreshWindow(cfg: Config, port: u16, ut: Option<real>, t: real)
    ensures WindowOk(Fresh(cfg, port, ut, t), Plain(0xFFFF))
  {
  }
}
