/** Karn's rule over whole runs, read of the wire: no round-trip sample comes from a segment that was put on the
    wire more than once. Two ways of sending a SYN again without a retransmission are excepted, exactly. */
module Karn {
  import opened SeqNum
  import opened EngineState
  import opened EngineSpec
  import opened EngineFacts
  import opened SendInvariant
  import opened SendPath
  import opened AckPath
  import opened EngineInvariant
  import opened SegmentArrives
  import opened Opening
  import opened EngineRuns
  import opened RunTheorems
  import opened WireLog
  import opened Corners
  import opened WindowUpdate

  lemma {:induction false} TimesJoin(a: seq<Packet>, b: seq<Packet>, x: int)
    ensures Times(a + b, x) == Times(a, x) + Times(b, x)
    decreases |b|
  {
    if b == [] {
      assert a + b == a;
    } else {
      var c := b[..|b| - 1];
      TimesJoin(a, c, x);
      assert (a + b)[..|a + b| - 1] == a + c;
    }
  }

  /** SYNs that earlier connection attempts put on the wire. */
  function EarlierSyns(e: Engine): nat { Times(e.wire[..Min(e.hist.since, |e.wire|)], 0) }

  /** How often the last sequence number of `o` is on the wire. */
  function OnWire(e: Engine, o: Outgoing): nat { Times(e.wire, o.EndPos() - 1) }

  /** The history counter is the wire's: an entry that ends in data or a FIN is on the wire `copies` times; a SYN
      so often, besides the SYNs of earlier attempts. */
  lemma CopiesOnWire(e: Engine, i: nat)
    requires Reached(e) && Active(e.state) && i < |e.snd.retx|
    ensures var o := e.snd.retx[i];
            OnWire(e, o) == o.copies + if o.EndPos() == 1 then EarlierSyns(e) else 0
  {
    hide Reached, WireOk, Trail, Wrap, Coupled, Settled, EntryOk, KarnOk;
    ReachedInv(e);
    TilesWithin(e.snd.retx, e.snd.iss, e.hist.unaPos, e.hist, i);
    var before, since, x := e.wire[..e.hist.since], e.wire[e.hist.since..], e.snd.retx[i].EndPos() - 1;
    assert e.wire == before + since;
    TimesJoin(before, since, x);
    if x > 0 { TimesNone(before, x); }
  }

  /** The SYN that a simultaneous open sends a second time, now as a SYN-ACK. */
  predicate SentAgainAsSynAck(e: Engine, o: Outgoing) { !e.passive && o.flags.syn && o.flags.ack }

  /** A SYN that an earlier attempt had sent too: a reset took a listener back to LISTEN, and it was opened again. */
  predicate SentBefore(e: Engine, o: Outgoing) { o.EndPos() == 1 && EarlierSyns(e) > 0 }

  /** What is being timed lies between SND.UNA and SND.NXT and is in the queue, never retransmitted, since it was
      first sent. On the wire it is exactly once, but if it is a SYN sent again in one of the two ways. */
  lemma TimedOnce(e: Engine) returns (i: nat)
    requires Reached(e) && Active(e.state) && e.snd.rttPending.Some?
    ensures i < |e.snd.retx| && e.snd.rttPending.value == (e.snd.retx[i].End(), e.snd.retx[i].sentTime)
    ensures var o := e.snd.retx[i];
            !o.retransmitted && (OnWire(e, o) == 1 <==> !SentAgainAsSynAck(e, o) && !SentBefore(e, o))
            && OnWire(e, o) >= 1 && (o.EndPos() > 1 ==> OnWire(e, o) == 1)
    ensures SeqLt(e.snd.una, e.snd.rttPending.value.0) && SeqLeq(e.snd.rttPending.value.0, e.snd.nxt)
  {
    hide Reached, Tiles, WireOk, Trail, Wrap, Coupled, Settled, EntryOk, Tally;
    ReachedInv(e);
    i :| 0 <= i < |e.snd.retx| && TimedBy(e.snd.retx[i], e.snd.rttPending.value, e.passive);
    TilesWithin(e.snd.retx, e.snd.iss, e.hist.unaPos, e.hist, i);
    var o := e.snd.retx[i];
    EntryEnd(o, e.snd.iss, e.hist);
    SerialOrder(e.snd.iss, e.hist.unaPos, o.EndPos());
    SerialOrder(e.snd.iss, o.EndPos(), SentEnd(e.hist));
    CopiesOnWire(e, i);
    SynEndsFirst(o, e.snd.iss, e.hist);
  }

  /** A SYN stands at position 0, alone. */
  lemma SynEndsFirst(o: Outgoing, iss: u32, h: History)
    requires EntryOk(o, iss, h)
    ensures o.flags.syn ==> o.EndPos() == 1
  {
  }

  // ---------------------------------------------------------------------------------------------
  // Where samples come from
  // ---------------------------------------------------------------------------------------------

  /** The estimator stays, or takes the one sample that the acknowledgement gives. */
  predicate Samples(e: Engine, f: Engine, ack: u32) { f.rtt == e.rtt || f.rtt == ProcessAck(e, ack).rtt }

  lemma AckStepSamples(e: Engine, seg: Segment)
    ensures Samples(e, AckAndWindow(e, seg), seg.ackNo)
    ensures !SeqGt(seg.ackNo, e.snd.una) ==> AckAndWindow(e, seg).rtt == e.rtt
  {
    hide ProcessAck, CancelPersist, SeqGt, SeqLt, SeqLeq;
    var g := if SeqGt(seg.ackNo, e.snd.una) then ProcessAck(e, seg.ackNo) else e;
    SendAppends(g.(snd := g.snd.(wnd := seg.window, wl1 := seg.seqNo, wl2 := seg.ackNo)));
  }

  lemma EstablishSamples(e: Engine, seg: Segment)
    ensures Samples(e, Establish(e, seg), seg.ackNo)
  {
    hide ProcessAck, SetState, Merge, SendPending;
    var f := ProcessAck(e, seg.ackNo);
    var g := f.(snd := f.snd.(wnd := seg.window, wl1 := seg.seqNo, wl2 := seg.ackNo));
    StateKeepsWire(g, ESTABLISHED);
    MergeKeepsWire(SetState(g, ESTABLISHED));
    SendAppends(Merge(SetState(g, ESTABLISHED)));
  }

  lemma HandleAckSamples(e: Engine, seg: Segment)
    ensures Samples(e, HandleAck(e, seg), seg.ackNo)
    ensures e.state != SYN_RECEIVED && !SeqGt(seg.ackNo, e.snd.una) ==> HandleAck(e, seg).rtt == e.rtt
  {
    hide Establish, TextAndFin, EmitRstReply, SendAck, AckAndWindow, AfterAck, ProcessAck, SeqLt, SeqLeq, SeqGt;
    EstablishSamples(e, seg);
    TextAppends(Establish(e, seg), seg);
    RstReplyAppends(e, seg, seg.ackNo, 0, false);
    AnswerAppends(e, true);
    AckStepSamples(e, seg);
    AfterAckAppends(AckAndWindow(e, seg), seg);
  }

  lemma SynchronizedSamples(e: Engine, seg: Segment)
    ensures Samples(e, HandleSynchronized(e, seg), seg.ackNo)
    ensures e.state != SYN_RECEIVED && !SeqGt(seg.ackNo, e.snd.una) ==> HandleSynchronized(e, seg).rtt == e.rtt
  {
    hide SendAck, EnterClosed, DoReset, HandleAck, ProcessAck, Acceptable, RcvWnd, SeqGt;
    AnswerAppends(e, true);
    CloseAppends(e);
    ResetAppends(e);
    HandleAckSamples(e, seg);
  }

  lemma TakeSynSamples(e: Engine, seg: Segment)
    ensures Samples(e, TakeSyn(e, seg), seg.ackNo)
  {
    hide RttSample, Trim, PeerMss;
  }

  lemma SynSentSamples(e: Engine, seg: Segment)
    requires Inv(e, None) && e.state == SYN_SENT && seg.window < 0x1_0000
    ensures Samples(e, HandleSynSent(e, seg), seg.ackNo)
  {
    hide EmitRstReply, EnterClosed, TakeSyn, SendPending, SendAck, SetState, HandleSynchronized, SimultaneousOpen, ProcessAck;
    hide Inv, SeqLeq, SeqGt, Between, SynTaken;
    RstReplyAppends(e, seg, seg.ackNo, 0, false);
    CloseAppends(SignalError(e, ConnectionRefused));
    TakeSynSamples(e, seg);
    var f := TakeSyn(e, seg);
    StateKeepsWire(f, ESTABLISHED);
    AnswerAppends(SetState(f, ESTABLISHED), true);
    SendAppends(SendAck(SetState(f, ESTABLISHED)));
    SimultaneousAppends(f, seg);
    if seg.flags.syn && !seg.flags.rst && !(seg.flags.ack && (SeqLeq(seg.ackNo, e.snd.iss) || SeqGt(seg.ackNo, e.snd.nxt))) {
      TakeSynOk(e, seg, None);
      TakenAcked(e, f, seg);
      if seg.flags.ack {
        AckedByThen(e, f, seg);
        var g := SendPending(SendAck(SetState(f, ESTABLISHED)));
        SynchronizedSamples(g, seg.(flags := seg.flags.(syn := false), seqNo := Add(seg.seqNo, 1)));
      }
    }
  }

  lemma TakenAcked(e: Engine, f: Engine, seg: Segment)
    requires SynTaken(e, f, seg, None)
    ensures SeqGt(f.snd.una, f.snd.iss) <==> seg.flags.ack
  {
    hide SeqGt, SendOk, WireOk;
  }

  /** The acknowledgement of our SYN is not news a second time. */
  lemma AckedByThen(e: Engine, f: Engine, seg: Segment)
    requires Inv(e, None) && e.state == SYN_SENT && SynTaken(e, f, seg, None) && seg.flags.ack
    ensures var g := SendPending(SendAck(SetState(f, ESTABLISHED))); g.snd.una == seg.ackNo && g.state != SYN_RECEIVED
    ensures !SeqGt(seg.ackNo, seg.ackNo)
  {
    hide SendPending, SendAck, SetState, SeqGt, Tiles, Wrap, PacketOk, Settled, KarnOk, Tally, AllAck;
    SynSentEstablishes(f, None);
    StateTouches(f, ESTABLISHED);
    AckTouches(SetState(f, ESTABLISHED));
    SendOnlySends(SendAck(SetState(f, ESTABLISHED)));
    NotAbove(seg.ackNo);
  }

  lemma NotAbove(x: u32)
    ensures !SeqGt(x, x)
  {
  }

  lemma ArrivalSamples(e: Engine, seg: Segment)
    requires Inv(e, None) && seg.window < 0x1_0000
    ensures Samples(e, OnSegment(e, seg), seg.ackNo) && (!Active(e.state) ==> OnSegment(e, seg).rtt == e.rtt)
  {
    hide Inv, EmitRstReply, HandleListen, HandleSynSent, HandleSynchronized, ProcessAck;
    var f := if e.state == ESTABLISHED then RestartKeepalive(e, true) else e;
    assert ProcessAck(f, seg.ackNo).rtt == ProcessAck(e, seg.ackNo).rtt by { SameSample(e, f, seg.ackNo); }
    RstReplyAppends(f, seg, seg.ackNo, 0, false);
    RstReplyAppends(f, seg, 0, Add(seg.seqNo, seg.SegLen()), true);
    ListenAppends(f, seg);
    SynchronizedSamples(f, seg);
    if e.state == SYN_SENT { SynSentSamples(e, seg); }
  }

  lemma SameSample(e: Engine, f: Engine, ack: u32)
    requires f == e.(tm := f.tm) && f.tm.now == e.tm.now
    ensures ProcessAck(f, ack).rtt == ProcessAck(e, ack).rtt
  {
    hide Trim, RttSample;
  }

  /** A segment that arrived at `now` covers `o`, and the estimator took its age as a sample: `o` was not retransmitted,
      and it was sent once, SYNs sent again without a retransmission excepted. */
  predicate SampledFrom(e: Engine, f: Engine, now: real, o: Outgoing, ack: u32) {
    && SeqGeq(ack, o.End()) && !o.retransmitted
    && (OnWire(e, o) == 1 || SentAgainAsSynAck(e, o) || SentBefore(e, o))
    && f.rtt == RttSample(e.cfg.timers, e.rtt, now - o.sentTime)
  }

  /** Karn's rule: whenever an arriving segment changes what the estimator knows, it is by one sample, the time since a
      segment was sent that has not been retransmitted. */
  lemma NoSampleFromRetransmission(e: Engine, now: real, seg: Segment)
    requires Reached(e) && Allowed(e, Arrives(seg)) && Step(e, now, Arrives(seg)).rtt != e.rtt
    ensures exists i :: 0 <= i < |e.snd.retx| && SampledFrom(e, Step(e, now, Arrives(seg)), now, e.snd.retx[i], seg.ackNo)
  {
    hide Reached, Inv, Step, ProcessAck, SampledFrom, Allowed;
    ReachedInv(e);
    ClockOk(e, now, None);
    ArrivalIs(e, now, seg);
    ArrivalSamples(At(e, now), seg) by { assert Allowed(e, Arrives(seg)); SegmentFits(e, seg); }
    var i := TimedWhenSampled(e, Step(e, now, Arrives(seg)), now, seg.ackNo);
  }

  lemma SegmentFits(e: Engine, seg: Segment)
    requires Allowed(e, Arrives(seg))
    ensures seg.window < 0x1_0000
  {
  }

  lemma TimedWhenSampled(e: Engine, f: Engine, now: real, ack: u32) returns (i: nat)
    requires Reached(e) && Active(e.state) && f.rtt == ProcessAck(At(e, now), ack).rtt != e.rtt
    ensures i < |e.snd.retx| && SampledFrom(e, f, now, e.snd.retx[i], ack)
  {
    hide Reached, Trim, RttSample, OnWire, SentBefore;
    i := TimedOnce(e);
  }

  predicate TimedStrictly(e: Engine) {
    e.snd.rttPending.Some? ==> exists i :: 0 <= i < |e.snd.retx| && e.snd.retx[i].End() == e.snd.rttPending.value.0
                                           && e.snd.retx[i].copies == 1
  }

  /** The exception is real: a peer's SYN that crosses ours leaves a segment sent twice under measurement exactly
      when ours was still being timed, that is, when it had not been retransmitted before. */
  lemma SimultaneousOpenKeepsTiming(e: Engine, seg: Segment)
    requires Reached(e) && e.state == SYN_SENT && seg.flags.syn && !seg.flags.ack && !seg.flags.rst
    ensures TimedStrictly(HandleSynSent(e, seg)) <==> e.snd.rttPending == None
  {
    hide Reached, Inv, SimultaneousOpen, TakeSyn, RcvWnd, SynBecomesSynAck, SeqGt;
    ReachedInv(e);
    OneSynQueued(e, None);
    SynNotAcked(e, seg);
    SimultaneousOpenQueue(TakeSyn(e, seg), seg);
    SynSentTwice(e);
    SynSentTwice(TakeSyn(e, seg));
  }

  lemma SynNotAcked(e: Engine, seg: Segment)
    requires e.snd.una == e.snd.iss && !seg.flags.ack
    ensures var f := TakeSyn(e, seg);
            f.snd.una == f.snd.iss && f.snd.retx == e.snd.retx && f.snd.rttPending == e.snd.rttPending
            && !SeqGt(f.snd.una, f.snd.iss)
  {
  }

  lemma SynSentTwice(e: Engine)
    requires |e.snd.retx| == 1 && e.snd.retx[0].flags.syn
    ensures var f := SynBecomesSynAck(e);
            f.snd.rttPending == e.snd.rttPending && |f.snd.retx| == 1 && f.snd.retx[0].copies == e.snd.retx[0].copies + 1
            && f.snd.retx[0].End() == e.snd.retx[0].End()
  {
  }

  lemma SimultaneousOpenQueue(e: Engine, seg: Segment)
    ensures SimultaneousOpen(e, seg).snd == SynBecomesSynAck(e).snd
  {
    hide Emit, HoldSynData;
    var f := SynBecomesSynAck(SetState(e, SYN_RECEIVED));
    HoldSynDataTouches(f, seg);
    EmitTouches(HoldSynData(f, seg), HoldSynData(f, seg).snd.iss, SYN_ACK, [], true);
  }

  // ---------------------------------------------------------------------------------------------
  // Every sample that is due is taken
  // ---------------------------------------------------------------------------------------------

  /** Where the segment under measurement ends, unwrapped. */
  function TimedTo(e: Engine): int
    requires e.snd.rttPending.Some?
  {
    AckPos(e, e.snd.rttPending.value.0)
  }

  lemma TimedToWraps(e: Engine)
    requires Reached(e) && Active(e.state) && e.snd.rttPending.Some?
    ensures e.snd.rttPending.value.0 == Wrap(e.snd.iss + TimedTo(e)) && e.hist.unaPos < TimedTo(e) <= SentEnd(e.hist)
  {
    hide Reached, Tiles, WireOk, Trail, Wrap, Coupled, Settled, Tally, AllAck, S32, KarnOk;
    var i := TimedOnce(e);
    ReachedInv(e);
    AckPosition(e, e.snd.rttPending.value.0);
    TilesEmpty(e.snd.retx, e.snd.iss, e.hist.unaPos, e.hist);
    AboveUna(e.snd.rttPending.value.0, e.snd.una, e.snd.nxt, e.hist.unaPos, SentEnd(e.hist), e.snd.iss);
  }

  lemma AboveUna(x: u32, una: u32, nxt: u32, a: int, b: int, iss: u32)
    requires una == Wrap(iss + a) && nxt == Wrap(iss + b) && a < b < a + HALF && SeqLt(una, x) && SeqLeq(x, nxt)
    ensures SeqGt(x, una) && !SeqGt(x, nxt)
  {
    SerialPosition(iss, a, x);
    var d := S32(x - una);
    if d == -HALF {
      assert x == Wrap(iss + (a - HALF));
      assert Wrap(iss + a + HALF) == x by { RemainderShift(iss + a - HALF, 1); }
      SerialDifference(iss, a + HALF, b);
    } else {
      SerialOrder(iss, a, a + d);
      SerialOrder(iss, a + d, b);
    }
  }

  /** Once the connection is synchronized, an acknowledgement that is let through gives the estimator the sample exactly if it
      covers the segment under measurement; and none otherwise. */
  lemma SampleTakenExactly(e: Engine, now: real, seg: Segment)
    requires Reached(e) && TextOpen(e.state) && Allowed(e, Arrives(seg)) && PassesChecks(e, seg)
    ensures var f := Step(e, now, Arrives(seg));
            f.rtt == if e.snd.rttPending.Some? && f.hist.unaPos >= TimedTo(e) then RttSample(e.cfg.timers, e.rtt, now - e.snd.rttPending.value.1)
                     else e.rtt
  {
    hide Reached, Inv, Step, AckAndWindow, AfterAck, SeqGt, RttSample, Running, PassesChecks, SendOk, WireOk, Knows, Appends, Continues;
    ReachedInv(e);
    var g := Checked(e, now, seg);
    HeardInv(e, now, None);
    PassedAck(e, seg);
    AckAndWindowOk(g, seg, None);
    AfterAckOk(AckAndWindow(g, seg), seg, None);
    AfterAckAppends(AckAndWindow(g, seg), seg);
    if e.snd.rttPending.Some? { TimedToWraps(e); }
    InvLive(g, None);
    LiveParts(g, None);
    AckSampled(g, seg);
  }

  lemma AckSampled(g: Engine, seg: Segment)
    requires SendOk(g) && !SeqGt(seg.ackNo, g.snd.nxt)
    requires g.snd.rttPending.Some? ==> g.snd.rttPending.value.0 == Wrap(g.snd.iss + TimedTo(g)) && g.hist.unaPos < TimedTo(g) <= SentEnd(g.hist)
    ensures var h := AckAndWindow(g, seg);
            h.rtt == if g.snd.rttPending.Some? && h.hist.unaPos >= TimedTo(g) then RttSample(g.cfg.timers, g.rtt, g.tm.now - g.snd.rttPending.value.1)
                     else g.rtt
  {
    hide ProcessAck, SendOk, S32, CancelPersist, RttSample, AckPos, TimedTo, Appends, OnlySends, SeqLt, SeqLeq, SeqGt;
    var h := if SeqGt(seg.ackNo, g.snd.una) then ProcessAck(g, seg.ackNo) else g;
    if SeqGt(seg.ackNo, g.snd.una) { AckedSample(g, seg.ackNo); }
    var k := h.(snd := h.snd.(wnd := seg.window, wl1 := seg.seqNo, wl2 := seg.ackNo));
    SendAppends(k);
    SendsKeepUna(k);
  }

  lemma SendsKeepUna(e: Engine)
    ensures CancelPersist(e).hist.unaPos == e.hist.unaPos
  {
    hide CancelPersist;
    SendOnlySends(e);
  }

  lemma AckedSample(g: Engine, ack: u32)
    requires SendOk(g) && !SeqGt(ack, g.snd.nxt) && SeqGt(ack, g.snd.una)
    requires g.snd.rttPending.Some? ==> g.snd.rttPending.value.0 == Wrap(g.snd.iss + TimedTo(g)) && g.hist.unaPos < TimedTo(g) <= SentEnd(g.hist)
    ensures var h := ProcessAck(g, ack);
            h.rtt == if g.snd.rttPending.Some? && h.hist.unaPos >= TimedTo(g) then RttSample(g.cfg.timers, g.rtt, g.tm.now - g.snd.rttPending.value.1)
                     else g.rtt
  {
    hide Tiles, Wrap, S32, Sub, KarnOk, Tally, AllAck, Trim, RttSample, AckPos;
    AckPosition(g, ack);
    assert ProcessAck(g, ack).hist.unaPos == AckPos(g, ack) by { AckedPos(g, ack); }
    if g.snd.rttPending.Some? { SerialOrder(g.snd.iss, AckPos(g, ack), TimedTo(g)); }
  }

  lemma AckedPos(g: Engine, ack: u32)
    ensures ProcessAck(g, ack).hist.unaPos == AckPos(g, ack)
  {
    hide Trim, RttSample, TakesSample;
  }

  // ---------------------------------------------------------------------------------------------
  // What is measured
  // ---------------------------------------------------------------------------------------------

  /** What was under measurement from `e` to `f` still is; if nothing was, the first segment sent is, from now. */
  predicate Measures(e: Engine, f: Engine) {
    && e.wire <= f.wire && f.tm.now == e.tm.now
    && f.snd.rttPending == if e.snd.rttPending.Some? || |f.wire| == |e.wire| then e.snd.rttPending
                           else Some((Add(f.wire[|e.wire|].seg.seqNo, f.wire[|e.wire|].seg.SegLen()), e.tm.now))
  }

  lemma QueueMeasures(e: Engine, flags: Flags, payload: seq<byte>)
    ensures Measures(e, QueueAndSend(e, flags, payload, false)) && |QueueAndSend(e, flags, payload, false).wire| == |e.wire| + 1
  {
    hide RcvWnd, AdvertisedRight, PosOf, Reach;
  }

  lemma FinMeasures(e: Engine)
    ensures Measures(e, SendFin(e)) && |SendFin(e).wire| == |e.wire| + 1
  {
    hide QueueAndSend, SetState;
    var g := e.(snd := e.snd.(finSeq := e.snd.nxt));
    QueueMeasures(g, FIN_ACK, []);
    var h := QueueAndSend(g, FIN_ACK, [], false);
    StateTouches(h.(snd := h.snd.(finSent := true)), FinState(h.state));
  }

  lemma {:induction false} PumpMeasures(e: Engine)
    ensures Measures(e, PumpData(e))
    decreases |e.snd.appBuf|
  {
    hide SendChunk, SendFin, UsableWindow;
    FinMeasures(e);
    if e.snd.appBuf != [] && e.snd.wnd != 0 && UsableWindow(e) > 0 {
      var n := Min(Min(e.snd.mss, UsableWindow(e)), |e.snd.appBuf|);
      if !(e.cfg.timers.nagle && e.snd.retx != [] && n < e.snd.mss) {
        ChunkMeasures(e, n);
        ChunkTakes(e, n);
        PumpMeasures(SendChunk(e, n));
      }
    }
  }

  lemma ChunkMeasures(e: Engine, n: nat)
    requires n <= |e.snd.appBuf|
    ensures Measures(e, SendChunk(e, n)) && |SendChunk(e, n).wire| == |e.wire| + 1
  {
    hide QueueAndSend;
    QueueMeasures(e.(snd := e.snd.(appBuf := e.snd.appBuf[n..])), ACK, e.snd.appBuf[..n]);
  }

  /** When a SEND puts data on the wire and nothing is being measured, the first segment of it is, from that moment. */
  lemma SendIsMeasured(e: Engine, now: real, data: seq<byte>, t: Option<real>)
    requires e.state == ESTABLISHED || e.state == CLOSE_WAIT
    ensures Measures(At(e, now), Step(e, now, SendCalled(data, t)))
  {
    hide PumpData;
    var a := At(e, now);
    PumpMeasures(Buffer(a.(tm := a.tm.(userTimeout := if t.Some? then t else a.tm.userTimeout)), data));
  }
}
