/** When the engine's timers are due: each was started for what it waits for, and for as long as that should take. */
module Timing {
  import opened SeqNum
  import opened EngineState
  import opened EngineSpec
  import opened EngineFacts
  import opened SendInvariant
  import opened SendPath
  import opened EngineInvariant
  import opened EngineRuns
  import opened RunTheorems
  import opened WireLog
  import opened Corners
  import opened WindowUpdate
  import G = GiveUpBound
  import U = UserCalls

  // ---------------------------------------------------------------------------------------------
  // The retransmission timer and the user timeout
  // ---------------------------------------------------------------------------------------------

  /** A deadline that waits for an acknowledgement from now on: if anything is outstanding. */
  function If(outstanding: bool, d: real): Option<real> { if outstanding then Some(d) else None }

  lemma StepRearms(e: Engine, now: real, ev: Event)
    ensures var a, f := Called(At(e, now), ev), Step(e, now, ev);
            && RearmsMost(a, f) && a == e.(tm := e.tm.(now := now, userTimeout := a.tm.userTimeout, rtoCount := a.tm.rtoCount))
            && (!ev.RtoFires? ==> a.tm.rtoCount == e.tm.rtoCount)
            && (!ev.PersistFires? && !ev.KeepaliveFires? ==> Rearms(a, f))
  {
    hide RearmsMost, React, RenewsAll, NotedIn;
    ReactAppends(At(e, now), ev);
  }

  /** In every run the retransmission timer and the user timeout run exactly while something is outstanding. They count from
      when something first was, or from the last step in which SND.UNA moved; and run on through everything else that does
      not reset the connection, until the timer fires. */
  lemma TimeoutsCountFromProgress(e: Engine, now: real, ev: Event)
    requires Reached(e) && Active(e.state) && Allowed(e, ev) && Active(Step(e, now, ev).state) && !ev.RtoFires?
    ensures var f := Step(e, now, ev);
            var waits := f.snd.retx != [];
            && (f.tm.rt.Some? <==> waits) && (f.tm.unaSince.Some? <==> waits)
            && (e.snd.retx == [] || f.hist.unaPos > e.hist.unaPos ==>
                  f.tm.rt == If(waits, now + MaxR(f.rtt.rto, 0.0)) && f.tm.unaSince == If(waits, now))
            && (f.hist.unaPos > e.hist.unaPos ==> f.tm.rtoCount == 0)
            && (e.snd.retx != [] && G.Quiet(e, ev) ==> f.tm.rt == e.tm.rt && f.tm.unaSince == e.tm.unaSince)
  {
    hide Reached, Inv, Step, G.Quiet, RtLive, RearmsMost, Rearms, Continues;
    var f := Step(e, now, ev);
    ReachedInv(e);
    StepOk(e, now, ev, None);
    ActiveTimed(e);
    ActiveTimed(f);
    StepRearms(e, now, ev);
    TimersMoved(e, Called(At(e, now), ev), f, now);
    if e.snd.retx != [] && G.Quiet(e, ev) { G.QuietStep(e, now, ev); }
  }

  lemma TimersMoved(e: Engine, a: Engine, f: Engine, now: real)
    requires RtLive(e) && RtLive(f) && RearmsMost(a, f)
    requires a == e.(tm := e.tm.(now := now, userTimeout := a.tm.userTimeout, rtoCount := a.tm.rtoCount))
    ensures (f.tm.rt.Some? <==> f.snd.retx != []) && (f.tm.unaSince.Some? <==> f.snd.retx != [])
    ensures e.snd.retx == [] || f.hist.unaPos > e.hist.unaPos ==>
              f.tm.rt == If(f.snd.retx != [], now + MaxR(f.rtt.rto, 0.0)) && f.tm.unaSince == If(f.snd.retx != [], now)
    ensures f.hist.unaPos > e.hist.unaPos ==> f.tm.rtoCount == 0
  {
  }

  lemma ActiveTimed(e: Engine)
    requires Inv(e, None) && Active(e.state)
    ensures RtLive(e)
  {
    hide SendOk, WireOk, Trail, Coupled, Settled;
  }

  // ---------------------------------------------------------------------------------------------
  // The delayed acknowledgement
  // ---------------------------------------------------------------------------------------------

  /** An acknowledgement up to `nxt`, and nothing else. */
  predicate Tells(p: Packet, nxt: u32) { p.seg.flags == ACK && p.seg.payload == [] && p.seg.ackNo == nxt }

  /** Of the packets from the `n`-th on one acknowledges all that is received; and none is put off. */
  ghost predicate Acked(n: nat, f: Engine) {
    f.tm.ackCount == 0 && f.tm.ack == None && exists i :: n <= i < |f.wire| && Tells(f.wire[i], f.rcv.nxt)
  }

  predicate SameAck(m: Engine, f: Engine) {
    m.wire <= f.wire && f.rcv.nxt == m.rcv.nxt && f.tm.ack == m.tm.ack && f.tm.ackCount == m.tm.ackCount
  }

  lemma AckedOn(n: nat, m: Engine, f: Engine)
    requires Acked(n, m) && SameAck(m, f)
    ensures Acked(n, f)
  {
  }

  lemma SendAcks(e: Engine)
    ensures Acked(|e.wire|, SendAck(e)) && SendAck(e).rcv.nxt == e.rcv.nxt
  {
    hide RcvWnd, AdvertisedRight, PosOf, Reach;
    assert Tells(SendAck(e).wire[|e.wire|], e.rcv.nxt);
  }

  lemma SendSameAck(e: Engine)
    ensures SameAck(e, SendPending(e)) && SameAck(e, CancelPersist(e))
  {
    hide SendPending, CancelPersist;
    SendOnlySends(e);
    SendAppends(e);
  }

  lemma StateSameAck(e: Engine, to: ConnState)
    ensures SameAck(e, SetState(e, to))
  {
    hide SetState;
    StateTouches(e, to);
    StateKeepsWire(e, to);
  }

  lemma FinAcks(e: Engine)
    ensures Acked(|e.wire|, ProcessFin(e))
  {
    hide SendAck, SetState, CancelPersist, Acked;
    var f := SendAck(TakeFin(e));
    SendAcks(TakeFin(e));
    StateSameAck(f, CLOSE_WAIT);
    StateSameAck(f, CLOSING);
    SendSameAck(StopRt(f));
    StateSameAck(CancelPersist(StopRt(f)), TIME_WAIT);
    AckedOn(|e.wire|, f, ProcessFin(e));
  }

  /** The acknowledgement for text is put off: it is configured so, none is waiting, and the text was in order. */
  predicate PutsOff(e: Engine, inOrder: bool) { e.cfg.timers.delayedAck.Some? && e.tm.ackCount == 0 && inOrder }

  /** One acknowledgement waits, and its timer runs. */
  predicate Waiting(e: Engine, f: Engine) {
    && f.tm.ackCount == 1 && e.cfg.timers.delayedAck.Some?
    && f.tm.ack == if e.tm.ack.Some? then e.tm.ack else Later(f.tm, e.cfg.timers.delayedAck.value)
  }

  ghost predicate Answered(e: Engine, f: Engine, inOrder: bool) {
    if PutsOff(e, inOrder) then Waiting(e, f) else Acked(|e.wire|, f)
  }

  lemma AnswerAcks(e: Engine, force: bool)
    ensures Answered(e, ScheduleAck(e, force), !force) && ScheduleAck(e, force).rcv.nxt == e.rcv.nxt
    ensures ScheduleAck(e, force).hist == e.hist && ScheduleAck(e, force).tm.now == e.tm.now
  {
    hide SendAck;
    SendAcks(e);
    SendAcks(e.(tm := e.tm.(ackCount := e.tm.ackCount + 1)));
    AckTouches(e);
    AckTouches(e.(tm := e.tm.(ackCount := e.tm.ackCount + 1)));
    AckNow(e);
    AckNow(e.(tm := e.tm.(ackCount := e.tm.ackCount + 1)));
  }

  lemma AckNow(e: Engine)
    ensures SendAck(e).tm.now == e.tm.now
  {
  }

  predicate Delivers(e: Engine, f: Engine) { f.hist.delivered != e.hist.delivered }

  lemma PlaceAnswered(e: Engine, sn: u32, data: seq<byte>)
    requires data != []
    ensures var f := Place(e, sn, data); Answered(e, f, Delivers(e, f)) && f.tm.now == e.tm.now && f.hist.fins == e.hist.fins
  {
    hide ScheduleAck, Merge, Acked;
    var d := Deliver(e, data);
    if sn == e.rcv.nxt {
      U.MergeHands(d);
      MergeKeepsWire(d);
      MergeKeepsFins(d);
      AnswerAcks(Merge(d), false);
    } else {
      AnswerAcks(StoreOoo(e, sn, data), true);
    }
  }

  lemma {:induction false} MergeKeepsFins(e: Engine)
    ensures Merge(e).hist.fins == e.hist.fins && Merge(e).cfg == e.cfg
    decreases |e.rcv.ooo|
  {
    hide Mergeable;
    var i := FirstMergeable(e.rcv.ooo, e.rcv.nxt);
    if i < |e.rcv.ooo| { MergeKeepsFins(MergeStep(e, i)); }
  }

  lemma DataAnswered(e: Engine, seg: Segment)
    requires seg.payload != []
    ensures var f := RecvData(e, seg); Answered(e, f, Delivers(e, f)) && f.tm.now == e.tm.now && f.hist.fins == e.hist.fins
  {
    hide ScheduleAck, Place, RcvWnd, S32, Sub, Add, Acked;
    AnswerAcks(e, true);
    var stale := SeqLt(seg.seqNo, e.rcv.nxt);
    var off := if stale then Sub(e.rcv.nxt, seg.seqNo) else 0;
    if off < |seg.payload| {
      var data := seg.payload[off..];
      var sn := if stale then e.rcv.nxt else seg.seqNo;
      var space := S32(Sub(Add(e.rcv.nxt, RcvWnd(e)), sn));
      if space > 0 { PlaceAnswered(e, sn, data[..Min(space, |data|)]); }
    }
  }

  lemma NoteAnswers(h: Engine, seg: Segment)
    ensures var f := CheckPendingFin(NoteFin(h, seg));
            && h.wire <= f.wire && f.hist.delivered == h.hist.delivered && f.hist.fins >= h.hist.fins
            && (if f.hist.fins == h.hist.fins then SameAck(h, f) && f.tm.now == h.tm.now else Acked(|h.wire|, f))
  {
    hide ProcessFin, Acked;
    FinAcks(h);
    FinConsumed(h);
    NoteAppends(h, seg);
    var n := NoteFin(h, seg);
    FinAcks(n);
    FinConsumed(n);
    if n == ProcessFin(h) { ProcessFinAppends(h); }
    AckedLonger(|n.wire|, |h.wire|, CheckPendingFin(n));
  }

  lemma AckedLonger(m: nat, n: nat, f: Engine)
    requires n <= m
    ensures Acked(m, f) ==> Acked(n, f)
  {
  }

  lemma TextAnswered(e: Engine, seg: Segment)
    requires seg.payload != [] && (e.state == ESTABLISHED || e.state == FIN_WAIT_1 || e.state == FIN_WAIT_2)
    ensures var f := TextAndFin(e, seg); Answered(e, f, Delivers(e, f) && f.hist.fins == e.hist.fins) && f.hist.fins >= e.hist.fins
  {
    hide RecvData, SendPending, NoteFin, CheckPendingFin, Acked;
    var g := RecvData(e, seg);
    DataAnswered(e, seg);
    DataAppends(e, seg);
    var h := SendPending(g);
    SendSameAck(g);
    SendOnlySends(g);
    NowSame(g);
    NoteAnswers(h, seg);
    var f := TextAndFin(e, seg);
    if f.hist.fins == e.hist.fins {
      if !PutsOff(e, Delivers(e, f)) { AckedOn(|e.wire|, g, f); }
    } else {
      AckedLonger(|h.wire|, |e.wire|, f);
    }
  }

  lemma NowSame(e: Engine)
    ensures SendPending(e).tm.now == e.tm.now
  {
    hide SendPending;
    SendAppends(e);
  }

  lemma AfterAckAnswered(e: Engine, seg: Segment)
    requires seg.payload != [] && (e.state == ESTABLISHED || e.state == FIN_WAIT_1 || e.state == FIN_WAIT_2)
    ensures var f := AfterAck(e, seg); Answered(e, f, Delivers(e, f) && f.hist.fins == e.hist.fins) && f.hist.fins >= e.hist.fins
  {
    hide TextAndFin, SetState, Acked;
    StateTouches(e, FIN_WAIT_2);
    StateKeepsWire(e, FIN_WAIT_2);
    TextAnswered(SetState(e, FIN_WAIT_2), seg);
    TextAnswered(e, seg);
  }

  lemma AckStepQuiet(e: Engine, seg: Segment)
    ensures var g := AckAndWindow(e, seg);
            && e.wire <= g.wire && g.tm.ack == e.tm.ack && g.tm.ackCount == e.tm.ackCount && g.tm.now == e.tm.now && g.cfg == e.cfg
            && g.hist.delivered == e.hist.delivered && g.hist.fins == e.hist.fins
  {
    hide ProcessAck, CancelPersist, SeqGt, SeqLt, SeqLeq;
    AckStepAppends(e, seg);
    AckProcessedTouches(e, seg.ackNo);
    var g := if SeqGt(seg.ackNo, e.snd.una) then ProcessAck(e, seg.ackNo) else e;
    SendOnlySends(g.(snd := g.snd.(wnd := seg.window, wl1 := seg.seqNo, wl2 := seg.ackNo)));
  }

  /** States in which text is taken. */
  predicate TakesText(s: ConnState) { s == ESTABLISHED || s == FIN_WAIT_1 || s == FIN_WAIT_2 }

  /** Text that is let through is acknowledged at once, with all that is received by then, if it is not in order or brings
      nothing new, if it completes the stream, if one acknowledgement waits already, or if none is to be delayed. Otherwise
      the acknowledgement waits, for no longer than configured from the first segment it is for. */
  lemma TextIsAcknowledged(e: Engine, now: real, seg: Segment)
    requires Reached(e) && TakesText(e.state) && Allowed(e, Arrives(seg)) && PassesChecks(e, seg) && seg.payload != []
    ensures var f := Step(e, now, Arrives(seg));
            var putOff := e.cfg.timers.delayedAck.Some? && e.tm.ackCount == 0 && Delivers(e, f) && f.hist.fins == e.hist.fins;
            if putOff then Waiting(e, f) && f.tm.now == now else Acked(|e.wire|, f)
  {
    hide Reached, Inv, React, AckAndWindow, AfterAck, Acked, PassesChecks, SeqGt;
    var g := Checked(e, now, seg);
    var h := AckAndWindow(g, seg);
    AckStepQuiet(g, seg);
    AckStepState(g, seg);
    AfterAckAnswered(h, seg);
    AfterAckAppends(h, seg);
    AckedLonger(|h.wire|, |e.wire|, AfterAck(h, seg));
  }

  /** The timer of a delayed acknowledgement sends it. */
  lemma DelayedAckIsSent(e: Engine, now: real)
    ensures Acked(|e.wire|, Step(e, now, DelackFires)) && |Step(e, now, DelackFires).wire| == |e.wire| + 1
  {
    hide SendAck;
    var a := At(e, now).(tm := At(e, now).tm.(ack := None));
    SendAcks(a);
    AckOnce(a);
  }

  lemma AckOnce(e: Engine)
    ensures |SendAck(e).wire| == |e.wire| + 1
  {
  }

  // ---------------------------------------------------------------------------------------------
  // Probes of a shut window
  // ---------------------------------------------------------------------------------------------

  /** The window is shut, and the persist timer runs with its `j`-th interval. */
  predicate Probing(e: Engine, j: nat) {
    && (e.state == ESTABLISHED || e.state == CLOSE_WAIT) && e.snd.wnd == 0 && e.tm.persist.Some?
    && e.tm.persistBackoff == G.Interval(e.cfg.timers.persistMin, e.cfg.timers.persistMax, j)
    && 0.0 <= e.cfg.timers.persistMin <= e.cfg.timers.persistMax
  }

  /** `p` carries one byte, or the FIN, at position `pos`. */
  predicate IsProbe(p: Packet, pos: int, data: seq<byte>) {
    p.pos == pos && p.seg.payload == data && p.seg.flags == if data == [] then FIN_ACK else ACK
  }

  /** One expiry of the persist timer: `data` goes out, and the timer runs again with its next interval. */
  predicate Probed(e: Engine, f: Engine, now: real, j: nat, data: seq<byte>) {
    && |f.wire| == |e.wire| + 1 && f.wire[..|e.wire|] == e.wire && IsProbe(f.wire[|e.wire|], SentEnd(e.hist), data)
    && SentEnd(f.hist) == SentEnd(e.hist) + 1 && f.cfg == e.cfg && f.snd.wnd == e.snd.wnd
    && f.tm.persistBackoff == G.Interval(e.cfg.timers.persistMin, e.cfg.timers.persistMax, j + 1)
    && f.tm.persist == Some(now + f.tm.persistBackoff)
  }

  lemma NextInterval(e: Engine, j: nat)
    requires Probing(e, j)
    ensures var b := RearmPersist(e).tm.persistBackoff;
            && b == G.Interval(e.cfg.timers.persistMin, e.cfg.timers.persistMax, j + 1) >= 0.0
            && RearmPersist(e) == e.(tm := e.tm.(persistBackoff := b, persist := Some(e.tm.now + b)))
  {
    var c := e.cfg.timers;
    G.Doubles(c.persistMin, c.persistMax, j);
    G.Pow2AtLeastOne(j);
    assert G.Pow2(j) * c.persistMin >= c.persistMin;
  }

  lemma OneProbe(e: Engine, now: real, j: nat)
    requires Probing(e, j) && e.snd.appBuf != [] && e.hist.synOut && !e.hist.finOut
    ensures var f := Step(e, now, PersistFires);
            && Probed(e, f, now, j, e.snd.appBuf[..1]) && Probing(f, j + 1) && f.snd.appBuf == e.snd.appBuf[1..]
            && f.hist.synOut && !f.hist.finOut
  {
    hide RcvWnd, AdvertisedRight, Reach, RearmPersist, PosOf, G.Interval;
    var a := At(e, now).(tm := At(e, now).tm.(persist := None));
    var g := SendChunk(a, 1);
    NxtPos(a.(snd := a.snd.(appBuf := a.snd.appBuf[1..])));
    assert g.wire == e.wire + [g.wire[|e.wire|]];
    assert Step(e, now, PersistFires) == RearmPersist(g);
    RearmedAs(At(e, now), g, j);
  }

  lemma RearmedAs(a: Engine, g: Engine, j: nat)
    requires Probing(a, j) && g.tm.persistBackoff == a.tm.persistBackoff && g.cfg == a.cfg && g.tm.now == a.tm.now
    ensures var b := G.Interval(a.cfg.timers.persistMin, a.cfg.timers.persistMax, j + 1);
            b >= 0.0 && RearmPersist(g) == g.(tm := g.tm.(persistBackoff := b, persist := Some(a.tm.now + b)))
  {
    NextInterval(a, j);
  }

  /** The engine after its persist timer fired at each of the times. */
  function ProbedAt(e: Engine, times: seq<real>): Engine
    decreases |times|
  {
    if times == [] then e else ProbedAt(Step(e, times[0], PersistFires), times[1..])
  }

  /** While the peer keeps its window shut, one probe after another carries the next byte of the data that waits; and the
      intervals between them double from the shortest to the longest. */
  lemma {:induction false} ProbesGoOn(e: Engine, times: seq<real>, j: nat)
    requires Probing(e, j) && |times| <= |e.snd.appBuf| && e.hist.synOut && !e.hist.finOut
    ensures var f := ProbedAt(e, times);
            && Probing(f, j + |times|) && f.cfg == e.cfg && f.snd.appBuf == e.snd.appBuf[|times|..]
            && |f.wire| == |e.wire| + |times| && f.wire[..|e.wire|] == e.wire
            && (forall k :: 0 <= k < |times| ==> IsProbe(f.wire[|e.wire| + k], SentEnd(e.hist) + k, [e.snd.appBuf[k]]))
            && (times != [] ==> f.tm.persist == Some(times[|times| - 1] + G.Interval(e.cfg.timers.persistMin, e.cfg.timers.persistMax, j + |times|)))
    decreases |times|
  {
    hide Step, IsProbe, G.Interval;
    if times != [] {
      OneProbe(e, times[0], j);
      var m := Step(e, times[0], PersistFires);
      ProbesGoOn(m, times[1..], j + 1);
      var f := ProbedAt(e, times);
      assert f.wire[|e.wire|] == m.wire[|e.wire|] && f.wire[..|e.wire|] == e.wire by { assert f.wire[..|m.wire|] == m.wire; }
      assert e.snd.appBuf[..1] == [e.snd.appBuf[0]];
      forall k | 0 <= k < |times| ensures IsProbe(f.wire[|e.wire| + k], SentEnd(e.hist) + k, [e.snd.appBuf[k]]) {
        if k > 0 { assert IsProbe(f.wire[|m.wire| + (k - 1)], SentEnd(m.hist) + (k - 1), [m.snd.appBuf[k - 1]]); }
      }
    }
  }

  /** With all data sent, the FIN that waits is the probe. */
  lemma FinIsProbed(e: Engine, now: real, j: nat)
    requires Probing(e, j) && e.snd.appBuf == [] && e.snd.finPending && !e.snd.finSent && e.hist.synOut && !e.hist.finOut
    ensures var f := Step(e, now, PersistFires); Probed(e, f, now, j, []) && f.snd.finSent && f.state == FinState(e.state)
  {
    hide RcvWnd, AdvertisedRight, Reach, RearmPersist, PosOf, G.Interval;
    var a := At(e, now).(tm := At(e, now).tm.(persist := None));
    var g := SendFin(a);
    NxtPos(a.(snd := a.snd.(finSeq := a.snd.nxt)));
    assert g.wire == e.wire + [g.wire[|e.wire|]];
    assert Step(e, now, PersistFires) == RearmPersist(g);
    RearmedAs(At(e, now), g, j);
  }

  /** Whenever the persist timer starts other than after a probe, it starts with the shortest interval; and an engine with
      work that waits for a shut window does have it running. */
  lemma ProbingStarts(e: Engine, now: real, ev: Event)
    requires Reached(e) && Allowed(e, ev) && !ev.PersistFires? && Active(Step(e, now, ev).state)
    ensures var f := Step(e, now, ev);
            && (f.tm.persist.Some? && f.tm.persist != e.tm.persist ==>
                  f.tm.persist == Some(now + MaxR(e.cfg.timers.persistMin, 0.0)) && f.tm.persistBackoff == e.cfg.timers.persistMin)
            && (HasWork(f) && f.snd.wnd == 0 ==> f.tm.persist.Some?)
  {
    hide Reached, Inv, Step, Settled, Rearms, RearmsMost;
    ReachedInv(e);
    StepOk(e, now, ev, None);
    var f := Step(e, now, ev);
    assert Settled(f) by { InvSettled(f); }
    SettledPersists(f);
    StepRearms(e, now, ev);
    if ev.KeepaliveFires? {
      KeepaliveKeepsPersist(e, now);
    } else {
      PersistRearmed(Called(At(e, now), ev), f);
    }
  }

  lemma PersistRearmed(e: Engine, f: Engine)
    requires Rearms(e, f)
    ensures f.tm.persist.Some? && f.tm.persist != e.tm.persist ==>
              f.tm.persist == Some(e.tm.now + MaxR(e.cfg.timers.persistMin, 0.0)) && f.tm.persistBackoff == e.cfg.timers.persistMin
  {
    hide KeepsCount;
  }

  lemma InvSettled(e: Engine)
    requires Inv(e, None)
    ensures Settled(e)
  {
    hide SendOk, WireOk, Trail, Coupled, Settled;
  }

  lemma SettledPersists(e: Engine)
    requires Settled(e)
    ensures HasWork(e) && e.snd.wnd == 0 ==> e.tm.persist.Some?
  {
  }

  lemma KeepaliveKeepsPersist(e: Engine, now: real)
    requires Step(e, now, KeepaliveFires).state != CLOSED
    ensures Step(e, now, KeepaliveFires).tm.persist == e.tm.persist
  {
    hide GiveUp, RcvWnd, AdvertisedRight, PosOf, Reach;
    GiveUpCloses(At(e, now).(tm := At(e, now).tm.(ka := None)), KeepaliveTimeout);
  }

  // ---------------------------------------------------------------------------------------------
  // Idle time
  // ---------------------------------------------------------------------------------------------

  /** Idle time counts anew, from now. */
  predicate CountsAnew(f: Engine, now: real) {
    f.cfg.timers.keepaliveIdle.Some? && f.tm.kaProbes == 0 && f.tm.ka == Some(now + MaxR(f.cfg.timers.keepaliveIdle.value, 0.0))
  }

  /** While the connection is established, idle time counts from the last segment for this connection, or from when it was
      established, whatever the segment is and does. */
  lemma IdleCountsFromLastHeard(e: Engine, now: real, seg: Segment)
    requires Reached(e) && Allowed(e, Arrives(seg)) && ForUs(e, seg) && e.cfg.timers.keepaliveIdle.Some?
    requires Step(e, now, Arrives(seg)).state == ESTABLISHED
    ensures CountsAnew(Step(e, now, Arrives(seg)), now)
  {
    hide Reached, React, HandleSynchronized;
    if e.state == ESTABLISHED {
      var g := Heard(e, now);
      ArrivalIs(e, now, seg);
      SynchronizedAppends(g, seg);
    } else {
      StepRearms(e, now, Arrives(seg));
    }
  }

  // ---------------------------------------------------------------------------------------------
  // The user timeout
  // ---------------------------------------------------------------------------------------------

  /** The user timeout is what the last call that gave one has set, refused SENDs apart. */
  lemma UserTimeoutIsAsCalled(e: Engine, now: real, ev: Event)
    ensures var t := if ev.OpenCalled? then ev.timeout else if ev.SendCalled? && U.MayHandOver(e) then ev.sendTimeout else None;
            Step(e, now, ev).tm.userTimeout == if t.Some? then t else e.tm.userTimeout
  {
    hide Step;
    StepRearms(e, now, ev);
    if ev.SendCalled? { U.SendTakes(At(e, now), ev.data, ev.sendTimeout); }
  }

  /** When the retransmission timer fires with something outstanding, the user timeout closes the connection exactly if one is
      set and has passed since what it counts from. */
  lemma UserTimeoutExactly(e: Engine, now: real)
    requires Reached(e) && Active(e.state) && e.snd.retx != []
    ensures var f := Step(e, now, RtoFires);
            e.tm.unaSince.Some?
            && (Errors(f.signals) == Errors(e.signals) + [Error(UserTimeout)] <==>
                  e.tm.userTimeout.Some? && now - e.tm.unaSince.value >= e.tm.userTimeout.value)
  {
    hide Reached, Inv, Step, U.WhyClosed;
    ReachedInv(e);
    ActiveTimed(e);
    U.ErrorsTellWhy(e, now, RtoFires);
    U.RtoWhy(e, now);
    G.TimeoutStep(e, now);
    ErrorsDiffer(Errors(e.signals), UserTimeout, RetransmissionTimeout);
  }

  lemma ErrorsDiffer(errors: seq<Signal>, a: ErrorSignal, b: ErrorSignal)
    requires a != b
    ensures errors + [Error(a)] != errors + [Error(b)] && errors != errors + [Error(a)] && errors + [] == errors
  {
    assert (errors + [Error(a)])[|errors|] != (errors + [Error(b)])[|errors|];
  }

  // ---------------------------------------------------------------------------------------------
  // The keepalive timer
  // ---------------------------------------------------------------------------------------------

  /** The keepalive timer runs again: for the idle time before the first probe, then for the interval between probes. */
  predicate Again(e: Engine, f: Engine, now: real, probes: nat)
    requires e.cfg.timers.keepaliveIdle.Some?
  {
    && f.state == ESTABLISHED && f.tm.kaProbes == probes && f.snd == e.snd
    && f.tm.ka == Some(now + MaxR(if probes == 0 then e.cfg.timers.keepaliveIdle.value else e.cfg.timers.keepaliveInterval, 0.0))
  }

  /** When the keepalive timer fires it only runs again while anything is outstanding; else it sends one probe just below
      SND.UNA, or gives the peer up once all the probes are sent. */
  lemma KeepaliveFiring(e: Engine, now: real)
    requires e.state == ESTABLISHED && e.cfg.timers.keepaliveIdle.Some?
    ensures var f := Step(e, now, KeepaliveFires);
            if e.snd.retx != [] then Again(e, f, now, e.tm.kaProbes) && f.wire == e.wire
            else if e.tm.kaProbes >= e.cfg.timers.keepaliveCount then f.state == CLOSED
            else && Again(e, f, now, e.tm.kaProbes + 1) && |f.wire| == |e.wire| + 1 && f.wire[..|e.wire|] == e.wire
                 && Tells(f.wire[|e.wire|], e.rcv.nxt) && f.wire[|e.wire|].seg.seqNo == Sub(e.snd.una, 1)
  {
    hide GiveUp, RcvWnd, AdvertisedRight, PosOf, Reach, Sub;
    GiveUpCloses(At(e, now).(tm := At(e, now).tm.(ka := None)), KeepaliveTimeout);
  }
}
