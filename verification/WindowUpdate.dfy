/** Which acknowledgements move the send window, and that a window that opens sets waiting data going. */
module WindowUpdate {
  import opened SeqNum
  import opened EngineState
  import opened EngineSpec
  import opened EngineFacts
  import opened SendInvariant
  import opened SendPath
  import opened EngineInvariant
  import opened SegmentArrives
  import opened Opening
  import opened EngineRuns
  import opened HonestPeer
  import opened RunTheorems
  import opened Corners
  import opened WireLog
  import opened AckPath

  // ---------------------------------------------------------------------------------------------
  // What leaves the window alone
  // ---------------------------------------------------------------------------------------------

  predicate SameUpdate(e: Engine, f: Engine) { f.snd.wnd == e.snd.wnd && f.snd.wl1 == e.snd.wl1 && f.snd.wl2 == e.snd.wl2 }

  lemma SendSameUpdate(e: Engine)
    ensures SameUpdate(e, SendPending(e)) && SameUpdate(e, CancelPersist(e))
  {
    hide SendPending, CancelPersist;
    SendOnlySends(e);
  }

  lemma AnswerSameUpdate(e: Engine, force: bool)
    ensures SameUpdate(e, SendAck(e)) && SameUpdate(e, ScheduleAck(e, force))
  {
    hide SendAck;
    AckTouches(e);
    AckTouches(e.(tm := e.tm.(ackCount := e.tm.ackCount + 1)));
  }

  lemma {:induction false} MergeSameUpdate(e: Engine)
    ensures SameUpdate(e, Merge(e))
    decreases |e.rcv.ooo|
  {
    hide Mergeable;
    var i := FirstMergeable(e.rcv.ooo, e.rcv.nxt);
    if i < |e.rcv.ooo| { MergeSameUpdate(MergeStep(e, i)); }
  }

  lemma DataSameUpdate(e: Engine, seg: Segment)
    ensures SameUpdate(e, RecvData(e, seg))
  {
    hide ScheduleAck, Merge, RcvWnd, S32, Sub, Add;
    AnswerSameUpdate(e, true);
    if seg.payload != [] {
      var stale := SeqLt(seg.seqNo, e.rcv.nxt);
      var off := if stale then Sub(e.rcv.nxt, seg.seqNo) else 0;
      if off < |seg.payload| {
        var sn := if stale then e.rcv.nxt else seg.seqNo;
        var space := S32(Sub(Add(e.rcv.nxt, RcvWnd(e)), sn));
        var data := seg.payload[off..];
        if space > 0 {
          var d := Deliver(e, data[..Min(space, |data|)]);
          MergeSameUpdate(d);
          AnswerSameUpdate(Merge(d), false);
          AnswerSameUpdate(StoreOoo(e, sn, data[..Min(space, |data|)]), true);
        }
      }
    }
  }

  lemma TimeWaitSameUpdate(e: Engine)
    ensures SameUpdate(e, EnterTimeWait(e))
  {
    hide CancelPersist, SetState;
    SendSameUpdate(StopRt(e));
    StateTouches(CancelPersist(StopRt(e)), TIME_WAIT);
  }

  lemma FinSameUpdate(e: Engine)
    ensures SameUpdate(e, ProcessFin(e))
  {
    hide SendAck, SetState, EnterTimeWait;
    AckTouches(TakeFin(e));
    var f := SendAck(TakeFin(e));
    StateTouches(f, CLOSE_WAIT);
    StateTouches(f, CLOSING);
    TimeWaitSameUpdate(f);
  }

  lemma TextSameUpdate(e: Engine, seg: Segment)
    ensures SameUpdate(e, TextAndFin(e, seg))
  {
    hide RecvData, SendPending, ProcessFin;
    DataSameUpdate(e, seg);
    var takes := e.state == ESTABLISHED || e.state == FIN_WAIT_1 || e.state == FIN_WAIT_2;
    var g := if takes then RecvData(e, seg) else e;
    SendSameUpdate(g);
    FinSameUpdate(SendPending(g));
    FinSameUpdate(NoteFin(SendPending(g), seg));
  }

  lemma DropSameUpdate(e: Engine)
    ensures SameUpdate(e, EnterClosed(e))
  {
    hide CancelPersist, SetState;
    SendSameUpdate(StopRt(e));
    var f := CancelKeepalive(CancelPersist(StopRt(e)));
    StateTouches(ResetBuffers(f.(tm := f.tm.(tw := None, ack := None))), CLOSED);
  }

  lemma AfterAckSameUpdate(e: Engine, seg: Segment)
    ensures SameUpdate(e, AfterAck(e, seg))
  {
    hide TextAndFin, EnterTimeWait, EnterClosed, SetState;
    StateTouches(e, FIN_WAIT_2);
    TextSameUpdate(SetState(e, FIN_WAIT_2), seg);
    TextSameUpdate(e, seg);
    TimeWaitSameUpdate(e);
    DropSameUpdate(e);
  }

  // ---------------------------------------------------------------------------------------------
  // What moves it
  // ---------------------------------------------------------------------------------------------

  /** Where the last update stands: the positions of its SEQ and ACK, counted from any two numbers. */
  predicate LastUpdate(e: Engine, peer: u32, x: int, a: int) {
    e.snd.wl1 == Wrap(peer + x) && e.snd.wl2 == Wrap(e.snd.iss + a)
  }

  /** The segment's SEQ and ACK, counted likewise, within half the space of those. */
  predicate Stands(e: Engine, seg: Segment, peer: u32, x: int, a: int, y: int, b: int) {
    seg.seqNo == Wrap(peer + y) && seg.ackNo == Wrap(e.snd.iss + b) && -HALF < y - x < HALF && -HALF < b - a < HALF
  }

  lemma UpdateIs(e: Engine, seg: Segment, peer: u32, x: int, a: int, y: int, b: int)
    requires LastUpdate(e, peer, x, a) && Stands(e, seg, peer, x, a, y, b)
    ensures var f := UpdateWindow(e, seg);
            && f.snd.wnd == (if y > x || (y == x && b >= a) then seg.window else e.snd.wnd)
            && (if y > x || (y == x && b >= a) then f.snd.wl1 == seg.seqNo && f.snd.wl2 == seg.ackNo
                else f.snd.wl1 == e.snd.wl1 && f.snd.wl2 == e.snd.wl2)
  {
    hide CancelPersist, S32, Wrap;
    SerialOrder(peer, x, y);
    SerialOrder(e.snd.iss, a, b);
    SendSameUpdate(e.(snd := e.snd.(wnd := seg.window, wl1 := seg.seqNo, wl2 := seg.ackNo)));
  }

  lemma AckSameUpdate(e: Engine, ack: u32)
    ensures SameUpdate(e, ProcessAck(e, ack)) && ProcessAck(e, ack).snd.iss == e.snd.iss
  {
    hide Trim, RttSample, TakesSample;
  }

  /** The send window is what an acceptable acknowledgement says exactly if it is not older than the one that said so last:
      its SEQ is higher, or the same and its ACK no lower. Otherwise the window stays. */
  lemma WindowUpdatedExactly(e: Engine, now: real, seg: Segment, peer: u32, x: int, a: int, y: int, b: int)
    requires Reached(e) && TextOpen(e.state) && Allowed(e, Arrives(seg)) && PassesChecks(e, seg)
    requires LastUpdate(e, peer, x, a) && Stands(e, seg, peer, x, a, y, b)
    ensures var f, newer := Step(e, now, Arrives(seg)), y > x || (y == x && b >= a);
            && f.snd.wnd == (if newer then seg.window else e.snd.wnd)
            && f.snd.wl1 == (if newer then seg.seqNo else e.snd.wl1) && f.snd.wl2 == (if newer then seg.ackNo else e.snd.wl2)
  {
    hide Reached, React, ProcessAck, UpdateWindow, AfterAck, Acceptable, RcvWnd, SeqGt, LastUpdate, Stands;
    var g := Checked(e, now, seg);
    var h := if SeqGt(seg.ackNo, g.snd.una) then ProcessAck(g, seg.ackNo) else g;
    AckSameUpdate(g, seg.ackNo);
    assert LastUpdate(h, peer, x, a) && Stands(h, seg, peer, x, a, y, b) by { SameStand(e, h, seg, peer, x, a, y, b); }
    UpdateIs(h, seg, peer, x, a, y, b);
    AfterAckSameUpdate(AckAndWindow(g, seg), seg);
  }

  lemma SameStand(e: Engine, h: Engine, seg: Segment, peer: u32, x: int, a: int, y: int, b: int)
    requires SameUpdate(e, h) && h.snd.iss == e.snd.iss && LastUpdate(e, peer, x, a) && Stands(e, seg, peer, x, a, y, b)
    ensures LastUpdate(h, peer, x, a) && Stands(h, seg, peer, x, a, y, b)
  {
  }

  /** A segment that passes the checks comes to its acknowledgement. */
  function Heard(e: Engine, now: real): Engine { if e.state == ESTABLISHED then RestartKeepalive(At(e, now), true) else At(e, now) }

  lemma Checked(e: Engine, now: real, seg: Segment) returns (g: Engine)
    requires TextOpen(e.state) && PassesChecks(e, seg)
    ensures g == Heard(e, now) && g == e.(tm := g.tm)
    ensures Step(e, now, Arrives(seg)) == AfterAck(AckAndWindow(g, seg), seg)
  {
    hide AfterAck, AckAndWindow, RcvWnd, Acceptable, React, SeqGt;
    g := Heard(e, now);
    ArrivalIs(e, now, seg);
    assert RcvWnd(g) == RcvWnd(e) by { SameOffer(e, g); }
  }

  lemma SameOffer(e: Engine, g: Engine)
    requires g == e.(tm := g.tm)
    ensures RcvWnd(g) == RcvWnd(e)
  {
  }

  // ---------------------------------------------------------------------------------------------
  // A window that opens
  // ---------------------------------------------------------------------------------------------

  /** With room in the window and nothing that Nagle waits for, the send path cuts its first segment at SND.NXT. */
  lemma PumpSends(p: Engine, usable: int, n: nat)
    requires Live(p, None) && p.snd.appBuf != [] && p.snd.wnd > 0
    requires usable == p.hist.unaPos + p.snd.wnd - SentEnd(p.hist) > 0 && n == Min(Min(p.snd.mss, usable), |p.snd.appBuf|)
    requires !(p.cfg.timers.nagle && p.snd.retx != [] && n < p.snd.mss)
    ensures var f := PumpData(p);
            && |p.wire| < |f.wire| && f.wire[..|p.wire|] == p.wire
            && f.wire[|p.wire|].pos == SentEnd(p.hist) && f.wire[|p.wire|].seg.payload == p.snd.appBuf[..n]
  {
    hide Live, UsableWindow, SendChunk, SendFin, SendOk;
    LiveSendOk(p, None);
    UsableWindowIs(p);
    ChunkIsCut(p, n, None);
    var g := SendChunk(p, n);
    ChunkCarries(p, n);
    PumpAppends(g);
    assert PumpData(p) == PumpData(g);
    assert PumpData(g).wire[..|p.wire|] == g.wire[..|p.wire|];
  }

  lemma ChunkCarries(e: Engine, n: nat)
    requires n <= |e.snd.appBuf|
    ensures var g := SendChunk(e, n); |g.wire| == |e.wire| + 1 && g.wire[|e.wire|].seg.payload == e.snd.appBuf[..n]
  {
    hide RcvWnd, AdvertisedRight, PosOf, Reach;
  }

  /** How much of the window is free, `acked` being where SND.UNA stands. */
  function FreeWindow(e: Engine, acked: int, window: nat): int { acked + window - SentEnd(e.hist) }

  /** What the send path would cut first. */
  function FirstCut(e: Engine, free: int): int { Min(Min(e.snd.mss, free), |e.snd.appBuf|) }

  /** An acknowledgement that reopens a shut window, with data waiting, puts the next piece of it on the wire at once, as long
      as it may be: unless probes fill the window, or Nagle holds a short piece while something is outstanding. */
  lemma ReopenedWindowSends(e: Engine, now: real, seg: Segment, peer: u32, x: int, a: int, y: int, b: int)
    requires Reached(e) && (e.state == ESTABLISHED || e.state == CLOSE_WAIT) && Allowed(e, Arrives(seg)) && PassesChecks(e, seg)
    requires LastUpdate(e, peer, x, a) && Stands(e, seg, peer, x, a, y, b) && (y > x || (y == x && b >= a))
    requires e.snd.wnd == 0 && seg.window > 0 && e.snd.appBuf != []
    ensures var f := Step(e, now, Arrives(seg));
            var free := FreeWindow(e, f.hist.unaPos, seg.window);
            var n := FirstCut(e, free);
            free > 0 && !(e.cfg.timers.nagle && f.hist.unaPos < SentEnd(e.hist) && n < e.snd.mss) ==>
              && |f.wire| > |e.wire| && f.wire[..|e.wire|] == e.wire
              && f.wire[|e.wire|].pos == SentEnd(e.hist) && f.wire[|e.wire|].seg.payload == e.snd.appBuf[..n]
  {
    hide Reached, Inv, React, ProcessAck, UpdateWindow, CancelPersist, AfterAck, Acceptable, RcvWnd, SeqGt, LastUpdate, Stands, Running;
    ReachedInv(e);
    var g := Checked(e, now, seg);
    HeardInv(e, now, None);
    var h := if SeqGt(seg.ackNo, g.snd.una) then ProcessAck(g, seg.ackNo) else g;
    AckTakenOk(g, seg, None);
    AckKeepsSend(g, seg.ackNo);
    AckSameUpdate(g, seg.ackNo);
    assert LastUpdate(h, peer, x, a) && Stands(h, seg, peer, x, a, y, b) by { SameStand(e, h, seg, peer, x, a, y, b); }
    var k := h.(snd := h.snd.(wnd := seg.window, wl1 := seg.seqNo, wl2 := seg.ackNo));
    assert AckAndWindow(g, seg) == CancelPersist(k) by { NewerOpens(h, seg, peer, x, a, y, b); }
    WindowSet(h, seg.window, seg.seqNo, seg.ackNo, None);
    AckAndWindowOk(g, seg, None);
    AfterAckOk(CancelPersist(k), seg, None);
    AfterAckAppends(CancelPersist(k), seg);
    var p := k.(tm := k.tm.(persist := None));
    DropPersist(k, None);
    RunningCancels(k, None);
    assert CancelPersist(k) == PumpData(p) by { CancelPumps(k); }
    OpenedSends(e, p, Step(e, now, Arrives(seg)), seg.window);
  }

  lemma HeardInv(e: Engine, now: real, peer: Option<u32>)
    requires Inv(e, peer)
    ensures Inv(Heard(e, now), peer)
  {
    hide Inv;
    ClockOk(e, now, peer);
    if e.state == ESTABLISHED { RestartKeepaliveOk(At(e, now), peer); }
  }

  lemma PassedAck(e: Engine, seg: Segment)
    requires PassesChecks(e, seg)
    ensures !SeqGt(seg.ackNo, e.snd.nxt) && seg.flags.ack && !seg.flags.rst
  {
    hide RcvWnd, Acceptable, SeqGt;
  }

  lemma AckKeepsSend(g: Engine, ack: u32)
    ensures var h := ProcessAck(g, ack);
            h.snd.appBuf == g.snd.appBuf && h.snd.mss == g.snd.mss && h.wire == g.wire && h.state == g.state && h.cfg == g.cfg
  {
    hide Trim, RttSample, TakesSample;
  }

  lemma NewerOpens(h: Engine, seg: Segment, peer: u32, x: int, a: int, y: int, b: int)
    requires LastUpdate(h, peer, x, a) && Stands(h, seg, peer, x, a, y, b) && (y > x || (y == x && b >= a))
    requires h.snd.wnd == 0 && seg.window > 0
    ensures UpdateWindow(h, seg) == CancelPersist(h.(snd := h.snd.(wnd := seg.window, wl1 := seg.seqNo, wl2 := seg.ackNo)))
  {
    hide CancelPersist, S32, Wrap;
    SerialOrder(peer, x, y);
    SerialOrder(h.snd.iss, a, b);
  }

  lemma CancelPumps(k: Engine)
    requires k.state == ESTABLISHED || k.state == CLOSE_WAIT
    ensures CancelPersist(k) == PumpData(k.(tm := k.tm.(persist := None)))
  {
    hide PumpData;
  }

  lemma OpenedSends(e: Engine, p: Engine, f: Engine, window: nat)
    requires Running(p, None) && p.snd.appBuf == e.snd.appBuf != [] && p.snd.mss == e.snd.mss && p.wire == e.wire && p.cfg == e.cfg
    requires SentEnd(p.hist) == SentEnd(e.hist) && p.snd.wnd == window > 0
    requires PumpData(p).wire <= f.wire && f.hist.unaPos == p.hist.unaPos
    ensures var free := FreeWindow(e, f.hist.unaPos, window);
            var n := FirstCut(e, free);
            free > 0 && !(e.cfg.timers.nagle && f.hist.unaPos < SentEnd(e.hist) && n < e.snd.mss) ==>
              && |f.wire| > |e.wire| && f.wire[..|e.wire|] == e.wire
              && f.wire[|e.wire|].pos == SentEnd(e.hist) && f.wire[|e.wire|].seg.payload == e.snd.appBuf[..n]
  {
    hide PumpData, Live, Coupled, RtLive;
    var free := FreeWindow(e, f.hist.unaPos, window);
    var n := FirstCut(e, free);
    OutstandingIs(p);
    if free > 0 && !(e.cfg.timers.nagle && f.hist.unaPos < SentEnd(e.hist) && n < e.snd.mss) {
      PumpSends(p, free, n);
    }
  }

  lemma OutstandingIs(p: Engine)
    requires Running(p, None)
    ensures p.snd.retx != [] <==> p.hist.unaPos < SentEnd(p.hist)
  {
    hide Wrap, WireOk, Trail, Coupled, KarnOk, Tally, AllAck;
    TilesEmpty(p.snd.retx, p.snd.iss, p.hist.unaPos, p.hist);
    TilesBound(p.snd.retx, p.snd.iss, p.hist.unaPos, p.hist);
  }

  // ---------------------------------------------------------------------------------------------
  // Reading opens the peer's window
  // ---------------------------------------------------------------------------------------------

  /** The last that the peer was told of its window is that there is none. */
  ghost predicate ToldNothing(e: Engine) {
    exists i :: 0 <= i < |e.wire| && OffersNothing(e.wire[i]) && forall j :: i < j < |e.wire| ==> e.wire[j].seg.flags.rst
  }

  ghost predicate Remembers(e: Engine) { ToldNothing(e) ==> e.rcv.zeroWin }

  lemma AppendsRemembers(e: Engine, f: Engine)
    requires Remembers(e) && e.wire <= f.wire && (e.rcv.zeroWin ==> f.rcv.zeroWin) && NotedIn(f.wire, |e.wire|, f.rcv.zeroWin)
    ensures Remembers(f)
  {
    if ToldNothing(f) {
      var i :| 0 <= i < |f.wire| && OffersNothing(f.wire[i]) && forall j :: i < j < |f.wire| ==> f.wire[j].seg.flags.rst;
      if i < |e.wire| { assert OffersNothing(e.wire[i]) && forall j :: i < j < |e.wire| ==> e.wire[j].seg.flags.rst; }
    }
  }

  lemma ReceiveRemembers(e: Engine, n: nat)
    requires Remembers(e)
    ensures Remembers(Receive(e, n).0)
  {
    hide Receive, Rearms;
    ReceiveAppends(e, n);
    var f := Receive(e, n).0;
    if |f.wire| == |e.wire| + 1 && !f.wire[|e.wire|].seg.flags.rst && f.wire[|e.wire|].seg.window > 0 {
      assert !ToldNothing(f);
    } else {
      AppendsRemembers(e, f);
    }
  }

  lemma StepRemembers(e: Engine, now: real, ev: Event)
    requires Remembers(e)
    ensures Remembers(Step(e, now, ev))
  {
    hide Rearms, RearmsMost, RenewsAll, NotedIn, Receive, Remembers;
    var a := At(e, now);
    SameMemory(e, a);
    if ev.ReceiveCalled? {
      ReceiveRemembers(a, ev.maxLen);
    } else {
      ReactAppends(a, ev);
      StepIs(e, now, ev);
      AppendsRemembers(a, Step(e, now, ev));
    }
  }

  lemma StepIs(e: Engine, now: real, ev: Event)
    ensures Step(e, now, ev) == React(At(e, now), ev)
  {
    hide React;
  }

  lemma SameMemory(e: Engine, f: Engine)
    requires Remembers(e) && f.wire == e.wire && f.rcv.zeroWin == e.rcv.zeroWin
    ensures Remembers(f)
  {
  }

  lemma {:induction false} RunRemembers(e: Engine, evs: seq<(real, Event)>)
    requires Remembers(e)
    ensures Remembers(After(e, evs))
    decreases |evs|
  {
    hide Remembers, Step;
    if evs != [] {
      StepRemembers(e, evs[0].0, evs[0].1);
      RunRemembers(Step(e, evs[0].0, evs[0].1), evs[1..]);
    }
  }

  lemma ReachedRemembers(e: Engine)
    requires Reached(e)
    ensures Remembers(e)
  {
    hide AllowedRun, After;
    var cfg: Config, port: u16, ut: Option<real>, t: real, evs: seq<(real, Event)> :|
      AllowedRun(Fresh(cfg, port, ut, t), evs) && e == After(Fresh(cfg, port, ut, t), evs);
    RunRemembers(Fresh(cfg, port, ut, t), evs);
  }

  /** The engine with the first `n` bytes taken from its buffer. */
  function Drained(e: Engine, n: nat): Engine
    requires n <= |e.rcv.buf|
  {
    e.(rcv := e.rcv.(buf := e.rcv.buf[n..]))
  }

  /** A packet that tells the peer how much it may send, as an acknowledgement of all that is received. */
  predicate TellsWindow(p: Packet, e: Engine, window: nat) {
    p.seg.flags == ACK && p.seg.payload == [] && p.seg.ackNo == e.rcv.nxt && p.seg.seqNo == e.snd.nxt && p.seg.window == window
  }

  /** In every run, if the last that the peer was told is that it may send nothing, a RECEIVE that takes anything and makes
      room to offer tells it at once; a RECEIVE that does not, sends nothing, and the next one will. */
  lemma ReadingReopensWindow(e: Engine, now: real, n: nat)
    requires Reached(e) && ToldNothing(e) && n > 0 && e.rcv.buf != []
    requires e.state == ESTABLISHED || e.state == FIN_WAIT_1 || e.state == FIN_WAIT_2 || e.state == CLOSE_WAIT
    ensures var f := Step(e, now, ReceiveCalled(n));
            var room := RcvWnd(Drained(e, Min(n, |e.rcv.buf|)));
            if room > 0 then |f.wire| == |e.wire| + 1 && f.wire[..|e.wire|] == e.wire && TellsWindow(f.wire[|e.wire|], e, room) && !f.rcv.zeroWin
            else f.wire == e.wire && f.rcv.zeroWin
  {
    hide Reached, RcvWnd, AdvertisedRight, PosOf, Reach;
    ReachedRemembers(e);
    var m := Min(n, |e.rcv.buf|);
    var g := Drained(At(e, now), m);
    OfferUnmarked(g);
    assert RcvWnd(g) == RcvWnd(Drained(e, m)) by { SameOffer(Drained(e, m), g); }
    AckTells(g.(rcv := g.rcv.(zeroWin := false)));
  }

  lemma AckTells(e: Engine)
    ensures var f := SendAck(e); |f.wire| == |e.wire| + 1 && f.wire[..|e.wire|] == e.wire && TellsWindow(f.wire[|e.wire|], e, RcvWnd(e))
    ensures SendAck(e).rcv.zeroWin == (e.rcv.zeroWin || RcvWnd(e) == 0)
  {
    hide RcvWnd, AdvertisedRight, PosOf, Reach;
  }

  /** With no such offer noted RECEIVE sends nothing, whatever it takes. */
  lemma ReadingIsQuiet(e: Engine, now: real, n: nat)
    requires !e.rcv.zeroWin
    ensures var f := Step(e, now, ReceiveCalled(n)); f.wire == e.wire && !f.rcv.zeroWin
  {
  }
}
