/** Runs of a fresh engine in which the exceptions happen: each is built event by event, and ends where the careless
    expectation fails. */
module Witness {
  import opened SeqNum
  import opened EngineState
  import opened EngineSpec
  import opened EngineFacts
  import opened SendInvariant
  import opened EngineInvariant
  import opened EngineRuns
  import opened WireLog
  import opened WindowEdge
  import opened RunTheorems
  import opened Karn
  import opened Corners
  import opened ActiveEdge
  import opened EdgeStride

  /** A segment with nothing but the header fields that matter. */
  function Plain(sn: u32, ackNo: u32, flags: Flags, window: u16, payload: seq<byte>): Segment {
    Segment(0, 0, sn, ackNo, flags, window, 0, 0, payload, None, None, [])
  }

  lemma {:induction false} RunGrows(e: Engine, evs: seq<(real, Event)>, now: real, ev: Event)
    requires AllowedRun(e, evs) && Allowed(After(e, evs), ev)
    ensures AllowedRun(e, evs + [(now, ev)]) && After(e, evs + [(now, ev)]) == Step(After(e, evs), now, ev)
    decreases |evs|
  {
    hide Step, Allowed;
    var x := [(now, ev)];
    if evs == [] {
      assert evs + x == x && x[1..] == [];
      assert After(Step(e, now, ev), []) == Step(e, now, ev);
    } else {
      assert (evs + x)[1..] == evs[1..] + x;
      RunGrows(Step(e, evs[0].0, evs[0].1), evs[1..], now, ev);
    }
  }

  lemma ReachedBy(cfg: Config, evs: seq<(real, Event)>)
    requires AllowedRun(Fresh(cfg, 0, None, 0.0), evs)
    ensures Reached(After(Fresh(cfg, 0, None, 0.0), evs))
  {
    hide AllowedRun, After, Fresh;
  }

  // ---------------------------------------------------------------------------------------------
  // An active open
  // ---------------------------------------------------------------------------------------------

  const Call := OpenCalled(true, None, None, None)

  /** Our SYN is out. */
  predicate SynOut(e: Engine, cfg: Config) {
    && e.state == SYN_SENT && e.cfg == cfg && e.localPort == 0 && e.snd.iss == cfg.iss && e.snd.una == cfg.iss
    && e.snd.nxt == Add(cfg.iss, 1) && |e.snd.retx| == 1 && e.snd.appBuf == [] && !e.snd.finPending
    && e.snd.retx[0].seqNo == cfg.iss && e.snd.retx[0].SegLen() == 1 && !e.snd.finSent && !e.snd.finAcked
    && e.rcv.buf == [] && e.rcv.ooo == [] && e.rcv.pendingFin == None && e.hist.fins == 0 && e.hist.delivered == []
    && e.rcv.nxt == 0 && e.snd.mss == cfg.mss
  }

  lemma ActiveOpens(cfg: Config) returns (evs: seq<(real, Event)>)
    ensures AllowedRun(Fresh(cfg, 0, None, 0.0), evs) && SynOut(After(Fresh(cfg, 0, None, 0.0), evs), cfg)
    ensures |After(Fresh(cfg, 0, None, 0.0), evs).wire| == 1
  {
    hide AllowedRun, After;
    evs := [];
    var e := Fresh(cfg, 0, None, 0.0);
    assert AllowedRun(e, []) && After(e, []) == e by { NoEvents(e); }
    RunGrows(e, [], 0.0, Call);
    evs := [] + [(0.0, Call)];
    CallOpens(e, cfg);
  }

  lemma CallOpens(e: Engine, cfg: Config)
    requires e == Fresh(cfg, 0, None, 0.0)
    ensures SynOut(Step(e, 0.0, Call), cfg) && |Step(e, 0.0, Call).wire| == 1
  {
    hide PosOf, Reach;
  }

  /** Data that crosses on a peer's SYN can overfill the buffer. */
  lemma BufferOverfull(cfg: Config) returns (evs: seq<(real, Event)>)
    requires !cfg.streaming && cfg.rcvWnd < 0x1_0000
    ensures AllowedRun(Fresh(cfg, 0, None, 0.0), evs)
    ensures var e := After(Fresh(cfg, 0, None, 0.0), evs); |e.rcv.buf| > e.cfg.rcvWnd
  {
    hide AllowedRun, After, Fresh, Step, Reached;
    var e0 := Fresh(cfg, 0, None, 0.0);
    var before := ActiveOpens(cfg);
    var e := After(e0, before);
    ReachedBy(cfg, before);
    var syn := Plain(0, 0, SYN, 0, seq(cfg.rcvWnd + 1, i => 0));
    var ack := Plain(1, e.snd.nxt, ACK, 0, []);
    var t := (0.0, Arrives(syn));
    RunGrows(e0, before, 0.0, Arrives(syn));
    RunGrows(e0, before + [t], 0.0, Arrives(ack));
    SynDataFillsBuffer(e, 0.0, syn, 0.0, ack);
    CfgIs(e, syn, ack);
    evs := before + [t] + [(0.0, Arrives(ack))];
  }

  lemma CfgIs(e: Engine, syn: Segment, ack: Segment)
    requires Reached(e) && syn.window < 0x1_0000 && ack.window < 0x1_0000
    ensures Step(Step(e, 0.0, Arrives(syn)), 0.0, Arrives(ack)).cfg == e.cfg
  {
    hide Step, Inv, Reached;
    ReachedInv(e);
    StepOk(e, 0.0, Arrives(syn), None);
    CfgKept(e, 0.0, syn);
    CfgKept(Step(e, 0.0, Arrives(syn)), 0.0, ack);
  }

  /** Connected, with nothing sent or received. */
  predicate Connected(e: Engine, cfg: Config, irs: u32, window: u16) {
    && e.state == ESTABLISHED && e.cfg == cfg && e.localPort == 0 && e.snd.una == e.snd.nxt == Add(cfg.iss, 1) && e.snd.wnd == window
    && e.snd.wl1 == irs && e.snd.wl2 == e.snd.nxt
    && e.snd.appBuf == [] && e.snd.retx == [] && !e.snd.finPending && !e.snd.finAcked && !e.snd.finSent
    && e.rcv.nxt == Add(irs, 1) && e.rcv.buf == [] && e.rcv.ooo == [] && e.rcv.pendingFin == None && e.hist.fins == 0 && e.snd.mss == cfg.mss
  }

  function SynAck(cfg: Config, irs: u32, window: u16): Segment { Plain(irs, Add(cfg.iss, 1), SYN_ACK, window, []) }

  /** The peer's SYN-ACK taken, before the state changes. */
  lemma SynAckTaken(e: Engine, cfg: Config, irs: u32, window: u16)
    requires SynOut(e, cfg)
    ensures var f := TakeSyn(e, SynAck(cfg, irs, window));
            && f.snd == e.snd.(una := e.snd.nxt, retx := [], wnd := window, wl1 := irs, wl2 := e.snd.nxt, finAcked := f.snd.finAcked,
                               rttPending := f.snd.rttPending)
            && f.rcv == e.rcv.(irs := irs, nxt := Add(irs, 1)) && f.state == SYN_SENT && f.cfg == cfg && f.hist == e.hist.(unaPos := f.hist.unaPos)
            && f.tm.persist == e.tm.persist && f.snd.finAcked == e.snd.finAcked && f.localPort == 0
            && SeqGt(f.snd.una, f.snd.iss)
  {
    hide RttSample;
    assert e.snd.retx[1..] == [];
    assert Trim(e.snd.retx, e.snd.nxt) == [];
  }

  lemma SynAckConnects(e: Engine, cfg: Config, irs: u32, window: u16)
    requires SynOut(e, cfg)
    ensures Connected(Step(e, 0.0, Arrives(SynAck(cfg, irs, window))), cfg, irs, window)
  {
    hide TakeSyn, SendAck, SetState, AdvertisedRight, PosOf, Reach;
    var a, seg := At(e, 0.0), SynAck(cfg, irs, window);
    SynAckTaken(a, cfg, irs, window);
    var f := TakeSyn(a, seg);
    StateTouches(f, ESTABLISHED);
    AckTouches(SetState(f, ESTABLISHED));
    assert SendAck(SetState(f, ESTABLISHED)).localPort == 0 by { PortKept(f); }
    assert Step(e, 0.0, Arrives(seg)) == HandleSynSent(a, seg) by { ArrivalIs(e, 0.0, seg); }
  }

  lemma PortKept(e: Engine)
    ensures SendAck(SetState(e, ESTABLISHED)).localPort == e.localPort
  {
  }

  /** A connection as just made, whatever window the peer offers. */
  lemma Connects(cfg: Config, irs: u32, window: u16) returns (evs: seq<(real, Event)>)
    ensures AllowedRun(Fresh(cfg, 0, None, 0.0), evs) && Connected(After(Fresh(cfg, 0, None, 0.0), evs), cfg, irs, window)
  {
    hide AllowedRun, After, Fresh, Step, SynOut, Connected, SynAck;
    var before := ActiveOpens(cfg);
    var ev := Arrives(SynAck(cfg, irs, window));
    SynAckAllowed(After(Fresh(cfg, 0, None, 0.0), before), cfg, irs, window);
    RunGrows(Fresh(cfg, 0, None, 0.0), before, 0.0, ev);
    SynAckConnects(After(Fresh(cfg, 0, None, 0.0), before), cfg, irs, window);
    evs := before + [(0.0, ev)];
  }

  lemma SynAckAllowed(e: Engine, cfg: Config, irs: u32, window: u16)
    ensures Allowed(e, Arrives(SynAck(cfg, irs, window)))
  {
  }

  /** The persist timer can survive the connection: data waits for a window that the peer never opened, and the
      application gives up. */
  lemma PersistSurvives(cfg: Config) returns (evs: seq<(real, Event)>)
    ensures AllowedRun(Fresh(cfg, 0, None, 0.0), evs)
    ensures var e := After(Fresh(cfg, 0, None, 0.0), evs); e.state == CLOSED && e.tm.persist.Some?
  {
    hide AllowedRun, After, Fresh, Step, Reached;
    var e0 := Fresh(cfg, 0, None, 0.0);
    var before := Connects(cfg, 0, 0);
    var sent := SendCalled([0], None);
    RunGrows(e0, before, 0.0, sent);
    var run := before + [(0.0, sent)];
    ReachedBy(cfg, run);
    RunGrows(e0, run, 0.0, AbortCalled);
    var e := After(e0, run);
    DataWaits(After(e0, before), cfg);
    AbortCloses(e);
    TimersAfterClosing(e, 0.0, AbortCalled);
    evs := run + [(0.0, AbortCalled)];
  }

  lemma DataWaits(e: Engine, cfg: Config)
    requires Connected(e, cfg, 0, 0)
    ensures var f := Step(e, 0.0, SendCalled([0], None)); f.state == ESTABLISHED && HasWork(f) && f.snd.wnd == 0
  {
    hide SendChunk, SendFin;
  }

  lemma AbortCloses(e: Engine)
    requires e.state == ESTABLISHED
    ensures Step(e, 0.0, AbortCalled).state == CLOSED
  {
    hide EnterClosed, SendRst;
    ClosedIsClosed(SendRst(At(e, 0.0)));
  }

  function Fin(cfg: Config, sn: u32, window: u16): Segment { Plain(sn, Add(cfg.iss, 1), FIN_ACK, window, []) }

  /** The end of the peer's stream can be consumed twice: after one FIN another stands at RCV.NXT. */
  lemma TwoFins(cfg: Config) returns (evs: seq<(real, Event)>)
    requires 0 < cfg.rcvWnd < 0x1_0000 && !cfg.timers.swsAvoidance
    ensures AllowedRun(Fresh(cfg, 0, None, 0.0), evs)
    ensures After(Fresh(cfg, 0, None, 0.0), evs).hist.fins == 2
  {
    hide AllowedRun, After, Fresh, Step, Reached, Connected;
    var e0 := Fresh(cfg, 0, None, 0.0);
    var before := Connects(cfg, 0, 1000);
    RunGrows(e0, before, 0.0, Arrives(Fin(cfg, 1, 1000)));
    var run := before + [(0.0, Arrives(Fin(cfg, 1, 1000)))];
    ReachedBy(cfg, run);
    FirstFin(After(e0, before), cfg);
    var e := After(e0, run);
    RunGrows(e0, run, 0.0, Arrives(Fin(cfg, 2, 1000)));
    SecondFinDue(e, cfg);
    SecondFinConsumed(e, 0.0, Fin(cfg, 2, 1000));
    evs := run + [(0.0, Arrives(Fin(cfg, 2, 1000)))];
  }

  /** The peer has ended its stream. */
  predicate Ended(e: Engine, cfg: Config) {
    && e.state == CLOSE_WAIT && e.hist.fins == 1 && e.rcv.nxt == 2 && e.snd.nxt == Add(cfg.iss, 1) && e.localPort == 0
    && e.cfg == cfg && e.rcv.buf == []
  }

  lemma FirstFin(e: Engine, cfg: Config)
    requires Connected(e, cfg, 0, 1000) && 0 < cfg.rcvWnd < 0x1_0000 && !cfg.timers.swsAvoidance
    ensures Ended(Step(e, 0.0, Arrives(Fin(cfg, 1, 1000))), cfg)
  {
    hide HandleSynchronized, ProcessFin;
    var seg := Fin(cfg, 1, 1000);
    var a := RestartKeepalive(At(e, 0.0), true);
    assert Step(e, 0.0, Arrives(seg)) == HandleSynchronized(a, seg) by { ArrivalIs(e, 0.0, seg); }
    var h := a.(snd := a.snd.(wl1 := 1));
    FinReaches(a, cfg);
    FinConsumed(h);
    FinEnds(h, cfg);
  }

  /** The FIN passes every check, and only the record of the window update changes. */
  lemma FinReaches(a: Engine, cfg: Config)
    requires Connected(a, cfg, 0, 1000) && 0 < cfg.rcvWnd < 0x1_0000 && !cfg.timers.swsAvoidance
    ensures HandleSynchronized(a, Fin(cfg, 1, 1000)) == CheckPendingFin(ProcessFin(a.(snd := a.snd.(wl1 := 1))))
  {
    hide ProcessFin, CheckPendingFin, SendChunk, SendFin, AckAndWindow, RcvWnd;
    assert RcvWnd(a) == cfg.rcvWnd by { NothingHeldBack(a, cfg); }
    var seg := Fin(cfg, 1, 1000);
    var h := a.(snd := a.snd.(wl1 := 1));
    assert Acceptable(1, 1, a.rcv.nxt, RcvWnd(a));
    assert AckAndWindow(a, seg) == h by { WindowNoted(a, cfg); }
    assert SendPending(h) == h;
    assert !SeqGt(seg.ackNo, a.snd.nxt);
  }

  lemma NothingHeldBack(a: Engine, cfg: Config)
    requires Connected(a, cfg, 0, 1000) && !cfg.timers.swsAvoidance
    ensures RcvWnd(a) == cfg.rcvWnd
  {
  }

  lemma WindowNoted(a: Engine, cfg: Config)
    requires Connected(a, cfg, 0, 1000)
    ensures AckAndWindow(a, Fin(cfg, 1, 1000)) == a.(snd := a.snd.(wl1 := 1))
  {
    hide CancelPersist, ProcessAck;
    var seg := Fin(cfg, 1, 1000);
    assert SeqLt(0, 1) && !SeqGt(seg.ackNo, a.snd.una);
  }

  lemma FinEnds(h: Engine, cfg: Config)
    requires h.state == ESTABLISHED && h.rcv.nxt == 1 && h.rcv.buf == [] && h.cfg == cfg && h.snd.nxt == Add(cfg.iss, 1)
    requires h.localPort == 0 && h.hist.fins == 0
    ensures var f := ProcessFin(h); Ended(f, cfg) && f.rcv.pendingFin == None
  {
    hide RcvWnd, AdvertisedRight, PosOf, Reach;
  }

  lemma SecondFinDue(e: Engine, cfg: Config)
    requires Ended(e, cfg) && 0 < cfg.rcvWnd < 0x1_0000 && !cfg.timers.swsAvoidance
    ensures PassesChecks(e, Fin(cfg, 2, 1000)) && FinDue(e, Fin(cfg, 2, 1000))
  {
  }

  // ---------------------------------------------------------------------------------------------
  // An active opener's edge
  // ---------------------------------------------------------------------------------------------

  lemma {:induction false} RunJoins(e: Engine, a: seq<(real, Event)>, b: seq<(real, Event)>)
    requires AllowedRun(e, a) && AllowedRun(After(e, a), b)
    ensures AllowedRun(e, a + b) && After(e, a + b) == After(After(e, a), b)
    decreases |a|
  {
    hide Step, Allowed;
    if a == [] {
      assert a + b == b;
    } else {
      assert (a + b)[1..] == a[1..] + b;
      RunJoins(Step(e, a[0].0, a[0].1), a[1..], b);
    }
  }

  function FullThreshold(cfg: Config): nat { Min(cfg.mss, Max(1, cfg.rcvWnd / 2)) }

  /** A fresh engine opens and is answered by a peer of number `irs`: from then on its edges move in strides, in every run,
      exactly if `irs` + 1 is in the lower half of the sequence space, or every edge is a stride. */
  lemma OpenedStridesExactly(cfg: Config, irs: u32, window: u16) returns (evs: seq<(real, Event)>)
    requires cfg.timers.swsAvoidance && cfg.rcvWnd < 0x1_0000
    ensures AllowedRun(Fresh(cfg, 0, None, 0.0), evs)
    ensures var f := After(Fresh(cfg, 0, None, 0.0), evs);
            f.state == ESTABLISHED && (AlwaysStrides(f, 1) <==> S32(Add(irs, 1)) >= 0 || FullThreshold(cfg) <= 1)
  {
    hide AllowedRun, After, Fresh, Step, Reached, AlwaysStrides, S32;
    var e0 := Fresh(cfg, 0, None, 0.0);
    var before := ActiveOpens(cfg);
    var e, seg := After(e0, before), SynAck(cfg, irs, window);
    SynAckAllowed(e, cfg, irs, window);
    RunGrows(e0, before, 0.0, Arrives(seg));
    evs := before + [(0.0, Arrives(seg))];
    ReachedBy(cfg, before);
    ActiveStridesExactly(e, 0.0, seg);
    SynAckConnects(e, cfg, irs, window);
  }

  /** For every peer's number in the upper half, and a threshold of at least two, there is a run in which the edge creeps. */
  lemma EdgeCreeps(cfg: Config, irs: u32, window: u16) returns (evs: seq<(real, Event)>)
    requires cfg.timers.swsAvoidance && cfg.rcvWnd < 0x1_0000 && FullThreshold(cfg) >= 2 && S32(Add(irs, 1)) < 0
    ensures AllowedRun(Fresh(cfg, 0, None, 0.0), evs)
    ensures var e := After(Fresh(cfg, 0, None, 0.0), evs);
            Synced(e.state) && exists i: nat, j: nat :: 1 <= i && Consecutive(e.wire, i, j) && !Stride(e.wire[i], e.wire[j], SwsThreshold(e))
  {
    hide AllowedRun, After, Fresh, S32, Stride, Consecutive, SwsThreshold;
    var e0 := Fresh(cfg, 0, None, 0.0);
    var connect := OpenedStridesExactly(cfg, irs, window);
    var f := After(e0, connect);
    var later: seq<(real, Event)> :| AllowedRun(f, later) && Synced(After(f, later).state) && !StridesFrom(After(f, later), 1);
    RunJoins(e0, connect, later);
    evs := connect + later;
  }

  // ---------------------------------------------------------------------------------------------
  // A listener opened again
  // ---------------------------------------------------------------------------------------------

  const Listen := OpenCalled(false, None, None, None)

  /** The SYN-ACK that answers it. */
  function TheAnswer(cfg: Config): Segment {
    Segment(0, cfg.remotePort, cfg.iss, 1, SYN_ACK, cfg.rcvWnd, 0, 0, [], Some(cfg.mss), None, [])
  }

  /** On the wire are `k` SYN-ACKs, all the same. */
  predicate SameAnswers(e: Engine, cfg: Config, k: nat) {
    |e.wire| == Times(e.wire, 0) == k && forall i :: 0 <= i < k ==> e.wire[i].seg == TheAnswer(cfg)
  }

  /** Waiting for a SYN. */
  predicate Waiting(e: Engine, cfg: Config, k: nat) {
    && e.state == LISTEN && e.passive && e.cfg == cfg && e.localPort == 0 && e.remotePort == cfg.remotePort && e.snd.mss == cfg.mss
    && e.snd.retx == [] && e.snd.rttPending == None && !e.snd.finPending && !e.hist.synOut && e.hist.sent == [] && !e.hist.finOut
    && e.rcv.advRight == None && e.rcv.buf == [] && e.hist.delivered == [] && e.hist.fins == 0 && SameAnswers(e, cfg, k)
  }

  /** A SYN-ACK is out, timed as sent once. */
  predicate Answered(e: Engine, cfg: Config, k: nat) {
    && e.state == SYN_RECEIVED && e.passive && e.cfg == cfg && e.localPort == 0 && e.snd.mss == cfg.mss
    && |e.snd.retx| == 1 && e.snd.retx[0].EndPos() == 1 && e.snd.retx[0].copies == 1 && !e.snd.retx[0].retransmitted
    && e.snd.rttPending == Some((e.snd.retx[0].End(), e.snd.retx[0].sentTime)) && !e.snd.finPending
    && e.hist.sent == [] && !e.hist.finOut && e.hist.delivered == [] && e.hist.fins == 0 && e.rcv.nxt == 1 && e.rcv.buf == []
    && SameAnswers(e, cfg, k)
  }

  function TheSyn(): Segment { Plain(0, 0, SYN, 0, []) }

  function Reset(): Segment { Plain(1, 0, RST, 0, []) }

  lemma SynIsAnswered(e: Engine, cfg: Config, k: nat)
    requires Waiting(e, cfg, k)
    ensures Answered(Step(e, 0.0, Arrives(TheSyn())), cfg, k + 1)
  {
    hide AdvertisedRight, Reach, S32, RestartKeepalive, CancelKeepalive, ArmPersist, SeqGt, SeqLt, SeqLeq;
    var f := Step(e, 0.0, Arrives(TheSyn()));
    assert f.wire == e.wire + [f.wire[k]] && f.wire[k].seg == TheAnswer(cfg) && f.wire[k].pos == 0;
    TimesPush(e.wire, f.wire[k], 0);
  }

  lemma ResetListens(e: Engine, cfg: Config, k: nat)
    requires Answered(e, cfg, k) && cfg.rcvWnd < 0x1_0000
    ensures Waiting(Step(e, 0.0, Arrives(Reset())), cfg, k)
  {
    hide Times, RcvWnd, PumpData, Acceptable, EnterClosed, S32;
    var a := At(e, 0.0);
    WindowNearFreeBuffer(a);
    assert Acceptable(1, 0, a.rcv.nxt, RcvWnd(a)) by { AtNextAcceptable(1, RcvWnd(a)); }
  }

  lemma AtNextAcceptable(nxt: u32, wnd: nat)
    requires wnd < 0x1_0000
    ensures Acceptable(nxt, 0, nxt, wnd)
  {
  }

  lemma Listens(cfg: Config)
    ensures Waiting(Step(Fresh(cfg, 0, None, 0.0), 0.0, Listen), cfg, 0)
  {
  }

  /** A SYN-ACK can be on the wire twice while timed as sent once: a listener is reset and opened again with the same
      initial sequence number, so an acknowledgement of the first would be taken for one of the second. */
  lemma AnsweredTwice(cfg: Config) returns (evs: seq<(real, Event)>)
    requires cfg.rcvWnd < 0x1_0000
    ensures AllowedRun(Fresh(cfg, 0, None, 0.0), evs)
    ensures var e := After(Fresh(cfg, 0, None, 0.0), evs);
            && |e.wire| == 2 && e.wire[0].seg == e.wire[1].seg && |e.snd.retx| == 1 && OnWire(e, e.snd.retx[0]) == 2
            && e.snd.retx[0].copies == 1 && !e.snd.retx[0].retransmitted
            && e.snd.rttPending == Some((e.snd.retx[0].End(), e.snd.retx[0].sentTime))
  {
    hide AllowedRun, After, Fresh, Step, Waiting, TheSyn, Reset;
    var e0 := Fresh(cfg, 0, None, 0.0);
    assert AllowedRun(e0, []) && After(e0, []) == e0 by { NoEvents(e0); }
    var syn, rst := Arrives(TheSyn()), Arrives(Reset());
    assert Allowed(e0, Listen) && forall e :: Allowed(e, syn) && Allowed(e, rst) by { AllAllowed(cfg); }
    RunGrows(e0, [], 0.0, Listen);
    Listens(cfg);
    evs := [] + [(0.0, Listen)];
    RunGrows(e0, evs, 0.0, syn);
    SynIsAnswered(After(e0, evs), cfg, 0);
    evs := evs + [(0.0, syn)];
    RunGrows(e0, evs, 0.0, rst);
    ResetListens(After(e0, evs), cfg, 1);
    evs := evs + [(0.0, rst)];
    RunGrows(e0, evs, 0.0, syn);
    SynIsAnswered(After(e0, evs), cfg, 1);
    evs := evs + [(0.0, syn)];
  }

  lemma AllAllowed(cfg: Config)
    ensures Allowed(Fresh(cfg, 0, None, 0.0), Listen)
    ensures forall e :: Allowed(e, Arrives(TheSyn())) && Allowed(e, Arrives(Reset()))
  {
  }
}
