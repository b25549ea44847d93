/** Small facts about the engine's functions that several modules use. */
module EngineFacts {
  import opened SeqNum
  import opened EngineState
  import opened EngineSpec

  lemma ChunkTakes(e: Engine, n: nat)
    requires n <= |e.snd.appBuf|
    ensures SendChunk(e, n).snd.appBuf == e.snd.appBuf[n..]
  {
    hide MakeSegment, AdvertisedRight, PosOf;
  }

  lemma FinLeavesBuffer(e: Engine)
    ensures SendFin(e).snd.appBuf == e.snd.appBuf
  {
    hide MakeSegment, AdvertisedRight, PosOf;
  }

  lemma MergeShrinks(e: Engine, i: nat)
    requires i < |e.rcv.ooo|
    ensures |MergeStep(e, i).rcv.ooo| == |e.rcv.ooo| - 1
  {
  }

  /** The errors among the signals, in order. */
  function Errors(signals: seq<Signal>): seq<Signal>
    decreases |signals|
  {
    if signals == [] then []
    else Errors(signals[..|signals| - 1]) + if signals[|signals| - 1].Error? then [signals[|signals| - 1]] else []
  }

  lemma ErrorsPush(signals: seq<Signal>, s: Signal)
    ensures Errors(signals + [s]) == Errors(signals) + if s.Error? then [s] else []
  {
    assert (signals + [s])[..|signals|] == signals;
  }

  /** A state change touches the state, the keepalive timer and the signals, and is no error. */
  lemma StateTouches(e: Engine, to: ConnState)
    ensures var f := SetState(e, to);
            && f == e.(state := to, tm := e.tm.(ka := f.tm.ka, kaProbes := f.tm.kaProbes), signals := f.signals)
            && Errors(f.signals) == Errors(e.signals)
  {
    ErrorsPush(e.signals, StateChange(e.state, to));
  }

  lemma SetStateSame(e: Engine)
    ensures SetState(e, e.state) == e
  {
  }

  lemma ClosedIsClosed(e: Engine)
    ensures EnterClosed(e).state == CLOSED && EnterClosed(e).tm.tw == None
  {
    hide CancelPersist;
  }

  lemma GiveUpCloses(e: Engine, why: ErrorSignal)
    ensures GiveUp(e, why).state == CLOSED
  {
    hide EnterClosed, Emit;
    ClosedIsClosed(SignalError(SendRst(e), why));
  }

  /** The send path leaves the receive side alone but for what an emission marks, and the state may only move on
      because our FIN went out. */
  predicate OnlySends(e: Engine, f: Engine) {
    && f.rcv == e.rcv.(zeroWin := f.rcv.zeroWin, advRight := f.rcv.advRight)
    && f.hist == e.hist.(sent := f.hist.sent, finOut := f.hist.finOut, synOut := f.hist.synOut)
    && (f.state == e.state || f.state == FinState(e.state)) && f.cfg == e.cfg && f.snd.wnd == e.snd.wnd
    && f.snd.finAcked == e.snd.finAcked && f.snd.wl1 == e.snd.wl1 && f.snd.wl2 == e.snd.wl2
    && f.snd.una == e.snd.una && f.snd.mss == e.snd.mss && Errors(f.signals) == Errors(e.signals)
    && f.tm.ack == e.tm.ack && f.tm.ackCount == e.tm.ackCount && f.snd.finPending == e.snd.finPending
  }

  lemma QueueOnlySends(e: Engine, flags: Flags, payload: seq<byte>, withMss: bool)
    ensures OnlySends(e, QueueAndSend(e, flags, payload, withMss)) && QueueAndSend(e, flags, payload, withMss).state == e.state
  {
    hide RcvWnd, AdvertisedRight, PosOf, Reach;
  }

  lemma FinOnlySends(e: Engine)
    ensures OnlySends(e, SendFin(e)) && SendFin(e).state == FinState(e.state)
  {
    hide QueueAndSend, SetState;
    var g := e.(snd := e.snd.(finSeq := e.snd.nxt));
    QueueOnlySends(g, FIN_ACK, [], false);
    var h := QueueAndSend(g, FIN_ACK, [], false);
    StateTouches(h.(snd := h.snd.(finSent := true)), FinState(h.state));
  }

  lemma {:induction false} PumpOnlySends(e: Engine)
    ensures OnlySends(e, PumpData(e))
    decreases |e.snd.appBuf|
  {
    hide SendChunk, SendFin, UsableWindow, OnlySends;
    FinOnlySends(e);
    NothingSent(e, e);
    NothingSent(e, ArmPersist(e));
    if e.snd.appBuf != [] && e.snd.wnd != 0 && UsableWindow(e) > 0 {
      var n := Min(Min(e.snd.mss, UsableWindow(e)), |e.snd.appBuf|);
      if !(e.cfg.timers.nagle && e.snd.retx != [] && n < e.snd.mss) {
        ChunkOnlySends(e, n);
        ChunkTakes(e, n);
        PumpOnlySends(SendChunk(e, n));
        OnlySendsOn(e, SendChunk(e, n), PumpData(e));
      }
    }
  }

  lemma NothingSent(e: Engine, f: Engine)
    requires f == e.(tm := e.tm.(persist := f.tm.persist, persistBackoff := f.tm.persistBackoff))
    ensures OnlySends(e, f)
  {
  }

  lemma OnlySendsOn(e: Engine, m: Engine, f: Engine)
    requires OnlySends(e, m) && m.state == e.state && OnlySends(m, f)
    ensures OnlySends(e, f)
  {
  }

  lemma ChunkOnlySends(e: Engine, n: nat)
    requires n <= |e.snd.appBuf|
    ensures OnlySends(e, SendChunk(e, n)) && SendChunk(e, n).state == e.state
  {
    hide QueueAndSend;
    QueueOnlySends(e.(snd := e.snd.(appBuf := e.snd.appBuf[n..])), ACK, e.snd.appBuf[..n], false);
  }

  lemma SendOnlySends(e: Engine)
    ensures OnlySends(e, SendPending(e)) && OnlySends(e, CancelPersist(e))
  {
    hide PumpData;
    PumpOnlySends(e);
    PumpOnlySends(e.(tm := e.tm.(persist := None)));
  }

  lemma AckTouches(e: Engine)
    ensures var f := SendAck(e);
            && f.rcv == e.rcv.(zeroWin := f.rcv.zeroWin, advRight := f.rcv.advRight) && f.state == e.state
            && f.hist == e.hist && f.cfg == e.cfg && f.snd == e.snd && f.passive == e.passive && f.signals == e.signals
  {
  }

  lemma TimeWaitTouches(e: Engine)
    requires e.state == FIN_WAIT_2 || e.state == CLOSING
    ensures var f := EnterTimeWait(e); f == e.(state := TIME_WAIT, tm := f.tm, signals := f.signals)
  {
    hide SetState, PumpData;
    StateTouches(CancelPersist(StopRt(e)), TIME_WAIT);
  }

  /** Consuming a FIN counts it, and the buffer stays as it was. */
  lemma FinConsumed(e: Engine)
    ensures var f := ProcessFin(e);
            && f.hist == e.hist.(fins := e.hist.fins + 1) && f.rcv.pendingFin == None && f.rcv.buf == e.rcv.buf && f.cfg == e.cfg
  {
    hide SendAck, SetState, EnterTimeWait;
    AckTouches(TakeFin(e));
    var f := SendAck(TakeFin(e));
    StateTouches(f, CLOSE_WAIT);
    StateTouches(f, CLOSING);
    if f.state == FIN_WAIT_2 { TimeWaitTouches(f); }
  }

  /** An acknowledgement changes nothing of the receive side or the state. */
  lemma AckProcessedTouches(e: Engine, ack: u32)
    ensures var f := ProcessAck(e, ack);
            && f.rcv == e.rcv && f.state == e.state && f.cfg == e.cfg && f.wire == e.wire
            && f.hist == e.hist.(unaPos := f.hist.unaPos) && f.signals == e.signals
            && f.tm == e.tm.(unaSince := f.tm.unaSince, rtoCount := f.tm.rtoCount, rt := f.tm.rt) && f.snd.finPending == e.snd.finPending
  {
    hide Trim, RttSample, TakesSample;
  }

  lemma OpenState(e: Engine)
    ensures EngineSpec.Open(e).state == SYN_SENT
  {
    hide QueueAndSend, SetState;
    var g := e.(passive := false, snd := e.snd.(iss := e.cfg.iss, una := e.cfg.iss, nxt := e.cfg.iss, wnd := 0),
                hist := e.hist.(started := true, unaPos := 0, since := |e.wire|));
    StateTouches(g, SYN_SENT);
    QueueOnlySends(SetState(g, SYN_SENT), SYN, [], true);
  }
}
