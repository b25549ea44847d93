/** The invariant of one engine over all its entry points, against any peer: the send side is in order,
    state and flags agree, every reported transition is an arc of the connection diagram, queues that need a
    timer have one, and no work is left undone. */
module EngineInvariant {
  import opened SeqNum
  import opened EngineState
  import opened EngineSpec
  import opened EngineFacts
  import opened SendInvariant
  import opened SendPath
  import opened AckPath
  import opened RecvPath

  predicate Active(s: ConnState) { s != CLOSED && s != LISTEN }

  predicate Synced(s: ConnState) { Active(s) && s != SYN_SENT }

  predicate FinSentIn(s: ConnState) {
    s == FIN_WAIT_1 || s == FIN_WAIT_2 || s == CLOSING || s == LAST_ACK || s == TIME_WAIT
  }

  predicate FinTakenIn(s: ConnState) { s == CLOSE_WAIT || s == CLOSING || s == LAST_ACK || s == TIME_WAIT }

  /** Nothing received yet. */
  predicate Unreceived(e: Engine) {
    e.hist.delivered == [] && e.hist.fins == 0 && e.rcv.buf == [] && e.rcv.ooo == [] && e.rcv.pendingFin == None
  }

  /** Nothing but the SYN sent yet, and that not acknowledged. */
  predicate OnlySyn(e: Engine) { e.hist.unaPos == 0 && e.hist.sent == [] }

  predicate Cleared(e: Engine) {
    e.snd.retx == [] && !e.snd.finPending && !e.snd.finSent && !e.snd.finAcked && e.snd.rttPending == None
  }

  predicate Unsent(e: Engine) {
    !e.hist.synOut && e.hist.sent == [] && !e.hist.finOut && e.hist.unaPos == 0 && e.hist.accepted == e.snd.appBuf
  }

  /** State, flags, history and timers agree. */
  predicate Coupled(e: Engine) {
    && e.rcv.peerFin == (e.hist.fins > 0)
    && (e.tm.tw.Some? <==> e.state == TIME_WAIT)
    && (e.tm.ack.Some? ==> Synced(e.state) && e.state != SYN_RECEIVED)
    && (e.state != CLOSED || !e.hist.started ==> AckTimed(e.tm))
    && (e.tm.ka.Some? ==> e.state == ESTABLISHED)
    && (Active(e.state) ==> e.hist.finOut == FinSentIn(e.state) && (e.hist.fins > 0) == FinTakenIn(e.state))
    && (e.state != CLOSED ==> e.hist.started)
    && (e.tm.persist.Some? ==> e.state != LISTEN && e.state != SYN_SENT)
    && match e.state
       case CLOSED => Cleared(e) && e.snd.appBuf == [] && e.rcv.buf == [] && (!e.hist.started ==> Unsent(e) && Unreceived(e) && e.tm.persist == None)
       case LISTEN => Cleared(e) && Unsent(e) && Unreceived(e) && e.passive
       case SYN_SENT => OnlySyn(e) && Unreceived(e) && !e.snd.finPending && !e.passive
                        && (e.snd.retx != [] ==> !e.snd.retx[0].flags.ack)
       case SYN_RECEIVED => OnlySyn(e) && e.hist.delivered == []
                             && (e.tm.persist.Some? ==> e.snd.finPending && e.snd.appBuf == [])
       case ESTABLISHED => e.hist.unaPos >= 1
       case CLOSE_WAIT => e.hist.unaPos >= 1
       case FIN_WAIT_2 => e.snd.finAcked
       case TIME_WAIT => e.snd.finAcked
       case _ => true
  }

  /** In the states that wait for it, our FIN is not acknowledged yet. */
  predicate AwaitsFinAck(e: Engine) {
    e.state == FIN_WAIT_1 || e.state == CLOSING || e.state == LAST_ACK ==> !e.snd.finAcked
  }

  ghost predicate Inv(e: Engine, peer: Option<u32>) {
    && WireOk(e, peer) && Trail(e.signals, e.state) && e.hist.sent <= e.hist.accepted
    && StreamEnd(e.hist) < e.hist.unaPos + HALF
    && (Active(e.state) ==> SendOk(e) && RtLive(e))
    && (Synced(e.state) ==> Knows(e, peer))
    && Coupled(e) && AwaitsFinAck(e) && Settled(e)
  }

  /** The history of `f` continues that of `e`. */
  ghost predicate Continues(e: Engine, f: Engine) {
    && Grows(e.hist, f.hist) && f.cfg == e.cfg
    && (e.hist.started ==> f.hist.started)
  }

  /** What `f` holds of the peer's stream is what `e` held, or less of what was still out of order. */
  ghost predicate SameReceived(e: Engine, f: Engine) {
    && f.hist.delivered == e.hist.delivered && f.hist.fins == e.hist.fins && f.rcv.irs == e.rcv.irs
    && (f.rcv.ooo == e.rcv.ooo || f.rcv.ooo == [])
    && (f.rcv.pendingFin == e.rcv.pendingFin || f.rcv.pendingFin == None)
    && (Synced(f.state) ==> Synced(e.state)) && (f.state == SYN_RECEIVED ==> e.state == SYN_RECEIVED)
    && (f.state == SYN_SENT ==> !Synced(e.state))
  }

  // ---------------------------------------------------------------------------------------------
  // Closing down
  // ---------------------------------------------------------------------------------------------

  /** What must hold of a connection about to be dropped. */
  ghost predicate Closable(e: Engine, peer: Option<u32>) {
    && WireOk(e, peer) && Trail(e.signals, e.state) && e.hist.sent <= e.hist.accepted
    && StreamEnd(e.hist) < e.hist.unaPos + HALF
    && (Active(e.state) ==> SendOk(e))
    && (MaySend(e) ==> Knows(e, peer))
    && e.rcv.peerFin == (e.hist.fins > 0)
    && e.state != CLOSED && e.hist.started
  }

  lemma CancelPersistOk(e: Engine, peer: Option<u32>)
    requires Closable(e, peer)
    ensures var f := CancelPersist(e); SendFrame(e, f) && Closable(f, peer) && PumpMoves(e, f) && Settled(f)
  {
    hide Tiles, Wrap, Trail, PacketOk, PumpData, UsableWindow, KarnOk;
    var g := e.(tm := e.tm.(persist := None));
    if MaySend(e) { SendPendingOk(g, peer); }
  }

  /** Dropping the connection from any state. */
  lemma EnterClosedOk(e: Engine, peer: Option<u32>)
    requires Closable(e, peer)
    ensures var f := EnterClosed(e);
            && Inv(f, peer) && Continues(e, f) && f.state == CLOSED
            && f.hist == e.hist.(sent := f.hist.sent, finOut := f.hist.finOut) && SameReceived(e, f)
  {
    hide Tiles, Wrap, Trail, PacketOk, CancelPersist, SetState, UsableWindow, KarnOk, Tally, AllAck;
    var s := StopRt(e);
    CancelPersistOk(s, peer);
    var c := CancelKeepalive(CancelPersist(s));
    var g := ResetBuffers(c.(tm := c.tm.(tw := None, ack := None)));
    SetStateIs(g, CLOSED);
    assert g.hist.sent <= g.hist.accepted by { if Active(e.state) { assert SendOk(CancelPersist(s)); } }
  }

  lemma SendRstOk(e: Engine, peer: Option<u32>)
    requires Closable(e, peer)
    ensures Closable(SendRst(e), peer) && SendRst(e).hist == e.hist && SendRst(e).cfg == e.cfg
    ensures SameReceived(e, SendRst(e)) && SendRst(e).state == e.state
  {
    hide Tiles, Wrap, Trail, PacketOk, UsableWindow, Emit, KarnOk, Tally, AllAck;
    RstOk(e, e.snd.nxt, peer);
    if Active(e.state) { EmitTally(e, e.snd.nxt, RST, [], false); }
    EmitTouches(e, e.snd.nxt, RST, [], false);
  }

  /** An emission touches the advertised edge and the wire. */
  lemma EmitTouches(e: Engine, sn: u32, flags: Flags, payload: seq<byte>, withMss: bool)
    ensures var f := Emit(e, sn, flags, payload, withMss);
            f == e.(rcv := e.rcv.(zeroWin := f.rcv.zeroWin, advRight := f.rcv.advRight), wire := f.wire)
  {
  }

  lemma ErrorTrail(e: Engine, why: ErrorSignal, peer: Option<u32>)
    requires Closable(e, peer)
    ensures Closable(SignalError(e, why), peer)
  {
    hide Tiles, Wrap, Trail, PacketOk, UsableWindow, KarnOk;
    TrailPush(e.signals, e.state, Error(why));
  }

  ghost predicate Drops(e: Engine, f: Engine, peer: Option<u32>) {
    && Inv(f, peer) && Continues(e, f) && f.state == CLOSED
    && f.hist == e.hist.(sent := f.hist.sent, finOut := f.hist.finOut) && SameReceived(e, f)
  }

  lemma GiveUpOk(e: Engine, why: ErrorSignal, peer: Option<u32>)
    requires Closable(e, peer)
    ensures Drops(e, GiveUp(e, why), peer)
  {
    hide Closable, SendRst, EnterClosed, Inv, Grows, SignalError;
    SendRstOk(e, peer);
    ErrorTrail(SendRst(e), why, peer);
    EnterClosedOk(SignalError(SendRst(e), why), peer);
    SignalErrorTouches(SendRst(e), why);
  }

  lemma SignalErrorTouches(e: Engine, why: ErrorSignal)
    ensures SignalError(e, why).hist == e.hist && SignalError(e, why).cfg == e.cfg && SignalError(e, why).state == e.state
    ensures SignalError(e, why).rcv == e.rcv
  {
  }

  lemma BackToListenOk(e: Engine, peer: Option<u32>)
    requires AckTimed(e.tm)
    requires Closable(e, peer) && e.state == SYN_RECEIVED && e.passive && OnlySyn(e) && e.hist.delivered == []
    requires e.hist.fins == 0 && !e.hist.finOut && e.tm.tw == None && e.tm.ack == None && e.tm.ka == None
    ensures var f := BackToListen(e); Inv(f, peer) && Continues(e, f) && f.state == LISTEN && f.hist.unaPos == 0
                                      && SameReceived(e, f)
  {
    hide Tiles, Wrap, Trail, PacketOk, UsableWindow, SetState, KarnOk;
    SetStateIs(e, LISTEN);
    WireGrows(e, BackToListen(e), peer);
  }

  lemma DoResetOk(e: Engine, peer: Option<u32>)
    requires Inv(e, peer) && Synced(e.state)
    ensures var f := DoReset(e); Inv(f, peer) && Continues(e, f) && f.hist.unaPos == e.hist.unaPos
                                 && (f.state == CLOSED || f.state == LISTEN) && SameReceived(e, f)
  {
    hide EnterClosed, BackToListen, SignalError, Tiles, Wrap, Trail, PacketOk, UsableWindow, KarnOk;
    if e.state == SYN_RECEIVED && e.passive {
      BackToListenOk(e, peer);
    } else {
      var why := if e.state == SYN_RECEIVED then ConnectionRefused else ConnectionReset;
      ErrorTrail(e, why, peer);
      SignalErrorTouches(e, why);
      EnterClosedOk(SignalError(e, why), peer);
    }
  }

  // ---------------------------------------------------------------------------------------------
  // TIME-WAIT and the peer's FIN
  // ---------------------------------------------------------------------------------------------

  /** Everything `Inv` says of a synchronized connection, except that nothing is left to send. */
  ghost predicate Running(e: Engine, peer: Option<u32>) {
    Live(e, peer) && RtLive(e) && Synced(e.state) && Coupled(e)
  }

  lemma RunningIsInv(e: Engine, peer: Option<u32>)
    requires Running(e, peer) && AwaitsFinAck(e) && Settled(e)
    ensures Inv(e, peer)
  {
    hide Tiles, Wrap, Trail, PacketOk, UsableWindow, Coupled, Knows, KarnOk;
  }

  lemma EnterTimeWaitIs(e: Engine)
    requires Trail(e.signals, e.state) && (e.state == CLOSING || e.state == FIN_WAIT_2)
    ensures var f := EnterTimeWait(e);
            && f == e.(state := TIME_WAIT, signals := f.signals,
                       tm := e.tm.(rt := None, rtoCount := 0, persist := None, ka := f.tm.ka, kaProbes := f.tm.kaProbes,
                                   tw := Later(e.tm, 2.0 * e.cfg.timers.msl)))
            && Trail(f.signals, TIME_WAIT) && (f.tm.ka.Some? ==> e.tm.ka.Some?)
  {
    hide Trail, SetState, PumpData;
    SetStateIs(CancelPersist(StopRt(e)), TIME_WAIT);
  }

  lemma EnterTimeWaitOk(e: Engine, peer: Option<u32>)
    requires AckTimed(e.tm)
    requires Live(e, peer) && RtLive(e) && (e.state == CLOSING || e.state == FIN_WAIT_2) && e.snd.finAcked
    requires e.hist.fins > 0 && e.rcv.peerFin && e.hist.started && e.tm.ka == None
    ensures var f := EnterTimeWait(e); Inv(f, peer) && f.state == TIME_WAIT && f.hist == e.hist && f.cfg == e.cfg
                                       && f.rcv == e.rcv
  {
    hide Tiles, Wrap, Trail, PacketOk, EnterTimeWait, UsableWindow, KarnOk;
    TilesEmpty(e.snd.retx, e.snd.iss, e.hist.unaPos, e.hist);
    EnterTimeWaitIs(e);
  }

  /** A FIN taken in `e.state` moves to `to`. */
  lemma FinMoves(e: Engine, to: ConnState, peer: Option<u32>)
    requires AckTimed(e.tm)
    requires Live(e, peer) && RtLive(e) && AwaitsFinAck(e) && Settled(e)
    requires (e.state == ESTABLISHED && to == CLOSE_WAIT) || (e.state == FIN_WAIT_1 && to == CLOSING)
             || (e.state == to && (to == CLOSE_WAIT || to == CLOSING || to == LAST_ACK))
    requires e.hist.fins > 0 && e.rcv.peerFin && e.hist.started && e.tm.tw == None
    requires e.tm.ka.Some? ==> e.state == ESTABLISHED
    requires e.hist.finOut == FinSentIn(e.state) && (e.state == ESTABLISHED || e.state == CLOSE_WAIT ==> e.hist.unaPos >= 1)
    ensures Inv(SetState(e, to), peer)
  {
    hide Tiles, Wrap, Trail, PacketOk, SetState, S32, Sub, Add, KarnOk;
    SetStateIs(e, to);
  }

  /** The peer's FIN in sequence: taken, acknowledged, and the state moved on. */
  lemma ProcessFinOk(e: Engine, peer: Option<u32>)
    requires Running(e, peer) && AwaitsFinAck(e) && Settled(e) && e.state != SYN_RECEIVED && e.state != TIME_WAIT
    ensures var f := ProcessFin(e);
            && Inv(f, peer) && Synced(f.state) && f.state != SYN_RECEIVED && f.cfg == e.cfg
            && f.hist == e.hist.(fins := e.hist.fins + 1) && f.rcv.pendingFin == None
            && f.rcv.ooo == e.rcv.ooo && f.rcv.irs == e.rcv.irs
  {
    hide Live, Trail, SetState, EnterTimeWait, SendAck, S32, Sub, Inv;
    TakeFinLive(e, peer);
    var f := SendAck(TakeFin(e));
    LiveTrail(f, peer);
    match f.state
    case ESTABLISHED => FinMoves(f, CLOSE_WAIT, peer); SetStateIs(f, CLOSE_WAIT);
    case FIN_WAIT_1 => FinMoves(f, CLOSING, peer); SetStateIs(f, CLOSING);
    case FIN_WAIT_2 => EnterTimeWaitOk(f, peer); EnterTimeWaitIs(f);
    case _ => FinMoves(f, f.state, peer); SetStateSame(f);
  }

  lemma LiveTrail(e: Engine, peer: Option<u32>)
    requires Live(e, peer)
    ensures Trail(e.signals, e.state)
  {
    hide SendOk, WireOk, Trail, Knows;
  }

  // ---------------------------------------------------------------------------------------------
  // What the invariant does not look at
  // ---------------------------------------------------------------------------------------------

  /** `f` differs from `e` only in ports, wire, estimator, clock, counters, keepalive, advertised edge and drained data. */
  predicate LooksAlike(e: Engine, f: Engine) {
    && f == e.(localPort := f.localPort, remotePort := f.remotePort, wire := f.wire, rtt := f.rtt, tm := f.tm,
               rcv := e.rcv.(zeroWin := f.rcv.zeroWin, advRight := f.rcv.advRight, buf := f.rcv.buf))
    && (e.rcv.buf == [] ==> f.rcv.buf == [])
    && f.tm.rt == e.tm.rt && f.tm.persist == e.tm.persist && f.tm.tw == e.tm.tw && f.tm.ack == e.tm.ack
    && f.tm.ackCount == e.tm.ackCount && f.tm.unaSince == e.tm.unaSince
    && (f.tm.ka.Some? ==> e.tm.ka.Some? || e.state == ESTABLISHED)
  }

  lemma SettledAlike(e: Engine, f: Engine)
    requires LooksAlike(e, f) && Settled(e)
    ensures Settled(f)
  {
    assert UsableWindow(f) == UsableWindow(e);
  }

  lemma CoupledAlike(e: Engine, f: Engine)
    requires LooksAlike(e, f) && Coupled(e)
    ensures Coupled(f)
  {
  }

  lemma SendAlike(e: Engine, f: Engine, peer: Option<u32>)
    requires LooksAlike(e, f)
    ensures SendOk(e) && Tally(f.snd.retx, f.wire, f.hist.since) ==> SendOk(f)
    ensures Knows(e, peer) ==> Knows(f, peer)
  {
    hide Tiles, Wrap, KarnOk, Tally, AllAck;
  }

  lemma InvLooksAway(e: Engine, f: Engine, peer: Option<u32>)
    requires Inv(e, peer) && LooksAlike(e, f) && WireOk(f, peer)
    requires Active(e.state) ==> Tally(f.snd.retx, f.wire, f.hist.since)
    ensures Inv(f, peer)
  {
    hide Tally, SendOk, WireOk, Trail, Knows, Coupled, Settled;
    SendAlike(e, f, peer);
    CoupledAlike(e, f);
    SettledAlike(e, f);
  }

  lemma SameWire(e: Engine, f: Engine, peer: Option<u32>)
    requires Inv(e, peer) && f.wire == e.wire && f.cfg == e.cfg && f.hist == e.hist
    ensures WireOk(f, peer)
    ensures Active(e.state) && f.snd.retx == e.snd.retx ==> Tally(f.snd.retx, f.wire, f.hist.since)
  {
    hide Tiles, KarnOk, Tally, Trail, Knows, Coupled, Settled, PacketOk, Ordered;
  }
}
