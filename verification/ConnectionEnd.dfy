/** Ending a connection: a CLOSE is kept until its FIN is out, and that comes after everything handed over; and whoever gives
    a connection up tells the peer. */
module ConnectionEnd {
  import opened SeqNum
  import opened EngineState
  import opened EngineSpec
  import opened EngineFacts
  import opened SendInvariant
  import opened SendPath
  import opened EngineInvariant
  import opened EngineRuns
  import opened HonestPeer
  import opened RunTheorems
  import opened WireLog
  import opened Resets
  import opened Reassembly
  import U = UserCalls

  // ---------------------------------------------------------------------------------------------
  // CLOSE
  // ---------------------------------------------------------------------------------------------

  /** What a CLOSE asked for has come to: the FIN is out, or waits with what is before it, with a timer that will wake it; in
      SYN-RECEIVED data waits for the connection first. */
  predicate Ending(f: Engine) {
    f.snd.finPending && (f.snd.finSent || (HasWork(f) && Woken(f)) || (f.state == SYN_RECEIVED && f.snd.appBuf != []))
  }

  /** The FIN follows all that was accepted. */
  lemma FinAfterAll(e: Engine, i: nat)
    requires Reached(e) && Active(e.state)
    ensures e.snd.finSent ==> e.snd.finPending && e.hist.sent == e.hist.accepted
    ensures i < |e.wire| && e.wire[i].seg.flags.fin && !e.wire[i].seg.flags.rst ==>
              e.wire[i].pos + |e.wire[i].seg.payload| == 1 + |e.hist.accepted|
  {
    hide Reached, Tiles, Trail, Coupled, Settled, Wrap, KarnOk, Tally, AllAck;
    ReachedInv(e);
    assert e.hist.sent + [] == e.hist.sent;
    if i < |e.wire| { assert PacketOk(e.wire[i], e.cfg.iss, e.hist, None); }
  }

  lemma EndingStill(f: Engine)
    requires Reached(f) && f.snd.finPending && Active(f.state) && f.state != SYN_SENT
    ensures Ending(f)
  {
    hide Reached, Woken, Inv;
    NoLostWakeup(f);
    ReachedInv(f);
    OutIn(f);
  }

  lemma OutIn(f: Engine)
    requires Inv(f, None) && Active(f.state)
    ensures f.snd.finSent == FinSentIn(f.state)
  {
    hide Tiles, WireOk, Trail, Settled, Wrap, KarnOk, Tally, AllAck;
  }

  /** CLOSE is refused without a connection or when one is ended already. It drops a connection that is not opened yet. Any
      other it asks to end: all that was accepted stays, and then the FIN goes out or waits as it may. */
  lemma CloseAsksForFin(e: Engine, now: real)
    requires Reached(e)
    ensures var f, r := Step(e, now, CloseCalled), Close(At(e, now)).1;
            && (r.Refused? <==> e.state == CLOSED || (Active(e.state) && FinSentIn(e.state)))
            && (r.Refused? ==> f == At(e, now) && r.why == if e.state == CLOSED then DoesNotExist else Closing)
            && (r.Done? && (e.state == LISTEN || e.state == SYN_SENT) ==> f.state == CLOSED)
            && (r.Done? && Synced(e.state) ==>
                  Ending(f) && f.hist.accepted == e.hist.accepted && (f.state == e.state || (f.snd.finSent && f.state == FinState(e.state))))
  {
    hide Reached, Ending, SendPending, EnterClosed;
    var a := At(e, now);
    var f := a.(snd := a.snd.(finPending := true));
    ClosedIsClosed(a);
    SendOnlySends(f);
    ReachedOn(e, now, CloseCalled);
    if Synced(e.state) && !IsClosing(e.state) {
      EndingStill(SendPending(f));
      ReachedInv(SendPending(f));
      OutIn(SendPending(f));
    }
  }

  /** A CLOSE asked for is not forgotten as long as there is the connection, whatever happens. */
  lemma CloseIsKept(e: Engine, now: real, ev: Event)
    requires Reached(e) && Synced(e.state) && e.snd.finPending && Allowed(e, ev) && Active(Step(e, now, ev).state)
    ensures Ending(Step(e, now, ev))
  {
    hide Reached, Inv, Step, Ending, U.Hands, U.Closes;
    var f := Step(e, now, ev);
    ReachedOn(e, now, ev);
    ReachedInv(e);
    StepOk(e, now, ev, None);
    assert f.snd.finPending by {
      if ev.SendCalled? || ev.ReceiveCalled? {
        CallsKeepClose(e, now, ev);
      } else {
        U.OtherHands(e, now, ev);
        HandedOrNot(e, f, U.WhyClosed(e, now, ev));
      }
    }
    EndingStill(f);
  }

  lemma HandedOrNot(e: Engine, f: Engine, why: seq<Signal>)
    requires U.HandsOrCloses(e, f, why) || U.Hands(e, f)
    requires Active(f.state) && e.snd.finPending
    ensures f.snd.finPending
  {
  }

  lemma CallsKeepClose(e: Engine, now: real, ev: Event)
    requires (ev.SendCalled? || ev.ReceiveCalled?) && e.snd.finPending && e.state != CLOSED
    ensures Step(e, now, ev).snd.finPending
  {
    hide SendAck, RcvWnd;
    var a := At(e, now);
    if ev.ReceiveCalled? {
      AckTouches(a.(rcv := a.rcv.(buf := a.rcv.buf[Min(ev.maxLen, |a.rcv.buf|)..], zeroWin := false)));
    }
  }

  // ---------------------------------------------------------------------------------------------
  // ABORT and giving up
  // ---------------------------------------------------------------------------------------------

  /** The first packet from `x` to `f` is a reset at SND.NXT, for the peer. */
  predicate SendsReset(x: Engine, f: Engine) {
    && |f.wire| > |x.wire| && f.wire[..|x.wire|] == x.wire
    && var r := OffWire(f.wire[|x.wire|].seg);
       r.flags == RST && r.payload == [] && r.seqNo == x.snd.nxt && r.dstPort == x.remotePort && r.window < 0x1_0000
  }

  lemma DropsWithReset(x: Engine, a: Engine, g: Engine)
    requires a == x.(tm := a.tm) && SendsRstOnAbort(x.state) && g.wire == SendRst(a).wire
    ensures SendsReset(x, EnterClosed(g))
  {
    hide EnterClosed, RcvWnd, AdvertisedRight, PosOf, Reach;
    CloseAppends(g);
    assert g.wire[..|x.wire|] == x.wire;
    assert EnterClosed(g).wire[|x.wire|] == g.wire[|x.wire|];
  }

  /** States in which the peer may still be sending, and is told. */
  predicate PeerIsTold(s: ConnState) { Synced(s) && s != CLOSING && s != LAST_ACK && s != TIME_WAIT }

  /** The events with which an engine drops the connection by itself. */
  predicate DropsIt(ev: Event) { ev.AbortCalled? || ev.RtoFires? || ev.KeepaliveFires? }

  /** Whenever an engine gives a connection up by itself, by ABORT, by a timeout or because its peer is found dead, it tells
      the peer with a reset, unless it is not synchronized or both FINs are on their way. */
  lemma GivingUpSendsReset(x: Engine, now: real, ev: Event)
    requires DropsIt(ev) && PeerIsTold(x.state) && Step(x, now, ev).state == CLOSED
    ensures SendsReset(x, Step(x, now, ev))
  {
    hide EnterClosed, SendRst, SendsReset, Retransmit, Emit, RestartKeepalive;
    var a := At(x, now);
    match ev
    case AbortCalled => DropsWithReset(x, a, SendRst(a));
    case RtoFires =>
      var f := a.(tm := a.tm.(rt := None));
      var g := f.(tm := f.tm.(rtoCount := f.tm.rtoCount + 1));
      DropsWithReset(x, f, SignalError(SendRst(f), UserTimeout));
      DropsWithReset(x, g, SignalError(SendRst(g), RetransmissionTimeout));
      if g.snd.retx != [] { StaysOpen(g); }
    case KeepaliveFires =>
      var f := a.(tm := a.tm.(ka := None));
      DropsWithReset(x, f, SignalError(SendRst(f), KeepaliveTimeout));
      ProbeStaysOpen(f);
  }

  lemma StaysOpen(e: Engine)
    requires e.snd.retx != []
    ensures Retransmit(e).state == e.state
  {
    hide RcvWnd, AdvertisedRight, PosOf, Reach;
  }

  lemma ProbeStaysOpen(e: Engine)
    ensures RestartKeepalive(e, false).state == e.state
    ensures var g := Emit(e, Sub(e.snd.una, 1), ACK, [], false);
            RestartKeepalive(g.(tm := g.tm.(kaProbes := g.tm.kaProbes + 1)), false).state == e.state
  {
    hide RcvWnd, AdvertisedRight, PosOf, Reach;
  }

  /** That reset reaches a peer that has received all that was sent: its side is closed too, and it is told. */
  lemma GivingUpReachesPeer(x: Engine, y: Engine, now: real, ev: Event, later: real)
    requires DropsIt(ev) && PeerIsTold(x.state) && Step(x, now, ev).state == CLOSED
    requires Reached(y) && Synced(y.state) && y.state != TIME_WAIT && y.cfg.rcvWnd < QUARTER
    requires y.rcv.nxt == x.snd.nxt && (y.localPort == 0 || x.remotePort == 0 || x.remotePort == y.localPort)
    ensures var a := Step(x, now, ev);
            && |a.wire| > |x.wire|
            && var b := Step(y, later, Arrives(OffWire(a.wire[|x.wire|].seg)));
               b.state == ResetTo(y) && Errors(b.signals) == Errors(y.signals) + U.Reported(y)
  {
    hide Reached, Step, RcvWnd;
    GivingUpSendsReset(x, now, ev);
    ResetHonouredExactly(y, later, OffWire(Step(x, now, ev).wire[|x.wire|].seg));
  }

  /** ABORT is refused without a connection; else it drops it. */
  lemma AbortDrops(e: Engine, now: real)
    ensures Step(e, now, AbortCalled).state == CLOSED && (Abort(At(e, now)).1.Refused? <==> e.state == CLOSED)
  {
    hide EnterClosed, SendRst;
    ClosedIsClosed(SendRst(At(e, now)));
  }
}
