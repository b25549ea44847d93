/** Runs of one engine: user calls, arriving segments and timers, in any order. The invariant holds after
    every step of every run, whatever the peer sends. */
module EngineRuns {
  import opened SeqNum
  import opened EngineState
  import opened EngineSpec
  import opened EngineFacts
  import opened SendInvariant
  import opened SendPath
  import opened AckPath
  import opened RecvPath
  import opened EngineInvariant
  import opened SegmentArrives
  import opened Opening

  datatype Event =
    | OpenCalled(active: bool, remotePort: Option<u16>, localPort: Option<u16>, timeout: Option<real>)
    | SendCalled(data: seq<byte>, sendTimeout: Option<real>)
    | ReceiveCalled(maxLen: nat)
    | CloseCalled
    | AbortCalled
    | Arrives(seg: Segment)
    | RtoFires
    | PersistFires
    | TimeWaitFires
    | DelackFires
    | KeepaliveFires

  function React(e: Engine, ev: Event): Engine {
    match ev
    case OpenCalled(a, r, l, t) => OpenCall(e, a, r, l, t).0
    case SendCalled(d, t) => Send(e, d, t).0
    case ReceiveCalled(n) => Receive(e, n).0
    case CloseCalled => Close(e).0
    case AbortCalled => Abort(e).0
    case Arrives(seg) => OnSegment(e, seg)
    case RtoFires => OnRto(e)
    case PersistFires => OnPersist(e)
    case TimeWaitFires => OnTimeWait(e)
    case DelackFires => OnDelack(e)
    case KeepaliveFires => OnKeepalive(e)
  }

  function At(e: Engine, now: real): Engine { e.(tm := e.tm.(now := now)) }

  /** One entry point called at time `now`. */
  function Step(e: Engine, now: real, ev: Event): Engine { React(At(e, now), ev) }

  /** What may happen next: one connection per engine, only live timers fire, segments come off the wire (a
      16-bit window), and unanswered one-byte probes do not fill half the sequence space. */
  predicate Allowed(e: Engine, ev: Event) {
    match ev
    case OpenCalled(_, _, _, _) => e.state == CLOSED ==> !e.hist.started
    case Arrives(seg) => seg.window < 0x1_0000
    case RtoFires => e.tm.rt.Some?
    case PersistFires => e.tm.persist.Some? && SentEnd(e.hist) + 1 < e.hist.unaPos + HALF
    case TimeWaitFires => e.tm.tw.Some?
    case DelackFires => e.tm.ack.Some?
    case KeepaliveFires => e.tm.ka.Some?
    case _ => true
  }

  ghost predicate Keeps(e: Engine, f: Engine, peer: Option<u32>) {
    Inv(f, peer) && Continues(e, f) && f.hist.unaPos <= e.hist.unaPos && SameReceived(e, f)
  }

  // ---------------------------------------------------------------------------------------------
  // User calls
  // ---------------------------------------------------------------------------------------------

  lemma ClockOk(e: Engine, now: real, peer: Option<u32>)
    requires Inv(e, peer)
    ensures Inv(At(e, now), peer)
  {
    hide Inv, WireOk;
    SameWire(e, At(e, now), peer);
    InvLooksAway(e, At(e, now), peer);
  }

  lemma BindOk(e: Engine, l: u16, r: u16, t: Option<real>, peer: Option<u32>)
    requires Inv(e, peer)
    ensures Inv(e.(localPort := l, remotePort := r, tm := e.tm.(userTimeout := t)), peer)
  {
    hide Inv, WireOk;
    var f := e.(localPort := l, remotePort := r, tm := e.tm.(userTimeout := t));
    SameWire(e, f, peer);
    InvLooksAway(e, f, peer);
  }

  lemma PassiveOpenOk(e: Engine, peer: Option<u32>)
    requires Inv(e, peer) && e.state == CLOSED && !e.hist.started
    ensures Keeps(e, PassiveOpen(e).0, peer)
  {
    hide Tiles, Wrap, Trail, PacketOk, S32, Sub, Add, SetState, KarnOk;
    var g := e.(passive := true, hist := e.hist.(started := true));
    WireGrows(e, g, peer);
    SetStateIs(g, LISTEN);
  }

  lemma OpenCallOk(e: Engine, active: bool, r: Option<u16>, l: Option<u16>, t: Option<real>, peer: Option<u32>)
    requires Inv(e, peer) && (e.state == CLOSED ==> !e.hist.started)
    ensures Keeps(e, OpenCall(e, active, r, l, t).0, peer)
  {
    hide Inv, PassiveOpen, EngineSpec.Open;
    var f := e.(remotePort := if r.Some? then r.value else e.remotePort,
                localPort := if l.Some? then l.value else e.localPort,
                tm := e.tm.(userTimeout := if t.Some? then t else e.tm.userTimeout));
    BindOk(e, f.localPort, f.remotePort, f.tm.userTimeout, peer);
    assert Inv(f, peer);
    if active {
      if f.state == CLOSED || f.state == LISTEN { OpenOk(f, peer); OpenFromNothing(f, peer); }
    } else {
      if f.state == CLOSED { PassiveOpenOk(f, peer); } else { PassiveOpenRefused(f); }
    }
  }

  lemma PassiveOpenRefused(e: Engine)
    requires e.state != CLOSED
    ensures PassiveOpen(e).0 == e
  {
  }

  lemma OpenFromNothing(e: Engine, peer: Option<u32>)
    requires Inv(e, peer) && (e.state == CLOSED || e.state == LISTEN) && (e.state == CLOSED ==> !e.hist.started)
    ensures e.hist.unaPos == 0 && Unreceived(e)
  {
    hide Tiles, Wrap, Trail, PacketOk, S32, Sub, Add, KarnOk;
  }

  lemma BufferOk(e: Engine, data: seq<byte>, t: Option<real>, peer: Option<u32>)
    requires Inv(e, peer) && e.state != CLOSED && !IsClosing(e.state) && !e.snd.finPending
    ensures var f := Buffer(e.(tm := e.tm.(userTimeout := t)), data);
            && WireOk(f, peer) && Trail(f.signals, f.state) && f.hist.sent <= f.hist.accepted
            && (Active(f.state) ==> SendOk(f) && RtLive(f)) && (Synced(f.state) ==> Knows(f, peer))
            && Coupled(f) && AwaitsFinAck(f) && Continues(e, f)
            && f.hist == e.hist.(accepted := f.hist.accepted) && f.state == e.state
            && (e.state != ESTABLISHED && e.state != CLOSE_WAIT ==> Inv(f, peer))
  {
    hide SendOk, WireOk, Trail, S32, Sub, Add, UsableWindow;
    var f := Buffer(e.(tm := e.tm.(userTimeout := t)), data);
    assert WireOk(f, peer) by { BufferedWire(e, data, t, peer); }
    if Active(e.state) { BufferedSendOk(e, data, t); }
  }

  lemma BufferedWire(e: Engine, data: seq<byte>, t: Option<real>, peer: Option<u32>)
    requires WireOk(e, peer)
    ensures var f := Buffer(e.(tm := e.tm.(userTimeout := t)), data);
            WireOk(f, peer) && (e.hist.sent <= e.hist.accepted ==> f.hist.sent <= f.hist.accepted)
  {
    hide PacketOk;
    WireGrows(e, Buffer(e.(tm := e.tm.(userTimeout := t)), data), peer);
  }

  lemma BufferedSendOk(e: Engine, data: seq<byte>, t: Option<real>)
    requires SendOk(e) && !e.snd.finPending
    ensures SendOk(Buffer(e.(tm := e.tm.(userTimeout := t)), data))
  {
    hide Wrap, S32, Sub, Add, EntryOk, KarnOk, Tally, AllAck;
    var f := Buffer(e.(tm := e.tm.(userTimeout := t)), data);
    TilesSame(e.snd.retx, e.snd.iss, e.hist.unaPos, e.hist, f.hist);
    assert e.hist.sent + (e.snd.appBuf + data) == (e.hist.sent + e.snd.appBuf) + data;
  }

  lemma SendCallOk(e: Engine, data: seq<byte>, t: Option<real>, peer: Option<u32>)
    requires Inv(e, peer)
    ensures Keeps(e, Send(e, data, t).0, peer)
  {
    hide Inv, EngineSpec.Open, SendPending, Buffer, SendOk, WireOk, Trail, Knows, RtLive, Settled, Coupled;
    if e.state != CLOSED && !IsClosing(e.state) && !e.snd.finPending {
      var to := if t.Some? then t else e.tm.userTimeout;
      BufferOk(e, data, to, peer);
      var f := Buffer(e.(tm := e.tm.(userTimeout := to)), data);
      BufferTouches(e, to, data);
      if e.state == LISTEN {
        OpenFromNothing(f, peer);
        if e.remotePort != 0 { OpenOk(f, peer); }
      } else if e.state == ESTABLISHED || e.state == CLOSE_WAIT {
        SendingKeeps(f, peer);
      }
    }
  }

  lemma SendingKeeps(e: Engine, peer: Option<u32>)
    requires Running(e, peer) && AwaitsFinAck(e) && TextOpen(e.state)
    ensures Keeps(e, SendPending(e), peer)
  {
    hide SendPending, Inv, Live, RtLive, Settled, Coupled;
    RunningSends(e, peer);
    RunningIsInv(SendPending(e), peer);
  }

  lemma BufferTouches(e: Engine, to: Option<real>, data: seq<byte>)
    ensures var f := Buffer(e.(tm := e.tm.(userTimeout := to)), data);
            f.remotePort == e.remotePort && f.rcv == e.rcv
  {
  }

  lemma DrainOk(e: Engine, n: nat, zeroWin: bool, peer: Option<u32>)
    requires Inv(e, peer) && n <= |e.rcv.buf|
    ensures Inv(e.(rcv := e.rcv.(buf := e.rcv.buf[n..], zeroWin := zeroWin)), peer)
  {
    hide Inv, WireOk;
    var f := e.(rcv := e.rcv.(buf := e.rcv.buf[n..], zeroWin := zeroWin));
    SameWire(e, f, peer);
    InvLooksAway(e, f, peer);
  }

  lemma ReceiveOk(e: Engine, maxLen: nat, peer: Option<u32>)
    requires Inv(e, peer)
    ensures Keeps(e, Receive(e, maxLen).0, peer)
  {
    hide Inv, SendAck, RcvWnd;
    var n := Min(maxLen, |e.rcv.buf|);
    DrainOk(e, n, e.rcv.zeroWin, peer);
    DrainOk(e, n, false, peer);
    if n > 0 && e.state != CLOSED {
      BufferedMeansSynced(e, peer);
      AckKeepsInv(e.(rcv := e.rcv.(buf := e.rcv.buf[n..], zeroWin := false)), peer);
    }
  }

  lemma BufferedMeansSynced(e: Engine, peer: Option<u32>)
    requires Inv(e, peer) && e.rcv.buf != [] && e.state != CLOSED
    ensures Synced(e.state)
  {
    hide Tiles, Wrap, Trail, PacketOk, S32, Sub, Add, KarnOk;
  }

  lemma CloseOk(e: Engine, peer: Option<u32>)
    requires Inv(e, peer)
    ensures Keeps(e, Close(e).0, peer)
  {
    hide Inv, EnterClosed, SendPending, Closable, SendOk, WireOk, Trail, Knows, RtLive, Settled;
    if e.state == LISTEN || e.state == SYN_SENT {
      InvClosable(e, peer);
      EnterClosedOk(e, peer);
    } else if e.state != CLOSED && !IsClosing(e.state) {
      var f := e.(snd := e.snd.(finPending := true));
      FinRequested(e, peer);
      if e.state == SYN_RECEIVED { SynRcvdFin(f, peer); }
      else {
        SendingKeeps(f, peer);
      }
    }
  }

  lemma FinRequested(e: Engine, peer: Option<u32>)
    requires Inv(e, peer) && (e.state == SYN_RECEIVED || e.state == ESTABLISHED || e.state == CLOSE_WAIT)
    ensures var f := e.(snd := e.snd.(finPending := true));
            Running(f, peer) && AwaitsFinAck(f) && f.hist == e.hist && f.cfg == e.cfg
  {
    hide Tiles, Wrap, Trail, PacketOk, S32, Sub, Add, KarnOk, Tally, AllAck;
  }

  lemma SynRcvdFin(e: Engine, peer: Option<u32>)
    requires Running(e, peer) && AwaitsFinAck(e) && e.state == SYN_RECEIVED && e.snd.finPending
    ensures Keeps(e, SendPending(e), peer)
  {
    hide Tiles, Wrap, Trail, PacketOk, PumpData, S32, Sub, Add, KarnOk;
    SendPendingOk(e, peer);
    PersistOnlyForFin(e);
    var f := SendPending(e);
    if MaySend(e) {
      assert e.hist.sent == e.hist.sent + e.snd.appBuf == f.hist.sent + f.snd.appBuf;
      assert f.hist.sent == e.hist.sent;
    }
  }

  /** In SYN-RECEIVED the send path only ever works on a FIN with nothing queued before it. */
  lemma PersistOnlyForFin(e: Engine)
    requires e.state == SYN_RECEIVED
    ensures SendPending(e).tm.persist.Some? ==> e.tm.persist.Some? || (e.snd.finPending && e.snd.appBuf == [])
    ensures e.snd.appBuf == [] ==> SendPending(e).snd.appBuf == []
  {
    hide QueueAndSend, SetState, UsableWindow;
    if MaySend(e) { FinLeavesBuffer(e); }
  }

  lemma AbortOk(e: Engine, peer: Option<u32>)
    requires Inv(e, peer)
    ensures Keeps(e, Abort(e).0, peer)
  {
    hide Inv, EnterClosed, SendRst, Closable;
    if e.state != CLOSED {
      InvClosable(e, peer);
      SendRstOk(e, peer);
      EnterClosedOk(SendRst(e), peer);
    }
  }

  // ---------------------------------------------------------------------------------------------
  // Timers
  // ---------------------------------------------------------------------------------------------

  /** A timer callback has started: its handle is gone. */
  lemma RtoStarts(e: Engine, count: nat, peer: Option<u32>)
    requires Inv(e, peer)
    ensures var f := e.(tm := e.tm.(rt := None, rtoCount := count));
            && (e.snd.retx == [] ==> Inv(f, peer))
            && (e.snd.retx != [] ==> Closable(f, peer) && Coupled(f) && Settled(f) && AwaitsFinAck(f)
                                     && SendOk(f) && WireOk(f, peer)
                                     && (Synced(f.state) ==> Knows(f, peer)) && Active(f.state) && f.tm.unaSince.Some?)
  {
    hide SendOk, Settled, WireOk, Trail, Coupled, Knows;
    var f := e.(tm := e.tm.(rt := None, rtoCount := count));
    TimersSettled(e, f);
    SameWire(e, f, peer);
    RtoIgnored(e, f, peer);
    assert e.snd.retx != [] ==> Active(e.state) && e.hist.started && e.rcv.peerFin == (e.hist.fins > 0) by { QueueActive(e); }
    if MaySend(f) { assert Synced(f.state); }
  }

  lemma QueueActive(e: Engine)
    requires Coupled(e)
    ensures e.snd.retx != [] ==> Active(e.state) && e.hist.started && e.rcv.peerFin == (e.hist.fins > 0)
  {
  }

  /** What does not look at the retransmission timer. */
  lemma RtoIgnored(e: Engine, f: Engine, peer: Option<u32>)
    requires f == e.(tm := e.tm.(rt := None, rtoCount := f.tm.rtoCount))
    ensures Coupled(e) ==> Coupled(f)
    ensures SendOk(e) ==> SendOk(f)
    ensures Knows(e, peer) ==> Knows(f, peer)
  {
    hide Tiles, Wrap, KarnOk, Tally, AllAck;
  }

  lemma TimersSettled(e: Engine, f: Engine)
    requires f == e.(tm := e.tm.(rt := None, rtoCount := f.tm.rtoCount)) && Settled(e)
    ensures Settled(f)
  {
    assert UsableWindow(f) == UsableWindow(e);
  }

  lemma RetransmitKeeps(e: Engine, peer: Option<u32>)
    requires SendOk(e) && WireOk(e, peer) && Trail(e.signals, e.state) && e.snd.retx != [] && Active(e.state) && e.tm.unaSince.Some?
    requires (Synced(e.state) ==> Knows(e, peer)) && Coupled(e) && Settled(e) && AwaitsFinAck(e)
    ensures Keeps(e, Retransmit(e), peer)
  {
    hide Tiles, Wrap, Trail, PacketOk, S32, Sub, Add, Retransmit, KarnOk, Tally, AllAck, WireOk;
    RetransmitOk(e, peer);
  }

  lemma OnRtoOk(e: Engine, peer: Option<u32>)
    requires Inv(e, peer)
    ensures Keeps(e, OnRto(e), peer)
  {
    hide GiveUp, Retransmit, Inv, Coupled, Settled, SendOk, WireOk, Knows, Trail, UserTimedOut;
    RtoStarts(e, e.tm.rtoCount, peer);
    RtoStarts(e, e.tm.rtoCount + 1, peer);
    var f := e.(tm := e.tm.(rt := None));
    if f.snd.retx != [] {
      var g := f.(tm := f.tm.(rtoCount := f.tm.rtoCount + 1));
      GiveUpOk(f, UserTimeout, peer);
      GiveUpOk(g, RetransmissionTimeout, peer);
      RetransmitKeeps(g, peer);
    }
  }

  lemma PersistStarts(e: Engine, peer: Option<u32>)
    requires Inv(e, peer)
    ensures var f := e.(tm := e.tm.(persist := None));
            && WireOk(f, peer) && Trail(f.signals, f.state) && Coupled(f) && AwaitsFinAck(f)
            && (Active(f.state) ==> SendOk(f) && RtLive(f)) && (Synced(f.state) ==> Running(f, peer))
            && (!MaySend(f) ==> Inv(f, peer))
            && (f.snd.appBuf == [] && !(f.snd.finPending && !f.snd.finSent) ==> Inv(f, peer))
  {
    hide Tiles, Wrap, Trail, PacketOk, S32, Sub, Add, KarnOk, Tally, AllAck, UsableWindow;
  }

  lemma ProbeOk(e: Engine, peer: Option<u32>)
    requires Running(e, peer) && AwaitsFinAck(e) && e.snd.appBuf != [] && e.snd.wnd == 0
    requires e.state == ESTABLISHED || e.state == CLOSE_WAIT
    requires SentEnd(e.hist) + 1 < e.hist.unaPos + HALF
    ensures Keeps(e, RearmPersist(SendChunk(e, 1)), peer)
  {
    hide Live, Inv, SendChunk, RtLive, Settled;
    assert Live(e, peer) by { RunningIsLive(e, peer); }
    SendChunkOk(e, 1, peer);
    ChunkSentCoupled(e, SendChunk(e, 1), peer);
    RearmedData(SendChunk(e, 1), peer);
  }

  lemma RunningIsLive(e: Engine, peer: Option<u32>)
    requires Running(e, peer)
    ensures Live(e, peer) && RtLive(e)
  {
    hide Live, Coupled;
  }

  lemma ChunkSentCoupled(e: Engine, f: Engine, peer: Option<u32>)
    requires Running(e, peer) && AwaitsFinAck(e) && Live(f, peer) && SendFrame(e, f) && RtLive(f)
    requires e.state == ESTABLISHED || e.state == CLOSE_WAIT
    requires f.state == e.state && f.hist.finOut == e.hist.finOut
    ensures Running(f, peer) && AwaitsFinAck(f)
  {
    hide Live, RtLive;
  }

  lemma RearmedData(f: Engine, peer: Option<u32>)
    requires Running(f, peer) && AwaitsFinAck(f) && (f.state == ESTABLISHED || f.state == CLOSE_WAIT) && f.snd.wnd == 0
    ensures Inv(RearmPersist(f), peer)
  {
    hide Tiles, Wrap, Trail, PacketOk, KarnOk;
  }

  lemma ProbeFinOk(e: Engine, peer: Option<u32>)
    requires Running(e, peer) && AwaitsFinAck(e) && e.snd.appBuf == [] && e.snd.finPending && !e.snd.finSent
    requires e.state == ESTABLISHED || e.state == CLOSE_WAIT || e.state == SYN_RECEIVED
    requires SentEnd(e.hist) + 1 < e.hist.unaPos + HALF
    ensures Keeps(e, RearmPersist(SendFin(e)), peer)
  {
    hide SendFin, Live, Inv, Settled;
    SendFinOk(e, peer);
    FinSentCoupled(e, SendFin(e), peer);
    Rearmed(SendFin(e), peer);
  }

  lemma FinSentCoupled(e: Engine, f: Engine, peer: Option<u32>)
    requires Running(e, peer) && AwaitsFinAck(e) && Live(f, peer) && SendFrame(e, f)
    requires e.state == ESTABLISHED || e.state == CLOSE_WAIT || e.state == SYN_RECEIVED
    requires f.state == FinState(e.state) && f.hist.finOut
    ensures Running(f, peer) && AwaitsFinAck(f) && !MaySend(f)
  {
    hide Tiles, Wrap, Trail, PacketOk, KarnOk;
  }

  lemma Rearmed(f: Engine, peer: Option<u32>)
    requires Running(f, peer) && AwaitsFinAck(f) && !MaySend(f) && f.state != SYN_RECEIVED
    ensures Inv(RearmPersist(f), peer)
  {
    hide Tiles, Wrap, Trail, PacketOk, KarnOk;
  }

  lemma OnPersistOk(e: Engine, peer: Option<u32>)
    requires Inv(e, peer) && e.tm.persist.Some? && SentEnd(e.hist) + 1 < e.hist.unaPos + HALF
    ensures Keeps(e, OnPersist(e), peer)
  {
    hide SendPending, SendChunk, SendFin, RearmPersist, Inv, Settled, Live, RtLive, WireOk, SendOk, Trail;
    PersistStarts(e, peer);
    PersistStates(e, peer);
    var f := e.(tm := e.tm.(persist := None));
    if f.snd.wnd > 0 {
      PersistSends(f, peer);
    } else if f.snd.appBuf != [] {
      ProbeOk(f, peer);
    } else if f.snd.finPending && !f.snd.finSent {
      ProbeFinOk(f, peer);
    }
  }

  lemma PersistSends(f: Engine, peer: Option<u32>)
    requires WireOk(f, peer) && Coupled(f) && AwaitsFinAck(f)
    requires Synced(f.state) ==> Running(f, peer)
    requires !MaySend(f) ==> Inv(f, peer)
    ensures Keeps(f, SendPending(f), peer)
  {
    hide PumpData, Inv, Settled, Live, RtLive, WireOk;
    if f.state == ESTABLISHED || f.state == CLOSE_WAIT {
      SendingKeeps(f, peer);
    } else if MaySend(f) {
      SynRcvdFin(f, peer);
    }
  }

  /** With the persist timer running there is data only where data may be sent. */
  lemma PersistStates(e: Engine, peer: Option<u32>)
    requires Inv(e, peer) && e.tm.persist.Some?
    ensures e.snd.appBuf != [] ==> e.state == ESTABLISHED || e.state == CLOSE_WAIT
    ensures e.snd.finPending && !e.snd.finSent ==>
              e.state == ESTABLISHED || e.state == CLOSE_WAIT || e.state == SYN_RECEIVED
  {
    hide Tiles, Wrap, Trail, PacketOk, S32, Sub, Add, KarnOk;
  }

  lemma OnTimeWaitOk(e: Engine, peer: Option<u32>)
    requires Inv(e, peer) && e.tm.tw.Some?
    ensures Keeps(e, OnTimeWait(e), peer)
  {
    hide Tiles, Wrap, Trail, PacketOk, S32, Sub, Add, EnterClosed, KarnOk;
    EnterClosedOk(e.(tm := e.tm.(tw := None)), peer);
  }

  lemma DelackIsAck(e: Engine)
    ensures OnDelack(e) == SendAck(e)
  {
    hide AdvertisedRight, PosOf, Reach, MakeSegment;
    var f := e.(tm := e.tm.(ack := None));
    EmitIgnoresTimer(e);
  }

  lemma EmitIgnoresTimer(e: Engine)
    ensures var f := e.(tm := e.tm.(ack := None));
            Emit(f, e.snd.nxt, ACK, [], false) == Emit(e, e.snd.nxt, ACK, [], false).(tm := f.tm)
  {
    var f := e.(tm := e.tm.(ack := None));
    assert RcvWnd(f) == RcvWnd(e);
  }

  lemma DelackSynced(e: Engine, peer: Option<u32>)
    requires Inv(e, peer) && e.tm.ack.Some?
    ensures Synced(e.state)
  {
    hide WireOk, Trail, Settled, SendOk;
  }

  lemma OnDelackOk(e: Engine, peer: Option<u32>)
    requires Inv(e, peer) && e.tm.ack.Some?
    ensures Keeps(e, OnDelack(e), peer)
  {
    hide Inv, SendAck;
    DelackIsAck(e);
    DelackSynced(e, peer);
    AckKeepsInv(e, peer);
  }

  lemma ProbePos(e: Engine)
    requires SendOk(e)
    ensures Sub(e.snd.una, 1) == Wrap(e.snd.iss + (e.hist.unaPos - 1))
  {
    hide Tiles, KarnOk;
    AddWraps(e.snd.iss, e.hist.unaPos, -1);
  }

  lemma NothingOut(e: Engine, peer: Option<u32>)
    requires Inv(e, peer) && Active(e.state) && e.snd.retx == []
    ensures e.hist.unaPos == SentEnd(e.hist)
  {
    hide Wrap, Trail, PacketOk, Settled;
    TilesEmpty(e.snd.retx, e.snd.iss, e.hist.unaPos, e.hist);
  }

  lemma KeepaliveProbeOk(e: Engine, peer: Option<u32>)
    requires Inv(e, peer) && e.state == ESTABLISHED && e.snd.retx == []
    ensures var g := Emit(e, Sub(e.snd.una, 1), ACK, [], false);
            Keeps(e, RestartKeepalive(g.(tm := g.tm.(kaProbes := g.tm.kaProbes + 1)), false), peer)
  {
    hide Tiles, Wrap, Trail, PacketOk, S32, Sub, Add, Emit, KarnOk, Inv, Coupled, Settled, RestartKeepalive;
    InvLive(e, peer);
    ProbePos(e);
    NothingOut(e, peer);
    EmitOk(e, e.hist.unaPos - 1, ACK, [], false, e.hist, peer);
    EmitTouches(e, Sub(e.snd.una, 1), ACK, [], false);
    LiveParts(e, peer);
    EmitTally(e, Sub(e.snd.una, 1), ACK, [], false);
    var g := Emit(e, Sub(e.snd.una, 1), ACK, [], false);
    ProbedOk(e, g, peer);
    var k := g.(tm := g.tm.(kaProbes := g.tm.kaProbes + 1));
    RestartTouches(k);
    KeepaliveTimer(k, RestartKeepalive(k, false).tm.ka, peer);
  }

  /** A probe touches the wire and the advertised edge, a count no invariant looks at, and nothing else. */
  lemma ProbedOk(e: Engine, g: Engine, peer: Option<u32>)
    requires Inv(e, peer) && WireOk(g, peer) && Tally(g.snd.retx, g.wire, g.hist.since)
    requires g == e.(rcv := e.rcv.(zeroWin := g.rcv.zeroWin, advRight := g.rcv.advRight), wire := g.wire)
    ensures Inv(g.(tm := g.tm.(kaProbes := g.tm.kaProbes + 1)), peer)
  {
    hide Inv;
    var f := g.(tm := g.tm.(kaProbes := g.tm.kaProbes + 1));
    hide Tally;
    WireGrows(g, f, peer);
    InvLooksAway(e, f, peer);
  }

  lemma RestartTouches(k: Engine)
    requires k.state == ESTABLISHED
    ensures RestartKeepalive(k, false) == k.(tm := k.tm.(ka := RestartKeepalive(k, false).tm.ka))
  {
  }

  lemma KeepaliveTimer(e: Engine, d: Option<real>, peer: Option<u32>)
    requires Inv(e, peer) && (d.Some? ==> e.state == ESTABLISHED)
    ensures Inv(e.(tm := e.tm.(ka := d)), peer)
  {
    hide Inv, WireOk;
    var f := e.(tm := e.tm.(ka := d));
    SameWire(e, f, peer);
    InvLooksAway(e, f, peer);
  }

  lemma RestartTouchesKa(e: Engine)
    ensures var f := RestartKeepalive(e, false); f == e.(tm := e.tm.(ka := f.tm.ka)) && (f.tm.ka.Some? ==> e.tm.ka.Some? || e.state == ESTABLISHED)
  {
  }

  lemma OnKeepaliveOk(e: Engine, peer: Option<u32>)
    requires Inv(e, peer)
    ensures Keeps(e, OnKeepalive(e), peer)
  {
    hide Inv, GiveUp, Emit, Closable, Coupled, RestartKeepalive;
    var f := e.(tm := e.tm.(ka := None));
    RestartTouchesKa(f);
    KeepaliveTimer(e, None, peer);
    if f.cfg.timers.keepaliveIdle.Some? && f.state == ESTABLISHED {
      InvClosable(f, peer);
      GiveUpOk(f, KeepaliveTimeout, peer);
      if f.snd.retx == [] { KeepaliveProbeOk(f, peer); }
      KeepaliveTimer(f, RestartKeepalive(f, false).tm.ka, peer);
    }
  }

  // ---------------------------------------------------------------------------------------------
  // Steps and runs
  // ---------------------------------------------------------------------------------------------

  predicate EventFrom(ev: Event, peer: Option<u32>) { ev.Arrives? ==> SynFrom(ev.seg, peer) }

  /** Every entry point keeps the invariant. */
  lemma StepOk(e: Engine, now: real, ev: Event, peer: Option<u32>)
    requires Inv(e, peer) && Allowed(e, ev) && EventFrom(ev, peer)
    ensures var f := Step(e, now, ev);
            && Inv(f, peer) && Continues(e, f)
            && (if ev.Arrives? then AckMoves(e, f, ev.seg) else Keeps(e, f, peer))
            && (f.state == SYN_SENT ==> !Synced(e.state))
  {
    hide Inv, OpenCall, Send, Receive, Close, Abort, OnSegment, OnRto, OnPersist, OnTimeWait, OnDelack, OnKeepalive;
    ClockOk(e, now, peer);
    var a := At(e, now);
    match ev
    case OpenCalled(act, r, l, t) => OpenCallOk(a, act, r, l, t, peer);
    case SendCalled(d, t) => SendCallOk(a, d, t, peer);
    case ReceiveCalled(n) => ReceiveOk(a, n, peer);
    case CloseCalled => CloseOk(a, peer);
    case AbortCalled => AbortOk(a, peer);
    case Arrives(seg) => OnSegmentOk(a, seg, peer);
    case RtoFires => OnRtoOk(a, peer);
    case PersistFires => OnPersistOk(a, peer);
    case TimeWaitFires => OnTimeWaitOk(a, peer);
    case DelackFires => OnDelackOk(a, peer);
    case KeepaliveFires => OnKeepaliveOk(a, peer);
  }

  /** A SYN that crosses ours. */
  predicate CrossingSyn(e: Engine, seg: Segment) {
    e.state == SYN_SENT && ForUs(e, seg) && seg.flags.syn && !seg.flags.ack && !seg.flags.rst
  }

  lemma ArrivalIs(e: Engine, now: real, seg: Segment)
    ensures Step(e, now, Arrives(seg)) == OnSegment(At(e, now), seg)
  {
    hide OnSegment;
  }

  /** A run: the engine after each of a sequence of timed events, all of them allowed. */
  function After(e: Engine, evs: seq<(real, Event)>): Engine
    decreases |evs|
  {
    if evs == [] then e else After(Step(e, evs[0].0, evs[0].1), evs[1..])
  }

  predicate AllowedRun(e: Engine, evs: seq<(real, Event)>)
    decreases |evs|
  {
    evs != [] ==> Allowed(e, evs[0].1) && AllowedRun(Step(e, evs[0].0, evs[0].1), evs[1..])
  }

  /** What holds against a known peer holds against any. */
  lemma AnyPeer(e: Engine, peer: Option<u32>)
    requires Inv(e, peer)
    ensures Inv(e, None)
  {
    hide Tiles, Trail, Coupled, Settled, Wrap, KarnOk, Tally;
    forall i | 0 <= i < |e.wire| ensures PacketOk(e.wire[i], e.cfg.iss, e.hist, None) {
      assert PacketOk(e.wire[i], e.cfg.iss, e.hist, peer);
    }
  }

  lemma NoEvents(e: Engine)
    ensures AllowedRun(e, []) && After(e, []) == e
  {
  }

  lemma FreshOk(cfg: Config, localPort: u16, userTimeout: Option<real>, now: real, peer: Option<u32>)
    ensures Inv(Fresh(cfg, localPort, userTimeout, now), peer)
  {
  }

  lemma {:induction false} RunOk(e: Engine, evs: seq<(real, Event)>)
    requires Inv(e, None) && AllowedRun(e, evs)
    ensures Inv(After(e, evs), None)
    decreases |evs|
  {
    hide Inv, Step, Allowed;
    if evs != [] {
      StepOk(e, evs[0].0, evs[0].1, None);
      RunOk(Step(e, evs[0].0, evs[0].1), evs[1..]);
    }
  }
}
