/** The send path keeps the send invariant: segmentation, FIN, acknowledgement and retransmission. */
module SendPath {
  import opened SeqNum
  import opened EngineState
  import opened EngineSpec
  import opened SendInvariant

  // ---------------------------------------------------------------------------------------------
  // Queueing
  // ---------------------------------------------------------------------------------------------

  /** What may be queued next: the SYN first, then data, then one FIN. */
  ghost predicate MayQueue(h: History, flags: Flags, payload: seq<byte>) {
    && !flags.rst && SpaceLen(flags, payload) > 0 && !h.finOut
    && (if flags.syn then !h.synOut && payload == [] && !flags.fin && h.sent == []
        else h.synOut && flags.ack && (flags.fin ==> payload == []))
  }

  lemma NextPieceIsGenuine(h: History, flags: Flags, payload: seq<byte>)
    requires MayQueue(h, flags, payload)
    ensures var h' := Sending(h, flags, payload);
            && Genuine(flags, payload, SentEnd(h), h'.sent, h'.finOut)
            && SentEnd(h') == SentEnd(h) + SpaceLen(flags, payload) && Grows(h, h')
  {
    if payload != [] { assert (h.sent + payload)[|h.sent|..] == payload; }
  }

  /** Sending one more piece of the stream. */
  lemma QueueAndSendOk(e: Engine, flags: Flags, payload: seq<byte>, withMss: bool, peer: Option<u32>)
    requires WireOk(e, peer) && e.snd.iss == e.cfg.iss && e.snd.nxt == Wrap(e.snd.iss + SentEnd(e.hist))
    requires Tiles(e.snd.retx, e.snd.iss, e.hist.unaPos, e.hist)
    requires MayQueue(e.hist, flags, payload) && (flags.ack ==> Knows(e, peer)) && SpaceLen(flags, payload) < HALF
    requires KarnOk(e.snd.retx, e.snd.rttPending, e.passive) && AllAck(e.snd.retx, e.passive) && (flags.ack || !e.passive)
    requires flags.syn ==> flags.ack == e.passive
    requires Tally(e.snd.retx, e.wire, e.hist.since) && (e.hist.synOut || e.hist.since == |e.wire|)
    ensures var f := QueueAndSend(e, flags, payload, withMss);
            && f.hist == Sending(e.hist, flags, payload)
            && WireOk(f, peer)
            && f.snd.nxt == Wrap(e.snd.iss + SentEnd(f.hist))
            && Tiles(f.snd.retx, e.snd.iss, e.hist.unaPos, f.hist)
            && SentEnd(f.hist) == SentEnd(e.hist) + SpaceLen(flags, payload)
            && Grows(e.hist, f.hist)
            && KarnOk(f.snd.retx, f.snd.rttPending, f.passive) && AllAck(f.snd.retx, f.passive)
            && Tally(f.snd.retx, f.wire, f.hist.since)
  {
    hide Tally, Reach, KarnOk, Genuine, MakeSegment, AdvertisedRight, RcvWnd, PosOf, PacketOk, Tiles, Wrap, MayQueue, SentEnd, RecvPos;
    var f := QueueAndSend(e, flags, payload, withMss);
    NextPieceIsGenuine(e.hist, flags, payload);
    QueueFirst(e.hist, flags, payload);
    EmitOk(e, SentEnd(e.hist), flags, payload, withMss, f.hist, peer);
    AddWraps(e.snd.iss, SentEnd(e.hist), SpaceLen(flags, payload));
    var o := Outgoing(e.snd.nxt, flags, payload, e.tm.now, false, SentEnd(e.hist), 1);
    assert f.snd.retx == e.snd.retx + [o];
    EntryFits(o, e.snd.iss, f.hist, e.hist, flags, payload);
    TilesAppend(e.snd.retx, e.snd.iss, e.hist.unaPos, e.hist, o, f.hist);
    KarnAppend(e.snd, o, e.tm.now, e.passive);
    QueueTally(e, flags, payload, withMss, o, peer);
  }

  lemma QueueTally(e: Engine, flags: Flags, payload: seq<byte>, withMss: bool, o: Outgoing, peer: Option<u32>)
    requires WireOk(e, peer) && Tiles(e.snd.retx, e.snd.iss, e.hist.unaPos, e.hist) && MayQueue(e.hist, flags, payload)
    requires Tally(e.snd.retx, e.wire, e.hist.since) && (e.hist.synOut || e.hist.since == |e.wire|)
    requires o.copies == 1 && o.pos == SentEnd(e.hist) && o.flags == flags && o.payload == payload
    ensures Tally(e.snd.retx + [o], QueueAndSend(e, flags, payload, withMss).wire, e.hist.since)
  {
    hide Tally, Genuine, RcvWnd, AdvertisedRight, Reach, Tiles, EntryOk, Wrap, Sub;
    var p := QueueAndSend(e, flags, payload, withMss).wire[|e.wire|];
    var end := SentEnd(e.hist);
    forall i | 0 <= i < |e.snd.retx| ensures e.snd.retx[i].EndPos() <= end {
      TilesWithin(e.snd.retx, e.snd.iss, e.hist.unaPos, e.hist, i);
    }
    forall i | e.hist.since <= i < |e.wire| ensures e.wire[i].seg.flags.rst || e.wire[i].pos + e.wire[i].seg.SegLen() <= end {
      assert PacketOk(e.wire[i], e.cfg.iss, e.hist, peer);
    }
    NxtPos(e);
    TallyQueue(e.snd.retx, e.wire, e.hist.since, p, o, end);
  }

  /** SND.NXT stands at position SentEnd. */
  lemma NxtPos(e: Engine)
    ensures PosOf(e, e.snd.nxt) == SentEnd(e.hist)
  {
  }

  lemma QueueFirst(h: History, flags: Flags, payload: seq<byte>)
    requires MayQueue(h, flags, payload)
    ensures h.synOut || (flags.syn && h.sent == [] && !h.finOut)
  {
  }

  lemma KarnAppend(s: SendSide, o: Outgoing, now: real, passive: bool)
    requires KarnOk(s.retx, s.rttPending, passive) && o.sentTime == now && !o.retransmitted && o.copies == 1
    requires o.flags.syn ==> o.flags.ack == passive
    ensures KarnOk(Enqueued(s, o, now).retx, Enqueued(s, o, now).rttPending, passive)
  {
    var t := Enqueued(s, o, now);
    if s.rttPending.Some? {
      var i :| 0 <= i < |s.retx| && TimedBy(s.retx[i], s.rttPending.value, passive);
      assert t.retx[i] == s.retx[i];
    } else {
      assert TimedBy(t.retx[|s.retx|], t.rttPending.value, passive);
    }
  }

  lemma EntryFits(o: Outgoing, iss: u32, h': History, h: History, flags: Flags, payload: seq<byte>)
    requires MayQueue(h, flags, payload) && h' == Sending(h, flags, payload)
    requires o.seqNo == Wrap(iss + SentEnd(h)) && o.flags == flags && o.payload == payload && o.pos == SentEnd(h)
    ensures EntryOk(o, iss, h') && o.EndPos() == SentEnd(h')
  {
    NextPieceIsGenuine(h, flags, payload);
  }

  /** What the send path leaves alone. */
  ghost predicate SendFrame(e: Engine, f: Engine) {
    && f.cfg == e.cfg && f.localPort == e.localPort && f.remotePort == e.remotePort && f.passive == e.passive
    && f.rcv == e.rcv.(zeroWin := f.rcv.zeroWin, advRight := f.rcv.advRight)
    && f.snd == e.snd.(appBuf := f.snd.appBuf, retx := f.snd.retx, nxt := f.snd.nxt, finSent := f.snd.finSent,
                       finSeq := f.snd.finSeq, rttPending := f.snd.rttPending)
    && f.hist == e.hist.(sent := f.hist.sent, finOut := f.hist.finOut)
    && f.tm == e.tm.(unaSince := f.tm.unaSince, rt := f.tm.rt, persist := f.tm.persist,
                     persistBackoff := f.tm.persistBackoff, ka := f.tm.ka, kaProbes := f.tm.kaProbes)
    && f.rtt == e.rtt
    && (e.tm.rt.Some? ==> f.tm.rt == e.tm.rt)
    && (RtLive(e) ==> RtLive(f))
    && (f.tm.ka.Some? ==> e.tm.ka.Some? && (f.state == e.state || e.state != ESTABLISHED))
    && Grows(e.hist, f.hist)
  }

  lemma SendChunkOk(e: Engine, n: nat, peer: Option<u32>)
    requires Live(e, peer) && 0 < n <= |e.snd.appBuf|
    requires SentEnd(e.hist) + n < e.hist.unaPos + HALF
    ensures var f := SendChunk(e, n);
            && Live(f, peer) && SendFrame(e, f) && f.state == e.state && f.hist.finOut == e.hist.finOut
            && SentEnd(f.hist) == SentEnd(e.hist) + n && f.snd.retx != []
  {
    hide Tiles, Wrap, PacketOk, Trail, RcvWnd, AdvertisedRight, PosOf, KarnOk, Tally, AllAck, Reach;
    var g := e.(snd := e.snd.(appBuf := e.snd.appBuf[n..]));
    QueueAndSendOk(g, ACK, e.snd.appBuf[..n], false, peer);
    assert e.hist.sent + e.snd.appBuf == (e.hist.sent + e.snd.appBuf[..n]) + e.snd.appBuf[n..];
  }

  lemma SendFinOk(e: Engine, peer: Option<u32>)
    requires Live(e, peer) && e.snd.appBuf == [] && e.snd.finPending && !e.hist.finOut
    requires SentEnd(e.hist) + 1 < e.hist.unaPos + HALF
    ensures var f := SendFin(e);
            Live(f, peer) && SendFrame(e, f) && f.state == FinState(e.state) && f.hist.finOut
  {
    hide SetState, Wrap, Trail, Tiles, PacketOk, RcvWnd, AdvertisedRight, PosOf, KarnOk, Tally, AllAck, Reach;
    var g := e.(snd := e.snd.(finSeq := e.snd.nxt));
    QueueAndSendOk(g, FIN_ACK, [], false, peer);
    var h := QueueAndSend(g, FIN_ACK, [], false);
    assert e.hist.sent + [] == e.hist.sent;
    var k := h.(snd := h.snd.(finSent := true));
    assert Base(k, peer);
    SetStateOk(k, FinState(k.state), peer);
    SetStateIs(k, FinState(k.state));
  }

  /** The usable window is what the peer's last window leaves beyond what is in flight. */
  lemma UsableWindowIs(e: Engine)
    requires SendOk(e)
    ensures UsableWindow(e) == e.snd.wnd - (SentEnd(e.hist) - e.hist.unaPos)
  {
    hide Tiles, Wrap, S32, KarnOk;
    var iss := e.snd.iss;
    AddWraps(iss, e.hist.unaPos, e.snd.wnd);
    assert iss + e.hist.unaPos + e.snd.wnd == iss + (e.hist.unaPos + e.snd.wnd);
    SerialDifference(iss, e.hist.unaPos + e.snd.wnd, SentEnd(e.hist));
    SignedOfSub(Add(e.snd.una, e.snd.wnd), e.snd.nxt);
  }

  lemma SignedOfSub(a: int, b: int)
    ensures S32(Sub(a, b)) == S32(a - b)
  {
  }

  /** The send path has nothing left to do now: the window is shut and probed, full, or Nagle holds a tail. */
  predicate Settled(e: Engine) {
    MaySend(e) ==>
      if e.snd.appBuf == [] then
        e.snd.finPending && !e.snd.finSent ==> if e.snd.wnd == 0 then e.tm.persist.Some? else UsableWindow(e) < 1
      else if e.snd.wnd == 0 then e.tm.persist.Some?
      else
        || UsableWindow(e) <= 0
        || (e.cfg.timers.nagle && e.snd.retx != []
            && Min(Min(e.snd.mss, UsableWindow(e)), |e.snd.appBuf|) < e.snd.mss)
  }

  /** ... and calling it again changes nothing. */
  lemma SettledIsFixpoint(e: Engine)
    requires Settled(e)
    ensures SendPending(e) == e
  {
    hide UsableWindow;
  }

  /** The FIN may have gone out and moved the state. */
  ghost predicate PumpMoves(e: Engine, f: Engine) {
    || (f.state == e.state && f.hist.finOut == e.hist.finOut)
    || (f.state == FinState(e.state) && f.state != e.state && f.hist.finOut && !e.hist.finOut)
  }

  lemma ArmPersistOk(e: Engine, peer: Option<u32>)
    requires Live(e, peer)
    ensures var f := ArmPersist(e); Live(f, peer) && SendFrame(e, f) && f.state == e.state && f.hist == e.hist
    ensures ArmPersist(ArmPersist(e)) == ArmPersist(e)
  {
    hide Tiles, Wrap, PacketOk, Trail, KarnOk;
  }

  lemma PumpFinOk(e: Engine, peer: Option<u32>)
    requires Live(e, peer) && MaySend(e) && e.snd.appBuf == []
    ensures var f := PumpFin(e); Live(f, peer) && SendFrame(e, f) && PumpMoves(e, f) && Settled(f)
  {
    hide Tiles, Wrap, PacketOk, Trail, UsableWindow, SendFin, KarnOk;
    UsableWindowIs(e);
    ArmPersistOk(e, peer);
    if e.snd.finPending && !e.snd.finSent && e.snd.wnd != 0 && UsableWindow(e) >= 1 {
      SendFinOk(e, peer);
    }
  }

  /** The send path keeps the invariant and stops only when nothing is left to do. */
  lemma {:induction false} PumpOk(e: Engine, peer: Option<u32>)
    requires Live(e, peer) && MaySend(e)
    ensures var f := PumpData(e); Live(f, peer) && SendFrame(e, f) && PumpMoves(e, f) && Settled(f)
    decreases |e.snd.appBuf|
  {
    hide Tiles, Wrap, PacketOk, Trail, UsableWindow, SendChunk, PumpFin, KarnOk;
    UsableWindowIs(e);
    if e.snd.appBuf == [] {
      PumpFinOk(e, peer);
    } else if e.snd.wnd == 0 {
      ArmPersistOk(e, peer);
    } else if UsableWindow(e) > 0 {
      var n := Min(Min(e.snd.mss, UsableWindow(e)), |e.snd.appBuf|);
      if !(e.cfg.timers.nagle && e.snd.retx != [] && n < e.snd.mss) {
        SendChunkOk(e, n, peer);
        PumpOk(SendChunk(e, n), peer);
      }
    }
  }

  lemma SendPendingOk(e: Engine, peer: Option<u32>)
    requires Live(e, peer)
    ensures var f := SendPending(e); Live(f, peer) && SendFrame(e, f) && PumpMoves(e, f) && Settled(f)
  {
    hide Base, PumpData;
    if MaySend(e) { PumpOk(e, peer); }
  }
}
