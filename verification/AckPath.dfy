/** Acknowledgement processing keeps the send invariant: the queue tiles what is left, to the byte. */
module AckPath {
  import opened SeqNum
  import opened EngineState
  import opened EngineSpec
  import opened SendInvariant
  import opened SendPath

  /** Cutting a partially acknowledged entry leaves the rest of it, at its own position. */
  lemma TrimHeadOk(o: Outgoing, iss: u32, h: History, ackPos: int)
    requires EntryOk(o, iss, h) && o.pos < ackPos < o.EndPos() < o.pos + HALF
    ensures var p := TrimHead(o, Wrap(iss + ackPos));
            && EntryOk(p, iss, h) && p.pos == ackPos && p.EndPos() == o.EndPos()
            && p.flags == o.flags && p.copies == o.copies && p.sentTime == o.sentTime && p.retransmitted == o.retransmitted
  {
    SubWraps(iss, ackPos, o.pos);
    var t := ackPos - o.pos;
    assert !o.flags.syn;
    assert 0 < t <= |o.payload|;
    assert o.payload[t..] == h.sent[ackPos - 1..o.pos - 1 + |o.payload|];
  }

  lemma {:induction false} TrimOk(retx: seq<Outgoing>, iss: u32, from: int, h: History, ackPos: int)
    requires Tiles(retx, iss, from, h) && from <= ackPos <= SentEnd(h) < from + HALF
    ensures Tiles(Trim(retx, Wrap(iss + ackPos)), iss, ackPos, h)
  {
    hide TrimHead, Wrap, EntryOk, S32;
    if retx != [] {
      var o := retx[0];
      TilesBound(retx, iss, from, h);
      EntryEnd(o, iss, h);
      SerialOrder(iss, o.EndPos(), ackPos);
      SerialOrder(iss, o.pos, ackPos);
      if o.EndPos() <= ackPos {
        TrimOk(retx[1..], iss, o.EndPos(), h, ackPos);
      } else if o.pos < ackPos {
        TrimHeadOk(o, iss, h, ackPos);
        assert ([TrimHead(o, Wrap(iss + ackPos))] + retx[1..])[1..] == retx[1..];
      }
    }
  }

  /** What is timed and not yet acknowledged stays in the queue, untouched but for its front. */
  lemma {:induction false} TrimKeepsTimed(retx: seq<Outgoing>, iss: u32, from: int, h: History, ackPos: int, i: nat) returns (j: nat)
    requires Tiles(retx, iss, from, h) && from <= ackPos <= SentEnd(h) < from + HALF
    requires i < |retx| && !SeqGeq(Wrap(iss + ackPos), retx[i].End())
    ensures var t := Trim(retx, Wrap(iss + ackPos)); j < |t| && SameTiming(t[j], retx[i])
  {
    hide TrimHead, Wrap, EntryOk, S32;
    var o := retx[0];
    TilesBound(retx, iss, from, h);
    EntryEnd(o, iss, h);
    SerialOrder(iss, o.EndPos(), ackPos);
    SerialOrder(iss, ackPos, o.EndPos());
    SerialOrder(iss, o.pos, ackPos);
    if o.EndPos() <= ackPos {
      assert retx[1..][i - 1] == retx[i];
      j := TrimKeepsTimed(retx[1..], iss, o.EndPos(), h, ackPos, i - 1);
    } else if o.pos < ackPos {
      TrimHeadOk(o, iss, h, ackPos);
      EntryEnd(TrimHead(o, Wrap(iss + ackPos)), iss, h);
      j := i;
    } else {
      j := i;
    }
  }

  predicate SameTiming(p: Outgoing, o: Outgoing) {
    p.End() == o.End() && p.sentTime == o.sentTime && p.retransmitted == o.retransmitted && p.copies == o.copies
    && p.flags == o.flags
  }

  lemma KarnAfterAck(e: Engine, ackPos: int)
    requires SendOk(e) && e.hist.unaPos <= ackPos <= SentEnd(e.hist)
    ensures var f := ProcessAck(e, Wrap(e.snd.iss + ackPos)); KarnOk(f.snd.retx, f.snd.rttPending, f.passive)
  {
    hide Wrap, S32, Trim, RttSample, Tiles;
    if e.snd.rttPending.Some? && !TakesSample(e, Wrap(e.snd.iss + ackPos)) {
      var i :| 0 <= i < |e.snd.retx| && TimedBy(e.snd.retx[i], e.snd.rttPending.value, e.passive);
      var j := TrimKeepsTimed(e.snd.retx, e.snd.iss, e.hist.unaPos, e.hist, ackPos, i);
      var t := Trim(e.snd.retx, Wrap(e.snd.iss + ackPos));
      assert TimedBy(t[j], e.snd.rttPending.value, e.passive);
    }
  }

  lemma EntryEnd(o: Outgoing, iss: u32, h: History)
    requires EntryOk(o, iss, h)
    ensures o.seqNo == Wrap(iss + o.pos) && o.End() == Wrap(iss + o.EndPos())
  {
    AddWraps(iss, o.pos, o.SegLen());
    assert iss + o.pos + o.SegLen() == iss + o.EndPos();
  }

  /** The unwrapped position an acceptable acknowledgement stands for. */
  function AckPos(e: Engine, ack: u32): int { e.hist.unaPos + Sub(ack, e.snd.una) }

  /** SND.UNA < SEG.ACK <= SND.NXT in serial arithmetic means the same of the positions. */
  lemma AckPosition(e: Engine, ack: u32)
    requires SendOk(e)
    ensures ack == Wrap(e.snd.iss + AckPos(e, ack))
    ensures SeqGt(ack, e.snd.una) && !SeqGt(ack, e.snd.nxt) ==> e.hist.unaPos < AckPos(e, ack) <= SentEnd(e.hist)
  {
    hide Tiles, KarnOk;
    var iss := e.snd.iss;
    SerialPosition(iss, e.hist.unaPos, ack);
    assert iss + e.hist.unaPos + Sub(ack, e.snd.una) == iss + AckPos(e, ack);
    if SeqGt(ack, e.snd.una) && !SeqGt(ack, e.snd.nxt) {
      assert 0 < Sub(ack, e.snd.una) < HALF;
      SerialOrder(iss, AckPos(e, ack), SentEnd(e.hist));
    }
  }

  /** What acknowledgement processing leaves alone. */
  ghost predicate AckFrame(e: Engine, f: Engine) {
    && f.cfg == e.cfg && f.localPort == e.localPort && f.remotePort == e.remotePort && f.passive == e.passive
    && f.state == e.state && f.rcv == e.rcv && f.wire == e.wire && f.signals == e.signals
    && f.snd == e.snd.(una := f.snd.una, retx := f.snd.retx, finAcked := f.snd.finAcked, rttPending := f.snd.rttPending)
    && f.hist == e.hist.(unaPos := f.hist.unaPos)
    && f.tm == e.tm.(unaSince := f.tm.unaSince, rt := f.tm.rt, rtoCount := f.tm.rtoCount)
  }

  /** An acceptable acknowledgement moves SND.UNA to its position and keeps everything else in place. */
  lemma ProcessAckOk(e: Engine, ack: u32, peer: Option<u32>)
    requires SendOk(e) && WireOk(e, peer)
    requires e.hist.unaPos < AckPos(e, ack) <= SentEnd(e.hist) && ack == Wrap(e.snd.iss + AckPos(e, ack))
    ensures var f := ProcessAck(e, ack);
            && SendOk(f) && WireOk(f, peer) && AckFrame(e, f) && RtLive(f)
            && f.hist.unaPos == AckPos(e, ack) && (f.snd.retx == [] <==> f.hist.unaPos == SentEnd(f.hist))
  {
    hide Wrap, S32, Trim, RttSample, TakesSample, PacketOk, Tiles, KarnOk, Tally, AllAck;
    KarnAfterAck(e, AckPos(e, ack));
    TallyAfterAck(e, AckPos(e, ack));
    var iss, ap := e.snd.iss, AckPos(e, ack);
    var f := ProcessAck(e, ack);
    TrimOk(e.snd.retx, iss, e.hist.unaPos, e.hist, ap);
    TilesSame(f.snd.retx, iss, ap, e.hist, f.hist);
    TilesEmpty(f.snd.retx, iss, ap, f.hist);
    WireGrows(e, f, peer);
    if e.hist.finOut {
      SerialOrder(iss, ap, 1 + |e.hist.sent|);
      assert iss + (1 + |e.hist.sent|) == iss + 1 + |e.hist.sent|;
    }
  }

  /** Every entry left was in the queue, but perhaps for its front. */
  lemma {:induction false} TrimFrom(retx: seq<Outgoing>, iss: u32, from: int, h: History, ackPos: int, i: nat) returns (j: nat)
    requires Tiles(retx, iss, from, h) && from <= ackPos <= SentEnd(h) < from + HALF
    requires i < |Trim(retx, Wrap(iss + ackPos))|
    ensures j < |retx| && SameEnd(retx[j], Trim(retx, Wrap(iss + ackPos))[i])
            && Trim(retx, Wrap(iss + ackPos))[i].flags == retx[j].flags
  {
    hide TrimHead, Wrap, EntryOk, S32;
    var o := retx[0];
    TilesBound(retx, iss, from, h);
    EntryEnd(o, iss, h);
    SerialOrder(iss, o.EndPos(), ackPos);
    SerialOrder(iss, o.pos, ackPos);
    if o.EndPos() <= ackPos {
      var k := TrimFrom(retx[1..], iss, o.EndPos(), h, ackPos, i);
      j := k + 1;
    } else if o.pos < ackPos {
      TrimHeadOk(o, iss, h, ackPos);
      j := i;
    } else {
      j := i;
    }
  }

  lemma TallyAfterAck(e: Engine, ackPos: int)
    requires SendOk(e) && e.hist.unaPos <= ackPos <= SentEnd(e.hist)
    ensures var t := Trim(e.snd.retx, Wrap(e.snd.iss + ackPos)); Tally(t, e.wire, e.hist.since) && AllAck(t, e.passive)
  {
    hide Wrap, Trim, Tiles, KarnOk, Tally, SameEnd;
    var t := Trim(e.snd.retx, Wrap(e.snd.iss + ackPos));
    forall i | 0 <= i < |t| ensures StillQueued(e.snd.retx, t[i]) {
      var j := TrimFrom(e.snd.retx, e.snd.iss, e.hist.unaPos, e.hist, ackPos, i);
      assert SameEnd(e.snd.retx[j], t[i]);
    }
    forall i | 0 <= i < |t| && e.passive ensures t[i].flags.ack {
      var _ := TrimFrom(e.snd.retx, e.snd.iss, e.hist.unaPos, e.hist, ackPos, i);
    }
    TallySame(e.snd.retx, t, e.wire, e.hist.since);
  }

  lemma TilesEmpty(retx: seq<Outgoing>, iss: u32, from: int, h: History)
    requires Tiles(retx, iss, from, h)
    ensures retx == [] <==> from == SentEnd(h)
  {
    TilesBound(retx, iss, from, h);
  }

  /** Retransmission puts the oldest entry on the wire again and changes nothing of the stream. */
  lemma RetransmitOk(e: Engine, peer: Option<u32>)
    requires SendOk(e) && WireOk(e, peer) && e.snd.retx != [] && (e.snd.retx[0].flags.ack ==> Knows(e, peer))
    requires e.tm.unaSince.Some?
    ensures var f := Retransmit(e);
            && SendOk(f) && WireOk(f, peer) && RtLive(f) && f.signals == e.signals && f.hist == e.hist && f.state == e.state
            && f.snd == e.snd.(rttPending := None, retx := f.snd.retx)
            && |f.snd.retx| == |e.snd.retx| && f.snd.retx[0].flags == e.snd.retx[0].flags
            && f.cfg == e.cfg && f.rcv == e.rcv.(zeroWin := f.rcv.zeroWin, advRight := f.rcv.advRight)
            && f.tm == e.tm.(rt := f.tm.rt) && f.passive == e.passive
  {
    hide Wrap, PacketOk, Genuine, RcvWnd, AdvertisedRight, PosOf, RttBackoff, Reach, Tally, Sub, SentEnd;
    var o := e.snd.retx[0].(retransmitted := true, sentTime := e.tm.now, copies := e.snd.retx[0].copies + 1);
    var g := e.(rtt := RttBackoff(e.cfg.timers, e.rtt), snd := e.snd.(rttPending := None, retx := [o] + e.snd.retx[1..]));
    assert EntryOk(e.snd.retx[0], e.snd.iss, e.hist);
    TilesHead(e.snd.retx, e.snd.iss, e.hist.unaPos, e.hist, o);
    TilesBound(e.snd.retx, e.snd.iss, e.hist.unaPos, e.hist);
    BoundedEntry(e);
    EmitOk(g, o.pos, o.flags, o.payload, o.flags.syn, g.hist, peer);
    PosOfWraps(g, o.pos);
    AgainTally(e, Emit(g, o.seqNo, o.flags, o.payload, o.flags.syn).wire[|e.wire|], o);
  }

  /** The retransmitted packet carries the entry it is made from, and none after it. */
  lemma AgainTally(e: Engine, p: Packet, o: Outgoing)
    requires SendOk(e) && e.snd.retx != [] && !p.seg.flags.rst
    requires o.pos == e.snd.retx[0].pos && o.flags == e.snd.retx[0].flags && o.payload == e.snd.retx[0].payload
    requires o.copies == e.snd.retx[0].copies + 1 && p.pos == o.pos && p.seg.SegLen() == o.SegLen()
    ensures Tally([o] + e.snd.retx[1..], e.wire + [p], e.hist.since)
  {
    hide Tally, Wrap, KarnOk, AllAck, Genuine;
    var retx := e.snd.retx;
    forall i | 0 < i < |retx| ensures !Carries(p, retx[i].EndPos() - 1) {
      TilesWithin(retx[1..], e.snd.iss, retx[0].EndPos(), e.hist, i - 1);
    }
    TallyAgain(retx, e.wire, e.hist.since, p, o);
  }

  lemma BoundedEntry(e: Engine)
    requires SendOk(e) && e.snd.retx != []
    ensures 0 <= SentEnd(e.hist) - e.snd.retx[0].pos < HALF
  {
    TilesBound(e.snd.retx, e.snd.iss, e.hist.unaPos, e.hist);
  }
}
