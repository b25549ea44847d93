/** The receive path keeps the send invariant, and RCV.NXT stays where the delivered stream ends. */
module RecvPath {
  import opened SeqNum
  import opened EngineState
  import opened EngineSpec
  import opened EngineFacts
  import opened SendInvariant
  import opened SendPath

  /** `f` answered: a packet, the advertised edge and the acknowledgement timer may differ. */
  ghost predicate Answers(e: Engine, f: Engine) {
    && f == e.(rcv := e.rcv.(zeroWin := f.rcv.zeroWin, advRight := f.rcv.advRight),
               tm := e.tm.(ack := f.tm.ack, ackCount := f.tm.ackCount), wire := f.wire)
    && (AckTimed(e.tm) ==> AckTimed(f.tm))
  }

  lemma SendAckLive(e: Engine, peer: Option<u32>)
    requires Live(e, peer)
    ensures Live(SendAck(e), peer) && Answers(e, SendAck(e)) && SendAck(e).tm.ack == None && AckTimed(SendAck(e).tm)
  {
    hide Wrap, Tiles, Trail, PacketOk, RcvWnd, AdvertisedRight, PosOf, Reach, KarnOk, Tally, AllAck;
    SendAckOk(e, peer);
    EmitTally(e, e.snd.nxt, ACK, [], false);
  }

  lemma ScheduleAckLive(e: Engine, force: bool, peer: Option<u32>)
    requires Live(e, peer)
    ensures Live(ScheduleAck(e, force), peer) && Answers(e, ScheduleAck(e, force))
  {
    hide SendAck, Wrap, Tiles, Trail, PacketOk, KarnOk;
    SendAckLive(e, peer);
    SendAckLive(e.(tm := e.tm.(ackCount := e.tm.ackCount + 1)), peer);
    AckCountZero(e);
    AckCountZero(e.(tm := e.tm.(ackCount := e.tm.ackCount + 1)));
  }

  /** `f` took in data: besides answering, its receive buffers and RCV.NXT may have moved. */
  ghost predicate Takes(e: Engine, f: Engine) {
    && f == e.(rcv := e.rcv.(zeroWin := f.rcv.zeroWin, advRight := f.rcv.advRight, buf := f.rcv.buf,
                             nxt := f.rcv.nxt, ooo := f.rcv.ooo),
               tm := e.tm.(ack := f.tm.ack, ackCount := f.tm.ackCount), wire := f.wire,
               hist := e.hist.(delivered := f.hist.delivered))
    && e.hist.delivered <= f.hist.delivered && (AckTimed(e.tm) ==> AckTimed(f.tm))
  }

  lemma BaseTakes(e: Engine, f: Engine, peer: Option<u32>)
    requires Base(e, peer) && Takes(e, f) && f.wire == e.wire
    ensures Base(f, peer)
  {
    hide Wrap, Trail, PacketOk, EntryOk;
    WireGrows(e, f, peer);
    TilesSame(e.snd.retx, e.snd.iss, e.hist.unaPos, e.hist, f.hist);
  }

  lemma DeliverLive(e: Engine, data: seq<byte>, peer: Option<u32>)
    requires Live(e, peer)
    ensures Live(Deliver(e, data), peer) && Takes(e, Deliver(e, data))
    ensures RecvPos(Deliver(e, data).hist) == RecvPos(e.hist) + |data|
  {
    hide Wrap, Trail, PacketOk, Tiles, KarnOk;
    BaseTakes(e, Deliver(e, data), peer);
    if peer.Some? {
      AddWraps(peer.value, RecvPos(e.hist), |data|);
      assert peer.value + RecvPos(e.hist) + |data| == peer.value + RecvPos(Deliver(e, data).hist);
    }
  }

  lemma MergeStepLive(e: Engine, i: nat, peer: Option<u32>)
    requires Live(e, peer) && i < |e.rcv.ooo|
    ensures Live(MergeStep(e, i), peer) && Takes(e, MergeStep(e, i))
  {
    hide Live;
    var b := e.rcv.ooo[i];
    var off := Sub(e.rcv.nxt, b.seqNo);
    var d := Deliver(e, b.data[Min(off, |b.data|)..]);
    DeliverLive(e, b.data[Min(off, |b.data|)..], peer);
    var f := if SeqLeq(b.End(), e.rcv.nxt) then e else d;
    SetOoo(f, e.rcv.ooo[..i] + e.rcv.ooo[i+1..], peer) by { assert Live(f, peer); }
    assert f.rcv.ooo == e.rcv.ooo;
  }

  lemma SetOoo(e: Engine, ooo: seq<Block>, peer: Option<u32>)
    requires Live(e, peer)
    ensures Live(e.(rcv := e.rcv.(ooo := ooo)), peer)
  {
    hide Wrap, Trail, PacketOk, Tiles, KarnOk;
  }

  lemma {:induction false} MergeLive(e: Engine, peer: Option<u32>)
    requires Live(e, peer)
    ensures Live(Merge(e), peer) && Takes(e, Merge(e))
    decreases |e.rcv.ooo|
  {
    hide Live, MergeStep;
    var i := FirstMergeable(e.rcv.ooo, e.rcv.nxt);
    if i < |e.rcv.ooo| {
      MergeStepLive(e, i, peer);
      MergeShrinks(e, i);
      MergeLive(MergeStep(e, i), peer);
    }
  }

  lemma PlaceLive(e: Engine, sn: u32, data: seq<byte>, peer: Option<u32>)
    requires Live(e, peer)
    ensures Live(Place(e, sn, data), peer) && Takes(e, Place(e, sn, data))
  {
    hide Live, Merge, Deliver, ScheduleAck;
    if sn == e.rcv.nxt {
      DeliverLive(e, data, peer);
      MergeLive(Deliver(e, data), peer);
      ScheduleAckLive(Merge(Deliver(e, data)), false, peer);
    } else {
      SetOoo(e, StoreOoo(e, sn, data).rcv.ooo, peer);
      ScheduleAckLive(StoreOoo(e, sn, data), true, peer);
    }
  }

  lemma RecvDataLive(e: Engine, seg: Segment, peer: Option<u32>)
    requires Live(e, peer)
    ensures Live(RecvData(e, seg), peer) && Takes(e, RecvData(e, seg))
  {
    hide Live, Place, ScheduleAck, RcvWnd, S32, Sub;
    if seg.payload != [] {
      ScheduleAckLive(e, true, peer);
      var stale := SeqLt(seg.seqNo, e.rcv.nxt);
      var off := if stale then Sub(e.rcv.nxt, seg.seqNo) else 0;
      if off < |seg.payload| {
        var data := seg.payload[off..];
        var sn := if stale then e.rcv.nxt else seg.seqNo;
        var space := S32(Sub(Add(e.rcv.nxt, RcvWnd(e)), sn));
        if space > 0 { PlaceLive(e, sn, data[..Min(space, |data|)], peer); }
      }
    }
  }

  /** Consuming a FIN moves RCV.NXT over it. */
  lemma TakeFinLive(e: Engine, peer: Option<u32>)
    requires Live(e, peer)
    ensures var f := SendAck(TakeFin(e));
            && Live(f, peer)
            && f == e.(rcv := e.rcv.(zeroWin := f.rcv.zeroWin, advRight := f.rcv.advRight, pendingFin := None,
                                     nxt := f.rcv.nxt, peerFin := true),
                       tm := e.tm.(ack := None, ackCount := 0), wire := f.wire,
                       hist := e.hist.(fins := e.hist.fins + 1))
  {
    hide Wrap, Trail, PacketOk, EntryOk, SendAck;
    var g := TakeFin(e);
    WireGrows(e, g, peer);
    TilesSame(e.snd.retx, e.snd.iss, e.hist.unaPos, e.hist, g.hist);
    if peer.Some? {
      AddWraps(peer.value, RecvPos(e.hist), 1);
      assert peer.value + RecvPos(e.hist) + 1 == peer.value + RecvPos(g.hist);
    }
    SendAckLive(g, peer);
    AckCountZero(g);
  }

  lemma AckCountZero(e: Engine)
    ensures SendAck(e).tm == e.tm.(ackCount := 0, ack := None)
  {
  }
}
