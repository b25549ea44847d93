/** One engine against a peer that sends only pieces of its own stream: what the engine has delivered is
    always a prefix of that stream, its out-of-order store holds pieces of it, and it takes the peer's FIN
    once, after everything else. */
module HonestPeer {
  import opened SeqNum
  import opened EngineState
  import opened EngineSpec
  import opened SendInvariant
  import opened SendPath
  import opened AckPath
  import opened RecvPath
  import opened EngineInvariant
  import opened SegmentArrives
  import opened Opening
  import opened Reassembly

  /** What a side has sent so far. */
  datatype Stream = Stream(iss: u32, sent: seq<byte>, fin: bool)

  function StreamOf(e: Engine): Stream { Stream(e.cfg.iss, e.hist.sent, e.hist.finOut) }

  function Peer(r: Stream): Option<u32> { Some(r.iss) }

  /** The byte of the stream at a position; SYN is position 0. */
  function ByteAt(s: seq<byte>, x: int): byte { if 1 <= x <= |s| then s[x - 1] else 0 }

  function Content(r: Stream): int -> byte { x => ByteAt(r.sent, x) }

  ghost predicate BlockOk(b: Block, r: Stream, rp: int) {
    && b.seqNo == Wrap(r.iss + b.pos)
    && rp < b.pos && 1 <= b.pos && b.data != [] && b.EndPos() < rp + QUARTER && b.EndPos() <= 1 + |r.sent|
    && b.data == r.sent[b.pos - 1..b.EndPos() - 1]
  }

  ghost predicate BlocksOk(ooo: seq<Block>, r: Stream, rp: int) {
    forall b :: b in ooo ==> BlockOk(b, r, rp)
  }

  /** A FIN noted ahead of missing data is the end of the stream. */
  ghost predicate NotedFinOk(p: Option<u32>, r: Stream, h: History) {
    p.Some? ==> h.fins == 0 && r.fin && p.value == Wrap(r.iss + 1 + |r.sent|) && 1 + |r.sent| < RecvPos(h) + HALF
  }

  /** Everything this side took in comes from `r`, in order. */
  ghost predicate Received(h: History, r: Stream) {
    h.delivered <= r.sent && h.fins <= 1 && (h.fins == 1 ==> r.fin && h.delivered == r.sent)
  }

  ghost predicate RecvOk(e: Engine, r: Stream) {
    && Received(e.hist, r)
    && (Synced(e.state) ==> e.rcv.irs == r.iss)
    && BlocksOk(e.rcv.ooo, r, RecvPos(e.hist))
    && NotedFinOk(e.rcv.pendingFin, r, e.hist)
    && (e.state == SYN_RECEIVED ==> e.rcv.ooo == [] && e.rcv.pendingFin == None)
    && e.cfg.rcvWnd < QUARTER
  }

  /** The segment lifetime assumption of section 3.4 of RFC 9293: the segment's numbers and the receiver's
      are less than 2^31 apart. */
  predicate TimelyData(pos: int, len: nat, rp: int) { -HALF < pos - rp && pos + len - rp < HALF }

  predicate Timely(e: Engine, p: Packet) {
    !p.seg.flags.rst ==>
    && (Synced(e.state) ==> TimelyData(p.pos, p.seg.SegLen(), RecvPos(e.hist)))
    && (Active(e.state) && p.seg.flags.ack ==> SentEnd(e.hist) - p.ackPos < HALF)
  }

  /** A data or FIN segment that is a piece of `r` at `pos`. */
  ghost predicate Piecewise(seg: Segment, pos: int, r: Stream) {
    seg.seqNo == Wrap(r.iss + pos) && Genuine(seg.flags, seg.payload, pos, r.sent, r.fin)
  }

  // ---------------------------------------------------------------------------------------------
  // Window
  // ---------------------------------------------------------------------------------------------

  /** The advertised window never exceeds the free buffer. */
  lemma RcvWndWithinBuffer(e: Engine)
    requires e.cfg.rcvWnd < HALF - 0x1_0000
    ensures RcvWnd(e) <= RawWindow(e) <= e.cfg.rcvWnd
  {
    if e.cfg.timers.swsAvoidance && e.rcv.advRight.Some? {
      var raw, nxt, adv := RawWindow(e), e.rcv.nxt, e.rcv.advRight.value;
      var d := Sub(Add(nxt, raw), adv);
      if d < SwsThreshold(e) {
        SerialPosition(0, Add(nxt, raw), adv);
        HeldEdge(nxt, raw, adv);
      }
    }
  }

  lemma HeldEdge(nxt: u32, raw: nat, adv: u32)
    requires raw < HALF && Sub(Add(nxt, raw), adv) < 0x1_0000
    ensures S32(Sub(adv, nxt)) == raw - Sub(Add(nxt, raw), adv)
  {
    var d := Sub(Add(nxt, raw), adv);
    assert Wrap(0 + adv) == adv && Wrap(0 + nxt) == nxt;
    SerialPosition(0, nxt, adv);
    assert adv == Wrap(nxt + raw - d) by {
      var k := (nxt + raw) / MOD;
      assert Add(nxt, raw) == nxt + raw - k * MOD;
      var q := (Add(nxt, raw) - adv) / MOD;
      assert d == Add(nxt, raw) - adv - q * MOD;
      assert nxt + raw - d == adv + (k + q) * MOD;
      RemainderShift(adv, k + q);
    }
    assert S32(Sub(adv, nxt)) == S32(adv - nxt) by { SignedOfSub(adv, nxt); }
    assert Wrap(nxt + (raw - d)) == adv && Wrap(nxt + 0) == nxt;
    SerialDifference(nxt, raw - d, 0);
  }

  // ---------------------------------------------------------------------------------------------
  // Data
  // ---------------------------------------------------------------------------------------------

  lemma BlocksFit(e: Engine, r: Stream, rp0: int)
    requires BlocksOk(e.rcv.ooo, r, rp0)
    ensures Store(e.rcv.ooo, r.iss, rp0, Content(r))
  {
    forall i | 0 <= i < |e.rcv.ooo| ensures Placed(e.rcv.ooo[i], r.iss, rp0) && Fits(e.rcv.ooo[i], Content(r)) {
      assert e.rcv.ooo[i] in e.rcv.ooo;
    }
  }

  lemma ContentIsStream(r: Stream, a: int, b: int)
    requires 1 <= a <= b <= 1 + |r.sent|
    ensures Bytes(Content(r), a, b) == r.sent[a - 1..b - 1]
  {
  }

  /** Merging the store keeps the delivered bytes a prefix of the stream. */
  lemma MergeHonest(e: Engine, r: Stream, rp0: int)
    requires Received(e.hist, r) && e.hist.fins == 0 && BlocksOk(e.rcv.ooo, r, rp0)
    requires e.rcv.nxt == Wrap(r.iss + RecvPos(e.hist)) && rp0 <= RecvPos(e.hist) < rp0 + QUARTER
    ensures var f := Merge(e);
            && Received(f.hist, r) && BlocksOk(f.rcv.ooo, r, RecvPos(f.hist)) && f.hist.fins == 0
            && RecvPos(e.hist) <= RecvPos(f.hist)
  {
    hide Wrap, Merge;
    BlocksFit(e, r, rp0);
    MergeIsMaximal(e, r.iss, rp0, Content(r));
    var f := Merge(e);
    var rp, rp' := RecvPos(e.hist), RecvPos(f.hist);
    if rp < rp' {
      assert Covered(e.rcv.ooo, rp' - 1);
      var i :| 0 <= i < |e.rcv.ooo| && Reaches(e.rcv.ooo[i], rp' - 1);
      assert e.rcv.ooo[i] in e.rcv.ooo;
    }
    ContentIsStream(r, rp, rp');
    assert f.hist.delivered == r.sent[..rp' - 1];
    forall b | b in f.rcv.ooo ensures BlockOk(b, r, rp') {
      assert b in e.rcv.ooo;
    }
  }

  lemma StoreHonest(e: Engine, r: Stream, q: int, data: seq<byte>)
    requires RecvOk(e, r) && e.rcv.nxt == Wrap(r.iss + RecvPos(e.hist)) && e.state != SYN_RECEIVED
    requires RecvPos(e.hist) < q && data != [] && q + |data| < RecvPos(e.hist) + QUARTER && q + |data| <= 1 + |r.sent|
    requires data == r.sent[q - 1..q - 1 + |data|]
    ensures RecvOk(StoreOoo(e, Wrap(r.iss + q), data), r)
  {
    hide Wrap, S32;
    SerialOrder(r.iss, q, RecvPos(e.hist));
    var f := StoreOoo(e, Wrap(r.iss + q), data);
    forall b | b in f.rcv.ooo ensures BlockOk(b, r, RecvPos(e.hist)) {
      if b !in e.rcv.ooo { assert b == Block(Wrap(r.iss + q), data, q); }
    }
  }

  /** Bytes at position `q` of the stream, cut to the window, are delivered or stored. */
  lemma PlaceHonest(e: Engine, r: Stream, q: int, data: seq<byte>)
    requires RecvOk(e, r) && Live(e, Peer(r)) && e.hist.fins == 0 && e.state != SYN_RECEIVED
    requires RecvPos(e.hist) <= q && data != [] && q + |data| < RecvPos(e.hist) + QUARTER && q + |data| <= 1 + |r.sent|
    requires data == r.sent[q - 1..q - 1 + |data|]
    ensures var f := Place(e, Wrap(r.iss + q), data);
            RecvOk(f, r) && f.hist.fins == 0 && RecvPos(e.hist) <= RecvPos(f.hist)
  {
    hide Wrap, S32, Merge, ScheduleAck, Base, Tiles, KarnOk;
    var rp := RecvPos(e.hist);
    SerialOrder(r.iss, q, rp);
    if q == rp {
      var d := Deliver(e, data);
      DeliverLive(e, data, Peer(r));
      assert d.hist.delivered == r.sent[..rp - 1 + |data|];
      MergeHonest(d, r, rp);
      MergeLive(d, Peer(r));
      ScheduleAckLive(Merge(d), false, Peer(r));
      NotedFinLater(e, Merge(d), r);
    } else {
      StoreHonest(e, r, q, data);
      var s := StoreOoo(e, Wrap(r.iss + q), data);
      SetOoo(e, s.rcv.ooo, Peer(r));
      ScheduleAckLive(s, true, Peer(r));
    }
  }

  lemma NotedFinLater(e: Engine, f: Engine, r: Stream)
    requires NotedFinOk(e.rcv.pendingFin, r, e.hist) && f.rcv.pendingFin == e.rcv.pendingFin
    requires f.hist.fins == e.hist.fins && RecvPos(e.hist) <= RecvPos(f.hist)
    ensures NotedFinOk(f.rcv.pendingFin, r, f.hist)
  {
  }

  /** A genuine data segment: trimmed, cut to the window, delivered or stored. */
  lemma RecvDataHonest(e: Engine, seg: Segment, pos: int, r: Stream)
    requires RecvOk(e, r) && Live(e, Peer(r)) && e.hist.fins == 0 && e.state != SYN_RECEIVED
    requires Piecewise(seg, pos, r) && TimelyData(pos, |seg.payload|, RecvPos(e.hist))
    ensures var f := RecvData(e, seg); RecvOk(f, r) && f.hist.fins == 0 && RecvPos(e.hist) <= RecvPos(f.hist)
  {
    hide Wrap, S32, Place, ScheduleAck, Base, RcvWnd, BlocksOk, NotedFinOk, Genuine;
    if seg.payload != [] {
      var rp, n := RecvPos(e.hist), |seg.payload|;
      ScheduleAckLive(e, true, Peer(r));
      SerialOrder(r.iss, pos, rp);
      if pos < rp { SubWraps(r.iss, rp, pos); }
      var off := if pos < rp then rp - pos else 0;
      if off < n {
        var q := pos + off;
        RcvWndWithinBuffer(e);
        SpaceIs(r.iss, rp, RcvWnd(e), q);
        var space := rp + RcvWnd(e) - q;
        if space > 0 {
          var data := seg.payload[off..][..Min(space, n - off)];
          PieceSlice(seg, pos, r, off, |data|);
          PlaceHonest(e, r, q, data);
        }
      }
    }
  }

  /** A part of a genuine payload is that part of the stream. */
  lemma PieceSlice(seg: Segment, pos: int, r: Stream, off: nat, k: nat)
    requires Piecewise(seg, pos, r) && seg.payload != [] && off + k <= |seg.payload|
    ensures 1 <= pos && pos + |seg.payload| <= 1 + |r.sent|
    ensures seg.payload[off..][..k] == r.sent[pos + off - 1..pos + off - 1 + k]
  {
    hide Wrap;
    SliceOfSlice(r.sent, pos - 1, |seg.payload|, off, k);
  }

  lemma SliceOfSlice(s: seq<byte>, a: int, n: nat, off: nat, k: nat)
    requires 0 <= a && a + n <= |s| && off + k <= n
    ensures s[a..a + n][off..][..k] == s[a + off..a + off + k]
  {
  }

  lemma SpaceIs(base: u32, rp: int, wnd: nat, q: int)
    requires rp <= q < rp + HALF && wnd < QUARTER
    ensures S32(Sub(Add(Wrap(base + rp), wnd), Wrap(base + q))) == rp + wnd - q
  {
    hide Wrap, S32;
    AddWraps(base, rp, wnd);
    assert base + rp + wnd == base + (rp + wnd);
    SignedOfSub(Wrap(base + (rp + wnd)), Wrap(base + q));
    SerialDifference(base, rp + wnd, q);
  }
}
