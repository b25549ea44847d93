/** The window an engine offers and the right edge it advertises with it: how they follow from the free buffer, and
    by how much the edge moves from one segment to the next. */
module WindowEdge {
  import opened SeqNum
  import opened EngineState
  import opened EngineSpec
  import opened SendPath
  import opened Opening
  import opened HonestPeer

  // ---------------------------------------------------------------------------------------------
  // The window and its edge
  // ---------------------------------------------------------------------------------------------

  /** How far the raw right edge is beyond the one advertised last, in serial arithmetic. */
  function Ahead(e: Engine): int
    requires e.rcv.advRight.Some?
  {
    S32(Add(e.rcv.nxt, RawWindow(e)) - e.rcv.advRight.value)
  }

  /** What silly-window avoidance holds back of the raw window. */
  function HeldBack(e: Engine): int {
    if e.cfg.timers.swsAvoidance && e.rcv.advRight.Some? && 0 < Ahead(e) < SwsThreshold(e)
    then Min(Ahead(e), RawWindow(e)) else 0
  }

  lemma RcvWndIs(e: Engine)
    requires e.cfg.rcvWnd < 0x4000_0000
    ensures RcvWnd(e) == RawWindow(e) - HeldBack(e)
  {
    if e.cfg.timers.swsAvoidance && e.rcv.advRight.Some? {
      var nxt, raw, adv := e.rcv.nxt, RawWindow(e), e.rcv.advRight.value;
      SignedOfSub(Add(nxt, raw), adv);
      if 0 < Ahead(e) < SwsThreshold(e) { HeldEdge(nxt, raw, adv); }
    }
  }

  /** The window offered is never more than the free buffer, and less only by less than the threshold. */
  lemma WindowNearFreeBuffer(e: Engine)
    requires e.cfg.rcvWnd < 0x4000_0000
    ensures RawWindow(e) - SwsThreshold(e) < RcvWnd(e) <= RawWindow(e)
  {
    hide RcvWnd;
    RcvWndIs(e);
  }

  /** The right edge a segment sent now would advertise, unwrapped. */
  function Edge(e: Engine): int { RecvPos(e.hist) + RcvWnd(e) }

  /** The right edge of the whole free buffer, unwrapped. */
  function RawEdge(e: Engine): int { RecvPos(e.hist) + RawWindow(e) }

  /** What may happen between two segments: RCV.NXT and the raw edge move right. */
  predicate MovesRight(e: Engine, f: Engine) {
    && f.cfg == e.cfg && f.snd.mss == e.snd.mss && f.rcv.advRight == e.rcv.advRight
    && RecvPos(e.hist) <= RecvPos(f.hist) && f.rcv.nxt == Add(e.rcv.nxt, RecvPos(f.hist) - RecvPos(e.hist))
    && RawEdge(e) <= RawEdge(f) < RawEdge(e) + HALF
  }

  lemma AheadRange(e: Engine)
    requires e.rcv.advRight.Some?
    ensures -HALF <= Ahead(e) < HALF
  {
  }

  lemma AheadMoves(e: Engine, f: Engine)
    requires MovesRight(e, f) && e.rcv.advRight.Some?
    ensures var d := Ahead(e) + (RawEdge(f) - RawEdge(e)); Ahead(f) == if d < HALF then d else d - MOD
  {
    hide RawWindow;
    var n, adv := RecvPos(f.hist) - RecvPos(e.hist), e.rcv.advRight.value;
    WrapOfU32(e.rcv.nxt);
    AddWraps(e.rcv.nxt, 0, n);
    AddWraps(e.rcv.nxt, n, RawWindow(f));
    AddWraps(e.rcv.nxt, 0, RawWindow(e));
    SignedMoves(e.rcv.nxt + RawWindow(e), adv, RawEdge(f) - RawEdge(e));
    assert e.rcv.nxt + n + RawWindow(f) == e.rcv.nxt + RawWindow(e) + (RawEdge(f) - RawEdge(e));
  }

  /** Moving a number by `d` moves its signed distance by `d`, modulo 2^32. */
  lemma SignedMoves(x: int, adv: int, d: int)
    requires 0 <= d < HALF
    ensures var s := S32(Wrap(x) - adv) + d; S32(Wrap(x + d) - adv) == if s < HALF then s else s - MOD
  {
    var k := x / MOD;
    var l := (x + d) / MOD;
    var q := (Wrap(x) - adv) / MOD;
    assert Wrap(x) == x - k * MOD && Wrap(x + d) == x + d - l * MOD;
    var s := S32(Wrap(x) - adv);
    assert Wrap(Wrap(x) - adv) == Wrap(x) - adv - q * MOD;
    var c := if s == Wrap(Wrap(x) - adv) then q else q + 1;
    assert s == Wrap(x) - adv - c * MOD;
    assert Wrap(x + d) - adv == s + d + (c + k - l) * MOD;
    RemainderShift(s + d, c + k - l);
  }

  /** Then the edge does not move left. */
  lemma EdgeGrows(e: Engine, f: Engine)
    requires MovesRight(e, f) && e.cfg.rcvWnd < 0x1_0000
    ensures Edge(e) <= Edge(f)
  {
    hide RcvWnd, Ahead, S32, Wrap;
    RcvWndIs(e);
    RcvWndIs(f);
    if e.rcv.advRight.Some? {
      AheadMoves(e, f);
      AheadRange(e);
    }
  }

  /** Advertising the edge leaves it where it is. */
  lemma EdgeAdvertised(e: Engine, f: Engine)
    requires e.cfg.rcvWnd < 0x4000_0000 && f.cfg == e.cfg && f.snd.mss == e.snd.mss && f.hist == e.hist
    requires f.rcv == e.rcv.(zeroWin := f.rcv.zeroWin, advRight := Some(AdvertisedRight(e)))
    ensures Edge(f) == Edge(e)
  {
    hide RcvWnd, Ahead, S32, Wrap, SeqGt;
    RcvWndIs(e);
    RcvWndIs(f);
    RightIsHeldBack(e, f);
  }

  lemma RightIsHeldBack(e: Engine, f: Engine)
    requires e.cfg.rcvWnd < 0x4000_0000 && f.cfg == e.cfg && RcvWnd(e) == RawWindow(e) - HeldBack(e)
    requires f.rcv == e.rcv.(zeroWin := f.rcv.zeroWin, advRight := Some(AdvertisedRight(e)))
    ensures if e.rcv.advRight.None? || SeqGt(Add(e.rcv.nxt, RcvWnd(e)), e.rcv.advRight.value)
            then Ahead(f) == HeldBack(e) else Ahead(f) == Ahead(e)
  {
    hide RcvWnd, S32, Wrap, SeqGt;
    var nxt, raw, w := e.rcv.nxt, RawWindow(e), RcvWnd(e);
    WrapOfU32(nxt);
    AddWraps(nxt, 0, raw);
    AddWraps(nxt, 0, w);
    assert 0 <= raw - w < HALF by { WindowNearFreeBuffer(e); }
    SerialDifference(nxt, raw, w);
  }

  /** A segment that tells the peer a window. */
  predicate Advertises(p: Packet) { p.seg.flags.ack && !p.seg.flags.rst }

  function PacketEdge(p: Packet): int { p.ackPos + p.seg.window }

  /** States in which stored blocks may still be delivered. */
  predicate TakesText(s: ConnState) {
    s == SYN_RECEIVED || s == ESTABLISHED || s == FIN_WAIT_1 || s == FIN_WAIT_2
  }

  // ---------------------------------------------------------------------------------------------
  // Strides
  // ---------------------------------------------------------------------------------------------

  /** The last packet that advertised an edge. */
  function Last(ps: seq<Packet>): Option<Packet> {
    if ps == [] then None
    else if Advertises(ps[|ps| - 1]) then Some(ps[|ps| - 1])
    else Last(ps[..|ps| - 1])
  }

  /** From `p` to `q` the edge stays, or moves right by at least `thr`, or moves by one over a FIN consumed between. */
  predicate Stride(p: Packet, q: Packet, thr: int) {
    || PacketEdge(q) == PacketEdge(p)
    || PacketEdge(q) >= PacketEdge(p) + thr
    || (PacketEdge(q) == PacketEdge(p) + 1 && q.fins == p.fins + 1)
  }

  predicate Strides(ps: seq<Packet>, thr: int) {
    ps == []
    || (&& Strides(ps[..|ps| - 1], thr)
        && (Advertises(ps[|ps| - 1]) && Last(ps[..|ps| - 1]).Some? ==> Stride(Last(ps[..|ps| - 1]).value, ps[|ps| - 1], thr)))
  }

  lemma StridesPush(ps: seq<Packet>, p: Packet, thr: int)
    ensures Last(ps + [p]) == if Advertises(p) then Some(p) else Last(ps)
    ensures Strides(ps + [p], thr) <==>
              Strides(ps, thr) && (Advertises(p) && Last(ps).Some? ==> Stride(Last(ps).value, p, thr))
  {
    assert (ps + [p])[..|ps|] == ps;
  }

  /** Every edge advertised was `edge`, before any FIN. */
  ghost predicate SameEdges(ps: seq<Packet>, edge: int) {
    forall i :: 0 <= i < |ps| && Advertises(ps[i]) ==> PacketEdge(ps[i]) == edge && ps[i].fins == 0
  }

  lemma {:induction false} SameEdgesStride(ps: seq<Packet>, edge: int, thr: int)
    requires SameEdges(ps, edge)
    ensures Strides(ps, thr) && (Last(ps).Some? ==> PacketEdge(Last(ps).value) == edge && Last(ps).value.fins == 0)
  {
    if ps != [] { SameEdgesStride(ps[..|ps| - 1], edge, thr); }
  }

  /** Where `p`, the last to advertise an edge, stands to `e`: `late` deliveries and `fin` FINs may have come since
      that the counters do not show yet. Unless the free buffer reaches far enough beyond the edge to advertise it,
      nothing beyond the edge is taken. */
  ghost predicate LastStands(e: Engine, base: int, p: Packet, late: nat, fin: nat) {
    var edge := PacketEdge(p);
    && e.rcv.advRight == Some(Wrap(base + edge)) && edge <= RawEdge(e) && p.fins + fin == e.hist.fins
    && RecvPos(e.hist) <= edge + 0x1_0000 * (e.tm.ackCount + late) + fin
    && (|| RawEdge(e) >= edge + SwsThreshold(e)
        || (&& RecvPos(e.hist) <= edge + fin
            && (TakesText(e.state) ==> forall i :: 0 <= i < |e.rcv.ooo| ==> e.rcv.ooo[i].EndPos() <= edge)))
  }

  /** The packets sent from the place `from` on. */
  function Told(e: Engine, from: nat): seq<Packet> { if from <= |e.wire| then e.wire[from..] else [] }

  lemma ToldPush(e: Engine, f: Engine, from: nat, p: Packet)
    requires f.wire == e.wire + [p] && from <= |e.wire|
    ensures Told(f, from) == Told(e, from) + [p] && (Advertises(p) ==> Last(Told(f, from)) == Some(p))
  {
    assert (Told(e, from) + [p])[..|Told(e, from)|] == Told(e, from);
  }

  /** While the handshake goes on nothing is delivered, and what came with the peer's SYN is within the edge; a
      passive opener has advertised its whole buffer and nothing else, in earlier attempts too. */
  ghost predicate StillOpening(e: Engine, from: nat) {
    && e.hist.delivered == [] && e.hist.fins == 0 && e.rcv.buf == []
    && (e.passive ==> e.rcv.ooo == [] && SameEdges(e.wire, 1 + e.cfg.rcvWnd))
    && (e.rcv.advRight.Some? ==> Last(Told(e, from)).Some? && StoredWithin(e, PacketEdge(Last(Told(e, from)).value)))
  }

  ghost predicate StoredWithin(e: Engine, edge: int) {
    RecvPos(e.hist) <= edge && forall i :: 0 <= i < |e.rcv.ooo| ==> e.rcv.ooo[i].EndPos() <= edge
  }

  /** The edges advertised from the place `from` on move in strides, and will. */
  ghost predicate Strided(e: Engine, base: int, from: nat, late: nat, fin: nat) {
    && e.tm.ackCount + late <= 2 && fin <= 1 && from <= |e.wire|
    && Strides(Told(e, from), SwsThreshold(e))
    && (e.rcv.advRight.None? || e.state == SYN_RECEIVED ==> StillOpening(e, from) && late == 0 && fin == 0)
    && (e.rcv.advRight.None? ==> e.passive && from == 0)
    && (e.rcv.advRight.Some? ==> Last(Told(e, from)).Some? && LastStands(e, base, Last(Told(e, from)).value, late, fin))
  }

  /** The receive side as numbers: what the strides need of it. */
  ghost predicate Placed32(e: Engine, base: int) {
    && e.cfg.rcvWnd < 0x1_0000 && e.cfg.timers.swsAvoidance && |e.rcv.buf| <= e.cfg.rcvWnd
    && e.rcv.nxt == Wrap(base + RecvPos(e.hist))
    && (TakesText(e.state) ==> forall i :: 0 <= i < |e.rcv.ooo| ==> e.rcv.ooo[i].EndPos() <= RawEdge(e))
  }

  /** The serial distance to the edge advertised last is the true one. */
  lemma AheadOfLast(e: Engine, base: int, edge: int)
    requires Placed32(e, base) && e.rcv.advRight == Some(Wrap(base + edge)) && edge <= RawEdge(e) < edge + HALF
    ensures Ahead(e) == RawEdge(e) - edge
  {
    hide RawWindow;
    AddWraps(base, RecvPos(e.hist), RawWindow(e));
    assert base + RecvPos(e.hist) + RawWindow(e) == base + RawEdge(e);
    SerialDifference(base, RawEdge(e), edge);
  }

  /** The edge offered, from the one advertised last. */
  lemma EdgeFromLast(e: Engine, base: int, p: Packet, late: nat, fin: nat)
    requires Placed32(e, base) && LastStands(e, base, p, late, fin) && e.tm.ackCount + late <= 2 && fin <= 1
    ensures var edge := PacketEdge(p);
            && edge <= RawEdge(e) < edge + HALF
            && Edge(e) == if RawEdge(e) >= edge + SwsThreshold(e) then RawEdge(e) else Max(edge, RecvPos(e.hist))
  {
    hide RcvWnd, Ahead;
    RcvWndIs(e);
    AheadOfLast(e, base, PacketEdge(p));
  }

  /** The right edge recorded is the one offered; `edge` is the one advertised last. */
  lemma RightIs(e: Engine, base: int, edge: int)
    requires Placed32(e, base)
    requires e.rcv.advRight.Some? ==>
               e.rcv.advRight == Some(Wrap(base + edge)) && edge <= Edge(e) && RawEdge(e) < edge + HALF
    ensures AdvertisedRight(e) == Wrap(base + Edge(e))
  {
    hide RcvWnd, Wrap, SeqGt, RawWindow;
    WindowNearFreeBuffer(e);
    AddWraps(base, RecvPos(e.hist), RcvWnd(e));
    assert base + RecvPos(e.hist) + RcvWnd(e) == base + Edge(e);
    if e.rcv.advRight.Some? { SerialOrder(base, Edge(e), edge); }
  }

  /** `p` was just sent: nothing taken lies beyond the edge it advertised. */
  ghost predicate JustSent(f: Engine, base: int, p: Packet) {
    var edge := PacketEdge(p);
    && f.rcv.advRight == Some(Wrap(base + edge)) && edge <= RawEdge(f) && p.fins == f.hist.fins && RecvPos(f.hist) <= edge
    && (TakesText(f.state) ==> forall i :: 0 <= i < |f.rcv.ooo| ==> f.rcv.ooo[i].EndPos() <= edge)
  }

  lemma JustSentStands(f: Engine, base: int, p: Packet)
    requires JustSent(f, base, p)
    ensures LastStands(f, base, p, 0, 0)
  {
  }

  /** What the edge offered is, in every case. */
  lemma OfferedEdge(e: Engine, base: int, from: nat, late: nat, fin: nat)
    requires Placed32(e, base) && Strided(e, base, from, late, fin)
    ensures RecvPos(e.hist) <= Edge(e) <= RawEdge(e) && AdvertisedRight(e) == Wrap(base + Edge(e))
    ensures TakesText(e.state) ==> forall i :: 0 <= i < |e.rcv.ooo| ==> e.rcv.ooo[i].EndPos() <= Edge(e)
    ensures e.rcv.advRight.Some? ==>
              var p, edge := Last(Told(e, from)).value, Edge(e);
              || edge == PacketEdge(p) || edge >= PacketEdge(p) + SwsThreshold(e)
              || (edge == PacketEdge(p) + 1 && e.hist.fins == p.fins + 1)
    ensures e.rcv.advRight.None? || (e.state == SYN_RECEIVED && e.passive) ==> Edge(e) == 1 + e.cfg.rcvWnd
  {
    hide RcvWnd, AdvertisedRight, Strides, Wrap, Ahead, Told;
    RcvWndIs(e);
    if e.rcv.advRight.Some? {
      EdgeFromLast(e, base, Last(Told(e, from)).value, late, fin);
      if e.state == SYN_RECEIVED && e.passive { SameEdgesTold(e, from, 1 + e.cfg.rcvWnd, SwsThreshold(e)); }
    }
    RightIs(e, base, if e.rcv.advRight.Some? then PacketEdge(Last(Told(e, from)).value) else 0);
  }

  lemma SameEdgesTold(e: Engine, from: nat, edge: int, thr: int)
    requires SameEdges(e.wire, edge)
    ensures var ps := Told(e, from); Strides(ps, thr) && (Last(ps).Some? ==> PacketEdge(Last(ps).value) == edge && Last(ps).value.fins == 0)
  {
    SameEdgesStride(Told(e, from), edge, thr);
  }

  /** An emission advertises the edge offered, in a stride, and stands as the last from then on. */
  lemma EmitStrides(e: Engine, sn: u32, flags: Flags, payload: seq<byte>, withMss: bool, base: int, from: nat, late: nat, fin: nat)
    requires Placed32(e, base) && Strided(e, base, from, late, fin) && flags.ack && !flags.rst
    ensures var f := Emit(e, sn, flags, payload, withMss); Settles(f, base, from) && Placed32(f, base)
  {
    hide RcvWnd, AdvertisedRight, Strides, Wrap, PosOf, Reach, Last, Stride, SwsThreshold, Told;
    OfferedEdge(e, base, from, late, fin);
    var f := Emit(e, sn, flags, payload, withMss);
    var p := f.wire[|e.wire|];
    assert f.wire == e.wire + [p] && Advertises(p) && PacketEdge(p) == Edge(e) && p.fins == e.hist.fins;
    ToldPush(e, f, from, p);
    StridesPush(Told(e, from), p, SwsThreshold(e));
    assert SwsThreshold(f) == SwsThreshold(e) by { SameThreshold(e, f); }
    if e.passive && (e.rcv.advRight.None? || e.state == SYN_RECEIVED) {
      SameEdgesTold(f, from, 1 + e.cfg.rcvWnd, SwsThreshold(e));
    } else {
      assert Stride(Last(Told(e, from)).value, p, SwsThreshold(e)) by { StrideIs(Last(Told(e, from)).value, e, p); }
    }
    JustSentStands(f, base, p);
  }

  /** An edge was advertised and nothing has been taken since. */
  ghost predicate Settles(f: Engine, base: int, from: nat) {
    Strided(f, base, from, 0, 0) && f.rcv.advRight.Some? && JustSent(f, base, Last(Told(f, from)).value)
  }

  lemma SameThreshold(e: Engine, f: Engine)
    requires f.cfg == e.cfg && f.snd.mss == e.snd.mss
    ensures SwsThreshold(f) == SwsThreshold(e)
  {
  }

  lemma StrideIs(q: Packet, e: Engine, p: Packet)
    requires var edge := PacketEdge(p);
             || edge == PacketEdge(q) || edge >= PacketEdge(q) + SwsThreshold(e)
             || (edge == PacketEdge(q) + 1 && p.fins == q.fins + 1)
    ensures Stride(q, p, SwsThreshold(e))
  {
  }

  /** ... so clearing the count of delayed acknowledgements does no harm. */
  lemma CountCleared(f: Engine, g: Engine, base: int, from: nat)
    requires Settles(f, base, from) && g == f.(tm := g.tm) && g.tm.ackCount <= 2
    ensures Strided(g, base, from, 0, 0)
  {
    hide Strides, Wrap, Last;
    assert SwsThreshold(g) == SwsThreshold(f);
  }

  /** The last advertised edge holds while RCV.NXT and the free buffer's edge move right, as far as the edge offered
      allows: what is delivered since shows in the count of acknowledgements put off, or in `late`. */
  lemma StridedGrows(e: Engine, f: Engine, base: int, from: nat, late: nat)
    requires Placed32(e, base) && Strided(e, base, from, 0, 0) && e.tm.ackCount + late <= 2 && e.state != SYN_RECEIVED
    requires f.cfg == e.cfg && f.snd.mss == e.snd.mss && f.wire == e.wire && f.rcv.advRight == e.rcv.advRight && f.state == e.state
    requires f.hist.fins == e.hist.fins && f.tm.ackCount == e.tm.ackCount && RawEdge(e) <= RawEdge(f) && e.rcv.advRight.Some?
    requires forall b :: b in f.rcv.ooo ==> b in e.rcv.ooo
    requires || RecvPos(f.hist) <= (if late > 0 then Taken(e, from, RawEdge(e)) else RecvPos(e.hist))
             || RecvPos(f.hist) <= PacketEdge(Last(Told(e, from)).value)
    ensures Strided(f, base, from, late, 0)
  {
    hide Strides, Wrap, Last, RawWindow;
    assert SwsThreshold(f) == SwsThreshold(e);
    forall i | 0 <= i < |f.rcv.ooo| ensures exists j :: 0 <= j < |e.rcv.ooo| && e.rcv.ooo[j] == f.rcv.ooo[i] {
      assert f.rcv.ooo[i] in e.rcv.ooo;
    }
    RawNear(e);
  }

  lemma RawNear(e: Engine)
    requires e.cfg.rcvWnd < 0x1_0000
    ensures RecvPos(e.hist) <= RawEdge(e) < RecvPos(e.hist) + 0x1_0000
  {
  }

  /** How far data may be taken: up to the edge offered, which is the last advertised or `raw`. */
  function Taken(e: Engine, from: nat, raw: int): int {
    if Last(Told(e, from)).Some? && RawEdge(e) < PacketEdge(Last(Told(e, from)).value) + SwsThreshold(e)
    then PacketEdge(Last(Told(e, from)).value) else raw
  }

  // ---------------------------------------------------------------------------------------------
  // An active opener's first edge
  // ---------------------------------------------------------------------------------------------

  /** Our SYN recorded a right edge counted from RCV.NXT as it was then. The peer's SYN, of number `sn`, moves RCV.NXT
      forward, or not at all, in serial arithmetic. */
  predicate MovesForward(e: Engine, sn: u32) { S32(Add(sn, 1) - e.rcv.nxt) >= 0 }

  /** The peer's SYN is taken, and nothing sent since: what the record stands at is the whole buffer from `start`. */
  ghost predicate PeerKnown(m: Engine, base: int, start: u32) {
    && m.cfg.rcvWnd < 0x1_0000 && m.cfg.timers.swsAvoidance && m.hist.delivered == [] && m.hist.fins == 0 && m.rcv.buf == []
    && m.rcv.nxt == Wrap(base + 1) && m.rcv.advRight == Some(Add(start, m.cfg.rcvWnd))
  }

  /** The edge then offered: that of the record if it is not far behind, and otherwise the whole buffer's. */
  lemma FirstEdge(m: Engine, base: int, start: u32)
    requires PeerKnown(m, base, start)
    ensures var d, w := S32(m.rcv.nxt - start), m.cfg.rcvWnd;
            && Edge(m) == (if 0 < d < SwsThreshold(m) then 1 + w - d else 1 + w)
            && AdvertisedRight(m) == (if d >= 0 then Wrap(base + Edge(m)) else Add(start, w))
  {
    hide Wrap, S32, RcvWnd, SeqGt;
    var nxt, d, w := m.rcv.nxt, S32(m.rcv.nxt - start), m.cfg.rcvWnd;
    RcvWndIs(m);
    ShiftBoth(nxt, start, w);
    assert RawWindow(m) == w && Ahead(m) == d;
    AddWraps(base, 1, RcvWnd(m));
    assert base + 1 + RcvWnd(m) == base + Edge(m);
    RightAgainst(nxt, start, w, if 0 < d < SwsThreshold(m) then d else 0);
  }

  lemma ShiftBoth(a: u32, b: u32, w: nat)
    requires w < 0x1_0000
    ensures S32(Add(a, w) - Add(b, w)) == S32(a - b)
  {
    var k, l := (a + w) / MOD, (b + w) / MOD;
    assert Add(a, w) - Add(b, w) == a - b + (l - k) * MOD;
    RemainderShift(a - b, l - k);
  }

  /** The edge of a window that holds back `held` against one of the whole window from `start`. */
  lemma RightAgainst(nxt: u32, start: u32, w: nat, held: nat)
    requires w < 0x1_0000 && held <= w && (held > 0 ==> held == S32(nxt - start))
    ensures SeqGt(Add(nxt, w - held), Add(start, w)) <==> held == 0 && S32(nxt - start) > 0
    ensures held > 0 || S32(nxt - start) == 0 ==> Add(nxt, w - held) == Add(start, w)
  {
    if held == 0 {
      ShiftBoth(nxt, start, w);
      if S32(nxt - start) == 0 { assert nxt == start; }
    } else {
      var k := nxt - start - held;
      assert k == 0 || k == -MOD;
      assert nxt + (w - held) == start + w + k;
      RemainderShift(start + w, if k == 0 then 0 else -1);
    }
  }

  /** The first segment of an active opener to advertise an edge: if the record was not ahead it is now that edge, and
      the strides begin here. */
  lemma FirstOffer(m: Engine, sn: u32, flags: Flags, payload: seq<byte>, withMss: bool, base: int, start: u32)
    requires PeerKnown(m, base, start) && S32(m.rcv.nxt - start) >= 0 && flags.ack && !flags.rst && !m.passive && m.tm.ackCount <= 1
    requires forall i :: 0 <= i < |m.rcv.ooo| ==> m.rcv.ooo[i].EndPos() <= Edge(m)
    ensures Settles(Emit(m, sn, flags, payload, withMss), base, |m.wire|)
  {
    hide RcvWnd, AdvertisedRight, Wrap, PosOf, Reach, S32, Strides, Last;
    FirstEdge(m, base, start);
    WindowNearFreeBuffer(m);
    var f := Emit(m, sn, flags, payload, withMss);
    var p := f.wire[|m.wire|];
    assert f.wire == m.wire + [p] && Advertises(p) && PacketEdge(p) == Edge(m);
    ToldPush(m, f, |m.wire|, p);
    assert Told(m, |m.wire|) == [];
    StridesPush([], p, SwsThreshold(m));
    NoStride(SwsThreshold(m));
    assert SwsThreshold(f) == SwsThreshold(m);
    JustSentStands(f, base, p);
  }

  lemma NoStride(thr: int)
    ensures Strides([], thr) && Last([]) == None
  {
  }
}
