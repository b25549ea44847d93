/** What the sending side of one engine keeps, whatever segments arrive: the bytes the application handed
    over are exactly the acknowledged ones, the retransmission queue and the application buffer, in order,
    and everything on the wire is a piece of that stream. */
module SendInvariant {
  import opened SeqNum
  import opened EngineState
  import opened EngineSpec

  // ---------------------------------------------------------------------------------------------
  // Predicates
  // ---------------------------------------------------------------------------------------------

  /** `flags` and `payload` at position `pos` are a piece of the stream `sent`, ended by a FIN if `fin`. */
  ghost predicate Genuine(flags: Flags, payload: seq<byte>, pos: int, sent: seq<byte>, fin: bool) {
    && 0 <= pos
    && pos + SpaceLen(flags, payload) <= 1 + |sent| + Bit(fin)
    && (if flags.syn then pos == 0 && payload == [] && !flags.fin else flags.ack)
    && (payload != [] ==> 1 <= pos && pos - 1 + |payload| <= |sent| && payload == sent[pos - 1..pos - 1 + |payload|])
    && (flags.fin ==> fin && pos + |payload| == |sent| + 1)
  }

  ghost predicate EntryOk(o: Outgoing, iss: u32, h: History) {
    && o.seqNo == Wrap(iss + o.pos)
    && o.SegLen() > 0
    && !o.flags.rst
    && Genuine(o.flags, o.payload, o.pos, h.sent, h.finOut)
  }

  /** The queue tiles the positions from `from` to SND.NXT: no gap, no overlap. */
  ghost predicate Tiles(retx: seq<Outgoing>, iss: u32, from: int, h: History) {
    if retx == [] then from == SentEnd(h)
    else
      && EntryOk(retx[0], iss, h)
      && retx[0].pos == from
      && Tiles(retx[1..], iss, retx[0].EndPos(), h)
  }

  /** The measurement `m` times the entry that ends at `m.0`: it was sent at `m.1`, never retransmitted, and
      put on the wire once; but the SYN of a simultaneous open goes out again, as a SYN-ACK, while timed. */
  predicate TimedBy(o: Outgoing, m: (u32, real), passive: bool) {
    && o.End() == m.0 && o.sentTime == m.1 && !o.retransmitted
    && o.copies == (if !passive && o.flags.syn && o.flags.ack then 2 else 1)
  }

  /** Karn's rule: what is being timed is in the queue and was not retransmitted. */
  ghost predicate KarnOk(retx: seq<Outgoing>, m: Option<(u32, real)>, passive: bool) {
    m.Some? ==> exists i :: 0 <= i < |retx| && TimedBy(retx[i], m.value, passive)
  }

  /** A passive opener never queues a segment without an acknowledgement. */
  predicate AllAck(retx: seq<Outgoing>, passive: bool) {
    passive ==> forall i :: 0 <= i < |retx| ==> retx[i].flags.ack
  }

  /** The packet carries the sequence number at position `x`. */
  predicate Carries(p: Packet, x: int) { !p.seg.flags.rst && p.pos <= x < p.pos + p.seg.SegLen() }

  /** How many of the packets carry it. */
  function Times(ps: seq<Packet>, x: int): nat {
    if ps == [] then 0 else Times(ps[..|ps| - 1], x) + Bit(Carries(ps[|ps| - 1], x))
  }

  /** A reset, or nothing beyond the SYN. */
  predicate OnlySynAt(p: Packet) { p.seg.flags.rst || p.pos + p.seg.SegLen() <= 1 }

  /** `copies` counts the packets on the wire: each entry's last sequence number was sent so often since the
      attempt began, and before it nothing but a SYN was. */
  ghost predicate Tally(retx: seq<Outgoing>, wire: seq<Packet>, since: nat) {
    && since <= |wire| && (forall i :: 0 <= i < since ==> OnlySynAt(wire[i]))
    && (forall i :: 0 <= i < |retx| ==> Times(wire[since..], retx[i].EndPos() - 1) == retx[i].copies)
  }

  /** The send side of an open connection. */
  ghost predicate SendOk(e: Engine) {
    var s, h := e.snd, e.hist;
    && h.synOut && s.iss == e.cfg.iss
    && s.nxt == Wrap(s.iss + SentEnd(h))
    && s.una == Wrap(s.iss + h.unaPos)
    && 0 <= h.unaPos <= SentEnd(h) < h.unaPos + HALF
    && s.wnd < 0x1_0000
    && Tiles(s.retx, s.iss, h.unaPos, h)
    && h.accepted == h.sent + s.appBuf
    && s.finSent == h.finOut
    && (h.finOut ==> s.finPending && s.appBuf == [] && s.finSeq == Wrap(s.iss + 1 + |h.sent|))
    && s.finAcked == (h.finOut && h.unaPos == SentEnd(h))
    && KarnOk(s.retx, s.rttPending, e.passive) && AllAck(s.retx, e.passive)
    && Tally(s.retx, e.wire, h.since)
  }

  /** An acknowledgement that is put off has a timer that will send it. */
  predicate AckTimed(t: Timers) { t.ackCount <= 1 && (t.ackCount == 1 ==> t.ack.Some?) }

  /** Exactly a queue with something to retransmit has a live retransmission timer, and the user timeout counting. */
  ghost predicate RtLive(e: Engine) { (e.tm.rt.Some? <==> e.snd.retx != []) && (e.tm.unaSince.Some? <==> e.snd.retx != []) }

  /** RCV.NXT is where the peer's stream, starting at `peer`, has been taken to. Without a known peer nothing
      is claimed. */
  ghost predicate Knows(e: Engine, peer: Option<u32>) {
    peer.Some? ==> e.rcv.nxt == Wrap(peer.value + RecvPos(e.hist))
  }

  /** Where the stream sent so far ends. */
  function StreamEnd(h: History): int { 1 + |h.sent| + Bit(h.finOut) }

  ghost predicate AckOk(p: Packet, h: History, peer: Option<u32>) {
    peer.Some? && p.seg.flags.ack ==>
      p.seg.ackNo == Wrap(peer.value + p.ackPos) && 1 <= p.ackPos <= RecvPos(h)
  }

  /** A packet has no undecoded options, and is a reset or a piece of the sender's stream that acknowledges no more than was received. */
  ghost predicate PacketOk(p: Packet, iss: u32, h: History, peer: Option<u32>) {
    p.seg.rawOptions == [] &&
    (|| p.seg.flags.rst
     || (&& p.seg.seqNo == Wrap(iss + p.pos)
         && Genuine(p.seg.flags, p.seg.payload, p.pos, h.sent, h.finOut)
         && p.pos + p.seg.SegLen() <= p.upTo <= StreamEnd(h) && 1 <= p.upTo < p.pos + HALF
         && AckOk(p, h, peer)))
  }

  ghost predicate WireOk(e: Engine, peer: Option<u32>) {
    && (forall i :: 0 <= i < |e.wire| ==> PacketOk(e.wire[i], e.cfg.iss, e.hist, peer))
    && (peer.Some? ==> Ordered(e.wire))
  }

  /** Packets are in the order in which the stream and the acknowledgements grew. */
  ghost predicate Ordered(ps: seq<Packet>) {
    forall i, j :: 0 <= i < j < |ps| ==> InOrder(ps[i], ps[j])
  }

  predicate InOrder(p: Packet, q: Packet) {
    !p.seg.flags.rst && !q.seg.flags.rst ==>
      p.upTo <= q.upTo && (p.seg.flags.ack && q.seg.flags.ack ==> p.ackPos <= q.ackPos)
  }

  /** Streams only grow, and a stream does not grow after its FIN. */
  ghost predicate Grows(h: History, h': History) {
    && h.sent <= h'.sent
    && (h.finOut ==> h'.finOut && h'.sent == h.sent)
    && RecvPos(h) <= RecvPos(h')
  }

  // ---------------------------------------------------------------------------------------------
  // Growth
  // ---------------------------------------------------------------------------------------------

  lemma GenuineGrows(f: Flags, p: seq<byte>, pos: int, h: History, h': History)
    requires Genuine(f, p, pos, h.sent, h.finOut) && Grows(h, h')
    ensures Genuine(f, p, pos, h'.sent, h'.finOut)
  {
    if p != [] {
      assert h'.sent[pos - 1..pos - 1 + |p|] == h.sent[pos - 1..pos - 1 + |p|];
    }
  }

  lemma WireGrows(e: Engine, f: Engine, peer: Option<u32>)
    requires WireOk(e, peer) && f.wire == e.wire && f.cfg == e.cfg && Grows(e.hist, f.hist)
    ensures WireOk(f, peer)
  {
    forall i | 0 <= i < |f.wire| ensures PacketOk(f.wire[i], f.cfg.iss, f.hist, peer) {
      var p := e.wire[i];
      assert PacketOk(p, e.cfg.iss, e.hist, peer);
      if !p.seg.flags.rst { GenuineGrows(p.seg.flags, p.seg.payload, p.pos, e.hist, f.hist); }
    }
  }

  lemma WirePush(e: Engine, f: Engine, peer: Option<u32>)
    requires WireOk(e, peer) && f.cfg == e.cfg && Grows(e.hist, f.hist)
    requires |f.wire| == |e.wire| + 1 && f.wire[..|e.wire|] == e.wire
    requires PacketOk(f.wire[|e.wire|], f.cfg.iss, f.hist, peer)
    requires !f.wire[|e.wire|].seg.flags.rst ==> StreamEnd(e.hist) <= f.wire[|e.wire|].upTo && f.wire[|e.wire|].ackPos == RecvPos(e.hist)
    ensures WireOk(f, peer)
  {
    WireGrows(e, f.(wire := e.wire), peer);
    if peer.Some? { LatestIsLast(e, f, peer); }
    forall i | 0 <= i < |f.wire| ensures PacketOk(f.wire[i], f.cfg.iss, f.hist, peer) {
      if i < |e.wire| {
        assert f.wire[i] == f.wire[..|e.wire|][i];
        assert PacketOk(f.(wire := e.wire).wire[i], f.cfg.iss, f.hist, peer);
      }
    }
  }

  lemma LatestIsLast(e: Engine, f: Engine, peer: Option<u32>)
    requires WireOk(e, peer) && peer.Some? && |f.wire| == |e.wire| + 1 && f.wire[..|e.wire|] == e.wire
    requires !f.wire[|e.wire|].seg.flags.rst ==> StreamEnd(e.hist) <= f.wire[|e.wire|].upTo && f.wire[|e.wire|].ackPos == RecvPos(e.hist)
    ensures Ordered(f.wire)
  {
    hide Genuine;
    forall i, j | 0 <= i < j < |f.wire| ensures InOrder(f.wire[i], f.wire[j]) {
      assert f.wire[i] == f.wire[..|e.wire|][i];
      assert PacketOk(e.wire[i], e.cfg.iss, e.hist, peer);
      if j < |e.wire| { assert f.wire[j] == f.wire[..|e.wire|][j]; }
    }
  }

  /** Appending an entry at the old end keeps the tiling, up to the new end. */
  lemma {:induction false} TilesAppend(retx: seq<Outgoing>, iss: u32, from: int, h: History, o: Outgoing, h': History)
    requires Tiles(retx, iss, from, h) && Grows(h, h')
    requires EntryOk(o, iss, h') && o.pos == SentEnd(h) && o.EndPos() == SentEnd(h')
    ensures Tiles(retx + [o], iss, from, h')
  {
    if retx == [] {
      assert (retx + [o])[1..] == [];
    } else {
      GenuineGrows(retx[0].flags, retx[0].payload, retx[0].pos, h, h');
      TilesAppend(retx[1..], iss, retx[0].EndPos(), h, o, h');
      assert (retx + [o])[1..] == retx[1..] + [o];
    }
  }

  /** Entries lie between `from` and the end. */
  lemma {:induction false} TilesBound(retx: seq<Outgoing>, iss: u32, from: int, h: History)
    requires Tiles(retx, iss, from, h)
    ensures from <= SentEnd(h)
    ensures retx != [] ==> from < retx[0].EndPos() <= SentEnd(h)
  {
    if retx != [] { TilesBound(retx[1..], iss, retx[0].EndPos(), h); }
  }

  lemma {:induction false} TilesWithin(retx: seq<Outgoing>, iss: u32, from: int, h: History, i: nat)
    requires Tiles(retx, iss, from, h) && i < |retx|
    ensures from < retx[i].EndPos() <= SentEnd(h) && EntryOk(retx[i], iss, h)
  {
    hide EntryOk;
    TilesBound(retx, iss, from, h);
    if i > 0 { TilesWithin(retx[1..], iss, retx[0].EndPos(), h, i - 1); }
  }

  /** The tiling does not depend on how often an entry was sent, nor on a SYN becoming a SYN-ACK. */
  lemma TilesHead(retx: seq<Outgoing>, iss: u32, from: int, h: History, o: Outgoing)
    requires Tiles(retx, iss, from, h) && retx != []
    requires o.seqNo == retx[0].seqNo && o.pos == retx[0].pos && o.payload == retx[0].payload
    requires o.flags == retx[0].flags || (retx[0].flags.syn && o.flags == retx[0].flags.(ack := true))
    ensures Tiles([o] + retx[1..], iss, from, h)
  {
    hide Wrap;
    assert ([o] + retx[1..])[1..] == retx[1..];
  }

  /** The tiling only depends on what was sent. */
  lemma {:induction false} TilesSame(retx: seq<Outgoing>, iss: u32, from: int, h: History, h': History)
    requires Tiles(retx, iss, from, h)
    requires h'.sent == h.sent && h'.finOut == h.finOut && h'.synOut == h.synOut
    ensures Tiles(retx, iss, from, h')
  {
    if retx != [] { TilesSame(retx[1..], iss, retx[0].EndPos(), h, h'); }
  }

  // ---------------------------------------------------------------------------------------------
  // Emission
  // ---------------------------------------------------------------------------------------------

  lemma PosOfWraps(e: Engine, pos: int)
    requires e.snd.nxt == Wrap(e.cfg.iss + SentEnd(e.hist)) && 0 <= SentEnd(e.hist) - pos < MOD
    ensures PosOf(e, Wrap(e.cfg.iss + pos)) == pos
  {
    SubWraps(e.cfg.iss, SentEnd(e.hist), pos);
  }

  lemma EmitOk(e: Engine, pos: int, flags: Flags, payload: seq<byte>, withMss: bool, h: History, peer: Option<u32>)
    requires WireOk(e, peer) && Grows(e.hist, h) && (flags.ack ==> Knows(e, peer))
    requires e.snd.nxt == Wrap(e.cfg.iss + SentEnd(e.hist)) && 0 <= SentEnd(e.hist) - pos < HALF
    requires Genuine(flags, payload, pos, h.sent, h.finOut) && SpaceLen(flags, payload) < HALF
    requires e.hist.synOut || (flags.syn && e.hist.sent == [] && !e.hist.finOut)
    ensures WireOk(Emit(e, Wrap(e.cfg.iss + pos), flags, payload, withMss).(hist := h), peer)
  {
    hide Wrap, WireOk, Genuine, RcvWnd, AdvertisedRight, PosOf;
    PosOfWraps(e, pos);
    GenuineEnds(flags, payload, pos, h);
    WirePush(e, Emit(e, Wrap(e.cfg.iss + pos), flags, payload, withMss).(hist := h), peer);
  }

  lemma GenuineEnds(flags: Flags, payload: seq<byte>, pos: int, h: History)
    requires Genuine(flags, payload, pos, h.sent, h.finOut)
    ensures 0 <= pos && pos + SpaceLen(flags, payload) <= StreamEnd(h) && (flags.syn ==> pos == 0)
  {
  }

  /** A bare acknowledgement at SND.NXT is always genuine. */
  lemma SendAckOk(e: Engine, peer: Option<u32>)
    requires WireOk(e, peer) && e.hist.synOut && e.snd.nxt == Wrap(e.cfg.iss + SentEnd(e.hist)) && Knows(e, peer)
    ensures WireOk(SendAck(e), peer)
  {
    EmitOk(e, SentEnd(e.hist), ACK, [], false, e.hist, peer);
  }

  lemma RstOk(e: Engine, sn: u32, peer: Option<u32>)
    requires WireOk(e, peer)
    ensures WireOk(Emit(e, sn, RST, [], false), peer)
  {
    hide RcvWnd, AdvertisedRight, PosOf;
    WirePush(e, Emit(e, sn, RST, [], false), peer);
  }

  lemma RstReplyOk(e: Engine, seg: Segment, sn: u32, ack: u32, ackFlag: bool, peer: Option<u32>)
    requires WireOk(e, peer)
    ensures WireOk(EmitRstReply(e, seg, sn, ack, ackFlag), peer)
  {
    WirePush(e, EmitRstReply(e, seg, sn, ack, ackFlag), peer);
  }

  // ---------------------------------------------------------------------------------------------
  // Counting packets
  // ---------------------------------------------------------------------------------------------

  lemma TimesPush(ps: seq<Packet>, p: Packet, x: int)
    ensures Times(ps + [p], x) == Times(ps, x) + Bit(Carries(p, x))
  {
    assert (ps + [p])[..|ps|] == ps;
  }

  lemma {:induction false} TimesNone(ps: seq<Packet>, x: int)
    requires forall i :: 0 <= i < |ps| ==> !Carries(ps[i], x)
    ensures Times(ps, x) == 0
  {
    if ps != [] { TimesNone(ps[..|ps| - 1], x); }
  }

  /** A packet that carries no entry's last number leaves the count alone. */
  lemma TallyPush(retx: seq<Outgoing>, wire: seq<Packet>, since: nat, p: Packet)
    requires Tally(retx, wire, since) && forall i :: 0 <= i < |retx| ==> !Carries(p, retx[i].EndPos() - 1)
    ensures Tally(retx, wire + [p], since)
  {
    hide Carries, Times, OnlySynAt;
    assert (wire + [p])[since..] == wire[since..] + [p];
    forall i | 0 <= i < |retx| ensures Times((wire + [p])[since..], retx[i].EndPos() - 1) == retx[i].copies {
      TimesPush(wire[since..], p, retx[i].EndPos() - 1);
    }
  }

  /** ... as any packet without sequence numbers, and any reset, does. */
  lemma TallyEmpty(retx: seq<Outgoing>, wire: seq<Packet>, since: nat, p: Packet)
    requires Tally(retx, wire, since) && (p.seg.SegLen() == 0 || p.seg.flags.rst)
    ensures Tally(retx, wire + [p], since)
  {
    hide Tally, Times;
    TallyPush(retx, wire, since, p);
  }

  /** Entries that end where old ones ended, sent as often, are counted as those were. */
  lemma TallySame(retx: seq<Outgoing>, s: seq<Outgoing>, wire: seq<Packet>, since: nat)
    requires Tally(retx, wire, since)
    requires forall i :: 0 <= i < |s| ==> StillQueued(retx, s[i])
    ensures Tally(s, wire, since)
  {
    hide Times, OnlySynAt;
    forall i | 0 <= i < |s| ensures Times(wire[since..], s[i].EndPos() - 1) == s[i].copies {
      var j :| 0 <= j < |retx| && SameEnd(retx[j], s[i]);
    }
  }

  /** A new entry, sent for the first time beyond all that was sent. */
  lemma TallyQueue(retx: seq<Outgoing>, wire: seq<Packet>, since: nat, p: Packet, o: Outgoing, end: int)
    requires Tally(retx, wire, since) && o.copies == 1 && !p.seg.flags.rst && p.seg.SegLen() > 0
    requires p.pos == end && o.EndPos() == end + p.seg.SegLen()
    requires forall i :: 0 <= i < |retx| ==> retx[i].EndPos() <= end
    requires forall i :: since <= i < |wire| ==> wire[i].seg.flags.rst || wire[i].pos + wire[i].seg.SegLen() <= end
    ensures Tally(retx + [o], wire + [p], since)
  {
    hide Times, OnlySynAt;
    TallyPush(retx, wire, since, p);
    assert (wire + [p])[since..] == wire[since..] + [p];
    TimesPush(wire[since..], p, o.EndPos() - 1);
    forall i | 0 <= i < |wire[since..]| ensures !Carries(wire[since..][i], o.EndPos() - 1) {
      assert wire[since..][i] == wire[since + i];
    }
    TimesNone(wire[since..], o.EndPos() - 1);
  }

  /** The oldest entry, sent once more. */
  lemma TallyAgain(retx: seq<Outgoing>, wire: seq<Packet>, since: nat, p: Packet, o: Outgoing)
    requires Tally(retx, wire, since) && retx != [] && o.EndPos() == retx[0].EndPos() && o.copies == retx[0].copies + 1
    requires Carries(p, o.EndPos() - 1)
    requires forall i :: 0 < i < |retx| ==> !Carries(p, retx[i].EndPos() - 1)
    ensures Tally([o] + retx[1..], wire + [p], since)
  {
    hide Times, OnlySynAt, Carries;
    var s := [o] + retx[1..];
    assert (wire + [p])[since..] == wire[since..] + [p];
    forall i | 0 <= i < |s| ensures Times((wire + [p])[since..], s[i].EndPos() - 1) == s[i].copies {
      TimesPush(wire[since..], p, s[i].EndPos() - 1);
      if i > 0 { assert s[i] == retx[i]; }
    }
  }

  /** A bare segment or a reset leaves the count alone. */
  lemma EmitTally(e: Engine, sn: u32, flags: Flags, payload: seq<byte>, withMss: bool)
    requires Tally(e.snd.retx, e.wire, e.hist.since) && (SpaceLen(flags, payload) == 0 || flags.rst)
    ensures Tally(e.snd.retx, Emit(e, sn, flags, payload, withMss).wire, e.hist.since)
  {
    hide Tally, RcvWnd, AdvertisedRight, PosOf, Reach;
    var f := Emit(e, sn, flags, payload, withMss);
    TallyEmpty(e.snd.retx, e.wire, e.hist.since, f.wire[|e.wire|]);
  }

  lemma RstReplyTally(e: Engine, seg: Segment, sn: u32, ack: u32, ackFlag: bool)
    requires Tally(e.snd.retx, e.wire, e.hist.since)
    ensures Tally(e.snd.retx, EmitRstReply(e, seg, sn, ack, ackFlag).wire, e.hist.since)
  {
    hide Tally;
    var f := EmitRstReply(e, seg, sn, ack, ackFlag);
    TallyEmpty(e.snd.retx, e.wire, e.hist.since, f.wire[|e.wire|]);
  }

  ghost predicate StillQueued(retx: seq<Outgoing>, p: Outgoing) { exists j :: 0 <= j < |retx| && SameEnd(retx[j], p) }

  predicate SameEnd(o: Outgoing, p: Outgoing) { o.EndPos() == p.EndPos() && o.copies == p.copies }

  // ---------------------------------------------------------------------------------------------
  // State changes
  // ---------------------------------------------------------------------------------------------

  /** The arcs of the connection diagram, and the arcs to CLOSED it omits. */
  predicate Arc(from: ConnState, to: ConnState) {
    match from
    case CLOSED => to == SYN_SENT || to == LISTEN
    case LISTEN => to == SYN_SENT || to == SYN_RECEIVED || to == CLOSED
    case SYN_SENT => to == SYN_RECEIVED || to == ESTABLISHED || to == CLOSED
    case SYN_RECEIVED => to == LISTEN || to == ESTABLISHED || to == FIN_WAIT_1 || to == CLOSED
    case ESTABLISHED => to == FIN_WAIT_1 || to == CLOSE_WAIT || to == CLOSED
    case FIN_WAIT_1 => to == FIN_WAIT_2 || to == CLOSING || to == CLOSED
    case FIN_WAIT_2 => to == TIME_WAIT || to == CLOSED
    case CLOSE_WAIT => to == LAST_ACK || to == CLOSED
    case CLOSING => to == TIME_WAIT || to == CLOSED
    case LAST_ACK => to == CLOSED
    case TIME_WAIT => to == CLOSED
  }

  /** The reported state changes form a path of arcs from CLOSED to `s`. */
  ghost predicate Trail(signals: seq<Signal>, s: ConnState) {
    if signals == [] then s == CLOSED
    else
      var last := signals[|signals| - 1];
      match last
      case StateChange(from, to) => to == s && Arc(from, to) && Trail(signals[..|signals| - 1], from)
      case Error(_) => Trail(signals[..|signals| - 1], s)
  }

  lemma TrailPush(signals: seq<Signal>, s: ConnState, g: Signal)
    requires Trail(signals, s)
    requires g.StateChange? ==> g.from == s && Arc(s, g.to)
    ensures Trail(signals + [g], if g.StateChange? then g.to else s)
  {
    assert (signals + [g])[..|signals|] == signals;
  }

  /** A state change touches the state, the keepalive timer and the signals. */
  lemma SetStateIs(e: Engine, to: ConnState)
    requires Trail(e.signals, e.state) && (e.state == to || Arc(e.state, to))
    ensures var f := SetState(e, to);
            && f == e.(state := to, tm := e.tm.(ka := f.tm.ka, kaProbes := f.tm.kaProbes), signals := f.signals)
            && Trail(f.signals, f.state)
            && (f.tm.ka.Some? ==> to == ESTABLISHED || (e.tm.ka.Some? && e.state != ESTABLISHED))
  {
    hide Trail;
    if e.state != to { TrailPush(e.signals, e.state, StateChange(e.state, to)); }
  }

  /** The invariants every step of an open connection keeps. */
  ghost predicate Base(e: Engine, peer: Option<u32>) {
    SendOk(e) && WireOk(e, peer) && Trail(e.signals, e.state)
  }

  /** ... and of one that knows its peer's initial sequence number. */
  ghost predicate Live(e: Engine, peer: Option<u32>) { Base(e, peer) && Knows(e, peer) }

  /** `f` differs from `e` only where `Base` does not look. */
  ghost predicate Quiet(e: Engine, f: Engine) {
    && f.cfg == e.cfg && f.snd == e.snd && f.hist == e.hist && f.wire == e.wire && f.passive == e.passive
  }

  lemma BaseQuiet(e: Engine, f: Engine, peer: Option<u32>)
    requires Base(e, peer) && Quiet(e, f) && Trail(f.signals, f.state)
    ensures Base(f, peer)
  {
    hide Trail, Tiles, PacketOk, Wrap;
  }

  lemma SetStateOk(e: Engine, to: ConnState, peer: Option<u32>)
    requires Base(e, peer) && (e.state == to || Arc(e.state, to))
    ensures Base(SetState(e, to), peer)
  {
    hide SetState, SendOk, WireOk, Knows, Trail;
    SetStateIs(e, to);
    BaseQuiet(e, SetState(e, to), peer);
  }
}
