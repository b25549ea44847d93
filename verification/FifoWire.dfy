/** Two engines over the lossy channel with a positive constant delay: packets arrive in the order in which they
    were sent, each at most once, or are lost. On this channel the segment lifetime assumption holds by itself, so
    every theorem about two engines holds without it. */
module FifoWire {
  import opened SeqNum
  import opened EngineState
  import opened EngineSpec
  import opened SendInvariant
  import opened SendPath
  import opened EngineInvariant
  import opened SegmentArrives
  import opened Opening
  import opened EngineRuns
  import opened HonestPeer
  import opened HonestSteps
  import opened TwoEngines
  import opened WireLog

  /** One direction of the channel: the packets in flight, by their place in the sender's `wire`; and, as
      history, the last packet and the last acknowledgement, resets aside, that arrived. */
  datatype Link = Link(inFlight: seq<nat>, last: Option<nat>, acked: Option<nat>)

  datatype Wired = Wired(s: System, ab: Link, ba: Link)

  function Mirrored(w: Wired): Wired { Wired(Flip(w.s), w.ba, w.ab) }

  /** A user call or a timer at one side; the arrival of the first packet in flight; or the loss of some packet. */
  datatype Turn = Call(atA: bool, now: real, ev: Event) | Arrive(toA: bool, when: real) | Lose(toA: bool, k: nat)

  predicate AtSideA(t: Turn) { if t.Call? then t.atA else t.toA }

  /** The places from `m` to `n`. */
  function Places(m: nat, n: nat): (r: seq<nat>)
    requires m <= n
    ensures |r| == n - m && forall i :: 0 <= i < |r| ==> r[i] == m + i
  {
    seq(n - m, i requires 0 <= i < n - m => m + i)
  }

  predicate CanA(w: Wired, t: Turn) {
    match t
    case Call(_, _, ev) => !ev.Arrives? && Allowed(w.s.a, ev)
    case Arrive(_, _) => w.ba.inFlight != [] && w.ba.inFlight[0] < |w.s.b.wire|
    case Lose(_, k) => k < |w.ba.inFlight|
  }

  /** What the turn means for side A, unless it is a loss. */
  function MoveOf(w: Wired, t: Turn): Move
    requires CanA(w, t) && !t.Lose?
  {
    match t
    case Call(_, now, ev) => Local(true, now, ev)
    case Arrive(_, now) => Carry(true, now, w.ba.inFlight[0])
  }

  /** The channel towards A after its first packet has arrived. */
  function Arrived(l: Link, p: Packet): Link
    requires l.inFlight != []
  {
    var i := l.inFlight[0];
    if p.seg.flags.rst then l.(inFlight := l.inFlight[1..])
    else Link(l.inFlight[1..], Some(i), if p.seg.flags.ack then Some(i) else l.acked)
  }

  function TurnA(w: Wired, t: Turn): Wired
    requires CanA(w, t)
  {
    match t
    case Lose(_, k) => w.(ba := w.ba.(inFlight := w.ba.inFlight[..k] + w.ba.inFlight[k + 1..]))
    case Arrive(_, now) =>
      var p := w.s.b.wire[w.ba.inFlight[0]];
      var a := Step(w.s.a, now, Arrives(OffWire(p.seg)));
      Wired(w.s.(a := a), Sent(w.ab, w.s.a, a), Arrived(w.ba, p))
    case Call(_, now, ev) =>
      var a := Step(w.s.a, now, ev);
      Wired(w.s.(a := a), Sent(w.ab, w.s.a, a), w.ba)
  }

  /** What was sent since is in flight too. */
  function Sent(l: Link, before: Engine, after: Engine): Link {
    if |before.wire| <= |after.wire| then l.(inFlight := l.inFlight + Places(|before.wire|, |after.wire|)) else l
  }

  // ---------------------------------------------------------------------------------------------
  // What is in flight is timely
  // ---------------------------------------------------------------------------------------------

  /** The stream up to position `m`. */
  function Prefix(r: Stream, m: int): Stream
    requires m >= 1
  {
    Stream(r.iss, if m - 1 <= |r.sent| then r.sent[..m - 1] else r.sent, r.fin && m >= |r.sent| + 2)
  }

  function UpTo(h: History, m: int): History
    requires m >= 1
  {
    h.(sent := if m - 1 <= |h.sent| then h.sent[..m - 1] else h.sent, finOut := h.finOut && m >= |h.sent| + 2)
  }

  /** How far into the sender's stream what has arrived so far reaches, and how much it acknowledges. */
  function Seen(b: Engine, l: Link): int { if l.last.Some? && l.last.value < |b.wire| then b.wire[l.last.value].upTo else 1 }

  function Acked(b: Engine, l: Link): int { if l.acked.Some? && l.acked.value < |b.wire| then b.wire[l.acked.value].ackPos else 0 }

  ghost predicate Increasing(q: seq<nat>) { forall i, j :: 0 <= i < j < |q| ==> q[i] < q[j] }

  predicate Before(o: Option<nat>, i: nat) { o.Some? ==> o.value < i }

  /** The channel from `b`: packets in flight are later than all that arrived. */
  ghost predicate Queued(b: Engine, l: Link) {
    && Increasing(l.inFlight)
    && (forall i :: 0 <= i < |l.inFlight| ==>
          l.inFlight[i] < |b.wire| && Before(l.last, l.inFlight[i]) && Before(l.acked, l.inFlight[i]))
    && (l.last.Some? ==> l.last.value < |b.wire| && !b.wire[l.last.value].seg.flags.rst)
    && (l.acked.Some? ==> l.acked.value < |b.wire| && !b.wire[l.acked.value].seg.flags.rst && b.wire[l.acked.value].seg.flags.ack)
  }

  /** The receiver `a` knows no more of `b` than what arrived told it. */
  ghost predicate LinkOk(a: Engine, b: Engine, l: Link) {
    && Queued(b, l)
    && 1 <= Seen(b, l) <= StreamEnd(b.hist)
    && RecvOk(a, Prefix(StreamOf(b), Seen(b, l)))
    && a.hist.unaPos <= Acked(b, l)
  }

  lemma PrefixEnd(r: Stream, m: int)
    requires 1 <= m <= 1 + |r.sent| + Bit(r.fin)
    ensures 1 + |Prefix(r, m).sent| + Bit(Prefix(r, m).fin) == m
  {
  }

  lemma PrefixGrows(r: Stream, m: int, n: int)
    requires 1 <= m <= n <= 1 + |r.sent| + Bit(r.fin)
    ensures Prefix(r, m).sent <= Prefix(r, n).sent && (Prefix(r, m).fin ==> Prefix(r, n) == Prefix(r, m))
  {
  }

  lemma PrefixOfGrown(r: Stream, s: Stream, m: int)
    requires 1 <= m <= 1 + |r.sent| + Bit(r.fin) && r.iss == s.iss && r.sent <= s.sent && (r.fin ==> s == r)
    ensures Prefix(s, m) == Prefix(r, m)
  {
  }

  /** A packet is a piece of the stream as it was when the packet was sent. */
  lemma PacketOfPrefix(p: Packet, iss: u32, h: History, peer: Option<u32>, m: int)
    requires PacketOk(p, iss, h, peer) && 1 <= m <= StreamEnd(h) && (!p.seg.flags.rst ==> p.upTo <= m)
    ensures PacketOk(p, iss, UpTo(h, m), peer)
  {
    var f, d := p.seg.flags, p.seg.payload;
    if !f.rst && d != [] {
      assert UpTo(h, m).sent[p.pos - 1..p.pos - 1 + |d|] == h.sent[p.pos - 1..p.pos - 1 + |d|];
    }
  }

  lemma InOrderOf(b: Engine, i: nat, j: nat, peer: Option<u32>)
    requires Inv(b, peer) && peer.Some? && i < j < |b.wire|
    ensures InOrder(b.wire[i], b.wire[j])
  {
    hide PacketOk, Tiles, Trail, Settled, Coupled, Wrap, KarnOk;
  }

  /** Everything that arrived was sent before what is still in flight. */
  lemma SeenIsEarlier(a: Engine, b: Engine, l: Link, k: nat)
    requires Side(b, a) && LinkOk(a, b, l) && k < |l.inFlight| && !b.wire[l.inFlight[k]].seg.flags.rst
    ensures var p := b.wire[l.inFlight[k]];
            Seen(b, l) <= p.upTo && (p.seg.flags.ack ==> a.hist.unaPos <= p.ackPos)
  {
    hide Inv, RecvOk;
    var i := l.inFlight[k];
    WireGives(b, i, Some(a.cfg.iss));
    if l.last.Some? { InOrderOf(b, l.last.value, i, Some(a.cfg.iss)); }
    if l.acked.Some? { InOrderOf(b, l.acked.value, i, Some(a.cfg.iss)); }
  }

  lemma EndsWithinHalf(e: Engine, peer: Option<u32>)
    requires Inv(e, peer)
    ensures SentEnd(e.hist) <= StreamEnd(e.hist) < e.hist.unaPos + HALF
  {
    hide WireOk, SendOk, Trail, Settled, Coupled;
  }

  /** The segment lifetime assumption holds of every packet in flight. */
  lemma InFlightIsTimely(a: Engine, b: Engine, l: Link, k: nat)
    requires Side(a, b) && Side(b, a) && LinkOk(a, b, l) && k < |l.inFlight|
    ensures Timely(a, b.wire[l.inFlight[k]])
  {
    hide Inv, BlocksOk, Genuine;
    var p := b.wire[l.inFlight[k]];
    if !p.seg.flags.rst {
      SeenIsEarlier(a, b, l, k);
      WireGives(b, l.inFlight[k], Some(a.cfg.iss));
      ReceivedBound(a.hist, Prefix(StreamOf(b), Seen(b, l)));
      PrefixEnd(StreamOf(b), Seen(b, l));
      EndsWithinHalf(a, Some(b.cfg.iss));
      EndsWithinHalf(b, Some(a.cfg.iss));
    }
  }

  // ---------------------------------------------------------------------------------------------
  // Every turn keeps the channel in order
  // ---------------------------------------------------------------------------------------------

  ghost predicate WiredOk(w: Wired) {
    SysInv(w.s) && LinkOk(w.s.a, w.s.b, w.ba) && LinkOk(w.s.b, w.s.a, w.ab)
  }

  /** Sending more, at the end of the queue, changes nothing for what is in flight. */
  lemma SentKeeps(a: Engine, b: Engine, b': Engine, l: Link)
    requires LinkOk(a, b, l) && b.wire <= b'.wire && Continues(b, b')
    ensures LinkOk(a, b', Sent(l, b, b'))
  {
    hide RecvOk;
    var m := Sent(l, b, b');
    var n := |l.inFlight|;
    assert forall i :: 0 <= i < |b.wire| ==> b'.wire[i] == b.wire[i];
    PrefixOfGrown(StreamOf(b), StreamOf(b'), Seen(b, l));
    forall i, j | 0 <= i < j < |m.inFlight| ensures m.inFlight[i] < m.inFlight[j] {
      if i < n && j >= n { assert l.inFlight[i] < |b.wire|; }
    }
  }

  /** A call or timer at the receiver adds nothing to what it took, and moves no acknowledgement. */
  lemma CallKeepsLink(a: Engine, b: Engine, l: Link, now: real, ev: Event)
    requires Side(a, b) && LinkOk(a, b, l) && !ev.Arrives? && Allowed(a, ev)
    ensures LinkOk(Step(a, now, ev), b, l)
  {
    hide Inv, Step, RecvOk, Allowed, Queued;
    StepOk(a, now, ev, Some(b.cfg.iss));
    RecvOkSame(a, Step(a, now, ev), Prefix(StreamOf(b), Seen(b, l)));
  }

  /** The first packet in flight arrives: what the receiver knows is what was sent up to then. */
  lemma ArrivalKeepsLink(a: Engine, b: Engine, l: Link, now: real)
    requires Side(a, b) && Side(b, a) && LinkOk(a, b, l) && l.inFlight != [] && Timely(a, b.wire[l.inFlight[0]])
    ensures LinkOk(Step(a, now, Arrives(OffWire(b.wire[l.inFlight[0]].seg))), b, Arrived(l, b.wire[l.inFlight[0]]))
  {
    hide Inv, RecvOk, OnSegment, Timely, PacketOk, Queued;
    ArrivalQueue(b, l);
    var i := l.inFlight[0];
    var p := b.wire[i];
    var l' := Arrived(l, p);
    var c := At(a, now);
    WireGives(b, i, Some(a.cfg.iss));
    WithinStream(p, b, Some(a.cfg.iss));
    if !p.seg.flags.rst { SeenIsEarlier(a, b, l, 0); }
    var m, n := Seen(b, l), Seen(b, l');
    var r := Prefix(StreamOf(b), n);
    PrefixGrows(StreamOf(b), m, n);
    RecvOkGrows(a, Prefix(StreamOf(b), m), r);
    PacketOfPrefix(p, b.cfg.iss, b.hist, Some(a.cfg.iss), n);
    ClockOk(a, now, Peer(r));
    ClockSame(a, now, p);
    RecvOkSame(a, c, r);
    DeliverHonest(c, p, UpTo(b.hist, n), r);
    PacketOfPrefix(p, b.cfg.iss, b.hist, Some(a.cfg.iss), StreamEnd(b.hist));
    PacketIsPiece(p, b.hist, StreamOf(b), a.cfg.iss);
    OnSegmentOk(c, OffWire(p.seg), Peer(r));
    PeerBound(b, a);
    AckIsKnown(c, OnSegment(c, OffWire(p.seg)), p, b.hist, StreamOf(b));
  }

  lemma WithinStream(p: Packet, b: Engine, peer: Option<u32>)
    requires PacketOk(p, b.cfg.iss, b.hist, peer)
    ensures !p.seg.flags.rst ==> 1 <= p.upTo <= StreamEnd(b.hist)
  {
  }

  lemma ArrivalQueue(b: Engine, l: Link)
    requires Queued(b, l) && l.inFlight != []
    ensures l.inFlight[0] < |b.wire|
    ensures var p := b.wire[l.inFlight[0]];
            && Queued(b, Arrived(l, p))
            && Seen(b, Arrived(l, p)) == (if p.seg.flags.rst then Seen(b, l) else p.upTo)
            && Acked(b, Arrived(l, p)) == (if !p.seg.flags.rst && p.seg.flags.ack then p.ackPos else Acked(b, l))
  {
  }

  lemma LossKeepsLink(a: Engine, b: Engine, l: Link, k: nat)
    requires LinkOk(a, b, l) && k < |l.inFlight|
    ensures LinkOk(a, b, l.(inFlight := l.inFlight[..k] + l.inFlight[k + 1..]))
  {
    hide RecvOk;
    var q := l.inFlight[..k] + l.inFlight[k + 1..];
    assert forall i :: 0 <= i < |q| ==> q[i] == l.inFlight[if i < k then i else i + 1];
  }

  /** A turn at side A is a loss, or a move of the two engines in which what arrives is timely; and it keeps the
      channel in order. */
  lemma TurnAOk(w: Wired, t: Turn)
    requires WiredOk(w) && CanA(w, t)
    ensures !t.Lose? ==> MayMoveA(w.s, MoveOf(w, t)) && TurnA(w, t).s == MoveA(w.s, MoveOf(w, t))
    ensures t.Lose? ==> TurnA(w, t).s == w.s
    ensures WiredOk(TurnA(w, t))
  {
    hide Side, LinkOk, Timely, Allowed, Step;
    var a, b := w.s.a, w.s.b;
    match t
    case Lose(_, k) => LossKeepsLink(a, b, w.ba, k);
    case Call(_, now, ev) =>
      MoveAKeeps(w.s, MoveOf(w, t));
      CallKeepsLink(a, b, w.ba, now, ev);
      LocalKeeps(a, b, now, ev);
      StepAppends(a, now, ev);
      SentKeeps(b, a, Step(a, now, ev), w.ab);
    case Arrive(_, now) =>
      InFlightIsTimely(a, b, w.ba, 0);
      MoveAKeeps(w.s, MoveOf(w, t));
      ArrivalKeepsLink(a, b, w.ba, now);
      CarryKeeps(a, b, now, w.ba.inFlight[0]);
      var ev := Arrives(OffWire(b.wire[w.ba.inFlight[0]].seg));
      StepAppends(a, now, ev);
      SentKeeps(b, a, Step(a, now, ev), w.ab);
  }

  predicate Can(w: Wired, t: Turn) { CanA(if AtSideA(t) then w else Mirrored(w), t) }

  function Turned(w: Wired, t: Turn): Wired
    requires Can(w, t)
  {
    if AtSideA(t) then TurnA(w, t) else Mirrored(TurnA(Mirrored(w), t))
  }

  /** The turn as moves of the two engines: one, or none for a loss. */
  function Moves(w: Wired, t: Turn): seq<Move>
    requires Can(w, t)
  {
    var v := if AtSideA(t) then w else Mirrored(w);
    match t
    case Lose(_, _) => []
    case Call(atA, now, ev) => [Local(atA, now, ev)]
    case Arrive(toA, now) => [Carry(toA, now, v.ba.inFlight[0])]
  }

  lemma MirrorOk(w: Wired)
    requires WiredOk(w)
    ensures WiredOk(Mirrored(w))
  {
    hide Side, LinkOk;
  }

  lemma TurnedOk(w: Wired, t: Turn)
    requires WiredOk(w) && Can(w, t)
    ensures WiredOk(Turned(w, t))
    ensures t.Lose? ==> Turned(w, t).s == w.s
    ensures !t.Lose? ==> MayMove(w.s, Moves(w, t)[0]) && Moved(w.s, Moves(w, t)[0]) == Turned(w, t).s
  {
    hide WiredOk, Timely, Allowed, Step;
    if AtSideA(t) {
      TurnAOk(w, t);
    } else {
      MirrorOk(w);
      TurnAOk(Mirrored(w), t);
      MirrorOk(TurnA(Mirrored(w), t));
    }
  }

  // ---------------------------------------------------------------------------------------------
  // Runs
  // ---------------------------------------------------------------------------------------------

  predicate CanRun(w: Wired, ts: seq<Turn>)
    decreases |ts|
  {
    ts != [] ==> Can(w, ts[0]) && CanRun(Turned(w, ts[0]), ts[1..])
  }

  function RanTurns(w: Wired, ts: seq<Turn>): Wired
    requires CanRun(w, ts)
    decreases |ts|
  {
    if ts == [] then w else RanTurns(Turned(w, ts[0]), ts[1..])
  }

  function AllMoves(w: Wired, ts: seq<Turn>): seq<Move>
    requires CanRun(w, ts)
    decreases |ts|
  {
    if ts == [] then [] else Moves(w, ts[0]) + AllMoves(Turned(w, ts[0]), ts[1..])
  }

  /** A run over this channel is a run over the general one, in which all that arrives is timely. */
  lemma {:induction false} RunIsRun(w: Wired, ts: seq<Turn>)
    requires WiredOk(w) && CanRun(w, ts)
    ensures MayRun(w.s, AllMoves(w, ts)) && Ran(w.s, AllMoves(w, ts)) == RanTurns(w, ts).s
    decreases |ts|
  {
    hide WiredOk, Can, Turned, MayMove, Moved;
    if ts != [] {
      var t := ts[0];
      var rest := AllMoves(Turned(w, t), ts[1..]);
      TurnedOk(w, t);
      RunIsRun(Turned(w, t), ts[1..]);
      if t.Lose? {
        assert AllMoves(w, ts) == rest;
      } else {
        var ms := AllMoves(w, ts);
        assert ms == [Moves(w, t)[0]] + rest;
        assert ms[1..] == rest;
      }
    }
  }

  const EMPTY := Link([], None, None)

  /** Reached from two fresh engines and an empty channel. */
  ghost predicate FifoReachable(w: Wired) {
    exists s0: System, ts: seq<Turn> ::
      IsFresh(s0.a) && IsFresh(s0.b) && CanRun(Wired(s0, EMPTY, EMPTY), ts) && w == RanTurns(Wired(s0, EMPTY, EMPTY), ts)
  }

  lemma FreshLink(a: Engine, b: Engine)
    requires IsFresh(a) && IsFresh(b)
    ensures LinkOk(a, b, EMPTY) && a.hist.unaPos == 0
  {
    var port: u16, ut: Option<real>, t: real :| a == Fresh(a.cfg, port, ut, t);
    var port': u16, ut': Option<real>, t': real :| b == Fresh(b.cfg, port', ut', t');
    assert Prefix(StreamOf(b), 1) == StreamOf(b);
  }

  /** The lifetime assumption is not needed here: whatever is reached over this channel is reached by timely
      deliveries, so every theorem of `TwoEngines` holds of it. */
  lemma FifoIsTimely(w: Wired)
    requires FifoReachable(w)
    ensures Reachable(w.s)
  {
    hide CanRun, RanTurns, IsFresh, MayRun, Ran, LinkOk, Side;
    var s0: System, ts: seq<Turn> :|
      IsFresh(s0.a) && IsFresh(s0.b) && CanRun(Wired(s0, EMPTY, EMPTY), ts) && w == RanTurns(Wired(s0, EMPTY, EMPTY), ts);
    FreshSide(s0.a, s0.b);
    FreshSide(s0.b, s0.a);
    FreshLink(s0.a, s0.b);
    FreshLink(s0.b, s0.a);
    RunIsRun(Wired(s0, EMPTY, EMPTY), ts);
  }

  /** Stream and close integrity over this channel, with no assumption on delays. */
  lemma FifoIntegrity(w: Wired)
    requires FifoReachable(w)
    ensures w.s.b.hist.delivered <= w.s.a.hist.accepted && w.s.a.hist.delivered <= w.s.b.hist.accepted
    ensures EndTakenLast(w.s.a, w.s.b) && EndTakenLast(w.s.b, w.s.a)
    ensures Active(w.s.a.state) && w.s.a.snd.finAcked ==> HasAll(w.s.a, w.s.b)
    ensures Active(w.s.b.state) && w.s.b.snd.finAcked ==> HasAll(w.s.b, w.s.a)
  {
    hide FifoReachable, Reachable, EndTakenLast, HasAll;
    FifoIsTimely(w);
    StreamIntegrity(w.s);
    FinComesLastAndOnce(w.s);
    AcknowledgedFinMeansAllDelivered(w.s);
  }
}
