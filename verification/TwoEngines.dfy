/** Two engines over a channel that may lose, delay, duplicate and reorder segments: any packet either side
    ever sent may be delivered at any time, any number of times, or never. */
module TwoEngines {
  import opened SeqNum
  import opened EngineState
  import opened EngineSpec
  import opened SendInvariant
  import opened SendPath
  import opened AckPath
  import opened EngineInvariant
  import opened SegmentArrives
  import opened Opening
  import opened EngineRuns
  import opened Reassembly
  import opened HonestPeer
  import opened HonestSteps

  datatype System = System(a: Engine, b: Engine)

  function Flip(s: System): System { System(s.b, s.a) }

  /** A step at one side: a user call or a timer, or the arrival of the `index`-th packet the other side
      ever sent. */
  datatype Move = Local(atA: bool, now: real, ev: Event) | Carry(toA: bool, when: real, index: nat)

  predicate MayMoveA(s: System, m: Move) {
    match m
    case Local(_, _, ev) => !ev.Arrives? && Allowed(s.a, ev)
    case Carry(_, _, i) => i < |s.b.wire| && Timely(s.a, s.b.wire[i])
  }

  function MoveA(s: System, m: Move): System
    requires MayMoveA(s, m)
  {
    match m
    case Local(_, now, ev) => s.(a := Step(s.a, now, ev))
    case Carry(_, now, i) => s.(a := Step(s.a, now, Arrives(OffWire(s.b.wire[i].seg))))
  }

  predicate AtA(m: Move) { if m.Local? then m.atA else m.toA }

  predicate MayMove(s: System, m: Move) { MayMoveA(if AtA(m) then s else Flip(s), m) }

  function Moved(s: System, m: Move): System
    requires MayMove(s, m)
  {
    if AtA(m) then MoveA(s, m) else Flip(MoveA(Flip(s), m))
  }

  predicate MayRun(s: System, ms: seq<Move>)
    decreases |ms|
  {
    ms != [] ==> MayMove(s, ms[0]) && MayRun(Moved(s, ms[0]), ms[1..])
  }

  function Ran(s: System, ms: seq<Move>): System
    requires MayRun(s, ms)
    decreases |ms|
  {
    if ms == [] then s else Ran(Moved(s, ms[0]), ms[1..])
  }

  // ---------------------------------------------------------------------------------------------
  // The system invariant
  // ---------------------------------------------------------------------------------------------

  /** Side `a` against side `b`: its own invariant, what it took of `b`'s stream, and that `b` knows of no
      acknowledgement `a` did not earn. */
  ghost predicate Side(a: Engine, b: Engine) {
    Inv(a, Some(b.cfg.iss)) && RecvOk(a, StreamOf(b)) && a.hist.unaPos <= RecvPos(b.hist)
  }

  ghost predicate SysInv(s: System) { Side(s.a, s.b) && Side(s.b, s.a) }

  lemma ReceivedBound(h: History, r: Stream)
    requires Received(h, r)
    ensures RecvPos(h) <= 1 + |r.sent| + Bit(r.fin)
  {
  }

  /** A step of `a` leaves what `b` knows intact. */
  lemma OtherSideKeeps(a: Engine, b: Engine, a': Engine)
    requires Side(b, a) && Continues(a, a')
    ensures Side(b, a')
  {
    hide Inv;
    RecvOkGrows(b, StreamOf(a), StreamOf(a'));
  }

  lemma LocalKeeps(a: Engine, b: Engine, now: real, ev: Event)
    requires Side(a, b) && !ev.Arrives? && Allowed(a, ev)
    ensures Side(Step(a, now, ev), b) && Continues(a, Step(a, now, ev))
  {
    hide Inv, Step, RecvOk, Allowed;
    StepOk(a, now, ev, Some(b.cfg.iss));
    RecvOkSame(a, Step(a, now, ev), StreamOf(b));
  }

  lemma CarryKeeps(a: Engine, b: Engine, now: real, i: nat)
    requires Side(a, b) && Side(b, a) && i < |b.wire| && Timely(a, b.wire[i])
    ensures var a' := Step(a, now, Arrives(OffWire(b.wire[i].seg))); Side(a', b) && Continues(a, a')
  {
    hide Inv, RecvOk, OnSegment, Timely, PacketOk;
    var p, r := b.wire[i], StreamOf(b);
    assert FromPeer(p, b.hist, r, a.cfg.iss) by { WireGives(b, i, Some(a.cfg.iss)); }
    PacketIsPiece(p, b.hist, r, a.cfg.iss);
    var c := At(a, now);
    ClockOk(a, now, Peer(r));
    ClockSame(a, now, p);
    RecvOkSame(a, c, r);
    DeliverHonest(c, p, b.hist, r);
    StepOk(a, now, Arrives(OffWire(p.seg)), Peer(r));
    OnSegmentOk(c, OffWire(p.seg), Peer(r));
    PeerBound(b, a);
    AckIsKnown(c, OnSegment(c, OffWire(p.seg)), p, b.hist, r);
  }

  lemma WireGives(b: Engine, i: nat, peer: Option<u32>)
    requires Inv(b, peer) && i < |b.wire|
    ensures PacketOk(b.wire[i], b.cfg.iss, b.hist, peer)
  {
    hide PacketOk, Tiles, Trail, Settled, Coupled, Wrap, KarnOk;
  }

  lemma ClockSame(a: Engine, now: real, p: Packet)
    requires Timely(a, p)
    ensures Timely(At(a, now), p) && SameReceived(a, At(a, now))
  {
  }

  lemma PeerBound(b: Engine, a: Engine)
    requires Side(b, a)
    ensures RecvPos(b.hist) <= 1 + |a.hist.sent| + Bit(a.hist.finOut)
  {
    hide Inv;
    ReceivedBound(b.hist, StreamOf(a));
  }

  lemma MoveAKeeps(s: System, m: Move)
    requires SysInv(s) && MayMoveA(s, m)
    ensures SysInv(MoveA(s, m))
  {
    hide Side, Step, Timely, Allowed;
    match m
    case Local(_, now, ev) =>
      LocalKeeps(s.a, s.b, now, ev);
      OtherSideKeeps(s.a, s.b, Step(s.a, now, ev));
    case Carry(_, now, i) =>
      CarryKeeps(s.a, s.b, now, i);
      OtherSideKeeps(s.a, s.b, Step(s.a, now, Arrives(OffWire(s.b.wire[i].seg))));
  }

  /** Every step of the system keeps the invariant. */
  lemma MovedKeeps(s: System, m: Move)
    requires SysInv(s) && MayMove(s, m)
    ensures SysInv(Moved(s, m))
  {
    hide Side, MoveA, MayMoveA;
    MoveAKeeps(if AtA(m) then s else Flip(s), m);
  }

  lemma {:induction false} RanKeeps(s: System, ms: seq<Move>)
    requires SysInv(s) && MayRun(s, ms)
    ensures SysInv(Ran(s, ms))
    decreases |ms|
  {
    hide SysInv, Moved, MayMove;
    if ms != [] {
      MovedKeeps(s, ms[0]);
      RanKeeps(Moved(s, ms[0]), ms[1..]);
    }
  }

  // ---------------------------------------------------------------------------------------------
  // Runs from two fresh engines
  // ---------------------------------------------------------------------------------------------

  ghost predicate IsFresh(e: Engine) {
    e.cfg.rcvWnd < QUARTER
    && exists port: u16, ut: Option<real>, t: real :: e == Fresh(e.cfg, port, ut, t)
  }

  ghost predicate Reachable(s: System) {
    exists s0: System, ms: seq<Move> :: IsFresh(s0.a) && IsFresh(s0.b) && MayRun(s0, ms) && s == Ran(s0, ms)
  }

  lemma FreshSide(a: Engine, b: Engine)
    requires IsFresh(a) && IsFresh(b)
    ensures Side(a, b)
  {
    var port: u16, ut: Option<real>, t: real :| a == Fresh(a.cfg, port, ut, t);
    FreshOk(a.cfg, port, ut, t, Some(b.cfg.iss));
    hide Inv;
  }

  lemma ReachableInv(s: System)
    requires Reachable(s)
    ensures SysInv(s)
  {
    hide SysInv, Ran, MayRun, IsFresh, Side;
    var s0: System, ms: seq<Move> :| IsFresh(s0.a) && IsFresh(s0.b) && MayRun(s0, ms) && s == Ran(s0, ms);
    FreshSide(s0.a, s0.b);
    FreshSide(s0.b, s0.a);
    assert SysInv(s0) by { InvOfSides(s0); }
    RanKeeps(s0, ms);
  }

  lemma InvOfSides(s: System)
    requires Side(s.a, s.b) && Side(s.b, s.a)
    ensures SysInv(s)
  {
    hide Side;
  }

  function Opposite(m: Move): Move {
    match m
    case Local(atA, now, ev) => Local(!atA, now, ev)
    case Carry(toA, when, i) => Carry(!toA, when, i)
  }

  function AllOpposite(ms: seq<Move>): seq<Move> {
    if ms == [] then [] else [Opposite(ms[0])] + AllOpposite(ms[1..])
  }

  lemma MovedFlipped(s: System, m: Move)
    requires MayMove(s, m)
    ensures MayMove(Flip(s), Opposite(m)) && Moved(Flip(s), Opposite(m)) == Flip(Moved(s, m))
  {
    hide Step, Timely, Allowed;
    assert Flip(Flip(s)) == s;
  }

  lemma {:induction false} RanFlipped(s: System, ms: seq<Move>)
    requires MayRun(s, ms)
    ensures MayRun(Flip(s), AllOpposite(ms)) && Ran(Flip(s), AllOpposite(ms)) == Flip(Ran(s, ms))
    decreases |ms|
  {
    hide Moved, MayMove;
    if ms != [] {
      MovedFlipped(s, ms[0]);
      RanFlipped(Moved(s, ms[0]), ms[1..]);
      assert AllOpposite(ms)[1..] == AllOpposite(ms[1..]);
    }
  }

  /** The two sides are alike: what holds of one in every run holds of the other. */
  lemma ReachableFlipped(s: System)
    requires Reachable(s)
    ensures Reachable(Flip(s))
  {
    hide IsFresh, MayRun, Ran;
    var s0: System, ms: seq<Move> :| IsFresh(s0.a) && IsFresh(s0.b) && MayRun(s0, ms) && s == Ran(s0, ms);
    RanFlipped(s0, ms);
  }

  /** Stream integrity: in every run, what either side has delivered is a prefix of what the other side's
      application handed to SEND. */
  lemma StreamIntegrity(s: System)
    requires Reachable(s)
    ensures s.b.hist.delivered <= s.a.hist.sent <= s.a.hist.accepted
    ensures s.a.hist.delivered <= s.b.hist.sent <= s.b.hist.accepted
  {
    hide Reachable, Tiles, WireOk, Trail, Coupled, Settled, BlocksOk, KarnOk;
    ReachableInv(s);
  }

  /** Side `b` has taken the end of `a`'s stream at most once, and only after all of it. */
  predicate EndTakenLast(a: Engine, b: Engine) {
    b.hist.fins <= 1 && (b.hist.fins == 1 ==> a.hist.finOut && b.hist.delivered == a.hist.sent)
  }

  lemma EndTaken(s: System)
    requires Reachable(s)
    ensures EndTakenLast(s.a, s.b)
  {
    hide Reachable, Inv, BlocksOk;
    ReachableInv(s);
  }

  /** Close integrity, receiving: on either side a FIN is consumed at most once, and only after the peer's whole
      stream. */
  lemma FinComesLastAndOnce(s: System)
    requires Reachable(s)
    ensures EndTakenLast(s.a, s.b) && EndTakenLast(s.b, s.a)
  {
    hide Reachable, EndTakenLast;
    EndTaken(s);
    ReachableFlipped(s);
    EndTaken(Flip(s));
  }

  /** `b` has delivered every byte that `a`'s application handed over, and seen the end. */
  predicate HasAll(a: Engine, b: Engine) {
    b.hist.fins == 1 && b.hist.delivered == a.hist.sent == a.hist.accepted
  }

  lemma FinAckedTellsAll(s: System)
    requires Reachable(s) && Active(s.a.state) && s.a.snd.finAcked
    ensures HasAll(s.a, s.b)
  {
    hide Reachable, Tiles, WireOk, Trail, Coupled, Settled, BlocksOk, Wrap, KarnOk;
    ReachableInv(s);
    assert s.a.hist.sent + [] == s.a.hist.sent;
  }

  /** Close integrity, sending: a side whose FIN is acknowledged knows that the peer delivered every byte its
      application handed over, and saw the end. */
  lemma AcknowledgedFinMeansAllDelivered(s: System)
    requires Reachable(s)
    ensures Active(s.a.state) && s.a.snd.finAcked ==> HasAll(s.a, s.b)
    ensures Active(s.b.state) && s.b.snd.finAcked ==> HasAll(s.b, s.a)
  {
    hide Reachable, HasAll;
    ReachableFlipped(s);
    if Active(s.a.state) && s.a.snd.finAcked { FinAckedTellsAll(s); }
    if Active(s.b.state) && s.b.snd.finAcked { FinAckedTellsAll(Flip(s)); }
  }

  /** `b` knows `a`'s initial number, and SND.UNA of `a` <= RCV.NXT of `b` <= SND.NXT of `a`: in unwrapped positions
      and for the 32-bit variables that stand for them. */
  predicate Agree(a: Engine, b: Engine) {
    && b.rcv.irs == a.snd.iss
    && a.hist.unaPos <= RecvPos(b.hist) <= SentEnd(a.hist) < a.hist.unaPos + HALF
    && a.snd.una == Wrap(a.snd.iss + a.hist.unaPos)
    && b.rcv.nxt == Wrap(a.snd.iss + RecvPos(b.hist))
    && a.snd.nxt == Wrap(a.snd.iss + SentEnd(a.hist))
    && SeqLeq(a.snd.una, b.rcv.nxt) && SeqLeq(b.rcv.nxt, a.snd.nxt)
  }

  lemma SideAgrees(s: System)
    requires Reachable(s) && Synced(s.a.state) && Synced(s.b.state)
    ensures Agree(s.a, s.b)
  {
    hide Reachable, Tiles, WireOk, Trail, Coupled, Settled, BlocksOk, Wrap, S32, KarnOk;
    ReachableInv(s);
    ReceivedBound(s.b.hist, StreamOf(s.a));
    SerialOrder(s.a.snd.iss, s.a.hist.unaPos, RecvPos(s.b.hist));
    SerialOrder(s.a.snd.iss, RecvPos(s.b.hist), SentEnd(s.a.hist));
  }

  /** Agreement on sequence numbers once both sides are synchronized, in both directions. */
  lemma EnginesAgree(s: System)
    requires Reachable(s) && Synced(s.a.state) && Synced(s.b.state)
    ensures Agree(s.a, s.b) && Agree(s.b, s.a)
  {
    hide Reachable, Agree;
    SideAgrees(s);
    ReachableFlipped(s);
    SideAgrees(Flip(s));
  }

  /** LAST-ACK is left for CLOSED, other than by a reset, only when everything sent is acknowledged. */
  lemma LastAckNeedsAck(e: Engine, seg: Segment, peer: Option<u32>)
    requires Inv(e, peer) && e.state == LAST_ACK && !seg.flags.rst && seg.window < 0x1_0000
    requires OnSegment(e, seg).state == CLOSED
    ensures var f := OnSegment(e, seg);
            f.hist.finOut && f.hist.sent == e.hist.sent && f.hist.unaPos == SentEnd(e.hist)
  {
    hide Inv, Running, SendAck, AckAndWindow, TextAndFin, EnterClosed, EnterTimeWait, Acceptable, RcvWnd, SetState, Closable;
    AckKeepsInv(e, peer);
    assert HandleSynchronized(e, seg).state == CLOSED;
    assert seg.flags.ack;
    assert !SeqGt(seg.ackNo, e.snd.nxt);
    AckAndWindowOk(e, seg, peer);
    var g := AckAndWindow(e, seg);
    LastAckStays(e, seg);
    if g.snd.finAcked {
      RunningClosable(g, peer);
      EnterClosedOk(g, peer);
      FinAckedMeans(e, g, peer);
    } else {
      RunningAwaits(g, peer);
      TextAndFinOk(g, seg, peer);
    }
  }

  lemma LastAckStays(e: Engine, seg: Segment)
    requires e.state == LAST_ACK
    ensures AckAndWindow(e, seg).state == LAST_ACK
  {
    hide SeqGt, SeqLt, SeqLeq, PumpData, RttSample, Trim, TakesSample;
  }

  lemma RunningAwaits(g: Engine, peer: Option<u32>)
    requires Running(g, peer) && g.state == LAST_ACK && !g.snd.finAcked
    ensures AwaitsFinAck(g) && TextOpen(g.state)
  {
  }

  lemma FinAckedMeans(e: Engine, g: Engine, peer: Option<u32>)
    requires Inv(e, peer) && e.state == LAST_ACK && Running(g, peer) && Continues(e, g) && g.snd.finAcked
    ensures g.hist.finOut && g.hist.sent == e.hist.sent && g.hist.unaPos == SentEnd(e.hist) && e.hist.finOut
  {
    hide Tiles, WireOk, Trail, Settled, Wrap, KarnOk;
  }

  /** The arrival of the `i`-th packet of `b` takes `a` from LAST-ACK to CLOSED, other than by a reset. */
  predicate ClosesOn(a: Engine, b: Engine, i: nat, now: real) {
    && a.state == LAST_ACK && i < |b.wire| && Timely(a, b.wire[i]) && !b.wire[i].seg.flags.rst
    && Step(a, now, Arrives(OffWire(b.wire[i].seg))).state == CLOSED
  }

  lemma ClosesKnowing(s: System, i: nat, now: real)
    requires Reachable(s) && ClosesOn(s.a, s.b, i, now)
    ensures HasAll(s.a, s.b)
  {
    hide Reachable, RecvOk, Inv, Timely, OnSegment;
    ReachableInv(s);
    CarryKeeps(s.a, s.b, now, i);
    ClockOk(s.a, now, Some(s.b.cfg.iss));
    LastAckNeedsAck(At(s.a, now), OffWire(s.b.wire[i].seg), Some(s.b.cfg.iss));
    AllTaken(s.a, s.b);
  }

  /** A side that leaves LAST-ACK for CLOSED other than by a reset closes knowing that the peer has delivered its whole
      stream and seen its end. */
  lemma LastAckClosesKnowing(s: System, i: nat, now: real)
    requires Reachable(s)
    ensures ClosesOn(s.a, s.b, i, now) ==> HasAll(s.a, s.b)
    ensures ClosesOn(s.b, s.a, i, now) ==> HasAll(s.b, s.a)
  {
    hide Reachable, ClosesOn, HasAll;
    ReachableFlipped(s);
    if ClosesOn(s.a, s.b, i, now) { ClosesKnowing(s, i, now); }
    if ClosesOn(s.b, s.a, i, now) { ClosesKnowing(Flip(s), i, now); }
  }

  /** If `b` has taken as many positions as `a` ever sent, and `a` has sent its FIN, `b` has everything. */
  lemma AllTaken(a: Engine, b: Engine)
    requires Side(a, b) && Side(b, a) && a.state == LAST_ACK
    ensures RecvPos(b.hist) >= SentEnd(a.hist) ==> HasAll(a, b)
  {
    hide Tiles, WireOk, Trail, Settled, Wrap, BlocksOk, KarnOk;
    assert a.hist.sent + [] == a.hist.sent;
  }
}
