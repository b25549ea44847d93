/** Keepalive (section 3.8.4 of RFC 9293): an idle connection is probed, a probe makes a live peer answer whatever
    the peer has received, and a dead peer is given up after exactly the configured number of probes. */
module Keepalive {
  import opened SeqNum
  import opened EngineState
  import opened EngineSpec
  import opened EngineFacts
  import opened SendInvariant
  import opened SendPath
  import opened EngineInvariant
  import opened SegmentArrives
  import opened Opening
  import opened EngineRuns
  import opened Reassembly
  import opened HonestPeer
  import opened HonestSteps
  import opened TwoEngines

  /** Established, with nothing in flight, and keepalive on. */
  predicate IdleOpen(e: Engine) {
    e.state == ESTABLISHED && e.snd.retx == [] && e.cfg.timers.keepaliveIdle.Some?
  }

  /** A packet with no data, one below SND.UNA. */
  predicate IsProbe(e: Engine, p: Packet) {
    p.seg.seqNo == Sub(e.snd.una, 1) && p.seg.payload == [] && p.seg.flags == ACK
  }

  function Fired(e: Engine, now: real): Engine { Step(e, now, KeepaliveFires) }

  /** One expiry: a probe and the next interval, or the end. */
  lemma OneExpiry(e: Engine, now: real)
    requires IdleOpen(e)
    ensures var f := Fired(e, now);
            if e.tm.kaProbes >= e.cfg.timers.keepaliveCount then f.state == CLOSED
            else && IdleOpen(f) && f.tm.kaProbes == e.tm.kaProbes + 1 && f.cfg == e.cfg && f.snd == e.snd
                 && f.tm.ka == Some(now + MaxR(e.cfg.timers.keepaliveInterval, 0.0))
                 && |f.wire| == |e.wire| + 1 && f.wire[..|e.wire|] == e.wire && IsProbe(e, f.wire[|e.wire|])
  {
    hide GiveUp, RcvWnd, AdvertisedRight, PosOf, Reach;
    GiveUpCloses(At(e, now).(tm := At(e, now).tm.(ka := None)), KeepaliveTimeout);
  }

  /** The engine after its keepalive timer has run out at each of `times`, nothing else happening. */
  function Expired(e: Engine, times: seq<real>): Engine
    decreases |times|
  {
    if times == [] then e else Expired(Fired(e, times[0]), times[1..])
  }

  /** Unanswered: after `k` expiries there were `k` probes, for every `k` up to the configured count, and the next
      expiry closes the connection. */
  lemma {:induction false} DeadPeerGivenUp(e: Engine, times: seq<real>)
    requires IdleOpen(e) && e.tm.kaProbes <= e.cfg.timers.keepaliveCount && e.tm.kaProbes + |times| == e.cfg.timers.keepaliveCount + 1
    ensures Expired(e, times).state == CLOSED
    ensures forall k :: 0 <= k < |times| ==>
              var f := Expired(e, times[..k]);
              IdleOpen(f) && f.tm.kaProbes == e.tm.kaProbes + k && |f.wire| == |e.wire| + k
    decreases |times|
  {
    hide Fired, IsProbe;
    OneExpiry(e, times[0]);
    var f := Fired(e, times[0]);
    if |times| == 1 {
      assert times[1..] == [];
      assert times[..0] == [];
    } else {
      DeadPeerGivenUp(f, times[1..]);
      forall k | 0 <= k < |times|
        ensures var g := Expired(e, times[..k]);
                IdleOpen(g) && g.tm.kaProbes == e.tm.kaProbes + k && |g.wire| == |e.wire| + k
      {
        if k > 0 { assert times[..k][1..] == times[1..][..k - 1]; } else { assert times[..0] == []; }
      }
    }
  }

  /** Hearing from its peer, an established engine starts to count idle time anew. */
  function Alive(e: Engine): Engine { if e.state == ESTABLISHED then RestartKeepalive(e, true) else e }

  /** A probe is out of window at the other engine, whatever that has received. */
  lemma ProbeOutOfWindow(s: System, p: Packet)
    requires Reachable(s) && IdleOpen(s.a) && Synced(s.b.state) && IsProbe(s.a, p)
    ensures !Acceptable(p.seg.seqNo, 0, s.b.rcv.nxt, RcvWnd(s.b))
  {
    hide Reachable, RcvWnd, Wrap, S32, Acceptable;
    EnginesAgreeOnProbe(s);
    var iss, una, rp := s.a.snd.iss, s.a.hist.unaPos, RecvPos(s.b.hist);
    AddWraps(iss, una, -1);
    assert iss + una + -1 == iss + (una - 1);
    RcvWndWithinBuffer(s.b);
    AcceptableUnwrapped(iss, una - 1, 0, rp, RcvWnd(s.b));
    SerialOrder(iss, una - 1, rp);
  }

  /** The probe that an expiry puts on the wire makes a synchronized peer answer with an acknowledgement, in whatever
      state it is and whatever it has received; besides, the peer only starts to count idle time anew. */
  lemma ProbeIsAnswered(s: System, fired: real, now: real)
    requires Reachable(s) && IdleOpen(s.a) && s.a.tm.kaProbes < s.a.cfg.timers.keepaliveCount && Synced(s.b.state)
    requires ForUs(s.b, OffWire(Fired(s.a, fired).wire[|Fired(s.a, fired).wire| - 1].seg))
    ensures var a := Fired(s.a, fired);
            && |a.wire| == |s.a.wire| + 1 && IsProbe(s.a, a.wire[|s.a.wire|])
            && Step(s.b, now, Arrives(OffWire(a.wire[|s.a.wire|].seg))) == SendAck(Alive(At(s.b, now)))
  {
    hide Reachable, RcvWnd, Acceptable, HandleAck, DoReset, SendAck, Fired, React;
    OneExpiry(s.a, fired);
    var p := Fired(s.a, fired).wire[|s.a.wire|];
    ProbeOutOfWindow(s, p);
    var seg, b := OffWire(p.seg), At(s.b, now);
    ArrivalIs(s.b, now, seg);
    assert RcvWnd(Alive(b)) == RcvWnd(s.b) by { SameOffer(s.b, now); }
    assert HandleSynchronized(Alive(b), seg) == SendAck(Alive(b));
  }

  lemma SameOffer(e: Engine, now: real)
    ensures RcvWnd(Alive(At(e, now))) == RcvWnd(e)
  {
  }

  /** With nothing in flight the peer has received exactly what was sent. */
  lemma EnginesAgreeOnProbe(s: System)
    requires Reachable(s) && IdleOpen(s.a) && Synced(s.b.state)
    ensures s.a.hist.unaPos == RecvPos(s.b.hist) && s.a.snd.una == Wrap(s.a.snd.iss + s.a.hist.unaPos)
    ensures s.b.rcv.nxt == Wrap(s.a.snd.iss + RecvPos(s.b.hist)) && s.b.cfg.rcvWnd < QUARTER
  {
    hide Reachable, Inv, RecvOk;
    EnginesAgree(s);
    ReachableInv(s);
    NothingOut(s.a, Some(s.b.cfg.iss));
    WindowOf(s.b, StreamOf(s.a));
  }
}
