/** Deliveries under way in two directions, each a timer of the scheduler they share. Whatever else the scheduler does,
    they stay live until they fire, and those of one direction fire in the order they were sent. */
module Flights {
  import opened EngineState
  import S = Scheduler

  /** A scheduled delivery. */
  datatype Flight = Flight(timer: S.Timer, seg: Segment)

  function Segs(q: seq<Flight>): seq<Segment> { seq(|q|, i requires 0 <= i < |q| => q[i].seg) }

  /** What is under way, with the same delay for all. */
  datatype Traffic = Traffic(ab: seq<Flight>, ba: seq<Flight>, delay: real)

  function Swapped(c: Traffic): Traffic { Traffic(c.ba, c.ab, c.delay) }

  predicate Increasing(q: seq<Flight>) { forall i, j :: 0 <= i < j < |q| ==> S.Before(q[i].timer, q[j].timer) }

  /** The deliveries wait, in the order they were sent, and were scheduled before now with the same delay. */
  ghost predicate Aloft(q: seq<Flight>, s: S.Sched, delay: real) {
    Increasing(q) && forall i :: 0 <= i < |q| ==> S.Live(s, q[i].timer) && q[i].timer.deadline <= s.now + delay
  }

  predicate IsOf(q: seq<Flight>, id: nat) { exists i :: 0 <= i < |q| && q[i].timer.id == id }

  predicate Apart(p: seq<Flight>, q: seq<Flight>) { forall i :: 0 <= i < |p| ==> !IsOf(q, p[i].timer.id) }

  /** Only handles that were given out have been cancelled. */
  ghost predicate Given(s: S.Sched) { forall id :: id in s.cancelled ==> id < s.next }

  /** The traffic and the scheduler agree. */
  ghost predicate Tied(c: Traffic, s: S.Sched) {
    S.Inv(s) && Given(s) && c.delay > 0.0 && Aloft(c.ab, s, c.delay) && Aloft(c.ba, s, c.delay) && Apart(c.ab, c.ba)
  }

  lemma SwappedTied(c: Traffic, s: S.Sched)
    requires Tied(c, s)
    ensures Tied(Swapped(c), s)
  {
    hide S.Inv, Aloft;
    assert Apart(c.ba, c.ab);
  }

  /** What stays live stays aloft. */
  lemma StayAloft(q: seq<Flight>, s: S.Sched, f: S.Sched, delay: real)
    requires Aloft(q, s, delay) && s.now <= f.now
    requires forall i :: 0 <= i < |q| ==> S.Live(f, q[i].timer)
    ensures Aloft(q, f, delay)
  {
    hide S.Live;
  }

  /** What every scheduler state keeps of a live timer, unless it is cancelled or fires. */
  lemma StayLive(s: S.Sched, f: S.Sched, t: S.Timer)
    requires S.Live(s, t) && S.Follows(s, f) && t.id !in f.cancelled
    requires forall i :: |s.fired| <= i < |f.fired| ==> f.fired[i].timer.id != t.id
    ensures S.Live(f, t)
  {
    assert forall i :: 0 <= i < |s.fired| ==> f.fired[i] == s.fired[i];
  }

  /** ... so the traffic stays, too. */
  lemma StayTied(c: Traffic, s: S.Sched, f: S.Sched)
    requires Tied(c, s) && S.Inv(f) && S.Follows(s, f) && Given(f)
    requires forall id :: IsOf(c.ab, id) || IsOf(c.ba, id) ==> id !in f.cancelled
    requires forall i :: |s.fired| <= i < |f.fired| ==> !IsOf(c.ab, f.fired[i].timer.id) && !IsOf(c.ba, f.fired[i].timer.id)
    ensures Tied(c, f)
  {
    hide S.Inv, S.Live, S.Follows;
    assert s.now <= f.now by { assert S.Follows(s, f); Onward(s, f); }
    QueueStays(c.ab, s, f, c.delay);
    QueueStays(c.ba, s, f, c.delay);
  }

  lemma Onward(s: S.Sched, f: S.Sched)
    requires S.Follows(s, f)
    ensures s.now <= f.now
  {
  }

  lemma QueueStays(q: seq<Flight>, s: S.Sched, f: S.Sched, delay: real)
    requires Aloft(q, s, delay) && S.Follows(s, f) && s.now <= f.now
    requires forall id :: IsOf(q, id) ==> id !in f.cancelled
    requires forall i :: |s.fired| <= i < |f.fired| ==> !IsOf(q, f.fired[i].timer.id)
    ensures Aloft(q, f, delay)
  {
    hide S.Live, S.Follows;
    forall i | 0 <= i < |q| ensures S.Live(f, q[i].timer) {
      assert IsOf(q, q[i].timer.id);
      StayLive(s, f, q[i].timer);
    }
    StayAloft(q, s, f, delay);
  }

  // ---------------------------------------------------------------------------------------------
  // What may happen
  // ---------------------------------------------------------------------------------------------

  /** The traffic with one more delivery towards B, as the scheduler numbers it. */
  function SentToB(c: Traffic, s: S.Sched, seg: Segment): Traffic {
    c.(ab := c.ab + [Flight(S.Timer(s.now + S.MaxR(c.delay, 0.0), s.next), seg)])
  }

  /** A delivery is scheduled. */
  lemma SendTied(c: Traffic, s: S.Sched, seg: Segment)
    requires Tied(c, s)
    ensures Tied(SentToB(c, s, seg), S.Started(s, c.delay))
  {
    hide S.Inv, S.Insert;
    var f := S.Started(s, c.delay);
    StartTied(c, s, c.delay);
    var d := SentToB(c, s, seg);
    var t := d.ab[|c.ab|].timer;
    assert S.Live(f, t) by { NewIsLive(s, c.delay); }
    assert forall i :: 0 <= i < |c.ba| ==> S.Live(s, c.ba[i].timer) && c.ba[i].timer.id < s.next;
    forall i | 0 <= i < |c.ab| ensures S.Before(c.ab[i].timer, t) {
      assert S.Live(s, c.ab[i].timer);
    }
    assert !IsOf(c.ba, s.next);
  }

  lemma NewIsLive(s: S.Sched, delay: real)
    requires S.Inv(s) && Given(s)
    ensures S.Live(S.Started(s, delay), S.Timer(s.now + S.MaxR(delay, 0.0), s.next))
  {
    hide S.Insert;
    assert forall i :: 0 <= i < |s.fired| ==> S.Known(s, s.fired[i].timer);
  }

  /** Something else starts a timer, or cancels one that is no delivery. */
  lemma StartTied(c: Traffic, s: S.Sched, delay: real)
    requires Tied(c, s)
    ensures Tied(c, S.Started(s, delay))
  {
    hide S.Inv, S.Started;
    ActTied(c, s, S.CallLater(delay));
  }

  /** A handle given out before, and none of the deliveries': the channel keeps those to itself. */
  predicate Foreign(c: Traffic, s: S.Sched, a: S.Action) {
    a.Cancel? ==> a.id < s.next && !IsOf(c.ab, a.id) && !IsOf(c.ba, a.id)
  }

  lemma ActTied(c: Traffic, s: S.Sched, a: S.Action)
    requires Tied(c, s) && Foreign(c, s, a)
    ensures Tied(c, S.Acted(s, a))
  {
    hide S.Inv, S.Started;
    S.ActedKeeps(s, a);
    S.ActedFollows(s, a);
    NoneCancelled(c, s);
    CancelsOne(s, a);
    StayTied(c, s, S.Acted(s, a));
  }

  lemma CancelsOne(s: S.Sched, a: S.Action)
    ensures S.Acted(s, a).cancelled == s.cancelled + if a.Cancel? then {a.id} else {}
  {
    hide S.Insert;
  }

  lemma NoneCancelled(c: Traffic, s: S.Sched)
    requires Tied(c, s)
    ensures forall id :: IsOf(c.ab, id) || IsOf(c.ba, id) ==> id !in s.cancelled
  {
    hide S.Inv;
    forall id | IsOf(c.ab, id) || IsOf(c.ba, id) ensures id !in s.cancelled {
      if IsOf(c.ab, id) {
        var i :| 0 <= i < |c.ab| && c.ab[i].timer.id == id;
        assert S.Live(s, c.ab[i].timer);
      } else {
        var i :| 0 <= i < |c.ba| && c.ba[i].timer.id == id;
        assert S.Live(s, c.ba[i].timer);
      }
    }
  }

  /** Another timer fires. */
  lemma ForeignFires(c: Traffic, s: S.Sched)
    requires Tied(c, s) && s.heap != [] && !IsOf(c.ab, s.heap[0].id) && !IsOf(c.ba, s.heap[0].id) && s.heap[0].id !in s.cancelled
    ensures Tied(c, S.Called(s))
  {
    hide S.Inv;
    S.FireKeeps(s);
    NoneCancelled(c, s);
    StayTied(c, s, S.Called(s));
  }

  /** A cancelled timer is passed over. */
  lemma SkipTied(c: Traffic, s: S.Sched)
    requires Tied(c, s) && s.heap != [] && s.heap[0].id in s.cancelled
    ensures Tied(c, S.Skipped(s))
  {
    hide S.Inv;
    S.FireKeeps(s);
    NoneCancelled(c, s);
    StayTied(c, s, S.Skipped(s));
  }

  /** Time passes. */
  lemma WaitTied(c: Traffic, s: S.Sched, now: real)
    requires Tied(c, s) && s.now <= now && (s.heap != [] ==> now <= s.heap[0].deadline)
    ensures Tied(c, s.(now := now))
  {
    hide S.Inv;
    S.ClockKeeps(s, now);
    NoneCancelled(c, s);
    StayTied(c, s, s.(now := now));
  }

  /** When the timer of a delivery fires, it is the one sent first of its direction; the rest stay aloft. */
  lemma FirstFires(c: Traffic, s: S.Sched, k: nat)
    requires Tied(c, s) && s.heap != [] && k < |c.ab| && s.heap[0].id == c.ab[k].timer.id
    ensures k == 0 && s.heap[0] == c.ab[0].timer && s.heap[0].id !in s.cancelled
    ensures Tied(c.(ab := c.ab[1..]), S.Called(s))
  {
    hide S.Inv;
    FirstIs(c, s, k);
    S.FireKeeps(s);
    NoneCancelled(c, s);
    var d := c.(ab := c.ab[1..]);
    Rest(c, s);
    forall id | IsOf(d.ab, id) || IsOf(d.ba, id) ensures IsOf(c.ab, id) || IsOf(c.ba, id) {
      if IsOf(d.ab, id) {
        var i :| 0 <= i < |d.ab| && d.ab[i].timer.id == id;
        assert c.ab[i + 1].timer.id == id;
      }
    }
    StayTied(d, s, S.Called(s));
  }

  lemma FirstIs(c: Traffic, s: S.Sched, k: nat)
    requires Tied(c, s) && s.heap != [] && k < |c.ab| && s.heap[0].id == c.ab[k].timer.id
    ensures k == 0 && s.heap[0] == c.ab[0].timer
  {
    assert S.Known(s, s.heap[0]) && S.Live(s, c.ab[k].timer);
    S.LiveIsAhead(s, c.ab[0].timer) by { assert S.Live(s, c.ab[0].timer); }
    assert forall i :: 0 < i < |s.heap| ==> S.Before(s.heap[0], s.heap[i]);
  }

  /** Without its first delivery the traffic is still tied, and none of it is that one. */
  lemma Rest(c: Traffic, s: S.Sched)
    requires Tied(c, s) && c.ab != []
    ensures var d := c.(ab := c.ab[1..]); Tied(d, s) && !IsOf(d.ab, c.ab[0].timer.id) && !IsOf(d.ba, c.ab[0].timer.id)
  {
    hide S.Inv;
    var d := c.(ab := c.ab[1..]);
    assert forall i :: 0 <= i < |d.ab| ==> d.ab[i] == c.ab[i + 1];
    assert S.Live(s, c.ab[0].timer);
    assert forall i :: 0 < i < |c.ab| ==> S.Live(s, c.ab[i].timer) && S.Before(c.ab[0].timer, c.ab[i].timer);
  }

  // ---------------------------------------------------------------------------------------------
  // Runs
  // ---------------------------------------------------------------------------------------------

  /** A delivery is scheduled; other users of the scheduler start or cancel timers; the first timer fires, or is passed
      over; time passes. */
  datatype Doing = Sends(toB: bool, seg: Segment) | Acts(action: S.Action) | Fires | Skips | Waits(until: real)

  /** The channel and its scheduler, and what has arrived. */
  datatype Carrying = Carrying(c: Traffic, s: S.Sched, atB: seq<Segment>, atA: seq<Segment>)

  predicate CanDo(x: Carrying, d: Doing) {
    match d
    case Sends(_, _) => true
    case Acts(a) => Foreign(x.c, x.s, a)
    case Fires => x.s.heap != [] && x.s.heap[0].id !in x.s.cancelled
    case Skips => x.s.heap != [] && x.s.heap[0].id in x.s.cancelled
    case Waits(now) => x.s.now <= now && (x.s.heap != [] ==> now <= x.s.heap[0].deadline)
  }

  /** The place in `q` of the delivery with this handle, or its length. */
  function PlaceOf(q: seq<Flight>, id: nat): (k: nat)
    ensures k <= |q| && (k < |q| <==> IsOf(q, id)) && (k < |q| ==> q[k].timer.id == id)
  {
    if q == [] then 0
    else if q[0].timer.id == id then assert IsOf(q, id); 0
    else
      var k := PlaceOf(q[1..], id);
      assert IsOf(q, id) <==> IsOf(q[1..], id) by { OneLater(q, id); }
      1 + k
  }

  lemma OneLater(q: seq<Flight>, id: nat)
    requires q != [] && q[0].timer.id != id
    ensures IsOf(q, id) <==> IsOf(q[1..], id)
  {
    if IsOf(q, id) {
      var i :| 0 <= i < |q| && q[i].timer.id == id;
      assert q[1..][i - 1].timer.id == id;
    }
  }

  function Without(q: seq<Flight>, k: nat): seq<Flight>
    requires k < |q|
  {
    q[..k] + q[k + 1..]
  }

  /** The callback of a delivery hands over its own segment, whichever that is; other callbacks change nothing here. */
  function Fire(x: Carrying): Carrying
    requires x.s.heap != []
  {
    var id, s := x.s.heap[0].id, S.Called(x.s);
    var i, j := PlaceOf(x.c.ab, id), PlaceOf(x.c.ba, id);
    if i < |x.c.ab| then x.(c := x.c.(ab := Without(x.c.ab, i)), s := s, atB := x.atB + [x.c.ab[i].seg])
    else if j < |x.c.ba| then x.(c := x.c.(ba := Without(x.c.ba, j)), s := s, atA := x.atA + [x.c.ba[j].seg])
    else x.(s := s)
  }

  function Do(x: Carrying, d: Doing): Carrying
    requires CanDo(x, d)
  {
    match d
    case Sends(toB, seg) =>
      var s := S.Started(x.s, x.c.delay);
      if toB then x.(c := SentToB(x.c, x.s, seg), s := s) else x.(c := Swapped(SentToB(Swapped(x.c), x.s, seg)), s := s)
    case Acts(a) => x.(s := S.Acted(x.s, a))
    case Fires => Fire(x)
    case Skips => x.(s := S.Skipped(x.s))
    case Waits(now) => x.(s := x.s.(now := now))
  }

  /** What was sent towards B is what arrived there and what is under way, in the order it was sent; so towards A. */
  ghost predicate InOrder(x: Carrying, toB: seq<Segment>, toA: seq<Segment>) {
    Tied(x.c, x.s) && x.atB + Segs(x.c.ab) == toB && x.atA + Segs(x.c.ba) == toA
  }

  function Sent(d: Doing, toB: bool): seq<Segment> { if d.Sends? && d.toB == toB then [d.seg] else [] }

  lemma SegsPush(q: seq<Flight>, f: Flight)
    ensures Segs(q + [f]) == Segs(q) + [f.seg]
  {
  }

  lemma DoInOrder(x: Carrying, d: Doing, toB: seq<Segment>, toA: seq<Segment>)
    requires InOrder(x, toB, toA) && CanDo(x, d)
    ensures InOrder(Do(x, d), toB + Sent(d, true), toA + Sent(d, false))
  {
    hide S.Inv, Tied, S.Started, S.Called, S.Skipped, S.Acted;
    match d
    case Sends(to, seg) =>
      if to {
        SendTied(x.c, x.s, seg) by { HasTied(x, toB, toA); }
        SegsPush(x.c.ab, SentToB(x.c, x.s, seg).ab[|x.c.ab|]);
      } else {
        SwappedTied(x.c, x.s);
        SendTied(Swapped(x.c), x.s, seg);
        SwappedTied(SentToB(Swapped(x.c), x.s, seg), S.Started(x.s, x.c.delay));
        SegsPush(x.c.ba, SentToB(Swapped(x.c), x.s, seg).ab[|x.c.ba|]);
      }
    case Acts(a) => ActTied(x.c, x.s, a);
    case Fires => FireInOrder(x, toB, toA);
    case Skips => SkipTied(x.c, x.s);
    case Waits(now) => WaitTied(x.c, x.s, now);
  }

  lemma HasTied(x: Carrying, toB: seq<Segment>, toA: seq<Segment>)
    requires InOrder(x, toB, toA)
    ensures Tied(x.c, x.s)
  {
    hide Tied;
  }

  lemma FirstOut(q: seq<Flight>, at: seq<Segment>)
    requires q != []
    ensures Without(q, 0) == q[1..] && at + Segs(q) == (at + [q[0].seg]) + Segs(q[1..])
  {
  }

  lemma FireInOrder(x: Carrying, toB: seq<Segment>, toA: seq<Segment>)
    requires InOrder(x, toB, toA) && CanDo(x, Fires)
    ensures InOrder(Fire(x), toB, toA)
  {
    hide S.Inv, Tied, S.Called, Segs, Without;
    var id := x.s.heap[0].id;
    var i, j := PlaceOf(x.c.ab, id), PlaceOf(x.c.ba, id);
    if i < |x.c.ab| {
      FirstFires(x.c, x.s, i);
      FirstOut(x.c.ab, x.atB);
    } else if j < |x.c.ba| {
      SwappedTied(x.c, x.s);
      FirstFires(Swapped(x.c), x.s, j);
      SwappedTied(Swapped(x.c).(ab := x.c.ba[1..]), S.Called(x.s));
      FirstOut(x.c.ba, x.atA);
    } else {
      ForeignFires(x.c, x.s);
    }
  }

  predicate CanDoAll(x: Carrying, ds: seq<Doing>)
    decreases |ds|
  {
    ds != [] ==> CanDo(x, ds[0]) && CanDoAll(Do(x, ds[0]), ds[1..])
  }

  function DoAll(x: Carrying, ds: seq<Doing>): Carrying
    requires CanDoAll(x, ds)
    decreases |ds|
  {
    if ds == [] then x else DoAll(Do(x, ds[0]), ds[1..])
  }

  function SentAll(ds: seq<Doing>, toB: bool): seq<Segment>
    decreases |ds|
  {
    if ds == [] then [] else Sent(ds[0], toB) + SentAll(ds[1..], toB)
  }

  lemma {:induction false} DoAllInOrder(x: Carrying, ds: seq<Doing>, toB: seq<Segment>, toA: seq<Segment>)
    requires InOrder(x, toB, toA) && CanDoAll(x, ds)
    ensures InOrder(DoAll(x, ds), toB + SentAll(ds, true), toA + SentAll(ds, false))
    decreases |ds|
  {
    hide Do, CanDo, Tied;
    if ds == [] {
      assert toB + [] == toB && toA + [] == toA;
    } else {
      DoInOrder(x, ds[0], toB, toA);
      DoAllInOrder(Do(x, ds[0]), ds[1..], toB + Sent(ds[0], true), toA + Sent(ds[0], false));
      assert toB + Sent(ds[0], true) + SentAll(ds[1..], true) == toB + SentAll(ds, true);
      assert toA + Sent(ds[0], false) + SentAll(ds[1..], false) == toA + SentAll(ds, false);
    }
  }

  /** However a channel with a constant positive delay shares its scheduler with other users of timers: what arrives
      in each direction, and then what is under way, is what was sent, in order and once. */
  lemma ArrivesInOrder(start: real, delay: real, ds: seq<Doing>)
    requires delay > 0.0 && CanDoAll(Carrying(Traffic([], [], delay), S.Fresh(start), [], []), ds)
    ensures var x := DoAll(Carrying(Traffic([], [], delay), S.Fresh(start), [], []), ds);
            x.atB + Segs(x.c.ab) == SentAll(ds, true) && x.atA + Segs(x.c.ba) == SentAll(ds, false)
  {
    hide CanDoAll, DoAll;
    var x := Carrying(Traffic([], [], delay), S.Fresh(start), [], []);
    DoAllInOrder(x, ds, [], []);
    assert [] + SentAll(ds, true) == SentAll(ds, true) && [] + SentAll(ds, false) == SentAll(ds, false);
  }
}
