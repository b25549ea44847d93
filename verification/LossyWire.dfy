/** The channel between two engines as the object that counts, drops and schedules deliveries, with a constant positive
    delay. What has arrived and what is in flight are exactly the segments its filter let through, in the order they
    were sent: the order comes from the scheduler's. */
module LossyWireClass {
  import opened EngineState
  import S = Scheduler
  import opened Flights
  import opened ManualSchedulerClass

  /** Decides, from a segment and its number in its direction, whether it gets through. */
  type Filter = Option<(Segment, nat) -> bool>

  predicate Passes(f: Filter, seg: Segment, n: nat) { f.None? || f.value(seg, n) }

  /** The segments of `sent` that get through. */
  function Kept(f: Filter, sent: seq<Segment>): seq<Segment> {
    if sent == [] then []
    else
      var n := |sent| - 1;
      Kept(f, sent[..n]) + if Passes(f, sent[n], n) then [sent[n]] else []
  }

  lemma KeptPush(f: Filter, sent: seq<Segment>, seg: Segment)
    ensures Kept(f, sent + [seg]) == Kept(f, sent) + if Passes(f, seg, |sent|) then [seg] else []
  {
    assert (sent + [seg])[..|sent|] == sent;
  }

  class LossyWire {
    const sched: ManualScheduler
    const delay: real
    const aToB: Filter
    const bToA: Filter
    var countAb: nat
    var countBa: nat
    var deliveredAb: nat
    var deliveredBa: nat
    var dropped: nat
    // Scheduled deliveries.
    var flyingAb: seq<Flight>
    var flyingBa: seq<Flight>
    // History: what was sent and what arrived.
    var sentAb: seq<Segment>
    var sentBa: seq<Segment>
    var arrivedAb: seq<Segment>
    var arrivedBa: seq<Segment>

    /** In order, nothing lost but by the filter, nothing twice, and every segment counted once. */
    predicate Valid()
      reads this
    {
      && countAb == |sentAb| && countBa == |sentBa| && deliveredAb == |arrivedAb| && deliveredBa == |arrivedBa|
      && arrivedAb + Segs(flyingAb) == Kept(aToB, sentAb)
      && arrivedBa + Segs(flyingBa) == Kept(bToA, sentBa)
      && countAb + countBa == deliveredAb + deliveredBa + dropped + |flyingAb| + |flyingBa|
    }

    function Carried(): Traffic
      reads this
    {
      Traffic(flyingAb, flyingBa, delay)
    }

    /** The wire and a scheduler of the value `s` agree. */
    ghost predicate Rides(s: S.Sched)
      reads this
    {
      Valid() && Tied(Carried(), s)
    }

    constructor (sched: ManualScheduler, delay: real, aToB: Filter, bToA: Filter)
      requires delay > 0.0 && S.Inv(sched.Value()) && Given(sched.Value())
      ensures Rides(sched.Value()) && flyingAb == [] && flyingBa == [] && dropped == 0
      ensures this.sched == sched && this.delay == delay && this.aToB == aToB && this.bToA == bToA
    {
      this.sched, this.delay, this.aToB, this.bToA := sched, delay, aToB, bToA;
      countAb, countBa, deliveredAb, deliveredBa, dropped := 0, 0, 0, 0, 0;
      flyingAb, flyingBa, sentAb, sentBa, arrivedAb, arrivedBa := [], [], [], [], [], [];
    }

    method SendFromA(seg: Segment)
      requires Rides(sched.Value())
      modifies this`countAb, this`dropped, this`flyingAb, this`sentAb, sched`heap, sched`counter, sched`due
      ensures Rides(sched.Value()) && sentAb == old(sentAb) + [seg]
      ensures var passes, s := Passes(aToB, seg, old(countAb)), old(sched.Value());
              && Carried() == (if passes then SentToB(old(Carried()), s, seg) else old(Carried()))
              && sched.Value() == (if passes then S.Started(s, delay) else s)
              && dropped == old(dropped) + if passes then 0 else 1
    {
      hide Tied, S.Started;
      KeptPush(aToB, sentAb, seg);
      var n := countAb;
      countAb := countAb + 1;
      sentAb := sentAb + [seg];
      if aToB.Some? && !aToB.value(seg, n) {
        dropped := dropped + 1;
        return;
      }
      SendTied(Carried(), sched.Value(), seg);
      var flight := SentToB(Carried(), sched.Value(), seg).ab[|flyingAb|];
      var _ := sched.StartTimer(delay);
      flyingAb := flyingAb + [flight];
      SegsPush(old(flyingAb), flight);
    }

    method SendFromB(seg: Segment)
      requires Rides(sched.Value())
      modifies this`countBa, this`dropped, this`flyingBa, this`sentBa, sched`heap, sched`counter, sched`due
      ensures Rides(sched.Value()) && sentBa == old(sentBa) + [seg]
      ensures var passes, s := Passes(bToA, seg, old(countBa)), old(sched.Value());
              && Carried() == (if passes then Swapped(SentToB(Swapped(old(Carried())), s, seg)) else old(Carried()))
              && sched.Value() == (if passes then S.Started(s, delay) else s)
              && dropped == old(dropped) + if passes then 0 else 1
    {
      hide Tied, S.Started;
      KeptPush(bToA, sentBa, seg);
      var n := countBa;
      countBa := countBa + 1;
      sentBa := sentBa + [seg];
      if bToA.Some? && !bToA.value(seg, n) {
        dropped := dropped + 1;
        return;
      }
      var c := Swapped(Carried());
      SwappedTied(Carried(), sched.Value());
      SendTied(c, sched.Value(), seg);
      SwappedTied(SentToB(c, sched.Value(), seg), S.Started(sched.Value(), delay));
      var flight := SentToB(c, sched.Value(), seg).ab[|flyingBa|];
      var _ := sched.StartTimer(delay);
      flyingBa := flyingBa + [flight];
      SegsPush(old(flyingBa), flight);
    }

    /** The callback of the delivery `k`, run when its timer fires: it is the one that was sent first. `s` is the
        scheduler as it was when it took that timer off its heap. */
    method ArriveAtB(k: nat, ghost s: S.Sched) returns (seg: Segment)
      requires Rides(s) && s.heap != [] && k < |flyingAb| && s.heap[0].id == flyingAb[k].timer.id && sched.Value() == S.Called(s)
      modifies this`deliveredAb, this`flyingAb, this`arrivedAb
      ensures Rides(sched.Value()) && k == 0 && flyingAb == old(flyingAb)[1..] && seg == old(flyingAb)[0].seg
      ensures arrivedAb == old(arrivedAb) + [seg]
    {
      hide Tied, S.Called;
      FirstFires(Carried(), s, k);
      seg := flyingAb[k].seg;
      deliveredAb := deliveredAb + 1;
      flyingAb := flyingAb[..k] + flyingAb[k + 1..];
      arrivedAb := arrivedAb + [seg];
      assert Segs(old(flyingAb)) == [seg] + Segs(flyingAb);
      assert Carried() == old(Carried()).(ab := old(flyingAb)[1..]);
    }

    method ArriveAtA(k: nat, ghost s: S.Sched) returns (seg: Segment)
      requires Rides(s) && s.heap != [] && k < |flyingBa| && s.heap[0].id == flyingBa[k].timer.id && sched.Value() == S.Called(s)
      modifies this`deliveredBa, this`flyingBa, this`arrivedBa
      ensures Rides(sched.Value()) && k == 0 && flyingBa == old(flyingBa)[1..] && seg == old(flyingBa)[0].seg
      ensures arrivedBa == old(arrivedBa) + [seg]
    {
      hide Tied, S.Called;
      SwappedTied(Carried(), s);
      FirstFires(Swapped(Carried()), s, k);
      SwappedTied(Swapped(Carried()).(ab := flyingBa[1..]), sched.Value());
      seg := flyingBa[k].seg;
      deliveredBa := deliveredBa + 1;
      flyingBa := flyingBa[..k] + flyingBa[k + 1..];
      arrivedBa := arrivedBa + [seg];
      assert Segs(old(flyingBa)) == [seg] + Segs(flyingBa);
      assert Carried() == old(Carried()).(ba := old(flyingBa)[1..]);
    }
  }
}
