/** The two engines, the lossy channel with a constant positive delay, and the clock, as one machine: what happens next
    is a call from outside, or whatever is due first. Its runs are runs of the channel, and every event of them is in
    time for every timer that runs. */
module TimedWire {
  import opened SeqNum
  import opened EngineState
  import opened EngineSpec
  import opened SendInvariant
  import opened SendPath
  import opened EngineInvariant
  import opened EngineRuns
  import opened WireLog
  import opened HonestPeer
  import opened TwoEngines
  import opened FifoWire
  import opened GiveUpBound
  import S = Scheduler
  import opened Flights

  /** `dueAb` and `dueBa` say when each packet in flight arrives. */
  datatype Timed = Timed(w: Wired, now: real, dueAb: seq<real>, dueBa: seq<real>, delay: real)

  function Across(x: Timed): Timed { x.(w := Mirrored(x.w), dueAb := x.dueBa, dueBa := x.dueAb) }

  predicate NotPast(d: Option<real>, t: real) { d.Some? ==> t <= d.value }

  predicate Within(tm: Timers, t: real) {
    NotPast(tm.rt, t) && NotPast(tm.persist, t) && NotPast(tm.tw, t) && NotPast(tm.ack, t) && NotPast(tm.ka, t)
  }

  predicate AllFrom(due: seq<real>, t: real) { forall i :: 0 <= i < |due| ==> t <= due[i] }

  /** Nothing is due before `t`. */
  predicate InTime(x: Timed, t: real) {
    Within(x.w.s.a.tm, t) && Within(x.w.s.b.tm, t) && AllFrom(x.dueAb, t) && AllFrom(x.dueBa, t)
  }

  /** The deadline of the timer that this event is the expiry of. */
  function DueOf(tm: Timers, ev: Event): Option<real> {
    match ev
    case RtoFires => tm.rt
    case PersistFires => tm.persist
    case TimeWaitFires => tm.tw
    case DelackFires => tm.ack
    case KeepaliveFires => tm.ka
    case _ => None
  }

  /** A call may come at any time before the next deadline; a timer fires, and a packet arrives, when it is due, and
      nothing is due before. */
  predicate CanNowA(x: Timed, t: Turn) {
    && CanA(x.w, t)
    && match t
       case Call(_, when, ev) => InTime(x, when) && (DueOf(x.w.s.a.tm, ev).Some? ==> when == DueOf(x.w.s.a.tm, ev).value) && x.now <= when
       case Arrive(_, when) => InTime(x, when) && x.dueBa != [] && when == x.dueBa[0] && x.now <= when
       case Lose(_, k) => k < |x.dueBa|
  }

  /** What was sent since arrives after the delay. */
  function Launched(due: seq<real>, before: Engine, after: Engine, at: real): seq<real> {
    due + if |before.wire| <= |after.wire| then seq(|after.wire| - |before.wire|, _ => at) else []
  }

  function NowA(x: Timed, t: Turn): Timed
    requires CanNowA(x, t)
  {
    var w := TurnA(x.w, t);
    match t
    case Lose(_, k) => x.(w := w, dueBa := x.dueBa[..k] + x.dueBa[k + 1..])
    case Arrive(_, when) =>
      x.(w := w, now := when, dueBa := x.dueBa[1..], dueAb := Launched(x.dueAb, x.w.s.a, w.s.a, when + x.delay))
    case Call(_, when, _) => x.(w := w, now := when, dueAb := Launched(x.dueAb, x.w.s.a, w.s.a, when + x.delay))
  }

  predicate CanNow(x: Timed, t: Turn) { CanNowA(if AtSideA(t) then x else Across(x), t) }

  function Now(x: Timed, t: Turn): Timed
    requires CanNow(x, t)
  {
    if AtSideA(t) then NowA(x, t) else Across(NowA(Across(x), t))
  }

  /** Every packet in flight has its time, and the clock has passed no deadline. */
  predicate Clocked(x: Timed) {
    x.delay > 0.0 && |x.dueAb| == |x.w.ab.inFlight| && |x.dueBa| == |x.w.ba.inFlight| && InTime(x, x.now)
  }

  lemma RenewsWithin(t: Timers, t': Timers, when: real)
    requires RenewsAll(t, t') && t.now == when && Within(t, when)
    ensures Within(t', when)
  {
  }

  lemma StepWithin(e: Engine, when: real, ev: Event)
    requires Within(e.tm, when)
    ensures Within(Step(e, when, ev).tm, when) && e.wire <= Step(e, when, ev).wire
  {
    hide Step;
    StepAppends(e, when, ev);
    RenewsWithin(At(e, when).tm, Step(e, when, ev).tm, when);
  }

  lemma NowAClocked(x: Timed, t: Turn)
    requires Clocked(x) && CanNowA(x, t)
    ensures Clocked(NowA(x, t)) && NowA(x, t).w == TurnA(x.w, t)
  {
    hide Step, Within, Allowed;
    match t
    case Lose(_, k) =>
    case Call(_, when, ev) => StepWithin(x.w.s.a, when, ev);
    case Arrive(_, when) => StepWithin(x.w.s.a, when, Arrives(OffWire(x.w.s.b.wire[x.w.ba.inFlight[0]].seg)));
  }

  lemma NowClocked(x: Timed, t: Turn)
    requires Clocked(x) && CanNow(x, t)
    ensures Clocked(Now(x, t)) && Can(x.w, t) && Now(x, t).w == Turned(x.w, t)
  {
    hide TurnA, CanA, NowA, Within;
    NowAClocked(if AtSideA(t) then x else Across(x), t);
  }

  predicate CanRunNow(x: Timed, ts: seq<Turn>)
    decreases |ts|
  {
    ts != [] ==> CanNow(x, ts[0]) && CanRunNow(Now(x, ts[0]), ts[1..])
  }

  function RanNow(x: Timed, ts: seq<Turn>): Timed
    requires CanRunNow(x, ts)
    decreases |ts|
  {
    if ts == [] then x else RanNow(Now(x, ts[0]), ts[1..])
  }

  /** A run of the machine is a run of the channel. */
  lemma {:induction false} RunNowIsRun(x: Timed, ts: seq<Turn>)
    requires Clocked(x) && CanRunNow(x, ts)
    ensures CanRun(x.w, ts) && RanNow(x, ts).w == RanTurns(x.w, ts) && Clocked(RanNow(x, ts))
    decreases |ts|
  {
    hide Clocked, CanNow, Now, Can, Turned;
    if ts != [] {
      NowClocked(x, ts[0]);
      RunNowIsRun(Now(x, ts[0]), ts[1..]);
    }
  }

  /** Two fresh engines and an empty channel, at time `now`. */
  function Start(s: System, now: real, delay: real): Timed { Timed(Wired(s, EMPTY, EMPTY), now, [], [], delay) }

  ghost predicate TimedReachable(x: Timed) {
    exists s0: System, now: real, delay: real, ts: seq<Turn> ::
      IsFresh(s0.a) && IsFresh(s0.b) && delay > 0.0 && CanRunNow(Start(s0, now, delay), ts) && x == RanNow(Start(s0, now, delay), ts)
  }

  lemma StartClocked(s: System, now: real, delay: real)
    requires IsFresh(s.a) && IsFresh(s.b) && delay > 0.0
    ensures Clocked(Start(s, now, delay))
  {
    var port: u16, ut: Option<real>, t: real :| s.a == Fresh(s.a.cfg, port, ut, t);
    var port': u16, ut': Option<real>, t': real :| s.b == Fresh(s.b.cfg, port', ut', t');
  }

  /** Whatever the machine reaches the channel reaches: stream and close integrity hold of it. */
  lemma TimedIntegrity(x: Timed)
    requires TimedReachable(x)
    ensures FifoReachable(x.w) && Reachable(x.w.s) && Clocked(x)
    ensures x.w.s.b.hist.delivered <= x.w.s.a.hist.accepted && x.w.s.a.hist.delivered <= x.w.s.b.hist.accepted
  {
    hide CanRunNow, RanNow, CanRun, RanTurns, IsFresh, Clocked, Reachable, FifoReachable;
    var s0: System, now: real, delay: real, ts: seq<Turn> :|
      IsFresh(s0.a) && IsFresh(s0.b) && delay > 0.0 && CanRunNow(Start(s0, now, delay), ts) && x == RanNow(Start(s0, now, delay), ts);
    StartClocked(s0, now, delay);
    RunNowIsRun(Start(s0, now, delay), ts);
    assert FifoReachable(x.w) by { FifoReached(x.w, s0, ts); }
    FifoIsTimely(x.w);
    FifoIntegrity(x.w);
  }

  lemma FifoReached(w: Wired, s0: System, ts: seq<Turn>)
    requires IsFresh(s0.a) && IsFresh(s0.b) && CanRun(Wired(s0, EMPTY, EMPTY), ts) && w == RanTurns(Wired(s0, EMPTY, EMPTY), ts)
    ensures FifoReachable(w)
  {
    hide IsFresh, CanRun, RanTurns;
  }

  // ---------------------------------------------------------------------------------------------
  // What one engine sees
  // ---------------------------------------------------------------------------------------------

  /** What the turn is to the engine at side A, if anything. */
  function EventAtA(x: Timed, t: Turn): seq<(real, Event)>
    requires CanNow(x, t)
  {
    if !AtSideA(t) then []
    else
      match t
      case Lose(_, _) => []
      case Call(_, when, ev) => [(when, ev)]
      case Arrive(_, when) => [(when, Arrives(OffWire(x.w.s.b.wire[x.w.ba.inFlight[0]].seg)))]
  }

  function EventsAtA(x: Timed, ts: seq<Turn>): seq<(real, Event)>
    requires CanRunNow(x, ts)
    decreases |ts|
  {
    if ts == [] then [] else EventAtA(x, ts[0]) + EventsAtA(Now(x, ts[0]), ts[1..])
  }

  /** The machine is in time: no event of an engine comes after the deadline of its retransmission timer, and the timer
      expires when it is due. */
  lemma EventInTime(x: Timed, t: Turn)
    requires CanNow(x, t) && EventAtA(x, t) != []
    ensures var (when, ev) := EventAtA(x, t)[0];
            && |EventAtA(x, t)| == 1 && Allowed(x.w.s.a, ev) && OnTime(x.w.s.a, when, ev)
            && Now(x, t).w.s.a == Step(x.w.s.a, when, ev) && Now(x, t).now == when
  {
    hide Step;
  }

  lemma NoEvent(x: Timed, t: Turn)
    requires CanNow(x, t) && EventAtA(x, t) == []
    ensures Now(x, t).w.s.a == x.w.s.a
  {
    hide Step;
  }

  /** Nothing that the engine sees acknowledges anything new or drops the connection on purpose. */
  predicate QuietEvents(e: Engine, evs: seq<(real, Event)>)
    decreases |evs|
  {
    evs != [] ==> GiveUpBound.Quiet(e, evs[0].1) && QuietEvents(Step(e, evs[0].0, evs[0].1), evs[1..])
  }

  lemma {:induction false} EventsInTime(x: Timed, ts: seq<Turn>)
    requires CanRunNow(x, ts) && QuietEvents(x.w.s.a, EventsAtA(x, ts))
    ensures var evs := EventsAtA(x, ts); QuietRun(x.w.s.a, evs) && After(x.w.s.a, evs) == RanNow(x, ts).w.s.a
    decreases |ts|
  {
    hide CanNow, Now, EventAtA, Step, Allowed, GiveUpBound.Quiet, OnTime;
    if ts != [] {
      var y, first, rest := Now(x, ts[0]), EventAtA(x, ts[0]), EventsAtA(Now(x, ts[0]), ts[1..]);
      if first == [] {
        NoEvent(x, ts[0]);
        assert first + rest == rest;
      } else {
        EventInTime(x, ts[0]);
        assert (first + rest)[0] == first[0] && (first + rest)[1..] == rest;
      }
      EventsInTime(y, ts[1..]);
    }
  }

  lemma ReachedAtA(x: Timed)
    requires TimedReachable(x)
    ensures Inv(x.w.s.a, None) && Clocked(x)
  {
    hide Inv, Clocked, TimedReachable, RecvOk, FifoReachable, Reachable;
    TimedIntegrity(x);
    ReachableInv(x.w.s);
    AnyPeer(x.w.s.a, Some(x.w.s.b.cfg.iss));
  }

  /** The give-up bound on this machine. With the timer of side A armed at `t0` with interval `r`, and as long as nothing
      new is acknowledged to it, side A is closed once the clock is past the last timeout; and without a user timeout
      it is closed only then. */
  lemma TimedGivesUp(x: Timed, ts: seq<Turn>, t0: real, r: real)
    requires TimedReachable(x) && CanRunNow(x, ts) && Armed(x.w.s.a, t0, r) && QuietEvents(x.w.s.a, EventsAtA(x, ts))
    ensures var y, e := RanNow(x, ts), x.w.s.a;
            var last := DueAt(t0, r, e.cfg.timers.rtoMax, e.cfg.timers.maxRetransmits);
            && (y.now > last ==> y.w.s.a.state == CLOSED)
            && (e.tm.userTimeout == None && NoUserTimeout(EventsAtA(x, ts)) && y.now < last ==> y.w.s.a.state != CLOSED)
  {
    hide Inv, Step, Allowed, QuietRun, After, CanRunNow, RanNow, EventsAtA, CanRun, RanTurns, TimedReachable, QuietEvents, Timeouts, NoUserTimeout;
    ReachedAtA(x);
    RunNowIsRun(x, ts);
    EventsInTime(x, ts);
    var y, e, evs := RanNow(x, ts), x.w.s.a, EventsAtA(x, ts);
    var ev := ReceiveCalled(0);
    assert Allowed(y.w.s.a, ev) && OnTime(y.w.s.a, y.now, ev) by { NothingRead(y); }
    GivesUpExactlyThen(e, evs, t0, r, y.now, ev);
    if e.tm.userTimeout == None && NoUserTimeout(evs) {
      WaitsOpen(e);
      ActiveStarted(e);
      ArmedIsTrying(e, t0, r);
      NotBeforeLast(x, ts, e, t0, r, 0);
    }
  }

  lemma ClockGrows(x: Timed, t: Turn)
    requires Clocked(x) && CanNow(x, t)
    ensures x.now <= Now(x, t).now
  {
    hide TurnA, CanA, InTime;
  }

  lemma {:induction false} RunGrows(x: Timed, ts: seq<Turn>)
    requires Clocked(x) && CanRunNow(x, ts)
    ensures x.now <= RanNow(x, ts).now
    decreases |ts|
  {
    hide Clocked, CanNow, Now;
    if ts != [] {
      ClockGrows(x, ts[0]);
      NowClocked(x, ts[0]);
      RunGrows(Now(x, ts[0]), ts[1..]);
    }
  }

  /** Without a user timeout the connection is given up by the last timeout, and not before. */
  lemma {:induction false} NotBeforeLast(x: Timed, ts: seq<Turn>, e: Engine, t0: real, r: real, k: nat)
    requires Clocked(x) && CanRunNow(x, ts) && Inv(x.w.s.a, None) && 0.0 <= r <= e.cfg.timers.rtoMax
    requires Trying(e, x.w.s.a, t0, r, k) && x.w.s.a.tm.userTimeout == None
    requires NoUserTimeout(EventsAtA(x, ts)) && QuietEvents(x.w.s.a, EventsAtA(x, ts))
    ensures RanNow(x, ts).now < DueAt(t0, r, e.cfg.timers.rtoMax, e.cfg.timers.maxRetransmits) ==> RanNow(x, ts).w.s.a.state != CLOSED
    decreases |ts|
  {
    hide Inv, Clocked, CanNow, Now, EventAtA, Step, Allowed, GiveUpBound.Quiet, OnTime, Trying, DueAt, UserTimedOut;
    TryingCount(e, x.w.s.a, t0, r, k);
    if ts != [] {
      var y, first, rest := Now(x, ts[0]), EventAtA(x, ts[0]), EventsAtA(Now(x, ts[0]), ts[1..]);
      NowClocked(x, ts[0]);
      if first == [] {
        NoEvent(x, ts[0]);
        assert first + rest == rest;
        NotBeforeLast(y, ts[1..], e, t0, r, k);
      } else {
        EventInTime(x, ts[0]);
        assert (first + rest)[0] == first[0] && (first + rest)[1..] == rest;
        var (when, ev) := first[0];
        assert EventsAtA(x, ts)[0] == (when, ev) && forall i :: 0 <= i < |rest| ==> EventsAtA(x, ts)[i + 1] == rest[i];
        StepOk(x.w.s.a, when, ev, None);
        TryingStep(e, x.w.s.a, t0, r, k, when, ev);
        NoTimeoutNoAbort(x.w.s.a, when);
        if ev.RtoFires? && k == e.cfg.timers.maxRetransmits {
          FiresWhenDue(e, x.w.s.a, t0, r, k, when);
          RunGrows(y, ts[1..]);
        } else {
          var m := if ev.RtoFires? then k + 1 else k;
          TryingCount(e, y.w.s.a, t0, r, m);
          NotBeforeLast(y, ts[1..], e, t0, r, m);
        }
      }
    }
  }

  lemma FiresWhenDue(e: Engine, f: Engine, t0: real, r: real, k: nat, when: real)
    requires Trying(e, f, t0, r, k) && OnTime(f, when, RtoFires)
    ensures when == DueAt(t0, r, e.cfg.timers.rtoMax, k)
  {
  }

  lemma NothingRead(y: Timed)
    requires Clocked(y)
    ensures Allowed(y.w.s.a, ReceiveCalled(0)) && OnTime(y.w.s.a, y.now, ReceiveCalled(0))
  {
  }

  // ---------------------------------------------------------------------------------------------
  // The scheduler runs this machine
  // ---------------------------------------------------------------------------------------------

  /** The scheduler has a live timer for every deadline of the machine. */
  ghost predicate HasTimer(s: S.Sched, d: Option<real>) {
    d.Some? ==> exists t: S.Timer :: S.Live(s, t) && t.deadline == d.value
  }

  ghost predicate Runs(s: S.Sched, x: Timed) {
    && S.Inv(s) && x.now <= s.now && TimersOf(s, x.w.s.a.tm) && TimersOf(s, x.w.s.b.tm)
    && (forall i :: 0 <= i < |x.dueAb| ==> HasTimer(s, Some(x.dueAb[i])))
    && (forall i :: 0 <= i < |x.dueBa| ==> HasTimer(s, Some(x.dueBa[i])))
  }

  ghost predicate TimersOf(s: S.Sched, tm: Timers) {
    HasTimer(s, tm.rt) && HasTimer(s, tm.persist) && HasTimer(s, tm.tw) && HasTimer(s, tm.ack) && HasTimer(s, tm.ka)
  }

  lemma HasTimerInTime(s: S.Sched, d: Option<real>)
    requires S.Inv(s) && HasTimer(s, d)
    ensures NotPast(d, s.now) && (s.heap != [] ==> NotPast(d, s.heap[0].deadline))
  {
    hide S.Inv, S.Live;
    if d.Some? {
      var t: S.Timer :| S.Live(s, t) && t.deadline == d.value;
      S.LiveIsAhead(s, t);
      S.NextIsFirst(s, t, _ => []);
    }
  }

  /** A scheduler that has them fires in time: at its clock, and when its first timer fires, nothing is due before. */
  lemma SchedulerIsInTime(s: S.Sched, x: Timed)
    requires Runs(s, x)
    ensures InTime(x, s.now) && (s.heap != [] ==> InTime(x, s.heap[0].deadline))
  {
    hide S.Inv, HasTimer;
    forall tm: Timers | TimersOf(s, tm) ensures Within(tm, s.now) && (s.heap != [] ==> Within(tm, s.heap[0].deadline)) {
      HasTimerInTime(s, tm.rt);
      HasTimerInTime(s, tm.persist);
      HasTimerInTime(s, tm.tw);
      HasTimerInTime(s, tm.ack);
      HasTimerInTime(s, tm.ka);
    }
    forall i | 0 <= i < |x.dueAb| ensures s.now <= x.dueAb[i] && (s.heap != [] ==> s.heap[0].deadline <= x.dueAb[i]) {
      HasTimerInTime(s, Some(x.dueAb[i]));
    }
    forall i | 0 <= i < |x.dueBa| ensures s.now <= x.dueBa[i] && (s.heap != [] ==> s.heap[0].deadline <= x.dueBa[i]) {
      HasTimerInTime(s, Some(x.dueBa[i]));
    }
  }

  /** The deliveries that the channel has scheduled are the packets in flight. */
  ghost predicate Carries(c: Traffic, x: Timed) {
    && |c.ab| == |x.dueAb| == |x.w.ab.inFlight|
    && forall i :: 0 <= i < |c.ab| ==>
         && c.ab[i].timer.deadline == x.dueAb[i] && x.w.ab.inFlight[i] < |x.w.s.a.wire|
         && c.ab[i].seg == x.w.s.a.wire[x.w.ab.inFlight[i]].seg
  }

  /** When the scheduler fires one of them, the machine may take the turn in which that segment arrives. */
  lemma FiringIsTurn(c: Traffic, s: S.Sched, x: Timed, k: nat)
    requires Tied(c, s) && Runs(s, x) && Carries(c, x) && s.heap != [] && k < |c.ab| && s.heap[0].id == c.ab[k].timer.id
    ensures var t := Arrive(false, s.heap[0].deadline);
            k == 0 && CanNow(x, t) && x.w.ab.inFlight[0] < |x.w.s.a.wire| && c.ab[k].seg == x.w.s.a.wire[x.w.ab.inFlight[0]].seg
  {
    hide Runs, HasTimer, Within, Tied;
    FirstFires(c, s, k);
    assert InTime(x, s.heap[0].deadline) && x.now <= s.heap[0].deadline by { RunsOnwards(s, x); }
  }

  lemma RunsOnwards(s: S.Sched, x: Timed)
    requires Runs(s, x) && s.heap != []
    ensures InTime(x, s.heap[0].deadline) && x.now <= s.heap[0].deadline
  {
    hide InTime, HasTimer;
    SchedulerIsInTime(s, x);
  }
}
