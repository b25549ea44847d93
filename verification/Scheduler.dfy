/** The virtual-time scheduler: timers fire in the order of their deadlines, at their deadlines, once, unless they
    were cancelled, however callbacks start and cancel timers while others fire. */
module Scheduler {

  /** A handle: its deadline, and its number in the order of `call_later` calls. */
  datatype Timer = Timer(deadline: real, id: nat)

  predicate Before(a: Timer, b: Timer) {
    a.deadline < b.deadline || (a.deadline == b.deadline && a.id < b.id)
  }

  /** What a callback may do to the scheduler. */
  datatype Action = CallLater(delay: real) | Cancel(id: nat)

  /** What each timer's callback does when it runs. A timer runs at most once, so this describes any callbacks. */
  type Script = nat -> seq<Action>

  datatype Firing = Firing(timer: Timer, at: real)

  /** `heap` in the order `heapq` pops it. `due` (the deadline each timer was given) and `fired` are history. */
  datatype Sched = Sched(now: real, heap: seq<Timer>, next: nat, cancelled: set<nat>, due: seq<real>, fired: seq<Firing>)

  function MaxR(a: real, b: real): real { if a <= b then b else a }

  // ---------------------------------------------------------------------------------------------
  // Operations
  // ---------------------------------------------------------------------------------------------

  function Insert(heap: seq<Timer>, t: Timer): seq<Timer>
    decreases |heap|
  {
    if heap == [] || Before(t, heap[0]) then [t] + heap else [heap[0]] + Insert(heap[1..], t)
  }

  function Started(s: Sched, delay: real): Sched {
    var t := Timer(s.now + MaxR(delay, 0.0), s.next);
    s.(heap := Insert(s.heap, t), next := s.next + 1, due := s.due + [t.deadline])
  }

  function Acted(s: Sched, a: Action): Sched {
    match a
    case CallLater(delay) => Started(s, delay)
    case Cancel(id) => s.(cancelled := s.cancelled + {id})
  }

  function ActedAll(s: Sched, acts: seq<Action>): Sched
    decreases |acts|
  {
    if acts == [] then s else ActedAll(Acted(s, acts[0]), acts[1..])
  }

  /** Pop the first timer: time moves to its deadline, and its callback runs unless it was cancelled. */
  function Popped(s: Sched, script: Script): Sched
    requires s.heap != []
  {
    if s.heap[0].id in s.cancelled then Skipped(s) else ActedAll(Called(s), script(s.heap[0].id))
  }

  /** The state in which the first timer's callback runs. */
  function Called(s: Sched): Sched
    requires s.heap != []
  {
    var t := s.heap[0];
    var now := MaxR(s.now, t.deadline);
    s.(heap := s.heap[1..], now := now, fired := s.fired + [Firing(t, now)])
  }

  /** A cancelled timer is only taken off the heap. */
  function Skipped(s: Sched): Sched
    requires s.heap != []
  {
    s.(heap := s.heap[1..], now := MaxR(s.now, s.heap[0].deadline))
  }

  predicate Due(s: Sched, target: real) { s.heap != [] && s.heap[0].deadline <= target }

  /** The loop of `advance`, for at most `steps` timers. */
  function Drained(s: Sched, target: real, script: Script, steps: nat): Sched
    decreases steps
  {
    if steps == 0 || !Due(s, target) then s else Drained(Popped(s, script), target, script, steps - 1)
  }

  function Emptied(s: Sched, script: Script, steps: nat): Sched
    decreases steps
  {
    if steps == 0 || s.heap == [] then s else Emptied(Popped(s, script), script, steps - 1)
  }

  /** One call from outside. `steps` bounds how many timers one call may pop: for `RunUntilIdle` it is the
      caller's `max_steps`. */
  datatype Call = Act(action: Action) | Advance(dt: real, steps: nat) | RunUntilIdle(maxSteps: nat)

  function Done(s: Sched, c: Call, script: Script): Sched {
    match c
    case Act(a) => Acted(s, a)
    case Advance(dt, steps) => Drained(s, s.now + dt, script, steps).(now := s.now + dt)
    case RunUntilIdle(n) => Emptied(s, script, n)
  }

  /** Time does not go backwards, and the call returns: no timer storm keeps it busy for more than its steps. */
  predicate Returns(s: Sched, c: Call, script: Script) {
    match c
    case Act(a) => true
    case Advance(dt, steps) => dt >= 0.0 && !Due(Drained(s, s.now + dt, script, steps), s.now + dt)
    case RunUntilIdle(n) => Emptied(s, script, n).heap == []
  }

  // ---------------------------------------------------------------------------------------------
  // The invariant
  // ---------------------------------------------------------------------------------------------

  predicate Sorted(heap: seq<Timer>) {
    forall i, j :: 0 <= i < j < |heap| ==> Before(heap[i], heap[j])
  }

  predicate Known(s: Sched, t: Timer) { t.id < s.next && t.id < |s.due| && s.due[t.id] == t.deadline }

  predicate InHeap(heap: seq<Timer>, id: nat) { exists i :: 0 <= i < |heap| && heap[i].id == id }

  predicate HasFired(fired: seq<Firing>, id: nat) { exists i :: 0 <= i < |fired| && fired[i].timer.id == id }

  ghost predicate HeapOk(s: Sched) {
    && Sorted(s.heap)
    && forall i :: 0 <= i < |s.heap| ==> Known(s, s.heap[i]) && s.now <= s.heap[i].deadline
  }

  ghost predicate FiredOk(s: Sched) {
    && (forall i :: 0 <= i < |s.fired| ==>
          Known(s, s.fired[i].timer) && s.fired[i].at == s.fired[i].timer.deadline <= s.now)
    && (forall i, j :: 0 <= i < j < |s.fired| ==> Before(s.fired[i].timer, s.fired[j].timer))
    && (forall i, j :: 0 <= i < |s.fired| && 0 <= j < |s.heap| ==> Before(s.fired[i].timer, s.heap[j]))
  }

  /** No timer is forgotten: it waits, has fired, or was cancelled. */
  ghost predicate Accounted(s: Sched) {
    forall id: nat :: id < s.next ==> InHeap(s.heap, id) || HasFired(s.fired, id) || id in s.cancelled
  }

  ghost predicate Inv(s: Sched) { |s.due| == s.next && HeapOk(s) && FiredOk(s) && Accounted(s) }

  lemma {:induction false} InsertAdds(heap: seq<Timer>, t: Timer)
    ensures multiset(Insert(heap, t)) == multiset(heap) + multiset{t}
    decreases |heap|
  {
    if heap != [] && !Before(t, heap[0]) {
      InsertAdds(heap[1..], t);
      assert heap == [heap[0]] + heap[1..];
    }
  }

  lemma {:induction false} InsertSorts(heap: seq<Timer>, t: Timer)
    requires Sorted(heap) && forall i :: 0 <= i < |heap| ==> heap[i].id != t.id
    ensures Sorted(Insert(heap, t))
    decreases |heap|
  {
    if heap != [] && !Before(t, heap[0]) {
      var r := Insert(heap[1..], t);
      InsertSorts(heap[1..], t);
      InsertAdds(heap[1..], t);
      forall j | 0 <= j < |r| ensures Before(heap[0], r[j]) {
        assert r[j] in multiset(r);
      }
      Prepended(heap[0], r);
    } else if heap != [] {
      forall j | 0 <= j < |heap| ensures Before(t, heap[j]) {
        assert j > 0 ==> Before(heap[0], heap[j]);
      }
      Prepended(t, heap);
    }
  }

  lemma Prepended(t: Timer, r: seq<Timer>)
    requires Sorted(r) && forall j :: 0 <= j < |r| ==> Before(t, r[j])
    ensures Sorted([t] + r)
  {
  }

  /** The timers of a heap with one more inserted. */
  lemma Inserted(heap: seq<Timer>, t: Timer)
    requires Sorted(heap) && forall i :: 0 <= i < |heap| ==> heap[i].id < t.id
    ensures Sorted(Insert(heap, t))
    ensures forall i :: 0 <= i < |Insert(heap, t)| ==> Insert(heap, t)[i] == t || Insert(heap, t)[i] in heap
    ensures t in Insert(heap, t) && forall i :: 0 <= i < |heap| ==> heap[i] in Insert(heap, t)
  {
    InsertSorts(heap, t);
    InsertAdds(heap, t);
    var r := Insert(heap, t);
    forall i | 0 <= i < |r| ensures r[i] == t || r[i] in heap {
      assert r[i] in multiset(r);
    }
    assert t in multiset(r);
    forall i | 0 <= i < |heap| ensures heap[i] in r {
      assert heap[i] in multiset(heap) && heap[i] in multiset(r);
    }
  }

  lemma StartedKeeps(s: Sched, delay: real)
    requires Inv(s)
    ensures Inv(Started(s, delay))
  {
    var t := Timer(s.now + MaxR(delay, 0.0), s.next);
    var f := Started(s, delay);
    hide Insert;
    Inserted(s.heap, t);
    forall i | 0 <= i < |f.heap| ensures Known(f, f.heap[i]) && f.now <= f.heap[i].deadline {
      if f.heap[i] != t {
        var j :| 0 <= j < |s.heap| && s.heap[j] == f.heap[i];
        assert Known(s, s.heap[j]);
      }
    }
    forall i | 0 <= i < |f.fired| ensures Known(f, f.fired[i].timer) {
      assert Known(s, s.fired[i].timer);
    }
    forall i, j | 0 <= i < |f.fired| && 0 <= j < |f.heap| ensures Before(f.fired[i].timer, f.heap[j]) {
      if f.heap[j] == t {
        assert Known(s, s.fired[i].timer);
      } else {
        var k :| 0 <= k < |s.heap| && s.heap[k] == f.heap[j];
      }
    }
    forall id: nat | id < f.next ensures InHeap(f.heap, id) || HasFired(f.fired, id) || id in f.cancelled {
      if id == s.next {
        var j :| 0 <= j < |f.heap| && f.heap[j] == t;
      } else if InHeap(s.heap, id) {
        var i :| 0 <= i < |s.heap| && s.heap[i].id == id;
        var j :| 0 <= j < |f.heap| && f.heap[j] == s.heap[i];
      }
    }
  }

  lemma ActedKeeps(s: Sched, a: Action)
    requires Inv(s)
    ensures Inv(Acted(s, a)) && Acted(s, a).now == s.now && Acted(s, a).fired == s.fired && s.cancelled <= Acted(s, a).cancelled
    ensures s.next <= Acted(s, a).next && s.due <= Acted(s, a).due
  {
    match a
    case CallLater(delay) => StartedKeeps(s, delay);
    case Cancel(id) =>
      var f := Acted(s, a);
      assert HeapOk(f) && FiredOk(f) by {
        assert forall t :: Known(f, t) <==> Known(s, t);
      }
  }

  lemma {:induction false} ActedAllKeeps(s: Sched, acts: seq<Action>)
    requires Inv(s)
    ensures var f := ActedAll(s, acts);
            Inv(f) && f.now == s.now && f.fired == s.fired && s.cancelled <= f.cancelled && s.next <= f.next && s.due <= f.due
    decreases |acts|
  {
    hide Inv, Acted;
    if acts != [] {
      ActedKeeps(s, acts[0]);
      ActedAllKeeps(Acted(s, acts[0]), acts[1..]);
    }
  }

  /** `f` continues `s`: time moved on, and every timer that fired in between was not cancelled when `s` was. */
  ghost predicate Follows(s: Sched, f: Sched) {
    && s.now <= f.now && s.next <= f.next && s.due <= f.due && s.fired <= f.fired && s.cancelled <= f.cancelled
    && forall i :: |s.fired| <= i < |f.fired| ==> f.fired[i].timer.id !in s.cancelled
  }

  lemma FollowsOn(s: Sched, m: Sched, f: Sched)
    requires Follows(s, m) && Follows(m, f)
    ensures Follows(s, f)
  {
    forall i | |s.fired| <= i < |f.fired| ensures f.fired[i].timer.id !in s.cancelled {
      if i < |m.fired| { assert f.fired[i] == m.fired[i]; }
    }
  }

  lemma FireKeeps(s: Sched)
    requires Inv(s) && s.heap != []
    ensures Called(s).now == Skipped(s).now == s.heap[0].deadline && Inv(Called(s))
    ensures s.heap[0].id in s.cancelled ==> Inv(Skipped(s))
  {
    var t, p, f := s.heap[0], Skipped(s), Called(s);
    assert Known(s, t);
    assert forall u :: Known(f, u) <==> Known(s, u);
    assert forall u :: Known(p, u) <==> Known(s, u);
    assert forall i :: 0 <= i < |p.heap| ==> p.heap[i] == s.heap[i + 1];
    forall id: nat | id < s.next
      ensures InHeap(f.heap, id) || HasFired(f.fired, id) || id in f.cancelled
      ensures t.id in s.cancelled ==> InHeap(p.heap, id) || HasFired(p.fired, id) || id in p.cancelled
    {
      if InHeap(s.heap, id) {
        var i :| 0 <= i < |s.heap| && s.heap[i].id == id;
        if i > 0 { assert p.heap[i - 1].id == id; } else { assert f.fired[|s.fired|].timer.id == id; }
      } else if HasFired(s.fired, id) {
        var i :| 0 <= i < |s.fired| && s.fired[i].timer.id == id;
        assert f.fired[i].timer.id == id;
      }
    }
  }

  lemma PoppedKeeps(s: Sched, script: Script)
    requires Inv(s) && s.heap != []
    ensures var f := Popped(s, script); Inv(f) && Follows(s, f) && f.now == s.heap[0].deadline
  {
    hide Inv, ActedAll;
    FireKeeps(s);
    if s.heap[0].id !in s.cancelled { ActedAllKeeps(Called(s), script(s.heap[0].id)); }
  }

  lemma {:induction false} DrainedKeeps(s: Sched, target: real, script: Script, steps: nat)
    requires Inv(s) && s.now <= target
    ensures var f := Drained(s, target, script, steps); Inv(f) && Follows(s, f) && f.now <= target
    decreases steps
  {
    hide Inv, Popped, Follows;
    assert Follows(s, s) by { FollowsSelf(s); }
    if steps > 0 && Due(s, target) {
      PoppedKeeps(s, script);
      DrainedKeeps(Popped(s, script), target, script, steps - 1);
      FollowsOn(s, Popped(s, script), Drained(s, target, script, steps));
    }
  }

  lemma FollowsSelf(s: Sched)
    ensures Follows(s, s)
  {
  }

  lemma {:induction false} EmptiedKeeps(s: Sched, script: Script, steps: nat)
    requires Inv(s)
    ensures var f := Emptied(s, script, steps); Inv(f) && Follows(s, f)
    decreases steps
  {
    hide Inv, Popped, Follows;
    FollowsSelf(s);
    if steps > 0 && s.heap != [] {
      PoppedKeeps(s, script);
      EmptiedKeeps(Popped(s, script), script, steps - 1);
      FollowsOn(s, Popped(s, script), Emptied(s, script, steps));
    }
  }

  /** Time may move up to the first waiting deadline. */
  lemma ClockKeeps(s: Sched, now: real)
    requires Inv(s) && s.now <= now && (s.heap != [] ==> now <= s.heap[0].deadline)
    ensures Inv(s.(now := now)) && Follows(s, s.(now := now))
  {
    var f := s.(now := now);
    assert forall u :: Known(f, u) <==> Known(s, u);
    assert forall i :: 0 < i < |s.heap| ==> Before(s.heap[0], s.heap[i]);
  }

  lemma DoneKeeps(s: Sched, c: Call, script: Script)
    requires Inv(s) && Returns(s, c, script)
    ensures var f := Done(s, c, script); Inv(f) && Follows(s, f)
  {
    hide Inv, Drained, Emptied, Acted, Follows;
    match c
    case Act(a) => ActedKeeps(s, a); ActedFollows(s, a);
    case Advance(dt, steps) =>
      DrainedKeeps(s, s.now + dt, script, steps);
      var m := Drained(s, s.now + dt, script, steps);
      ClockKeeps(m, s.now + dt);
      FollowsOn(s, m, m.(now := s.now + dt));
    case RunUntilIdle(n) => EmptiedKeeps(s, script, n);
  }

  lemma ActedFollows(s: Sched, a: Action)
    ensures Follows(s, Acted(s, a))
  {
  }

  // ---------------------------------------------------------------------------------------------
  // Runs
  // ---------------------------------------------------------------------------------------------

  function DoneAll(s: Sched, cs: seq<Call>, script: Script): Sched
    decreases |cs|
  {
    if cs == [] then s else DoneAll(Done(s, cs[0], script), cs[1..], script)
  }

  predicate AllReturn(s: Sched, cs: seq<Call>, script: Script)
    decreases |cs|
  {
    cs != [] ==> Returns(s, cs[0], script) && AllReturn(Done(s, cs[0], script), cs[1..], script)
  }

  function Fresh(start: real): Sched { Sched(start, [], 0, {}, [], []) }

  lemma {:induction false} RunKeeps(s: Sched, cs: seq<Call>, script: Script)
    requires Inv(s) && AllReturn(s, cs, script)
    ensures var f := DoneAll(s, cs, script); Inv(f) && Follows(s, f)
    decreases |cs|
  {
    hide Inv, Follows, Done, Returns;
    FollowsSelf(s);
    if cs != [] {
      var m := Done(s, cs[0], script);
      DoneKeeps(s, cs[0], script);
      RunKeeps(m, cs[1..], script);
      FollowsOn(s, m, DoneAll(s, cs, script));
    }
  }

  /** Over any sequence of calls, whatever the callbacks do: timers fire in the strict order of deadline and
      number, so none fires twice, each at its own deadline, which is the deadline it was given. */
  lemma FiredInOrderOnTime(start: real, cs: seq<Call>, script: Script)
    requires AllReturn(Fresh(start), cs, script)
    ensures var f := DoneAll(Fresh(start), cs, script);
            && (forall i, j :: 0 <= i < j < |f.fired| ==> Before(f.fired[i].timer, f.fired[j].timer))
            && (forall i :: 0 <= i < |f.fired| ==>
                  f.fired[i].at == f.fired[i].timer.deadline && Known(f, f.fired[i].timer))
  {
    hide DoneAll, AllReturn;
    RunKeeps(Fresh(start), cs, script);
  }

  /** A timer that was cancelled before it fired never fires. */
  lemma CancelledNeverFires(start: real, cs: seq<Call>, later: seq<Call>, script: Script, id: nat)
    requires AllReturn(Fresh(start), cs, script)
    requires var m := DoneAll(Fresh(start), cs, script); id in m.cancelled && !HasFired(m.fired, id) && AllReturn(m, later, script)
    ensures var f := DoneAll(DoneAll(Fresh(start), cs, script), later, script); !HasFired(f.fired, id)
  {
    hide DoneAll, AllReturn;
    var m := DoneAll(Fresh(start), cs, script);
    RunKeeps(Fresh(start), cs, script);
    RunKeeps(m, later, script);
    var f := DoneAll(m, later, script);
    forall i | 0 <= i < |f.fired| ensures f.fired[i].timer.id != id {
      if i < |m.fired| { assert f.fired[i] == m.fired[i]; }
    }
  }

  /** When `advance` returns, every timer due by then has fired or was cancelled; when `run_until_idle` returns,
      every timer ever started. */
  lemma DueTimersHaveFired(start: real, cs: seq<Call>, last: Call, script: Script, id: nat)
    requires AllReturn(Fresh(start), cs, script)
    requires var m := DoneAll(Fresh(start), cs, script);
             !last.Act? && Returns(m, last, script) && id < Done(m, last, script).next
    ensures var f := Done(DoneAll(Fresh(start), cs, script), last, script);
            && id < |f.due|
            && (last.RunUntilIdle? || f.due[id] <= f.now ==> HasFired(f.fired, id) || id in f.cancelled)
  {
    hide DoneAll, AllReturn, Drained, Emptied;
    var m := DoneAll(Fresh(start), cs, script);
    RunKeeps(Fresh(start), cs, script);
    DoneKeeps(m, last, script);
    var f := Done(m, last, script);
    if InHeap(f.heap, id) {
      var i :| 0 <= i < |f.heap| && f.heap[i].id == id;
      assert Known(f, f.heap[i]);
      assert i > 0 ==> Before(f.heap[0], f.heap[i]);
    }
  }

  // ---------------------------------------------------------------------------------------------
  // What users of timers rely on
  // ---------------------------------------------------------------------------------------------

  /** A timer that was started, and neither fired nor cancelled. */
  predicate Live(s: Sched, t: Timer) { Known(s, t) && !HasFired(s.fired, t.id) && t.id !in s.cancelled }

  /** The clock is never beyond the deadline of a live timer. */
  lemma LiveIsAhead(s: Sched, t: Timer)
    requires Inv(s) && Live(s, t)
    ensures s.now <= t.deadline && t in s.heap
  {
    assert InHeap(s.heap, t.id);
    var i :| 0 <= i < |s.heap| && s.heap[i].id == t.id;
    assert Known(s, s.heap[i]);
  }

  /** What fires next is never later than a live timer, and fires at its own deadline. */
  lemma NextIsFirst(s: Sched, t: Timer, script: Script)
    requires Inv(s) && Live(s, t)
    ensures s.heap != [] && (s.heap[0] == t || Before(s.heap[0], t)) && Popped(s, script).now == s.heap[0].deadline
  {
    hide Popped;
    LiveIsAhead(s, t);
    var i :| 0 <= i < |s.heap| && s.heap[i] == t;
    assert i > 0 ==> Before(s.heap[0], s.heap[i]);
    PoppedKeeps(s, script);
  }

  /** Of two timers started one after the other with the same delay, the first fires first: whenever the second has
      fired, the first fired before it or was cancelled. */
  lemma SameDelayKeepsOrder(s: Sched, m: Sched, f: Sched, delay: real)
    requires Inv(s) && Inv(m) && Inv(f) && Follows(Started(s, delay), m) && Follows(Started(m, delay), f)
    requires HasFired(f.fired, m.next)
    ensures s.next < m.next
    ensures s.next in f.cancelled
            || exists i, j :: 0 <= i < j < |f.fired| && f.fired[i].timer.id == s.next && f.fired[j].timer.id == m.next
  {
  }
}
