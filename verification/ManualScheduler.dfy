/** The virtual-time scheduler as an object updated in place. */
module ManualSchedulerClass {
  import opened Scheduler

  class ManualScheduler {
    var now: real
    // The order in which the standard library's `heapq` pops.
    var heap: seq<Timer>
    var counter: nat
    var cancelled: set<nat>
    // History
    var due: seq<real>
    var fired: seq<Firing>

    function Value(): Sched
      reads this
    {
      Sched(now, heap, counter, cancelled, due, fired)
    }

    constructor (start: real)
      ensures Value() == Fresh(start)
    {
      now, heap, counter, cancelled := start, [], 0, {};
      due, fired := [], [];
    }

    method StartTimer(delay: real) returns (id: nat)
      modifies this`heap, this`counter, this`due
      ensures Value() == Started(old(Value()), delay) && id == old(counter)
    {
      var d := delay;
      if d < 0.0 { d := 0.0; }
      id := counter;
      counter := counter + 1;
      heap := Insert(heap, Timer(now + d, id));
      due := due + [now + d];
    }

    method CancelTimer(id: nat)
      modifies this`cancelled
      ensures Value() == Acted(old(Value()), Cancel(id))
    {
      cancelled := cancelled + {id};
    }

    /** A callback: what it does to the scheduler. */
    method Perform(acts: seq<Action>)
      modifies this`heap, this`counter, this`due, this`cancelled
      ensures Value() == ActedAll(old(Value()), acts)
    {
      hide Insert;
      for i := 0 to |acts|
        invariant ActedAll(Value(), acts[i..]) == ActedAll(old(Value()), acts)
      {
        assert acts[i..][1..] == acts[i + 1..];
        match acts[i]
        case CallLater(delay) => var _ := StartTimer(delay);
        case Cancel(id) => CancelTimer(id);
      }
    }

    method Pop(script: Script) returns (ran: bool)
      requires heap != []
      modifies this
      ensures Value() == Popped(old(Value()), script) && ran == (old(heap)[0].id !in old(cancelled))
      ensures |fired| == |old(fired)| + if ran then 1 else 0
    {
      hide ActedAll;
      var t := heap[0];
      heap := heap[1..];
      now := MaxR(now, t.deadline);
      if t.id in cancelled { return false; }
      fired := fired + [Firing(t, now)];
      Perform(script(t.id));
      return true;
    }

    /** `advance`, for at most `steps` timers: fires what is due, then moves the clock. It returns how many
        callbacks ran, and whether it got through. */
    method Advance(dt: real, script: Script, steps: nat) returns (count: nat, finished: bool)
      modifies this
      ensures Value() == Done(old(Value()), Scheduler.Advance(dt, steps), script)
      ensures count == |fired| - |old(fired)|
      ensures finished == !Due(Drained(old(Value()), old(now) + dt, script, steps), old(now) + dt)
    {
      hide Popped;
      var target := now + dt;
      count := 0;
      var left := steps;
      while heap != [] && heap[0].deadline <= target && left > 0
        invariant count == |fired| - |old(fired)|
        invariant Drained(Value(), target, script, left) == Drained(old(Value()), target, script, steps)
        decreases left
      {
        var ran := Pop(script);
        if ran { count := count + 1; }
        left := left - 1;
      }
      finished := !(heap != [] && heap[0].deadline <= target);
      now := target;
    }

    /** `run_until_idle`: false stands for the error it raises when `maxSteps` are not enough. */
    method RunUntilIdle(maxSteps: nat, script: Script) returns (count: nat, ok: bool)
      modifies this
      ensures Value() == Done(old(Value()), Scheduler.RunUntilIdle(maxSteps), script)
      ensures count == |fired| - |old(fired)|
      ensures ok == Returns(old(Value()), Scheduler.RunUntilIdle(maxSteps), script)
    {
      hide Popped;
      count := 0;
      var steps := 0;
      while heap != []
        invariant steps <= maxSteps && count == |fired| - |old(fired)|
        invariant Emptied(Value(), script, maxSteps - steps) == Emptied(old(Value()), script, maxSteps)
        decreases maxSteps - steps
      {
        if steps + 1 > maxSteps { return count, false; }
        steps := steps + 1;
        var ran := Pop(script);
        if ran { count := count + 1; }
      }
      ok := true;
    }
  }
}
