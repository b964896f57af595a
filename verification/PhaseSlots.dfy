/** The phase slots of the runtime sampler. An instant is a number of nanoseconds since the epoch,
    a slot a whole second; a job with a period and a phase (in seconds) has a slot at every second
    that is congruent to the phase modulo the period. */
module PhaseSlots {
  const SECOND: int := 1_000_000_000
  const LEAD: int := 800_000_000

  datatype Job = Job(period: int, phase: int)

  /** traffic, integrity, port-forward, deplete, flush, scavenge. */
  const JOBS: seq<Job> := [Job(10, 0), Job(15, 3), Job(15, 7), Job(60, 12), Job(60, 26), Job(900, 45)]

  predicate IsSlot(t: int, job: Job)
    requires job.period > 0
  {
    (t - job.phase) % job.period == 0
  }

  /** The remainder of a division that truncates toward zero. */
  function TruncatedRem(a: int, b: int): (r: int)
    requires b > 0
  {
    if a >= 0 then a % b else -((-a) % b)
  }

  function NextSlot(now: int, job: Job): (next: int)
    requires job.period > 0
  {
    var unix := now / SECOND;
    var rem := TruncatedRem(unix - job.phase, job.period);
    var delta := job.period - if rem < 0 then rem + job.period else rem;
    var next := unix + delta;
    if next * SECOND - now < LEAD then next + job.period else next
  }

  // ---------------------------------------------------------------------------------------
  // The slot that is chosen
  // ---------------------------------------------------------------------------------------

  predicate Ahead(t: int, now: int) { t * SECOND - now >= LEAD }

  lemma RemAfterAdjust(a: int, b: int)
    requires b > 0
    ensures var rem := TruncatedRem(a, b); (if rem < 0 then rem + b else rem) == a % b
  {
    if a < 0 {
      var m := (-a) % b;
      var q := (-a) / b;
      assert a == b * -q - m;
      if m == 0 {
        DivUnique(a, b, -q, 0);
      } else {
        assert a == b * (-q - 1) + (b - m);
        DivUnique(a, b, -q - 1, b - m);
      }
    }
  }

  lemma DivUnique(a: int, b: int, q: int, r: int)
    requires b > 0 && a == b * q + r && 0 <= r < b
    ensures a / b == q && a % b == r
  {
    var k := a / b - q;
    assert a == b * (a / b) + a % b;
    assert b * k == r - a % b by {
      assert b * (a / b) - b * q == b * k;
    }
    assert k >= 1 ==> b * k >= b;
    assert k <= -1 ==> b * k <= -b;
  }

  /** Two slots of a job lie a whole number of periods apart. */
  lemma SlotsApart(t: int, u: int, job: Job) returns (k: int)
    requires job.period > 0 && IsSlot(t, job) && IsSlot(u, job)
    ensures u - t == job.period * k
    ensures t < u ==> u - t >= job.period
  {
    var p := job.period;
    k := (u - job.phase) / p - (t - job.phase) / p;
    assert u - job.phase == p * ((u - job.phase) / p);
    assert t - job.phase == p * ((t - job.phase) / p);
    if k <= 0 { assert p * k <= 0; } else { assert p * k >= p; }
  }

  lemma SlotShift(t: int, k: int, job: Job)
    requires job.period > 0 && IsSlot(t, job)
    ensures IsSlot(t + job.period * k, job)
  {
    var q := (t - job.phase) / job.period;
    assert t - job.phase == job.period * q;
    DivUnique(t + job.period * k - job.phase, job.period, q + k, 0);
  }

  /** The first slot after the current second. */
  function FirstSlot(now: int, job: Job): (t: int)
    requires job.period > 0
  {
    now / SECOND + job.period - (now / SECOND - job.phase) % job.period
  }

  lemma FirstSlotIsFirst(now: int, job: Job)
    requires job.period > 0
    ensures IsSlot(FirstSlot(now, job), job)
    ensures FirstSlot(now, job) - job.period <= now / SECOND < FirstSlot(now, job)
    ensures NextSlot(now, job) ==
      if Ahead(FirstSlot(now, job), now) then FirstSlot(now, job) else FirstSlot(now, job) + job.period
  {
    var n := now / SECOND - job.phase;
    RemAfterAdjust(n, job.period);
    DivUnique(FirstSlot(now, job) - job.phase, job.period, n / job.period + 1, 0);
  }

  /** NextSlot is the least slot that is at least 800 ms ahead. */
  lemma LeastSlotAhead(now: int, job: Job)
    requires job.period > 0
    ensures IsSlot(NextSlot(now, job), job) && Ahead(NextSlot(now, job), now)
    ensures forall t :: IsSlot(t, job) && Ahead(t, now) ==> NextSlot(now, job) <= t
  {
    FirstSlotIsFirst(now, job);
    var first := FirstSlot(now, job);
    SlotShift(first, 1, job);
    forall t | IsSlot(t, job) && Ahead(t, now) ensures NextSlot(now, job) <= t {
      assert t > now / SECOND;
      var k := SlotsApart(first, t, job);
      if t < first {
        var l := SlotsApart(t, first, job);
      }
    }
  }

  lemma NextSlotIsUnique(now: int, job: Job, t: int)
    requires job.period > 0 && IsSlot(t, job)
    ensures t == NextSlot(now, job) <==> Ahead(t, now) && !Ahead(t - job.period, now)
  {
    LeastSlotAhead(now, job);
    var n := NextSlot(now, job);
    SlotShift(n, -1, job);
    SlotShift(t, -1, job);
    if Ahead(t, now) && n < t {
      var k := SlotsApart(n, t, job);
    }
  }

  lemma Monotone(now: int, later: int, job: Job)
    requires job.period > 0 && now <= later
    ensures NextSlot(now, job) <= NextSlot(later, job)
  {
    LeastSlotAhead(now, job);
    LeastSlotAhead(later, job);
  }

  /** Recomputing the slot keeps it exactly until 800 ms before it. */
  lemma StableExactly(now: int, later: int, job: Job)
    requires job.period > 0 && now <= later
    ensures NextSlot(later, job) == NextSlot(now, job) <==> later <= NextSlot(now, job) * SECOND - LEAD
  {
    LeastSlotAhead(now, job);
    LeastSlotAhead(later, job);
  }

  // ---------------------------------------------------------------------------------------
  // One job over a run of the scheduling loop
  // ---------------------------------------------------------------------------------------

  /** What happens to a job's deadline: a timer round that reads the clock at `now` (and at `end`,
      after running the job if it is due), or a wake pass that ends at `end`. */
  datatype Event = Round(now: int, end: int) | Wake(end: int)

  predicate Fires(deadline: int, e: Event) { e.Round? && e.now >= deadline * SECOND }

  function Deadline(deadline: int, e: Event, job: Job): (r: int)
    requires job.period > 0
  {
    if e.Wake? || Fires(deadline, e) then NextSlot(e.end, job) else deadline
  }

  function Deadlines(deadline: int, events: seq<Event>, job: Job): (r: int)
    requires job.period > 0
    decreases |events|
  {
    if events == [] then deadline else Deadlines(Deadline(deadline, events[0], job), events[1..], job)
  }

  function Firings(deadline: int, events: seq<Event>, job: Job): (n: nat)
    requires job.period > 0
    decreases |events|
  {
    if events == [] then 0
    else (if Fires(deadline, events[0]) then 1 else 0) + Firings(Deadline(deadline, events[0], job), events[1..], job)
  }

  /** The clock does not go back; `since` is an earlier reading. */
  predicate Ordered(since: int, events: seq<Event>)
    decreases |events|
  {
    events == [] || (since <= events[0].end && (events[0].Round? ==> since <= events[0].now <= events[0].end)
                     && Ordered(events[0].end, events[1..]))
  }

  /** The event drops a slot: a wake pass that ends less than 800 ms before the pending one, or a
      round that fires the job and ends less than 800 ms before the next one. */
  predicate Drops(deadline: int, e: Event, job: Job) {
    if e.Wake? then e.end > deadline * SECOND - LEAD
    else Fires(deadline, e) && e.end > (deadline + job.period) * SECOND - LEAD
  }

  predicate NoneDropped(deadline: int, events: seq<Event>, job: Job)
    requires job.period > 0
    decreases |events|
  {
    events == [] ||
    (!Drops(deadline, events[0], job) && NoneDropped(Deadline(deadline, events[0], job), events[1..], job))
  }

  /** One event: a deadline is always the slot computed at some earlier reading. It moves on by one
      period if the job fires and stays if not, and further if and only if the event drops a slot. */
  lemma EventEffect(origin: int, since: int, deadline: int, e: Event, job: Job) returns (next: int)
    requires job.period > 0 && origin <= since && Ordered(since, [e])
    requires deadline == NextSlot(origin, job)
    ensures origin <= next <= e.end && Deadline(deadline, e, job) == NextSlot(next, job)
    ensures Deadline(deadline, e, job) >= deadline + if Fires(deadline, e) then job.period else 0
    ensures Drops(deadline, e, job) <==>
      Deadline(deadline, e, job) > deadline + if Fires(deadline, e) then job.period else 0
  {
    LeastSlotAhead(origin, job);
    if e.Wake? || Fires(deadline, e) {
      next := e.end;
      Monotone(origin, next, job);
      LeastSlotAhead(next, job);
      StableExactly(origin, next, job);
      if Fires(deadline, e) {
        var k := SlotsApart(deadline, NextSlot(next, job), job);
        SlotShift(deadline, 1, job);
        NextSlotIsUnique(next, job, deadline + job.period);
      }
    } else {
      next := origin;
    }
  }

  /** No round leaves a job overdue: if its slot has come the job runs, and its next one lies ahead. */
  lemma NeverOverdue(origin: int, deadline: int, e: Event, job: Job)
    requires job.period > 0 && e.Round? && origin <= e.now <= e.end && deadline == NextSlot(origin, job)
    ensures Deadline(deadline, e, job) * SECOND > e.now
    ensures Fires(deadline, e) <==> deadline * SECOND <= e.now
  {
    LeastSlotAhead(e.end, job);
  }

  /** Over every run of the loop a job fires at most once per period: each firing moves its deadline on
      by a period or more, and the deadline ends within a period and 800 ms of the last reading of the
      clock. It misses no slot, wake passes or not, if and only if no event drops one. */
  lemma {:induction false} FiringRate(origin: int, since: int, deadline: int, events: seq<Event>, job: Job)
    requires job.period > 0 && origin <= since && Ordered(since, events)
    requires deadline == NextSlot(origin, job)
    ensures deadline + job.period * Firings(deadline, events, job) <= Deadlines(deadline, events, job)
    ensures deadline + job.period * Firings(deadline, events, job) == Deadlines(deadline, events, job) <==>
      NoneDropped(deadline, events, job)
    ensures !Ahead(Deadlines(deadline, events, job) - job.period, Last(since, events))
    decreases |events|
  {
    LeastSlotAhead(origin, job);
    NextSlotIsUnique(origin, job, deadline);
    if events != [] {
      assert Ordered(since, [events[0]]);
      var next := EventEffect(origin, since, deadline, events[0], job);
      FiringRate(next, events[0].end, Deadline(deadline, events[0], job), events[1..], job);
      Distribute(job.period, Firings(Deadline(deadline, events[0], job), events[1..], job));
    }
  }

  lemma Distribute(p: int, n: nat)
    ensures p * (1 + n) == p + p * n
  {
  }

  function Last(since: int, events: seq<Event>): (t: int)
    decreases |events|
  {
    if events == [] then since else Last(events[0].end, events[1..])
  }

  /** A wake pass runs every job but the scavenge job, and recomputes the slots of all six. Wake
      passes that end less than 800 ms before a slot drop it, so they can keep the scavenge job
      from firing for any number of its periods. */
  lemma {:induction false} WakesStarve(origin: int, deadline: int, job: Job, n: nat) returns (events: seq<Event>)
    requires job.period > 0 && deadline == NextSlot(origin, job)
    ensures |events| == n && (forall e :: e in events ==> e.Wake?) && Ordered(origin, events)
    ensures Firings(deadline, events, job) == 0
    ensures Deadlines(deadline, events, job) == deadline + job.period * n
    decreases n
  {
    if n == 0 {
      events := [];
    } else {
      var end := deadline * SECOND - LEAD + 1;
      LeastSlotAhead(origin, job);
      SlotShift(deadline, 1, job);
      NextSlotIsUnique(end, job, deadline + job.period);
      var rest := WakesStarve(end, deadline + job.period, job, n - 1);
      events := [Wake(end)] + rest;
      assert events[1..] == rest;
      Distribute(job.period, n - 1);
    }
  }

  // ---------------------------------------------------------------------------------------
  // Which jobs share a second
  // ---------------------------------------------------------------------------------------

  ghost predicate Share(a: Job, b: Job)
    requires a.period > 0 && b.period > 0
  {
    exists t :: IsSlot(t, a) && IsSlot(t, b)
  }

  function Gcd(a: int, b: int): (d: int)
    requires a > 0 && b >= 0
    ensures d > 0
    decreases b
  {
    if b == 0 then a else Gcd(b, a % b)
  }

  /** The greatest common divisor divides both numbers and is an integer combination of them. */
  lemma {:induction false} Bezout(a: int, b: int) returns (x: int, y: int, k: int, l: int)
    requires a > 0 && b >= 0
    ensures a * x + b * y == Gcd(a, b)
    ensures a == Gcd(a, b) * k && b == Gcd(a, b) * l
    decreases b
  {
    if b == 0 {
      x, y, k, l := 1, 0, 1, 0;
    } else {
      var u, v, m, n := Bezout(b, a % b);
      x, y, k, l := v, u - (a / b) * v, (a / b) * m + n, m;
      EuclidStep(a, b, a / b, a % b, Gcd(b, a % b), u, v, m, n);
    }
  }

  lemma EuclidStep(a: int, b: int, q: int, r: int, d: int, u: int, v: int, m: int, n: int)
    requires a == b * q + r && b * u + r * v == d && b == d * m && r == d * n
    ensures a * v + b * (u - q * v) == d
    ensures a == d * (q * m + n)
  {
    calc {
      a * v + b * (u - q * v);
      b * q * v + r * v + b * u - b * (q * v);
      { Reassociate(b, q, v); }
      r * v + b * u;
    }
    calc {
      a;
      d * m * q + d * n;
      { Reassociate(d, m, q); }
      d * (m * q) + d * n;
      d * (q * m + n);
    }
  }

  /** A common divisor of the periods divides the difference of the phases of jobs that share. */
  lemma SharedSlotCongruent(a: Job, b: Job, d: int, k: int, l: int, t: int)
    requires a.period > 0 && b.period > 0 && d > 0 && a.period == d * k && b.period == d * l
    requires IsSlot(t, a) && IsSlot(t, b)
    ensures (a.phase - b.phase) % d == 0
  {
    var m, n := (t - a.phase) / a.period, (t - b.phase) / b.period;
    assert t - a.phase == d * (k * m) by {
      assert t - a.phase == d * k * m;
      Reassociate(d, k, m);
    }
    assert t - b.phase == d * (l * n) by {
      assert t - b.phase == d * l * n;
      Reassociate(d, l, n);
    }
    assert a.phase - b.phase == d * (l * n - k * m);
    DivUnique(a.phase - b.phase, d, l * n - k * m, 0);
  }

  lemma Reassociate(a: int, b: int, c: int)
    ensures a * b * c == a * (b * c)
  {
  }

  /** Congruent phases: the Chinese remainder construction gives a common slot. */
  lemma CongruentShare(a: Job, b: Job, d: int, x: int, y: int, c: int)
    requires a.period > 0 && b.period > 0 && a.period * x + b.period * y == d
    requires a.phase - b.phase == d * c
    ensures Share(a, b)
  {
    Reassociate(a.period, x, c);
    Reassociate(b.period, y, c);
    var t := a.phase + a.period * -(x * c);
    assert t == b.phase + b.period * (y * c) by {
      assert d * c == a.period * x * c + b.period * y * c;
    }
    DivUnique(t - a.phase, a.period, -(x * c), 0);
    DivUnique(t - b.phase, b.period, y * c, 0);
    assert IsSlot(t, a) && IsSlot(t, b);
  }

  lemma GcdDivides(a: int, b: int) returns (k: int, l: int)
    requires a > 0 && b >= 0
    ensures a == Gcd(a, b) * k && b == Gcd(a, b) * l
  {
    var x, y;
    x, y, k, l := Bezout(a, b);
  }

  lemma GcdCombines(a: int, b: int) returns (x: int, y: int)
    requires a > 0 && b >= 0
    ensures a * x + b * y == Gcd(a, b)
  {
    var k, l;
    x, y, k, l := Bezout(a, b);
  }

  lemma ShareOnlyIf(a: Job, b: Job)
    requires a.period > 0 && b.period > 0 && Share(a, b)
    ensures (a.phase - b.phase) % Gcd(a.period, b.period) == 0
  {
    var t :| IsSlot(t, a) && IsSlot(t, b);
    var k, l := GcdDivides(a.period, b.period);
    SharedSlotCongruent(a, b, Gcd(a.period, b.period), k, l, t);
  }

  lemma ShareIf(a: Job, b: Job)
    requires a.period > 0 && b.period > 0 && (a.phase - b.phase) % Gcd(a.period, b.period) == 0
    ensures Share(a, b)
  {
    var d := Gcd(a.period, b.period);
    var c := (a.phase - b.phase) / d;
    assert a.phase - b.phase == d * c;
    var x, y := GcdCombines(a.period, b.period);
    CongruentShare(a, b, d, x, y, c);
  }

  /** Two jobs have a slot in common if and only if their phases are congruent modulo the greatest
      common divisor of their periods; different phases alone are not enough. */
  lemma ShareExactly(a: Job, b: Job)
    requires a.period > 0 && b.period > 0
    ensures Share(a, b) <==> (a.phase - b.phase) % Gcd(a.period, b.period) == 0
  {
    if Share(a, b) {
      ShareOnlyIf(a, b);
    } else if (a.phase - b.phase) % Gcd(a.period, b.period) == 0 {
      ShareIf(a, b);
    }
  }

  /** A common divisor of the periods that does not divide the difference of the phases keeps two
      jobs apart. */
  lemma Apart(a: Job, b: Job, d: int)
    requires a.period > 0 && b.period > 0 && d > 0 && a.period % d == 0 && b.period % d == 0
    requires (a.phase - b.phase) % d != 0
    ensures !Share(a, b)
  {
    if Share(a, b) {
      var t :| IsSlot(t, a) && IsSlot(t, b);
      SharedSlotCongruent(a, b, d, a.period / d, b.period / d, t);
      assert false;
    }
  }

  /** traffic against the others, which all have a phase that ten does not divide. */
  lemma TrafficApart(j: nat)
    requires 0 < j < |JOBS|
    ensures !Share(JOBS[0], JOBS[j])
  {
    if j == 5 {
      Apart(JOBS[0], JOBS[5], 10);
    } else {
      Apart(JOBS[0], JOBS[j], 5);
    }
  }

  /** No two of the six declared jobs ever share a second. */
  lemma DeclaredJobsNeverShare(i: nat, j: nat)
    requires i < j < |JOBS|
    ensures !Share(JOBS[i], JOBS[j])
  {
    if i == 0 {
      TrafficApart(j);
    } else if i == 1 {
      Apart(JOBS[1], JOBS[j], 5);
    } else if i == 2 {
      Apart(JOBS[2], JOBS[j], 15);
    } else if i == 3 {
      Apart(JOBS[3], JOBS[j], 5);
    } else {
      Apart(JOBS[4], JOBS[5], 5);
    }
  }

  /** Jobs with different phases that do share a second. */
  lemma DifferentPhasesMayShare()
    ensures Share(Job(10, 0), Job(15, 5))
  {
    assert IsSlot(20, Job(10, 0)) && IsSlot(20, Job(15, 5));
  }

  /** The loop behind the timer: the earliest of the deadlines. */
  method EarliestDeadline(values: seq<int>) returns (next: int)
    requires values != []
    ensures next in values && forall v :: v in values ==> next <= v
  {
    next := values[0];
    for i := 1 to |values|
      invariant next in values[..i] && forall v :: v in values[..i] ==> next <= v
    {
      if values[i] < next {
        next := values[i];
      }
      assert values[..i + 1] == values[..i] + [values[i]];
    }
    assert values[..|values|] == values;
  }
}
