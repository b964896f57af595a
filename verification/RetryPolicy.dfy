/** The retry policy shared by automatic certificate renewal and by the certificate-driven Core
    restart: after a first failure three rapid retries ten minutes apart, then one retry every
    six hours. Time is in whole seconds. */
module RetryPolicy {

  const RAPID_INTERVAL := 600
  const PERIODIC_INTERVAL := 21600
  const RAPID_LIMIT := 3
  const BATCH_DURATION := 3600

  datatype Phase = Fresh | Rapid | Periodic | ExpiredDisabled

  datatype Retry = Retry(phase: Phase, count: int, nextAt: int)

  /** nextCertificateAutoRenewFailureState. */
  function AfterFailure(phase: Phase, completedRapidRetries: int, now: int): (r: Retry) {
    match phase
    case Rapid =>
      var completed := completedRapidRetries + 1;
      if completed >= RAPID_LIMIT then Retry(Periodic, RAPID_LIMIT, now + PERIODIC_INTERVAL)
      else Retry(Rapid, completed, now + RAPID_INTERVAL)
    case Periodic => Retry(Periodic, RAPID_LIMIT, now + PERIODIC_INTERVAL)
    case _ => Retry(Rapid, 0, now + RAPID_INTERVAL)
  }

  /** certificateAutoRenewAttemptDue; the Core restart uses the same test in its retry phases. */
  predicate Due(r: Retry, now: int) {
    if r.phase.Rapid? || r.phase.Periodic? then 0 < r.nextAt <= now else true
  }

  /** `times` are consecutive failed automatic attempts: `before[i]` is the stored state that
      attempt i found due, and its failure stored `before[i + 1]`. */
  ghost predicate Failures(times: seq<int>, before: seq<Retry>) {
    && |before| == |times| + 1
    && (forall i :: 0 <= i < |times| ==>
          Due(before[i], times[i]) && before[i + 1] == AfterFailure(before[i].phase, before[i].count, times[i]))
  }

  /** The same from the first failure on. */
  ghost predicate FailureRun(times: seq<int>, before: seq<Retry>) {
    Failures(times, before) && !before[0].phase.Rapid? && !before[0].phase.Periodic?
  }

  /** One more attempt: it continues the failures if and only if it was due and its failure is stored. */
  lemma FailuresGrow(times: seq<int>, before: seq<Retry>, now: int, after: Retry)
    requires |before| == |times| + 1
    ensures Failures(times + [now], before + [after]) <==>
      && Failures(times, before) && Due(before[|times|], now)
      && after == AfterFailure(before[|times|].phase, before[|times|].count, now)
  {
    var ts, bs := times + [now], before + [after];
    if Failures(ts, bs) {
      forall i | 0 <= i < |times|
        ensures Due(before[i], times[i]) && before[i + 1] == AfterFailure(before[i].phase, before[i].count, times[i])
      {
        assert Due(bs[i], ts[i]) && bs[i + 1] == AfterFailure(bs[i].phase, bs[i].count, ts[i]);
      }
      var n := |times|;
      assert Due(bs[n], ts[n]) && bs[n + 1] == AfterFailure(bs[n].phase, bs[n].count, ts[n]);
    }
  }

  /** Any run of failures passes through rapid 0, 1, 2 and is periodic for ever after. */
  lemma {:induction false} PhaseSequence(times: seq<int>, before: seq<Retry>, k: nat)
    requires FailureRun(times, before) && k < |times|
    ensures before[k + 1] ==
              if k < RAPID_LIMIT then Retry(Rapid, k, times[k] + RAPID_INTERVAL)
              else Retry(Periodic, RAPID_LIMIT, times[k] + PERIODIC_INTERVAL)
  {
    if k > 0 {
      PhaseSequence(times, before, k - 1);
    }
  }

  /** How long the k-th retry comes after the first failure, at the very least. */
  function EarliestOffset(k: nat): (offset: int) {
    if k <= RAPID_LIMIT then k * RAPID_INTERVAL
    else RAPID_LIMIT * RAPID_INTERVAL + (k - RAPID_LIMIT) * PERIODIC_INTERVAL
  }

  /** A state that failures can lead to. */
  predicate Reached(r: Retry) { r.phase.Rapid? ==> 0 <= r.count < RAPID_LIMIT }

  /** How many failures a state stands for, up to four. */
  function Level(r: Retry): (n: int) {
    match r.phase
    case Rapid => r.count + 1
    case Periodic => 4
    case _ => 0
  }

  lemma {:induction false} LevelsRise(times: seq<int>, before: seq<Retry>, k: nat)
    requires Failures(times, before) && Reached(before[0]) && k <= |times|
    ensures Reached(before[k]) && Level(before[k]) >= if k < 4 then k else 4
    ensures k > 0 ==>
      before[k].nextAt == times[k - 1] + if before[k].phase.Rapid? then RAPID_INTERVAL else PERIODIC_INTERVAL
    ensures k > 0 ==> before[k].phase.Rapid? || before[k].phase.Periodic?
  {
    if k > 0 {
      LevelsRise(times, before, k - 1);
      assert before[k] == AfterFailure(before[k - 1].phase, before[k - 1].count, times[k - 1]);
    }
  }

  lemma {:induction false} Spacing(times: seq<int>, before: seq<Retry>, k: nat)
    requires Failures(times, before) && Reached(before[0]) && k < |times|
    ensures times[k] >= times[0] + EarliestOffset(k)
  {
    if k > 0 {
      Spacing(times, before, k - 1);
      LevelsRise(times, before, k);
      assert Due(before[k], times[k]);
    }
  }

  /** The largest number of attempts, the first failure included, within `span` seconds of it. */
  function MaxAttempts(span: nat): (n: nat) {
    if span < RAPID_LIMIT * RAPID_INTERVAL then 1 + span / RAPID_INTERVAL
    else 4 + (span - RAPID_LIMIT * RAPID_INTERVAL) / PERIODIC_INTERVAL
  }

  lemma OffsetBound(n: nat, span: nat)
    requires n > 0
    ensures EarliestOffset(n - 1) <= span <==> n <= MaxAttempts(span)
  {
  }

  /** The retry bound: attempts within `span` seconds of the first failure never exceed
      MaxAttempts(span), hence never 4 + span / 21600. They may begin in any state failures lead to. */
  lemma RetryBound(times: seq<int>, before: seq<Retry>, span: nat)
    requires Failures(times, before) && Reached(before[0]) && times != []
    requires times[|times| - 1] <= times[0] + span
    ensures |times| <= MaxAttempts(span) <= 4 + span / PERIODIC_INTERVAL
  {
    Spacing(times, before, |times| - 1);
    OffsetBound(|times|, span);
  }

  /** The same for any stretch of `span` seconds. */
  lemma BoundWithin(times: seq<int>, before: seq<Retry>, start: int, span: nat)
    requires Failures(times, before) && Reached(before[0]) && forall t :: t in times ==> start <= t <= start + span
    ensures |times| <= 4 + span / PERIODIC_INTERVAL
  {
    if times != [] {
      assert times[0] in times && times[|times| - 1] in times;
      RetryBound(times, before, span);
    }
  }

  /** The bound is attained: retrying as early as allowed makes exactly MaxAttempts(span) attempts. */
  lemma RetryBoundIsTight(start: nat, span: nat) returns (times: seq<int>, before: seq<Retry>)
    ensures FailureRun(times, before) && |times| == MaxAttempts(span)
    ensures times[0] == start && times[|times| - 1] <= start + span
  {
    var n := MaxAttempts(span);
    times := seq(n, k requires 0 <= k < n => start + EarliestOffset(k));
    before := seq(n + 1, k requires 0 <= k <= n =>
      if k == 0 then Retry(Fresh, 0, 0)
      else if k - 1 < RAPID_LIMIT then Retry(Rapid, k - 1, times[k - 1] + RAPID_INTERVAL)
      else Retry(Periodic, RAPID_LIMIT, times[k - 1] + PERIODIC_INTERVAL));
    OffsetBound(n, span);
  }
}
