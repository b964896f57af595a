/** The retry bound for certificate renewal, over every run of the batch machine: the failed attempts
    of a certificate between two edits that are put on record are failures of the retry policy. */
module RenewalRetries {
  import opened RetryPolicy
  import opened AutoRenewBatch

  /** The action is the failure of an attempt on this certificate, which is still to be renewed. */
  predicate FailsOn(b: Batch, a: Action, id: Id) {
    && a.DoEnd? && a.outcome.RenewFailed? && b.work.Renewing? && b.work.id == id
    && id in b.rows && b.rows[id].autoRenew && !Expired(b.rows[id], b.work.at)
  }

  /** And the failure is put on record. */
  predicate Recorded(b: Batch, a: Action, id: Id) { FailsOn(b, a, id) && a.writeOk }

  /** The action neither edits the certificate nor renews it. */
  predicate Undisturbed(b: Batch, a: Action, id: Id) {
    match a
    case SetAutoRenew(x, _) => x != id
    case ManualRenewal(x, _, _, _) => x != id
    case Insert(x, _) => x != id
    case Delete(x) => x != id
    case DoEnd(outcome, _) => b.work.Renewing? && b.work.id == id ==> outcome.RenewFailed?
    case _ => true
  }

  predicate Enrolled(b: Batch, id: Id) { id in b.rows && b.rows[id].autoRenew }

  /** From state `i` to state `j` the certificate is to be renewed and nothing but failures happens to
      it, recorded or not. Everything else may: other certificates, failing statements, restarts. */
  ghost predicate Episode(states: seq<Batch>, actions: seq<Action>, id: Id, i: nat, j: nat) {
    && i <= j <= |actions| < |states|
    && (forall k :: i <= k <= j ==> Enrolled(states[k], id))
    && (forall k :: i <= k < j ==> Undisturbed(states[k], actions[k], id))
  }

  /** An attempt under way was due when it began, and still is by the state on record. */
  predicate AttemptDue(b: Batch, id: Id) {
    b.work.Renewing? && b.work.id == id && id in b.rows ==> Due(b.rows[id].retry, b.work.at)
  }

  /** What the action leaves of the retry state. */
  function RetryAfter(b: Batch, a: Action, id: Id): (r: Retry)
    requires id in b.rows
  {
    if Recorded(b, a, id) then AfterFailure(b.rows[id].retry.phase, b.rows[id].retry.count, b.work.at)
    else b.rows[id].retry
  }

  lemma EndStep(b: Batch, a: Action, id: Id)
    requires CanAct(b, a) && a.DoEnd? && Enrolled(b, id) && Enrolled(Act(b, a), id) && Undisturbed(b, a, id)
    ensures AttemptDue(Act(b, a), id) && Act(b, a).rows[id].retry == RetryAfter(b, a, id)
  {
  }

  lemma OtherStep(b: Batch, a: Action, id: Id)
    requires CanAct(b, a) && !a.DoEnd? && Enrolled(b, id) && Enrolled(Act(b, a), id) && Undisturbed(b, a, id)
    requires AttemptDue(b, id)
    ensures AttemptDue(Act(b, a), id) && Act(b, a).rows[id].retry == b.rows[id].retry
  {
  }

  lemma EpisodeStep(b: Batch, a: Action, id: Id)
    requires CanAct(b, a) && Enrolled(b, id) && Enrolled(Act(b, a), id) && Undisturbed(b, a, id) && AttemptDue(b, id)
    ensures AttemptDue(Act(b, a), id) && Act(b, a).rows[id].retry == RetryAfter(b, a, id)
  {
    if a.DoEnd? {
      EndStep(b, a, id);
    } else {
      OtherStep(b, a, id);
    }
  }

  /** The times of all failures, and the retry states on record before and after them. */
  ghost function FailureTimes(states: seq<Batch>, actions: seq<Action>, id: Id, i: nat, j: nat): (times: seq<int>)
    requires i <= j <= |actions| < |states|
    decreases j
  {
    if i == j then []
    else
      var earlier := FailureTimes(states, actions, id, i, j - 1);
      if FailsOn(states[j - 1], actions[j - 1], id) then earlier + [states[j - 1].work.at] else earlier
  }

  ghost function RetryStates(states: seq<Batch>, actions: seq<Action>, id: Id, i: nat, j: nat): (before: seq<Retry>)
    requires Episode(states, actions, id, i, j)
    decreases j
  {
    if i == j then [states[i].rows[id].retry]
    else
      var earlier := RetryStates(states, actions, id, i, j - 1);
      if FailsOn(states[j - 1], actions[j - 1], id) then earlier + [states[j].rows[id].retry] else earlier
  }

  /** The same for the failures on record. */
  ghost function RecordedTimes(states: seq<Batch>, actions: seq<Action>, id: Id, i: nat, j: nat): (times: seq<int>)
    requires i <= j <= |actions| < |states|
    decreases j
  {
    if i == j then []
    else
      var earlier := RecordedTimes(states, actions, id, i, j - 1);
      if Recorded(states[j - 1], actions[j - 1], id) then earlier + [states[j - 1].work.at] else earlier
  }

  ghost function RecordedStates(states: seq<Batch>, actions: seq<Action>, id: Id, i: nat, j: nat): (before: seq<Retry>)
    requires Episode(states, actions, id, i, j)
    decreases j
  {
    if i == j then [states[i].rows[id].retry]
    else
      var earlier := RecordedStates(states, actions, id, i, j - 1);
      if Recorded(states[j - 1], actions[j - 1], id) then earlier + [states[j].rows[id].retry] else earlier
  }

  /** How many failures are not on record. */
  ghost function Unrecorded(states: seq<Batch>, actions: seq<Action>, id: Id, i: nat, j: nat): (n: nat)
    requires i <= j <= |actions| < |states|
    decreases j
  {
    if i == j then 0
    else
      var k := j - 1;
      Unrecorded(states, actions, id, i, k) +
      if FailsOn(states[k], actions[k], id) && !Recorded(states[k], actions[k], id) then 1 else 0
  }

  lemma StepAt(states: seq<Batch>, actions: seq<Action>, id: Id, k: nat)
    requires IsRun(states, actions) && k < |actions| && Enrolled(states[k], id) && Enrolled(states[k + 1], id)
    requires Undisturbed(states[k], actions[k], id) && AttemptDue(states[k], id)
    ensures AttemptDue(states[k + 1], id)
    ensures states[k + 1].rows[id].retry == RetryAfter(states[k], actions[k], id)
  {
    EpisodeStep(states[k], actions[k], id);
  }

  /** At each step of the episode the retry state changes by recorded failures alone. */
  ghost predicate Records(states: seq<Batch>, actions: seq<Action>, id: Id, i: nat, j: nat)
    requires Episode(states, actions, id, i, j)
  {
    forall k :: i <= k < j ==>
      StepRecords(states[k], actions[k], id, states[k + 1])
  }

  predicate StepRecords(b: Batch, a: Action, id: Id, r: Batch)
    requires id in b.rows && id in r.rows
  {
    AttemptDue(b, id) ==> AttemptDue(r, id) && r.rows[id].retry == RetryAfter(b, a, id)
  }

  lemma EpisodeRecords(states: seq<Batch>, actions: seq<Action>, id: Id, i: nat, j: nat)
    requires IsRun(states, actions) && Episode(states, actions, id, i, j)
    ensures Records(states, actions, id, i, j)
  {
    forall k | i <= k < j ensures StepRecords(states[k], actions[k], id, states[k + 1]) {
      if AttemptDue(states[k], id) {
        StepAt(states, actions, id, k);
      }
    }
  }

  /** At the beginning no attempt is under way that the state does not allow. */
  predicate Sound(b: Batch, id: Id) { id in b.rows && Reached(b.rows[id].retry) && AttemptDue(b, id) }

  lemma {:induction false} RecordsAreFailures(states: seq<Batch>, actions: seq<Action>, id: Id, i: nat, j: nat)
    requires Episode(states, actions, id, i, j) && Records(states, actions, id, i, j) && Sound(states[i], id)
    ensures var times, before := RecordedTimes(states, actions, id, i, j), RecordedStates(states, actions, id, i, j);
      Failures(times, before) && before[0] == states[i].rows[id].retry && before[|times|] == states[j].rows[id].retry
    ensures AttemptDue(states[j], id)
    decreases j
  {
    if i < j {
      var k := j - 1;
      RecordsAreFailures(states, actions, id, i, k);
      assert StepRecords(states[k], actions[k], id, states[k + 1]);
      if Recorded(states[k], actions[k], id) {
        var times, before := RecordedTimes(states, actions, id, i, k), RecordedStates(states, actions, id, i, k);
        FailuresGrow(times, before, states[k].work.at, states[j].rows[id].retry);
      }
    }
  }

  /** In every run of the batch machine the recorded failures of an episode are failures of the retry
      policy, whatever else goes unrecorded. */
  lemma EpisodeIsFailureRun(states: seq<Batch>, actions: seq<Action>, id: Id, i: nat, j: nat)
    requires IsRun(states, actions) && Episode(states, actions, id, i, j) && Sound(states[i], id)
    ensures Failures(RecordedTimes(states, actions, id, i, j), RecordedStates(states, actions, id, i, j))
    ensures RecordedStates(states, actions, id, i, j)[0] == states[i].rows[id].retry
  {
    EpisodeRecords(states, actions, id, i, j);
    RecordsAreFailures(states, actions, id, i, j);
  }

  lemma {:induction false} CountsAdd(states: seq<Batch>, actions: seq<Action>, id: Id, i: nat, j: nat)
    requires i <= j <= |actions| < |states|
    ensures var times, recorded := FailureTimes(states, actions, id, i, j), RecordedTimes(states, actions, id, i, j);
      |times| == |recorded| + Unrecorded(states, actions, id, i, j) && forall t :: t in recorded ==> t in times
    decreases j
  {
    if i < j {
      CountsAdd(states, actions, id, i, j - 1);
    }
  }

  /** Hence, within any `span` seconds, at most 4 + span / 21600 failures and those not on record. */
  lemma RenewalBound(states: seq<Batch>, actions: seq<Action>, id: Id, i: nat, j: nat, start: int, span: nat)
    requires IsRun(states, actions) && Episode(states, actions, id, i, j) && Sound(states[i], id)
    requires forall t :: t in FailureTimes(states, actions, id, i, j) ==> start <= t <= start + span
    ensures |FailureTimes(states, actions, id, i, j)| <=
      4 + span / PERIODIC_INTERVAL + Unrecorded(states, actions, id, i, j)
  {
    EpisodeIsFailureRun(states, actions, id, i, j);
    CountsAdd(states, actions, id, i, j);
    var times := RecordedTimes(states, actions, id, i, j);
    BoundWithin(times, RecordedStates(states, actions, id, i, j), start, span);
  }

  /** A due state is not the one that its failure would store. */
  lemma UnstoredShows(r: Retry, now: int)
    requires Due(r, now)
    ensures r != AfterFailure(r.phase, r.count, now)
  {
  }

  lemma {:induction false} AllFailuresExactly(states: seq<Batch>, actions: seq<Action>, id: Id, i: nat, j: nat)
    requires Episode(states, actions, id, i, j) && Records(states, actions, id, i, j) && Sound(states[i], id)
    ensures var times, before := FailureTimes(states, actions, id, i, j), RetryStates(states, actions, id, i, j);
      && |before| == |times| + 1 && before[|times|] == states[j].rows[id].retry
      && (Failures(times, before) <==> Unrecorded(states, actions, id, i, j) == 0)
    ensures AttemptDue(states[j], id)
    decreases j
  {
    if i < j {
      var k := j - 1;
      AllFailuresExactly(states, actions, id, i, k);
      assert StepRecords(states[k], actions[k], id, states[k + 1]);
      if FailsOn(states[k], actions[k], id) {
        var times, before := FailureTimes(states, actions, id, i, k), RetryStates(states, actions, id, i, k);
        FailuresGrow(times, before, states[k].work.at, states[j].rows[id].retry);
        UnstoredShows(states[k].rows[id].retry, states[k].work.at);
      }
    }
  }

  /** All failures of an episode are failures of the retry policy, if and only if each is on record. */
  lemma FailureRunExactly(states: seq<Batch>, actions: seq<Action>, id: Id, i: nat, j: nat)
    requires IsRun(states, actions) && Episode(states, actions, id, i, j) && Sound(states[i], id)
    ensures Failures(FailureTimes(states, actions, id, i, j), RetryStates(states, actions, id, i, j)) <==>
      Unrecorded(states, actions, id, i, j) == 0
  {
    EpisodeRecords(states, actions, id, i, j);
    AllFailuresExactly(states, actions, id, i, j);
  }

  lemma OneUnsavedFailure(states: seq<Batch>, actions: seq<Action>, b: Batch)
    returns (longer: seq<Batch>, more: seq<Action>)
    requires IsRun(states, actions) && states[|actions|] == b && b.(rows := map[1 := DUE_ROW]) == UNREAD
    requires 1 in b.rows && b.rows == map[1 := DUE_ROW.(lastAttemptAt := b.rows[1].lastAttemptAt)]
    ensures IsRun(longer, more) && |more| == |actions| + 2
    ensures more[..|actions|] == actions && longer[..|states|] == states
    ensures FailsOn(longer[|actions| + 1], more[|actions| + 1], 1) && longer[|actions| + 1].work.at == 10_000
    ensures longer[|more|] == UNREAD.(rows := map[1 := DUE_ROW.(lastAttemptAt := 10_000)])
  {
    longer, more := ExtendRun(states, actions, DoBegin(1, 10_000, true, true));
    longer, more := ExtendRun(longer, more, DoEnd(RenewFailed, false));
  }

  /** A failure that is not put on record leaves the phase as it was: any number of attempts can then
      fail at one instant, so the bound needs the records. */
  lemma {:induction false} UnsavedFailuresRepeat(n: nat) returns (states: seq<Batch>, actions: seq<Action>, i: nat)
    ensures IsRun(states, actions) && i + 2 * n == |actions|
    ensures forall k :: 0 <= k < n ==>
      FailsOn(states[i + 2 * k + 1], actions[i + 2 * k + 1], 1) && states[i + 2 * k + 1].work.at == 10_000
    ensures var b := states[|actions|];
      && b.(rows := map[1 := DUE_ROW]) == UNREAD
      && 1 in b.rows && b.rows == map[1 := DUE_ROW.(lastAttemptAt := b.rows[1].lastAttemptAt)]
  {
    if n == 0 {
      states, actions := UnreadRun();
      i := |actions|;
    } else {
      var s, a;
      s, a, i := UnsavedFailuresRepeat(n - 1);
      states, actions := OneUnsavedFailure(s, a, s[|a|]);
      forall k | 0 <= k < n
        ensures FailsOn(states[i + 2 * k + 1], actions[i + 2 * k + 1], 1) && states[i + 2 * k + 1].work.at == 10_000
      {
        if k < n - 1 {
          var at := i + 2 * k + 1;
          assert states[..|s|][at] == s[at] && actions[..|a|][at] == a[at];
        }
      }
    }
  }
}
