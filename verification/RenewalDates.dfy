/** When a certificate is renewed, in dates alone. */
module RenewalDates {
  import opened RetryPolicy
  import opened AutoRenewBatch
  import opened Collections

  /** The days before its end at which a certificate is renewed: thirty for a self-signed one, and for
      an ACME one without usable dates or valid for more than forty days; otherwise a third of its
      validity in whole days, and at least one. */
  predicate IsWindow(row: Row, days: int) {
    var validity := row.notAfter - row.notBefore;
    if !row.acme || row.notBefore <= 0 || validity <= 0 || validity > 40 * 86400 then days == 30
    else if validity < 3 * 86400 then days == 1
    else 3 * 86400 * days <= validity < 3 * 86400 * (days + 1)
  }

  lemma WindowExists(row: Row) returns (days: int)
    ensures IsWindow(row, days) && 1 <= days <= 30
    ensures row.notAfter > 0 ==> NormalRenewAt(row) == row.notAfter - 86400 * days
  {
    var validity := row.notAfter - row.notBefore;
    if !row.acme || row.notBefore <= 0 || validity <= 0 || validity > 40 * 86400 {
      days := 30;
    } else if validity < 3 * 86400 {
      days := 1;
    } else {
      days := validity / (3 * 86400);
    }
  }

  lemma WindowIsUnique(row: Row, days: int, other: int)
    requires IsWindow(row, days) && IsWindow(row, other)
    ensures days == other
  {
  }

  /** The certificate is inside its window by `limit`, or its retry is due by then. */
  ghost predicate DueBy(row: Row, limit: int) {
    if row.retry.phase.Rapid? || row.retry.phase.Periodic? then 0 < row.retry.nextAt <= limit
    else row.notAfter > 0 && exists days :: IsWindow(row, days) && row.notAfter - 86400 * days <= limit
  }

  lemma FallsDueExactly(row: Row, limit: int)
    requires limit < NEVER
    ensures FallsDue(row, limit) <==> row.autoRenew && DueBy(row, limit)
  {
    var days := WindowExists(row);
    if exists other :: IsWindow(row, other) && row.notAfter - 86400 * other <= limit {
      var other :| IsWindow(row, other) && row.notAfter - 86400 * other <= limit;
      WindowIsUnique(row, days, other);
    }
  }

  /** The certificate is to be renewed automatically, here, and has not ended. */
  predicate Renewable(row: Row, now: int, linux: bool) {
    row.autoRenew && (row.notAfter <= 0 || now < row.notAfter) && (row.acme ==> linux)
  }

  lemma RenewableIsProcessable(b: Batch, run: Run, id: Id)
    requires id in b.rows
    ensures var rows := DisableExpired(b.rows, run.now, run.failing);
      && id in rows
      && (Processable(rows[id], run.now, run.linux) <==> Renewable(b.rows[id], run.now, run.linux))
      && (Renewable(b.rows[id], run.now, run.linux) ==> rows[id] == b.rows[id])
  {
  }

  /** Some certificate is due. */
  ghost predicate SomeDue(b: Batch, run: Run) {
    exists id :: id in b.rows && id > 0 && Renewable(b.rows[id], run.now, run.linux) && DueBy(b.rows[id], run.now)
  }

  lemma TriggeredExactly(b: Batch, run: Run)
    requires run.now < NEVER
    ensures Triggered(b.(rows := DisableExpired(b.rows, run.now, run.failing)), run.now, run.linux) <==> SomeDue(b, run)
  {
    var rows := DisableExpired(b.rows, run.now, run.failing);
    forall id | id in b.rows
      ensures Processable(rows[id], run.now, run.linux) && FallsDue(rows[id], run.now) <==>
        Renewable(b.rows[id], run.now, run.linux) && DueBy(b.rows[id], run.now)
    {
      RenewableIsProcessable(b, run, id);
      FallsDueExactly(b.rows[id], run.now);
    }
  }

  /** Where no batch is open, a run opens one, for an hour, if and only if some certificate is due. */
  lemma OpensExactly(b: Batch, run: Run)
    requires b.startedAt == 0 && 0 < run.now < NEVER
    ensures SomeDue(b, run) ==> Collected(b, run).startedAt == run.now && Collected(b, run).endsAt == run.now + 3600
    ensures !SomeDue(b, run) ==> Collected(b, run).startedAt == 0 && Collected(b, run).candidates == b.candidates
  {
    TriggeredExactly(b, run);
  }

  predicate OutsideRetries(row: Row) { !row.retry.phase.Rapid? && !row.retry.phase.Periodic? }

  /** By when a certificate must be due to be taken into the batch: the end of the batch that is open,
      if its hour is not over, or of the one that the run opens. */
  ghost predicate Takes(b: Batch, run: Run, limit: int) {
    if Active(b) then run.now <= b.endsAt && limit == b.endsAt
    else SomeDue(b, run) && limit == run.now + 3600
  }

  /** Which certificates a run takes into the batch. */
  lemma CandidateExactly(b: Batch, run: Run, id: Id)
    requires b.startedAt == 0 || Active(b)
    requires 0 < run.now < NEVER - 3600 && b.endsAt < NEVER
    requires id in b.rows && id > 0 && OutsideRetries(b.rows[id]) && id !in b.candidates
    ensures id in Collected(b, run).candidates <==>
      && Renewable(b.rows[id], run.now, run.linux)
      && exists limit :: Takes(b, run, limit) && DueBy(b.rows[id], limit)
  {
    RenewableIsProcessable(b, run, id);
    if Active(b) {
      FallsDueExactly(b.rows[id], b.endsAt);
      if Renewable(b.rows[id], run.now, run.linux) && run.now <= b.endsAt && DueBy(b.rows[id], b.endsAt) {
        assert Takes(b, run, b.endsAt);
      }
    } else {
      TriggeredExactly(b, run);
      FallsDueExactly(b.rows[id], run.now + 3600);
      if Renewable(b.rows[id], run.now, run.linux) && SomeDue(b, run) && DueBy(b.rows[id], run.now + 3600) {
        assert Takes(b, run, run.now + 3600);
      }
    }
  }

  /** The statements on the certificate succeed at its turn, which comes after the run has begun. */
  predicate Served(run: Run, id: Id) {
    var e := run.env(id);
    e.readOk && e.beginOk && run.now <= e.at
  }

  ghost predicate IsPlan(b: Batch, run: Run) {
    Ascending(run.ids) && forall id :: id in run.ids <==> id in Collected(b, run).candidates
  }

  lemma TurnAttempts(b: Batch, id: Id, e: Attempt)
    requires b.work.NoWork? && Tries(b, id, e)
    ensures id in ProcessOne(b, id, e).rows && ProcessOne(b, id, e).rows[id].lastAttemptAt == e.at
  {
  }

  /** A certificate taken into the batch is attempted at its turn, unless it has ended by then or was
      renewed since the batch began. */
  lemma TakenIsAttempted(b: Batch, run: Run, id: Id)
    requires b.work.NoWork? && (b.startedAt == 0 || Active(b)) && 0 < run.now && IsPlan(b, run)
    requires id in b.rows && OutsideRetries(b.rows[id]) && Renewable(b.rows[id], run.now, run.linux)
    requires id in Collected(b, run).candidates && id !in Collected(b, run).completed && Served(run, id)
    requires run.env(id).at < b.rows[id].notAfter && b.rows[id].lastRenewedAt < Collected(b, run).startedAt
    ensures id in Attempted(b, run).rows && Attempted(b, run).rows[id].lastAttemptAt == run.env(id).at
  {
    var c := Collected(b, run);
    RenewableIsProcessable(b, run, id);
    assert c.rows[id] == b.rows[id] && c.work.NoWork?;
    TurnAttempts(c, id, run.env(id));
    OwnTurnOnly(c, run.ids, run.env, id);
  }

  /** A certificate that a run finds inside its window is attempted before it ends: it opens a batch or
      joins the one that is open, unless that one is held open beyond its hour. */
  lemma AttemptedInWindow(b: Batch, run: Run, id: Id, days: int)
    requires b.work.NoWork? && (b.startedAt == 0 || (Active(b) && run.now <= b.endsAt < NEVER)) && b.endsAt < NEVER
    requires 0 < run.now < NEVER - 3600 && IsPlan(b, run)
    requires id in b.rows && id > 0 && OutsideRetries(b.rows[id]) && Renewable(b.rows[id], run.now, run.linux)
    requires IsWindow(b.rows[id], days) && b.rows[id].notAfter - 86400 * days <= run.now
    requires run.env(id).at < b.rows[id].notAfter && Served(run, id)
    requires id !in b.candidates && id !in b.completed
    requires b.rows[id].lastRenewedAt < if Active(b) then b.startedAt else run.now
    ensures id in Attempted(b, run).rows && Attempted(b, run).rows[id].lastAttemptAt == run.env(id).at
  {
    var row := b.rows[id];
    assert DueBy(row, run.now);
    CandidateExactly(b, run, id);
    if Active(b) {
      assert Takes(b, run, b.endsAt) && DueBy(row, b.endsAt);
    } else {
      assert SomeDue(b, run);
      OpensExactly(b, run);
      assert Takes(b, run, run.now + 3600) && DueBy(row, run.now + 3600);
    }
    TakenIsAttempted(b, run, id);
  }

  /** Where no batch is open and no other certificate is due, a run takes a certificate outside the
      retry phases if and only if it is inside its window and has not ended. */
  lemma AloneExactly(b: Batch, run: Run, id: Id, days: int)
    requires b.startedAt == 0 && b.candidates == {} && b.endsAt < NEVER && 0 < run.now < NEVER - 3600
    requires id in b.rows && id > 0 && OutsideRetries(b.rows[id]) && b.rows[id].notAfter > 0
    requires b.rows[id].autoRenew && (b.rows[id].acme ==> run.linux) && IsWindow(b.rows[id], days)
    requires forall other :: other in b.rows && other != id && other > 0 ==>
      !(Renewable(b.rows[other], run.now, run.linux) && DueBy(b.rows[other], run.now))
    ensures id in Collected(b, run).candidates <==>
      b.rows[id].notAfter - 86400 * days <= run.now < b.rows[id].notAfter
  {
    var row := b.rows[id];
    CandidateExactly(b, run, id);
    if DueBy(row, run.now) {
      var other :| IsWindow(row, other) && row.notAfter - 86400 * other <= run.now;
      WindowIsUnique(row, days, other);
    }
    if run.now < row.notAfter && row.notAfter - 86400 * days <= run.now {
      assert SomeDue(b, run) && Takes(b, run, run.now + 3600) && DueBy(row, run.now + 3600);
    }
  }

  /** A renewal that succeeds leaves the certificate with its new dates, outside the retry phases and
      done with for this batch. */
  lemma RenewalTakesEffect(b: Batch, id: Id, e: Attempt)
    requires b.work.NoWork? && Tries(b, id, e) && e.outcome.Renewed?
    ensures var c := ProcessOne(b, id, e);
      && id in c.rows && id in c.completed
      && c.rows[id] == b.rows[id].(
           lastAttemptAt := e.at, retry := Retry(Fresh, 0, 0), lastRenewedAt := e.outcome.at,
           notBefore := e.outcome.notBefore, notAfter := e.outcome.notAfter)
  {
  }

  /** A batch that was opened, or closed, on record is so after a restart, too. */
  lemma RecordedBatchSurvives(b: Batch, run: Run)
    requires b.startedAt == 0 && b.savedStart == 0 && b.work.NoWork? && 0 < run.now < NEVER
    requires run.openSaved && run.endSaved
    ensures var c, r := Collected(b, run), RunOnce(b, run);
      && Act(c, Reload).startedAt == c.startedAt && (c.startedAt > 0 ==> Act(c, Reload).endsAt == c.endsAt)
      && (r.startedAt == 0 ==> Act(r, Reload).startedAt == 0)
  {
    var c := Collected(b, run);
    AttemptsShape(c, run.ids, run.env);
    SavedWindowStays(c, run.ids, run.env);
  }

  lemma {:induction false} SavedWindowStays(b: Batch, ids: seq<Id>, env: Id -> Attempt)
    requires b.work.NoWork?
    ensures ProcessAll(b, ids, env).savedStart == b.savedStart && ProcessAll(b, ids, env).savedEnd == b.savedEnd
    decreases |ids|
  {
    if ids != [] {
      SavedWindowStays(ProcessOne(b, ids[0], env(ids[0])), ids[1..], env);
    }
  }

  /** A batch closes if and only if its hour is over and no enrolled candidate is in its rapid phase, as
      far as the rows can be read. */
  lemma ClosesExactly(b: Batch, now: int, readOk: bool, saved: bool)
    requires Active(b)
    ensures FinishIfReady(b, now, readOk, saved).startedAt == 0 <==>
      && now >= b.endsAt && readOk
      && forall id :: id in b.candidates && id in b.rows && b.rows[id].autoRenew ==> b.rows[id].retry.phase != Rapid
  {
    forall id ensures HoldsOpen(b, id) <==>
      id in b.candidates && id in b.rows && b.rows[id].autoRenew && b.rows[id].retry.phase == Rapid {}
  }

  /** A restart that finds the window it had goes on counting the renewals of the batch. */
  lemma RestartKeepsCount(b: Batch)
    requires Active(b) && b.savedStart == b.startedAt && b.savedEnd == b.endsAt
    ensures Act(b, Reload).renewed == b.renewed && Active(Act(b, Reload))
  {
  }

  /** A certificate that ends before a renewal of it fails is no longer renewed, once that is written. */
  lemma EndedAtTurnIsDisabled(b: Batch, writeOk: bool)
    requires b.work.Renewing? && b.work.id in b.rows
    requires b.rows[b.work.id].autoRenew && 0 < b.rows[b.work.id].notAfter <= b.work.at
    ensures var id, c := b.work.id, EndAttempt(b, RenewFailed, writeOk);
      id !in c.candidates && id in c.rows && (c.rows[id].autoRenew <==> !writeOk)
  {
  }

  /** A certificate that has ended is no longer renewed, once that could be written. */
  lemma EndedIsDisabled(b: Batch, run: Run, id: Id)
    requires id in b.rows && b.rows[id].autoRenew && 0 < b.rows[id].notAfter <= run.now && id !in run.failing
    ensures id in Collected(b, run).rows && !Collected(b, run).rows[id].autoRenew
  {
  }

  /** A certificate that comes into its window while a batch is held open beyond its hour waits for the
      next one. */
  lemma WaitsForNextBatch(b: Batch, run: Run, id: Id)
    requires Active(b) && b.endsAt < run.now && id in b.rows && OutsideRetries(b.rows[id]) && id !in b.candidates
    ensures id !in Collected(b, run).candidates
  {
  }
}
