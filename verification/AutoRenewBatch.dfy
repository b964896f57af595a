/** Automatic certificate renewal in batches. The first certificate that falls due opens a one-hour
    window; certificates falling due inside it join; the batch closes once the window is over and no
    member is left in its rapid retry phase. The steps of a run are separate actions, so users may
    edit certificates between any two of them, also while a renewal is under way. */
module AutoRenewBatch {
  import opened RetryPolicy
  import opened Collections

  type Id = nat

  const NEVER: int := 0x7fff_ffff_ffff_ffff
  const DAY := 86400

  datatype Row = Row(
    autoRenew: bool,
    acme: bool,               // otherwise self-signed
    notBefore: int,
    notAfter: int,
    retry: Retry,
    lastAttemptAt: int,
    lastRenewedAt: int)

  /** computeAutoRenewWindowSecondsForRecord; its floating-point quotients are exact here. */
  function WindowSeconds(row: Row): (seconds: int) {
    if row.notBefore <= 0 || row.notAfter <= row.notBefore then 30 * DAY
    else if row.notAfter - row.notBefore > 40 * DAY then 30 * DAY
    else var days := (row.notAfter - row.notBefore) / (3 * DAY);
      if days < 1 then DAY else days * DAY
  }

  /** certificateNormalAutoRenewAt. */
  function NormalRenewAt(row: Row): (at: int) {
    if row.notAfter <= 0 then NEVER
    else row.notAfter - (if row.acme then WindowSeconds(row) else 30 * DAY)
  }

  /** certificateStartsAutoRenewBatch at `limit` = now, certificateJoinsAutoRenewBatch at the batch's end. */
  predicate FallsDue(row: Row, limit: int) {
    row.autoRenew &&
    if row.retry.phase.Rapid? || row.retry.phase.Periodic? then 0 < row.retry.nextAt <= limit
    else NormalRenewAt(row) <= limit
  }

  predicate Expired(row: Row, now: int) {
    0 < row.notAfter <= now
  }

  function Disabled(row: Row, now: int): (r: Row) {
    row.(autoRenew := false, retry := Retry(ExpiredDisabled, 0, 0), lastAttemptAt := now)
  }

  datatype Work = NoWork | Renewing(id: Id, at: int)

  datatype Batch = Batch(
    rows: map<Id, Row>,
    startedAt: int,
    endsAt: int,
    savedStart: int,
    savedEnd: int,
    candidates: set<Id>,
    completed: set<Id>,
    work: Work,
    clock: int,               // no action happens before it
    renewed: multiset<Id>)    // history: successful renewals of this batch

  predicate Active(b: Batch) {
    0 < b.startedAt < b.endsAt
  }

  /** The rows RunAutoRenew passes on: automatic, not expired, and ACME ones only on Linux. */
  predicate Processable(row: Row, now: int, linux: bool) {
    row.autoRenew && !Expired(row, now) && (linux || !row.acme)
  }

  function DisableExpired(rows: map<Id, Row>, now: int, failing: set<Id>): (r: map<Id, Row>) {
    map id | id in rows ::
      if rows[id].autoRenew && Expired(rows[id], now) && id !in failing then Disabled(rows[id], now) else rows[id]
  }

  predicate Triggered(b: Batch, now: int, linux: bool) {
    exists id :: id in b.rows && id > 0 && Processable(b.rows[id], now, linux) && FallsDue(b.rows[id], now)
  }

  /** The rows collectAutoRenewBatchCandidates adds to a batch that is open. */
  function Joining(b: Batch, now: int, linux: bool): (ids: set<Id>) {
    set id | id in b.rows && id > 0 && Processable(b.rows[id], now, linux) &&
      ((b.rows[id].retry.phase.Rapid? && b.rows[id].lastAttemptAt >= b.startedAt) ||
       (now <= b.endsAt && FallsDue(b.rows[id], b.endsAt)))
  }

  /** collectAutoRenewBatchCandidates, after the disabling of expired rows. */
  function Collect(b: Batch, now: int, linux: bool, failing: set<Id>, saved: bool): (r: Batch) {
    var c := b.(rows := DisableExpired(b.rows, now, failing));
    if Active(c) then c.(candidates := c.candidates + Joining(c, now, linux))
    else if !Triggered(c, now, linux) then c
    else
      var open := c.(startedAt := now, endsAt := now + BATCH_DURATION, candidates := {}, completed := {},
                     renewed := multiset{});
      var kept := if saved then open.(savedStart := open.startedAt, savedEnd := open.endsAt) else open;
      kept.(candidates := Joining(kept, now, linux))
  }

  predicate AlreadyRenewed(b: Batch, row: Row) {
    row.retry.phase.Fresh? && b.startedAt > 0 && row.lastRenewedAt >= b.startedAt
  }

  function Remove(b: Batch, id: Id): (r: Batch) {
    b.(candidates := b.candidates - {id}, completed := b.completed - {id})
  }

  /** The loop body of RunAutoRenew up to the call of Renew. */
  function BeginAttempt(b: Batch, id: Id, at: int, readOk: bool, writeOk: bool): (r: Batch) {
    if id in b.completed || !readOk then b
    else if id !in b.rows || !b.rows[id].autoRenew then Remove(b, id)
    else
      var row := b.rows[id];
      if AlreadyRenewed(b, row) then b.(completed := b.completed + {id})
      else if Expired(row, at) then
        Remove(if writeOk then b.(rows := b.rows[id := Disabled(row, at)]) else b, id)
      else if !Due(row.retry, at) || !writeOk then b
      else b.(rows := b.rows[id := row.(lastAttemptAt := at)], work := Renewing(id, at))
  }

  datatype Outcome = Renewed(at: int, notBefore: int, notAfter: int) | RenewFailed

  /** The row of a certificate that has just been renewed. */
  function NewlyIssued(row: Row, at: int, from: int, until: int): (r: Row) {
    row.(retry := Retry(Fresh, 0, 0), lastRenewedAt := at, notBefore := from, notAfter := until)
  }

  /** The rest of the loop body: the outcome of Renew, and the recording of a failure. */
  function EndAttempt(b: Batch, outcome: Outcome, writeOk: bool): (r: Batch)
    requires b.work.Renewing?
  {
    var id, at := b.work.id, b.work.at;
    var idle := b.(work := NoWork);
    match outcome
    case Renewed(t, from, until) =>
      var done := idle.(completed := b.completed + {id}, renewed := b.renewed + multiset{id});
      if id !in b.rows then done
      else done.(rows := b.rows[id := NewlyIssued(b.rows[id], t, from, until)])
    case RenewFailed =>
      if id !in b.rows || !b.rows[id].autoRenew then Remove(idle, id)
      else
        var row := b.rows[id];
        if Expired(row, at) then Remove(if writeOk then idle.(rows := b.rows[id := Disabled(row, at)]) else idle, id)
        else if !writeOk then idle
        else
          var retry := AfterFailure(row.retry.phase, row.retry.count, at);
          idle.(rows := b.rows[id := row.(retry := retry, lastAttemptAt := at)])
  }

  predicate HoldsOpen(b: Batch, id: Id) {
    id in b.candidates && id in b.rows && b.rows[id].autoRenew && b.rows[id].retry.phase.Rapid?
  }

  predicate RapidLeft(b: Batch) {
    exists id :: id in b.candidates && HoldsOpen(b, id)
  }

  /** finishAutoRenewBatchIfReady. */
  function FinishIfReady(b: Batch, now: int, readOk: bool, saved: bool): (r: Batch) {
    if b.startedAt == 0 || now < b.endsAt || !readOk || RapidLeft(b) then b
    else
      var closed := b.(startedAt := 0, endsAt := 0, candidates := {}, completed := {});
      if saved then closed.(savedStart := 0, savedEnd := 0) else closed
  }

  // ---------------------------------------------------------------------------------------
  // Every run, with edits and restarts in between
  // ---------------------------------------------------------------------------------------

  datatype Action =
    | DoCollect(now: int, linux: bool, failing: set<Id>, saved: bool)
    | DoBegin(id: Id, at: int, readOk: bool, writeOk: bool)
    | DoEnd(outcome: Outcome, writeOk: bool)
    | DoFinish(now: int, readOk: bool, saved: bool)
    // a user or another task edits the inventory
    | SetAutoRenew(id: Id, on: bool)
    | ManualRenewal(id: Id, at: int, notBefore: int, notAfter: int)
    | Insert(id: Id, row: Row)
    | Delete(id: Id)
    // the process restarts and reloads the saved window
    | Reload

  predicate CanAct(b: Batch, a: Action) {
    match a
    case DoCollect(now, _, _, _) => b.work.NoWork? && now >= b.clock
    case DoBegin(id, at, _, _) => b.work.NoWork? && Active(b) && id in b.candidates && at >= b.clock
    case DoEnd(outcome, _) => b.work.Renewing? && (outcome.Renewed? ==> outcome.at >= b.clock)
    case DoFinish(now, _, _) => b.work.NoWork? && now >= b.clock
    case SetAutoRenew(id, _) => id in b.rows
    case ManualRenewal(id, at, _, _) => id in b.rows && at >= b.clock
    case Insert(id, _) => id !in b.rows && id !in b.renewed && id !in b.completed   // identifiers are not reused
    case Delete(id) => id in b.rows
    case Reload => true
  }

  function Later(b: Batch, now: int): (r: Batch) {
    b.(clock := now)
  }

  function Act(b: Batch, a: Action): (r: Batch)
    requires CanAct(b, a)
  {
    match a
    case DoCollect(now, linux, failing, saved) => Collect(Later(b, now), now, linux, failing, saved)
    case DoBegin(id, at, readOk, writeOk) => BeginAttempt(Later(b, at), id, at, readOk, writeOk)
    case DoEnd(outcome, writeOk) =>
      EndAttempt(if outcome.Renewed? then Later(b, outcome.at) else b, outcome, writeOk)
    case DoFinish(now, readOk, saved) => FinishIfReady(Later(b, now), now, readOk, saved)
    case SetAutoRenew(id, on) =>
      b.(rows := b.rows[id := b.rows[id].(autoRenew := on, retry := Retry(Fresh, 0, 0), lastAttemptAt := 0)])
    case ManualRenewal(id, at, from, until) =>
      Later(b, at).(rows := b.rows[id := NewlyIssued(b.rows[id], at, from, until)])
    case Insert(id, row) => b.(rows := b.rows[id := row])
    case Delete(id) => b.(rows := b.rows - {id})
    case Reload =>
      var same := b.savedStart == b.startedAt && b.savedEnd == b.endsAt && Active(b);
      b.(startedAt := if 0 < b.savedStart < b.savedEnd then b.savedStart else 0,
         endsAt := if 0 < b.savedStart < b.savedEnd then b.savedEnd else 0,
         candidates := {}, completed := {}, work := NoWork,
         renewed := if same then b.renewed else multiset{})
  }

  /** A certificate renewed in this batch is recognisable as such, whatever happened to it since. */
  ghost predicate BatchInv(b: Batch) {
    && b.startedAt <= b.clock
    && (b.startedAt == 0 || Active(b))
    && (b.savedStart <= b.clock)
    && (b.startedAt == 0 ==> b.completed == {})
    && (b.work.Renewing? ==> b.work.id !in b.renewed && b.work.id !in b.completed && Active(b))
    && (forall id :: id in b.completed && id in b.rows ==> !b.rows[id].retry.phase.Rapid?)
    && (forall id :: b.renewed[id] <= 1)
    && (forall id :: Active(b) && id in b.renewed && id in b.rows ==> Marked(b, id))
  }

  predicate Marked(b: Batch, id: Id)
    requires id in b.rows
  {
    var row := b.rows[id];
    row.lastRenewedAt >= b.startedAt && (row.retry.phase.Fresh? || !row.autoRenew)
  }

  lemma CollectKeeps(b: Batch, a: Action)
    requires BatchInv(b) && CanAct(b, a) && a.DoCollect?
    ensures BatchInv(Act(b, a))
  {
  }

  lemma BeginKeeps(b: Batch, a: Action)
    requires BatchInv(b) && CanAct(b, a) && a.DoBegin?
    ensures BatchInv(Act(b, a))
  {
  }

  lemma RenewedKeeps(b: Batch, a: Action)
    requires BatchInv(b) && CanAct(b, a) && a.DoEnd? && a.outcome.Renewed?
    ensures BatchInv(Act(b, a))
  {
  }

  lemma FailedKeeps(b: Batch, a: Action)
    requires BatchInv(b) && CanAct(b, a) && a.DoEnd? && a.outcome.RenewFailed?
    ensures BatchInv(Act(b, a))
  {
  }

  lemma OthersKeep(b: Batch, a: Action)
    requires BatchInv(b) && CanAct(b, a) && !a.DoCollect? && !a.DoBegin? && !a.DoEnd?
    ensures BatchInv(Act(b, a))
  {
  }

  lemma BatchStep(b: Batch, a: Action)
    requires BatchInv(b) && CanAct(b, a)
    ensures BatchInv(Act(b, a))
  {
    if a.DoCollect? { CollectKeeps(b, a); }
    else if a.DoBegin? { BeginKeeps(b, a); }
    else if a.DoEnd? && a.outcome.Renewed? { RenewedKeeps(b, a); }
    else if a.DoEnd? { FailedKeeps(b, a); }
    else { OthersKeep(b, a); }
  }

  const CLOSED: Batch := Batch(map[], 0, 0, 0, 0, {}, {}, NoWork, 0, multiset{})

  ghost predicate IsRun(states: seq<Batch>, actions: seq<Action>) {
    && |states| == |actions| + 1
    && states[0] == CLOSED
    && forall i :: 0 <= i < |actions| ==> CanAct(states[i], actions[i]) && states[i + 1] == Act(states[i], actions[i])
  }

  lemma {:induction false} RunInvariant(states: seq<Batch>, actions: seq<Action>)
    requires IsRun(states, actions)
    ensures BatchInv(states[|actions|])
    decreases |actions|
  {
    if |actions| > 0 {
      var n := |actions| - 1;
      RunInvariant(states[..n + 1], actions[..n]);
      BatchStep(states[n], actions[n]);
    }
  }

  /** In every run, with any edits, deletions, failing statements and restarts in between, a
      certificate is renewed successfully at most once per batch. */
  lemma RenewedAtMostOncePerBatch(states: seq<Batch>, actions: seq<Action>, id: Id)
    requires IsRun(states, actions)
    ensures states[|actions|].renewed[id] <= 1
  {
    RunInvariant(states, actions);
  }

  /** An open window does not move: it stays as it was opened until the batch closes, which happens
      only after its end and with no rapid retry left. A restart keeps it if and only if it was saved. */
  lemma WindowIsFixed(b: Batch, a: Action)
    requires Active(b) && CanAct(b, a)
    ensures !a.DoFinish? && !a.Reload? ==> Act(b, a).startedAt == b.startedAt && Act(b, a).endsAt == b.endsAt
    ensures a.DoFinish? && Act(b, a).startedAt != b.startedAt ==> a.now >= b.endsAt && !RapidLeft(b)
    ensures a.DoFinish? && Active(Act(b, a)) ==> Act(b, a).endsAt == b.endsAt && Act(b, a).startedAt == b.startedAt
    ensures a.Reload? ==>
              (Act(b, a).startedAt == b.startedAt && Act(b, a).endsAt == b.endsAt <==>
               b.savedStart == b.startedAt && b.savedEnd == b.endsAt)
  {
  }

  // ---------------------------------------------------------------------------------------
  // Whole runs of RunAutoRenew
  // ---------------------------------------------------------------------------------------

  /** One candidate's turn: when it begins, what Renew answers, and which statements succeed. */
  datatype Attempt = Attempt(at: int, outcome: Outcome, readOk: bool, beginOk: bool, endOk: bool)

  function ProcessOne(b: Batch, id: Id, e: Attempt): (r: Batch)
    requires b.work.NoWork?
    ensures r.work.NoWork?
  {
    var c := BeginAttempt(b, id, e.at, e.readOk, e.beginOk);
    if c.work.Renewing? then EndAttempt(c, e.outcome, e.endOk) else c
  }

  function ProcessAll(b: Batch, ids: seq<Id>, env: Id -> Attempt): (r: Batch)
    requires b.work.NoWork?
    ensures r.work.NoWork?
    decreases |ids|
  {
    if ids == [] then b else ProcessAll(ProcessOne(b, ids[0], env(ids[0])), ids[1..], env)
  }

  /** A run of RunAutoRenew: its clock readings, its candidates in order, and which statements fail. */
  datatype Run = Run(
    now: int, linux: bool, failing: set<Id>, openSaved: bool,
    ids: seq<Id>, env: Id -> Attempt,
    end: int, endRead: bool, endSaved: bool)

  function Collected(b: Batch, run: Run): (r: Batch) {
    Collect(b, run.now, run.linux, run.failing, run.openSaved)
  }

  function Attempted(b: Batch, run: Run): (r: Batch)
    requires b.work.NoWork?
    ensures r.work.NoWork?
  {
    ProcessAll(Collected(b, run), run.ids, run.env)
  }

  function RunOnce(b: Batch, run: Run): (r: Batch)
    requires b.work.NoWork?
    ensures r.work.NoWork?
  {
    FinishIfReady(Attempted(b, run), run.end, run.endRead, run.endSaved)
  }

  lemma {:induction false} ProcessAllAppend(b: Batch, ids: seq<Id>, id: Id, env: Id -> Attempt)
    requires b.work.NoWork?
    ensures ProcessAll(b, ids + [id], env) == ProcessOne(ProcessAll(b, ids, env), id, env(id))
    decreases |ids|
  {
    if ids == [] {
      assert ids + [id] == [id];
    } else {
      assert (ids + [id])[1..] == ids[1..] + [id];
      ProcessAllAppend(ProcessOne(b, ids[0], env(ids[0])), ids[1..], id, env);
    }
  }

  /** The loop body of RunAutoRenew for one candidate. */
  method AttemptOne(b0: Batch, id: Id, e: Attempt) returns (b: Batch, renewed: bool)
    requires b0.work.NoWork?
    ensures b == ProcessOne(b0, id, e)
    ensures b.renewed == if renewed then b0.renewed + multiset{id} else b0.renewed
  {
    renewed := false;
    b := BeginAttempt(b0, id, e.at, e.readOk, e.beginOk);
    if b.work.Renewing? {
      renewed := e.outcome.Renewed?;
      b := EndAttempt(b, e.outcome, e.endOk);
    }
  }

  method SortIds(ids: set<Id>) returns (order: seq<Id>)
    ensures Ascending(order) && forall id :: id in order <==> id in ids
  {
    order := [];
    var todo := ids;
    while todo != {}
      invariant Ascending(order)
      invariant forall i, j :: 0 <= i < |order| && j in todo ==> order[i] < j
      invariant forall id :: id in ids <==> id in order || id in todo
      decreases |todo|
    {
      var id := Least(todo);
      order, todo := order + [id], todo - {id};
    }
  }

  /** The candidate loop of RunAutoRenew. */
  method AttemptCandidates(start: Batch, order: seq<Id>, env: Id -> Attempt) returns (b: Batch, renewedCount: nat)
    requires start.work.NoWork?
    ensures b == ProcessAll(start, order, env)
    ensures |b.renewed| == |start.renewed| + renewedCount
  {
    b, renewedCount := start, 0;
    for i := 0 to |order|
      invariant b.work.NoWork? && b == ProcessAll(start, order[..i], env)
      invariant |b.renewed| == |start.renewed| + renewedCount
    {
      ProcessAllAppend(start, order[..i], order[i], env);
      assert order[..i + 1] == order[..i] + [order[i]];
      var renewed;
      b, renewed := AttemptOne(b, order[i], env(order[i]));
      if renewed { renewedCount := renewedCount + 1; }
    }
    assert order[..|order|] == order;
  }

  /** RunAutoRenew: collect, attempt every candidate, close if ready. */
  method RunAutoRenew(b0: Batch, plan: Run) returns (b: Batch, order: seq<Id>, renewedCount: nat)
    requires b0.work.NoWork?
    ensures Ascending(order) && forall id :: id in order <==> id in Collected(b0, plan).candidates
    ensures b == RunOnce(b0, plan.(ids := order))
    ensures |b.renewed| == |Collected(b0, plan).renewed| + renewedCount
  {
    var start := Collect(b0, plan.now, plan.linux, plan.failing, plan.openSaved);
    order := SortIds(start.candidates);
    b, renewedCount := AttemptCandidates(start, order, plan.env);
    b := FinishIfReady(b, plan.end, plan.endRead, plan.endSaved);
  }

  // ---------------------------------------------------------------------------------------
  // A batch whose window is over closes
  // ---------------------------------------------------------------------------------------

  /** How many more failed attempts a certificate can make before it stops holding the batch open. */
  function Weight(b: Batch, id: Id): (w: nat) {
    if id !in b.rows || id in b.completed || !b.rows[id].autoRenew then 0
    else
      var row := b.rows[id];
      if id !in b.candidates && !(row.retry.phase.Rapid? && row.lastAttemptAt >= b.startedAt) then 0
      else match row.retry.phase
        case Rapid => if row.retry.count < 2 then 3 - row.retry.count else 1
        case Periodic => 0
        case _ => 4
  }

  function Measure(b: Batch, n: nat): (total: nat) {
    if n == 0 then 0 else Measure(b, n - 1) + Weight(b, n - 1)
  }

  lemma {:induction false} MeasureMonotone(b: Batch, c: Batch, n: nat)
    requires forall id: Id :: Weight(c, id) <= Weight(b, id)
    ensures Measure(c, n) <= Measure(b, n)
    ensures (exists id: Id :: id < n && Weight(c, id) < Weight(b, id)) ==> Measure(c, n) < Measure(b, n)
  {
    if n > 0 { MeasureMonotone(b, c, n - 1); }
  }

  /** Completed certificates are not in their rapid phase; part of BatchInv. */
  predicate NoneCompletedRapid(b: Batch) {
    forall id :: id in b.completed && id in b.rows ==> !b.rows[id].retry.phase.Rapid?
  }

  /** At its turn the candidate's renewal is tried. */
  predicate Tries(b: Batch, id: Id, e: Attempt) {
    && id !in b.completed && e.readOk && e.beginOk && id in b.rows && b.rows[id].autoRenew
    && !AlreadyRenewed(b, b.rows[id]) && !Expired(b.rows[id], e.at) && Due(b.rows[id].retry, e.at)
  }

  /** At its turn the candidate's renewal fails, and the failure is recorded. */
  predicate Fails(b: Batch, id: Id, e: Attempt) {
    Tries(b, id, e) && e.outcome.RenewFailed? && e.endOk
  }

  /** Any run after the window's end, whatever is due and whichever statements fail. */
  ghost predicate LateRun(b: Batch, run: Run) {
    && Active(b) && b.work.NoWork? && b.endsAt < run.now <= run.end && NoneCompletedRapid(b)
    && Ascending(run.ids) && (forall id :: id in run.ids <==> id in Collected(b, run).candidates)
  }

  lemma CollectLowers(b: Batch, run: Run, id: Id)
    requires LateRun(b, run)
    ensures Weight(Collected(b, run), id) <= Weight(b, id)
  {
  }

  lemma CollectLate(b: Batch, run: Run)
    requires LateRun(b, run)
    ensures var c := Collected(b, run);
      && Active(c) && c.work.NoWork? && c.endsAt == b.endsAt && c.startedAt == b.startedAt
      && NoneCompletedRapid(c) && c.rows.Keys == b.rows.Keys
  {
  }

  /** One candidate's turn never raises a weight; a recorded failure of one that then still holds the
      batch open lowers it, and only a recorded failure makes a certificate hold the batch open. */
  lemma AttemptLowers(b: Batch, id: Id, e: Attempt, other: Id)
    requires Active(b) && b.work.NoWork? && NoneCompletedRapid(b) && id in b.candidates
    ensures Weight(ProcessOne(b, id, e), other) <= Weight(b, other)
    ensures NoneCompletedRapid(ProcessOne(b, id, e))
    ensures HoldsOpen(ProcessOne(b, id, e), id) && Fails(b, id, e) ==> Weight(ProcessOne(b, id, e), id) < Weight(b, id)
    ensures HoldsOpen(ProcessOne(b, id, e), id) && !Fails(b, id, e) ==> HoldsOpen(b, id)
  {
  }

  lemma AttemptShape(b: Batch, id: Id, e: Attempt)
    requires b.work.NoWork?
    ensures var c := ProcessOne(b, id, e);
      && c.startedAt == b.startedAt && c.endsAt == b.endsAt
      && c.rows.Keys == b.rows.Keys && c.candidates <= b.candidates
  {
  }

  lemma {:induction false} AttemptsShape(b: Batch, ids: seq<Id>, env: Id -> Attempt)
    requires b.work.NoWork?
    ensures var c := ProcessAll(b, ids, env);
      && c.startedAt == b.startedAt && c.endsAt == b.endsAt
      && c.rows.Keys == b.rows.Keys && c.candidates <= b.candidates
    decreases |ids|
  {
    if ids != [] {
      AttemptShape(b, ids[0], env(ids[0]));
      AttemptsShape(ProcessOne(b, ids[0], env(ids[0])), ids[1..], env);
    }
  }

  /** The two batches agree on everything about a certificate. */
  predicate SameAt(b: Batch, c: Batch, id: Id) {
    && (id in c.rows <==> id in b.rows) && (id in b.rows ==> c.rows[id] == b.rows[id])
    && (id in c.candidates <==> id in b.candidates) && (id in c.completed <==> id in b.completed)
    && c.startedAt == b.startedAt
  }

  lemma AttemptFrame(b: Batch, id: Id, e: Attempt, other: Id)
    requires b.work.NoWork? && id != other
    ensures SameAt(b, ProcessOne(b, id, e), other)
  {
  }

  lemma {:induction false} AttemptsLeave(b: Batch, ids: seq<Id>, env: Id -> Attempt, id: Id)
    requires b.work.NoWork? && id !in ids
    ensures SameAt(b, ProcessAll(b, ids, env), id)
    decreases |ids|
  {
    if ids != [] {
      AttemptFrame(b, ids[0], env(ids[0]), id);
      AttemptsLeave(ProcessOne(b, ids[0], env(ids[0])), ids[1..], env, id);
    }
  }

  /** A certificate's own turn is all that a run's attempts do to it. */
  lemma {:induction false} OwnTurnOnly(b: Batch, ids: seq<Id>, env: Id -> Attempt, id: Id)
    requires b.work.NoWork? && Ascending(ids) && id in ids
    ensures SameAt(ProcessOne(b, id, env(id)), ProcessAll(b, ids, env), id)
    decreases |ids|
  {
    var first, rest := ids[0], ids[1..];
    var c := ProcessOne(b, first, env(first));
    if first == id {
      AttemptsLeave(c, rest, env, id);
    } else {
      AttemptFrame(b, first, env(first), id);
      assert id in rest;
      OwnTurnOnly(c, rest, env, id);
      SameTurn(b, c, id, env(id));
    }
  }

  lemma SameBegin(b: Batch, c: Batch, id: Id, e: Attempt)
    requires b.work.NoWork? && c.work.NoWork? && SameAt(b, c, id)
    ensures var x, y := BeginAttempt(b, id, e.at, e.readOk, e.beginOk), BeginAttempt(c, id, e.at, e.readOk, e.beginOk);
      SameAt(x, y, id) && x.work == y.work && (x.work.Renewing? ==> x.work.id == id)
  {
  }

  lemma SameEnd(b: Batch, c: Batch, outcome: Outcome, writeOk: bool)
    requires b.work.Renewing? && c.work == b.work && SameAt(b, c, b.work.id)
    ensures SameAt(EndAttempt(b, outcome, writeOk), EndAttempt(c, outcome, writeOk), b.work.id)
  {
  }

  lemma SameTurn(b: Batch, c: Batch, id: Id, e: Attempt)
    requires b.work.NoWork? && c.work.NoWork? && SameAt(b, c, id)
    ensures SameAt(ProcessOne(b, id, e), ProcessOne(c, id, e), id)
  {
    SameBegin(b, c, id, e);
    var x, y := BeginAttempt(b, id, e.at, e.readOk, e.beginOk), BeginAttempt(c, id, e.at, e.readOk, e.beginOk);
    if x.work.Renewing? {
      SameEnd(x, y, e.outcome, e.endOk);
    }
  }

  /** The attempts of a run raise no weight; each recorded failure of a certificate that still holds
      the batch open lowers one; and only recorded failures make certificates hold it open. */
  lemma AllAttemptsLower(b: Batch, ids: seq<Id>, env: Id -> Attempt, id: Id)
    requires Active(b) && b.work.NoWork? && NoneCompletedRapid(b) && Ascending(ids)
    requires forall x :: x in ids ==> x in b.candidates
    ensures var d := ProcessAll(b, ids, env);
      && Weight(d, id) <= Weight(b, id)
      && (id in d.completed && id in d.rows ==> !d.rows[id].retry.phase.Rapid?)
      && (id in ids && HoldsOpen(d, id) && Fails(b, id, env(id)) ==> Weight(d, id) < Weight(b, id))
      && (HoldsOpen(d, id) ==> HoldsOpen(b, id) || (id in ids && Fails(b, id, env(id))))
  {
    if id in ids {
      OwnTurnOnly(b, ids, env, id);
      AttemptLowers(b, id, env(id), id);
    } else {
      AttemptsLeave(b, ids, env, id);
    }
  }

  /** In this run a candidate fails and still holds the batch open. */
  ghost predicate Lowering(b: Batch, run: Run)
    requires b.work.NoWork?
  {
    exists id :: id in run.ids && Fails(Collected(b, run), id, run.env(id)) && HoldsOpen(Attempted(b, run), id)
  }

  lemma LateWeights(b: Batch, run: Run, id: Id)
    requires LateRun(b, run)
    ensures var d := Attempted(b, run);
      && Weight(d, id) <= Weight(b, id)
      && (id in run.ids && Fails(Collected(b, run), id, run.env(id)) && HoldsOpen(d, id) ==>
           id in b.rows && Weight(d, id) < Weight(b, id))
      && (id in d.completed && id in d.rows ==> !d.rows[id].retry.phase.Rapid?)
  {
    CollectLate(b, run);
    CollectLowers(b, run, id);
    AllAttemptsLower(Collected(b, run), run.ids, run.env, id);
  }

  /** Every run after the window leaves the measure no higher, and one in which a candidate fails and
      still holds the batch open lowers it. */
  lemma LateRunMeasure(b: Batch, run: Run, n: nat)
    requires LateRun(b, run) && forall id :: id in b.rows ==> id < n
    ensures var d := Attempted(b, run);
      && Measure(d, n) <= Measure(b, n) && (Lowering(b, run) ==> Measure(d, n) < Measure(b, n))
  {
    var d := Attempted(b, run);
    forall id: Id ensures Weight(d, id) <= Weight(b, id) {
      LateWeights(b, run, id);
    }
    MeasureMonotone(b, d, n);
    if Lowering(b, run) {
      var id :| id in run.ids && Fails(Collected(b, run), id, run.env(id)) && HoldsOpen(d, id);
      LateWeights(b, run, id);
    }
  }

  /** The run gets a turn at every certificate that holds the batch open: each is due, and the
      statements on it succeed. Candidates in the periodic phase need not be due. */
  ghost predicate ReachesHolders(b: Batch, run: Run) {
    && run.endRead
    && forall id :: id in run.ids && HoldsOpen(Collected(b, run), id) ==>
         var e := run.env(id);
         e.readOk && e.beginOk && e.endOk && Due(Collected(b, run).rows[id].retry, e.at)
  }

  /** Such a run closes the batch, or some candidate fails in it and still holds the batch open. */
  lemma LateRunProgress(b: Batch, run: Run)
    requires LateRun(b, run) && ReachesHolders(b, run)
    ensures RunOnce(b, run).startedAt == 0 || Lowering(b, run)
  {
    var c, d := Collected(b, run), Attempted(b, run);
    CollectLate(b, run);
    AttemptsShape(c, run.ids, run.env);
    if RapidLeft(d) {
      var id :| id in d.candidates && HoldsOpen(d, id);
      assert id in run.ids;
      OwnTurnOnly(c, run.ids, run.env, id);
      HolderFails(c, id, run.env(id));
    }
  }

  lemma HolderFails(b: Batch, id: Id, e: Attempt)
    requires b.work.NoWork? && NoneCompletedRapid(b) && HoldsOpen(ProcessOne(b, id, e), id)
    requires HoldsOpen(b, id) ==> e.readOk && e.beginOk && e.endOk && Due(b.rows[id].retry, e.at)
    ensures Fails(b, id, e)
  {
  }

  /** Runs after the window's end, each beginning where the one before ended. */
  ghost predicate LateRuns(bs: seq<Batch>, runs: seq<Run>) {
    && |bs| == |runs| + 1
    && forall i :: 0 <= i < |runs| ==> LateRun(bs[i], runs[i]) && bs[i + 1] == RunOnce(bs[i], runs[i])
  }

  ghost function LoweringRuns(bs: seq<Batch>, runs: seq<Run>): (n: nat)
    requires LateRuns(bs, runs)
    decreases |runs|
  {
    if runs == [] then 0
    else
      LateRunsTail(bs, runs);
      (if Lowering(bs[0], runs[0]) then 1 else 0) + LoweringRuns(bs[1..], runs[1..])
  }

  lemma LateRunsTail(bs: seq<Batch>, runs: seq<Run>)
    requires LateRuns(bs, runs) && runs != []
    ensures LateRuns(bs[1..], runs[1..])
  {
    forall i | 0 <= i < |runs| - 1
      ensures LateRun(bs[1..][i], runs[1..][i]) && bs[1..][i + 1] == RunOnce(bs[1..][i], runs[1..][i])
    {
      assert LateRun(bs[i + 1], runs[i + 1]) && bs[i + 1 + 1] == RunOnce(bs[i + 1], runs[i + 1]);
    }
  }

  /** The batch closes: among any late runs at most Measure many leave it open with a failure that
      holds it open; the others in between raise the measure by nothing. */
  lemma {:induction false} BatchCloses(bs: seq<Batch>, runs: seq<Run>, n: nat)
    requires LateRuns(bs, runs) && (forall id :: id in bs[0].rows ==> id < n)
    requires forall i :: 0 <= i < |bs| ==> bs[i].startedAt != 0
    ensures Measure(bs[|runs|], n) + LoweringRuns(bs, runs) <= Measure(bs[0], n)
    decreases |runs|
  {
    if runs != [] {
      LateRunsTail(bs, runs);
      LateRunMeasure(bs[0], runs[0], n);
      CollectLate(bs[0], runs[0]);
      AttemptsShape(Collected(bs[0], runs[0]), runs[0].ids, runs[0].env);
      assert bs[1] == RunOnce(bs[0], runs[0]) == Attempted(bs[0], runs[0]);
      BatchCloses(bs[1..], runs[1..], n);
    }
  }

  /** How many runs reach every certificate that holds the batch open. */
  ghost function ReachingRuns(bs: seq<Batch>, runs: seq<Run>): (n: nat)
    requires LateRuns(bs, runs)
    decreases |runs|
  {
    if runs == [] then 0
    else
      LateRunsTail(bs, runs);
      (if ReachesHolders(bs[0], runs[0]) then 1 else 0) + ReachingRuns(bs[1..], runs[1..])
  }

  lemma {:induction false} ReachingRunsLower(bs: seq<Batch>, runs: seq<Run>)
    requires LateRuns(bs, runs) && forall i :: 0 <= i < |bs| ==> bs[i].startedAt != 0
    ensures ReachingRuns(bs, runs) <= LoweringRuns(bs, runs)
    decreases |runs|
  {
    if runs != [] {
      LateRunsTail(bs, runs);
      assert bs[1] == RunOnce(bs[0], runs[0]);
      if ReachesHolders(bs[0], runs[0]) {
        LateRunProgress(bs[0], runs[0]);
      }
      ReachingRunsLower(bs[1..], runs[1..]);
    }
  }

  /** Hence, among any runs after the window, at most Measure many that reach every certificate which
      holds the batch open leave it open. */
  lemma BatchClosesWithin(bs: seq<Batch>, runs: seq<Run>, n: nat)
    requires LateRuns(bs, runs) && (forall id :: id in bs[0].rows ==> id < n)
    requires forall i :: 0 <= i < |bs| ==> bs[i].startedAt != 0
    ensures ReachingRuns(bs, runs) <= Measure(bs[0], n)
  {
    ReachingRunsLower(bs, runs);
    BatchCloses(bs, runs, n);
  }

  // ---------------------------------------------------------------------------------------
  // The sum of (3 - retry count) over the candidates in their rapid phase
  // ---------------------------------------------------------------------------------------

  /** Rapid rows count zero to two retries. */
  predicate Counted(b: Batch) {
    forall id :: id in b.rows && b.rows[id].retry.phase.Rapid? ==> 0 <= b.rows[id].retry.count <= 2
  }

  function Term(b: Batch, id: Id): (n: int) {
    if HoldsOpen(b, id) then RAPID_LIMIT - b.rows[id].retry.count else 0
  }

  function RapidSum(b: Batch, n: nat): (total: int) {
    if n == 0 then 0 else RapidSum(b, n - 1) + Term(b, n - 1)
  }

  /** At its turn the candidate fails for the first time: it is in neither retry phase. */
  predicate FirstFails(b: Batch, id: Id, e: Attempt) {
    Fails(b, id, e) && !b.rows[id].retry.phase.Rapid? && !b.rows[id].retry.phase.Periodic?
  }

  /** At its turn a rapid candidate is renewed, fails on record, or is given up as expired. */
  predicate Drops(b: Batch, id: Id, e: Attempt) {
    && HoldsOpen(b, id) && e.readOk
    && (Expired(b.rows[id], e.at) || (Due(b.rows[id].retry, e.at) && e.beginOk && (e.outcome.Renewed? || e.endOk)))
  }

  function Gain(b: Batch, id: Id, e: Attempt): (n: int) { if FirstFails(b, id, e) then RAPID_LIMIT else 0 }

  function Loss(b: Batch, id: Id, e: Attempt): (n: int) {
    if !Drops(b, id, e) then 0
    else if Expired(b.rows[id], e.at) || e.outcome.Renewed? then RAPID_LIMIT - b.rows[id].retry.count
    else 1
  }

  /** What a candidate's turn does to its term. */
  lemma TermExactly(b: Batch, id: Id, e: Attempt)
    requires Active(b) && b.work.NoWork? && NoneCompletedRapid(b) && Counted(b) && id in b.candidates
    ensures Term(ProcessOne(b, id, e), id) == Term(b, id) + Gain(b, id, e) - Loss(b, id, e)
    ensures Drops(b, id, e) ==> Loss(b, id, e) > 0
  {
  }

  function Gains(b: Batch, ids: seq<Id>, env: Id -> Attempt, n: nat): (total: int) {
    if n == 0 then 0 else Gains(b, ids, env, n - 1) + if n - 1 in ids then Gain(b, n - 1, env(n - 1)) else 0
  }

  function Losses(b: Batch, ids: seq<Id>, env: Id -> Attempt, n: nat): (total: int) {
    if n == 0 then 0 else Losses(b, ids, env, n - 1) + if n - 1 in ids then Loss(b, n - 1, env(n - 1)) else 0
  }

  /** The attempts of a run change the sum by three for every first failure, less what the rapid
      candidates lose. */
  lemma {:induction false} SumExactly(b: Batch, ids: seq<Id>, env: Id -> Attempt, n: nat)
    requires Active(b) && b.work.NoWork? && NoneCompletedRapid(b) && Counted(b) && Ascending(ids)
    requires forall x :: x in ids ==> x in b.candidates
    ensures RapidSum(ProcessAll(b, ids, env), n) == RapidSum(b, n) + Gains(b, ids, env, n) - Losses(b, ids, env, n)
  {
    if n > 0 {
      SumExactly(b, ids, env, n - 1);
      var id := n - 1;
      if id in ids {
        OwnTurnOnly(b, ids, env, id);
        TermExactly(b, id, env(id));
      } else {
        AttemptsLeave(b, ids, env, id);
      }
    }
  }

  lemma {:induction false} NoGains(b: Batch, ids: seq<Id>, env: Id -> Attempt, n: nat)
    requires Active(b) && b.work.NoWork? && NoneCompletedRapid(b) && Counted(b)
    requires forall x :: x in ids ==> x in b.candidates
    ensures Gains(b, ids, env, n) >= 0 && Losses(b, ids, env, n) >= 0
    ensures Gains(b, ids, env, n) == 0 <==> forall id :: id in ids && id < n ==> !FirstFails(b, id, env(id))
    ensures Losses(b, ids, env, n) == 0 <==> forall id :: id in ids && id < n ==> !Drops(b, id, env(id))
  {
    if n > 0 {
      NoGains(b, ids, env, n - 1);
      if n - 1 in ids {
        TermExactly(b, n - 1, env(n - 1));
      }
    }
  }

  /** In a late run without first failures the sum over the collected candidates never rises, and it
      falls if and only if some rapid candidate is renewed, fails on record or is given up. With no
      such candidate it rises if and only if there is a first failure. */
  lemma SumFallsExactly(b: Batch, run: Run, n: nat)
    requires LateRun(b, run) && Counted(Collected(b, run)) && forall id :: id in b.rows ==> id < n
    ensures var c, d := Collected(b, run), Attempted(b, run);
      var first := exists id :: id in run.ids && FirstFails(c, id, run.env(id));
      var drops := exists id :: id in run.ids && Drops(c, id, run.env(id));
      && (!first ==> RapidSum(d, n) <= RapidSum(c, n) && (RapidSum(d, n) < RapidSum(c, n) <==> drops))
      && (!drops ==> RapidSum(d, n) >= RapidSum(c, n) && (RapidSum(d, n) > RapidSum(c, n) <==> first))
  {
    var c := Collected(b, run);
    CollectLate(b, run);
    SumExactly(c, run.ids, run.env, n);
    NoGains(c, run.ids, run.env, n);
    forall id | id in run.ids && (FirstFails(c, id, run.env(id)) || Drops(c, id, run.env(id))) ensures id < n {
      assert id in c.rows;
    }
  }

  lemma ExtendRun(states: seq<Batch>, actions: seq<Action>, a: Action) returns (longer: seq<Batch>, more: seq<Action>)
    requires IsRun(states, actions) && CanAct(states[|actions|], a)
    ensures IsRun(longer, more)
    ensures more == actions + [a] && longer == states + [Act(states[|actions|], a)]
  {
    longer := states + [Act(states[|actions|], a)];
    more := actions + [a];
  }

  lemma SumOfTwo(b: Batch)
    ensures RapidSum(b, 2) == Term(b, 0) + Term(b, 1)
  {
    assert RapidSum(b, 1) == Term(b, 0);
  }

  const DUE_ROW: Row := Row(true, false, 1, 2_600_000, Retry(Fresh, 0, 0), 0, 0)

  const UNREAD: Batch := Batch(map[1 := DUE_ROW], 10_000, 13_600, 10_000, 13_600, {1}, {}, NoWork, 10_000, multiset{})

  /** A candidate that could not be read inside the window. */
  lemma UnreadRun() returns (states: seq<Batch>, actions: seq<Action>)
    ensures IsRun(states, actions) && states[|actions|] == UNREAD
  {
    states, actions := ExtendRun([CLOSED], [], Insert(1, DUE_ROW));
    var b := states[1];
    assert b.rows == map[1 := DUE_ROW] && FallsDue(DUE_ROW, 10_000) && Processable(DUE_ROW, 10_000, true);
    assert DisableExpired(b.rows, 10_000, {}) == b.rows;
    states, actions := ExtendRun(states, actions, DoCollect(10_000, true, {}, true));
    assert states[2] == UNREAD;
    states, actions := ExtendRun(states, actions, DoBegin(1, 10_000, false, true));
  }

  /** A run in which the sum rises after the window's end: that candidate fails for the first time. */
  lemma RisingRun() returns (states: seq<Batch>, actions: seq<Action>, k: nat)
    ensures IsRun(states, actions) && k < |actions| && Active(states[k])
    ensures actions[k].DoCollect? && actions[k].now > states[k].endsAt
    ensures states[|actions|].startedAt == states[k].startedAt
    ensures RapidSum(states[k], 2) == 0 && RapidSum(states[|actions|], 2) == 3
  {
    states, actions := UnreadRun();
    k := |actions|;
    states, actions := ExtendRun(states, actions, DoCollect(14_000, true, {}, true));
    states, actions := ExtendRun(states, actions, DoBegin(1, 14_000, true, true));
    states, actions := ExtendRun(states, actions, DoEnd(RenewFailed, true));
    SumOfTwo(states[k]);
    SumOfTwo(states[|actions|]);
  }
}
