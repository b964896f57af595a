/** The coordinator of certificate-driven Core restarts: one retry state per Core, kept in memory
    under `mu` and saved as a single setting. */
module CoreRestart {
  import opened RetryPolicy

  datatype Kind = Singbox | Mihomo

  datatype RestartState = RestartState(
    pending: bool,
    windowStartedAt: int,
    windowEndsAt: int,
    retry: Retry,
    generation: nat)

  const CLEARED: RestartState := RestartState(false, 0, 0, Retry(Fresh, 0, 0), 0)

  /** The renewal batch window, when one is open. */
  datatype BatchWindow = NoBatch | Batch(startedAt: int, endsAt: int)

  /** queueCertificateCoreRestart on one state. */
  function AfterQueue(st: RestartState, now: int, batch: BatchWindow): (r: RestartState) {
    if st.pending then st.(generation := st.generation + 1)
    else match batch
      case NoBatch => RestartState(true, now, now + BATCH_DURATION, Retry(Fresh, 0, 0), st.generation + 1)
      case Batch(startedAt, endsAt) => RestartState(true, startedAt, endsAt, Retry(Fresh, 0, 0), st.generation + 1)
  }

  function DueAt(st: RestartState): (at: int) {
    if st.retry.phase.Fresh? then st.windowEndsAt else st.retry.nextAt
  }

  // ---------------------------------------------------------------------------------------
  // The coordinator as a value: what each of its operations does
  // ---------------------------------------------------------------------------------------

  /** Both states in memory, and the setting they were last saved to. */
  datatype Coord = Coord(
    singbox: RestartState, mihomo: RestartState, savedSingbox: RestartState, savedMihomo: RestartState)

  const START: Coord := Coord(CLEARED, CLEARED, CLEARED, CLEARED)

  function Of(c: Coord, kind: Kind): (st: RestartState) { if kind.Singbox? then c.singbox else c.mihomo }

  function SavedOf(c: Coord, kind: Kind): (st: RestartState) {
    if kind.Singbox? then c.savedSingbox else c.savedMihomo
  }

  /** One state is replaced, and both are written as one setting; a failed write changes nothing there. */
  function Written(c: Coord, kind: Kind, st: RestartState, saved: bool): (r: Coord) {
    var d := if kind.Singbox? then c.(singbox := st) else c.(mihomo := st);
    if saved then d.(savedSingbox := d.singbox, savedMihomo := d.mihomo) else d
  }

  predicate Due(c: Coord, kind: Kind, now: int) { Of(c, kind).pending && 0 < DueAt(Of(c, kind)) <= now }

  function Failed(st: RestartState, now: int): (r: RestartState) {
    st.(retry := AfterFailure(st.retry.phase, st.retry.count, now))
  }

  datatype Op =
    | Queueing(kind: Kind, now: int, batch: BatchWindow, saved: bool)
    | Processing(kind: Kind, now: int, mustWait: bool, running: bool, restartOk: bool, saved: bool)
    | ConfigLoaded(kind: Kind, saved: bool)  // a start or restart tells that the latest config is loaded
    | Reload(readOk: bool)                   // the panel restarts

  /** The operation attempts a restart. */
  predicate Attempts(c: Coord, op: Op) {
    op.Processing? && Due(c, op.kind, op.now) && !op.mustWait && op.running
  }

  /** The operation attempts a restart of this Core, and it fails. */
  predicate FailsOn(c: Coord, op: Op, kind: Kind) {
    Attempts(c, op) && op.kind == kind && !op.restartOk
  }

  function Next(c: Coord, op: Op): (r: Coord) {
    match op
    case Queueing(kind, now, batch, saved) => Written(c, kind, AfterQueue(Of(c, kind), now, batch), saved)
    case Processing(kind, now, mustWait, running, restartOk, saved) =>
      if !Due(c, kind, now) || mustWait then c
      else if running && !restartOk then Written(c, kind, Failed(Of(c, kind), now), saved)
      else Written(c, kind, CLEARED, saved)
    case ConfigLoaded(kind, saved) => if Of(c, kind).pending then Written(c, kind, CLEARED, saved) else c
    case Reload(readOk) =>
      if readOk then c.(singbox := c.savedSingbox, mihomo := c.savedMihomo)
      else c.(singbox := CLEARED, mihomo := CLEARED)
  }

  /** Any sequence of operations and panel restarts. */
  ghost predicate IsHistory(states: seq<Coord>, ops: seq<Op>) {
    && |states| == |ops| + 1 && states[0] == START
    && forall i :: 0 <= i < |ops| ==> states[i + 1] == Next(states[i], ops[i])
  }

  /** The operation writes the setting, and the write succeeds. */
  predicate Saves(c: Coord, op: Op) {
    match op
    case Queueing(_, _, _, saved) => saved
    case Processing(kind, now, mustWait, _, _, saved) => saved && Due(c, kind, now) && !mustWait
    case ConfigLoaded(kind, saved) => saved && Of(c, kind).pending
    case Reload(_) => false
  }

  /** What the operations of the source do to the setting. */
  lemma SettingAfter(c: Coord, op: Op, kind: Kind)
    ensures SavedOf(Next(c, op), kind) == if Saves(c, op) then Of(Next(c, op), kind) else SavedOf(c, kind)
  {
  }

  // ---------------------------------------------------------------------------------------
  // The window, from a queueing to its clear
  // ---------------------------------------------------------------------------------------

  predicate SameWindow(a: RestartState, b: RestartState) {
    a.windowStartedAt == b.windowStartedAt && a.windowEndsAt == b.windowEndsAt
  }

  /** The restart is pending with the window of `st`. */
  predicate Keeps(r: RestartState, st: RestartState) { r.pending && SameWindow(r, st) }

  /** The restart of this Core is pending from state `i` to state `j`. */
  ghost predicate PendingFrom(states: seq<Coord>, kind: Kind, i: nat, j: nat) {
    i <= j < |states| && forall k :: i <= k <= j ==> Of(states[k], kind).pending
  }

  /** Step `q` queues a restart of this Core where none was pending. */
  ghost predicate Begins(states: seq<Coord>, ops: seq<Op>, kind: Kind, q: nat)
    requires IsHistory(states, ops)
  {
    q < |ops| && ops[q].Queueing? && ops[q].kind == kind && !Of(states[q], kind).pending
  }

  /** Before step `k` the setting has been written since that queueing, by whatever operation on
      whichever Core; or it held a pending restart with the same window all along. */
  ghost predicate OnDisk(states: seq<Coord>, ops: seq<Op>, kind: Kind, q: nat, k: nat)
    requires IsHistory(states, ops) && q < k <= |ops|
  {
    || Keeps(SavedOf(states[q], kind), Of(states[q + 1], kind))
    || exists m :: q <= m < k && Saves(states[m], ops[m])
  }

  /** From the queueing to state `k` the restart is pending with the window it was queued with. */
  ghost predicate WindowHeld(states: seq<Coord>, kind: Kind, q: nat, k: nat)
    requires q + 1 <= k < |states|
  {
    forall m :: q + 1 <= m <= k ==> Keeps(Of(states[m], kind), Of(states[q + 1], kind))
  }

  lemma {:induction false} SettingKeeps(states: seq<Coord>, ops: seq<Op>, kind: Kind, q: nat, k: nat)
    requires IsHistory(states, ops) && Begins(states, ops, kind, q) && q < k <= |ops| && WindowHeld(states, kind, q, k)
    ensures Keeps(SavedOf(states[k], kind), Of(states[q + 1], kind)) <==> OnDisk(states, ops, kind, q, k)
    decreases k
  {
    assert states[k] == Next(states[k - 1], ops[k - 1]);
    SettingAfter(states[k - 1], ops[k - 1], kind);
    if q + 1 < k {
      SettingKeeps(states, ops, kind, q, k - 1);
    }
  }

  /** A panel restart leaves the restart pending with the window it was queued with, if and only if it
      can read the setting and that window is there. */
  lemma ReloadKeepsExactly(states: seq<Coord>, ops: seq<Op>, kind: Kind, q: nat, k: nat)
    requires IsHistory(states, ops) && Begins(states, ops, kind, q) && q < k < |ops| && WindowHeld(states, kind, q, k)
    requires ops[k].Reload?
    ensures Keeps(Of(states[k + 1], kind), Of(states[q + 1], kind)) <==>
      ops[k].readOk && OnDisk(states, ops, kind, q, k)
  {
    SettingKeeps(states, ops, kind, q, k);
    assert states[k + 1] == Next(states[k], ops[k]);
  }

  /** A restart queued while a batch is open gets the batch's window, any other one an hour from now. */
  lemma WindowGiven(states: seq<Coord>, ops: seq<Op>, kind: Kind, q: nat)
    requires IsHistory(states, ops) && Begins(states, ops, kind, q)
    ensures var st, batch, now := Of(states[q + 1], kind), ops[q].batch, ops[q].now;
      && st.pending && st.retry.phase.Fresh?
      && st.windowStartedAt == (if batch.Batch? then batch.startedAt else now)
      && st.windowEndsAt == if batch.Batch? then batch.endsAt else now + 3600
  {
    assert states[q + 1] == Next(states[q], ops[q]);
  }

  /** Over every history: the first attempt waits for the end of that window, and every later one for
      the time the failure before it has set. */
  lemma AttemptsWait(states: seq<Coord>, ops: seq<Op>, kind: Kind, q: nat, k: nat)
    requires IsHistory(states, ops) && Begins(states, ops, kind, q) && q < k < |ops| && WindowHeld(states, kind, q, k)
    requires Attempts(states[k], ops[k]) && ops[k].kind == kind
    ensures var st, batch := Of(states[k], kind), ops[q].batch;
      if st.retry.phase.Fresh? then ops[k].now >= if batch.Batch? then batch.endsAt else ops[q].now + 3600
      else ops[k].now >= st.retry.nextAt
  {
    WindowGiven(states, ops, kind, q);
  }

  /** Every other operation that leaves the restart pending keeps its window. */
  lemma WindowStep(c: Coord, op: Op, kind: Kind)
    requires Of(c, kind).pending && Of(Next(c, op), kind).pending && !op.Reload?
    ensures SameWindow(Of(c, kind), Of(Next(c, op), kind))
  {
  }

  /** Over every sequence of operations and panel restarts: while a queued restart stays pending its
      window never moves, if and only if every panel restart meanwhile finds that window on disk. */
  lemma {:induction false} WindowNeverMovesExactly(states: seq<Coord>, ops: seq<Op>, kind: Kind, q: nat, j: nat)
    requires IsHistory(states, ops) && Begins(states, ops, kind, q) && q < j <= |ops|
    requires PendingFrom(states, kind, q + 1, j)
    ensures WindowHeld(states, kind, q, j) <==>
      forall k :: q < k < j && ops[k].Reload? ==> OnDisk(states, ops, kind, q, k)
    decreases j
  {
    if q + 1 < j {
      var k := j - 1;
      WindowNeverMovesExactly(states, ops, kind, q, k);
      assert states[j] == Next(states[k], ops[k]);
      if WindowHeld(states, kind, q, k) {
        if ops[k].Reload? {
          ReloadKeepsExactly(states, ops, kind, q, k);
        } else {
          WindowStep(states[k], ops[k], kind);
        }
      }
    }
  }

  /** A panel restart that does not find it: a cleared restart whose clear could not be saved comes back
      in place of one queued later and not saved either. */
  lemma OldWindowReturns() returns (states: seq<Coord>, ops: seq<Op>)
    ensures IsHistory(states, ops) && |ops| == 4 && ops[3] == Reload(true)
    ensures Of(states[3], Singbox).pending && Of(states[4], Singbox).pending
    ensures Of(states[3], Singbox).windowEndsAt == 10_000 + BATCH_DURATION
    ensures Of(states[4], Singbox).windowEndsAt == 1 + BATCH_DURATION
  {
    ops := [Queueing(Singbox, 1, NoBatch, true), ConfigLoaded(Singbox, false),
            Queueing(Singbox, 10_000, NoBatch, false), Reload(true)];
    var s1 := Next(START, ops[0]);
    var s2 := Next(s1, ops[1]);
    var s3 := Next(s2, ops[2]);
    states := [START, s1, s2, s3, Next(s3, ops[3])];
  }

  // ---------------------------------------------------------------------------------------
  // The failures while a restart is pending
  // ---------------------------------------------------------------------------------------

  /** The times of the failed attempts from state `i` to state `j`. */
  ghost function FailureTimes(states: seq<Coord>, ops: seq<Op>, kind: Kind, i: nat, j: nat): (times: seq<int>)
    requires IsHistory(states, ops) && i <= j <= |ops|
    decreases j
  {
    if i == j then []
    else
      var earlier := FailureTimes(states, ops, kind, i, j - 1);
      if FailsOn(states[j - 1], ops[j - 1], kind) then earlier + [ops[j - 1].now] else earlier
  }

  /** The failures since state `i` that stand behind the state in memory and behind the saved one, with
      the retry states between them, and how many failures panel restarts have not found. */
  datatype Track = Track(
    times: seq<int>, before: seq<Retry>, savedTimes: seq<int>, savedBefore: seq<Retry>, notFound: nat)

  function Tracked(t: Track, c: Coord, op: Op, kind: Kind): (r: Track) {
    if op.Reload? then
      var missing := if |t.savedTimes| < |t.times| then |t.times| - |t.savedTimes| else 0;
      Track(t.savedTimes, t.savedBefore, t.savedTimes, t.savedBefore, t.notFound + missing)
    else
      var grown := if FailsOn(c, op, kind)
        then t.(times := t.times + [op.now], before := t.before + [Of(Next(c, op), kind).retry]) else t;
      if Saves(c, op) then grown.(savedTimes := grown.times, savedBefore := grown.before) else grown
  }

  ghost function TrackAt(states: seq<Coord>, ops: seq<Op>, kind: Kind, i: nat, j: nat): (t: Track)
    requires IsHistory(states, ops) && i <= j <= |ops|
    decreases j
  {
    if i == j then Track([], [Of(states[i], kind).retry], [], [SavedOf(states[i], kind).retry], 0)
    else Tracked(TrackAt(states, ops, kind, i, j - 1), states[j - 1], ops[j - 1], kind)
  }

  /** Both are failures of the retry policy, those behind the saved state are a prefix of those behind
      the one in memory, and the states are the ones they lead to. */
  ghost predicate TrackOk(t: Track, c: Coord, kind: Kind) {
    && Failures(t.times, t.before) && t.before[|t.times|] == Of(c, kind).retry
    && Failures(t.savedTimes, t.savedBefore) && t.savedBefore[|t.savedTimes|] == SavedOf(c, kind).retry
    && Reached(t.before[0]) && Reached(t.savedBefore[0])
    && |t.savedTimes| <= |t.times| && t.savedTimes == t.times[..|t.savedTimes|]
  }

  lemma PendingStep(c: Coord, op: Op, kind: Kind)
    requires Of(c, kind).pending && Of(Next(c, op), kind).pending
    ensures Of(Next(c, op), kind).retry ==
      if op.Reload? then SavedOf(c, kind).retry
      else if FailsOn(c, op, kind) then AfterFailure(Of(c, kind).retry.phase, Of(c, kind).retry.count, op.now)
      else Of(c, kind).retry
  {
  }

  /** The failures `all` are those behind the state in memory and those not found. */
  ghost predicate Accounts(t: Track, all: seq<int>) {
    && |all| == |t.times| + t.notFound
    && (forall x :: x in t.times ==> x in all)
    && (t.notFound == 0 ==> t.times == all)
  }

  lemma TrackStep(t: Track, c: Coord, op: Op, kind: Kind, all: seq<int>)
    requires TrackOk(t, c, kind) && Accounts(t, all) && Of(c, kind).pending && Of(Next(c, op), kind).pending
    ensures TrackOk(Tracked(t, c, op, kind), Next(c, op), kind)
    ensures Accounts(Tracked(t, c, op, kind), if FailsOn(c, op, kind) then all + [op.now] else all)
  {
    PendingStep(c, op, kind);
    SettingAfter(c, op, kind);
    if FailsOn(c, op, kind) {
      FailuresGrow(t.times, t.before, op.now, Of(Next(c, op), kind).retry);
    }
  }

  /** Failures lead to no other states, in memory or on disk. */
  lemma {:induction false} AlwaysReached(states: seq<Coord>, ops: seq<Op>, kind: Kind, i: nat)
    requires IsHistory(states, ops) && i <= |ops|
    ensures Reached(Of(states[i], kind).retry) && Reached(SavedOf(states[i], kind).retry)
  {
    if i > 0 {
      AlwaysReached(states, ops, kind, i - 1);
      assert states[i] == Next(states[i - 1], ops[i - 1]);
      SettingAfter(states[i - 1], ops[i - 1], kind);
    }
  }

  /** In every history: each failed attempt while a restart is pending stands behind the state in
      memory, or a panel restart has not found it; and those that stand behind it are failures of the
      retry policy, all of them if every panel restart has found them. */
  lemma {:induction false} FailuresAccounted(states: seq<Coord>, ops: seq<Op>, kind: Kind, i: nat, j: nat)
    requires IsHistory(states, ops) && j <= |ops| && PendingFrom(states, kind, i, j)
    ensures TrackOk(TrackAt(states, ops, kind, i, j), states[j], kind)
    ensures Accounts(TrackAt(states, ops, kind, i, j), FailureTimes(states, ops, kind, i, j))
    decreases j
  {
    if i == j {
      AlwaysReached(states, ops, kind, i);
    } else {
      var k := j - 1;
      FailuresAccounted(states, ops, kind, i, k);
      assert states[j] == Next(states[k], ops[k]);
      TrackStep(TrackAt(states, ops, kind, i, k), states[k], ops[k], kind, FailureTimes(states, ops, kind, i, k));
    }
  }

  /** The retry bound of the Core restart, over all histories: within any `span` seconds at most
      4 + span / 21600 attempts fail, and those that a panel restart has not found. */
  lemma RestartBound(states: seq<Coord>, ops: seq<Op>, kind: Kind, i: nat, j: nat, start: int, span: nat)
    requires IsHistory(states, ops) && j <= |ops| && PendingFrom(states, kind, i, j)
    requires forall x :: x in FailureTimes(states, ops, kind, i, j) ==> start <= x <= start + span
    ensures |FailureTimes(states, ops, kind, i, j)| <=
      4 + span / PERIODIC_INTERVAL + TrackAt(states, ops, kind, i, j).notFound
  {
    FailuresAccounted(states, ops, kind, i, j);
    var t := TrackAt(states, ops, kind, i, j);
    BoundWithin(t.times, t.before, start, span);
  }

  /** The operation's write, or the read of a panel restart, succeeds. */
  predicate Succeeds(op: Op) { if op.Reload? then op.readOk else op.saved }

  /** Where writes and reads succeed, panel restarts find what was in memory, and every failure. */
  lemma {:induction false} SavedIsFound(states: seq<Coord>, ops: seq<Op>, i: nat)
    requires IsHistory(states, ops) && i <= |ops| && forall k :: 0 <= k < i ==> Succeeds(ops[k])
    ensures states[i].savedSingbox == states[i].singbox && states[i].savedMihomo == states[i].mihomo
  {
    if i > 0 {
      SavedIsFound(states, ops, i - 1);
      assert states[i] == Next(states[i - 1], ops[i - 1]);
    }
  }

  const QUEUED: Coord := Next(START, Queueing(Singbox, 1, NoBatch, true))

  const UNSAVED_FAILURE: Op := Processing(Singbox, 5000, false, true, false, false)

  lemma UnsavedFailureReturns()
    ensures FailsOn(QUEUED, UNSAVED_FAILURE, Singbox) && Of(Next(QUEUED, UNSAVED_FAILURE), Singbox).pending
    ensures Next(Next(QUEUED, UNSAVED_FAILURE), Reload(true)) == QUEUED
  {
  }

  /** Without those the bound does not hold: a failure that is not saved before a panel restart is
      forgotten, so any number of attempts can fail at one instant while the restart stays pending. */
  lemma {:induction false} LostFailuresRepeat(n: nat) returns (states: seq<Coord>, ops: seq<Op>)
    ensures IsHistory(states, ops) && |ops| == 1 + 2 * n && states[|ops|] == QUEUED
    ensures PendingFrom(states, Singbox, 1, |ops|)
    ensures forall k :: 0 <= k < n ==>
      ops[2 * k + 1] == UNSAVED_FAILURE && FailsOn(states[2 * k + 1], ops[2 * k + 1], Singbox)
  {
    if n == 0 {
      ops := [Queueing(Singbox, 1, NoBatch, true)];
      states := [START, QUEUED];
    } else {
      var s, o := LostFailuresRepeat(n - 1);
      UnsavedFailureReturns();
      ops := o + [UNSAVED_FAILURE, Reload(true)];
      states := s + [Next(QUEUED, UNSAVED_FAILURE), QUEUED];
      forall i | 0 <= i < |ops| ensures states[i + 1] == Next(states[i], ops[i]) {
        if i < |o| {
          assert states[i + 1] == s[i + 1] && states[i] == s[i] && ops[i] == o[i];
        }
      }
      forall k | 0 <= k < n
        ensures ops[2 * k + 1] == UNSAVED_FAILURE && FailsOn(states[2 * k + 1], ops[2 * k + 1], Singbox)
      {
        if k < n - 1 {
          assert ops[2 * k + 1] == o[2 * k + 1] && states[2 * k + 1] == s[2 * k + 1];
        }
      }
    }
  }

  // ---------------------------------------------------------------------------------------
  // The coordinator object
  // ---------------------------------------------------------------------------------------

  class Coordinator {
    var singbox: RestartState
    var mihomo: RestartState
    var savedSingbox: RestartState
    var savedMihomo: RestartState

    constructor ()
      ensures Value() == START
    {
      singbox, mihomo, savedSingbox, savedMihomo := CLEARED, CLEARED, CLEARED, CLEARED;
    }

    function Value(): (c: Coord)
      reads this
    {
      Coord(singbox, mihomo, savedSingbox, savedMihomo)
    }

    /** persistLocked. */
    method Persist(ok: bool)
      modifies this`savedSingbox, this`savedMihomo
      ensures Value() == if ok then Coord(singbox, mihomo, singbox, mihomo) else old(Value())
    {
      if ok { savedSingbox, savedMihomo := singbox, mihomo; }
    }

    /** queueCertificateCoreRestart. */
    method Queue(kind: Kind, now: int, batch: BatchWindow, saved: bool) returns (ok: bool)
      modifies this
      ensures Value() == Next(old(Value()), Queueing(kind, now, batch, saved)) && ok == saved
    {
      var windowStartedAt, windowEndsAt := now, now + BATCH_DURATION;
      if batch.Batch? {
        windowStartedAt, windowEndsAt := batch.startedAt, batch.endsAt;
      }
      var st := Of(Value(), kind);
      if !st.pending {
        st := st.(pending := true, windowStartedAt := windowStartedAt, windowEndsAt := windowEndsAt,
                  retry := Retry(Fresh, 0, 0));
      }
      st := st.(generation := st.generation + 1);
      if kind.Singbox? { singbox := st; } else { mihomo := st; }
      Persist(saved);
      ok := saved;
    }

    /** recordCertificateCoreRestartFailure makes exactly the transition of a failed renewal. */
    method RecordFailure(kind: Kind, now: int, saved: bool) returns (ok: bool)
      modifies this
      ensures Value() ==
        if old(Of(Value(), kind)).pending then Written(old(Value()), kind, Failed(old(Of(Value(), kind)), now), saved)
        else old(Value())
      ensures ok <==> !old(Of(Value(), kind)).pending || saved
    {
      var st := Of(Value(), kind);
      ok := true;
      if !st.pending { return; }
      var phase, count, next := st.retry.phase, st.retry.count, st.retry.nextAt;
      match phase {
        case Rapid =>
          count := count + 1;
          if count >= RAPID_LIMIT {
            phase, count, next := Periodic, RAPID_LIMIT, now + PERIODIC_INTERVAL;
          } else {
            next := now + RAPID_INTERVAL;
          }
        case Periodic =>
          count, next := RAPID_LIMIT, now + PERIODIC_INTERVAL;
        case _ =>
          phase, count, next := Rapid, 0, now + RAPID_INTERVAL;
      }
      st := st.(retry := Retry(phase, count, next));
      if kind.Singbox? { singbox := st; } else { mihomo := st; }
      Persist(saved);
      ok := saved;
    }

    /** clearCertificateCoreRestartState. */
    method Clear(kind: Kind, saved: bool)
      modifies this
      ensures Value() == Next(old(Value()), ConfigLoaded(kind, saved))
    {
      if Of(Value(), kind).pending {
        if kind.Singbox? { singbox := CLEARED; } else { mihomo := CLEARED; }
        Persist(saved);
      }
    }

    /** processCertificateCoreRestart. */
    method Process(kind: Kind, now: int, mustWait: bool, running: bool, restartOk: bool, saved: bool)
      returns (attempted: bool)
      modifies this
      ensures Value() == Next(old(Value()), Processing(kind, now, mustWait, running, restartOk, saved))
      ensures attempted <==> Attempts(old(Value()), Processing(kind, now, mustWait, running, restartOk, saved))
    {
      attempted := false;
      var st := Of(Value(), kind);
      if !st.pending { return; }
      var dueAt := st.windowEndsAt;
      if !st.retry.phase.Fresh? { dueAt := st.retry.nextAt; }
      if dueAt <= 0 || now < dueAt { return; }
      if mustWait { return; }
      if !running {
        Clear(kind, saved);
        return;
      }
      attempted := true;
      if restartOk {
        Clear(kind, saved);
      } else {
        var _ := RecordFailure(kind, now, saved);
      }
    }

    /** The first use after a panel restart: loadLocked. */
    method Load(readOk: bool)
      modifies this
      ensures Value() == Next(old(Value()), Reload(readOk))
    {
      singbox, mihomo := CLEARED, CLEARED;
      if readOk {
        singbox, mihomo := savedSingbox, savedMihomo;
      }
    }
  }
}
