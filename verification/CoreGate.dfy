/** The certificate/Core config gate. Certificate syncs (regenerate a config, then queue a restart),
    queued restarts and Core starts each hold the gate from their first to their last step; a Core
    may stop, other code may regenerate a config and the panel may restart at any moment. Every
    step of a gate section is an action of its own, so all interleavings are covered. A recovery
    start does not take the gate; it only holds the lifecycle lock, which excludes other starts and
    restarts but no sync.

    Configs carry a version that grows with each regeneration. `wanted` is the newest version that a
    certificate sync found it had to bring live: it was queued, or the Core was down and the next
    start has to load it. */
module CoreGate {
  import opened RetryPolicy
  import opened CoreRestart

  datatype Core = Stopped | Running(loaded: nat)

  datatype Side = Side(
    config: nat,            // version of the config on disk
    core: Core,
    memory: RestartState,   // the coordinator's state
    saved: RestartState,    // the setting it was last saved to
    wanted: nat)            // history

  datatype Gate =
    | Free
    | Syncing(kind: Kind)
    | Regenerated(kind: Kind, version: nat)
    | SawRunning(kind: Kind, version: nat)
    | Synced(kind: Kind)
    | RestartGranted(kind: Kind)          // still due, about to look whether the Core runs
    | RestartLoading(kind: Kind)          // about to restart
    | ClearingStopped(kind: Kind)
    | Starting(kind: Kind)
    | Loaded(kind: Kind, version: nat)    // the starting Core has read its config
    | ClearingStarted(kind: Kind)

  /** A recovery start: it has read a config, or its Core is up and its clear is still to come.
      `overtaken` is history: a sync published a newer config since it read its own. */
  datatype Bypass =
    | NoBypass
    | Reading(kind: Kind, version: nat, overtaken: bool)
    | CameUp(kind: Kind, version: nat, overtaken: bool)

  datatype State = State(gate: Gate, bypass: Bypass, singbox: Side, mihomo: Side)

  function On(s: State, kind: Kind): (side: Side) {
    if kind.Singbox? then s.singbox else s.mihomo
  }

  function Put(s: State, kind: Kind, side: Side): (r: State) {
    if kind.Singbox? then s.(singbox := side) else s.(mihomo := side)
  }

  /** Saving writes both states. */
  function Save(s: State, ok: bool): (r: State) {
    if !ok then s
    else s.(singbox := s.singbox.(saved := s.singbox.memory), mihomo := s.mihomo.(saved := s.mihomo.memory))
  }

  /** clearCertificateCoreRestartState: nothing happens unless a restart is pending. */
  function Clear(s: State, kind: Kind, saved: bool): (r: State) {
    if On(s, kind).memory.pending then Save(Put(s, kind, On(s, kind).(memory := CLEARED)), saved) else s
  }

  /** A sync makes `version` the one to bring live. */
  function Publish(s: State, kind: Kind, version: nat): (r: State) {
    var told := Put(s, kind, On(s, kind).(wanted := version));
    if !s.bypass.NoBypass? && s.bypass.kind == kind && s.bypass.version < version
    then told.(bypass := s.bypass.(overtaken := true))
    else told
  }

  datatype Action =
    // a certificate sync, for one Core and then possibly for the other
    | BeginSync(kind: Kind)
    | Regenerate(ok: bool)
    | CheckRunning(clientsOk: bool)
    | Queue(present: bool, now: int, batch: BatchWindow, saved: bool)
    | NextSync(more: bool)
    // a queued restart
    | GrantRestart(kind: Kind, now: int)
    | LookRunning
    | Restart(ok: bool, after: Core, now: int, saved: bool)
    | ClearStopped(saved: bool)
    // a manual or automatic start, and the tail of a successful restart
    | BeginStart(kind: Kind)
    | Load(ok: bool)
    | ComeUp
    | ClearStarted(saved: bool)
    // the rest of the world
    | StopCore(kind: Kind)
    | RegenerateElsewhere(kind: Kind)
    | RestartPanel(readOk: bool)
    // a recovery start
    | BypassLoad(kind: Kind)
    | BypassFail
    | BypassUp
    | BypassClear(saved: bool)

  predicate CanAct(s: State, a: Action) {
    match a
    case BeginSync(_) => s.gate.Free?
    case Regenerate(_) => s.gate.Syncing?
    case CheckRunning(_) => s.gate.Regenerated?
    case Queue(_, _, _, _) => s.gate.SawRunning?
    case NextSync(_) => s.gate.Synced?
    case GrantRestart(kind, now) =>
      s.gate.Free? && On(s, kind).memory.pending && 0 < DueAt(On(s, kind).memory) <= now
    case LookRunning => s.gate.RestartGranted?
    case Restart(ok, after, _, _) =>
      // a failed restart leaves the Core down, as it was, or up with what it managed to load; while a
      // recovery start holds the lifecycle lock it does nothing
      s.gate.RestartLoading? &&
      (after.Stopped? || after == On(s, s.gate.kind).core ||
       (s.bypass.NoBypass? && after == Running(On(s, s.gate.kind).config))) &&
      (ok ==> s.bypass.NoBypass? && after == Running(On(s, s.gate.kind).config))
    case ClearStopped(_) => s.gate.ClearingStopped?
    case BeginStart(_) => s.gate.Free?
    case Load(ok) => s.gate.Starting? && (ok ==> s.bypass.NoBypass?)
    case ComeUp => s.gate.Loaded?
    case ClearStarted(_) => s.gate.ClearingStarted?
    case StopCore(_) => true
    case RegenerateElsewhere(_) => true
    case RestartPanel(_) => true
    case BypassLoad(kind) => s.bypass.NoBypass? && !s.gate.Loaded? && On(s, kind).core.Stopped?
    case BypassFail => s.bypass.Reading?
    case BypassUp => s.bypass.Reading?
    case BypassClear(_) => s.bypass.CameUp?
  }

  function Act(s: State, a: Action): (r: State)
    requires CanAct(s, a)
  {
    match a
    case BeginSync(kind) => s.(gate := Syncing(kind))
    case Regenerate(ok) =>
      var side := On(s, s.gate.kind);
      var version := side.config + 1;
      if ok then Put(s, s.gate.kind, side.(config := version)).(gate := Regenerated(s.gate.kind, version))
      else s.(gate := Free)
    case CheckRunning(clientsOk) =>
      var side := On(s, s.gate.kind);
      if !clientsOk then s.(gate := Free)
      else if side.core.Running? then s.(gate := SawRunning(s.gate.kind, s.gate.version))
      else Publish(s, s.gate.kind, s.gate.version).(gate := Synced(s.gate.kind))
    case Queue(present, now, batch, saved) =>
      var side := On(s, s.gate.kind);
      if !present then s.(gate := Synced(s.gate.kind))
      else
        var queued := Put(s, s.gate.kind, side.(memory := AfterQueue(side.memory, now, batch)));
        Save(Publish(queued, s.gate.kind, s.gate.version), saved).(gate := if saved then Synced(s.gate.kind) else Free)
    case NextSync(more) => s.(gate := if more && s.gate.kind.Singbox? then Syncing(Mihomo) else Free)
    case GrantRestart(kind, _) => s.(gate := RestartGranted(kind))
    case LookRunning =>
      s.(gate := if On(s, s.gate.kind).core.Running? then RestartLoading(s.gate.kind) else ClearingStopped(s.gate.kind))
    case Restart(ok, after, now, saved) =>
      var side := On(s, s.gate.kind);
      if ok then Put(s, s.gate.kind, side.(core := after)).(gate := ClearingStarted(s.gate.kind))
      else if !side.memory.pending then Put(s, s.gate.kind, side.(core := after)).(gate := Free)
      else
        var retry := AfterFailure(side.memory.retry.phase, side.memory.retry.count, now);
        Save(Put(s, s.gate.kind, side.(core := after, memory := side.memory.(retry := retry))), saved).(gate := Free)
    case ClearStopped(saved) => Clear(s, s.gate.kind, saved).(gate := Free)
    case BeginStart(kind) => s.(gate := Starting(kind))
    case Load(ok) => s.(gate := if ok then Loaded(s.gate.kind, On(s, s.gate.kind).config) else Free)
    case ComeUp =>
      var side := On(s, s.gate.kind);
      Put(s, s.gate.kind, side.(core := Running(s.gate.version))).(gate := ClearingStarted(s.gate.kind))
    case ClearStarted(saved) => Clear(s, s.gate.kind, saved).(gate := Free)
    case StopCore(kind) => Put(s, kind, On(s, kind).(core := Stopped))
    case RegenerateElsewhere(kind) => Put(s, kind, On(s, kind).(config := On(s, kind).config + 1))
    case RestartPanel(readOk) =>
      State(Free, NoBypass,
            s.singbox.(memory := if readOk then s.singbox.saved else CLEARED),
            s.mihomo.(memory := if readOk then s.mihomo.saved else CLEARED))
    case BypassLoad(kind) => s.(bypass := Reading(kind, On(s, kind).config, false))
    case BypassFail => s.(bypass := NoBypass)
    case BypassUp =>
      var k := s.bypass.kind;
      var up := CameUp(k, s.bypass.version, s.bypass.overtaken);
      Put(s, k, On(s, k).(core := Running(s.bypass.version))).(bypass := up)
    case BypassClear(saved) => Clear(s, s.bypass.kind, saved).(bypass := NoBypass)
  }

  const FRESH_SIDE: Side := Side(0, Stopped, CLEARED, CLEARED, 0)
  const INIT: State := State(Free, NoBypass, FRESH_SIDE, FRESH_SIDE)

  /** What must never be violated: a running Core that no restart is pending for has loaded every
      certificate update that was to be brought live. */
  predicate UpToDate(side: Side) {
    side.core.Running? && !side.memory.pending ==> side.core.loaded >= side.wanted
  }

  /** A recovery start of this Core is under way. */
  predicate Recovering(s: State, kind: Kind) { !s.bypass.NoBypass? && s.bypass.kind == kind }

  predicate Overtaken(s: State, kind: Kind) { Recovering(s, kind) && s.bypass.overtaken }

  predicate Busy(s: State, kind: Kind) { !s.gate.Free? && s.gate.kind == kind }

  /** True in every state of every run, whatever is lost. */
  predicate BaseInv(s: State, kind: Kind) {
    var side := On(s, kind);
    && side.config >= side.wanted
    && (Busy(s, kind) && (s.gate.Regenerated? || s.gate.SawRunning? || s.gate.Loaded?) ==>
          side.wanted <= s.gate.version <= side.config)
    && (s.gate.Loaded? ==> s.bypass.NoBypass?)
    && (Recovering(s, kind) ==>
          && s.bypass.version <= side.config
          && (s.bypass.overtaken <==> side.wanted > s.bypass.version)
          && (s.bypass.Reading? ==> side.core.Stopped?)
          && (side.core.Running? ==> side.core.loaded == s.bypass.version))
  }

  /** True as long as nothing has been lost. */
  predicate GateInv(s: State, kind: Kind) {
    var side := On(s, kind);
    && BaseInv(s, kind) && UpToDate(side)
    && (Busy(s, kind) && s.gate.ClearingStopped? && side.core.Running? ==>
          side.core.loaded >= side.wanted || Overtaken(s, kind))
    && (Busy(s, kind) && s.gate.ClearingStarted? ==>
          !Overtaken(s, kind) && (side.core.Running? ==> side.core.loaded >= side.wanted))
  }

  /** The four ways to lose an update of this Core: a recovery start that a sync has overtaken comes
      up with no restart pending, or clears the pending restart that sync relies on; a queued restart
      found the Core stopped and clears it although such a start has come up since; or the panel
      restarts while the pending restart of an outdated Core is not in the saved setting, or cannot
      read it. */
  predicate Loses(s: State, a: Action, kind: Kind)
    requires CanAct(s, a)
  {
    var side := On(s, kind);
    match a
    case BypassUp => Overtaken(s, kind) && !side.memory.pending
    case BypassClear(_) => Overtaken(s, kind) && side.core.Running?
    case ClearStopped(_) => Busy(s, kind) && Overtaken(s, kind) && side.core.Running?
    case RestartPanel(readOk) =>
      side.memory.pending && !(readOk && side.saved.pending) && side.core.Running? && side.core.loaded < side.wanted
    case _ => false
  }

  predicate SyncStep(a: Action) {
    a.BeginSync? || a.Regenerate? || a.CheckRunning? || a.Queue? || a.NextSync?
  }

  predicate RestartStep(a: Action) {
    a.GrantRestart? || a.LookRunning? || a.Restart? || a.ClearStopped?
  }

  lemma BaseSyncStep(s: State, a: Action, kind: Kind)
    requires BaseInv(s, kind) && CanAct(s, a) && SyncStep(a)
    ensures BaseInv(Act(s, a), kind)
  {
  }

  lemma BaseRestartStep(s: State, a: Action, kind: Kind)
    requires BaseInv(s, kind) && CanAct(s, a) && RestartStep(a)
    ensures BaseInv(Act(s, a), kind)
  {
  }

  lemma BaseStep(s: State, a: Action, kind: Kind)
    requires BaseInv(s, kind) && CanAct(s, a)
    ensures BaseInv(Act(s, a), kind)
  {
    if SyncStep(a) {
      BaseSyncStep(s, a, kind);
    } else if RestartStep(a) {
      BaseRestartStep(s, a, kind);
    }
  }

  lemma GateSyncStep(s: State, a: Action, kind: Kind)
    requires GateInv(s, kind) && CanAct(s, a) && SyncStep(a)
    ensures GateInv(Act(s, a), kind)
  {
    BaseSyncStep(s, a, kind);
  }

  lemma GateRestartStep(s: State, a: Action, kind: Kind)
    requires GateInv(s, kind) && CanAct(s, a) && RestartStep(a) && !Loses(s, a, kind)
    ensures GateInv(Act(s, a), kind)
  {
    BaseRestartStep(s, a, kind);
  }

  /** A step that loses nothing keeps the Core up to date. */
  lemma GateStep(s: State, a: Action, kind: Kind)
    requires GateInv(s, kind) && CanAct(s, a) && !Loses(s, a, kind)
    ensures GateInv(Act(s, a), kind)
  {
    if SyncStep(a) {
      GateSyncStep(s, a, kind);
    } else if RestartStep(a) {
      GateRestartStep(s, a, kind);
    } else {
      BaseStep(s, a, kind);
    }
  }

  /** A step that loses an update leaves a running Core outdated with no restart pending. */
  lemma LossStep(s: State, a: Action, kind: Kind)
    requires BaseInv(s, kind) && CanAct(s, a) && Loses(s, a, kind)
    ensures !UpToDate(On(Act(s, a), kind))
  {
  }

  ghost predicate IsRun(states: seq<State>, actions: seq<Action>) {
    && |states| == |actions| + 1
    && states[0] == INIT
    && forall i :: 0 <= i < |actions| ==> CanAct(states[i], actions[i]) && states[i + 1] == Act(states[i], actions[i])
  }

  lemma {:induction false} BaseAt(states: seq<State>, actions: seq<Action>, kind: Kind, i: nat)
    requires IsRun(states, actions) && i <= |actions|
    ensures BaseInv(states[i], kind)
  {
    if i > 0 {
      BaseAt(states, actions, kind, i - 1);
      BaseStep(states[i - 1], actions[i - 1], kind);
    }
  }

  /** The first `i` steps of a run lose no update of this Core. */
  ghost predicate Lossless(states: seq<State>, actions: seq<Action>, kind: Kind, i: nat)
    requires IsRun(states, actions) && i <= |actions|
  {
    forall j :: 0 <= j < i ==> !Loses(states[j], actions[j], kind)
  }

  lemma {:induction false} LosslessInvariant(states: seq<State>, actions: seq<Action>, kind: Kind, i: nat)
    requires IsRun(states, actions) && i <= |actions| && Lossless(states, actions, kind, i)
    ensures GateInv(states[i], kind)
  {
    if i > 0 {
      LosslessInvariant(states, actions, kind, i - 1);
      GateStep(states[i - 1], actions[i - 1], kind);
    }
  }

  /** In every run: no certificate update is lost in any state up to `i`, if and only if none of the
      four losing steps has been taken. */
  lemma NoLostUpdateExactly(states: seq<State>, actions: seq<Action>, kind: Kind, i: nat)
    requires IsRun(states, actions) && i <= |actions|
    ensures (forall j :: 0 <= j <= i ==> UpToDate(On(states[j], kind))) <==> Lossless(states, actions, kind, i)
  {
    if Lossless(states, actions, kind, i) {
      forall j | 0 <= j <= i ensures UpToDate(On(states[j], kind)) {
        LosslessInvariant(states, actions, kind, j);
      }
    } else {
      var j :| 0 <= j < i && Loses(states[j], actions[j], kind);
      BaseAt(states, actions, kind, j);
      LossStep(states[j], actions[j], kind);
      assert states[j + 1] == Act(states[j], actions[j]);
    }
  }

  /** A sync of this Core makes its config the one to bring live: it found the Core stopped, or queued
      a restart. */
  predicate Publishes(s: State, a: Action, kind: Kind) {
    && Busy(s, kind)
    && ((a.CheckRunning? && s.gate.Regenerated? && a.clientsOk && On(s, kind).core.Stopped?)
        || (a.Queue? && s.gate.SawRunning? && a.present))
  }

  /** The recovery start that read its config at step `l` is under way in all states up to `i`. */
  ghost predicate UnderWay(states: seq<State>, actions: seq<Action>, kind: Kind, l: nat, i: nat)
    requires IsRun(states, actions)
  {
    && l < i <= |actions| && actions[l] == BypassLoad(kind)
    && forall j :: l < j <= i ==> Recovering(states[j], kind)
  }

  /** At step `p`, after step `l`, a sync publishes a config newer than the one on disk at step `l`:
      one that it regenerated after that step. */
  predicate PublishesNewer(states: seq<State>, actions: seq<Action>, kind: Kind, l: nat, p: nat)
    requires l < p < |states| && p < |actions|
  {
    Publishes(states[p], actions[p], kind) && states[p].gate.version > On(states[l], kind).config
  }

  lemma OvertakenStep(s: State, a: Action, kind: Kind)
    requires CanAct(s, a) && Recovering(s, kind) && Recovering(Act(s, a), kind)
    ensures Act(s, a).bypass.version == s.bypass.version
    ensures Act(s, a).bypass.overtaken <==>
      s.bypass.overtaken || (Publishes(s, a, kind) && s.gate.version > s.bypass.version)
  {
  }

  lemma OvertakenStepAt(states: seq<State>, actions: seq<Action>, kind: Kind, i: nat)
    requires IsRun(states, actions) && i < |actions|
    requires Recovering(states[i], kind) && Recovering(states[i + 1], kind)
    ensures states[i + 1].bypass.version == states[i].bypass.version
    ensures states[i + 1].bypass.overtaken <==>
      || states[i].bypass.overtaken
      || (Publishes(states[i], actions[i], kind) && states[i].gate.version > states[i].bypass.version)
  {
    OvertakenStep(states[i], actions[i], kind);
  }

  lemma LoadedAt(states: seq<State>, actions: seq<Action>, kind: Kind, l: nat)
    requires IsRun(states, actions) && l < |actions| && actions[l] == BypassLoad(kind)
    ensures states[l + 1].bypass == Reading(kind, On(states[l], kind).config, false)
  {
  }

  /** It has been overtaken if and only if a sync has published such a config since. */
  lemma {:induction false} OvertakenExactly(states: seq<State>, actions: seq<Action>, kind: Kind, l: nat, i: nat)
    requires IsRun(states, actions) && UnderWay(states, actions, kind, l, i)
    ensures states[i].bypass.version == On(states[l], kind).config
    ensures Overtaken(states[i], kind) <==> exists p :: l < p < i && PublishesNewer(states, actions, kind, l, p)
    decreases i
  {
    if l == i - 1 {
      LoadedAt(states, actions, kind, l);
    } else {
      var k := i - 1;
      OvertakenExactly(states, actions, kind, l, k);
      OvertakenStepAt(states, actions, kind, k);
      assert Overtaken(states[i], kind) <==> Overtaken(states[k], kind) || PublishesNewer(states, actions, kind, l, k);
    }
  }

  /** A recovery start that runs to its clear with its Core still up keeps that Core up to date, if and
      only if no sync that regenerated after it read its config published in between. */
  lemma RecoveryExactly(states: seq<State>, actions: seq<Action>, kind: Kind, l: nat, i: nat)
    requires IsRun(states, actions) && i < |actions| && UnderWay(states, actions, kind, l, i)
    requires actions[i].BypassClear? && On(states[i], kind).core.Running?
    ensures UpToDate(On(states[i + 1], kind)) <==> !exists p :: l < p < i && PublishesNewer(states, actions, kind, l, p)
  {
    OvertakenExactly(states, actions, kind, l, i);
    BaseAt(states, actions, kind, i);
    assert states[i + 1] == Act(states[i], actions[i]);
  }

  /** What the protocol relies on: Cores are started under the gate, and a panel restart finds every
      pending restart in the saved setting. */
  predicate Disciplined(s: State, a: Action) {
    && !a.BypassLoad?
    && (a.RestartPanel? ==>
          && (s.singbox.memory.pending ==> a.readOk && s.singbox.saved.pending)
          && (s.mihomo.memory.pending ==> a.readOk && s.mihomo.saved.pending))
  }

  ghost predicate DisciplinedRun(states: seq<State>, actions: seq<Action>) {
    && IsRun(states, actions)
    && forall i :: 0 <= i < |actions| ==> Disciplined(states[i], actions[i])
  }

  lemma {:induction false} NeverRecovering(states: seq<State>, actions: seq<Action>, i: nat)
    requires DisciplinedRun(states, actions) && i <= |actions|
    ensures states[i].bypass.NoBypass?
  {
    if i > 0 {
      NeverRecovering(states, actions, i - 1);
      assert states[i] == Act(states[i - 1], actions[i - 1]);
    }
  }

  /** No lost certificate update, in every state of every disciplined run (also while the gate is held). */
  lemma NoLostUpdate(states: seq<State>, actions: seq<Action>, kind: Kind, i: nat)
    requires DisciplinedRun(states, actions) && i <= |actions|
    ensures UpToDate(On(states[i], kind))
  {
    forall j | 0 <= j < i ensures !Loses(states[j], actions[j], kind) {
      NeverRecovering(states, actions, j);
      assert Disciplined(states[j], actions[j]);
    }
    NoLostUpdateExactly(states, actions, kind, i);
  }

  lemma ExtendRun(states: seq<State>, actions: seq<Action>, a: Action)
    returns (states': seq<State>, actions': seq<Action>)
    requires IsRun(states, actions) && CanAct(states[|actions|], a)
    ensures IsRun(states', actions')
    ensures |actions'| == |actions| + 1 && states'[|actions'|] == Act(states[|actions|], a)
  {
    states' := states + [Act(states[|actions|], a)];
    actions' := actions + [a];
  }

  /** A sync that finds the Core down while a recovery start is under way is lost. */
  lemma BypassLosesUpdate() returns (states: seq<State>, actions: seq<Action>)
    ensures IsRun(states, actions) && !UpToDate(On(states[|actions|], Singbox))
  {
    states, actions := ExtendRun([INIT], [], BypassLoad(Singbox));
    states, actions := ExtendRun(states, actions, BeginSync(Singbox));
    states, actions := ExtendRun(states, actions, Regenerate(true));
    states, actions := ExtendRun(states, actions, CheckRunning(true));
    states, actions := ExtendRun(states, actions, NextSync(false));
    states, actions := ExtendRun(states, actions, BypassUp);
  }

  lemma RecoveredRun() returns (states: seq<State>, actions: seq<Action>)
    ensures IsRun(states, actions)
    ensures states[|actions|] == State(Free, CameUp(Singbox, 0, false), FRESH_SIDE.(core := Running(0)), FRESH_SIDE)
  {
    states, actions := ExtendRun([INIT], [], BypassLoad(Singbox));
    states, actions := ExtendRun(states, actions, BypassUp);
  }

  /** A sync that queues its restart between the recovered Core's coming up and its clear is lost. */
  lemma QueuedRestartIsCleared() returns (states: seq<State>, actions: seq<Action>)
    ensures IsRun(states, actions) && !UpToDate(On(states[|actions|], Singbox))
  {
    states, actions := RecoveredRun();
    states, actions := ExtendRun(states, actions, BeginSync(Singbox));
    states, actions := ExtendRun(states, actions, Regenerate(true));
    states, actions := ExtendRun(states, actions, CheckRunning(true));
    states, actions := ExtendRun(states, actions, Queue(true, 1, NoBatch, true));
    states, actions := ExtendRun(states, actions, BypassClear(true));
  }

  lemma StartedRun() returns (states: seq<State>, actions: seq<Action>)
    ensures IsRun(states, actions) && states[|actions|].gate.Free?
    ensures On(states[|actions|], Singbox) == FRESH_SIDE.(core := Running(0))
  {
    states, actions := ExtendRun([INIT], [], BeginStart(Singbox));
    states, actions := ExtendRun(states, actions, Load(true));
    states, actions := ExtendRun(states, actions, ComeUp);
    states, actions := ExtendRun(states, actions, ClearStarted(true));
  }

  /** A queued restart whose save failed does not survive a panel restart. */
  lemma UnsavedQueueIsLost() returns (states: seq<State>, actions: seq<Action>)
    ensures IsRun(states, actions) && !UpToDate(On(states[|actions|], Singbox))
  {
    states, actions := StartedRun();
    states, actions := ExtendRun(states, actions, BeginSync(Singbox));
    states, actions := ExtendRun(states, actions, Regenerate(true));
    states, actions := ExtendRun(states, actions, CheckRunning(true));
    states, actions := ExtendRun(states, actions, Queue(true, 1, NoBatch, false));
    states, actions := ExtendRun(states, actions, RestartPanel(true));
  }
}
