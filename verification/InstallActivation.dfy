/** Activation of a staged acme.sh install: the managed entries of the target directory are moved to
    a backup workspace, the staged ones moved in, and a failure is rolled back. Any rename, removal,
    directory creation or existence probe may fail. */
module InstallActivation {
  import opened Collections

  /** A directory entry. The nine managed names are the numbers below nine, in the order in which
      their listing is sorted: account.conf, acme.sh, ca, ca.conf, deploy, dnsapi, http.header,
      http.header.bak, notify. */
  type Name = nat
  type Content = nat
  type Dir = map<Name, Content>

  const MANAGED: nat := 9
  const SCRIPT: Name := 1

  /** Which operations fail. An existence probe that fails reads as absence; a removal that fails
      may leave anything behind. */
  datatype Faults = Faults(
    mkdir: bool, workspace: bool, recreate: bool,
    scriptProbe: bool, finalProbe: bool,
    unseenOld: set<Name>, unseenNew: set<Name>, unseenBackup: set<Name>,
    backupRename: set<Name>, moveRename: set<Name>, restoreRename: set<Name>,
    removal: set<Name>, remnant: Dir)

  datatype Outcome = Activated | Failed(rollbackFailed: bool)

  predicate SameAt(a: Dir, b: Dir, n: Name) {
    (n in a <==> n in b) && (n in a ==> a[n] == b[n])
  }

  lemma SameEverywhere(a: Dir, b: Dir)
    requires forall n: Name :: SameAt(a, b, n)
    ensures a == b
  {
    forall n: Name ensures n in a <==> n in b {
      assert SameAt(a, b, n);
    }
    assert forall n :: n in a ==> SameAt(a, b, n);
  }

  // ---------------------------------------------------------------------------------------
  // Listing and moving
  // ---------------------------------------------------------------------------------------

  /** The managed entries that exist and are seen, sorted. */
  function Listed(dir: Dir, unseen: set<Name>): (names: seq<Name>)
    ensures Ascending(names)
    ensures forall n :: n in names <==> n < MANAGED && n in dir && n !in unseen
  {
    Sorted(set n | n in dir && n < MANAGED && n !in unseen)
  }

  /** The names before the first one whose rename fails. */
  function UpTo(names: seq<Name>, failing: set<Name>): (r: seq<Name>) {
    if names == [] || names[0] in failing then [] else [names[0]] + UpTo(names[1..], failing)
  }

  lemma {:induction false} UpToIsPrefix(names: seq<Name>, failing: set<Name>)
    ensures var r := UpTo(names, failing); |r| <= |names| && r == names[..|r|]
    ensures forall n :: n in UpTo(names, failing) ==> n in names && n !in failing
    ensures UpTo(names, failing) == names <==> forall n :: n in names ==> n !in failing
  {
    if names != [] && names[0] !in failing {
      UpToIsPrefix(names[1..], failing);
    }
  }

  /** The entry `n` after the entries `moved` went from `source` to `destination`. */
  predicate MovedAt(from: Dir, to: Dir, source: Dir, destination: Dir, moved: seq<Name>, n: Name) {
    if n in moved then n !in from && n in source && n in to && to[n] == source[n]
    else SameAt(from, source, n) && SameAt(to, destination, n)
  }

  ghost predicate Moved(from: Dir, to: Dir, source: Dir, destination: Dir, moved: seq<Name>) {
    forall n: Name :: MovedAt(from, to, source, destination, moved, n)
  }

  lemma MoveOne(from: Dir, to: Dir, source: Dir, destination: Dir, moved: seq<Name>, name: Name)
    requires Moved(from, to, source, destination, moved) && name in source && name !in moved
    ensures name in from
    ensures Moved(from - {name}, to[name := from[name]], source, destination, moved + [name])
  {
    assert MovedAt(from, to, source, destination, moved, name);
    var less, more, done := from - {name}, to[name := from[name]], moved + [name];
    forall n: Name ensures MovedAt(less, more, source, destination, done, n) {
      assert MovedAt(from, to, source, destination, moved, n);
    }
  }

  lemma NextIsNew(names: seq<Name>, k: nat)
    requires Ascending(names) && k < |names|
    ensures names[k] !in names[..k]
  {
  }

  /** One of the two rename loops: it stops at the first failure. */
  method MoveEntries(source: Dir, destination: Dir, names: seq<Name>, failing: set<Name>)
    returns (from: Dir, to: Dir, moved: seq<Name>)
    requires Ascending(names) && forall n :: n in names ==> n in source
    ensures moved == UpTo(names, failing)
    ensures Moved(from, to, source, destination, moved)
  {
    from, to, moved := source, destination, [];
    ghost var rest := names;
    for k := 0 to |names|
      invariant moved == names[..k] && rest == names[k..]
      invariant UpTo(names, failing) == moved + UpTo(rest, failing)
      invariant Moved(from, to, source, destination, moved)
    {
      var name := names[k];
      if name in failing {
        return;
      }
      NextIsNew(names, k);
      MoveOne(from, to, source, destination, moved, name);
      to := to[name := from[name]];
      from := from - {name};
      moved := moved + [name];
      rest := rest[1..];
    }
  }

  // ---------------------------------------------------------------------------------------
  // Rollback
  // ---------------------------------------------------------------------------------------

  /** What a removal leaves of an entry. */
  function Removed(dir: Dir, n: Name, f: Faults): (r: Dir)
    ensures forall m: Name :: m != n ==> SameAt(r, dir, m)
    ensures n !in f.removal ==> n !in r
  {
    if n !in f.removal then dir - {n}
    else if n in f.remnant then dir[n := f.remnant[n]]
    else dir
  }

  /** The backup of `n` is found and can be moved back. */
  predicate Restorable(n: Name, f: Faults) { n !in f.restoreRename && n !in f.unseenBackup }

  method RemoveNew(target: Dir, movedNew: seq<Name>, f: Faults) returns (r: Dir, clean: bool)
    ensures clean <==> forall n :: n in movedNew ==> n !in f.removal
    ensures forall n: Name :: n !in movedNew ==> SameAt(r, target, n)
    ensures forall n :: n in movedNew && n !in f.removal ==> n !in r
  {
    r, clean := target, true;
    var i := |movedNew|;
    while i > 0
      invariant 0 <= i <= |movedNew|
      invariant clean <==> forall n :: n in movedNew[i..] ==> n !in f.removal
      invariant forall n: Name :: n !in movedNew[i..] ==> SameAt(r, target, n)
      invariant forall n :: n in movedNew[i..] && n !in f.removal ==> n !in r
    {
      i := i - 1;
      assert movedNew[i..] == [movedNew[i]] + movedNew[i + 1..];
      r := Removed(r, movedNew[i], f);
      clean := clean && movedNew[i] !in f.removal;
    }
  }

  method RestoreOld(target: Dir, backup: Dir, movedOld: seq<Name>, f: Faults) returns (r: Dir, left: Dir, clean: bool)
    requires Ascending(movedOld) && forall n :: n in movedOld ==> n in backup
    ensures clean <==> forall n :: n in movedOld && n in f.restoreRename ==> n in f.unseenBackup
    ensures forall n: Name :: n !in movedOld || !Restorable(n, f) ==> SameAt(r, target, n) && SameAt(left, backup, n)
    ensures forall n :: n in movedOld && Restorable(n, f) ==> n in r && r[n] == backup[n] && n !in left
  {
    r, left, clean := target, backup, true;
    var i := |movedOld|;
    while i > 0
      invariant 0 <= i <= |movedOld|
      invariant clean <==> forall n :: n in movedOld[i..] && n in f.restoreRename ==> n in f.unseenBackup
      invariant forall n: Name :: n !in movedOld[i..] || !Restorable(n, f) ==>
        SameAt(r, target, n) && SameAt(left, backup, n)
      invariant forall n :: n in movedOld[i..] && Restorable(n, f) ==> n in r && r[n] == backup[n] && n !in left
    {
      i := i - 1;
      var name := movedOld[i];
      assert movedOld[i..] == [name] + movedOld[i + 1..];
      assert name !in movedOld[i + 1..];
      if name !in f.unseenBackup {
        if name in f.restoreRename {
          clean := false;
        } else {
          r := r[name := left[name]];
          left := left - {name};
        }
      }
    }
  }

  /** The entry `n` after a rollback from `target`. */
  predicate RolledBackAt(
      r: Dir, target: Dir, backup: Dir, movedNew: seq<Name>, movedOld: seq<Name>, f: Faults, n: Name)
  {
    if n in movedOld && Restorable(n, f) then n in r && n in backup && r[n] == backup[n]
    else if n in movedNew then n !in f.removal ==> n !in r
    else SameAt(r, target, n)
  }

  /** Rollback: `clean` is what it reports. */
  method Rollback(target: Dir, backup: Dir, movedNew: seq<Name>, movedOld: seq<Name>, f: Faults)
    returns (r: Dir, left: Dir, clean: bool)
    requires Ascending(movedOld) && forall n :: n in movedOld ==> n in backup
    ensures clean <==> CleanRollback(movedNew, movedOld, f)
    ensures forall n: Name :: RolledBackAt(r, target, backup, movedNew, movedOld, f, n)
  {
    var removed, first := RemoveNew(target, movedNew, f);
    var second;
    r, left, second := RestoreOld(removed, backup, movedOld, f);
    clean := first && second && !f.recreate;
  }

  predicate CleanRollback(movedNew: seq<Name>, movedOld: seq<Name>, f: Faults) {
    && !f.recreate
    && (forall n :: n in movedNew ==> n !in f.removal)
    && (forall n :: n in movedOld && n in f.restoreRename ==> n in f.unseenBackup)
  }

  // ---------------------------------------------------------------------------------------
  // Activation
  // ---------------------------------------------------------------------------------------

  /** The entries moved to the backup. */
  function MovedOld(target: Dir, f: Faults): (names: seq<Name>) {
    UpTo(Listed(target, f.unseenOld), f.backupRename)
  }

  predicate BackupDone(target: Dir, f: Faults) {
    MovedOld(target, f) == Listed(target, f.unseenOld)
  }

  /** The staged entries moved into the target. */
  function MovedNew(target: Dir, stage: Dir, f: Faults): (names: seq<Name>) {
    if BackupDone(target, f) then UpTo(Listed(stage, f.unseenNew), f.moveRename) else []
  }

  /** The activation fails before it moves anything. */
  predicate Refused(stage: Dir, f: Faults) {
    SCRIPT !in stage || f.scriptProbe || f.mkdir || f.workspace
  }

  /** The script is in the target once the staged entries are there. */
  predicate ScriptIn(target: Dir, f: Faults) {
    SCRIPT !in f.unseenNew || (SCRIPT in target && SCRIPT in f.unseenOld)
  }

  /** No operation that matters fails, and something is staged. */
  predicate Succeeds(target: Dir, stage: Dir, f: Faults) {
    && !Refused(stage, f) && !f.finalProbe && ScriptIn(target, f)
    && Listed(stage, f.unseenNew) != []
    && (forall n :: n in Listed(target, f.unseenOld) ==> n !in f.backupRename)
    && (forall n :: n in Listed(stage, f.unseenNew) ==> n !in f.moveRename)
  }

  /** After a failed activation the entry is as it was before. */
  predicate Kept(n: Name, target: Dir, stage: Dir, f: Faults) {
    if n in MovedOld(target, f) then Restorable(n, f)
    else n !in MovedNew(target, stage, f) || (n !in target && n !in f.removal)
  }

  /** What a failed activation has done to the entry `n`. */
  predicate FailedAt(r: Dir, target: Dir, stage: Dir, f: Faults, n: Name) {
    if Kept(n, target, stage, f) then SameAt(r, target, n)
    else (n in MovedNew(target, stage, f) && n in f.removal) || (n in target && n !in r)
  }

  /** What a successful activation has done to the entry `n`. */
  predicate ActivatedAt(r: Dir, target: Dir, stage: Dir, f: Faults, n: Name) {
    if n >= MANAGED then SameAt(r, target, n)
    else if n in stage && n !in f.unseenNew then SameAt(r, stage, n)
    else if n in f.unseenOld then SameAt(r, target, n)
    else n !in r
  }

  /** A failed activation, entry by entry: the moves and the rollback together. */
  lemma UndoneAt(r: Dir, target: Dir, stage: Dir, emptied: Dir, backup: Dir, rest: Dir, active: Dir, f: Faults, n: Name)
    requires MovedAt(emptied, backup, target, map[], MovedOld(target, f), n)
    requires MovedAt(rest, active, stage, emptied, MovedNew(target, stage, f), n)
    requires RolledBackAt(r, active, backup, MovedNew(target, stage, f), MovedOld(target, f), f, n)
    ensures FailedAt(r, target, stage, f, n)
  {
  }

  /** A successful activation, entry by entry. */
  lemma Done(target: Dir, stage: Dir, emptied: Dir, backup: Dir, rest: Dir, active: Dir, f: Faults)
    requires Moved(emptied, backup, target, map[], Listed(target, f.unseenOld))
    requires Moved(rest, active, stage, emptied, Listed(stage, f.unseenNew))
    ensures forall n: Name :: ActivatedAt(active, target, stage, f, n)
  {
    forall n: Name ensures ActivatedAt(active, target, stage, f, n) {
      assert MovedAt(emptied, backup, target, map[], Listed(target, f.unseenOld), n);
      assert MovedAt(rest, active, stage, emptied, Listed(stage, f.unseenNew), n);
    }
  }

  /** The rollback of a failed activation, after what MovedNew and MovedOld say was moved. */
  method Undo(target: Dir, stage: Dir, emptied: Dir, backup: Dir, ghost rest: Dir, active: Dir,
              movedNew: seq<Name>, movedOld: seq<Name>, f: Faults) returns (outcome: Outcome, r: Dir)
    requires movedOld == MovedOld(target, f) && movedNew == MovedNew(target, stage, f)
    requires Moved(emptied, backup, target, map[], movedOld)
    requires Moved(rest, active, stage, emptied, movedNew)
    ensures outcome == Failed(!CleanRollback(movedNew, movedOld, f))
    ensures forall n: Name :: FailedAt(r, target, stage, f, n)
  {
    UpToIsPrefix(Listed(target, f.unseenOld), f.backupRename);
    forall n | n in movedOld ensures n in backup {
      assert MovedAt(emptied, backup, target, map[], movedOld, n);
    }
    var left, clean;
    r, left, clean := Rollback(active, backup, movedNew, movedOld, f);
    outcome := Failed(!clean);
    forall n: Name ensures FailedAt(r, target, stage, f, n) {
      UndoneAt(r, target, stage, emptied, backup, rest, active, f, n);
    }
  }

  /** The checks after the moves succeed exactly when Succeeds says so. */
  lemma ChecksExactly(target: Dir, stage: Dir, emptied: Dir, backup: Dir, rest: Dir, active: Dir, f: Faults)
    requires BackupDone(target, f) && !Refused(stage, f)
    requires Moved(emptied, backup, target, map[], MovedOld(target, f))
    requires Moved(rest, active, stage, emptied, MovedNew(target, stage, f))
    ensures Succeeds(target, stage, f) <==>
      && Listed(stage, f.unseenNew) != [] && |MovedNew(target, stage, f)| >= |Listed(stage, f.unseenNew)|
      && SCRIPT in active && !f.finalProbe
  {
    var oldNames, newNames := Listed(target, f.unseenOld), Listed(stage, f.unseenNew);
    UpToIsPrefix(oldNames, f.backupRename);
    UpToIsPrefix(newNames, f.moveRename);
    assert MovedAt(emptied, backup, target, map[], MovedOld(target, f), SCRIPT);
    assert MovedAt(rest, active, stage, emptied, MovedNew(target, stage, f), SCRIPT);
    assert SCRIPT in newNames <==> SCRIPT !in f.unseenNew;
    assert SCRIPT in oldNames <==> SCRIPT in target && SCRIPT !in f.unseenOld;
  }

  /** The second half of an activation, once the old entries are in the backup. */
  method MoveIn(target: Dir, stage: Dir, emptied: Dir, backup: Dir, movedOld: seq<Name>, f: Faults)
    returns (outcome: Outcome, r: Dir)
    requires BackupDone(target, f) && movedOld == MovedOld(target, f)
    requires Moved(emptied, backup, target, map[], movedOld) && !Refused(stage, f)
    ensures outcome.Activated? <==> Succeeds(target, stage, f)
    ensures outcome.Activated? ==> forall n: Name :: ActivatedAt(r, target, stage, f, n)
    ensures outcome.Failed? ==> outcome == Failed(!CleanRollback(MovedNew(target, stage, f), movedOld, f))
    ensures outcome.Failed? ==> forall n: Name :: FailedAt(r, target, stage, f, n)
  {
    var newNames := Listed(stage, f.unseenNew);
    if newNames == [] {
      assert !Succeeds(target, stage, f);
      outcome, r := Undo(target, stage, emptied, backup, stage, emptied, [], movedOld, f);
      return;
    }
    var rest, active, movedNew := MoveEntries(stage, emptied, newNames, f.moveRename);
    ChecksExactly(target, stage, emptied, backup, rest, active, f);
    if |movedNew| < |newNames| || SCRIPT !in active || f.finalProbe {
      outcome, r := Undo(target, stage, emptied, backup, rest, active, movedNew, movedOld, f);
      return;
    }
    UpToIsPrefix(newNames, f.moveRename);
    assert movedNew == newNames;
    Done(target, stage, emptied, backup, rest, active, f);
    return Activated, active;
  }

  /** Every activation, whatever fails: what becomes of each entry. The backup workspace is deleted
      on return, so an entry that a failed activation has not kept is lost. */
  method Activate(target: Dir, stage: Dir, f: Faults) returns (outcome: Outcome, r: Dir)
    ensures Refused(stage, f) ==> outcome == Failed(false) && r == target
    ensures outcome.Activated? <==> Succeeds(target, stage, f)
    ensures outcome.Activated? ==> forall n: Name :: ActivatedAt(r, target, stage, f, n)
    ensures outcome.Failed? && !Refused(stage, f) ==>
      outcome == Failed(!CleanRollback(MovedNew(target, stage, f), MovedOld(target, f), f))
    ensures outcome.Failed? && !Refused(stage, f) ==> forall n: Name :: FailedAt(r, target, stage, f, n)
  {
    if Refused(stage, f) {
      return Failed(false), target;
    }
    var oldNames := Listed(target, f.unseenOld);
    var emptied, backup, movedOld := MoveEntries(target, map[], oldNames, f.backupRename);
    UpToIsPrefix(oldNames, f.backupRename);
    if |movedOld| < |oldNames| {
      outcome, r := Undo(target, stage, emptied, backup, stage, emptied, [], movedOld, f);
      return;
    }
    outcome, r := MoveIn(target, stage, emptied, backup, movedOld, f);
  }

  // ---------------------------------------------------------------------------------------
  // All or nothing
  // ---------------------------------------------------------------------------------------

  /** An old entry that is still there but whose probe fails is either overwritten and then removed
      with the new entries, or left in the backup workspace. */
  predicate Overlooked(n: Name, target: Dir, stage: Dir, f: Faults) {
    || (n in target && n in f.unseenOld && n in MovedNew(target, stage, f))
    || (n in MovedOld(target, f) && n in f.unseenBackup)
  }

  /** A failed activation whose rollback reports no error leaves the target exactly as it was, if and
      only if it has overlooked nothing. */
  lemma CleanFailureExactly(r: Dir, target: Dir, stage: Dir, f: Faults)
    requires CleanRollback(MovedNew(target, stage, f), MovedOld(target, f), f)
    requires forall n: Name :: FailedAt(r, target, stage, f, n)
    ensures r == target <==> forall n: Name :: !Overlooked(n, target, stage, f)
  {
    forall n: Name ensures Kept(n, target, stage, f) <==> !Overlooked(n, target, stage, f) {
      KeptUnlessOverlooked(n, target, stage, f);
    }
    if r == target {
      forall n: Name ensures !Overlooked(n, target, stage, f) {
        assert FailedAt(r, target, stage, f, n);
      }
    }
    if forall n: Name :: !Overlooked(n, target, stage, f) {
      forall n: Name ensures SameAt(r, target, n) {
        assert FailedAt(r, target, stage, f, n);
      }
      SameEverywhere(r, target);
    }
  }

  lemma KeptUnlessOverlooked(n: Name, target: Dir, stage: Dir, f: Faults)
    requires CleanRollback(MovedNew(target, stage, f), MovedOld(target, f), f)
    ensures Kept(n, target, stage, f) <==> !Overlooked(n, target, stage, f)
  {
    UpToIsPrefix(Listed(target, f.unseenOld), f.backupRename);
    UpToIsPrefix(Listed(stage, f.unseenNew), f.moveRename);
  }

  /** Without failing probes: an activation ends with exactly the staged managed entries, or leaves
      the target exactly as it was, or reports a failed rollback. */
  method ActivateSeen(target: Dir, stage: Dir, f: Faults) returns (outcome: Outcome, r: Dir)
    requires f.unseenOld == f.unseenNew == f.unseenBackup == {}
    ensures outcome.Activated? ==> forall n: Name :: n < MANAGED ==> SameAt(r, stage, n)
    ensures outcome.Activated? ==> forall n: Name :: n >= MANAGED ==> SameAt(r, target, n)
    ensures outcome == Failed(false) ==> r == target
    ensures outcome.Activated? <==>
      && SCRIPT in stage && !f.scriptProbe && !f.mkdir && !f.workspace && !f.finalProbe
      && (forall n :: n in target && n < MANAGED ==> n !in f.backupRename)
      && (forall n :: n in stage && n < MANAGED ==> n !in f.moveRename)
  {
    outcome, r := Activate(target, stage, f);
    if outcome.Activated? {
      forall n: Name ensures if n < MANAGED then SameAt(r, stage, n) else SameAt(r, target, n) {
        assert ActivatedAt(r, target, stage, f, n);
      }
    } else if !outcome.rollbackFailed && !Refused(stage, f) {
      CleanFailureExactly(r, target, stage, f);
    }
  }

  /** The backup workspace is deleted although the rollback failed: an old script whose move back
      fails is then nowhere. */
  method ScriptLost() returns (outcome: Outcome, r: Dir)
    ensures outcome == Failed(true) && SCRIPT !in r
  {
    var target, stage := map[SCRIPT := 10, 2 := 11], map[SCRIPT := 20];
    var f := Faults(false, false, false, false, false, {}, {}, {}, {2}, {}, {SCRIPT}, {}, map[]);
    outcome, r := Activate(target, stage, f);
    ghost var names := Listed(target, f.unseenOld);
    assert 2 in names && SCRIPT in names && names[0] in names;
    assert names[0] == SCRIPT;
    UpToIsPrefix(names, f.backupRename);
    assert FailedAt(r, target, stage, f, SCRIPT);
  }
}
