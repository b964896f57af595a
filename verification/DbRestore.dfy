/** Restoring the panel database from a backup archive: a marker file announces a staged directory;
    at the next start the database directory is moved to a backup directory, the staged one takes its
    place, and once the panel runs the backup is deleted.

    A directory is absent, holds a whole database, or is damaged by a removal that did not finish.
    Every file operation may fail, a removal may stop half way, and the marker may be written only
    in part. Each method reports the atomic changes it makes to the file system, in order, so that a
    crash can be placed between any two of them (a removal passes through a damaged directory, a
    write of the marker through a garbled one). Opening a database and migrating it keep its
    identity; opening an absent one creates an empty one. */
module DbRestore {

  type Name = nat
  type Content = nat

  datatype Dir = Absent | Whole(content: Content) | Damaged

  datatype Marker = NoMarker | Garbled | Pending(stage: Name, legal: bool) | Applied(backup: Name)

  datatype Fs = Fs(db: Dir, stages: map<Name, Dir>, backups: map<Name, Dir>, marker: Marker)

  predicate InBackup(fs: Fs, o: Content) {
    exists b :: b in fs.backups && fs.backups[b] == Whole(o)
  }

  /** The database `o` is still there: active, or in some backup directory. */
  predicate Holds(fs: Fs, o: Content) {
    fs.db == Whole(o) || InBackup(fs, o)
  }

  /** os.RemoveAll: anything but Removed is reported as an error. */
  datatype Removal = Removed | Untouched | Partial

  datatype MarkerWrite = Written | NotWritten | Torn

  /** The outcome of every operation of ApplyPendingDBRestore that can fail. */
  datatype Faults = Faults(
    stageValid: bool,
    closeFails: bool,
    statDbFails: bool,
    backupRenameFails: bool,
    removeDb: Removal,
    stageRenameFails: bool,
    migrateFails: bool,
    initFails: bool,
    markerWrite: MarkerWrite,
    clearMarkerFails: bool,
    removeStage: Removal,
    statBackupFails: bool,
    rollbackRemoveDb: Removal,
    rollbackRenameFails: bool,
    rollbackInitFails: bool)

  datatype Outcome = Nothing | Success | Failure | FailureAndRollbackFailed

  // ---------------------------------------------------------------------------------------
  // Atomic changes
  // ---------------------------------------------------------------------------------------

  datatype FsOp =
    | DamageDb                     // a removal of the database directory under way
    | RemoveDb
    | CreateDb(content: Content)
    | SetAside(backup: Name)       // rename the database directory to a backup directory
    | BringBack(backup: Name)      // rename a backup directory to the database directory
    | PutInPlace(stage: Name)      // rename a staged directory to the database directory
    | DamageStage(stage: Name)
    | RemoveStage(stage: Name)
    | DamageBackup(backup: Name)
    | RemoveBackup(backup: Name)
    | AddStage(stage: Name, content: Content)
    | WriteMarker(marker: Marker)

  function Do(fs: Fs, op: FsOp): (r: Fs) {
    match op
    case DamageDb => if fs.db.Absent? then fs else fs.(db := Damaged)
    case RemoveDb => fs.(db := Absent)
    case CreateDb(content) => if fs.db.Absent? then fs.(db := Whole(content)) else fs
    case SetAside(b) => if b in fs.backups then fs else fs.(db := Absent, backups := fs.backups[b := fs.db])
    case BringBack(b) =>
      if b in fs.backups && fs.db.Absent? then fs.(db := fs.backups[b], backups := fs.backups - {b}) else fs
    case PutInPlace(s) =>
      if s in fs.stages && fs.db.Absent? then fs.(db := fs.stages[s], stages := fs.stages - {s}) else fs
    case DamageStage(s) => if s in fs.stages then fs.(stages := fs.stages[s := Damaged]) else fs
    case RemoveStage(s) => fs.(stages := fs.stages - {s})
    case DamageBackup(b) => if b in fs.backups then fs.(backups := fs.backups[b := Damaged]) else fs
    case RemoveBackup(b) => fs.(backups := fs.backups - {b})
    case AddStage(s, content) => fs.(stages := fs.stages[s := Whole(content)])
    case WriteMarker(m) => fs.(marker := m)
  }

  function After(fs: Fs, ops: seq<FsOp>): (r: Fs)
    decreases |ops|
  {
    if ops == [] then fs else After(Do(fs, ops[0]), ops[1..])
  }

  /** The database `o` is there before and after each of the changes. */
  predicate Kept(fs: Fs, ops: seq<FsOp>, o: Content)
    decreases |ops|
  {
    Holds(fs, o) && (ops == [] || Kept(Do(fs, ops[0]), ops[1..], o))
  }

  lemma OneChange(fs: Fs, op: FsOp, o: Content)
    ensures After(fs, [op]) == Do(fs, op)
    ensures Kept(fs, [op], o) <==> Holds(fs, o) && Holds(Do(fs, op), o)
  {
    assert [op][1..] == [];
  }

  lemma TwoChanges(fs: Fs, p: FsOp, q: FsOp, o: Content)
    ensures After(fs, [p, q]) == Do(Do(fs, p), q)
    ensures Kept(fs, [p, q], o) <==> Holds(fs, o) && Holds(Do(fs, p), o) && Holds(Do(Do(fs, p), q), o)
  {
    assert [p, q][1..] == [q];
    OneChange(Do(fs, p), q, o);
  }

  lemma {:induction false} Joined(fs: Fs, first: seq<FsOp>, second: seq<FsOp>, o: Content)
    ensures After(fs, first + second) == After(After(fs, first), second)
    ensures Kept(fs, first + second, o) <==> Kept(fs, first, o) && Kept(After(fs, first), second, o)
    decreases |first|
  {
    if first == [] {
      assert first + second == second;
    } else {
      assert (first + second)[1..] == first[1..] + second;
      Joined(Do(fs, first[0]), first[1..], second, o);
    }
  }

  /** The change leaves the database and the backups alone. */
  predicate Harmless(op: FsOp) {
    op.DamageStage? || op.RemoveStage? || op.AddStage? || op.WriteMarker?
  }

  lemma {:induction false} HarmlessKeeps(fs: Fs, ops: seq<FsOp>, o: Content)
    requires forall i :: 0 <= i < |ops| ==> Harmless(ops[i])
    ensures After(fs, ops).db == fs.db && After(fs, ops).backups == fs.backups
    ensures Kept(fs, ops, o) <==> Holds(fs, o)
    decreases |ops|
  {
    if ops != [] {
      HarmlessKeeps(Do(fs, ops[0]), ops[1..], o);
    }
  }

  /** What backups hold survives everything that happens to the database directory. */
  lemma DbOpKeeps(fs: Fs, op: FsOp, o: Content)
    requires InBackup(fs, o) && (op.DamageDb? || op.RemoveDb? || op.PutInPlace? || op.CreateDb?)
    ensures InBackup(Do(fs, op), o)
  {
    var b :| b in fs.backups && fs.backups[b] == Whole(o);
    assert b in Do(fs, op).backups;
  }

  lemma BringBackKeeps(fs: Fs, backup: Name, o: Content)
    requires InBackup(fs, o)
    ensures Holds(Do(fs, BringBack(backup)), o)
  {
    var b :| b in fs.backups && fs.backups[b] == Whole(o);
    if b != backup {
      assert b in Do(fs, BringBack(backup)).backups;
    }
  }

  lemma SetAsideKeeps(fs: Fs, backup: Name, o: Content)
    requires backup !in fs.backups && Holds(fs, o)
    ensures InBackup(Do(fs, SetAside(backup)), o)
  {
    var r := Do(fs, SetAside(backup));
    if fs.db == Whole(o) {
      assert r.backups[backup] == Whole(o);
    } else {
      var b :| b in fs.backups && fs.backups[b] == Whole(o);
      assert r.backups[b] == Whole(o);
    }
  }

  /** The changes a removal of the database directory makes. */
  function RemovalOfDb(how: Removal): (ops: seq<FsOp>) {
    match how case Removed => [DamageDb, RemoveDb] case Untouched => [] case Partial => [DamageDb]
  }

  function RemoveDir(dir: Dir, how: Removal): (r: Dir) {
    if dir.Absent? then Absent
    else match how
      case Removed => Absent
      case Untouched => dir
      case Partial => Damaged
  }

  lemma RemovalOfDbEffect(fs: Fs, how: Removal, o: Content)
    ensures After(fs, RemovalOfDb(how)) == fs.(db := RemoveDir(fs.db, how))
    ensures InBackup(fs, o) ==> Kept(fs, RemovalOfDb(how), o) && InBackup(After(fs, RemovalOfDb(how)), o)
  {
    var ops := RemovalOfDb(how);
    if !how.Untouched? {
      OneChange(fs, DamageDb, o);
      TwoChanges(fs, DamageDb, RemoveDb, o);
      if InBackup(fs, o) {
        DbOpKeeps(fs, DamageDb, o);
        DbOpKeeps(Do(fs, DamageDb), RemoveDb, o);
      }
    }
  }

  function RemovalOfStage(stage: Name, how: Removal): (ops: seq<FsOp>) {
    match how
    case Removed => [DamageStage(stage), RemoveStage(stage)]
    case Untouched => []
    case Partial => [DamageStage(stage)]
  }

  function ClearMarker(fails: bool): (ops: seq<FsOp>) {
    if fails then [] else [WriteMarker(NoMarker)]
  }

  // ---------------------------------------------------------------------------------------
  // Rolling back
  // ---------------------------------------------------------------------------------------

  /** Giving up a restore: forget the marker and the staged directory. */
  function AbandonOps(stage: Name, f: Faults, removeStage: bool): (ops: seq<FsOp>)
    ensures forall i :: 0 <= i < |ops| ==> Harmless(ops[i])
  {
    ClearMarker(f.clearMarkerFails) + if removeStage then RemovalOfStage(stage, f.removeStage) else []
  }

  /** The changes delete no backup. */
  predicate Spares(ops: seq<FsOp>) {
    forall i :: 0 <= i < |ops| ==> !ops[i].DamageBackup? && !ops[i].RemoveBackup?
  }

  /** What a rollback changes when the database directory is `db`. */
  function RollbackOps(db: Dir, currentExists: bool, backup: Name, f: Faults): (ops: seq<FsOp>)
    ensures Spares(ops)
  {
    if !currentExists || f.statBackupFails then []
    else
      RemovalOfDb(f.rollbackRemoveDb) +
      if f.rollbackRenameFails || !RemoveDir(db, f.rollbackRemoveDb).Absent? then [] else [BringBack(backup)]
  }

  /** Whether a rollback reports no error. */
  predicate RollbackOk(db: Dir, currentExists: bool, f: Faults) {
    if currentExists && !f.statBackupFails then
      !f.rollbackRenameFails && RemoveDir(db, f.rollbackRemoveDb).Absent? && !f.rollbackInitFails
    else db.Absent? || !f.rollbackInitFails
  }

  function UndoResult(db: Dir, currentExists: bool, f: Faults): (result: Outcome) {
    if RollbackOk(db, currentExists, f) then Failure else FailureAndRollbackFailed
  }

  /** The error paths after the database was moved away: abandon the restore, then roll back. */
  function UndoOps(db: Dir, stage: Name, removeStage: bool, currentExists: bool, backup: Name,
                   f: Faults): (ops: seq<FsOp>)
    ensures Spares(ops)
  {
    AbandonOps(stage, f, removeStage) + RollbackOps(db, currentExists, backup, f)
  }

  /** The backup directory is there whenever the database was set aside. */
  predicate SetAsideOk(fs: Fs, currentExists: bool, backup: Name) {
    currentExists ==> backup in fs.backups && !fs.backups[backup].Absent?
  }

  /** Whatever is in a backup directory when a rollback begins is there or active throughout; the
      original is active again, or an error is reported and it is still in its backup. */
  lemma RollbackEffect(fs: Fs, currentExists: bool, backup: Name, f: Faults, o: Content)
    requires SetAsideOk(fs, currentExists, backup)
    ensures var ops := RollbackOps(fs.db, currentExists, backup, f);
      && (InBackup(fs, o) ==> Kept(fs, ops, o))
      && (currentExists && !f.statBackupFails ==>
           || After(fs, ops).db == fs.backups[backup]
           || (!RollbackOk(fs.db, currentExists, f) && backup in After(fs, ops).backups
               && After(fs, ops).backups[backup] == fs.backups[backup]))
  {
    if currentExists && !f.statBackupFails {
      var first := RemovalOfDb(f.rollbackRemoveDb);
      RemovalOfDbEffect(fs, f.rollbackRemoveDb, o);
      var mid := After(fs, first);
      if !f.rollbackRenameFails && mid.db.Absent? {
        Joined(fs, first, [BringBack(backup)], o);
        OneChange(mid, BringBack(backup), o);
        if InBackup(fs, o) {
          BringBackKeeps(mid, backup, o);
        }
      } else {
        assert first + [] == first;
      }
    }
  }

  lemma UndoEffect(fs: Fs, stage: Name, removeStage: bool, currentExists: bool, backup: Name, f: Faults, o: Content)
    requires SetAsideOk(fs, currentExists, backup)
    ensures var ops := UndoOps(fs.db, stage, removeStage, currentExists, backup, f);
      && (InBackup(fs, o) ==> Kept(fs, ops, o))
      && (currentExists && !f.statBackupFails && RollbackOk(fs.db, currentExists, f) ==>
           After(fs, ops).db == fs.backups[backup])
      && (!currentExists || f.statBackupFails ==>
           && After(fs, ops).db == fs.db && After(fs, ops).backups == fs.backups
           && (Holds(fs, o) ==> Kept(fs, ops, o)))
  {
    var first := AbandonOps(stage, f, removeStage);
    HarmlessKeeps(fs, first, o);
    var mid := After(fs, first);
    RollbackEffect(mid, currentExists, backup, f, o);
    Joined(fs, first, RollbackOps(fs.db, currentExists, backup, f), o);
  }

  // ---------------------------------------------------------------------------------------
  // Applying
  // ---------------------------------------------------------------------------------------

  /** Whether the restore gets as far as touching the directories. */
  predicate Reaches(fs: Fs, f: Faults) {
    && fs.marker.Pending? && fs.marker.legal && f.stageValid && !f.closeFails
    && fs.marker.stage in fs.stages && fs.stages[fs.marker.stage].Whole?
  }

  function Staged(fs: Fs): (dir: Dir) {
    if fs.marker.Pending? && fs.marker.stage in fs.stages then fs.stages[fs.marker.stage] else Absent
  }

  /** The existing database is taken for absent because its stat call failed. */
  predicate Misread(fs: Fs, f: Faults) { !fs.db.Absent? && f.statDbFails }

  /** The database directory is found. */
  predicate Seen(fs: Fs, f: Faults) { !fs.db.Absent? && !f.statDbFails }

  /** The restore begins to change the database directory. */
  predicate Begins(fs: Fs, f: Faults) { Reaches(fs, f) && !(Seen(fs, f) && f.backupRenameFails) }

  /** The staged directory gets into place. */
  predicate Placed(f: Faults) { f.removeDb.Removed? && !f.stageRenameFails }

  /** The staged database is migrated, ready and recorded. */
  predicate Recorded(f: Faults) { !f.migrateFails && !f.initFails && f.markerWrite.Written? }

  predicate Succeeds(fs: Fs, f: Faults) { Begins(fs, f) && Placed(f) && Recorded(f) }

  /** The database directory once it has been set aside, if it was found. */
  function Remaining(fs: Fs, f: Faults): (db: Dir) { if Seen(fs, f) then Absent else fs.db }

  /** The database directory at the beginning of a rollback. */
  function DbAtUndo(fs: Fs, f: Faults): (db: Dir) {
    if Placed(f) then Staged(fs) else RemoveDir(Remaining(fs, f), f.removeDb)
  }

  predicate RollbackFails(fs: Fs, f: Faults) {
    Begins(fs, f) && !Succeeds(fs, f) && !RollbackOk(DbAtUndo(fs, f), Seen(fs, f), f)
  }

  function MarkerOps(write: MarkerWrite, backup: Name): (ops: seq<FsOp>)
    ensures forall i :: 0 <= i < |ops| ==> Harmless(ops[i])
  {
    match write
    case NotWritten => []
    case Torn => [WriteMarker(Garbled)]
    case Written => [WriteMarker(Garbled), WriteMarker(Applied(backup))]
  }

  /** From the staged database in place: migrate it, open it, and write the marker. */
  function RecordOps(db: Dir, stage: Name, currentExists: bool, backup: Name, f: Faults): (ops: seq<FsOp>)
    ensures Spares(ops)
  {
    if f.migrateFails || f.initFails then UndoOps(db, stage, false, currentExists, backup, f)
    else
      MarkerOps(f.markerWrite, backup) +
      if f.markerWrite.Written? then [] else UndoOps(db, stage, false, currentExists, backup, f)
  }

  /** From the database set aside to the end. */
  function ActivateOps(db: Dir, staged: Dir, stage: Name, currentExists: bool, backup: Name,
                       f: Faults): (ops: seq<FsOp>)
    ensures Spares(ops)
  {
    RemovalOfDb(f.removeDb) +
    if !Placed(f) then UndoOps(RemoveDir(db, f.removeDb), stage, true, currentExists, backup, f)
    else [PutInPlace(stage)] + RecordOps(staged, stage, currentExists, backup, f)
  }

  function SetAsideOps(fs: Fs, f: Faults, backup: Name): (ops: seq<FsOp>) {
    if Seen(fs, f) then [SetAside(backup)] else []
  }

  /** The changes ApplyPendingDBRestore makes; `backup` is a fresh directory name. */
  function ApplyOps(fs: Fs, f: Faults, backup: Name): (ops: seq<FsOp>)
    ensures Spares(ops)
  {
    if fs.marker.NoMarker? || fs.marker.Garbled? then []
    else if !(fs.marker.Pending? && fs.marker.legal) then AbandonOps(0, f, false)
    else if !Begins(fs, f) then AbandonOps(fs.marker.stage, f, true)
    else
      SetAsideOps(fs, f, backup) +
      ActivateOps(Remaining(fs, f), Staged(fs), fs.marker.stage, Seen(fs, f), backup, f)
  }

  /** rollbackPendingDBRestore. */
  method Rollback(fs0: Fs, currentExists: bool, backup: Name, f: Faults) returns (ok: bool, ops: seq<FsOp>)
    requires SetAsideOk(fs0, currentExists, backup)
    ensures ops == RollbackOps(fs0.db, currentExists, backup, f)
    ensures ok <==> RollbackOk(fs0.db, currentExists, f)
  {
    ok, ops := true, [];
    var fs := fs0;
    if currentExists && !f.statBackupFails {
      // the result of the removal is ignored
      ops := RemovalOfDb(f.rollbackRemoveDb);
      RemovalOfDbEffect(fs0, f.rollbackRemoveDb, 0);
      fs := After(fs0, ops);
      if f.rollbackRenameFails || !fs.db.Absent? {
        return false, ops;
      }
      ops := ops + [BringBack(backup)];
      fs := Do(fs, BringBack(backup));
    }
    if !fs.db.Absent? && f.rollbackInitFails { ok := false; }
  }

  method Undo(fs0: Fs, stage: Name, removeStage: bool, currentExists: bool, backup: Name, f: Faults)
    returns (result: Outcome, ops: seq<FsOp>)
    requires SetAsideOk(fs0, currentExists, backup)
    ensures ops == UndoOps(fs0.db, stage, removeStage, currentExists, backup, f)
    ensures result == UndoResult(fs0.db, currentExists, f)
  {
    var first := AbandonOps(stage, f, removeStage);
    HarmlessKeeps(fs0, first, 0);
    var ok, second := Rollback(After(fs0, first), currentExists, backup, f);
    ops := first + second;
    result := if ok then Failure else FailureAndRollbackFailed;
  }

  /** The staged database is in place: migrate it, open it, and write the marker. */
  method RecordRestore(fs0: Fs, stage: Name, currentExists: bool, backup: Name, f: Faults)
    returns (result: Outcome, ops: seq<FsOp>)
    requires SetAsideOk(fs0, currentExists, backup)
    ensures ops == RecordOps(fs0.db, stage, currentExists, backup, f)
    ensures result == if Recorded(f) then Success else UndoResult(fs0.db, currentExists, f)
  {
    if f.migrateFails || f.initFails {
      result, ops := Undo(fs0, stage, false, currentExists, backup, f);
      return;
    }
    ops := MarkerOps(f.markerWrite, backup);
    HarmlessKeeps(fs0, ops, 0);
    if f.markerWrite.Written? {
      assert ops + [] == ops;
      return Success, ops;
    }
    var more;
    result, more := Undo(After(fs0, ops), stage, false, currentExists, backup, f);
    ops := ops + more;
  }

  /** The old directory is set aside: put the staged one in its place. */
  method Activate(fs0: Fs, stage: Name, currentExists: bool, backup: Name, f: Faults)
    returns (result: Outcome, ops: seq<FsOp>)
    requires stage in fs0.stages && fs0.stages[stage].Whole? && SetAsideOk(fs0, currentExists, backup)
    ensures ops == ActivateOps(fs0.db, fs0.stages[stage], stage, currentExists, backup, f)
    ensures result ==
      if !Placed(f) then UndoResult(RemoveDir(fs0.db, f.removeDb), currentExists, f)
      else if Recorded(f) then Success
      else UndoResult(fs0.stages[stage], currentExists, f)
  {
    ops := RemovalOfDb(f.removeDb);
    RemovalOfDbEffect(fs0, f.removeDb, 0);
    var fs := After(fs0, ops);
    var more;
    if !f.removeDb.Removed? || f.stageRenameFails {
      result, more := Undo(fs, stage, true, currentExists, backup, f);
      ops := ops + more;
      return;
    }
    result, more := RecordRestore(Do(fs, PutInPlace(stage)), stage, currentExists, backup, f);
    ops := ops + ([PutInPlace(stage)] + more);
  }

  /** ApplyPendingDBRestore: which changes it makes, and exactly when it reports what. It succeeds if and
      only if the marker announces a legal, whole and valid stage and none of the operations it needs
      fails; then the staged database is active, the former one in the backup and both on record. */
  method ApplyPendingDBRestore(fs0: Fs, f: Faults, backup: Name) returns (result: Outcome, ops: seq<FsOp>)
    requires backup !in fs0.backups
    ensures ops == ApplyOps(fs0, f, backup)
    ensures result.Nothing? <==> fs0.marker.NoMarker?
    ensures result.Success? <==>
      && fs0.marker.Pending? && fs0.marker.legal
      && fs0.marker.stage in fs0.stages && fs0.stages[fs0.marker.stage].Whole? && f.stageValid
      && !f.closeFails
      && (fs0.db.Absent? || f.statDbFails || !f.backupRenameFails)
      && f.removeDb == Removed && !f.stageRenameFails
      && !f.migrateFails && !f.initFails && f.markerWrite == Written
    ensures result.Success? ==>
      After(fs0, ops) == fs0.(
        db := fs0.stages[fs0.marker.stage],
        stages := fs0.stages - {fs0.marker.stage},
        backups := if fs0.db.Absent? || f.statDbFails then fs0.backups else fs0.backups[backup := fs0.db],
        marker := Applied(backup))
    ensures result.Success? <==> Succeeds(fs0, f)
    ensures result.FailureAndRollbackFailed? <==> RollbackFails(fs0, f)
  {
    result, ops := Nothing, [];
    if fs0.marker.NoMarker? { return; }
    result := Failure;
    if fs0.marker.Garbled? { return; }
    if !(fs0.marker.Pending? && fs0.marker.legal) {
      ops := AbandonOps(0, f, false);
      return;
    }
    var stage := fs0.marker.stage;
    if !(stage in fs0.stages && fs0.stages[stage].Whole? && f.stageValid) {
      ops := AbandonOps(stage, f, true);
      return;
    }
    var currentExists := !fs0.db.Absent? && !f.statDbFails;
    if f.closeFails {
      ops := AbandonOps(stage, f, true);
      return;
    }
    var fs := fs0;
    if currentExists {
      if f.backupRenameFails {
        ops := AbandonOps(stage, f, true);
        return;
      }
      ops := [SetAside(backup)];
      fs := Do(fs0, SetAside(backup));
    }
    var more;
    result, more := Activate(fs, stage, currentExists, backup, f);
    ops := ops + more;
    if result.Success? {
      SuccessState(fs0, f, backup);
    }
  }

  /** What a successful restore leaves. */
  lemma SuccessState(fs: Fs, f: Faults, backup: Name)
    requires backup !in fs.backups && Succeeds(fs, f)
    ensures After(fs, ApplyOps(fs, f, backup)) == fs.(
      db := fs.stages[fs.marker.stage],
      stages := fs.stages - {fs.marker.stage},
      backups := if fs.db.Absent? || f.statDbFails then fs.backups else fs.backups[backup := fs.db],
      marker := Applied(backup))
  {
    var stage, first := fs.marker.stage, SetAsideOps(fs, f, backup);
    OneChange(fs, SetAside(backup), 0);
    var mid := After(fs, first);
    assert mid == if Seen(fs, f) then Do(fs, SetAside(backup)) else fs;
    ActivateEffect(mid, stage, Seen(fs, f), backup, f, 0);
    Joined(fs, first, ActivateOps(Remaining(fs, f), Staged(fs), stage, Seen(fs, f), backup, f), 0);
  }

  /** The marker after some changes: the last one written. */
  function MarkerAfter(m: Marker, ops: seq<FsOp>): (r: Marker)
    decreases |ops|
  {
    if ops == [] then m
    else MarkerAfter(if ops[0].WriteMarker? then ops[0].marker else m, ops[1..])
  }

  lemma {:induction false} MarkerFollows(fs: Fs, ops: seq<FsOp>)
    ensures After(fs, ops).marker == MarkerAfter(fs.marker, ops)
    decreases |ops|
  {
    if ops != [] {
      MarkerFollows(Do(fs, ops[0]), ops[1..]);
    }
  }

  lemma {:induction false} MarkerJoins(m: Marker, first: seq<FsOp>, second: seq<FsOp>)
    ensures MarkerAfter(m, first + second) == MarkerAfter(MarkerAfter(m, first), second)
    decreases |first|
  {
    if first == [] {
      assert first + second == second;
    } else {
      assert (first + second)[1..] == first[1..] + second;
      MarkerJoins(if first[0].WriteMarker? then first[0].marker else m, first[1..], second);
    }
  }

  lemma {:induction false} MarkerUntouched(m: Marker, ops: seq<FsOp>)
    requires forall i :: 0 <= i < |ops| ==> !ops[i].WriteMarker?
    ensures MarkerAfter(m, ops) == m
    decreases |ops|
  {
    if ops != [] {
      MarkerUntouched(m, ops[1..]);
    }
  }

  lemma UndoForgets(m: Marker, db: Dir, stage: Name, removeStage: bool, currentExists: bool, backup: Name, f: Faults)
    requires !f.clearMarkerFails
    ensures MarkerAfter(m, UndoOps(db, stage, removeStage, currentExists, backup, f)) == NoMarker
    ensures MarkerAfter(m, AbandonOps(stage, f, removeStage)) == NoMarker
  {
    var first: seq<FsOp> := [WriteMarker(NoMarker)];
    var second := if removeStage then RemovalOfStage(stage, f.removeStage) else [];
    assert AbandonOps(stage, f, removeStage) == first + second;
    assert first[1..] == [] && MarkerAfter(m, first) == NoMarker;
    MarkerJoins(m, first, second);
    MarkerUntouched(NoMarker, second);
    MarkerJoins(m, first + second, RollbackOps(db, currentExists, backup, f));
    MarkerUntouched(NoMarker, RollbackOps(db, currentExists, backup, f));
  }

  /** A restore that fails is not tried again: unless it cannot be removed, its marker is gone. */
  lemma FailedRestoreForgets(fs: Fs, f: Faults, backup: Name)
    requires fs.marker.Pending? && !f.clearMarkerFails && !Succeeds(fs, f)
    ensures After(fs, ApplyOps(fs, f, backup)).marker == NoMarker
  {
    MarkerFollows(fs, ApplyOps(fs, f, backup));
    if !fs.marker.legal {
      UndoForgets(fs.marker, Absent, 0, false, false, backup, f);
    } else if !Begins(fs, f) {
      UndoForgets(fs.marker, Absent, fs.marker.stage, true, false, backup, f);
    } else {
      ActivationForgets(fs, f, backup);
    }
  }

  /** A restore that does not begin gives up its stage. */
  lemma AbandonedDropsStage(fs: Fs, f: Faults, backup: Name)
    requires fs.marker.Pending? && fs.marker.legal && !Begins(fs, f) && f.removeStage == Removed
    ensures After(fs, ApplyOps(fs, f, backup)).stages == fs.stages - {fs.marker.stage}
  {
    var stage := fs.marker.stage;
    var first, second := ClearMarker(f.clearMarkerFails), RemovalOfStage(stage, f.removeStage);
    OneChange(fs, WriteMarker(NoMarker), 0);
    var mid := After(fs, first);
    Joined(fs, first, second, 0);
    TwoChanges(mid, DamageStage(stage), RemoveStage(stage), 0);
  }

  lemma ActivationForgets(fs: Fs, f: Faults, backup: Name)
    requires Begins(fs, f) && !f.clearMarkerFails && !Succeeds(fs, f)
    ensures MarkerAfter(fs.marker, ApplyOps(fs, f, backup)) == NoMarker
  {
    var m, stage, seen := fs.marker, fs.marker.stage, Seen(fs, f);
    var aside, removal := SetAsideOps(fs, f, backup), RemovalOfDb(f.removeDb);
    var db := RemoveDir(Remaining(fs, f), f.removeDb);
    var rest := ActivateOps(Remaining(fs, f), Staged(fs), stage, seen, backup, f);
    MarkerJoins(m, aside, rest);
    MarkerUntouched(m, aside);
    MarkerUntouched(m, removal);
    if !Placed(f) {
      MarkerJoins(m, removal, UndoOps(db, stage, true, seen, backup, f));
      UndoForgets(m, db, stage, true, seen, backup, f);
    } else {
      var place: seq<FsOp> := [PutInPlace(stage)];
      var record := RecordOps(Staged(fs), stage, seen, backup, f);
      var undo := UndoOps(Staged(fs), stage, false, seen, backup, f);
      MarkerJoins(m, removal, place + record);
      MarkerJoins(m, place, record);
      MarkerUntouched(m, place);
      var written := MarkerOps(f.markerWrite, backup);
      MarkerJoins(m, written, undo);
      UndoForgets(m, Staged(fs), stage, false, seen, backup, f);
      UndoForgets(MarkerAfter(m, written), Staged(fs), stage, false, seen, backup, f);
    }
  }

  // ---------------------------------------------------------------------------------------
  // Atomicity
  // ---------------------------------------------------------------------------------------

  lemma RecordEffect(fs: Fs, stage: Name, currentExists: bool, backup: Name, f: Faults, o: Content)
    requires SetAsideOk(fs, currentExists, backup)
    ensures var ops := RecordOps(fs.db, stage, currentExists, backup, f);
      && (InBackup(fs, o) ==> Kept(fs, ops, o))
      && (Recorded(f) ==> After(fs, ops) == fs.(marker := Applied(backup)))
      && (!Recorded(f) && currentExists && !f.statBackupFails && RollbackOk(fs.db, currentExists, f) ==>
           After(fs, ops).db == fs.backups[backup])
      && (!currentExists || f.statBackupFails ==> After(fs, ops).db == fs.db && After(fs, ops).backups == fs.backups)
  {
    UndoEffect(fs, stage, false, currentExists, backup, f, o);
    if !f.migrateFails && !f.initFails {
      var first := MarkerOps(f.markerWrite, backup);
      HarmlessKeeps(fs, first, o);
      UndoEffect(After(fs, first), stage, false, currentExists, backup, f, o);
      Joined(fs, first, UndoOps(fs.db, stage, false, currentExists, backup, f), o);
      TwoChanges(fs, WriteMarker(Garbled), WriteMarker(Applied(backup)), o);
      assert first + [] == first;
    }
  }

  lemma PlacedEffect(fs: Fs, stage: Name, currentExists: bool, backup: Name, f: Faults, o: Content)
    requires stage in fs.stages && fs.stages[stage].Whole? && fs.db.Absent? && SetAsideOk(fs, currentExists, backup)
    ensures var ops := [PutInPlace(stage)] + RecordOps(fs.stages[stage], stage, currentExists, backup, f);
      && (InBackup(fs, o) ==> Kept(fs, ops, o))
      && (Recorded(f) ==>
           After(fs, ops) == fs.(db := fs.stages[stage], stages := fs.stages - {stage}, marker := Applied(backup)))
      && (!Recorded(f) && currentExists && !f.statBackupFails && RollbackOk(fs.stages[stage], currentExists, f) ==>
           After(fs, ops).db == fs.backups[backup])
      && (!currentExists || f.statBackupFails ==>
           After(fs, ops).db == fs.stages[stage] && After(fs, ops).backups == fs.backups)
  {
    var placed := Do(fs, PutInPlace(stage));
    OneChange(fs, PutInPlace(stage), o);
    Joined(fs, [PutInPlace(stage)], RecordOps(fs.stages[stage], stage, currentExists, backup, f), o);
    RecordEffect(placed, stage, currentExists, backup, f, o);
    if InBackup(fs, o) {
      DbOpKeeps(fs, PutInPlace(stage), o);
    }
  }

  lemma ActivateEffect(fs: Fs, stage: Name, currentExists: bool, backup: Name, f: Faults, o: Content)
    requires stage in fs.stages && fs.stages[stage].Whole? && SetAsideOk(fs, currentExists, backup)
    requires currentExists ==> fs.db.Absent?
    ensures var ops := ActivateOps(fs.db, fs.stages[stage], stage, currentExists, backup, f);
      var db := RemoveDir(fs.db, f.removeDb);
      && (InBackup(fs, o) ==> Kept(fs, ops, o))
      && (Placed(f) && Recorded(f) ==>
           After(fs, ops) == fs.(db := fs.stages[stage], stages := fs.stages - {stage}, marker := Applied(backup)))
      && (!(Placed(f) && Recorded(f)) && currentExists && !f.statBackupFails
          && RollbackOk(if Placed(f) then fs.stages[stage] else db, currentExists, f) ==>
           After(fs, ops).db == fs.backups[backup])
      && (!currentExists || f.statBackupFails ==>
           After(fs, ops).db == (if Placed(f) then fs.stages[stage] else db) && After(fs, ops).backups == fs.backups)
  {
    var first := RemovalOfDb(f.removeDb);
    RemovalOfDbEffect(fs, f.removeDb, o);
    var mid := After(fs, first);
    if Placed(f) {
      PlacedEffect(mid, stage, currentExists, backup, f, o);
      Joined(fs, first, [PutInPlace(stage)] + RecordOps(fs.stages[stage], stage, currentExists, backup, f), o);
    } else {
      UndoEffect(mid, stage, true, currentExists, backup, f, o);
      Joined(fs, first, UndoOps(mid.db, stage, true, currentExists, backup, f), o);
    }
  }

  lemma BeginsEffect(fs: Fs, f: Faults, backup: Name, o: Content)
    requires backup !in fs.backups && Begins(fs, f)
    ensures var r := After(fs, ApplyOps(fs, f, backup));
      && (Seen(fs, f) && Holds(fs, o) ==> Kept(fs, ApplyOps(fs, f, backup), o))
      && (Succeeds(fs, f) ==> r.db == Staged(fs) && r.marker == Applied(backup))
      && (Succeeds(fs, f) && Seen(fs, f) ==> r.backups == fs.backups[backup := fs.db])
      && (!Succeeds(fs, f) && !RollbackFails(fs, f) && Seen(fs, f) && !f.statBackupFails ==> r.db == fs.db)
      && (Seen(fs, f) && f.statBackupFails ==> r.db == if Placed(f) then Staged(fs) else Absent)
      && (!Seen(fs, f) ==>
           r.backups == fs.backups && r.db == if Placed(f) then Staged(fs) else RemoveDir(fs.db, f.removeDb))
  {
    var stage, first := fs.marker.stage, SetAsideOps(fs, f, backup);
    OneChange(fs, SetAside(backup), o);
    var mid := After(fs, first);
    assert mid == if Seen(fs, f) then Do(fs, SetAside(backup)) else fs;
    if Seen(fs, f) && Holds(fs, o) {
      SetAsideKeeps(fs, backup, o);
    }
    ActivateEffect(mid, stage, Seen(fs, f), backup, f, o);
    Joined(fs, first, ActivateOps(Remaining(fs, f), Staged(fs), stage, Seen(fs, f), backup, f), o);
  }

  lemma AbandonedEffect(fs: Fs, f: Faults, backup: Name, o: Content)
    requires !Begins(fs, f)
    ensures var r := After(fs, ApplyOps(fs, f, backup)); r.db == fs.db && r.backups == fs.backups
    ensures Holds(fs, o) ==> Kept(fs, ApplyOps(fs, f, backup), o)
  {
    HarmlessKeeps(fs, ApplyOps(fs, f, backup), o);
  }

  /** Atomicity of ApplyPendingDBRestore: it succeeds with the staged database active and the former
      one in the recorded backup; or it fails with the former one active again; or it reports that
      the rollback failed too. This holds for every combination of failing operations except two stat
      calls, whose errors read as absence; the last two clauses say what those do. */
  lemma ApplyIsAtomic(fs: Fs, f: Faults, backup: Name)
    requires backup !in fs.backups
    ensures var r := After(fs, ApplyOps(fs, f, backup));
      && (Succeeds(fs, f) ==> r.db == Staged(fs) && r.marker == Applied(backup))
      && (Succeeds(fs, f) && Seen(fs, f) ==> r.backups == fs.backups[backup := fs.db])
      && (!Begins(fs, f) ==> r.db == fs.db && r.backups == fs.backups)
      && (!Succeeds(fs, f) && !RollbackFails(fs, f) && Seen(fs, f) && !(Begins(fs, f) && f.statBackupFails) ==>
           r.db == fs.db)
      // the backup's stat call fails: a failure is reported although the former database is not active
      && (Begins(fs, f) && Seen(fs, f) && f.statBackupFails ==> r.db == if Placed(f) then Staged(fs) else Absent)
      // the database's stat call fails: no backup is made and the database is removed
      && (Begins(fs, f) && Misread(fs, f) ==>
           r.backups == fs.backups && r.db == if Placed(f) then Staged(fs) else RemoveDir(fs.db, f.removeDb))
  {
    if Begins(fs, f) {
      BeginsEffect(fs, f, backup, 0);
    } else {
      AbandonedEffect(fs, f, backup, 0);
    }
  }

  /** A restore that reports a plain failure leaves the database it found as it was, if and only if it
      did not begin, could stat the backup, or put in place a database equal to it. */
  lemma PlainFailureExactly(fs: Fs, f: Faults, backup: Name)
    requires backup !in fs.backups && Seen(fs, f) && !Succeeds(fs, f) && !RollbackFails(fs, f)
    ensures After(fs, ApplyOps(fs, f, backup)).db == fs.db <==>
      !Begins(fs, f) || !f.statBackupFails || (Placed(f) && Staged(fs) == fs.db)
  {
    ApplyIsAtomic(fs, f, backup);
  }

  /** The stat call on the database directory fails, and the removal that follows destroys `o`. */
  predicate Erases(fs: Fs, f: Faults, o: Content) {
    Begins(fs, f) && Misread(fs, f) && !f.removeDb.Untouched? && !InBackup(fs, o)
  }

  /** A database that is there stays there through every change ApplyPendingDBRestore makes, if and
      only if that does not happen. */
  lemma ApplyKeepsExactly(fs: Fs, f: Faults, backup: Name, o: Content)
    requires backup !in fs.backups && Holds(fs, o)
    ensures Kept(fs, ApplyOps(fs, f, backup), o) <==> !Erases(fs, f, o)
  {
    if !Begins(fs, f) {
      AbandonedEffect(fs, f, backup, o);
    } else if Seen(fs, f) {
      BeginsEffect(fs, f, backup, o);
    } else {
      ApplyUnseenKeepsExactly(fs, f, backup, o);
    }
  }

  lemma ApplyUnseenKeepsExactly(fs: Fs, f: Faults, backup: Name, o: Content)
    requires backup !in fs.backups && Holds(fs, o) && Begins(fs, f) && !Seen(fs, f)
    ensures Kept(fs, ApplyOps(fs, f, backup), o) <==> !Erases(fs, f, o)
  {
    var stage := fs.marker.stage;
    var ops := ActivateOps(fs.db, Staged(fs), stage, false, backup, f);
    assert ApplyOps(fs, f, backup) == ops by {
      assert SetAsideOps(fs, f, backup) == [];
    }
    if InBackup(fs, o) {
      ActivateEffect(fs, stage, false, backup, f, o);
    } else if f.removeDb.Untouched? {
      UndoEffect(fs, stage, true, false, backup, f, o);
      assert ops == UndoOps(fs.db, stage, true, false, backup, f);
    } else {
      assert ops[0] == DamageDb;
      assert !InBackup(Do(fs, DamageDb), o);
    }
  }

  // ---------------------------------------------------------------------------------------
  // Finalizing
  // ---------------------------------------------------------------------------------------

  function RemovalOfBackup(backup: Name, how: Removal): (ops: seq<FsOp>) {
    match how
    case Removed => [DamageBackup(backup), RemoveBackup(backup)]
    case Untouched => []
    case Partial => [DamageBackup(backup)]
  }

  function FinalizeOps(fs: Fs, removal: Removal, clearFails: bool): (ops: seq<FsOp>) {
    if !fs.marker.Applied? then []
    else RemovalOfBackup(fs.marker.backup, removal) + if removal.Removed? then ClearMarker(clearFails) else []
  }

  /** FinalizePendingDBRestore: delete the backup an applied marker names, then the marker. No other
      backup is touched, and before the deletion has succeeded the marker stays. */
  method FinalizePendingDBRestore(fs0: Fs, removal: Removal, clearFails: bool) returns (ok: bool, ops: seq<FsOp>)
    ensures ops == FinalizeOps(fs0, removal, clearFails)
    ensures ok <==> fs0.marker.Applied? ==> removal.Removed?
    ensures After(fs0, ops).db == fs0.db
    ensures fs0.marker.Applied? ==> After(fs0, ops).backups - {fs0.marker.backup} == fs0.backups - {fs0.marker.backup}
    ensures fs0.marker.Applied? && ok ==> fs0.marker.backup !in After(fs0, ops).backups
    ensures After(fs0, ops).marker == if fs0.marker.Applied? && ok && !clearFails then NoMarker else fs0.marker
  {
    ok, ops := true, [];
    if !fs0.marker.Applied? { return; }
    var b := fs0.marker.backup;
    ops := RemovalOfBackup(b, removal);
    RemovalOfBackupEffect(fs0, b, removal, 0);
    if !removal.Removed? {
      assert ops + [] == ops;
      return false, ops;
    }
    Joined(fs0, ops, ClearMarker(clearFails), 0);
    OneChange(After(fs0, ops), WriteMarker(NoMarker), 0);
    ops := ops + ClearMarker(clearFails);
  }

  lemma RemovalOfBackupEffect(fs: Fs, b: Name, how: Removal, o: Content)
    ensures var r := After(fs, RemovalOfBackup(b, how));
      && r.db == fs.db && r.marker == fs.marker && r.backups - {b} == fs.backups - {b}
      && (how.Removed? ==> b !in r.backups)
    ensures Holds(fs, o) && !(b in fs.backups && fs.backups[b] == Whole(o)) ==> Kept(fs, RemovalOfBackup(b, how), o)
  {
    OneChange(fs, DamageBackup(b), o);
    TwoChanges(fs, DamageBackup(b), RemoveBackup(b), o);
    if Holds(fs, o) && !(b in fs.backups && fs.backups[b] == Whole(o)) {
      OtherBackupKeeps(fs, b, DamageBackup(b), o);
      OtherBackupKeeps(Do(fs, DamageBackup(b)), b, RemoveBackup(b), o);
    }
  }

  lemma OtherBackupKeeps(fs: Fs, backup: Name, op: FsOp, o: Content)
    requires Holds(fs, o) && !(backup in fs.backups && fs.backups[backup] == Whole(o))
    requires op == DamageBackup(backup) || op == RemoveBackup(backup)
    ensures Holds(Do(fs, op), o) && !(backup in Do(fs, op).backups && Do(fs, op).backups[backup] == Whole(o))
  {
    if fs.db != Whole(o) {
      var b :| b in fs.backups && fs.backups[b] == Whole(o);
      assert b in Do(fs, op).backups && Do(fs, op).backups[b] == Whole(o);
    }
  }

  // ---------------------------------------------------------------------------------------
  // Repeated starts, restores and crashes
  // ---------------------------------------------------------------------------------------

  /** The change is the deletion, by finalization, of the backup with `o` that an applied marker names. */
  predicate Deletes(fs: Fs, op: FsOp, o: Content) {
    && fs.marker.Applied? && fs.marker.backup in fs.backups && fs.backups[fs.marker.backup] == Whole(o)
    && (op == DamageBackup(fs.marker.backup) || op == RemoveBackup(fs.marker.backup))
  }

  /** One of the changes is that deletion. */
  predicate Finalized(fs: Fs, ops: seq<FsOp>, o: Content)
    decreases |ops|
  {
    ops != [] && (Deletes(fs, ops[0], o) || Finalized(Do(fs, ops[0]), ops[1..], o))
  }

  /** `o` is there before and after every change, up to that deletion. */
  predicate KeptUntilFinalized(fs: Fs, ops: seq<FsOp>, o: Content)
    decreases |ops|
  {
    Holds(fs, o) && (ops == [] || Deletes(fs, ops[0], o) || KeptUntilFinalized(Do(fs, ops[0]), ops[1..], o))
  }

  lemma {:induction false} KeptSplits(fs: Fs, first: seq<FsOp>, second: seq<FsOp>, o: Content)
    ensures KeptUntilFinalized(fs, first + second, o) <==>
      KeptUntilFinalized(fs, first, o) && (Finalized(fs, first, o) || KeptUntilFinalized(After(fs, first), second, o))
    ensures Finalized(fs, first + second, o) <==> Finalized(fs, first, o) || Finalized(After(fs, first), second, o)
    decreases |first|
  {
    if first == [] {
      assert first + second == second;
    } else {
      assert (first + second)[1..] == first[1..] + second;
      KeptSplits(Do(fs, first[0]), first[1..], second, o);
    }
  }

  /** At the end, and hence at every crash: still there, or deleted by finalization. */
  lemma {:induction false} KeptOrFinalized(fs: Fs, ops: seq<FsOp>, o: Content)
    requires KeptUntilFinalized(fs, ops, o)
    ensures Finalized(fs, ops, o) || Holds(After(fs, ops), o)
    decreases |ops|
  {
    if ops != [] && !Deletes(fs, ops[0], o) {
      KeptOrFinalized(Do(fs, ops[0]), ops[1..], o);
    }
  }

  lemma CrashKeeps(fs: Fs, ops: seq<FsOp>, k: nat, o: Content)
    requires KeptUntilFinalized(fs, ops, o) && k <= |ops|
    ensures KeptUntilFinalized(fs, ops[..k], o)
    ensures Finalized(fs, ops[..k], o) || Holds(After(fs, ops[..k]), o)
  {
    assert ops == ops[..k] + ops[k..];
    KeptSplits(fs, ops[..k], ops[k..], o);
    KeptOrFinalized(fs, ops[..k], o);
  }

  /** Changes that delete no backup keep `o` until finalization if and only if they keep it. */
  lemma {:induction false} NoDeletion(fs: Fs, ops: seq<FsOp>, o: Content)
    requires Spares(ops)
    ensures KeptUntilFinalized(fs, ops, o) <==> Kept(fs, ops, o)
    ensures !Finalized(fs, ops, o)
    decreases |ops|
  {
    if ops != [] {
      assert !ops[0].DamageBackup? && !ops[0].RemoveBackup?;
      NoDeletion(Do(fs, ops[0]), ops[1..], o);
    }
  }

  lemma {:induction false} KeptIsUntilFinalized(fs: Fs, ops: seq<FsOp>, o: Content)
    requires Kept(fs, ops, o)
    ensures KeptUntilFinalized(fs, ops, o)
    decreases |ops|
  {
    if ops != [] {
      KeptIsUntilFinalized(Do(fs, ops[0]), ops[1..], o);
    }
  }

  lemma FinalizeKeeps(fs: Fs, removal: Removal, clearFails: bool, o: Content)
    requires Holds(fs, o)
    ensures KeptUntilFinalized(fs, FinalizeOps(fs, removal, clearFails), o)
  {
    if fs.marker.Applied? {
      var b, first := fs.marker.backup, RemovalOfBackup(fs.marker.backup, removal);
      var second := if removal.Removed? then ClearMarker(clearFails) else [];
      RemovalOfBackupEffect(fs, b, removal, o);
      KeptSplits(fs, first, second, o);
      if b in fs.backups && fs.backups[b] == Whole(o) {
        assert first != [] ==> Deletes(fs, first[0], o);
      } else {
        KeptIsUntilFinalized(fs, first, o);
        KeptOrFinalized(fs, first, o);
      }
      HarmlessKeeps(After(fs, first), second, o);
      if Holds(After(fs, first), o) {
        KeptIsUntilFinalized(After(fs, first), second, o);
      }
    }
  }

  datatype Event =
    /** a panel start that runs to its end, or stops after `crash` changes to the file system */
    | Start(f: Faults, backup: Name, empty: Content, finalize: bool, removal: Removal, clearFails: bool, crash: nat)
    /** an administrator uploads an archive */
    | Upload(stage: Name, content: Content, crash: nat)

  function CreateOps(fs: Fs, empty: Content): (ops: seq<FsOp>) {
    if fs.db.Absent? then [CreateDb(empty)] else []
  }

  /** The file system once the database is open. */
  function OpenedFs(fs: Fs, e: Event): (r: Fs)
    requires e.Start?
  {
    After(fs, CreateOps(fs, e.empty))
  }

  function PendingOps(fs: Fs, e: Event): (ops: seq<FsOp>)
    requires e.Start?
  {
    if fs.marker.Pending? then ApplyOps(fs, e.f, e.backup) else []
  }

  /** The panel gets as far as finalizing: no restore was pending, or it succeeded. */
  predicate ComesUp(fs: Fs, e: Event)
    requires e.Start?
  {
    e.finalize && (fs.marker.Pending? ==> Succeeds(fs, e.f))
  }

  /** One start: open the database (creating it if it is absent), apply a pending restore, and, once
      the panel runs, finalize an applied one. */
  function StartOps(fs: Fs, e: Event): (ops: seq<FsOp>)
    requires e.Start?
  {
    var ready := OpenedFs(fs, e);
    var applied := CreateOps(fs, e.empty) + PendingOps(ready, e);
    applied + if ComesUp(ready, e) then FinalizeOps(After(fs, applied), e.removal, e.clearFails) else []
  }

  function UploadOps(fs: Fs, stage: Name, content: Content): (ops: seq<FsOp>)
    ensures forall i :: 0 <= i < |ops| ==> Harmless(ops[i])
  {
    if !fs.marker.NoMarker? then []
    else [AddStage(stage, content), WriteMarker(Garbled), WriteMarker(Pending(stage, true))]
  }

  /** An upload that no restore stands in the way of is announced and staged. */
  lemma UploadAnnounces(fs: Fs, stage: Name, content: Content)
    requires fs.marker.NoMarker?
    ensures After(fs, UploadOps(fs, stage, content)) ==
      fs.(stages := fs.stages[stage := Whole(content)], marker := Pending(stage, true))
  {
    var ops := UploadOps(fs, stage, content);
    assert ops[1..] == [WriteMarker(Garbled), WriteMarker(Pending(stage, true))];
    TwoChanges(Do(fs, ops[0]), WriteMarker(Garbled), WriteMarker(Pending(stage, true)), 0);
  }

  /** The changes an event makes, cut off by its crash. */
  function EventOps(fs: Fs, e: Event): (ops: seq<FsOp>) {
    var full := if e.Start? then StartOps(fs, e) else UploadOps(fs, e.stage, e.content);
    if e.crash < |full| then full[..e.crash] else full
  }

  /** The changes of a sequence of events, each beginning where the one before ended or crashed. */
  function History(fs: Fs, events: seq<Event>): (ops: seq<FsOp>)
    decreases |events|
  {
    if events == [] then []
    else
      var first := EventOps(fs, events[0]);
      first + History(After(fs, first), events[1..])
  }

  /** The start code, step by step. */
  method OneStart(fs0: Fs, e: Event) returns (ops: seq<FsOp>)
    requires e.Start? && e.backup !in fs0.backups
    ensures ops == StartOps(fs0, e)
  {
    ops := if fs0.db.Absent? then [CreateDb(e.empty)] else [];
    OneChange(fs0, CreateDb(e.empty), 0);
    var fs := After(fs0, ops);
    var running, more := true, [];
    if fs.marker.Pending? {
      var result;
      result, more := ApplyPendingDBRestore(fs, e.f, e.backup);
      running := result.Success?;
    }
    ops := ops + more;
    if running && e.finalize {
      var ok;
      ok, more := FinalizePendingDBRestore(After(fs0, ops), e.removal, e.clearFails);
      ops := ops + more;
    } else {
      assert ops + [] == ops;
    }
  }

  /** A start keeps `o` through every change, up to the deletion of its backup by the finalization of
      an applied restore that names it, if and only if its restore does not erase it. */
  lemma StartKeepsExactly(fs: Fs, e: Event, o: Content)
    requires e.Start? && e.backup !in fs.backups && Holds(fs, o)
    ensures KeptUntilFinalized(fs, StartOps(fs, e), o) <==>
      !(OpenedFs(fs, e).marker.Pending? && Erases(OpenedFs(fs, e), e.f, o))
  {
    var create, ready := CreateOps(fs, e.empty), OpenedFs(fs, e);
    OneChange(fs, CreateDb(e.empty), o);
    if fs.db.Absent? {
      DbOpKeeps(fs, CreateDb(e.empty), o);
    }
    var pending := PendingOps(ready, e);
    assert Holds(ready, o) && ready.backups == fs.backups && Kept(fs, create, o);
    ApplyKeepsExactly(ready, e.f, e.backup, o);
    var applied := create + pending;
    Joined(fs, create, pending, o);
    NoDeletion(fs, applied, o);
    var rest := if ComesUp(ready, e) then FinalizeOps(After(fs, applied), e.removal, e.clearFails) else [];
    KeptSplits(fs, applied, rest, o);
    if Kept(fs, applied, o) {
      KeptOrFinalized(fs, applied, o);
      FinalizeKeeps(After(fs, applied), e.removal, e.clearFails, o);
    }
  }

  /** Names are fresh (they are time stamps), and no restore erases `o`. */
  predicate Regular(fs: Fs, e: Event, o: Content) {
    e.Start? ==> e.backup !in fs.backups && !(OpenedFs(fs, e).marker.Pending? && Erases(OpenedFs(fs, e), e.f, o))
  }

  predicate RegularHistory(fs: Fs, events: seq<Event>, o: Content)
    decreases |events|
  {
    events == [] || (Regular(fs, events[0], o) && RegularHistory(After(fs, EventOps(fs, events[0])), events[1..], o))
  }

  lemma EventKeeps(fs: Fs, e: Event, o: Content)
    requires Regular(fs, e, o) && Holds(fs, o)
    ensures KeptUntilFinalized(fs, EventOps(fs, e), o)
  {
    var full := if e.Start? then StartOps(fs, e) else UploadOps(fs, e.stage, e.content);
    if e.Start? {
      StartKeepsExactly(fs, e, o);
    } else {
      HarmlessKeeps(fs, full, o);
      KeptIsUntilFinalized(fs, full, o);
    }
    if e.crash < |full| {
      CrashKeeps(fs, full, e.crash, o);
    }
  }

  lemma {:induction false} HistoryKeeps(fs: Fs, events: seq<Event>, o: Content)
    requires Holds(fs, o) && RegularHistory(fs, events, o)
    ensures KeptUntilFinalized(fs, History(fs, events), o)
    decreases |events|
  {
    if events != [] {
      var first := EventOps(fs, events[0]);
      EventKeeps(fs, events[0], o);
      KeptOrFinalized(fs, first, o);
      KeptSplits(fs, first, History(After(fs, first), events[1..]), o);
      if !Finalized(fs, first, o) {
        HistoryKeeps(After(fs, first), events[1..], o);
      }
    }
  }

  /** Crash preservation: through any number of starts, failures, uploads and crashes, the database
      that was there at the beginning is on disk after every single change, until finalization deletes
      the backup directory that holds it and that an applied marker names. */
  lemma Lifetime(fs: Fs, events: seq<Event>, o: Content, k: nat)
    requires Holds(fs, o) && RegularHistory(fs, events, o) && k <= |History(fs, events)|
    ensures Holds(After(fs, History(fs, events)[..k]), o) || Finalized(fs, History(fs, events)[..k], o)
  {
    HistoryKeeps(fs, events, o);
    CrashKeeps(fs, History(fs, events), k, o);
  }
}
