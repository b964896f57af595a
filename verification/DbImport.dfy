/** Importing a single database file: the running database file is moved to a fallback file and the
    uploaded one takes its place, or the original is moved back. */
module DbImport {
  import opened DbRestore

  datatype Files = Files(db: Dir, fallback: Dir, temp: Dir)

  datatype ImportFaults = ImportFaults(
    closeFails: bool,
    removeFallbackFails: bool,
    renameAwayFails: bool,
    renameInFails: bool,
    migrateFails: bool,
    initFails: bool,
    closeImportedFails: bool,
    removeImportedFails: bool,
    renameBackFails: bool,
    reopenFails: bool,
    dropFallbackFails: bool,
    signalFails: bool)

  /** The import is done; or done, but the panel could not be told to restart; or it failed with the
      original open again; or it failed and something went wrong in bringing the original back. */
  datatype ImportResult = Imported | ImportedNotRestarted | OriginalBack | OriginalNotBack

  predicate FilesHold(fs: Files, original: Dir) {
    fs.db == original || fs.fallback == original
  }

  datatype FileOp = DropFallback | MoveAway | MoveIn | DropImported | MoveBack

  function FileDo(fs: Files, op: FileOp): (r: Files) {
    match op
    case DropFallback => fs.(fallback := Absent)
    case MoveAway => fs.(db := Absent, fallback := fs.db)
    case MoveIn => fs.(db := fs.temp, temp := Absent)
    case DropImported => fs.(db := Absent)
    case MoveBack => fs.(db := fs.fallback, fallback := Absent)
  }

  function FilesAfter(fs: Files, ops: seq<FileOp>): (r: Files)
    decreases |ops|
  {
    if ops == [] then fs else FilesAfter(FileDo(fs, ops[0]), ops[1..])
  }

  predicate FilesKept(fs: Files, ops: seq<FileOp>, original: Dir)
    decreases |ops|
  {
    FilesHold(fs, original) && (ops == [] || FilesKept(FileDo(fs, ops[0]), ops[1..], original))
  }

  lemma {:induction false} FilesJoined(fs: Files, first: seq<FileOp>, second: seq<FileOp>, original: Dir)
    ensures FilesAfter(fs, first + second) == FilesAfter(FilesAfter(fs, first), second)
    ensures FilesKept(fs, first + second, original) <==>
      FilesKept(fs, first, original) && FilesKept(FilesAfter(fs, first), second, original)
    decreases |first|
  {
    if first == [] {
      assert first + second == second;
    } else {
      assert (first + second)[1..] == first[1..] + second;
      FilesJoined(FileDo(fs, first[0]), first[1..], second, original);
    }
  }

  /** The original can be moved back; `imported` tells that the imported file is in its place. */
  predicate MovesBack(imported: bool, f: ImportFaults) {
    !f.closeImportedFails && !(imported && f.removeImportedFails) && !f.renameBackFails
  }

  function RestoreOps(imported: bool, f: ImportFaults): (ops: seq<FileOp>) {
    if f.closeImportedFails || (imported && f.removeImportedFails) then []
    else (if imported then [DropImported] else []) + if f.renameBackFails then [] else [MoveBack]
  }

  /** restoreOriginal. */
  method RestoreOriginal(fs0: Files, f: ImportFaults) returns (result: ImportResult, ops: seq<FileOp>)
    ensures ops == RestoreOps(!fs0.db.Absent?, f)
    ensures result == if MovesBack(!fs0.db.Absent?, f) && !f.reopenFails then OriginalBack else OriginalNotBack
  {
    result, ops := OriginalNotBack, [];
    if f.closeImportedFails { return; }
    if !fs0.db.Absent? {
      if f.removeImportedFails { return; }
      ops := ops + [DropImported];
    }
    if f.renameBackFails { return; }
    ops := ops + [MoveBack];
    if f.reopenFails { return; }
    result := OriginalBack;
  }

  predicate Clears(fs: Files, f: ImportFaults) { fs.fallback.Absent? || !f.removeFallbackFails }

  /** The original is moved to the fallback file. */
  predicate Moves(fs: Files, f: ImportFaults) { !f.closeFails && Clears(fs, f) && !f.renameAwayFails }

  /** The imported file is in place, migrated and opened. */
  predicate Imports(fs: Files, f: ImportFaults) {
    Moves(fs, f) && !f.renameInFails && !f.migrateFails && !f.initFails
  }

  /** An error is reported together with a failure to bring the original back. */
  predicate ImportStuck(fs: Files, f: ImportFaults) {
    if f.closeFails || Imports(fs, f) then false
    else if !Moves(fs, f) then f.reopenFails
    else !MovesBack(!f.renameInFails, f) || f.reopenFails
  }

  function ClearOps(fs: Files): (ops: seq<FileOp>) { if fs.fallback.Absent? then [] else [DropFallback] }

  function ImportOps(fs: Files, f: ImportFaults): (ops: seq<FileOp>) {
    if f.closeFails || !Clears(fs, f) then []
    else if f.renameAwayFails then ClearOps(fs)
    else
      ClearOps(fs) + [MoveAway] +
      if f.renameInFails then RestoreOps(false, f)
      else if f.migrateFails || f.initFails then [MoveIn] + RestoreOps(true, f)
      else [MoveIn] + if f.dropFallbackFails then [] else [DropFallback]
  }

  /** replaceMainDatabaseWithImportedFile: which changes it makes, and exactly when it reports what. */
  method ReplaceMainDatabase(fs0: Files, f: ImportFaults) returns (result: ImportResult, ops: seq<FileOp>)
    requires fs0.db.Whole? && fs0.temp.Whole?
    ensures ops == ImportOps(fs0, f)
    ensures result.Imported? <==> Imports(fs0, f) && !f.signalFails
    ensures result.ImportedNotRestarted? <==> Imports(fs0, f) && f.signalFails
    ensures result.OriginalNotBack? <==> ImportStuck(fs0, f)
  {
    result, ops := OriginalBack, [];
    var fs := fs0;
    if f.closeFails { return; }
    if !fs.fallback.Absent? {
      if f.removeFallbackFails {
        if f.reopenFails { result := OriginalNotBack; }
        return;
      }
      ops := [DropFallback];
      fs := FileDo(fs, DropFallback);
    }
    if f.renameAwayFails {
      if f.reopenFails { result := OriginalNotBack; }
      return;
    }
    ops := ops + [MoveAway];
    fs := FileDo(fs, MoveAway);
    var more;
    if f.renameInFails {
      result, more := RestoreOriginal(fs, f);
      ops := ops + more;
      return;
    }
    fs := FileDo(fs, MoveIn);
    if f.migrateFails || f.initFails {
      result, more := RestoreOriginal(fs, f);
      ops := ops + ([MoveIn] + more);
      return;
    }
    ops := ops + ([MoveIn] + if f.dropFallbackFails then [] else [DropFallback]);
    result := if f.signalFails then ImportedNotRestarted else Imported;
  }

  lemma RestoreEffect(fs: Files, f: ImportFaults)
    requires fs.fallback.Whole?
    ensures var ops := RestoreOps(!fs.db.Absent?, f);
      && FilesKept(fs, ops, fs.fallback)
      && (MovesBack(!fs.db.Absent?, f) ==> FilesAfter(fs, ops).db == fs.fallback)
  {
    var moveBack: seq<FileOp> := [MoveBack];
    assert moveBack[1..] == [];
    if !fs.db.Absent? {
      var first: seq<FileOp> := [DropImported];
      assert first[1..] == [];
      FilesJoined(fs, first, moveBack, fs.fallback);
      assert first + [] == first;
    } else {
      assert [] + moveBack == moveBack;
    }
  }

  /** From the original in the fallback file on. */
  lemma MovedEffect(fs: Files, f: ImportFaults)
    requires fs.db.Absent? && fs.fallback.Whole? && fs.temp.Whole?
    ensures FilesKept(fs, RestoreOps(false, f), fs.fallback)
    ensures MovesBack(false, f) ==> FilesAfter(fs, RestoreOps(false, f)).db == fs.fallback
    ensures FilesKept(fs, [MoveIn] + RestoreOps(true, f), fs.fallback)
    ensures MovesBack(true, f) ==> FilesAfter(fs, [MoveIn] + RestoreOps(true, f)).db == fs.fallback
    ensures FilesAfter(fs, [MoveIn]).db == fs.temp && FilesKept(fs, [MoveIn], fs.fallback)
    ensures FilesAfter(fs, [MoveIn, DropFallback]) == FileDo(FileDo(fs, MoveIn), DropFallback)
  {
    RestoreEffect(fs, f);
    var one: seq<FileOp> := [MoveIn];
    assert one[1..] == [] && [MoveIn, DropFallback][1..] == [DropFallback] && [DropFallback][1..] == [];
    RestoreEffect(FileDo(fs, MoveIn), f);
    FilesJoined(fs, one, RestoreOps(true, f), fs.fallback);
  }

  /** The import: success puts the imported file in place; a plain failure leaves the original active;
      and unless the import succeeds the original is active or in the fallback file after every
      change, as it is until the last change of a successful one. */
  lemma ImportIsAtomic(fs: Files, f: ImportFaults)
    requires fs.db.Whole? && fs.temp.Whole?
    ensures var r := FilesAfter(fs, ImportOps(fs, f));
      && (Imports(fs, f) ==> r.db == fs.temp)
      && (Imports(fs, f) && !f.dropFallbackFails ==>
           r.fallback.Absent? && FilesKept(fs, ImportOps(fs, f)[..|ImportOps(fs, f)| - 1], fs.db))
      && (!Imports(fs, f) && !ImportStuck(fs, f) ==> r.db == fs.db)
      && (!Imports(fs, f) || f.dropFallbackFails ==> FilesKept(fs, ImportOps(fs, f), fs.db))
  {
    var first := ClearOps(fs);
    assert first != [] ==> first[1..] == [];
    var cleared := FilesAfter(fs, first);
    if Moves(fs, f) {
      var away := first + [MoveAway];
      FilesJoined(fs, first, [MoveAway], fs.db);
      assert [MoveAway][1..] == [];
      var moved := FilesAfter(fs, away);
      MovedEffect(moved, f);
      FilesJoined(fs, away, RestoreOps(false, f), fs.db);
      FilesJoined(fs, away, [MoveIn] + RestoreOps(true, f), fs.db);
      FilesJoined(fs, away, [MoveIn], fs.db);
      assert [MoveIn] + [DropFallback] == [MoveIn, DropFallback] && [MoveIn] + [] == [MoveIn];
      FilesJoined(fs, away, [MoveIn, DropFallback], fs.db);
      assert (away + [MoveIn, DropFallback])[..|away| + 1] == away + [MoveIn];
    }
  }
}
