/** The login session registry: a hot set of at most 25 records in memory and an overflow table in
    SQLite, behind one lock. A statement on the table either succeeds or fails without effect;
    it can fail only in a registry declared faulty. Expiries are whole seconds, so time is too.
    Tokens and epochs are random, hence fresh. The database handle is open. */
module LoginSessions {
  import opened Text

  const MAX_IN_MEMORY: nat := 25
  const MAX_MINUTES := 72 * 60

  type Token = nat      // hex SHA-256 of the cookie's token
  type Version = nat
  type Epoch = nat

  datatype Record = Record(
    userName: string,
    version: Version,
    epoch: Epoch,
    expiresAt: int,
    lastActivityAt: int,
    idleMinutes: int)

  type Sessions = map<Token, Record>

  datatype Reason = Valid | LiveChanged | VersionMismatch | Restarted | Timeout | LiveMissing | StoreFailed

  datatype Storage = Memory | Database

  /** EffectiveSessionMaxAgeMinutes. */
  function Effective(minutes: int): (r: int)
    ensures 0 < r <= MAX_MINUTES
    ensures 0 < minutes <= MAX_MINUTES ==> r == minutes
  {
    if minutes <= 0 || minutes > MAX_MINUTES then MAX_MINUTES else minutes
  }

  /** loginSessionRecordFromModel: reading a row normalises its idle limit. */
  function FromRow(row: Record): (r: Record) {
    row.(idleMinutes := Effective(row.idleMinutes))
  }

  /** loginSessionRecordReasonLocked. */
  function ReasonOf(r: Record, version: Version, epoch: Epoch, now: int): (reason: Reason) {
    if Blank(r.userName) then LiveChanged
    else if r.version != version then VersionMismatch
    else if r.epoch != epoch then Restarted
    else if r.expiresAt <= now then Timeout
    else Valid
  }

  predicate Alive(r: Record, version: Version, epoch: Epoch, now: int) {
    ReasonOf(r, version, epoch, now).Valid?
  }

  lemma {:induction false} SubsetSize(a: set<Token>, b: set<Token>)
    requires a <= b
    ensures |a| <= |b|
  {
    if a != {} {
      var t :| t in a;
      SubsetSize(a - {t}, b - {t});
    }
  }

  function Renamed(m: Sessions, oldName: string, newName: string): (r: Sessions) {
    map t | t in m :: if m[t].userName == oldName then m[t].(userName := newName) else m[t]
  }

  function Filter(m: Sessions, version: Version, epoch: Epoch, now: int): (r: Sessions) {
    map t | t in m && Alive(m[t], version, epoch, now) :: m[t]
  }

  // ---------------------------------------------------------------------------------------
  // The two tiers
  // ---------------------------------------------------------------------------------------

  /** Memory is bounded, the tiers are disjoint, and rows read back as they were written. */
  ghost predicate Shape(s: Sessions, d: Sessions) {
    && |s| <= MAX_IN_MEMORY
    && s.Keys !! d.Keys
    && (forall t :: t in d ==> FromRow(d[t]) == d[t])
  }

  /** Rows went from the table into memory, or were dropped because they are dead at `now`. */
  ghost predicate Moves(
      s: Sessions, d: Sessions, s': Sessions, d': Sessions, version: Version, epoch: Epoch, now: int)
  {
    && (forall t :: t in s ==> t in s' && s'[t] == s[t])
    && (forall t :: t in d' ==> t in d && d'[t] == d[t])
    && (forall t :: t in s' && t !in s ==> t in d && s'[t] == d[t])
    && (forall t :: t in d && t !in d' && t !in s' ==> !Alive(d[t], version, epoch, now))
  }

  lemma MovesRound(
      s: Sessions, d: Sessions, s': Sessions, d': Sessions, version: Version, epoch: Epoch, now: int, t: Token)
    requires Shape(s', d') && |s'| < MAX_IN_MEMORY && t in d'
    requires Moves(s, d, s', d', version, epoch, now)
    ensures var alive := Alive(d'[t], version, epoch, now);
            var s'' := if alive then s'[t := d'[t]] else s';
            Shape(s'', d' - {t}) && Moves(s, d, s'', d' - {t}, version, epoch, now)
  {
  }

  /** pruneExpiredLoginSessionsLocked. */
  method PruneMemory(s0: Sessions, version: Version, epoch: Epoch, now: int) returns (s: Sessions)
    ensures s == Filter(s0, version, epoch, now) && |s| <= |s0|
  {
    s := s0;
    var todo := s.Keys;
    while todo != {}
      invariant todo <= s.Keys <= s0.Keys
      invariant forall t :: t in s0 && (t in todo || Alive(s0[t], version, epoch, now)) <==> t in s
      invariant forall t :: t in s ==> s[t] == s0[t]
      decreases |todo|
    {
      var t :| t in todo;
      if !ReasonOf(s[t], version, epoch, now).Valid? {
        s := s - {t};
      }
      todo := todo - {t};
    }
    SubsetSize(s.Keys, s0.Keys);
  }

  /** refillInMemoryLoginSessionsLocked: each round takes one row out of the table, into memory if it
      is alive, so it ends; with every statement succeeding it stops only with memory full or the
      table empty. */
  method RefillMemory(s0: Sessions, d0: Sessions, version: Version, epoch: Epoch, now: int, faulty: bool)
    returns (s: Sessions, d: Sessions, ok: bool, emptied: bool)
    requires Shape(s0, d0)
    ensures Shape(s, d) && Moves(s0, d0, s, d, version, epoch, now)
    ensures emptied ==> d.Keys == {}
    ensures !faulty ==> ok && (|s| == MAX_IN_MEMORY || d.Keys == {})
  {
    s, d, ok, emptied := s0, d0, true, false;
    while |s| < MAX_IN_MEMORY
      invariant Shape(s, d) && ok && Moves(s0, d0, s, d, version, epoch, now)
      decreases |d.Keys|
    {
      if faulty {
        ok := *;
        if !ok { return; }
      }
      if d.Keys == {} {
        emptied := true;
        return;
      }
      var t :| t in d.Keys;
      MovesRound(s0, d0, s, d, version, epoch, now, t);
      var record := FromRow(d[t]);
      if faulty {
        ok := *;
        if !ok { return; }
      }
      d := d - {t};
      if ReasonOf(record, version, epoch, now).Valid? {
        s := s[t := record];
      }
    }
  }

  // ---------------------------------------------------------------------------------------
  // The registry's state
  // ---------------------------------------------------------------------------------------

  datatype State = State(
    version: Version,
    faulty: bool,             // whether statements on the table may fail
    epoch: Epoch,
    sessions: Sessions,
    hasPersisted: bool,
    table: Sessions,
    // history, read by no operation
    model: Sessions,          // one unbounded map, changed by the operations alone
    clock: int,               // the latest time an operation has seen
    epochs: set<Epoch>,       // every epoch used so far
    issued: set<Token>,       // every token stored so far
    revoked: set<Token>)      // the tokens issued before the latest epoch

  /** Each record was issued under a known epoch, and none of a revoked token carries the current one. */
  ghost predicate Traced(m: Sessions, r: State) {
    forall t :: t in m ==> t in r.issued && m[t].epoch in r.epochs && (t in r.revoked ==> m[t].epoch != r.epoch)
  }

  /** With the flag down the minute cleanup may skip the table: no row carries the current epoch. */
  ghost predicate FlagOk(r: State) {
    !r.hasPersisted ==> forall t :: t in r.table ==> r.table[t].epoch != r.epoch
  }

  ghost predicate Safe(r: State) {
    && Shape(r.sessions, r.table)
    && Traced(r.sessions, r) && Traced(r.table, r)
    && FlagOk(r)
    && r.epoch in r.epochs && r.revoked <= r.issued
  }

  /** Memory and table together are the one unbounded map, without some records dead by now. */
  ghost predicate Coupled(r: State) {
    && (forall t :: t in r.sessions ==> t in r.model && r.model[t] == r.sessions[t])
    && (forall t :: t in r.table ==> t in r.model && r.model[t] == r.table[t])
    && (forall t :: t in r.model && t !in r.sessions && t !in r.table ==>
          !Alive(r.model[t], r.version, r.epoch, r.clock))
  }

  /** Rows exist in the table only while memory is full. */
  ghost predicate Packed(s: Sessions, d: Sessions) {
    d.Keys != {} ==> |s| == MAX_IN_MEMORY
  }

  ghost predicate Inv(r: State) {
    Safe(r) && (!r.faulty ==> Coupled(r) && Packed(r.sessions, r.table))
  }

  /** The step from `r` to `n` only moved records between the tiers or dropped records dead at `now`. */
  ghost predicate Keeps(r: State, n: State, now: int) {
    && n == r.(sessions := n.sessions, table := n.table, hasPersisted := n.hasPersisted, clock := now)
    && Shape(n.sessions, n.table)
    && (!r.faulty ==> Packed(n.sessions, n.table))
    && (n.hasPersisted == r.hasPersisted || n.table.Keys == {})
    && (forall t :: t in n.sessions ==>
          (t in r.sessions && n.sessions[t] == r.sessions[t]) || (t in r.table && n.sessions[t] == r.table[t]))
    && (forall t :: t in n.table ==> t in r.table && n.table[t] == r.table[t])
    && (forall t :: t in r.sessions && t !in n.sessions && t !in n.table ==>
          !Alive(r.sessions[t], r.version, r.epoch, now))
    && (forall t :: t in r.table && t !in n.sessions && t !in n.table ==> !Alive(r.table[t], r.version, r.epoch, now))
  }

  lemma KeepsInv(r: State, n: State, now: int)
    requires Inv(r) && r.clock <= now && Keeps(r, n, now)
    ensures Inv(n)
  {
  }

  /** Dropping dead records from memory and then refilling it keeps the invariant. */
  lemma DropThenRefill(r: State, kept: Sessions, n: State, now: int)
    requires Inv(r) && r.clock <= now
    requires n == r.(sessions := n.sessions, table := n.table, hasPersisted := n.hasPersisted, clock := now)
    requires n.hasPersisted == r.hasPersisted || n.table.Keys == {}
    requires Shape(n.sessions, n.table) && (!r.faulty ==> Packed(n.sessions, n.table))
    requires forall t :: t in kept ==> t in r.sessions && kept[t] == r.sessions[t]
    requires forall t :: t in r.sessions && t !in kept ==> !Alive(r.sessions[t], r.version, r.epoch, now)
    requires Moves(kept, r.table, n.sessions, n.table, r.version, r.epoch, now)
    ensures Keeps(r, n, now) && Inv(n)
  {
    assert Keeps(r, n, now);
    KeepsInv(r, n, now);
  }

  /** Refill after memory was cut down to `kept`. */
  method RefillFrom(r: State, kept: Sessions, now: int) returns (n: State)
    requires Inv(r) && r.clock <= now && |kept| <= |r.sessions|
    requires forall t :: t in kept ==> t in r.sessions && kept[t] == r.sessions[t]
    requires forall t :: t in r.sessions && t !in kept ==> !Alive(r.sessions[t], r.version, r.epoch, now)
    ensures Keeps(r, n, now) && Inv(n)
    ensures !r.faulty ==> |n.sessions| == MAX_IN_MEMORY || n.table.Keys == {}
  {
    var s, d, ok, emptied := RefillMemory(kept, r.table, r.version, r.epoch, now, r.faulty);
    n := r.(sessions := s, table := d, hasPersisted := r.hasPersisted && !emptied, clock := now);
    DropThenRefill(r, kept, n, now);
  }

  // ---------------------------------------------------------------------------------------
  // Operations
  // ---------------------------------------------------------------------------------------

  /** A statement on the table: it may fail only in a faulty registry. */
  method Statement(faulty: bool) returns (ok: bool)
    ensures !faulty ==> ok
  {
    ok := true;
    if faulty { ok := *; }
  }

  lemma PlaceKeeps(r: State, n: State, t: Token, record: Record)
    requires Inv(r) && t !in r.issued && record.epoch == r.epoch && FromRow(record) == record
    requires n == r.(sessions := n.sessions, table := n.table, hasPersisted := n.hasPersisted,
                     issued := r.issued + {t}, model := r.model[t := record])
    requires || (|r.sessions| < MAX_IN_MEMORY && n.sessions == r.sessions[t := record] && n.table == r.table &&
                 n.hasPersisted == r.hasPersisted && (!r.faulty ==> r.table.Keys == {}))
             || (|r.sessions| == MAX_IN_MEMORY && n.sessions == r.sessions && n.table == r.table[t := record] &&
                 n.hasPersisted)
    ensures Inv(n)
  {
  }

  /** What only a rotation, or the storing of a token, changes. */
  predicate SameHistory(r: State, n: State) {
    && n.version == r.version && n.faulty == r.faulty && n.epoch == r.epoch
    && n.epochs == r.epochs && n.issued == r.issued && n.revoked == r.revoked
  }

  /** SetLoginUser and storeLoginSession: the new session goes to memory if there is room once dead
      records are gone and waiting rows have been promoted, and to the table otherwise. */
  method Store(r: State, t: Token, userName: string, minutes: int, at: int, now: int)
    returns (n: State, record: Record, ok: bool)
    requires Inv(r) && r.clock <= now && t !in r.issued
    ensures Inv(n) && n.clock == now && n.issued == r.issued + {t}
    ensures (n.version, n.faulty, n.epoch, n.epochs, n.revoked) == (r.version, r.faulty, r.epoch, r.epochs, r.revoked)
    ensures record == Record(userName, r.version, r.epoch, at + Effective(minutes) * 60, at, Effective(minutes))
    ensures !r.faulty ==> ok
    ensures n.model == if ok then r.model[t := record] else r.model
  {
    var kept := PruneMemory(r.sessions, r.version, r.epoch, now);
    var m := RefillFrom(r, kept, now);
    assert m.issued == r.issued && m.epoch == r.epoch && m.model == r.model;
    record := Record(userName, r.version, r.epoch, at + Effective(minutes) * 60, at, Effective(minutes));
    ok := true;
    if |m.sessions| < MAX_IN_MEMORY {
      n := m.(sessions := m.sessions[t := record], issued := m.issued + {t}, model := m.model[t := record]);
      PlaceKeeps(m, n, t, record);
    } else {
      ok := Statement(m.faulty);
      if ok {
        n := m.(table := m.table[t := record], hasPersisted := true, issued := m.issued + {t},
                model := m.model[t := record]);
        PlaceKeeps(m, n, t, record);
      } else {
        n := m.(issued := m.issued + {t});
      }
    }
  }

  /** What the one unbounded map answers. */
  predicate ModelAlive(r: State, t: Token, now: int) {
    t in r.model && Alive(r.model[t], r.version, r.epoch, now)
  }

  function Lookup(m: Sessions, t: Token): (r: Record) {
    if t in m then m[t] else Record("", 0, 0, 0, 0, 0)
  }

  lemma PromoteKeeps(r: State, n: State, t: Token, now: int)
    requires Inv(r) && r.clock <= now && t in r.table && |r.sessions| < MAX_IN_MEMORY
    requires n == r.(sessions := r.sessions[t := r.table[t]], table := r.table - {t}, clock := now)
    ensures Keeps(r, n, now) && Inv(n)
  {
    assert Keeps(r, n, now);
    KeepsInv(r, n, now);
  }

  lemma DeleteDeadKeeps(r: State, n: State, t: Token, now: int)
    requires Inv(r) && r.clock <= now && t in r.table && !Alive(r.table[t], r.version, r.epoch, now)
    requires n == r.(table := r.table - {t}, clock := now)
    ensures Keeps(r, n, now) && Inv(n)
  {
    assert Keeps(r, n, now);
    KeepsInv(r, n, now);
  }

  lemma TickKeeps(r: State, now: int)
    requires Inv(r) && r.clock <= now
    ensures Keeps(r, r.(clock := now), now) && Inv(r.(clock := now))
  {
  }

  /** loadLoginSessionLocked: with every statement succeeding the answer is that of the one
      unbounded map; a revoked token is refused whatever fails. */
  method Load(r: State, t: Token, now: int) returns (n: State, record: Record, storage: Storage, reason: Reason)
    requires Inv(r) && r.clock <= now
    ensures Keeps(r, n, now) && Inv(n)
    ensures reason.Valid? ==> Alive(record, r.version, r.epoch, now)
    ensures reason.Valid? ==>
      if storage.Memory? then t in n.sessions && record == n.sessions[t] else t in n.table && record == n.table[t]
    ensures t in r.revoked ==> !reason.Valid?
    ensures !r.faulty ==> (reason.Valid? <==> ModelAlive(r, t, now)) && (reason.Valid? ==> record == r.model[t])
  {
    n, record, storage := r.(clock := now), Lookup(r.sessions, t), Memory;
    TickKeeps(r, now);
    if t in r.sessions {
      reason := ReasonOf(record, r.version, r.epoch, now);
      if !reason.Valid? {
        var kept := r.sessions - {t};
        SubsetSize(kept.Keys, r.sessions.Keys);
        n := RefillFrom(r, kept, now);
      }
      return;
    }
    storage, reason := Database, LiveMissing;
    var read := Statement(r.faulty);
    if !read {
      reason := StoreFailed;
      return;
    }
    if t !in r.table { return; }
    record := FromRow(r.table[t]);
    reason := ReasonOf(record, r.version, r.epoch, now);
    if !reason.Valid? {
      var deleted := Statement(r.faulty);
      if deleted {
        n := r.(table := r.table - {t}, clock := now);
        DeleteDeadKeeps(r, n, t, now);
      } else {
        reason := StoreFailed;
      }
    } else if |r.sessions| < MAX_IN_MEMORY {
      var deleted := Statement(r.faulty);
      if deleted {
        n, storage := r.(sessions := r.sessions[t := record], table := r.table - {t}, clock := now), Memory;
        PromoteKeeps(r, n, t, now);
      }
    }
  }

  function Refreshed(record: Record, setting: int, now: int): (r: Record) {
    record.(idleMinutes := Effective(setting), expiresAt := now + Effective(setting) * 60, lastActivityAt := now)
  }

  lemma ReplaceKeeps(r: State, n: State, t: Token, record: Record)
    requires Inv(r)
    requires || (t in r.sessions && record.epoch == r.sessions[t].epoch &&
                 n == r.(sessions := r.sessions[t := record], model := r.model[t := record]))
             || (t in r.table && record.epoch == r.table[t].epoch && FromRow(record) == record &&
                 n == r.(table := r.table[t := record], model := r.model[t := record]))
    ensures Inv(n)
  {
    if t in r.sessions {
      assert n.sessions.Keys == r.sessions.Keys;
      assert |n.sessions.Keys| == |r.sessions.Keys|;
    } else {
      assert n.table.Keys == r.table.Keys;
    }
  }

  /** refreshLoginSession; `setting` is the configured timeout, or the record's own if it cannot be read. */
  method Refresh(r: State, t: Token, setting: int, now: int)
    returns (n: State, record: Record, refreshed: bool, reason: Reason)
    requires Inv(r) && r.clock <= now
    ensures Inv(n) && n.clock == now
    ensures SameHistory(r, n)
    ensures t in r.revoked ==> !refreshed
    ensures !r.faulty ==> (refreshed <==> ModelAlive(r, t, now))
    ensures !r.faulty && refreshed ==> record == Refreshed(r.model[t], setting, now)
    ensures n.model == if refreshed then r.model[t := record] else r.model
  {
    var storage;
    n, record, storage, reason := Load(r, t, now);
    refreshed := false;
    if !reason.Valid? { return; }
    record := Refreshed(record, setting, now);
    if storage.Memory? {
      var m := n;
      n := n.(sessions := n.sessions[t := record], model := n.model[t := record]);
      ReplaceKeeps(m, n, t, record);
    } else {
      var updated := Statement(r.faulty);
      if !updated {
        reason := StoreFailed;
        return;
      }
      var m := n;
      n := n.(table := n.table[t := record], model := n.model[t := record]);
      ReplaceKeeps(m, n, t, record);
    }
    refreshed := true;
  }

  lemma ForgetKeeps(r: State, t: Token)
    requires Safe(r) && (!r.faulty ==> Coupled(r))
    ensures var n := r.(sessions := r.sessions - {t}, table := r.table - {t}, model := r.model - {t});
            Safe(n) && (!r.faulty ==> Coupled(n))
    ensures var n := r.(sessions := r.sessions - {t}, model := r.model - {t});
            r.faulty ==> Safe(n)
  {
    SubsetSize((r.sessions - {t}).Keys, r.sessions.Keys);
  }

  lemma RefillKeeps(r: State, n: State, now: int)
    requires Safe(r) && (!r.faulty ==> Coupled(r)) && r.clock <= now
    requires n == r.(sessions := n.sessions, table := n.table, hasPersisted := n.hasPersisted, clock := now)
    requires n.hasPersisted == r.hasPersisted || n.table.Keys == {}
    requires Shape(n.sessions, n.table) && (!r.faulty ==> Packed(n.sessions, n.table))
    requires Moves(r.sessions, r.table, n.sessions, n.table, r.version, r.epoch, now)
    ensures Inv(n)
  {
  }

  method RefillAt(r: State, now: int) returns (n: State)
    requires Safe(r) && (!r.faulty ==> Coupled(r)) && r.clock <= now
    ensures Inv(n) && n.clock == now
    ensures n == r.(sessions := n.sessions, table := n.table, hasPersisted := n.hasPersisted, clock := now)
    ensures forall t :: t in n.sessions ==>
      (t in r.sessions && n.sessions[t] == r.sessions[t]) || (t in r.table && n.sessions[t] == r.table[t])
    ensures forall t :: t in n.table ==> t in r.table && n.table[t] == r.table[t]
  {
    var s, d, ok, emptied := RefillMemory(r.sessions, r.table, r.version, r.epoch, now, r.faulty);
    n := r.(sessions := s, table := d, hasPersisted := r.hasPersisted && !emptied, clock := now);
    RefillKeeps(r, n, now);
  }

  /** removeLoginSession: the session is in neither tier afterwards, unless the delete statement fails;
      then a row of it stays as it was. */
  method Remove(r: State, t: Token, now: int) returns (n: State, deleted: bool)
    requires Inv(r) && r.clock <= now
    ensures Inv(n) && n.clock == now && n.model == r.model - {t}
    ensures SameHistory(r, n)
    ensures t !in n.sessions && (!r.faulty ==> deleted)
    ensures if deleted then t !in n.table else n.table == r.table
  {
    ForgetKeeps(r, t);
    deleted := Statement(r.faulty);
    if !deleted {
      n := r.(sessions := r.sessions - {t}, model := r.model - {t}, clock := now);
      return;
    }
    n := RefillAt(r.(sessions := r.sessions - {t}, table := r.table - {t}, model := r.model - {t}), now);
  }

  function RenamedState(r: State, oldName: string, newName: string): (n: State) {
    r.(sessions := Renamed(r.sessions, oldName, newName), table := Renamed(r.table, oldName, newName),
       model := Renamed(r.model, oldName, newName))
  }

  lemma RenameKeepsSafe(r: State, oldName: string, newName: string)
    requires Safe(r)
    ensures Safe(RenamedState(r, oldName, newName))
    ensures |Renamed(r.sessions, oldName, newName)| == |r.sessions|
  {
    assert Renamed(r.sessions, oldName, newName).Keys == r.sessions.Keys;
    assert |Renamed(r.sessions, oldName, newName).Keys| == |r.sessions.Keys|;
    assert Renamed(r.table, oldName, newName).Keys == r.table.Keys;
  }

  lemma RenameKeepsCoupled(r: State, oldName: string, newName: string)
    requires Coupled(r) && !Blank(oldName) && !Blank(newName)
    ensures Coupled(RenamedState(r, oldName, newName))
  {
  }

  /** The rename as it acts on the one map: names are trimmed, and an empty or unchanged name does nothing. */
  function RenameModel(m: Sessions, oldName: string, newName: string): (r: Sessions) {
    var a, b := TrimSpace(oldName), TrimSpace(newName);
    if a == "" || b == "" || a == b then m else Renamed(m, a, b)
  }

  /** RenameLoginSessionUser. */
  method Rename(r: State, oldName: string, newName: string) returns (n: State, ok: bool)
    requires Inv(r)
    ensures Inv(n) && n.clock == r.clock
    ensures SameHistory(r, n)
    ensures !r.faulty ==> ok
    ensures n.model == if ok then RenameModel(r.model, oldName, newName) else r.model
  {
    n, ok := r, true;
    var a, b := TrimSpace(oldName), TrimSpace(newName);
    if a == "" || b == "" || a == b { return; }
    ok := Statement(r.faulty);
    if ok {
      TrimSpaceEnds(oldName);
      TrimSpaceEnds(newName);
      assert !IsSpace(a[0]) && !IsSpace(b[0]);
      n := RenamedState(r, a, b);
      RenameKeepsSafe(r, a, b);
      if !r.faulty { RenameKeepsCoupled(r, a, b); }
    }
  }

  /** The WHERE clause of prunePersistedLoginSessionsLocked. */
  predicate RowExpired(row: Record, version: Version, epoch: Epoch, now: int) {
    row.expiresAt <= now || row.version != version || row.epoch != epoch
  }

  function WithoutExpired(d: Sessions, version: Version, epoch: Epoch, now: int): (r: Sessions) {
    map t | t in d && !RowExpired(d[t], version, epoch, now) :: d[t]
  }

  lemma PruneKeeps(r: State, kept: Sessions, now: int)
    requires Inv(r) && r.clock <= now && kept == Filter(r.sessions, r.version, r.epoch, now) && |kept| <= |r.sessions|
    ensures var n := r.(sessions := kept, clock := now);
            Safe(n) && (!r.faulty ==> Coupled(n))
  {
  }

  lemma PruneTableKeeps(r: State)
    requires Safe(r) && (!r.faulty ==> Coupled(r))
    ensures var n := r.(table := WithoutExpired(r.table, r.version, r.epoch, r.clock));
            Safe(n) && (!r.faulty ==> Coupled(n))
  {
  }

  /** Nothing is past its time or of an earlier epoch. */
  ghost predicate AllCurrent(m: Sessions, epoch: Epoch, now: int) {
    forall t :: t in m ==> m[t].expiresAt > now && m[t].epoch == epoch
  }

  lemma PrunedAreCurrent(s: Sessions, d: Sessions, version: Version, epoch: Epoch, now: int)
    ensures AllCurrent(Filter(s, version, epoch, now), epoch, now)
    ensures AllCurrent(WithoutExpired(d, version, epoch, now), epoch, now)
  {
  }

  method PruneBoth(r: State, now: int) returns (n: State)
    requires Inv(r) && r.clock <= now
    ensures Inv(n) && n.clock == now && n.model == r.model && SameHistory(r, n)
    ensures !r.faulty ==> AllCurrent(n.sessions, r.epoch, now) && AllCurrent(n.table, r.epoch, now)
  {
    var kept := PruneMemory(r.sessions, r.version, r.epoch, now);
    PruneKeeps(r, kept, now);
    var pruned := Statement(r.faulty);
    if !pruned {
      n := r.(sessions := kept, clock := now);
      return;
    }
    PruneTableKeeps(r.(sessions := kept, clock := now));
    PrunedAreCurrent(r.sessions, r.table, r.version, r.epoch, now);
    n := RefillAt(r.(sessions := kept, table := WithoutExpired(r.table, r.version, r.epoch, now), clock := now), now);
  }

  /** One tick of the cleanup goroutine: what is past its time leaves both tiers. Its fast path, taken
      with no record in memory and the flag down, leaves out nothing that any request could still use. */
  method Cleanup(r: State, now: int) returns (n: State, skipped: bool)
    requires Inv(r) && r.clock <= now
    ensures Inv(n) && n.clock == now && n.model == r.model
    ensures SameHistory(r, n)
    ensures skipped ==>
      forall t :: t in r.sessions || t in r.table ==> t in r.table && !Alive(r.table[t], r.version, r.epoch, now)
    ensures !skipped && !r.faulty ==> AllCurrent(n.sessions, r.epoch, now) && AllCurrent(n.table, r.epoch, now)
  {
    skipped := false;
    if |r.sessions| == 0 && !r.hasPersisted {
      skipped := true;
      n := r.(clock := now);
      TickKeeps(r, now);
      return;
    }
    n := PruneBoth(r, now);
  }

  /** InvalidateAllLoginSessions, and InitializeLoginSessionStore with `initialize`: every session is
      dropped and a fresh epoch begins, even if the table cannot be cleared. */
  method Rotate(r: State, epoch: Epoch, initialize: bool) returns (n: State, ok: bool)
    requires Inv(r) && epoch !in r.epochs
    ensures Inv(n) && n.clock == r.clock && n.epoch == epoch && n.model == map[]
    ensures n.revoked == n.issued == r.issued && n.version == r.version && n.faulty == r.faulty
    ensures n.epochs == r.epochs + {epoch} && n.sessions == map[]
    ensures (!r.faulty ==> ok) && (ok ==> n.table == map[])
  {
    var counted := Statement(r.faulty);
    var deleted := Statement(r.faulty);
    ok := counted && deleted;
    n := r.(sessions := map[], epoch := epoch, epochs := r.epochs + {epoch}, revoked := r.issued, model := map[],
            hasPersisted := r.hasPersisted && !initialize, table := if ok then map[] else r.table);
  }

  // ---------------------------------------------------------------------------------------
  // Whole runs
  // ---------------------------------------------------------------------------------------

  datatype Op =
    | Login(t: Token, userName: string, minutes: int, at: int, now: int)
    | Check(t: Token, now: int)
    | Touch(t: Token, setting: int, now: int)
    | Logout(t: Token, now: int)
    | RenameUser(oldName: string, newName: string)
    | Tick(now: int)
    | RotateEpoch(newEpoch: Epoch, initialize: bool)

  datatype Answer = Accepted(record: Record) | Rejected | Done

  /** One unbounded map of sessions: no tiers, no capacity, nothing ever pruned. */
  datatype Ideal = Ideal(sessions: Sessions, version: Version, epoch: Epoch)

  predicate IdealAlive(i: Ideal, t: Token, now: int) {
    t in i.sessions && Alive(i.sessions[t], i.version, i.epoch, now)
  }

  function IdealStep(i: Ideal, op: Op): (r: (Ideal, Answer)) {
    match op
    case Login(t, userName, minutes, at, _) =>
      var record := Record(userName, i.version, i.epoch, at + Effective(minutes) * 60, at, Effective(minutes));
      (i.(sessions := i.sessions[t := record]), Accepted(record))
    case Check(t, now) => (i, if IdealAlive(i, t, now) then Accepted(i.sessions[t]) else Rejected)
    case Touch(t, setting, now) =>
      if IdealAlive(i, t, now) then
        var record := Refreshed(i.sessions[t], setting, now);
        (i.(sessions := i.sessions[t := record]), Accepted(record))
      else (i, Rejected)
    case Logout(t, _) => (i.(sessions := i.sessions - {t}), Done)
    case RenameUser(a, b) => (i.(sessions := RenameModel(i.sessions, a, b)), Done)
    case Tick(_) => (i, Done)
    case RotateEpoch(newEpoch, _) => (Ideal(map[], i.version, newEpoch), Done)
  }

  function IdealAnswers(i: Ideal, ops: seq<Op>): (answers: seq<Answer>)
    ensures |answers| == |ops|
    decreases |ops|
  {
    if ops == [] then [] else
    var (next, answer) := IdealStep(i, ops[0]);
    [answer] + IdealAnswers(next, ops[1..])
  }

  predicate CanServe(r: State, op: Op) {
    match op
    case Login(t, _, _, _, now) => t !in r.issued && r.clock <= now
    case Check(_, now) => r.clock <= now
    case Touch(_, _, now) => r.clock <= now
    case Logout(_, now) => r.clock <= now
    case RenameUser(_, _) => true
    case Tick(now) => r.clock <= now
    case RotateEpoch(newEpoch, _) => newEpoch !in r.epochs
  }

  function IdealOf(r: State): (i: Ideal) {
    Ideal(r.model, r.version, r.epoch)
  }

  /** One request. With no failing statement it answers like the ideal map and keeps in step with it;
      whatever fails, a token issued before the last rotation is rejected, and stays revoked. */
  method ServeOne(r: State, op: Op) returns (n: State, answer: Answer)
    requires Inv(r) && CanServe(r, op)
    ensures Inv(n) && n.faulty == r.faulty
    ensures !r.faulty ==> IdealStep(IdealOf(r), op) == (IdealOf(n), answer)
    ensures (op.Check? || op.Touch?) && op.t in r.revoked ==> answer.Rejected?
    ensures r.revoked <= n.revoked && (op.RotateEpoch? ==> n.revoked == r.issued)
  {
    answer := Done;
    match op {
      case Login(t, userName, minutes, at, now) =>
        var record, ok;
        n, record, ok := Store(r, t, userName, minutes, at, now);
        answer := if ok then Accepted(record) else Rejected;
      case Check(t, now) =>
        var record, storage, reason;
        n, record, storage, reason := Load(r, t, now);
        answer := if reason.Valid? then Accepted(record) else Rejected;
      case Touch(t, setting, now) =>
        var record, refreshed, reason;
        n, record, refreshed, reason := Refresh(r, t, setting, now);
        answer := if refreshed then Accepted(record) else Rejected;
      case Logout(t, now) =>
        var deleted;
        n, deleted := Remove(r, t, now);
      case RenameUser(a, b) =>
        var ok;
        n, ok := Rename(r, a, b);
      case Tick(now) =>
        var skipped;
        n, skipped := Cleanup(r, now);
      case RotateEpoch(newEpoch, initialize) =>
        var ok;
        n, ok := Rotate(r, newEpoch, initialize);
    }
  }

  /** The registry behind its lock. `log` pairs every request served with its answer. */
  class Registry {
    var st: State
    ghost var start: Ideal
    ghost var log: seq<(Op, Answer)>

    ghost predicate Valid()
      reads this
    {
      && Inv(st) && start.sessions == map[]
      && (!st.faulty ==> Replays(start, log, IdealOf(st)))
    }

    constructor (version: Version, epoch: Epoch, faulty: bool)
      ensures Valid() && log == [] && st.faulty == faulty && st.issued == {}
    {
      st := State(version, faulty, epoch, map[], false, map[], map[], 0, {epoch}, {}, {});
      start, log := Ideal(map[], version, epoch), [];
    }

    /** Serving a request extends a log that, without failing statements, is exactly what the ideal
        map would have answered from the beginning. */
    method Serve(op: Op) returns (answer: Answer)
      requires Valid() && CanServe(st, op)
      modifies this
      ensures Valid() && st.faulty == old(st.faulty) && start == old(start)
      ensures log == old(log) + [(op, answer)]
      ensures (op.Check? || op.Touch?) && op.t in old(st.revoked) ==> answer.Rejected?
      ensures old(st.revoked) <= st.revoked && (op.RotateEpoch? ==> st.revoked == old(st.issued))
      ensures !st.faulty && (op.Check? || op.Touch?) ==> (answer.Accepted? <==> LoggedIn(old(log), op.t, op.now))
    {
      ghost var before := IdealOf(st);
      if !st.faulty && (op.Check? || op.Touch?) { AnswerExactly(start, log, before, op); }
      st, answer := ServeOne(st, op);
      if !st.faulty { ReplaysAppend(start, log, before, op, IdealOf(st), answer); }
      log := log + [(op, answer)];
    }
  }

  /** Replaying the logged requests on the ideal map gives the logged answers and ends in `end`. */
  ghost predicate Replays(start: Ideal, log: seq<(Op, Answer)>, end: Ideal)
    decreases |log|
  {
    if log == [] then start == end else
    var (next, answer) := IdealStep(start, log[0].0);
    answer == log[0].1 && Replays(next, log[1..], end)
  }

  lemma {:induction false} ReplaysAppend(
      start: Ideal, log: seq<(Op, Answer)>, end: Ideal, op: Op, next: Ideal, answer: Answer)
    requires Replays(start, log, end) && IdealStep(end, op) == (next, answer)
    ensures Replays(start, log + [(op, answer)], next)
    decreases |log|
  {
    if log == [] {
      assert log + [(op, answer)] == [(op, answer)];
    } else {
      assert (log + [(op, answer)])[1..] == log[1..] + [(op, answer)];
      ReplaysAppend(IdealStep(start, log[0].0).0, log[1..], end, op, next, answer);
    }
  }

  /** The same over a whole run: the answers are those of the ideal map. */
  lemma {:induction false} ReplaysAnswers(start: Ideal, log: seq<(Op, Answer)>, end: Ideal)
    requires Replays(start, log, end)
    ensures IdealAnswers(start, seq(|log|, i requires 0 <= i < |log| => log[i].0)) ==
      seq(|log|, i requires 0 <= i < |log| => log[i].1)
    decreases |log|
  {
    var ops := seq(|log|, i requires 0 <= i < |log| => log[i].0);
    if log != [] {
      var rest := log[1..];
      ReplaysAnswers(IdealStep(start, log[0].0).0, rest, end);
      assert ops[1..] == seq(|rest|, i requires 0 <= i < |rest| => rest[i].0);
    }
  }

  // ---------------------------------------------------------------------------------------
  // When a request is accepted, by the log alone
  // ---------------------------------------------------------------------------------------

  type Log = seq<(Op, Answer)>

  /** Minutes from one to 72 hours are taken as they are, all others as 72 hours. */
  function MinutesInForce(minutes: int): (m: int) { if 1 <= minutes <= 4320 then minutes else 4320 }

  predicate IsLogin(op: Op, t: Token) { op.Login? && op.t == t }

  /** The session is opened, or its time begins anew. */
  predicate Begins(entry: (Op, Answer), t: Token) {
    IsLogin(entry.0, t) || (entry.0.Touch? && entry.0.t == t && entry.1.Accepted?)
  }

  /** The session is closed by its user, or all sessions are. */
  predicate Closes(op: Op, t: Token) { (op.Logout? && op.t == t) || op.RotateEpoch? }

  function TimeOf(op: Op): (at: int)
    requires op.Login? || op.Touch?
  {
    if op.Login? then op.at else op.now
  }

  function MinutesOf(op: Op): (minutes: int)
    requires op.Login? || op.Touch?
  {
    MinutesInForce(if op.Login? then op.minutes else op.setting)
  }

  /** Entry `i` is the last login with the token, it has a name, and nothing has closed the session since. */
  ghost predicate OpenedAt(log: Log, t: Token, i: nat) {
    && i < |log| && IsLogin(log[i].0, t) && !Blank(log[i].0.userName)
    && forall k :: i < k < |log| ==> !IsLogin(log[k].0, t) && !Closes(log[k].0, t)
  }

  /** Entry `r` is the last login or accepted refresh of the session. */
  ghost predicate LastBegunAt(log: Log, t: Token, r: nat) {
    && r < |log| && Begins(log[r], t)
    && forall k :: r < k < |log| ==> !Begins(log[k], t)
  }

  /** When the time that begins with entry `r` is over. */
  function RunsOut(log: Log, r: nat): (at: int)
    requires r < |log| && (log[r].0.Login? || log[r].0.Touch?)
  {
    TimeOf(log[r].0) + 60 * MinutesOf(log[r].0)
  }

  /** The session was opened and not closed since, and its time, counted from its last login or accepted
      refresh, is not over. */
  ghost predicate LoggedIn(log: Log, t: Token, now: int) {
    && (exists i: nat :: OpenedAt(log, t, i))
    && (exists r: nat :: LastBegunAt(log, t, r) && now < RunsOut(log, r))
  }

  /** Where the ideal map has the session, and until when. */
  ghost predicate Describes(end: Ideal, log: Log, t: Token) {
    && (t in end.sessions ==> end.sessions[t].version == end.version && end.sessions[t].epoch == end.epoch)
    && (t in end.sessions && !Blank(end.sessions[t].userName) <==> exists i: nat :: OpenedAt(log, t, i))
    && (t in end.sessions ==>
          exists r: nat :: LastBegunAt(log, t, r) && end.sessions[t].expiresAt == RunsOut(log, r))
  }

  lemma {:induction false} ReplaysSplit(start: Ideal, log: Log, end: Ideal) returns (mid: Ideal)
    requires Replays(start, log, end) && log != []
    ensures Replays(start, log[..|log| - 1], mid) && IdealStep(mid, log[|log| - 1].0) == (end, log[|log| - 1].1)
    decreases |log|
  {
    if |log| == 1 {
      mid := start;
    } else {
      var next := IdealStep(start, log[0].0).0;
      mid := ReplaysSplit(next, log[1..], end);
      assert log[..|log| - 1][1..] == log[1..][..|log| - 2];
    }
  }

  lemma OpenedStays(log: Log, entry: (Op, Answer), t: Token)
    requires !IsLogin(entry.0, t) && !Closes(entry.0, t)
    ensures (exists i: nat :: OpenedAt(log + [entry], t, i)) <==> (exists i: nat :: OpenedAt(log, t, i))
  {
    var longer := log + [entry];
    if exists i: nat :: OpenedAt(log, t, i) {
      var i: nat :| OpenedAt(log, t, i);
      assert OpenedAt(longer, t, i);
    }
    if exists i: nat :: OpenedAt(longer, t, i) {
      var i: nat :| OpenedAt(longer, t, i);
      forall k | i < k < |log| ensures !IsLogin(log[k].0, t) && !Closes(log[k].0, t) {
        assert longer[k] == log[k];
      }
      assert OpenedAt(log, t, i);
    }
  }

  lemma BegunStays(log: Log, entry: (Op, Answer), t: Token, r: nat)
    requires LastBegunAt(log, t, r) && !Begins(entry, t)
    ensures LastBegunAt(log + [entry], t, r) && (log + [entry])[r] == log[r]
  {
  }

  lemma ClosedEnds(log: Log, entry: (Op, Answer), t: Token)
    requires Closes(entry.0, t)
    ensures !exists i: nat :: OpenedAt(log + [entry], t, i)
  {
    var longer := log + [entry];
    assert longer[|log|] == entry;
    forall i: nat ensures !OpenedAt(longer, t, i) {}
  }

  /** A rename leaves it as it was whether a session has a name. */
  lemma RenameKeepsNames(m: Sessions, oldName: string, newName: string, t: Token)
    ensures t in RenameModel(m, oldName, newName) <==> t in m
    ensures t in m ==> var r := RenameModel(m, oldName, newName)[t];
      r == m[t].(userName := r.userName) && (Blank(r.userName) <==> Blank(m[t].userName))
  {
    var a, b := TrimSpace(oldName), TrimSpace(newName);
    TrimSpaceEnds(oldName);
    TrimSpaceEnds(newName);
    if a != "" && b != "" {
      assert !IsSpace(a[0]) && !IsSpace(b[0]);
    }
  }

  /** The session is as it was, but for its name. */
  predicate SameButName(a: Ideal, b: Ideal, t: Token) {
    && b.version == a.version && b.epoch == a.epoch && (t in b.sessions <==> t in a.sessions)
    && (t in a.sessions ==>
          && b.sessions[t] == a.sessions[t].(userName := b.sessions[t].userName)
          && (Blank(b.sessions[t].userName) <==> Blank(a.sessions[t].userName)))
  }

  lemma OthersLeave(mid: Ideal, op: Op, t: Token)
    requires !IsLogin(op, t) && !Closes(op, t) && !Begins((op, IdealStep(mid, op).1), t)
    ensures SameButName(mid, IdealStep(mid, op).0, t)
  {
    if op.RenameUser? {
      RenameKeepsNames(mid.sessions, op.oldName, op.newName, t);
    }
  }

  /** Nothing happens to the session but a change of its name. */
  lemma QuietStep(mid: Ideal, log: Log, op: Op, t: Token)
    requires Describes(mid, log, t) && !IsLogin(op, t) && !Closes(op, t) && !Begins((op, IdealStep(mid, op).1), t)
    ensures Describes(IdealStep(mid, op).0, log + [(op, IdealStep(mid, op).1)], t)
  {
    var entry, next := (op, IdealStep(mid, op).1), IdealStep(mid, op).0;
    OpenedStays(log, entry, t);
    OthersLeave(mid, op, t);
    if t in mid.sessions {
      var r: nat :| LastBegunAt(log, t, r) && mid.sessions[t].expiresAt == RunsOut(log, r);
      BegunStays(log, entry, t, r);
    }
  }

  lemma LoginStep(mid: Ideal, log: Log, op: Op, t: Token)
    requires IsLogin(op, t)
    ensures Describes(IdealStep(mid, op).0, log + [(op, IdealStep(mid, op).1)], t)
  {
    var longer := log + [(op, IdealStep(mid, op).1)];
    assert longer[|log|].0 == op;
    assert LastBegunAt(longer, t, |log|);
    if !Blank(op.userName) {
      assert OpenedAt(longer, t, |log|);
    } else {
      forall i: nat ensures !OpenedAt(longer, t, i) {}
    }
  }

  lemma TouchStep(mid: Ideal, log: Log, op: Op, t: Token)
    requires Describes(mid, log, t) && op.Touch? && op.t == t && IdealStep(mid, op).1.Accepted?
    ensures Describes(IdealStep(mid, op).0, log + [(op, IdealStep(mid, op).1)], t)
  {
    var entry := (op, IdealStep(mid, op).1);
    var longer := log + [entry];
    OpenedStays(log, entry, t);
    assert longer[|log|] == entry;
    assert LastBegunAt(longer, t, |log|);
  }

  lemma DescribesStep(mid: Ideal, log: Log, op: Op, t: Token)
    requires Describes(mid, log, t)
    ensures Describes(IdealStep(mid, op).0, log + [(op, IdealStep(mid, op).1)], t)
  {
    var entry := (op, IdealStep(mid, op).1);
    if IsLogin(op, t) {
      LoginStep(mid, log, op, t);
    } else if Closes(op, t) {
      ClosedEnds(log, entry, t);
    } else if Begins(entry, t) {
      TouchStep(mid, log, op, t);
    } else {
      QuietStep(mid, log, op, t);
    }
  }

  lemma {:induction false} LogDescribes(start: Ideal, log: Log, end: Ideal, t: Token)
    requires Replays(start, log, end) && start.sessions == map[]
    ensures Describes(end, log, t)
    decreases |log|
  {
    if log != [] {
      var n := |log| - 1;
      var mid := ReplaysSplit(start, log, end);
      LogDescribes(start, log[..n], mid, t);
      assert log == log[..n] + [log[n]];
      DescribesStep(mid, log[..n], log[n].0, t);
    }
  }

  /** A request is accepted, in a registry whose statements succeed, if and only if the log so far shows
      the session opened under a name, neither logged out nor rotated away since, and within its time. */
  lemma AnswerExactly(start: Ideal, log: Log, end: Ideal, op: Op)
    requires Replays(start, log, end) && start.sessions == map[] && (op.Check? || op.Touch?)
    ensures IdealStep(end, op).1.Accepted? <==> LoggedIn(log, op.t, op.now)
  {
    LogDescribes(start, log, end, op.t);
    if op.t in end.sessions {
      var r: nat :| LastBegunAt(log, op.t, r) && end.sessions[op.t].expiresAt == RunsOut(log, r);
      forall x: nat | LastBegunAt(log, op.t, x) ensures x == r {}
    }
  }

  /** Who a session belongs to after a rename: names are compared and replaced trimmed, and an empty or
      unchanged name does nothing. */
  lemma RenameExactly(m: Sessions, oldName: string, newName: string, t: Token)
    requires t in m
    ensures RenameModel(m, oldName, newName).Keys == m.Keys
    ensures var name := RenameModel(m, oldName, newName)[t].userName;
      name == if m[t].userName == TrimSpace(oldName) != "" && TrimSpace(newName) != "" then TrimSpace(newName)
              else m[t].userName
  {
  }
}
