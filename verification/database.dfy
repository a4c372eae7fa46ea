/** `SQLDatabase` (SQLDatabase.swift): a connection with a target schema version, its transaction
    frame and its schema migration. The engine side is a store (the stored `user_version` and the
    tables), the copy of the store taken at BEGIN while a transaction is open, and the log of the
    statements executed. */
module Databases {
  import opened Wrappers
  import opened Values
  import opened Errors
  import opened Rows

  /** Everything the database file holds: the stored `user_version`, the tables, and whether
      deferred foreign-key violations are outstanding (COMMIT refuses to end a transaction then). */
  datatype Store = Store(userVersion: int64, tables: map<string, seq<seq<SQLValue>>>, deferredViolations: bool)

  /** The locks other connections hold on the same file: a shared lock (a reader) blocks
      BEGIN EXCLUSIVE; an exclusive lock (a writer) blocks reads as well. */
  datatype Contention = NoLock | SharedLock | ExclusiveLock

  /** `MigrationType`. */
  datatype MigrationType = Create(version: int64) | Upgrade(fromVersion: int64, toVersion: int64)

  /** `SQLTransactionResult`: what a transaction body asks for. */
  datatype SQLTransactionResult = Commit | Rollback

  /** A statement run on the connection: the fixed statements of the database (named as they are
      in `SQLDatabase.Statements`), a call of the migration callback, or any statement of the
      caller's own code. */
  datatype Event =
    | BeginTransaction
    | CommitTransaction
    | RollbackTransaction
    | UpdateSchemaVersion(version: int64)
    | MigrationCalled(migrationType: MigrationType)
    | Operation(sql: string)

  /** What caller code (a transaction body, `run` operations, a migration) does when called: the
      store it leaves, the statements it runs, and its result or thrown error. */
  datatype Work<T> = Work(store: Store, trace: seq<Event>, result: Result<T, SQLError>)

  /** The connection as the engine sees it. */
  datatype DbState = DbState(store: Store, journal: Option<Store>, log: seq<Event>)

  /** A fixed statement executed on `state`: the state after it, and the error `execute()` throws. */
  datatype Executed = Executed(state: DbState, error: Option<SQLError>)

  /** `beginTransaction.execute()` (BEGIN EXCLUSIVE): fails inside a transaction, and with BUSY when
      another connection holds a lock; otherwise a transaction opens. */
  function ExecuteBegin(state: DbState, contention: Contention): (x: Executed)
    ensures x.state.log == state.log + [BeginTransaction] && x.state.store == state.store
    ensures x.error.None? <==> state.journal.None? && contention == NoLock
    ensures x.error.None? ==> x.state.journal == Some(state.store)
    ensures x.error.Some? ==> x.state.journal == state.journal
    ensures state.journal.Some? ==> x.error == Some(FailedToStepStatementAsWritten(SQLITE_ERROR))
    ensures state.journal.None? && contention != NoLock ==> x.error == Some(FailedToStepStatementAsWritten(SQLITE_BUSY))
  {
    var logged := state.(log := state.log + [BeginTransaction]);
    if state.journal.Some? then Executed(logged, Some(FailedToStepStatementAsWritten(SQLITE_ERROR)))
    else if contention != NoLock then Executed(logged, Some(FailedToStepStatementAsWritten(SQLITE_BUSY)))
    else Executed(logged.(journal := Some(state.store)), None)
  }

  /** `commitTransaction.execute()`: keeps the store; fails when no transaction is open, and with
      CONSTRAINT, leaving the transaction open, while deferred violations are outstanding. */
  function ExecuteCommit(state: DbState): (x: Executed)
    ensures x.state.log == state.log + [CommitTransaction] && x.state.store == state.store
    ensures x.error.None? <==> state.journal.Some? && !state.store.deferredViolations
    ensures x.error.None? ==> x.state.journal.None?
    ensures x.error.Some? ==> x.state.journal == state.journal
    ensures state.journal.None? ==> x.error == Some(FailedToStepStatementAsWritten(SQLITE_ERROR))
    ensures state.journal.Some? && state.store.deferredViolations ==> x.error == Some(FailedToStepStatementAsWritten(SQLITE_CONSTRAINT))
  {
    var logged := state.(log := state.log + [CommitTransaction]);
    if state.journal.None? then Executed(logged, Some(FailedToStepStatementAsWritten(SQLITE_ERROR)))
    else if state.store.deferredViolations then Executed(logged, Some(FailedToStepStatementAsWritten(SQLITE_CONSTRAINT)))
    else Executed(logged.(journal := None), None)
  }

  /** `rollbackTransaction.execute()`: puts back the store copied at BEGIN; fails when no
      transaction is open. */
  function ExecuteRollback(state: DbState): (x: Executed)
    ensures x.state.log == state.log + [RollbackTransaction] && x.state.journal.None?
    ensures x.error.None? <==> state.journal.Some?
    ensures x.error.None? ==> x.state.store == state.journal.value
    ensures x.error.Some? ==> x.state.store == state.store && x.error == Some(FailedToStepStatementAsWritten(SQLITE_ERROR))
  {
    var logged := state.(log := state.log + [RollbackTransaction]);
    if state.journal.None? then Executed(logged, Some(FailedToStepStatementAsWritten(SQLITE_ERROR)))
    else Executed(DbState(state.journal.value, None, logged.log), None)
  }

  /** The state after a transaction and its result. */
  datatype Transacted = Transacted(state: DbState, result: Result<SQLTransactionResult, SQLError>)

  /** The `catch` of `transaction` as written: `try rollbackTransaction.execute()`, then rethrow. A
      failing ROLLBACK throws its own error in place of the one caught. */
  function RecoverAsWritten(state: DbState, caught: SQLError): (t: Transacted)
  {
    var rolledBack := ExecuteRollback(state);
    if rolledBack.error.Some? then Transacted(rolledBack.state, Err(rolledBack.error.value))
    else Transacted(rolledBack.state, Err(caught))
  }

  /** The `catch` of `transaction` as evidently intended: roll back, then rethrow what was caught. */
  function Recover(state: DbState, caught: SQLError): (t: Transacted)
  {
    Transacted(ExecuteRollback(state).state, Err(caught))
  }

  /** `transaction(_:)`, with the `catch` given by `asWritten`: BEGIN, the body, then COMMIT or
      ROLLBACK as the body asks; any error on the way rolls back. */
  function TransactionSpec(state: DbState, contention: Contention, body: Store -> Work<SQLTransactionResult>, asWritten: bool): Transacted
  {
    var begun := ExecuteBegin(state, contention);
    if begun.error.Some? then
      (if asWritten then RecoverAsWritten(begun.state, begun.error.value) else Recover(begun.state, begun.error.value))
    else
      var work := body(begun.state.store);
      var worked := begun.state.(store := work.store, log := begun.state.log + work.trace);
      if work.result.Err? then
        (if asWritten then RecoverAsWritten(worked, work.result.error) else Recover(worked, work.result.error))
      else
        var ended := if work.result.value == Commit then ExecuteCommit(worked) else ExecuteRollback(worked);
        if ended.error.Some? then
          (if asWritten then RecoverAsWritten(ended.state, ended.error.value) else Recover(ended.state, ended.error.value))
        else Transacted(ended.state, Ok(work.result.value))
  }

  /** Outside any transaction and without contention, a body that asks to commit and leaves no
      deferred violation: BEGIN, the body's statements, COMMIT; the body's store is kept and its
      answer returned. */
  lemma TransactionCommits(state: DbState, body: Store -> Work<SQLTransactionResult>, asWritten: bool)
    requires state.journal.None? && body(state.store).result == Ok(Commit) && !body(state.store).store.deferredViolations
    ensures var t := TransactionSpec(state, NoLock, body, asWritten);
            && t.result == Ok(Commit)
            && t.state == DbState(body(state.store).store, None,
                                  state.log + [BeginTransaction] + body(state.store).trace + [CommitTransaction])
  {
  }

  /** Outside any transaction, a body that asks to roll back: its changes are undone and its answer
      returned. */
  lemma TransactionRollsBackOnRequest(state: DbState, body: Store -> Work<SQLTransactionResult>, asWritten: bool)
    requires state.journal.None? && body(state.store).result == Ok(Rollback)
    ensures var t := TransactionSpec(state, NoLock, body, asWritten);
            && t.result == Ok(Rollback)
            && t.state == DbState(state.store, None,
                                  state.log + [BeginTransaction] + body(state.store).trace + [RollbackTransaction])
  {
  }

  /** Outside any transaction, a body that throws: its changes are undone and the same error is
      thrown on. */
  lemma TransactionRollsBackOnError(state: DbState, body: Store -> Work<SQLTransactionResult>, asWritten: bool)
    requires state.journal.None? && body(state.store).result.Err?
    ensures var t := TransactionSpec(state, NoLock, body, asWritten);
            && t.result == Err(body(state.store).result.error)
            && t.state == DbState(state.store, None,
                                  state.log + [BeginTransaction] + body(state.store).trace + [RollbackTransaction])
  {
  }

  /** A body that asks to commit but leaves deferred violations: COMMIT fails with CONSTRAINT and
      keeps the transaction open, so the `catch` rolls it back (that ROLLBACK succeeds) and the
      CONSTRAINT error is thrown; the store is as before BEGIN. */
  lemma TransactionCommitRefusedRollsBack(state: DbState, body: Store -> Work<SQLTransactionResult>, asWritten: bool)
    requires state.journal.None? && body(state.store).result == Ok(Commit) && body(state.store).store.deferredViolations
    ensures var t := TransactionSpec(state, NoLock, body, asWritten);
            && t.result == Err(FailedToStepStatementAsWritten(SQLITE_CONSTRAINT))
            && t.state == DbState(state.store, None,
                                  state.log + [BeginTransaction] + body(state.store).trace + [CommitTransaction, RollbackTransaction])
  {
  }

  /** When BEGIN fails with BUSY, the ROLLBACK in the `catch` fails too (no transaction is open).
      As written the caller then sees that ROLLBACK's error, code 1, and never the BUSY, code 5;
      with the rollback's failure ignored the caller sees BUSY. Either way the body never runs. */
  lemma BusyBeginErrorIsReplaced(state: DbState, contention: Contention, body: Store -> Work<SQLTransactionResult>)
    requires state.journal.None? && contention != NoLock
    ensures TransactionSpec(state, contention, body, true).result == Err(FailedToStepStatementAsWritten(SQLITE_ERROR))
    ensures TransactionSpec(state, contention, body, false).result == Err(FailedToStepStatementAsWritten(SQLITE_BUSY))
    ensures TransactionSpec(state, contention, body, true).state == TransactionSpec(state, contention, body, false).state
    ensures TransactionSpec(state, contention, body, false).state ==
              DbState(state.store, None, state.log + [BeginTransaction, RollbackTransaction])
  {
  }

  /** Whatever happens, the corrected transaction never leaves a transaction open, and it throws
      exactly the first error that occurred: BEGIN's, the body's, or COMMIT's/ROLLBACK's. */
  lemma {:induction false} TransactionRethrowsFirstError(state: DbState, contention: Contention, body: Store -> Work<SQLTransactionResult>)
    ensures var t := TransactionSpec(state, contention, body, false);
            && t.state.journal.None?
            && (ExecuteBegin(state, contention).error.Some? ==> t.result == Err(ExecuteBegin(state, contention).error.value))
            && (ExecuteBegin(state, contention).error.None? && body(state.store).result.Err? ==>
                  t.result == Err(body(state.store).result.error))
            && (t.result.Ok? ==> t.result == body(state.store).result)
  {
  }

  /** The callback's kind for a stored version below the target: `.create` from 0, else `.upgrade`. */
  function MigrationTypeFor(stored: int64, target: int64): (t: MigrationType)
    ensures stored == 0 ==> t == Create(target)
    ensures stored != 0 ==> t == Upgrade(stored, target)
  {
    if stored == 0 then Create(target) else Upgrade(stored, target)
  }

  /** The transaction body of `migrateIfNecessary`: the callback once, then the version update,
      then `.commit`. */
  function MigrationBody(stored: int64, target: int64, migration: (Store, MigrationType) -> Work<()>, store: Store): (w: Work<SQLTransactionResult>)
  {
    var t := MigrationTypeFor(stored, target);
    var called := migration(store, t);
    if called.result.Err? then Work(called.store, [MigrationCalled(t)] + called.trace, Err(called.result.error))
    else Work(called.store.(userVersion := target), [MigrationCalled(t)] + called.trace + [UpdateSchemaVersion(target)], Ok(Commit))
  }

  /** The row `PRAGMA user_version` yields. */
  function VersionRow(userVersion: int64): (row: SQLRow)
    ensures row.ColumnCount() == 1 && row.At(0) == Int(userVersion)
  {
    EmptyRow.AddColumn("user_version", 0, Int(userVersion))
  }

  /** `fetchSchemaVersion()` on the row the pragma returned: 0 without a row, otherwise the first
      column as an Int (`value(at:as:)` throws when it is not one). */
  function SchemaVersionFromRow(row: Option<SQLRow>): (r: Result<int64, SQLError>)
    requires row.Some? ==> row.value.ColumnCount() > 0
  {
    match row
    case None => Ok(0)
    case Some(first) =>
      match first.ValueAt(0, (v: SQLValue) => IntFromSQLValue(Some(v)))
      case Err(e) => Err(e)
      case Ok(None) => Ok(0)
      case Ok(Some(version)) => Ok(version)
  }

  /** No row means version 0; a row gives its first column when that is an integer and the
      "null value" error otherwise, so the fallback to 0 after `value(at:as:)` is never taken. */
  lemma SchemaVersionFromRowCases(row: Option<SQLRow>)
    requires row.Some? ==> row.value.ColumnCount() > 0
    ensures row.None? ==> SchemaVersionFromRow(row) == Ok(0)
    ensures row.Some? && row.value.At(0).Int? ==> SchemaVersionFromRow(row) == Ok(row.value.At(0).integer)
    ensures row.Some? && !row.value.At(0).Int? ==> SchemaVersionFromRow(row) == Err(ValueForColumnIsNullAt(0))
  {
  }

  /** Reading back the version row gives the stored version. */
  lemma SchemaVersionReadsBack(userVersion: int64)
    ensures SchemaVersionFromRow(Some(VersionRow(userVersion))) == Ok(userVersion)
  {
  }

  /** `fetchSchemaVersion()` on `state`: stepping `PRAGMA user_version` fails with BUSY while another
      connection writes; otherwise the pragma's one row is read. */
  function ReadSchemaVersion(state: DbState, contention: Contention): (r: Result<int64, SQLError>)
  {
    if contention == ExclusiveLock then Err(FailedToStepStatementAsWritten(SQLITE_BUSY))
    else SchemaVersionFromRow(Some(VersionRow(state.store.userVersion)))
  }

  /** The version read is the stored one unless a writer blocks the read. */
  lemma ReadSchemaVersionCases(state: DbState, contention: Contention)
    ensures contention != ExclusiveLock ==> ReadSchemaVersion(state, contention) == Ok(state.store.userVersion)
    ensures contention == ExclusiveLock ==> ReadSchemaVersion(state, contention) == Err(FailedToStepStatementAsWritten(SQLITE_BUSY))
  {
    SchemaVersionReadsBack(state.store.userVersion);
  }

  /** The state after `migrateIfNecessary` and its error, if any. */
  datatype Migrated = Migrated(state: DbState, error: Option<SQLError>)

  /** `migrateIfNecessary(_:)` against the target `schemaVersion`; the migration runs inside
      `transaction` as written. */
  function MigrateSpec(state: DbState, contention: Contention, schemaVersion: int64, migration: (Store, MigrationType) -> Work<()>): Migrated
  {
    var read := ReadSchemaVersion(state, contention);
    if read.Err? then Migrated(state, Some(read.error))
    else
      var version := read.value;
      if version == schemaVersion then Migrated(state, None)
      else if version > schemaVersion then Migrated(state, Some(CannotMigrateToEarlierSchemaVersion()))
      else
        var t := TransactionSpec(state, contention, s => MigrationBody(version, schemaVersion, migration, s), true);
        Migrated(t.state, if t.result.Err? then Some(t.result.error) else None)
  }

  /** A writer on another connection makes the version read fail; nothing else happens. */
  lemma MigrateBlockedByWriter(state: DbState, schemaVersion: int64, migration: (Store, MigrationType) -> Work<()>)
    ensures MigrateSpec(state, ExclusiveLock, schemaVersion, migration) == Migrated(state, Some(FailedToStepStatementAsWritten(SQLITE_BUSY)))
  {
  }

  /** A database already at the target version is left alone: no transaction, no callback. */
  lemma MigrateAtTargetDoesNothing(state: DbState, contention: Contention, schemaVersion: int64, migration: (Store, MigrationType) -> Work<()>)
    requires state.store.userVersion == schemaVersion && contention != ExclusiveLock
    ensures MigrateSpec(state, contention, schemaVersion, migration) == Migrated(state, None)
  {
    ReadSchemaVersionCases(state, contention);
  }

  /** A database from a newer schema is refused before any statement runs. */
  lemma MigrateRefusesDowngrade(state: DbState, contention: Contention, schemaVersion: int64, migration: (Store, MigrationType) -> Work<()>)
    requires state.store.userVersion > schemaVersion && contention != ExclusiveLock
    ensures MigrateSpec(state, contention, schemaVersion, migration) == Migrated(state, Some(CannotMigrateToEarlierSchemaVersion()))
  {
    ReadSchemaVersionCases(state, contention);
  }

  /** An older database, outside any transaction and without contention: the callback runs once
      with `.create` or `.upgrade`, then the version is written, then the transaction commits. */
  lemma MigrateUpgrades(state: DbState, schemaVersion: int64, migration: (Store, MigrationType) -> Work<()>)
    requires state.journal.None? && state.store.userVersion < schemaVersion
    requires var called := migration(state.store, MigrationTypeFor(state.store.userVersion, schemaVersion));
             called.result.Ok? && !called.store.deferredViolations
    ensures var t := MigrationTypeFor(state.store.userVersion, schemaVersion);
            var called := migration(state.store, t);
            var m := MigrateSpec(state, NoLock, schemaVersion, migration);
            && m.error.None?
            && m.state.store == called.store.(userVersion := schemaVersion)
            && m.state.journal.None?
            && m.state.log == state.log + [BeginTransaction, MigrationCalled(t)] + called.trace
                                        + [UpdateSchemaVersion(schemaVersion), CommitTransaction]
  {
    var t := MigrationTypeFor(state.store.userVersion, schemaVersion);
    var body := s => MigrationBody(state.store.userVersion, schemaVersion, migration, s);
    ReadSchemaVersionCases(state, NoLock);
    TransactionCommits(state, body, true);
  }

  /** A failing callback rolls everything back: the stored version and tables are as before, and
      the callback's error is thrown. */
  lemma MigrateFailureKeepsStore(state: DbState, schemaVersion: int64, migration: (Store, MigrationType) -> Work<()>)
    requires state.journal.None? && state.store.userVersion < schemaVersion
    requires migration(state.store, MigrationTypeFor(state.store.userVersion, schemaVersion)).result.Err?
    ensures var m := MigrateSpec(state, NoLock, schemaVersion, migration);
            && m.error == Some(migration(state.store, MigrationTypeFor(state.store.userVersion, schemaVersion)).result.error)
            && m.state.store == state.store
            && m.state.journal.None?
            && m.state.log[|m.state.log| - 1] == RollbackTransaction
  {
    var body := s => MigrationBody(state.store.userVersion, schemaVersion, migration, s);
    ReadSchemaVersionCases(state, NoLock);
    TransactionRollsBackOnError(state, body, true);
  }

  /** A callback that leaves deferred violations: the final COMMIT is refused, everything is rolled
      back and the CONSTRAINT error is thrown. */
  lemma MigrateCommitRefusedKeepsStore(state: DbState, schemaVersion: int64, migration: (Store, MigrationType) -> Work<()>)
    requires state.journal.None? && state.store.userVersion < schemaVersion
    requires var called := migration(state.store, MigrationTypeFor(state.store.userVersion, schemaVersion));
             called.result.Ok? && called.store.deferredViolations
    ensures var m := MigrateSpec(state, NoLock, schemaVersion, migration);
            && m.error == Some(FailedToStepStatementAsWritten(SQLITE_CONSTRAINT))
            && m.state.store == state.store
            && m.state.journal.None?
  {
    var body := s => MigrationBody(state.store.userVersion, schemaVersion, migration, s);
    ReadSchemaVersionCases(state, NoLock);
    TransactionCommitRefusedRollsBack(state, body, true);
  }

  /** An older database while another connection holds a shared lock: BEGIN EXCLUSIVE fails with
      BUSY, the `catch` of `transaction` then runs a ROLLBACK with no transaction open, and the
      migration reports that ROLLBACK's error, never the BUSY; the callback never runs. */
  lemma MigrateUnderReaderReportsRollbackError(state: DbState, schemaVersion: int64, migration: (Store, MigrationType) -> Work<()>)
    requires state.journal.None? && state.store.userVersion < schemaVersion
    ensures var m := MigrateSpec(state, SharedLock, schemaVersion, migration);
            && m.error == Some(FailedToStepStatementAsWritten(SQLITE_ERROR))
            && m.state == DbState(state.store, None, state.log + [BeginTransaction, RollbackTransaction])
  {
    var body := s => MigrationBody(state.store.userVersion, schemaVersion, migration, s);
    ReadSchemaVersionCases(state, SharedLock);
    BusyBeginErrorIsReplaced(state, SharedLock, body);
  }

  /** The empty database a fresh in-memory or temporary connection starts from. */
  const EmptyStore: Store := Store(0, map[], false)

  class Database {
    /** `schemaVersion`: the version this code expects. */
    const schemaVersion: int64
    /** The locks other connections hold on the file. */
    const contention: Contention
    var store: Store
    var journal: Option<Store>
    var log: seq<Event>

    function State(): DbState
      reads this
    {
      DbState(store, journal, log)
    }

    /** The part of `init` before migration: `precondition(schemaVersion > 0)`. */
    constructor (stored: Store, schemaVersion: int64, contention: Contention)
      requires schemaVersion > 0
      ensures this.schemaVersion == schemaVersion && this.contention == contention
      ensures store == stored && journal.None? && log == []
    {
      this.schemaVersion := schemaVersion;
      this.contention := contention;
      store := stored;
      journal := None;
      log := [];
    }

    /** Execute one of the fixed statements. */
    method Apply(x: Executed) returns (e: Option<SQLError>)
      modifies this
      ensures State() == x.state && e == x.error
    {
      store, journal, log := x.state.store, x.state.journal, x.state.log;
      e := x.error;
    }

    /** `transaction(_:)` as written. */
    method TransactionAsWritten(body: Store -> Work<SQLTransactionResult>) returns (r: Result<SQLTransactionResult, SQLError>)
      modifies this
      ensures Transacted(State(), r) == TransactionSpec(old(State()), contention, body, true)
    {
      var caught: SQLError;
      var e := Apply(ExecuteBegin(State(), contention));
      if e.None? {
        var work := body(store);
        store, log := work.store, log + work.trace;
        if work.result.Ok? {
          if work.result.value == Commit {
            e := Apply(ExecuteCommit(State()));
          } else {
            e := Apply(ExecuteRollback(State()));
          }
          if e.None? {
            return Ok(work.result.value);
          }
          caught := e.value;
        } else {
          caught := work.result.error;
        }
      } else {
        caught := e.value;
      }
      var rollbackError := Apply(ExecuteRollback(State()));
      if rollbackError.Some? {
        return Err(rollbackError.value);
      }
      r := Err(caught);
    }

    /** `transaction(_:)` with the `catch` corrected: it rethrows the error it caught even when its
        ROLLBACK fails. */
    method Transaction(body: Store -> Work<SQLTransactionResult>) returns (r: Result<SQLTransactionResult, SQLError>)
      modifies this
      ensures Transacted(State(), r) == TransactionSpec(old(State()), contention, body, false)
    {
      var caught: SQLError;
      var e := Apply(ExecuteBegin(State(), contention));
      if e.None? {
        var work := body(store);
        store, log := work.store, log + work.trace;
        if work.result.Ok? {
          if work.result.value == Commit {
            e := Apply(ExecuteCommit(State()));
          } else {
            e := Apply(ExecuteRollback(State()));
          }
          if e.None? {
            return Ok(work.result.value);
          }
          caught := e.value;
        } else {
          caught := work.result.error;
        }
      } else {
        caught := e.value;
      }
      var _ := Apply(ExecuteRollback(State()));
      r := Err(caught);
    }

    /** `run(_:)`: the operations run on the connection, their error thrown on. */
    method Run(operations: Store -> Work<()>) returns (e: Option<SQLError>)
      modifies this
      ensures store == operations(old(store)).store && journal == old(journal)
      ensures log == old(log) + operations(old(store)).trace
      ensures e == if operations(old(store)).result.Err? then Some(operations(old(store)).result.error) else None
    {
      var work := operations(store);
      store, log := work.store, log + work.trace;
      e := if work.result.Err? then Some(work.result.error) else None;
    }

    /** `fetchSchemaVersion()`: the stored version, or BUSY while another connection writes. */
    method FetchSchemaVersion() returns (r: Result<int64, SQLError>)
      ensures r == ReadSchemaVersion(State(), contention)
      ensures contention != ExclusiveLock ==> r == Ok(store.userVersion)
    {
      if contention == ExclusiveLock {
        return Err(FailedToStepStatementAsWritten(SQLITE_BUSY));
      }
      var row := Some(VersionRow(store.userVersion));
      r := SchemaVersionFromRow(row);
      SchemaVersionReadsBack(store.userVersion);
    }

    /** `migrateIfNecessary(_:)`. */
    method MigrateIfNecessary(migration: (Store, MigrationType) -> Work<()>) returns (e: Option<SQLError>)
      modifies this
      ensures Migrated(State(), e) == MigrateSpec(old(State()), contention, schemaVersion, migration)
    {
      var fetched := FetchSchemaVersion();
      if fetched.Err? {
        return Some(fetched.error);
      }
      var version := fetched.value;
      if version == schemaVersion {
        return None;
      } else if version > schemaVersion {
        return Some(CannotMigrateToEarlierSchemaVersion());
      }
      var r := TransactionAsWritten(s => MigrationBody(version, schemaVersion, migration, s));
      e := if r.Err? then Some(r.error) else None;
    }
  }

  /** `open(at:schemaVersion:migration:)` once the file is open: construct, then migrate. */
  method Open(stored: Store, schemaVersion: int64, contention: Contention, migration: (Store, MigrationType) -> Work<()>)
    returns (r: Result<Database, SQLError>)
    requires schemaVersion > 0
    ensures var m := MigrateSpec(DbState(stored, None, []), contention, schemaVersion, migration);
            && (r.Ok? <==> m.error.None?)
            && (r.Err? ==> r.error == m.error.value)
            && (r.Ok? ==> fresh(r.value) && r.value.State() == m.state && r.value.schemaVersion == schemaVersion
                          && r.value.contention == contention)
  {
    var db := new Database(stored, schemaVersion, contention);
    var e := db.MigrateIfNecessary(migration);
    if e.Some? {
      return Err(e.value);
    }
    r := Ok(db);
  }

  /** `openInMemory(creation:)` and `openTemporary(creation:)`: a new, empty, private database with
      target version 1, whatever migration is asked for handled by `creation`. A fresh database
      whose creation succeeds and commits ends at version 1 with the creation's tables. */
  method OpenFresh(creation: Store -> Work<()>) returns (r: Result<Database, SQLError>)
    ensures var created := creation(EmptyStore);
            && (r.Ok? <==> created.result.Ok? && !created.store.deferredViolations)
            && (created.result.Err? ==> r.Err? && r.error == created.result.error)
            && (created.result.Ok? && created.store.deferredViolations ==> r.Err? && r.error == FailedToStepStatementAsWritten(SQLITE_CONSTRAINT))
            && (r.Ok? ==> r.value.store == created.store.(userVersion := 1) && r.value.journal.None?
                          && r.value.contention == NoLock && r.value.schemaVersion == 1)
  {
    var migration := (s: Store, t: MigrationType) => creation(s);
    var start := DbState(EmptyStore, None, []);
    if creation(EmptyStore).result.Err? {
      MigrateFailureKeepsStore(start, 1, migration);
    } else if creation(EmptyStore).store.deferredViolations {
      MigrateCommitRefusedKeepsStore(start, 1, migration);
    } else {
      MigrateUpgrades(start, 1, migration);
    }
    r := Open(EmptyStore, 1, NoLock, migration);
  }

  /** A fresh database that opens reads back version 1 (the `openInMemory` tests check this). */
  method FreshDatabaseReportsVersionOne(creation: Store -> Work<()>) returns (connection: Result<Database, SQLError>, version: Result<int64, SQLError>)
    ensures connection.Ok? <==> creation(EmptyStore).result.Ok? && !creation(EmptyStore).store.deferredViolations
    ensures connection.Ok? ==> version == Ok(1)
  {
    version := Ok(0);
    connection := OpenFresh(creation);
    if connection.Ok? {
      version := connection.value.FetchSchemaVersion();
    }
  }
}
