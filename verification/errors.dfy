/** The structured errors the layer throws (SQLError.swift, SQLResultCode.swift). */
module Errors {
  import opened Wrappers

  /** Result codes of the engine that the model uses. */
  const SQLITE_OK: int := 0
  const SQLITE_ERROR: int := 1
  const SQLITE_INTERNAL: int := 2
  const SQLITE_BUSY: int := 5
  const SQLITE_CONSTRAINT: int := 19
  const SQLITE_MISUSE: int := 21
  const SQLITE_RANGE: int := 25
  const SQLITE_ROW: int := 100
  const SQLITE_DONE: int := 101

  /** `SQLErrorType`, case by case: failedToOpenDatabase, cannotToMigrateToEarlierSchemaVersion,
      failedToPrepareStatement, failedToStepStatement, failedToBindValueToStatement,
      failedToResetStatement, failedToExecute, noValueForColumn, valueForColumnIsNull. */
  datatype SQLErrorType =
    | OpenFailure
    | DowngradeRefused
    | PrepareFailure
    | StepFailure
    | BindFailure
    | ResetFailure
    | ExecuteFailure
    | NoValue
    | NullValue

  /** What an error carries besides its kind. */
  datatype Cause =
    | Code(code: int)           // the result code of the engine call that failed
    | ConnectionState           // the connection's last code and message, read when no engine call failed
    | Column(name: string)      // the column a lookup was about
    | ColumnAt(index: int)      // the column position a lookup was about
    | Message                   // a fixed message and SQLITE_INTERNAL

  datatype SQLError =
    | SQLError(kind: SQLErrorType, cause: Cause)
    | Thrown(tag: nat)          // an error thrown by caller-supplied code (a decoder, a migration, a body)

  /** `throwIfNotOK(type, db)`: a non-OK engine result becomes an error of the given kind carrying that result. */
  function ThrowIfNotOK(code: int, kind: SQLErrorType): (e: Option<SQLError>)
    ensures e.None? <==> code == SQLITE_OK
    ensures e.Some? ==> e.value.SQLError? && e.value.kind == kind && e.value.cause == Code(code)
  {
    if code == SQLITE_OK then None else Some(SQLError(kind, Code(code)))
  }

  function FailedToPrepareStatement(code: int): SQLError { SQLError(SQLErrorType.PrepareFailure, Code(code)) }

  /** `failedToPrepareStatement("Failed to prepare statement.")`: the engine gave no handle. */
  function FailedToPrepareStatementNoHandle(): SQLError { SQLError(SQLErrorType.PrepareFailure, Message) }

  function FailedToResetStatement(code: int): SQLError { SQLError(SQLErrorType.ResetFailure, Code(code)) }

  /** The `failedToStepStatement(db)` factory as written: it builds an error of kind
      `failedToPrepareStatement`. Every failed step in the model is reported through this one. */
  function FailedToStepStatementAsWritten(code: int): (e: SQLError)
    ensures e == FailedToPrepareStatement(code) && e != FailedToStepStatement(code)
  {
    SQLError(SQLErrorType.PrepareFailure, Code(code))
  }

  /** The same factory with the kind its name promises. */
  function FailedToStepStatement(code: int): SQLError { SQLError(SQLErrorType.StepFailure, Code(code)) }

  /** The `failedToBindValueToStatement(db)` factory as written: kind `failedToPrepareStatement`.
      A named parameter the statement lacks is reported through this one. */
  function FailedToBindValueToStatementAsWritten(): (e: SQLError)
    ensures e.SQLError? && e.kind == SQLErrorType.PrepareFailure && e != FailedToBindValueToStatement()
  {
    SQLError(SQLErrorType.PrepareFailure, ConnectionState)
  }

  /** The same factory with the kind its name promises. */
  function FailedToBindValueToStatement(): SQLError { SQLError(SQLErrorType.BindFailure, ConnectionState) }

  function CannotMigrateToEarlierSchemaVersion(): SQLError { SQLError(SQLErrorType.DowngradeRefused, Message) }

  function NoValueForColumn(name: string): SQLError { SQLError(SQLErrorType.NoValue, Column(name)) }

  function ValueForColumnIsNull(name: string): SQLError { SQLError(SQLErrorType.NullValue, Column(name)) }

  function ValueForColumnIsNullAt(index: int): SQLError { SQLError(SQLErrorType.NullValue, ColumnAt(index)) }

  /** As written, a failed step cannot be told apart by kind from a failed prepare. */
  lemma StepErrorLooksLikePrepareError(code: int)
    ensures FailedToStepStatementAsWritten(code).kind == FailedToPrepareStatement(code).kind
    ensures FailedToStepStatementAsWritten(code) == FailedToPrepareStatement(code)
  {
  }

  /** As written, a missing named parameter is reported with the kind of a prepare failure, while a
      rejected bind (through `throwIfNotOK`) is reported as a bind failure. */
  lemma NamedParameterMissLooksLikePrepareError()
    ensures FailedToBindValueToStatementAsWritten().kind == SQLErrorType.PrepareFailure
    ensures ThrowIfNotOK(SQLITE_RANGE, SQLErrorType.BindFailure).value.kind != FailedToBindValueToStatementAsWritten().kind
  {
  }

  /** With the corrected factories, prepare, step, bind and reset failures have pairwise different kinds. */
  lemma EngineErrorKindsAreDistinct(c1: int, c2: int, c3: int)
    ensures var kinds := [FailedToPrepareStatement(c1).kind, FailedToStepStatement(c2).kind,
                          FailedToBindValueToStatement().kind, FailedToResetStatement(c3).kind];
            forall i, j :: 0 <= i < j < |kinds| ==> kinds[i] != kinds[j]
  {
  }
}
