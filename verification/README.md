# SQLizer statement layer, modelled in Dafny

This project models the statement-execution core of SQLizer, a Swift wrapper around SQLite, and proves properties of that model. The SQLite engine itself is abstracted into plain state:

- a compiled statement is a list of parameter names;
- it has a query that, for the values bound to its slots, yields a list of result rows and an end code;
- it has a cursor into those rows and a slot map;
- it records the last step's result code.

On top of that engine the model covers:

- **values** (`values.dfy`): the five `SQLValue` cases and their four accessors.
- **errors** (`errors.dfy`): the error kinds, and the factories the layer throws through.
- **rows** (`rows.dfy`): `SQLRow`, an ordered list of values plus a name index. Its positional and named lookups are modelled with their errors.
- **row materialisation** (`materialize.dfy`): how `fetchCurrentRow` turns the engine's current row into an `SQLRow`, stated as functions.
- **binding** (`binding.dfy`): the `Binder`'s single binds into one slot, and what a list or dictionary of values leaves in the slots.
- **statements** (`statements.dfy`): the `SQLStatement` class, covering:
  - its iteration counter;
  - reset, bind, step and `stepAllRows`;
  - every `execute`, `fetch*` and `next*` entry point;
  - the two streams `SQLRowSequence` and `SQLObjectSequence`, which go quiet once the statement is reset.
- **statement manager** (`manager.dfy`): `SQLStatementManager`. Its dictionary lookup never inserts; it also prepares without checking the dictionary, and finalizes every stored handle on teardown.
- **database** (`database.dfy`): `SQLDatabase`, covering:
  - the transaction frame (BEGIN EXCLUSIVE, the body, then COMMIT or ROLLBACK, with a rollback on any error);
  - reading the schema version;
  - `migrateIfNecessary`;
  - opening, including `openInMemory`/`openTemporary`.

  Here the engine is a store: the stored `user_version`, the tables, and whether deferred foreign-key violations are outstanding. A second copy is kept while a transaction is open, and there is a log of the statements run. Other connections appear only as the locks they hold (`Contention`).

Code that changes state in place stays imperative, with `modifies` frames, loops and invariants:
- the statement's iteration counter and bind loops;
- the row-building loop in `fetchCurrentRow`, and the `stepAllRows` loop;
- the manager's finalize loop;
- the database's transaction.

Each such method is proved against a specification function, and the properties are proved as lemmas about those functions.

Behaviour of the code worth noting:
- **Duplicate column names:** a later column with the same name replaces the earlier one in the row's name index.
- **Statement caching:** the statement manager never caches, so preparing the same text twice compiles twice.
- **Reset and bindings:** a reset keeps the values bound earlier. SQLite's reset does not clear bindings, and a slot that the next bind does not write keeps its old value.
- **Missing named parameters:** a named parameter missing from the statement is always an error. The `optionalParameters` flag has no effect, because the Binder has no optional form.
- **Step failures:** a failed step is reported with the kind of a prepare failure, and so is a named parameter the statement lacks. The operation layer uses these factories as written (see Findings).
- **Rollback in the transaction's `catch`:** a failing ROLLBACK replaces the error that was caught. Migration runs inside this frame as written, so a BEGIN refused with BUSY reaches the caller as the ROLLBACK's ERROR (see Findings).
- **Finalizing:** finalizing a handle reports the error of its last step, as a reset does; the statement logs exactly that failure.

## Model

| member | source | states |
|---|---|---|
| Values.SQLValue.StringValue | Sources/SQLizer/SQLValue.swift:13-19 | gives a string exactly for `.text`, and then the payload |
| Values.SQLValue.IntValue | Sources/SQLizer/SQLValue.swift:21-27 | gives an integer exactly for `.int`, and then the payload |
| Values.SQLValue.DoubleValue | Sources/SQLizer/SQLValue.swift:29-35 | gives a double exactly for `.double`, and then the payload |
| Values.SQLValue.DataValue | Sources/SQLizer/SQLValue.swift:37-43 | gives bytes exactly for `.blob`, and then the payload |
| Values.AccessorsAreExclusive | Sources/SQLizer/SQLValue.swift:3-43 | exactly one accessor answers for a non-null value, and none for `.null` |
| Values.IntAsSQLValue | Sources/SQLizer/Statements/SQLStatement.swift:317 | an integer's `asSQLValue` (defined in SQLColumnCompatibleType.swift, lines 47-49) is a value whose `intValue` is that integer |
| Values.IntFromSQLValue | Sources/SQLizer/SQLDatabase.swift:140 | `Int(sqlValue:)` (SQLColumnCompatibleType.swift, lines 51-56) is defined exactly on present `.int` values, and gives their payload |
| Values.IntRoundTrip | Sources/SQLizer/SQLRow.swift:41 | integer to value and back is the identity; any other kind gives no integer |
| Errors.ThrowIfNotOK | Sources/SQLizer/Statements/SQLStatement.swift:295-296 | `throwIfNotOK` (SQLResultCode.swift, lines 12-20): no error exactly for OK; otherwise an error of the requested kind carrying that code |
| Errors.FailedToStepStatementAsWritten | Sources/SQLizer/Statements/SQLStatement.swift:364 | the factory every failed step throws through (SQLError.swift, lines 61-63) builds the very error a failed prepare with that code builds, not a step error |
| Errors.FailedToBindValueToStatementAsWritten | Sources/SQLizer/Statements/SQLStatement+Binder.swift:93 | the factory a missing named parameter throws through (SQLError.swift, lines 65-67) has the prepare kind, not the bind error its name promises |
| Errors.StepErrorLooksLikePrepareError | Sources/SQLizer/Statements/SQLStatement.swift:364 | as written (SQLError.swift, lines 61-63), a step failure is the same error as a prepare failure with that code |
| Errors.NamedParameterMissLooksLikePrepareError | Sources/SQLizer/Statements/SQLStatement+Binder.swift:93 | as written (SQLError.swift, lines 65-67), a missing named parameter has the prepare kind, unlike a rejected bind |
| Errors.EngineErrorKindsAreDistinct | Sources/SQLizer/Statements/SQLStatement.swift:293-366 | with the corrected factories (SQLError.swift, lines 10-20 and 53-67), prepare, step, bind and reset failures have four different kinds |
| Rows.SQLRow.ColumnCount | Sources/SQLizer/SQLRow.swift:9-11 | the count is the number of values |
| Rows.SQLRow.AddColumn | Sources/SQLizer/SQLRow.swift:18-21 | appends exactly one value after the unchanged earlier ones, and points the name at the given index, replacing any earlier entry |
| Rows.SQLRow.At | Sources/SQLizer/SQLRow.swift:23-25 | the positional subscript is defined only inside the row, and gives the value there |
| Rows.SQLRow.Named | Sources/SQLizer/SQLRow.swift:27-34 | gives nil exactly when the name is unknown or points past the values; otherwise the value it points at |
| Rows.SQLRow.OptionalValueAt | Sources/SQLizer/SQLRow.swift:36-38 | gives a value exactly when the throwing positional lookup succeeds, and the same value |
| Rows.SQLRow.ValueAt | Sources/SQLizer/SQLRow.swift:40-45 | succeeds exactly when the conversion does, never with nil; otherwise throws `valueForColumnIsNull(index)` |
| Rows.SQLRow.OptionalValueNamed | Sources/SQLizer/SQLRow.swift:47-81 | nil for a name the row does not find; otherwise the conversion of the value found, so nil also when it does not convert |
| Rows.SQLRow.ValueNamed | Sources/SQLizer/SQLRow.swift:83-133 | throws `noValueForColumn` exactly on a lookup miss and `valueForColumnIsNull` exactly on a failed conversion; succeeds exactly when the name is found and its value converts, giving the converted value |
| Rows.OptionalValueAgreesWithValue | Sources/SQLizer/SQLRow.swift:47-107 | the non-throwing named lookup gives a value exactly when the throwing one succeeds, and the same value |
| Rows.AddColumnKeepsEarlierColumns | Sources/SQLizer/SQLRow.swift:18-21 | adding a column changes no earlier value and no other name's lookup |
| Rows.LaterDuplicateWins | Sources/SQLizer/SQLRow.swift:19 | of two columns with one name, the name finds the later one; the earlier value stays in place |
| Engine.ParameterIndex | Sources/SQLizer/Statements/SQLStatement+Binder.swift:91 | the parameter index is 0 exactly when no parameter has the name; otherwise it is the one-based slot of the first one that does |
| Engine.ParameterIndexInjective | Sources/SQLizer/Statements/SQLStatement+Binder.swift:90-96 | two different names never share a slot |
| Engine.CString | Sources/SQLizer/Statements/SQLStatement.swift:405-408 | a C string read back is the longest NUL-free prefix of the text |
| Engine.BindCode | Sources/SQLizer/Statements/SQLStatement+Binder.swift:25-51 | a bind succeeds exactly on a statement not mid-run and a slot within range |
| Engine.EngineStatement.Reset | Sources/SQLizer/Statements/SQLStatement.swift:295 | rewinds, keeps the bindings, and reports the previous step's error |
| Engine.EngineStatement.Step | Sources/SQLizer/Statements/SQLStatement.swift:357 | ROW while rows remain (the cursor advances), then the end code |
| Engine.EngineStatement.Bind | Sources/SQLizer/Statements/SQLStatement+Binder.swift:26 | on success exactly the one slot changes; on failure nothing does |
| Engine.EngineStatement.Finalize | Sources/SQLizer/Statements/SQLStatement.swift:39 | a handle not yet finalized ends finalized; the result is the last step's error if that step failed, and OK otherwise |
| RowMaterialization.CellValueByType | Sources/SQLizer/Statements/SQLStatement.swift:397-426 | each engine type gives its own case; a null text or blob pointer, an empty blob and any unknown type give `.null`; text stops at its first NUL |
| RowMaterialization.ColumnName | Sources/SQLizer/Statements/SQLStatement.swift:428-433 | an unnamed column is called "Column " followed by its position; a named one keeps its name up to the first NUL |
| RowMaterialization.GeneratedNamesDiffer | Sources/SQLizer/Statements/SQLStatement.swift:432 | two unnamed columns at different positions never get the same name |
| RowMaterialization.RowOfSnoc | Sources/SQLizer/Statements/SQLStatement.swift:396-436 | materialising one more column adds exactly that column to the row built so far |
| RowMaterialization.RowOfColumns | Sources/SQLizer/Statements/SQLStatement.swift:387-439 | the row has one value per engine column, each the value of its cell, in column order |
| RowMaterialization.RowOfLookup | Sources/SQLizer/Statements/SQLStatement.swift:428-435 | a name finds the value of the last column with that name, and nothing when no column has it |
| Binding.IndexOfParameterNamed | Sources/SQLizer/Statements/SQLStatement+Binder.swift:90-96 | succeeds exactly when the statement has the parameter `":" + name`, giving a slot with that name; otherwise the as-written bind error, which has the prepare kind |
| Binding.OneBased | Sources/SQLizer/Statements/SQLStatement+Binder.swift:98-100 | the engine slot is one past the index, within `Int32`, and at least 1 for any index from 0 |
| Binding.BoundValueKeepsKindAndPayload | Sources/SQLizer/Statements/SQLStatement+Binder.swift:25-51 | a bound value keeps its kind and payload, blobs in full; only text is cut at its first NUL |
| Binding.BindOneWritesOnlyItsSlot | Sources/SQLizer/Statements/SQLStatement+Binder.swift:55-86 | a bind succeeds exactly on a found, in-range slot of a statement not mid-run; it then writes only that slot, and a failure writes nothing and names its cause |
| Binding.PositionalBinding | Sources/SQLizer/Statements/SQLStatement.swift:301-312 | binding into a reset statement succeeds exactly when there are no more values than slots; slot k then holds value k-1 and every other slot is unchanged, and otherwise the error is RANGE |
| Binding.PositionalBindingWhileRunning | Sources/SQLizer/Statements/SQLStatement.swift:301-312 | a statement that is mid-run takes no value: MISUSE, and nothing is written |
| Binding.OrNull | Sources/SQLizer/Statements/SQLStatement.swift:317-323 | nil binds NULL; a present value binds itself |
| Binding.NamedBindingSucceedsIffAllFound | Sources/SQLizer/Statements/SQLStatement.swift:328-347 | named binding succeeds exactly when every name has a parameter, and otherwise gives the bind error |
| Binding.NamedBindingSlots | Sources/SQLizer/Statements/SQLStatement.swift:328-347 | after a successful named binding, each name's slot holds that name's value |
| Binding.NamedBindingKeepsOtherSlots | Sources/SQLizer/Statements/SQLStatement.swift:328-347 | a slot that no name points at is left as it was |
| Binding.NamedBindingByKey | Sources/SQLizer/Statements/SQLStatement.swift:328-347 | the slots after a successful named binding, stated over the dictionary's keys |
| Binding.NamedBindingIgnoresOrder | Sources/SQLizer/Statements/SQLStatement.swift:330 | any two iteration orders of one dictionary give the same error, or the same slots on success |
| Binding.Binder.BindChecked | Sources/SQLizer/Statements/SQLStatement+Binder.swift:26-27 | the engine bind followed by the throw-if-not-OK check |
| Binding.Binder.BindTextAt | Sources/SQLizer/Statements/SQLStatement+Binder.swift:25-28 | binds the text (up to its first NUL) into slot index + 1 |
| Binding.Binder.BindIntAt | Sources/SQLizer/Statements/SQLStatement+Binder.swift:30-33 | binds the integer into slot index + 1 |
| Binding.Binder.BindDoubleAt | Sources/SQLizer/Statements/SQLStatement+Binder.swift:35-38 | binds the double into slot index + 1 |
| Binding.Binder.BindBlobAt | Sources/SQLizer/Statements/SQLStatement+Binder.swift:40-46 | binds all the bytes into slot index + 1 |
| Binding.Binder.BindNullAt | Sources/SQLizer/Statements/SQLStatement+Binder.swift:48-51 | binds NULL into slot index + 1 |
| Binding.Binder.BindTextTo | Sources/SQLizer/Statements/SQLStatement+Binder.swift:55-59 | binds the text into the slot of `:name`, or fails without writing |
| Binding.Binder.BindIntTo | Sources/SQLizer/Statements/SQLStatement+Binder.swift:61-65 | binds the integer into the slot of `:name`, or fails without writing |
| Binding.Binder.BindDoubleTo | Sources/SQLizer/Statements/SQLStatement+Binder.swift:67-71 | binds the double into the slot of `:name`, or fails without writing |
| Binding.Binder.BindBlobTo | Sources/SQLizer/Statements/SQLStatement+Binder.swift:73-80 | binds the bytes into the slot of `:name`, or fails without writing |
| Binding.Binder.BindNullTo | Sources/SQLizer/Statements/SQLStatement+Binder.swift:82-86 | binds NULL into the slot of `:name`, or fails without writing |
| Statements.Iteration.MarkNew | Sources/SQLizer/Statements/SQLStatement.swift:21-23 | the next iteration counts one more, so it differs from the current one |
| Statements.OrNulls | Sources/SQLizer/Statements/SQLStatement.swift:314-326 | the optional list becomes the same-length list with nil as NULL |
| Statements.ResetError | Sources/SQLizer/Statements/SQLStatement.swift:293-297 | reset throws exactly when the previous step failed, with that step's code |
| Statements.StepSpec | Sources/SQLizer/Statements/SQLStatement.swift:356-366 | a row exactly while rows remain (the materialised current row); `.done` exactly at DONE; any other end code is the as-written step error, with the prepare kind and that code |
| Statements.RemainingRows | Sources/SQLizer/Statements/SQLStatement.swift:370-383 | the rows not yet stepped over, materialised, in engine order |
| Statements.AsNextRow | Sources/SQLizer/Statements/SQLStatement.swift:230-235 | DONE gives nil, a row gives that row, and an error is thrown on |
| Statements.AsNextObject | Sources/SQLizer/Statements/SQLStatement.swift:249-254 | DONE gives nil, a row gives its decoding, and a step or decoding error is thrown on |
| Statements.DecodeAllInOrder | Sources/SQLizer/Statements/SQLStatement.swift:275-277 | all rows decode, giving one object per row in order, or the error of the first row that does not decode |
| Statements.Statement.constructor | Sources/SQLizer/Statements/SQLStatement.swift:31-36 | a new statement starts at the initial iteration |
| Statements.Statement.Finalize | Sources/SQLizer/Statements/SQLStatement.swift:38-44 | the handle ends finalized, and a failure is logged exactly when the last step failed; nothing is thrown |
| Statements.Statement.Reset | Sources/SQLizer/Statements/SQLStatement.swift:293-297 | the iteration moves on by one even when the engine reset fails; the statement is rewound with its bindings kept |
| Statements.Statement.BindValues | Sources/SQLizer/Statements/SQLStatement.swift:301-312 | the loop leaves exactly the slots and error of the positional binding specification |
| Statements.Statement.BindOptionalValues | Sources/SQLizer/Statements/SQLStatement.swift:314-326 | the same, with nil bound as NULL |
| Statements.Statement.BindNamesAndValues | Sources/SQLizer/Statements/SQLStatement.swift:328-347 | the loop leaves exactly the slots and error of the named binding specification, whatever the optional flag |
| Statements.Statement.Bind | Sources/SQLizer/Statements/SQLStatement.swift:301-351 | dispatches to the bind of the parameter form, and meets its specification |
| Statements.Statement.ResetAndBind | Sources/SQLizer/Statements/SQLStatement.swift:53-69 | one reset, then the bind only if the reset succeeded; leaves the statement rewound |
| Statements.Statement.FetchCurrentRow | Sources/SQLizer/Statements/SQLStatement.swift:387-439 | the loop builds exactly the materialised current row |
| Statements.Statement.Step | Sources/SQLizer/Statements/SQLStatement.swift:355-366 | the step outcome is the step specification at the old cursor; the bindings are untouched |
| Statements.Statement.StepAllRows | Sources/SQLizer/Statements/SQLStatement.swift:370-383 | gives every remaining row in engine order and stops at DONE, or throws the step error; the cursor ends past the rows |
| Statements.Statement.NextRow | Sources/SQLizer/Statements/SQLStatement.swift:230-235 | one step, its outcome as an optional row |
| Statements.Statement.NextRowForIteration | Sources/SQLizer/Statements/SQLStatement.swift:237-245 | for any iteration but the current one: nil, and the engine is untouched; otherwise `nextRow` |
| Statements.Statement.NextObject | Sources/SQLizer/Statements/SQLStatement.swift:249-254 | one step, the row decoded |
| Statements.Statement.NextObjectForIteration | Sources/SQLizer/Statements/SQLStatement.swift:256-264 | for a stale iteration: nil, with no step and no decoding; otherwise `nextObject` |
| Statements.Statement.Execute | Sources/SQLizer/Statements/SQLStatement.swift:48-69 | reset exactly once, bind, then one step whose error alone is reported |
| Statements.Statement.ExecuteObject | Sources/SQLizer/Statements/SQLStatement.swift:71-75 | reset, then encode the object, bind its names, and step; the first error stops the rest |
| Statements.Statement.FetchRow | Sources/SQLizer/Statements/SQLStatement.swift:79-100 | reset exactly once, bind, then the first row of the new execution, if any |
| Statements.Statement.FetchObject | Sources/SQLizer/Statements/SQLStatement.swift:104-125 | reset exactly once, bind, then the first row of the new execution, decoded |
| Statements.Statement.FetchAllRows | Sources/SQLizer/Statements/SQLStatement.swift:129-150 | reset exactly once, bind, then every row of the new execution |
| Statements.Statement.FetchAllObjects | Sources/SQLizer/Statements/SQLStatement.swift:155-176 | reset exactly once, bind, then every row of the new execution, decoded in order |
| Statements.Statement.FetchRowSequence | Sources/SQLizer/Statements/SQLStatement.swift:180-201 | reset exactly once and bind; the stream captures the iteration current after that |
| Statements.Statement.FetchObjectSequence | Sources/SQLizer/Statements/SQLStatement.swift:205-226 | the same for the decoding stream |
| Statements.RowSequence.MakeAsyncIterator | Sources/SQLizer/Statements/SQLRowSequence.swift:18-20 | the iterator has the same statement and iteration |
| Statements.RowSequence.Next | Sources/SQLizer/Statements/SQLRowSequence.swift:22-25 | nil once the statement is gone; nil without stepping once the statement was reset; otherwise the next row |
| Statements.ObjectSequence.MakeAsyncIterator | Sources/SQLizer/Statements/SQLObjectSequence.swift:22-24 | the iterator has the same statement, iteration and decoder |
| Statements.ObjectSequence.Next | Sources/SQLizer/Statements/SQLObjectSequence.swift:26-29 | nil once the statement is gone; nil with no step and no decoding once the statement was reset; otherwise the next object |
| Statements.StreamGoesStaleAfterReset | Sources/SQLizer/Statements/SQLRowSequence.swift:22-25 | for any sequence of pulls and entry-point calls after `fetchRowSequence`: the pulls before the first entry call walk the new execution's rows in order, and every pull after it yields nil |
| Statements.PullCurrent | Sources/SQLizer/Statements/SQLRowSequence.swift:22-25 | while the statement stays on the stream's iteration, the n-th pull gives the n-th row, then the end of the rows |
| Statements.PullAfterReset | Sources/SQLizer/Statements/SQLRowSequence.swift:22-25 | once the statement has moved past the stream's iteration, every pull gives nil, whatever entry points are called in between |
| Manager.SQLKeysCompareByText | Sources/SQLizer/SQL.swift:25-34 | two SQL keys are equal exactly when their texts are |
| Manager.PrepareOutcome | Sources/SQLizer/Statements/SQLStatementManager.swift:39-46 | a handle exactly when the prepare is OK and gives one; a non-OK code, or no handle, is the prepare error |
| Manager.StatementManager.constructor | Sources/SQLizer/Statements/SQLStatementManager.swift:11-21 | the dictionary starts empty |
| Manager.StatementManager.PrepareStatement | Sources/SQLizer/Statements/SQLStatementManager.swift:33-48 | a stored handle is wrapped without preparing; otherwise the text is compiled; the dictionary is never written |
| Manager.StatementManager.PrepareUncheckedStatement | Sources/SQLizer/Statements/SQLStatementManager.swift:51-63 | always compiles, ignoring the dictionary |
| Manager.StatementManager.FinalizeAll | Sources/SQLizer/Statements/SQLStatementManager.swift:23-31 | each stored handle is finalized once, only the `finalized` flags change, and the failures logged are exactly the handles whose last step failed |
| Manager.FinalizeEach | Sources/SQLizer/Statements/SQLStatementManager.swift:24-30 | the loop finalizes each distinct handle once and counts the handles whose last step failed, going on past each failure |
| Manager.ErrorCount | Sources/SQLizer/Statements/SQLStatementManager.swift:26-28 | the number of handles that last stepped to an error, at most the number of handles |
| Manager.PrepareTwiceCompilesTwice | Sources/SQLizer/Statements/SQLStatementManager.swift:33-48 | preparing one text twice gives two different handles: nothing is cached |
| Databases.ExecuteBegin | Sources/SQLizer/SQLDatabase.swift:92 | BEGIN EXCLUSIVE fails inside a transaction (ERROR) or under another connection's lock (BUSY), each as the as-written step error; otherwise a transaction opens on the current store |
| Databases.ExecuteCommit | Sources/SQLizer/SQLDatabase.swift:96 | COMMIT ends the open transaction, keeping the store; it fails with no transaction, or with CONSTRAINT, leaving the transaction open |
| Databases.ExecuteRollback | Sources/SQLizer/SQLDatabase.swift:97 | ROLLBACK restores the store from BEGIN; it fails when no transaction is open |
| Databases.TransactionCommits | Sources/SQLizer/SQLDatabase.swift:90-99 | a committing body runs between BEGIN and COMMIT; its store is kept and its answer returned |
| Databases.TransactionRollsBackOnRequest | Sources/SQLizer/SQLDatabase.swift:90-99 | a body asking for rollback has its changes undone, and its answer is returned |
| Databases.TransactionRollsBackOnError | Sources/SQLizer/SQLDatabase.swift:100-103 | a throwing body has its changes undone, and the same error is thrown on |
| Databases.TransactionCommitRefusedRollsBack | Sources/SQLizer/SQLDatabase.swift:96-103 | a refused COMMIT is followed by a rollback that restores the store, and the COMMIT's error is thrown |
| Databases.BusyBeginErrorIsReplaced | Sources/SQLizer/SQLDatabase.swift:100-103 | as written, a BUSY from BEGIN reaches the caller as the failing ROLLBACK's ERROR; corrected, as BUSY |
| Databases.TransactionRethrowsFirstError | Sources/SQLizer/SQLDatabase.swift:89-104 | the corrected frame never leaves a transaction open, and throws exactly the first error that occurred |
| Databases.MigrationTypeFor | Sources/SQLizer/SQLDatabase.swift:123-127 | `.create(target)` from version 0, otherwise `.upgrade(stored, target)` |
| Databases.SchemaVersionFromRowCases | Sources/SQLizer/SQLDatabase.swift:136-144 | no row means 0; an integer column gives itself; anything else is the null-value error, so the fallback to 0 is never reached |
| Databases.SchemaVersionReadsBack | Sources/SQLizer/SQLDatabase.swift:136-144 | the pragma's row reads back as the stored version |
| Databases.ReadSchemaVersionCases | Sources/SQLizer/SQLDatabase.swift:136-144 | the stored version, unless another connection's write lock makes the read fail with BUSY, as the as-written step error |
| Databases.MigrateBlockedByWriter | Sources/SQLizer/SQLDatabase.swift:115 | a failed version read is thrown, and nothing else happens |
| Databases.MigrateAtTargetDoesNothing | Sources/SQLizer/SQLDatabase.swift:116-118 | at the target version: no transaction, no callback, no statement |
| Databases.MigrateRefusesDowngrade | Sources/SQLizer/SQLDatabase.swift:119-120 | above the target: the downgrade error, before any BEGIN |
| Databases.MigrateUpgrades | Sources/SQLizer/SQLDatabase.swift:121-131 | below the target: BEGIN, then the callback once with `.create` or `.upgrade`, then the version write, then COMMIT; the store ends at the target version |
| Databases.MigrateFailureKeepsStore | Sources/SQLizer/SQLDatabase.swift:121-131 | a failing callback is rolled back: the stored version and tables are unchanged, and its error is thrown |
| Databases.MigrateCommitRefusedKeepsStore | Sources/SQLizer/SQLDatabase.swift:121-131 | a refused final COMMIT is rolled back: the store is unchanged and CONSTRAINT is thrown |
| Databases.MigrateUnderReaderReportsRollbackError | Sources/SQLizer/SQLDatabase.swift:121-122 | below the target while another connection reads: BEGIN fails with BUSY, the catch's ROLLBACK fails, and its ERROR is what the caller gets; the store is unchanged |
| Databases.Database.constructor | Sources/SQLizer/SQLDatabase.swift:27-32 | needs a positive target version, and starts outside any transaction |
| Databases.Database.TransactionAsWritten | Sources/SQLizer/SQLDatabase.swift:89-104 | the imperative frame, as written, meets the as-written transaction specification |
| Databases.Database.Transaction | Sources/SQLizer/SQLDatabase.swift:89-104 | the imperative frame with the corrected `catch` meets the corrected transaction specification |
| Databases.Database.Run | Sources/SQLizer/SQLDatabase.swift:82-85 | the operations run with no transaction framing, and their error is thrown on |
| Databases.Database.FetchSchemaVersion | Sources/SQLizer/SQLDatabase.swift:136-144 | gives the stored version unless a writer blocks the read |
| Databases.Database.MigrateIfNecessary | Sources/SQLizer/SQLDatabase.swift:114-132 | meets the migration specification: no-op, downgrade error or migrating transaction, inside the transaction frame as written |
| Databases.Open | Sources/SQLizer/SQLDatabase.swift:44-57 | once the file is open: construct and migrate (with the as-written transaction frame); succeed exactly when migration does |
| Databases.OpenFresh | Sources/SQLizer/SQLDatabase.swift:59-78 | a fresh database gets target 1 and runs the creation through migration; on success it ends at version 1 with the creation's tables |
| Databases.FreshDatabaseReportsVersionOne | Tests/SQLizerTests/SQLObjectTests.swift:6-15 | a fresh database that opens reads back version 1 |

## Left out

- The SQLite C API is not modelled as such. Its calls become the abstract engine in `engine.dfy` and the store in `database.dfy`. No SQL is parsed or evaluated: a statement's rows are a function of its bound values only, and are not tied to the database store.
- Statements.Statement: the fixed statements the database runs (BEGIN, COMMIT, ROLLBACK, the two `user_version` pragmas) are modelled as direct transitions on the store, not as `Statement` objects. As a result:
  - the reset errors these reused statements could report are not modelled;
  - neither is a failure to prepare them at construction;
  - the `PRAGMA user_version = N` write always succeeds.
- Engine.EngineStatement.Step: SQLite's automatic reset on a step after DONE is not modelled. A stream stepped again after its end gets the end code again, where SQLite would restart the query.
- Errors: the message text, and `sqlite3_errcode` read from the connection, are not modelled. An error carries the result code of the call that failed, or `ConnectionState` where the code reads the connection without a failing call.
- Values.SQLValue.DoubleValue: a `Double` is kept as its bit pattern, and no floating-point arithmetic is modelled.
- Binding.Binder.BindBlobAt: an empty `Data` may hand the engine a null pointer, which SQLite binds as NULL; the model binds an empty blob.
- Manager.SQLKeysCompareByText: Swift compares strings by canonical equivalence, while the model compares texts character by character. The dictionary is never written, so no lookup can tell the two apart.
- Engine.CString: the UTF-8 decoding of `String(cString:)` is not modelled; text is a sequence of characters throughout, cut at its first NUL.
- Engine.EngineStatement.Finalize: finalizing a handle twice is undefined in SQLite, so a handle not yet finalized is a precondition.
- Databases.Store: SQLite's `user_version` is a 32-bit integer, and the target version is not truncated to 32 bits.
- Other failures:
  - opening a file (`failedToOpenDatabase`) is left out, because it is file-system I/O;
  - the only failures BEGIN, COMMIT and the version read can have here are the lock (`Contention`) and deferred-violation conditions; I/O and full-disk errors are not modelled.
- `@SQLActor` isolation and `async`: a stream's `next` is a plain sequential method. The weak statement reference is a nullable field, null once the statement is gone.
- Value conversions (`asSQLValue`, `init(sqlValue:)`) other than `Int`'s are function parameters. So are `SQLRowRepresentable`'s `init(sqlRow:)` and `makeSQLNamesAndValues` (a decoder and an encoded dictionary).
- Errors thrown by caller code are the opaque `Thrown` errors.
- Swift's dictionary iteration order is unspecified, so it is a parameter (`NamedValues.order`); the bind outcome is proved not to depend on it.
- Left out as side effects only: logging, and the `print`/`dump` on the named-bind error path.
- Also left out:
  - `SQLRow.description`, whose output depends on dictionary order;
  - `compact` (VACUUM);
  - the update hook;
  - the SQL builder and `SQLTable` layer, and the `SQLDB` convenience wrappers;
  - `KeyPathReplaceable`.
- Statements.Statement.BindNamesAndValues: the `optionalParameters` flag is accepted and ignored, because the Binder's named binds have no optional form. Skipping an absent optional parameter is only the intent of `execute(object:)`.
- Positions and blob lengths that do not fit `Int32` make Swift trap. They are preconditions (`Fits`, `BlobFits`), not error results.

## Findings

| source | as written | input that shows it | evidently intended | confidence | as-written member | corrected member |
|---|---|---|---|---|---|---|
| Sources/SQLizer/Error Management/SQLError.swift:61-63 | `failedToStepStatement` builds an error of kind `failedToPrepareStatement` | a step that returns BUSY (5): the caller gets kind `failedToPrepareStatement` with code 5 | kind `failedToStepStatement` | high; not executed | Errors.StepErrorLooksLikePrepareError | Errors.EngineErrorKindsAreDistinct |
| Sources/SQLizer/Error Management/SQLError.swift:65-67 | `failedToBindValueToStatement` builds an error of kind `failedToPrepareStatement` | binding a value to a name the statement has no `:name` parameter for | kind `failedToBindValueToStatement` | high; not executed | Errors.NamedParameterMissLooksLikePrepareError | Errors.EngineErrorKindsAreDistinct |
| Sources/SQLizer/SQLDatabase.swift:100-103 | the `catch` runs `try` ROLLBACK, so a failing ROLLBACK throws its own error in place of the one caught | BEGIN EXCLUSIVE fails with BUSY while another connection holds a lock; no transaction is open, so ROLLBACK fails with ERROR (1), and the caller sees 1 instead of 5 | roll back, then rethrow the caught error | medium; not executed | Databases.BusyBeginErrorIsReplaced | Databases.TransactionRethrowsFirstError |
