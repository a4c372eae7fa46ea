/** A prepared statement (SQLStatement.swift) and the streams over its rows (SQLRowSequence.swift,
    SQLObjectSequence.swift). Every entry point resets the statement, which starts a new iteration,
    binds its parameters and then steps; a stream remembers the iteration it was made for and goes
    quiet once the statement has moved on. */
module Statements {
  import opened Wrappers
  import opened Values
  import opened Errors
  import opened Rows
  import opened Engine
  import opened RowMaterialization
  import opened Binding

  /** `SQLStatement.Iteration`: an epoch counter, equal only to itself. */
  datatype Iteration = Iteration(count: nat)
  {
    /** `markNew()`: a later iteration, different from this one and from every earlier one. */
    function MarkNew(): (next: Iteration)
      ensures next.count == count + 1
      ensures next != this
    {
      Iteration(count + 1)
    }
  }

  datatype StepResult = Done | RowStep(row: SQLRow)

  /** The parameters of an entry point: none, `values: [SQLValue]`, `values: [SQLColumnCompatibleType?]`
      (each already converted, nil staying nil), or `namesAndValues:`. */
  datatype Params =
    | NoParams
    | Positional(values: seq<SQLValue>)
    | PositionalOptional(optionals: seq<Option<SQLValue>>)
    | NamedParams(named: NamedValues)

  /** A blob's length must fit the Int32 the Binder converts it to. */
  predicate BlobFits(v: SQLValue)
  {
    v.Blob? ==> |v.bytes| <= INT32_MAX
  }

  /** `nil` entries as NULL, in order. */
  function OrNulls(optionals: seq<Option<SQLValue>>): (values: seq<SQLValue>)
    ensures |values| == |optionals|
    ensures forall i :: 0 <= i < |optionals| ==> values[i] == OrNull(optionals[i])
  {
    seq(|optionals|, i requires 0 <= i < |optionals| => OrNull(optionals[i]))
  }

  /** What the Binder demands: positions and blob lengths that fit Int32, and a dictionary. */
  ghost predicate Fits(p: Params)
  {
    match p
    case NoParams => true
    case Positional(values) =>
      |values| < INT32_MAX && forall i :: 0 <= i < |values| ==> BlobFits(values[i])
    case PositionalOptional(optionals) =>
      |optionals| < INT32_MAX && forall i :: 0 <= i < |optionals| ==> BlobFits(OrNull(optionals[i]))
    case NamedParams(named) =>
      named.Valid() && forall name :: name in named.values ==> BlobFits(OrNull(named.values[name]))
  }

  /** The error `reset()` throws: sqlite3_reset reports the failure of the previous step, if any. */
  function ResetError(lastCode: int): (e: Option<SQLError>)
    ensures e.Some? <==> IsError(lastCode)
    ensures e.Some? ==> e.value == FailedToResetStatement(lastCode)
  {
    ThrowIfNotOK(if IsError(lastCode) then lastCode else SQLITE_OK, SQLErrorType.ResetFailure)
  }

  /** What the bind of `p` leaves in a reset statement's slots. */
  function BindSpec(paramNames: seq<string>, slots: map<int, SQLValue>, p: Params): Binding
    requires Fits(p)
  {
    match p
    case NoParams => Binding(slots, None)
    case Positional(values) => PositionalFrom(|paramNames|, false, slots, values, 0)
    case PositionalOptional(optionals) => PositionalFrom(|paramNames|, false, slots, OrNulls(optionals), 0)
    case NamedParams(named) => NamedFrom(paramNames, false, slots, named, 0)
  }

  /** The `try reset()` and `try bind(...)` that open every entry point: the reset's error stops
      everything, and otherwise the bind runs on the rewound statement. */
  function PreludeSpec(lastCode: int, paramNames: seq<string>, slots: map<int, SQLValue>, p: Params): (b: Binding)
    requires Fits(p)
  {
    var resetError := ResetError(lastCode);
    if resetError.Some? then Binding(slots, resetError) else BindSpec(paramNames, slots, p)
  }

  /** `step()` against the engine at `cursor`: the next row, DONE, or any other code as a step error. */
  function StepSpec(ex: Execution, cursor: nat): (r: Result<StepResult, SQLError>)
    ensures r.Ok? && r.value.RowStep? <==> cursor < |ex.rows|
    ensures r.Ok? && r.value.RowStep? ==> r.value.row == RowOf(ex.rows[cursor])
    ensures r.Ok? && r.value.Done? <==> cursor >= |ex.rows| && ex.endCode == SQLITE_DONE
    ensures r.Err? ==> cursor >= |ex.rows| && r.error == FailedToStepStatementAsWritten(ex.endCode)
  {
    if cursor < |ex.rows| then Ok(RowStep(RowOf(ex.rows[cursor])))
    else if ex.endCode == SQLITE_DONE then Ok(Done)
    else Err(FailedToStepStatementAsWritten(ex.endCode))
  }

  /** The rows not yet stepped over, materialised, in engine order. */
  function RemainingRows(ex: Execution, cursor: nat): (rows: seq<SQLRow>)
    requires cursor <= |ex.rows|
    ensures |rows| == |ex.rows| - cursor
    ensures forall i :: 0 <= i < |rows| ==> rows[i] == RowOf(ex.rows[cursor + i])
  {
    seq(|ex.rows| - cursor, i requires 0 <= i < |ex.rows| - cursor => RowOf(ex.rows[cursor + i]))
  }

  /** The rows from `start` up to `cursor + 1` are those up to `cursor`, then the row at `cursor`. */
  lemma RemainingRowsGrow(ex: Execution, start: nat, cursor: nat)
    requires start <= cursor < |ex.rows|
    ensures RemainingRows(ex, start)[..cursor + 1 - start] == RemainingRows(ex, start)[..cursor - start] + [RowOf(ex.rows[cursor])]
  {
    var rows := RemainingRows(ex, start);
    var k := cursor - start;
    assert rows[k] == RowOf(ex.rows[cursor]);
    var grown := rows[..k] + [rows[k]];
    assert |rows[..k + 1]| == |grown|;
    forall i | 0 <= i <= k
      ensures rows[..k + 1][i] == grown[i]
    {
    }
  }

  /** `stepAllRows()`: every remaining row, or the step error at the end of the rows. */
  function AllRowsSpec(ex: Execution, cursor: nat): (r: Result<seq<SQLRow>, SQLError>)
    requires cursor <= |ex.rows|
  {
    if ex.endCode == SQLITE_DONE then Ok(RemainingRows(ex, cursor)) else Err(FailedToStepStatementAsWritten(ex.endCode))
  }

  /** `nextRow()` from the outcome of a step. */
  function AsNextRow(s: Result<StepResult, SQLError>): (r: Result<Option<SQLRow>, SQLError>)
    ensures r.Ok? <==> s.Ok?
    ensures r.Ok? ==> (r.value.None? <==> s.value.Done?) && (r.value.Some? ==> r.value.value == s.value.row)
    ensures r.Err? ==> r.error == s.error
  {
    match s
    case Err(e) => Err(e)
    case Ok(Done) => Ok(None)
    case Ok(RowStep(row)) => Ok(Some(row))
  }

  /** `nextObject()` from the outcome of a step: a row is decoded, and a decoding error is thrown on. */
  function AsNextObject<T>(s: Result<StepResult, SQLError>, decode: SQLRow -> Result<T, SQLError>): (r: Result<Option<T>, SQLError>)
    ensures s.Err? ==> r == Err(s.error)
    ensures s == Ok(Done) ==> r == Ok(None)
    ensures s.Ok? && s.value.RowStep? ==>
              (r.Ok? <==> decode(s.value.row).Ok?) &&
              (r.Ok? ==> r.value == Some(decode(s.value.row).value)) &&
              (r.Err? ==> r.error == decode(s.value.row).error)
  {
    match s
    case Err(e) => Err(e)
    case Ok(Done) => Ok(None)
    case Ok(RowStep(row)) =>
      match decode(row)
      case Err(e) => Err(e)
      case Ok(x) => Ok(Some(x))
  }

  /** `compactMap(T.init)` over the rows with a throwing initialiser: each row decoded in order, the
      first decoding error thrown. */
  function DecodeAll<T>(rows: seq<SQLRow>, decode: SQLRow -> Result<T, SQLError>): Result<seq<T>, SQLError>
    decreases |rows|
  {
    if |rows| == 0 then Ok([])
    else
      match decode(rows[0])
      case Err(e) => Err(e)
      case Ok(x) =>
        match DecodeAll(rows[1..], decode)
        case Err(e) => Err(e)
        case Ok(xs) => Ok([x] + xs)
  }

  /** Decoding all rows gives one object per row, in row order, or the error of the first row that
      does not decode. */
  lemma {:induction false} DecodeAllInOrder<T>(rows: seq<SQLRow>, decode: SQLRow -> Result<T, SQLError>)
    ensures var r := DecodeAll(rows, decode);
            && (r.Ok? <==> forall i :: 0 <= i < |rows| ==> decode(rows[i]).Ok?)
            && (r.Ok? ==> |r.value| == |rows| && forall i :: 0 <= i < |rows| ==> r.value[i] == decode(rows[i]).value)
            && (r.Err? ==> exists i :: 0 <= i < |rows| && decode(rows[i]) == Err(r.error) &&
                                        forall j :: 0 <= j < i ==> decode(rows[j]).Ok?)
    decreases |rows|
  {
    if |rows| > 0 {
      DecodeAllInOrder(rows[1..], decode);
      var r := DecodeAll(rows, decode);
      if decode(rows[0]).Ok? {
        if r.Ok? {
          forall i | 0 <= i < |rows|
            ensures r.value[i] == decode(rows[i]).value
          {
            if i > 0 {
              assert rows[i] == rows[1..][i - 1];
            }
          }
        } else {
          var k :| 0 <= k < |rows[1..]| && decode(rows[1..][k]) == Err(r.error) &&
                   forall j :: 0 <= j < k ==> decode(rows[1..][j]).Ok?;
          forall j | 0 <= j < k + 1
            ensures decode(rows[j]).Ok?
          {
            if j > 0 {
              assert rows[j] == rows[1..][j - 1];
            }
          }
          assert decode(rows[k + 1]) == Err(r.error);
        }
        if forall i :: 0 <= i < |rows| ==> decode(rows[i]).Ok? {
          forall i | 0 <= i < |rows[1..]|
            ensures decode(rows[1..][i]).Ok?
          {
            assert rows[1..][i] == rows[i + 1];
          }
        }
      }
    }
  }

  /** The error, if any, of a step outcome (what `execute` throws). */
  function ErrorOf<T>(r: Result<T, SQLError>): Option<SQLError>
  {
    if r.Err? then Some(r.error) else None
  }

  /** `SQLStatement`: a compiled statement handle and its current iteration. */
  class Statement {
    const id: EngineStatement
    var iteration: Iteration

    ghost predicate Valid()
      reads id
    {
      id.Valid()
    }

    constructor (id: EngineStatement)
      requires id.Valid()
      ensures Valid() && this.id == id && iteration == Iteration(0)
    {
      this.id := id;
      iteration := Iteration(0);
    }

    /** `deinit`: finalize the handle; a failure, which is the error of the last step, is only logged. */
    method Finalize() returns (logged: bool)
      requires !id.finalized
      modifies id`finalized
      ensures id.finalized
      ensures logged <==> IsError(id.lastCode)
    {
      var status := id.Finalize();
      logged := status != SQLITE_OK;
    }

    /** `reset()`: the iteration moves on first, so it moves on even when the engine reset fails. */
    method Reset() returns (e: Option<SQLError>)
      requires Valid()
      modifies this, id
      ensures Valid()
      ensures iteration == old(iteration).MarkNew()
      ensures e == ResetError(old(id.lastCode))
      ensures id.cursor == 0 && !id.running && id.lastCode == SQLITE_OK
      ensures id.slots == old(id.slots) && id.finalized == old(id.finalized)
    {
      iteration := iteration.MarkNew();
      var code := id.Reset();
      e := ThrowIfNotOK(code, SQLErrorType.ResetFailure);
    }

    /** `bind(values: [SQLValue])`: value i goes to position i, each by the Binder call of its kind. */
    method BindValues(values: seq<SQLValue>) returns (e: Option<SQLError>)
      requires Valid() && |values| < INT32_MAX && forall i :: 0 <= i < |values| ==> BlobFits(values[i])
      modifies id`slots
      ensures Valid()
      ensures Binding(id.slots, e) == PositionalFrom(|id.paramNames|, id.running, old(id.slots), values, 0)
    {
      var binder := Binder(id);
      var index := 0;
      while index < |values|
        invariant 0 <= index <= |values|
        invariant Valid()
        invariant PositionalFrom(|id.paramNames|, id.running, id.slots, values, index)
                  == PositionalFrom(|id.paramNames|, id.running, old(id.slots), values, 0)
      {
        match values[index] {
          case Text(text) => e := binder.BindTextAt(text, index);
          case Int(value) => e := binder.BindIntAt(value, index);
          case Double(value) => e := binder.BindDoubleAt(value, index);
          case Blob(bytes) => e := binder.BindBlobAt(bytes, index);
          case Null => e := binder.BindNullAt(index);
        }
        if e.Some? {
          return;
        }
        index := index + 1;
      }
      e := None;
    }

    /** `bind(values: [SQLColumnCompatibleType?])`: the same, with `nil` bound as NULL. */
    method BindOptionalValues(optionals: seq<Option<SQLValue>>) returns (e: Option<SQLError>)
      requires Valid() && |optionals| < INT32_MAX && forall i :: 0 <= i < |optionals| ==> BlobFits(OrNull(optionals[i]))
      modifies id`slots
      ensures Valid()
      ensures Binding(id.slots, e) == PositionalFrom(|id.paramNames|, id.running, old(id.slots), OrNulls(optionals), 0)
    {
      e := BindValues(OrNulls(optionals));
    }

    /** `bind(namesAndValues:optionalParameters:)`: each name bound in dictionary order, `nil` as
        NULL. The Binder takes no optional flag, so a missing parameter fails whatever the flag says. */
    method BindNamesAndValues(named: NamedValues, optionalParameters: bool) returns (e: Option<SQLError>)
      requires Valid() && named.Valid() && forall name :: name in named.values ==> BlobFits(OrNull(named.values[name]))
      modifies id`slots
      ensures Valid()
      ensures Binding(id.slots, e) == NamedFrom(id.paramNames, id.running, old(id.slots), named, 0)
    {
      var binder := Binder(id);
      var i := 0;
      while i < |named.order|
        invariant 0 <= i <= |named.order|
        invariant Valid()
        invariant NamedFrom(id.paramNames, id.running, id.slots, named, i)
                  == NamedFrom(id.paramNames, id.running, old(id.slots), named, 0)
      {
        var name := named.order[i];
        assert name in named.values;
        match named.values[name] {
          case Some(Text(text)) => e := binder.BindTextTo(text, name);
          case Some(Int(value)) => e := binder.BindIntTo(value, name);
          case Some(Double(value)) => e := binder.BindDoubleTo(value, name);
          case Some(Blob(bytes)) => e := binder.BindBlobTo(bytes, name);
          case Some(Null) => e := binder.BindNullTo(name);
          case None => e := binder.BindNullTo(name);
        }
        if e.Some? {
          return;
        }
        i := i + 1;
      }
      e := None;
    }

    /** The bind of an entry point's parameters. */
    method Bind(p: Params) returns (e: Option<SQLError>)
      requires Valid() && Fits(p) && !id.running
      modifies id`slots
      ensures Valid()
      ensures Binding(id.slots, e) == BindSpec(id.paramNames, old(id.slots), p)
    {
      match p
      case NoParams => e := None;
      case Positional(values) => e := BindValues(values);
      case PositionalOptional(optionals) => e := BindOptionalValues(optionals);
      case NamedParams(named) => e := BindNamesAndValues(named, false);
    }

    /** `try reset()` followed by `try bind(...)`. */
    method ResetAndBind(p: Params) returns (e: Option<SQLError>)
      requires Valid() && Fits(p)
      modifies this, id
      ensures Valid()
      ensures iteration == old(iteration).MarkNew()
      ensures Binding(id.slots, e) == PreludeSpec(old(id.lastCode), id.paramNames, old(id.slots), p)
      ensures id.cursor == 0 && !id.running && id.lastCode == SQLITE_OK
    {
      e := Reset();
      if e.Some? {
        return;
      }
      e := Bind(p);
    }

    /** `fetchCurrentRow()`: one column at a time, in column order. */
    method FetchCurrentRow() returns (row: SQLRow)
      requires Valid() && id.cursor > 0
      ensures row == RowOf(id.CurrentRow())
    {
      var cells := id.CurrentRow();
      if |cells| == 0 {
        return EmptyRow;
      }
      row := EmptyRow;
      var columnIndex := 0;
      while columnIndex < |cells|
        invariant 0 <= columnIndex <= |cells|
        invariant row == RowOf(cells[..columnIndex])
      {
        var cell := cells[columnIndex];
        var value: SQLValue;
        if cell.columnType == SQLITE_INTEGER {
          value := Int(cell.integer);
        } else if cell.columnType == SQLITE_FLOAT {
          value := Double(cell.number);
        } else if cell.columnType == SQLITE_TEXT {
          if cell.text.Some? {
            value := Text(CString(cell.text.value));
          } else {
            value := Null;
          }
        } else if cell.columnType == SQLITE_BLOB {
          if cell.blob.Some? && |cell.blob.value| > 0 {
            value := Blob(cell.blob.value);
          } else {
            value := Null;
          }
        } else {
          value := Null;
        }
        var columnName: string;
        if cell.name.Some? {
          columnName := CString(cell.name.value);
        } else {
          columnName := "Column " + DecimalString(columnIndex);
        }
        assert value == CellValue(cell) && columnName == ColumnName(cell, columnIndex);
        RowOfSnoc(cells, columnIndex);
        row := row.AddColumn(columnName, columnIndex, value);
        columnIndex := columnIndex + 1;
      }
      assert cells[..|cells|] == cells;
    }

    /** `step()`: DONE is `.done`, ROW is the current row, any other code a step error. */
    method Step() returns (r: Result<StepResult, SQLError>)
      requires Valid()
      modifies id
      ensures Valid()
      ensures r == StepSpec(old(id.Results()), old(id.cursor))
      ensures id.cursor == if old(id.cursor) < |id.Results().rows| then old(id.cursor) + 1 else old(id.cursor)
      ensures id.running && id.slots == old(id.slots) && id.finalized == old(id.finalized)
    {
      var code := id.Step();
      if code == SQLITE_DONE {
        r := Ok(Done);
      } else if code == SQLITE_ROW {
        var row := FetchCurrentRow();
        r := Ok(RowStep(row));
      } else {
        r := Err(FailedToStepStatementAsWritten(code));
      }
    }

    /** `stepAllRows()`: step until DONE, collecting the rows. */
    method StepAllRows() returns (r: Result<seq<SQLRow>, SQLError>)
      requires Valid()
      modifies id
      ensures Valid()
      ensures r == AllRowsSpec(old(id.Results()), old(id.cursor))
      ensures id.cursor == |id.Results().rows| && id.slots == old(id.slots) && id.finalized == old(id.finalized)
    {
      ghost var ex := id.Results();
      ghost var start := id.cursor;
      var rows: seq<SQLRow> := [];
      while true
        invariant Valid() && id.Results() == ex && id.slots == old(id.slots) && id.finalized == old(id.finalized)
        invariant start <= id.cursor <= |ex.rows|
        invariant rows == RemainingRows(ex, start)[..id.cursor - start]
        decreases |ex.rows| - id.cursor
      {
        ghost var before := id.cursor;
        var s := Step();
        match s
        case Err(e) =>
          return Err(e);
        case Ok(Done) =>
          break;
        case Ok(RowStep(row)) =>
          RemainingRowsGrow(ex, start, before);
          rows := rows + [row];
      }
      assert RemainingRows(ex, start)[..id.cursor - start] == RemainingRows(ex, start);
      r := Ok(rows);
    }

    /** `nextRow()`. */
    method NextRow() returns (r: Result<Option<SQLRow>, SQLError>)
      requires Valid()
      modifies id
      ensures Valid()
      ensures r == AsNextRow(StepSpec(old(id.Results()), old(id.cursor)))
      ensures id.slots == old(id.slots)
      ensures id.cursor == if old(id.cursor) < |id.Results().rows| then old(id.cursor) + 1 else old(id.cursor)
    {
      var s := Step();
      r := AsNextRow(s);
    }

    /** `nextRowForIteration(_:)`: nothing at all happens for any iteration but the current one. */
    method NextRowForIteration(it: Iteration) returns (r: Result<Option<SQLRow>, SQLError>)
      requires Valid()
      modifies id
      ensures Valid()
      ensures iteration != it ==> r == Ok(None) && unchanged(id)
      ensures iteration == it ==> r == AsNextRow(StepSpec(old(id.Results()), old(id.cursor)))
      ensures iteration == it ==> id.cursor == if old(id.cursor) < |id.Results().rows| then old(id.cursor) + 1 else old(id.cursor)
      ensures id.slots == old(id.slots)
    {
      if iteration != it {
        return Ok(None);
      }
      r := NextRow();
    }

    /** `nextObject()`: the next row decoded by `T(sqlRow:)`. */
    method NextObject<T>(decode: SQLRow -> Result<T, SQLError>) returns (r: Result<Option<T>, SQLError>)
      requires Valid()
      modifies id
      ensures Valid()
      ensures r == AsNextObject(StepSpec(old(id.Results()), old(id.cursor)), decode)
      ensures id.slots == old(id.slots)
    {
      var s := Step();
      r := AsNextObject(s, decode);
    }

    /** `nextObjectForIteration(_:)`: no step and no decoding for a stale iteration. */
    method NextObjectForIteration<T>(it: Iteration, decode: SQLRow -> Result<T, SQLError>) returns (r: Result<Option<T>, SQLError>)
      requires Valid()
      modifies id
      ensures Valid()
      ensures iteration != it ==> r == Ok(None) && unchanged(id)
      ensures iteration == it ==> r == AsNextObject(StepSpec(old(id.Results()), old(id.cursor)), decode)
      ensures id.slots == old(id.slots)
    {
      if iteration != it {
        return Ok(None);
      }
      r := NextObject(decode);
    }

    /** `execute(...)` with any parameters: reset, bind, one step. */
    method Execute(p: Params) returns (e: Option<SQLError>)
      requires Valid() && Fits(p)
      modifies this, id
      ensures Valid() && iteration == old(iteration).MarkNew()
      ensures var prelude := PreludeSpec(old(id.lastCode), id.paramNames, old(id.slots), p);
              && id.slots == prelude.slots
              && e == if prelude.error.Some? then prelude.error else ErrorOf(StepSpec(id.query(prelude.slots), 0))
    {
      e := ResetAndBind(p);
      if e.Some? {
        return;
      }
      var s := Step();
      e := ErrorOf(s);
    }

    /** `execute(object:)`: reset, then encode the object (`makeSQLNamesAndValues`, which may throw)
        and bind its names with `optionalParameters: true`, then step. */
    method ExecuteObject(encoded: Result<NamedValues, SQLError>) returns (e: Option<SQLError>)
      requires Valid() && (encoded.Ok? ==> Fits(NamedParams(encoded.value)))
      modifies this, id
      ensures Valid() && iteration == old(iteration).MarkNew()
      ensures var resetError := ResetError(old(id.lastCode));
              && (resetError.Some? ==> e == resetError && id.slots == old(id.slots))
              && (resetError.None? && encoded.Err? ==> e == Some(encoded.error) && id.slots == old(id.slots))
              && (resetError.None? && encoded.Ok? ==>
                    var bound := NamedFrom(id.paramNames, false, old(id.slots), encoded.value, 0);
                    id.slots == bound.slots &&
                    e == if bound.error.Some? then bound.error else ErrorOf(StepSpec(id.query(bound.slots), 0)))
    {
      e := Reset();
      if e.Some? {
        return;
      }
      if encoded.Err? {
        return Some(encoded.error);
      }
      e := BindNamesAndValues(encoded.value, true);
      if e.Some? {
        return;
      }
      var s := Step();
      e := ErrorOf(s);
    }

    /** `fetchRow(...)`: reset, bind, then the first row, if any. */
    method FetchRow(p: Params) returns (r: Result<Option<SQLRow>, SQLError>)
      requires Valid() && Fits(p)
      modifies this, id
      ensures Valid() && iteration == old(iteration).MarkNew()
      ensures var prelude := PreludeSpec(old(id.lastCode), id.paramNames, old(id.slots), p);
              && id.slots == prelude.slots
              && r == if prelude.error.Some? then Err(prelude.error.value) else AsNextRow(StepSpec(id.query(prelude.slots), 0))
    {
      var e := ResetAndBind(p);
      if e.Some? {
        return Err(e.value);
      }
      r := NextRow();
    }

    /** `fetchObject(...)`: reset, bind, then the first row decoded. */
    method FetchObject<T>(p: Params, decode: SQLRow -> Result<T, SQLError>) returns (r: Result<Option<T>, SQLError>)
      requires Valid() && Fits(p)
      modifies this, id
      ensures Valid() && iteration == old(iteration).MarkNew()
      ensures var prelude := PreludeSpec(old(id.lastCode), id.paramNames, old(id.slots), p);
              && id.slots == prelude.slots
              && r == if prelude.error.Some? then Err(prelude.error.value) else AsNextObject(StepSpec(id.query(prelude.slots), 0), decode)
    {
      var e := ResetAndBind(p);
      if e.Some? {
        return Err(e.value);
      }
      r := NextObject(decode);
    }

    /** `fetchAllRows(...)`: reset, bind, then every row. */
    method FetchAllRows(p: Params) returns (r: Result<seq<SQLRow>, SQLError>)
      requires Valid() && Fits(p)
      modifies this, id
      ensures Valid() && iteration == old(iteration).MarkNew()
      ensures var prelude := PreludeSpec(old(id.lastCode), id.paramNames, old(id.slots), p);
              && id.slots == prelude.slots
              && r == if prelude.error.Some? then Err(prelude.error.value) else AllRowsSpec(id.query(prelude.slots), 0)
    {
      var e := ResetAndBind(p);
      if e.Some? {
        return Err(e.value);
      }
      r := StepAllRows();
    }

    /** `fetchAllObjects(...)`: reset, bind, every row, then each decoded. */
    method FetchAllObjects<T>(p: Params, decode: SQLRow -> Result<T, SQLError>) returns (r: Result<seq<T>, SQLError>)
      requires Valid() && Fits(p)
      modifies this, id
      ensures Valid() && iteration == old(iteration).MarkNew()
      ensures var prelude := PreludeSpec(old(id.lastCode), id.paramNames, old(id.slots), p);
              && id.slots == prelude.slots
              && r == if prelude.error.Some? then Err(prelude.error.value)
                      else match AllRowsSpec(id.query(prelude.slots), 0)
                           case Err(e) => Err(e)
                           case Ok(rows) => DecodeAll(rows, decode)
    {
      var e := ResetAndBind(p);
      if e.Some? {
        return Err(e.value);
      }
      var all := StepAllRows();
      match all
      case Err(error) => r := Err(error);
      case Ok(rows) => r := DecodeAll(rows, decode);
    }

    /** `fetchRowSequence(...)`: reset, bind, then a stream for the iteration current now. */
    method FetchRowSequence(p: Params) returns (r: Result<RowSequence, SQLError>)
      requires Valid() && Fits(p)
      modifies this, id
      ensures Valid() && iteration == old(iteration).MarkNew()
      ensures var prelude := PreludeSpec(old(id.lastCode), id.paramNames, old(id.slots), p);
              && id.slots == prelude.slots && id.cursor == 0
              && (r.Ok? <==> prelude.error.None?)
              && (r.Err? ==> r.error == prelude.error.value)
              && (r.Ok? ==> r.value == RowSequence(this, iteration))
    {
      var e := ResetAndBind(p);
      if e.Some? {
        return Err(e.value);
      }
      r := Ok(RowSequence(this, iteration));
    }

    /** `fetchObjectSequence(...)`: the same, decoding each row. */
    method FetchObjectSequence<T>(p: Params, decode: SQLRow -> Result<T, SQLError>) returns (r: Result<ObjectSequence<T>, SQLError>)
      requires Valid() && Fits(p)
      modifies this, id
      ensures Valid() && iteration == old(iteration).MarkNew()
      ensures var prelude := PreludeSpec(old(id.lastCode), id.paramNames, old(id.slots), p);
              && id.slots == prelude.slots && id.cursor == 0
              && (r.Ok? <==> prelude.error.None?)
              && (r.Err? ==> r.error == prelude.error.value)
              && (r.Ok? ==> r.value == ObjectSequence(this, iteration, decode))
    {
      var e := ResetAndBind(p);
      if e.Some? {
        return Err(e.value);
      }
      r := Ok(ObjectSequence(this, iteration, decode));
    }
  }

  /** `SQLRowSequence`: a weak reference to the statement (null once the statement is gone) and
      the iteration the stream was made for. Its fields never change. */
  datatype RowSequence = RowSequence(statement: Statement?, validForIteration: Iteration)
  {
    /** `makeAsyncIterator()`: the stream is its own iterator. */
    function MakeAsyncIterator(): (it: RowSequence)
      ensures it.statement == statement && it.validForIteration == validForIteration
    {
      this
    }

    /** `next()`: nil without a statement, otherwise `nextRowForIteration` with the captured iteration. */
    method Next() returns (r: Result<Option<SQLRow>, SQLError>)
      requires statement != null ==> statement.Valid()
      modifies if statement != null then {statement.id} else {}
      ensures statement == null ==> r == Ok(None)
      ensures statement != null ==> statement.Valid() && statement.id.slots == old(statement.id.slots)
      ensures statement != null && statement.iteration != validForIteration ==> r == Ok(None) && unchanged(statement.id)
      ensures statement != null && statement.iteration == validForIteration ==>
                r == AsNextRow(StepSpec(old(statement.id.Results()), old(statement.id.cursor)))
      ensures statement != null && statement.iteration == validForIteration ==>
                statement.id.cursor == if old(statement.id.cursor) < |statement.id.Results().rows|
                                       then old(statement.id.cursor) + 1 else old(statement.id.cursor)
    {
      if statement == null {
        return Ok(None);
      }
      r := statement.NextRowForIteration(validForIteration);
    }
  }

  /** `SQLObjectSequence<T>`: the row stream, each row decoded with `T(sqlRow:)`. */
  datatype ObjectSequence<T> = ObjectSequence(statement: Statement?, validForIteration: Iteration, decode: SQLRow -> Result<T, SQLError>)
  {
    /** `makeAsyncIterator()`: the stream is its own iterator. */
    function MakeAsyncIterator(): (it: ObjectSequence<T>)
      ensures it.statement == statement && it.validForIteration == validForIteration && it.decode == decode
    {
      this
    }

    /** `next()`: nil without a statement, otherwise `nextObjectForIteration` with the captured iteration. */
    method Next() returns (r: Result<Option<T>, SQLError>)
      requires statement != null ==> statement.Valid()
      modifies if statement != null then {statement.id} else {}
      ensures statement == null ==> r == Ok(None)
      ensures statement != null ==> statement.Valid() && statement.id.slots == old(statement.id.slots)
      ensures statement != null && statement.iteration != validForIteration ==> r == Ok(None) && unchanged(statement.id)
      ensures statement != null && statement.iteration == validForIteration ==>
                r == AsNextObject(StepSpec(old(statement.id.Results()), old(statement.id.cursor)), decode)
    {
      if statement == null {
        return Ok(None);
      }
      r := statement.NextObjectForIteration(validForIteration, decode);
    }
  }

  /** What a caller may do with a statement after taking a row stream from it: pull the stream, or
      call one of the statement's entry points, each of which resets the statement. */
  datatype Call<T> =
    | PullStream
    | CallExecute(p: Params)
    | CallExecuteObject(encoded: Result<NamedValues, SQLError>)
    | CallFetchRow(p: Params)
    | CallFetchObject(p: Params, decode: SQLRow -> Result<T, SQLError>)
    | CallFetchAllRows(p: Params)
    | CallFetchAllObjects(p: Params, decode: SQLRow -> Result<T, SQLError>)
    | CallFetchRowSequence(p: Params)
    | CallFetchObjectSequence(p: Params, decode: SQLRow -> Result<T, SQLError>)

  /** The parameters of an entry-point call are within the Binder's Int32 limits. */
  ghost predicate CallFits<T>(c: Call<T>)
  {
    match c
    case PullStream => true
    case CallExecuteObject(encoded) => encoded.Ok? ==> Fits(NamedParams(encoded.value))
    case _ => Fits(c.p)
  }

  /** Position of the first entry-point call, `|calls|` when there is none. */
  function FirstEntry<T>(calls: seq<Call<T>>): (k: nat)
    ensures k <= |calls|
    ensures forall i :: 0 <= i < k ==> calls[i].PullStream?
    ensures k < |calls| ==> !calls[k].PullStream?
  {
    if |calls| == 0 || !calls[0].PullStream? then 0 else 1 + FirstEntry(calls[1..])
  }

  function Min(a: nat, b: nat): nat
  {
    if a < b then a else b
  }

  /** One entry-point call on the statement: whatever it returns, the statement moves on to a new
      iteration. */
  method Enter<T>(s: Statement, c: Call<T>)
    requires s.Valid() && CallFits(c) && !c.PullStream?
    modifies s, s.id
    ensures s.Valid() && s.iteration == old(s.iteration).MarkNew()
  {
    match c {
      case CallExecute(q) => var _ := s.Execute(q);
      case CallExecuteObject(encoded) => var _ := s.ExecuteObject(encoded);
      case CallFetchRow(q) => var _ := s.FetchRow(q);
      case CallFetchObject(q, decode) => var _ := s.FetchObject(q, decode);
      case CallFetchAllRows(q) => var _ := s.FetchAllRows(q);
      case CallFetchAllObjects(q, decode) => var _ := s.FetchAllObjects(q, decode);
      case CallFetchRowSequence(q) => var _ := s.FetchRowSequence(q);
      case CallFetchObjectSequence(q, decode) => var _ := s.FetchObjectSequence(q, decode);
    }
  }

  /** Pull a stream `n` times while its statement stays on the stream's iteration: the pulls walk
      the result rows from the first one on, and the end of the rows is reported again each time. */
  method PullCurrent(s: Statement, sequence: RowSequence, n: nat) returns (pulled: seq<Result<Option<SQLRow>, SQLError>>)
    requires s.Valid() && sequence.statement == s && s.iteration == sequence.validForIteration && s.id.cursor == 0
    modifies s.id
    ensures s.Valid() && s.id.slots == old(s.id.slots)
    ensures |pulled| == n
    ensures var ex := old(s.id.Results());
            forall j :: 0 <= j < n ==> pulled[j] == AsNextRow(StepSpec(ex, Min(j, |ex.rows|)))
  {
    ghost var slots := s.id.slots;
    ghost var ex := s.id.Results();
    pulled := [];
    var i := 0;
    while i < n
      invariant 0 <= i <= n && |pulled| == i
      invariant s.Valid() && s.id.slots == slots && s.id.Results() == ex && s.id.cursor == Min(i, |ex.rows|)
      invariant forall j :: 0 <= j < i ==> pulled[j] == AsNextRow(StepSpec(ex, Min(j, |ex.rows|)))
    {
      var r := sequence.Next();
      pulled := pulled + [r];
      i := i + 1;
    }
  }

  /** Once its statement has moved past the stream's iteration, every pull of the stream gives the
      end of the stream, whatever the caller does with the statement in between. */
  method PullAfterReset<T>(s: Statement, sequence: RowSequence, calls: seq<Call<T>>)
    returns (pulled: seq<Result<Option<SQLRow>, SQLError>>)
    requires s.Valid() && sequence.statement == s && s.iteration.count > sequence.validForIteration.count
    requires forall i :: 0 <= i < |calls| ==> CallFits(calls[i])
    modifies s, s.id
    ensures |pulled| == |calls|
    ensures forall j :: 0 <= j < |calls| ==> pulled[j] == Ok(None)
  {
    pulled := [];
    var i := 0;
    while i < |calls|
      invariant 0 <= i <= |calls| && |pulled| == i
      invariant s.Valid() && s.iteration.count > sequence.validForIteration.count
      invariant forall j :: 0 <= j < i ==> pulled[j] == Ok(None)
    {
      var r: Result<Option<SQLRow>, SQLError> := Ok(None);
      if calls[i].PullStream? {
        r := sequence.Next();
      } else {
        Enter(s, calls[i]);
      }
      pulled := pulled + [r];
      i := i + 1;
    }
  }

  /** A stream handed out by `fetchRowSequence`, interleaved with any calls on its statement: until
      the first entry-point call, pull i yields the statement's row i in order, then its end; from
      then on every pull yields nil and never steps. `pulled[i]` is what call i yielded (nil for an
      entry-point call). */
  method StreamGoesStaleAfterReset<T>(s: Statement, p: Params, calls: seq<Call<T>>)
    returns (stream: Result<RowSequence, SQLError>, pulled: seq<Result<Option<SQLRow>, SQLError>>)
    requires s.Valid() && Fits(p) && forall i :: 0 <= i < |calls| ==> CallFits(calls[i])
    modifies s, s.id
    ensures stream.Ok? ==> |pulled| == |calls|
    ensures stream.Ok? ==>
              var ex := s.id.query(PreludeSpec(old(s.id.lastCode), s.id.paramNames, old(s.id.slots), p).slots);
              forall i :: 0 <= i < FirstEntry(calls) ==> pulled[i] == AsNextRow(StepSpec(ex, Min(i, |ex.rows|)))
    ensures stream.Ok? ==> forall i :: FirstEntry(calls) < i < |calls| ==> pulled[i] == Ok(None)
  {
    pulled := [];
    stream := s.FetchRowSequence(p);
    if stream.Err? {
      return;
    }
    var sequence := stream.value;
    var first := FirstEntry(calls);
    pulled := PullCurrent(s, sequence, first);
    if first == |calls| {
      return;
    }
    Enter(s, calls[first]);
    var rest := PullAfterReset(s, sequence, calls[first + 1..]);
    pulled := pulled + [Ok(None)] + rest;
  }
}
