/** A materialised result row: ordered values plus a name-to-position index (SQLRow.swift). */
module Rows {
  import opened Wrappers
  import opened Values
  import opened Errors

  /** The source's `ColumnIndex` is `Int32`; the only caller passes positions from `0..<columnCount`,
      so the model takes it as a natural number. */
  type ColumnIndex = nat

  /** SQLRow is a Swift struct, so it is a value here; `addColumn` returns the updated row. */
  datatype SQLRow = SQLRow(columnsByName: map<string, ColumnIndex>, columns: seq<SQLValue>)
  {
    function ColumnCount(): (n: nat)
      ensures n == |columns|
    {
      |columns|
    }

    /** `addColumn(name:index:value:)`: append one value and point `name` at `index`,
        replacing whatever the name pointed at before. */
    function AddColumn(name: string, index: ColumnIndex, value: SQLValue): (r: SQLRow)
      ensures r.ColumnCount() == ColumnCount() + 1
      ensures r.columns[..ColumnCount()] == columns && r.columns[ColumnCount()] == value
      ensures r.columnsByName == columnsByName[name := index]
    {
      SQLRow(columnsByName[name := index], columns + [value])
    }

    /** `subscript(_ index: Int)`: traps outside the columns. */
    function At(index: int): (v: SQLValue)
      requires 0 <= index < ColumnCount()
      ensures v == columns[index]
    {
      columns[index]
    }

    /** `subscript(_ columnName:)`: nil when the name is unknown or points past the columns. */
    function Named(name: string): (v: Option<SQLValue>)
      ensures v.Some? <==> name in columnsByName && columnsByName[name] < |columns|
      ensures v.Some? ==> v.value == columns[columnsByName[name]]
    {
      if name in columnsByName && columnsByName[name] < |columns| then Some(columns[columnsByName[name]]) else None
    }

    /** `optionalValue(at:as:)`: the conversion of the value at `index`. */
    function OptionalValueAt<T>(index: int, convert: SQLValue -> Option<T>): (r: Option<T>)
      requires 0 <= index < ColumnCount()
      ensures r.Some? <==> ValueAt(index, convert).Ok?
      ensures r.Some? ==> ValueAt(index, convert) == Ok(r)
    {
      convert(columns[index])
    }

    /** `value(at:as:)`: declared to return `T?`, it throws `valueForColumnIsNull(index)`
        instead of returning nil, so it never succeeds with nil. */
    function ValueAt<T>(index: int, convert: SQLValue -> Option<T>): (r: Result<Option<T>, SQLError>)
      requires 0 <= index < ColumnCount()
      ensures r.Ok? <==> convert(columns[index]).Some?
      ensures r.Ok? ==> r.value == convert(columns[index])
      ensures r.Err? ==> r.error == ValueForColumnIsNullAt(index)
    {
      match convert(columns[index])
      case None => Err(ValueForColumnIsNullAt(index))
      case Some(x) => Ok(Some(x))
    }

    /** `optionalValue(name:)`, `optionalValue(name:as:)`, `optionalValue(for:)` and
        `optionalValue(for:as:)` (the last two with the column's name): never throws. */
    function OptionalValueNamed<T>(name: string, convert: SQLValue -> Option<T>): (r: Option<T>)
      ensures Named(name).None? ==> r.None?
      ensures Named(name).Some? ==> r == convert(Named(name).value)
    {
      match Named(name)
      case None => None
      case Some(v) => convert(v)
    }

    /** `value(name:)`, `value(name:as:)`, `value(for:)` and `value(for:as:)`. */
    function ValueNamed<T>(name: string, convert: SQLValue -> Option<T>): (r: Result<T, SQLError>)
      ensures r.Err? && r.error == NoValueForColumn(name) <==> Named(name).None?
      ensures r.Err? && r.error == ValueForColumnIsNull(name) <==> Named(name).Some? && convert(Named(name).value).None?
      ensures r.Ok? <==> Named(name).Some? && convert(Named(name).value).Some?
      ensures r.Ok? ==> convert(Named(name).value) == Some(r.value)
    {
      match Named(name)
      case None => Err(NoValueForColumn(name))
      case Some(v) =>
        match convert(v)
        case None => Err(ValueForColumnIsNull(name))
        case Some(x) => Ok(x)
    }
  }

  const EmptyRow: SQLRow := SQLRow(map[], [])

  /** The non-throwing and the throwing named lookups agree: the optional one gives a value exactly
      when the throwing one succeeds, and the same value. */
  lemma OptionalValueAgreesWithValue<T>(row: SQLRow, name: string, convert: SQLValue -> Option<T>)
    ensures row.OptionalValueNamed(name, convert).Some? <==> row.ValueNamed(name, convert).Ok?
    ensures row.ValueNamed(name, convert).Ok? ==>
              row.OptionalValueNamed(name, convert) == Some(row.ValueNamed(name, convert).value)
  {
  }

  /** Adding a column leaves every earlier value and every other name's lookup as it was. */
  lemma AddColumnKeepsEarlierColumns(row: SQLRow, name: string, index: ColumnIndex, value: SQLValue, other: string)
    requires other != name
    ensures forall i :: 0 <= i < row.ColumnCount() ==> row.AddColumn(name, index, value).At(i) == row.At(i)
    ensures row.AddColumn(name, index, value).Named(other) ==
              if other in row.columnsByName && row.columnsByName[other] <= row.ColumnCount()
              then (if row.columnsByName[other] < row.ColumnCount() then row.Named(other) else Some(value))
              else None
  {
  }

  /** Two columns with the same name: the name finds the one added last. */
  lemma LaterDuplicateWins(row: SQLRow, name: string, first: SQLValue, second: SQLValue)
    ensures var r := row.AddColumn(name, row.ColumnCount(), first).AddColumn(name, row.ColumnCount() + 1, second);
            r.Named(name) == Some(second) && r.At(row.ColumnCount()) == first
  {
  }
}
