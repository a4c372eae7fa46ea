/** How `fetchCurrentRow` turns the engine's current row into an SQLRow (SQLStatement.swift), stated
    as functions over the engine's cells; the Statement class computes the same thing with a loop. */
module RowMaterialization {
  import opened Wrappers
  import opened Values
  import opened Rows
  import opened Engine

  /** The value a column becomes, by the engine's column type. */
  function CellValue(cell: EngineCell): SQLValue
  {
    if cell.columnType == SQLITE_INTEGER then Int(cell.integer)
    else if cell.columnType == SQLITE_FLOAT then Double(cell.number)
    else if cell.columnType == SQLITE_TEXT then
      (if cell.text.Some? then Text(CString(cell.text.value)) else Null)
    else if cell.columnType == SQLITE_BLOB then
      (if cell.blob.Some? && |cell.blob.value| > 0 then Blob(cell.blob.value) else Null)
    else Null
  }

  /** Each engine type becomes its own case; a null text pointer, a null blob pointer, an empty
      blob and any unknown type all become `.null`, and text is cut at its first NUL. */
  lemma CellValueByType(cell: EngineCell)
    ensures CellValue(cell).Int? <==> cell.columnType == SQLITE_INTEGER
    ensures CellValue(cell).Double? <==> cell.columnType == SQLITE_FLOAT
    ensures CellValue(cell).Text? <==> cell.columnType == SQLITE_TEXT && cell.text.Some?
    ensures CellValue(cell).Blob? <==> cell.columnType == SQLITE_BLOB && cell.blob.Some? && |cell.blob.value| > 0
    ensures CellValue(cell).Int? ==> CellValue(cell).integer == cell.integer
    ensures CellValue(cell).Double? ==> CellValue(cell).number == cell.number
    ensures CellValue(cell).Text? ==> CellValue(cell).text == CString(cell.text.value)
    ensures CellValue(cell).Blob? ==> CellValue(cell).bytes == cell.blob.value
  {
  }

  function Digit(d: nat): (c: char)
    requires d < 10
  {
    "0123456789"[d]
  }

  /** Decimal rendering of a column position, as string interpolation writes it. */
  function DecimalString(n: nat): (s: string)
    decreases n
  {
    if n < 10 then [Digit(n)] else DecimalString(n / 10) + [Digit(n % 10)]
  }

  lemma {:induction false} DecimalStringLength(n: nat)
    ensures |DecimalString(n)| >= 1
    ensures n >= 10 ==> |DecimalString(n)| >= 2
    decreases n
  {
    if n >= 10 {
      DecimalStringLength(n / 10);
    }
  }

  /** Different positions are written differently. */
  lemma {:induction false} DecimalStringInjective(a: nat, b: nat)
    requires DecimalString(a) == DecimalString(b)
    ensures a == b
    decreases a
  {
    DecimalStringLength(a);
    DecimalStringLength(b);
    var s := DecimalString(a);
    if a < 10 && b < 10 {
      assert Digit(a) == s[0] == Digit(b);
    } else if a >= 10 && b >= 10 {
      assert s[|s| - 1] == Digit(a % 10) == Digit(b % 10);
      assert s[..|s| - 1] == DecimalString(a / 10) == DecimalString(b / 10);
      DecimalStringInjective(a / 10, b / 10);
    }
  }

  /** The name of the column at `index`: the engine's name, or "Column <index>" when it has none. */
  function ColumnName(cell: EngineCell, index: nat): (name: string)
    ensures cell.name.None? ==> name == "Column " + DecimalString(index)
    ensures cell.name.Some? ==> name == CString(cell.name.value)
  {
    match cell.name
    case Some(raw) => CString(raw)
    case None => "Column " + DecimalString(index)
  }

  /** Two unnamed columns never receive the same generated name. */
  lemma GeneratedNamesDiffer(a: EngineCell, i: nat, b: EngineCell, j: nat)
    requires a.name.None? && b.name.None? && i != j
    ensures ColumnName(a, i) != ColumnName(b, j)
  {
    if ColumnName(a, i) == ColumnName(b, j) {
      var p := "Column ";
      assert DecimalString(i) == ColumnName(a, i)[|p|..];
      DecimalStringInjective(i, j);
    }
  }

  /** The column names of `cells`, in column order. */
  function NamesOf(cells: seq<EngineCell>): (names: seq<string>)
    ensures |names| == |cells|
    ensures forall i :: 0 <= i < |cells| ==> names[i] == ColumnName(cells[i], i)
  {
    seq(|cells|, i requires 0 <= i < |cells| => ColumnName(cells[i], i))
  }

  /** The column values of `cells`, in column order. */
  function ValuesOf(cells: seq<EngineCell>): (values: seq<SQLValue>)
    ensures |values| == |cells|
    ensures forall i :: 0 <= i < |cells| ==> values[i] == CellValue(cells[i])
  {
    seq(|cells|, i requires 0 <= i < |cells| => CellValue(cells[i]))
  }

  /** The row that adds, in order, column i called names[i] holding values[i]. */
  function RowFrom(names: seq<string>, values: seq<SQLValue>): SQLRow
    requires |names| == |values|
    decreases |names|
  {
    if |names| == 0 then EmptyRow
    else
      var k := |names| - 1;
      RowFrom(names[..k], values[..k]).AddColumn(names[k], k, values[k])
  }

  /** The row `fetchCurrentRow` builds from the engine's current row. */
  function RowOf(cells: seq<EngineCell>): SQLRow
  {
    RowFrom(NamesOf(cells), ValuesOf(cells))
  }

  /** Materialising one more column adds it to the row materialised so far. */
  lemma RowOfSnoc(cells: seq<EngineCell>, i: nat)
    requires i < |cells|
    ensures RowOf(cells[..i + 1]) == RowOf(cells[..i]).AddColumn(ColumnName(cells[i], i), i, CellValue(cells[i]))
  {
    var names, values := NamesOf(cells[..i + 1]), ValuesOf(cells[..i + 1]);
    assert names[..i] == NamesOf(cells[..i]);
    assert values[..i] == ValuesOf(cells[..i]);
  }

  /** The row holds one value per value given, in order. */
  lemma {:induction false} RowFromColumns(names: seq<string>, values: seq<SQLValue>)
    requires |names| == |values|
    ensures RowFrom(names, values).columns == values
    decreases |names|
  {
    if |names| > 0 {
      var k := |names| - 1;
      RowFromColumns(names[..k], values[..k]);
      assert values == values[..k] + [values[k]];
    }
  }

  /** `k` is the last position of `name` in `names`. */
  predicate LastIn(names: seq<string>, name: string, k: nat)
  {
    k < |names| && names[k] == name && name !in names[k + 1..]
  }

  /** The name index knows exactly the names given, and each points at its last position. */
  lemma {:induction false} RowFromNames(names: seq<string>, values: seq<SQLValue>, name: string)
    requires |names| == |values|
    ensures name in RowFrom(names, values).columnsByName <==> name in names
    ensures name in RowFrom(names, values).columnsByName ==> LastIn(names, name, RowFrom(names, values).columnsByName[name])
    decreases |names|
  {
    if |names| > 0 {
      var k := |names| - 1;
      var prefix := RowFrom(names[..k], values[..k]);
      RowFromNames(names[..k], values[..k], name);
      assert names == names[..k] + [names[k]];
      if names[k] != name && name in prefix.columnsByName {
        var j := prefix.columnsByName[name];
        assert names[j + 1..] == names[..k][j + 1..] + [names[k]];
      }
    }
  }

  /** The row holds one value per column, each the value of its cell, in column order. */
  lemma RowOfColumns(cells: seq<EngineCell>)
    ensures RowOf(cells).ColumnCount() == |cells|
    ensures forall i :: 0 <= i < |cells| ==> RowOf(cells).columns[i] == CellValue(cells[i])
  {
    RowFromColumns(NamesOf(cells), ValuesOf(cells));
  }

  /** Looking a name up in a materialised row finds the value of the last column with that name,
      and nothing when no column has it. */
  lemma RowOfLookup(cells: seq<EngineCell>, name: string)
    ensures name !in NamesOf(cells) ==> RowOf(cells).Named(name) == None
    ensures forall k: nat :: LastIn(NamesOf(cells), name, k) ==> RowOf(cells).Named(name) == Some(CellValue(cells[k]))
  {
    RowFromColumns(NamesOf(cells), ValuesOf(cells));
    RowFromNames(NamesOf(cells), ValuesOf(cells), name);
  }
}
