/** The embedded engine, abstracted to plain state: a compiled statement is a list of parameter
    names, a query that yields rows for the bound values, a cursor over those rows and the slot
    map. Only the behaviour the statement layer relies on is modelled. */
module Engine {
  import opened Wrappers
  import opened Values
  import opened Errors

  /** Column type codes reported by sqlite3_column_type. */
  const SQLITE_INTEGER: int := 1
  const SQLITE_FLOAT: int := 2
  const SQLITE_TEXT: int := 3
  const SQLITE_BLOB: int := 4
  const SQLITE_NULL: int := 5

  /** One column of the current result row, as the engine's column accessors report it. */
  datatype EngineCell = EngineCell(
    columnType: int,            // sqlite3_column_type
    integer: int64,             // sqlite3_column_int64
    number: Real,               // sqlite3_column_double
    text: Option<string>,       // sqlite3_column_text; None is a null pointer
    blob: Option<seq<byte>>,    // sqlite3_column_blob, None being a null pointer; its length is sqlite3_column_bytes
    name: Option<string>)       // sqlite3_column_name; None is a null pointer

  type EngineRow = seq<EngineCell>

  /** What sqlite3_step reports once the rows are exhausted: DONE or an error code, never ROW. */
  type EndCode = c: int | c != 100 witness 101

  /** What running a compiled program yields: its rows in order, then its end code. */
  datatype Execution = Execution(rows: seq<EngineRow>, endCode: EndCode)

  /** A compiled program: the name of each parameter slot, and what running it yields. */
  datatype Program = Program(paramNames: seq<string>, query: map<int, SQLValue> -> Execution)

  /** What sqlite3_prepare_v2 gives for a text: a result code and, possibly, a statement handle
      (none when the text is rejected, and none either when the text holds no SQL at all). */
  datatype Prepared = Prepared(code: int, program: Option<Program>)

  /** An engine result code that is neither OK, ROW nor DONE. */
  predicate IsError(code: int)
  {
    code != SQLITE_OK && code != SQLITE_ROW && code != SQLITE_DONE
  }

  /** Position of the first occurrence of `name` in `names`. */
  function FirstIndexOf(names: seq<string>, name: string): (k: nat)
    requires name in names
    ensures k < |names| && names[k] == name && name !in names[..k]
  {
    if names[0] == name then 0
    else
      assert names == [names[0]] + names[1..];
      var k := 1 + FirstIndexOf(names[1..], name);
      assert names[..k] == [names[0]] + names[1..][..k - 1];
      k
  }

  /** sqlite3_bind_parameter_index: the one-based slot of the first parameter called `name`, 0 if none. */
  function ParameterIndex(paramNames: seq<string>, name: string): (k: nat)
    ensures k <= |paramNames|
    ensures k == 0 <==> name !in paramNames
    ensures k > 0 ==> paramNames[k - 1] == name && name !in paramNames[..k - 1]
  {
    if name in paramNames then FirstIndexOf(paramNames, name) + 1 else 0
  }

  /** Two different names never share a slot. */
  lemma ParameterIndexInjective(paramNames: seq<string>, a: string, b: string)
    requires ParameterIndex(paramNames, a) > 0 && a != b
    ensures ParameterIndex(paramNames, a) != ParameterIndex(paramNames, b)
  {
  }

  /** A text handed over as a NUL-terminated C string (`String(cString:)`, or a bind with length -1):
      everything before the first NUL character. */
  function CString(s: string): (r: string)
    ensures |r| <= |s| && r == s[..|r|]
    ensures '\0' !in r
    ensures |r| < |s| ==> s[|r|] == '\0'
  {
    if |s| == 0 || s[0] == '\0' then []
    else [s[0]] + CString(s[1..])
  }

  /** A compiled statement (sqlite3_stmt). */
  class EngineStatement {
    /** The name of each parameter slot: slot k is called paramNames[k - 1]. */
    const paramNames: seq<string>
    /** What the program yields for the values bound to its slots. */
    const query: map<int, SQLValue> -> Execution
    /** Values bound to the parameter slots; a reset does not clear them. */
    var slots: map<int, SQLValue>
    /** Rows of the current execution already stepped over. */
    var cursor: nat
    /** Stepped at least once since the last reset. */
    var running: bool
    /** Result code of the most recent step (OK before any). */
    var lastCode: int
    var finalized: bool

    ghost predicate Valid()
      reads this
    {
      cursor <= |query(slots).rows| && (!running ==> cursor == 0)
    }

    function Results(): Execution
      reads this
    {
      query(slots)
    }

    constructor (paramNames: seq<string>, query: map<int, SQLValue> -> Execution)
      ensures Valid()
      ensures this.paramNames == paramNames && this.query == query
      ensures slots == map[] && cursor == 0 && !running && lastCode == SQLITE_OK && !finalized
    {
      this.paramNames := paramNames;
      this.query := query;
      slots := map[];
      cursor := 0;
      running := false;
      lastCode := SQLITE_OK;
      finalized := false;
    }

    /** sqlite3_reset: rewinds the program and keeps the bound values; it reports the error of
        the most recent step, if that step failed. */
    method Reset() returns (code: int)
      requires Valid()
      modifies this
      ensures Valid()
      ensures code == if IsError(old(lastCode)) then old(lastCode) else SQLITE_OK
      ensures cursor == 0 && !running && lastCode == SQLITE_OK
      ensures slots == old(slots) && finalized == old(finalized)
    {
      code := if IsError(lastCode) then lastCode else SQLITE_OK;
      cursor, running, lastCode := 0, false, SQLITE_OK;
    }

    /** sqlite3_step: ROW while rows remain, then the program's end code (again on every later call). */
    method Step() returns (code: int)
      requires Valid()
      modifies this
      ensures Valid() && running && lastCode == code
      ensures slots == old(slots) && finalized == old(finalized)
      ensures old(cursor) < |Results().rows| ==> code == SQLITE_ROW && cursor == old(cursor) + 1
      ensures old(cursor) >= |Results().rows| ==> code == Results().endCode && cursor == old(cursor)
    {
      if cursor < |query(slots).rows| {
        cursor := cursor + 1;
        code := SQLITE_ROW;
      } else {
        code := query(slots).endCode;
      }
      running, lastCode := true, code;
    }

    /** The row the last ROW step produced. */
    function CurrentRow(): EngineRow
      reads this
      requires Valid() && cursor > 0
    {
      Results().rows[cursor - 1]
    }

    /** sqlite3_bind_*: MISUSE on a statement stepped since its last reset, RANGE outside the
        slots, otherwise the slot takes a copy of the value. */
    method Bind(slot: int, value: SQLValue) returns (code: int)
      requires Valid()
      modifies this`slots
      ensures Valid()
      ensures code == BindCode(|paramNames|, old(running), slot)
      ensures slots == if code == SQLITE_OK then old(slots)[slot := value] else old(slots)
    {
      code := BindCode(|paramNames|, running, slot);
      if code == SQLITE_OK {
        slots := slots[slot := value];
      }
    }

    /** sqlite3_finalize: releases the handle and, like a reset, reports the error of the most
        recent step if that step failed. A handle is finalized at most once. */
    method Finalize() returns (code: int)
      requires !finalized
      modifies this`finalized
      ensures finalized
      ensures code == if IsError(lastCode) then lastCode else SQLITE_OK
    {
      code := if IsError(lastCode) then lastCode else SQLITE_OK;
      finalized := true;
    }
  }

  /** The result code of a bind into `slot` of a statement with `count` slots. */
  function BindCode(count: nat, running: bool, slot: int): (code: int)
    ensures code == SQLITE_OK <==> !running && 1 <= slot <= count
  {
    if running then SQLITE_MISUSE else if 1 <= slot <= count then SQLITE_OK else SQLITE_RANGE
  }
}
