/** `SQLStatementManager` (SQLStatementManager.swift): prepares statements for one connection. It
    keeps a dictionary from SQL text to prepared handles and looks there first, but nothing ever
    adds to that dictionary, so every prepare compiles afresh. */
module Manager {
  import opened Wrappers
  import opened Errors
  import opened Engine
  import opened Statements

  /** `SQL`: a statement text; two are the same key exactly when their texts are equal. */
  datatype SQL = SQL(text: string)

  /** Keys of the statement dictionary compare by their text and nothing else. */
  lemma SQLKeysCompareByText(a: SQL, b: SQL)
    ensures a == b <==> a.text == b.text
  {
  }

  /** What preparing a text gives: an error for a non-OK code, the "Failed to prepare statement."
      error when the engine gave no handle, and otherwise a handle for the compiled program. */
  function PrepareOutcome(prepared: Prepared): (r: Result<Program, SQLError>)
    ensures r.Ok? <==> prepared.code == SQLITE_OK && prepared.program.Some?
    ensures r.Ok? ==> r.value == prepared.program.value
    ensures prepared.code != SQLITE_OK ==> r == Err(FailedToPrepareStatement(prepared.code))
    ensures prepared.code == SQLITE_OK && prepared.program.None? ==> r == Err(FailedToPrepareStatementNoHandle())
  {
    if prepared.code != SQLITE_OK then Err(FailedToPrepareStatement(prepared.code))
    else if prepared.program.None? then Err(FailedToPrepareStatementNoHandle())
    else Ok(prepared.program.value)
  }

  class StatementManager {
    /** `statements`: prepared handles by SQL text. */
    var statements: map<SQL, EngineStatement>
    /** sqlite3_prepare_v2 on this connection. */
    const prepare: string -> Prepared

    ghost predicate Valid()
      reads this, statements.Values
    {
      forall sql :: sql in statements ==> statements[sql].Valid()
    }

    constructor (prepare: string -> Prepared)
      ensures Valid() && statements == map[] && this.prepare == prepare
    {
      statements := map[];
      this.prepare := prepare;
    }

    /** Compile `text` into a fresh handle wrapped in a statement. */
    method Compile(text: string) returns (r: Result<Statement, SQLError>)
      ensures r.Err? ==> PrepareOutcome(prepare(text)).Err? && r.error == PrepareOutcome(prepare(text)).error
      ensures r.Ok? ==> PrepareOutcome(prepare(text)).Ok? && fresh(r.value) && fresh(r.value.id) && r.value.Valid()
      ensures r.Ok? ==> var program := PrepareOutcome(prepare(text)).value;
                        r.value.id.paramNames == program.paramNames && r.value.id.query == program.query &&
                        r.value.id.slots == map[] && r.value.id.cursor == 0 && !r.value.id.running &&
                        r.value.iteration == Iteration(0)
    {
      var prepared := prepare(text);
      if prepared.code != SQLITE_OK {
        return Err(FailedToPrepareStatement(prepared.code));
      }
      if prepared.program.None? {
        return Err(FailedToPrepareStatementNoHandle());
      }
      var id := new EngineStatement(prepared.program.value.paramNames, prepared.program.value.query);
      var statement := new Statement(id);
      r := Ok(statement);
    }

    /** `prepareStatement(_:)`: a stored handle is wrapped as it is; otherwise the text is compiled.
        The dictionary is only read, never written. */
    method PrepareStatement(sql: SQL) returns (r: Result<Statement, SQLError>)
      requires Valid()
      ensures sql in statements ==> r.Ok? && fresh(r.value) && r.value.id == statements[sql] && r.value.Valid()
      ensures sql !in statements ==> (r.Ok? <==> PrepareOutcome(prepare(sql.text)).Ok?)
      ensures sql !in statements && r.Err? ==> r.error == PrepareOutcome(prepare(sql.text)).error
      ensures sql !in statements && r.Ok? ==> fresh(r.value.id) && r.value.Valid() && r.value.id.slots == map[]
    {
      if sql in statements {
        var statement := new Statement(statements[sql]);
        return Ok(statement);
      }
      r := Compile(sql.text);
    }

    /** `prepareUncheckedStatement(_:)`: always compiles, without looking at the dictionary. */
    method PrepareUncheckedStatement(text: string) returns (r: Result<Statement, SQLError>)
      ensures r.Ok? <==> PrepareOutcome(prepare(text)).Ok?
      ensures r.Err? ==> r.error == PrepareOutcome(prepare(text)).error
      ensures r.Ok? ==> fresh(r.value.id) && r.value.Valid() && r.value.id.slots == map[]
    {
      r := Compile(text);
    }

    /** `deinit`: every stored handle is finalized once, in dictionary order (`order` lists each
        key once); a failure is logged and the loop goes on. Returns how many failures were logged:
        one for each handle whose last step failed. */
    method FinalizeAll(order: seq<SQL>) returns (failures: nat)
      requires forall sql :: sql in statements <==> sql in order
      requires forall i, j :: 0 <= i < j < |order| ==> order[i] != order[j]
      requires forall a, b :: a in statements && b in statements && a != b ==> statements[a] != statements[b]
      requires forall sql :: sql in statements ==> !statements[sql].finalized
      modifies statements.Values`finalized
      ensures forall sql :: sql in statements ==> statements[sql].finalized
      ensures failures == ErrorCount(old(HandlesOf(order)), |order|)
    {
      var handles := HandlesOf(order);
      forall j, k | 0 <= j < k < |order|
        ensures handles[j] != handles[k]
      {
        assert order[j] != order[k];
      }
      failures := FinalizeEach(handles);
      forall sql | sql in statements
        ensures statements[sql].finalized
      {
        var j :| 0 <= j < |order| && order[j] == sql;
        assert statements[sql] == handles[j];
      }
    }

    /** The handle stored under each key of `order`, in that order. */
    function HandlesOf(order: seq<SQL>): (handles: seq<EngineStatement>)
      requires forall sql :: sql in order ==> sql in statements
      reads this
      ensures |handles| == |order|
      ensures forall j :: 0 <= j < |order| ==> handles[j] == statements[order[j]]
    {
      if |order| == 0 then []
      else HandlesOf(order[..|order| - 1]) + [statements[order[|order| - 1]]]
    }
  }

  /** How many of the first `k` handles last stepped to an error. */
  function ErrorCount(handles: seq<EngineStatement>, k: nat): (n: nat)
    requires k <= |handles|
    reads handles`lastCode
    ensures n <= k
  {
    if k == 0 then 0
    else ErrorCount(handles, k - 1) + if IsError(handles[k - 1].lastCode) then 1 else 0
  }

  /** Finalize each handle once, in order; a failure is counted and the loop goes on. */
  method FinalizeEach(handles: seq<EngineStatement>) returns (failures: nat)
    requires forall j, k :: 0 <= j < k < |handles| ==> handles[j] != handles[k]
    requires forall j :: 0 <= j < |handles| ==> !handles[j].finalized
    modifies handles`finalized
    ensures forall j :: 0 <= j < |handles| ==> handles[j].finalized
    ensures failures == ErrorCount(handles, |handles|)
  {
    failures := 0;
    var i := 0;
    while i < |handles|
      invariant 0 <= i <= |handles|
      invariant failures == ErrorCount(handles, i)
      invariant forall j :: 0 <= j < i ==> handles[j].finalized
      invariant forall j :: i <= j < |handles| ==> !handles[j].finalized
    {
      var status := handles[i].Finalize();
      if status != SQLITE_OK {
        failures := failures + 1;
      }
      i := i + 1;
    }
  }

  /** Preparing the same text twice on a manager whose dictionary is empty, as it always is, gives
      two different handles: nothing is cached. */
  method PrepareTwiceCompilesTwice(manager: StatementManager, sql: SQL) returns (first: Result<Statement, SQLError>, second: Result<Statement, SQLError>)
    requires manager.Valid() && manager.statements == map[]
    ensures first.Ok? <==> second.Ok?
    ensures first.Ok? ==> first.value.id != second.value.id
  {
    first := manager.PrepareStatement(sql);
    second := manager.PrepareStatement(sql);
  }
}
