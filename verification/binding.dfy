/** Parameter binding (SQLStatement+Binder.swift and the `bind` loops of SQLStatement.swift):
    the Binder's single binds, and as functions what a whole list or dictionary of values
    leaves in the engine's slots. */
module Binding {
  import opened Wrappers
  import opened Values
  import opened Errors
  import opened Engine

  const INT32_MAX: int := 0x7fff_ffff

  /** `oneBased(from:)`: positional index i names engine slot i + 1; the conversion to Int32 traps
      unless i + 1 fits. */
  function OneBased(index: int): (slot: int)
    requires index + 1 <= INT32_MAX
    ensures slot <= INT32_MAX && slot - 1 == index
    ensures index >= 0 ==> slot >= 1
  {
    index + 1
  }

  /** `indexOfParameterNamed`: the slot of the parameter written `:name`, or the bind error when the
      engine reports no such parameter. */
  function IndexOfParameterNamed(paramNames: seq<string>, name: string): (r: Result<int, SQLError>)
    ensures r.Ok? <==> ":" + name in paramNames
    ensures r.Ok? ==> 1 <= r.value <= |paramNames| && paramNames[r.value - 1] == ":" + name
    ensures r.Err? ==> r.error == FailedToBindValueToStatementAsWritten()
  {
    var index := ParameterIndex(paramNames, ":" + name);
    if index > 0 then Ok(index) else Err(FailedToBindValueToStatementAsWritten())
  }

  /** The value a slot holds after binding `v`: text goes over as a NUL-terminated string (length
      -1), so it ends at its first NUL; everything else, blobs included (copied, full length), is
      kept as given. */
  function BoundValue(v: SQLValue): (stored: SQLValue)
  {
    if v.Text? then Text(CString(v.text)) else v
  }

  /** Binding keeps the kind of the value and every payload except text after a NUL. */
  lemma BoundValueKeepsKindAndPayload(v: SQLValue)
    ensures BoundValue(v).Text? == v.Text? && BoundValue(v).Int? == v.Int? && BoundValue(v).Double? == v.Double?
    ensures BoundValue(v).Blob? == v.Blob? && BoundValue(v).Null? == v.Null?
    ensures !v.Text? ==> BoundValue(v) == v
    ensures v.Text? && '\0' !in v.text ==> BoundValue(v) == v
  {
    if v.Text? && '\0' !in v.text {
      assert CString(v.text) == v.text;
    }
  }

  /** The slots after one or more binds, and the error that stopped them, if any. */
  datatype Binding = Binding(slots: map<int, SQLValue>, error: Option<SQLError>)

  /** One `bind*` call: `target` is the slot (or the failed parameter lookup). The engine's result
      goes through `throwIfNotOK(.failedToBindValueToStatement)`; the value lands only on success. */
  function BindOne(count: nat, running: bool, slots: map<int, SQLValue>, target: Result<int, SQLError>, value: SQLValue): (b: Binding)
  {
    match target
    case Err(e) => Binding(slots, Some(e))
    case Ok(slot) =>
      var e := ThrowIfNotOK(BindCode(count, running, slot), SQLErrorType.BindFailure);
      Binding(if e.None? then slots[slot := value] else slots, e)
  }

  /** A single bind writes its value into its one slot and leaves every other slot alone; it fails,
      writing nothing, when the lookup failed, the statement is mid-run or the slot is out of range. */
  lemma BindOneWritesOnlyItsSlot(count: nat, running: bool, slots: map<int, SQLValue>, target: Result<int, SQLError>, value: SQLValue)
    ensures var b := BindOne(count, running, slots, target, value);
            && (b.error.None? <==> target.Ok? && !running && 1 <= target.value <= count)
            && (b.error.None? ==> b.slots == slots[target.value := value])
            && (b.error.Some? ==> b.slots == slots)
            && (target.Err? ==> b.error == Some(target.error))
            && (target.Ok? && running ==> b.error == Some(SQLError(SQLErrorType.BindFailure, Code(SQLITE_MISUSE))))
            && (target.Ok? && !running && !(1 <= target.value <= count) ==>
                  b.error == Some(SQLError(SQLErrorType.BindFailure, Code(SQLITE_RANGE))))
  {
  }

  /** The values of `bind(values:)` from position `i` on: value i into slot i + 1, stopping at the
      first failure. */
  function PositionalFrom(count: nat, running: bool, slots: map<int, SQLValue>, values: seq<SQLValue>, i: nat): (b: Binding)
    requires i <= |values| < INT32_MAX
    decreases |values| - i
  {
    if i == |values| then Binding(slots, None)
    else
      var step := BindOne(count, running, slots, Ok(OneBased(i)), BoundValue(values[i]));
      if step.error.Some? then step else PositionalFrom(count, running, step.slots, values, i + 1)
  }

  /** Binding values into a freshly reset statement with `count` slots: it succeeds exactly when
      there are no more values than slots; then slot k (1 <= k <= |values|) holds value k - 1 and
      every other slot is as before. Otherwise it fails with RANGE, having filled the first `count`
      slots. */
  lemma {:induction false} PositionalBinding(count: nat, slots: map<int, SQLValue>, values: seq<SQLValue>, i: nat)
    requires i <= |values| < INT32_MAX && i <= count
    ensures var b := PositionalFrom(count, false, slots, values, i);
            && (b.error.None? <==> |values| <= count)
            && (b.error.Some? ==> b.error == Some(SQLError(SQLErrorType.BindFailure, Code(SQLITE_RANGE))))
            && (forall k :: k in b.slots <==> k in slots || (i + 1 <= k <= |values| && k <= count))
            && (forall k :: i + 1 <= k <= |values| && k <= count ==> b.slots[k] == BoundValue(values[k - 1]))
            && (forall k :: k in slots && !(i + 1 <= k <= |values| && k <= count) ==> b.slots[k] == slots[k])
    decreases |values| - i
  {
    if i < |values| && i + 1 <= count {
      var next := slots[i + 1 := BoundValue(values[i])];
      PositionalBinding(count, next, values, i + 1);
    }
  }

  /** A statement that has been stepped and not reset accepts no value: the first bind fails with
      MISUSE and nothing is written. */
  lemma PositionalBindingWhileRunning(count: nat, slots: map<int, SQLValue>, values: seq<SQLValue>)
    requires 0 < |values| < INT32_MAX
    ensures PositionalFrom(count, true, slots, values, 0) == Binding(slots, Some(SQLError(SQLErrorType.BindFailure, Code(SQLITE_MISUSE))))
  {
  }

  /** `nil` (or a value whose conversion gives none) binds NULL. */
  function OrNull(v: Option<SQLValue>): (r: SQLValue)
    ensures v.None? ==> r == Null
    ensures v.Some? ==> r == v.value
  {
    if v.Some? then v.value else Null
  }

  /** The dictionary of `bind(namesAndValues:)` and the order in which it is iterated: each key
      exactly once. Swift leaves that order unspecified, so it is a parameter here. */
  datatype NamedValues = NamedValues(values: map<string, Option<SQLValue>>, order: seq<string>)
  {
    ghost predicate Valid()
    {
      && (forall name :: name in values <==> name in order)
      && (forall i, j :: 0 <= i < j < |order| ==> order[i] != order[j])
    }
  }

  /** The binds of `bind(namesAndValues:)` from the `i`-th name on, stopping at the first failure. */
  function NamedFrom(paramNames: seq<string>, running: bool, slots: map<int, SQLValue>, named: NamedValues, i: nat): (b: Binding)
    requires named.Valid() && i <= |named.order|
    decreases |named.order| - i
  {
    if i == |named.order| then Binding(slots, None)
    else
      var name := named.order[i];
      var step := BindOne(|paramNames|, running, slots, IndexOfParameterNamed(paramNames, name), BoundValue(OrNull(named.values[name])));
      if step.error.Some? then step else NamedFrom(paramNames, running, step.slots, named, i + 1)
  }

  /** The slot the name's parameter occupies (0 when the statement has no `:name`). */
  function SlotOf(paramNames: seq<string>, name: string): int
  {
    ParameterIndex(paramNames, ":" + name)
  }

  /** Every name from position `i` on has a parameter `:name` in the statement. */
  ghost predicate AllFound(paramNames: seq<string>, order: seq<string>, i: nat)
  {
    forall j :: i <= j < |order| ==> ":" + order[j] in paramNames
  }

  /** Named binding into a freshly reset statement succeeds exactly when every name has a
      parameter, and otherwise fails with the bind error, whatever the order. */
  lemma {:induction false} NamedBindingSucceedsIffAllFound(paramNames: seq<string>, slots: map<int, SQLValue>, named: NamedValues, i: nat)
    requires named.Valid() && i <= |named.order|
    ensures var b := NamedFrom(paramNames, false, slots, named, i);
            && (b.error.None? <==> AllFound(paramNames, named.order, i))
            && (b.error.Some? ==> b.error == Some(FailedToBindValueToStatementAsWritten()))
    decreases |named.order| - i
  {
    if i < |named.order| {
      var name := named.order[i];
      if ":" + name in paramNames {
        var next := slots[SlotOf(paramNames, name) := BoundValue(OrNull(named.values[name]))];
        NamedBindingSucceedsIffAllFound(paramNames, next, named, i + 1);
      }
    }
  }

  /** When every name is found, each name's slot holds that name's value (NULL for nil). */
  lemma {:induction false} NamedBindingSlots(paramNames: seq<string>, slots: map<int, SQLValue>, named: NamedValues, i: nat)
    requires named.Valid() && i <= |named.order| && AllFound(paramNames, named.order, i)
    ensures var b := NamedFrom(paramNames, false, slots, named, i);
            forall j :: i <= j < |named.order| ==>
              SlotOf(paramNames, named.order[j]) in b.slots &&
              b.slots[SlotOf(paramNames, named.order[j])] == BoundValue(OrNull(named.values[named.order[j]]))
    decreases |named.order| - i
  {
    if i < |named.order| {
      var name := named.order[i];
      var slot := SlotOf(paramNames, name);
      var next := slots[slot := BoundValue(OrNull(named.values[name]))];
      forall j | i < j < |named.order|
        ensures SlotOf(paramNames, named.order[j]) != slot
      {
        assert (":" + name)[1..] == name && (":" + named.order[j])[1..] == named.order[j];
        ParameterIndexInjective(paramNames, ":" + name, ":" + named.order[j]);
      }
      NamedBindingSlots(paramNames, next, named, i + 1);
      NamedBindingKeepsOtherSlots(paramNames, next, named, i + 1, slot);
    }
  }

  /** When every name is found, a slot that no name points at is as before. */
  lemma {:induction false} NamedBindingKeepsOtherSlots(paramNames: seq<string>, slots: map<int, SQLValue>, named: NamedValues, i: nat, k: int)
    requires named.Valid() && i <= |named.order| && AllFound(paramNames, named.order, i)
    requires forall j :: i <= j < |named.order| ==> SlotOf(paramNames, named.order[j]) != k
    ensures var b := NamedFrom(paramNames, false, slots, named, i);
            (k in b.slots <==> k in slots) && (k in slots ==> b.slots[k] == slots[k])
    decreases |named.order| - i
  {
    if i < |named.order| {
      var name := named.order[i];
      var next := slots[SlotOf(paramNames, name) := BoundValue(OrNull(named.values[name]))];
      NamedBindingKeepsOtherSlots(paramNames, next, named, i + 1, k);
    }
  }

  /** Every name is found exactly when every key of the dictionary has a parameter. */
  lemma AllFoundMeansEveryKeyFound(paramNames: seq<string>, named: NamedValues)
    requires named.Valid()
    ensures AllFound(paramNames, named.order, 0) <==> forall name :: name in named.values ==> ":" + name in paramNames
  {
    if AllFound(paramNames, named.order, 0) {
      forall name | name in named.values
        ensures ":" + name in paramNames
      {
        var j :| 0 <= j < |named.order| && named.order[j] == name;
      }
    }
  }

  /** The slots after a successful named binding, stated over the dictionary's keys. */
  lemma {:induction false} NamedBindingByKey(paramNames: seq<string>, slots: map<int, SQLValue>, named: NamedValues, k: int)
    requires named.Valid() && AllFound(paramNames, named.order, 0)
    ensures var b := NamedFrom(paramNames, false, slots, named, 0);
            && (forall name :: name in named.values && SlotOf(paramNames, name) == k ==>
                  k in b.slots && b.slots[k] == BoundValue(OrNull(named.values[name])))
            && ((forall name :: name in named.values ==> SlotOf(paramNames, name) != k) ==>
                  (k in b.slots <==> k in slots) && (k in slots ==> b.slots[k] == slots[k]))
  {
    var b := NamedFrom(paramNames, false, slots, named, 0);
    NamedBindingSlots(paramNames, slots, named, 0);
    forall name | name in named.values && SlotOf(paramNames, name) == k
      ensures k in b.slots && b.slots[k] == BoundValue(OrNull(named.values[name]))
    {
      var j :| 0 <= j < |named.order| && named.order[j] == name;
    }
    if forall name :: name in named.values ==> SlotOf(paramNames, name) != k {
      forall j | 0 <= j < |named.order|
        ensures SlotOf(paramNames, named.order[j]) != k
      {
        assert named.order[j] in named.values;
      }
      NamedBindingKeepsOtherSlots(paramNames, slots, named, 0, k);
    }
  }

  /** Two iteration orders of the same dictionary give the same outcome: the same error, or the
      same slots on success. */
  lemma {:induction false} NamedBindingIgnoresOrder(paramNames: seq<string>, slots: map<int, SQLValue>, a: NamedValues, b: NamedValues)
    requires a.Valid() && b.Valid() && a.values == b.values
    ensures NamedFrom(paramNames, false, slots, a, 0).error == NamedFrom(paramNames, false, slots, b, 0).error
    ensures NamedFrom(paramNames, false, slots, a, 0).error.None? ==>
              NamedFrom(paramNames, false, slots, a, 0).slots == NamedFrom(paramNames, false, slots, b, 0).slots
  {
    NamedBindingSucceedsIffAllFound(paramNames, slots, a, 0);
    NamedBindingSucceedsIffAllFound(paramNames, slots, b, 0);
    AllFoundMeansEveryKeyFound(paramNames, a);
    AllFoundMeansEveryKeyFound(paramNames, b);
    if AllFound(paramNames, a.order, 0) {
      var sa := NamedFrom(paramNames, false, slots, a, 0).slots;
      var sb := NamedFrom(paramNames, false, slots, b, 0).slots;
      forall k
        ensures k in sa <==> k in sb
        ensures k in sa ==> sa[k] == sb[k]
      {
        NamedBindingByKey(paramNames, slots, a, k);
        NamedBindingByKey(paramNames, slots, b, k);
      }
    }
  }

  /** `SQLStatement.Binder`: binds into one statement handle. */
  datatype Binder = Binder(id: EngineStatement)
  {
    /** The engine bind and its `throwIfNotOK(.failedToBindValueToStatement)` check. */
    method BindChecked(target: Result<int, SQLError>, value: SQLValue) returns (e: Option<SQLError>)
      requires id.Valid()
      modifies id`slots
      ensures id.Valid()
      ensures Binding(id.slots, e) == BindOne(|id.paramNames|, id.running, old(id.slots), target, value)
    {
      match target
      case Err(error) =>
        e := Some(error);
      case Ok(slot) =>
        var code := id.Bind(slot, value);
        e := ThrowIfNotOK(code, SQLErrorType.BindFailure);
    }

    /** `bindText(_:at:)`. */
    method BindTextAt(text: string, index: int) returns (e: Option<SQLError>)
      requires id.Valid() && index + 1 <= INT32_MAX
      modifies id`slots
      ensures id.Valid()
      ensures Binding(id.slots, e) == BindOne(|id.paramNames|, id.running, old(id.slots), Ok(index + 1), Text(CString(text)))
    {
      e := BindChecked(Ok(OneBased(index)), Text(CString(text)));
    }

    /** `bindInt(_:at:)`: Swift's Int is 64 bits wide, so `Int64(value)` keeps it. */
    method BindIntAt(value: int64, index: int) returns (e: Option<SQLError>)
      requires id.Valid() && index + 1 <= INT32_MAX
      modifies id`slots
      ensures id.Valid()
      ensures Binding(id.slots, e) == BindOne(|id.paramNames|, id.running, old(id.slots), Ok(index + 1), Int(value))
    {
      e := BindChecked(Ok(OneBased(index)), Int(value));
    }

    /** `bindDouble(_:at:)`. */
    method BindDoubleAt(value: Real, index: int) returns (e: Option<SQLError>)
      requires id.Valid() && index + 1 <= INT32_MAX
      modifies id`slots
      ensures id.Valid()
      ensures Binding(id.slots, e) == BindOne(|id.paramNames|, id.running, old(id.slots), Ok(index + 1), Double(value))
    {
      e := BindChecked(Ok(OneBased(index)), Double(value));
    }

    /** `bindBlob(_:at:)`: all the bytes, copied; `Int32(data.count)` traps beyond Int32. */
    method BindBlobAt(bytes: seq<byte>, index: int) returns (e: Option<SQLError>)
      requires id.Valid() && index + 1 <= INT32_MAX && |bytes| <= INT32_MAX
      modifies id`slots
      ensures id.Valid()
      ensures Binding(id.slots, e) == BindOne(|id.paramNames|, id.running, old(id.slots), Ok(index + 1), Blob(bytes))
    {
      e := BindChecked(Ok(OneBased(index)), Blob(bytes));
    }

    /** `bindNull(at:)`. */
    method BindNullAt(index: int) returns (e: Option<SQLError>)
      requires id.Valid() && index + 1 <= INT32_MAX
      modifies id`slots
      ensures id.Valid()
      ensures Binding(id.slots, e) == BindOne(|id.paramNames|, id.running, old(id.slots), Ok(index + 1), Null)
    {
      e := BindChecked(Ok(OneBased(index)), Null);
    }

    /** `bindText(_:to:)`. */
    method BindTextTo(text: string, name: string) returns (e: Option<SQLError>)
      requires id.Valid()
      modifies id`slots
      ensures id.Valid()
      ensures Binding(id.slots, e) == BindOne(|id.paramNames|, id.running, old(id.slots), IndexOfParameterNamed(id.paramNames, name), Text(CString(text)))
    {
      e := BindChecked(IndexOfParameterNamed(id.paramNames, name), Text(CString(text)));
    }

    /** `bindInt(_:to:)`. */
    method BindIntTo(value: int64, name: string) returns (e: Option<SQLError>)
      requires id.Valid()
      modifies id`slots
      ensures id.Valid()
      ensures Binding(id.slots, e) == BindOne(|id.paramNames|, id.running, old(id.slots), IndexOfParameterNamed(id.paramNames, name), Int(value))
    {
      e := BindChecked(IndexOfParameterNamed(id.paramNames, name), Int(value));
    }

    /** `bindDouble(_:to:)`. */
    method BindDoubleTo(value: Real, name: string) returns (e: Option<SQLError>)
      requires id.Valid()
      modifies id`slots
      ensures id.Valid()
      ensures Binding(id.slots, e) == BindOne(|id.paramNames|, id.running, old(id.slots), IndexOfParameterNamed(id.paramNames, name), Double(value))
    {
      e := BindChecked(IndexOfParameterNamed(id.paramNames, name), Double(value));
    }

    /** `bindBlob(_:to:)`. */
    method BindBlobTo(bytes: seq<byte>, name: string) returns (e: Option<SQLError>)
      requires id.Valid() && |bytes| <= INT32_MAX
      modifies id`slots
      ensures id.Valid()
      ensures Binding(id.slots, e) == BindOne(|id.paramNames|, id.running, old(id.slots), IndexOfParameterNamed(id.paramNames, name), Blob(bytes))
    {
      e := BindChecked(IndexOfParameterNamed(id.paramNames, name), Blob(bytes));
    }

    /** `bindNull(to:)`. */
    method BindNullTo(name: string) returns (e: Option<SQLError>)
      requires id.Valid()
      modifies id`slots
      ensures id.Valid()
      ensures Binding(id.slots, e) == BindOne(|id.paramNames|, id.running, old(id.slots), IndexOfParameterNamed(id.paramNames, name), Null)
    {
      e := BindChecked(IndexOfParameterNamed(id.paramNames, name), Null);
    }
  }
}
