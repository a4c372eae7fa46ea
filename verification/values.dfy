/** The tagged value that crosses the boundary between the engine and the caller (SQLValue.swift). */
module Values {
  import opened Wrappers

  /** A Swift `Int` on a 64-bit platform; the engine stores integers as 64-bit signed values. */
  type int64 = x: int | -0x8000_0000_0000_0000 <= x < 0x8000_0000_0000_0000

  newtype byte = b: int | 0 <= b < 256

  /** A `Double`, kept as its IEEE-754 bit pattern: no arithmetic is ever done on it. */
  datatype Real = Real(bits: bv64)

  datatype SQLValue =
    | Text(text: string)
    | Int(integer: int64)
    | Double(number: Real)
    | Blob(bytes: seq<byte>)
    | Null
  {
    function StringValue(): (r: Option<string>)
      ensures r.Some? <==> Text?
      ensures r.Some? ==> r.value == text
    {
      if Text? then Some(text) else None
    }

    function IntValue(): (r: Option<int64>)
      ensures r.Some? <==> Int?
      ensures r.Some? ==> r.value == integer
    {
      if Int? then Some(integer) else None
    }

    function DoubleValue(): (r: Option<Real>)
      ensures r.Some? <==> Double?
      ensures r.Some? ==> r.value == number
    {
      if Double? then Some(number) else None
    }

    function DataValue(): (r: Option<seq<byte>>)
      ensures r.Some? <==> Blob?
      ensures r.Some? ==> r.value == bytes
    {
      if Blob? then Some(bytes) else None
    }

    /** How many of the four accessors give a value. */
    function AccessorsWithValue(): nat
    {
      (if StringValue().Some? then 1 else 0) + (if IntValue().Some? then 1 else 0)
      + (if DoubleValue().Some? then 1 else 0) + (if DataValue().Some? then 1 else 0)
    }
  }

  /** At most one accessor answers for any value, exactly one for every non-null value, and none for `.null`. */
  lemma AccessorsAreExclusive(v: SQLValue)
    ensures v.AccessorsWithValue() == if v.Null? then 0 else 1
  {
    match v
    case Text(_) =>
    case Int(_) =>
    case Double(_) =>
    case Blob(_) =>
    case Null =>
  }

  /** `Int.asSQLValue`: an integer crosses to the engine as `.int`. */
  function IntAsSQLValue(x: int64): (v: SQLValue)
    ensures v.IntValue() == Some(x)
  {
    Int(x)
  }

  /** `Int.init(sqlValue:)`: defined exactly on `.int` values, "no value" otherwise and for an absent value. */
  function IntFromSQLValue(v: Option<SQLValue>): (r: Option<int64>)
    ensures r.Some? <==> v.Some? && v.value.Int?
    ensures r.Some? ==> r.value == v.value.integer
  {
    if v.Some? then v.value.IntValue() else None
  }

  /** Converting an integer to a value and back gives the integer; a value of another kind gives "no value". */
  lemma IntRoundTrip(x: int64, other: SQLValue)
    ensures IntFromSQLValue(Some(IntAsSQLValue(x))) == Some(x)
    ensures !other.Int? ==> IntFromSQLValue(Some(other)) == None
  {
  }
}
