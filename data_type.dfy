/**
 * The type of the data behind a data ref, and the bitmap of types the host
 * reports for one (src/api/data_access/data_type.rs).
 */
module DataTypes {
  datatype DataType = Unknown | Int | Float | Double | FloatArray | IntArray | Data

  // XPLMDataTypeID values of the XPLM SDK (XPLMDataAccess.h).
  const TYPE_UNKNOWN: bv32 := 0
  const TYPE_INT: bv32 := 1
  const TYPE_FLOAT: bv32 := 2
  const TYPE_DOUBLE: bv32 := 4
  const TYPE_FLOAT_ARRAY: bv32 := 8
  const TYPE_INT_ARRAY: bv32 := 16
  const TYPE_DATA: bv32 := 32

  /** The SDK constant of each type; that of Unknown is 0, no bit at all. */
  function Flag(t: DataType): bv32 {
    match t
    case Unknown => TYPE_UNKNOWN
    case Int => TYPE_INT
    case Float => TYPE_FLOAT
    case Double => TYPE_DOUBLE
    case FloatArray => TYPE_FLOAT_ARRAY
    case IntArray => TYPE_INT_ARRAY
    case Data => TYPE_DATA
  }

  /** The flags bitmap, the 32 bits of the C `int` the host returns. */
  datatype DataTypeId = DataTypeId(bits: bv32)

  /** `From<XPLMDataTypeID>`. */
  function FromRaw(raw: bv32): (id: DataTypeId)
    ensures id.bits == raw
  {
    DataTypeId(raw)
  }

  /** Unknown is an equality test, not a bit test. */
  predicate IsUnknownType(id: DataTypeId) { id.bits == TYPE_UNKNOWN }
  predicate IsIntType(id: DataTypeId) { id.bits & TYPE_INT != 0 }
  predicate IsFloatType(id: DataTypeId) { id.bits & TYPE_FLOAT != 0 }
  predicate IsDoubleType(id: DataTypeId) { id.bits & TYPE_DOUBLE != 0 }
  predicate IsFloatArrayType(id: DataTypeId) { id.bits & TYPE_FLOAT_ARRAY != 0 }
  predicate IsIntArrayType(id: DataTypeId) { id.bits & TYPE_INT_ARRAY != 0 }
  predicate IsDataType(id: DataTypeId) { id.bits & TYPE_DATA != 0 }

  /** `DataTypeId::contains`: each variant goes to its own predicate. */
  function Contains(id: DataTypeId, t: DataType): (b: bool)
    ensures t == Unknown ==> (b <==> id.bits == 0)
    ensures t != Unknown ==> (b <==> id.bits & Flag(t) != 0)
  {
    match t
    case Unknown => IsUnknownType(id)
    case Int => IsIntType(id)
    case Float => IsFloatType(id)
    case Double => IsDoubleType(id)
    case FloatArray => IsFloatArrayType(id)
    case IntArray => IsIntArrayType(id)
    case Data => IsDataType(id)
  }

  /** The bitmap of a data ref that offers every type in `ts`. */
  function Bitmap(ts: seq<DataType>): bv32 {
    if ts == [] then 0 else Flag(ts[0]) | Bitmap(ts[1..])
  }

  /** Flags are independent: a combined bitmap contains exactly the types it was built from. */
  lemma {:induction false} BitmapContainsExactly(ts: seq<DataType>, t: DataType)
    requires t != Unknown
    ensures Contains(FromRaw(Bitmap(ts)), t) <==> t in ts
  {
    if ts != [] {
      BitmapContainsExactly(ts[1..], t);
      assert ts == [ts[0]] + ts[1..];
    }
  }

  /** A combined bitmap reports Unknown exactly when no real type went into it. */
  lemma {:induction false} BitmapUnknownExactly(ts: seq<DataType>)
    ensures Contains(FromRaw(Bitmap(ts)), Unknown) <==> forall i :: 0 <= i < |ts| ==> ts[i] == Unknown
  {
    if ts != [] {
      BitmapUnknownExactly(ts[1..]);
      assert forall i :: 1 <= i < |ts| ==> ts[i] == ts[1..][i - 1];
    }
  }
}
