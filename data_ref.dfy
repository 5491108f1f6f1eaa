/**
 * The opaque data ref handle, the two access modes and the element types
 * the typed wrappers are instantiated with (src/api/data_access/data_ref.rs).
 */
module DataRefs {
  import opened CTypes
  import opened Wrappers
  import opened DataTypes
  import opened DataAccessErrors

  /** A data ref handle; the constructor is only reached through `TryFrom`. */
  datatype DataRef = DataRef(raw: NonNull)

  /** `TryFrom<XPLMDataRef>`: only the null test decides, the pointee is never looked at. */
  function TryFrom(raw: Ptr): (r: Result<DataRef, DataAccessError>)
    ensures r.Err? <==> raw == NULL
    ensures r.Err? ==> r.error == InvalidDataRefId
    ensures r.Ok? ==> Deref(r.value) == raw
  {
    if raw == NULL then Err(InvalidDataRefId) else Ok(DataRef(raw))
  }

  /** `Deref`: the raw handle. */
  function Deref(d: DataRef): Ptr {
    d.raw
  }

  /** Wrapping the pointer a handle gives back rebuilds the same handle. */
  lemma TryFromDeref(d: DataRef)
    ensures TryFrom(Deref(d)) == Ok(d)
  {
  }

  /** The `ReadOnly` and `ReadWrite` marker types. */
  datatype Mode = ReadOnly | ReadWrite

  /** The Rust types that implement `IntoDataType`. */
  datatype ElementType = I32 | F32 | F64 | U8

  /** `IntoDataType::data_type`. */
  function DataTypeOf(t: ElementType): (d: DataType)
    ensures d != Unknown && d != FloatArray && d != IntArray
    ensures t == U8 <==> d == Data
  {
    match t
    case I32 => Int
    case F32 => Float
    case F64 => Double
    case U8 => Data
  }

  lemma DataTypeOfInjective(a: ElementType, b: ElementType)
    ensures DataTypeOf(a) == DataTypeOf(b) ==> a == b
  {
  }
}
