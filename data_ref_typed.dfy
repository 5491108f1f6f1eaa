/**
 * The older typed wrappers (src/api/data_access/data_ref_typed.rs). Its
 * scalar half, its array getters and setters are those of
 * src/api/data_access/data_ref/value.rs and array.rs line for line and reuse
 * `DataRefValues` and `DataRefArrays`; only the array type check differs.
 */
module DataRefTyped {
  import opened Wrappers
  import opened CTypes
  import opened Ffi
  import opened DataTypes
  import opened DataRefs
  import opened DataAccessErrors
  import DataAccess
  import DataRefArrays
  import Xplm

  /** The array tag check of this file: i32 and f32 only, anything else never matches. */
  function ArrayTypeMatches(id: DataTypeId, t: ElementType): (b: bool)
    ensures t == I32 ==> (b <==> Contains(id, IntArray))
    ensures t == F32 ==> (b <==> Contains(id, FloatArray))
    ensures t == U8 || t == F64 ==> !b
  {
    match DataTypeOf(t)
    case Int => Contains(id, IntArray)
    case Float => Contains(id, FloatArray)
    case _ => false
  }

  /** `TryFrom<DataRef>` for `DataRefArray<T, ReadOnly>` in this file. */
  function ArrayTryFrom(host: Xplm.Host, inner: DataRef, t: ElementType): (r: Result<DataRefArrays.DataRefArray, DataAccessError>)
    reads host
    ensures host.state.DataRef(inner.raw).good != 1 ==> r == Err(OrphanedDataRef)
    ensures r.Ok? <==> host.state.DataRef(inner.raw).good == 1
                       && ArrayTypeMatches(FromRaw(host.state.DataRef(inner.raw).types), t)
    ensures r.Err? && host.state.DataRef(inner.raw).good == 1 ==> r.error == InvalidType
    ensures r.Ok? ==> r.value == DataRefArrays.DataRefArray(inner, t, ReadOnly)
  {
    if !DataAccess.IsDataRefGood(host, inner) then Err(OrphanedDataRef)
    else if !ArrayTypeMatches(DataAccess.GetDataRefTypes(host, inner), t) then Err(InvalidType)
    else Ok(DataRefArrays.DataRefArray(inner, t, ReadOnly))
  }

  /** `DataRefArray::find` in this file. */
  method ArrayFind(host: Xplm.Host, name: seq<Byte>, t: ElementType) returns (r: Result<DataRefArrays.DataRefArray, DataAccessError>)
    modifies host
    ensures r == match DataAccess.FindDataRefResult(old(host.state.dataRefNames), name)
                 case Err(e) => Err(e)
                 case Ok(d) => ArrayTryFrom(host, d, t)
    ensures host.state == old(host.state)
    ensures NUL in name ==> host.calls == old(host.calls)
    ensures NUL !in name ==> host.calls == old(host.calls) + [Xplm.HostCall.FindDataRef(name)]
  {
    var d :- DataAccess.FindDataRef(host, name);
    r := ArrayTryFrom(host, d, t);
  }

  /**
   * The u8 impls of this file can never be used: no byte array passes the
   * type check, whatever the host reports, so its byte getters are dead code.
   */
  lemma U8ArrayNeverConstructed(host: Xplm.Host, inner: DataRef)
    ensures ArrayTryFrom(host, inner, U8).Err?
    ensures DataAccess.IsDataRefGood(host, inner) ==> ArrayTryFrom(host, inner, U8) == Err(InvalidType)
  {
  }

  /**
   * Against src/api/data_access/data_ref/array.rs: both accept the same data
   * refs for every element type except u8, which only array.rs accepts.
   */
  lemma ArrayTryFromAgrees(host: Xplm.Host, inner: DataRef, t: ElementType)
    ensures t != U8 ==> ArrayTryFrom(host, inner, t) == DataRefArrays.TryFrom(host, inner, t)
    ensures t == U8 && DataRefArrays.TryFrom(host, inner, t).Ok? ==> ArrayTryFrom(host, inner, t).Err?
  {
  }
}
