/**
 * Typed scalar data refs (src/api/data_access/data_ref/value.rs): a data ref
 * handle checked once for liveness and element type, in read-only or
 * read-write mode.
 */
module DataRefValues {
  import opened Wrappers
  import opened CTypes
  import opened Ffi
  import opened DataTypes
  import opened DataRefs
  import opened DataAccessErrors
  import DataAccess
  import Xplm

  /** `DataRefValue<T, Mode>`: the element type and the mode are the type parameters. */
  datatype DataRefValue = DataRefValue(inner: DataRef, t: ElementType, mode: Mode)

  /** The getter and setter family the scalar impls use: f64, f32 and i32 only. */
  function ScalarKindOf(t: ElementType): (k: Xplm.ScalarKind)
    requires t != U8
    ensures t == I32 <==> k == Xplm.IntValue
    ensures t == F32 <==> k == Xplm.FloatValue
    ensures t == F64 <==> k == Xplm.DoubleValue
  {
    match t
    case I32 => Xplm.IntValue
    case F32 => Xplm.FloatValue
    case F64 => Xplm.DoubleValue
  }

  /**
   * `TryFrom<DataRef>`: a data ref the host no longer knows is orphaned, one
   * whose type bitmap lacks the element type is of the wrong type, and the
   * liveness test comes first.
   */
  function TryFrom(host: Xplm.Host, inner: DataRef, t: ElementType): (r: Result<DataRefValue, DataAccessError>)
    reads host
    ensures host.state.DataRef(inner.raw).good != 1 ==> r == Err(OrphanedDataRef)
    ensures host.state.DataRef(inner.raw).good == 1 && !Contains(FromRaw(host.state.DataRef(inner.raw).types), DataTypeOf(t))
      ==> r == Err(InvalidType)
    ensures r.Ok? <==> host.state.DataRef(inner.raw).good == 1
                       && Contains(FromRaw(host.state.DataRef(inner.raw).types), DataTypeOf(t))
    ensures r.Ok? ==> r.value == DataRefValue(inner, t, ReadOnly)
  {
    if !DataAccess.IsDataRefGood(host, inner) then Err(OrphanedDataRef)
    else if !Contains(DataAccess.GetDataRefTypes(host, inner), DataTypeOf(t)) then Err(InvalidType)
    else Ok(DataRefValue(inner, t, ReadOnly))
  }

  /** `writeable`: upgrades to read-write only when the host reports the data ref writable. */
  function Writeable(host: Xplm.Host, v: DataRefValue): (r: Result<DataRefValue, DataAccessError>)
    reads host
    requires v.mode == ReadOnly
    ensures r.Err? <==> host.state.DataRef(v.inner.raw).writable != 1
    ensures r.Err? ==> r.error == ReadOnlyDataRef
    ensures r.Ok? ==> r.value == v.(mode := ReadWrite)
  {
    if !DataAccess.CanWriteDataRef(host, v.inner) then Err(ReadOnlyDataRef)
    else Ok(v.(mode := ReadWrite))
  }

  /** `find`: the lookup's error is passed on, otherwise the handle is checked as `TryFrom` does. */
  method Find(host: Xplm.Host, name: seq<Byte>, t: ElementType) returns (r: Result<DataRefValue, DataAccessError>)
    modifies host
    ensures r == match DataAccess.FindDataRefResult(old(host.state.dataRefNames), name)
                 case Err(e) => Err(e)
                 case Ok(d) => TryFrom(host, d, t)
    ensures r.Ok? ==> r.value.t == t && r.value.mode == ReadOnly
    ensures host.state == old(host.state)
    ensures NUL in name ==> host.calls == old(host.calls)
    ensures NUL !in name ==> host.calls == old(host.calls) + [Xplm.HostCall.FindDataRef(name)]
  {
    var d :- DataAccess.FindDataRef(host, name);
    r := TryFrom(host, d, t);
  }

  /** `DataRead::read`, the same in both modes: one getter call of the element type's family. */
  method Read(host: Xplm.Host, v: DataRefValue) returns (x: Xplm.Value)
    requires v.t != U8
    modifies host
    ensures x == host.state.DataRef(v.inner.raw).Scalar(ScalarKindOf(v.t))
    ensures host.state == old(host.state)
    ensures host.calls == old(host.calls) + [Xplm.HostCall.GetScalar(ScalarKindOf(v.t), v.inner.raw)]
  {
    x := DataAccess.GetData(host, ScalarKindOf(v.t), v.inner);
  }

  /** `DataWrite::write`: only a read-write value has it. */
  method Write(host: Xplm.Host, v: DataRefValue, x: Xplm.Value)
    requires v.t != U8 && v.mode == ReadWrite
    modifies host
    ensures host.state == Xplm.AfterSetScalar(old(host.state), ScalarKindOf(v.t), v.inner.raw, x)
    ensures host.calls == old(host.calls) + [Xplm.HostCall.SetScalar(ScalarKindOf(v.t), v.inner.raw, x)]
  {
    DataAccess.SetData(host, ScalarKindOf(v.t), v.inner, x);
  }

  /**
   * A value that `writeable` upgraded is backed by a data ref the host writes:
   * the value written is the value read back, and the other scalar families
   * and every other data ref keep theirs.
   */
  lemma WriteableWritesTakeEffect(host: Xplm.Host, v: DataRefValue, k: Xplm.ScalarKind, x: Xplm.Value)
    requires v.mode == ReadOnly && Writeable(host, v).Ok?
    ensures var s := Xplm.AfterSetScalar(host.state, k, v.inner.raw, x);
      && s.DataRef(v.inner.raw).Scalar(k) == x
      && (forall k' :: k' != k ==> s.DataRef(v.inner.raw).Scalar(k') == host.state.DataRef(v.inner.raw).Scalar(k'))
      && (forall p :: p != v.inner.raw ==> s.DataRef(p) == host.state.DataRef(p))
  {
  }

  /** A write through a handle the host does not report writable changes nothing. */
  lemma ReadOnlyWritesIgnored(host: Xplm.Host, v: DataRefValue, k: Xplm.ScalarKind, x: Xplm.Value)
    requires v.mode == ReadOnly && Writeable(host, v).Err?
    ensures Xplm.AfterSetScalar(host.state, k, v.inner.raw, x) == host.state
  {
  }

  /** A value is only ever built for a live data ref that carries its element type. */
  lemma TryFromChecksType(host: Xplm.Host, inner: DataRef, t: ElementType)
    requires TryFrom(host, inner, t).Ok?
    ensures Contains(DataAccess.GetDataRefTypes(host, inner), DataTypeOf(t))
    ensures DataAccess.IsDataRefGood(host, inner)
  {
  }
}
