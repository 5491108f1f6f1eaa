/**
 * Typed array data refs (src/api/data_access/data_ref/array.rs): a data ref
 * handle checked once for liveness and array element type, read and written
 * whole from index 0 or one element at an index below a size the caller fixes.
 */
module DataRefArrays {
  import opened Wrappers
  import opened CTypes
  import opened Ffi
  import opened DataTypes
  import opened DataRefs
  import opened DataAccessErrors
  import DataAccess
  import Xplm

  /** `DataRefArray<T, Mode>`. */
  datatype DataRefArray = DataRefArray(inner: DataRef, t: ElementType, mode: Mode)

  /**
   * The tag an array of `t` needs in the type bitmap: an int array for i32, a
   * float array for f32, a byte blob for u8; no array of f64 exists.
   */
  function ArrayTypeMatches(id: DataTypeId, t: ElementType): (b: bool)
    ensures t == I32 ==> (b <==> Contains(id, IntArray))
    ensures t == F32 ==> (b <==> Contains(id, FloatArray))
    ensures t == U8 ==> (b <==> Contains(id, Data))
    ensures t == F64 ==> !b
  {
    match DataTypeOf(t)
    case Int => Contains(id, IntArray)
    case Float => Contains(id, FloatArray)
    case Data => Contains(id, Data)
    case _ => false
  }

  /** The getter and setter family the array impls use: f32 and u8 only. */
  function ArrayKindOf(t: ElementType): (k: Xplm.ArrayKind)
    requires t == F32 || t == U8
    ensures t == F32 <==> k == Xplm.FloatValues
    ensures t == U8 <==> k == Xplm.ByteValues
  {
    if t == F32 then Xplm.FloatValues else Xplm.ByteValues
  }

  /** `TryFrom<DataRef>`: liveness first, then the array tag. */
  function TryFrom(host: Xplm.Host, inner: DataRef, t: ElementType): (r: Result<DataRefArray, DataAccessError>)
    reads host
    ensures host.state.DataRef(inner.raw).good != 1 ==> r == Err(OrphanedDataRef)
    ensures host.state.DataRef(inner.raw).good == 1 && !ArrayTypeMatches(FromRaw(host.state.DataRef(inner.raw).types), t)
      ==> r == Err(InvalidType)
    ensures r.Ok? <==> host.state.DataRef(inner.raw).good == 1
                       && ArrayTypeMatches(FromRaw(host.state.DataRef(inner.raw).types), t)
    ensures r.Ok? ==> r.value == DataRefArray(inner, t, ReadOnly)
    ensures t == F64 ==> r.Err?
  {
    if !DataAccess.IsDataRefGood(host, inner) then Err(OrphanedDataRef)
    else if !ArrayTypeMatches(DataAccess.GetDataRefTypes(host, inner), t) then Err(InvalidType)
    else Ok(DataRefArray(inner, t, ReadOnly))
  }

  /** `writeable`. */
  function Writeable(host: Xplm.Host, a: DataRefArray): (r: Result<DataRefArray, DataAccessError>)
    reads host
    requires a.mode == ReadOnly
    ensures r.Err? <==> host.state.DataRef(a.inner.raw).writable != 1
    ensures r.Err? ==> r.error == ReadOnlyDataRef
    ensures r.Ok? ==> r.value == a.(mode := ReadWrite)
  {
    if !DataAccess.CanWriteDataRef(host, a.inner) then Err(ReadOnlyDataRef)
    else Ok(a.(mode := ReadWrite))
  }

  /** `find`. */
  method Find(host: Xplm.Host, name: seq<Byte>, t: ElementType) returns (r: Result<DataRefArray, DataAccessError>)
    modifies host
    ensures r == match DataAccess.FindDataRefResult(old(host.state.dataRefNames), name)
                 case Err(e) => Err(e)
                 case Ok(d) => TryFrom(host, d, t)
    ensures r.Ok? ==> r.value.t == t && r.value.mode == ReadOnly
    ensures host.state == old(host.state)
    ensures NUL in name ==> host.calls == old(host.calls)
    ensures NUL !in name ==> host.calls == old(host.calls) + [Xplm.HostCall.FindDataRef(name)]
  {
    var d :- DataAccess.FindDataRef(host, name);
    r := TryFrom(host, d, t);
  }

  /** `ArrayRead::read`: fills `dest` from index 0 and answers how many elements came. */
  method Read(host: Xplm.Host, a: DataRefArray, dest: array<Xplm.Value>) returns (n: nat)
    requires a.t == F32 || a.t == U8
    modifies host, dest
    ensures var buf := host.state.DataRef(a.inner.raw).Array(ArrayKindOf(a.t));
      && n == Xplm.CopyCount(|buf|, 0, dest.Length)
      && n == (if |buf| < dest.Length then |buf| else dest.Length)
      && dest[..n] == buf[..n]
    ensures dest[n..] == old(dest[n..])
    ensures host.state == old(host.state)
    ensures host.calls == old(host.calls) + [Xplm.HostCall.GetArray(ArrayKindOf(a.t), a.inner.raw, 0, dest.Length)]
  {
    n := DataAccess.GetDatav(host, ArrayKindOf(a.t), a.inner, 0, dest);
  }

  /**
   * What `read_at` answers for a data ref holding `buf`: the element at
   * `offset` when the offset is below `size` and the whole `size`-element
   * window came back, `OutOfBounds` otherwise.
   */
  function ReadAtResult(buf: seq<Xplm.Value>, size: nat, offset: nat): (r: Result<Xplm.Value, DataAccessError>)
    ensures r.Ok? <==> offset < size <= |buf|
    ensures r.Ok? ==> r.value == buf[offset]
    ensures r.Err? ==> r.error == OutOfBounds
  {
    if offset >= size then Err(OutOfBounds)
    else if Xplm.CopyCount(|buf|, 0, size) != size then Err(OutOfBounds)
    else Ok(buf[offset])
  }

  /**
   * `ArrayRead::read_at::<SIZE>`: an offset at or past `size` is refused
   * without asking the host; otherwise a zeroed `size`-element buffer is read
   * and must come back full.
   */
  method ReadAt(host: Xplm.Host, a: DataRefArray, size: nat, offset: nat) returns (r: Result<Xplm.Value, DataAccessError>)
    requires a.t == F32 || a.t == U8
    modifies host
    ensures r == ReadAtResult(host.state.DataRef(a.inner.raw).Array(ArrayKindOf(a.t)), size, offset)
    ensures host.state == old(host.state)
    ensures offset >= size ==> host.calls == old(host.calls)
    ensures offset < size ==> host.calls == old(host.calls) + [Xplm.HostCall.GetArray(ArrayKindOf(a.t), a.inner.raw, 0, size)]
  {
    if offset >= size {
      return Err(OutOfBounds);
    }
    var buffer := new Xplm.Value[size](_ => 0);
    var n := Read(host, a, buffer);
    if n != buffer.Length {
      return Err(OutOfBounds);
    }
    assert buffer[offset] == buffer[..n][offset];
    r := Ok(buffer[offset]);
  }

  /** `ArrayWrite::write`: the slice goes to index 0. */
  method Write(host: Xplm.Host, a: DataRefArray, values: seq<Xplm.Value>)
    requires (a.t == F32 || a.t == U8) && a.mode == ReadWrite
    modifies host
    ensures host.state == Xplm.AfterSetArray(old(host.state), ArrayKindOf(a.t), a.inner.raw, values, 0)
    ensures host.calls == old(host.calls) + [Xplm.HostCall.SetArray(ArrayKindOf(a.t), a.inner.raw, values, 0, |values|)]
  {
    DataAccess.SetDatav(host, ArrayKindOf(a.t), a.inner, 0, values);
  }

  /**
   * `ArrayWrite::write_at::<SIZE>`: an offset at or past `size` is refused
   * without a host call; otherwise one element is written at `offset`. The
   * data ref's own length is not consulted.
   */
  method WriteAt(host: Xplm.Host, a: DataRefArray, size: nat, offset: nat, x: Xplm.Value)
    returns (r: Result<(), DataAccessError>)
    requires (a.t == F32 || a.t == U8) && a.mode == ReadWrite
    modifies host
    ensures r.Err? <==> offset >= size
    ensures r.Err? ==> r.error == OutOfBounds && host.state == old(host.state) && host.calls == old(host.calls)
    ensures r.Ok? ==> host.state == Xplm.AfterSetArray(old(host.state), ArrayKindOf(a.t), a.inner.raw, [x], offset)
    ensures r.Ok? ==> host.calls == old(host.calls) + [Xplm.HostCall.SetArray(ArrayKindOf(a.t), a.inner.raw, [x], offset, 1)]
  {
    if offset >= size {
      return Err(OutOfBounds);
    }
    DataAccess.SetDatav(host, ArrayKindOf(a.t), a.inner, offset, [x]);
    r := Ok(());
  }

  /**
   * Writing one element at an offset inside a `size`-element window of a data
   * ref that holds at least `size` elements, then reading at that offset,
   * gives the element back; every other offset keeps its old answer.
   */
  lemma {:induction false} WriteAtThenReadAt(buf: seq<Xplm.Value>, size: nat, offset: nat, other: nat, x: Xplm.Value)
    requires offset < size <= |buf|
    ensures ReadAtResult(Xplm.Overwrite(buf, offset, [x]), size, offset) == Ok(x)
    ensures other != offset ==> ReadAtResult(Xplm.Overwrite(buf, offset, [x]), size, other) == ReadAtResult(buf, size, other)
  {
    var after := Xplm.Overwrite(buf, offset, [x]);
    assert after[offset] == x;
    if other != offset && other < size {
      assert after[other] == buf[other];
    }
  }

  /**
   * The round trip through the host: on a writable data ref whose array holds
   * at least `size` elements, `write_at` followed by `read_at` at the same
   * offset answers the value written.
   */
  method WriteAtReadAt(host: Xplm.Host, a: DataRefArray, size: nat, offset: nat, x: Xplm.Value)
    returns (r: Result<Xplm.Value, DataAccessError>)
    requires (a.t == F32 || a.t == U8) && a.mode == ReadWrite
    requires host.state.DataRef(a.inner.raw).writable == 1
    requires size <= |host.state.DataRef(a.inner.raw).Array(ArrayKindOf(a.t))|
    modifies host
    ensures offset < size ==> r == Ok(x)
    ensures offset >= size ==> r == Err(OutOfBounds)
  {
    ghost var buf := host.state.DataRef(a.inner.raw).Array(ArrayKindOf(a.t));
    var w := WriteAt(host, a, size, offset, x);
    if w.Err? {
      return Err(OutOfBounds);
    }
    assert a.inner.raw in old(host.state.dataRefs);
    assert host.state.DataRef(a.inner.raw).Array(ArrayKindOf(a.t)) == Xplm.Overwrite(buf, offset, [x]);
    WriteAtThenReadAt(buf, size, offset, offset, x);
    r := ReadAt(host, a, size, offset);
  }
}
