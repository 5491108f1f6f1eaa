/**
 * The free functions of the data access API (src/api/data_access.rs): the
 * data ref enumeration, lookup, the host probes, and the scalar and array
 * getters and setters.
 */
module DataAccess {
  import opened CTypes
  import opened Wrappers
  import opened Ffi
  import opened DataTypes
  import opened DataRefs
  import opened DataAccessErrors
  import opened DataInfo
  import Xplm

  /** `count_data_refs`. */
  function CountDataRefs(host: Xplm.Host): nat
    reads host
  {
    host.state.dataRefCount
  }

  /**
   * The range `get_data_refs_by_index` asks the host for: the start is
   * clamped to the total, and the count is cut so the range ends at the total.
   */
  function ClampRange(total: nat, from: nat, count: nat): (r: (nat, nat))
    ensures r.0 <= total && r.0 <= from && (r.0 == from || r.0 == total)
    ensures r.0 + r.1 <= total
    ensures r.1 <= count
    ensures from + count <= total ==> r == (from, count)
    ensures r.1 < count ==> r.0 + r.1 == total
  {
    var from' := if total < from then total else from;
    var count' := if from' + count > total then total - from' else count;
    (from', count')
  }

  /** The iterator over the handles the host wrote (src/api/data_access/data_refs.rs). */
  datatype DataRefsIter = DataRefsIter(first: NonNull)

  function DataRefsIterTryFrom(p: Ptr): (r: Result<DataRefsIter, DataAccessError>)
    ensures r.Err? <==> p == NULL
    ensures r.Err? ==> r.error == InvalidDataRefsIterator
  {
    if p == NULL then Err(InvalidDataRefsIterator) else Ok(DataRefsIter(p))
  }

  /**
   * `get_data_refs_by_index`. The output array handed to the host is a null
   * pointer that is never replaced, so the iterator cannot be built.
   */
  method GetDataRefsByIndex(host: Xplm.Host, from: nat, count: nat) returns (r: Result<DataRefsIter, DataAccessError>)
    modifies host
    ensures r == Err(InvalidDataRefsIterator)
    ensures var range := ClampRange(old(CountDataRefs(host)), from, count);
      host.calls == old(host.calls) + [Xplm.HostCall.GetDataRefsByIndex(range.0, range.1)]
    ensures host.state == old(host.state)
  {
    var range := ClampRange(CountDataRefs(host), from, count);
    var dataRefs: Ptr := NULL;
    host.GetDataRefsByIndex(range.0, range.1);
    r := DataRefsIterTryFrom(dataRefs);
  }

  /** What `get_data_ref_info` makes of the filled-in info record. */
  function ClassifyInfo(raw: Xplm.RawDataRefInfo): (r: Result<DataRefInfo, DataAccessError>)
    requires NUL in raw.name
    ensures InfoTryFrom(raw).Err? ==> r == Err(InfoTryFrom(raw).error)
    ensures InfoTryFrom(raw).Ok? ==> r.Ok? && r.value.info == InfoTryFrom(raw).value
    ensures r.Ok? ==> (r.value.ReadWriteInfo? <==> raw.writable == 1)
  {
    var info :- InfoTryFrom(raw);
    if raw.writable == 1 then Ok(ReadWriteInfo(info)) else Ok(ReadOnlyInfo(info))
  }

  /** `get_data_ref_info`. */
  method GetDataRefInfo(host: Xplm.Host, d: DataRef) returns (r: Result<DataRefInfo, DataAccessError>)
    modifies host
    ensures var s := host.state.DataRef(d.raw);
      r == ClassifyInfo(Xplm.RawDataRefInfo(s.name + [NUL], s.types, s.writable, s.owner))
    ensures host.state == old(host.state)
    ensures host.calls == old(host.calls) + [Xplm.HostCall.GetDataRefInfo(d.raw)]
  {
    var raw := host.GetDataRefInfo(Deref(d));
    r := ClassifyInfo(raw);
  }

  /** The result of `find_data_ref` for a host whose data ref names are `names`. */
  function FindDataRefResult(names: map<CStr, Ptr>, name: seq<Byte>): (r: Result<DataRef, DataAccessError>)
    ensures NUL in name ==> r.Err? && r.error.InvalidDataRefName? && r.error.nul == CStringNew(name).error
    ensures NUL !in name ==> r == TryFrom(Xplm.Lookup(names, name))
    ensures NUL !in name && name !in names ==> r == Err(InvalidDataRefId)
  {
    var nameC :- CStringNew(name).MapError(e => InvalidDataRefName(e));
    TryFrom(Xplm.Lookup(names, nameC))
  }

  /** `find_data_ref`: a name with a NUL never reaches the host. */
  method FindDataRef(host: Xplm.Host, name: seq<Byte>) returns (r: Result<DataRef, DataAccessError>)
    modifies host
    ensures r == FindDataRefResult(host.state.dataRefNames, name)
    ensures host.state == old(host.state)
    ensures NUL in name ==> host.calls == old(host.calls)
    ensures NUL !in name ==> host.calls == old(host.calls) + [Xplm.HostCall.FindDataRef(name)]
  {
    var nameC :- CStringNew(name).MapError(e => InvalidDataRefName(e));
    var p := host.FindDataRef(nameC);
    r := TryFrom(p);
  }

  /** `can_write_data_ref`: only an answer of exactly 1 means writable. */
  function CanWriteDataRef(host: Xplm.Host, d: DataRef): (b: bool)
    reads host
    ensures b <==> host.state.DataRef(d.raw).writable == 1
  {
    host.state.DataRef(Deref(d)).writable == 1
  }

  /** `is_data_ref_good`: only an answer of exactly 1 means good. */
  function IsDataRefGood(host: Xplm.Host, d: DataRef): (b: bool)
    reads host
    ensures b <==> host.state.DataRef(d.raw).good == 1
  {
    host.state.DataRef(Deref(d)).good == 1
  }

  /** `get_data_ref_types`. */
  function GetDataRefTypes(host: Xplm.Host, d: DataRef): (id: DataTypeId)
    reads host
    ensures id.bits == host.state.DataRef(d.raw).types
  {
    FromRaw(host.state.DataRef(Deref(d)).types)
  }

  /** `get_data_i`, `get_data_f`, `get_data_d`. */
  method GetData(host: Xplm.Host, k: Xplm.ScalarKind, d: DataRef) returns (v: Xplm.Value)
    modifies host
    ensures v == host.state.DataRef(d.raw).Scalar(k)
    ensures host.state == old(host.state)
    ensures host.calls == old(host.calls) + [Xplm.HostCall.GetScalar(k, d.raw)]
  {
    v := host.GetScalar(k, Deref(d));
  }

  /** `set_data_i`, `set_data_f`, `set_data_d`. */
  method SetData(host: Xplm.Host, k: Xplm.ScalarKind, d: DataRef, v: Xplm.Value)
    modifies host
    ensures host.state == Xplm.AfterSetScalar(old(host.state), k, d.raw, v)
    ensures host.calls == old(host.calls) + [Xplm.HostCall.SetScalar(k, d.raw, v)]
  {
    host.SetScalar(k, Deref(d), v);
  }

  /**
   * The count argument the array getters pass, as written: `offset + len`,
   * the end index of the requested range rather than its length.
   */
  function GetCountAsWritten(offset: nat, len: nat): (count: nat)
    ensures count >= len
    ensures offset > 0 ==> count > len
  {
    offset + len
  }

  /**
   * XPLMGetDatav* copies up to `count` elements, so a destination of `len`
   * slots calls for exactly `len`, whatever the offset.
   */
  function GetCount(offset: nat, len: nat): (count: nat)
    ensures count == len
  {
    len
  }

  /** With the corrected count the host never copies more than the destination holds. */
  lemma GetCountStaysInDestination(size: nat, offset: nat, len: nat)
    ensures Xplm.CopyCount(size, offset, GetCount(offset, len)) <= len
  {
  }

  /**
   * With a non-zero offset the count as written lets the host copy more
   * elements than the destination holds: one slot, offset 1, a data ref of
   * three elements, and two elements come back.
   */
  lemma GetCountAsWrittenOverruns()
    ensures Xplm.CopyCount(3, 1, GetCountAsWritten(1, 1)) == 2
    ensures Xplm.CopyCount(3, 1, GetCount(1, 1)) == 1
  {
  }

  /**
   * Whenever what the count as written lets the host copy fits in the
   * destination, it is exactly what the corrected count lets it copy.
   */
  lemma {:induction false} AsWrittenCopiesWhatCorrectedCopies(size: nat, offset: nat, len: nat)
    requires Xplm.CopyCount(size, offset, GetCountAsWritten(offset, len)) <= len
    ensures Xplm.CopyCount(size, offset, GetCountAsWritten(offset, len)) == Xplm.CopyCount(size, offset, GetCount(offset, len))
  {
  }

  /** At offset 0, the only offset the crate itself uses, both counts are the same. */
  lemma GetCountsAgreeAtZero(len: nat)
    ensures GetCountAsWritten(0, len) == GetCount(0, len)
  {
  }

  /**
   * `get_data_vi`, `get_data_vf`, `get_data_b`, with the count corrected to
   * the destination's length.
   */
  method GetDatav(host: Xplm.Host, k: Xplm.ArrayKind, d: DataRef, offset: nat, dest: array<Xplm.Value>)
    returns (n: nat)
    modifies host, dest
    ensures n <= dest.Length
    ensures n == Xplm.CopyCount(|host.state.DataRef(d.raw).Array(k)|, offset, dest.Length)
    ensures forall i :: 0 <= i < n ==> dest[i] == host.state.DataRef(d.raw).Array(k)[offset + i]
    ensures dest[n..] == old(dest[n..])
    ensures host.state == old(host.state)
    ensures host.calls == old(host.calls) + [Xplm.HostCall.GetArray(k, d.raw, offset, GetCount(offset, dest.Length))]
  {
    n := host.GetArray(k, Deref(d), dest, offset, GetCount(offset, dest.Length));
  }

  /**
   * `get_data_vi`, `get_data_vf`, `get_data_b` as written: the host may copy
   * up to `offset + len` elements. The call is defined only when what it
   * copies fits in the destination (GetCountAsWrittenOverruns names an input
   * where it does not); then it copies what the corrected getter copies.
   */
  method GetDatavAsWritten(host: Xplm.Host, k: Xplm.ArrayKind, d: DataRef, offset: nat, dest: array<Xplm.Value>)
    returns (n: nat)
    requires Xplm.CopyCount(|host.state.DataRef(d.raw).Array(k)|, offset, GetCountAsWritten(offset, dest.Length)) <= dest.Length
    modifies host, dest
    ensures n == Xplm.CopyCount(|host.state.DataRef(d.raw).Array(k)|, offset, dest.Length)
    ensures forall i :: 0 <= i < n ==> dest[i] == host.state.DataRef(d.raw).Array(k)[offset + i]
    ensures dest[n..] == old(dest[n..])
    ensures host.state == old(host.state)
    ensures host.calls == old(host.calls) + [Xplm.HostCall.GetArray(k, d.raw, offset, GetCountAsWritten(offset, dest.Length))]
    ensures offset == 0 ==>
      host.calls == old(host.calls) + [Xplm.HostCall.GetArray(k, d.raw, offset, GetCount(offset, dest.Length))]
  {
    AsWrittenCopiesWhatCorrectedCopies(|host.state.DataRef(d.raw).Array(k)|, offset, dest.Length);
    n := host.GetArray(k, Deref(d), dest, offset, GetCountAsWritten(offset, dest.Length));
  }

  /** `set_data_vi`, `set_data_vf`, `set_data_b`: the count is the slice's length. */
  method SetDatav(host: Xplm.Host, k: Xplm.ArrayKind, d: DataRef, offset: nat, values: seq<Xplm.Value>)
    modifies host
    ensures host.state == Xplm.AfterSetArray(old(host.state), k, d.raw, values, offset)
    ensures host.calls == old(host.calls) + [Xplm.HostCall.SetArray(k, d.raw, values, offset, |values|)]
  {
    assert values[..|values|] == values;
    host.SetArray(k, Deref(d), values, offset, |values|);
  }
}
