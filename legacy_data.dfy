/**
 * The older data module (src/api/data.rs, src/api/data/dataref.rs): its own
 * null-checked data ref handle and a second copy of the enumeration clamp.
 * The iterator it builds (src/api/data/data_refs.rs) is not part of this
 * model, so the enumeration answers the range it asked the host for and the
 * pointer it builds the iterator from.
 */
module LegacyData {
  import opened CTypes
  import opened Wrappers
  import opened DataErrors
  import DataAccess
  import Xplm

  /** `DataRef` of src/api/data/dataref.rs. */
  datatype DataRef = DataRef(raw: NonNull)

  /** `TryFrom<XPLMDataRef>`: only the null test decides. */
  function TryFrom(raw: Ptr): (r: Result<DataRef, DataError>)
    ensures r.Err? <==> raw == NULL
    ensures r.Err? ==> r.error == InvalidDataRefId
    ensures r.Ok? ==> Deref(r.value) == raw
  {
    if raw == NULL then Err(InvalidDataRefId) else Ok(DataRef(raw))
  }

  /** `Deref`. */
  function Deref(d: DataRef): Ptr {
    d.raw
  }

  lemma TryFromDeref(d: DataRef)
    ensures TryFrom(Deref(d)) == Ok(d)
  {
  }

  /**
   * `get_data_refs_by_index`: the start is cut to the total, the count to
   * what is left after the start, and the host is asked once for that range.
   * The output pointer is null when it is handed to the host and is never
   * reassigned, so the iterator is always built from a null pointer.
   */
  method GetDataRefsByIndex(host: Xplm.Host, from: nat, count: nat) returns (from': nat, count': nat, dataRefs: Ptr)
    modifies host
    ensures dataRefs == NULL
    ensures var total := old(host.state.dataRefCount);
      && from' <= total
      && from' + count' <= total
      && count' <= count
      && (from + count <= total ==> from' == from && count' == count)
      && (from' < from ==> from' == total && count' == 0)
      && (from', count') == DataAccess.ClampRange(total, from, count)
    ensures host.state == old(host.state)
    ensures host.calls == old(host.calls) + [Xplm.HostCall.GetDataRefsByIndex(from', count')]
  {
    var total := DataAccess.CountDataRefs(host);
    from' := if total < from then total else from;
    count' := if from' + count > total then total - from' else count;
    dataRefs := NULL;
    host.GetDataRefsByIndex(from', count');
  }
}
