/** Information the host gives about one data ref (src/api/data_access/data_info.rs). */
module DataInfo {
  import opened CTypes
  import opened Wrappers
  import opened Ffi
  import opened DataTypes
  import opened DataAccessErrors
  import PluginErrors
  import PluginIds
  import Xplm

  datatype Info = Info(name: RString, dataType: DataTypeId, owner: PluginIds.PluginId)

  datatype DataRefInfo = ReadOnlyInfo(info: Info) | ReadWriteInfo(info: Info)

  /**
   * `TryFrom<XPLMDataRefInfo_t>`: the name is decoded first, then the owner
   * is wrapped; the type bitmap is copied as it is. `CStr::from_ptr` needs the
   * name to be NUL-terminated.
   */
  function InfoTryFrom(raw: Xplm.RawDataRefInfo): (r: Result<Info, DataAccessError>)
    requires NUL in raw.name
    ensures !ValidUtf8(BeforeNul(raw.name)) ==> r == Err(InvalidInfoName(IntoStringError(BeforeNul(raw.name))))
    ensures ValidUtf8(BeforeNul(raw.name)) && raw.owner < 0 ==> r == Err(Plugin(PluginErrors.InvalidId(raw.owner)))
    ensures r.Ok? <==> ValidUtf8(BeforeNul(raw.name)) && raw.owner >= 0
    ensures r.Ok? ==>
              && r.value.name == BeforeNul(raw.name)
              && r.value.dataType.bits == raw.types
              && PluginIds.Deref(r.value.owner) == raw.owner
  {
    var name :- FromCStringBuffer(raw.name).MapError(e => InvalidInfoName(e));
    var owner :- PluginIds.TryFrom(raw.owner).MapError(e => Plugin(e));
    Ok(Info(name, FromRaw(raw.types), owner))
  }
}
