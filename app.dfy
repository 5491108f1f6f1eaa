/** The host application and its versions (src/api/utilities/app.rs). */
module HostApps {
  import opened Wrappers
  import opened CTypes
  import opened UtilitiesErrors

  datatype HostApplicationId = Unknown | XPlane

  /** The SDK's `xplm_Host_*` constant of each host. */
  function Code(id: HostApplicationId): (c: int)
    ensures c == 0 || c == 1
  {
    match id
    case Unknown => 0
    case XPlane => 1
  }

  /** `TryFrom<XPLMHostApplicationID>`: 0 and 1 decode, any other value is kept in the error. */
  function TryFrom(value: int): (r: Result<HostApplicationId, UtilitiesError>)
    ensures r.Ok? <==> value == 0 || value == 1
    ensures r.Ok? ==> Code(r.value) == value
    ensures r.Err? ==> r.error == UnknownHostApplicationId(value)
  {
    if value == 0 then Ok(Unknown)
    else if value == 1 then Ok(XPlane)
    else Err(UnknownHostApplicationId(value))
  }

  lemma TryFromCode(id: HostApplicationId)
    ensures TryFrom(Code(id)) == Ok(id)
  {
  }

  /** `Versions`. */
  datatype Versions = Versions(appId: HostApplicationId, xplane: I32, xplm: I32)

  /**
   * `get_versions` for the three numbers the host reports: the host id is
   * decoded, the two version numbers are kept as given.
   */
  function GetVersions(xplaneVersion: I32, xplmVersion: I32, hostId: int): (r: Result<Versions, UtilitiesError>)
    ensures r.Err? <==> TryFrom(hostId).Err?
    ensures r.Err? ==> r.error == UnknownHostApplicationId(hostId)
    ensures r.Ok? ==> Code(r.value.appId) == hostId && r.value.xplane == xplaneVersion && r.value.xplm == xplmVersion
  {
    var appId :- TryFrom(hostId);
    Ok(Versions(appId, xplaneVersion, xplmVersion))
  }
}
