/** The plugin identifier (src/api/plugin/id.rs). */
module PluginIds {
  import opened Wrappers
  import opened CTypes
  import opened PluginErrors

  /** The values an `XPLMPluginID` (a C `int`) can hold once the sentinel is ruled out. */
  type PluginIdValue = x: int | 0 <= x <= I32_MAX

  /** A non-negative XPLMPluginID; Copy, so duplicating it is taking its value. */
  datatype PluginId = PluginId(raw: PluginIdValue)

  /** `TryFrom<XPLMPluginID>`: a negative id is the host's "no plugin" sentinel. */
  function TryFrom(value: I32): (r: Result<PluginId, PluginError>)
    ensures r.Err? <==> value < 0
    ensures r.Err? ==> r.error == InvalidId(value)
    ensures r.Ok? ==> Deref(r.value) == value
  {
    if value < 0 then Err(InvalidId(value)) else assert IsI32(value); Ok(PluginId(value))
  }

  /** `Deref`: the wrapped integer. */
  function Deref(id: PluginId): I32 {
    id.raw
  }

  lemma TryFromDeref(id: PluginId)
    ensures TryFrom(Deref(id)) == Ok(id)
  {
  }
}
