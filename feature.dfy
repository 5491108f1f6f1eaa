/** Advanced plugin features and their SDK names (src/api/plugin/feature.rs). */
module Features {
  import opened Wrappers

  datatype Feature =
    | WantsReflections
    | UseNativePaths
    | UseNativeWidgetsWindows
    | WantsDatarefNotifications

  /**
   * `Feature::name`: the string the host knows the feature by; none holds a
   * NUL, so each passes `CString::new` unchanged.
   */
  function Name(f: Feature): (s: string)
    ensures |s| > 5 && s[..5] == "XPLM_"
    ensures '\0' !in s
  {
    match f
    case WantsReflections => "XPLM_WANTS_REFLECTIONS"
    case UseNativePaths => "XPLM_USE_NATIVE_PATHS"
    case UseNativeWidgetsWindows => "XPLM_USE_NATIVE_WIDGET_WINDOWS"
    case WantsDatarefNotifications => "XPLM_WANTS_DATAREF_NOTIFICATIONS"
  }

  /** The feature a host name stands for, if any: the reference the name table is checked against. */
  function FromName(s: string): (r: Option<Feature>)
    ensures r.Some? ==> Name(r.value) == s
  {
    if s == Name(WantsReflections) then Some(WantsReflections)
    else if s == Name(UseNativePaths) then Some(UseNativePaths)
    else if s == Name(UseNativeWidgetsWindows) then Some(UseNativeWidgetsWindows)
    else if s == Name(WantsDatarefNotifications) then Some(WantsDatarefNotifications)
    else None
  }

  /** Every name leads back to its own feature, so no two features share a name. */
  lemma FromNameName(f: Feature)
    ensures FromName(Name(f)) == Some(f)
  {
  }

  lemma NameInjective(a: Feature, b: Feature)
    ensures Name(a) == Name(b) ==> a == b
  {
    FromNameName(a);
    FromNameName(b);
  }
}
