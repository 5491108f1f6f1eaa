// The error enums of the crate, one module per API area as in the source.

/** `PluginError` (src/api/plugin/error.rs). */
module PluginErrors {
  import opened Ffi

  datatype PluginError =
    | InvalidId(id: int)
    | InvalidPluginPath(nul: NulError)
    | InvalidPluginSignature(nul: NulError)
    | InvalidInfoName(into: IntoStringError)
    | InvalidInfoFilePath(into: IntoStringError)
    | InvalidInfoSignature(into: IntoStringError)
    | InvalidInfoDescription(into: IntoStringError)
}

/** `DataAccessError` (src/api/data_access/error.rs). */
module DataAccessErrors {
  import opened Ffi
  import opened PluginErrors

  datatype DataAccessError =
    | InvalidDataRefId
    | OrphanedDataRef
    | InvalidType
    | ReadOnlyDataRef
    | OutOfBounds
    | InvalidDataRefsIterator
    | InvalidInfoName(into: IntoStringError)
    | InvalidDataRefName(nul: NulError)
    | Plugin(plugin: PluginError)
      /** Used by src/api/data_access/data_ref/string.rs; not declared in the error enum. */
    | InvalidValueString
}

/** `UtilitiesError` (src/api/utilities/error.rs). */
module UtilitiesErrors {
  import opened Ffi

  datatype UtilitiesError =
    | InvalidSystemPath(into: IntoStringError)
    | InvalidPrefsPath(into: IntoStringError)
    | InvalidDirectorySeparator(utf8: Utf8Error)
    | EmptyDirectorySeparator
    | InvalidDataFilePath(nul: NulError)
    | LoadDataFile
    | ClearReplay
    | SaveDataFile
    | UnknownHostApplicationId(id: int)
    | UnknownLanguageCode(code: int)
    | InvalidVirtualKey(key: int)
    | InvalidVirtualKeyDescription(into: IntoStringError)
    | InvalidCommand
    | InvalidCommandName(nul: NulError)
    | InvalidCommandDescription(nul: NulError)
}

/** `DisplayError` (src/api/display/error.rs). */
module DisplayErrors {
  import opened Ffi

  datatype DisplayError =
    | InvalidWindowId
    | InvalidCommandName(nul: NulError)
    | UnknownMouseStatuts(status: int)
    | UnknownMouseWheelAxis(axis: int)
}

/** `MenusError` (src/api/menus/error.rs). */
module MenusErrors {
  import opened Ffi

  datatype MenusError =
    | InvalidId
    | InvalidMenuItemId
    | InvalidMenuName(nul: NulError)
    | UnknownMenuItemState(state: int)
}

/** `ProcessingError` (src/api/processing/error.rs). */
module ProcessingErrors {
  datatype ProcessingError = InvalidFlightLoopId
}

/** The older `DataAccessError` (src/api/data/error.rs). */
module DataErrors {
  datatype DataError =
    | InvalidDataRefId
    | UnknownDataTypeId(id: bv32)
}
