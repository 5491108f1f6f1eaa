/**
 * The utilities API (src/api/utilities.rs): command lookup and creation,
 * the process-wide error callback, data file loading and saving, and the
 * directory separator.
 */
module Utilities {
  import opened CTypes
  import opened Wrappers
  import opened Ffi
  import opened UtilitiesErrors
  import opened Commands
  import Xplm

  /** `find_command`: a name with a NUL never reaches the host; an unknown name is `Ok(None)`. */
  method FindCommand(host: Xplm.Host, name: seq<Byte>) returns (r: Result<Option<Command>, UtilitiesError>)
    modifies host
    ensures NUL in name ==> r == Err(InvalidCommandName(CStringNew(name).error)) && host.calls == old(host.calls)
    ensures NUL !in name ==>
              && host.calls == old(host.calls) + [Xplm.HostCall.FindCommand(name)]
              && r.Ok?
              && (r.value.None? <==> Xplm.Lookup(host.state.commandNames, name) == NULL)
              && (r.value.Some? ==> Deref(r.value.value) == Xplm.Lookup(host.state.commandNames, name))
    ensures host.state == old(host.state)
  {
    var nameC :- CStringNew(name).MapError(e => InvalidCommandName(e));
    var command := host.FindCommand(nameC);
    if command == NULL {
      r := Ok(None);
    } else {
      var c := Commands.TryFrom(command);
      r := Ok(if c.Ok? then Some(c.value) else None);
    }
  }

  /**
   * `create_command`: the name is checked before the description, neither
   * with a NUL reaches the host, and a null answer is `InvalidCommand`.
   */
  method CreateCommand(host: Xplm.Host, name: seq<Byte>, description: seq<Byte>) returns (r: Result<Command, UtilitiesError>)
    modifies host
    ensures NUL in name ==>
              r == Err(InvalidCommandName(CStringNew(name).error)) && unchanged(host)
    ensures NUL !in name && NUL in description ==>
              r == Err(InvalidCommandDescription(CStringNew(description).error)) && unchanged(host)
    ensures NUL !in name && NUL !in description ==>
              var p := if name in old(host.state.commandNames) then old(host.state.commandNames[name]) else old(host.state.nextHandle);
              && host.calls == old(host.calls) + [Xplm.HostCall.CreateCommand(name, description)]
              && (r.Err? <==> p == NULL)
              && (r.Err? ==> r.error == InvalidCommand && host.state == old(host.state))
              && (r.Ok? ==> Deref(r.value) == p && name in host.state.commandNames && host.state.commandNames[name] == p)
              && host.state == (if name in old(host.state.commandNames) || p == NULL then old(host.state)
                                else old(host.state).AfterCreate().(commandNames := old(host.state.commandNames)[name := p]))
  {
    var nameC :- CStringNew(name).MapError(e => InvalidCommandName(e));
    var descriptionC :- CStringNew(description).MapError(e => InvalidCommandDescription(e));
    var command := host.CreateCommand(nameC, descriptionC);
    r := Commands.TryFrom(command);
  }

  /** A plugin's `fn(&str)` error handler; its effect is the list of messages it got. */
  class ErrorHandler {
    var messages: seq<RString>

    constructor ()
      ensures messages == []
    {
      messages := [];
    }

    method Call(message: RString)
      modifies this
      ensures messages == old(messages) + [message]
    {
      messages := messages + [message];
    }
  }

  /** The `ERROR_CALLBACK` once-cell. */
  class ErrorCallbackSlot {
    var callback: Option<ErrorHandler>

    constructor ()
      ensures callback == None
    {
      callback := None;
    }

    /**
     * `set_error_callback`: the first handler installed stays, later ones
     * are dropped; the trampoline is handed to the host on every call.
     */
    method SetErrorCallback(host: Xplm.Host, handler: ErrorHandler)
      modifies this, host
      ensures callback == if old(callback).Some? then old(callback) else Some(handler)
      ensures host.state == old(host.state).(errorCallback := Some(Xplm.ErrorCallbackFn))
      ensures host.calls == old(host.calls) + [Xplm.HostCall.SetErrorCallback(Xplm.ErrorCallbackFn)]
    {
      if callback.None? {
        callback := Some(handler);
      }
      host.SetErrorCallback(Xplm.ErrorCallbackFn);
    }

    /**
     * `error_callback`, the trampoline: a UTF-8 message goes to the
     * installed handler, if any; a message that does not decode is only
     * logged.
     */
    method ErrorCallback(message: CStr)
      modifies if callback.Some? then {callback.value} else {}
      ensures callback == old(callback)
      ensures callback.Some? && ValidUtf8(message) ==> callback.value.messages == old(callback.value.messages) + [message]
      ensures callback.Some? && !ValidUtf8(message) ==> callback.value.messages == old(callback.value.messages)
    {
      var messageStr := CStrToStr(message);
      if messageStr.Ok? {
        if callback.Some? {
          callback.value.Call(messageStr.value);
        }
      }
    }
  }

  /**
   * Installing two handlers one after the other keeps the first: errors
   * reported afterwards reach it and never the second.
   */
  method SetErrorCallbackTwice(host: Xplm.Host, slot: ErrorCallbackSlot, first: ErrorHandler, second: ErrorHandler, message: CStr)
    requires slot.callback.None? && first != second && ValidUtf8(message)
    modifies slot, host, first
    ensures slot.callback == Some(first)
    ensures first.messages == old(first.messages) + [message]
    ensures second.messages == old(second.messages)
  {
    slot.SetErrorCallback(host, first);
    slot.SetErrorCallback(host, second);
    slot.ErrorCallback(message);
  }

  /**
   * Shared by `load_data_file` and `save_data_file`: a path that is not
   * UTF-8 gives `failure`, one with a NUL `InvalidDataFilePath`; otherwise
   * the host's answer decides, and only 1 is success.
   */
  function DataFileResult(path: seq<Byte>, answer: int, failure: UtilitiesError): (r: Result<(), UtilitiesError>)
    ensures !ValidUtf8(path) ==> r == Err(failure)
    ensures ValidUtf8(path) && NUL in path ==> r == Err(InvalidDataFilePath(CStringNew(path).error))
    ensures ValidUtf8(path) && NUL !in path ==> (r.Ok? <==> answer == 1)
    ensures ValidUtf8(path) && NUL !in path && r.Err? ==> r.error == failure
  {
    if !ValidUtf8(path) then Err(failure)
    else if NUL in path then Err(InvalidDataFilePath(CStringNew(path).error))
    else if answer == 1 then Ok(())
    else Err(failure)
  }

  /** `load_data_file`. */
  method LoadDataFile(host: Xplm.Host, fileType: int, path: seq<Byte>) returns (r: Result<(), UtilitiesError>)
    modifies host
    ensures r == DataFileResult(path, host.FileResult(path), UtilitiesError.LoadDataFile)
    ensures host.state == old(host.state)
    ensures ValidUtf8(path) && NUL !in path ==> host.calls == old(host.calls) + [Xplm.HostCall.LoadDataFile(fileType, path)]
    ensures !ValidUtf8(path) || NUL in path ==> host.calls == old(host.calls)
  {
    if !ValidUtf8(path) {
      return Err(UtilitiesError.LoadDataFile);
    }
    var pathC :- CStringNew(path).MapError(e => InvalidDataFilePath(e));
    var isLoaded := host.LoadDataFile(fileType, pathC);
    r := if isLoaded == 1 then Ok(()) else Err(UtilitiesError.LoadDataFile);
  }

  /** `save_data_file`. */
  method SaveDataFile(host: Xplm.Host, fileType: int, path: seq<Byte>) returns (r: Result<(), UtilitiesError>)
    modifies host
    ensures r == DataFileResult(path, host.FileResult(path), UtilitiesError.SaveDataFile)
    ensures host.state == old(host.state)
    ensures ValidUtf8(path) && NUL !in path ==> host.calls == old(host.calls) + [Xplm.HostCall.SaveDataFile(fileType, path)]
    ensures !ValidUtf8(path) || NUL in path ==> host.calls == old(host.calls)
  {
    if !ValidUtf8(path) {
      return Err(UtilitiesError.SaveDataFile);
    }
    var pathC :- CStringNew(path).MapError(e => InvalidDataFilePath(e));
    var isSaved := host.SaveDataFile(fileType, pathC);
    r := if isSaved == 1 then Ok(()) else Err(UtilitiesError.SaveDataFile);
  }

  /**
   * `get_directory_separator`: the first character of the host's separator
   * string; a string that is not UTF-8 or is empty is an error.
   */
  function GetDirectorySeparator(host: Xplm.Host): (r: Result<nat, UtilitiesError>)
    reads host
    ensures var s := host.state.directorySeparator;
      && (!ValidUtf8(s) ==> r == Err(InvalidDirectorySeparator(Utf8Error(s))))
      && (ValidUtf8(s) && s == [] ==> r == Err(EmptyDirectorySeparator))
      && (r.Ok? <==> ValidUtf8(s) && s != [])
      && (r.Ok? && s[0] <= 0x7F ==> r.value == s[0])
  {
    var s :- CStrToStr(host.state.directorySeparator).MapError(e => InvalidDirectorySeparator(e));
    if |s| == 0 then Err(EmptyDirectorySeparator) else Ok(FirstChar(s))
  }
}
