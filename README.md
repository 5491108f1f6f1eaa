# xplm safety layer, modelled in Dafny

The xplm crate is a Rust wrapper around the X-Plane plugin SDK (XPLM). This
project models the core of that wrapper:

- **Handle types.** Data refs, commands, flight loops, windows, menus, menu items and plugin ids. Each one is built from a raw handle through a check for its sentinel value.
- **Typed data ref wrappers.** The scalar, array and string wrappers check the data ref's type and whether it can be written.
- **Calls into the SDK.** The wrappers' own calls: lookups, reads, writes, the index range clamp, command and flight loop registration, window and menu creation.
- **Callback trampolines.** The functions the simulator calls back through. They decode raw enums and forward to the plugin's handler.
- **Records.** They tear down what they registered when they are dropped.
- **Value tables.** Data types, key flags, mouse states, event states, menu check states, languages, host applications, flight loop phases, intervals, execution times, positioning modes and feature names.
- **Plugin entry points.** The start/stop/enable/disable/message functions generated by the `register!` macro.

The simulator is one object, `Xplm.Host`. It holds `state`, the part of the
simulator the wrapper observes (data refs, names, registered handlers, flight
loops, windows and menus), and `calls`, the log of every SDK call the wrapper
made. A wrapper method says which calls it appended to the log and what the
state became. So "exactly one call", "no call before the check" and "the same
tuple on register and unregister" are stated in its contract. Plugin-side
handlers are classes that record the callbacks they received. What they answer
is a function of those callbacks, so a trampoline's contract can say what
reached the handler and what was passed back.

Raw values of data refs are integers. Float values are carried as opaque
values and never computed with. Coordinate, rectangle and size fields, plugin
ids and data ref owners are the 32-bit range of a C `int`, and the coordinate
shifts wrap around as they do in a release build.

Three things the code does that shape the model:

- Teardown relies on Rust ownership: a record's `Drop` runs once, so every `Drop` here requires that it has not run yet, and nothing clears the registration's pointer.
- The trampolines do not check their refcon for null, so the model does not either.
- `XPluginReceiveMessage` ignores the message, and so does the model.

## Model

| member | source | states |
|---|---|---|
| DataTypes.FromRaw | src/api/data_access/data_type.rs:99-103 | the bitmap is stored unchanged |
| DataTypes.Contains | src/api/data_access/data_type.rs:30-96 | Unknown holds iff the bitmap is exactly 0; every other type holds iff its own SDK bit is set |
| DataTypes.BitmapContainsExactly | src/api/data_access/data_type.rs:54-96 | a bitmap built from several types contains exactly those types, so the flags are independent |
| DataTypes.BitmapUnknownExactly | src/api/data_access/data_type.rs:46-48 | a combined bitmap reports Unknown iff no real type went into it |
| DataRefs.TryFrom | src/api/data_access/data_ref.rs:24-34 | Err(InvalidDataRefId) iff the pointer is null; otherwise deref gives the pointer back |
| DataRefs.TryFromDeref | src/api/data_access/data_ref.rs:16-34 | wrapping a handle's own pointer rebuilds the same handle |
| DataRefs.DataTypeOf | src/api/data_access/data_ref.rs:139-161 | i32, f32, f64 and u8 map to Int, Float, Double and Data; never to Unknown or an array type |
| DataRefs.DataTypeOfInjective | src/api/data_access/data_ref.rs:139-161 | distinct element types map to distinct data types |
| DataRefValues.ScalarKindOf | src/api/data_access/data_ref/value.rs:97-113 | i32, f32 and f64 values use the int, float and double accessors |
| DataRefValues.TryFrom | src/api/data_access/data_ref/value.rs:50-68 | a handle that is not good is OrphanedDataRef before any type check; a good one without the type's flag is InvalidType; otherwise a read-only wrapper of the same handle |
| DataRefValues.Writeable | src/api/data_access/data_ref/value.rs:37-47 | ReadOnlyDataRef iff the host does not answer 1 to can-write; otherwise the same handle in read-write mode |
| DataRefValues.Find | src/api/data_access/data_ref/value.rs:26-29 | lookup errors pass through unchanged; otherwise the result is try_from of the found handle |
| DataRefValues.Read | src/api/data_access/data_ref/value.rs:77-87 | returns the host's current scalar for the handle with one get call |
| DataRefValues.Write | src/api/data_access/data_ref/value.rs:89-93 | read-write only; one set call passing exactly the value |
| DataRefValues.WriteableWritesTakeEffect | src/api/data_access/data_ref/value.rs:89-93 | after writeable succeeds, a write is what the next read returns |
| DataRefValues.ReadOnlyWritesIgnored | src/api/data_access/data_ref/value.rs:37-47 | when writeable fails, a write leaves the host unchanged |
| DataRefValues.TryFromChecksType | src/api/data_access/data_ref/value.rs:53-68 | a constructed wrapper is over a good handle whose types include the element type |
| DataRefArrays.ArrayTypeMatches | src/api/data_access/data_ref/array.rs:58-68 | i32 needs IntArray, f32 FloatArray and u8 Data; f64 never matches |
| DataRefArrays.ArrayKindOf | src/api/data_access/data_ref/array.rs:140-152 | f32 arrays use the float accessors and u8 arrays the byte accessors |
| DataRefArrays.TryFrom | src/api/data_access/data_ref/array.rs:50-75 | orphan check first, then the array type; f64 is always an error; success is a read-only wrapper of the same handle |
| DataRefArrays.Writeable | src/api/data_access/data_ref/array.rs:37-47 | ReadOnlyDataRef iff the host does not answer 1 to can-write; otherwise the same handle in read-write mode |
| DataRefArrays.Find | src/api/data_access/data_ref/array.rs:26-29 | lookup errors pass through; otherwise try_from of the found handle |
| DataRefArrays.Read | src/api/data_access/data_ref/array.rs:86-88 | one read from offset 0; the count is what the host copied and the destination holds exactly those elements |
| DataRefArrays.ReadAtResult | src/api/data_access/data_ref/array.rs:90-100 | Ok iff offset < SIZE and the host has at least SIZE elements; then it is element offset; otherwise OutOfBounds |
| DataRefArrays.ReadAt | src/api/data_access/data_ref/array.rs:90-100 | offset >= SIZE makes no host call; otherwise one full SIZE read from offset 0 |
| DataRefArrays.Write | src/api/data_access/data_ref/array.rs:124-126 | one set call writing the whole slice from offset 0 |
| DataRefArrays.WriteAt | src/api/data_access/data_ref/array.rs:128-135 | OutOfBounds iff offset >= SIZE with no host call; otherwise one one-element write at offset |
| DataRefArrays.WriteAtThenReadAt | src/api/data_access/data_ref/array.rs:90-135 | after a one-element write at offset, read_at returns the value there and the old values elsewhere |
| DataRefArrays.WriteAtReadAt | src/api/data_access/data_ref/array.rs:90-135 | on a writable data ref holding at least SIZE elements, write_at then read_at at the same offset gives Ok(value) |
| DataRefTyped.ArrayTypeMatches | src/api/data_access/data_ref_typed.rs:185-194 | only i32 with IntArray and f32 with FloatArray match; u8 and f64 never do |
| DataRefTyped.ArrayTryFrom | src/api/data_access/data_ref_typed.rs:177-201 | orphan check before the type check; success is a read-only wrapper of the same handle |
| DataRefTyped.ArrayFind | src/api/data_access/data_ref_typed.rs:153-156 | lookup errors pass through; otherwise this module's try_from of the found handle |
| DataRefTyped.U8ArrayNeverConstructed | src/api/data_access/data_ref_typed.rs:185-194 | a u8 array can never be built here; on a good handle the error is InvalidType |
| DataRefTyped.ArrayTryFromAgrees | src/api/data_access/data_ref_typed.rs:177-201 | agrees with array.rs for every type except u8, which array.rs may accept and this module never does |
| DataRefStrings.TryFromAsWritten | src/api/data_access/data_ref/string.rs:39-49 | as written: exactly the u8 check of data_ref_typed.rs, with its error passed on |
| DataRefStrings.TryFromAsWrittenNeverSucceeds | src/api/data_access/data_ref/string.rs:39-49 | as written no string data ref can be built: OrphanedDataRef for a handle that is not good, InvalidType for every good one |
| DataRefStrings.FindAsWritten | src/api/data_access/data_ref/string.rs:25-30 | as written: lookup errors pass through, and every found handle fails the u8 check, so find never succeeds |
| DataRefStrings.TryFrom | src/api/data_access/data_ref/string.rs:39-49 | corrected; see Findings: exactly the u8 check of array.rs, where u8 needs Data, with its error passed on |
| DataRefStrings.TryFromAcceptsData | src/api/data_access/data_ref/string.rs:39-49 | corrected; see Findings: a good handle holding Data becomes a string data ref, where the code as written answers InvalidType |
| DataRefStrings.Find | src/api/data_access/data_ref/string.rs:25-30 | corrected; see Findings: lookup and array errors pass through unchanged, otherwise the corrected try_from |
| DataRefStrings.ReadBuffer | src/api/data_access/data_ref/string.rs:32-34 | the SIZE-byte zeroed buffer holds the data ref's first bytes and zeros after them |
| DataRefStrings.ReadBufferHasNul | src/api/data_access/data_ref/string.rs:32-34 | the buffer has a NUL iff the host had fewer than SIZE bytes or one of the first SIZE is zero |
| DataRefStrings.TryReadAsWritten | src/api/data_access/data_ref/string.rs:32-36 | the unbounded decode has no defined outcome exactly when the buffer holds no NUL |
| DataRefStrings.ReadBufferCanLackNul | src/api/data_access/data_ref/string.rs:32-35 | a one-byte buffer over "A" has no terminator |
| DataRefStrings.DecodeBuffer | src/api/data_access/data_ref/string.rs:35 | Ok iff the bytes before the first NUL are UTF-8, and then it is those bytes; a failure is InvalidValueString |
| DataRefStrings.TryReadResult | src/api/data_access/data_ref/string.rs:32-36 | the result is a NUL-free prefix of the buffer of at most SIZE bytes; a failure is InvalidValueString |
| DataRefStrings.TryReadAgreesWhenTerminated | src/api/data_access/data_ref/string.rs:32-36 | whenever the buffer holds a NUL, the bounded decode equals the code as written |
| DataRefStrings.TryReadShortString | src/api/data_access/data_ref/string.rs:32-36 | a string shorter than SIZE, followed by a NUL or the end, reads back as itself |
| DataRefStrings.TryRead | src/api/data_access/data_ref/string.rs:32-36 | one byte-array read of SIZE elements from offset 0, decoded by the bounded decode |
| DataRefStrings.Read | src/api/data_access/data_ref/string.rs:52-55 | never fails: the empty string whenever try_read errs |
| DataAccess.ClampRange | src/api/data_access.rs:38-45 | the start is at most the total, the range ends at or before the total, the count never grows, and a request that fits is unchanged |
| DataAccess.DataRefsIterTryFrom | src/api/data_access/data_refs.rs:5-15 | Err(InvalidDataRefsIterator) iff the pointer is null |
| DataAccess.GetDataRefsByIndex | src/api/data_access.rs:38-50 | the host gets the clamped range, and the result is always Err(InvalidDataRefsIterator) |
| DataAccess.ClassifyInfo | src/api/data_access.rs:69-75 | Info errors come first; otherwise ReadWrite iff the writable field is 1, around the converted info |
| DataAccess.GetDataRefInfo | src/api/data_access.rs:59-76 | one info call, then the classification of what the host filled in |
| DataAccess.FindDataRefResult | src/api/data_access.rs:85-89 | a name with a NUL is InvalidDataRefName; an unknown name is InvalidDataRefId; otherwise the registered handle |
| DataAccess.FindDataRef | src/api/data_access.rs:85-89 | a name with a NUL makes no host call; otherwise one lookup call |
| DataAccess.CanWriteDataRef | src/api/data_access.rs:98-100 | true iff the host answers exactly 1 |
| DataAccess.IsDataRefGood | src/api/data_access.rs:109-111 | true iff the host answers exactly 1 |
| DataAccess.GetDataRefTypes | src/api/data_access.rs:120-123 | the host's type bitmap, unchanged |
| DataAccess.GetData | src/api/data_access.rs:132-174 | the scalar getters return the host's value with one call |
| DataAccess.SetData | src/api/data_access.rs:141-183 | the scalar setters pass exactly the value with one call |
| DataAccess.GetCountAsWritten | src/api/data_access.rs:194-208 | the getters' count as written exceeds the destination's length whenever the offset is not 0 |
| DataAccess.GetCount | src/api/data_access.rs:194-208 | corrected; see Findings: the count is exactly the destination's length, whatever the offset |
| DataAccess.GetCountStaysInDestination | src/api/data_access.rs:194-208 | with the corrected count the host never copies more than the destination holds |
| DataAccess.GetCountAsWrittenOverruns | src/api/data_access.rs:194-208 | with offset 1 and one slot the count as written lets two elements be copied |
| DataAccess.GetCountsAgreeAtZero | src/api/data_access.rs:194-208 | at offset 0 both counts are equal |
| DataAccess.AsWrittenCopiesWhatCorrectedCopies | src/api/data_access.rs:194-208 | whenever what the count as written lets the host copy fits in the destination, it equals what the corrected count lets it copy |
| DataAccess.GetDatavAsWritten | src/api/data_access.rs:194-208 | as written: one get call with count offset + len; where that copy fits, the same elements as the corrected getter, and at offset 0 the same call |
| DataAccess.GetDatav | src/api/data_access.rs:194-208 | corrected; see Findings: one get call with the destination's length as count; copies the host's elements from offset, leaves the rest alone, and returns how many |
| DataAccess.SetDatav | src/api/data_access.rs:216-225 | the setters pass the slice's length as the count |
| DataInfo.InfoTryFrom | src/api/data_access/data_info.rs:12-27 | the name is decoded first (InvalidInfoName), then the owner (a negative one is Plugin(InvalidId(owner))); the bitmap is copied as it is |
| PluginIds.TryFrom | src/api/plugin/id.rs:17-27 | for a C int v, Err(InvalidId(v)) iff v < 0; otherwise deref gives v |
| PluginIds.TryFromDeref | src/api/plugin/id.rs:9-27 | wrapping an id's own value rebuilds the same id |
| LegacyData.TryFrom | src/api/data/dataref.rs:16-26 | Err(InvalidDataRefId) iff the pointer is null |
| LegacyData.TryFromDeref | src/api/data/dataref.rs:8-26 | wrapping a handle's own pointer rebuilds the same handle |
| LegacyData.GetDataRefsByIndex | src/api/data.rs:25-37 | the range handed to the host is the same clamp: within the total, never longer than asked, unchanged when it fits; the pointer the iterator is built from is always null |
| Commands.TryFrom | src/api/utilities/command.rs:34-44 | Err(InvalidCommand) iff the pointer is null; otherwise deref gives it back |
| Commands.TryFromDeref | src/api/utilities/command.rs:34-52 | wrapping a command's own pointer rebuilds the same command |
| Commands.Once | src/api/utilities/command.rs:17-19 | exactly one command-once call for this command |
| Commands.Begin | src/api/utilities/command.rs:23-25 | exactly one command-begin call for this command |
| Commands.End | src/api/utilities/command.rs:29-31 | exactly one command-end call for this command |
| Commands.CommandLink.CommandBegin | src/api/utilities/command.rs:87-89 | the begin callback reaches the handler once |
| Commands.CommandLink.CommandContinue | src/api/utilities/command.rs:91-93 | the continue callback reaches the handler once |
| Commands.CommandLink.CommandEnd | src/api/utilities/command.rs:95-97 | the end callback reaches the handler once |
| Commands.ExecutionTimeCode | src/api/utilities/command.rs:123-127 | BeforeXPlane is 1 and AfterXPlane is 0 |
| Commands.ExecutionTimeCodeInjective | src/api/utilities/command.rs:116-127 | the two times are told apart by their codes |
| Commands.CommandHandlerTrampoline | src/api/utilities.rs:357-376 | answers 1 on every path; another command or an unknown phase reaches no callback; each known phase reaches its own |
| Commands.CommandHandlerRecord.Drop | src/api/utilities/command.rs:108-112 | one unregister call with the record's own tuple, which leaves the host's registrations |
| Commands.RegisterCommandHandler | src/api/utilities.rs:330-355 | one register call with the command, the trampoline, the time's code and a fresh link; the record keeps that link and time |
| Commands.UnregisterCommandHandler | src/api/utilities.rs:379-390 | hands the host back the identical tuple |
| Commands.RegisterThenDrop | src/api/utilities.rs:330-390 | register then drop leaves the host's registrations as they were, the last call undoing the previous one |
| Utilities.FindCommand | src/api/utilities.rs:264-272 | a name with a NUL is InvalidCommandName with no host call; otherwise Ok(None) iff the host answers null |
| Utilities.CreateCommand | src/api/utilities.rs:308-318 | the name is checked before the description, neither reaches the host with a NUL, and a null answer is InvalidCommand; an existing name gives its handle with the host unchanged, a new one is registered under the fresh handle |
| Utilities.ErrorCallbackSlot.SetErrorCallback | src/api/utilities.rs:190-205 | the first handler installed stays; the trampoline goes to the host every time |
| Utilities.ErrorCallbackSlot.ErrorCallback | src/api/utilities.rs:191-201 | a UTF-8 message reaches the installed handler, if there is one; any other message reaches none |
| Utilities.SetErrorCallbackTwice | src/api/utilities.rs:190-205 | after two installations errors reach the first handler and never the second |
| Utilities.DataFileResult | src/api/utilities.rs:74-93 | a non-UTF-8 path is the operation's error, a path with a NUL is InvalidDataFilePath, otherwise Ok iff the host answers 1 |
| Utilities.LoadDataFile | src/api/utilities.rs:74-93 | that result for load; only a valid path reaches the host |
| Utilities.SaveDataFile | src/api/utilities.rs:124-143 | that result for save; only a valid path reaches the host |
| Utilities.GetDirectorySeparator | src/api/utilities.rs:55-62 | a non-UTF-8 string is InvalidDirectorySeparator, an empty one EmptyDirectorySeparator, otherwise its first character |
| Languages.Code | src/api/utilities/lang.rs:4-16 | every language has an SDK code between 0 and 10 |
| Languages.TryFrom | src/api/utilities/lang.rs:18-37 | Ok iff the code is one of the 11 SDK codes, and then it is the language with that code; otherwise UnknownLanguageCode(code) |
| Languages.TryFromCode | src/api/utilities/lang.rs:21-36 | every language decodes from its own code |
| Languages.CodeInjective | src/api/utilities/lang.rs:22-33 | no two languages share a code |
| HostApps.Code | src/api/utilities/app.rs:8-13 | the two host applications have codes 0 and 1 |
| HostApps.TryFrom | src/api/utilities/app.rs:15-25 | Ok iff the value is 0 or 1, and then it is that application; otherwise UnknownHostApplicationId(value) |
| HostApps.TryFromCode | src/api/utilities/app.rs:18-24 | every application decodes from its own code |
| HostApps.GetVersions | src/api/utilities.rs:150-160 | an unknown host id is the error; otherwise the versions as given with the decoded id |
| Processing.TryFrom | src/api/processing/flight_loop.rs:12-22 | Err(InvalidFlightLoopId) iff the id is null; otherwise native gives it back |
| Processing.TryFromNative | src/api/processing/flight_loop.rs:5-22 | wrapping an id's native value rebuilds the same id |
| Processing.PhaseNative | src/api/processing/phase.rs:9-16 | BeforeFlightModel is 0 and AfterFlightModel is 1 |
| Processing.PhaseNativeInjective | src/api/processing/phase.rs:11-16 | the phases are told apart by their codes |
| Processing.IntervalArguments | src/api/processing.rs:91-98 | the value passes through, with relation 1 for RelativeToCurrent and 0 for RelativeToStart |
| Processing.IntervalArgumentsInjective | src/api/processing/interval.rs:6-11 | the interval can be rebuilt from what the host got |
| Processing.FlightLoopLink.HandleFlightLoop | src/api/processing/flight_loop.rs:64-77 | the three arguments reach the handler unchanged and its answer comes back unchanged |
| Processing.HandleFlightLoopTrampoline | src/api/processing.rs:47-59 | forwards to the link and returns its answer |
| Processing.DestroyFlightLoop | src/api/processing.rs:79-81 | one destroy call with the native id |
| Processing.ScheduleFlightLoop | src/api/processing.rs:91-98 | one schedule call with the interval's value and relation |
| Processing.FlightLoopRecord.constructor | src/api/processing/flight_loop.rs:96-98 | stores exactly the id and link given |
| Processing.FlightLoopRecord.Drop | src/api/processing/flight_loop.rs:101-105 | one destroy call with its own id |
| Processing.CreateFlightLoop | src/api/processing.rs:43-72 | the host gets the phase's code, the trampoline and a fresh link; a null id is InvalidFlightLoopId and leaves no record |
| Processing.CreateScheduleDrop | src/api/processing.rs:43-98 | create, schedule and drop leave neither the loop nor its schedule behind |
| ProcessingHandler.TryFrom | src/api/processing/handler.rs:12-22 | Err(InvalidFlightLoopId) iff the id is null |
| ProcessingHandler.TryFromNative | src/api/processing/handler.rs:5-22 | wrapping an id's native value rebuilds the same id |
| ProcessingHandler.HandleFlightLoop | src/api/processing/handler.rs:48-64 | a closure gets the three arguments unchanged and its result is returned |
| ProcessingHandler.FlightLoop.constructor | src/api/processing/handler.rs:83-85 | stores exactly the id and handler given |
| ProcessingHandler.FlightLoop.Drop | src/api/processing/handler.rs:88-92 | one destroy call with its own id |
| Windows.TryFrom | src/api/display/window.rs:16-26 | Err(InvalidWindowId) iff the id is null; otherwise native gives it back |
| Windows.TryFromNative | src/api/display/window.rs:9-26 | wrapping an id's native value rebuilds the same id |
| Windows.IdEqualityIsRawEquality | src/api/display/window.rs:6-7 | two ids are equal iff their raw handles are |
| Windows.PositioningModeCode | src/api/display/window.rs:126-130 | the six modes are the codes 0 to 5, Free first and WindowVR last |
| Windows.PositioningModeCodeInjective | src/api/display/window.rs:108-130 | no two modes share a code |
| Windows.DestroyWindow | src/api/display.rs:148-150 | one destroy call with the raw id |
| Windows.Window.constructor | src/api/display/window.rs:96-98 | stores exactly the id and handler given |
| Windows.Window.Drop | src/api/display/window.rs:101-105 | one destroy call with its own id |
| Display.ClickCoord | src/api/display.rs:58 | the coordinate built from the default by setting x then y is (x, y) |
| Display.DrawWindow | src/api/display.rs:40-46 | the draw callback reaches the handler once |
| Display.MouseClick | src/api/display.rs:48-66 | an undecodable status gives Propagate (0) and reaches no handler; otherwise the handler gets (x, y) and the status, and its answer is returned as an int |
| Display.HandleKey | src/api/display.rs:68-85 | an undecodable virtual key reaches no handler; otherwise the key's byte as a character and the flags unchanged |
| Display.HandleCursor | src/api/display.rs:87-97 | the handler gets (x, y) and the answer is always the default cursor |
| Display.HandleMouseWheel | src/api/display.rs:99-118 | an unknown axis gives Propagate and reaches no handler; otherwise the handler's answer as an int |
| Display.CreateWindowParams | src/api/display.rs:122-138 | the rectangle as given, hidden, undecorated, floating layer, the handler as refcon, and right clicks routed to the click trampoline |
| Display.CreateWindowEx | src/api/display.rs:39-142 | one create call with those parameters; a null id is InvalidWindowId, otherwise a fresh window owning the handler |
| Display.CreateThenDrop | src/api/display.rs:39-150 | a window created and dropped is no longer registered, and the last call destroys it |
| Keys.FromRaw | src/api/display/key.rs:73-77 | the flags are stored unchanged |
| Keys.Contains | src/api/display/key.rs:22-30 | corrected; see Findings: each flag is tested against its own SDK bit, where the code as written tests OptionAlt for Control |
| Keys.ControlAsWrittenIsOptionAlt | src/api/display/key.rs:52-54 | as written, asking for Control answers whether OptionAlt is set, for every bitmap |
| Keys.ControlAsWrittenCounterexample | src/api/display/key.rs:52-54 | flags 4 (Control only) answer false and flags 2 (OptionAlt only) answer true, as written |
| Keys.BitmapContainsExactly | src/api/display/key.rs:22-70 | a bitmap built from several flags contains exactly those flags |
| Mouse.TryFrom | src/api/display/mouse.rs:10-21 | the three SDK values decode to their states; any other is UnknownMouseStatuts(value) |
| Mouse.TryFromCode | src/api/display/mouse.rs:13-20 | every state decodes from its own SDK value |
| Events.Code | src/api/display/event.rs:9-13 | Consume is 1 and Propagate 0, nothing else |
| Events.CodeInjective | src/api/display/event.rs:2-13 | the two states are told apart by their codes |
| Coords.New | src/api/display/coord.rs:22-24 | the coordinate is (x, y) |
| Coords.Default | src/api/display/coord.rs:5-11 | the default is (0, 0) |
| Coords.WithX | src/api/display/coord.rs:33-36 | replaces x only |
| Coords.WithY | src/api/display/coord.rs:45-48 | replaces y only |
| Coords.ShiftLeft | src/api/display/coord.rs:57-60 | x decreases by the value, wrapping at 32 bits; y stays |
| Coords.ShiftRight | src/api/display/coord.rs:69-72 | x increases by the value, wrapping at 32 bits; y stays |
| Coords.ShiftTop | src/api/display/coord.rs:81-84 | y increases by the value, wrapping at 32 bits; x stays |
| Coords.ShiftBottom | src/api/display/coord.rs:93-96 | y decreases by the value, wrapping at 32 bits; x stays |
| Coords.WrapSubAdd | src/api/display/coord.rs:57-72 | a wrapped subtraction followed by a wrapped addition of the same value is the identity |
| Coords.ShiftLeftRight | src/api/display/coord.rs:57-72 | shift_left then shift_right by the same value restores the coordinate |
| Coords.ShiftTopBottom | src/api/display/coord.rs:81-96 | shift_top then shift_bottom by the same value restores the coordinate |
| Rects.Default | src/api/display/rect.rs:2-8 | all four fields are zero |
| Rects.New | src/api/display/rect.rs:21-33 | width goes into right and height into bottom as they are |
| Rects.WithLeft | src/api/display/rect.rs:42-45 | changes only left |
| Rects.WithTop | src/api/display/rect.rs:54-57 | changes only top |
| Rects.WithRight | src/api/display/rect.rs:66-69 | changes only right |
| Rects.WithBottom | src/api/display/rect.rs:78-81 | changes only bottom |
| Rects.LastSetWins | src/api/display/rect.rs:42-81 | setting the same field twice keeps only the last value |
| Rects.NewFromFields | src/api/display/rect.rs:21-81 | the four setters applied to the default build the same rectangle as new from the same values, and new rebuilds any rectangle from its own fields |
| Sizes.Default | src/api/display/size.rs:5-11 | the default is (0, 0) |
| Sizes.New | src/api/display/size.rs:22-24 | the size is (width, height) |
| Sizes.WithWidth | src/api/display/size.rs:33-36 | changes only the width |
| Sizes.WithHeight | src/api/display/size.rs:45-48 | changes only the height |
| Sizes.SettersBuildNew | src/api/display/size.rs:22-48 | the two setters applied to the default in either order build the same size as new |
| Menus.TryFrom | src/api/menus.rs:14-24 | Err(InvalidId) iff the id is null; otherwise deref gives it back |
| Menus.TryFromDeref | src/api/menus/menu.rs:8-26 | wrapping an id's own pointer rebuilds the same id |
| Menus.ItemTryFrom | src/api/menus.rs:29-39 | InvalidMenuItemId iff the index is negative; otherwise the index itself |
| Menus.StateTryFrom | src/api/menus.rs:216-227 | 0, 1 and 2 decode to NoCheck, Unchecked and Checked; any other value is UnknownMenuItemState(value) |
| Menus.StateTryFromCode | src/api/menus/state.rs:16-23 | every state decodes from its own SDK value |
| Menus.CreateMenu | src/api/menus.rs:71-84 | a name with a NUL is InvalidMenuName with no host call; otherwise one top-level create call, and a null id is InvalidId |
| Menus.CreateSubMenu | src/api/menus.rs:94-114 | one nameless create call under the parent item with the menu handler trampoline; a null id is InvalidId |
| Menus.DestroyMenu | src/api/menus.rs:121-123 | one destroy call with the id |
| Menus.AppendMenuItem | src/api/menus.rs:138-143 | a text with a NUL is InvalidMenuName with no host call; otherwise InvalidMenuItemId iff the host's index is negative |
| Menus.AppendMenuItemWithCommand | src/api/menus.rs:152-162 | the same, with the command attached to the new item |
| Menus.CheckMenuItem | src/api/menus.rs:193-195 | one check call passing the Checked value |
| Menus.UncheckMenuItem | src/api/menus.rs:202-204 | one check call passing the Unchecked value |
| Menus.CheckMenuItemState | src/api/menus.rs:234-238 | exactly the decoding of what the host wrote into a zeroed out-parameter |
| Menus.EnableMenuItem | src/api/menus.rs:245-247 | one enable call passing 1 |
| Menus.DisableMenuItem | src/api/menus.rs:254-256 | one enable call passing 0 |
| Menus.SetThenQuery | src/api/menus.rs:193-238 | checking or unchecking a known item and then asking gives back the state just set |
| Menus.AppendCheckQuery | src/api/menus.rs:71-238 | an item appended to a new menu and checked reads back as Checked |
| MenuHandlers.OnMenuSelected | src/api/menus/handler.rs:12-19 | the closure receives the selected index unchanged |
| MenuHandlers.Menu.constructor | src/api/menus/handler.rs:26-30 | stores exactly the id and handler given |
| MenuHandlers.Menu.Drop | src/api/menus/handler.rs:32-36 | one destroy call with its own id and no other host call |
| Features.Name | src/api/plugin/feature.rs:18-26 | every name starts with XPLM_ and holds no NUL |
| Features.FromName | src/api/plugin/feature.rs:18-26 | a recognised name leads to the feature whose name it is |
| Features.FromNameName | src/api/plugin/feature.rs:18-26 | every feature is recognised from its own name |
| Features.NameInjective | src/api/plugin/feature.rs:18-26 | no two features share a name |
| Ffi.FromCStringBuffer | src/ffi.rs:7-13 | the bytes before the first NUL if they are UTF-8; a leading NUL gives the empty string |
| Ffi.FromStringBuf | src/api/ffi.rs:7-12 | the bytes before the first NUL, or the whole buffer, read as u8 and decoded; at most SIZE bytes and no NUL |
| PluginLifecycle.PluginShell.XPluginStart | src/plugin.rs:21-37 | with no instance, start runs once, a success is kept and answers 1, a failure answers 0 and keeps the slot empty; with an instance, 1 and no start |
| PluginLifecycle.PluginShell.XPluginStop | src/plugin.rs:41-45 | stops the instance if there is one; the slot keeps it |
| PluginLifecycle.PluginShell.XPluginEnable | src/plugin.rs:49-55 | 0 with no instance; otherwise 1 iff enable succeeds |
| PluginLifecycle.PluginShell.XPluginDisable | src/plugin.rs:59-63 | disables the instance if there is one |
| PluginLifecycle.PluginShell.XPluginReceiveMessage | src/plugin.rs:68-73 | changes nothing |
| PluginLifecycle.StartStopStart | src/plugin.rs:21-45 | a start after a stop answers 1 without running start again |

## Left out

- The SDK itself is not modelled. Every XPLM function the wrapper calls is a method of `Xplm.Host` that specifies how the host answers. Pointers, `Box` addresses, refcon memory safety and threads are not modelled.
- Float arithmetic is not modelled: float data ref values and flight loop intervals are opaque values.
- The `crate::error!` logging in the trampolines is not modelled.
- usize arithmetic overflow and the `as c_int` casts of counts and offsets are not modelled. Coordinate shifts wrap as in a release build; the debug-build overflow panic is not modelled.
- The virtual key and mouse wheel axis tables (`VirtualKey::try_from`, `WheelAxis::try_from`) are not in the crate's source. The trampolines take those decoders as parameters.
- src/api/display.rs refers to `WindowLink`, `WindowHandlerRecord` and `PositioningMode`, which window.rs does not define. `create_window_ex` is modelled as returning the `Window` of window.rs, with the handler itself as refcon. The handler's callbacks do not carry the window id, since the link that would pass it is not defined.
- display.rs's forwarding calls are not modelled: screen size and bounds, mouse location, window geometry (both kinds), visibility, pop-out, gravity, resizing limits, positioning mode, window title, keyboard focus and bringing a window to the front. `set_window_title` uses `DisplayError::InvalidWindowTitle`, which error.rs does not define.
- menus.rs's `find_plugins_menu`, `find_aircraft_menu`, `clear_all_menu_items`, `append_menu_separator`, `set_menu_item_name` and `remove_menu_item` are not modelled. Each is a single host call.
- utilities.rs's `get_system_path`, `get_prefs_path`, `clear_replay`, `debug_string`, `speak_string`, `get_virtual_key_description`, `reload_scenery` and `get_language` are not modelled. Each one is host I/O. The language decoder itself is `Languages.TryFrom`.
- HostApps.GetVersions: takes the host's three answers as parameters instead of calling the host.
- processing.rs's `get_elapsed_time` and `get_cycle_number` are not modelled. They are clock reads.
- The file type of `load_data_file`/`save_data_file` is passed as its raw code, because src/api/utilities/file.rs is not part of this model.
- LegacyData.GetDataRefsByIndex: returns the clamped range and the pointer `DataRefsIter::try_from` receives, not the iterator's result, because src/api/data/data_refs.rs is not part of this model.
- DataAccess.GetDatavAsWritten: requires that what the host copies fits in the destination; past that the call is undefined behaviour, and DataAccess.GetCountAsWrittenOverruns names an input that reaches it.
- `DataRefsIter::next` is not modelled, because `get_data_refs_by_index` never builds an iterator.
- data_ref_typed.rs's scalar wrappers, array reads and writes and `writeable` are identical to value.rs and array.rs. The model reuses those members and only restates the array type check.
- Utilities.GetDirectorySeparator: for a non-ASCII first character it only states that the result is above 0x7F, because decoding UTF-8 into code points is not modelled.
- Menu names and texts, command names and paths are taken as byte strings. The Rust `String` arguments are always UTF-8, which the model does not require.
- PluginLifecycle.PluginShell.XPluginStart: the failing branch of `OnceLock::set` cannot happen after the emptiness check on the single host thread, so it is not modelled. The name, signature and description out-parameters are never written by the code and are left out.
- Plugin-side handlers (command handlers, flight loop handlers, window handlers, error callbacks, menu closures, plugin instances) are modelled by the callbacks they receive. What they answer is a function of those callbacks.

## Findings

| source | as written | input that shows it | evidently intended | confidence | as-written member | corrected member |
|---|---|---|---|---|---|---|
| src/api/display/key.rs:52-54 | `contains_control_flag` tests the OptionAlt bit (2), so `contains(Control)` equals `contains(OptionAlt)` | flags 4 (Control only) give false and flags 2 (OptionAlt only) give true (Keys.ControlAsWrittenCounterexample) | test the Control bit (4), as its documentation says | high; not executed | Keys.ContainsControlFlagAsWritten | Keys.ContainsControlFlag |
| src/api/data_access.rs:194-208 | the array getters pass `offset + len` as the maximum count (also at lines 236-246 and 274-284) | offset 1, a one-slot destination, a data ref of three elements: the host may copy two elements into one slot (DataAccess.GetCountAsWrittenOverruns) | pass the destination's length, which is how many elements it can take | medium; not executed; an overrun only if the SDK reads the count as a number of elements | DataAccess.GetDatavAsWritten | DataAccess.GetDatav |
| src/api/data_access/data_ref/string.rs:32-36 | `try_read` decodes the SIZE-byte buffer with a scan for NUL that has no bound | SIZE 1 over a data ref holding "A": the buffer has no NUL and the scan runs past it (DataRefStrings.ReadBufferCanLackNul) | decode up to the first NUL or the end of the buffer | medium; not executed; reachable only once the next row is corrected | DataRefStrings.TryReadAsWritten | DataRefStrings.TryReadResult |
| src/api/data_access/data_ref/string.rs:39-49 | `try_from` and `find` go through the `DataRefArray` of data_ref_typed.rs (re-exported by data_access.rs:11-13), whose type check at data_ref_typed.rs:185-190 has no arm for u8 | a good data ref whose types include Data: InvalidType, so no `DataRefString` can ever be built (DataRefStrings.TryFromAsWrittenNeverSucceeds) | check u8 against Data, as array.rs:58-68 does and as data_ref_typed.rs's own u8 read and write impls expect | high; not executed | DataRefStrings.TryFromAsWritten | DataRefStrings.TryFrom |
