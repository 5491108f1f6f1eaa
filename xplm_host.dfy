/**
 * An abstract X-Plane host: the state behind the XPLM C interface that the
 * safety layer calls, and one method per interface function it uses. Every
 * call that reads into a buffer, writes, looks up, creates, registers or
 * destroys something is appended to `calls`, so the wrappers' contracts can
 * say which calls they make and with which arguments. The probes a wrapper
 * only asks (is the data ref good, writable, which types) are functions.
 */
module Xplm {
  import opened CTypes
  import opened Ffi
  import opened Wrappers

  /** A raw data element: an i32, the bits of an f32 or f64, or a u8. Floats stay opaque. */
  type Value = int

  /** XPLMGetDatai / XPLMGetDataf / XPLMGetDatad and their setters. */
  datatype ScalarKind = IntValue | FloatValue | DoubleValue

  /** XPLMGetDatavi / XPLMGetDatavf / XPLMGetDatab and their setters. */
  datatype ArrayKind = IntValues | FloatValues | ByteValues

  /** What the host knows about one data ref. */
  datatype DataRefState = DataRefState(
    good: int,          // answer of XPLMIsDataRefGood
    types: bv32,        // answer of XPLMGetDataRefTypes
    writable: int,      // answer of XPLMCanWriteDataRef
    name: CStr,         // XPLMDataRefInfo_t.name
    owner: I32,         // XPLMDataRefInfo_t.owner
    intValue: Value,
    floatValue: Value,
    doubleValue: Value,
    ints: seq<Value>,
    floats: seq<Value>,
    bytes: seq<Value>)
  {
    function Scalar(k: ScalarKind): Value {
      match k
      case IntValue => intValue
      case FloatValue => floatValue
      case DoubleValue => doubleValue
    }

    function WithScalar(k: ScalarKind, v: Value): DataRefState {
      match k
      case IntValue => this.(intValue := v)
      case FloatValue => this.(floatValue := v)
      case DoubleValue => this.(doubleValue := v)
    }

    function Array(k: ArrayKind): seq<Value> {
      match k
      case IntValues => ints
      case FloatValues => floats
      case ByteValues => bytes
    }

    function WithArray(k: ArrayKind, a: seq<Value>): DataRefState {
      match k
      case IntValues => this.(ints := a)
      case FloatValues => this.(floats := a)
      case ByteValues => this.(bytes := a)
    }
  }

  /** How the host answers for a handle it does not know. */
  const UNKNOWN_DATA_REF: DataRefState := DataRefState(0, 0, 0, [], 0, 0, 0, 0, [], [], [])

  /** The raw XPLMDataRefInfo_t the host fills in: `name` points at a NUL-terminated buffer. */
  datatype RawDataRefInfo = RawDataRefInfo(name: seq<Byte>, types: bv32, writable: int, owner: I32)

  /** The C functions of the safety layer that the host may call back. */
  datatype Callback =
    | CommandHandlerFn
    | FlightLoopFn
    | DrawWindowFn
    | MouseClickFn
    | HandleKeyFn
    | HandleCursorFn
    | MouseWheelFn
    | ErrorCallbackFn
    | MenuHandlerFn

  /** The tuple XPLMRegisterCommandHandler takes; the refcon is the link object. */
  datatype CommandRegistration = CommandRegistration(command: Ptr, callback: Callback, before: int, refcon: object)

  /** XPLMCreateFlightLoop_t, without its structure size. */
  datatype FlightLoopParams = FlightLoopParams(phase: int, callback: Callback, refcon: object)

  /** XPLMCreateWindow_t, without its structure size. */
  datatype WindowParams = WindowParams(
    left: int, top: int, right: int, bottom: int, visible: int,
    drawWindowFunc: Callback, handleMouseClickFunc: Callback, handleKeyFunc: Callback,
    handleCursorFunc: Callback, handleMouseWheelFunc: Callback, refcon: object,
    decorateAsFloatingWindow: int, layer: int, handleRightClickFunc: Callback)

  datatype MenuItem = MenuItem(text: CStr, command: Ptr, check: int, enabled: int)

  datatype Schedule = Schedule(interval: Value, relativeToNow: int)

  datatype HostState = HostState(
    dataRefs: map<Ptr, DataRefState>,
    dataRefNames: map<CStr, Ptr>,
    dataRefCount: nat,
    directorySeparator: CStr,
    fileResults: map<CStr, int>,
    commandNames: map<CStr, Ptr>,
    commandHandlers: set<CommandRegistration>,
    errorCallback: Option<Callback>,
    flightLoops: map<Ptr, FlightLoopParams>,
    schedules: map<Ptr, Schedule>,
    windows: map<Ptr, WindowParams>,
    menus: map<Ptr, seq<MenuItem>>,
    /** The handle the next creation returns; NULL while the host refuses to create. */
    nextHandle: Ptr)
  {
    function DataRef(p: Ptr): DataRefState {
      if p in dataRefs then dataRefs[p] else UNKNOWN_DATA_REF
    }

    /** The state after a creation that returned `nextHandle`. */
    function AfterCreate(): HostState {
      if nextHandle == NULL then this else this.(nextHandle := nextHandle + 1)
    }
  }

  function Lookup(names: map<CStr, Ptr>, name: CStr): Ptr {
    if name in names then names[name] else NULL
  }

  /** The host ignores writes to a data ref it does not report writable. */
  function AfterSetScalar(s: HostState, k: ScalarKind, p: Ptr, v: Value): HostState {
    if p in s.dataRefs && s.dataRefs[p].writable == 1
    then s.(dataRefs := s.dataRefs[p := s.dataRefs[p].WithScalar(k, v)])
    else s
  }

  /** `values` written over `buf` from `offset` on; the buffer keeps its length. */
  function Overwrite(buf: seq<Value>, offset: nat, values: seq<Value>): (r: seq<Value>)
    ensures |r| == |buf|
  {
    seq(|buf|, i requires 0 <= i < |buf| =>
      if offset <= i < offset + |values| then values[i - offset] else buf[i])
  }

  function AfterSetArray(s: HostState, k: ArrayKind, p: Ptr, values: seq<Value>, offset: nat): HostState {
    if p in s.dataRefs && s.dataRefs[p].writable == 1
    then s.(dataRefs := s.dataRefs[p := s.dataRefs[p].WithArray(k, Overwrite(s.dataRefs[p].Array(k), offset, values))])
    else s
  }

  /**
   * How many elements an array getter copies: at most `max`, starting at
   * `offset`, and fewer when the data ref ends before.
   */
  function CopyCount(size: nat, offset: nat, max: nat): (n: nat)
    ensures n <= max && (n == 0 || offset + n <= size)
    ensures offset < size && max > 0 ==> n > 0
    ensures offset < size && offset + max <= size ==> n == max
  {
    if offset >= size then 0
    else if max <= size - offset then max
    else size - offset
  }

  datatype HostCall =
    | GetScalar(kind: ScalarKind, ref: Ptr)
    | SetScalar(kind: ScalarKind, ref: Ptr, value: Value)
    | GetArray(arrayKind: ArrayKind, ref: Ptr, offset: nat, max: nat)
    | SetArray(arrayKind: ArrayKind, ref: Ptr, values: seq<Value>, offset: nat, count: nat)
    | GetDataRefsByIndex(from: nat, count: nat)
    | GetDataRefInfo(ref: Ptr)
    | FindDataRef(name: CStr)
    | FindCommand(name: CStr)
    | CreateCommand(name: CStr, description: CStr)
    | CommandOnce(command: Ptr)
    | CommandBegin(command: Ptr)
    | CommandEnd(command: Ptr)
    | RegisterCommandHandler(registration: CommandRegistration)
    | UnregisterCommandHandler(registration: CommandRegistration)
    | SetErrorCallback(callback: Callback)
    | LoadDataFile(fileType: int, path: CStr)
    | SaveDataFile(fileType: int, path: CStr)
    | CreateFlightLoop(params: FlightLoopParams)
    | DestroyFlightLoop(id: Ptr)
    | ScheduleFlightLoop(id: Ptr, interval: Value, relativeToNow: int)
    | CreateWindowEx(window: WindowParams)
    | DestroyWindow(id: Ptr)
    | CreateMenu(menuName: Option<CStr>, parentMenu: Ptr, parentItem: int, menuHandler: Option<Callback>)
    | DestroyMenu(id: Ptr)
    | AppendMenuItem(menu: Ptr, text: CStr)
    | AppendMenuItemWithCommand(menu: Ptr, text: CStr, command: Ptr)
    | CheckMenuItem(menu: Ptr, item: int, check: int)
    | CheckMenuItemState(menu: Ptr, item: int)
    | EnableMenuItem(menu: Ptr, item: int, enabled: int)

  class Host {
    var state: HostState
    var calls: seq<HostCall>

    constructor (initial: HostState)
      ensures state == initial && calls == []
    {
      state := initial;
      calls := [];
    }

    // ------------------------------------------------------------ data refs

    method GetScalar(k: ScalarKind, p: Ptr) returns (v: Value)
      modifies this
      ensures v == state.DataRef(p).Scalar(k)
      ensures state == old(state) && calls == old(calls) + [HostCall.GetScalar(k, p)]
    {
      v := state.DataRef(p).Scalar(k);
      calls := calls + [HostCall.GetScalar(k, p)];
    }

    method SetScalar(k: ScalarKind, p: Ptr, v: Value)
      modifies this
      ensures state == AfterSetScalar(old(state), k, p, v)
      ensures calls == old(calls) + [HostCall.SetScalar(k, p, v)]
    {
      state := AfterSetScalar(state, k, p, v);
      calls := calls + [HostCall.SetScalar(k, p, v)];
    }

    /**
     * The host copies up to `max` elements from `offset` into `dest`; the
     * ABI requires room in `dest` for every element it copies.
     */
    method GetArray(k: ArrayKind, p: Ptr, dest: array<Value>, offset: nat, max: nat) returns (n: nat)
      requires CopyCount(|state.DataRef(p).Array(k)|, offset, max) <= dest.Length
      modifies this, dest
      ensures state == old(state) && calls == old(calls) + [HostCall.GetArray(k, p, offset, max)]
      ensures n == CopyCount(|state.DataRef(p).Array(k)|, offset, max) && n <= dest.Length
      ensures forall i :: 0 <= i < n ==> dest[i] == state.DataRef(p).Array(k)[offset + i]
      ensures dest[n..] == old(dest[n..])
    {
      var buf := state.DataRef(p).Array(k);
      n := CopyCount(|buf|, offset, max);
      forall i | 0 <= i < n {
        dest[i] := buf[offset + i];
      }
      calls := calls + [HostCall.GetArray(k, p, offset, max)];
    }

    /** The ABI requires `count` elements in `values`. */
    method SetArray(k: ArrayKind, p: Ptr, values: seq<Value>, offset: nat, count: nat)
      requires count <= |values|
      modifies this
      ensures state == AfterSetArray(old(state), k, p, values[..count], offset)
      ensures calls == old(calls) + [HostCall.SetArray(k, p, values, offset, count)]
    {
      state := AfterSetArray(state, k, p, values[..count], offset);
      calls := calls + [HostCall.SetArray(k, p, values, offset, count)];
    }

    /** XPLMGetDataRefsByIndex with a null output array: nothing is written. */
    method GetDataRefsByIndex(from: nat, count: nat)
      modifies this
      ensures state == old(state) && calls == old(calls) + [HostCall.GetDataRefsByIndex(from, count)]
    {
      calls := calls + [HostCall.GetDataRefsByIndex(from, count)];
    }

    method GetDataRefInfo(p: Ptr) returns (info: RawDataRefInfo)
      modifies this
      ensures var d := state.DataRef(p);
        info == RawDataRefInfo(d.name + [NUL], d.types, d.writable, d.owner)
      ensures state == old(state) && calls == old(calls) + [HostCall.GetDataRefInfo(p)]
    {
      var d := state.DataRef(p);
      info := RawDataRefInfo(d.name + [NUL], d.types, d.writable, d.owner);
      calls := calls + [HostCall.GetDataRefInfo(p)];
    }

    method FindDataRef(name: CStr) returns (p: Ptr)
      modifies this
      ensures p == Lookup(state.dataRefNames, name)
      ensures state == old(state) && calls == old(calls) + [HostCall.FindDataRef(name)]
    {
      p := Lookup(state.dataRefNames, name);
      calls := calls + [HostCall.FindDataRef(name)];
    }

    // ------------------------------------------------------------- commands

    method FindCommand(name: CStr) returns (p: Ptr)
      modifies this
      ensures p == Lookup(state.commandNames, name)
      ensures state == old(state) && calls == old(calls) + [HostCall.FindCommand(name)]
    {
      p := Lookup(state.commandNames, name);
      calls := calls + [HostCall.FindCommand(name)];
    }

    /** Returns the existing command of that name, or a new one. */
    method CreateCommand(name: CStr, description: CStr) returns (p: Ptr)
      modifies this
      ensures name in old(state).commandNames ==> p == old(state).commandNames[name] && state == old(state)
      ensures name !in old(state).commandNames ==> p == old(state).nextHandle
      ensures name !in old(state).commandNames && p != NULL ==>
                state == old(state).AfterCreate().(commandNames := old(state).commandNames[name := p])
      ensures name !in old(state).commandNames && p == NULL ==> state == old(state)
      ensures calls == old(calls) + [HostCall.CreateCommand(name, description)]
    {
      if name in state.commandNames {
        p := state.commandNames[name];
      } else {
        p := state.nextHandle;
        if p != NULL {
          state := state.AfterCreate().(commandNames := state.commandNames[name := p]);
        }
      }
      calls := calls + [HostCall.CreateCommand(name, description)];
    }

    method CommandOnce(c: Ptr)
      modifies this
      ensures state == old(state) && calls == old(calls) + [HostCall.CommandOnce(c)]
    {
      calls := calls + [HostCall.CommandOnce(c)];
    }

    method CommandBegin(c: Ptr)
      modifies this
      ensures state == old(state) && calls == old(calls) + [HostCall.CommandBegin(c)]
    {
      calls := calls + [HostCall.CommandBegin(c)];
    }

    method CommandEnd(c: Ptr)
      modifies this
      ensures state == old(state) && calls == old(calls) + [HostCall.CommandEnd(c)]
    {
      calls := calls + [HostCall.CommandEnd(c)];
    }

    method RegisterCommandHandler(r: CommandRegistration)
      modifies this
      ensures state == old(state).(commandHandlers := old(state).commandHandlers + {r})
      ensures calls == old(calls) + [HostCall.RegisterCommandHandler(r)]
    {
      state := state.(commandHandlers := state.commandHandlers + {r});
      calls := calls + [HostCall.RegisterCommandHandler(r)];
    }

    /** Removes the registration with exactly this tuple, if there is one. */
    method UnregisterCommandHandler(r: CommandRegistration)
      modifies this
      ensures state == old(state).(commandHandlers := old(state).commandHandlers - {r})
      ensures calls == old(calls) + [HostCall.UnregisterCommandHandler(r)]
    {
      state := state.(commandHandlers := state.commandHandlers - {r});
      calls := calls + [HostCall.UnregisterCommandHandler(r)];
    }

    // ------------------------------------------------------------ utilities

    method SetErrorCallback(cb: Callback)
      modifies this
      ensures state == old(state).(errorCallback := Some(cb))
      ensures calls == old(calls) + [HostCall.SetErrorCallback(cb)]
    {
      state := state.(errorCallback := Some(cb));
      calls := calls + [HostCall.SetErrorCallback(cb)];
    }

    function FileResult(path: seq<Byte>): int
      reads this
    {
      if path in state.fileResults then state.fileResults[path] else 0
    }

    method LoadDataFile(fileType: int, path: CStr) returns (r: int)
      modifies this
      ensures r == FileResult(path)
      ensures state == old(state) && calls == old(calls) + [HostCall.LoadDataFile(fileType, path)]
    {
      r := FileResult(path);
      calls := calls + [HostCall.LoadDataFile(fileType, path)];
    }

    method SaveDataFile(fileType: int, path: CStr) returns (r: int)
      modifies this
      ensures r == FileResult(path)
      ensures state == old(state) && calls == old(calls) + [HostCall.SaveDataFile(fileType, path)]
    {
      r := FileResult(path);
      calls := calls + [HostCall.SaveDataFile(fileType, path)];
    }

    // ----------------------------------------------------------- processing

    method CreateFlightLoop(params: FlightLoopParams) returns (id: Ptr)
      modifies this
      ensures id == old(state).nextHandle
      ensures id != NULL ==> state == old(state).AfterCreate().(flightLoops := old(state).flightLoops[id := params])
      ensures id == NULL ==> state == old(state)
      ensures calls == old(calls) + [HostCall.CreateFlightLoop(params)]
    {
      id := state.nextHandle;
      if id != NULL {
        state := state.AfterCreate().(flightLoops := state.flightLoops[id := params]);
      }
      calls := calls + [HostCall.CreateFlightLoop(params)];
    }

    method DestroyFlightLoop(id: Ptr)
      modifies this
      ensures state == old(state).(flightLoops := old(state).flightLoops - {id}, schedules := old(state).schedules - {id})
      ensures calls == old(calls) + [HostCall.DestroyFlightLoop(id)]
    {
      state := state.(flightLoops := state.flightLoops - {id}, schedules := state.schedules - {id});
      calls := calls + [HostCall.DestroyFlightLoop(id)];
    }

    method ScheduleFlightLoop(id: Ptr, interval: Value, relativeToNow: int)
      modifies this
      ensures id in old(state).flightLoops ==>
                state == old(state).(schedules := old(state).schedules[id := Schedule(interval, relativeToNow)])
      ensures id !in old(state).flightLoops ==> state == old(state)
      ensures calls == old(calls) + [HostCall.ScheduleFlightLoop(id, interval, relativeToNow)]
    {
      if id in state.flightLoops {
        state := state.(schedules := state.schedules[id := Schedule(interval, relativeToNow)]);
      }
      calls := calls + [HostCall.ScheduleFlightLoop(id, interval, relativeToNow)];
    }

    // -------------------------------------------------------------- display

    method CreateWindowEx(params: WindowParams) returns (id: Ptr)
      modifies this
      ensures id == old(state).nextHandle
      ensures id != NULL ==> state == old(state).AfterCreate().(windows := old(state).windows[id := params])
      ensures id == NULL ==> state == old(state)
      ensures calls == old(calls) + [HostCall.CreateWindowEx(params)]
    {
      id := state.nextHandle;
      if id != NULL {
        state := state.AfterCreate().(windows := state.windows[id := params]);
      }
      calls := calls + [HostCall.CreateWindowEx(params)];
    }

    method DestroyWindow(id: Ptr)
      modifies this
      ensures state == old(state).(windows := old(state).windows - {id})
      ensures calls == old(calls) + [HostCall.DestroyWindow(id)]
    {
      state := state.(windows := state.windows - {id});
      calls := calls + [HostCall.DestroyWindow(id)];
    }

    // ---------------------------------------------------------------- menus

    /** A null name pointer is `None`; a null handler is `None`. */
    method CreateMenu(name: Option<CStr>, parentMenu: Ptr, parentItem: int, menuHandler: Option<Callback>) returns (id: Ptr)
      modifies this
      ensures id == old(state).nextHandle
      ensures id != NULL ==> state == old(state).AfterCreate().(menus := old(state).menus[id := []])
      ensures id == NULL ==> state == old(state)
      ensures calls == old(calls) + [HostCall.CreateMenu(name, parentMenu, parentItem, menuHandler)]
    {
      id := state.nextHandle;
      if id != NULL {
        state := state.AfterCreate().(menus := state.menus[id := []]);
      }
      calls := calls + [HostCall.CreateMenu(name, parentMenu, parentItem, menuHandler)];
    }

    method DestroyMenu(id: Ptr)
      modifies this
      ensures state == old(state).(menus := old(state).menus - {id})
      ensures calls == old(calls) + [HostCall.DestroyMenu(id)]
    {
      state := state.(menus := state.menus - {id});
      calls := calls + [HostCall.DestroyMenu(id)];
    }

    /** Appends an item and returns its index; -1 for a menu the host does not know. */
    method AppendMenuItem(menu: Ptr, text: CStr) returns (index: int)
      modifies this
      ensures menu in old(state).menus ==>
                && index == |old(state).menus[menu]|
                && state == old(state).(menus := old(state).menus[menu := old(state).menus[menu] + [MenuItem(text, NULL, 0, 1)]])
      ensures menu !in old(state).menus ==> index == -1 && state == old(state)
      ensures calls == old(calls) + [HostCall.AppendMenuItem(menu, text)]
    {
      if menu in state.menus {
        index := |state.menus[menu]|;
        state := state.(menus := state.menus[menu := state.menus[menu] + [MenuItem(text, NULL, 0, 1)]]);
      } else {
        index := -1;
      }
      calls := calls + [HostCall.AppendMenuItem(menu, text)];
    }

    method AppendMenuItemWithCommand(menu: Ptr, text: CStr, command: Ptr) returns (index: int)
      modifies this
      ensures menu in old(state).menus ==>
                && index == |old(state).menus[menu]|
                && state == old(state).(menus := old(state).menus[menu := old(state).menus[menu] + [MenuItem(text, command, 0, 1)]])
      ensures menu !in old(state).menus ==> index == -1 && state == old(state)
      ensures calls == old(calls) + [HostCall.AppendMenuItemWithCommand(menu, text, command)]
    {
      if menu in state.menus {
        index := |state.menus[menu]|;
        state := state.(menus := state.menus[menu := state.menus[menu] + [MenuItem(text, command, 0, 1)]]);
      } else {
        index := -1;
      }
      calls := calls + [HostCall.AppendMenuItemWithCommand(menu, text, command)];
    }

    predicate HasItem(menu: Ptr, item: int)
      reads this
    {
      menu in state.menus && 0 <= item < |state.menus[menu]|
    }

    method CheckMenuItem(menu: Ptr, item: int, check: int)
      modifies this
      ensures old(HasItem(menu, item)) ==>
                state == old(state).(menus := old(state).menus[menu :=
                  old(state).menus[menu][item := old(state).menus[menu][item].(check := check)]])
      ensures !old(HasItem(menu, item)) ==> state == old(state)
      ensures calls == old(calls) + [HostCall.CheckMenuItem(menu, item, check)]
    {
      if HasItem(menu, item) {
        var items := state.menus[menu];
        state := state.(menus := state.menus[menu := items[item := items[item].(check := check)]]);
      }
      calls := calls + [HostCall.CheckMenuItem(menu, item, check)];
    }

    /** Writes the item's check state to the out-parameter; leaves it as given otherwise. */
    method CheckMenuItemState(menu: Ptr, item: int, given: int) returns (check: int)
      modifies this
      ensures check == if HasItem(menu, item) then state.menus[menu][item].check else given
      ensures state == old(state) && calls == old(calls) + [HostCall.CheckMenuItemState(menu, item)]
    {
      check := if HasItem(menu, item) then state.menus[menu][item].check else given;
      calls := calls + [HostCall.CheckMenuItemState(menu, item)];
    }

    method EnableMenuItem(menu: Ptr, item: int, enabled: int)
      modifies this
      ensures old(HasItem(menu, item)) ==>
                state == old(state).(menus := old(state).menus[menu :=
                  old(state).menus[menu][item := old(state).menus[menu][item].(enabled := enabled)]])
      ensures !old(HasItem(menu, item)) ==> state == old(state)
      ensures calls == old(calls) + [HostCall.EnableMenuItem(menu, item, enabled)]
    {
      if HasItem(menu, item) {
        var items := state.menus[menu];
        state := state.(menus := state.menus[menu := items[item := items[item].(enabled := enabled)]]);
      }
      calls := calls + [HostCall.EnableMenuItem(menu, item, enabled)];
    }
  }
}
