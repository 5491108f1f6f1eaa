/**
 * Windows (src/api/display/window.rs): the window id, the plugin's window
 * handler, the window that destroys itself when dropped, and the
 * positioning modes. `destroy_window` of src/api/display.rs lives here as
 * well, since dropping a window needs it.
 */
module Windows {
  import opened CTypes
  import opened Wrappers
  import opened DisplayErrors
  import opened Coords
  import opened Keys
  import opened Mouse
  import opened Events
  import Xplm

  /** `WindowId`: a non-null XPLMWindowID; equality is equality of the raw handle. */
  datatype WindowId = WindowId(raw: NonNull)

  /** `TryFrom<XPLMWindowID>`. */
  function TryFrom(raw: Ptr): (r: Result<WindowId, DisplayError>)
    ensures r.Err? <==> raw == NULL
    ensures r.Err? ==> r.error == InvalidWindowId
    ensures r.Ok? ==> Native(r.value) == raw
  {
    if raw == NULL then Err(InvalidWindowId) else Ok(WindowId(raw))
  }

  /** `native`. */
  function Native(id: WindowId): Ptr {
    id.raw
  }

  lemma TryFromNative(id: WindowId)
    ensures TryFrom(Native(id)) == Ok(id)
  {
  }

  /** Two ids are equal exactly when their raw handles are. */
  lemma IdEqualityIsRawEquality(a: WindowId, b: WindowId)
    ensures a == b <==> Native(a) == Native(b)
  {
  }

  /** `WindowPositioningMode`. */
  datatype WindowPositioningMode =
    | Free
    | CenterOnMonitor
    | FullScreenOnMonitor
    | FullScreenOnAllMonitors
    | WindowPopOut
    | WindowVR

  /** `From<WindowPositioningMode> for XPLMWindowPositioningMode`: the discriminant. */
  function PositioningModeCode(mode: WindowPositioningMode): (c: int)
    ensures 0 <= c <= 5
    ensures c == 0 <==> mode == Free
    ensures c == 5 <==> mode == WindowVR
  {
    match mode
    case Free => 0
    case CenterOnMonitor => 1
    case FullScreenOnMonitor => 2
    case FullScreenOnAllMonitors => 3
    case WindowPopOut => 4
    case WindowVR => 5
  }

  /** Distinct modes reach the host as distinct values. */
  lemma PositioningModeCodeInjective(a: WindowPositioningMode, b: WindowPositioningMode)
    ensures PositioningModeCode(a) == PositioningModeCode(b) ==> a == b
  {
  }

  /**
   * A virtual key code as decoded by `VirtualKey::try_from`; the table of
   * virtual keys is not part of this model, so only the code is kept.
   */
  datatype VirtualKey = VirtualKey(code: int)

  /** A mouse wheel axis as decoded by `WheelAxis::try_from`; likewise only its code. */
  datatype WheelAxis = WheelAxis(code: int)

  /** One callback a window handler received. */
  datatype WindowEvent =
    | Draw
    | MouseClick(coord: Coord, status: MouseStatus)
    | HandleKey(key: char, virtualKey: VirtualKey, flags: KeyFlags)
    | HandleCursor(coord: Coord)
    | MouseWheel(coord: Coord, axis: WheelAxis, clicks: I32)

  /**
   * A plugin's `WindowHandler`: what it does is summed up by the events it
   * received, and the event state it answers for a click or a wheel turn is
   * a function of those events and the new one.
   */
  class WindowHandler {
    var events: seq<WindowEvent>
    const respond: (seq<WindowEvent>, WindowEvent) -> EventState

    constructor (respond: (seq<WindowEvent>, WindowEvent) -> EventState)
      ensures this.respond == respond && events == []
    {
      this.respond := respond;
      events := [];
    }

    method Draw()
      modifies this
      ensures events == old(events) + [WindowEvent.Draw]
    {
      events := events + [WindowEvent.Draw];
    }

    method MouseClick(coord: Coord, status: MouseStatus) returns (e: EventState)
      modifies this
      ensures e == respond(old(events), WindowEvent.MouseClick(coord, status))
      ensures events == old(events) + [WindowEvent.MouseClick(coord, status)]
    {
      e := respond(events, WindowEvent.MouseClick(coord, status));
      events := events + [WindowEvent.MouseClick(coord, status)];
    }

    method HandleKey(key: char, virtualKey: VirtualKey, flags: KeyFlags)
      modifies this
      ensures events == old(events) + [WindowEvent.HandleKey(key, virtualKey, flags)]
    {
      events := events + [WindowEvent.HandleKey(key, virtualKey, flags)];
    }

    method HandleCursor(coord: Coord)
      modifies this
      ensures events == old(events) + [WindowEvent.HandleCursor(coord)]
    {
      events := events + [WindowEvent.HandleCursor(coord)];
    }

    method HandleMouseWheel(coord: Coord, axis: WheelAxis, clicks: I32) returns (e: EventState)
      modifies this
      ensures e == respond(old(events), WindowEvent.MouseWheel(coord, axis, clicks))
      ensures events == old(events) + [WindowEvent.MouseWheel(coord, axis, clicks)]
    {
      e := respond(events, WindowEvent.MouseWheel(coord, axis, clicks));
      events := events + [WindowEvent.MouseWheel(coord, axis, clicks)];
    }
  }

  /** `destroy_window`: one host call with the raw id. */
  method DestroyWindow(host: Xplm.Host, id: WindowId)
    modifies host
    ensures host.state == old(host.state).(windows := old(host.state).windows - {id.raw})
    ensures host.calls == old(host.calls) + [Xplm.HostCall.DestroyWindow(id.raw)]
  {
    host.DestroyWindow(Native(id));
  }

  /** `Window`: a window id and the handler the host calls back. */
  class Window {
    const id: WindowId
    const handler: WindowHandler
    var dropped: bool

    /** `new`: stores exactly the id and handler given. */
    constructor (id: WindowId, handler: WindowHandler)
      ensures this.id == id && this.handler == handler && !dropped
    {
      this.id := id;
      this.handler := handler;
      dropped := false;
    }

    /** `Drop`: destroys its own window, once; ownership rules out a second drop. */
    method Drop(host: Xplm.Host)
      requires !dropped
      modifies this, host
      ensures dropped
      ensures host.state == old(host.state).(windows := old(host.state).windows - {id.raw})
      ensures host.calls == old(host.calls) + [Xplm.HostCall.DestroyWindow(id.raw)]
    {
      DestroyWindow(host, id);
      dropped := true;
    }
  }
}
