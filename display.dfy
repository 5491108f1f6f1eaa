/**
 * Window creation and the window callbacks (src/api/display.rs): the five
 * trampolines the host calls with the window's handler as refcon, and
 * `create_window_ex`, which hands them to the host.
 */
module Display {
  import opened CTypes
  import opened Wrappers
  import opened DisplayErrors
  import opened Coords
  import opened Keys
  import opened Events
  import opened Windows
  import Mouse
  import Rects
  import Xplm

  /** xplm_CursorDefault: let the host pick the cursor. */
  const CURSOR_DEFAULT := 0

  /** xplm_WindowLayerFloatingWindows. */
  const WINDOW_LAYER_FLOATING_WINDOWS := 1

  /** `Coord::default().x(x).y(y)`, the coordinate every trampoline builds. */
  function ClickCoord(x: I32, y: I32): (c: Coord)
    ensures c == Coord(x, y)
  {
    WithY(WithX(Coords.Default(), x), y)
  }

  /** `draw_window`: one draw callback. */
  method DrawWindow(refcon: WindowHandler)
    modifies refcon
    ensures refcon.events == old(refcon.events) + [WindowEvent.Draw]
  {
    refcon.Draw();
  }

  /**
   * `mouse_click`, for left and right clicks alike: a status the host should
   * not send is propagated without reaching the handler; any other reaches
   * it with the click's coordinate, and its answer is returned as a C int.
   */
  method MouseClick(x: I32, y: I32, mouse: int, refcon: WindowHandler) returns (r: int)
    modifies refcon
    ensures Mouse.TryFrom(mouse).Err? ==> r == Code(Propagate) && refcon.events == old(refcon.events)
    ensures Mouse.TryFrom(mouse).Ok? ==>
              var event := WindowEvent.MouseClick(Coord(x, y), Mouse.TryFrom(mouse).value);
              && refcon.events == old(refcon.events) + [event]
              && r == Code(refcon.respond(old(refcon.events), event))
  {
    match Mouse.TryFrom(mouse)
    case Ok(status) =>
      var coord := ClickCoord(x, y);
      var state := refcon.MouseClick(coord, status);
      r := Code(state);
    case Err(_) =>
      r := Code(Propagate);
  }

  /**
   * `handle_key`: a virtual key that does not decode reaches no handler;
   * otherwise the handler gets the key's byte as a character, the decoded
   * virtual key and the flags as they came.
   */
  method HandleKey(key: I8, flags: bv32, virtualKey: I8, decodeVirtualKey: I8 -> Option<VirtualKey>, refcon: WindowHandler)
    modifies refcon
    ensures decodeVirtualKey(virtualKey).None? ==> refcon.events == old(refcon.events)
    ensures decodeVirtualKey(virtualKey).Some? ==>
              refcon.events == old(refcon.events)
                + [WindowEvent.HandleKey(I8AsU8(key) as char, decodeVirtualKey(virtualKey).value, KeyFlags(flags))]
  {
    match decodeVirtualKey(virtualKey)
    case Some(vk) =>
      refcon.HandleKey(I8AsU8(key) as char, vk, FromRaw(flags));
    case None =>
  }

  /** `handle_cursor`: the handler sees the position, and the host is always told to use its default cursor. */
  method HandleCursor(x: I32, y: I32, refcon: WindowHandler) returns (r: int)
    modifies refcon
    ensures r == CURSOR_DEFAULT
    ensures refcon.events == old(refcon.events) + [WindowEvent.HandleCursor(Coord(x, y))]
  {
    var coord := ClickCoord(x, y);
    refcon.HandleCursor(coord);
    r := CURSOR_DEFAULT;
  }

  /** `handle_mouse_wheel`: an unknown axis is propagated without reaching the handler. */
  method HandleMouseWheel(x: I32, y: I32, wheel: I32, clicks: I32, decodeWheelAxis: I32 -> Option<WheelAxis>, refcon: WindowHandler)
    returns (r: int)
    modifies refcon
    ensures decodeWheelAxis(wheel).None? ==> r == Code(Propagate) && refcon.events == old(refcon.events)
    ensures decodeWheelAxis(wheel).Some? ==>
              var event := WindowEvent.MouseWheel(Coord(x, y), decodeWheelAxis(wheel).value, clicks);
              && refcon.events == old(refcon.events) + [event]
              && r == Code(refcon.respond(old(refcon.events), event))
  {
    match decodeWheelAxis(wheel)
    case Some(axis) =>
      var coord := ClickCoord(x, y);
      var state := refcon.HandleMouseWheel(coord, axis, clicks);
      r := Code(state);
    case None =>
      r := Code(Propagate);
  }

  /**
   * The XPLMCreateWindow_t `create_window_ex` fills in: the rectangle as
   * given, hidden, undecorated, in the floating windows layer, with the
   * handler as refcon and right clicks routed to the left click trampoline.
   */
  function CreateWindowParams(rect: Rects.Rect, refcon: WindowHandler): (p: Xplm.WindowParams)
    ensures p.left == rect.left && p.top == rect.top && p.right == rect.right && p.bottom == rect.bottom
    ensures p.visible == 0 && p.decorateAsFloatingWindow == 0
    ensures p.layer == WINDOW_LAYER_FLOATING_WINDOWS
    ensures p.refcon == refcon
    ensures p.handleRightClickFunc == p.handleMouseClickFunc == Xplm.MouseClickFn
    ensures p.drawWindowFunc == Xplm.DrawWindowFn && p.handleKeyFunc == Xplm.HandleKeyFn
    ensures p.handleCursorFunc == Xplm.HandleCursorFn && p.handleMouseWheelFunc == Xplm.MouseWheelFn
  {
    Xplm.WindowParams(
      rect.left, rect.top, rect.right, rect.bottom, 0,
      Xplm.DrawWindowFn, Xplm.MouseClickFn, Xplm.HandleKeyFn, Xplm.HandleCursorFn, Xplm.MouseWheelFn,
      refcon, 0, WINDOW_LAYER_FLOATING_WINDOWS, Xplm.MouseClickFn)
  }

  /**
   * `create_window_ex`: one host call with those parameters; a null id is
   * `InvalidWindowId`, any other becomes a window owning the handler.
   */
  method CreateWindowEx(host: Xplm.Host, rect: Rects.Rect, handler: WindowHandler) returns (r: Result<Window, DisplayError>)
    modifies host
    ensures host.calls == old(host.calls) + [Xplm.HostCall.CreateWindowEx(CreateWindowParams(rect, handler))]
    ensures r.Err? <==> old(host.state.nextHandle) == NULL
    ensures r.Err? ==> r.error == InvalidWindowId && host.state == old(host.state)
    ensures r.Ok? ==>
              && fresh(r.value) && !r.value.dropped
              && r.value.id.raw == old(host.state.nextHandle) && r.value.handler == handler
              && host.state == old(host.state).AfterCreate().(windows := old(host.state).windows[r.value.id.raw := CreateWindowParams(rect, handler)])
  {
    var params := CreateWindowParams(rect, handler);
    var id := host.CreateWindowEx(params);
    var windowId :- Windows.TryFrom(id);
    var window := new Window(windowId, handler);
    r := Ok(window);
  }

  /**
   * A window created and then dropped is no longer registered with the host,
   * and the last call the host saw destroys it.
   */
  method CreateThenDrop(host: Xplm.Host, rect: Rects.Rect, handler: WindowHandler) returns (r: Result<Ptr, DisplayError>)
    modifies host
    ensures r.Err? ==> host.state == old(host.state)
    ensures r.Ok? ==> r.value !in host.state.windows
    ensures r.Ok? ==> |host.calls| > 0 && host.calls[|host.calls| - 1] == Xplm.HostCall.DestroyWindow(r.value)
  {
    var created := CreateWindowEx(host, rect, handler);
    var window :- created;
    window.Drop(host);
    r := Ok(window.id.raw);
  }
}
