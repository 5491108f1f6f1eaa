/**
 * Menu handlers (src/api/menus/handler.rs): a closure taking the selected
 * item index serves as a `MenuHandler`, and a `Menu` destroys its menu when
 * it is dropped.
 */
module MenuHandlers {
  import Menus
  import Xplm

  /**
   * A plugin's `FnMut(usize)` closure; its effect is the list of indices it
   * was called with.
   */
  class Closure {
    var calls: seq<nat>

    constructor ()
      ensures calls == []
    {
      calls := [];
    }

    method Call(index: nat)
      modifies this
      ensures calls == old(calls) + [index]
    {
      calls := calls + [index];
    }
  }

  /** The blanket `MenuHandler` impl for closures: the index goes to the closure unchanged. */
  method OnMenuSelected(handler: Closure, index: nat)
    modifies handler
    ensures handler.calls == old(handler.calls) + [index]
  {
    handler.Call(index);
  }

  /** `Menu`: a menu id and the handler that answers for it. */
  class Menu {
    const id: Menus.MenuId
    const handler: Closure
    var dropped: bool

    /** `new`: stores exactly the id and handler given. */
    constructor (id: Menus.MenuId, handler: Closure)
      ensures this.id == id && this.handler == handler && !dropped
    {
      this.id := id;
      this.handler := handler;
      dropped := false;
    }

    /** `Drop`: destroys its own menu and makes no other host call; ownership rules out a second drop. */
    method Drop(host: Xplm.Host)
      requires !dropped
      modifies this, host
      ensures dropped
      ensures host.state == old(host.state).(menus := old(host.state).menus - {id.raw})
      ensures host.calls == old(host.calls) + [Xplm.HostCall.DestroyMenu(id.raw)]
    {
      Menus.DestroyMenu(host, id);
      dropped := true;
    }
  }
}
