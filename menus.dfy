/**
 * Menus (src/api/menus.rs, src/api/menus/menu.rs, src/api/menus/state.rs):
 * menu and item ids, the check state decoding, menu creation and the item
 * operations.
 */
module Menus {
  import opened CTypes
  import opened Wrappers
  import opened Ffi
  import opened MenusErrors
  import Commands
  import Xplm

  /**
   * `MenuId`: a non-null XPLMMenuID. menus.rs and menu.rs each declare a
   * `MenuId` over the same handle; this one datatype stands for both. The
   * menus.rs one has no `Deref` and its callers read the field directly, the
   * menu.rs one implements `Deref`, which `Deref` below models.
   */
  datatype MenuId = MenuId(raw: NonNull)

  /** `TryFrom<XPLMMenuID>`: only the null test decides. */
  function TryFrom(raw: Ptr): (r: Result<MenuId, MenusError>)
    ensures r.Err? <==> raw == NULL
    ensures r.Err? ==> r.error == InvalidId
    ensures r.Ok? ==> Deref(r.value) == raw
  {
    if raw == NULL then Err(InvalidId) else Ok(MenuId(raw))
  }

  /** `Deref`. */
  function Deref(id: MenuId): Ptr {
    id.raw
  }

  lemma TryFromDeref(id: MenuId)
    ensures TryFrom(Deref(id)) == Ok(id)
  {
  }

  /** `MenuItemId`: an item index the host answered, never negative. */
  datatype MenuItemId = MenuItemId(index: nat)

  /** `TryFrom<c_int>`: a negative index is the host's failure. */
  function ItemTryFrom(value: int): (r: Result<MenuItemId, MenusError>)
    ensures r.Err? <==> value < 0
    ensures r.Err? ==> r.error == InvalidMenuItemId
    ensures r.Ok? ==> r.value.index == value
  {
    if value < 0 then Err(InvalidMenuItemId) else Ok(MenuItemId(value))
  }

  // XPLMMenuCheck values of the XPLM SDK (XPLMMenus.h).
  const MENU_NO_CHECK := 0
  const MENU_UNCHECKED := 1
  const MENU_CHECKED := 2

  /** `MenuItemState`. */
  datatype MenuItemState = Checked | Unchecked | NoCheck

  /** The SDK value of each state. */
  function StateCode(s: MenuItemState): int {
    match s
    case Checked => MENU_CHECKED
    case Unchecked => MENU_UNCHECKED
    case NoCheck => MENU_NO_CHECK
  }

  /** `TryFrom<XPLMMenuCheck>`: the three SDK values decode, any other is kept in the error. */
  function StateTryFrom(value: int): (r: Result<MenuItemState, MenusError>)
    ensures r.Ok? <==> value == MENU_NO_CHECK || value == MENU_UNCHECKED || value == MENU_CHECKED
    ensures r.Ok? ==> StateCode(r.value) == value
    ensures r.Err? ==> r.error == UnknownMenuItemState(value)
  {
    match value
    case 0 => Ok(NoCheck)
    case 1 => Ok(Unchecked)
    case 2 => Ok(Checked)
    case _ => Err(UnknownMenuItemState(value))
  }

  lemma StateTryFromCode(s: MenuItemState)
    ensures StateTryFrom(StateCode(s)) == Ok(s)
  {
  }

  /**
   * `create_menu`: a name with a NUL is `InvalidMenuName` and never reaches
   * the host; otherwise a top-level menu without handler is created, and a
   * null answer is `InvalidId`.
   */
  method CreateMenu(host: Xplm.Host, name: seq<Byte>) returns (r: Result<MenuId, MenusError>)
    modifies host
    ensures NUL in name ==> r == Err(InvalidMenuName(CStringNew(name).error)) && unchanged(host)
    ensures NUL !in name ==>
              && host.calls == old(host.calls) + [Xplm.HostCall.CreateMenu(Some(name), NULL, 0, None)]
              && (r.Err? <==> old(host.state.nextHandle) == NULL)
              && (r.Err? ==> r.error == InvalidId && host.state == old(host.state))
              && (r.Ok? ==> Deref(r.value) == old(host.state.nextHandle)
                            && host.state == old(host.state).AfterCreate().(menus := old(host.state).menus[r.value.raw := []]))
  {
    var nameC :- CStringNew(name).MapError(e => InvalidMenuName(e));
    var id := host.CreateMenu(Some(nameC), NULL, 0, None);
    r := TryFrom(id);
  }

  /**
   * `create_sub_menu`: a nameless menu under the given item, with the
   * (empty) menu handler trampoline; a null answer is `InvalidId`.
   */
  method CreateSubMenu(host: Xplm.Host, parentMenu: MenuId, parentItem: MenuItemId) returns (r: Result<MenuId, MenusError>)
    modifies host
    ensures host.calls == old(host.calls) + [Xplm.HostCall.CreateMenu(None, parentMenu.raw, parentItem.index, Some(Xplm.MenuHandlerFn))]
    ensures r.Err? <==> old(host.state.nextHandle) == NULL
    ensures r.Err? ==> r.error == InvalidId && host.state == old(host.state)
    ensures r.Ok? ==> Deref(r.value) == old(host.state.nextHandle)
                      && host.state == old(host.state).AfterCreate().(menus := old(host.state).menus[r.value.raw := []])
  {
    var id := host.CreateMenu(None, Deref(parentMenu), parentItem.index, Some(Xplm.MenuHandlerFn));
    r := TryFrom(id);
  }

  /** `destroy_menu`. */
  method DestroyMenu(host: Xplm.Host, id: MenuId)
    modifies host
    ensures host.state == old(host.state).(menus := old(host.state).menus - {id.raw})
    ensures host.calls == old(host.calls) + [Xplm.HostCall.DestroyMenu(id.raw)]
  {
    host.DestroyMenu(Deref(id));
  }

  /** The items of a menu the host knows, after `text` was appended with `command`. */
  function Appended(s: Xplm.HostState, menu: Ptr, text: CStr, command: Ptr): Xplm.HostState
    requires menu in s.menus
  {
    s.(menus := s.menus[menu := s.menus[menu] + [Xplm.MenuItem(text, command, 0, 1)]])
  }

  /**
   * `append_menu_item`: a text with a NUL is `InvalidMenuName` and never
   * reaches the host; otherwise the index the host answers is the item id,
   * and a negative one is `InvalidMenuItemId`.
   */
  method AppendMenuItem(host: Xplm.Host, parent: MenuId, text: seq<Byte>) returns (r: Result<MenuItemId, MenusError>)
    modifies host
    ensures NUL in text ==> r == Err(InvalidMenuName(CStringNew(text).error)) && unchanged(host)
    ensures NUL !in text ==>
              && host.calls == old(host.calls) + [Xplm.HostCall.AppendMenuItem(parent.raw, text)]
              && (r.Err? <==> parent.raw !in old(host.state.menus))
              && (r.Err? ==> r.error == InvalidMenuItemId && host.state == old(host.state))
              && (r.Ok? ==> parent.raw in old(host.state.menus)
                            && r.value.index == |old(host.state.menus[parent.raw])|
                            && host.state == Appended(old(host.state), parent.raw, text, NULL))
  {
    var textC :- CStringNew(text).MapError(e => InvalidMenuName(e));
    var index := host.AppendMenuItem(Deref(parent), textC);
    r := ItemTryFrom(index);
  }

  /** `append_menu_item_with_command`: as `append_menu_item`, with the command attached to the item. */
  method AppendMenuItemWithCommand(host: Xplm.Host, parent: MenuId, text: seq<Byte>, command: Commands.Command)
    returns (r: Result<MenuItemId, MenusError>)
    modifies host
    ensures NUL in text ==> r == Err(InvalidMenuName(CStringNew(text).error)) && unchanged(host)
    ensures NUL !in text ==>
              && host.calls == old(host.calls) + [Xplm.HostCall.AppendMenuItemWithCommand(parent.raw, text, command.raw)]
              && (r.Err? <==> parent.raw !in old(host.state.menus))
              && (r.Err? ==> r.error == InvalidMenuItemId && host.state == old(host.state))
              && (r.Ok? ==> parent.raw in old(host.state.menus)
                            && r.value.index == |old(host.state.menus[parent.raw])|
                            && host.state == Appended(old(host.state), parent.raw, text, command.raw))
  {
    var textC :- CStringNew(text).MapError(e => InvalidMenuName(e));
    var index := host.AppendMenuItemWithCommand(Deref(parent), textC, Commands.Deref(command));
    r := ItemTryFrom(index);
  }

  /** The host state after the item's check mark was set to `check`. */
  function WithCheck(s: Xplm.HostState, menu: Ptr, item: nat, check: int): Xplm.HostState {
    if menu in s.menus && item < |s.menus[menu]|
    then s.(menus := s.menus[menu := s.menus[menu][item := s.menus[menu][item].(check := check)]])
    else s
  }

  /** The host state after the item was enabled (1) or disabled (0). */
  function WithEnabled(s: Xplm.HostState, menu: Ptr, item: nat, enabled: int): Xplm.HostState {
    if menu in s.menus && item < |s.menus[menu]|
    then s.(menus := s.menus[menu := s.menus[menu][item := s.menus[menu][item].(enabled := enabled)]])
    else s
  }

  /** `check_menu_item`: the Checked value. */
  method CheckMenuItem(host: Xplm.Host, parent: MenuId, item: MenuItemId)
    modifies host
    ensures host.state == WithCheck(old(host.state), parent.raw, item.index, StateCode(Checked))
    ensures host.calls == old(host.calls) + [Xplm.HostCall.CheckMenuItem(parent.raw, item.index, MENU_CHECKED)]
  {
    host.CheckMenuItem(Deref(parent), item.index, MENU_CHECKED);
  }

  /** `uncheck_menu_item`: the Unchecked value. */
  method UncheckMenuItem(host: Xplm.Host, parent: MenuId, item: MenuItemId)
    modifies host
    ensures host.state == WithCheck(old(host.state), parent.raw, item.index, StateCode(Unchecked))
    ensures host.calls == old(host.calls) + [Xplm.HostCall.CheckMenuItem(parent.raw, item.index, MENU_UNCHECKED)]
  {
    host.CheckMenuItem(Deref(parent), item.index, MENU_UNCHECKED);
  }

  /**
   * `check_menu_item_state`: exactly the decoding of what the host wrote
   * into a zero-initialised out-parameter.
   */
  method CheckMenuItemState(host: Xplm.Host, parent: MenuId, item: MenuItemId) returns (r: Result<MenuItemState, MenusError>)
    modifies host
    ensures r == StateTryFrom(if host.HasItem(parent.raw, item.index) then host.state.menus[parent.raw][item.index].check else 0)
    ensures host.state == old(host.state)
    ensures host.calls == old(host.calls) + [Xplm.HostCall.CheckMenuItemState(parent.raw, item.index)]
  {
    var state := host.CheckMenuItemState(Deref(parent), item.index, 0);
    r := StateTryFrom(state);
  }

  /** `enable_menu_item`: 1. */
  method EnableMenuItem(host: Xplm.Host, parent: MenuId, item: MenuItemId)
    modifies host
    ensures host.state == WithEnabled(old(host.state), parent.raw, item.index, 1)
    ensures host.calls == old(host.calls) + [Xplm.HostCall.EnableMenuItem(parent.raw, item.index, 1)]
  {
    host.EnableMenuItem(Deref(parent), item.index, 1);
  }

  /** `disable_menu_item`: 0. */
  method DisableMenuItem(host: Xplm.Host, parent: MenuId, item: MenuItemId)
    modifies host
    ensures host.state == WithEnabled(old(host.state), parent.raw, item.index, 0)
    ensures host.calls == old(host.calls) + [Xplm.HostCall.EnableMenuItem(parent.raw, item.index, 0)]
  {
    host.EnableMenuItem(Deref(parent), item.index, 0);
  }

  /**
   * Checking or unchecking an item the host knows and then asking for its
   * state answers the state just set.
   */
  method SetThenQuery(host: Xplm.Host, parent: MenuId, item: MenuItemId, check: bool) returns (r: Result<MenuItemState, MenusError>)
    requires host.HasItem(parent.raw, item.index)
    modifies host
    ensures r == Ok(if check then Checked else Unchecked)
  {
    if check {
      CheckMenuItem(host, parent, item);
    } else {
      UncheckMenuItem(host, parent, item);
    }
    r := CheckMenuItemState(host, parent, item);
  }

  /** An item appended to a fresh menu and then checked reads back as checked. */
  method AppendCheckQuery(host: Xplm.Host, name: seq<Byte>, text: seq<Byte>) returns (r: Result<MenuItemState, MenusError>)
    modifies host
    ensures NUL !in name && NUL !in text && old(host.state.nextHandle) != NULL ==> r == Ok(Checked)
  {
    var menu :- CreateMenu(host, name);
    var item :- AppendMenuItem(host, menu, text);
    r := SetThenQuery(host, menu, item, true);
  }
}
