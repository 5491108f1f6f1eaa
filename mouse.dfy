/** Mouse button states (src/api/display/mouse.rs). */
module Mouse {
  import opened Wrappers
  import opened DisplayErrors

  datatype MouseStatus = Up | Down | Drag

  // XPLMMouseStatus values of the XPLM SDK (XPLMDisplay.h).
  const MOUSE_DOWN := 1
  const MOUSE_DRAG := 2
  const MOUSE_UP := 3

  /** The SDK value of each status. */
  function Code(s: MouseStatus): int {
    match s
    case Up => MOUSE_UP
    case Down => MOUSE_DOWN
    case Drag => MOUSE_DRAG
  }

  /** `TryFrom<XPLMMouseStatus>`: the three SDK values decode, any other is kept in the error. */
  function TryFrom(value: int): (r: Result<MouseStatus, DisplayError>)
    ensures r.Ok? <==> value == MOUSE_UP || value == MOUSE_DOWN || value == MOUSE_DRAG
    ensures r.Ok? ==> Code(r.value) == value
    ensures r.Err? ==> r.error == UnknownMouseStatuts(value)
  {
    if value == MOUSE_UP then Ok(Up)
    else if value == MOUSE_DOWN then Ok(Down)
    else if value == MOUSE_DRAG then Ok(Drag)
    else Err(UnknownMouseStatuts(value))
  }

  lemma TryFromCode(s: MouseStatus)
    ensures TryFrom(Code(s)) == Ok(s)
  {
  }
}
