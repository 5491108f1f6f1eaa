/** Whether a window consumed an event (src/api/display/event.rs). */
module Events {
  datatype EventState = Consume | Propagate

  /** `From<EventState> for c_int`: the discriminant. */
  function Code(e: EventState): (c: int)
    ensures c == 0 || c == 1
    ensures c == 1 <==> e == Consume
  {
    match e
    case Consume => 1
    case Propagate => 0
  }

  lemma CodeInjective(a: EventState, b: EventState)
    ensures Code(a) == Code(b) ==> a == b
  {
  }
}
