/**
 * The closure-based flight loop variant (src/api/processing/handler.rs): its
 * own id wrapper, closures as handlers, and a `FlightLoop` that destroys its
 * loop when it goes away.
 */
module ProcessingHandler {
  import opened CTypes
  import opened Wrappers
  import opened ProcessingErrors
  import Processing
  import Xplm

  /** `FlightLoopId` of handler.rs. */
  datatype FlightLoopId = FlightLoopId(raw: NonNull)

  function TryFrom(raw: Ptr): (r: Result<FlightLoopId, ProcessingError>)
    ensures r.Err? <==> raw == NULL
    ensures r.Err? ==> r.error == InvalidFlightLoopId
    ensures r.Ok? ==> Native(r.value) == raw
  {
    if raw == NULL then Err(InvalidFlightLoopId) else Ok(FlightLoopId(raw))
  }

  function Native(id: FlightLoopId): Ptr {
    id.raw
  }

  lemma TryFromNative(id: FlightLoopId)
    ensures TryFrom(Native(id)) == Ok(id)
  {
  }

  /**
   * A `FnMut(f32, f32, i32) -> f32` closure: what it answers may depend on
   * the calls it has seen, which it records.
   */
  class Closure {
    var received: seq<Processing.FlightLoopCall>
    const body: (seq<Processing.FlightLoopCall>, Processing.FlightLoopCall) -> Xplm.Value

    constructor (body: (seq<Processing.FlightLoopCall>, Processing.FlightLoopCall) -> Xplm.Value)
      ensures this.body == body && received == []
    {
      this.body := body;
      received := [];
    }

    method Call(sinceLastCall: Xplm.Value, sinceLastFlightLoop: Xplm.Value, counter: I32) returns (next: Xplm.Value)
      modifies this
      ensures next == body(old(received), Processing.FlightLoopCall(sinceLastCall, sinceLastFlightLoop, counter))
      ensures received == old(received) + [Processing.FlightLoopCall(sinceLastCall, sinceLastFlightLoop, counter)]
    {
      next := body(received, Processing.FlightLoopCall(sinceLastCall, sinceLastFlightLoop, counter));
      received := received + [Processing.FlightLoopCall(sinceLastCall, sinceLastFlightLoop, counter)];
    }
  }

  /** The blanket `FlightLoopHandler` impl for closures: the closure gets the arguments as they came. */
  method HandleFlightLoop(closure: Closure, sinceLastCall: Xplm.Value, sinceLastFlightLoop: Xplm.Value, counter: I32)
    returns (next: Xplm.Value)
    modifies closure
    ensures next == closure.body(old(closure.received), Processing.FlightLoopCall(sinceLastCall, sinceLastFlightLoop, counter))
    ensures closure.received == old(closure.received) + [Processing.FlightLoopCall(sinceLastCall, sinceLastFlightLoop, counter)]
  {
    next := closure.Call(sinceLastCall, sinceLastFlightLoop, counter);
  }

  /** `FlightLoop`: a loop id and the handler it was created with. */
  class FlightLoop {
    const id: FlightLoopId
    const link: Closure
    var dropped: bool

    /** `new`: stores exactly the id and handler given. */
    constructor (id: FlightLoopId, link: Closure)
      ensures this.id == id && this.link == link && !dropped
    {
      this.id := id;
      this.link := link;
      dropped := false;
    }

    /** `Drop`: destroys its own loop, once, and makes no other host call. */
    method Drop(host: Xplm.Host)
      requires !dropped
      modifies this, host
      ensures dropped
      ensures host.state == old(host.state).(flightLoops := old(host.state).flightLoops - {id.raw},
                                             schedules := old(host.state).schedules - {id.raw})
      ensures host.calls == old(host.calls) + [Xplm.HostCall.DestroyFlightLoop(id.raw)]
    {
      Processing.DestroyFlightLoop(host, Processing.FlightLoopId(Native(id)));
      dropped := true;
    }
  }
}
