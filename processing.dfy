/**
 * Flight loops (src/api/processing.rs, src/api/processing/flight_loop.rs,
 * phase.rs and interval.rs): the id, the phase and interval encodings, the
 * handler link the host calls back through, and the record that destroys
 * the loop when it goes away.
 */
module Processing {
  import opened CTypes
  import opened Wrappers
  import opened ProcessingErrors
  import Xplm

  /** `FlightLoopId` of flight_loop.rs. */
  datatype FlightLoopId = FlightLoopId(raw: NonNull)

  /** `TryFrom<XPLMFlightLoopID>`. */
  function TryFrom(raw: Ptr): (r: Result<FlightLoopId, ProcessingError>)
    ensures r.Err? <==> raw == NULL
    ensures r.Err? ==> r.error == InvalidFlightLoopId
    ensures r.Ok? ==> Native(r.value) == raw
  {
    if raw == NULL then Err(InvalidFlightLoopId) else Ok(FlightLoopId(raw))
  }

  /** `native`. */
  function Native(id: FlightLoopId): Ptr {
    id.raw
  }

  lemma TryFromNative(id: FlightLoopId)
    ensures TryFrom(Native(id)) == Ok(id)
  {
  }

  /** `FlightLoopPhaseType`. */
  datatype FlightLoopPhaseType = BeforeFlightModel | AfterFlightModel

  /** `FlightLoopPhaseType::native`. */
  function PhaseNative(phase: FlightLoopPhaseType): (c: int)
    ensures c == 0 || c == 1
    ensures c == 0 <==> phase == BeforeFlightModel
  {
    match phase
    case BeforeFlightModel => 0
    case AfterFlightModel => 1
  }

  lemma PhaseNativeInjective(a: FlightLoopPhaseType, b: FlightLoopPhaseType)
    ensures PhaseNative(a) == PhaseNative(b) ==> a == b
  {
  }

  /** `FlightLoopInterval`; the interval itself is an opaque float. */
  datatype FlightLoopInterval = RelativeToCurrent(value: Xplm.Value) | RelativeToStart(value: Xplm.Value)

  /** The value and relation `schedule_flight_loop` passes for an interval. */
  function IntervalArguments(interval: FlightLoopInterval): (r: (Xplm.Value, int))
    ensures r.0 == interval.value
    ensures r.1 == 0 || r.1 == 1
    ensures r.1 == 1 <==> interval.RelativeToCurrent?
  {
    match interval
    case RelativeToCurrent(value) => (value, 1)
    case RelativeToStart(value) => (value, 0)
  }

  /** The relation is enough to rebuild the interval from what the host got. */
  lemma IntervalArgumentsInjective(a: FlightLoopInterval, b: FlightLoopInterval)
    ensures IntervalArguments(a) == IntervalArguments(b) ==> a == b
  {
  }

  /** The three arguments of one flight loop callback. */
  datatype FlightLoopCall = FlightLoopCall(sinceLastCall: Xplm.Value, sinceLastFlightLoop: Xplm.Value, counter: I32)

  /**
   * A plugin's `FlightLoopHandler`: it records the calls it got, and the
   * interval it answers is a function of them.
   */
  class FlightLoopHandler {
    var received: seq<FlightLoopCall>
    const respond: (seq<FlightLoopCall>, FlightLoopCall) -> Xplm.Value

    constructor (respond: (seq<FlightLoopCall>, FlightLoopCall) -> Xplm.Value)
      ensures this.respond == respond && received == []
    {
      this.respond := respond;
      received := [];
    }

    method HandleFlightLoop(sinceLastCall: Xplm.Value, sinceLastFlightLoop: Xplm.Value, counter: I32) returns (next: Xplm.Value)
      modifies this
      ensures next == respond(old(received), FlightLoopCall(sinceLastCall, sinceLastFlightLoop, counter))
      ensures received == old(received) + [FlightLoopCall(sinceLastCall, sinceLastFlightLoop, counter)]
    {
      next := respond(received, FlightLoopCall(sinceLastCall, sinceLastFlightLoop, counter));
      received := received + [FlightLoopCall(sinceLastCall, sinceLastFlightLoop, counter)];
    }
  }

  /** `FlightLoopLink`: the boxed handler the host's refcon points at. */
  class FlightLoopLink {
    const handler: FlightLoopHandler

    constructor (handler: FlightLoopHandler)
      ensures this.handler == handler
    {
      this.handler := handler;
    }

    /** Forwards the three arguments unchanged and answers the handler's answer. */
    method HandleFlightLoop(sinceLastCall: Xplm.Value, sinceLastFlightLoop: Xplm.Value, counter: I32) returns (next: Xplm.Value)
      modifies handler
      ensures next == handler.respond(old(handler.received), FlightLoopCall(sinceLastCall, sinceLastFlightLoop, counter))
      ensures handler.received == old(handler.received) + [FlightLoopCall(sinceLastCall, sinceLastFlightLoop, counter)]
    {
      next := handler.HandleFlightLoop(sinceLastCall, sinceLastFlightLoop, counter);
    }
  }

  /** `handle_flight_loop`, the trampoline: the refcon is the link. */
  method HandleFlightLoopTrampoline(sinceLastCall: Xplm.Value, sinceLastFlightLoop: Xplm.Value, counter: I32, refcon: FlightLoopLink)
    returns (next: Xplm.Value)
    modifies refcon.handler
    ensures next == refcon.handler.respond(old(refcon.handler.received), FlightLoopCall(sinceLastCall, sinceLastFlightLoop, counter))
    ensures refcon.handler.received == old(refcon.handler.received) + [FlightLoopCall(sinceLastCall, sinceLastFlightLoop, counter)]
  {
    next := refcon.HandleFlightLoop(sinceLastCall, sinceLastFlightLoop, counter);
  }

  /** `destroy_flight_loop`. */
  method DestroyFlightLoop(host: Xplm.Host, id: FlightLoopId)
    modifies host
    ensures host.state == old(host.state).(flightLoops := old(host.state).flightLoops - {id.raw},
                                           schedules := old(host.state).schedules - {id.raw})
    ensures host.calls == old(host.calls) + [Xplm.HostCall.DestroyFlightLoop(id.raw)]
  {
    host.DestroyFlightLoop(Native(id));
  }

  /** `schedule_flight_loop`: one host call with the interval's value and relation. */
  method ScheduleFlightLoop(host: Xplm.Host, id: FlightLoopId, interval: FlightLoopInterval)
    modifies host
    ensures var (value, relation) := IntervalArguments(interval);
      && host.calls == old(host.calls) + [Xplm.HostCall.ScheduleFlightLoop(id.raw, value, relation)]
      && (id.raw in old(host.state.flightLoops) ==>
            host.state == old(host.state).(schedules := old(host.state).schedules[id.raw := Xplm.Schedule(value, relation)]))
      && (id.raw !in old(host.state.flightLoops) ==> host.state == old(host.state))
  {
    var (value, relation) := IntervalArguments(interval);
    host.ScheduleFlightLoop(Native(id), value, relation);
  }

  /** `FlightLoopRecord`: keeps the loop alive until it is dropped. */
  class FlightLoopRecord {
    const id: FlightLoopId
    const link: FlightLoopLink
    var dropped: bool

    /** `new`: stores exactly the id and link given. */
    constructor (id: FlightLoopId, link: FlightLoopLink)
      ensures this.id == id && this.link == link && !dropped
    {
      this.id := id;
      this.link := link;
      dropped := false;
    }

    /** `Drop`: destroys its own loop, once. */
    method Drop(host: Xplm.Host)
      requires !dropped
      modifies this, host
      ensures dropped
      ensures host.state == old(host.state).(flightLoops := old(host.state).flightLoops - {id.raw},
                                             schedules := old(host.state).schedules - {id.raw})
      ensures host.calls == old(host.calls) + [Xplm.HostCall.DestroyFlightLoop(id.raw)]
    {
      DestroyFlightLoop(host, id);
      dropped := true;
    }
  }

  /**
   * `create_flight_loop`: the host gets the phase's code, the trampoline and
   * a fresh link to the handler; a null id is `InvalidFlightLoopId` and
   * leaves no record behind, so nothing is ever destroyed for it.
   */
  method CreateFlightLoop(host: Xplm.Host, phase: FlightLoopPhaseType, handler: FlightLoopHandler)
    returns (r: Result<FlightLoopRecord, ProcessingError>, ghost link: FlightLoopLink)
    modifies host
    ensures fresh(link) && link.handler == handler
    ensures var params := Xplm.FlightLoopParams(PhaseNative(phase), Xplm.FlightLoopFn, link);
      && host.calls == old(host.calls) + [Xplm.HostCall.CreateFlightLoop(params)]
      && (r.Err? <==> old(host.state.nextHandle) == NULL)
      && (r.Err? ==> r.error == InvalidFlightLoopId && host.state == old(host.state))
      && (r.Ok? ==> && fresh(r.value) && !r.value.dropped
                    && r.value.id.raw == old(host.state.nextHandle) && r.value.link == link
                    && host.state == old(host.state).AfterCreate().(flightLoops := old(host.state).flightLoops[r.value.id.raw := params]))
  {
    var l := new FlightLoopLink(handler);
    link := l;
    var params := Xplm.FlightLoopParams(PhaseNative(phase), Xplm.FlightLoopFn, l);
    var id := host.CreateFlightLoop(params);
    var flightLoopId :- TryFrom(id);
    var record := new FlightLoopRecord(flightLoopId, l);
    r := Ok(record);
  }

  /**
   * Creating a loop, scheduling it and dropping its record leaves neither
   * the loop nor its schedule registered with the host.
   */
  method CreateScheduleDrop(host: Xplm.Host, phase: FlightLoopPhaseType, handler: FlightLoopHandler, interval: FlightLoopInterval)
    returns (r: Result<Ptr, ProcessingError>)
    modifies host
    ensures r.Err? ==> host.state == old(host.state)
    ensures r.Ok? ==> r.value !in host.state.flightLoops && r.value !in host.state.schedules
    ensures r.Ok? ==> |host.calls| > 0 && host.calls[|host.calls| - 1] == Xplm.HostCall.DestroyFlightLoop(r.value)
  {
    var created, _ := CreateFlightLoop(host, phase, handler);
    var record :- created;
    ScheduleFlightLoop(host, record.id, interval);
    record.Drop(host);
    r := Ok(record.id.raw);
  }
}
