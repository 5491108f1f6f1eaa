/**
 * Commands and command handlers (src/api/utilities/command.rs), with the
 * handler registration, its trampoline and its teardown from
 * src/api/utilities.rs, which need the link and the record.
 */
module Commands {
  import opened CTypes
  import opened Wrappers
  import opened UtilitiesErrors
  import Xplm

  /** `Command`: a non-null command reference. */
  datatype Command = Command(raw: NonNull)

  /** `TryFrom<XPLMCommandRef>`. */
  function TryFrom(raw: Ptr): (r: Result<Command, UtilitiesError>)
    ensures r.Err? <==> raw == NULL
    ensures r.Err? ==> r.error == InvalidCommand
    ensures r.Ok? ==> Deref(r.value) == raw
  {
    if raw == NULL then Err(InvalidCommand) else Ok(Command(raw))
  }

  /** `Deref`. */
  function Deref(c: Command): Ptr {
    c.raw
  }

  lemma TryFromDeref(c: Command)
    ensures TryFrom(Deref(c)) == Ok(c)
  {
  }

  /** `Command::once` through `command_once`: one host call. */
  method Once(host: Xplm.Host, c: Command)
    modifies host
    ensures host.state == old(host.state)
    ensures host.calls == old(host.calls) + [Xplm.HostCall.CommandOnce(c.raw)]
  {
    host.CommandOnce(Deref(c));
  }

  /** `Command::begin` through `command_begin`. */
  method Begin(host: Xplm.Host, c: Command)
    modifies host
    ensures host.state == old(host.state)
    ensures host.calls == old(host.calls) + [Xplm.HostCall.CommandBegin(c.raw)]
  {
    host.CommandBegin(Deref(c));
  }

  /** `Command::end` through `command_end`. */
  method End(host: Xplm.Host, c: Command)
    modifies host
    ensures host.state == old(host.state)
    ensures host.calls == old(host.calls) + [Xplm.HostCall.CommandEnd(c.raw)]
  {
    host.CommandEnd(Deref(c));
  }

  /** The three callbacks of a `CommandHandler`. */
  datatype CommandEvent = Began | Continued | Ended

  /** A plugin's `CommandHandler`; what it does is summed up by the callbacks it received. */
  class CommandHandler {
    var events: seq<CommandEvent>

    constructor ()
      ensures events == []
    {
      events := [];
    }

    method CommandBegin()
      modifies this
      ensures events == old(events) + [Began]
    {
      events := events + [Began];
    }

    method CommandContinue()
      modifies this
      ensures events == old(events) + [Continued]
    {
      events := events + [Continued];
    }

    method CommandEnd()
      modifies this
      ensures events == old(events) + [Ended]
    {
      events := events + [Ended];
    }
  }

  /** `CommandLink`: the command a handler was registered for, and the handler. */
  class CommandLink {
    const command: Ptr
    const handler: CommandHandler

    constructor (command: Ptr, handler: CommandHandler)
      ensures this.command == command && this.handler == handler
    {
      this.command := command;
      this.handler := handler;
    }

    /** `links_with`: the stored command is the one the host names. */
    predicate LinksWith(c: Ptr) {
      command == c
    }

    /** The link's `CommandHandler` impl forwards each callback once to its handler. */
    method CommandBegin()
      modifies handler
      ensures handler.events == old(handler.events) + [Began]
    {
      handler.CommandBegin();
    }

    method CommandContinue()
      modifies handler
      ensures handler.events == old(handler.events) + [Continued]
    {
      handler.CommandContinue();
    }

    method CommandEnd()
      modifies handler
      ensures handler.events == old(handler.events) + [Ended]
    {
      handler.CommandEnd();
    }
  }

  /** `CommandExecutionTime`. */
  datatype CommandExecutionTime = BeforeXPlane | AfterXPlane

  /** The `c_int` a `CommandExecutionTime` becomes: its discriminant. */
  function ExecutionTimeCode(t: CommandExecutionTime): (c: int)
    ensures c == 0 || c == 1
    ensures c == 1 <==> t == BeforeXPlane
  {
    match t
    case BeforeXPlane => 1
    case AfterXPlane => 0
  }

  lemma ExecutionTimeCodeInjective(a: CommandExecutionTime, b: CommandExecutionTime)
    ensures ExecutionTimeCode(a) == ExecutionTimeCode(b) ==> a == b
  {
  }

  /** The host's command phases. */
  const COMMAND_BEGIN := 0
  const COMMAND_CONTINUE := 1
  const COMMAND_END := 2

  /**
   * `command_handler`, the trampoline the host calls with the link as refcon:
   * a call for another command reaches no handler, a call for the link's
   * command reaches the callback of its phase and an unknown phase none. It
   * answers 1 on every path.
   */
  method CommandHandlerTrampoline(command: Ptr, phase: int, link: CommandLink) returns (r: int)
    modifies link.handler
    ensures r == 1
    ensures !link.LinksWith(command) ==> link.handler.events == old(link.handler.events)
    ensures link.LinksWith(command) && phase == COMMAND_BEGIN ==> link.handler.events == old(link.handler.events) + [Began]
    ensures link.LinksWith(command) && phase == COMMAND_CONTINUE ==> link.handler.events == old(link.handler.events) + [Continued]
    ensures link.LinksWith(command) && phase == COMMAND_END ==> link.handler.events == old(link.handler.events) + [Ended]
    ensures phase != COMMAND_BEGIN && phase != COMMAND_CONTINUE && phase != COMMAND_END
      ==> link.handler.events == old(link.handler.events)
  {
    var continueExecution := 1;
    var terminateExecution := 1;
    if link.LinksWith(command) {
      if phase == COMMAND_BEGIN {
        link.CommandBegin();
      } else if phase == COMMAND_CONTINUE {
        link.CommandContinue();
      } else if phase == COMMAND_END {
        link.CommandEnd();
      }
      r := terminateExecution;
    } else {
      r := continueExecution;
    }
  }

  /** `CommandHandlerRecord`: keeps a registration alive until it is dropped. */
  class CommandHandlerRecord {
    const link: CommandLink
    const executionTime: CommandExecutionTime
    var dropped: bool

    constructor (link: CommandLink, executionTime: CommandExecutionTime)
      ensures this.link == link && this.executionTime == executionTime && !dropped
    {
      this.link := link;
      this.executionTime := executionTime;
      dropped := false;
    }

    /** The tuple registration and unregistration both hand to the host. */
    function Registration(): Xplm.CommandRegistration {
      Xplm.CommandRegistration(link.command, Xplm.CommandHandlerFn, ExecutionTimeCode(executionTime), link)
    }

    /** `Drop`: unregisters itself, once; ownership rules out a second drop. */
    method Drop(host: Xplm.Host)
      requires !dropped
      modifies this, host
      ensures dropped
      ensures host.state == old(host.state).(commandHandlers := old(host.state).commandHandlers - {Registration()})
      ensures host.calls == old(host.calls) + [Xplm.HostCall.UnregisterCommandHandler(Registration())]
    {
      UnregisterCommandHandler(host, this);
      dropped := true;
    }
  }

  /**
   * `register_command_handler`: a fresh link for the command and handler is
   * registered with the trampoline, the time's code and the link as refcon,
   * and the record keeps that link and time.
   */
  method RegisterCommandHandler(host: Xplm.Host, command: Command, executionTime: CommandExecutionTime, handler: CommandHandler)
    returns (record: CommandHandlerRecord)
    modifies host
    ensures fresh(record) && fresh(record.link) && !record.dropped
    ensures record.link.command == command.raw && record.link.handler == handler
    ensures record.executionTime == executionTime
    ensures record.Registration() == Xplm.CommandRegistration(command.raw, Xplm.CommandHandlerFn, ExecutionTimeCode(executionTime), record.link)
    ensures record.Registration() !in old(host.state.commandHandlers)
    ensures host.state == old(host.state).(commandHandlers := old(host.state).commandHandlers + {record.Registration()})
    ensures host.calls == old(host.calls) + [Xplm.HostCall.RegisterCommandHandler(record.Registration())]
  {
    var link := new CommandLink(Deref(command), handler);
    host.RegisterCommandHandler(Xplm.CommandRegistration(Deref(command), Xplm.CommandHandlerFn, ExecutionTimeCode(executionTime), link));
    record := new CommandHandlerRecord(link, executionTime);
  }

  /** `unregister_command_handler`: hands back the record's own tuple. */
  method UnregisterCommandHandler(host: Xplm.Host, record: CommandHandlerRecord)
    modifies host
    ensures host.state == old(host.state).(commandHandlers := old(host.state).commandHandlers - {record.Registration()})
    ensures host.calls == old(host.calls) + [Xplm.HostCall.UnregisterCommandHandler(record.Registration())]
  {
    host.UnregisterCommandHandler(record.Registration());
  }

  /**
   * Registering a handler and dropping its record leaves the host's
   * registrations as they were, with one registration and one matching
   * unregistration logged.
   */
  method RegisterThenDrop(host: Xplm.Host, command: Command, executionTime: CommandExecutionTime, handler: CommandHandler)
    modifies host
    ensures host.state == old(host.state)
    ensures |host.calls| == |old(host.calls)| + 2
    ensures host.calls[|host.calls| - 2].RegisterCommandHandler?
    ensures host.calls[|host.calls| - 1] == Xplm.HostCall.UnregisterCommandHandler(host.calls[|host.calls| - 2].registration)
  {
    var record := RegisterCommandHandler(host, command, executionTime, handler);
    record.Drop(host);
  }
}
