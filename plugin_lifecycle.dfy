/**
 * The plugin entry points the `register!` macro generates (src/plugin.rs):
 * a once-initialised slot holding the plugin instance, and the five
 * functions the host calls to start, stop, enable, disable and message it.
 */
module PluginLifecycle {
  import opened Wrappers
  import opened CTypes

  // The values the entry points answer.
  const XP_RESULT_OK := 1
  const XP_RESULT_ERR := 0

  /** The callbacks an instance received after it was started. */
  datatype PluginEvent = Stopped | Enabled | Disabled

  /**
   * A started `XPlugin` instance: what it does is summed up by the callbacks
   * it received, and whether `enable` succeeds is a function of them.
   */
  class Plugin {
    var events: seq<PluginEvent>
    const enableSucceeds: seq<PluginEvent> -> bool

    constructor (enableSucceeds: seq<PluginEvent> -> bool)
      ensures this.enableSucceeds == enableSucceeds && events == []
    {
      this.enableSucceeds := enableSucceeds;
      events := [];
    }

    method Stop()
      modifies this
      ensures events == old(events) + [Stopped]
    {
      events := events + [Stopped];
    }

    method Enable() returns (ok: bool)
      modifies this
      ensures ok == enableSucceeds(old(events))
      ensures events == old(events) + [Enabled]
    {
      ok := enableSucceeds(events);
      events := events + [Enabled];
    }

    method Disable()
      modifies this
      ensures events == old(events) + [Disabled]
    {
      events := events + [Disabled];
    }
  }

  /**
   * `PLUGIN_INSTANCE` and the entry points around it. `starts` counts the
   * calls to the plugin's `start`; its outcome is what the caller passes.
   */
  class PluginShell {
    var instance: Option<Plugin>
    var starts: nat

    constructor ()
      ensures instance == None && starts == 0
    {
      instance := None;
      starts := 0;
    }

    /**
     * `XPluginStart`: with no instance, `start` runs once and its instance
     * is kept, answering 1, while a failure answers 0 and keeps the slot
     * empty; with an instance, 1 without starting again.
     */
    method XPluginStart(started: Option<Plugin>) returns (r: int)
      modifies this
      ensures old(instance).Some? ==> r == XP_RESULT_OK && instance == old(instance) && starts == old(starts)
      ensures old(instance).None? ==> starts == old(starts) + 1 && instance == started
      ensures old(instance).None? ==> (r == XP_RESULT_OK <==> started.Some?)
      ensures r == XP_RESULT_OK || r == XP_RESULT_ERR
    {
      if instance.None? {
        starts := starts + 1;
        match started
        case Some(plugin) =>
          instance := Some(plugin);
          r := XP_RESULT_OK;
        case None =>
          r := XP_RESULT_ERR;
      } else {
        r := XP_RESULT_OK;
      }
    }

    /** `XPluginStop`: stops the instance if there is one; the slot keeps it. */
    method XPluginStop()
      modifies if instance.Some? then {instance.value} else {}
      ensures instance == old(instance)
      ensures instance.Some? ==> instance.value.events == old(instance.value.events) + [Stopped]
    {
      if instance.Some? {
        instance.value.Stop();
      }
    }

    /** `XPluginEnable`: 0 with no instance, otherwise 1 exactly when `enable` succeeds. */
    method XPluginEnable() returns (r: int)
      modifies if instance.Some? then {instance.value} else {}
      ensures instance == old(instance)
      ensures instance.None? ==> r == XP_RESULT_ERR
      ensures instance.Some? ==>
                && instance.value.events == old(instance.value.events) + [Enabled]
                && (r == XP_RESULT_OK <==> instance.value.enableSucceeds(old(instance.value.events)))
      ensures r == XP_RESULT_OK || r == XP_RESULT_ERR
    {
      if instance.Some? {
        var ok := instance.value.Enable();
        r := if ok then XP_RESULT_OK else XP_RESULT_ERR;
      } else {
        r := XP_RESULT_ERR;
      }
    }

    /** `XPluginDisable`: disables the instance if there is one. */
    method XPluginDisable()
      modifies if instance.Some? then {instance.value} else {}
      ensures instance == old(instance)
      ensures instance.Some? ==> instance.value.events == old(instance.value.events) + [Disabled]
    {
      if instance.Some? {
        instance.value.Disable();
      }
    }

    /** `XPluginReceiveMessage`: the message is ignored and nothing changes. */
    method XPluginReceiveMessage(from: int, message: int, param: Ptr)
      ensures instance == old(instance) && starts == old(starts)
    {
    }
  }

  /**
   * Stopping does not empty the slot: a start after a stop answers 1 and the
   * plugin's `start` is not run a second time.
   */
  method StartStopStart(shell: PluginShell, first: Plugin, second: Option<Plugin>) returns (r1: int, r2: int)
    requires shell.instance.None?
    modifies shell, first
    ensures r1 == XP_RESULT_OK && r2 == XP_RESULT_OK
    ensures shell.instance == Some(first) && shell.starts == old(shell.starts) + 1
    ensures first.events == old(first.events) + [Stopped]
  {
    r1 := shell.XPluginStart(Some(first));
    shell.XPluginStop();
    r2 := shell.XPluginStart(second);
  }
}
