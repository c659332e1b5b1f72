/**
 * The device object of intg_firetv/device.py: the lifecycle of its nullable
 * client (create, connect, disconnect, liveness check) and `send_command`, which
 * translates a command name into at most one client call.
 */
module Device {
  import opened Wrappers
  import opened Text
  import opened Client

  /** Navigation, volume and power commands, keyed by lower-case name. */
  const NavCommands: map<string, ClientCall> := map[
    "dpad_up" := DpadUp, "dpad_down" := DpadDown, "dpad_left" := DpadLeft, "dpad_right" := DpadRight,
    "select" := Select, "home" := Home, "back" := Back, "menu" := Menu, "epg" := Epg,
    "volume_up" := VolumeUp, "volume_down" := VolumeDown, "mute" := Mute,
    "power" := Power, "sleep" := Sleep]

  /** Playback commands, keyed by lower-case name. */
  const MediaCommands: map<string, ClientCall> := map[
    "play_pause" := PlayPause, "pause" := Pause, "fast_forward" := FastForward, "rewind" := Rewind]

  const LaunchPrefix := "LAUNCH_"
  const CustomAppPrefix := "custom_app:"

  /** The attempts and the delay `connect_client` passes to `test_connection`. */
  const ConnectRetries: nat := 3
  const ConnectRetryDelay: real := 2.0

  /** The first registry index at or after `i` whose command name is `target`. */
  function FindFrom(registry: seq<AppEntry>, target: string, i: nat): (r: Option<nat>)
    ensures r.Some? ==> i <= r.value < |registry| && CommandName(registry[r.value].name) == target
    ensures r.Some? ==> forall j | i <= j < r.value :: CommandName(registry[j].name) != target
    ensures r.None? ==> forall j | i <= j < |registry| :: CommandName(registry[j].name) != target
    decreases |registry| - i
  {
    if i >= |registry| then None
    else if CommandName(registry[i].name) == target then Some(i)
    else FindFrom(registry, target, i + 1)
  }

  /**
   * The client call `send_command` makes for `command`, if any: a case-insensitive
   * lookup in the two tables, then `LAUNCH_<NAME>` by registry name, then
   * `custom_app:<package>` when the package is valid.
   */
  function Dispatch(command: string, registry: seq<AppEntry>, validPackage: string -> bool): (r: Option<ClientCall>)
    ensures Lower(command) in NavCommands ==> r == Some(NavCommands[Lower(command)])
    ensures Lower(command) in MediaCommands ==> r == Some(MediaCommands[Lower(command)])
    ensures Lower(command) in NavCommands || Lower(command) in MediaCommands ==> r.Some? && !r.value.LaunchApp?
    ensures r.Some? && r.value.LaunchApp? ==> StartsWith(command, LaunchPrefix) || StartsWith(command, CustomAppPrefix)
    ensures StartsWith(command, LaunchPrefix) ==>
      var target := ReplaceAll(command, LaunchPrefix, "");
      && (r.Some? <==> exists i | 0 <= i < |registry| :: CommandName(registry[i].name) == target)
      && (r.Some? ==> exists i | 0 <= i < |registry| ::
            && CommandName(registry[i].name) == target && r.value == LaunchApp(registry[i].package)
            && forall j | 0 <= j < i :: CommandName(registry[j].name) != target)
    ensures r.Some? && r.value.LaunchApp? && !StartsWith(command, LaunchPrefix) ==> validPackage(r.value.package)
    ensures (&& Lower(command) !in NavCommands && Lower(command) !in MediaCommands
             && !StartsWith(command, LaunchPrefix) && !StartsWith(command, CustomAppPrefix)) ==> r.None?
  {
    TableKeysAvoidLaunch(command);
    var key := Lower(command);
    if key in NavCommands then Some(NavCommands[key])
    else if key in MediaCommands then Some(MediaCommands[key])
    else if StartsWith(command, LaunchPrefix) then
      match FindFrom(registry, ReplaceAll(command, LaunchPrefix, ""), 0)
      case Some(i) => Some(LaunchApp(registry[i].package))
      case None => None
    else if StartsWith(command, CustomAppPrefix) then
      match AfterFirst(command, ':')
      case Some(rest) => if validPackage(Strip(rest)) then Some(LaunchApp(Strip(rest))) else None
      case None => None
    else None
  }

  function CallsOf(call: Option<ClientCall>): seq<ClientCall> {
    if call.Some? then [call.value] else []
  }

  /** No two registry entries share a command name, and no command name contains `LAUNCH_`. */
  predicate LaunchableRegistry(registry: seq<AppEntry>) {
    && (forall j, k | 0 <= j < k < |registry| :: CommandName(registry[j].name) != CommandName(registry[k].name))
    && (forall j | 0 <= j < |registry| :: !Occurs(CommandName(registry[j].name), LaunchPrefix))
  }

  /** No key of either table begins with `l`, so no lower-cased `LAUNCH_` command is a table key. */
  lemma TableKeysAvoidLaunch(command: string)
    ensures StartsWith(command, LaunchPrefix) ==> Lower(command) !in NavCommands && Lower(command) !in MediaCommands
  {
    if StartsWith(command, LaunchPrefix) {
      assert Lower(command)[0] == 'l';
    }
  }

  /** Looking a name up by the command built from it finds that same entry. */
  lemma {:induction false} LaunchRoundTrip(registry: seq<AppEntry>, i: nat, validPackage: string -> bool)
    requires i < |registry| && LaunchableRegistry(registry)
    ensures Dispatch(LaunchPrefix + CommandName(registry[i].name), registry, validPackage)
         == Some(LaunchApp(registry[i].package))
  {
    var name := CommandName(registry[i].name);
    var command := LaunchPrefix + name;
    assert StartsWith(command, LaunchPrefix) by { assert command[..|LaunchPrefix|] == LaunchPrefix; }
    TableKeysAvoidLaunch(command);
    assert ReplaceAll(command, LaunchPrefix, "") == name by {
      assert command[..|LaunchPrefix|] == LaunchPrefix && command[|LaunchPrefix|..] == name;
      ReplaceAbsent(name, LaunchPrefix, "");
    }
    var found := FindFrom(registry, name, 0);
    assert found == Some(i);
  }

  /** A table command is matched whatever its letter case, before any prefix is considered. */
  lemma TablesIgnoreCase(c1: string, c2: string, registry: seq<AppEntry>, validPackage: string -> bool)
    requires Lower(c1) == Lower(c2)
    requires Lower(c1) in NavCommands || Lower(c1) in MediaCommands
    ensures Dispatch(c1, registry, validPackage) == Dispatch(c2, registry, validPackage)
    ensures Dispatch(c1, registry, validPackage).Some?
  {
  }

  /** No key of either table begins with `c`, so no `custom_app:` command is a table key. */
  lemma CustomAppKeysAvoidTables(command: string)
    ensures StartsWith(command, CustomAppPrefix) ==> Lower(command) !in NavCommands && Lower(command) !in MediaCommands
  {
    if StartsWith(command, CustomAppPrefix) {
      assert Lower(command)[0] == 'c';
    }
  }

  /** A `custom_app:` command launches exactly the trimmed text after the prefix, and only a valid package. */
  lemma {:induction false} CustomAppLaunch(package: string, registry: seq<AppEntry>, validPackage: string -> bool)
    ensures Dispatch(CustomAppPrefix + package, registry, validPackage)
         == if validPackage(Strip(package)) then Some(LaunchApp(Strip(package))) else None
  {
    var command := CustomAppPrefix + package;
    assert StartsWith(command, CustomAppPrefix) by { assert command[..|CustomAppPrefix|] == CustomAppPrefix; }
    CustomAppKeysAvoidTables(command);
    assert !StartsWith(command, LaunchPrefix) by { assert command[0] != LaunchPrefix[0]; }
    assert command == "custom_app" + [':'] + package;
    AfterFirstSplit("custom_app", ':', package);
  }

  class FireTVDevice {
    const config: FireTVConfig
    var client: FireTVClient?

    constructor (config: FireTVConfig)
      ensures this.config == config && client == null
    {
      this.config := config;
      client := null;
    }

    /** `check_client_connected`: a client exists and its session is open. It issues no call. */
    predicate CheckClientConnected(): (connected: bool)
      reads this, client
      ensures connected ==> client != null && client.hasSession
      ensures client == null || client.sessionClosed ==> !connected
    {
      client != null && client.hasSession && !client.sessionClosed
    }

    /**
     * `create_client`: a fresh client for the configured host, port and token replaces
     * any previous one; the device counts as connected exactly when that client's session is open.
     */
    method CreateClient(opensSession: bool) returns (c: FireTVClient)
      modifies this
      ensures client == c && fresh(c)
      ensures c.host == config.host && c.port == config.port && c.token == config.token
      ensures CheckClientConnected() <==> opensSession
    {
      c := new FireTVClient(config.host, config.port, config.token, opensSession);
      client := c;
    }

    /**
     * `connect_client`: without a client it fails with a RuntimeError and calls nothing;
     * otherwise it tests the connection and fails with a ConnectionError when that is false.
     */
    method ConnectClient(reachable: Reply<bool>) returns (r: Result<(), ConnectError>, calls: seq<ClientCall>)
      ensures client == null ==> r == Failure(ClientNotCreated) && calls == []
      ensures client != null ==> calls == [TestConnection(ConnectRetries, ConnectRetryDelay)]
      ensures client != null ==> (r.Success? <==> reachable == Returned(true))
      ensures client != null && reachable == Returned(false) ==> r == Failure(ConnectionFailed)
      ensures client != null && reachable.Raised? ==> r == Failure(CallRaised(reachable.error))
    {
      if client == null {
        return Failure(ClientNotCreated), [];
      }
      calls := [TestConnection(ConnectRetries, ConnectRetryDelay)];
      if reachable.Raised? {
        r := Failure(CallRaised(reachable.error));
      } else if !reachable.value {
        r := Failure(ConnectionFailed);
      } else {
        r := Success(());
      }
    }

    /**
     * `disconnect_client`: closes the client, if any, and forgets it even when
     * `close()` raises; afterwards the device is not connected.
     */
    method DisconnectClient(closeRaises: bool) returns (calls: seq<ClientCall>)
      modifies this, client
      ensures client == null && !CheckClientConnected()
      ensures calls == if old(client) == null then [] else [Close]
      ensures old(client) != null && !closeRaises ==> old(client).sessionClosed
    {
      calls := [];
      if client != null {
        calls := [Close];
        if !closeRaises {
          client.Close();
        }
        client := null;
      }
    }

    /**
     * `send_command`: makes the call `Dispatch` chooses, if there is a client,
     * and reports success only when that call returns true; an exception from
     * the call, `TokenInvalidError` included, becomes `false`.
     */
    method SendCommand(command: string, registry: seq<AppEntry>, validPackage: string -> bool, outcome: Reply<bool>)
      returns (ok: bool, calls: seq<ClientCall>)
      ensures calls == if client == null then [] else CallsOf(Dispatch(command, registry, validPackage))
      ensures ok <==> client != null && Dispatch(command, registry, validPackage).Some? && outcome == Returned(true)
    {
      if client == null {
        return false, [];
      }
      var key := Lower(command);
      var call: Option<ClientCall> := None;
      if key in NavCommands {
        call := Some(NavCommands[key]);
      } else if key in MediaCommands {
        call := Some(MediaCommands[key]);
      } else if StartsWith(command, LaunchPrefix) {
        var target := ReplaceAll(command, LaunchPrefix, "");
        var i := 0;
        while i < |registry|
          invariant 0 <= i <= |registry|
          invariant FindFrom(registry, target, i) == FindFrom(registry, target, 0)
          invariant call == None
        {
          if CommandName(registry[i].name) == target {
            call := Some(LaunchApp(registry[i].package));
            break;
          }
          i := i + 1;
        }
      } else if StartsWith(command, CustomAppPrefix) {
        var rest := AfterFirst(command, ':');
        if rest.Some? {
          var package := Strip(rest.value);
          if validPackage(package) {
            call := Some(LaunchApp(package));
          }
        }
      }
      if call.None? {
        return false, [];
      }
      calls := [call.value];
      ok := outcome.Returned? && outcome.value;
    }
  }

  /** Why `connect_client` failed: RuntimeError, ConnectionError, or the client call's own exception. */
  datatype ConnectError = ClientNotCreated | ConnectionFailed | CallRaised(error: ClientError)
}
