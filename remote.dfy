/**
 * The remote entity of intg_firetv/remote.py: its on/off/toggle state machine,
 * the mapping of `send_cmd` results to status codes, and the static tables it
 * hands to the remote (simple commands, physical button mapping, UI pages),
 * whose commands are checked against the device's dispatch.
 */
module Remote {
  import opened Wrappers
  import opened Text
  import Client
  import Device

  datatype RemoteState = On | Off | Unavailable | Unknown

  /** The status codes the handler returns: OK, SERVER_ERROR, NOT_IMPLEMENTED, UNAUTHORIZED. */
  datatype StatusCode = Ok | ServerError | NotImplemented | Unauthorized

  /** `{'cmd_id': 'send_cmd', 'params': {'command': command}}`. */
  datatype EntityCommand = SendCmd(command: string)

  /** The simple commands the entity advertises. */
  const SimpleCommands: seq<string> := [
    "DPAD_UP", "DPAD_DOWN", "DPAD_LEFT", "DPAD_RIGHT", "SELECT", "HOME", "BACK", "MENU", "EPG",
    "VOLUME_UP", "VOLUME_DOWN", "MUTE", "POWER", "SLEEP",
    "PLAY_PAUSE", "PAUSE", "FAST_FORWARD", "REWIND",
    "LAUNCH_NETFLIX", "LAUNCH_PRIME_VIDEO", "LAUNCH_DISNEY_PLUS", "LAUNCH_PLEX", "LAUNCH_KODI"]

  /** The physical buttons the entity maps. */
  datatype Button =
    | DpadUp | DpadDown | DpadLeft | DpadRight | DpadMiddle | Back | Home | Play
    | VolumeUp | VolumeDown | Mute | Power | Red | Green | Yellow | Blue

  /** One `(button, short_cmd, long_cmd)` configuration row. */
  datatype ButtonConfig = ButtonConfig(button: Button, short: string, long: Option<string>)

  const ButtonConfigs: seq<ButtonConfig> := [
    ButtonConfig(DpadUp, "DPAD_UP", None),
    ButtonConfig(DpadDown, "DPAD_DOWN", None),
    ButtonConfig(DpadLeft, "DPAD_LEFT", None),
    ButtonConfig(DpadRight, "DPAD_RIGHT", None),
    ButtonConfig(DpadMiddle, "SELECT", None),
    ButtonConfig(Back, "BACK", None),
    ButtonConfig(Home, "HOME", Some("MENU")),
    ButtonConfig(Play, "PLAY_PAUSE", None),
    ButtonConfig(VolumeUp, "VOLUME_UP", None),
    ButtonConfig(VolumeDown, "VOLUME_DOWN", None),
    ButtonConfig(Mute, "MUTE", None),
    ButtonConfig(Power, "POWER", None),
    ButtonConfig(Red, "LAUNCH_NETFLIX", None),
    ButtonConfig(Green, "LAUNCH_PRIME_VIDEO", None),
    ButtonConfig(Yellow, "LAUNCH_DISNEY_PLUS", None),
    ButtonConfig(Blue, "LAUNCH_PLEX", None)]

  datatype ButtonMapping = ButtonMapping(button: Button, shortPress: Option<EntityCommand>, longPress: Option<EntityCommand>)

  /** A press sends its command when there is one (Python truthiness: absent or empty means none). */
  function Press(command: Option<string>): Option<EntityCommand> {
    if command.Some? && command.value != "" then Some(SendCmd(command.value)) else None
  }

  /** The mapping `_create_button_mapping` builds for one configuration row. */
  function Mapped(config: ButtonConfig): ButtonMapping {
    ButtonMapping(config.button, Press(Some(config.short)), Press(config.long))
  }

  /** A UI page item: plain text, or text that sends a command. */
  datatype PageItem = TextItem | CommandItem(command: EntityCommand)

  datatype UiPage = UiPage(pageId: string, name: string, items: seq<PageItem>)

  /** The navigation page, item by item: seventeen buttons, each sending one of the simple commands. */
  function NavigationPage(): (page: UiPage)
    ensures page.pageId == "navigation" && |page.items| == 17
    ensures forall i | 0 <= i < |page.items| ::
      page.items[i].CommandItem? && page.items[i].command.command in SimpleCommands
  {
    UiPage("navigation", "Navigation", [
      CommandItem(SendCmd("DPAD_UP")), CommandItem(SendCmd("DPAD_LEFT")), CommandItem(SendCmd("SELECT")),
      CommandItem(SendCmd("DPAD_RIGHT")), CommandItem(SendCmd("DPAD_DOWN")), CommandItem(SendCmd("HOME")),
      CommandItem(SendCmd("BACK")), CommandItem(SendCmd("MENU")), CommandItem(SendCmd("VOLUME_DOWN")),
      CommandItem(SendCmd("MUTE")), CommandItem(SendCmd("VOLUME_UP")), CommandItem(SendCmd("REWIND")),
      CommandItem(SendCmd("PLAY_PAUSE")), CommandItem(SendCmd("FAST_FORWARD")), CommandItem(SendCmd("POWER")),
      CommandItem(SendCmd("SLEEP")), CommandItem(SendCmd("EPG"))])
  }

  /** The registry keys the top-apps page offers, in page order. */
  const TopApps: seq<string> := ["netflix", "prime_video", "disney_plus", "plex", "kodi"]

  /** `FIRE_TV_TOP_APPS.get(id)`: the index of the registry entry with key `id`. */
  function FindId(registry: seq<Client.AppEntry>, id: string): (r: Option<nat>)
    ensures r.Some? ==> r.value < |registry| && registry[r.value].id == id
    ensures r.Some? ==> forall j | 0 <= j < r.value :: registry[j].id != id
    ensures r.None? ==> forall j | 0 <= j < |registry| :: registry[j].id != id
    decreases |registry|
  {
    if registry == [] then None
    else if registry[|registry| - 1].id == id && FindId(registry[..|registry| - 1], id).None? then Some(|registry| - 1)
    else FindId(registry[..|registry| - 1], id)
  }

  /** The command that launches a registry entry: `LAUNCH_` and its command name. */
  function LaunchCommand(entry: Client.AppEntry): string {
    Device.LaunchPrefix + Client.CommandName(entry.name)
  }

  /** The launch items for the registry keys `ids`: one per key found, none for a missing key. */
  function TopAppItems(registry: seq<Client.AppEntry>, ids: seq<string>): seq<PageItem>
    decreases |ids|
  {
    if ids == [] then []
    else
      TopAppItems(registry, ids[..|ids| - 1]) +
      match FindId(registry, ids[|ids| - 1])
      case Some(i) => [CommandItem(SendCmd(LaunchCommand(registry[i])))]
      case None => []
  }

  /** The packages the custom-apps page offers as examples. */
  const CustomAppExamples: seq<string> :=
    ["com.hulu.plus", "com.amazon.firetv.youtube", "com.spotify.tv.android", "org.videolan.vlc"]

  /** The custom-apps page: two hints around four `custom_app:` examples. */
  function CustomAppsPage(): (page: UiPage)
    ensures page.pageId == "custom_apps" && |page.items| == 6
    ensures page.items[0] == TextItem && page.items[5] == TextItem
    ensures forall i | 1 <= i <= 4 ::
      page.items[i].CommandItem? && StartsWith(page.items[i].command.command, Device.CustomAppPrefix)
  {
    StartsWithConcat(Device.CustomAppPrefix, "com.hulu.plus");
    StartsWithConcat(Device.CustomAppPrefix, "com.amazon.firetv.youtube");
    StartsWithConcat(Device.CustomAppPrefix, "com.spotify.tv.android");
    StartsWithConcat(Device.CustomAppPrefix, "org.videolan.vlc");
    UiPage("custom_apps", "Custom Apps", [
      TextItem,
      CommandItem(SendCmd(Device.CustomAppPrefix + "com.hulu.plus")),
      CommandItem(SendCmd(Device.CustomAppPrefix + "com.amazon.firetv.youtube")),
      CommandItem(SendCmd(Device.CustomAppPrefix + "com.spotify.tv.android")),
      CommandItem(SendCmd(Device.CustomAppPrefix + "org.videolan.vlc")),
      TextItem])
  }

  /** `_create_button_mapping`: one mapping per configured button, in order. */
  method CreateButtonMapping() returns (mappings: seq<ButtonMapping>)
    ensures |mappings| == |ButtonConfigs|
    ensures forall i | 0 <= i < |mappings| ::
      && mappings[i].button == ButtonConfigs[i].button
      && mappings[i].shortPress == Some(SendCmd(ButtonConfigs[i].short))
      && (mappings[i].longPress.Some? <==> mappings[i].button == Home)
    ensures forall i | 0 <= i < |mappings| && mappings[i].button == Home :: mappings[i].longPress == Some(SendCmd("MENU"))
    ensures forall i, j | 0 <= i < j < |mappings| :: mappings[i].button != mappings[j].button
  {
    mappings := [];
    for i := 0 to |ButtonConfigs|
      invariant |mappings| == i
      invariant forall j | 0 <= j < i :: mappings[j] == Mapped(ButtonConfigs[j])
    {
      var config := ButtonConfigs[i];
      mappings := mappings + [ButtonMapping(config.button, Press(Some(config.short)), Press(config.long))];
    }
    ButtonRowsFacts();
    ButtonsDistinct();
  }

  /** Every configuration row has a short command; only HOME has a long one, MENU. */
  lemma ButtonRowsFacts()
    ensures forall i | 0 <= i < |ButtonConfigs| ::
      var m := Mapped(ButtonConfigs[i]);
      && m.button == ButtonConfigs[i].button
      && m.shortPress == Some(SendCmd(ButtonConfigs[i].short))
      && (m.longPress.Some? <==> m.button == Home)
      && (m.button == Home ==> m.longPress == Some(SendCmd("MENU")))
  {
  }

  /** No button is configured twice. */
  lemma ButtonsDistinct()
    ensures forall i, j | 0 <= i < j < |ButtonConfigs| :: ButtonConfigs[i].button != ButtonConfigs[j].button
  {
  }

  /** `_create_top_apps_page`: a launch item per top app found in the registry, then a hint. */
  method CreateTopAppsPage(registry: seq<Client.AppEntry>) returns (page: UiPage)
    ensures page == UiPage("top_apps", "Top Apps", TopAppItems(registry, TopApps) + [TextItem])
  {
    var items: seq<PageItem> := [];
    for k := 0 to |TopApps|
      invariant items == TopAppItems(registry, TopApps[..k])
    {
      assert TopApps[..k + 1][..k] == TopApps[..k];
      var found := FindId(registry, TopApps[k]);
      if found.Some? {
        var entry := registry[found.value];
        items := items + [CommandItem(SendCmd(Device.LaunchPrefix + Client.CommandName(entry.name)))];
      }
    }
    assert TopApps[..|TopApps|] == TopApps;
    items := items + [TextItem];
    page := UiPage("top_apps", "Top Apps", items);
  }

  /** `_create_ui_pages`. */
  method CreateUiPages(registry: seq<Client.AppEntry>) returns (pages: seq<UiPage>)
    ensures |pages| == 3
    ensures pages[0] == NavigationPage() && pages[2] == CustomAppsPage()
    ensures pages[1] == UiPage("top_apps", "Top Apps", TopAppItems(registry, TopApps) + [TextItem])
  {
    var topApps := CreateTopAppsPage(registry);
    pages := [NavigationPage(), topApps, CustomAppsPage()];
  }

  /** The status for the outcome of `send_command`: OK on true, UNAUTHORIZED on `TokenInvalidError`, else SERVER_ERROR. */
  function StatusOfSend(reply: Client.Reply<bool>): (status: StatusCode)
    ensures status == Ok <==> reply == Client.Returned(true)
    ensures status == Unauthorized <==> reply == Client.Raised(Client.TokenInvalid)
    ensures status == Ok || status == ServerError || status == Unauthorized
  {
    match reply
    case Returned(success) => if success then Ok else ServerError
    case Raised(error) => if error == Client.TokenInvalid then Unauthorized else ServerError
  }

  /** The state after `toggle`: OFF from ON, ON from anything else. */
  function Toggled(state: RemoteState): (next: RemoteState)
    ensures next == On || next == Off
    ensures next == On <==> state != On
  {
    if state == On then Off else On
  }

  /** `send_cmd` is handled when its parameters carry a `command`. */
  predicate IsSendCommand(cmdId: string, params: Option<map<string, string>>) {
    cmdId == "send_cmd" && params.Some? && "command" in params.value
  }

  class FireTVRemote {
    const device: Device.FireTVDevice
    const entityId: string
    var state: RemoteState

    constructor (config: Client.FireTVConfig, device: Device.FireTVDevice)
      ensures this.device == device && entityId == "remote." + config.identifier && state == On
    {
      this.device := device;
      entityId := "remote." + config.identifier;
      state := On;
    }

    /**
     * `_handle_command`: `send_cmd` forwards its command to the device and reports OK
     * exactly when the device reports success; `on`, `off` and `toggle` set the state
     * and report OK; anything else is NOT_IMPLEMENTED and changes nothing.
     */
    method HandleCommand(cmdId: string, params: Option<map<string, string>>, registry: seq<Client.AppEntry>,
                         validPackage: string -> bool, outcome: Client.Reply<bool>)
      returns (status: StatusCode, calls: seq<Client.ClientCall>)
      modifies this
      ensures status != Unauthorized
      ensures IsSendCommand(cmdId, params) ==>
        var command := params.value["command"];
        && state == old(state)
        && (status == Ok <==>
              device.client != null && Device.Dispatch(command, registry, validPackage).Some?
              && outcome == Client.Returned(true))
        && (status == Ok || status == ServerError)
        && calls == if device.client == null then [] else Device.CallsOf(Device.Dispatch(command, registry, validPackage))
      ensures !IsSendCommand(cmdId, params) ==> calls == []
      ensures !IsSendCommand(cmdId, params) && cmdId == "on" ==> state == On && status == Ok
      ensures !IsSendCommand(cmdId, params) && cmdId == "off" ==> state == Off && status == Ok
      ensures !IsSendCommand(cmdId, params) && cmdId == "toggle" ==> state == Toggled(old(state)) && status == Ok
      ensures !IsSendCommand(cmdId, params) && cmdId != "on" && cmdId != "off" && cmdId != "toggle" ==>
                state == old(state) && status == NotImplemented
    {
      calls := [];
      if IsSendCommand(cmdId, params) {
        var success;
        success, calls := device.SendCommand(params.value["command"], registry, validPackage, outcome);
        status := StatusOfSend(Client.Returned(success));
      } else if cmdId == "on" {
        state := On;
        status := Ok;
      } else if cmdId == "off" {
        state := Off;
        status := Ok;
      } else if cmdId == "toggle" {
        state := Toggled(state);
        status := Ok;
      } else {
        status := NotImplemented;
      }
    }
  }

  lemma NavLowerLiterals()
    ensures Lower("DPAD_UP") == "dpad_up"
    ensures Lower("DPAD_DOWN") == "dpad_down"
    ensures Lower("DPAD_LEFT") == "dpad_left"
    ensures Lower("DPAD_RIGHT") == "dpad_right"
    ensures Lower("SELECT") == "select"
    ensures Lower("HOME") == "home"
    ensures Lower("BACK") == "back"
    ensures Lower("MENU") == "menu"
    ensures Lower("EPG") == "epg"
    ensures Lower("VOLUME_UP") == "volume_up"
    ensures Lower("VOLUME_DOWN") == "volume_down"
    ensures Lower("MUTE") == "mute"
    ensures Lower("POWER") == "power"
    ensures Lower("SLEEP") == "sleep"
  {
    LowerPointwise("DPAD_UP", "dpad_up");
    LowerPointwise("DPAD_DOWN", "dpad_down");
    LowerPointwise("DPAD_LEFT", "dpad_left");
    LowerPointwise("DPAD_RIGHT", "dpad_right");
    LowerPointwise("SELECT", "select");
    LowerPointwise("HOME", "home");
    LowerPointwise("BACK", "back");
    LowerPointwise("MENU", "menu");
    LowerPointwise("EPG", "epg");
    LowerPointwise("VOLUME_UP", "volume_up");
    LowerPointwise("VOLUME_DOWN", "volume_down");
    LowerPointwise("MUTE", "mute");
    LowerPointwise("POWER", "power");
    LowerPointwise("SLEEP", "sleep");
  }
  lemma NavLowerForms()
    ensures Lower(SimpleCommands[0]) == "dpad_up"
    ensures Lower(SimpleCommands[1]) == "dpad_down"
    ensures Lower(SimpleCommands[2]) == "dpad_left"
    ensures Lower(SimpleCommands[3]) == "dpad_right"
    ensures Lower(SimpleCommands[4]) == "select"
    ensures Lower(SimpleCommands[5]) == "home"
    ensures Lower(SimpleCommands[6]) == "back"
    ensures Lower(SimpleCommands[7]) == "menu"
    ensures Lower(SimpleCommands[8]) == "epg"
    ensures Lower(SimpleCommands[9]) == "volume_up"
    ensures Lower(SimpleCommands[10]) == "volume_down"
    ensures Lower(SimpleCommands[11]) == "mute"
    ensures Lower(SimpleCommands[12]) == "power"
    ensures Lower(SimpleCommands[13]) == "sleep"
  {
    NavLowerLiterals();
  }
  lemma MediaLowerLiterals()
    ensures Lower("PLAY_PAUSE") == "play_pause"
    ensures Lower("PAUSE") == "pause"
    ensures Lower("FAST_FORWARD") == "fast_forward"
    ensures Lower("REWIND") == "rewind"
  {
    LowerPointwise("PLAY_PAUSE", "play_pause");
    LowerPointwise("PAUSE", "pause");
    LowerPointwise("FAST_FORWARD", "fast_forward");
    LowerPointwise("REWIND", "rewind");
  }
  lemma MediaLowerForms()
    ensures Lower(SimpleCommands[14]) == "play_pause"
    ensures Lower(SimpleCommands[15]) == "pause"
    ensures Lower(SimpleCommands[16]) == "fast_forward"
    ensures Lower(SimpleCommands[17]) == "rewind"
  {
    MediaLowerLiterals();
  }

  lemma NavCommandsListed()
    ensures forall i | 0 <= i < 14 :: Lower(SimpleCommands[i]) in Device.NavCommands
  {
    NavLowerForms();
  }
  lemma NavKeysListed()
    ensures forall k | k in Device.NavCommands :: exists i | 0 <= i < 14 :: Lower(SimpleCommands[i]) == k
  {
    NavLowerForms();
    forall k | k in Device.NavCommands ensures exists i | 0 <= i < 14 :: Lower(SimpleCommands[i]) == k {
      if k == "dpad_up" { assert Lower(SimpleCommands[0]) == k; }
      else if k == "dpad_down" { assert Lower(SimpleCommands[1]) == k; }
      else if k == "dpad_left" { assert Lower(SimpleCommands[2]) == k; }
      else if k == "dpad_right" { assert Lower(SimpleCommands[3]) == k; }
      else if k == "select" { assert Lower(SimpleCommands[4]) == k; }
      else if k == "home" { assert Lower(SimpleCommands[5]) == k; }
      else if k == "back" { assert Lower(SimpleCommands[6]) == k; }
      else if k == "menu" { assert Lower(SimpleCommands[7]) == k; }
      else if k == "epg" { assert Lower(SimpleCommands[8]) == k; }
      else if k == "volume_up" { assert Lower(SimpleCommands[9]) == k; }
      else if k == "volume_down" { assert Lower(SimpleCommands[10]) == k; }
      else if k == "mute" { assert Lower(SimpleCommands[11]) == k; }
      else if k == "power" { assert Lower(SimpleCommands[12]) == k; }
      else if k == "sleep" { assert Lower(SimpleCommands[13]) == k; }
    }
  }
  lemma MediaCommandsListed()
    ensures forall i | 14 <= i < 18 :: Lower(SimpleCommands[i]) in Device.MediaCommands
  {
    MediaLowerForms();
  }
  lemma MediaKeysListed()
    ensures forall k | k in Device.MediaCommands :: exists i | 14 <= i < 18 :: Lower(SimpleCommands[i]) == k
  {
    MediaLowerForms();
    forall k | k in Device.MediaCommands ensures exists i | 14 <= i < 18 :: Lower(SimpleCommands[i]) == k {
      if k == "play_pause" { assert Lower(SimpleCommands[14]) == k; }
      else if k == "pause" { assert Lower(SimpleCommands[15]) == k; }
      else if k == "fast_forward" { assert Lower(SimpleCommands[16]) == k; }
      else if k == "rewind" { assert Lower(SimpleCommands[17]) == k; }
    }
  }
  lemma LaunchCommandsListed()
    ensures forall i | 18 <= i < |SimpleCommands| :: StartsWith(SimpleCommands[i], Device.LaunchPrefix)
  {
    forall i | 18 <= i < |SimpleCommands| ensures StartsWith(SimpleCommands[i], Device.LaunchPrefix) {
      assert SimpleCommands[i][..7] == "LAUNCH_";
    }
  }
  lemma SimpleCommandsMatchTables()
    ensures forall i | 0 <= i < |SimpleCommands| && !StartsWith(SimpleCommands[i], Device.LaunchPrefix) ::
      Lower(SimpleCommands[i]) in Device.NavCommands || Lower(SimpleCommands[i]) in Device.MediaCommands
    ensures forall k | k in Device.NavCommands || k in Device.MediaCommands ::
      exists i | 0 <= i < |SimpleCommands| :: !StartsWith(SimpleCommands[i], Device.LaunchPrefix) && Lower(SimpleCommands[i]) == k
  {
    NavCommandsListed();
    MediaCommandsListed();
    NavKeysListed();
    MediaKeysListed();
    LaunchCommandsListed();
    forall i | 0 <= i < 18 ensures !StartsWith(SimpleCommands[i], Device.LaunchPrefix) {
      assert SimpleCommands[i][0] != Device.LaunchPrefix[0];
    }
  }

  /** Every short-press and long-press command of the button mapping is a simple command. */
  lemma ButtonCommandsAreSimple()
    ensures forall i | 0 <= i < |ButtonConfigs| ::
      ButtonConfigs[i].short in SimpleCommands && (ButtonConfigs[i].long.Some? ==> ButtonConfigs[i].long.value in SimpleCommands)
  {
  }

  /** `item` sends the launch command of a registry entry listed in `ids`, and dispatch launches that entry's package. */
  ghost predicate LaunchesListedEntry(item: PageItem, registry: seq<Client.AppEntry>, ids: seq<string>, validPackage: string -> bool) {
    && item.CommandItem?
    && exists i | 0 <= i < |registry| ::
         && registry[i].id in ids
         && item.command.command == LaunchCommand(registry[i])
         && Device.Dispatch(item.command.command, registry, validPackage) == Some(Client.LaunchApp(registry[i].package))
  }

  /**
   * Each launch item of the top-apps page, sent back through the device's dispatch,
   * launches the package of the registry entry it was built from.
   */
  lemma {:induction false} TopAppItemsResolve(registry: seq<Client.AppEntry>, ids: seq<string>, validPackage: string -> bool)
    requires Device.LaunchableRegistry(registry)
    ensures forall n | 0 <= n < |TopAppItems(registry, ids)| ::
      LaunchesListedEntry(TopAppItems(registry, ids)[n], registry, ids, validPackage)
    decreases |ids|
  {
    if ids != [] {
      var init := ids[..|ids| - 1];
      var items := TopAppItems(registry, ids);
      var initItems := TopAppItems(registry, init);
      TopAppItemsResolve(registry, init, validPackage);
      var found := FindId(registry, ids[|ids| - 1]);
      forall n | 0 <= n < |items| ensures LaunchesListedEntry(items[n], registry, ids, validPackage) {
        if n < |initItems| {
          assert items[n] == initItems[n];
          assert LaunchesListedEntry(initItems[n], registry, init, validPackage);
          var i :| 0 <= i < |registry| && registry[i].id in init
            && initItems[n].command.command == LaunchCommand(registry[i])
            && Device.Dispatch(initItems[n].command.command, registry, validPackage) == Some(Client.LaunchApp(registry[i].package));
          assert registry[i].id in ids;
        } else {
          var i := found.value;
          Device.LaunchRoundTrip(registry, i, validPackage);
          assert items[n] == CommandItem(SendCmd(LaunchCommand(registry[i])));
          assert registry[i].id in ids;
        }
      }
    }
  }

  /** A `custom_app:` command whose package has no surrounding whitespace launches that package exactly when it is valid. */
  lemma CustomAppItem(package: string, registry: seq<Client.AppEntry>, validPackage: string -> bool)
    requires package != [] && !IsSpace(package[0]) && !IsSpace(package[|package| - 1])
    ensures Device.Dispatch(Device.CustomAppPrefix + package, registry, validPackage)
         == if validPackage(package) then Some(Client.LaunchApp(package)) else None
  {
    StripUnpadded(package);
    Device.CustomAppLaunch(package, registry, validPackage);
  }

  /** Each example on the custom-apps page launches its package exactly when that package is valid. */
  lemma CustomAppsResolve(registry: seq<Client.AppEntry>, validPackage: string -> bool)
    ensures |CustomAppsPage().items| == 6
    ensures CustomAppsPage().items[0] == TextItem && CustomAppsPage().items[5] == TextItem
    ensures forall n | 1 <= n <= 4 ::
      var package := CustomAppExamples[n - 1];
      && CustomAppsPage().items[n] == CommandItem(SendCmd(Device.CustomAppPrefix + package))
      && Device.Dispatch(Device.CustomAppPrefix + package, registry, validPackage)
         == if validPackage(package) then Some(Client.LaunchApp(package)) else None
  {
    forall k | 0 <= k < |CustomAppExamples|
      ensures Device.Dispatch(Device.CustomAppPrefix + CustomAppExamples[k], registry, validPackage)
           == if validPackage(CustomAppExamples[k]) then Some(Client.LaunchApp(CustomAppExamples[k])) else None
    {
      CustomAppItem(CustomAppExamples[k], registry, validPackage);
    }
  }
}
