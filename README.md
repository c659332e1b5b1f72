# Fire TV integration: a Dafny model

This project models the decision logic of the Unfolded Circle Fire TV integration. The HTTP traffic itself stays abstract. The model has four parts:

- **PIN pairing setup flow** (`SetupFlow`, from `intg_firetv/setup_flow.py`). This is a two-step state machine over the pairing context `_temp_host`/`_temp_port`.
  - Step one validates host and port, then wakes and probes the TV and asks it to show a PIN.
  - Step two verifies the PIN and builds the `FireTVConfig`.
  - A ghost trace records every temporary client the steps create and every call made on it. This lets the model state that every client is closed on every path.
- **Device** (`Device`, from `intg_firetv/device.py`). This covers the nullable client field and its lifecycle (create, connect, disconnect, liveness check), and `send_command`.
  - `send_command` is specified by the pure function `Dispatch`. It looks the command up, case-insensitively, in the navigation and media tables. It then tries `LAUNCH_<NAME>` against the application registry, and then `custom_app:<package>`.
  - The method's registry loop is proved against `FindFrom`.
- **Simulator** (`Simulator`, from `simulator/firetv_simulator.py`). The `STATE` dictionary becomes an object, and each request handler becomes a method returning the HTTP status.
- **Remote entity** (`Remote`, from `intg_firetv/remote.py`). This covers the `on`/`off`/`toggle` state machine and how a `send_cmd` result maps to a status code. It also covers the static tables: the simple commands, the button mapping and the UI pages. Their commands are proved consistent with the device's dispatch.

Supporting modules:

- `Text` models the Python string operations the code relies on:
  - `strip()`, with Python's whitespace set;
  - `lower()` and `upper()`;
  - `replace()`;
  - `split(':', 1)[1]`;
  - `dict.get`;
  - integer formatting, including `f"{n:04d}"`.
- `Client` models what the integration sees of `FireTVClient`:
  - each call it can make;
  - the outcome of a call, which is a value or an exception (`TokenInvalidError` or any other);
  - the state of its HTTP session.
- `Wrappers` holds `Option` and `Result`.

The network client and the application registry are inputs to the model. `intg_firetv/client.py` and `intg_firetv/apps.py` are not part of this model. Each client call's outcome is therefore a parameter (a `Reply`, or a `PairingDevice` record for the setup flow). The registry is a sequence of `(id, name, package)` entries, and `validate_package_name` is a predicate parameter.

Three behaviours of the code are worth stating plainly, because the code's own handlers suggest another intent:

- **`TokenInvalidError` never reaches the remote entity.** The remote has an `except TokenInvalidError` branch that answers UNAUTHORIZED and logs that the user must re-run setup (intg_firetv/remote.py:278-281). But `send_command` catches every exception and returns `False` (intg_firetv/device.py:196-198), so that branch is unreachable. `Remote.FireTVRemote.HandleCommand` proves that it never returns `Unauthorized`. `Remote.StatusOfSend` still states what that branch would map.
- **An empty PIN leaves the pairing context as it was.** The PIN step raises before it reads or resets `_temp_host` (intg_firetv/setup_flow.py:153-156). `SetupFlow.VerifyStepDone` states that the context is kept.
- **A `close()` that raises inside an except handler leaves the context set.** That exception escapes unwrapped, before `_temp_host` is reset (intg_firetv/setup_flow.py:141-145, 201-205). The model returns `CloseFailed` and keeps the context.

## Model

| member | source | states |
|---|---|---|
| Text.Strip | intg_firetv/setup_flow.py:70 | `strip()` yields the empty string exactly when the input is all whitespace, so a whitespace-only host is rejected like an empty one; otherwise it is a middle slice of the input that starts and ends with a non-space, and what it cuts off at both ends is whitespace |
| Text.StripSlice | intg_firetv/setup_flow.py:70 | `lstrip()` followed by `rstrip()` keeps a middle slice of the input whose two cut-off ends are whitespace |
| Text.AfterFirst | intg_firetv/device.py:184 | `split(':', 1)[1]` exists exactly when the separator occurs; it is the suffix after the first occurrence, and no separator precedes it |
| Text.AfterFirstSplit | intg_firetv/device.py:184 | splitting `before + ':' + after` at the first `:` gives back `after` whenever `before` has no `:` |
| Text.ReplaceAbsent | intg_firetv/device.py:173 | `replace('LAUNCH_', '')` leaves a string without `LAUNCH_` unchanged |
| Text.ReplaceCharGone | intg_firetv/setup_flow.py:190 | after `host.replace('.', '_')` no `.` remains |
| Text.NatToDecimal | intg_firetv/setup_flow.py:190 | the decimal form of a natural is a non-empty digit string that reads back as the number and starts with `0` only for zero |
| Text.CanonicalDecimal | intg_firetv/setup_flow.py:190 | any digit string without a leading zero is the decimal form of its value, so `str(n)` is the only such spelling |
| Text.IntToDecimal | intg_firetv/setup_flow.py:190 | the decimal form of an integer is non-empty and has no `.`; for a non-negative number it is a digit string reading back as the number, with no leading zero; for a negative one it is `-` followed by such a string for the magnitude |
| Text.ReplaceChars | intg_firetv/device.py:172 | every character of a `replace()` result comes from the text or from the replacement |
| Text.DecimalWidth | simulator/firetv_simulator.py:46 | a number below 10000 has at most four decimal digits |
| Text.LeadingZerosValue | simulator/firetv_simulator.py:46 | zero-padding a digit string keeps its value |
| Client.CommandName | intg_firetv/device.py:172 | the normalised application name has no lower-case ASCII letter, no space and no `+` |
| Client.CommandNameFixed | intg_firetv/device.py:172 | a name that is already upper-case, with no space and no `+`, is its own normalised name |
| Device.Dispatch | intg_firetv/device.py:134-194 | a navigation or media key, in any letter case, yields exactly that table's call and never a launch; a `LAUNCH_` command yields a call exactly when some registry entry's normalised name equals the command without `LAUNCH_`, and then launches the package of the first such entry; a launch happens only for a `LAUNCH_` or `custom_app:` command, and a `custom_app:` launch opens only a package the validator accepts; any other command yields no call |
| Device.FindFrom | intg_firetv/device.py:171-176 | the registry scan finds the first entry whose normalised name equals the target, or reports that none does |
| Device.TableKeysAvoidLaunch | intg_firetv/device.py:153-166 | no `LAUNCH_` command, lower-cased, is a navigation or media key, so the prefix branch is reached |
| Device.TablesIgnoreCase | intg_firetv/device.py:134-164 | two commands equal up to letter case dispatch identically when they name a table entry, and such a command always yields a call |
| Device.CustomAppKeysAvoidTables | intg_firetv/device.py:134-181 | no `custom_app:` command, lower-cased, is a navigation or media key, so the `custom_app:` branch is reached |
| Device.LaunchRoundTrip | intg_firetv/device.py:166-179 | in a registry with distinct normalised names none of which contains `LAUNCH_`, `LAUNCH_` + the normalised name of entry `i` launches entry `i`'s package |
| Device.CustomAppLaunch | intg_firetv/device.py:181-191 | `custom_app:` + text launches the stripped text when the package predicate accepts it, and makes no call otherwise |
| Device.FireTVDevice.CheckClientConnected | intg_firetv/device.py:95-115 | the device reports connected only when a client exists with a session, and never without a client or with a closed session |
| Device.FireTVDevice.constructor | intg_firetv/device.py:19-22 | a new device has no client |
| Device.FireTVDevice.CreateClient | intg_firetv/device.py:45-60 | a fresh client with the configured host, port and token replaces the old one; the device is connected exactly when its session is open |
| Device.FireTVDevice.ConnectClient | intg_firetv/device.py:62-77 | without a client it fails as not created and calls nothing; otherwise it calls `test_connection(3, 2.0)` once and succeeds exactly when that returns true, failing with ConnectionError on false and passing an exception through |
| Device.FireTVDevice.DisconnectClient | intg_firetv/device.py:79-93 | the client is forgotten even when `close()` raises, so the device is no longer connected; `close()` is called exactly when a client existed |
| Device.FireTVDevice.SendCommand | intg_firetv/device.py:117-198 | with no client it calls nothing and fails; otherwise it makes exactly the call `Dispatch` chooses, and succeeds exactly when there is one and it returns true; an exception, `TokenInvalidError` included, gives false |
| SetupFlow.ClosesAppended | intg_firetv/setup_flow.py:99-202 | the closed-client property of whole steps survives concatenation, so it holds of the flow's full history |
| SetupFlow.DeviceIdentifier | intg_firetv/setup_flow.py:190 | the identifier starts with `firetv_` and contains no `.` |
| SetupFlow.DeviceIdentifierPorts | intg_firetv/setup_flow.py:190 | for one host, two ports never produce the same identifier |
| SetupFlow.InitialEvents | intg_firetv/setup_flow.py:86-145 | the first step creates one client, wakes it first, closes it before returning or raising, and requests a PIN only after the connection test returned true |
| SetupFlow.VerifyEvents | intg_firetv/setup_flow.py:168-205 | the second step creates one client, verifies the PIN first, and closes it before returning or raising |
| SetupFlow.FireTVSetupFlow.constructor | intg_firetv/setup_flow.py:22-25 | no host is stored and the port is 8080 |
| SetupFlow.FireTVSetupFlow.QueryDevice | intg_firetv/setup_flow.py:50-62 | the PIN step runs exactly when the input has `pin` and a non-empty host is stored; otherwise the initial step runs; every client ever created is closed |
| SetupFlow.FireTVSetupFlow.InitialConnectionStep | intg_firetv/setup_flow.py:64-145 | a blank host or non-numeric port fails first, creating no client and keeping the context; otherwise it succeeds exactly when wake, test and PIN request all succeed, storing the stripped host and the port; any other failure resets the context to none and 8080 (unless `close()` raises) |
| SetupFlow.FireTVSetupFlow.Probe | intg_firetv/setup_flow.py:88-123 | the try block's calls in order; it reaches the except handler exactly when some call fails, with the cause (unreachable, refused, or the raised exception) |
| SetupFlow.FireTVSetupFlow.VerifyPinStep | intg_firetv/setup_flow.py:147-205 | a blank PIN or no stored host fails first, keeping the context; otherwise it succeeds exactly when a non-empty token comes back, returning the config for the stored host and port with the derived identifier, the name (defaulting to `Fire TV (host)`) and the token; success and failure both reset the context (unless `close()` raises) |
| Simulator.PinText | simulator/firetv_simulator.py:46 | the PIN is four decimal digits that read back as the random value |
| Simulator.FireTVSimulator.constructor | simulator/firetv_simulator.py:21-25 | no request is active, no PIN is shown, no token is issued |
| Simulator.FireTVSimulator.HandleRoot | simulator/firetv_simulator.py:28-30 | 200 with the simulator banner, state untouched |
| Simulator.FireTVSimulator.HandleWake | simulator/firetv_simulator.py:33-36 | 200, state untouched |
| Simulator.FireTVSimulator.HandlePinDisplay | simulator/firetv_simulator.py:39-60 | a JSON object body shows the zero-padded PIN and activates the request with 200; any other body is 500 and changes nothing; tokens are untouched |
| Simulator.FireTVSimulator.HandlePinVerify | simulator/firetv_simulator.py:63-91 | 500 for a non-object body, 400 without an active request, 403 for a wrong PIN, each changing nothing; a matching PIN issues the token, adds it to the authenticated set and ends the request with 200; only a four-digit PIN is ever accepted; tokens only grow |
| Simulator.FireTVSimulator.HandleNavigationCommand | simulator/firetv_simulator.py:94-105 | 200 exactly when the token header is present, non-empty and issued, else 401; state untouched |
| Simulator.FireTVSimulator.HandleMediaCommand | simulator/firetv_simulator.py:108-119 | 200 exactly when the token header is authorised, else 401; state untouched |
| Simulator.FireTVSimulator.HandleAppLaunch | simulator/firetv_simulator.py:122-133 | 200 exactly when the token header is authorised, else 401; state untouched |
| Simulator.PairThenCommand | simulator/firetv_simulator.py:39-105 | display, verify with the shown PIN and a command with the issued token all give 200, and replaying the PIN gives 400 |
| Simulator.WrongPinThenRight | simulator/firetv_simulator.py:63-91 | a wrong PIN gives 403 and leaves the right one usable (200) |
| Remote.FindId | intg_firetv/remote.py:179 | `FIRE_TV_TOP_APPS.get(id)` finds the first entry with that key, or reports that none has it |
| Remote.NavigationPage | intg_firetv/remote.py:124-165 | the navigation page has seventeen items, each sending one of the simple commands |
| Remote.CustomAppsPage | intg_firetv/remote.py:204-244 | the custom-apps page has six items: a hint, four items sending a `custom_app:` command, and a hint |
| Remote.CreateButtonMapping | intg_firetv/remote.py:79-115 | one mapping per configured button, in order, with distinct buttons; every one has a short press sending its command; only HOME has a long press, which sends MENU |
| Remote.ButtonRowsFacts | intg_firetv/remote.py:82-113 | each configuration row yields a short press; the long press exists for HOME only and sends MENU |
| Remote.ButtonsDistinct | intg_firetv/remote.py:82-99 | no button is configured twice |
| Remote.CreateTopAppsPage | intg_firetv/remote.py:167-202 | one `LAUNCH_` + normalised-name item per top app found in the registry, in page order, then the hint |
| Remote.CreateUiPages | intg_firetv/remote.py:117-122 | the navigation, top-apps and custom-apps pages, in that order |
| Remote.StatusOfSend | intg_firetv/remote.py:256-285 | OK exactly when the send returned true, UNAUTHORIZED exactly on `TokenInvalidError`, SERVER_ERROR otherwise |
| Remote.Toggled | intg_firetv/remote.py:269-272 | toggling gives ON or OFF, and ON exactly when the state was not ON |
| Remote.FireTVRemote.constructor | intg_firetv/remote.py:26-48 | the entity id is `remote.` + the identifier, and the state starts ON |
| Remote.FireTVRemote.HandleCommand | intg_firetv/remote.py:246-285 | `send_cmd` with a `command` keeps the state and is OK exactly when the device's send succeeds, else SERVER_ERROR; `on`/`off`/`toggle` set ON/OFF/the flipped state and are OK; anything else is NOT_IMPLEMENTED with the state unchanged; UNAUTHORIZED never occurs |
| Remote.SimpleCommandsMatchTables | intg_firetv/remote.py:50-77 | the non-`LAUNCH_` simple commands, lower-cased, are exactly the keys of the device's navigation and media tables |
| Remote.LaunchCommandsListed | intg_firetv/remote.py:70-74 | the remaining simple commands all carry the `LAUNCH_` prefix |
| Remote.ButtonCommandsAreSimple | intg_firetv/remote.py:82-113 | every short-press and long-press command of the button mapping is one of the simple commands |
| Remote.TopAppItemsResolve | intg_firetv/remote.py:178-187 | given distinct normalised names without `LAUNCH_`, every top-apps item dispatches to the launch of the package of the registry entry it was built from |
| Remote.CustomAppsResolve | intg_firetv/remote.py:204-244 | the page holds the hint, four `custom_app:` examples and a hint; each example launches its package exactly when the package predicate accepts it |

## Left out

- `FireTVClient` internals are not modelled: the retry loop of `test_connection`, HTTP status handling, and when `TokenInvalidError` is raised. intg_firetv/client.py is not part of this model. Each call's outcome is a parameter, and whether a new client already has a session open is a parameter too.
- The application registry's contents and `validate_package_name` are not modelled; intg_firetv/apps.py is not part of this model. The registry is a sequence parameter, with `dict.get` as the first entry with that key, and the package check is a predicate parameter.
- Python's `int()` port parsing is a partial-parse parameter.
- `ConnectClient` and `SendCommand` never open or close the client's session. In the model, only client construction and `close()` change the session state; a session that an HTTP call opens or drops is not modelled.
- `Remote.FireTVRemote.HandleCommand`: `params['command']` is modelled as a string only. A non-string value would make `send_command` raise inside its `try`, and so return `False` (intg_firetv/device.py:196-198).
- `SetupFlow.PairingDevice`: `closeRaises` is one flag for every `close()` call in a step. A close that succeeds in the `try` block but raises in the except handler, or the other way round, is not modelled.
- Input values are modelled as strings only. A non-string `host`, `pin` or `name` would raise `AttributeError` in the source; that path is not modelled.
- `verify_pin` returning `None` is modelled as the empty token; both are falsy.
- `lower()` and `upper()` map ASCII letters only; Unicode case mapping is not modelled.
- `asyncio.sleep`, retry delays, async scheduling and concurrency are not modelled.
- Logging and `DeviceEvents` emission are not modelled.
- The `identifier`, `name`, `address`, `log_id` and `client` properties of the device are not modelled, and neither is the manual-entry form (`get_manual_entry_form`).
- The simulator's aiohttp application and routing (simulator/firetv_simulator.py:136-172) are not modelled. The `action` query parameter and the `friendlyName` field are only logged, so they do not affect the model.
- `secrets.randbelow` and `secrets.token_hex` are not modelled; the random PIN value and the token are parameters.
- UI presentation is not modelled: grid coordinates, sizes, labels and hint texts. Page items keep only whether and what they send.
- The bootstrap and framework glue in intg_firetv/__init__.py, __main__.py and driver.py is not modelled.
