/**
 * The two-step PIN pairing flow of intg_firetv/setup_flow.py. Step one validates
 * host and port, wakes and probes the device and asks it to show a PIN, keeping
 * host and port for step two; step two verifies the PIN and builds the device
 * configuration. Each step works through a temporary client that it closes on
 * every exit path; the ghost `trace` records every client event.
 */
module SetupFlow {
  import opened Wrappers
  import opened Text
  import opened Client

  const DefaultPort: int := 8080
  const FriendlyName := "UC Remote"
  /** The attempts and the delay the initial step passes to `test_connection`. */
  const ProbeRetries: nat := 3
  const ProbeRetryDelay: real := 3.0

  /** What the user sees when a step raises. */
  datatype SetupError =
    | HostRequired                          // "IP address is required"
    | PortNotNumber                         // "Port must be a number"
    | SetupFailed(cause: Cause)             // "Setup failed: ..."
    | PinRequired                           // "PIN is required"
    | NoHostStored                          // "Setup flow error: no host stored from previous step"
    | PinVerificationFailed(cause: Cause)   // "PIN verification failed: ..."
    | CloseFailed                           // close() raised inside an except handler and escapes as is

  /** What went wrong inside a step's `try` block. */
  datatype Cause = Unreachable | PinRequestRefused | EmptyToken | ClientRaised(error: ClientError)

  /** A step's answer: the PIN-entry form (a single field named `pin`) or the finished configuration. */
  datatype SetupResponse = AskPin(fieldId: string) | Configured(config: FireTVConfig)

  /** What happened to a temporary client. */
  datatype ClientEvent = Created(host: string, port: int) | Called(call: ClientCall)

  /**
   * The device's answers to the calls a step can make. `verifyPin` returns the token,
   * the empty string standing for an absent one; `closeRaises` says whether `close()` raises.
   */
  datatype PairingDevice = PairingDevice(
    wakeUp: Reply<()>,
    testConnection: Reply<bool>,
    requestPin: Reply<bool>,
    verifyPin: Reply<string>,
    closeRaises: bool)

  /**
   * Every `Created` event is followed later in `events` by a `Close` call. The events
   * carry no client identity, so this matches a creation with any later close; it says
   * each client is closed because every step creates at most one client and
   * `ClosesAppended` only joins whole steps.
   */
  ghost predicate ClosesEveryClient(events: seq<ClientEvent>) {
    forall i | 0 <= i < |events| && events[i].Created? ::
      exists j | i < j < |events| :: events[j] == Called(Close)
  }

  lemma ClosedAtEnd(events: seq<ClientEvent>)
    requires events != [] && events[|events| - 1] == Called(Close)
    ensures ClosesEveryClient(events)
  {
    forall i | 0 <= i < |events| && events[i].Created?
      ensures exists j | i < j < |events| :: events[j] == Called(Close)
    {
      assert i < |events| - 1;
    }
  }

  /** Closing every client is preserved when one complete step's events follow another's. */
  lemma ClosesAppended(earlier: seq<ClientEvent>, later: seq<ClientEvent>)
    requires ClosesEveryClient(earlier) && ClosesEveryClient(later)
    ensures ClosesEveryClient(earlier + later)
  {
    var all := earlier + later;
    forall i | 0 <= i < |all| && all[i].Created?
      ensures exists j | i < j < |all| :: all[j] == Called(Close)
    {
      if i < |earlier| {
        var j :| i < j < |earlier| && earlier[j] == Called(Close);
        assert all[j] == earlier[j];
      } else {
        assert all[i] == later[i - |earlier|];
        var j :| i - |earlier| < j < |later| && later[j] == Called(Close);
        assert all[j + |earlier|] == later[j];
      }
    }
  }

  /** The stripped `host` field; an absent field counts as empty. */
  function HostField(input: map<string, string>): string {
    Strip(GetOr(input, "host", ""))
  }

  /** The `port` field as parsed by `int()`, 8080 when absent; `None` when it is not a number. */
  function PortField(input: map<string, string>, parsePort: string -> Option<int>): Option<int> {
    if "port" in input then parsePort(input["port"]) else Some(DefaultPort)
  }

  /** The stripped `pin` field. */
  function PinField(input: map<string, string>): string {
    Strip(GetOr(input, "pin", ""))
  }

  /** The device identifier derived from host and port: `firetv_<host with dots as _>_<port>`. */
  function DeviceIdentifier(host: string, port: int): (id: string)
    ensures StartsWith(id, "firetv_")
    ensures '.' !in id
  {
    var id := "firetv_" + ReplaceAll(host, ".", "_") + "_" + IntToDecimal(port);
    ReplaceCharGone(host, '.', "_");
    assert id[..7] == "firetv_";
    id
  }

  /** On one host, two ports never share an identifier: the port's decimal form ends it. */
  lemma DeviceIdentifierPorts(host: string, p1: int, p2: int)
    requires DeviceIdentifier(host, p1) == DeviceIdentifier(host, p2)
    ensures p1 == p2
  {
    var stem := "firetv_" + ReplaceAll(host, ".", "_") + "_";
    var id1, id2 := stem + IntToDecimal(p1), stem + IntToDecimal(p2);
    assert id1[|stem|..] == IntToDecimal(p1);
    assert id2[|stem|..] == IntToDecimal(p2);
    DecimalInjective(p1, p2);
  }

  /** Every call of the initial step returns what the PIN request needs. */
  predicate PinDisplayAccepted(dev: PairingDevice) {
    dev.wakeUp.Returned? && dev.testConnection == Returned(true) && dev.requestPin == Returned(true) && !dev.closeRaises
  }

  /** Why the initial step's `try` block failed, given that close() does not raise. */
  function InitialFailure(dev: PairingDevice): Cause {
    if dev.wakeUp.Raised? then ClientRaised(dev.wakeUp.error)
    else if dev.testConnection.Raised? then ClientRaised(dev.testConnection.error)
    else if !dev.testConnection.value then Unreachable
    else if dev.requestPin.Raised? then ClientRaised(dev.requestPin.error)
    else PinRequestRefused
  }

  /** Why the verify step's `try` block failed, given that close() does not raise. */
  function VerifyFailure(dev: PairingDevice): Cause {
    if dev.verifyPin.Raised? then ClientRaised(dev.verifyPin.error) else EmptyToken
  }

  /**
   * The client events of an initial step that got past validation, in order: create,
   * wake, test the connection, request the PIN, close; every failure closes once more
   * in the except handler.
   */
  function InitialEvents(host: string, port: int, dev: PairingDevice): (events: seq<ClientEvent>)
    ensures |events| >= 2 && events[0] == Created(host, port) && events[1] == Called(WakeUp)
    ensures forall k | 0 < k < |events| :: events[k].Called?
    ensures ClosesEveryClient(events)
    ensures Called(RequestPin(FriendlyName)) in events ==> dev.testConnection == Returned(true)
  {
    var events := [Created(host, port)] + ProbeEvents(dev) + if PinDisplayAccepted(dev) then [] else [Called(Close)];
    ClosedAtEnd(events);
    events
  }

  /** The calls of the initial step's `try` block. */
  function ProbeEvents(dev: PairingDevice): seq<ClientEvent> {
    [Called(WakeUp)] +
    if dev.wakeUp.Raised? then []
    else
      [Called(TestConnection(ProbeRetries, ProbeRetryDelay))] +
      if dev.testConnection.Raised? then []
      else if !dev.testConnection.value then [Called(Close)]
      else [Called(RequestPin(FriendlyName))] + (if dev.requestPin.Raised? then [] else [Called(Close)])
  }

  /** The client events of a verify step that got past validation: create, verify, close, and a second close on failure. */
  function VerifyEvents(host: string, port: int, pin: string, dev: PairingDevice): (events: seq<ClientEvent>)
    ensures |events| >= 2 && events[0] == Created(host, port) && events[1] == Called(VerifyPin(pin))
    ensures forall k | 0 < k < |events| :: events[k].Called?
    ensures ClosesEveryClient(events)
  {
    var verified := dev.verifyPin.Returned? && dev.verifyPin.value != "" && !dev.closeRaises;
    var events := [Created(host, port), Called(VerifyPin(pin))]
      + (if dev.verifyPin.Raised? then [] else [Called(Close)])
      + (if verified then [] else [Called(Close)]);
    ClosedAtEnd(events);
    events
  }

  class FireTVSetupFlow {
    /** `_temp_host` and `_temp_port`: the pairing context kept between the two steps. */
    var tempHost: Option<string>
    var tempPort: int
    ghost var trace: seq<ClientEvent>

    /** Every temporary client either step has created so far has been closed. */
    ghost predicate Valid()
      reads this
    {
      ClosesEveryClient(trace)
    }

    constructor ()
      ensures Valid()
      ensures tempHost == None && tempPort == DefaultPort && trace == []
    {
      tempHost, tempPort := None, DefaultPort;
      trace := [];
    }

    /** True when a host from a successful first step is stored (Python truthiness of `_temp_host`). */
    predicate HostStored()
      reads this
    {
      tempHost.Some? && tempHost.value != ""
    }

    /** `query_device`: the PIN step when the input has a `pin` and a host is stored, otherwise the initial step. */
    method QueryDevice(input: map<string, string>, parsePort: string -> Option<int>, dev: PairingDevice)
      returns (r: Result<SetupResponse, SetupError>)
      requires Valid()
      modifies this
      ensures Valid()
      ensures if "pin" in input && old(HostStored())
              then VerifyStepDone(this, input, dev, r)
              else InitialStepDone(this, input, parsePort, dev, r)
    {
      if "pin" in input && HostStored() {
        r := VerifyPinStep(input, dev);
      } else {
        r := InitialConnectionStep(input, parsePort, dev);
      }
    }

    /** `_initial_connection_step`. */
    method InitialConnectionStep(input: map<string, string>, parsePort: string -> Option<int>, dev: PairingDevice)
      returns (r: Result<SetupResponse, SetupError>)
      requires Valid()
      modifies this
      ensures Valid()
      ensures InitialStepDone(this, input, parsePort, dev, r)
    {
      var host := HostField(input);
      if host == "" {
        return Failure(HostRequired);
      }
      var port := DefaultPort;
      if "port" in input {
        var parsed := parsePort(input["port"]);
        if parsed.None? {
          return Failure(PortNotNumber);
        }
        port := parsed.value;
      }
      tempHost, tempPort := Some(host), port;
      var cause, events := Probe(dev);
      events := [Created(host, port)] + events;
      if cause.None? {
        r := Success(AskPin("pin"));
      } else {
        // The except handler closes the client again, then clears the context.
        events := events + [Called(Close)];
        if dev.closeRaises {
          r := Failure(CloseFailed);
        } else {
          tempHost, tempPort := None, DefaultPort;
          r := Failure(SetupFailed(cause.value));
        }
      }
      assert events == InitialEvents(host, port, dev);
      ClosesAppended(trace, events);
      trace := trace + events;
    }

    /**
     * The `try` block of `_initial_connection_step`: wake, test the connection, request
     * the PIN, closing the client on the way. `cause` is the failure that reaches the
     * except handler; there is none exactly when every call succeeds.
     */
    method Probe(dev: PairingDevice) returns (cause: Option<Cause>, ghost events: seq<ClientEvent>)
      ensures events == ProbeEvents(dev)
      ensures cause.None? <==> PinDisplayAccepted(dev)
      ensures cause.Some? && !dev.closeRaises ==> cause.value == InitialFailure(dev)
    {
      cause := None;
      events := [Called(WakeUp)];
      if dev.wakeUp.Raised? {
        return Some(ClientRaised(dev.wakeUp.error)), events;
      }
      events := events + [Called(TestConnection(ProbeRetries, ProbeRetryDelay))];
      if dev.testConnection.Raised? {
        return Some(ClientRaised(dev.testConnection.error)), events;
      }
      if !dev.testConnection.value {
        events := events + [Called(Close)];
        return Some(if dev.closeRaises then ClientRaised(OtherError) else Unreachable), events;
      }
      events := events + [Called(RequestPin(FriendlyName))];
      if dev.requestPin.Raised? {
        return Some(ClientRaised(dev.requestPin.error)), events;
      }
      events := events + [Called(Close)];
      if dev.closeRaises {
        cause := Some(ClientRaised(OtherError));
      } else if !dev.requestPin.value {
        cause := Some(PinRequestRefused);
      }
    }

    /** `_verify_pin_step`. */
    method VerifyPinStep(input: map<string, string>, dev: PairingDevice)
      returns (r: Result<SetupResponse, SetupError>)
      requires Valid()
      modifies this
      ensures Valid()
      ensures VerifyStepDone(this, input, dev, r)
    {
      var pin := PinField(input);
      if pin == "" {
        return Failure(PinRequired);
      }
      if !HostStored() {
        return Failure(NoHostStored);
      }
      var host, port := tempHost.value, tempPort;
      ghost var events := [Created(host, port), Called(VerifyPin(pin))];
      var cause: Option<Cause> := None;
      if dev.verifyPin.Raised? {
        cause := Some(ClientRaised(dev.verifyPin.error));
      } else {
        events := events + [Called(Close)];
        if dev.closeRaises {
          cause := Some(ClientRaised(OtherError));
        } else if dev.verifyPin.value == "" {
          cause := Some(EmptyToken);
        }
      }
      if cause.None? {
        tempHost, tempPort := None, DefaultPort;
        var name := Strip(GetOr(input, "name", "Fire TV (" + host + ")"));
        r := Success(Configured(FireTVConfig(DeviceIdentifier(host, port), name, host, port, dev.verifyPin.value)));
      } else {
        events := events + [Called(Close)];
        if dev.closeRaises {
          r := Failure(CloseFailed);
        } else {
          tempHost, tempPort := None, DefaultPort;
          r := Failure(PinVerificationFailed(cause.value));
        }
      }
      assert events == VerifyEvents(host, port, pin, dev);
      ClosesAppended(trace, events);
      trace := trace + events;
    }
  }

  /**
   * What the initial step promises. A blank host or an unparsable port fails before any
   * client exists and leaves the context alone. Otherwise the client events are
   * `InitialEvents`; the step succeeds exactly when every call succeeds, storing the
   * stripped host and the port; and a failure clears the context, unless close() itself raises.
   */
  twostate predicate InitialStepDone(flow: FireTVSetupFlow, input: map<string, string>,
                                     parsePort: string -> Option<int>, dev: PairingDevice,
                                     new r: Result<SetupResponse, SetupError>)
    reads flow
  {
    var host, port := HostField(input), PortField(input, parsePort);
    if host == "" || port.None? then
      && r == Failure(if host == "" then HostRequired else PortNotNumber)
      && flow.tempHost == old(flow.tempHost) && flow.tempPort == old(flow.tempPort)
      && flow.trace == old(flow.trace)
    else
      && flow.trace == old(flow.trace) + InitialEvents(host, port.value, dev)
      && (r.Success? <==> PinDisplayAccepted(dev))
      && (r.Success? ==> r.value == AskPin("pin") && flow.tempHost == Some(host) && flow.tempPort == port.value)
      && (r.Failure? && dev.closeRaises ==>
            r.error == CloseFailed && flow.tempHost == Some(host) && flow.tempPort == port.value)
      && (r.Failure? && !dev.closeRaises ==>
            r.error == SetupFailed(InitialFailure(dev)) && flow.tempHost == None && flow.tempPort == DefaultPort)
  }

  /**
   * What the verify step promises. A blank PIN fails before any client exists and keeps the
   * context; so does a missing host. Otherwise the client events are `VerifyEvents`; the
   * step succeeds exactly when a non-empty token comes back, returning the configuration
   * for the stored host and port; and success or failure clears the context, unless
   * close() itself raises.
   */
  twostate predicate VerifyStepDone(flow: FireTVSetupFlow, input: map<string, string>, dev: PairingDevice,
                                    new r: Result<SetupResponse, SetupError>)
    reads flow
  {
    var pin := PinField(input);
    if pin == "" || old(flow.tempHost).None? || old(flow.tempHost).value == "" then
      && r == Failure(if pin == "" then PinRequired else NoHostStored)
      && flow.tempHost == old(flow.tempHost) && flow.tempPort == old(flow.tempPort)
      && flow.trace == old(flow.trace)
    else
      var host, port := old(flow.tempHost).value, old(flow.tempPort);
      && flow.trace == old(flow.trace) + VerifyEvents(host, port, pin, dev)
      && (r.Success? <==> dev.verifyPin.Returned? && dev.verifyPin.value != "" && !dev.closeRaises)
      && (r.Success? ==> r.value == Configured(FireTVConfig(
            DeviceIdentifier(host, port),
            Strip(GetOr(input, "name", "Fire TV (" + host + ")")),
            host, port, dev.verifyPin.value)))
      && (r.Failure? ==> r.error == if dev.closeRaises then CloseFailed else PinVerificationFailed(VerifyFailure(dev)))
      && (if dev.closeRaises
          then flow.tempHost == old(flow.tempHost) && flow.tempPort == old(flow.tempPort)
          else flow.tempHost == None && flow.tempPort == DefaultPort)
  }
}
