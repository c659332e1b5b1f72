/**
 * The Fire TV simulator of simulator/firetv_simulator.py: the device side of the
 * pairing handshake and of token checking. The module-level `STATE` dictionary is
 * an object here; each request handler is a method returning the HTTP status. The
 * random PIN value and the generated token are parameters.
 */
module Simulator {
  import opened Wrappers
  import opened Text

  const StatusOk := 200
  const StatusBadRequest := 400
  const StatusUnauthorized := 401
  const StatusForbidden := 403
  const StatusServerError := 500

  /** A JSON value as far as the handlers look at it: a string, or anything else. */
  datatype JsonValue = JString(s: string) | JNonString

  /** A request body: not JSON at all, JSON that is not an object, or a JSON object. */
  datatype RequestBody = Unparsable | NonObject | JsonObject(fields: map<string, JsonValue>)

  /** `f"{n:04d}"` for `n` below 10000: four decimal digits that read back as `n`. */
  function PinText(n: nat): (pin: string)
    requires n < 10000
    ensures |pin| == 4 && AllDigits(pin) && DigitsValue(pin) == n
  {
    var digits := NatToDecimal(n);
    DecimalWidth(n);
    var pin := ZeroPad(digits, 4);
    LeadingZerosValue(seq(4 - |digits|, _ => '0'), digits);
    pin
  }

  /** The request's `pin` equals the PIN on screen (a JSON string compared with a Python string). */
  predicate PinMatches(body: RequestBody, currentPin: Option<string>)
    requires body.JsonObject?
  {
    "pin" in body.fields && body.fields["pin"].JString? && currentPin == Some(body.fields["pin"].s)
  }

  class FireTVSimulator {
    var pinRequestActive: bool
    var currentPin: Option<string>
    /** The keys of `authenticated_tokens` (every value stored there is `True`). */
    var authenticatedTokens: set<string>

    /** While a PIN request is active, a four-digit PIN is on screen. */
    ghost predicate Valid()
      reads this
    {
      pinRequestActive ==> currentPin.Some? && |currentPin.value| == 4 && AllDigits(currentPin.value)
    }

    constructor ()
      ensures Valid()
      ensures !pinRequestActive && currentPin == None && authenticatedTokens == {}
    {
      pinRequestActive, currentPin, authenticatedTokens := false, None, {};
    }

    /** A token header authorises a command when it is present, non-empty and was issued. */
    predicate Authorized(header: Option<string>)
      reads this
    {
      header.Some? && header.value != "" && header.value in authenticatedTokens
    }

    /** `handle_root`. */
    method HandleRoot() returns (status: int, text: string)
      ensures status == StatusOk && text == "Fire TV Simulator"
    {
      status, text := StatusOk, "Fire TV Simulator";
    }

    /** `handle_wake`. */
    method HandleWake() returns (status: int)
      ensures status == StatusOk
    {
      status := StatusOk;
    }

    /**
     * `handle_pin_display`: a JSON object body puts the PIN `random` (zero-padded to four
     * digits) on screen and activates the request; anything else is a 500 and changes nothing.
     */
    method HandlePinDisplay(body: RequestBody, random: nat) returns (status: int)
      requires Valid() && random < 10000
      modifies this
      ensures Valid()
      ensures authenticatedTokens == old(authenticatedTokens)
      ensures !body.JsonObject? ==> status == StatusServerError && unchanged(this)
      ensures body.JsonObject? ==> status == StatusOk && pinRequestActive && currentPin == Some(PinText(random))
    {
      if !body.JsonObject? {
        return StatusServerError;
      }
      currentPin := Some(PinText(random));
      pinRequestActive := true;
      status := StatusOk;
    }

    /**
     * `handle_pin_verify`: 500 for a body that is not a JSON object, 400 without an
     * active request, 403 for a wrong PIN (the request stays active), and otherwise 200:
     * `token` is issued, added to the authenticated tokens, and the request ends.
     */
    method HandlePinVerify(body: RequestBody, token: string) returns (status: int, issued: Option<string>)
      requires Valid()
      modifies this
      ensures Valid()
      ensures old(authenticatedTokens) <= authenticatedTokens
      ensures currentPin == old(currentPin)
      ensures status == StatusOk <==> issued.Some?
      ensures status == StatusOk ==>
        && body.JsonObject? && "pin" in body.fields && body.fields["pin"].JString?
        && |body.fields["pin"].s| == 4 && AllDigits(body.fields["pin"].s)
      ensures !body.JsonObject? ==> status == StatusServerError && unchanged(this)
      ensures body.JsonObject? && !old(pinRequestActive) ==> status == StatusBadRequest && unchanged(this)
      ensures body.JsonObject? && old(pinRequestActive) && !PinMatches(body, old(currentPin)) ==>
                status == StatusForbidden && unchanged(this)
      ensures body.JsonObject? && old(pinRequestActive) && PinMatches(body, old(currentPin)) ==>
                && status == StatusOk && issued == Some(token)
                && authenticatedTokens == old(authenticatedTokens) + {token}
                && !pinRequestActive
    {
      issued := None;
      if !body.JsonObject? {
        return StatusServerError, issued;
      }
      if !pinRequestActive {
        return StatusBadRequest, issued;
      }
      if !PinMatches(body, currentPin) {
        return StatusForbidden, issued;
      }
      authenticatedTokens := authenticatedTokens + {token};
      pinRequestActive := false;
      status, issued := StatusOk, Some(token);
    }

    /** `handle_navigation_command`: 401 unless the `X-Client-Token` header is authorised. */
    method HandleNavigationCommand(action: string, header: Option<string>) returns (status: int)
      ensures status == StatusOk <==> Authorized(header)
      ensures status == StatusOk || status == StatusUnauthorized
    {
      status := if header.None? || header.value == "" || header.value !in authenticatedTokens
        then StatusUnauthorized else StatusOk;
    }

    /** `handle_media_command`: 401 unless the `X-Client-Token` header is authorised. */
    method HandleMediaCommand(action: string, header: Option<string>) returns (status: int)
      ensures status == StatusOk <==> Authorized(header)
      ensures status == StatusOk || status == StatusUnauthorized
    {
      status := if header.None? || header.value == "" || header.value !in authenticatedTokens
        then StatusUnauthorized else StatusOk;
    }

    /** `handle_app_launch`: 401 unless the `X-Client-Token` header is authorised. */
    method HandleAppLaunch(package: string, header: Option<string>) returns (status: int)
      ensures status == StatusOk <==> Authorized(header)
      ensures status == StatusOk || status == StatusUnauthorized
    {
      status := if header.None? || header.value == "" || header.value !in authenticatedTokens
        then StatusUnauthorized else StatusOk;
    }
  }

  /**
   * A full pairing against a fresh simulator: the PIN request, the verification with
   * the PIN shown, then a navigation command carrying the issued token. Every step
   * succeeds, and replaying the same PIN afterwards is rejected with 400.
   */
  method PairThenCommand(random: nat, token: string) returns (display: int, verify: int, command: int, replay: int)
    requires random < 10000 && token != ""
    ensures display == StatusOk && verify == StatusOk && command == StatusOk
    ensures replay == StatusBadRequest
  {
    var sim := new FireTVSimulator();
    display := sim.HandlePinDisplay(JsonObject(map["friendlyName" := JString("UC Remote")]), random);
    var body := JsonObject(map["pin" := JString(PinText(random))]);
    var issued;
    verify, issued := sim.HandlePinVerify(body, token);
    command := sim.HandleNavigationCommand("dpad_up", issued);
    replay, issued := sim.HandlePinVerify(body, token);
  }

  /** A wrong PIN is refused with 403 and leaves the right one usable. */
  method WrongPinThenRight(random: nat, wrong: string, token: string) returns (first: int, second: int)
    requires random < 10000 && wrong != PinText(random)
    ensures first == StatusForbidden && second == StatusOk
  {
    var sim := new FireTVSimulator();
    var display := sim.HandlePinDisplay(JsonObject(map[]), random);
    var issued;
    first, issued := sim.HandlePinVerify(JsonObject(map["pin" := JString(wrong)]), token);
    second, issued := sim.HandlePinVerify(JsonObject(map["pin" := JString(PinText(random))]), token);
  }
}
