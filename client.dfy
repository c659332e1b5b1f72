/**
 * What the integration sees of the Fire TV network client (intg_firetv/client.py,
 * which is not part of this model): the calls it can issue, their outcomes, and the
 * liveness of its HTTP session. Also the application registry entry and the
 * configuration record the setup flow produces.
 */
module Client {
  import opened Text

  /** `TokenInvalidError` versus any other exception a client call may raise. */
  datatype ClientError = TokenInvalid | OtherError

  /** The outcome of one awaited client call: a returned value or a raised exception. */
  datatype Reply<T> = Returned(value: T) | Raised(error: ClientError)

  /** One call on a `FireTVClient`. */
  datatype ClientCall =
    | DpadUp | DpadDown | DpadLeft | DpadRight | Select | Home | Back | Menu | Epg
    | VolumeUp | VolumeDown | Mute | Power | Sleep
    | PlayPause | Pause | FastForward | Rewind
    | LaunchApp(package: string)
    | WakeUp
    | TestConnection(maxRetries: nat, retryDelay: real)
    | RequestPin(friendlyName: string)
    | VerifyPin(pin: string)
    | Close

  /**
   * A client object and the state of its HTTP session. Whether construction already
   * opens the session is up to the client, so it is a parameter; closing marks the
   * session closed, and closing twice is harmless.
   */
  class FireTVClient {
    const host: string
    const port: int
    const token: string
    var hasSession: bool
    var sessionClosed: bool

    constructor (host: string, port: int, token: string, opensSession: bool)
      ensures this.host == host && this.port == port && this.token == token
      ensures hasSession == opensSession && !sessionClosed
    {
      this.host, this.port, this.token := host, port, token;
      hasSession, sessionClosed := opensSession, false;
    }

    method Close()
      modifies this
      ensures hasSession == old(hasSession) && sessionClosed
    {
      sessionClosed := true;
    }
  }

  /** One entry of the application registry `FIRE_TV_TOP_APPS`: its key, display name and package. */
  datatype AppEntry = AppEntry(id: string, name: string, package: string)

  /** The command name for an application: upper-cased, spaces to `_`, `+` to `PLUS`. */
  function CommandName(name: string): (r: string)
    ensures forall c | c in r :: !('a' <= c <= 'z') && c != ' ' && c != '+'
  {
    var upper := Upper(name);
    var spaced := ReplaceAll(upper, " ", "_");
    ReplaceChars(upper, " ", "_");
    ReplaceCharGone(upper, ' ', "_");
    ReplaceChars(spaced, "+", "PLUS");
    ReplaceCharGone(spaced, '+', "PLUS");
    ReplaceAll(spaced, "+", "PLUS")
  }

  /** A name that is already upper-case, with no space and no `+`, is its own command name. */
  lemma CommandNameFixed(name: string)
    requires forall c | c in name :: !('a' <= c <= 'z') && c != ' ' && c != '+'
    ensures CommandName(name) == name
  {
    forall i | 0 <= i < |name| ensures Upper(name)[i] == name[i] {
      assert name[i] in name;
    }
    assert Upper(name) == name;
    CharAbsent(name, ' ');
    ReplaceAbsent(name, " ", "_");
    CharAbsent(name, '+');
    ReplaceAbsent(name, "+", "PLUS");
  }

  /** The persisted device configuration (intg_firetv/config.py). */
  datatype FireTVConfig = FireTVConfig(identifier: string, name: string, host: string, port: int, token: string)
}
