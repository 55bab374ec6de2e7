/**
 * The authentication protocols of the flapjack pipeline: the base protocol,
 * which lets everybody in as the anonymous user, and HTTP Basic, which reads
 * the `Authorization` header.  Header and Http are abstract classes; Basic is
 * the one concrete protocol built on them.
 */
module FlapjackAuth {
  import opened Common
  import opened Text

  datatype Protocol =
    | Plain   // `Authentication` itself
    | Basic(challenge: bool, realm: string, usernameField: string, passwordField: string)

  /** An authentication protocol instance with its configuration flags. */
  datatype Authenticator = Authenticator(requireActive: bool, allowAnonymous: bool, protocol: Protocol)

  /**
   * What `authenticate(request)` gives: None (no opinion), a user object
   * (possibly the anonymous user), or an exception that is not caught.
   */
  datatype Verdict = Abstain | Identified(user: User) | Crashed

  /**
   * The collaborators Basic relies on: base64 decoding of the credentials
   * (None where `str.decode('base64')` raises) and Django's `authenticate`
   * called with keyword arguments.
   */
  datatype Backend = Backend(
    base64Decode: string -> Option<string>,
    checkCredentials: map<string, string> -> Option<User>)

  /** The values the configuration holds under the keys that Http and Basic consult. */
  datatype Settings = Settings(
    challenge: Option<bool>, realm: Option<string>, username: Option<string>, password: Option<string>)

  /** `utils.config_fallback(value, key, default)`: the given value, else the configured one, else the default. */
  function Fallback<T>(given: Option<T>, configured: Option<T>, default: T): (r: T)
    ensures given.Some? ==> r == given.value
    ensures given.None? && configured.Some? ==> r == configured.value
    ensures given.None? && configured.None? ==> r == default
  {
    if given.Some? then given.value else configured.GetOr(default)
  }

  /** `Authentication(**kwargs)` */
  function NewAuthentication(requireActive: Option<bool>, allowAnonymous: Option<bool>): (a: Authenticator)
    ensures a.protocol == Plain
    ensures a.requireActive == requireActive.GetOr(true)
    ensures a.allowAnonymous == allowAnonymous.GetOr(true)
  {
    Authenticator(requireActive.GetOr(true), allowAnonymous.GetOr(true), Plain)
  }

  /**
   * `Basic(**kwargs)`: Header turns an absent `allow_anonymous` into False
   * before the base constructor sees it; then Http and Basic fill their own
   * settings from the arguments, the configuration or the built-in defaults.
   */
  function NewBasic(
    requireActive: Option<bool>, allowAnonymous: Option<bool>,
    challenge: Option<bool>, realm: Option<string>,
    username: Option<string>, password: Option<string>,
    settings: Settings): (a: Authenticator)
    ensures a.protocol.Basic?
    ensures a.requireActive == requireActive.GetOr(true)
    ensures a.allowAnonymous == allowAnonymous.GetOr(false)
    ensures a.protocol.challenge == Fallback(challenge, settings.challenge, true)
    ensures a.protocol.realm == Fallback(realm, settings.realm, "django:flapjack")
    ensures a.protocol.usernameField == Fallback(username, settings.username, "username")
    ensures a.protocol.passwordField == Fallback(password, settings.password, "password")
  {
    var anonymous := if allowAnonymous.None? then Some(false) else allowAnonymous;
    var base := NewAuthentication(requireActive, anonymous);
    Authenticator(base.requireActive, base.allowAnonymous,
      Basic(Fallback(challenge, settings.challenge, true),
            Fallback(realm, settings.realm, "django:flapjack"),
            Fallback(username, settings.username, "username"),
            Fallback(password, settings.password, "password")))
  }

  /** `is_active(user)`: the user's flag when activity is required, otherwise False. */
  predicate IsActive(a: Authenticator, user: User) {
    if a.requireActive then user.Active() else false
  }

  /** `Basic.can_authenticate(method)` */
  predicate CanAuthenticate(scheme: string) {
    Lower(scheme) == "basic"
  }

  /** The outcome of `Basic.get_user(credentials)`: a user or None, or an uncaught exception. */
  datatype Lookup = Found(user: Option<User>) | LookupFailed

  function GetUser(p: Protocol, credentials: string, backend: Backend): (r: Lookup)
    requires p.Basic?
    ensures r.LookupFailed? <==>
      backend.base64Decode(Strip(credentials)).None? || ':' !in backend.base64Decode(Strip(credentials)).value
  {
    match backend.base64Decode(Strip(credentials))
    case None => LookupFailed          // binascii.Error escapes
    case Some(plain) =>
      match SplitOnce(plain, ':')
      case None => LookupFailed        // ValueError on unpacking escapes
      case Some((name, secret)) =>
        Found(backend.checkCredentials(map[p.usernameField := name][p.passwordField := secret]))
  }

  /**
   * `authenticate(request)`, given the request's `Authorization` header.
   * The base protocol always hands out the anonymous user; only a Basic
   * protocol that was sent a header can hand out an account or raise.
   */
  function Authenticate(a: Authenticator, authorization: Option<string>, backend: Backend): (v: Verdict)
    ensures a.protocol.Plain? ==> v == Identified(Anonymous)
    ensures v.Crashed? ==> a.protocol.Basic? && authorization.Some?
    ensures v.Identified? && v.user.IsAuthenticated() ==> a.protocol.Basic? && authorization.Some?
  {
    match a.protocol
    case Plain => Identified(Anonymous)
    case Basic(_, _, _, _) =>
      match authorization
      case None => Abstain             // AttributeError on `None.split`
      case Some(header) =>
        match SplitOnce(header, ' ')
        case None => Crashed           // ValueError on unpacking is not caught
        case Some((scheme, credentials)) =>
          if !CanAuthenticate(scheme) then Abstain
          else match GetUser(a.protocol, credentials, backend)
            case LookupFailed => Crashed
            case Found(user) =>
              if user.None? || !IsActive(a, user.value) then Identified(Anonymous)
              else Identified(user.value)
  }

  /** The `Unauthenticated` error of a protocol. */
  function Unauthenticated(a: Authenticator): (e: HttpError)
    ensures e == AuthenticationRequired || e.Unauthorized?
    ensures e.Unauthorized? <==> a.protocol.Basic? && a.protocol.challenge
    ensures e.Unauthorized? ==> e.realm == a.protocol.realm
  {
    match a.protocol
    case Plain => AuthenticationRequired
    case Basic(challenge, realm, _, _) => if challenge then Unauthorized(realm) else AuthenticationRequired
  }

  /** The base protocol's defaults, and that it always yields the anonymous user. */
  lemma PlainProtocol(authorization: Option<string>, backend: Backend)
    ensures NewAuthentication(None, None) == Authenticator(true, true, Plain)
    ensures forall a: Authenticator :: a.protocol == Plain ==>
      Authenticate(a, authorization, backend) == Identified(Anonymous) &&
      Unauthenticated(a) == AuthenticationRequired
  {
  }

  /** Basic with no arguments and nothing configured. */
  lemma BasicDefaults()
    ensures NewBasic(None, None, None, None, None, None, Settings(None, None, None, None))
      == Authenticator(true, false, Basic(true, "django:flapjack", "username", "password"))
  {
  }

  /** The scheme check is a case-insensitive comparison with `basic`. */
  lemma CanAuthenticateIgnoresCase(scheme: string)
    ensures CanAuthenticate(scheme) <==>
      |scheme| == 5 && forall i :: 0 <= i < 5 ==> scheme[i] == "basic"[i] || scheme[i] == "BASIC"[i]
  {
    LowerEqualsIgnoringCase(scheme, "basic");
    assert forall i :: 0 <= i < 5 ==> UpperChar("basic"[i]) == "BASIC"[i];
  }

  /**
   * The outcomes of Basic authentication, read off the header: no header
   * or a foreign scheme gives no opinion; a header without a space and
   * undecodable credentials escape as exceptions; a missing or inactive
   * user gives the anonymous user; otherwise the user the backend found.
   */
  lemma {:induction false} BasicOutcomes(a: Authenticator, header: string, backend: Backend, scheme: string, credentials: string)
    requires a.protocol.Basic?
    requires header == scheme + " " + credentials && ' ' !in scheme
    ensures !CanAuthenticate(scheme) ==> Authenticate(a, Some(header), backend) == Abstain
    ensures CanAuthenticate(scheme) ==>
      Authenticate(a, Some(header), backend) ==
        match GetUser(a.protocol, credentials, backend)
        case LookupFailed => Crashed
        case Found(None) => Identified(Anonymous)
        case Found(Some(u)) => if IsActive(a, u) then Identified(u) else Identified(Anonymous)
  {
    var split := SplitOnce(header, ' ');
    assert split.Some?;
    SplitOnceUnique(header, ' ', scheme, credentials);
  }

  lemma NoHeaderAbstains(a: Authenticator, backend: Backend)
    requires a.protocol.Basic?
    ensures Authenticate(a, None, backend) == Abstain
  {
  }

  lemma SpacelessHeaderCrashes(a: Authenticator, header: string, backend: Backend)
    requires a.protocol.Basic? && ' ' !in header
    ensures Authenticate(a, Some(header), backend) == Crashed
  {
  }

  /**
   * Only an active user passes, and only when activity is required: with
   * `require_active` off every retrieved user is demoted to the anonymous user.
   */
  lemma AuthenticatedMeansActive(a: Authenticator, authorization: Option<string>, backend: Backend)
    ensures Authenticate(a, authorization, backend).Identified? &&
            Authenticate(a, authorization, backend).user.IsAuthenticated() ==>
      a.requireActive && Authenticate(a, authorization, backend).user.isActive
  {
  }
}
