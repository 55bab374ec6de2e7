/**
 * The authentication protocols of the armet pipeline.  Their `authenticate`
 * is three-valued the other way round from flapjack's: False means "cannot
 * authenticate", None means "attempted but failed", anything else is the user.
 */
module ArmetAuth {
  import opened Common
  import opened Text

  datatype Kind = Base | BasicAuthentication

  datatype Authenticator = Authenticator(kind: Kind, allowAnonymous: bool)

  datatype Verdict =
    | CannotAuthenticate   // False
    | Failed               // None
    | Authenticated(user: User)
    | Crashed              // an exception escapes

  /** The error `unauthenticated()` raises (`armet.http.exceptions.Forbidden`). */
  datatype Rejection = ForbiddenResponse

  /**
   * `get_user(resource, username=..., password=...)`: either the inherited
   * method, whose signature does not take the resource and so raises a
   * TypeError, or a subclass override returning a user or None.
   */
  datatype UserHook = Inherited | Override(lookup: (string, string) -> Option<User>)

  /** `Authentication(**kwargs)` */
  function NewAuthentication(allowAnonymous: Option<bool>): (a: Authenticator)
    ensures a.kind == Base && a.allowAnonymous == allowAnonymous.GetOr(true)
  {
    Authenticator(Base, allowAnonymous.GetOr(true))
  }

  /** `BasicAuthentication(**kwargs)`: `setdefault` supplies False only when the caller gave nothing. */
  function NewBasicAuthentication(allowAnonymous: Option<bool>): (a: Authenticator)
    ensures a.kind == BasicAuthentication && a.allowAnonymous == allowAnonymous.GetOr(false)
  {
    var given := if allowAnonymous.None? then Some(false) else allowAnonymous;
    Authenticator(BasicAuthentication, NewAuthentication(given).allowAnonymous)
  }

  /** `unauthenticated()` raises Forbidden whatever the protocol. */
  function Unauthenticated(a: Authenticator): Rejection {
    ForbiddenResponse
  }

  /**
   * `authenticate(resource)` given the `Authorization` header, base64 plus
   * UTF-8 decoding (None where either raises ValueError) and the user hook.
   */
  function Authenticate(a: Authenticator, authorization: Option<string>,
                        decode: string -> Option<string>, hook: UserHook): (v: Verdict)
    ensures v.Authenticated? ==> a.kind == BasicAuthentication && authorization.Some? && hook.Override?
    ensures v.Crashed? ==> a.kind == BasicAuthentication && authorization.Some? && hook.Inherited?
  {
    match a.kind
    case Base => Failed
    case BasicAuthentication =>
      var header := authorization.GetOr("");
      match SplitOnce(header, ' ')
      case None => CannotAuthenticate
      case Some((scheme, creds)) =>
        if Lower(scheme) != "basic" then CannotAuthenticate
        else match decode(creds)
          case None => Failed
          case Some(plain) =>
            match SplitOnce(plain, ':')
            case None => Failed
            case Some((username, password)) =>
              match hook
              case Inherited => Crashed
              case Override(lookup) =>
                match lookup(username, password)
                case None => Failed
                case Some(u) => Authenticated(u)
  }

  lemma Defaults()
    ensures NewAuthentication(None).allowAnonymous
    ensures !NewBasicAuthentication(None).allowAnonymous
    ensures forall b: bool :: NewBasicAuthentication(Some(b)).allowAnonymous == b
  {
  }

  lemma BaseProtocol(a: Authenticator, authorization: Option<string>,
                     decode: string -> Option<string>, hook: UserHook)
    requires a.kind == Base
    ensures Authenticate(a, authorization, decode, hook) == Failed
    ensures Unauthenticated(a) == ForbiddenResponse
  {
  }

  /** An absent header, or one without a space, cannot be used. */
  lemma MalformedHeader(a: Authenticator, authorization: Option<string>,
                        decode: string -> Option<string>, hook: UserHook)
    requires a.kind == BasicAuthentication
    requires authorization.None? || ' ' !in authorization.value
    ensures Authenticate(a, authorization, decode, hook) == CannotAuthenticate
  {
  }

  /**
   * For a header `scheme creds` (the scheme holding no space): a scheme other
   * than `basic` in any case cannot be used; undecodable credentials or
   * credentials without a colon are a failed attempt; otherwise the user
   * hook is asked with the text before the first colon as username and all
   * the rest, colons included, as password.
   */
  lemma {:induction false} BasicOutcomes(a: Authenticator, scheme: string, creds: string,
                                      decode: string -> Option<string>, hook: UserHook)
    requires a.kind == BasicAuthentication && ' ' !in scheme
    ensures var v := Authenticate(a, Some(scheme + " " + creds), decode, hook);
      && (Lower(scheme) != "basic" ==> v == CannotAuthenticate)
      && (Lower(scheme) == "basic" && decode(creds).None? ==> v == Failed)
      && (Lower(scheme) == "basic" && decode(creds).Some? && ':' !in decode(creds).value ==> v == Failed)
  {
    SplitOnceUnique(scheme + " " + creds, ' ', scheme, creds);
  }

  lemma {:induction false} CredentialsPassedOn(a: Authenticator, scheme: string, creds: string,
                                            username: string, password: string,
                                            decode: string -> Option<string>,
                                            lookup: (string, string) -> Option<User>)
    requires a.kind == BasicAuthentication && ' ' !in scheme && Lower(scheme) == "basic"
    requires decode(creds) == Some(username + ":" + password) && ':' !in username
    ensures Authenticate(a, Some(scheme + " " + creds), decode, Override(lookup)) ==
      match lookup(username, password)
      case None => Failed
      case Some(u) => Authenticated(u)
    ensures Authenticate(a, Some(scheme + " " + creds), decode, Inherited) == Crashed
  {
    SplitOnceUnique(scheme + " " + creds, ' ', scheme, creds);
    SplitOnceUnique(username + ":" + password, ':', username, password);
  }
}
