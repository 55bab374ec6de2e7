/**
 * The request cycle of a flapjack resource (`BaseResource`): the view entry
 * point, the dispatch stages (authentication, verb resolution, encoder and
 * decoder negotiation, the handler and response building) and the decisions
 * each stage makes.  A resource class is seen through the attributes Meta
 * has settled, with its encoder, decoder and authenticator classes loaded.
 */
module Resources {
  import opened Common
  import opened Text
  import FlapjackAuth
  import FlapjackEncoders
  import ResourceMeta

  /**
   * An encoder or decoder object as dispatch uses it: its name, and which of
   * the attributes dispatch reads it actually has.  `mimetype` is None when
   * the object has no `mimetype` attribute; `hasCanTranscode` and
   * `hasEncode` say whether it has the `can_transcode` and `encode` methods.
   * Reading an attribute the object lacks raises AttributeError.
   */
  datatype Transcoder = Transcoder(name: string, mimetype: Option<string>, hasCanTranscode: bool, hasEncode: bool)

  /** The class attributes of a resource that dispatch reads. */
  datatype Definition = Definition(
    httpMethodNames: seq<string>,
    listMethods: seq<string>,
    detailMethods: seq<string>,
    listOperations: seq<string>,
    detailOperations: seq<string>,
    encoders: map<string, Transcoder>,
    allowedEncoders: seq<string>,
    defaultEncoder: string,
    decoders: seq<Transcoder>,
    authentication: seq<FlapjackAuth.Authenticator>)

  /**
   * The `json` encoder of `BaseResource`: an instance of
   * `flapjack.encoders.Json`, loaded from its dotted path.  That class
   * offers `get_mimetype`, `can_emit` and `emit`, and none of the three
   * attributes dispatch reads.
   */
  const ShippedJson: Transcoder := Transcoder("json", None, false, false)

  /**
   * A `json` encoder with the interface dispatch expects, adapting
   * `flapjack.encoders.Json`: its `mimetype` is `get_mimetype()`, its
   * `can_transcode` is `can_emit` and its `encode` is `emit`.
   */
  const ConformingJson: Transcoder :=
    Transcoder("json", FlapjackEncoders.GetMimetype(FlapjackEncoders.Json), true, true)

  /**
   * The class `Resource` (`BaseResource` passed through Meta, with nothing
   * configured), with `json` as the object registered under `json`.  The
   * decoder classes are not part of this model and come as a parameter.
   */
  function BaseWith(json: Transcoder, decoders: seq<Transcoder>): Definition {
    Definition(
      ["get", "post", "put", "delete", "patch", "options", "head", "connect", "trace"],
      ["get", "post", "put", "delete"], ["get", "post", "put", "delete"],
      ["read", "create", "update", "destroy"], ["read", "create", "update", "destroy"],
      map["json" := json], ["json"], "json", decoders,
      [FlapjackAuth.NewAuthentication(None, None)])
  }

  /** The resource as shipped: its `json` encoder is `flapjack.encoders.Json`. */
  function BaseDefinition(decoders: seq<Transcoder>): Definition {
    BaseWith(ShippedJson, decoders)
  }

  /** The same resource with an encoder that has the interface dispatch reads. */
  function ConformingDefinition(decoders: seq<Transcoder>): Definition {
    BaseWith(ConformingJson, decoders)
  }

  // HTTP status codes and request keys.
  const OK: int := 200
  const NO_CONTENT: int := 204
  const INTERNAL_SERVER_ERROR: int := 500
  const OverrideKey: string := "HTTP_X_HTTP_METHOD_OVERRIDE"
  const AcceptKey: string := "HTTP_ACCEPT"
  const ContentTypeKey: string := "CONTENT_TYPE"
  const AuthorizationKey: string := "HTTP_AUTHORIZATION"

  /** Exceptions other than `flapjack.exceptions.Error` that escape a stage. */
  datatype Fault =
    | UnboundAuthenticator   // empty authentication list: `auth` is unbound after the loop
    | AuthenticatorFault     // an authenticator raised
    | MissingAcceptKey       // KeyError on `META['HTTP_ACCEPT']`
    | UnregisteredEncoder    // KeyError on `self.encoders[name]`
    | MissingReadHook        // the resource has no `read`
    | NotIndexable           // `items[0]` on a value that cannot be indexed
    | NullEncoder            // `None.encode` when no encoder was found
    | MissingAttribute       // AttributeError: no `mimetype`, `can_transcode` or `encode`
    | UnknownSubResource     // `traverse` gives None for a non-empty path

  /** What a stage gives: a value, a typed error, or an escaping exception. */
  datatype Outcome<T> = Ok(value: T) | Raise(error: HttpError) | Crash(fault: Fault)

  /** The handler methods of `BaseResource`. */
  datatype Handler = GetHandler | PostHandler

  /** `getattr(resource, name, None)` for a lower-case verb. */
  function HandlerNamed(name: string): (h: Option<Handler>)
    ensures h == Some(GetHandler) <==> name == "get"
    ensures h == Some(PostHandler) <==> name == "post"
  {
    if name == "get" then Some(GetHandler) else if name == "post" then Some(PostHandler) else None
  }

  /** The response object: status, body and Content-Type header. */
  datatype Response = Response(status: int, content: Option<string>, contentType: Option<string>)

  /**
   * The collaborators outside the model: the authentication backend, what
   * `can_transcode` and `encode` return on objects that have them, and the
   * resource's `read` hook (None when the resource does not define one).
   */
  datatype Collaborators = Collaborators(
    backend: FlapjackAuth.Backend,
    canTranscode: (Transcoder, string) -> bool,
    encode: (Transcoder, Data) -> string,
    read: Option<Data>)

  /** The `Authorization` header of a request, if it has one. */
  function Authorization(meta: map<string, string>): Option<string> {
    if AuthorizationKey in meta then Some(meta[AuthorizationKey]) else None
  }

  // ------------------------------------------------------- authentication

  /** The result of the authentication loop. */
  datatype ChainResult =
    | Bound(user: User, index: nat)    // the user bound to `request.user`, by authenticator `index`
    | Exhausted(error: HttpError)      // the last authenticator's `Unauthenticated`
    | ChainFault(fault: Fault)

  function VerdictAt(auths: seq<FlapjackAuth.Authenticator>, i: nat, header: Option<string>,
                     backend: FlapjackAuth.Backend): FlapjackAuth.Verdict
    requires i < |auths|
  {
    FlapjackAuth.Authenticate(auths[i], header, backend)
  }

  /** The loop stops at a user who is authenticated or whom the authenticator lets in anonymously. */
  predicate Accepts(a: FlapjackAuth.Authenticator, v: FlapjackAuth.Verdict) {
    v.Identified? && (v.user.IsAuthenticated() || a.allowAnonymous)
  }

  /** The loop goes on after no opinion, or after a user it does not accept. */
  predicate PassesOn(a: FlapjackAuth.Authenticator, v: FlapjackAuth.Verdict) {
    v.Abstain? || (v.Identified? && !Accepts(a, v))
  }

  function ChainFrom(auths: seq<FlapjackAuth.Authenticator>, i: nat, header: Option<string>,
                     backend: FlapjackAuth.Backend): (r: ChainResult)
    requires 0 < |auths| && i <= |auths|
    ensures r.Bound? ==> i <= r.index < |auths| && Accepts(auths[r.index], VerdictAt(auths, r.index, header, backend))
    ensures r.ChainFault? ==> r.fault == AuthenticatorFault
    decreases |auths| - i
  {
    if i == |auths| then Exhausted(FlapjackAuth.Unauthenticated(auths[|auths| - 1]))
    else
      var v := VerdictAt(auths, i, header, backend);
      if v.Crashed? then ChainFault(AuthenticatorFault)
      else if Accepts(auths[i], v) then Bound(v.user, i)
      else ChainFrom(auths, i + 1, header, backend)
  }

  /** `authenticate()` over the resource's authenticators. */
  function Chain(auths: seq<FlapjackAuth.Authenticator>, header: Option<string>,
                 backend: FlapjackAuth.Backend): (r: ChainResult)
    ensures r.Bound? ==> r.index < |auths| && Accepts(auths[r.index], VerdictAt(auths, r.index, header, backend))
    ensures r.ChainFault? ==> (r.fault == UnboundAuthenticator <==> auths == [])
    ensures r.ChainFault? && auths != [] ==> r.fault == AuthenticatorFault
  {
    if auths == [] then ChainFault(UnboundAuthenticator) else ChainFrom(auths, 0, header, backend)
  }

  /** Authenticators `lo` up to (not including) `hi` all passed on. */
  predicate PassedOn(auths: seq<FlapjackAuth.Authenticator>, lo: nat, hi: nat, header: Option<string>,
                     backend: FlapjackAuth.Backend)
    requires hi <= |auths|
  {
    forall j :: lo <= j < hi ==> PassesOn(auths[j], VerdictAt(auths, j, header, backend))
  }

  lemma PassedOnShift(auths: seq<FlapjackAuth.Authenticator>, lo: nat, hi: nat, header: Option<string>,
                      backend: FlapjackAuth.Backend)
    requires lo < hi <= |auths|
    ensures PassedOn(auths, lo, hi, header, backend) <==>
      PassesOn(auths[lo], VerdictAt(auths, lo, header, backend)) && PassedOn(auths, lo + 1, hi, header, backend)
  {
  }

  /** One turn of the authentication loop. */
  lemma ChainFromStep(auths: seq<FlapjackAuth.Authenticator>, i: nat, header: Option<string>,
                      backend: FlapjackAuth.Backend)
    requires i < |auths|
    ensures var v := VerdictAt(auths, i, header, backend);
      ChainFrom(auths, i, header, backend) ==
        if v.Crashed? then ChainFault(AuthenticatorFault)
        else if Accepts(auths[i], v) then Bound(v.user, i)
        else ChainFrom(auths, i + 1, header, backend)
  {
  }

  lemma {:induction false} ChainFromBinds(auths: seq<FlapjackAuth.Authenticator>, i: nat, header: Option<string>,
                                       backend: FlapjackAuth.Backend, k: nat)
    requires 0 < |auths| && i <= k < |auths|
    ensures ChainFrom(auths, i, header, backend).Bound? && ChainFrom(auths, i, header, backend).index == k
      <==> Accepts(auths[k], VerdictAt(auths, k, header, backend)) && PassedOn(auths, i, k, header, backend)
    ensures ChainFrom(auths, i, header, backend).Bound? && ChainFrom(auths, i, header, backend).index == k ==>
      ChainFrom(auths, i, header, backend).user == VerdictAt(auths, k, header, backend).user
    decreases k - i
  {
    ChainFromStep(auths, i, header, backend);
    if i < k {
      ChainFromBinds(auths, i + 1, header, backend, k);
      PassedOnShift(auths, i, k, header, backend);
    }
  }

  lemma {:induction false} ChainFromExhausts(auths: seq<FlapjackAuth.Authenticator>, i: nat, header: Option<string>,
                                          backend: FlapjackAuth.Backend)
    requires 0 < |auths| && i <= |auths|
    ensures ChainFrom(auths, i, header, backend).Exhausted? <==>
      forall j :: i <= j < |auths| ==> PassesOn(auths[j], VerdictAt(auths, j, header, backend))
    ensures ChainFrom(auths, i, header, backend).Exhausted? ==>
      ChainFrom(auths, i, header, backend).error == FlapjackAuth.Unauthenticated(auths[|auths| - 1])
    decreases |auths| - i
  {
    if i < |auths| {
      ChainFromExhausts(auths, i + 1, header, backend);
      var v := VerdictAt(auths, i, header, backend);
      if PassesOn(auths[i], v) {
        assert ChainFrom(auths, i, header, backend) == ChainFrom(auths, i + 1, header, backend);
      } else {
        assert !ChainFrom(auths, i, header, backend).Exhausted?;
      }
    }
  }

  /**
   * Authenticator `k` binds its user exactly when it accepts the user and
   * every earlier authenticator passed on; no later authenticator matters.
   */
  lemma ChainBinds(auths: seq<FlapjackAuth.Authenticator>, header: Option<string>,
                   backend: FlapjackAuth.Backend, k: nat)
    requires k < |auths|
    ensures Chain(auths, header, backend).Bound? && Chain(auths, header, backend).index == k
      <==> Accepts(auths[k], VerdictAt(auths, k, header, backend)) &&
           forall j :: 0 <= j < k ==> PassesOn(auths[j], VerdictAt(auths, j, header, backend))
    ensures Chain(auths, header, backend).Bound? && Chain(auths, header, backend).index == k ==>
      Chain(auths, header, backend).user == VerdictAt(auths, k, header, backend).user
  {
    ChainFromBinds(auths, 0, header, backend, k);
  }

  /**
   * The loop is exhausted exactly when every authenticator passed on, and
   * then the last authenticator's `Unauthenticated` error is raised; an
   * empty list leaves nothing to raise.
   */
  lemma ChainExhausts(auths: seq<FlapjackAuth.Authenticator>, header: Option<string>, backend: FlapjackAuth.Backend)
    ensures Chain(auths, header, backend).Exhausted? <==>
      auths != [] && forall j :: 0 <= j < |auths| ==> PassesOn(auths[j], VerdictAt(auths, j, header, backend))
    ensures Chain(auths, header, backend).Exhausted? ==>
      Chain(auths, header, backend).error == FlapjackAuth.Unauthenticated(auths[|auths| - 1])
    ensures auths == [] ==> Chain(auths, header, backend) == ChainFault(UnboundAuthenticator)
  {
    if auths != [] {
      ChainFromExhausts(auths, 0, header, backend);
    }
  }

  /** With the default authenticator every request proceeds as the anonymous user. */
  lemma DefaultAuthenticationAdmits(header: Option<string>, backend: FlapjackAuth.Backend)
    ensures Chain([FlapjackAuth.NewAuthentication(None, None)], header, backend) == Bound(Anonymous, 0)
  {
    FlapjackAuth.PlainProtocol(header, backend);
  }

  // --------------------------------------------------------- verb resolution

  /** `_allowed_methods`: the detail set when an identifier is present, else the list set. */
  function AllowedMethods(def: Definition, identifier: Option<string>): (r: seq<string>)
    ensures identifier.Some? ==> r == def.detailMethods
    ensures identifier.None? ==> r == def.listMethods
  {
    if identifier.Some? then def.detailMethods else def.listMethods
  }

  /** The argument of MethodNotAllowed: the allowed verbs, upper-cased, joined by `, `. */
  function AllowHeader(allowed: seq<string>): string {
    Strip(Join(UpperAll(allowed), ", "))
  }

  /** The verb `_determine_method` checks: the lower-cased override header, else the request's verb. */
  function RequestedVerb(requestMethod: string, meta: map<string, string>): string {
    if OverrideKey in meta then Lower(meta[OverrideKey]) else Lower(requestMethod)
  }

  /** `request.method` after `_determine_method`. */
  function MethodAfter(requestMethod: string, meta: map<string, string>): string {
    if OverrideKey in meta then Upper(Lower(meta[OverrideKey])) else requestMethod
  }

  /** `_determine_method()`: a handler only for a verb the library knows and the scope allows. */
  function ResolveVerb(def: Definition, identifier: Option<string>, requestMethod: string,
                       meta: map<string, string>): (r: Outcome<Handler>)
    ensures !r.Crash?
    ensures r.Ok? ==> RequestedVerb(requestMethod, meta) in def.httpMethodNames &&
                      RequestedVerb(requestMethod, meta) in AllowedMethods(def, identifier)
  {
    var verb := RequestedVerb(requestMethod, meta);
    if verb !in def.httpMethodNames then Raise(NotImplemented)
    else if verb !in AllowedMethods(def, identifier) then Raise(MethodNotAllowed(AllowHeader(AllowedMethods(def, identifier))))
    else match HandlerNamed(Lower(MethodAfter(requestMethod, meta)))
      case None => Raise(NotImplemented)
      case Some(h) => Ok(h)
  }

  /** The handler is looked up by the rewritten `request.method`, which names the checked verb. */
  lemma HandlerFollowsVerb(requestMethod: string, meta: map<string, string>)
    ensures Lower(MethodAfter(requestMethod, meta)) == RequestedVerb(requestMethod, meta)
  {
    if OverrideKey in meta {
      LowerOfUpper(Lower(meta[OverrideKey]));
      LowerIdempotent(meta[OverrideKey]);
    }
  }

  /**
   * The override header, in any casing, decides instead of the request's
   * own verb: two requests with the same override resolve alike.
   */
  lemma OverrideWins(def: Definition, identifier: Option<string>, m1: string, m2: string, meta: map<string, string>)
    requires OverrideKey in meta
    ensures ResolveVerb(def, identifier, m1, meta) == ResolveVerb(def, identifier, m2, meta)
    ensures RequestedVerb(m1, meta) == Lower(meta[OverrideKey])
    ensures MethodAfter(m1, meta) == Upper(Lower(meta[OverrideKey]))
  {
  }

  /**
   * Verb resolution: a verb the library does not understand is
   * NotImplemented; one outside the scope's set is MethodNotAllowed with
   * the allowed verbs; an allowed verb with no handler is NotImplemented;
   * otherwise the handler of that name.
   */
  lemma {:induction false} VerbOutcomes(def: Definition, identifier: Option<string>, requestMethod: string,
                                     meta: map<string, string>)
    ensures var verb := RequestedVerb(requestMethod, meta);
      var r := ResolveVerb(def, identifier, requestMethod, meta);
      && (r == Raise(NotImplemented) <==>
            verb !in def.httpMethodNames || (verb in AllowedMethods(def, identifier) && HandlerNamed(verb).None?))
      && (r.Raise? && r.error.MethodNotAllowed? <==>
            verb in def.httpMethodNames && verb !in AllowedMethods(def, identifier))
      && (r.Raise? && r.error.MethodNotAllowed? ==> r.error.allow == AllowHeader(AllowedMethods(def, identifier)))
      && (r.Ok? <==> verb in def.httpMethodNames && verb in AllowedMethods(def, identifier) && HandlerNamed(verb).Some?)
      && (r.Ok? ==> Some(r.value) == HandlerNamed(verb))
      && !r.Crash?
  {
    HandlerFollowsVerb(requestMethod, meta);
  }

  /** `PUT` and `DELETE` are allowed on `BaseResource` but have no handler. */
  lemma PutAndDeleteNotImplemented(decoders: seq<Transcoder>, identifier: Option<string>,
                                   requestMethod: string, meta: map<string, string>)
    requires RequestedVerb(requestMethod, meta) == "put" || RequestedVerb(requestMethod, meta) == "delete"
    ensures ResolveVerb(BaseDefinition(decoders), identifier, requestMethod, meta) == Raise(NotImplemented)
  {
    HandlerFollowsVerb(requestMethod, meta);
  }

  /**
   * For verb names with no whitespace at either end, the Allow text is the
   * names upper-cased, in their declared order, joined by `, ` (`strip()`
   * leaves it alone).
   */
  lemma AllowHeaderOrder(allowed: seq<string>)
    requires forall i :: 0 <= i < |allowed| ==> Unpadded(allowed[i])
    ensures AllowHeader(allowed) == Join(UpperAll(allowed), ", ")
    ensures |UpperAll(allowed)| == |allowed| && forall i :: 0 <= i < |allowed| ==> UpperAll(allowed)[i] == Upper(allowed[i])
  {
    var upper := UpperAll(allowed);
    forall i | 0 <= i < |upper|
      ensures Unpadded(upper[i])
    {
      UpperUnpadded(allowed[i]);
    }
    JoinUnpadded(upper, ", ");
    StripUnpadded(Join(upper, ", "));
  }

  // ------------------------------------------------------- encoder selection

  /** `encoders.get(name)` */
  function Registered(encoders: map<string, Transcoder>, name: string): (r: Option<Transcoder>)
    ensures r.Some? <==> name in encoders
    ensures r.Some? ==> r.value == encoders[name]
  {
    if name in encoders then Some(encoders[name]) else None
  }

  /** The listing loop can report `name`: it is registered and its object has `mimetype`. */
  predicate Listable(def: Definition, name: string) {
    name in def.encoders && def.encoders[name].mimetype.Some?
  }

  predicate AllListable(def: Definition) {
    forall j :: 0 <= j < |def.allowedEncoders| ==> Listable(def, def.allowedEncoders[j])
  }

  /** The `available` mapping of NotAcceptable: each allowed encoder's name to its media type. */
  function Available(def: Definition): map<string, string> {
    AvailableAmong(def, def.allowedEncoders)
  }

  /** The listable names among `names`, each mapped to its media type. */
  function AvailableAmong(def: Definition, names: seq<string>): map<string, string> {
    map n | n in names && Listable(def, n) :: def.encoders[n].mimetype.value
  }

  /** Listing one more name adds its media type. */
  lemma AvailableExtend(def: Definition, names: seq<string>, name: string)
    requires Listable(def, name)
    ensures AvailableAmong(def, names + [name]) == AvailableAmong(def, names)[name := def.encoders[name].mimetype.value]
  {
  }

  /** The loop building `available` over `names`: the exception it raises at the first name it cannot report. */
  function ListingFault(encoders: map<string, Transcoder>, names: seq<string>): (r: Option<Fault>)
    ensures r.None? <==> forall j :: 0 <= j < |names| ==> names[j] in encoders && encoders[names[j]].mimetype.Some?
    ensures r.Some? ==> r.value == UnregisteredEncoder || r.value == MissingAttribute
    ensures r == Some(UnregisteredEncoder) ==> exists j :: 0 <= j < |names| && names[j] !in encoders
  {
    if names == [] then None
    else if names[0] !in encoders then Some(UnregisteredEncoder)
    else if encoders[names[0]].mimetype.None? then Some(MissingAttribute)
    else
      var r := ListingFault(encoders, names[1..]);
      assert forall j :: 0 <= j < |names[1..]| ==> names[1..][j] == names[j + 1];
      r
  }

  /** One turn of the listing loop, at position `i`. */
  lemma ListingStep(encoders: map<string, Transcoder>, names: seq<string>, i: nat)
    requires i < |names|
    ensures ListingFault(encoders, names[i..]) ==
      if names[i] !in encoders then Some(UnregisteredEncoder)
      else if encoders[names[i]].mimetype.None? then Some(MissingAttribute)
      else ListingFault(encoders, names[i + 1..])
  {
    assert names[i..][1..] == names[i + 1..];
  }

  /** The fall-through of `_determine_encoder`: NotAcceptable, or the exception the listing loop raises. */
  function NotAcceptableFor(def: Definition): (r: Outcome<Option<Transcoder>>)
    ensures r.Raise? <==> AllListable(def)
    ensures r.Raise? ==> r.error == NotAcceptable(Available(def))
    ensures r.Crash? ==> r.fault == UnregisteredEncoder || r.fault == MissingAttribute
    ensures !r.Ok?
  {
    match ListingFault(def.encoders, def.allowedEncoders)
    case None => Raise(NotAcceptable(Available(def)))
    case Some(f) => Crash(f)
  }

  /** Name `name` is registered, and its object has `can_transcode`. */
  predicate Consultable(def: Definition, name: string) {
    name in def.encoders && def.encoders[name].hasCanTranscode
  }

  /** The loop over the allowed encoders for an Accept header. */
  function ScanEncoders(def: Definition, names: seq<string>, accept: string,
                       canTranscode: (Transcoder, string) -> bool): (r: Outcome<Option<Transcoder>>)
    ensures r.Ok? ==> r.value.Some? && r.value.value in def.encoders.Values
    ensures r.Raise? ==> r == NotAcceptableFor(def)
  {
    if names == [] then NotAcceptableFor(def)
    else if names[0] !in def.encoders then Crash(UnregisteredEncoder)
    else if !def.encoders[names[0]].hasCanTranscode then Crash(MissingAttribute)
    else if canTranscode(def.encoders[names[0]], accept) then Ok(Some(def.encoders[names[0]]))
    else ScanEncoders(def, names[1..], accept, canTranscode)
  }

  /**
   * `_determine_encoder()`: an encoder drawn from the registry, or None when
   * the default is not registered; any NotAcceptable is the fall-through's.
   */
  function NegotiateEncoder(def: Definition, format: Option<string>, meta: map<string, string>,
                            canTranscode: (Transcoder, string) -> bool): (r: Outcome<Option<Transcoder>>)
    ensures r.Ok? && r.value.Some? ==> r.value.value in def.encoders.Values
    ensures r.Raise? ==> r == NotAcceptableFor(def)
  {
    if AcceptKey !in meta then Crash(MissingAcceptKey)
    else if format.Some? then
      var name := Lower(format.value);
      if name in def.allowedEncoders && name in def.encoders then Ok(Some(def.encoders[name]))
      else NotAcceptableFor(def)
    else if Strip(meta[AcceptKey]) != "*/*" then ScanEncoders(def, def.allowedEncoders, meta[AcceptKey], canTranscode)
    else Ok(Registered(def.encoders, def.defaultEncoder))
  }

  /** The request has no Accept header: a KeyError escapes, whatever else it says. */
  lemma MissingAcceptFaults(def: Definition, format: Option<string>, meta: map<string, string>,
                            canTranscode: (Transcoder, string) -> bool)
    requires AcceptKey !in meta
    ensures NegotiateEncoder(def, format, meta, canTranscode) == Crash(MissingAcceptKey)
  {
  }

  /**
   * An explicit format decides by itself: the lower-cased name's encoder
   * when it is allowed and registered, otherwise the NotAcceptable
   * fall-through; the Accept header and the matcher are never consulted.
   */
  lemma FormatDecides(def: Definition, format: string, meta1: map<string, string>, meta2: map<string, string>,
                      ct1: (Transcoder, string) -> bool, ct2: (Transcoder, string) -> bool)
    requires AcceptKey in meta1 && AcceptKey in meta2
    ensures NegotiateEncoder(def, Some(format), meta1, ct1) == NegotiateEncoder(def, Some(format), meta2, ct2)
    ensures NegotiateEncoder(def, Some(format), meta1, ct1) ==
      if Lower(format) in def.allowedEncoders && Lower(format) in def.encoders
      then Ok(Some(def.encoders[Lower(format)])) else NotAcceptableFor(def)
  {
  }

  /** The wildcard range (any media type), surrounded by any whitespace, selects the default encoder, or None when it is not registered. */
  lemma WildcardSelectsDefault(def: Definition, meta: map<string, string>, canTranscode: (Transcoder, string) -> bool)
    requires AcceptKey in meta && Strip(meta[AcceptKey]) == "*/*"
    ensures NegotiateEncoder(def, None, meta, canTranscode) == Ok(Registered(def.encoders, def.defaultEncoder))
  {
  }

  /** Name `k` is the first allowed name whose encoder accepts the header, all before it consulted and refusing. */
  predicate FirstAccepting(def: Definition, names: seq<string>, accept: string,
                           canTranscode: (Transcoder, string) -> bool, k: int) {
    && 0 <= k < |names| && Consultable(def, names[k]) && canTranscode(def.encoders[names[k]], accept)
    && forall j :: 0 <= j < k ==> Consultable(def, names[j]) && !canTranscode(def.encoders[names[j]], accept)
  }

  lemma {:induction false} ScanFindsFirst(def: Definition, names: seq<string>, accept: string,
                                       canTranscode: (Transcoder, string) -> bool, k: int)
    requires FirstAccepting(def, names, accept, canTranscode, k)
    ensures ScanEncoders(def, names, accept, canTranscode) == Ok(Some(def.encoders[names[k]]))
    decreases |names|
  {
    if k > 0 {
      assert FirstAccepting(def, names[1..], accept, canTranscode, k - 1) by {
        forall j | 0 <= j < k - 1
          ensures Consultable(def, names[1..][j]) && !canTranscode(def.encoders[names[1..][j]], accept)
        {
          assert names[1..][j] == names[j + 1];
        }
      }
      ScanFindsFirst(def, names[1..], accept, canTranscode, k - 1);
    }
  }

  lemma {:induction false} ScanChoosesFirst(def: Definition, names: seq<string>, accept: string,
                                         canTranscode: (Transcoder, string) -> bool)
    ensures var r := ScanEncoders(def, names, accept, canTranscode);
      r.Ok? ==> (r.value.Some? &&
        exists k :: FirstAccepting(def, names, accept, canTranscode, k) && r.value.value == def.encoders[names[k]])
    ensures var r := ScanEncoders(def, names, accept, canTranscode);
      r.Raise? ==> (r == NotAcceptableFor(def) &&
        forall k :: 0 <= k < |names| ==> Consultable(def, names[k]) && !canTranscode(def.encoders[names[k]], accept))
    decreases |names|
  {
    var r := ScanEncoders(def, names, accept, canTranscode);
    if names != [] && Consultable(def, names[0]) && !canTranscode(def.encoders[names[0]], accept) {
      ScanChoosesFirst(def, names[1..], accept, canTranscode);
      if r.Ok? {
        var k :| FirstAccepting(def, names[1..], accept, canTranscode, k) &&
          r.value.value == def.encoders[names[1..][k]];
        assert FirstAccepting(def, names, accept, canTranscode, k + 1) by {
          forall j | 0 <= j < k + 1
            ensures Consultable(def, names[j]) && !canTranscode(def.encoders[names[j]], accept)
          {
            if j > 0 { assert names[j] == names[1..][j - 1]; }
          }
        }
      }
      if r.Raise? {
        forall k | 0 <= k < |names|
          ensures Consultable(def, names[k]) && !canTranscode(def.encoders[names[k]], accept)
        {
          if k > 0 { assert names[k] == names[1..][k - 1]; }
        }
      }
    } else if names != [] && Consultable(def, names[0]) {
      assert FirstAccepting(def, names, accept, canTranscode, 0);
    }
  }

  /**
   * With an Accept header other than the wildcard range and no format, the first allowed
   * encoder (in declared order) that can transcode for the header is chosen;
   * NotAcceptable is raised exactly when every allowed encoder is registered,
   * has `can_transcode` and `mimetype`, and refuses.
   */
  lemma AcceptSelectsFirst(def: Definition, meta: map<string, string>,
                           canTranscode: (Transcoder, string) -> bool)
    requires AcceptKey in meta && Strip(meta[AcceptKey]) != "*/*"
    ensures var r := NegotiateEncoder(def, None, meta, canTranscode);
      forall k :: FirstAccepting(def, def.allowedEncoders, meta[AcceptKey], canTranscode, k) ==>
        r == Ok(Some(def.encoders[def.allowedEncoders[k]]))
    ensures var r := NegotiateEncoder(def, None, meta, canTranscode);
      r.Ok? ==>
        exists k :: FirstAccepting(def, def.allowedEncoders, meta[AcceptKey], canTranscode, k) &&
                    r.value == Some(def.encoders[def.allowedEncoders[k]])
    ensures var r := NegotiateEncoder(def, None, meta, canTranscode);
      r.Raise? <==> (AllListable(def) &&
        forall k :: 0 <= k < |def.allowedEncoders| ==>
          Consultable(def, def.allowedEncoders[k]) && !canTranscode(def.encoders[def.allowedEncoders[k]], meta[AcceptKey]))
  {
    var accept := meta[AcceptKey];
    forall k | FirstAccepting(def, def.allowedEncoders, accept, canTranscode, k)
      ensures NegotiateEncoder(def, None, meta, canTranscode) == Ok(Some(def.encoders[def.allowedEncoders[k]]))
    {
      ScanFindsFirst(def, def.allowedEncoders, accept, canTranscode, k);
    }
    ScanChoosesFirst(def, def.allowedEncoders, accept, canTranscode);
    if forall k :: 0 <= k < |def.allowedEncoders| ==>
         Consultable(def, def.allowedEncoders[k]) && !canTranscode(def.encoders[def.allowedEncoders[k]], accept) {
      ScanRejectsAll(def, def.allowedEncoders, accept, canTranscode);
    }
  }

  lemma {:induction false} ScanRejectsAll(def: Definition, names: seq<string>, accept: string,
                                       canTranscode: (Transcoder, string) -> bool)
    requires forall k :: 0 <= k < |names| ==> Consultable(def, names[k]) && !canTranscode(def.encoders[names[k]], accept)
    ensures ScanEncoders(def, names, accept, canTranscode) == NotAcceptableFor(def)
    decreases |names|
  {
    if names != [] {
      assert forall k :: 0 <= k < |names[1..]| ==> names[1..][k] == names[k + 1];
      ScanRejectsAll(def, names[1..], accept, canTranscode);
    }
  }

  /** NotAcceptable lists exactly the allowed encoders, each with its media type. */
  lemma NotAcceptableListsAllowed(def: Definition, format: Option<string>, meta: map<string, string>,
                                  canTranscode: (Transcoder, string) -> bool)
    ensures var r := NegotiateEncoder(def, format, meta, canTranscode);
      r.Raise? ==> (r.error.NotAcceptable? && AllListable(def) &&
        r.error.available.Keys == (set j | 0 <= j < |def.allowedEncoders| :: def.allowedEncoders[j]) &&
        forall j :: 0 <= j < |def.allowedEncoders| ==>
          r.error.available[def.allowedEncoders[j]] == def.encoders[def.allowedEncoders[j]].mimetype.value)
  {
    var names := set j | 0 <= j < |def.allowedEncoders| :: def.allowedEncoders[j];
    if AllListable(def) {
      assert Available(def).Keys == names by {
        forall n | n in Available(def).Keys ensures n in names {
          var j :| 0 <= j < |def.allowedEncoders| && def.allowedEncoders[j] == n;
        }
      }
    }
  }

  // ------------------------------------------------------- decoder selection

  /** The request's Content-Type, `application/octet-stream` when it has none. */
  function ContentType(meta: map<string, string>): (c: string)
    ensures ContentTypeKey in meta ==> c == meta[ContentTypeKey]
    ensures ContentTypeKey !in meta ==> c == "application/octet-stream"
  {
    if ContentTypeKey in meta then meta[ContentTypeKey] else "application/octet-stream"
  }

  /** Decoder `d` has `can_transcode` and refuses the content type. */
  predicate Refuses(d: Transcoder, contentType: string, canTranscode: (Transcoder, string) -> bool) {
    d.hasCanTranscode && !canTranscode(d, contentType)
  }

  /** Every decoder before the `k`-th has `can_transcode` and refused the content type. */
  predicate RefusedBefore(decoders: seq<Transcoder>, contentType: string,
                          canTranscode: (Transcoder, string) -> bool, k: int) {
    0 <= k <= |decoders| && forall j :: 0 <= j < k ==> Refuses(decoders[j], contentType, canTranscode)
  }

  /**
   * `_determine_decoder()`: the first decoder in declared order that can
   * transcode the content type; UnsupportedMediaType when every decoder
   * refuses; AttributeError at a decoder without `can_transcode` reached
   * before any accepts.
   */
  function SelectDecoder(decoders: seq<Transcoder>, contentType: string,
                         canTranscode: (Transcoder, string) -> bool): (r: Outcome<Transcoder>)
    ensures r.Raise? <==> RefusedBefore(decoders, contentType, canTranscode, |decoders|)
    ensures r.Raise? ==> r.error == UnsupportedMediaType
    ensures r.Crash? ==> r.fault == MissingAttribute
    ensures r.Crash? ==> exists k :: k < |decoders| && RefusedBefore(decoders, contentType, canTranscode, k) &&
                                     !decoders[k].hasCanTranscode
    ensures r.Ok? ==> exists k :: k < |decoders| && RefusedBefore(decoders, contentType, canTranscode, k) &&
                                  decoders[k] == r.value && decoders[k].hasCanTranscode &&
                                  canTranscode(decoders[k], contentType)
    decreases |decoders|
  {
    if decoders == [] then Raise(UnsupportedMediaType)
    else if !decoders[0].hasCanTranscode then
      assert RefusedBefore(decoders, contentType, canTranscode, 0);
      Crash(MissingAttribute)
    else if canTranscode(decoders[0], contentType) then
      assert RefusedBefore(decoders, contentType, canTranscode, 0);
      Ok(decoders[0])
    else
      var r := SelectDecoder(decoders[1..], contentType, canTranscode);
      RefusedShift(decoders, contentType, canTranscode);
      r
  }

  /** After a first decoder that refuses, the decoders before `k + 1` refused exactly when those of the rest before `k` did. */
  lemma RefusedShift(decoders: seq<Transcoder>, contentType: string, canTranscode: (Transcoder, string) -> bool)
    requires decoders != [] && Refuses(decoders[0], contentType, canTranscode)
    ensures forall k :: 0 <= k <= |decoders[1..]| ==>
      (RefusedBefore(decoders[1..], contentType, canTranscode, k) <==> RefusedBefore(decoders, contentType, canTranscode, k + 1))
  {
    forall k | 0 <= k <= |decoders[1..]|
      ensures RefusedBefore(decoders[1..], contentType, canTranscode, k) <==> RefusedBefore(decoders, contentType, canTranscode, k + 1)
    {
      assert forall j :: 0 < j < k + 1 ==> decoders[j] == decoders[1..][j - 1];
    }
  }

  // ------------------------------------------------------ operations, get, post

  /** `_allowed_operations` */
  function AllowedOperations(def: Definition, identifier: Option<string>): (r: seq<string>)
    ensures identifier.Some? ==> r == def.detailOperations
    ensures identifier.None? ==> r == def.listOperations
  {
    if identifier.Some? then def.detailOperations else def.listOperations
  }

  function OperationMessage(operation: string): string {
    "Operation not allowed on `" + operation + "`; see `allowed` for allowed operations."
  }

  /** `_assert_operation(operation)`: None when allowed, else the Forbidden error it raises. */
  function AssertOperation(def: Definition, identifier: Option<string>, operation: string): (r: Option<HttpError>)
    ensures r.None? <==> operation in AllowedOperations(def, identifier)
    ensures r.Some? ==> r.value == Forbidden(AllowedOperations(def, identifier), OperationMessage(operation))
  {
    if operation in AllowedOperations(def, identifier) then None
    else Some(Forbidden(AllowedOperations(def, identifier), OperationMessage(operation)))
  }

  /** `get()`: the data and status, given what `read()` returns (None when there is no `read`). */
  function Get(def: Definition, identifier: Option<string>, read: Option<Data>): (r: Outcome<(Data, int)>)
    ensures r.Ok? ==> r.value.1 == OK
    ensures r.Raise? ==> r.error.Forbidden? || r.error == NotFound
    ensures r.Crash? ==> r.fault == MissingReadHook || r.fault == NotIndexable
  {
    match AssertOperation(def, identifier, "read")
    case Some(e) => Raise(e)
    case None =>
      if read.None? then Crash(MissingReadHook)
      else
        var items := read.value;
        if identifier.Some? then
          if !items.Truthy() then Raise(NotFound)
          else if items.Str? || items.Mapping? then Ok((items, OK))
          else if items.List? then Ok((items.items[0], OK))
          else Crash(NotIndexable)
        else Ok((if items.Null? then List([]) else items, OK))
  }

  /**
   * The shaping of `get`: Forbidden unless `read` is allowed in the scope;
   * in detail scope a falsy result is NotFound, a string or mapping is kept
   * whole and a sequence is reduced to its first element; in list scope
   * None becomes the empty list; the status is always OK.
   */
  lemma GetShaping(def: Definition, identifier: Option<string>, read: Option<Data>)
    ensures var r := Get(def, identifier, read);
      && ("read" !in AllowedOperations(def, identifier) <==> r.Raise? && r.error.Forbidden?)
      && (r.Raise? && r.error.Forbidden? ==>
            r.error.allowed == AllowedOperations(def, identifier) && r.error.message == OperationMessage("read"))
      && (r.Ok? ==> r.value.1 == OK)
      && (r == Raise(NotFound) <==>
            "read" in AllowedOperations(def, identifier) && identifier.Some? && read.Some? && !read.value.Truthy())
      && ("read" in AllowedOperations(def, identifier) && read.Some? ==>
            if identifier.None? then r == Ok((if read.value.Null? then List([]) else read.value, OK))
            else if !read.value.Truthy() then r == Raise(NotFound)
            else if read.value.List? then r == Ok((read.value.items[0], OK))
            else if read.value.Str? || read.value.Mapping? then r == Ok((read.value, OK))
            else r == Crash(NotIndexable))
  {
  }

  /** `post()` creates nothing and answers No Content. */
  function Post(): (r: Outcome<(Data, int)>)
    ensures r.Ok? && r.value.0.Null? && r.value.1 == NO_CONTENT
  {
    Ok((Null, NO_CONTENT))
  }

  /**
   * `process(encoder, data, status)`: no body for None; otherwise the
   * encoder's `encode` of the data under its `mimetype`, an AttributeError
   * when the encoder is None or lacks either attribute.
   */
  function Process(encoder: Option<Transcoder>, data: Data, status: int,
                   encode: (Transcoder, Data) -> string): (r: Outcome<Response>)
    ensures r.Ok? || r.Crash?
    ensures r.Crash? <==>
      !data.Null? && (encoder.None? || !encoder.value.hasEncode || encoder.value.mimetype.None?)
    ensures r.Crash? ==> (r.fault == NullEncoder <==> encoder.None?)
    ensures r.Crash? ==> r.fault == NullEncoder || r.fault == MissingAttribute
    ensures r.Ok? ==> r.value.status == status
    ensures r.Ok? ==> (r.value.content.Some? <==> !data.Null?)
    ensures r.Ok? ==> (r.value.contentType.Some? <==> !data.Null?)
    ensures r.Ok? && !data.Null? ==>
      r.value.content == Some(encode(encoder.value, data)) && r.value.contentType == encoder.value.mimetype
  {
    if data.Null? then Ok(Response(status, None, None))
    else if encoder.None? then Crash(NullEncoder)
    else if !encoder.value.hasEncode || encoder.value.mimetype.None? then Crash(MissingAttribute)
    else Ok(Response(status, Some(encode(encoder.value, data)), encoder.value.mimetype))
  }

  // ----------------------------------------------------------------- dispatch

  /**
   * What `dispatch()` ends in: a response; a typed error, rendered with the
   * encoder negotiated so far (None before negotiation); or an escaping fault.
   */
  datatype Reply = Respond(response: Response) | Failed(error: HttpError, encoder: Option<Transcoder>) | Fault(fault: Fault)

  /** The stages after authentication and verb resolution, once the handler is known. */
  function AfterNegotiation(def: Definition, identifier: Option<string>, meta: map<string, string>,
                            body: string, collab: Collaborators, handler: Handler,
                            encoder: Option<Transcoder>): (r: Reply)
    ensures r.Failed? ==> r.encoder == encoder
    ensures r.Respond? && r.response.content.Some? ==>
      && encoder.Some? && encoder.value.hasEncode && encoder.value.mimetype.Some?
      && r.response.contentType == encoder.value.mimetype
  {
    var decoding := SelectDecoder(def.decoders, ContentType(meta), collab.canTranscode);
    if body != "" && decoding.Raise? then Failed(decoding.error, encoder)
    else if body != "" && decoding.Crash? then Fault(decoding.fault)
    else
      match (if handler == GetHandler then Get(def, identifier, collab.read) else Post())
      case Crash(f) => Fault(f)
      case Raise(e) => Failed(e, encoder)
      case Ok((data, status)) =>
        match Process(encoder, data, status, collab.encode)
        case Ok(response) => Respond(response)
        case Raise(e) => Failed(e, encoder)
        case Crash(f) => Fault(f)
  }

  /**
   * `dispatch()`, given the request's verb, headers and body: a response
   * only past authentication, verb resolution and negotiation, and a typed
   * error carries an encoder only when negotiation chose it.
   */
  function DispatchSpec(def: Definition, identifier: Option<string>, format: Option<string>, requestMethod: string,
                        meta: map<string, string>, body: string, collab: Collaborators): (r: Reply)
    ensures r.Respond? ==>
      && Chain(def.authentication, Authorization(meta), collab.backend).Bound?
      && ResolveVerb(def, identifier, requestMethod, meta).Ok?
      && NegotiateEncoder(def, format, meta, collab.canTranscode).Ok?
    ensures r.Failed? && r.encoder.Some? ==> NegotiateEncoder(def, format, meta, collab.canTranscode) == Ok(r.encoder)
  {
    match Chain(def.authentication, Authorization(meta), collab.backend)
    case ChainFault(f) => Fault(f)
    case Exhausted(e) => Failed(e, None)
    case Bound(_, _) =>
      match ResolveVerb(def, identifier, requestMethod, meta)
      case Raise(e) => Failed(e, None)
      case Crash(f) => Fault(f)
      case Ok(handler) =>
        match NegotiateEncoder(def, format, meta, collab.canTranscode)
        case Crash(f) => Fault(f)
        case Raise(e) => Failed(e, None)
        case Ok(encoder) => AfterNegotiation(def, identifier, meta, body, collab, handler, encoder)
  }

  /** Authentication comes first: when it fails, nothing else about the request matters. */
  lemma AuthenticationFirst(def: Definition, identifier: Option<string>, format: Option<string>, requestMethod: string,
                            meta: map<string, string>, body: string, collab: Collaborators)
    requires !Chain(def.authentication, Authorization(meta), collab.backend).Bound?
    ensures var c := Chain(def.authentication, Authorization(meta), collab.backend);
      DispatchSpec(def, identifier, format, requestMethod, meta, body, collab) ==
        if c.Exhausted? then Failed(c.error, None) else Fault(c.fault)
  {
  }

  /**
   * Verb resolution comes before encoder negotiation: a rejected verb is
   * reported without an encoder, even for a request that has no Accept header.
   */
  lemma VerbBeforeEncoder(def: Definition, identifier: Option<string>, format: Option<string>, requestMethod: string,
                          meta: map<string, string>, body: string, collab: Collaborators)
    requires Chain(def.authentication, Authorization(meta), collab.backend).Bound?
    requires ResolveVerb(def, identifier, requestMethod, meta).Raise?
    ensures DispatchSpec(def, identifier, format, requestMethod, meta, body, collab) ==
      Failed(ResolveVerb(def, identifier, requestMethod, meta).error, None)
  {
  }

  /** The decoders are consulted only for a request with a body. */
  lemma DecodersOnlyForBody(def: Definition, identifier: Option<string>, format: Option<string>, requestMethod: string,
                            meta: map<string, string>, collab: Collaborators, decoders: seq<Transcoder>)
    ensures DispatchSpec(def, identifier, format, requestMethod, meta, "", collab) ==
      DispatchSpec(def.(decoders := decoders), identifier, format, requestMethod, meta, "", collab)
  {
    var other := def.(decoders := decoders);
    if Chain(def.authentication, Authorization(meta), collab.backend).Bound? {
      SameVerbs(def, other, identifier, requestMethod, meta);
      var resolved := ResolveVerb(def, identifier, requestMethod, meta);
      if resolved.Ok? {
        SameEncoders(def, other, format, meta, collab.canTranscode);
        var negotiated := NegotiateEncoder(def, format, meta, collab.canTranscode);
        if negotiated.Ok? {
          BodilessIgnoresDecoders(def, other, identifier, meta, collab, resolved.value, negotiated.value);
        }
      }
    }
  }

  lemma SameVerbs(def: Definition, other: Definition, identifier: Option<string>, requestMethod: string,
                  meta: map<string, string>)
    requires other == def.(decoders := other.decoders)
    ensures ResolveVerb(other, identifier, requestMethod, meta) == ResolveVerb(def, identifier, requestMethod, meta)
  {
  }

  lemma SameEncoders(def: Definition, other: Definition, format: Option<string>, meta: map<string, string>,
                     canTranscode: (Transcoder, string) -> bool)
    requires other == def.(decoders := other.decoders)
    ensures NegotiateEncoder(other, format, meta, canTranscode) == NegotiateEncoder(def, format, meta, canTranscode)
  {
    if AcceptKey in meta {
      ScanSameRegistry(def, other, def.allowedEncoders, meta[AcceptKey], canTranscode);
    }
  }

  lemma BodilessIgnoresDecoders(def: Definition, other: Definition, identifier: Option<string>,
                                meta: map<string, string>, collab: Collaborators, handler: Handler,
                                encoder: Option<Transcoder>)
    requires other == def.(decoders := other.decoders)
    ensures AfterNegotiation(other, identifier, meta, "", collab, handler, encoder) ==
      AfterNegotiation(def, identifier, meta, "", collab, handler, encoder)
  {
    assert Get(other, identifier, collab.read) == Get(def, identifier, collab.read);
  }

  /** The encoder scan reads only the encoder registry and the allowed names. */
  lemma {:induction false} ScanSameRegistry(def: Definition, other: Definition, names: seq<string>, accept: string,
                                         canTranscode: (Transcoder, string) -> bool)
    requires other == def.(decoders := other.decoders)
    ensures ScanEncoders(other, names, accept, canTranscode) == ScanEncoders(def, names, accept, canTranscode)
    decreases |names|
  {
    if names != [] {
      ScanSameRegistry(def, other, names[1..], accept, canTranscode);
    }
  }

  /** Errors raised after negotiation are rendered with the negotiated encoder. */
  lemma LateErrorsCarryEncoder(def: Definition, identifier: Option<string>, format: Option<string>, requestMethod: string,
                               meta: map<string, string>, body: string, collab: Collaborators)
    requires Chain(def.authentication, Authorization(meta), collab.backend).Bound?
    requires ResolveVerb(def, identifier, requestMethod, meta).Ok?
    requires NegotiateEncoder(def, format, meta, collab.canTranscode).Ok?
    ensures var r := DispatchSpec(def, identifier, format, requestMethod, meta, body, collab);
      r.Failed? ==> r.encoder == NegotiateEncoder(def, format, meta, collab.canTranscode).value
  {
  }

  // --------------------------------------------------------------------- view

  /** What `view()` ends in. */
  datatype ViewOutcome =
    | Answered(reply: Reply)        // the reply of dispatch (never a fault)
    | ServerError(response: Response)
    | Reraised(fault: Fault)         // `settings.DEBUG` is on

  function Escape(f: Fault, debug: bool): ViewOutcome {
    if debug then Reraised(f) else ServerError(Response(INTERNAL_SERVER_ERROR, None, None))
  }

  /**
   * `view(request, **kwargs)` for the resource class `def`: the reply of
   * dispatch on the resource itself; a fault is re-raised in debug mode and
   * is otherwise an empty 500 response.
   */
  function ViewSpec(def: Definition, path: Option<string>, identifier: Option<string>, format: Option<string>,
                    requestMethod: string, meta: map<string, string>, body: string, collab: Collaborators,
                    debug: bool): (r: ViewOutcome)
    ensures !debug ==> !r.Reraised?
    ensures debug ==> !r.ServerError?
    ensures r.ServerError? ==> r.response == Response(INTERNAL_SERVER_ERROR, None, None)
    ensures r.Answered? ==>
      && Segments(path.GetOr("")) == [] && !r.reply.Fault?
      && r.reply == DispatchSpec(def, identifier, format, requestMethod, meta, body, collab)
  {
    if Segments(path.GetOr("")) != [] then Escape(UnknownSubResource, debug)
    else match DispatchSpec(def, identifier, format, requestMethod, meta, body, collab)
      case Fault(f) => Escape(f, debug)
      case r => Answered(r)
  }

  /**
   * Outside debug mode no fault leaves the view: it becomes an empty 500
   * response.  A path made only of slashes addresses the resource itself.
   */
  lemma ViewContainsFaults(def: Definition, path: Option<string>, identifier: Option<string>, format: Option<string>,
                           requestMethod: string, meta: map<string, string>, body: string, collab: Collaborators)
    ensures var v := ViewSpec(def, path, identifier, format, requestMethod, meta, body, collab, false);
      && !v.Reraised?
      && (v.Answered? ==> !v.reply.Fault?)
      && (v.ServerError? ==> v.response == Response(INTERNAL_SERVER_ERROR, None, None))
    ensures Without(path.GetOr(""), '/') == "" ==>
      ViewSpec(def, path, identifier, format, requestMethod, meta, body, collab, false) ==
        match DispatchSpec(def, identifier, format, requestMethod, meta, body, collab)
        case Fault(_) => ServerError(Response(INTERNAL_SERVER_ERROR, None, None))
        case r => Answered(r)
  {
    var p := path.GetOr("");
    SegmentsSpellPath(p);
    if Without(p, '/') == "" && Segments(p) != [] {
      ConcatNonEmpty(Segments(p));
    }
  }

  /** Segments that are not empty spell something that is not empty. */
  lemma {:induction false} ConcatNonEmpty(parts: seq<string>)
    requires parts != [] && forall k :: 0 <= k < |parts| ==> parts[k] != ""
    ensures Concat(parts) != ""
  {
    assert |Concat(parts)| >= |parts[0]|;
  }

  /**
   * `BaseDefinition` is the class `Resource` that Meta creates directly over
   * `BaseResource` with nothing configured: each attribute dispatch reads
   * has the value Meta leaves it, and the one encoder is loaded from the
   * dotted path `flapjack.encoders.Json`.
   */
  lemma BaseDefinitionCompiled(decoders: seq<Transcoder>, base: ResourceMeta.Namespace, d: ResourceMeta.Namespace)
    requires base == ResourceMeta.BaseResourceAttributes
    requires d == ResourceMeta.Compiled("Resource", map[], [base], base, map[])
    ensures var def := BaseDefinition(decoders);
      && ResourceMeta.Lookup(d, base, "http_method_names") == ResourceMeta.Names(def.httpMethodNames)
      && ResourceMeta.Lookup(d, base, "http_list_allowed_methods") == ResourceMeta.Names(def.listMethods)
      && ResourceMeta.Lookup(d, base, "http_detail_allowed_methods") == ResourceMeta.Names(def.detailMethods)
      && ResourceMeta.Lookup(d, base, "list_allowed_operations") == ResourceMeta.Names(def.listOperations)
      && ResourceMeta.Lookup(d, base, "detail_allowed_operations") == ResourceMeta.Names(def.detailOperations)
      && ResourceMeta.Lookup(d, base, "allowed_encoders") == ResourceMeta.Names(def.allowedEncoders)
      && ResourceMeta.Lookup(d, base, "default_encoder") == ResourceMeta.Str(def.defaultEncoder)
      && ResourceMeta.Lookup(d, base, "encoders") == ResourceMeta.Table([("json", "flapjack.encoders.Json")])
      && def.encoders.Keys == {"json"} && def.encoders["json"] == ShippedJson
      && ResourceMeta.Lookup(d, base, "authentication") ==
           ResourceMeta.Names(["flapjack.authentication.Authentication"])
  {
    BaseScopedAttributes(base, d);
    BaseConfiguredAttributes(base, d);
    ResourceMeta.BaseResourceValues();
  }

  /** The scoped sets of `Resource` are `BaseResource`'s global sets. */
  lemma BaseScopedAttributes(base: ResourceMeta.Namespace, d: ResourceMeta.Namespace)
    requires base == ResourceMeta.BaseResourceAttributes
    requires d == ResourceMeta.Compiled("Resource", map[], [base], base, map[])
    ensures ResourceMeta.Lookup(d, base, "http_list_allowed_methods") == ResourceMeta.Names(["get", "post", "put", "delete"])
    ensures ResourceMeta.Lookup(d, base, "http_detail_allowed_methods") == ResourceMeta.Names(["get", "post", "put", "delete"])
    ensures ResourceMeta.Lookup(d, base, "list_allowed_operations") == ResourceMeta.Names(["read", "create", "update", "destroy"])
    ensures ResourceMeta.Lookup(d, base, "detail_allowed_operations") == ResourceMeta.Names(["read", "create", "update", "destroy"])
  {
    ResourceMeta.BaseResourceDeclaresUnset();
    BaseScopedMethods(base, d);
    BaseScopedOperations(base, d);
  }

  lemma BaseScopedMethods(base: ResourceMeta.Namespace, d: ResourceMeta.Namespace)
    requires base == ResourceMeta.BaseResourceAttributes && ResourceMeta.DeclaresUnset(base)
    requires base["http_allowed_methods"] == ResourceMeta.Names(["get", "post", "put", "delete"])
    requires d == ResourceMeta.Compiled("Resource", map[], [base], base, map[])
    ensures ResourceMeta.Lookup(d, base, "http_list_allowed_methods") == ResourceMeta.Names(["get", "post", "put", "delete"])
    ensures ResourceMeta.Lookup(d, base, "http_detail_allowed_methods") == ResourceMeta.Names(["get", "post", "put", "delete"])
  {
    BaseScopedAt(base, d, "http_list_allowed_methods");
    BaseScopedAt(base, d, "http_detail_allowed_methods");
  }

  lemma BaseScopedOperations(base: ResourceMeta.Namespace, d: ResourceMeta.Namespace)
    requires base == ResourceMeta.BaseResourceAttributes && ResourceMeta.DeclaresUnset(base)
    requires base["allowed_operations"] == ResourceMeta.Names(["read", "create", "update", "destroy"])
    requires d == ResourceMeta.Compiled("Resource", map[], [base], base, map[])
    ensures ResourceMeta.Lookup(d, base, "list_allowed_operations") == ResourceMeta.Names(["read", "create", "update", "destroy"])
    ensures ResourceMeta.Lookup(d, base, "detail_allowed_operations") == ResourceMeta.Names(["read", "create", "update", "destroy"])
  {
    BaseScopedAt(base, d, "list_allowed_operations");
    BaseScopedAt(base, d, "detail_allowed_operations");
  }

  /** One scoped set takes the global set it defaults to. */
  lemma BaseScopedAt(base: ResourceMeta.Namespace, d: ResourceMeta.Namespace, attr: string)
    requires base == ResourceMeta.BaseResourceAttributes && ResourceMeta.DeclaresUnset(base)
    requires d == ResourceMeta.Compiled("Resource", map[], [base], base, map[])
    requires attr in ResourceMeta.GlobalOf
    ensures ResourceMeta.Lookup(d, base, attr) == ResourceMeta.Lookup(map[], base, ResourceMeta.GlobalOf[attr])
  {
    ResourceMeta.OverUnsetBase("Resource", map[], base, attr);
  }

  /** The other attributes dispatch reads keep `BaseResource`'s values when nothing is configured. */
  lemma BaseConfiguredAttributes(base: ResourceMeta.Namespace, d: ResourceMeta.Namespace)
    requires base == ResourceMeta.BaseResourceAttributes
    requires d == ResourceMeta.Compiled("Resource", map[], [base], base, map[])
    ensures ResourceMeta.Lookup(d, base, "http_method_names") == base["http_method_names"]
    ensures ResourceMeta.Lookup(d, base, "encoders") == base["encoders"]
    ensures ResourceMeta.Lookup(d, base, "default_encoder") == base["default_encoder"]
    ensures ResourceMeta.Lookup(d, base, "allowed_encoders") == base["allowed_encoders"]
    ensures ResourceMeta.Lookup(d, base, "authentication") == base["authentication"]
  {
    ResourceMeta.BaseResourceValues();
    BaseKeeps(base, d, 1, "http_method_names");
    BaseKeeps(base, d, 2, "encoders");
    BaseKeeps(base, d, 4, "default_encoder");
    BaseKeeps(base, d, 5, "authentication");
    BaseAllowedEncoders(base, d);
  }

  /** Meta does not write `allowed_encoders`. */
  lemma BaseAllowedEncoders(base: ResourceMeta.Namespace, d: ResourceMeta.Namespace)
    requires base == ResourceMeta.BaseResourceAttributes
    requires d == ResourceMeta.Compiled("Resource", map[], [base], base, map[])
    ensures ResourceMeta.Lookup(d, base, "allowed_encoders") == base["allowed_encoders"]
  {
    ResourceMeta.AllowedEncodersUnwritten();
    assert ResourceMeta.Lookup(map[], base, "allowed_encoders") == base["allowed_encoders"];
    ResourceMeta.CompiledUnwritten("Resource", map[], [base], base, map[], "allowed_encoders");
  }

  /** A configurable attribute that `BaseResource` sets keeps its value when nothing is configured. */
  lemma BaseKeeps(base: ResourceMeta.Namespace, d: ResourceMeta.Namespace, k: nat, attr: string)
    requires base == ResourceMeta.BaseResourceAttributes
    requires d == ResourceMeta.Compiled("Resource", map[], [base], base, map[])
    requires k < |ResourceMeta.ConfigPairs| && ResourceMeta.ConfigPairs[k].0 == attr
    requires attr in base && base[attr] != ResourceMeta.Null
    ensures ResourceMeta.Lookup(d, base, attr) == base[attr]
  {
    ResourceMeta.CompiledConfigured("Resource", map[], [base], base, map[], k);
  }

  /** A response has a body only when negotiation chose an encoder with `encode` and `mimetype`. */
  lemma BodyNeedsEncoder(def: Definition, identifier: Option<string>, format: Option<string>, requestMethod: string,
                         meta: map<string, string>, body: string, collab: Collaborators)
    ensures var r := DispatchSpec(def, identifier, format, requestMethod, meta, body, collab);
      var n := NegotiateEncoder(def, format, meta, collab.canTranscode);
      r.Respond? && r.response.content.Some? ==>
        && n.Ok? && n.value.Some? && n.value.value.hasEncode && n.value.value.mimetype.Some?
        && r.response.contentType == n.value.value.mimetype
  {
    var r := DispatchSpec(def, identifier, format, requestMethod, meta, body, collab);
    if r.Respond? {
      var handler := ResolveVerb(def, identifier, requestMethod, meta).value;
      DispatchPastVerb(def, identifier, format, requestMethod, meta, body, collab, handler);
    }
  }

  /** Past authentication and verb resolution, negotiation and the later stages decide. */
  lemma DispatchPastVerb(def: Definition, identifier: Option<string>, format: Option<string>, requestMethod: string,
                         meta: map<string, string>, body: string, collab: Collaborators, handler: Handler)
    requires Chain(def.authentication, Authorization(meta), collab.backend).Bound?
    requires ResolveVerb(def, identifier, requestMethod, meta) == Ok(handler)
    ensures var n := NegotiateEncoder(def, format, meta, collab.canTranscode);
      DispatchSpec(def, identifier, format, requestMethod, meta, body, collab) ==
        if n.Crash? then Fault(n.fault) else if n.Raise? then Failed(n.error, None)
        else AfterNegotiation(def, identifier, meta, body, collab, handler, n.value)
  {
  }

  /** A bodiless `GET` past negotiation whose `get` raises reports that error with the negotiated encoder. */
  lemma DispatchGetRaises(def: Definition, identifier: Option<string>, format: Option<string>, requestMethod: string,
                          meta: map<string, string>, collab: Collaborators, encoder: Option<Transcoder>, e: HttpError)
    requires Chain(def.authentication, Authorization(meta), collab.backend).Bound?
    requires ResolveVerb(def, identifier, requestMethod, meta) == Ok(GetHandler)
    requires NegotiateEncoder(def, format, meta, collab.canTranscode) == Ok(encoder)
    requires Get(def, identifier, collab.read) == Raise(e)
    ensures DispatchSpec(def, identifier, format, requestMethod, meta, "", collab) == Failed(e, encoder)
  {
    DispatchPastVerb(def, identifier, format, requestMethod, meta, "", collab, GetHandler);
  }

  /** A bodiless `GET` past negotiation whose `get` and `process` succeed answers with that response. */
  lemma DispatchGetResponds(def: Definition, identifier: Option<string>, format: Option<string>,
                            requestMethod: string, meta: map<string, string>, collab: Collaborators,
                            encoder: Option<Transcoder>, data: Data, response: Response)
    requires Chain(def.authentication, Authorization(meta), collab.backend).Bound?
    requires ResolveVerb(def, identifier, requestMethod, meta) == Ok(GetHandler)
    requires NegotiateEncoder(def, format, meta, collab.canTranscode) == Ok(encoder)
    requires Get(def, identifier, collab.read) == Ok((data, OK))
    requires Process(encoder, data, OK, collab.encode) == Ok(response)
    ensures DispatchSpec(def, identifier, format, requestMethod, meta, "", collab) == Respond(response)
  {
    DispatchPastVerb(def, identifier, format, requestMethod, meta, "", collab, GetHandler);
  }

  /** A request with a body past negotiation that no decoder accepts reports the decoders' error with the encoder. */
  lemma DispatchBodyRefused(def: Definition, identifier: Option<string>, format: Option<string>,
                            requestMethod: string, meta: map<string, string>, body: string, collab: Collaborators,
                            handler: Handler, encoder: Option<Transcoder>)
    requires Chain(def.authentication, Authorization(meta), collab.backend).Bound?
    requires ResolveVerb(def, identifier, requestMethod, meta) == Ok(handler)
    requires NegotiateEncoder(def, format, meta, collab.canTranscode) == Ok(encoder)
    requires body != "" && RefusedBefore(def.decoders, ContentType(meta), collab.canTranscode, |def.decoders|)
    ensures DispatchSpec(def, identifier, format, requestMethod, meta, body, collab) ==
      Failed(UnsupportedMediaType, encoder)
  {
    DispatchPastVerb(def, identifier, format, requestMethod, meta, body, collab, handler);
  }

  // ------------------------------------------------------------- scenarios

  /** On `BaseResource`, an anonymous `GET` or `POST` without an override passes authentication and verb resolution. */
  lemma BaseAdmits(json: Transcoder, decoders: seq<Transcoder>, identifier: Option<string>, requestMethod: string,
                   meta: map<string, string>, collab: Collaborators)
    requires requestMethod == "GET" || requestMethod == "POST"
    requires OverrideKey !in meta
    ensures Chain(BaseWith(json, decoders).authentication, Authorization(meta), collab.backend).Bound?
    ensures ResolveVerb(BaseWith(json, decoders), identifier, requestMethod, meta) ==
      Ok(if requestMethod == "GET" then GetHandler else PostHandler)
  {
    DefaultAuthenticationAdmits(Authorization(meta), collab.backend);
    assert Lower("GET") == "get" && Lower("POST") == "post";
  }

  /** The NotAcceptable fall-through of the shipped resource: `Json` has no `mimetype`. */
  lemma ShippedCannotList(decoders: seq<Transcoder>)
    ensures NotAcceptableFor(BaseDefinition(decoders)) == Crash(MissingAttribute)
  {
    assert BaseDefinition(decoders).allowedEncoders[1..] == [];
  }

  /** A resource whose `json` object has `mimetype` offers JSON alone, under that media type. */
  lemma BaseAvailable(json: Transcoder, decoders: seq<Transcoder>)
    requires json.mimetype.Some?
    ensures AllListable(BaseWith(json, decoders))
    ensures Available(BaseWith(json, decoders)) == map["json" := json.mimetype.value]
    ensures NotAcceptableFor(BaseWith(json, decoders)) == Raise(NotAcceptable(map["json" := json.mimetype.value]))
  {
    var def := BaseWith(json, decoders);
    assert def.allowedEncoders == ["json"];
    assert Available(def).Keys == {"json"};
  }

  /**
   * `GET /poll/` without an Accept header on the shipped resource:
   * authentication admits the anonymous user, `get` is allowed, and the
   * missing header raises a KeyError, so the client gets an empty 500.
   */
  lemma GetWithoutAcceptIsServerError(decoders: seq<Transcoder>, meta: map<string, string>, body: string,
                                      collab: Collaborators)
    requires AcceptKey !in meta && OverrideKey !in meta
    ensures ViewSpec(BaseDefinition(decoders), Some(""), None, None, "GET", meta, body, collab, false) ==
      ServerError(Response(INTERNAL_SERVER_ERROR, None, None))
  {
    BaseAdmits(ShippedJson, decoders, None, "GET", meta, collab);
    assert Segments("") == [];
  }

  /**
   * The shipped resource never answers with a body: every encoder it can
   * negotiate is `flapjack.encoders.Json`, which has no `encode`.
   */
  lemma ShippedResponsesHaveNoBody(decoders: seq<Transcoder>, path: Option<string>, identifier: Option<string>,
                                   format: Option<string>, requestMethod: string, meta: map<string, string>,
                                   body: string, collab: Collaborators, debug: bool)
    ensures var v := ViewSpec(BaseDefinition(decoders), path, identifier, format, requestMethod, meta, body, collab, debug);
      v.Answered? && v.reply.Respond? ==> v.reply.response.content.None?
  {
    BodyNeedsEncoder(BaseDefinition(decoders), identifier, format, requestMethod, meta, body, collab);
    assert BaseDefinition(decoders).encoders.Values == {ShippedJson};
  }

  /**
   * On the shipped resource a `GET` naming a format it does not offer, or
   * with an Accept header other than the wildcard range, is an empty 500:
   * listing the formats reads `Json.mimetype`, and the scan calls
   * `Json.can_transcode`; neither exists.
   */
  lemma ShippedNegotiationIsServerError(decoders: seq<Transcoder>, identifier: Option<string>, format: Option<string>,
                                        meta: map<string, string>, body: string, collab: Collaborators)
    requires AcceptKey in meta && OverrideKey !in meta
    requires format.Some? ==> Lower(format.value) != "json"
    requires format.None? ==> Strip(meta[AcceptKey]) != "*/*"
    ensures ViewSpec(BaseDefinition(decoders), Some(""), identifier, format, "GET", meta, body, collab, false) ==
      ServerError(Response(INTERNAL_SERVER_ERROR, None, None))
  {
    BaseAdmits(ShippedJson, decoders, identifier, "GET", meta, collab);
    DispatchPastVerb(BaseDefinition(decoders), identifier, format, "GET", meta, body, collab, GetHandler);
    ShippedCannotList(decoders);
    assert Segments("") == [];
  }

  /** `GET /poll/1` with the wildcard Accept where `read` finds nothing: NotFound, to be rendered by `Json`. */
  lemma MissingItemNotFound(decoders: seq<Transcoder>, meta: map<string, string>, collab: Collaborators)
    requires AcceptKey in meta && OverrideKey !in meta && Strip(meta[AcceptKey]) == "*/*"
    requires collab.read == Some(List([]))
    ensures DispatchSpec(BaseDefinition(decoders), Some("1"), None, "GET", meta, "", collab) ==
      Failed(NotFound, Some(ShippedJson))
  {
    var def := BaseDefinition(decoders);
    BaseAdmits(ShippedJson, decoders, Some("1"), "GET", meta, collab);
    ShippedWildcardNegotiates(decoders, meta, collab.canTranscode);
    MissingItemGet(decoders, collab.read);
    DispatchGetRaises(def, Some("1"), None, "GET", meta, collab, Some(ShippedJson), NotFound);
  }

  /** `get` on `/poll/1` of the shipped resource, where `read` finds nothing. */
  lemma MissingItemGet(decoders: seq<Transcoder>, read: Option<Data>)
    requires read == Some(List([]))
    ensures Get(BaseDefinition(decoders), Some("1"), read) == Raise(NotFound)
  {
    assert "read" in AllowedOperations(BaseDefinition(decoders), Some("1"));
    GetShaping(BaseDefinition(decoders), Some("1"), read);
  }

  /** `POST /poll/` with the wildcard Accept and a body every decoder refuses: UnsupportedMediaType. */
  lemma UndecodableBodyUnsupported(decoders: seq<Transcoder>, meta: map<string, string>, body: string,
                                   collab: Collaborators)
    requires AcceptKey in meta && OverrideKey !in meta && Strip(meta[AcceptKey]) == "*/*"
    requires body != "" && forall k :: 0 <= k < |decoders| ==> Refuses(decoders[k], ContentType(meta), collab.canTranscode)
    ensures DispatchSpec(BaseDefinition(decoders), None, None, "POST", meta, body, collab) ==
      Failed(UnsupportedMediaType, Some(ShippedJson))
  {
    var def := BaseDefinition(decoders);
    BaseAdmits(ShippedJson, decoders, None, "POST", meta, collab);
    ShippedWildcardNegotiates(decoders, meta, collab.canTranscode);
    assert def.decoders == decoders;
    assert RefusedBefore(decoders, ContentType(meta), collab.canTranscode, |decoders|);
    DispatchBodyRefused(def, None, None, "POST", meta, body, collab, PostHandler, Some(ShippedJson));
  }

  /** On the shipped resource the wildcard Accept selects `Json`. */
  lemma ShippedWildcardNegotiates(decoders: seq<Transcoder>, meta: map<string, string>,
                                  canTranscode: (Transcoder, string) -> bool)
    requires AcceptKey in meta && Strip(meta[AcceptKey]) == "*/*"
    ensures NegotiateEncoder(BaseDefinition(decoders), None, meta, canTranscode) == Ok(Some(ShippedJson))
  {
  }

  /** `POST /poll/` with the wildcard Accept and no body: an empty No Content response. */
  lemma BodilessPostNoContent(decoders: seq<Transcoder>, meta: map<string, string>, collab: Collaborators)
    requires AcceptKey in meta && OverrideKey !in meta && Strip(meta[AcceptKey]) == "*/*"
    ensures ViewSpec(BaseDefinition(decoders), Some(""), None, None, "POST", meta, "", collab, false) ==
      Answered(Respond(Response(NO_CONTENT, None, None)))
  {
    var def := BaseDefinition(decoders);
    BaseAdmits(ShippedJson, decoders, None, "POST", meta, collab);
    DispatchPastVerb(def, None, None, "POST", meta, "", collab, PostHandler);
    ShippedWildcardNegotiates(decoders, meta, collab.canTranscode);
    assert Segments("") == [];
  }

  /**
   * With an encoder that has the interface dispatch reads, `GET /poll/`
   * whose Accept header JSON serves answers OK with the encoded list (the
   * empty list when `read` gives None), as `application/json`.
   */
  lemma ConformingListGetResponds(decoders: seq<Transcoder>, meta: map<string, string>, collab: Collaborators,
                                  items: Data)
    requires AcceptKey in meta && OverrideKey !in meta && Strip(meta[AcceptKey]) != "*/*"
    requires collab.canTranscode(ConformingJson, meta[AcceptKey])
    requires collab.read == Some(items)
    ensures ViewSpec(ConformingDefinition(decoders), Some(""), None, None, "GET", meta, "", collab, false) ==
      Answered(Respond(Response(OK, Some(collab.encode(ConformingJson, if items.Null? then List([]) else items)),
                                Some("application/json"))))
  {
    ConformingListDispatch(decoders, meta, collab, items);
    assert Segments("") == [];
  }

  lemma ConformingListDispatch(decoders: seq<Transcoder>, meta: map<string, string>, collab: Collaborators,
                               items: Data)
    requires AcceptKey in meta && OverrideKey !in meta && Strip(meta[AcceptKey]) != "*/*"
    requires collab.canTranscode(ConformingJson, meta[AcceptKey])
    requires collab.read == Some(items)
    ensures DispatchSpec(ConformingDefinition(decoders), None, None, "GET", meta, "", collab) ==
      Respond(Response(OK, Some(collab.encode(ConformingJson, if items.Null? then List([]) else items)),
                       Some("application/json")))
  {
    var def := ConformingDefinition(decoders);
    var data := if items.Null? then List([]) else items;
    var response := Response(OK, Some(collab.encode(ConformingJson, data)), Some("application/json"));
    BaseAdmits(ConformingJson, decoders, None, "GET", meta, collab);
    ConformingAcceptNegotiates(decoders, meta, collab.canTranscode);
    ListGet(def, collab.read, items);
    assert ConformingJson.mimetype == Some("application/json");
    assert Process(Some(ConformingJson), data, OK, collab.encode) == Ok(response);
    DispatchGetResponds(def, None, None, "GET", meta, collab, Some(ConformingJson), data, response);
  }

  /** `get` on the list of a resource that allows `read`, where `read` gives `items`. */
  lemma ListGet(def: Definition, read: Option<Data>, items: Data)
    requires "read" in def.listOperations
    requires read == Some(items)
    ensures Get(def, None, read) == Ok((if items.Null? then List([]) else items, OK))
  {
    GetShaping(def, None, read);
  }

  /** With a conforming encoder, an Accept header other than the wildcard range that JSON serves selects it. */
  lemma ConformingAcceptNegotiates(decoders: seq<Transcoder>, meta: map<string, string>,
                                   canTranscode: (Transcoder, string) -> bool)
    requires AcceptKey in meta && Strip(meta[AcceptKey]) != "*/*"
    requires canTranscode(ConformingJson, meta[AcceptKey])
    ensures NegotiateEncoder(ConformingDefinition(decoders), None, meta, canTranscode) == Ok(Some(ConformingJson))
  {
    var def := ConformingDefinition(decoders);
    assert FirstAccepting(def, def.allowedEncoders, meta[AcceptKey], canTranscode, 0);
    ScanFindsFirst(def, def.allowedEncoders, meta[AcceptKey], canTranscode, 0);
  }

  /** With a conforming encoder, a format the resource does not offer is NotAcceptable, listing JSON. */
  lemma ConformingUnknownFormatNotAcceptable(decoders: seq<Transcoder>, meta: map<string, string>, body: string,
                                             collab: Collaborators)
    requires AcceptKey in meta && OverrideKey !in meta
    ensures DispatchSpec(ConformingDefinition(decoders), None, Some("xml"), "GET", meta, body, collab) ==
      Failed(NotAcceptable(map["json" := "application/json"]), None)
  {
    var def := ConformingDefinition(decoders);
    BaseAdmits(ConformingJson, decoders, None, "GET", meta, collab);
    DispatchPastVerb(def, None, Some("xml"), "GET", meta, body, collab, GetHandler);
    assert Lower("xml") == "xml";
    assert "xml" !in def.allowedEncoders;
    assert ConformingJson.mimetype == Some("application/json");
    BaseAvailable(ConformingJson, decoders);
  }

  /**
   * With a conforming encoder, `GET /poll/1` with an Accept header that JSON
   * cannot serve is NotAcceptable, listing JSON with its media type.
   */
  lemma ConformingUnservableAcceptNotAcceptable(decoders: seq<Transcoder>, meta: map<string, string>, body: string,
                                                collab: Collaborators)
    requires AcceptKey in meta && OverrideKey !in meta && Strip(meta[AcceptKey]) != "*/*"
    requires !collab.canTranscode(ConformingJson, meta[AcceptKey])
    ensures DispatchSpec(ConformingDefinition(decoders), Some("1"), None, "GET", meta, body, collab) ==
      Failed(NotAcceptable(map["json" := "application/json"]), None)
  {
    var def := ConformingDefinition(decoders);
    BaseAdmits(ConformingJson, decoders, Some("1"), "GET", meta, collab);
    DispatchPastVerb(def, Some("1"), None, "GET", meta, body, collab, GetHandler);
    ConformingAcceptRefused(decoders, meta, collab.canTranscode);
  }

  /** With a conforming encoder, an Accept header JSON cannot serve is NotAcceptable, listing JSON. */
  lemma ConformingAcceptRefused(decoders: seq<Transcoder>, meta: map<string, string>,
                                canTranscode: (Transcoder, string) -> bool)
    requires AcceptKey in meta && Strip(meta[AcceptKey]) != "*/*"
    requires !canTranscode(ConformingJson, meta[AcceptKey])
    ensures NegotiateEncoder(ConformingDefinition(decoders), None, meta, canTranscode) ==
      Raise(NotAcceptable(map["json" := "application/json"]))
  {
    var def := ConformingDefinition(decoders);
    assert ConformingJson.mimetype == Some("application/json");
    BaseAvailable(ConformingJson, decoders);
    SoleEncoderRefuses(def, meta, canTranscode);
  }

  /** A resource that allows one registered encoder, which refuses the Accept header, falls through. */
  lemma SoleEncoderRefuses(def: Definition, meta: map<string, string>, canTranscode: (Transcoder, string) -> bool)
    requires AcceptKey in meta && Strip(meta[AcceptKey]) != "*/*"
    requires |def.allowedEncoders| == 1 && def.allowedEncoders[0] in def.encoders
    requires def.encoders[def.allowedEncoders[0]].hasCanTranscode
    requires !canTranscode(def.encoders[def.allowedEncoders[0]], meta[AcceptKey])
    ensures NegotiateEncoder(def, None, meta, canTranscode) == NotAcceptableFor(def)
  {
    var names := def.allowedEncoders;
    assert names[1..] == [];
    assert ScanEncoders(def, names, meta[AcceptKey], canTranscode) ==
      ScanEncoders(def, names[1..], meta[AcceptKey], canTranscode);
  }

  // ------------------------------------------------------- the request state

  /** The parts of Django's request object that dispatch reads or writes. */
  class Request {
    var verb: string
    var user: Option<User>
    const meta: map<string, string>
    const body: string

    constructor (requestMethod: string, meta: map<string, string>, body: string)
      ensures this.verb == requestMethod && this.meta == meta && this.body == body && user.None?
    {
      this.verb := requestMethod;
      this.meta := meta;
      this.body := body;
      user := None;
    }
  }

  /** A resource instance: one request against one resource class. */
  class Resource {
    const def: Definition
    const request: Request
    const identifier: Option<string>
    const format: Option<string>

    constructor (def: Definition, request: Request, identifier: Option<string>, format: Option<string>)
      ensures this.def == def && this.request == request
      ensures this.identifier == identifier && this.format == format
    {
      this.def := def;
      this.request := request;
      this.identifier := identifier;
      this.format := format;
    }

    /** `authenticate()`: binds `request.user`, or reports why it could not. */
    method Authenticate(backend: FlapjackAuth.Backend) returns (result: ChainResult)
      modifies request`user
      ensures result == Chain(def.authentication, Authorization(request.meta), backend)
      ensures result.Bound? ==> request.user == Some(result.user)
      ensures !result.Bound? ==> request.user == old(request.user)
    {
      var auths := def.authentication;
      var header := Authorization(request.meta);
      if |auths| == 0 {
        return ChainFault(UnboundAuthenticator);
      }
      var i := 0;
      while i < |auths|
        invariant 0 <= i <= |auths|
        invariant ChainFrom(auths, i, header, backend) == Chain(auths, header, backend)
        invariant request.user == old(request.user)
      {
        var auth := auths[i];
        var user := FlapjackAuth.Authenticate(auth, header, backend);
        assert user == VerdictAt(auths, i, header, backend);
        ChainFromStep(auths, i, header, backend);
        match user {
          case Crashed =>
            return ChainFault(AuthenticatorFault);
          case Abstain =>
          case Identified(u) =>
            if u.IsAuthenticated() || auth.allowAnonymous {
              request.user := Some(u);
              return Bound(u, i);
            }
        }
        i := i + 1;
      }
      return Exhausted(FlapjackAuth.Unauthenticated(auths[|auths| - 1]));
    }

    /** `_determine_method()`: the handler to run; rewrites `request.method` from the override header. */
    method DetermineMethod() returns (r: Outcome<Handler>)
      modifies request`verb
      ensures request.verb == MethodAfter(old(request.verb), request.meta)
      ensures r == ResolveVerb(def, identifier, old(request.verb), request.meta)
    {
      var verb: string;
      if OverrideKey in request.meta {
        verb := Lower(request.meta[OverrideKey]);
        request.verb := Upper(verb);
      } else {
        verb := Lower(request.verb);
      }
      if verb !in def.httpMethodNames {
        return Raise(NotImplemented);
      }
      var allowed := AllowedMethods(def, identifier);
      if verb !in allowed {
        return Raise(MethodNotAllowed(AllowHeader(allowed)));
      }
      var handler := HandlerNamed(Lower(request.verb));
      if handler.None? {
        return Raise(NotImplemented);
      }
      return Ok(handler.value);
    }

    /** `_determine_encoder()` */
    method DetermineEncoder(canTranscode: (Transcoder, string) -> bool) returns (r: Outcome<Option<Transcoder>>)
      ensures r == NegotiateEncoder(def, format, request.meta, canTranscode)
    {
      if AcceptKey !in request.meta {
        return Crash(MissingAcceptKey);
      }
      var accept := request.meta[AcceptKey];
      if format.Some? {
        var name := Lower(format.value);
        if name in def.allowedEncoders {
          var encoder := Registered(def.encoders, name);
          if encoder.Some? {
            return Ok(encoder);
          }
        }
      } else if Strip(accept) != "*/*" {
        var names := def.allowedEncoders;
        var i := 0;
        while i < |names|
          invariant 0 <= i <= |names|
          invariant ScanEncoders(def, names[i..], accept, canTranscode) == ScanEncoders(def, names, accept, canTranscode)
        {
          assert names[i..][1..] == names[i + 1..];
          var name := names[i];
          if name !in def.encoders {
            return Crash(UnregisteredEncoder);
          }
          var encoder := def.encoders[name];
          if !encoder.hasCanTranscode {
            return Crash(MissingAttribute);
          }
          if canTranscode(encoder, accept) {
            return Ok(Some(encoder));
          }
          i := i + 1;
        }
      } else {
        return Ok(Registered(def.encoders, def.defaultEncoder));
      }
      r := ReportUnacceptable();
    }

    /** The end of `_determine_encoder()`: list the allowed encoders and raise NotAcceptable. */
    method ReportUnacceptable() returns (r: Outcome<Option<Transcoder>>)
      ensures r == NotAcceptableFor(def)
    {
      var names := def.allowedEncoders;
      var available := map[];
      for i := 0 to |names|
        invariant ListingFault(def.encoders, names[i..]) == ListingFault(def.encoders, names)
        invariant available == AvailableAmong(def, names[..i])
      {
        ListingStep(def.encoders, names, i);
        var name := names[i];
        if name !in def.encoders {
          return Crash(UnregisteredEncoder);
        }
        var mimetype := def.encoders[name].mimetype;
        if mimetype.None? {
          return Crash(MissingAttribute);
        }
        assert names[..i + 1] == names[..i] + [name];
        AvailableExtend(def, names[..i], name);
        available := available[name := mimetype.value];
      }
      assert names[..|names|] == names;
      return Raise(NotAcceptable(available));
    }

    /** `_determine_decoder()` */
    method DetermineDecoder(canTranscode: (Transcoder, string) -> bool) returns (r: Outcome<Transcoder>)
      ensures r == SelectDecoder(def.decoders, ContentType(request.meta), canTranscode)
    {
      var content := ContentType(request.meta);
      var decoders := def.decoders;
      for i := 0 to |decoders|
        invariant SelectDecoder(decoders[i..], content, canTranscode) == SelectDecoder(decoders, content, canTranscode)
      {
        assert decoders[i..][1..] == decoders[i + 1..];
        if !decoders[i].hasCanTranscode {
          return Crash(MissingAttribute);
        }
        if canTranscode(decoders[i], content) {
          return Ok(decoders[i]);
        }
      }
      return Raise(UnsupportedMediaType);
    }

    /** `dispatch()` */
    method Dispatch(collab: Collaborators) returns (reply: Reply)
      modifies request
      ensures reply == DispatchSpec(def, identifier, format, old(request.verb), request.meta, request.body, collab)
      ensures var chain := Chain(def.authentication, Authorization(request.meta), collab.backend);
        && (chain.Bound? ==> request.user == Some(chain.user) &&
                              request.verb == MethodAfter(old(request.verb), request.meta))
        && (!chain.Bound? ==> request.user == old(request.user) && request.verb == old(request.verb))
    {
      var encoder: Option<Transcoder> := None;
      var chain := Authenticate(collab.backend);
      if !chain.Bound? {
        return if chain.Exhausted? then Failed(chain.error, encoder) else Fault(chain.fault);
      }
      var handler := DetermineMethod();
      if handler.Raise? {
        return Failed(handler.error, encoder);
      }
      VerbOutcomes(def, identifier, old(request.verb), request.meta);
      var negotiated := DetermineEncoder(collab.canTranscode);
      if negotiated.Crash? {
        return Fault(negotiated.fault);
      }
      if negotiated.Raise? {
        return Failed(negotiated.error, encoder);
      }
      encoder := negotiated.value;
      if request.body != "" {
        var decoder := DetermineDecoder(collab.canTranscode);
        if decoder.Raise? {
          return Failed(decoder.error, encoder);
        }
        if decoder.Crash? {
          return Fault(decoder.fault);
        }
      }
      var result := if handler.value == GetHandler then Get(def, identifier, collab.read) else Post();
      if result.Crash? {
        return Fault(result.fault);
      }
      if result.Raise? {
        return Failed(result.error, encoder);
      }
      var (data, status) := result.value;
      var response := Process(encoder, data, status, collab.encode);
      if response.Crash? {
        return Fault(response.fault);
      }
      return Respond(response.value);
    }
  }

  /** `view(request, path=..., identifier=..., format=...)` on the resource class `def`. */
  method View(def: Definition, request: Request, path: Option<string>, identifier: Option<string>,
              format: Option<string>, collab: Collaborators, debug: bool) returns (v: ViewOutcome)
    modifies request
    ensures v == ViewSpec(def, path, identifier, format, old(request.verb), request.meta, request.body, collab, debug)
    ensures Segments(path.GetOr("")) != [] ==> request.user == old(request.user) && request.verb == old(request.verb)
    ensures var chain := Chain(def.authentication, Authorization(request.meta), collab.backend);
      Segments(path.GetOr("")) == [] ==>
        && (chain.Bound? ==> request.user == Some(chain.user) &&
                              request.verb == MethodAfter(old(request.verb), request.meta))
        && (!chain.Bound? ==> request.user == old(request.user) && request.verb == old(request.verb))
  {
    var segments := Segments(path.GetOr(""));
    if segments != [] {
      return Escape(UnknownSubResource, debug);
    }
    var obj := new Resource(def, request, identifier, format);
    var reply := obj.Dispatch(collab);
    if reply.Fault? {
      return Escape(reply.fault, debug);
    }
    return Answered(reply);
  }
}
