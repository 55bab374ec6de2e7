# python-armet: the flapjack resource pipeline, in Dafny

This project models the request pipeline of the older `flapjack` half of
python-armet. It also models the authentication protocols of `flapjack` and `armet`
and the flapjack encoder registry. The modules follow the source files:

- `ResourceMeta` (`resource_meta.dfy`) models the metaclass `Meta`. It covers the
  `_has` test for "explicitly set", field visibility and filterability, and
  `Meta.__init__`:
  - `_fields` is discovered from the form.
  - `name`, `filterable` and the list/detail verb and operation sets are defaulted.
  - The six `_config` overrides are applied.

  `ResourceType` is a class whose `dict` field is the class namespace that
  `Meta.__init__` updates in place. Its constructor is proved equal to the
  staged function `Compiled`, and the lemmas about `Compiled` state what
  each attribute ends up as.
- `Resources` (`resources.dfy`) models `BaseResource`. It covers `view`, `dispatch`, the
  authentication loop, verb resolution with the method-override header,
  encoder and decoder negotiation, the operation check, `get`, `post` and
  `process`. Each loop of the source is a method of the class `Resource`
  with loop invariants, proved equal to a specification function
  (`Chain`, `ResolveVerb`, `NegotiateEncoder`, `SelectDecoder`,
  `DispatchSpec`, `ViewSpec`). The lemmas state the properties of those
  functions.
- `FlapjackAuth` (`flapjack_auth.dfy`) covers `Authentication`, `Header`, `Http` and `Basic`.
- `ArmetAuth` (`armet_auth.dfy`) covers `Authentication` and `BasicAuthentication`.
- `FlapjackEncoders` (`flapjack_encoders.dfy`) covers `Encoder`, `Json` and the module-level
  `encoders` registry with its helpers.
- `Text` (`text.dfy`) and `Common` (`common.dfy`) hold supporting definitions:
  - `Text` has the Python string operations the code uses (`lower`, `upper`, `strip`,
    `split(sep, 1)`, `join`, the slash split of a path).
  - `Common` has the user, data and error values.

An exception that escapes a stage is modelled as a `Fault` outcome, not as
a typed error. The modelled escapes are:
- a `KeyError` on `META['HTTP_ACCEPT']`;
- an unbound `auth` after an empty authenticator loop;
- a `ValueError` from a spaceless `Authorization` header in flapjack;
- the `get_user` signature mismatch in armet;
- `None.encode`;
- an `AttributeError` on an encoder or decoder object that lacks `mimetype`,
  `can_transcode` or `encode`.

`view` turns a fault into an empty 500 response, or re-raises it when `settings.DEBUG` is set.

Dispatch reads three attributes of an encoder object: `mimetype`, `can_transcode` and
`encode` (src/flapjack/resources/base.py:438-439, :551, :563). The encoder that
`BaseResource` registers is `flapjack.encoders.Json`, loaded and instantiated by Meta
(:186-196). `Json` offers `get_mimetype`, `can_emit` and `emit` instead
(src/flapjack/encoders.py:11-48). The model records which attributes each object has
(`Resources.Transcoder`), and `BaseDefinition` registers the object as shipped
(`ShippedJson`). On that resource:

- no response carries a body (`ShippedResponsesHaveNoBody`);
- an unknown format, or any Accept header other than the wildcard range, ends in an empty
  500 (`ShippedNegotiationIsServerError`).

`ConformingDefinition` registers an adapter with the interface dispatch reads
(`ConformingJson`). The lemmas about successful JSON responses and NotAcceptable listings are stated on it. See "## Findings".

Three further behaviours of the code are worth spelling out:

- **GET without an Accept header.** `flapjack.encoders.get_by_request` falls back to JSON
  when the request has no Accept header (src/flapjack/encoders.py:78-80).
  `_determine_encoder` has no such fallback. It subscripts
  `self.request.META['HTTP_ACCEPT']` (src/flapjack/resources/base.py:538), so the request
  raises `KeyError` and `view` answers an empty 500 (`GetWithoutAcceptIsServerError`). The
  default encoder is chosen only for an Accept header that is the wildcard range.
- **`filterable`.** The doc comment on `filterable` (src/flapjack/resources/base.py:294-297)
  says that the default `()` excludes every field from filtering. The code (:48-49) makes a
  falsy `filterable`, `()` included, admit every field (`FilterabilityOfLists`).
- **NotAcceptable.** The loop that builds `available` (:562-563) subscripts the registry and
  reads `mimetype` for every allowed name. NotAcceptable is therefore raised only when every
  allowed name is registered and its object has `mimetype`. Otherwise the loop raises
  `KeyError` (`UnregisteredEncoder`) or `AttributeError` (`MissingAttribute`).

`_has` inspects only the own namespaces of the direct bases
(src/flapjack/resources/base.py:30-32). A scoped set that a more distant
ancestor gave is therefore replaced by the global set (`DistantSettingReplaced`).

## Model

| member | source | states |
|---|---|---|
| ResourceMeta.HasOwnEntry | src/flapjack/resources/base.py:27-28 | When the class's own namespace holds the name, `_has` is true exactly when that value is not None, whatever the bases hold. |
| ResourceMeta.HasFirstBaseDecides | src/flapjack/resources/base.py:30-32 | Otherwise the first direct base whose own namespace holds the name decides (not None means set), even when a later base disagrees. |
| ResourceMeta.HasNowhere | src/flapjack/resources/base.py:34 | A name held neither by the class nor by any direct base counts as unset. |
| ResourceMeta.DistantSettingReplaced | src/flapjack/resources/base.py:22-34 | A scoped set declared only by a more distant ancestor is reported unset and is replaced by the global set. |
| ResourceMeta.VisibilityOfLists | src/flapjack/resources/base.py:43-46 | For name lists, a field is visible iff the whitelist is empty or lists it, and the blacklist does not list it. With no lists, every field is visible. |
| ResourceMeta.FilterabilityOfLists | src/flapjack/resources/base.py:48-49 | A field is filterable iff `filterable` is empty or lists it. None makes every field filterable. |
| ResourceMeta.Describe | src/flapjack/resources/base.py:122-143 | A `_fields` entry keeps the form field's name, declared kind and collection flag. Its visibility and filterability come from the two predicates, and it is always editable. |
| ResourceMeta.ResourceType.DiscoverFields | src/flapjack/resources/base.py:115-143 | There is no entry when the class's `form` is None. Otherwise there is one entry per form field, in form order, each described against the class's `fields`, `exclude` and `filterable`. |
| ResourceMeta.ResourceType.NameAndFilterable | src/flapjack/resources/base.py:154-161 | The namespace gains the lower-cased class name unless `name` is declared, and the empty tuple for `filterable` unless `_has` reports it set. |
| ResourceMeta.ResourceType.PopulateScoped | src/flapjack/resources/base.py:163-171 | The nested loop leaves the namespace equal to setting, in order, each of the four scoped sets not reported set to the global verb or operation set. |
| ResourceMeta.ScopedNames | src/flapjack/resources/base.py:164-169 | The pattern `f` and scope `k` of the loop spell the `2f+k`-th scoped attribute, whose default is the verb set for the first pattern and the operation set for the second. |
| ResourceMeta.ResourceType.Configure | src/flapjack/resources/base.py:36-41 | `_config` writes the configured value for the key only when the attribute is unset and the value is not None. Otherwise it leaves the namespace as it was. |
| ResourceMeta.ResourceType.ApplyConfiguration | src/flapjack/resources/base.py:173-180 | The six `_config` calls, in source order, leave the namespace equal to the `ConfigureAll` fold over `ConfigPairs`. |
| ResourceMeta.ResourceType.constructor | src/flapjack/resources/base.py:145-180 | `Meta.__init__` leaves `_fields` as described from the form. The class namespace becomes `Compiled(...)`, which the `Compiled*` lemmas characterise attribute by attribute. The form's fields are given exactly when the class's `form` is not None. |
| ResourceMeta.CompiledName | src/flapjack/resources/base.py:155-156 | After Meta, `name` is the declared value if there is one, and the lower-cased class name otherwise. |
| ResourceMeta.CompiledFilterable | src/flapjack/resources/base.py:158-161 | After Meta, `filterable` is the looked-up value when `_has` reports it set, and the empty tuple otherwise. |
| ResourceMeta.CompiledScopedSets | src/flapjack/resources/base.py:163-171 | After Meta, each scoped set keeps its looked-up value when `_has` reports it set. Otherwise it equals its global set (`http_allowed_methods` or `allowed_operations`). |
| ResourceMeta.CompiledConfigured | src/flapjack/resources/base.py:173-180 | After Meta, each configurable attribute is the configured value when it is unset and configuration holds a value other than None. Otherwise it is its looked-up value. |
| ResourceMeta.CompiledUnwritten | src/flapjack/resources/base.py:145-180 | Every attribute Meta does not write is exactly as the class statement or the inheritance left it. |
| ResourceMeta.OverUnsetBase | src/flapjack/resources/base.py:607-608 | A class created directly over a base that declares the scoped sets and `filterable` as None (as `Resource` is over `BaseResource`) gets the lower-cased name, the empty `filterable` and the global sets. |
| ResourceMeta.BaseResourceDeclaresUnset | src/flapjack/resources/base.py:203-298 | `BaseResource` declares the four scoped sets and `filterable` as None, and has the global sets `get, post, put, delete` and `read, create, update, destroy`. |
| FlapjackAuth.NewAuthentication | src/flapjack/authentication.py:19-29 | The base protocol requires active users and allows anonymous ones unless told otherwise. |
| FlapjackAuth.NewBasic | src/flapjack/authentication.py:127-167 | Basic defaults `allow_anonymous` to False only when it is not given. Each of challenge, realm, username field and password field comes from the argument, else the configuration, else `True`, `django:flapjack`, `username` or `password`. |
| FlapjackAuth.BasicDefaults | src/flapjack/authentication.py:56-61 | With no arguments and nothing configured, Basic requires active users, refuses anonymous ones and challenges with realm `django:flapjack`. |
| FlapjackAuth.PlainProtocol | src/flapjack/authentication.py:31-47 | The base protocol always yields the anonymous user, and its error is AuthenticationRequired. |
| FlapjackAuth.Unauthenticated | src/flapjack/authentication.py:139-150 | The error is Unauthorized with the protocol's realm iff the protocol is an Http one that challenges. Otherwise it is AuthenticationRequired. |
| FlapjackAuth.CanAuthenticateIgnoresCase | src/flapjack/authentication.py:169-170 | The scheme test holds iff the scheme spells `basic` in any mixture of cases. |
| FlapjackAuth.BasicOutcomes | src/flapjack/authentication.py:63-90 | For a header `scheme credentials`, a foreign scheme gives no opinion. A failing credential lookup escapes. A missing or inactive user gives the anonymous user. Otherwise the result is the user found. |
| FlapjackAuth.NoHeaderAbstains | src/flapjack/authentication.py:70-90 | Without an Authorization header the `AttributeError` is caught and the protocol gives no opinion. |
| FlapjackAuth.SpacelessHeaderCrashes | src/flapjack/authentication.py:72 | A header without a space raises an uncaught `ValueError`. |
| FlapjackAuth.AuthenticatedMeansActive | src/flapjack/authentication.py:40-42 | A non-anonymous user is handed out only when activity is required and the user is active. With `require_active` off every user is demoted. |
| ArmetAuth.NewAuthentication | src/armet/authentication.py:13-18 | The base protocol allows anonymous users unless told otherwise. |
| ArmetAuth.NewBasicAuthentication | src/armet/authentication.py:39-41 | `setdefault` makes `allow_anonymous` False only when the caller gave none. |
| ArmetAuth.Defaults | src/armet/authentication.py:18-41 | The defaults are True for the base protocol and False for Basic. A given value always wins. |
| ArmetAuth.BaseProtocol | src/armet/authentication.py:20-34 | The base protocol's `authenticate` gives None (attempt failed), and `unauthenticated` raises Forbidden. |
| ArmetAuth.MalformedHeader | src/armet/authentication.py:45-53 | An absent header, or one without a space, gives False (cannot authenticate). |
| ArmetAuth.BasicOutcomes | src/armet/authentication.py:55-67 | A scheme other than `basic`, in any case, gives False. Undecodable credentials, or credentials without a colon, give None. |
| ArmetAuth.CredentialsPassedOn | src/armet/authentication.py:59-77 | Well-formed credentials pass the text before the first colon as username and the rest, colons included, as password. An overriding `get_user` decides. The inherited `get_user` raises on its signature. |
| FlapjackEncoders.GetMimetype | src/flapjack/encoders.py:11-14 | The preferred media type is the first declared one. It is None exactly when none is declared. |
| FlapjackEncoders.Emit | src/flapjack/encoders.py:42-48 | `emit` produces nothing exactly for None, and the serialisation of anything else. |
| FlapjackEncoders.GetByName | src/flapjack/encoders.py:73-74 | `get_by_name` gives the registry entry under the lower-cased name, and None exactly when no such name is registered. |
| FlapjackEncoders.GetByNameIgnoresCase | src/flapjack/encoders.py:73-74 | Upper-casing the requested name does not change the lookup. |
| FlapjackEncoders.GetByRequest | src/flapjack/encoders.py:77-88 | Without an Accept key the result is the `json` entry. Otherwise it is the first registry encoder that can emit for the header, or None exactly when none can. |
| FlapjackEncoders.GetAvailable | src/flapjack/encoders.py:91-96 | The keys are exactly the registry's names, each mapped to its encoder's preferred media type. |
| FlapjackEncoders.ShippedRegistry | src/flapjack/encoders.py:25-70 | The shipped registry holds JSON alone, preferring `application/json`, found as `JSON` and not as `xml`. |
| Resources.ChainBinds | src/flapjack/resources/base.py:418-428 | Authenticator `k` binds its user exactly when it returns a user that is authenticated or that it lets in anonymously, and every earlier one gave None or an unaccepted user. Later ones do not matter. |
| Resources.ChainExhausts | src/flapjack/resources/base.py:430-432 | The loop is exhausted exactly when every authenticator passes on, and then the last one's `Unauthenticated` is raised. An empty list leaves `auth` unbound. |
| Resources.DefaultAuthenticationAdmits | src/flapjack/resources/base.py:278-280 | With the default authenticator every request proceeds as the anonymous user. |
| Resources.Resource.Authenticate | src/flapjack/resources/base.py:416-432 | The loop's result is `Chain(...)`. `request.user` is set to the bound user, and is left alone when none is bound. |
| Resources.AllowedMethods | src/flapjack/resources/base.py:495-502 | `_allowed_methods` is the detail set when an identifier is present, and the list set otherwise. |
| Resources.HandlerNamed | src/flapjack/resources/base.py:527 | Of the handler names, `get` and `post` are the only ones `BaseResource` defines. |
| Resources.HandlerFollowsVerb | src/flapjack/resources/base.py:507-527 | The handler is looked up by the rewritten `request.method`, which names the same verb that was checked. |
| Resources.OverrideWins | src/flapjack/resources/base.py:507-511 | With the override header, the request's own verb is irrelevant. The checked verb is the lower-cased header, and `request.method` becomes its upper-case form. |
| Resources.VerbOutcomes | src/flapjack/resources/base.py:517-533 | A verb the library does not know, or an allowed verb without a handler, gives NotImplemented. A known verb outside the scope's set gives MethodNotAllowed with the allowed verbs. Otherwise the result is the handler of that name. Nothing escapes. |
| Resources.AllowHeaderOrder | src/flapjack/resources/base.py:524-525 | For verb names that are non-empty and have no surrounding whitespace, the MethodNotAllowed text is exactly the names upper-cased, in declared order, joined by `, `. |
| Resources.PutAndDeleteNotImplemented | src/flapjack/resources/base.py:527-530 | PUT and DELETE are allowed on `BaseResource` but have no handler, so they are NotImplemented. |
| Resources.Resource.DetermineMethod | src/flapjack/resources/base.py:504-533 | The method's result is `ResolveVerb(...)`, and `request.method` is rewritten from the override header when there is one. |
| Resources.MissingAcceptFaults | src/flapjack/resources/base.py:538 | A request with no Accept key raises `KeyError`, whatever the format. |
| Resources.FormatDecides | src/flapjack/resources/base.py:539-546 | An explicit format gives the lower-cased name's encoder when it is allowed and registered, and NotAcceptable otherwise. The Accept header and the matcher are never consulted. |
| Resources.WildcardSelectsDefault | src/flapjack/resources/base.py:555-557 | An Accept header that strips to the wildcard range selects the default encoder, or None when the default is not registered. |
| Resources.AcceptSelectsFirst | src/flapjack/resources/base.py:548-566 | For any other Accept header, the first allowed encoder (in declared order) that can transcode is chosen. NotAcceptable is raised exactly when every allowed encoder is registered, has `can_transcode` and `mimetype`, and refuses. |
| Resources.ScanChoosesFirst | src/flapjack/resources/base.py:549-553 | A successful scan returns the first accepting name's encoder. A scan that raises found every name registered, with `can_transcode`, and refusing. |
| Resources.ScanEncoders | src/flapjack/resources/base.py:548-553 | The scan returns an encoder of the registry, and any NotAcceptable it raises is the fall-through's. |
| Resources.ListingFault | src/flapjack/resources/base.py:562-563 | The listing loop raises nothing exactly when every name is registered and its object has `mimetype`. A `KeyError` means some name is unregistered. |
| Resources.NotAcceptableFor | src/flapjack/resources/base.py:559-566 | The fall-through raises NotAcceptable with `Available(def)` exactly when every allowed name can be listed. Otherwise it escapes with `KeyError` or `AttributeError`, and it never selects an encoder. |
| Resources.NegotiateEncoder | src/flapjack/resources/base.py:535-566 | A selected encoder is one of the registry's. Any NotAcceptable is the fall-through's. |
| Resources.NotAcceptableListsAllowed | src/flapjack/resources/base.py:559-566 | NotAcceptable is raised only when every allowed name can be listed, and it maps exactly the allowed names to their media types. |
| Resources.Resource.DetermineEncoder | src/flapjack/resources/base.py:535-566 | The method's result is `NegotiateEncoder(...)`. |
| Resources.Resource.ReportUnacceptable | src/flapjack/resources/base.py:559-566 | The loop building `available` raises NotAcceptable with `Available(def)`, or escapes at the first name that is unregistered or whose object has no `mimetype`. |
| Resources.ContentType | src/flapjack/resources/base.py:572-573 | The content type is the header's value, and `application/octet-stream` without one. |
| Resources.SelectDecoder | src/flapjack/resources/base.py:576-583 | The result is the first decoder in declared order that can transcode the content type, every earlier one refusing. UnsupportedMediaType is raised exactly when every decoder refuses. The first decoder without `can_transcode` reached before an accepting one raises `AttributeError`. |
| Resources.Resource.DetermineDecoder | src/flapjack/resources/base.py:568-583 | The method's result is `SelectDecoder` of the decoders and the request's content type. |
| Resources.AllowedOperations | src/flapjack/resources/base.py:585-592 | `_allowed_operations` is the detail set when an identifier is present, and the list set otherwise. |
| Resources.AssertOperation | src/flapjack/resources/base.py:594-604 | The check passes exactly when the operation is allowed in the scope. Otherwise it raises Forbidden with the allowed set and the fixed message. |
| Resources.GetShaping | src/flapjack/resources/base.py:460-489 | `get` is Forbidden unless `read` is allowed. In detail scope a falsy result is NotFound, a string or mapping is kept and a list is reduced to its first element. In list scope None becomes `[]`. The status is OK. |
| Resources.Post | src/flapjack/resources/base.py:491-493 | `post` returns no data with status 204. |
| Resources.Get | src/flapjack/resources/base.py:460-489 | `get` succeeds only with status OK. Its errors are Forbidden or NotFound, and it escapes only for a missing `read` or an unindexable result. |
| Resources.Process | src/flapjack/resources/base.py:434-441 | The response has the given status. It has a body and a Content-Type exactly when the data is not None, and then they are the encoding and the encoder's `mimetype`. Data escapes exactly when the encoder is None or lacks `encode` or `mimetype`. |
| Resources.Chain | src/flapjack/resources/base.py:416-432 | A bound user was accepted by its authenticator. The loop escapes with an unbound `auth` exactly when the list is empty, and otherwise only because an authenticator raised. |
| Resources.ResolveVerb | src/flapjack/resources/base.py:504-533 | Verb resolution never escapes. A handler is found only for a verb the library knows and the scope allows. |
| Resources.AuthenticationFirst | src/flapjack/resources/base.py:380-382 | When authentication does not bind a user, dispatch ends with its error (without an encoder) or its fault, whatever else the request says. |
| Resources.VerbBeforeEncoder | src/flapjack/resources/base.py:384-388 | A rejected verb is reported without an encoder, even for a request without an Accept header. |
| Resources.DecodersOnlyForBody | src/flapjack/resources/base.py:391-396 | For a request without a body, the decoders do not affect dispatch. |
| Resources.LateErrorsCarryEncoder | src/flapjack/resources/base.py:412-414 | Every error raised after negotiation is rendered with the negotiated encoder. |
| Resources.AfterNegotiation | src/flapjack/resources/base.py:391-441 | Every error raised after negotiation carries the negotiated encoder. A response with a body needs that encoder to have `encode` and `mimetype`, and its Content-Type is that `mimetype`. |
| Resources.DispatchSpec | src/flapjack/resources/base.py:375-414 | A response is produced only past authentication, verb resolution and negotiation. A typed error carries an encoder only when negotiation chose it. |
| Resources.BodyNeedsEncoder | src/flapjack/resources/base.py:434-441 | A response has a body only when negotiation chose an encoder with `encode` and `mimetype`, and its Content-Type is that `mimetype`. |
| Resources.Resource.Dispatch | src/flapjack/resources/base.py:375-414 | The reply is `DispatchSpec(...)`. `request.user` and `request.method` change only when authentication binds a user. |
| Resources.ViewContainsFaults | src/flapjack/resources/base.py:320-353 | Outside debug mode no fault leaves `view`; it becomes an empty 500 response. A path made only of slashes addresses the resource itself. |
| Resources.ViewSpec | src/flapjack/resources/base.py:320-353 | `view` re-raises only in debug mode and answers 500 only outside it, always with an empty 500 response. An answered request had an empty sub-path and is dispatch's reply, never a fault. |
| Resources.View | src/flapjack/resources/base.py:320-353 | The result is `ViewSpec(...)`: a non-empty sub-path escapes, because `traverse` returns None, and dispatch faults become a 500 response or are re-raised in debug mode. A non-empty sub-path leaves `request.user` and `request.method` alone. Otherwise, through dispatch (:417-428, :507-511), `request.user` becomes the bound user and `request.method` the overridden verb exactly when authentication binds a user, and both are unchanged when it does not. |
| Text.Segments | src/flapjack/resources/base.py:329-330 | No path segment is empty or contains a slash. |
| Text.SegmentsSpellPath | src/flapjack/resources/base.py:329-330 | The segments, read in order, spell the path with its slashes removed. |
| Text.SegmentsSlashFree | src/flapjack/resources/base.py:329-330 | A path without a slash is one segment, or none when it is empty. |
| Text.SegmentsAtSlash | src/flapjack/resources/base.py:329-330 | Splitting at any slash splits the segments there, so the segments are the maximal slash-free runs. |
| FlapjackAuth.GetUser | src/flapjack/authentication.py:172-177 | The lookup escapes exactly when the stripped credentials do not decode or decode to text without a colon. |
| FlapjackAuth.Authenticate | src/flapjack/authentication.py:31-90 | The base protocol always hands out the anonymous user. Only a Basic protocol that received a header can raise or hand out an authenticated user. |
| ArmetAuth.Authenticate | src/armet/authentication.py:20-77 | A user is authenticated only by Basic, with a header, through an overriding `get_user`. The inherited `get_user` raises only for Basic with a header. |
| Resources.BaseDefinitionCompiled | src/flapjack/resources/base.py:145-196 | `BaseDefinition` is the class Meta creates over `BaseResource` with nothing configured. Its verb sets, operation sets, allowed and default encoders come from Meta's result. Its one encoder is the object loaded from `flapjack.encoders.Json`. |
| ResourceMeta.BaseResourceValues | src/flapjack/resources/base.py:255-281 | `BaseResource` knows the nine HTTP verbs, registers `json` as `flapjack.encoders.Json`, allows and defaults to `json`, and authenticates with `flapjack.authentication.Authentication`. |
| Resources.BaseAdmits | src/flapjack/resources/base.py:416-533 | On `BaseResource`, a GET or POST without the override header passes authentication as the anonymous user and resolves to the `get` or `post` handler. |
| Resources.ShippedWildcardNegotiates | src/flapjack/resources/base.py:555-557 | On the shipped resource the wildcard Accept selects the `Json` object itself. |
| Resources.BaseAvailable | src/flapjack/resources/base.py:559-566 | On a resource whose `json` object has `mimetype`, NotAcceptable lists `json` alone with that media type. |
| Resources.ShippedCannotList | src/flapjack/resources/base.py:563 | On the shipped resource the NotAcceptable fall-through raises `AttributeError`, because `Json` has no `mimetype`. |
| Resources.GetWithoutAcceptIsServerError | src/flapjack/resources/base.py:538 | `GET /poll/` without an Accept header on `BaseResource` answers an empty 500. |
| Resources.ShippedResponsesHaveNoBody | src/flapjack/resources/base.py:434-441 | No response of the shipped resource carries a body, for any request. |
| Resources.ShippedNegotiationIsServerError | src/flapjack/resources/base.py:539-566 | On the shipped resource a `GET` with an unknown format, or with any Accept header other than the wildcard range, answers an empty 500. |
| Resources.MissingItemNotFound | src/flapjack/resources/base.py:472-475 | `GET /poll/1` with the wildcard Accept, where `read` finds nothing, is NotFound with `Json` as the encoder. |
| Resources.UndecodableBodyUnsupported | src/flapjack/resources/base.py:391-393 | `POST /poll/` with the wildcard Accept and a body that every decoder refuses is UnsupportedMediaType with `Json` as the encoder. |
| Resources.BodilessPostNoContent | src/flapjack/resources/base.py:491-493 | `POST /poll/` with the wildcard Accept and no body answers 204 with no body. |
| Resources.ConformingListGetResponds | src/flapjack/resources/base.py:434-489 | With an encoder that has the interface dispatch reads, `GET /poll/` whose Accept JSON serves answers 200 with the encoded list (the empty list for None), as `application/json`. |
| Resources.ConformingUnknownFormatNotAcceptable | src/flapjack/resources/base.py:539-566 | With such an encoder, the format `xml` is NotAcceptable and lists `json` as `application/json`. |
| Resources.ConformingUnservableAcceptNotAcceptable | src/flapjack/resources/base.py:548-566 | With such an encoder, an Accept header JSON cannot serve makes `GET /poll/1` NotAcceptable, listing `json`. |

## Findings

| source | as written | input that shows it | evidently intended | confidence | as-written member | corrected member |
|---|---|---|---|---|---|---|
| src/flapjack/resources/base.py:434-566 | Dispatch reads `mimetype`, `can_transcode` and `encode` of the registered encoder. `BaseResource` registers `flapjack.encoders.Json`, which has `get_mimetype`, `can_emit` and `emit` instead. | `GET /poll/` with `Accept: */*` where `read` returns a list: `process` calls `encode`, which does not exist, and `view` answers an empty 500. With `Accept: application/json` the scan fails first on `can_transcode`. | A 200 response with the JSON encoding of the list and Content-Type `application/json`. | not executed; medium (the encoder interface may have been meant to change in `flapjack.encoders`) | Resources.ShippedResponsesHaveNoBody | Resources.ConformingListGetResponds |

All the generic lemmas above are stated for any `Definition`, so they hold for the shipped
resource and for `ConformingDefinition` alike.

## Left out

- `_get_field_class` (src/flapjack/resources/base.py:51-109) and the collection probe of
  `_discover_fields` (:129-136) depend on Django form fields and the current time. A form field's
  kind and collection flag are declared inputs of the model instead.
- URL patterns, `url` and `urls` (:300-318), and `csrf_exempt`: these are framework routing.
  The path, identifier and format reach `view` as parameters.
- The inflation of `encoders`, `decoders` and `authentication` by `utils.load` and
  instantiation (:182-196) is class loading. `Resources.Definition` is the resource after
  loading, and `Resources.BaseDefinition` is `BaseResource` in that form.
- `traverse` beyond the empty path: the code only handles `[]` (:355-361) and returns None
  otherwise. The model has that None as the `UnknownSubResource` fault.
- `prepare` and `clean` are the identity (:443-458) and are not modelled as stages. The result of
  `decoder.decode` (:396) is never used by `get` or `post`. Decoding itself is not modelled,
  including any exception it raises: `flapjack.decoders` is not part of this model. Only the
  choice of decoder, its `UnsupportedMediaType` and a missing `can_transcode` are modelled.
- Handlers other than `get` and `post`: `getattr` could find any other attribute of a subclass.
  The model knows only `BaseResource`'s two handlers.
- `ex.dispatch` and the HTTP status of each typed error: these are rendering in
  `flapjack.exceptions`, which is not part of this model. A typed error is reported with the encoder
  that rendering would use.
- Status codes 200, 204 and 500 are those of `flapjack.http`, which is not part of this model.
  The model uses the standard values.
- `accept is not None` (:548): META values are strings, so the model treats the header as
  present whenever its key is.
- What `can_transcode` and `encode` compute, on objects that have them, comes from collaborator
  functions. `Resources.Transcoder` records only which of `mimetype`, `can_transcode` and
  `encode` an object has, and its `mimetype`.
- The decoder classes (`flapjack.decoders.Form`) are not part of this model. The decoders of
  `BaseDefinition` are a parameter, each with or without `can_transcode`.
- Resources.AllowHeaderOrder: stated for verb names that are non-empty and have no whitespace at
  either end, as all declared verb names are. For other names `strip()` can remove whitespace
  from the ends of the joined text, and the lemma says nothing about that case.
- `mimeparse.best_match`, `json.dumps`, base64 decoding and Django's `authenticate` are library
  calls and become function parameters. `settings.DEBUG` and `utils.config` become parameters.
  `request.user` is an `Option`.
- Case mapping and whitespace are those of ASCII. Python's Unicode `lower`, `upper` and
  `strip` are not modelled.
- The TODOs in `Meta.__init__` (`include`) and in `dispatch` (authorization) do nothing in the
  code and are not modelled.
- The bottle, cyclone and sqlalchemy connectors, the JSON deserializer and the tests are outside
  the pipeline modelled here.
- FlapjackEncoders.CanEmit: it is the single comparison `best_match(...) != ''` over the
  matcher parameter and carries no contract of its own. `GetByRequest` states its use.
