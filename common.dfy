/** Values shared by the authentication, encoder and resource modules. */
module Common {

  datatype Option<T> = None | Some(value: T) {
    function GetOr(default: T): T {
      match this
      case Some(v) => v
      case None => default
    }
  }

  /** A user object handed out by Django: the anonymous user or a stored account. */
  datatype User = Anonymous | Account(username: string, isActive: bool) {
    /** `user.is_authenticated()`: true of every stored account, false of the anonymous user. */
    predicate IsAuthenticated() { Account? }
    /** `user.is_active`; Django's anonymous user is never active. */
    predicate Active() { Account? && isActive }
  }

  /** A Python value produced by a resource's `read` hook. */
  datatype Data =
    | Null
    | Str(s: string)
    | Num(n: int)
    | Bool(b: bool)
    | Mapping(entries: seq<(string, Data)>)
    | List(items: seq<Data>)
    | Object(ref: string)   // a domain object (a model instance): truthy, not indexable
  {
    /** Python truthiness of the value. */
    predicate Truthy() {
      match this
      case Null => false
      case Str(s) => s != ""
      case Num(n) => n != 0
      case Bool(b) => b
      case Mapping(es) => es != []
      case List(xs) => xs != []
      case Object(_) => true
    }
  }

  /** The typed errors of the resource pipeline (`flapjack.exceptions`). */
  datatype HttpError =
    | AuthenticationRequired
    | Unauthorized(realm: string)
    | Forbidden(allowed: seq<string>, message: string)
    | NotFound
    | MethodNotAllowed(allow: string)
    | NotImplemented
    | NotAcceptable(available: map<string, string>)
    | UnsupportedMediaType

  /** Index of the first element of `xs` that satisfies `p`, if any. */
  function FirstWhere<T>(xs: seq<T>, p: T -> bool): (r: Option<nat>)
    ensures r.Some? ==> r.value < |xs| && p(xs[r.value])
    ensures r.Some? ==> forall j :: 0 <= j < r.value ==> !p(xs[j])
    ensures r.None? ==> forall j :: 0 <= j < |xs| ==> !p(xs[j])
  {
    if |xs| == 0 then None
    else if p(xs[0]) then Some(0)
    else match FirstWhere(xs[1..], p)
      case None => None
      case Some(k) => Some(k + 1)
  }
}
