/**
 * The encoder registry of flapjack: encoder classes declaring the media
 * types they can emit, and the module-level name-to-encoder mapping with
 * its lookup helpers.  Media-type matching is `mimeparse.best_match`, a
 * library function that the helpers receive as a parameter.
 */
module FlapjackEncoders {
  import opened Common
  import opened Text

  /** An encoder class, known by its declared media types (preferred first). */
  datatype Encoder = Encoder(mimetypes: seq<string>)

  const Json: Encoder := Encoder([
    "application/json",
    "application/jsonrequest",
    "application/x-json",
    "text/json",
    "text/x-json"])

  /** A name-to-encoder dictionary, in its iteration order. */
  type Registry = seq<(string, Encoder)>

  /** The module-level `encoders` dictionary. */
  const Encoders: Registry := [("json", Json)]

  /** Dictionary keys are unique. */
  predicate UniqueNames(registry: Registry) {
    forall i, j :: 0 <= i < j < |registry| ==> registry[i].0 != registry[j].0
  }

  function Names(registry: Registry): set<string> {
    set i | 0 <= i < |registry| :: registry[i].0
  }

  /** `mimeparse.best_match(supported, header)`: the best supported type, or '' when none fits. */
  type Matcher = (seq<string>, string) -> string

  /** `get_mimetype()`: the preferred media type, if the encoder declares any. */
  function GetMimetype(e: Encoder): (r: Option<string>)
    ensures r.None? <==> e.mimetypes == []
    ensures r.Some? ==> r.value == e.mimetypes[0]
  {
    if e.mimetypes != [] then Some(e.mimetypes[0]) else None
  }

  /** `can_emit(accept_header)` */
  predicate CanEmit(e: Encoder, accept: string, bestMatch: Matcher) {
    bestMatch(e.mimetypes, accept) != ""
  }

  /** `Json.emit(obj)`: the serialisation by `dumps`, and nothing at all for None. */
  function Emit(obj: Data, dumps: Data -> string): (r: Option<string>)
    ensures r.None? <==> obj.Null?
    ensures r.Some? ==> r.value == dumps(obj)
  {
    if obj.Null? then None else Some(dumps(obj))
  }

  /** `encoders.get(name)` */
  function Get(registry: Registry, name: string): (r: Option<Encoder>)
    ensures r.None? <==> name !in Names(registry)
    ensures r.Some? ==> exists k :: 0 <= k < |registry| && registry[k] == (name, r.value)
  {
    if |registry| == 0 then None
    else if registry[0].0 == name then Some(registry[0].1)
    else
      var r := Get(registry[1..], name);
      assert Names(registry) == {registry[0].0} + Names(registry[1..]) by {
        assert forall i :: 0 < i < |registry| ==> registry[i] == registry[1..][i - 1];
      }
      assert r.Some? ==> exists k :: 0 <= k < |registry| && registry[k] == (name, r.value) by {
        if r.Some? {
          var k :| 0 <= k < |registry[1..]| && registry[1..][k] == (name, r.value);
          assert registry[k + 1] == (name, r.value);
        }
      }
      r
  }

  /** `get_by_name(format)`: lookup of the lower-cased name. */
  function GetByName(registry: Registry, format: string): (r: Option<Encoder>)
    ensures r.None? <==> Lower(format) !in Names(registry)
    ensures r.Some? ==> exists k :: 0 <= k < |registry| && registry[k] == (Lower(format), r.value)
  {
    Get(registry, Lower(format))
  }

  /** The lookup does not depend on the casing of the requested name. */
  lemma GetByNameIgnoresCase(registry: Registry, format: string)
    ensures GetByName(registry, Upper(format)) == GetByName(registry, format)
  {
    LowerOfUpper(format);
  }

  /**
   * `get_by_request(request)`: JSON when the request carries no Accept
   * header; otherwise the first encoder in iteration order that can emit
   * for the header, and None when none can.
   */
  method GetByRequest(registry: Registry, meta: map<string, string>, bestMatch: Matcher)
    returns (r: Option<Encoder>)
    ensures "HTTP_ACCEPT" !in meta ==> r == Get(registry, "json")
    ensures "HTTP_ACCEPT" in meta && r.Some? ==>
      exists k :: 0 <= k < |registry| && registry[k].1 == r.value &&
        CanEmit(r.value, meta["HTTP_ACCEPT"], bestMatch) &&
        forall j :: 0 <= j < k ==> !CanEmit(registry[j].1, meta["HTTP_ACCEPT"], bestMatch)
    ensures "HTTP_ACCEPT" in meta && r.None? ==>
      forall k :: 0 <= k < |registry| ==> !CanEmit(registry[k].1, meta["HTTP_ACCEPT"], bestMatch)
  {
    if "HTTP_ACCEPT" !in meta {
      return Get(registry, "json");
    }
    var accept := meta["HTTP_ACCEPT"];
    var i := 0;
    while i < |registry|
      invariant 0 <= i <= |registry|
      invariant forall j :: 0 <= j < i ==> !CanEmit(registry[j].1, accept, bestMatch)
    {
      var serializer := registry[i].1;
      if CanEmit(serializer, accept, bestMatch) {
        return Some(serializer);
      }
      i := i + 1;
    }
    return None;
  }

  /** `get_available()`: every registered name, mapped to its encoder's preferred media type. */
  method GetAvailable(registry: Registry) returns (available: map<string, Option<string>>)
    requires UniqueNames(registry)
    ensures available.Keys == Names(registry)
    ensures forall k :: 0 <= k < |registry| ==> available[registry[k].0] == GetMimetype(registry[k].1)
  {
    available := map[];
    var i := 0;
    while i < |registry|
      invariant 0 <= i <= |registry|
      invariant available.Keys == set j | 0 <= j < i :: registry[j].0
      invariant forall j :: 0 <= j < i ==> available[registry[j].0] == GetMimetype(registry[j].1)
    {
      var (name, item) := registry[i];
      available := available[name := GetMimetype(item)];
      i := i + 1;
    }
  }

  /** The shipped registry: JSON, preferring `application/json`, found under any casing of its name. */
  lemma ShippedRegistry()
    ensures UniqueNames(Encoders) && Names(Encoders) == {"json"}
    ensures GetMimetype(Json) == Some("application/json")
    ensures GetByName(Encoders, "JSON") == Some(Json)
    ensures GetByName(Encoders, "xml") == None
  {
    assert Encoders[0].0 == "json";
    assert Names(Encoders) == {"json"};
    assert Lower("JSON") == "json";
    assert Lower("xml") == "xml";
  }
}
