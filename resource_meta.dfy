/**
 * The metaclass of flapjack resources.  When a resource class is created,
 * `Meta.__init__` describes the fields of its form and then fills in the
 * class attributes left unset: the name, `filterable`, the list and detail
 * verb and operation sets, and the attributes that configuration may supply.
 * A class is seen through its own namespace (`__dict__`), the own
 * namespaces of its direct bases, and the attributes it inherits along its
 * method resolution order.
 */
module ResourceMeta {
  import Common
  import opened Text

  /** A class attribute's value, as far as Meta inspects it. */
  datatype Value =
    | Null                                   // None
    | Str(text: string)
    | Names(names: seq<string>)              // a tuple or list of names
    | Table(entries: seq<(string, string)>)  // a dict from names to dotted class paths
  {
    predicate Truthy() {
      match this
      case Null => false
      case Str(t) => t != ""
      case Names(ns) => ns != []
      case Table(es) => es != []
    }

    /** Python's `name in value` (evaluated only on truthy values). */
    predicate Holds(name: string) {
      match this
      case Null => false
      case Str(t) => Occurs(name, t)
      case Names(ns) => name in ns
      case Table(es) => exists i :: 0 <= i < |es| && es[i].0 == name
    }
  }

  type Namespace = map<string, Value>

  /** Attribute lookup on the class: its own namespace first, then what it inherits. */
  function Lookup(own: Namespace, inherited: Namespace, name: string): Value {
    if name in own then own[name] else if name in inherited then inherited[name] else Null
  }

  /** The loop of `_has` over the direct bases: the first base whose own namespace holds the name decides. */
  predicate HasInBases(name: string, bases: seq<Namespace>) {
    if bases == [] then false
    else if name in bases[0] then bases[0][name] != Null
    else HasInBases(name, bases[1..])
  }

  /** `Meta._has(name, attrs, bases)`: whether the attribute was set to something other than None. */
  predicate Has(name: string, attrs: Namespace, bases: seq<Namespace>) {
    if name in attrs then attrs[name] != Null else HasInBases(name, bases)
  }

  /** Base `k` is the first direct base whose own namespace holds `name`. */
  predicate DecidedBy(name: string, bases: seq<Namespace>, k: int) {
    0 <= k < |bases| && name in bases[k] && forall j :: 0 <= j < k ==> name !in bases[j]
  }

  /** The class's own entry decides, whatever the bases say. */
  lemma HasOwnEntry(name: string, attrs: Namespace, bases: seq<Namespace>)
    requires name in attrs
    ensures Has(name, attrs, bases) <==> attrs[name] != Null
  {
  }

  /** Otherwise the first base holding the name decides, even when later bases disagree. */
  lemma {:induction false} HasFirstBaseDecides(name: string, attrs: Namespace, bases: seq<Namespace>, k: int)
    requires name !in attrs && DecidedBy(name, bases, k)
    ensures Has(name, attrs, bases) <==> bases[k][name] != Null
  {
    HasInBasesAt(name, bases, k);
  }

  lemma {:induction false} HasInBasesAt(name: string, bases: seq<Namespace>, k: int)
    requires DecidedBy(name, bases, k)
    ensures HasInBases(name, bases) <==> bases[k][name] != Null
    decreases k
  {
    if k > 0 {
      assert name !in bases[0];
      assert DecidedBy(name, bases[1..], k - 1) by {
        forall j | 0 <= j < k - 1 ensures name !in bases[1..][j] {
          assert bases[1..][j] == bases[j + 1];
        }
      }
      HasInBasesAt(name, bases[1..], k - 1);
    }
  }

  /** And when neither the class nor any direct base holds the name, it counts as unset. */
  lemma {:induction false} HasNowhere(name: string, attrs: Namespace, bases: seq<Namespace>)
    requires name !in attrs && forall k :: 0 <= k < |bases| ==> name !in bases[k]
    ensures !Has(name, attrs, bases)
  {
    NotInBases(name, bases);
  }

  lemma {:induction false} NotInBases(name: string, bases: seq<Namespace>)
    requires forall k :: 0 <= k < |bases| ==> name !in bases[k]
    ensures !HasInBases(name, bases)
    decreases |bases|
  {
    if bases != [] {
      assert name !in bases[0];
      NotInBases(name, bases[1..]);
    }
  }

  // ---------------------------------------------------------------- fields

  /** The field classes of `flapjack.fields`; declared rather than probed. */
  datatype FieldKind = TextField | DateTimeField | TimeField | DateField | FileField | BooleanField

  /** A field of the resource's form: its name, its declared kind and whether its empty value is a collection. */
  datatype FormField = FormField(name: string, kind: FieldKind, collection: bool)

  /** An entry of the resource's `_fields`. */
  datatype Field = Field(name: string, kind: FieldKind, visible: bool, filterable: bool,
                         collection: bool, editable: bool)

  /** `_is_field_visible(name)` against the `fields` whitelist and the `exclude` blacklist. */
  predicate IsFieldVisible(whitelist: Value, blacklist: Value, name: string) {
    !(whitelist.Truthy() && !whitelist.Holds(name)) && !(blacklist.Truthy() && blacklist.Holds(name))
  }

  /** `_is_field_filterable(name)` */
  predicate IsFieldFilterable(filterable: Value, name: string) {
    !(filterable.Truthy() && !filterable.Holds(name))
  }

  /** For lists of names: a field is visible iff an empty whitelist or membership, and no blacklisting. */
  lemma VisibilityOfLists(whitelist: seq<string>, blacklist: seq<string>, name: string)
    ensures IsFieldVisible(Names(whitelist), Names(blacklist), name) <==>
      (whitelist == [] || name in whitelist) && name !in blacklist
    ensures IsFieldVisible(Null, Null, name)
  {
  }

  /**
   * A non-empty `filterable` lists the filterable fields; None and the
   * empty tuple both make every field filterable.
   */
  lemma FilterabilityOfLists(filterable: seq<string>, name: string)
    ensures IsFieldFilterable(Names(filterable), name) <==> filterable == [] || name in filterable
    ensures IsFieldFilterable(Null, name)
  {
  }

  function Describe(f: FormField, whitelist: Value, blacklist: Value, filterable: Value): (d: Field)
    ensures d.name == f.name && d.kind == f.kind && d.collection == f.collection
    ensures d.visible == IsFieldVisible(whitelist, blacklist, f.name)
    ensures d.filterable == IsFieldFilterable(filterable, f.name)
    ensures d.editable
  {
    Field(f.name, f.kind, IsFieldVisible(whitelist, blacklist, f.name),
          IsFieldFilterable(filterable, f.name), f.collection, true)
  }

  /** A form's fields have distinct names (they are the keys of `base_fields`). */
  predicate UniqueFieldNames(form: seq<FormField>) {
    forall i, j :: 0 <= i < j < |form| ==> form[i].name != form[j].name
  }

  // ------------------------------------------------------ attribute defaults

  /** The two attribute-name patterns and the two scopes of the defaulting loop. */
  const Patterns: seq<(string, string, string)> := [
    ("http_", "_allowed_methods", "http_allowed_methods"),
    ("", "_allowed_operations", "allowed_operations")]
  const Scopes: seq<string> := ["list", "detail"]

  /** The attributes the defaulting loop visits, in order, with the values it would give them. */
  function ScopedDefaults(methods: Value, operations: Value): seq<(string, Value)> {
    [("http_list_allowed_methods", methods), ("http_detail_allowed_methods", methods),
     ("list_allowed_operations", operations), ("detail_allowed_operations", operations)]
  }

  /** The loop's attribute names are those of `ScopedDefaults`, pattern by pattern and scope by scope. */
  lemma ScopedNames(methods: Value, operations: Value, f: nat, k: nat)
    requires f < |Patterns| && k < |Scopes|
    ensures Patterns[f].0 + Scopes[k] + Patterns[f].1 == ScopedDefaults(methods, operations)[2 * f + k].0
    ensures ScopedDefaults(methods, operations)[2 * f + k].1 == if f == 0 then methods else operations
  {
    if f == 0 && k == 0 {
      SpelledListMethods();
    } else if f == 0 {
      SpelledDetailMethods();
    } else if k == 0 {
      SpelledListOperations();
    } else {
      SpelledDetailOperations();
    }
  }

  lemma SpelledListMethods() ensures "http_" + "list" + "_allowed_methods" == "http_list_allowed_methods" {}
  lemma SpelledDetailMethods() ensures "http_" + "detail" + "_allowed_methods" == "http_detail_allowed_methods" {}
  lemma SpelledListOperations() ensures "" + "list" + "_allowed_operations" == "list_allowed_operations" {}
  lemma SpelledDetailOperations() ensures "" + "detail" + "_allowed_operations" == "detail_allowed_operations" {}

  /** One more step of the fold. */
  lemma DefaultedStep(d: Namespace, pairs: seq<(string, Value)>, n: nat, attrs: Namespace, bases: seq<Namespace>)
    requires n < |pairs|
    ensures var prev := Defaulted(d, pairs[..n], attrs, bases);
      Defaulted(d, pairs[..n + 1], attrs, bases) ==
        if Has(pairs[n].0, attrs, bases) then prev else prev[pairs[n].0 := pairs[n].1]
  {
    assert pairs[..n + 1][..n] == pairs[..n];
  }

  /** Setting each listed attribute that `_has` reports unset, in order. */
  function Defaulted(d: Namespace, pairs: seq<(string, Value)>, attrs: Namespace, bases: seq<Namespace>): Namespace
    decreases |pairs|
  {
    if pairs == [] then d
    else
      var prev := Defaulted(d, pairs[..|pairs| - 1], attrs, bases);
      var (attr, default) := pairs[|pairs| - 1];
      if Has(attr, attrs, bases) then prev else prev[attr := default]
  }

  /** `utils.config(key)`: the configured value, or None. */
  function Configured(config: map<string, Value>, key: string): Value {
    if key in config then config[key] else Null
  }

  /** `_config(name, key, attrs, bases)` on a namespace. */
  function ConfigStep(d: Namespace, name: string, key: string, attrs: Namespace,
                      bases: seq<Namespace>, config: map<string, Value>): Namespace {
    if !Has(name, attrs, bases) && Configured(config, key) != Null then d[name := Configured(config, key)] else d
  }

  /** The attributes configuration may supply, each with the key it is looked up under, in order. */
  const ConfigPairs: seq<(string, string)> := [
    ("url_name", "url"), ("http_method_names", "http.methods"), ("encoders", "encoders"),
    ("decoders", "decoders"), ("default_encoder", "default.encoder"),
    ("authentication", "resource.authentication")]

  /** The `_config` calls, one after the other. */
  function ConfigureAll(d: Namespace, pairs: seq<(string, string)>, attrs: Namespace,
                        bases: seq<Namespace>, config: map<string, Value>): Namespace
    decreases |pairs|
  {
    if pairs == [] then d
    else
      var (name, key) := pairs[|pairs| - 1];
      ConfigStep(ConfigureAll(d, pairs[..|pairs| - 1], attrs, bases, config), name, key, attrs, bases, config)
  }

  /** The namespace once the name is ensured. */
  function Named(className: string, attrs: Namespace): Namespace {
    if "name" !in attrs then attrs["name" := Str(Lower(className))] else attrs
  }

  /** ... and `filterable` defaulted. */
  function Filtered(className: string, attrs: Namespace, bases: seq<Namespace>): Namespace {
    var named := Named(className, attrs);
    if !Has("filterable", attrs, bases) then named["filterable" := Names([])] else named
  }

  /** ... and the list and detail sets populated. */
  function Scoped(className: string, attrs: Namespace, bases: seq<Namespace>, inherited: Namespace): Namespace {
    var filtered := Filtered(className, attrs, bases);
    Defaulted(filtered,
      ScopedDefaults(Lookup(filtered, inherited, "http_allowed_methods"),
                     Lookup(filtered, inherited, "allowed_operations")),
      attrs, bases)
  }

  /** The class namespace after `Meta.__init__`, from the namespace the class statement produced. */
  function Compiled(className: string, attrs: Namespace, bases: seq<Namespace>,
                    inherited: Namespace, config: map<string, Value>): Namespace
  {
    ConfigureAll(Scoped(className, attrs, bases, inherited), ConfigPairs, attrs, bases, config)
  }

  /**
   * The attributes Meta may write; every other attribute keeps the value the
   * class statement gave it.  `_fields` is the ordered field dictionary,
   * which this model keeps apart from the namespace (`MetaClass.fields`).
   */
  const Written: set<string> := {
    "_fields", "name", "filterable",
    "http_list_allowed_methods", "http_detail_allowed_methods",
    "list_allowed_operations", "detail_allowed_operations",
    "url_name", "http_method_names", "encoders", "decoders", "default_encoder", "authentication"}

  /** The global set each scoped attribute defaults to. */
  const GlobalOf: map<string, string> := map[
    "http_list_allowed_methods" := "http_allowed_methods",
    "http_detail_allowed_methods" := "http_allowed_methods",
    "list_allowed_operations" := "allowed_operations",
    "detail_allowed_operations" := "allowed_operations"]

  /** `r` agrees with `d` on `name`. */
  predicate SameAt(r: Namespace, d: Namespace, name: string) {
    (name in r <==> name in d) && (name in d ==> r[name] == d[name])
  }

  lemma {:induction false} DefaultedFrame(d: Namespace, pairs: seq<(string, Value)>, attrs: Namespace,
                                       bases: seq<Namespace>, name: string)
    requires forall i :: 0 <= i < |pairs| ==> pairs[i].0 != name
    ensures SameAt(Defaulted(d, pairs, attrs, bases), d, name)
    decreases |pairs|
  {
    if pairs != [] {
      DefaultedFrame(d, pairs[..|pairs| - 1], attrs, bases, name);
    }
  }

  lemma {:induction false} DefaultedAt(d: Namespace, pairs: seq<(string, Value)>, attrs: Namespace,
                                    bases: seq<Namespace>, k: nat)
    requires k < |pairs|
    requires forall i :: 0 <= i < |pairs| && i != k ==> pairs[i].0 != pairs[k].0
    ensures var r := Defaulted(d, pairs, attrs, bases);
      if Has(pairs[k].0, attrs, bases) then SameAt(r, d, pairs[k].0)
      else pairs[k].0 in r && r[pairs[k].0] == pairs[k].1
    decreases |pairs|
  {
    var prefix := pairs[..|pairs| - 1];
    if k == |pairs| - 1 {
      DefaultedFrame(d, prefix, attrs, bases, pairs[k].0);
    } else {
      DefaultedAt(d, prefix, attrs, bases, k);
    }
  }

  lemma {:induction false} ConfigureAllFrame(d: Namespace, pairs: seq<(string, string)>, attrs: Namespace,
                                          bases: seq<Namespace>, config: map<string, Value>, name: string)
    requires forall i :: 0 <= i < |pairs| ==> pairs[i].0 != name
    ensures SameAt(ConfigureAll(d, pairs, attrs, bases, config), d, name)
    decreases |pairs|
  {
    if pairs != [] {
      ConfigureAllFrame(d, pairs[..|pairs| - 1], attrs, bases, config, name);
    }
  }

  lemma {:induction false} ConfigureAllAt(d: Namespace, pairs: seq<(string, string)>, attrs: Namespace,
                                       bases: seq<Namespace>, config: map<string, Value>, k: nat)
    requires k < |pairs|
    requires forall i :: 0 <= i < |pairs| && i != k ==> pairs[i].0 != pairs[k].0
    ensures var (name, key) := pairs[k];
      var r := ConfigureAll(d, pairs, attrs, bases, config);
      if !Has(name, attrs, bases) && Configured(config, key) != Null
      then name in r && r[name] == Configured(config, key)
      else SameAt(r, d, name)
    decreases |pairs|
  {
    var prefix := pairs[..|pairs| - 1];
    if k == |pairs| - 1 {
      ConfigureAllFrame(d, prefix, attrs, bases, config, pairs[k].0);
    } else {
      ConfigureAllAt(d, prefix, attrs, bases, config, k);
    }
  }

  /** The configuration calls leave the name, `filterable` and the scoped sets as they were. */
  lemma CompiledAfterScoped(className: string, attrs: Namespace, bases: seq<Namespace>,
                            inherited: Namespace, config: map<string, Value>, name: string)
    requires forall i :: 0 <= i < |ConfigPairs| ==> ConfigPairs[i].0 != name
    ensures SameAt(Compiled(className, attrs, bases, inherited, config), Scoped(className, attrs, bases, inherited), name)
  {
    ConfigureAllFrame(Scoped(className, attrs, bases, inherited), ConfigPairs, attrs, bases, config, name);
  }

  /** The defaulting loop leaves every attribute but the four scoped sets as the earlier steps left it. */
  lemma ScopedFrame(className: string, attrs: Namespace, bases: seq<Namespace>, inherited: Namespace, name: string)
    requires name !in GlobalOf
    ensures SameAt(Scoped(className, attrs, bases, inherited), Filtered(className, attrs, bases), name)
  {
    var filtered := Filtered(className, attrs, bases);
    DefaultedFrame(filtered,
      ScopedDefaults(Lookup(filtered, inherited, "http_allowed_methods"),
                     Lookup(filtered, inherited, "allowed_operations")),
      attrs, bases, name);
  }

  /** Unless it is declared, `name` is the lower-cased class name. */
  lemma CompiledName(className: string, attrs: Namespace, bases: seq<Namespace>,
                     inherited: Namespace, config: map<string, Value>)
    ensures Lookup(Compiled(className, attrs, bases, inherited, config), inherited, "name") ==
      if "name" in attrs then attrs["name"] else Str(Lower(className))
  {
    CompiledAfterScoped(className, attrs, bases, inherited, config, "name");
    ScopedFrame(className, attrs, bases, inherited, "name");
  }

  /** Unless `_has` reports it set, `filterable` becomes the empty tuple. */
  lemma CompiledFilterable(className: string, attrs: Namespace, bases: seq<Namespace>,
                           inherited: Namespace, config: map<string, Value>)
    ensures Lookup(Compiled(className, attrs, bases, inherited, config), inherited, "filterable") ==
      if Has("filterable", attrs, bases) then Lookup(attrs, inherited, "filterable") else Names([])
  {
    CompiledAfterScoped(className, attrs, bases, inherited, config, "filterable");
    ScopedFrame(className, attrs, bases, inherited, "filterable");
  }

  /**
   * Each list and detail verb and operation set that `_has` reports unset
   * takes the value of its global set (`http_allowed_methods` or
   * `allowed_operations`); the others keep the value they had.
   */
  lemma CompiledScopedSets(className: string, attrs: Namespace, bases: seq<Namespace>,
                           inherited: Namespace, config: map<string, Value>, attr: string)
    requires attr in GlobalOf
    ensures Lookup(Compiled(className, attrs, bases, inherited, config), inherited, attr) ==
      if Has(attr, attrs, bases) then Lookup(attrs, inherited, attr)
      else Lookup(attrs, inherited, GlobalOf[attr])
  {
    CompiledAfterScoped(className, attrs, bases, inherited, config, attr);
    var filtered := Filtered(className, attrs, bases);
    var pairs := ScopedDefaults(Lookup(filtered, inherited, "http_allowed_methods"),
                                Lookup(filtered, inherited, "allowed_operations"));
    var k := if attr == "http_list_allowed_methods" then 0
      else if attr == "http_detail_allowed_methods" then 1
      else if attr == "list_allowed_operations" then 2 else 3;
    assert pairs[k] == (attr, Lookup(filtered, inherited, GlobalOf[attr]));
    DefaultedAt(filtered, pairs, attrs, bases, k);
    FilteredElsewhere(className, attrs, bases, attr);
    FilteredElsewhere(className, attrs, bases, GlobalOf[attr]);
  }

  /** The first two steps write only `name` and `filterable`. */
  lemma FilteredElsewhere(className: string, attrs: Namespace, bases: seq<Namespace>, name: string)
    requires name != "name" && name != "filterable"
    ensures SameAt(Filtered(className, attrs, bases), attrs, name)
  {
  }

  /**
   * Each configurable attribute that `_has` reports unset takes the
   * configured value when configuration holds one other than None.
   */
  lemma CompiledConfigured(className: string, attrs: Namespace, bases: seq<Namespace>,
                           inherited: Namespace, config: map<string, Value>, k: nat)
    requires k < |ConfigPairs|
    ensures var (attr, key) := ConfigPairs[k];
      Lookup(Compiled(className, attrs, bases, inherited, config), inherited, attr) ==
        if !Has(attr, attrs, bases) && Configured(config, key) != Null then Configured(config, key)
        else Lookup(attrs, inherited, attr)
  {
    var scoped := Scoped(className, attrs, bases, inherited);
    ConfigureAllAt(scoped, ConfigPairs, attrs, bases, config, k);
    ScopedFrame(className, attrs, bases, inherited, ConfigPairs[k].0);
  }

  /** Attributes Meta does not write are exactly as the class statement declared them. */
  lemma CompiledUnwritten(className: string, attrs: Namespace, bases: seq<Namespace>,
                          inherited: Namespace, config: map<string, Value>, attr: string)
    requires attr !in Written
    ensures Lookup(Compiled(className, attrs, bases, inherited, config), inherited, attr) ==
      Lookup(attrs, inherited, attr)
  {
    CompiledAfterScoped(className, attrs, bases, inherited, config, attr);
    ScopedFrame(className, attrs, bases, inherited, attr);
  }

  /**
   * `_has` reads only the own namespaces of the direct bases, so a scoped
   * set that a more distant ancestor declared, and that reaches the class
   * only through inheritance, is replaced by the global set.
   */
  lemma DistantSettingReplaced(className: string, attrs: Namespace, bases: seq<Namespace>,
                               inherited: Namespace, config: map<string, Value>, attr: string)
    requires attr in GlobalOf && attr !in attrs
    requires forall k :: 0 <= k < |bases| ==> attr !in bases[k]
    ensures Lookup(Compiled(className, attrs, bases, inherited, config), inherited, attr) ==
      Lookup(attrs, inherited, GlobalOf[attr])
  {
    HasNowhere(attr, attrs, bases);
    CompiledScopedSets(className, attrs, bases, inherited, config, attr);
  }

  // ------------------------------------------------------- the class object

  /** A resource class: its own namespace, which Meta updates, and its `_fields`. */
  class ResourceType {
    var dict: Namespace
    const bases: seq<Namespace>
    const inherited: Namespace
    var fields: seq<Field>

    /** `getattr(cls, name)` */
    function Get(name: string): Value
      reads this
    {
      Lookup(dict, inherited, name)
    }

    /**
     * `Meta.__init__(name, bases, attrs)`.  `form` gives the fields of the
     * resource's form, present exactly when the class's `form` attribute is
     * not None.
     */
    constructor (className: string, attrs: Namespace, bases: seq<Namespace>, inherited: Namespace,
                 form: Common.Option<seq<FormField>>, config: map<string, Value>)
      requires form.None? <==> Lookup(attrs, inherited, "form") == Null
      requires form.Some? ==> UniqueFieldNames(form.value)
      ensures this.bases == bases && this.inherited == inherited
      ensures form.None? ==> fields == []
      ensures form.Some? ==> (|fields| == |form.value| &&
        forall i :: 0 <= i < |fields| ==> (fields[i] ==
          Describe(form.value[i], Lookup(attrs, inherited, "fields"),
                   Lookup(attrs, inherited, "exclude"), Lookup(attrs, inherited, "filterable"))))
      ensures dict == Compiled(className, attrs, bases, inherited, config)
    {
      this.bases := bases;
      this.inherited := inherited;
      dict := attrs;
      fields := [];
      new;
      DiscoverFields(form);
      NameAndFilterable(className, attrs);
      PopulateScoped(attrs);
      assert dict == Scoped(className, attrs, bases, inherited);
      ApplyConfiguration(attrs, config);
    }

    /** The name defaulted to the lower-cased class name, and `filterable` to the empty tuple. */
    method NameAndFilterable(className: string, attrs: Namespace)
      requires dict == attrs
      modifies this`dict
      ensures dict == Filtered(className, attrs, bases)
    {
      if "name" !in attrs {
        dict := dict["name" := Str(Lower(className))];
      }
      if !Has("filterable", attrs, bases) {
        dict := dict["filterable" := Names([])];
      }
    }

    /** The loop that populates the list and detail verb and operation sets. */
    method PopulateScoped(attrs: Namespace)
      modifies this`dict
      ensures dict == Defaulted(old(dict),
        ScopedDefaults(old(Get("http_allowed_methods")), old(Get("allowed_operations"))), attrs, bases)
    {
      ghost var start := dict;
      var defaults := [Get(Patterns[0].2), Get(Patterns[1].2)];
      ghost var pairs := ScopedDefaults(defaults[0], defaults[1]);
      for f := 0 to |Patterns|
        invariant dict == Defaulted(start, pairs[..2 * f], attrs, bases)
      {
        var (prefix, suffix, _) := Patterns[f];
        for k := 0 to |Scopes|
          invariant dict == Defaulted(start, pairs[..2 * f + k], attrs, bases)
        {
          var attr := prefix + Scopes[k] + suffix;
          ScopedNames(defaults[0], defaults[1], f, k);
          DefaultedStep(start, pairs, 2 * f + k, attrs, bases);
          if !Has(attr, attrs, bases) {
            dict := dict[attr := defaults[f]];
          }
        }
      }
      assert pairs[..4] == pairs;
    }

    /** The six `_config` calls. */
    method ApplyConfiguration(attrs: Namespace, config: map<string, Value>)
      modifies this`dict
      ensures dict == ConfigureAll(old(dict), ConfigPairs, attrs, bases, config)
    {
      ghost var start := dict;
      Configure("url_name", "url", attrs, config);
      assert ConfigPairs[..1][..0] == ConfigPairs[..0];
      assert dict == ConfigureAll(start, ConfigPairs[..1], attrs, bases, config);
      Configure("http_method_names", "http.methods", attrs, config);
      assert ConfigPairs[..2][..1] == ConfigPairs[..1];
      assert dict == ConfigureAll(start, ConfigPairs[..2], attrs, bases, config);
      Configure("encoders", "encoders", attrs, config);
      assert ConfigPairs[..3][..2] == ConfigPairs[..2];
      assert dict == ConfigureAll(start, ConfigPairs[..3], attrs, bases, config);
      Configure("decoders", "decoders", attrs, config);
      assert ConfigPairs[..4][..3] == ConfigPairs[..3];
      assert dict == ConfigureAll(start, ConfigPairs[..4], attrs, bases, config);
      Configure("default_encoder", "default.encoder", attrs, config);
      assert ConfigPairs[..5][..4] == ConfigPairs[..4];
      assert dict == ConfigureAll(start, ConfigPairs[..5], attrs, bases, config);
      Configure("authentication", "resource.authentication", attrs, config);
      assert ConfigPairs[..6][..5] == ConfigPairs[..5];
      assert dict == ConfigureAll(start, ConfigPairs[..6], attrs, bases, config);
      assert ConfigPairs[..6] == ConfigPairs;
    }

    /** `_discover_fields()`: one `_fields` entry per form field, in the form's order; none when `form` is None. */
    method DiscoverFields(form: Common.Option<seq<FormField>>)
      requires fields == []
      requires form.None? <==> Get("form") == Null
      requires form.Some? ==> UniqueFieldNames(form.value)
      modifies this`fields
      ensures form.None? ==> fields == []
      ensures form.Some? ==> (|fields| == |form.value| &&
        forall i :: 0 <= i < |fields| ==> (fields[i] ==
          Describe(form.value[i], Get("fields"), Get("exclude"), Get("filterable"))))
    {
      if form.Some? {
        var formFields := form.value;
        for i := 0 to |formFields|
          invariant |fields| == i
          invariant forall j :: 0 <= j < i ==>
            fields[j] == Describe(formFields[j], Get("fields"), Get("exclude"), Get("filterable"))
        {
          fields := fields + [Describe(formFields[i], Get("fields"), Get("exclude"), Get("filterable"))];
        }
      }
    }

    /** `_config(name, key, attrs, bases)` */
    method Configure(name: string, key: string, attrs: Namespace, config: map<string, Value>)
      modifies this`dict
      ensures dict == ConfigStep(old(dict), name, key, attrs, bases, config)
    {
      if !Has(name, attrs, bases) {
        var options := Configured(config, key);
        if options != Null {
          dict := dict[name := options];
        }
      }
    }
  }

  // ------------------------------------------------ the shipped base class

  /** The class attributes of `BaseResource`. */
  const BaseResourceAttributes: Namespace := map[
    "name" := Null,
    "form" := Null,
    "http_method_names" := Names(["get", "post", "put", "delete", "patch", "options", "head", "connect", "trace"]),
    "http_allowed_methods" := Names(["get", "post", "put", "delete"]),
    "http_list_allowed_methods" := Null,
    "http_detail_allowed_methods" := Null,
    "allowed_operations" := Names(["read", "create", "update", "destroy"]),
    "list_allowed_operations" := Null,
    "detail_allowed_operations" := Null,
    "encoders" := Table([("json", "flapjack.encoders.Json")]),
    "allowed_encoders" := Names(["json"]),
    "default_encoder" := Str("json"),
    "decoders" := Names(["flapjack.decoders.Form"]),
    "authentication" := Names(["flapjack.authentication.Authentication"]),
    "url_name" := Str("api_view"),
    "exclude" := Null,
    "fields" := Null,
    "include" := Null,
    "filterable" := Null]

  /** A base class declaring the scoped sets and `filterable` as None, as `BaseResource` does. */
  predicate DeclaresUnset(base: Namespace) {
    && "filterable" in base && base["filterable"] == Null
    && (forall a :: a in GlobalOf ==> a in base && base[a] == Null)
  }

  /**
   * A class created over such a base alone, with nothing configured and
   * none of the attributes Meta writes declared, takes the lower-cased
   * class name, the empty `filterable` and the base's global sets.
   */
  lemma {:induction false} OverUnsetBase(className: string, attrs: Namespace, base: Namespace, attr: string)
    requires attrs.Keys !! Written && DeclaresUnset(base) && attr in GlobalOf
    ensures var d := Compiled(className, attrs, [base], base, map[]);
      && Lookup(d, base, "name") == Str(Lower(className))
      && Lookup(d, base, "filterable") == Names([])
      && Lookup(d, base, attr) == Lookup(attrs, base, GlobalOf[attr])
  {
    CompiledName(className, attrs, [base], base, map[]);
    CompiledFilterable(className, attrs, [base], base, map[]);
    CompiledScopedSets(className, attrs, [base], base, map[], attr);
  }

  /**
   * `BaseResource` declares the scoped sets and `filterable` as None, so
   * that `Resource`, created by Meta directly over it, takes the global verb
   * and operation sets (by `OverUnsetBase`).
   */
  lemma BaseResourceDeclaresUnset()
    ensures DeclaresUnset(BaseResourceAttributes)
    ensures BaseResourceAttributes["http_allowed_methods"] == Names(["get", "post", "put", "delete"])
    ensures BaseResourceAttributes["allowed_operations"] == Names(["read", "create", "update", "destroy"])
  {
    BaseResourceScopedNull();
    forall a | a in GlobalOf
      ensures a in BaseResourceAttributes && BaseResourceAttributes[a] == Null
    {
      assert a == "http_list_allowed_methods" || a == "http_detail_allowed_methods" ||
        a == "list_allowed_operations" || a == "detail_allowed_operations";
    }
  }

  /** The values `BaseResource` gives the attributes that select encoders, verbs and authentication. */
  lemma BaseResourceValues()
    ensures BaseResourceAttributes["http_method_names"] ==
      Names(["get", "post", "put", "delete", "patch", "options", "head", "connect", "trace"])
    ensures BaseResourceAttributes["encoders"] == Table([("json", "flapjack.encoders.Json")])
    ensures BaseResourceAttributes["default_encoder"] == Str("json")
    ensures BaseResourceAttributes["allowed_encoders"] == Names(["json"])
    ensures BaseResourceAttributes["authentication"] == Names(["flapjack.authentication.Authentication"])
  {
  }

  /** Meta never writes the list of allowed encoders. */
  lemma AllowedEncodersUnwritten()
    ensures "allowed_encoders" !in Written
  {
  }

  lemma BaseResourceScopedNull()
    ensures BaseResourceAttributes["filterable"] == Null
    ensures BaseResourceAttributes["http_list_allowed_methods"] == Null
    ensures BaseResourceAttributes["http_detail_allowed_methods"] == Null
    ensures BaseResourceAttributes["list_allowed_operations"] == Null
    ensures BaseResourceAttributes["detail_allowed_operations"] == Null
  {
  }
}
