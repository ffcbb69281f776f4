/** The activity record builder: the subject hashes of `options_for`, the extra
    fields of `extra_fields_for`, the object chosen by `set_object`, and the
    record with its cache key built by `activity`. */
module Records {
  import opened Values

  /** A subject hash `{id:, class:, display_name:}` merged with extra fields,
      keyed by symbol name. */
  type Ref = map<string, Value>

  /** A host object as the engine reads it: `id`, `class.to_s`, `to_s`, and the
      attributes that `send` can read. */
  datatype Subject = Subject(id: Value, className: string, display: string, attrs: map<string, Value>)

  /** The `:object` entry of a record: one subject hash, or, after a merge with
      the previous post, the flattened and de-duplicated array of them. */
  datatype ObjectField = One(ref: Ref) | Many(refs: seq<Ref>)

  /** The activity hash stored under `global_item`. `createdAt` is an opaque
      clock reading. */
  datatype Record = Record(
    cacheKey: string,
    verb: string,
    actor: Ref,
    obj: ObjectField,
    target: Option<Ref>,
    createdAt: int)

  /** The `object:` option of `track`: an accessor symbol (already resolved to
      the subject it returns), a list of extra field names, or anything else. */
  datatype ObjectOption = Accessor(resolved: Subject) | FieldList(fields: seq<string>) | Other

  /** The key of a subject's type in `@fields_for`: `object.class.to_s.downcase`. */
  function TypeKey(s: Subject): string {
    Downcase(s.className)
  }

  /** `set_object`: the subject recorded as the object, and `@fields_for` after
      the call. A field list makes the host itself the object and registers the
      fields under the host's type; anything but an accessor falls back to the host. */
  function SetObject(self: Subject, option: ObjectOption, fieldsFor: map<string, seq<string>>)
    : (r: (Subject, map<string, seq<string>>))
    ensures !option.Accessor? ==> r.0 == self
    ensures option.Accessor? ==> r.0 == option.resolved
    ensures option.FieldList? ==> Listed(self, r.1) == option.fields
    ensures forall t :: t != TypeKey(self) ==> (t in r.1 <==> t in fieldsFor)
    ensures forall t :: t in r.1 && t != TypeKey(self) ==> r.1[t] == fieldsFor[t]
    ensures !option.FieldList? ==> r.1 == fieldsFor
  {
    match option
    case Accessor(resolved) => (resolved, fieldsFor)
    case FieldList(fields) => (self, fieldsFor[TypeKey(self) := fields])
    case Other => (self, fieldsFor)
  }

  /** The field names `@fields_for` lists for the type of `s`. */
  function Listed(s: Subject, fieldsFor: map<string, seq<string>>): seq<string> {
    if TypeKey(s) in fieldsFor then fieldsFor[TypeKey(s)] else []
  }

  /** Every field listed for `s`'s type is an attribute of `obj`, which
      `extra_fields_for` reads it from; otherwise `send` raises. */
  predicate Capturable(s: Subject, obj: Subject, fieldsFor: map<string, seq<string>>) {
    forall f :: f in Listed(s, fieldsFor) ==> f in obj.attrs
  }

  /** The `inject` fold of `extra_fields_for`: each field, in order, set to the
      value `send` reads from `obj`. */
  function Capture(acc: Ref, fields: seq<string>, obj: Subject): (r: Ref)
    requires forall f :: f in fields ==> f in obj.attrs
    ensures r.Keys == acc.Keys + set f | f in fields
    ensures forall k :: k in r ==> r[k] == if k in fields then obj.attrs[k] else acc[k]
    decreases |fields|
  {
    if fields == [] then acc
    else Capture(acc[fields[0] := obj.attrs[fields[0]]], fields[1..], obj)
  }

  /** `extra_fields_for(s)`: the fields listed for `s`'s type, each read from
      `obj` (the host's `@object`), not from `s`. */
  function ExtraFieldsFor(s: Subject, obj: Subject, fieldsFor: map<string, seq<string>>): (r: Ref)
    requires Capturable(s, obj, fieldsFor)
    ensures r.Keys == set f | f in Listed(s, fieldsFor)
    ensures forall k :: k in r ==> r[k] == obj.attrs[k]
  {
    if TypeKey(s) !in fieldsFor then map[] else Capture(map[], fieldsFor[TypeKey(s)], obj)
  }

  /** `options_for(target)`: `nil` for no subject; otherwise its id, class name
      and display name, overridden by the extra fields listed for its type. */
  function OptionsFor(target: Option<Subject>, obj: Subject, fieldsFor: map<string, seq<string>>)
    : (r: Option<Ref>)
    requires target.Some? ==> Capturable(target.value, obj, fieldsFor)
    ensures r.None? <==> target.None?
    ensures target.Some? ==>
      var t, fields := target.value, Listed(target.value, fieldsFor);
      && r.value.Keys == {"id", "class", "display_name"} + (set f | f in fields)
      && (forall f :: f in fields ==> r.value[f] == obj.attrs[f])
      && ("id" !in fields ==> r.value["id"] == t.id)
      && ("class" !in fields ==> r.value["class"] == Str(t.className))
      && ("display_name" !in fields ==> r.value["display_name"] == Str(t.display))
  {
    match target
    case None => None
    case Some(t) =>
      var base := map["id" := t.id, "class" := Str(t.className), "display_name" := Str(t.display)];
      Some(base + ExtraFieldsFor(t, obj, fieldsFor))
  }

  /** `"<verb>_u<actor id>_o<object id>_<seconds>"`. */
  function CacheKey(verb: string, actor: Subject, obj: Subject, seconds: nat): (r: string)
    ensures |verb| < |r| && r[..|verb|] == verb
    ensures KeySeconds(r) == seconds
  {
    var p := verb + "_u" + ToS(actor.id) + "_o" + ToS(obj.id);
    AfterLastUnderscoreOf(p, NatToS(seconds));
    ParseNatToS(seconds);
    assert (p + "_" + NatToS(seconds))[..|verb|] == verb;
    p + "_" + NatToS(seconds)
  }

  /** Everything `activity` reads from the host and its callers can rely on. */
  predicate Buildable(actor: Subject, obj: Subject, target: Option<Subject>, fieldsFor: map<string, seq<string>>) {
    && Capturable(actor, obj, fieldsFor)
    && Capturable(obj, obj, fieldsFor)
    && (target.Some? ==> Capturable(target.value, obj, fieldsFor))
  }

  /** `activity(verb:)`: the record for one event. `seconds` is `Time.now.to_i`
      and `createdAt` the second reading of the clock. */
  function Activity(
    verb: string, actor: Subject, obj: Subject, target: Option<Subject>,
    fieldsFor: map<string, seq<string>>, seconds: nat, createdAt: int): (r: Record)
    requires Buildable(actor, obj, target, fieldsFor)
    ensures r.cacheKey == CacheKey(verb, actor, obj, seconds) && r.verb == verb
    ensures "id" in r.actor && r.obj.One? && "id" in r.obj.ref
    ensures r.target.None? <==> target.None?
    ensures r.actor == OptionsFor(Some(actor), obj, fieldsFor).value
    ensures r.obj == One(OptionsFor(Some(obj), obj, fieldsFor).value)
    ensures r.target == OptionsFor(target, obj, fieldsFor)
    ensures r.createdAt == createdAt
  {
    Record(
      CacheKey(verb, actor, obj, seconds),
      verb,
      OptionsFor(Some(actor), obj, fieldsFor).value,
      One(OptionsFor(Some(obj), obj, fieldsFor).value),
      OptionsFor(target, obj, fieldsFor),
      createdAt)
  }

  /** What follows the last underscore of a key. */
  function AfterLastUnderscore(k: string): string {
    if k == [] || k[|k| - 1] == '_' then [] else AfterLastUnderscore(k[..|k| - 1]) + [k[|k| - 1]]
  }

  /** The time a cache key was built at: the digits after its last underscore. */
  function KeySeconds(k: string): nat {
    ParseNat(AfterLastUnderscore(k))
  }

  lemma {:induction false} AfterLastUnderscoreOf(p: string, d: string)
    requires AllDigits(d)
    ensures AfterLastUnderscore(p + "_" + d) == d
    decreases |d|
  {
    var k := p + "_" + d;
    if d == [] {
      assert k[|k| - 1] == '_';
    } else {
      assert k[..|k| - 1] == p + "_" + d[..|d| - 1];
      AfterLastUnderscoreOf(p, d[..|d| - 1]);
      assert d == d[..|d| - 1] + [d[|d| - 1]];
    }
  }

  /** The cache key ends with the second it was built at, whatever the verb and
      ids contain: the time can be read back from the key. */
  lemma KeySecondsRoundTrip(verb: string, actor: Subject, obj: Subject, seconds: nat)
    ensures KeySeconds(CacheKey(verb, actor, obj, seconds)) == seconds
  {
    AfterLastUnderscoreOf(verb + "_u" + ToS(actor.id) + "_o" + ToS(obj.id), NatToS(seconds));
    ParseNatToS(seconds);
  }

  /** The same verb, actor and object at two different seconds give two keys;
      within one second they give the same key, whatever else differs. */
  lemma KeysDifferAcrossSeconds(verb: string, actor: Subject, obj: Subject, s1: nat, s2: nat)
    ensures CacheKey(verb, actor, obj, s1) == CacheKey(verb, actor, obj, s2) <==> s1 == s2
  {
    if CacheKey(verb, actor, obj, s1) == CacheKey(verb, actor, obj, s2) {
      KeySecondsRoundTrip(verb, actor, obj, s1);
      KeySecondsRoundTrip(verb, actor, obj, s2);
    }
  }

  /** With `object:` set to a field list, the host is recorded as the object and
      every listed field is read from it, and any other subject of the host's
      type (a target, say) carries the host's values for those fields, not its own. */
  lemma FieldListReadsHost(self: Subject, fields: seq<string>, other: Subject)
    requires forall f :: f in fields ==> f in self.attrs
    requires TypeKey(other) == TypeKey(self)
    ensures var (obj, fieldsFor) := SetObject(self, FieldList(fields), map[]);
      && obj == self
      && Capturable(other, obj, fieldsFor)
      && forall f :: f in fields ==> OptionsFor(Some(other), obj, fieldsFor).value[f] == self.attrs[f]
  {
  }
}
