/**
 * The entity list of the data hub: NGSI-LD entities (ETSI GS CIM 009, clause 4.5: a property is
 * either normalized, `{"type": "Property", "value": v, ...}`, or simplified, `v`) turned into
 * records `{id, type, name, source, attributes}`, where the attributes are the entity's
 * timeseries-capable properties, each with the source it is stored in.
 */
module Entities {
  import opened Wrappers
  import opened PyStrings
  import opened Json
  import opened Settings
  import opened SourceNames
  import opened Selection

  // ---------------------------------------------------------------- property values

  /** `_get_value`: the `value` of a normalized property; a simplified value is returned as it is. */
  function GetValue(obj: Value): (r: Value)
    ensures obj.Obj? && Has(obj, "value") ==> r == Get(obj, "value")
    ensures !(obj.Obj? && Has(obj, "value")) ==> r == obj
  {
    if obj.Null? then Null
    else if obj.Obj? && Has(obj, "value") then Get(obj, "value")
    else obj
  }

  /**
   * A property read in its normalized form, whose first `value` field is `v`, unwraps to the same
   * value as its simplified form `v`, unless `v` itself looks like a normalized property.
   */
  lemma NormalizedAgreesWithSimplified(property: Value, v: Value)
    requires property.Obj? && Has(property, "value") && Get(property, "value") == v
    requires !(v.Obj? && Has(v, "value"))
    ensures GetValue(property) == GetValue(v) == v
  {
  }

  /**
   * `_attr_source`: the attribute's own `source` metadata, unwrapped, when it is a string that is not
   * blank; it comes back trimmed and lower-cased. Anything else, or a non-object attribute, is `None`.
   */
  function AttrSource(attr: Value): (r: Option<string>)
    ensures r.Some? <==>
      attr.Obj? && GetValue(Get(attr, "source")).Str? && Strip(GetValue(Get(attr, "source")).s) != ""
    ensures r.Some? ==> r.value == Lower(Strip(GetValue(Get(attr, "source")).s)) && NormalisedSource(r.value)
  {
    if !attr.Obj? then None
    else
      var raw := Get(attr, "source");
      if raw.Null? then None
      else
        var v := GetValue(raw);
        if v.Str? && Strip(v.s) != "" then
          StripLowerIdempotent(v.s);
          Some(Lower(Strip(v.s)))
        else None
  }

  // ---------------------------------------------------------------- entity-level fields

  /** Whether an unwrapped source names a source: a string that is not blank. */
  predicate NamesSource(v: Value) {
    v.Str? && Strip(v.s) != ""
  }

  /**
   * The entity-level source: the unwrapped `source`, or the unwrapped `provider` when that is falsy,
   * trimmed and lower-cased when it names a source, and `timescale` otherwise. A truthy `source`
   * that names no source (a number, a blank string) gives `timescale`, whatever `provider` says.
   */
  function EntitySource(e: Value): (r: string)
    requires e.Obj?
    ensures NormalisedSource(r)
    ensures NamesSource(GetValue(Get(e, "source"))) ==> r == Lower(Strip(GetValue(Get(e, "source")).s))
    ensures Truthy(GetValue(Get(e, "source"))) && !NamesSource(GetValue(Get(e, "source"))) ==> r == "timescale"
    ensures !Truthy(GetValue(Get(e, "source"))) ==>
      r == (if NamesSource(GetValue(Get(e, "provider"))) then Lower(Strip(GetValue(Get(e, "provider")).s))
            else "timescale")
  {
    var raw := Or(GetValue(Get(e, "source")), GetValue(Get(e, "provider")));
    if NamesSource(raw) then
      StripLowerIdempotent(raw.s);
      Lower(Strip(raw.s))
    else
      TimescaleNormalised();
      "timescale"
  }

  /**
   * The record's `id`: `e.get("id") or ""`, unwrapped from its `value` when it is an object (falling
   * back to the object itself, and to `""` when that is falsy), then `str(...)`.
   */
  function EntityId(e: Value): (r: string)
    requires e.Obj?
    ensures Get(e, "id").Str? ==> r == Get(e, "id").s
    ensures !Truthy(Get(e, "id")) ==> r == ""
    ensures Get(e, "id").Obj? && Truthy(Get(e, "id")) && Get(Get(e, "id"), "value").Str? ==>
      r == Get(Get(e, "id"), "value").s
    ensures Get(e, "id").Obj? && Truthy(Get(e, "id")) && !Has(Get(e, "id"), "value") ==> r == PyStr(Get(e, "id"))
  {
    var raw := Or(Get(e, "id"), Str(""));
    if raw.Obj? then
      if Has(raw, "value") then GetOrPresent(raw, "value", raw); PyStr(Or(GetOr(raw, "value", raw), Str("")))
      else PyStr(Or(GetOr(raw, "value", raw), Str("")))
    else PyStr(raw)
  }

  /** The record's `name`: the unwrapped `name` as a string, or `Unknown` when it is `None`. */
  function EntityName(e: Value): (r: string)
    requires e.Obj?
    ensures GetValue(Get(e, "name")).Null? ==> r == "Unknown"
    ensures GetValue(Get(e, "name")).Str? ==> r == GetValue(Get(e, "name")).s
  {
    var raw := GetValue(Get(e, "name"));
    if raw.Null? then "Unknown" else PyStr(raw)
  }

  // ---------------------------------------------------------------- attribute discovery

  /** NGSI-LD keys that are never timeseries attributes. */
  const SystemKeys: set<string> := {
    "id", "type", "@context", "location", "name", "description",
    "address", "source", "provider", "dateCreated", "dateModified",
    "refAgriParcel", "refDevice", "refWeatherStation"}

  /** Relationships and geo-properties carry no timeseries. */
  predicate NonSeriesType(t: Value) {
    t == Str("Relationship") || t == Str("GeoProperty")
  }

  /**
   * Whether the entity entry `key: val` is listed as an attribute: not a system key, an object,
   * not of type `Relationship` or `GeoProperty`, and with a value that is not `None`.
   */
  predicate Emitted(key: string, val: Value) {
    && key !in SystemKeys
    && val.Obj?
    && !NonSeriesType(GetOr(val, "type", Str("")))
    && !GetValue(val).Null?
  }

  /** One discovered attribute: `{"name": key, "source": source}`. */
  datatype Attribute = Attribute(name: string, source: string)

  /** The attribute for `key: val`: its own source when it has one, else the entity's. */
  function AttributeOf(key: string, val: Value, entitySource: string): (a: Attribute)
    ensures a.name == key
    ensures AttrSource(val).Some? ==> a.source == AttrSource(val).value
    ensures AttrSource(val).None? ==> a.source == entitySource
  {
    Attribute(key, match AttrSource(val) case Some(s) => s case None => entitySource)
  }

  /** The entry test and the attribute builder, as function values. */
  function EmittedFn(): ((string, Value)) -> bool {
    (p: (string, Value)) => Emitted(p.0, p.1)
  }

  function AttributeFn(entitySource: string): ((string, Value)) -> Attribute {
    (p: (string, Value)) => AttributeOf(p.0, p.1, entitySource)
  }

  /** The attributes discovered among the entries `fields`, in entry order. */
  function Discovered(fields: seq<(string, Value)>, entitySource: string): seq<Attribute> {
    Select(fields, EmittedFn(), AttributeFn(entitySource))
  }

  /**
   * Exactly the listed entries become attributes, in entry order: `idx` maps each attribute to the
   * entry it comes from, strictly increasing, and every listed entry is in it.
   */
  lemma DiscoveredInEntryOrder(fields: seq<(string, Value)>, entitySource: string) returns (idx: seq<nat>)
    ensures |idx| == |Discovered(fields, entitySource)|
    ensures forall k :: 0 <= k < |idx| ==>
      && idx[k] < |fields|
      && Emitted(fields[idx[k]].0, fields[idx[k]].1)
      && Discovered(fields, entitySource)[k] == AttributeOf(fields[idx[k]].0, fields[idx[k]].1, entitySource)
    ensures forall k, l :: 0 <= k < l < |idx| ==> idx[k] < idx[l]
    ensures forall i :: 0 <= i < |fields| && Emitted(fields[i].0, fields[i].1) ==> i in idx
  {
    idx := SelectInOrder(fields, EmittedFn(), AttributeFn(entitySource));
  }

  /** One more entry: its attribute is appended when the entry is listed. */
  lemma DiscoveredStep(fields: seq<(string, Value)>, i: nat, entitySource: string)
    requires i < |fields|
    ensures Emitted(fields[i].0, fields[i].1) ==>
      Discovered(fields[..i + 1], entitySource)
        == Discovered(fields[..i], entitySource) + [AttributeOf(fields[i].0, fields[i].1, entitySource)]
    ensures !Emitted(fields[i].0, fields[i].1) ==>
      Discovered(fields[..i + 1], entitySource) == Discovered(fields[..i], entitySource)
  {
    assert fields[..i + 1][..i] == fields[..i];
  }

  /** With no key twice, as `json.loads` builds a dict, no attribute is listed twice. */
  lemma DiscoveredOnce(e: Value, entitySource: string)
    requires DistinctKeys(e)
    ensures var attrs := Discovered(e.fields, entitySource);
      forall k, l :: 0 <= k < l < |attrs| ==> attrs[k].name != attrs[l].name
  {
    var idx := DiscoveredInEntryOrder(e.fields, entitySource);
    var attrs := Discovered(e.fields, entitySource);
    forall k, l | 0 <= k < l < |attrs| ensures attrs[k].name != attrs[l].name {
      assert idx[k] < idx[l];
    }
  }

  /** Every discovered attribute names a normalised source, given a normalised entity source. */
  lemma DiscoveredSourcesNormalised(fields: seq<(string, Value)>, entitySource: string)
    requires NormalisedSource(entitySource)
    ensures forall a :: a in Discovered(fields, entitySource) ==> NormalisedSource(a.source)
  {
    var idx := DiscoveredInEntryOrder(fields, entitySource);
    var attrs := Discovered(fields, entitySource);
    forall a | a in attrs ensures NormalisedSource(a.source) {
      var k :| 0 <= k < |attrs| && attrs[k] == a;
      assert a == AttributeOf(fields[idx[k]].0, fields[idx[k]].1, entitySource);
    }
  }

  // ---------------------------------------------------------------- normalised records

  /** A normalised entity, as the entity tree receives it. */
  datatype EntityRecord = EntityRecord(
    id: string, etype: string, name: string, source: string, attributes: seq<Attribute>)

  /** `_norm_entity(e, etype)`, as a function of the entity. */
  function NormalisedEntity(e: Value, etype: string): (rec: EntityRecord)
    requires e.Obj?
    ensures rec.etype == etype && rec.id == EntityId(e) && rec.name == EntityName(e)
    ensures rec.source == EntitySource(e) && rec.attributes == Discovered(e.fields, EntitySource(e))
  {
    EntityRecord(EntityId(e), etype, EntityName(e), EntitySource(e), Discovered(e.fields, EntitySource(e)))
  }

  /** `_norm_entity`: the fields, then one pass over the entries appending each listed attribute. */
  method NormEntity(e: Value, etype: string) returns (rec: EntityRecord)
    requires e.Obj?
    ensures rec == NormalisedEntity(e, etype)
  {
    var entitySource := EntitySource(e);
    var attributes: seq<Attribute> := [];
    for i := 0 to |e.fields|
      invariant attributes == Discovered(e.fields[..i], entitySource)
    {
      var (key, val) := e.fields[i];
      DiscoveredStep(e.fields, i, entitySource);
      if key in SystemKeys || !val.Obj? {
        continue;
      }
      var propType := GetOr(val, "type", Str(""));
      if NonSeriesType(propType) || GetValue(val).Null? {
        continue;
      }
      var source := match AttrSource(val) case Some(s) => s case None => entitySource;
      attributes := attributes + [Attribute(key, source)];
    }
    assert e.fields[..|e.fields|] == e.fields;
    rec := EntityRecord(EntityId(e), etype, EntityName(e), entitySource, attributes);
  }

  // ---------------------------------------------------------------- search

  /**
   * The search filter: with no query, or an empty one, every record is kept; otherwise a record is
   * kept when the lower-cased query occurs in its lower-cased name or in its lower-cased id.
   */
  predicate Matches(search: Option<string>, rec: EntityRecord) {
    match search
    case None => true
    case Some(q) => q == "" || Contains(Lower(rec.name), Lower(q)) || Contains(Lower(rec.id), Lower(q))
  }

  /** Lower-casing maps upper-cased text back to its lower-cased form. */
  lemma LowerUpper(s: string)
    ensures Lower(Upper(s)) == Lower(s)
  {
    assert forall i :: 0 <= i < |s| ==> LowerChar(UpperChar(s[i])) == LowerChar(s[i]);
  }

  /**
   * A non-empty query keeps a record exactly when it occurs, ignoring case, in the name or the id;
   * upper- or lower-casing the query changes nothing.
   */
  lemma MatchesIgnoresCase(q: string, rec: EntityRecord)
    requires q != ""
    ensures Matches(Some(q), rec) <==>
      (exists i :: OccursAt(Lower(rec.name), Lower(q), i)) || (exists i :: OccursAt(Lower(rec.id), Lower(q), i))
    ensures Matches(Some(Lower(q)), rec) == Matches(Some(q), rec)
    ensures Matches(Some(Upper(q)), rec) == Matches(Some(q), rec)
  {
    LowerIdempotent(q);
    LowerUpper(q);
  }

  // ---------------------------------------------------------------- the listing

  /** The entity types listed, in the order they are fetched. */
  const EntityTypesWithData: seq<string> := ["AgriParcel", "WeatherObserved", "Device", "AgriSensor"]

  /**
   * `_fetch_ngsi_entities` given the reply: the entities when the reply is a list, `[]` otherwise,
   * and `None` when the request raised (connection error, error status, a body that is not JSON).
   */
  function FetchedEntities(reply: Option<Value>): (r: Option<seq<Value>>)
    ensures r.None? <==> reply.None?
    ensures reply.Some? && reply.value.Arr? ==> r == Some(reply.value.items)
    ensures reply.Some? && !reply.value.Arr? ==> r == Some([])
  {
    match reply
    case None => None
    case Some(data) => if data.Arr? then Some(data.items) else Some([])
  }

  /** Normalising an entity of type `etype`, and the search test on the record, as function values. */
  function RecordFn(etype: string): Value --> EntityRecord {
    (e: Value) requires e.Obj? => NormalisedEntity(e, etype)
  }

  function KeepFn(etype: string, search: Option<string>): Value --> bool {
    (e: Value) requires e.Obj? => Matches(search, RecordFn(etype)(e))
  }

  /** The records the search keeps among entities that are all objects, in order. */
  function Kept(raw: seq<Value>, etype: string, search: Option<string>): seq<EntityRecord>
    requires forall i :: 0 <= i < |raw| ==> raw[i].Obj?
  {
    Select(raw, KeepFn(etype, search), RecordFn(etype))
  }

  /** How many entities of `raw` are normalised before one that is not an object raises. */
  function ObjectPrefix(raw: seq<Value>): (n: nat)
    ensures n <= |raw|
    ensures forall i :: 0 <= i < n ==> raw[i].Obj?
    ensures n < |raw| ==> !raw[n].Obj?
  {
    if raw == [] || !raw[0].Obj? then 0 else 1 + ObjectPrefix(raw[1..])
  }

  /**
   * The records one type contributes: none when its request raised; otherwise the matching records
   * of its entities up to the first that is not an object, whose normalisation raises and ends the
   * type (the records already appended stay).
   */
  function TypeRecords(reply: Option<Value>, etype: string, search: Option<string>): seq<EntityRecord> {
    match FetchedEntities(reply)
    case None => []
    case Some(raw) => Kept(raw[..ObjectPrefix(raw)], etype, search)
  }

  /** The records of the first `n` types. */
  function RecordsUpTo(platformBase: string, search: Option<string>, fetch: (string, string) -> Option<Value>,
                       n: nat): seq<EntityRecord>
    requires n <= |EntityTypesWithData|
  {
    if n == 0 then []
    else
      var etype := EntityTypesWithData[n - 1];
      RecordsUpTo(platformBase, search, fetch, n - 1)
        + TypeRecords(fetch(EntitiesUrl(platformBase), etype), etype, search)
  }

  /** `get_entities`: nothing without a platform URL, else each type's records in type order. */
  function Listing(env: Env, search: Option<string>, fetch: (string, string) -> Option<Value>): seq<EntityRecord> {
    var base := PlatformApiUrl(env);
    if base == "" then [] else RecordsUpTo(base, search, fetch, |EntityTypesWithData|)
  }

  /**
   * The `try` block of `get_entities` for one type's entities: normalise each in turn and keep the
   * records the search accepts, stopping at the first entity that is not an object.
   */
  method TypeEntities(raw: seq<Value>, etype: string, search: Option<string>) returns (recs: seq<EntityRecord>)
    ensures recs == Kept(raw[..ObjectPrefix(raw)], etype, search)
  {
    recs := [];
    var i := 0;
    while i < |raw| && raw[i].Obj?
      invariant i <= ObjectPrefix(raw)
      invariant recs == Kept(raw[..i], etype, search)
    {
      var rec := NormEntity(raw[i], etype);
      KeptStep(raw, i, etype, search, rec);
      if Matches(search, rec) {
        recs := recs + [rec];
      }
      i := i + 1;
    }
  }

  /**
   * `get_entities`: for each type in turn, fetch its entities (`fetch(url, type)`, `None` when the
   * request raised) and append the normalised records the search keeps.
   */
  method GetEntities(env: Env, search: Option<string>, fetch: (string, string) -> Option<Value>)
    returns (entities: seq<EntityRecord>)
    ensures entities == Listing(env, search, fetch)
  {
    var base := PlatformApiUrl(env);
    if base == "" {
      return [];
    }
    entities := [];
    for j := 0 to |EntityTypesWithData|
      invariant entities == RecordsUpTo(base, search, fetch, j)
    {
      var etype := EntityTypesWithData[j];
      var fetched := FetchedEntities(fetch(EntitiesUrl(base), etype));
      if fetched.None? {
        continue;
      }
      var recs := TypeEntities(fetched.value, etype, search);
      entities := entities + recs;
    }
  }

  /** One more entity: its record is appended when the search keeps it. */
  lemma KeptStep(raw: seq<Value>, i: nat, etype: string, search: Option<string>, rec: EntityRecord)
    requires i < |raw| && forall j :: 0 <= j <= i ==> raw[j].Obj?
    requires rec == NormalisedEntity(raw[i], etype)
    ensures Matches(search, rec) ==> Kept(raw[..i + 1], etype, search) == Kept(raw[..i], etype, search) + [rec]
    ensures !Matches(search, rec) ==> Kept(raw[..i + 1], etype, search) == Kept(raw[..i], etype, search)
  {
    assert raw[..i + 1][..i] == raw[..i];
  }

  /** Every listed record matches the search and has one of the listed types. */
  lemma {:induction false} RecordsUpToMatch(platformBase: string, search: Option<string>,
                                            fetch: (string, string) -> Option<Value>, n: nat)
    requires n <= |EntityTypesWithData|
    ensures forall rec :: rec in RecordsUpTo(platformBase, search, fetch, n) ==>
      Matches(search, rec) && rec.etype in EntityTypesWithData[..n]
    decreases n
  {
    if n > 0 {
      RecordsUpToMatch(platformBase, search, fetch, n - 1);
      var etype := EntityTypesWithData[n - 1];
      var reply := fetch(EntitiesUrl(platformBase), etype);
      if FetchedEntities(reply).Some? {
        var raw := FetchedEntities(reply).value;
        KeptMatch(raw[..ObjectPrefix(raw)], etype, search);
      }
    }
  }

  lemma KeptMatch(raw: seq<Value>, etype: string, search: Option<string>)
    requires forall i :: 0 <= i < |raw| ==> raw[i].Obj?
    ensures forall rec :: rec in Kept(raw, etype, search) ==> Matches(search, rec) && rec.etype == etype
  {
    SelectOnly(raw, KeepFn(etype, search), RecordFn(etype), (rec: EntityRecord) => Matches(search, rec) && rec.etype == etype);
  }

  /**
   * The search keeps exactly the matching entities, in input order: `idx` lists, increasing, the
   * position of each kept record's entity, and every entity whose record matches is among them.
   */
  lemma KeptExactly(raw: seq<Value>, etype: string, search: Option<string>) returns (idx: seq<nat>)
    requires forall i :: 0 <= i < |raw| ==> raw[i].Obj?
    ensures |idx| == |Kept(raw, etype, search)|
    ensures forall k :: 0 <= k < |idx| ==>
      && idx[k] < |raw|
      && Matches(search, NormalisedEntity(raw[idx[k]], etype))
      && Kept(raw, etype, search)[k] == NormalisedEntity(raw[idx[k]], etype)
    ensures forall k, l :: 0 <= k < l < |idx| ==> idx[k] < idx[l]
    ensures forall i :: 0 <= i < |raw| && Matches(search, NormalisedEntity(raw[i], etype)) ==> i in idx
  {
    idx := SelectInOrder(raw, KeepFn(etype, search), RecordFn(etype));
    forall i | 0 <= i < |raw|
      ensures KeepFn(etype, search)(raw[i]) == Matches(search, NormalisedEntity(raw[i], etype))
      ensures RecordFn(etype)(raw[i]) == NormalisedEntity(raw[i], etype)
    {
    }
  }

  /** Every matching entity of a type is among that type's kept records. */
  lemma KeptComplete(raw: seq<Value>, etype: string, search: Option<string>, i: nat)
    requires forall j :: 0 <= j < |raw| ==> raw[j].Obj?
    requires i < |raw| && Matches(search, NormalisedEntity(raw[i], etype))
    ensures NormalisedEntity(raw[i], etype) in Kept(raw, etype, search)
  {
    SelectHas(raw, KeepFn(etype, search), RecordFn(etype), i);
  }

  /** The records of fewer types are a prefix of the records of more. */
  lemma {:induction false} RecordsUpToPrefix(platformBase: string, search: Option<string>,
                                             fetch: (string, string) -> Option<Value>, m: nat, n: nat)
    requires m <= n <= |EntityTypesWithData|
    ensures RecordsUpTo(platformBase, search, fetch, m) <= RecordsUpTo(platformBase, search, fetch, n)
    decreases n
  {
    if m < n {
      RecordsUpToPrefix(platformBase, search, fetch, m, n - 1);
    }
  }

  /** A record of type `j` is among the records of all types. */
  lemma RecordsUpToHas(platformBase: string, search: Option<string>,
                       fetch: (string, string) -> Option<Value>, j: nat, rec: EntityRecord)
    requires j < |EntityTypesWithData|
    requires rec in TypeRecords(fetch(EntitiesUrl(platformBase), EntityTypesWithData[j]), EntityTypesWithData[j], search)
    ensures rec in RecordsUpTo(platformBase, search, fetch, |EntityTypesWithData|)
  {
    RecordsUpToLast(platformBase, search, fetch, j, rec);
    RecordsUpToPrefix(platformBase, search, fetch, j + 1, |EntityTypesWithData|);
    InPrefix(RecordsUpTo(platformBase, search, fetch, j + 1),
             RecordsUpTo(platformBase, search, fetch, |EntityTypesWithData|), rec);
  }

  /** A record of type `j` is among the records of the first `j + 1` types. */
  lemma RecordsUpToLast(platformBase: string, search: Option<string>,
                        fetch: (string, string) -> Option<Value>, j: nat, rec: EntityRecord)
    requires j < |EntityTypesWithData|
    requires rec in TypeRecords(fetch(EntitiesUrl(platformBase), EntityTypesWithData[j]), EntityTypesWithData[j], search)
    ensures rec in RecordsUpTo(platformBase, search, fetch, j + 1)
  {
    var etype := EntityTypesWithData[j];
    InAppend(RecordsUpTo(platformBase, search, fetch, j),
             TypeRecords(fetch(EntitiesUrl(platformBase), etype), etype, search), rec);
  }

  /**
   * The search loses nothing: for a type whose request succeeded, every entity before the first
   * non-object whose record matches the search is listed.
   */
  lemma ListingComplete(env: Env, search: Option<string>, fetch: (string, string) -> Option<Value>, j: nat, i: nat)
    requires PlatformApiUrl(env) != "" && j < |EntityTypesWithData|
    requires FetchedEntities(fetch(EntitiesUrl(PlatformApiUrl(env)), EntityTypesWithData[j])).Some?
    requires var raw := FetchedEntities(fetch(EntitiesUrl(PlatformApiUrl(env)), EntityTypesWithData[j])).value;
      i < ObjectPrefix(raw) && Matches(search, NormalisedEntity(raw[i], EntityTypesWithData[j]))
    ensures var raw := FetchedEntities(fetch(EntitiesUrl(PlatformApiUrl(env)), EntityTypesWithData[j])).value;
      NormalisedEntity(raw[i], EntityTypesWithData[j]) in Listing(env, search, fetch)
  {
    var etype := EntityTypesWithData[j];
    var reply := fetch(EntitiesUrl(PlatformApiUrl(env)), etype);
    var raw := FetchedEntities(reply).value;
    var rec := NormalisedEntity(raw[i], etype);
    KeepFnOf(etype, search, raw[i]);
    TypeRecordsComplete(reply, raw, etype, search, i);
    RecordsUpToHas(PlatformApiUrl(env), search, fetch, j, rec);
  }

  /** The function values applied to one object. */
  lemma KeepFnOf(etype: string, search: Option<string>, e: Value)
    requires e.Obj?
    ensures RecordFn(etype)(e) == NormalisedEntity(e, etype)
    ensures KeepFn(etype, search)(e) == Matches(search, NormalisedEntity(e, etype))
  {
  }

  /** Every kept entity of a fetched type, before the first non-object, is among its records. */
  lemma TypeRecordsComplete(reply: Option<Value>, raw: seq<Value>, etype: string, search: Option<string>, i: nat)
    requires FetchedEntities(reply) == Some(raw)
    requires i < ObjectPrefix(raw) && KeepFn(etype, search)(raw[i])
    ensures RecordFn(etype)(raw[i]) in TypeRecords(reply, etype, search)
  {
    SelectHasPrefix(raw, ObjectPrefix(raw), KeepFn(etype, search), RecordFn(etype), i);
  }

  /** Without a search every entity is listed, in order. */
  lemma KeptAll(raw: seq<Value>, etype: string)
    requires forall i :: 0 <= i < |raw| ==> raw[i].Obj?
    ensures |Kept(raw, etype, None)| == |raw|
    ensures forall i :: 0 <= i < |raw| ==> Kept(raw, etype, None)[i] == NormalisedEntity(raw[i], etype)
  {
    forall i | 0 <= i < |raw|
      ensures KeepFn(etype, None)(raw[i]) && RecordFn(etype)(raw[i]) == NormalisedEntity(raw[i], etype)
    {
      KeepFnOf(etype, None, raw[i]);
    }
    SelectAll(raw, KeepFn(etype, None), RecordFn(etype));
  }

  /**
   * The listing: empty without a platform URL; otherwise every record matches the search and has
   * one of the four listed types.
   */
  lemma ListingMatches(env: Env, search: Option<string>, fetch: (string, string) -> Option<Value>)
    ensures PlatformApiUrl(env) == "" ==> Listing(env, search, fetch) == []
    ensures forall rec :: rec in Listing(env, search, fetch) ==>
      Matches(search, rec) && rec.etype in EntityTypesWithData
  {
    if PlatformApiUrl(env) != "" {
      RecordsUpToMatch(PlatformApiUrl(env), search, fetch, |EntityTypesWithData|);
      assert EntityTypesWithData[..|EntityTypesWithData|] == EntityTypesWithData;
    }
  }
}
