/**
 * The result value normalizer: `process_single_value` and `process_properties`
 * (claude-api.py:46-82). A backend property value of dynamic type becomes a
 * JSON-safe value; containers are normalized element by element.
 */
module Normalizer {
  import opened Wrappers

  /** A backend `datetime`, known here only by the text its `isoformat()` gives. */
  datatype Stamp = Stamp(isoText: string)

  /** A backend `uuid.UUID`, known here only by the text `str()` gives for it. */
  datatype Id = Id(canonical: string)

  /**
   * A backend property value, tagged by the Python type the normalizer tests for.
   * `GeoCoordinate` stands for any object with `latitude` and `longitude`
   * attributes; `Other` for a value of a type the normalizer does not recognise.
   */
  datatype Value =
    | Timestamp(stamp: Stamp)
    | Uuid(id: Id)
    | GeoCoordinate(latitude: real, longitude: real)
    | List(items: seq<Value>)
    | Dict(entries: map<string, Value>)
    | Text(s: string)
    | Number(n: real)
    | Boolean(b: bool)
    | Null
    | Other(typeName: string)

  /** A value with no timestamp, UUID or geo-coordinate left at any depth. */
  predicate Normalized(v: Value)
  {
    match v
    case Timestamp(_) => false
    case Uuid(_) => false
    case GeoCoordinate(_, _) => false
    case List(items) => forall i :: 0 <= i < |items| ==> Normalized(items[i])
    case Dict(entries) => forall k :: k in entries ==> Normalized(entries[k])
    case _ => true
  }

  /** The `{"latitude": ..., "longitude": ...}` object a geo-coordinate becomes. */
  function GeoObject(latitude: real, longitude: real): (r: Value)
    ensures r.Dict? && r.entries.Keys == {"latitude", "longitude"}
    ensures r.entries["latitude"] == Number(latitude) && r.entries["longitude"] == Number(longitude)
  {
    Dict(map["latitude" := Number(latitude), "longitude" := Number(longitude)])
  }

  /**
   * `process_single_value`: the first matching case wins, in the order
   * timestamp, UUID, geo-coordinate, list, dict; anything else is returned as is.
   */
  function Normalize(v: Value): (r: Value)
    ensures Normalized(r)
    ensures v.Timestamp? ==> r == Text(v.stamp.isoText)
    ensures v.Uuid? ==> r == Text(v.id.canonical)
    ensures v.GeoCoordinate? ==> r == GeoObject(v.latitude, v.longitude)
  {
    match v
    case Timestamp(stamp) => Text(stamp.isoText)
    case Uuid(id) => Text(id.canonical)
    case GeoCoordinate(latitude, longitude) => GeoObject(latitude, longitude)
    case List(items) => List(seq(|items|, i requires 0 <= i < |items| => Normalize(items[i])))
    case Dict(entries) => Dict(map k | k in entries :: Normalize(entries[k]))
    case _ => v
  }

  /** A list normalizes to a list of the same length whose element i is element i normalized. */
  lemma NormalizeList(items: seq<Value>)
    ensures Normalize(List(items)).List?
    ensures |Normalize(List(items)).items| == |items|
    ensures forall i :: 0 <= i < |items| ==> Normalize(List(items)).items[i] == Normalize(items[i])
  {
  }

  /** A dict normalizes to a dict with exactly the same keys and every value normalized. */
  lemma NormalizeDict(entries: map<string, Value>)
    ensures Normalize(Dict(entries)).Dict?
    ensures Normalize(Dict(entries)).entries.Keys == entries.Keys
    ensures forall k :: k in entries ==> Normalize(Dict(entries)).entries[k] == Normalize(entries[k])
  {
  }

  /** An already normalized value (strings, scalars, lists and dicts only) comes back unchanged. */
  lemma {:induction false} NormalizeFixesNormalized(v: Value)
    requires Normalized(v)
    ensures Normalize(v) == v
  {
    match v
    case List(items) =>
      forall i | 0 <= i < |items| ensures Normalize(items[i]) == items[i] {
        NormalizeFixesNormalized(items[i]);
      }
      assert Normalize(v).items == items;
    case Dict(entries) =>
      forall k | k in entries ensures Normalize(entries[k]) == entries[k] {
        NormalizeFixesNormalized(entries[k]);
      }
      assert Normalize(v).entries == entries;
    case _ =>
  }

  /** Normalization is idempotent. */
  lemma {:induction false} NormalizeIdempotent(v: Value)
    ensures Normalize(Normalize(v)) == Normalize(v)
  {
    NormalizeFixesNormalized(Normalize(v));
  }

  /** A value is a fixed point of normalization exactly when it is normalized. */
  lemma {:induction false} NormalizeFixedPoints(v: Value)
    ensures Normalize(v) == v <==> Normalized(v)
  {
    if Normalized(v) {
      NormalizeFixesNormalized(v);
    }
  }

  /**
   * What `process_properties` returns: nothing for an absent or empty property
   * map, otherwise the same keys with every value normalized.
   */
  function ProcessedProperties(properties: Option<map<string, Value>>): (r: map<string, Value>)
    ensures properties.None? ==> r == map[]
    ensures properties.Some? ==> r.Keys == properties.value.Keys
    ensures forall k :: k in r ==> Normalized(r[k])
  {
    match properties
    case None => map[]
    case Some(m) => map k | k in m :: Normalize(m[k])
  }

  /**
   * `process_properties`: fills `processed` one key at a time. Its loop body repeats
   * the case split of `process_single_value` for the top level, delegating to it for
   * the elements of a list or the values of a dict.
   */
  method ProcessProperties(properties: Option<map<string, Value>>) returns (processed: map<string, Value>)
    ensures properties.None? ==> processed == map[]
    ensures properties.Some? ==> processed.Keys == properties.value.Keys
    ensures properties.Some? ==> forall k :: k in processed ==> processed[k] == Normalize(properties.value[k])
    ensures processed == ProcessedProperties(properties)
  {
    processed := map[];
    if properties.None? || properties.value == map[] {
      return;
    }
    var m := properties.value;
    var remaining := m.Keys;
    while remaining != {}
      invariant remaining <= m.Keys
      invariant processed.Keys == m.Keys - remaining
      invariant forall k :: k in processed ==> processed[k] == Normalize(m[k])
      decreases remaining
    {
      var key :| key in remaining;
      var value := m[key];
      match value {
        case Timestamp(stamp) =>
          processed := processed[key := Text(stamp.isoText)];
        case Uuid(id) =>
          processed := processed[key := Text(id.canonical)];
        case GeoCoordinate(latitude, longitude) =>
          processed := processed[key := GeoObject(latitude, longitude)];
        case List(items) =>
          processed := processed[key := List(seq(|items|, i requires 0 <= i < |items| => Normalize(items[i])))];
        case Dict(entries) =>
          processed := processed[key := Dict(map k | k in entries :: Normalize(entries[k]))];
        case _ =>
          processed := processed[key := value];
      }
      remaining := remaining - {key};
    }
  }
}
