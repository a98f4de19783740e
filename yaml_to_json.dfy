/**
  `yaml_convert_to_json`: a YAML tree becomes a JSON tree. Numbers are
  classified as `i64`, else `u64`, else float; a NaN or infinite float and
  a mapping key that is not a string each abort the conversion. Entries
  and elements are converted in order, so the first offending one decides
  which abort happens.
 */
module YamlNormalizer {

  import opened Numbers
  import opened Wrappers
  import opened Panics
  import opened JsonValue
  import opened YamlValue

  /** The number branch: `is_i64`, else `is_u64`, else the float through `Number::from_f64`. */
  function NumberToJson(n: YamlNumber): (r: Result<JsonNumber, Panic>)
    ensures n.IsInteger() ==> r.Ok? && r.value.IsInteger() && r.value.Int() == n.Int()
    ensures n.IsInteger() ==> (r.value.IsI64() <==> n.IsI64())
    ensures n.Float? ==> (r.Ok? <==> IsFinite(n.f))
    ensures n.Float? && r.Ok? ==> r.value == JsonNumber.Float(n.f)
    ensures r.Err? ==> r.error == FloatNotFinite
  {
    if n.IsI64() then Ok(FromI64(n.AsI64().value))
    else if n.IsU64() then Ok(FromU64(n.AsU64().value))
    else
      // neither integer case holds, so the number is a float and `as_f64` yields its payload
      assert n.Float?;
      match FromF64(n.f)
      case Some(x) => Ok(x)
      case None => Err(FloatNotFinite)
  }

  function YamlToJson(y: Yaml): (r: Result<Json, Panic>)
    ensures r.Ok? <==> YamlFloatsFinite(y) && KeysAreStrings(y)
    ensures r.Err? && r.error == FloatNotFinite ==> !YamlFloatsFinite(y)
    ensures r.Err? && r.error == KeyNotString ==> !KeysAreStrings(y)
    ensures r.Err? ==> r.error == FloatNotFinite || r.error == KeyNotString
    decreases y, 2
  {
    match y
    case Bool(b) => Ok(Json.Bool(b))
    case Number(n) =>
      var x :- NumberToJson(n);
      Ok(Json.Number(x))
    case String(s) => Ok(Json.String(s))
    case Null => Ok(Json.Null)
    case Sequence(items) =>
      var converted :- ItemsToJson(items);
      Ok(Json.Array(converted))
    case Mapping(entries) =>
      var fields :- EntriesToJson(entries);
      Ok(Json.Object(fields))
  }

  /** `l.into_iter().map(yaml_convert_to_json).collect()`: element by element, in order. */
  function ItemsToJson(items: seq<Yaml>): (r: Result<seq<Json>, Panic>)
    ensures r.Ok? <==> forall i | 0 <= i < |items| :: YamlFloatsFinite(items[i]) && KeysAreStrings(items[i])
    ensures r.Err? && r.error == FloatNotFinite ==> exists i | 0 <= i < |items| :: !YamlFloatsFinite(items[i])
    ensures r.Err? && r.error == KeyNotString ==> exists i | 0 <= i < |items| :: !KeysAreStrings(items[i])
    ensures r.Err? ==> r.error == FloatNotFinite || r.error == KeyNotString
    ensures r.Ok? ==> |r.value| == |items|
    ensures r.Ok? ==> forall i | 0 <= i < |items| :: YamlToJson(items[i]) == Ok(r.value[i])
    decreases items, 1
  {
    if items == [] then Ok([])
    else
      var head :- YamlToJson(items[0]);
      var tail :- ItemsToJson(items[1..]);
      Ok([head] + tail)
  }

  /** The closure on one mapping entry: the key must be a string, the value is converted. */
  function EntryToJson(e: (Yaml, Yaml)): (r: Result<(string, Json), Panic>)
    ensures r.Ok? <==> EntryKeysAreStrings(e) && EntryFloatsFinite(e)
    ensures !e.0.String? ==> r == Err(KeyNotString)
    ensures r.Err? && r.error == FloatNotFinite ==> !EntryFloatsFinite(e)
    ensures r.Err? && r.error == KeyNotString ==> !EntryKeysAreStrings(e)
    ensures r.Err? ==> r.error == FloatNotFinite || r.error == KeyNotString
    ensures r.Ok? ==> Yaml.String(r.value.0) == e.0 && YamlToJson(e.1) == Ok(r.value.1)
    decreases e, 0
  {
    match e.0
    case String(k) =>
      var v :- YamlToJson(e.1);
      Ok((k, v))
    case _ => Err(KeyNotString)
  }

  /** The entry at index `i` is the last one with its key. */
  ghost predicate LastWithKey(entries: seq<(Yaml, Yaml)>, i: int)
    requires 0 <= i < |entries|
  {
    forall j | i < j < |entries| :: entries[j].0 != entries[i].0
  }

  /**
    Collecting the converted entries into an object. Entries are converted
    in order; a later entry with the same key replaces an earlier one, as
    inserting into a map does.
   */
  function EntriesToJson(entries: seq<(Yaml, Yaml)>): (r: Result<map<string, Json>, Panic>)
    ensures r.Ok? <==> forall i | 0 <= i < |entries| :: EntryKeysAreStrings(entries[i]) && EntryFloatsFinite(entries[i])
    ensures r.Err? && r.error == FloatNotFinite ==> exists i | 0 <= i < |entries| :: !EntryFloatsFinite(entries[i])
    ensures r.Err? && r.error == KeyNotString ==> exists i | 0 <= i < |entries| :: !EntryKeysAreStrings(entries[i])
    ensures r.Err? ==> r.error == FloatNotFinite || r.error == KeyNotString
    ensures r.Ok? ==> forall k :: k in r.value <==> exists i | 0 <= i < |entries| :: entries[i].0 == Yaml.String(k)
    ensures r.Ok? ==> forall i | 0 <= i < |entries| && LastWithKey(entries, i) ::
                        EntryToJson(entries[i]).Ok?
                        && EntryToJson(entries[i]).value.0 in r.value
                        && r.value[EntryToJson(entries[i]).value.0] == EntryToJson(entries[i]).value.1
    decreases entries, 1
  {
    if entries == [] then Ok(map[])
    else
      var kv :- EntryToJson(entries[0]);
      var rest :- EntriesToJson(entries[1..]);
      Ok(map[kv.0 := kv.1] + rest)
  }

  /** Scalars map kind for kind; numbers keep their integer value or their float payload. */
  lemma LeafKinds(y: Yaml)
    ensures y.Null? ==> YamlToJson(y) == Ok(Json.Null)
    ensures y.Bool? ==> YamlToJson(y) == Ok(Json.Bool(y.b))
    ensures y.String? ==> YamlToJson(y) == Ok(Json.String(y.s))
    ensures y.Number? && y.n.IsInteger() ==>
              (YamlToJson(y).Ok? && YamlToJson(y).value.Number?
               && YamlToJson(y).value.n.IsInteger() && YamlToJson(y).value.n.Int() == y.n.Int())
    ensures y.Number? && y.n.Float? && IsFinite(y.n.f) ==>
              YamlToJson(y) == Ok(Json.Number(JsonNumber.Float(y.n.f)))
    ensures y.Number? && y.n.Float? && !IsFinite(y.n.f) ==> YamlToJson(y) == Err(FloatNotFinite)
  {
  }

  /**
    The three number classes: a value in the `i64` range, a value only in
    the `u64` range (still an integer, not a float), and a float.
   */
  lemma NumberClasses()
    ensures NumberToJson(YamlNumber.NegInt(I64_MIN)) == Ok(JsonNumber.NegInt(I64_MIN))
    ensures NumberToJson(YamlNumber.PosInt(I64_MAX)) == Ok(JsonNumber.PosInt(I64_MAX))
    ensures NumberToJson(YamlNumber.PosInt(U64_MAX)) == Ok(JsonNumber.PosInt(U64_MAX))
    ensures !NumberToJson(YamlNumber.PosInt(U64_MAX)).value.IsI64()
    ensures NumberToJson(YamlNumber.Float(F64(0x7FF8_0000_0000_0000))) == Err(FloatNotFinite)
  {
  }

  /** A sequence keeps its length and order, each element converted on its own. */
  lemma SequenceElementwise(items: seq<Yaml>)
    ensures YamlToJson(Yaml.Sequence(items)).Ok? <==> forall i | 0 <= i < |items| :: YamlToJson(items[i]).Ok?
    ensures YamlToJson(Yaml.Sequence(items)).Ok? ==>
              var r := YamlToJson(Yaml.Sequence(items)).value;
              r.Array? && |r.items| == |items|
              && forall i | 0 <= i < |items| :: YamlToJson(items[i]) == Ok(r.items[i])
  {
  }

  /**
    A mapping becomes an object whose keys are exactly the mapping's
    (string) keys; each key holds its last entry's value, converted.
   */
  lemma MappingKeys(entries: seq<(Yaml, Yaml)>)
    ensures YamlToJson(Yaml.Mapping(entries)).Ok? ==>
              var r := YamlToJson(Yaml.Mapping(entries)).value;
              && r.Object?
              && (forall k :: k in r.fields <==> exists i | 0 <= i < |entries| :: entries[i].0 == Yaml.String(k))
              && (forall i | 0 <= i < |entries| && LastWithKey(entries, i) ::
                    entries[i].0.String? && entries[i].0.s in r.fields
                    && YamlToJson(entries[i].1) == Ok(r.fields[entries[i].0.s]))
  {
  }

  /**
    A mapping with a key that is not a string never converts: the key is
    not turned into text. When no float in it is bad, that key is the abort.
   */
  lemma NonStringKeyFails(entries: seq<(Yaml, Yaml)>, i: int)
    requires 0 <= i < |entries| && !entries[i].0.String?
    ensures YamlToJson(Yaml.Mapping(entries)).Err?
    ensures YamlFloatsFinite(Yaml.Mapping(entries)) ==> YamlToJson(Yaml.Mapping(entries)) == Err(KeyNotString)
  {
  }
}
