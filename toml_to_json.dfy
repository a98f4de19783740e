/**
  `toml_convert_to_json`: a TOML tree becomes a JSON tree, kind for kind.
  The only failure is a float that is NaN or infinite; a date-time
  becomes the JSON string of its canonical text.
 */
module TomlNormalizer {

  import opened Numbers
  import opened Wrappers
  import opened Panics
  import opened JsonValue
  import opened TomlValue

  function TomlToJson(t: Toml): (r: Result<Json, Panic>)
    ensures r.Ok? <==> TomlFloatsFinite(t)
    ensures r.Err? ==> r.error == FloatNotFinite
    decreases t, 1
  {
    match t
    case String(s) => Ok(Json.String(s))
    case Integer(i) => Ok(Json.Number(FromI64(i)))
    case Float(f) =>
      (match FromF64(f)
       case Some(n) => Ok(Json.Number(n))
       case None => Err(FloatNotFinite))
    case Boolean(b) => Ok(Json.Bool(b))
    case Array(items) =>
      var converted :- ItemsToJson(items);
      Ok(Json.Array(converted))
    case Table(entries) =>
      if forall k | k in entries :: TomlToJson(entries[k]).Ok? then
        Ok(Json.Object(map k | k in entries :: TomlToJson(entries[k]).value))
      else
        Err(FloatNotFinite)
    case Datetime(dt) => Ok(Json.String(Render(dt)))
  }

  /** `arr.into_iter().map(toml_convert_to_json).collect()`: element by element, in order. */
  function ItemsToJson(items: seq<Toml>): (r: Result<seq<Json>, Panic>)
    ensures r.Ok? <==> forall i | 0 <= i < |items| :: TomlFloatsFinite(items[i])
    ensures r.Err? ==> r.error == FloatNotFinite
    ensures r.Ok? ==> |r.value| == |items|
    ensures r.Ok? ==> forall i | 0 <= i < |items| :: TomlToJson(items[i]) == Ok(r.value[i])
    decreases items, 0
  {
    if items == [] then Ok([])
    else
      var head :- TomlToJson(items[0]);
      var tail :- ItemsToJson(items[1..]);
      Ok([head] + tail)
  }

  /** Leaves map kind for kind; a date-time becomes its rendering, never a failure. */
  lemma LeafKinds(t: Toml)
    ensures t.String? ==> TomlToJson(t) == Ok(Json.String(t.s))
    ensures t.Integer? ==>
              (TomlToJson(t).Ok? && TomlToJson(t).value.Number?
               && TomlToJson(t).value.n.IsInteger() && TomlToJson(t).value.n.Int() == t.i)
    ensures t.Float? && IsFinite(t.f) ==>
              (TomlToJson(t).Ok? && TomlToJson(t).value.Number?
               && TomlToJson(t).value.n == JsonNumber.Float(t.f))
    ensures t.Float? && !IsFinite(t.f) ==> TomlToJson(t) == Err(FloatNotFinite)
    ensures t.Boolean? ==> TomlToJson(t) == Ok(Json.Bool(t.b))
    ensures t.Datetime? ==> TomlToJson(t) == Ok(Json.String(Render(t.dt)))
  {
  }

  /** An array keeps its length and order, each element converted on its own. */
  lemma ArrayElementwise(items: seq<Toml>)
    ensures TomlToJson(Toml.Array(items)).Ok? <==> forall i | 0 <= i < |items| :: TomlToJson(items[i]).Ok?
    ensures TomlToJson(Toml.Array(items)).Ok? ==>
              var r := TomlToJson(Toml.Array(items)).value;
              r.Array? && |r.items| == |items|
              && forall i | 0 <= i < |items| :: TomlToJson(items[i]) == Ok(r.items[i])
  {
  }

  /** A table becomes an object with the same keys, each value converted on its own. */
  lemma TableKeys(entries: map<string, Toml>)
    ensures TomlToJson(Toml.Table(entries)).Ok? <==> forall k | k in entries :: TomlToJson(entries[k]).Ok?
    ensures TomlToJson(Toml.Table(entries)).Ok? ==>
              var r := TomlToJson(Toml.Table(entries)).value;
              r.Object? && r.fields.Keys == entries.Keys
              && forall k | k in entries :: TomlToJson(entries[k]) == Ok(r.fields[k])
  {
  }
}
