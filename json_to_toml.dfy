/**
  `json_to_toml`: the JSON tree becomes a TOML tree for the TOML writer.
  `null`, which TOML lacks, becomes the string "null"; an integer above
  `i64::MAX` aborts, because its branch unwraps `as_i64()`.
 */
module TomlDenormalizer {

  import opened Numbers
  import opened Wrappers
  import opened Panics
  import opened JsonValue
  import opened TomlValue

  /**
    The three branches on a number: `is_f64`, then `is_i64`, then the
    remaining case (a `PosInt` above `i64::MAX`), where `as_i64()` is `None`
    and its `unwrap()` panics before the cast is reached.
   */
  function NumberToToml(n: JsonNumber): (r: Result<Toml, Panic>)
    ensures n.Float? ==> r == Ok(Toml.Float(n.f))
    ensures n.IsInteger() ==> (r.Ok? <==> n.Int() <= I64_MAX)
    ensures n.IsInteger() && r.Ok? ==> r.value.Integer? && r.value.i == n.Int()
    ensures r.Err? ==> r.error == IntegerAboveI64
  {
    if n.Float? then Ok(Toml.Float(n.f))
    else if n.IsI64() then Ok(Toml.Integer(n.AsI64().value))
    else
      match n.AsI64()
      case Some(i) => Ok(Toml.Integer(i))
      case None => Err(IntegerAboveI64)
  }

  function JsonToToml(j: Json): (r: Result<Toml, Panic>)
    ensures r.Ok? <==> IntegersFitI64(j)
    ensures r.Err? ==> r.error == IntegerAboveI64
    decreases j, 1
  {
    match j
    case String(s) => Ok(Toml.String(s))
    case Number(n) => NumberToToml(n)
    case Bool(b) => Ok(Toml.Boolean(b))
    case Array(items) =>
      var converted :- ItemsToToml(items);
      Ok(Toml.Array(converted))
    case Object(fields) =>
      if forall k | k in fields :: JsonToToml(fields[k]).Ok? then
        Ok(Toml.Table(map k | k in fields :: JsonToToml(fields[k]).value))
      else
        Err(IntegerAboveI64)
    case Null => Ok(Toml.String("null"))
  }

  /** `arr.into_iter().map(json_to_toml).collect()`: element by element, in order. */
  function ItemsToToml(items: seq<Json>): (r: Result<seq<Toml>, Panic>)
    ensures r.Ok? <==> forall i | 0 <= i < |items| :: IntegersFitI64(items[i])
    ensures r.Err? ==> r.error == IntegerAboveI64
    ensures r.Ok? ==> |r.value| == |items|
    ensures r.Ok? ==> forall i | 0 <= i < |items| :: JsonToToml(items[i]) == Ok(r.value[i])
    decreases items, 0
  {
    if items == [] then Ok([])
    else
      var head :- JsonToToml(items[0]);
      var tail :- ItemsToToml(items[1..]);
      Ok([head] + tail)
  }

  /** `null` becomes the string "null" (the key holding it is kept); the other leaves keep their kind. */
  lemma LeafKinds(j: Json)
    ensures j.Null? ==> JsonToToml(j) == Ok(Toml.String("null"))
    ensures j.String? ==> JsonToToml(j) == Ok(Toml.String(j.s))
    ensures j.Bool? ==> JsonToToml(j) == Ok(Toml.Boolean(j.b))
    ensures j.Number? && j.n.Float? ==> JsonToToml(j) == Ok(Toml.Float(j.n.f))
    ensures j.Number? && j.n.IsInteger() && j.n.Int() <= I64_MAX ==>
              JsonToToml(j) == Ok(Toml.Integer(j.n.Int()))
    ensures j.Number? && j.n.IsInteger() && j.n.Int() > I64_MAX ==>
              JsonToToml(j) == Err(IntegerAboveI64)
  {
  }

  /** The smallest integer the TOML conversion rejects: 2^63, one above `i64::MAX`. */
  lemma FirstRejectedInteger()
    ensures JsonToToml(Json.Number(PosInt(I64_MAX + 1))) == Err(IntegerAboveI64)
    ensures JsonToToml(Json.Number(PosInt(I64_MAX))) == Ok(Toml.Integer(I64_MAX))
  {
  }

  /** An array keeps its length and order, each element converted on its own. */
  lemma ArrayElementwise(items: seq<Json>)
    ensures JsonToToml(Json.Array(items)).Ok? <==> forall i | 0 <= i < |items| :: JsonToToml(items[i]).Ok?
    ensures JsonToToml(Json.Array(items)).Ok? ==>
              var r := JsonToToml(Json.Array(items)).value;
              r.Array? && |r.items| == |items|
              && forall i | 0 <= i < |items| :: JsonToToml(items[i]) == Ok(r.items[i])
  {
  }

  /** An object becomes a table with the same keys, each value converted on its own. */
  lemma ObjectKeys(fields: map<string, Json>)
    ensures JsonToToml(Json.Object(fields)).Ok? <==> forall k | k in fields :: JsonToToml(fields[k]).Ok?
    ensures JsonToToml(Json.Object(fields)).Ok? ==>
              var r := JsonToToml(Json.Object(fields)).value;
              r.Table? && r.entries.Keys == fields.Keys
              && forall k | k in fields :: JsonToToml(fields[k]) == Ok(r.entries[k])
  {
  }
}
