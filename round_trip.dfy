/**
  The TOML conversions paired: `json_to_toml` undoes `toml_convert_to_json`
  on every tree without date-times or bad floats, and the reverse trip
  restores every JSON tree without `null` whose integers fit `i64`. The
  lossy cases (a date-time, a `null`) come back as strings.
 */
module RoundTrip {

  import opened Numbers
  import opened Wrappers
  import opened Panics
  import opened JsonValue
  import opened TomlValue
  import opened TomlNormalizer
  import opened TomlDenormalizer

  /** TOML to JSON and back gives the tree it started from. */
  lemma {:induction false} TomlJsonToml(t: Toml)
    requires TomlFloatsFinite(t) && HasNoDatetime(t)
    ensures TomlToJson(t).Ok? && IntegersFitI64(TomlToJson(t).value)
    ensures JsonToToml(TomlToJson(t).value) == Ok(t)
  {
    match t
    case String(_) =>
    case Integer(_) =>
    case Float(_) =>
    case Boolean(_) =>
    case Array(items) =>
      forall i | 0 <= i < |items|
        ensures TomlToJson(items[i]).Ok? && IntegersFitI64(TomlToJson(items[i]).value)
        ensures JsonToToml(TomlToJson(items[i]).value) == Ok(items[i])
      {
        TomlJsonToml(items[i]);
      }
      var js := TomlToJson(t).value.items;
      assert forall i | 0 <= i < |js| :: IntegersFitI64(js[i]) by {
        forall i | 0 <= i < |js| ensures IntegersFitI64(js[i]) {
          assert TomlToJson(items[i]) == Ok(js[i]);
        }
      }
      var back := ItemsToToml(js).value;
      assert back == items by {
        forall i | 0 <= i < |items| ensures back[i] == items[i] {
          assert TomlToJson(items[i]) == Ok(js[i]);
          assert JsonToToml(js[i]) == Ok(back[i]);
        }
      }
    case Table(entries) =>
      forall k | k in entries
        ensures TomlToJson(entries[k]).Ok? && IntegersFitI64(TomlToJson(entries[k]).value)
        ensures JsonToToml(TomlToJson(entries[k]).value) == Ok(entries[k])
      {
        TomlJsonToml(entries[k]);
      }
      var fields := TomlToJson(t).value.fields;
      assert JsonToToml(Json.Object(fields)).value.entries == entries;
  }

  /** JSON to TOML and back gives the tree it started from. */
  lemma {:induction false} JsonTomlJson(j: Json)
    requires HasNoNull(j) && IntegersFitI64(j)
    ensures JsonToToml(j).Ok? && TomlFloatsFinite(JsonToToml(j).value)
    ensures TomlToJson(JsonToToml(j).value) == Ok(j)
  {
    match j
    case String(_) =>
    case Number(_) =>
    case Bool(_) =>
    case Array(items) =>
      forall i | 0 <= i < |items|
        ensures JsonToToml(items[i]).Ok? && TomlFloatsFinite(JsonToToml(items[i]).value)
        ensures TomlToJson(JsonToToml(items[i]).value) == Ok(items[i])
      {
        JsonTomlJson(items[i]);
      }
      var ts := JsonToToml(j).value.items;
      assert forall i | 0 <= i < |ts| :: TomlFloatsFinite(ts[i]) by {
        forall i | 0 <= i < |ts| ensures TomlFloatsFinite(ts[i]) {
          assert JsonToToml(items[i]) == Ok(ts[i]);
        }
      }
      var back := TomlNormalizer.ItemsToJson(ts).value;
      assert back == items by {
        forall i | 0 <= i < |items| ensures back[i] == items[i] {
          assert JsonToToml(items[i]) == Ok(ts[i]);
          assert TomlToJson(ts[i]) == Ok(back[i]);
        }
      }
    case Object(fields) =>
      forall k | k in fields
        ensures JsonToToml(fields[k]).Ok? && TomlFloatsFinite(JsonToToml(fields[k]).value)
        ensures TomlToJson(JsonToToml(fields[k]).value) == Ok(fields[k])
      {
        JsonTomlJson(fields[k]);
      }
      var entries := JsonToToml(j).value.entries;
      assert TomlToJson(Toml.Table(entries)).value.fields == fields;
  }

  /** A date-time does not come back: it returns as the string of its canonical text. */
  lemma DatetimeComesBackAsString(dt: TomlDatetime)
    ensures JsonToToml(TomlToJson(Toml.Datetime(dt)).value) == Ok(Toml.String(Render(dt)))
    ensures JsonToToml(TomlToJson(Toml.Datetime(dt)).value) != Ok(Toml.Datetime(dt))
  {
  }

  /** A `null` does not come back: it returns as the string "null". */
  lemma NullComesBackAsString()
    ensures TomlToJson(JsonToToml(Json.Null).value) == Ok(Json.String("null"))
    ensures TomlToJson(JsonToToml(Json.Null).value) != Ok(Json.Null)
  {
  }
}
