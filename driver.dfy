/**
  The pure steps of `main`: checking the format names given on the command
  line, routing the parsed tree to JSON (`other_value_to_json_value`), and
  turning that JSON tree into the tree the destination writer receives.
 */
module Driver {

  import opened Numbers
  import opened Wrappers
  import opened Panics
  import opened JsonValue
  import opened TomlValue
  import opened YamlValue
  import opened TomlNormalizer
  import opened YamlNormalizer
  import opened TomlDenormalizer
  import RoundTrip

  /** `ConfigType`: the three supported formats. */
  datatype ConfigType = JsonFormat | YamlFormat | TomlFormat

  /** The name by which the command line selects a format. */
  function FormatName(c: ConfigType): string {
    match c
    case JsonFormat => "json"
    case YamlFormat => "yaml"
    case TomlFormat => "toml"
  }

  /** The accepted names; anything else makes `main` exit before reading input. */
  predicate IsSupported(name: string) {
    name == "json" || name == "toml" || name == "yaml"
  }

  /** The name-to-format match, whose last arm takes every other name as YAML. */
  function ConfigTypeOf(name: string): ConfigType {
    if name == "json" then JsonFormat
    else if name == "toml" then TomlFormat
    else YamlFormat
  }

  /** The check followed by the mapping: `None` is the exit for an unsupported name. */
  function SelectFormat(name: string): (r: Option<ConfigType>)
    ensures r.Some? <==> name in {"json", "toml", "yaml"}
    ensures r.Some? ==> FormatName(r.value) == name
  {
    if IsSupported(name) then Some(ConfigTypeOf(name)) else None
  }

  /** Every format is selected by its own name. */
  lemma SelectFormatName(c: ConfigType)
    ensures SelectFormat(FormatName(c)) == Some(c)
  {
  }

  /** `Values`: the tree a parser produced, tagged by its format. */
  datatype Values = JsonTree(json: Json) | YamlTree(yaml: Yaml) | TomlTree(toml: Toml)

  /** The tree converts to JSON without an abort. */
  predicate Normalizes(v: Values) {
    match v
    case JsonTree(_) => true
    case YamlTree(y) => YamlFloatsFinite(y) && KeysAreStrings(y)
    case TomlTree(t) => TomlFloatsFinite(t)
  }

  /** `other_value_to_json_value`: JSON passes through unchanged, the others go to their converter. */
  function ToJsonValue(v: Values): (r: Result<Json, Panic>)
    ensures v.JsonTree? ==> r == Ok(v.json)
    ensures v.TomlTree? ==> r == TomlToJson(v.toml)
    ensures v.YamlTree? ==> r == YamlToJson(v.yaml)
    ensures r.Ok? <==> Normalizes(v)
  {
    match v
    case JsonTree(json) => Ok(json)
    case TomlTree(toml) => TomlToJson(toml)
    case YamlTree(yaml) => YamlToJson(yaml)
  }

  /**
    What `main` hands to the destination writer. For YAML it is the JSON
    tree itself, given to `serde_yaml::to_value`, which is not part of this
    model.
   */
  datatype WriterInput = JsonWriter(json: Json) | YamlWriter(json: Json) | TomlWriter(toml: Toml)

  /** The transform stage of `main`: to JSON, then to the destination's tree. */
  function Transform(src: Values, dst: ConfigType): (r: Result<WriterInput, Panic>)
    ensures r.Ok? <==> Normalizes(src) && (dst == TomlFormat ==> IntegersFitI64(ToJsonValue(src).value))
    ensures r.Ok? ==> match dst
                      case JsonFormat => r.value == JsonWriter(ToJsonValue(src).value)
                      case YamlFormat => r.value == YamlWriter(ToJsonValue(src).value)
                      case TomlFormat => r.value == TomlWriter(JsonToToml(ToJsonValue(src).value).value)
  {
    var middle :- ToJsonValue(src);
    match dst
    case JsonFormat => Ok(JsonWriter(middle))
    case YamlFormat => Ok(YamlWriter(middle))
    case TomlFormat =>
      var toml :- JsonToToml(middle);
      Ok(TomlWriter(toml))
  }

  /** JSON to JSON hands the parsed tree to the writer unchanged. */
  lemma JsonToJsonIdentity(j: Json)
    ensures Transform(JsonTree(j), JsonFormat) == Ok(JsonWriter(j))
  {
  }

  /** TOML to TOML hands the parsed tree to the writer unchanged, barring date-times and bad floats. */
  lemma TomlToTomlIdentity(t: Toml)
    requires TomlFloatsFinite(t) && HasNoDatetime(t)
    ensures Transform(TomlTree(t), TomlFormat) == Ok(TomlWriter(t))
  {
    RoundTrip.TomlJsonToml(t);
  }

  /**
    A bad float aborts whatever the destination; in YAML a non-string key
    met before it aborts first.
   */
  lemma BadFloatAborts(src: Values, dst: ConfigType)
    requires src.TomlTree? ==> !TomlFloatsFinite(src.toml)
    requires src.YamlTree? ==> !YamlFloatsFinite(src.yaml)
    requires !src.JsonTree?
    ensures Transform(src, dst).Err?
    ensures src.TomlTree? ==> Transform(src, dst) == Err(FloatNotFinite)
    ensures src.YamlTree? && KeysAreStrings(src.yaml) ==> Transform(src, dst) == Err(FloatNotFinite)
  {
  }

  /**
    A YAML integer between 2^63 and 2^64 - 1 converts to JSON as an
    unsigned integer but aborts on the way to TOML.
   */
  lemma LargeYamlIntegerToToml(u: U64)
    requires u > I64_MAX
    ensures Transform(YamlTree(Yaml.Number(YamlNumber.PosInt(u))), JsonFormat)
              == Ok(JsonWriter(Json.Number(JsonNumber.PosInt(u))))
    ensures Transform(YamlTree(Yaml.Number(YamlNumber.PosInt(u))), TomlFormat) == Err(IntegerAboveI64)
  {
  }

  /** The document `a = 1` / `b = "x"` in TOML becomes the JSON object {"a": 1, "b": "x"}. */
  lemma TomlDocumentToJson()
    ensures Transform(TomlTree(Toml.Table(map["a" := Toml.Integer(1), "b" := Toml.String("x")])), JsonFormat)
              == Ok(JsonWriter(Json.Object(map["a" := Json.Number(JsonNumber.PosInt(1)), "b" := Json.String("x")])))
  {
    var t := Toml.Table(map["a" := Toml.Integer(1), "b" := Toml.String("x")]);
    assert TomlToJson(t).value.fields == map["a" := Json.Number(JsonNumber.PosInt(1)), "b" := Json.String("x")];
  }
}
