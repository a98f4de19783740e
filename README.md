# configuration_convert, modelled in Dafny

`configuration_convert` is a command-line converter between JSON, TOML and
YAML documents. It parses the input into its format's value tree, turns
that tree into a JSON value tree (`serde_json::Value`), and turns the JSON
tree into the destination format's tree for the writer. This project
models the tree conversions of `src/main.rs` and proves what they keep,
what they lose and when they abort:

- `toml_convert_to_json` (`TomlNormalizer.TomlToJson`): kind for kind. A
  date-time becomes the string of its canonical text. A NaN or infinite
  float aborts.
- `yaml_convert_to_json` (`YamlNormalizer.YamlToJson`): numbers are taken as
  `i64` if they fit, else as `u64`, else as floats, and a NaN or infinite
  float aborts. A mapping key that is not a string aborts rather than being
  turned into text.
- `json_to_toml` (`TomlDenormalizer.JsonToToml`): `null` becomes the string
  `"null"`. An integer above `i64::MAX` aborts, because the last number
  branch unwraps `as_i64()`, which is `None` for every number that reaches
  it. So the `as i64` cast in that branch is never reached.
- `other_value_to_json_value` (`Driver.ToJsonValue`): the dispatcher. The
  format-name check and mapping of `main` are `Driver.SelectFormat`, and
  its transform stage is `Driver.Transform`.

Each Rust panic becomes an error value of type `Panics.Panic`, which names
the panic site: `FloatNotFinite`, `KeyNotString` or `IntegerAboveI64`.
Integers are `int`s restricted to the `i64` and `u64` ranges. Floats are
IEEE-754 bit patterns with a finiteness test on the exponent field, and no
float arithmetic is done. Objects and tables are finite maps. A YAML
mapping is its list of entries in iteration order, and its keys are YAML
values of any kind.

The main results:

- Each converter succeeds exactly when an independent predicate holds:
  - TOML→JSON: every float is finite.
  - YAML→JSON: every float is finite and every mapping key is a string.
  - JSON→TOML: every integer fits `i64`.
- Arrays keep their length and order. Objects, tables and mappings keep
  their key sets. Each element or value is converted on its own.
- `RoundTrip.TomlJsonToml` proves that TOML→JSON→TOML is the identity on
  trees with no date-time and only finite floats.
- `RoundTrip.JsonTomlJson` proves that JSON→TOML→JSON is the identity on
  trees with no `null` whose integers fit `i64`.
- Two lemmas show the lossy cases: a date-time and a `null` each come back
  as a string.

Three behaviours of the code worth stating explicitly:
- The JSON tree also holds unsigned integers up to 2^64 − 1, not only
  signed 64-bit ones. A large YAML integer therefore converts to JSON (and
  YAML) but aborts on the way to TOML (`Driver.LargeYamlIntegerToToml`).
- Every non-string YAML key aborts, including numbers and booleans that
  could be written as text.
- Key order is not modelled (see "Left out").

## Model

| member | source | states |
|---|---|---|
| `TomlNormalizer.TomlToJson` | src/main.rs:36-51 | succeeds exactly when every float in the TOML tree is finite; the only abort is the non-finite float |
| `TomlNormalizer.ItemsToJson` | src/main.rs:45 | an array converts exactly when every element does; the result has the same length and element i is element i converted |
| `TomlNormalizer.LeafKinds` | src/main.rs:38-49 | string→string, integer→number with the same value, finite float→the same float, boolean→bool, non-finite float aborts, date-time→the string of its rendering (not an abort) |
| `TomlNormalizer.ArrayElementwise` | src/main.rs:45 | a TOML array becomes a JSON array of the same length, in order, each element converted |
| `TomlNormalizer.TableKeys` | src/main.rs:46-48 | a table becomes an object with exactly the same keys, each value converted |
| `YamlNormalizer.NumberToJson` | src/main.rs:19-28 | an integer keeps its value and stays an integer (in the i64 class exactly when it was); a float converts to the same float exactly when it is finite, otherwise aborts |
| `YamlNormalizer.YamlToJson` | src/main.rs:16-34 | succeeds exactly when every float is finite and every mapping key is a string; a float abort implies a bad float, a key abort implies a non-string key |
| `YamlNormalizer.ItemsToJson` | src/main.rs:31 | a sequence converts exactly when every element does; same length, element i is element i converted; an abort names an offending element |
| `YamlNormalizer.EntryToJson` | src/main.rs:32 | an entry converts exactly when its key is a string and its value converts; a non-string key aborts with the key abort |
| `YamlNormalizer.EntriesToJson` | src/main.rs:32 | the object's keys are exactly the entries' string keys; each key holds the value of its last entry, converted; converts exactly when every entry does |
| `YamlNormalizer.LeafKinds` | src/main.rs:18-30 | null→null, bool→bool, string→string, integer→number with the same value, finite float→the same float, non-finite float aborts |
| `YamlNormalizer.NumberClasses` | src/main.rs:20-27 | i64::MIN and i64::MAX stay signed, u64::MAX becomes an unsigned integer outside the i64 class, NaN aborts |
| `YamlNormalizer.SequenceElementwise` | src/main.rs:31 | a YAML sequence becomes a JSON array of the same length, in order, each element converted |
| `YamlNormalizer.MappingKeys` | src/main.rs:32 | a mapping becomes an object whose keys are exactly the mapping's string keys, each holding its last entry's value converted |
| `YamlNormalizer.NonStringKeyFails` | src/main.rs:32 | a mapping with a non-string key always aborts (the key is never turned into text); with no bad float, the abort is the key abort |
| `TomlDenormalizer.NumberToToml` | src/main.rs:62-70 | a float stays the same float; an integer becomes a TOML integer of the same value exactly when it is at most i64::MAX, otherwise aborts |
| `TomlDenormalizer.JsonToToml` | src/main.rs:59-76 | succeeds exactly when every integer in the JSON tree fits i64; the only abort is the integer abort |
| `TomlDenormalizer.ItemsToToml` | src/main.rs:72 | an array converts exactly when every element does; same length, element i is element i converted |
| `TomlDenormalizer.LeafKinds` | src/main.rs:60-74 | null→the string "null" (never dropped); string, bool and float keep their kind and payload; an integer up to i64::MAX keeps its value; above it aborts |
| `TomlDenormalizer.FirstRejectedInteger` | src/main.rs:65-68 | i64::MAX converts, 2^63 aborts |
| `TomlDenormalizer.ArrayElementwise` | src/main.rs:72 | a JSON array becomes a TOML array of the same length, in order, each element converted |
| `TomlDenormalizer.ObjectKeys` | src/main.rs:73 | an object becomes a table with exactly the same keys, each value converted |
| `RoundTrip.TomlJsonToml` | src/main.rs:36-76 | for a TOML tree with no date-time and only finite floats, TOML→JSON succeeds, every integer fits i64, and JSON→TOML gives back the same tree |
| `RoundTrip.JsonTomlJson` | src/main.rs:36-76 | for a JSON tree with no null whose integers fit i64, JSON→TOML succeeds with finite floats and TOML→JSON gives back the same tree |
| `RoundTrip.DatetimeComesBackAsString` | src/main.rs:36-76 | a date-time comes back from the trip through JSON as the string of its rendering, not as a date-time |
| `RoundTrip.NullComesBackAsString` | src/main.rs:36-76 | a null comes back from the trip through TOML as the string "null", not as null |
| `Driver.SelectFormat` | src/main.rs:164-187 | a name is accepted exactly when it is "json", "toml" or "yaml", and the accepted format's name is the given name |
| `Driver.SelectFormatName` | src/main.rs:164-187 | each format is selected by its own name |
| `Driver.ToJsonValue` | src/main.rs:116-126 | a JSON tree passes through unchanged; a TOML or YAML tree goes to its own converter; succeeds exactly when the tree normalizes |
| `Driver.Transform` | src/main.rs:189-218 | succeeds exactly when the source normalizes and, for a TOML destination, the intermediate JSON's integers fit i64; the JSON and YAML writers get the intermediate tree, the TOML writer its TOML conversion |
| `Driver.JsonToJsonIdentity` | src/main.rs:189-209 | JSON to JSON hands the parsed tree to the writer unchanged |
| `Driver.TomlToTomlIdentity` | src/main.rs:189-216 | TOML to TOML hands the parsed tree to the writer unchanged when it has no date-time and only finite floats |
| `Driver.BadFloatAborts` | src/main.rs:189-218 | a TOML or YAML source with a non-finite float aborts for every destination (with the float abort when every YAML key is a string) |
| `Driver.LargeYamlIntegerToToml` | src/main.rs:189-218 | a YAML integer above i64::MAX reaches the JSON writer as an unsigned integer but aborts on the way to TOML |
| `Driver.TomlDocumentToJson` | src/main.rs:36-51 | the TOML table `a = 1`, `b = "x"` becomes the JSON object {"a": 1, "b": "x"} |

## Left out

- Reading the input from a file or standard input (`read`, src/main.rs:78-88) and printing the result: I/O.
- Command-line parsing with clap, the error messages and the exit codes of `main`: plumbing. `Driver.SelectFormat` keeps only the name check and the name-to-format mapping.
- The parsers behind `from_str` (src/main.rs:97-113) and the writers `serde_json::to_string_pretty`, `serde_yaml::to_string` and `toml::to_string`: these are library code, and their grammars are not part of this model. This includes the cases where the TOML writer rejects a tree (for example a top level that is not a table), which `main` unwraps.
- `json_to_yaml` (src/main.rs:55-57) is a single call to `serde_yaml::to_value`, which is not part of this model. The YAML writer's input is therefore the JSON tree itself (`Driver.WriterInput.YamlWriter`).
- The `Number` types of serde_json and serde_yaml are library types whose source is not shown. The model reproduces their representation (a non-negative integer, a negative integer or a float) and their `is_i64`, `is_u64`, `as_i64`, `as_u64` and `from_f64` from the libraries' documented behaviour.
- Float semantics: floats are bit patterns compared bit for bit, with no IEEE-754 arithmetic or equality (NaN ≠ NaN, 0.0 = −0.0). For the finite floats that survive conversion, equal bits imply IEEE equality.
- The rendering of a TOML date-time belongs to the `toml` crate. A date-time is modelled as the canonical text its `Display` produces, so `Render` is deterministic by construction.
- Key order in objects and tables depends on a feature setting of the libraries. Maps are modelled unordered, so order preservation is not stated; only key sets and values are.
- YAML mappings have distinct keys in the library. The model's list of entries allows repeats, and resolves them as collecting into a map does: the last entry wins.
- The text of the panic messages: an abort is identified only by its site.
