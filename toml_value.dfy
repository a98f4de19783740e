/** The TOML tree (`toml::Value`). */
module TomlValue {

  import opened Numbers

  /**
    A TOML date-time (`toml::value::Datetime`). Its fields and its
    `Display` implementation belong to the `toml` crate and are not part of
    this model: a date-time is identified with the canonical text that
    `Display` produces for it.
   */
  datatype TomlDatetime = TomlDatetime(canonical: string)

  /** `dt.to_string()`: the date-time's canonical text, the same for every call. */
  function Render(dt: TomlDatetime): string {
    dt.canonical
  }

  /** `toml::Value`. Tables are finite maps from key to value. */
  datatype Toml =
    | String(s: string)
    | Integer(i: I64)
    | Float(f: F64)
    | Boolean(b: bool)
    | Datetime(dt: TomlDatetime)
    | Array(items: seq<Toml>)
    | Table(entries: map<string, Toml>)

  /** Every float in the tree is finite: the condition for converting it to JSON. */
  predicate TomlFloatsFinite(t: Toml) {
    match t
    case Float(f) => IsFinite(f)
    case Array(items) => forall i | 0 <= i < |items| :: TomlFloatsFinite(items[i])
    case Table(entries) => forall k | k in entries :: TomlFloatsFinite(entries[k])
    case _ => true
  }

  /** No date-time anywhere in the tree: such trees come back unchanged from a trip through JSON. */
  predicate HasNoDatetime(t: Toml) {
    match t
    case Datetime(_) => false
    case Array(items) => forall i | 0 <= i < |items| :: HasNoDatetime(items[i])
    case Table(entries) => forall k | k in entries :: HasNoDatetime(entries[k])
    case _ => true
  }
}
