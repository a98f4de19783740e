/** The YAML tree (`serde_yaml::Value`). */
module YamlValue {

  import opened Numbers
  import opened Wrappers

  /**
    `serde_yaml::Number`: a non-negative integer, a negative integer, or any
    float. It mirrors `JsonValue.JsonNumber` on purpose: the two libraries
    have separate `Number` types with the same integer accessors, but only
    the JSON one excludes non-finite floats.
   */
  datatype YamlNumber = PosInt(u: U64) | NegInt(i: NegI64) | Float(f: F64)
  {
    predicate IsInteger() {
      !Float?
    }

    /** The integer a `PosInt` or `NegInt` stands for. */
    function Int(): int
      requires IsInteger()
    {
      if PosInt? then u else i
    }

    /** `is_i64`: the number is an integer within the `i64` range. */
    predicate IsI64() {
      match this
      case PosInt(u) => u <= I64_MAX
      case NegInt(_) => true
      case Float(_) => false
    }

    /** `is_u64`: the number is a non-negative integer. */
    predicate IsU64() {
      PosInt?
    }

    /** `as_i64`: the number as an `i64`, when it is one. */
    function AsI64(): (r: Option<I64>)
      ensures r.Some? <==> IsInteger() && Int() <= I64_MAX
      ensures r.Some? <==> IsI64()
      ensures r.Some? ==> r.value == Int()
    {
      match this
      case PosInt(u) => if u <= I64_MAX then Some(u) else None
      case NegInt(i) => Some(i)
      case Float(_) => None
    }

    /** `as_u64`: the number as a `u64`, when it is one. */
    function AsU64(): (r: Option<U64>)
      ensures r.Some? <==> IsInteger() && 0 <= Int()
      ensures r.Some? <==> IsU64()
      ensures r.Some? ==> r.value == Int()
    {
      match this
      case PosInt(u) => Some(u)
      case _ => None
    }
  }

  /**
    `serde_yaml::Value`. A mapping is kept as its list of entries in
    iteration order; its keys are YAML values of any kind.
   */
  datatype Yaml =
    | Null
    | Bool(b: bool)
    | Number(n: YamlNumber)
    | String(s: string)
    | Sequence(items: seq<Yaml>)
    | Mapping(entries: seq<(Yaml, Yaml)>)

  /** Every float in the tree (mapping keys excepted) is finite. */
  predicate YamlFloatsFinite(y: Yaml) {
    match y
    case Number(n) => n.Float? ==> IsFinite(n.f)
    case Sequence(items) => forall i | 0 <= i < |items| :: YamlFloatsFinite(items[i])
    case Mapping(entries) => forall i | 0 <= i < |entries| :: EntryFloatsFinite(entries[i])
    case _ => true
  }

  predicate EntryFloatsFinite(e: (Yaml, Yaml)) {
    YamlFloatsFinite(e.1)
  }

  /** Every mapping key in the tree is a string. */
  predicate KeysAreStrings(y: Yaml) {
    match y
    case Sequence(items) => forall i | 0 <= i < |items| :: KeysAreStrings(items[i])
    case Mapping(entries) => forall i | 0 <= i < |entries| :: EntryKeysAreStrings(entries[i])
    case _ => true
  }

  predicate EntryKeysAreStrings(e: (Yaml, Yaml)) {
    e.0.String? && KeysAreStrings(e.1)
  }
}
