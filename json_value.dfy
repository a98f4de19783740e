/**
  The JSON tree (`serde_json::Value`), which every document passes through
  on its way from the source format to the destination format.
 */
module JsonValue {

  import opened Numbers
  import opened Wrappers

  /**
    `serde_json::Number`: a non-negative integer, a negative integer, or a
    finite float. The split between the integer cases is kept because
    which of them a number is decides whether it converts to TOML.
   */
  datatype JsonNumber = PosInt(u: U64) | NegInt(i: NegI64) | Float(f: FiniteF64)
  {
    predicate IsInteger() {
      !Float?
    }

    /** The integer a `PosInt` or `NegInt` stands for. */
    function Int(): int
      requires IsInteger()
    {
      if PosInt? then u else i
    }

    /** `is_i64`: the number is an integer within the `i64` range. */
    predicate IsI64() {
      match this
      case PosInt(u) => u <= I64_MAX
      case NegInt(_) => true
      case Float(_) => false
    }

    /** `as_i64`: the number as an `i64`, when it is one. */
    function AsI64(): (r: Option<I64>)
      ensures r.Some? <==> IsInteger() && Int() <= I64_MAX
      ensures r.Some? <==> IsI64()
      ensures r.Some? ==> r.value == Int()
    {
      match this
      case PosInt(u) => if u <= I64_MAX then Some(u) else None
      case NegInt(i) => Some(i)
      case Float(_) => None
    }
  }

  /** `Number::from(i64)`: negative values become `NegInt`, the others `PosInt`. */
  function FromI64(x: I64): (n: JsonNumber)
    ensures n.IsInteger() && n.Int() == x
    ensures n.IsI64()
  {
    if x < 0 then NegInt(x) else PosInt(x)
  }

  /** `Number::from(u64)`. */
  function FromU64(x: U64): (n: JsonNumber)
    ensures n.IsInteger() && n.Int() == x
  {
    PosInt(x)
  }

  /** `Number::from_f64`: only a finite float is a JSON number. */
  function FromF64(f: F64): (r: Option<JsonNumber>)
    ensures r.Some? <==> IsFinite(f)
    ensures r.Some? ==> r.value.Float? && r.value.f == f
  {
    if IsFinite(f) then Some(Float(f)) else None
  }

  /**
    `serde_json::Value`. Objects are finite maps: whether their keys keep
    insertion order is a build option of the library and is not modelled.
   */
  datatype Json =
    | Null
    | Bool(b: bool)
    | Number(n: JsonNumber)
    | String(s: string)
    | Array(items: seq<Json>)
    | Object(fields: map<string, Json>)

  /** Every integer in the tree fits `i64`: the condition for converting it to TOML. */
  predicate IntegersFitI64(j: Json) {
    match j
    case Number(n) => n.IsInteger() ==> n.Int() <= I64_MAX
    case Array(items) => forall i | 0 <= i < |items| :: IntegersFitI64(items[i])
    case Object(fields) => forall k | k in fields :: IntegersFitI64(fields[k])
    case _ => true
  }

  /** No `null` anywhere in the tree: the converse of the TOML conversion's one lossy case. */
  predicate HasNoNull(j: Json) {
    match j
    case Null => false
    case Array(items) => forall i | 0 <= i < |items| :: HasNoNull(items[i])
    case Object(fields) => forall k | k in fields :: HasNoNull(fields[k])
    case _ => true
  }
}
