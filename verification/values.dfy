/** Python scalars as the tool passes them around: argparse results, preset
    fields read from JSON, and the literals in the code. */
module Values {

  /** `None`, a `str`, or a number. A number is kept as the text Python's
      `str()` gives for it; the tool never computes with one, it only formats
      it and tests its truth value. */
  datatype Value = Null | Str(s: string) | Num(text: string)

  /** Python truthiness: `None`, `""` and zero are false. Zero is exactly the
      number whose `str()` is "0", "0.0" or "-0.0". */
  predicate Truthy(v: Value) {
    match v
    case Null => false
    case Str(s) => s != ""
    case Num(t) => t != "0" && t != "0.0" && t != "-0.0"
  }

  /** Python's `str(v)`, which is also what an f-string inserts. */
  function Text(v: Value): string {
    match v
    case Null => "None"
    case Str(s) => s
    case Num(t) => t
  }

  /** Whether `v` may stand in an argument vector as it is. `v or default`
      and `if v: command.extend([..., v])` place `v` only when it is set, and
      the command runner accepts only strings there. */
  predicate StrWhenSet(v: Value) {
    Truthy(v) ==> v.Str?
  }

  /** The argument-vector token for `v or default`. */
  function OrText(v: Value, default: string): (r: string)
    ensures Truthy(v) ==> r == Text(v)
    ensures !Truthy(v) ==> r == default
  {
    if Truthy(v) then Text(v) else default
  }

  /** A preset record or an argparse namespace: a dict from field name to value. */
  type Record = map<string, Value>

  /** `record.get(key)`. */
  function Get(r: Record, key: string): (v: Value)
    ensures key !in r ==> v == Null
    ensures key in r ==> v == r[key]
  {
    if key in r then r[key] else Null
  }
}
