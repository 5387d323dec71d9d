/** The JavaScript values that flow through a context: what a cell reads as,
    and the two coercions the library applies to them. */
module Values {
  import opened Text

  /** A raw cell value; a Date is kept as the text JavaScript prints for it. */
  datatype Value =
    | Undefined
    | Null
    | Bool(b: bool)
    | Number(n: JsNumber)
    | Str(s: string)
    | Date(text: string)

  /** `Boolean(v)`: false exactly for undefined, null, false, 0, NaN and ''. */
  predicate Truthy(v: Value)
  {
    match v
    case Undefined => false
    case Null => false
    case Bool(b) => b
    case Number(n) => n.Finite? && n.value != 0
    case Str(s) => s != ""
    case Date(_) => true
  }

  /** `${v}`, the string form of a value. */
  function StringOf(v: Value): string
  {
    match v
    case Undefined => "undefined"
    case Null => "null"
    case Bool(b) => if b then "true" else "false"
    case Number(n) => if n.NaN? then "NaN" else IntToDecimal(n.value)
    case Str(s) => s
    case Date(text) => text
  }

  /** `m[k]` on a JavaScript object: a missing key reads as undefined. */
  function Get(m: map<string, Value>, k: string): Value
  {
    if k in m then m[k] else Undefined
  }
}
