/** lib/utils.ts, `formatValue`: a data export is the cell value converted by
    the constructor the spec names. `parseFloat` is a collaborator whose
    semantics are not modelled; it is passed in. */
module Utils {
  import opened Errors
  import opened Text
  import opened Values

  /** The constructor a spec entry names as its `type`. */
  datatype TypeTag = FunctionTag | NumberTag | StringTag | BooleanTag | OtherTag(name: string)

  /** `type.name`. */
  function TagName(tag: TypeTag): string
  {
    match tag
    case FunctionTag => "Function"
    case NumberTag => "Number"
    case StringTag => "String"
    case BooleanTag => "Boolean"
    case OtherTag(name) => name
  }

  /** What `formatValue` returns: a number, a string or a boolean. */
  datatype Formatted = Num(n: JsNumber) | Text(s: string) | Flag(b: bool)

  /** `formatValue(value, type)`. Only the Number, String and Boolean
      constructors are known; any other throws `Unknown type`. */
  function FormatValue(value: Value, tag: TypeTag, parseFloat: Value -> JsNumber): (r: Result<Formatted>)
    ensures r.Ok? <==> tag in {NumberTag, StringTag, BooleanTag}
    ensures r.Err? ==> r.error == UnknownTypeError(TagName(tag))
    ensures tag == NumberTag ==> r == Ok(Num(parseFloat(value)))
  {
    match tag
    case NumberTag => Ok(Num(parseFloat(value)))
    case StringTag => Ok(Text(StringOf(value)))
    case BooleanTag => Ok(Flag(Truthy(value)))
    case _ => Err(UnknownTypeError(TagName(tag)))
  }

  /** The Boolean tag gives false exactly for JavaScript's falsy values:
      undefined, null, false, 0, NaN and the empty string. */
  lemma BooleanFalsy(value: Value, parseFloat: Value -> JsNumber)
    ensures FormatValue(value, BooleanTag, parseFloat) == Ok(Flag(false))
        <==> value in {Undefined, Null, Bool(false), Number(Finite(0)), Number(NaN), Str("")}
  {
    match value
    case Number(n) =>
      assert !Truthy(value) <==> n == Finite(0) || n == NaN;
    case Str(s) =>
      assert !Truthy(value) <==> s == "";
    case _ =>
  }

  /** The String tag returns a string cell's own text. */
  lemma StringOfString(s: string, parseFloat: Value -> JsNumber)
    ensures FormatValue(Str(s), StringTag, parseFloat) == Ok(Text(s))
  {
  }

  /** The text the String tag gives a number reads back, with `Number()`, as
      that number. */
  lemma StringOfNumber(n: int, parseFloat: Value -> JsNumber)
    ensures FormatValue(Number(Finite(n)), StringTag, parseFloat).Ok?
    ensures NumberOf(FormatValue(Number(Finite(n)), StringTag, parseFloat).value.s) == Finite(n)
  {
    var t := IntToDecimal(n);
    if n < 0 {
      var digits := NatToDecimal(-n);
      DecimalRoundTrip(-n);
      assert t[1..] == digits;
      assert !AllDigits(t) by {
        assert !IsDigit(t[0]);
      }
    } else {
      NumberOfDecimal(n);
    }
  }

  /** Formatting as a string and then as a boolean gives true unless the
      text is empty: `null`, `0` and `false` all print as non-empty text. */
  lemma BooleanOfString(value: Value, parseFloat: Value -> JsNumber)
    ensures FormatValue(Str(StringOf(value)), BooleanTag, parseFloat) == Ok(Flag(StringOf(value) != ""))
    ensures value in {Null, Bool(false), Number(Finite(0))} ==>
              FormatValue(Str(StringOf(value)), BooleanTag, parseFloat) == Ok(Flag(true))
  {
    if value == Number(Finite(0)) {
      assert StringOf(value) == "0";
    }
  }
}
