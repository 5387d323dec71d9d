/** lib/coordinate/axis/Row.ts: a row prints as `$` and its 1-based number. */
module Row {
  import opened Errors
  import opened Text
  import Index

  datatype Row = Row(index: Index.Index)

  /** `label`: `$` followed by the decimal 1-based index. */
  function Label(r: Row): (s: string)
    ensures |s| >= 2 && s[0] == '$' && AllDigits(s[1..]) && DecimalValue(s[1..]) == Index.Base1(r.index)
  {
    DecimalRoundTrip(Index.Base1(r.index));
    var s := "$" + NatToDecimal(Index.Base1(r.index));
    assert s[1..] == NatToDecimal(Index.Base1(r.index));
    s
  }

  /** The number `from` reads: `Number(label.replace(/^\$/, ''))`. */
  function Number(text: string): JsNumber
  {
    NumberOf(StripLeading(text, '$'))
  }

  /** `Row.from(label)`: NaN is a ValueError, and so is a number below 1. */
  function From(text: string): (r: Result<Row>)
    ensures Number(text).NaN? ==> r == Err(ValueError(NotANumber))
    ensures r.Ok? <==> Number(text).Finite? && Number(text).value >= 1
    ensures r.Err? && Number(text).Finite? ==> r.error == ValueError(IndexBelowBase(Number(text).value, 1))
    ensures r.Ok? ==> Index.Base1(r.value.index) == Number(text).value
  {
    var n := Number(text);
    if n.NaN? then Err(ValueError(NotANumber))
    else
      var index :- Index.New(n.value, 1);
      Ok(Row(index))
  }

  /** Parsing a row's own label gives the row back. */
  lemma FromLabel(r: Row)
    ensures From(Label(r)) == Ok(r)
  {
    var text := Label(r);
    assert StripLeading(text, '$') == NatToDecimal(Index.Base1(r.index));
    NumberOfDecimal(Index.Base1(r.index));
  }

  /** Row numbers are 1-based: `from("0")` is below the base. */
  lemma FromZero()
    ensures From("0") == Err(ValueError(IndexBelowBase(0, 1)))
  {
    assert AllDigits("0");
    assert DecimalValue("0") == 0;
  }

  lemma FromOne()
    ensures From("1").Ok?
  {
    assert AllDigits("1");
  }

  lemma FromSeven()
    ensures From("7").Ok? && Index.Base0(From("7").value.index) == 6
  {
    assert AllDigits("7");
    assert DecimalValue("7") == 7;
  }

  /** A label that is not a number is a ValueError. */
  lemma FromNotANumber(text: string, i: nat)
    requires i < |StripLeading(text, '$')|
    requires NeverInNumber(StripLeading(text, '$')[i])
    ensures From(text) == Err(ValueError(NotANumber))
  {
    NumberOfNonNumeric(StripLeading(text, '$'), i);
  }
}
