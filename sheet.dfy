/** lib/coordinate/axis/Sheet.ts: a worksheet number. It parses 1-based but
    its label interpolates the Index, whose text is the base-0 value. */
module Sheet {
  import opened Errors
  import opened Text
  import Index

  datatype Sheet = Sheet(index: Index.Index)

  /** `label`: the index's own text (base 0) followed by `!`. */
  function Label(s: Sheet): (r: string)
    ensures |r| >= 2 && r[|r| - 1] == '!'
    ensures AllDigits(r[..|r| - 1]) && DecimalValue(r[..|r| - 1]) == Index.Base0(s.index)
  {
    var r := Index.ToString(s.index) + "!";
    assert r[..|r| - 1] == Index.ToString(s.index);
    r
  }

  /** `abs`: a sheet is always absolute. */
  function Abs(s: Sheet): (r: bool)
    ensures r
  {
    true
  }

  /** The number `from` reads: `Number(label.replace(/!$/, ''))`. */
  function Number(text: string): JsNumber
  {
    NumberOf(StripTrailing(text, '!'))
  }

  /** `Sheet.from(label)`: NaN is a ValueError, and so is a number below 1. */
  function From(text: string): (r: Result<Sheet>)
    ensures Number(text).NaN? ==> r == Err(ValueError(NotANumber))
    ensures r.Ok? <==> Number(text).Finite? && Number(text).value >= 1
    ensures r.Err? && Number(text).Finite? ==> r.error == ValueError(IndexBelowBase(Number(text).value, 1))
    ensures r.Ok? ==> Index.Base1(r.value.index) == Number(text).value
  {
    var n := Number(text);
    if n.NaN? then Err(ValueError(NotANumber))
    else
      var index :- Index.New(n.value, 1);
      Ok(Sheet(index))
  }

  /** Sheet numbers are 1-based: `from("0")` is below the base. */
  lemma FromZero()
    ensures From("0") == Err(ValueError(IndexBelowBase(0, 1)))
  {
    assert AllDigits("0");
    assert DecimalValue("0") == 0;
  }

  lemma FromThree()
    ensures From("3").Ok? && Index.Base1(From("3").value.index) == 3
  {
    assert AllDigits("3");
    assert DecimalValue("3") == 3;
  }

  /** Sheet 1 prints as "0!". */
  lemma FirstSheetLabel()
    ensures Label(Sheet(Index.Index(0))) == "0!"
  {
  }

  /** Label and `from` disagree by one: parsing a label gives the sheet before
      it, and the label of sheet 1 does not parse at all. */
  lemma {:induction false} FromLabel(s: Sheet)
    ensures Index.Base0(s.index) == 0 ==> From(Label(s)) == Err(ValueError(IndexBelowBase(0, 1)))
    ensures Index.Base0(s.index) > 0 ==> From(Label(s)).Ok? && Index.Base1(From(Label(s)).value.index) == Index.Base0(s.index)
  {
    var text := Label(s);
    assert StripTrailing(text, '!') == Index.ToString(s.index);
    NumberOfDecimal(s.index.base0);
  }
}
