/** lib/coordinate/axis/Column.ts: a column prints as `$` and upper-case
    base-26 letters of its 1-based index, and parses back from letters. */
module Column {
  import opened Errors
  import opened Text
  import Index
  import Base26

  datatype Column = Column(index: Index.Index)

  /** `label`: `$` followed by the upper-case letters of the 1-based index. */
  function Label(c: Column): (r: string)
    ensures |r| >= 2 && r[0] == '$' && AllUpper(r[1..])
    ensures AllLower(ToLower(r[1..])) && Base26.From(ToLower(r[1..])) == Index.Base1(c.index)
  {
    var letters := Base26.To(Index.Base1(c.index));
    Base26.FromTo(Index.Base1(c.index));
    LowerOfUpper(letters);
    var r := "$" + ToUpper(letters);
    assert r[1..] == ToUpper(letters);
    r
  }

  /** The text `from` hands to base26: one leading `$` dropped, lower-cased. */
  function Letters(text: string): string
  {
    ToLower(StripLeading(text, '$'))
  }

  /** `Column.from(label)`. The base26 package is only defined on letters, so
      the label must be letters after its optional `$`. */
  function From(text: string): (r: Result<Column>)
    requires AllLetters(StripLeading(text, '$'))
    ensures r.Ok? <==> StripLeading(text, '$') != ""
    ensures r.Err? ==> r.error == ValueError(IndexBelowBase(0, 1))
    ensures r.Ok? ==> AllLower(Letters(text)) && Index.Base1(r.value.index) == Base26.From(Letters(text))
  {
    var letters := Letters(text);
    assert AllLower(letters);
    var index :- Index.New(Base26.From(letters), 1);
    Ok(Column(index))
  }

  /** Parsing a column's own label gives the column back. */
  lemma FromLabel(c: Column)
    ensures From(Label(c)) == Ok(c)
  {
    var text := Label(c);
    assert StripLeading(text, '$') == text[1..];
    var r := From(text);
    assert r.Ok?;
    assert Index.Base1(r.value.index) == Index.Base1(c.index);
  }

  /** One leading `$` and the letters' case make no difference. */
  lemma FromIgnoresDollarAndCase(x: string)
    requires AllLetters(x)
    ensures From("$" + x) == From(x)
    ensures From(ToUpper(x)) == From(x) && From(ToLower(x)) == From(x)
  {
    assert StripLeading("$" + x, '$') == x;
    if x != [] {
      assert x[0] != '$';
      assert ToUpper(x)[0] != '$' && ToLower(x)[0] != '$';
    }
    assert ToLower(ToUpper(x)) == ToLower(x);
    assert ToLower(ToLower(x)) == ToLower(x);
  }

  /** `from("A")` is the first column: base26 letters are read as 1-based. */
  lemma FromA()
    ensures From("A").Ok? && Index.Base0(From("A").value.index) == 0
  {
    assert Letters("A") == "a";
  }
}
