/** lib/coordinate.ts: the older coordinate classes. An axis keeps the label
    it was made from and whether that label was absolute (`$`); a coordinate
    is read from `[<sheet>!]<column><row>`, the sheet defaulting to 1; and a
    relation carries a formula written for one cell (the pivot) over to
    another cell, as shared formulas are. */
module LegacyCoordinate {
  import opened Errors
  import opened Text
  import opened Scan
  import Base26

  /** `a + b` on numbers: NaN absorbs everything. */
  function Plus(a: JsNumber, b: JsNumber): (r: JsNumber)
    ensures r.Finite? <==> a.Finite? && b.Finite?
    ensures r.Finite? ==> r.value == a.value + b.value
  {
    if a.NaN? || b.NaN? then NaN else Finite(a.value + b.value)
  }

  /** `a - b` on numbers. */
  function Minus(a: JsNumber, b: JsNumber): (r: JsNumber)
    ensures r.Finite? <==> a.Finite? && b.Finite?
    ensures r.Finite? ==> r.value == a.value - b.value
  {
    if a.NaN? || b.NaN? then NaN else Finite(a.value - b.value)
  }

  /** `'' + n` for a number. */
  function NumberText(n: JsNumber): string
  {
    if n.NaN? then "NaN" else IntToDecimal(n.value)
  }

  // ---------------------------------------------------------------------
  // Row and Column
  // ---------------------------------------------------------------------

  /** A row: its label as given, its 0-based index and its absoluteness. */
  datatype Row = Row(text: string, index: JsNumber, abs: bool)

  /** `new Row(label)` for a string: absolute when it starts with `$`, the
      index one below the number after that `$`, the label kept verbatim. */
  function RowOfLabel(text: string): (r: Row)
    ensures r.text == text
    ensures r.abs <==> |text| >= 1 && text[0] == '$'
    ensures r.index.NaN? <==> NumberOf(StripLeading(text, '$')).NaN?
  {
    Row(text, Plus(NumberOf(StripLeading(text, '$')), Finite(-1)), StartsWith(text, "$"))
  }

  /** `new Row(index)` for a number: absolute, labelled `$` and `index + 1`. */
  function RowOfIndex(index: JsNumber): (r: Row)
    ensures r.abs && r.index == index && |r.text| >= 2 && r.text[0] == '$'
  {
    Row("$" + NumberText(Plus(index, Finite(1))), index, true)
  }

  /** A column: its upper-cased label, its 0-based index and its absoluteness. */
  datatype Column = Column(text: string, index: int, abs: bool)

  /** The letters `new Column(label)` hands to base26: the upper-cased label,
      one leading `$` dropped, lower-cased. */
  function ColumnLetters(text: string): (r: string)
    requires AllLetters(StripLeading(text, '$'))
    ensures AllLower(r) && r == ToLower(StripLeading(text, '$'))
  {
    var u := ToUpper(text);
    assert StripLeading(u, '$') == ToUpper(StripLeading(text, '$'));
    ToLower(StripLeading(u, '$'))
  }

  /** `new Column(label)` for a string. The base26 package is only defined on
      letters, so the label must be letters after its optional `$`. */
  function ColumnOfLabel(text: string): Column
    requires AllLetters(StripLeading(text, '$'))
  {
    Column(ToUpper(text), Base26.From(ColumnLetters(text)) - 1, StartsWith(text, "$"))
  }

  /** `new Column(index)` for a number: absolute, labelled `$` and the
      upper-case letters of `index + 1`, which base26 needs to be positive. */
  function ColumnOfIndex(index: int): (c: Column)
    requires index >= 0
    ensures c.abs && c.index == index && |c.text| >= 2 && c.text[0] == '$'
  {
    Column("$" + ToUpper(Base26.To(index + 1)), index, true)
  }

  /** The letters of a column built from a number are upper case and read
      back, lower-cased, as the 1-based index. */
  lemma ColumnOfIndexLetters(index: int)
    requires index >= 0
    ensures var t := ColumnOfIndex(index).text[1..];
      AllUpper(t) && AllLower(ToLower(t)) && Base26.From(ToLower(t)) == index + 1
  {
    var letters := Base26.To(index + 1);
    Base26.FromTo(index + 1);
    LowerOfUpper(letters);
    assert ColumnOfIndex(index).text[1..] == ToUpper(letters);
  }

  /** A row's label read back gives the same row, for every number, NaN
      included: `$-3` reads as -3 and `$NaN` as NaN. */
  lemma RowRoundTrip(index: JsNumber)
    ensures RowOfLabel(RowOfIndex(index).text) == RowOfIndex(index)
  {
    var r := RowOfIndex(index);
    var n := Plus(index, Finite(1));
    assert StripLeading(r.text, '$') == NumberText(n);
    assert StartsWith(r.text, "$");
    NumberOfText(n);
  }

  /** `Number('' + n)` is `n`, NaN included. */
  lemma NumberOfText(n: JsNumber)
    ensures NumberOf(NumberText(n)) == n
  {
    if n.NaN? {
      NumberOfNonNumeric("NaN", 0);
    } else if n.value >= 0 {
      NumberOfDecimal(n.value);
    } else {
      var d := NatToDecimal(-n.value);
      DecimalRoundTrip(-n.value);
      assert ("-" + d)[1..] == d;
    }
  }


  /** A column's label read back gives the same column. */
  lemma ColumnRoundTrip(index: int)
    requires index >= 0
    ensures AllLetters(StripLeading(ColumnOfIndex(index).text, '$'))
    ensures ColumnOfLabel(ColumnOfIndex(index).text) == ColumnOfIndex(index)
  {
    var c := ColumnOfIndex(index);
    ColumnOfIndexLetters(index);
    assert StripLeading(c.text, '$') == c.text[1..];
    assert AllLetters(c.text[1..]);
    UpperAfterDollar(c.text);
    assert StartsWith(c.text, "$");
  }

  /** A `$` followed by upper-case letters is its own upper case. */
  lemma UpperAfterDollar(text: string)
    requires |text| >= 1 && text[0] == '$' && AllUpper(text[1..])
    ensures ToUpper(text) == text
  {
    forall i | 0 <= i < |text|
      ensures ToUpper(text)[i] == text[i]
    {
      if i > 0 {
        assert text[i] == text[1..][i - 1];
      }
    }
  }

  /** Case does not matter to the index, and the label is kept upper-cased:
      `new Column("$ab")` and `new Column("$AB")` are the same column. */
  lemma ColumnIgnoresCase(text: string)
    requires AllLetters(StripLeading(text, '$'))
    ensures AllLetters(StripLeading(ToLower(text), '$'))
    ensures ColumnOfLabel(ToLower(text)) == ColumnOfLabel(text)
  {
    var l := ToLower(text);
    assert StripLeading(l, '$') == ToLower(StripLeading(text, '$'));
    assert ToLower(ToLower(StripLeading(text, '$'))) == ToLower(StripLeading(text, '$'));
    assert ToUpper(l) == ToUpper(text);
    assert StartsWith(l, "$") == StartsWith(text, "$");
  }

  // ---------------------------------------------------------------------
  // The pattern `(?:(\d+)!)?(\$?[A-Z]+)(\$?\d+)`, leftmost match first.
  // ---------------------------------------------------------------------

  /** The captured groups: the sheet digits if present, the column with its
      `$`, the row with its `$`. */
  datatype CoordMatch = CoordMatch(sheet: Option<string>, column: string, row: string)

  predicate WellFormed(m: CoordMatch)
  {
    && (m.sheet.Some? ==> |m.sheet.value| > 0 && AllDigits(m.sheet.value))
    && |StripLeading(m.column, '$')| > 0 && AllUpper(StripLeading(m.column, '$'))
    && |StripLeading(m.row, '$')| > 0 && AllDigits(StripLeading(m.row, '$'))
  }

  /** The match starting exactly at `p`. At a digit only the sheet group can
      start the match: without it the column would have to begin with a digit.
      Each greedy run takes its longest extent, since giving characters back
      leaves a character of the same class where the pattern needs another. */
  function MatchAt(s: string, p: nat): Option<CoordMatch>
    requires p <= |s|
  {
    if p < |s| && IsDigit(s[p]) then
      var d := p + DigitRun(s, p);
      if d < |s| && s[d] == '!' then MatchColumn(s, Some(s[p..d]), d + 1) else None
    else MatchColumn(s, None, p)
  }

  /** The column group `\$?[A-Z]+` from `q0` on, then the row. */
  function MatchColumn(s: string, sheet: Option<string>, q0: nat): Option<CoordMatch>
    requires q0 <= |s|
  {
    var q1 := if q0 < |s| && s[q0] == '$' then q0 + 1 else q0;
    var q2 := q1 + UpperRun(s, q1);
    if q2 == q1 then None else MatchRow(s, sheet, q0, q2)
  }

  /** The row group `\$?\d+` from `q2` on. */
  function MatchRow(s: string, sheet: Option<string>, q0: nat, q2: nat): Option<CoordMatch>
    requires q0 < q2 <= |s|
  {
    var q3 := if q2 < |s| && s[q2] == '$' then q2 + 1 else q2;
    var e := q3 + DigitRun(s, q3);
    if e == q3 then None else Some(CoordMatch(sheet, s[q0..q2], s[q2..e]))
  }

  /** `text.match(pattern)` searching from `p`. */
  function Match(s: string, p: nat): Option<CoordMatch>
    requires p <= |s|
    decreases |s| - p
  {
    var m := MatchAt(s, p);
    if m.Some? || p == |s| then m else Match(s, p + 1)
  }

  lemma MatchRowWellFormed(s: string, sheet: Option<string>, q0: nat, q2: nat)
    requires q0 < q2 <= |s|
    requires sheet.Some? ==> |sheet.value| > 0 && AllDigits(sheet.value)
    requires |StripLeading(s[q0..q2], '$')| > 0 && AllUpper(StripLeading(s[q0..q2], '$'))
    ensures MatchRow(s, sheet, q0, q2).Some? ==> WellFormed(MatchRow(s, sheet, q0, q2).value)
  {
    var q3 := if q2 < |s| && s[q2] == '$' then q2 + 1 else q2;
    DigitRunDigits(s, q3);
    var e := q3 + DigitRun(s, q3);
    if e > q3 {
      assert StripLeading(s[q2..e], '$') == s[q3..e];
    }
  }

  lemma MatchColumnWellFormed(s: string, sheet: Option<string>, q0: nat)
    requires q0 <= |s|
    requires sheet.Some? ==> |sheet.value| > 0 && AllDigits(sheet.value)
    ensures MatchColumn(s, sheet, q0).Some? ==> WellFormed(MatchColumn(s, sheet, q0).value)
  {
    RunWellFormed(s, sheet, q0, if q0 < |s| && s[q0] == '$' then q0 + 1 else q0);
  }

  lemma RunWellFormed(s: string, sheet: Option<string>, q0: nat, q1: nat)
    requires q0 <= q1 <= |s| && q1 == (if q0 < |s| && s[q0] == '$' then q0 + 1 else q0)
    requires sheet.Some? ==> |sheet.value| > 0 && AllDigits(sheet.value)
    ensures MatchColumn(s, sheet, q0).Some? ==> WellFormed(MatchColumn(s, sheet, q0).value)
  {
    UpperRunUppers(s, q1);
    var q2 := q1 + UpperRun(s, q1);
    if q2 > q1 {
      assert MatchColumn(s, sheet, q0) == MatchRow(s, sheet, q0, q2);
      DropDollar(s, q0, q1, q2);
      assert |s[q1..q2]| > 0;
      MatchRowWellFormed(s, sheet, q0, q2);
    }
  }

  /** An optional `$` before a run of letters is what `replace(/^\$/, '')` drops. */
  lemma DropDollar(s: string, q0: nat, q1: nat, q2: nat)
    requires q0 <= q1 < q2 <= |s| && q1 == (if q0 < |s| && s[q0] == '$' then q0 + 1 else q0)
    requires AllUpper(s[q1..q2])
    ensures StripLeading(s[q0..q2], '$') == s[q1..q2]
  {
    if q1 == q0 {
      assert IsUpper(s[q1..q2][0]);
    }
  }

  lemma MatchAtWellFormed(s: string, p: nat)
    requires p <= |s|
    ensures MatchAt(s, p).Some? ==> WellFormed(MatchAt(s, p).value)
  {
    if p < |s| && IsDigit(s[p]) {
      DigitRunDigits(s, p);
      var d := p + DigitRun(s, p);
      if d < |s| && s[d] == '!' {
        MatchColumnWellFormed(s, Some(s[p..d]), d + 1);
      }
    } else {
      MatchColumnWellFormed(s, None, p);
    }
  }

  /**
   * Every group the pattern captures has the shape its class promises. The
   * scan is the one of `Coordinate.MatchWellFormed`, but the pattern here is
   * the older one of lib/coordinate.ts with its own groups.
   */
  lemma {:induction false} MatchWellFormed(s: string, p: nat)
    requires p <= |s|
    ensures Match(s, p).Some? ==> WellFormed(Match(s, p).value)
    decreases |s| - p
  {
    MatchAtWellFormed(s, p);
    if MatchAt(s, p).None? && p < |s| {
      MatchWellFormed(s, p + 1);
    }
  }

  /** Where the match lies once its parts are known: a sheet group ending at
      `d`, a column group from `q0` to `q2`, a row group from `q2` to the end. */
  lemma MatchAtSheetGroup(s: string, d: nat)
    requires 0 < d < |s| && s[d] == '!' && forall i | 0 <= i < d :: IsDigit(s[i])
    ensures MatchAt(s, 0) == MatchColumn(s, Some(s[0..d]), d + 1)
  {
    DigitRunIs(s, 0, d);
  }

  lemma MatchColumnAt(s: string, sheet: Option<string>, q0: nat, q1: nat, q2: nat)
    requires q0 <= q1 < q2 < |s|
    requires (q1 == q0 + 1 && s[q0] == '$') || (q1 == q0 && IsUpper(s[q0]))
    requires forall i | q1 <= i < q2 :: IsUpper(s[i])
    requires !IsUpper(s[q2])
    ensures MatchColumn(s, sheet, q0) == MatchRow(s, sheet, q0, q2)
  {
    UpperRunIs(s, q1, q2);
  }

  lemma MatchRowAt(s: string, sheet: Option<string>, q0: nat, q2: nat, q3: nat)
    requires q0 < q2 <= q3 < |s|
    requires (q3 == q2 + 1 && s[q2] == '$') || (q3 == q2 && IsDigit(s[q2]))
    requires forall i | q3 <= i < |s| :: IsDigit(s[i])
    ensures MatchRow(s, sheet, q0, q2) == Some(CoordMatch(sheet, s[q0..q2], s[q2..]))
  {
    DigitRunIs(s, q3, |s|);
    assert s[q2..q3 + DigitRun(s, q3)] == s[q2..];
  }

  function Dollar(present: bool): string
  {
    if present then "$" else ""
  }

  /** The text before the column: the sheet digits and `!`, or nothing. */
  function Prefix(sheet: Option<string>): string
  {
    if sheet.Some? then sheet.value + "!" else ""
  }

  /** A text laid out as `[<digits>!]$?<LETTERS>$?<digits>` matches with
      exactly these groups. */
  lemma MatchLayout(s: string, sheet: Option<string>, x: bool, column: string, y: bool, row: string)
    requires sheet.Some? ==> |sheet.value| > 0 && AllDigits(sheet.value)
    requires |column| > 0 && AllUpper(column) && |row| > 0 && AllDigits(row)
    requires s == Prefix(sheet) + (Dollar(x) + column) + (Dollar(y) + row)
    ensures Match(s, 0) == Some(CoordMatch(sheet, Dollar(x) + column, Dollar(y) + row))
  {
    var c, w := Dollar(x) + column, Dollar(y) + row;
    var q0 := |Prefix(sheet)|;
    var q2 := q0 + |c|;
    ColumnGroupAt(Prefix(sheet), x, column, w);
    RowGroupAt(Prefix(sheet) + c, y, row);
    PrefixAt(sheet, c + w);
    assert s == Prefix(sheet) + (c + w);
    assert !IsDigit(s[q0]) by {
      if !x { assert IsUpper(s[q0]); }
    }
    MatchPositions(s, sheet, q0, q0 + |Dollar(x)|, q2, q2 + |Dollar(y)|);
  }

  /** The sheet group, when there is one, in front of any text `t`. */
  lemma PrefixAt(sheet: Option<string>, t: string)
    requires sheet.Some? ==> |sheet.value| > 0 && AllDigits(sheet.value)
    ensures var s := Prefix(sheet) + t;
      sheet.Some? ==>
        && (forall i | 0 <= i < |sheet.value| :: IsDigit(s[i]))
        && s[|sheet.value|] == '!' && s[0..|sheet.value|] == sheet.value
  {
    if sheet.Some? {
      var s := Prefix(sheet) + t;
      forall i | 0 <= i < |sheet.value|
        ensures IsDigit(s[i])
      {
        assert s[i] == sheet.value[i];
      }
      assert s[0..|sheet.value|] == sheet.value;
    }
  }

  /** The match at 0 from the positions where its groups begin and end. */
  lemma MatchPositions(s: string, sheet: Option<string>, q0: nat, q1: nat, q2: nat, q3: nat)
    requires q0 <= q1 < q2 <= q3 < |s|
    requires sheet.Some? ==> && 0 < |sheet.value| && q0 == |sheet.value| + 1 && s[q0 - 1] == '!' && s[0..q0 - 1] == sheet.value
                             && forall i | 0 <= i < q0 - 1 :: IsDigit(s[i])
    requires sheet.None? ==> q0 == 0
    requires !IsDigit(s[q0])
    requires (q1 == q0 + 1 && s[q0] == '$') || (q1 == q0 && IsUpper(s[q0]))
    requires forall i | q1 <= i < q2 :: IsUpper(s[i])
    requires (q3 == q2 + 1 && s[q2] == '$') || (q3 == q2 && IsDigit(s[q2]))
    requires forall i | q3 <= i < |s| :: IsDigit(s[i])
    ensures Match(s, 0) == Some(CoordMatch(sheet, s[q0..q2], s[q2..]))
  {
    if sheet.Some? {
      MatchAtSheetGroup(s, q0 - 1);
    }
    assert !IsUpper(s[q2]);
    MatchColumnAt(s, sheet, q0, q1, q2);
    MatchRowAt(s, sheet, q0, q2, q3);
  }

  /** The column group behind a prefix `p`, followed by `w`. */
  lemma ColumnGroupAt(p: string, x: bool, column: string, w: string)
    requires |column| > 0 && AllUpper(column) && |w| > 0 && !IsUpper(w[0])
    ensures var s := p + (Dollar(x) + column) + w; var q1 := |p| + |Dollar(x)|;
      && (x ==> s[|p|] == '$') && (!x ==> IsUpper(s[|p|]))
      && (forall i | q1 <= i < q1 + |column| :: IsUpper(s[i]))
      && !IsUpper(s[q1 + |column|])
      && s[|p|..q1 + |column|] == Dollar(x) + column && s[q1 + |column|..] == w
  {
    var s := p + (Dollar(x) + column) + w;
    var q1 := |p| + |Dollar(x)|;
    forall i | q1 <= i < q1 + |column|
      ensures IsUpper(s[i])
    {
      assert s[i] == column[i - q1];
    }
    assert s[|p|..q1 + |column|] == Dollar(x) + column;
    assert s[q1 + |column|..] == w;
  }

  /** The row group behind a prefix `p`. */
  lemma RowGroupAt(p: string, y: bool, row: string)
    requires |row| > 0 && AllDigits(row)
    ensures var s := p + (Dollar(y) + row); var q3 := |p| + |Dollar(y)|;
      && (y ==> s[|p|] == '$') && (!y ==> IsDigit(s[|p|]))
      && (forall i | q3 <= i < |s| :: IsDigit(s[i]))
      && s[|p|..] == Dollar(y) + row
  {
    var s := p + (Dollar(y) + row);
    var q3 := |p| + |Dollar(y)|;
    forall i | q3 <= i < |s|
      ensures IsDigit(s[i])
    {
      assert s[i] == row[i - q3];
    }
  }

  // ---------------------------------------------------------------------
  // Coordinate
  // ---------------------------------------------------------------------

  /** A coordinate: its sheet number, its label (column label then row
      label), its column and its row. */
  datatype Coordinate = Coordinate(sheet: int, text: string, column: Column, row: Row)

  /** `new Coordinate(col, row, sheet)`: the label is computed once. */
  function Make(column: Column, row: Row, sheet: int): (c: Coordinate)
    ensures c.column == column && c.row == row && c.sheet == sheet
    ensures c.text == column.text + row.text
  {
    Coordinate(sheet, column.text + row.text, column, row)
  }

  /** `new Coordinate(text)`: no match is an InvalidCoordError; otherwise
      the sheet is the captured number or 1, and the column and row are read
      from their groups. */
  function From(text: string): (r: Result<Coordinate>)
    ensures Match(text, 0).None? <==> r.Err?
    ensures r.Err? ==> r.error == InvalidCoordError(text)
    ensures r.Ok? ==> WellFormed(Match(text, 0).value)
    ensures r.Ok? && Match(text, 0).value.sheet.None? ==> r.value.sheet == 1
    ensures r.Ok? && Match(text, 0).value.sheet.Some? ==>
      r.value.sheet == DecimalValue(Match(text, 0).value.sheet.value)
  {
    match Match(text, 0)
    case None => Err(InvalidCoordError(text))
    case Some(m) =>
      MatchWellFormed(text, 0);
      assert AllLetters(StripLeading(m.column, '$')) by {
        assert forall i | 0 <= i < |StripLeading(m.column, '$')| :: IsUpper(StripLeading(m.column, '$')[i]);
      }
      // `Number(matched[1] || 1)`: a captured run of digits is never empty.
      var sheet := if m.sheet.Some? then DecimalValue(m.sheet.value) else 1;
      Ok(Make(ColumnOfLabel(m.column), RowOfLabel(m.row), sheet))
  }

  /** A text without a sheet part is on sheet 1; the coordinate is absolute
      exactly when both `$` are written; the row is one below its number. */
  lemma FromWithoutSheet(t: string, x: bool, column: string, y: bool, row: string)
    requires |column| > 0 && AllUpper(column) && |row| > 0 && AllDigits(row)
    requires t == (Dollar(x) + column) + (Dollar(y) + row)
    ensures var r := From(t);
      && r.Ok? && r.value.sheet == 1
      && (IsAbsolute(r.value) <==> x && y)
      && r.value.row.index == Finite(DecimalValue(row) - 1)
  {
    var c, w := Dollar(x) + column, Dollar(y) + row;
    assert Prefix(None) == [];
    assert Prefix(None) + c == c;
    assert Prefix(None) + c + w == t;
    FromOfLayout(t, None, x, column, y, row);
    GroupsRead(x, column, y, row);
  }

  /** A text laid out as the pattern wants reads as its groups say. */
  lemma FromOfLayout(t: string, sheet: Option<string>, x: bool, column: string, y: bool, row: string)
    requires sheet.Some? ==> |sheet.value| > 0 && AllDigits(sheet.value)
    requires |column| > 0 && AllUpper(column) && |row| > 0 && AllDigits(row)
    requires t == Prefix(sheet) + (Dollar(x) + column) + (Dollar(y) + row)
    ensures AllLetters(StripLeading(Dollar(x) + column, '$'))
    ensures From(t) == Ok(Make(ColumnOfLabel(Dollar(x) + column), RowOfLabel(Dollar(y) + row),
                               if sheet.Some? then DecimalValue(sheet.value) else 1))
  {
    var c, w := Dollar(x) + column, Dollar(y) + row;
    MatchLayout(t, sheet, x, column, y, row);
    ColumnGroupRead(x, column);
    FromOfMatch(t, CoordMatch(sheet, c, w));
  }

  /** The column and row read from groups with or without their `$`. */
  lemma GroupsRead(x: bool, column: string, y: bool, row: string)
    requires |column| > 0 && AllUpper(column) && |row| > 0 && AllDigits(row)
    ensures AllLetters(StripLeading(Dollar(x) + column, '$'))
    ensures ColumnOfLabel(Dollar(x) + column).abs == x
    ensures RowOfLabel(Dollar(y) + row).abs == y
    ensures RowOfLabel(Dollar(y) + row).index == Finite(DecimalValue(row) - 1)
  {
    ColumnGroupRead(x, column);
    RowGroupRead(y, row);
  }

  lemma ColumnGroupRead(x: bool, column: string)
    requires |column| > 0 && AllUpper(column)
    ensures AllLetters(StripLeading(Dollar(x) + column, '$'))
    ensures ColumnOfLabel(Dollar(x) + column).abs == x
  {
    assert IsUpper(column[0]);
    DollarGroup(x, column);
    UpperIsLetters(column);
  }

  lemma RowGroupRead(y: bool, row: string)
    requires |row| > 0 && AllDigits(row)
    ensures RowOfLabel(Dollar(y) + row).abs == y
    ensures RowOfLabel(Dollar(y) + row).index == Finite(DecimalValue(row) - 1)
  {
    assert IsDigit(row[0]);
    DollarGroup(y, row);
    assert NumberOf(row) == Finite(DecimalValue(row));
  }

  /** A coordinate built from numbers prints as text that reads back as the
      same coordinate. */
  lemma FromToString(column: int, row: int, sheet: nat)
    requires column >= 0 && row >= 0
    ensures var c := Make(ColumnOfIndex(column), RowOfIndex(Finite(row)), sheet);
      From(ToString(c)) == Ok(c)
  {
    var col, r := ColumnOfIndex(column), RowOfIndex(Finite(row));
    var c := Make(col, r, sheet);
    var letters, digits := col.text[1..], NatToDecimal(row + 1);
    var k := NatToDecimal(sheet);
    ColumnOfIndexLetters(column);
    ColumnRoundTrip(column);
    RowRoundTrip(Finite(row));
    DecimalRoundTrip(sheet);
    assert col.text == Dollar(true) + letters;
    assert r.text == Dollar(true) + digits;
    var t := ToString(c);
    assert t == Prefix(Some(k)) + col.text + r.text;
    MatchLayout(t, Some(k), true, letters, true, digits);
    FromOfMatch(t, CoordMatch(Some(k), col.text, r.text));
  }

  /** An optional `$` in front of a group is what `startsWith('$')` sees and
      what `replace(/^\$/, '')` drops. */
  lemma DollarGroup(x: bool, group: string)
    requires |group| > 0 && group[0] != '$'
    ensures StartsWith(Dollar(x) + group, "$") == x
    ensures StripLeading(Dollar(x) + group, '$') == group
  {
  }

  lemma UpperIsLetters(s: string)
    requires AllUpper(s)
    ensures AllLetters(s) && ToUpper(s) == s
  {
  }

  /** What `new Coordinate(text)` builds from a match of its pattern. */
  lemma FromOfMatch(text: string, m: CoordMatch)
    requires Match(text, 0) == Some(m) && AllLetters(StripLeading(m.column, '$'))
    ensures From(text).Ok?
    ensures From(text).value
         == Make(ColumnOfLabel(m.column), RowOfLabel(m.row), if m.sheet.Some? then DecimalValue(m.sheet.value) else 1)
  {
    MatchWellFormed(text, 0);
  }

  /** `isAbsolute()`: both the column and the row are. */
  predicate IsAbsolute(c: Coordinate)
  {
    c.column.abs && c.row.abs
  }

  /** `toString()`: the sheet number, `!` and the label. */
  function ToString(c: Coordinate): string
  {
    IntToDecimal(c.sheet) + "!" + c.text
  }

  /** `shift(deltaCol, deltaRow)`: the same sheet, both indices moved, both
      axes rebuilt from numbers and so absolute. base26 takes only positive
      numbers, so the column must stay at 0 or beyond. */
  function Shift(c: Coordinate, deltaCol: int, deltaRow: JsNumber): (r: Coordinate)
    requires c.column.index + deltaCol >= 0
    ensures r.sheet == c.sheet && IsAbsolute(r)
    ensures r.column.index == c.column.index + deltaCol
    ensures r.row.index == Plus(c.row.index, deltaRow)
  {
    Make(ColumnOfIndex(c.column.index + deltaCol), RowOfIndex(Plus(c.row.index, deltaRow)), c.sheet)
  }

  /** Two shifts in a row are one shift by the summed deltas. */
  lemma ShiftShift(c: Coordinate, dc1: int, dr1: JsNumber, dc2: int, dr2: JsNumber)
    requires c.column.index + dc1 >= 0 && c.column.index + dc1 + dc2 >= 0
    ensures Shift(Shift(c, dc1, dr1), dc2, dr2) == Shift(c, dc1 + dc2, Plus(dr1, dr2))
  {
    var a := Shift(c, dc1, dr1);
    PlusAssociates(c.row.index, dr1, dr2);
    assert a.column.index + dc2 == c.column.index + (dc1 + dc2);
    assert Plus(a.row.index, dr2) == Plus(c.row.index, Plus(dr1, dr2));
  }

  lemma PlusAssociates(a: JsNumber, b: JsNumber, c: JsNumber)
    ensures Plus(Plus(a, b), c) == Plus(a, Plus(b, c))
  {
  }

  /** Shifting by nothing keeps the indices and the sheet and makes the
      coordinate absolute; an absolute coordinate read from numbers is kept
      as it is. */
  lemma ShiftByZero(c: Coordinate)
    requires c.column.index >= 0
    ensures Shift(c, 0, Finite(0)).column.index == c.column.index
    ensures c.row.index.Finite? ==> Shift(c, 0, Finite(0)).row.index == c.row.index
    ensures c == Make(ColumnOfIndex(c.column.index), RowOfIndex(c.row.index), c.sheet)
      ==> Shift(c, 0, Finite(0)) == c
  {
    if c.row.index.Finite? {
      assert Plus(c.row.index, Finite(0)) == c.row.index;
    }
    if c == Make(ColumnOfIndex(c.column.index), RowOfIndex(c.row.index), c.sheet) {
      assert Plus(c.row.index, Finite(0)) == c.row.index;
    }
  }

  // ---------------------------------------------------------------------
  // CoordRelation
  // ---------------------------------------------------------------------

  /** A relation between a relative coordinate and the absolute pivot it was
      written for, with the offset between them. */
  datatype Relation = Relation(rel: Coordinate, pivot: Coordinate, colOffset: int, rowOffset: JsNumber)

  /** `new CoordRelation(rel, pivot)`: the pivot must be absolute. */
  function NewRelation(rel: Coordinate, pivot: Coordinate): (r: Result<Relation>)
    ensures r.Err? <==> !IsAbsolute(pivot)
    ensures r.Err? ==> r.error == TypeError("The pivot should be absolute.")
    ensures r.Ok? ==> r.value.rel == rel && r.value.pivot == pivot
    ensures r.Ok? ==> r.value.colOffset + pivot.column.index == rel.column.index
    ensures r.Ok? ==> r.value.rowOffset == Minus(rel.row.index, pivot.row.index)
  {
    if !IsAbsolute(pivot) then Err(TypeError("The pivot should be absolute."))
    else Ok(Relation(rel, pivot, rel.column.index - pivot.column.index, Minus(rel.row.index, pivot.row.index)))
  }

  /** `resolveFrom(target)`: the target must be absolute; it is shifted by the
      relation's offset. */
  function ResolveFrom(k: Relation, target: Coordinate): (r: Result<Coordinate>)
    requires IsAbsolute(target) ==> target.column.index + k.colOffset >= 0
    ensures r.Err? <==> !IsAbsolute(target)
    ensures r.Err? ==> r.error == TypeError("The target should be absolute.")
    ensures r.Ok? ==> r.value == Shift(target, k.colOffset, k.rowOffset)
  {
    if !IsAbsolute(target) then Err(TypeError("The target should be absolute."))
    else Ok(Shift(target, k.colOffset, k.rowOffset))
  }

  /** Resolving from the pivot itself lands on the relative coordinate's
      column and row, on the pivot's sheet. */
  lemma ResolveFromPivot(rel: Coordinate, pivot: Coordinate)
    requires IsAbsolute(pivot) && pivot.row.index.Finite? && rel.column.index >= 0
    ensures NewRelation(rel, pivot).Ok?
    ensures var r := ResolveFrom(NewRelation(rel, pivot).value, pivot);
      && r.Ok? && r.value.sheet == pivot.sheet
      && r.value.column.index == rel.column.index && r.value.row.index == rel.row.index
  {
    var k := NewRelation(rel, pivot).value;
    assert Plus(pivot.row.index, Minus(rel.row.index, pivot.row.index)) == rel.row.index;
  }

  /** Resolving keeps distances: two targets end up as far apart as they
      were, which is what lets one formula serve a whole shared range. */
  lemma ResolveKeepsDistance(k: Relation, t: Coordinate, u: Coordinate)
    requires IsAbsolute(t) && IsAbsolute(u)
    requires t.column.index + k.colOffset >= 0 && u.column.index + k.colOffset >= 0
    requires t.row.index.Finite? && u.row.index.Finite? && k.rowOffset.Finite?
    ensures ResolveFrom(k, t).Ok? && ResolveFrom(k, u).Ok?
    ensures ResolveFrom(k, t).value.column.index - ResolveFrom(k, u).value.column.index
         == t.column.index - u.column.index
    ensures ResolveFrom(k, t).value.row.index.value - ResolveFrom(k, u).value.row.index.value
         == t.row.index.value - u.row.index.value
  {
  }
}
