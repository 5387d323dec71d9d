/** lib/coordinate/Reference.ts, Vector.ts and Range.ts: an absolute cell
    reference, the difference of two references, and a same-sheet range. The
    three TypeScript classes import each other, so they share this module. */
module Coordinate {
  import opened Errors
  import opened Text
  import opened Scan
  import Index
  import Column
  import Row
  import Sheet
  import Axis

  // ---------------------------------------------------------------------
  // The pattern `(\d+)!\$?([a-zA-Z]+)\$?(\d+)`, leftmost match first.
  // ---------------------------------------------------------------------

  /** The three captured groups. */
  datatype RefMatch = RefMatch(sheet: string, column: string, row: string)

  predicate WellFormed(m: RefMatch)
  {
    |m.sheet| > 0 && AllDigits(m.sheet) && |m.column| > 0 && AllLetters(m.column)
    && |m.row| > 0 && AllDigits(m.row)
  }

  /** The match starting exactly at `p`. Each greedy group takes its longest
      run: giving characters back cannot help, because the character after a
      shorter run is of the same class and the pattern needs another. */
  function MatchAt(s: string, p: nat): Option<RefMatch>
    requires p <= |s|
  {
    var d := p + DigitRun(s, p);
    if d == p || d == |s| || s[d] != '!' then None
    else MatchColumn(s, p, d, if d + 1 < |s| && s[d + 1] == '$' then d + 2 else d + 1)
  }

  /** The rest of the match once `<digits>!` and an optional `$` are behind. */
  function MatchColumn(s: string, p: nat, d: nat, q1: nat): Option<RefMatch>
    requires p < d < q1 <= |s|
  {
    var q2 := q1 + LetterRun(s, q1);
    if q2 == q1 then None
    else MatchRow(s, p, d, q1, q2, if q2 < |s| && s[q2] == '$' then q2 + 1 else q2)
  }

  /** The row digits, once the letters and an optional `$` are behind. */
  function MatchRow(s: string, p: nat, d: nat, q1: nat, q2: nat, q3: nat): Option<RefMatch>
    requires p < d < q1 < q2 <= q3 <= |s|
  {
    var e := q3 + DigitRun(s, q3);
    if e == q3 then None
    else Some(RefMatch(s[p..d], s[q1..q2], s[q3..e]))
  }

  /** `s.match(pattern)` searching from `p`: the leftmost position that matches. */
  function Match(s: string, p: nat): Option<RefMatch>
    requires p <= |s|
    decreases |s| - p
  {
    var m := MatchAt(s, p);
    if m.Some? || p == |s| then m else Match(s, p + 1)
  }

  /** Every group the pattern captures is a non-empty run of its class. */
  lemma MatchAtWellFormed(s: string, p: nat)
    requires p <= |s|
    ensures MatchAt(s, p).Some? ==> WellFormed(MatchAt(s, p).value)
  {
    var d := p + DigitRun(s, p);
    DigitRunDigits(s, p);
    if d > p && d < |s| && s[d] == '!' {
      MatchColumnWellFormed(s, p, d, if d + 1 < |s| && s[d + 1] == '$' then d + 2 else d + 1);
    }
  }

  lemma MatchColumnWellFormed(s: string, p: nat, d: nat, q1: nat)
    requires p < d < q1 <= |s| && AllDigits(s[p..d])
    ensures MatchColumn(s, p, d, q1).Some? ==> WellFormed(MatchColumn(s, p, d, q1).value)
  {
    LetterRunLetters(s, q1);
    var q2 := q1 + LetterRun(s, q1);
    if q2 > q1 {
      MatchRowWellFormed(s, p, d, q1, q2, if q2 < |s| && s[q2] == '$' then q2 + 1 else q2);
    }
  }

  lemma MatchRowWellFormed(s: string, p: nat, d: nat, q1: nat, q2: nat, q3: nat)
    requires p < d < q1 < q2 <= q3 <= |s| && AllDigits(s[p..d]) && AllLetters(s[q1..q2])
    ensures MatchRow(s, p, d, q1, q2, q3).Some? ==> WellFormed(MatchRow(s, p, d, q1, q2, q3).value)
  {
    DigitRunDigits(s, q3);
  }

  /**
   * The leftmost match of the pattern is well formed. The same scan over a
   * different pattern, with different groups, is `LegacyCoordinate.MatchWellFormed`.
   */
  lemma {:induction false} MatchWellFormed(s: string, p: nat)
    requires p <= |s|
    ensures Match(s, p).Some? ==> WellFormed(Match(s, p).value)
    decreases |s| - p
  {
    MatchAtWellFormed(s, p);
    if MatchAt(s, p).None? && p < |s| {
      MatchWellFormed(s, p + 1);
    }
  }

  /** The match at `p` in terms of the positions where its parts begin and end. */
  lemma MatchAtSheet(s: string, p: nat, d: nat, q1: nat)
    requires p < d && d + 1 < |s| && s[d] == '!' && forall k | p <= k < d :: IsDigit(s[k])
    requires q1 == d + 1 || (q1 == d + 2 && s[d + 1] == '$')
    requires q1 < |s| && IsLetter(s[q1])
    ensures MatchAt(s, p) == MatchColumn(s, p, d, q1)
  {
    DigitRunIs(s, p, d);
    assert (if d + 1 < |s| && s[d + 1] == '$' then d + 2 else d + 1) == q1 by {
      if q1 == d + 1 { assert IsLetter(s[q1]); }
    }
  }

  lemma MatchColumnLetters(s: string, p: nat, d: nat, q1: nat, q2: nat, q3: nat)
    requires p < d < q1 < q2 < |s| && forall k | p <= k < d :: IsDigit(s[k])
    requires forall k | q1 <= k < q2 :: IsLetter(s[k])
    requires q3 == q2 || (q3 == q2 + 1 && s[q2] == '$')
    requires q3 < |s| && IsDigit(s[q3])
    ensures MatchColumn(s, p, d, q1) == MatchRow(s, p, d, q1, q2, q3)
  {
    assert !IsLetter(s[q2]) by {
      if q3 == q2 { assert IsDigit(s[q3]); }
    }
    LetterRunIs(s, q1, q2);
    assert (if q2 < |s| && s[q2] == '$' then q2 + 1 else q2) == q3 by {
      if q3 == q2 { assert IsDigit(s[q3]); }
    }
  }

  lemma MatchRowDigits(s: string, p: nat, d: nat, q1: nat, q2: nat, q3: nat, e: nat)
    requires p < d < q1 < q2 <= q3 < e <= |s| && forall k | p <= k < d :: IsDigit(s[k])
    requires forall k | q1 <= k < q2 :: IsLetter(s[k])
    requires forall k | q3 <= k < e :: IsDigit(s[k])
    requires e == |s| || !IsDigit(s[e])
    ensures MatchRow(s, p, d, q1, q2, q3) == Some(RefMatch(s[p..d], s[q1..q2], s[q3..e]))
  {
    DigitRunIs(s, q3, e);
  }

  /** The match at `p` in terms of the positions where its parts begin and end. */
  lemma MatchAtPositions(s: string, p: nat, d: nat, q1: nat, q2: nat, q3: nat, e: nat)
    requires p < d && d + 1 < |s| && s[d] == '!' && forall k | p <= k < d :: IsDigit(s[k])
    requires q1 == d + 1 || (q1 == d + 2 && s[d + 1] == '$')
    requires q1 < q2 < |s| && forall k | q1 <= k < q2 :: IsLetter(s[k])
    requires q3 == q2 || (q3 == q2 + 1 && s[q2] == '$')
    requires q3 < e <= |s| && forall k | q3 <= k < e :: IsDigit(s[k])
    requires e == |s| || !IsDigit(s[e])
    ensures MatchAt(s, p) == Some(RefMatch(s[p..d], s[q1..q2], s[q3..e]))
  {
    MatchAtSheet(s, p, d, q1);
    MatchColumnLetters(s, p, d, q1, q2, q3);
    MatchRowDigits(s, p, d, q1, q2, q3, e);
  }

  function Dollar(present: bool): string
  {
    if present then "$" else ""
  }

  /** A text laid out as the pattern expects, with or without each `$` and
      followed by anything that does not continue the row's digits, yields
      exactly its three parts. */
  lemma MatchParts(sheet: string, x: bool, column: string, y: bool, row: string, tail: string, text: string)
    requires |sheet| > 0 && AllDigits(sheet) && |column| > 0 && AllLetters(column)
    requires |row| > 0 && AllDigits(row)
    requires tail == [] || !IsDigit(tail[0])
    requires text == Dollar(x) + column + Dollar(y) + row
    ensures Match(sheet + "!" + text + tail, 0) == Some(RefMatch(sheet, column, row))
  {
    var s := sheet + "!" + text + tail;
    var d := |sheet|;
    var t := d + 1;
    var q1 := t + |Dollar(x)|;
    var q2 := q1 + |column|;
    var q3 := q2 + |Dollar(y)|;
    var e := q3 + |row|;
    assert s[0..d] == sheet && s[d] == '!' && s[t..t + |text|] == text && s[t + |text|..] == tail;
    Layout(s, t, x, column, y, row, tail, text);
    MatchSlices(s, sheet, column, row, d, q1, q2, q3, e);
  }

  /** Where the parts of `$?<letters>$?<digits>` sit once `text` is found at
      `t` in `s`, followed by `tail`. */
  lemma Layout(s: string, t: nat, x: bool, column: string, y: bool, row: string, tail: string, text: string)
    requires |column| > 0 && |row| > 0
    requires tail == [] || !IsDigit(tail[0])
    requires text == Dollar(x) + column + Dollar(y) + row
    requires t + |text| <= |s| && s[t..t + |text|] == text && s[t + |text|..] == tail
    ensures var q1 := t + |Dollar(x)|; var q2 := q1 + |column|; var q3 := q2 + |Dollar(y)|;
      var e := q3 + |row|;
      && e == t + |text|
      && s[q1..q2] == column && s[q3..e] == row
      && (x ==> s[t] == '$') && (y ==> s[q2] == '$')
      && (e == |s| || !IsDigit(s[e]))
  {
    var q1 := t + |Dollar(x)|;
    var q2 := q1 + |column|;
    var q3 := q2 + |Dollar(y)|;
    var e := q3 + |row|;
    var a, b, c := |Dollar(x)|, |Dollar(x)| + |column|, |Dollar(x)| + |column| + |Dollar(y)|;
    TextLayout(x, column, y, row, text);
    assert e == t + |text|;
    var u := s[t..e];
    assert u == text;
    assert s[q1..q2] == column by {
      SliceOfSlice(s, t, e, a, b);
    }
    assert s[q3..e] == row by {
      SliceOfSlice(s, t, e, c, |text|);
    }
    assert x ==> s[t] == u[0];
    assert y ==> s[q2] == u[b];
    assert e < |s| ==> s[e] == s[e..][0];
  }

  /** The match at 0 from what the slices of the text hold. */
  lemma MatchSlices(s: string, sheet: string, column: string, row: string, d: nat, q1: nat, q2: nat, q3: nat, e: nat)
    requires 0 < d && d + 1 < |s| && s[d] == '!' && s[0..d] == sheet && AllDigits(sheet)
    requires q1 == d + 1 || (q1 == d + 2 && s[d + 1] == '$')
    requires q1 < q2 < |s| && s[q1..q2] == column && AllLetters(column)
    requires q3 == q2 || (q3 == q2 + 1 && s[q2] == '$')
    requires q3 < e <= |s| && s[q3..e] == row && AllDigits(row)
    requires e == |s| || !IsDigit(s[e])
    ensures Match(s, 0) == Some(RefMatch(sheet, column, row))
  {
    DigitsAt(s, 0, d);
    LettersAt(s, q1, q2);
    DigitsAt(s, q3, e);
    MatchAtPositions(s, 0, d, q1, q2, q3, e);
  }

  /** Where the parts of `$?<letters>$?<digits>` sit. */
  lemma TextLayout(x: bool, column: string, y: bool, row: string, text: string)
    requires |column| > 0 && |row| > 0
    requires text == Dollar(x) + column + Dollar(y) + row
    ensures var a := |Dollar(x)|; var b := a + |column|; var c := b + |Dollar(y)|;
      && |text| == c + |row|
      && text[a..b] == column && text[c..] == row
      && (x ==> text[0] == '$') && (y ==> text[b] == '$')
  {
    var a := |Dollar(x)|;
    var b := a + |column|;
    var c := b + |Dollar(y)|;
    forall k | 0 <= k < |column|
      ensures text[a..b][k] == column[k]
    {
      assert text[a + k] == column[k];
    }
    forall k | 0 <= k < |row|
      ensures text[c..][k] == row[k]
    {
      assert text[c + k] == row[k];
    }
  }

  // ---------------------------------------------------------------------
  // Reference
  // ---------------------------------------------------------------------

  /** An absolute cell reference: a sheet, a column and a row. */
  datatype Reference = Reference(sheet: Sheet.Sheet, column: Column.Column, row: Row.Row)

  /** `Reference.from(label)`: the first `<digits>!<letters><digits>` in the
      text, its parts handed to `Sheet.from`, `Column.from` and `Row.from` in
      that order, each failing as it does. */
  function From(text: string): (r: Result<Reference>)
    ensures Match(text, 0).None? ==> r == Err(ValueError(InvalidReferenceLabel(text)))
    ensures Match(text, 0).Some? ==> WellFormed(Match(text, 0).value) && r == FromParts(Match(text, 0).value)
  {
    match Match(text, 0)
    case None => Err(ValueError(InvalidReferenceLabel(text)))
    case Some(m) =>
      MatchWellFormed(text, 0);
      FromParts(m)
  }

  /** The reference built from the three captured groups. */
  function FromParts(m: RefMatch): (r: Result<Reference>)
    requires WellFormed(m)
    ensures Sheet.From(m.sheet).Err? ==> r == Err(Sheet.From(m.sheet).error)
    ensures Sheet.From(m.sheet).Ok? && Row.From(m.row).Err? ==> r == Err(Row.From(m.row).error)
    ensures r.Ok? <==> Sheet.From(m.sheet).Ok? && Row.From(m.row).Ok?
    ensures r.Ok? ==>
      && Column.From(m.column).Ok?
      && r.value == Reference(Sheet.From(m.sheet).value, Column.From(m.column).value, Row.From(m.row).value)
  {
    var sheet :- Sheet.From(m.sheet);
    assert StripLeading(m.column, '$') == m.column by {
      assert IsLetter(m.column[0]);
    }
    // Column.from cannot fail on a non-empty run of letters.
    var column := Column.From(m.column).value;
    var row :- Row.From(m.row);
    Ok(Reference(sheet, column, row))
  }

  /** `equals(another)`: column, row and sheet each equal as axes. */
  predicate Equals(a: Reference, b: Reference)
  {
    && Axis.Equals(Axis.ColumnAxis(a.column), Axis.ColumnAxis(b.column))
    && Axis.Equals(Axis.RowAxis(a.row), Axis.RowAxis(b.row))
    && Axis.Equals(Axis.SheetAxis(a.sheet), Axis.SheetAxis(b.sheet))
  }

  lemma EqualsIsIdentity(a: Reference, b: Reference)
    ensures Equals(a, b) <==> a == b
  {
    Axis.EqualsIsIdentity(Axis.ColumnAxis(a.column), Axis.ColumnAxis(b.column));
    Axis.EqualsIsIdentity(Axis.RowAxis(a.row), Axis.RowAxis(b.row));
    Axis.EqualsIsIdentity(Axis.SheetAxis(a.sheet), Axis.SheetAxis(b.sheet));
  }

  /** `label`: the column label followed by the row label, e.g. `$A$1`. */
  function Label(r: Reference): (s: string)
    ensures |s| >= 4 && s[0] == '$' && IsUpper(s[1])
  {
    var c := Column.Label(r.column);
    assert IsUpper(c[1..][0]);
    c + Row.Label(r.row)
  }

  /** `toString()`: the sheet label followed by `label`. */
  function ToString(r: Reference): (s: string)
    ensures |s| >= 6
  {
    Sheet.Label(r.sheet) + Label(r)
  }

  /** Distinct references print differently: the first `!` ends the sheet
      label and the second `$` starts the row label, and within each part the
      label determines the index. So `toString()` keys identify cells. */
  lemma ToStringInjective(a: Reference, b: Reference)
    requires ToString(a) == ToString(b)
    ensures a == b
  {
    var sa, sb := Sheet.Label(a.sheet), Sheet.Label(b.sheet);
    assert forall i | 0 <= i < |sa| - 1 :: sa[i] != '!' by {
      forall i | 0 <= i < |sa| - 1 ensures sa[i] != '!' { assert IsDigit(sa[..|sa| - 1][i]); }
    }
    assert forall i | 0 <= i < |sb| - 1 :: sb[i] != '!' by {
      forall i | 0 <= i < |sb| - 1 ensures sb[i] != '!' { assert IsDigit(sb[..|sb| - 1][i]); }
    }
    SplitAfterMarker(sa, Label(a), sb, Label(b), '!');
    DecimalValueOfSheetLabel(a.sheet, b.sheet);
    LabelInjective(a, b);
  }

  /** Two texts made of a head ending at its only `c` and a tail split alike. */
  lemma SplitAfterMarker(x1: string, y1: string, x2: string, y2: string, c: char)
    requires |x1| > 0 && x1[|x1| - 1] == c && forall i | 0 <= i < |x1| - 1 :: x1[i] != c
    requires |x2| > 0 && x2[|x2| - 1] == c && forall i | 0 <= i < |x2| - 1 :: x2[i] != c
    requires x1 + y1 == x2 + y2
    ensures x1 == x2 && y1 == y2
  {
    var t := x1 + y1;
    var k := if |x1| < |x2| then |x1| - 1 else |x2| - 1;
    assert t[k] == x1[k] && t[k] == x2[k];
    assert x1 == t[..|x1|] == x2;
  }

  /** Two texts made of a head with no `c` after its first character and a
      tail starting with `c` split alike. */
  lemma SplitBeforeMarker(x1: string, y1: string, x2: string, y2: string, c: char)
    requires |x1| > 0 && |y1| > 0 && y1[0] == c && forall i | 1 <= i < |x1| :: x1[i] != c
    requires |x2| > 0 && |y2| > 0 && y2[0] == c && forall i | 1 <= i < |x2| :: x2[i] != c
    requires x1 + y1 == x2 + y2
    ensures x1 == x2 && y1 == y2
  {
    var t := x1 + y1;
    var k := if |x1| < |x2| then |x1| else |x2|;
    assert (x1 + y1)[k] == (x2 + y2)[k];
    assert x1 == t[..|x1|] == x2;
  }

  lemma DecimalValueOfSheetLabel(s: Sheet.Sheet, u: Sheet.Sheet)
    requires Sheet.Label(s) == Sheet.Label(u)
    ensures s == u
  {
    var l := Sheet.Label(s);
    assert Index.Base0(s.index) == DecimalValue(l[..|l| - 1]) == Index.Base0(u.index);
  }

  /** The label alone determines column and row. */
  lemma LabelInjective(a: Reference, b: Reference)
    requires Label(a) == Label(b)
    ensures a.column == b.column && a.row == b.row
  {
    var ca, cb := Column.Label(a.column), Column.Label(b.column);
    assert forall i | 1 <= i < |ca| :: ca[i] != '$' by {
      forall i | 1 <= i < |ca| ensures ca[i] != '$' { assert IsUpper(ca[1..][i - 1]); }
    }
    assert forall i | 1 <= i < |cb| :: cb[i] != '$' by {
      forall i | 1 <= i < |cb| ensures cb[i] != '$' { assert IsUpper(cb[1..][i - 1]); }
    }
    SplitBeforeMarker(ca, Row.Label(a.row), cb, Row.Label(b.row), '$');
    Axis.EqualsIsIdentity(Axis.ColumnAxis(a.column), Axis.ColumnAxis(b.column));
    Axis.EqualsIsIdentity(Axis.RowAxis(a.row), Axis.RowAxis(b.row));
  }

  /** The reference text the parser understands for `r`: its 1-based sheet
      number, `!`, and its label. */
  function Qualified(r: Reference): string
  {
    NatToDecimal(Index.Base1(r.sheet.index)) + "!" + Label(r)
  }

  /** The parts of a reference text, as the pattern captures them. */
  lemma QualifiedParts(sheet: string, r: Reference, tail: string)
    requires |sheet| > 0 && AllDigits(sheet)
    requires tail == [] || !IsDigit(tail[0])
    ensures Match(sheet + "!" + Label(r) + tail, 0)
         == Some(RefMatch(sheet, Column.Label(r.column)[1..], Row.Label(r.row)[1..]))
  {
    var c := Column.Label(r.column);
    var w := Row.Label(r.row);
    var letters, digits := c[1..], w[1..];
    assert AllLetters(letters) by {
      assert forall i | 0 <= i < |letters| :: IsUpper(letters[i]);
    }
    assert Label(r) == Dollar(true) + letters + Dollar(true) + digits by {
      assert c == Dollar(true) + letters && w == Dollar(true) + digits;
    }
    MatchParts(sheet, true, letters, true, digits, tail, Label(r));
  }

  /** The parts of a reference's label, without their `$`, parse back to the
      reference's column and row. */
  lemma LabelPartsParse(r: Reference)
    ensures Column.From(Column.Label(r.column)[1..]) == Ok(r.column)
    ensures Row.From(Row.Label(r.row)[1..]) == Ok(r.row)
  {
    var c := Column.Label(r.column);
    assert c == "$" + c[1..];
    Column.FromLabel(r.column);
    Column.FromIgnoresDollarAndCase(c[1..]);
    var w := Row.Label(r.row);
    assert StripLeading(w[1..], '$') == StripLeading(w, '$');
    Row.FromLabel(r.row);
  }

  /** A reference's label behind any run of digits parses as that reference
      on whatever sheet the digits name. */
  lemma FromSheetAndLabel(k: string, r: Reference, tail: string)
    requires |k| > 0 && AllDigits(k)
    requires tail == [] || !IsDigit(tail[0])
    ensures Sheet.From(k).Err? ==> From(k + "!" + Label(r) + tail) == Err(Sheet.From(k).error)
    ensures Sheet.From(k).Ok? ==> From(k + "!" + Label(r) + tail) == Ok(r.(sheet := Sheet.From(k).value))
  {
    QualifiedParts(k, r, tail);
    LabelPartsParse(r);
  }

  /** Re-parsing a reference's label behind its 1-based sheet number gives the
      reference back. */
  lemma FromQualified(r: Reference)
    ensures From(Qualified(r)) == Ok(r)
  {
    var n := Index.Base1(r.sheet.index);
    assert Sheet.Sheet(Index.Index(n - 1)) == r.sheet;
    FromNumberAndLabel(n, r);
    assert r.(sheet := r.sheet) == r;
  }

  /** `toString()` does not round-trip: it prints the 0-based sheet index, so
      the first sheet's text is rejected and any other names the sheet before. */
  lemma FromToString(r: Reference)
    ensures Index.Base0(r.sheet.index) == 0 ==> From(ToString(r)) == Err(ValueError(IndexBelowBase(0, 1)))
    ensures Index.Base0(r.sheet.index) > 0 ==>
      && From(ToString(r)).Ok?
      && Index.Base1(From(ToString(r)).value.sheet.index) == Index.Base0(r.sheet.index)
      && From(ToString(r)).value.column == r.column
      && From(ToString(r)).value.row == r.row
  {
    var k := Index.ToString(r.sheet.index);
    FromSheetAndLabel(k, r, []);
    assert ToString(r) == k + "!" + Label(r) + [];
    Sheet.FromLabel(r.sheet);
    assert StripTrailing(k, '!') == StripTrailing(Sheet.Label(r.sheet), '!');
    assert Sheet.From(k) == Sheet.From(Sheet.Label(r.sheet));
  }


  /** `$` markers are optional and ignored, and so is the column's case:
      `from("1!$A$1")` equals `from("1!a1")`. */
  lemma FromIgnoresDollars(sheet: string, column: string, row: string)
    requires |sheet| > 0 && AllDigits(sheet) && |column| > 0 && AllLetters(column)
    requires |row| > 0 && AllDigits(row)
    ensures From(sheet + "!" + ("$" + column + "$" + row)) == From(sheet + "!" + (ToLower(column) + row))
  {
    var lower := ToLower(column);
    assert AllLetters(lower) && |lower| > 0;
    var t1, t2 := sheet + "!" + ("$" + column + "$" + row), sheet + "!" + (lower + row);
    MatchParts(sheet, true, column, true, row, [], "$" + column + "$" + row);
    assert t1 + [] == t1;
    MatchParts(sheet, false, lower, false, row, [], lower + row);
    assert t2 + [] == t2;
    Column.FromIgnoresDollarAndCase(column);
    FromPartsSameColumn(RefMatch(sheet, column, row), RefMatch(sheet, lower, row));
  }

  /** Two groups whose columns parse alike build the same reference. */
  lemma FromPartsSameColumn(m: RefMatch, n: RefMatch)
    requires WellFormed(m) && WellFormed(n) && m.sheet == n.sheet && m.row == n.row
    requires Column.From(m.column) == Column.From(n.column)
    ensures FromParts(m) == FromParts(n)
  {
  }

  /** A text with no digit at all has no match and is a ValueError. */
  lemma FromWithoutDigits(text: string)
    requires forall i | 0 <= i < |text| :: !IsDigit(text[i])
    ensures From(text) == Err(ValueError(InvalidReferenceLabel(text)))
  {
    NoMatchWithoutDigits(text, 0);
  }

  lemma {:induction false} NoMatchWithoutDigits(text: string, p: nat)
    requires p <= |text| && forall i | p <= i < |text| :: !IsDigit(text[i])
    ensures Match(text, p).None?
    decreases |text| - p
  {
    if p < |text| {
      assert !IsDigit(text[p]);
      NoMatchWithoutDigits(text, p + 1);
    }
  }


  // ---------------------------------------------------------------------
  // Vector and offset
  // ---------------------------------------------------------------------

  /** A relative reference: offsets in columns and rows. */
  datatype Vector = Vector(colOffset: int, rowOffset: int)

  /** `offset(vec)` as evidently intended: the same sheet, each 0-based index
      moved by the vector. An index moved below 0 is refused, as
      `new Index(n, 0)` refuses it. */
  function Offset(r: Reference, v: Vector): (o: Result<Reference>)
    ensures o.Ok? <==> Index.Base0(r.column.index) + v.colOffset >= 0
                       && Index.Base0(r.row.index) + v.rowOffset >= 0
    ensures o.Ok? ==>
      && o.value.sheet == r.sheet
      && Index.Base0(o.value.column.index) == Index.Base0(r.column.index) + v.colOffset
      && Index.Base0(o.value.row.index) == Index.Base0(r.row.index) + v.rowOffset
  {
    var column :- Index.New(Index.Base0(r.column.index) + v.colOffset, 0);
    var row :- Index.New(Index.Base0(r.row.index) + v.rowOffset, 0);
    Ok(Reference(r.sheet, Column.Column(column), Row.Row(row)))
  }

  /** What `offset` builds as written: the moved indices are plain numbers
      where `Column` and `Row` hold an `Index`. */
  datatype PlainOffset = PlainOffset(sheet: Sheet.Sheet, column: int, row: int)

  function OffsetAsWritten(r: Reference, v: Vector): (o: PlainOffset)
    ensures o.sheet == r.sheet
    ensures o.column - v.colOffset == Index.Base0(r.column.index)
    ensures o.row - v.rowOffset == Index.Base0(r.row.index)
  {
    PlainOffset(r.sheet, Index.Base0(r.column.index) + v.colOffset, Index.Base0(r.row.index) + v.rowOffset)
  }

  /** The row label of such a reference: `base1` of a plain number is
      undefined, and the template prints it as `undefined`. */
  function PlainRowLabel(o: PlainOffset): string
  {
    "$" + "undefined"
  }

  /** As written, moving by nothing does not give the original back: the row
      label of the result is `$undefined`, never a row's `$` and digits, so
      the label comparison in `equals` fails. */
  lemma OffsetAsWrittenByZero(r: Reference)
    ensures PlainRowLabel(OffsetAsWritten(r, Vector(0, 0))) != Row.Label(r.row)
  {
    var w := Row.Label(r.row);
    assert IsDigit(w[1..][0]);
    assert !IsDigit(PlainRowLabel(OffsetAsWritten(r, Vector(0, 0)))[1]);
  }

  /** Moving by nothing gives a reference equal to the original. */
  lemma OffsetByZero(r: Reference)
    ensures Offset(r, Vector(0, 0)).Ok? && Equals(Offset(r, Vector(0, 0)).value, r)
  {
    var o := Offset(r, Vector(0, 0));
    assert o.Ok?;
    assert o.value.column == r.column && o.value.row == r.row;
    EqualsIsIdentity(o.value, r);
  }

  /** Moving by one vector and then by its opposite comes back. */
  lemma OffsetInverse(r: Reference, v: Vector)
    requires Offset(r, v).Ok?
    ensures Offset(Offset(r, v).value, Vector(-v.colOffset, -v.rowOffset)) == Ok(r)
  {
  }

  /** `Vector.from(label, pivot)`: both texts parsed (target first), their
      sheets ignored, the 0-based indices subtracted. */
  function VectorFrom(text: string, pivot: string): (v: Result<Vector>)
    ensures From(text).Err? ==> v == Err(From(text).error)
    ensures From(text).Ok? && From(pivot).Err? ==> v == Err(From(pivot).error)
    ensures v.Ok? <==> From(text).Ok? && From(pivot).Ok?
    ensures v.Ok? ==>
      && v.value.colOffset == Index.Base0(From(text).value.column.index) - Index.Base0(From(pivot).value.column.index)
      && v.value.rowOffset == Index.Base0(From(text).value.row.index) - Index.Base0(From(pivot).value.row.index)
  {
    var target :- From(text);
    var p :- From(pivot);
    Ok(Vector(Index.Base0(target.column.index) - Index.Base0(p.column.index),
              Index.Base0(target.row.index) - Index.Base0(p.row.index)))
  }

  /** The vector from a reference to itself is zero. */
  lemma VectorFromSelf(text: string)
    requires From(text).Ok?
    ensures VectorFrom(text, text) == Ok(Vector(0, 0))
  {
  }

  /** Sheets play no part: two texts naming the same cells on other sheets
      give the same vector. */
  lemma VectorIgnoresSheets(r: Reference, p: Reference, s: Sheet.Sheet, t: Sheet.Sheet)
    ensures VectorFrom(Qualified(r.(sheet := s)), Qualified(p.(sheet := t)))
         == VectorFrom(Qualified(r), Qualified(p))
  {
    var r', p' := r.(sheet := s), p.(sheet := t);
    FromQualified(r);
    FromQualified(p);
    FromQualified(r');
    FromQualified(p');
    VectorOfSameCells(Qualified(r'), Qualified(p'), Qualified(r), Qualified(p));
  }

  /** Two pairs of texts naming the same columns and rows, on whatever sheets,
      give the same vector. */
  lemma VectorOfSameCells(text: string, pivot: string, text': string, pivot': string)
    requires From(text).Ok? && From(pivot).Ok? && From(text').Ok? && From(pivot').Ok?
    requires From(text).value.column == From(text').value.column && From(text).value.row == From(text').value.row
    requires From(pivot).value.column == From(pivot').value.column && From(pivot).value.row == From(pivot').value.row
    ensures VectorFrom(text, pivot) == VectorFrom(text', pivot')
  {
    var v, w := VectorFrom(text, pivot), VectorFrom(text', pivot');
    assert v.Ok? && w.Ok?;
    assert v.value.colOffset == w.value.colOffset && v.value.rowOffset == w.value.rowOffset;
  }

  /** The vector between two reference texts is the difference of their
      0-based columns and rows. */
  lemma VectorFromQualified(r: Reference, p: Reference)
    ensures VectorFrom(Qualified(r), Qualified(p)).Ok?
    ensures VectorFrom(Qualified(r), Qualified(p)).value.colOffset
         == Index.Base0(r.column.index) - Index.Base0(p.column.index)
    ensures VectorFrom(Qualified(r), Qualified(p)).value.rowOffset
         == Index.Base0(r.row.index) - Index.Base0(p.row.index)
  {
    FromQualified(r);
    FromQualified(p);
  }

  /** Moving the pivot by the vector to the target lands on the target's
      column and row, on the pivot's sheet. */
  lemma OffsetByVectorFrom(text: string, pivot: string)
    requires VectorFrom(text, pivot).Ok?
    ensures Offset(From(pivot).value, VectorFrom(text, pivot).value).Ok?
    ensures var o := Offset(From(pivot).value, VectorFrom(text, pivot).value).value;
      o.sheet == From(pivot).value.sheet
      && o.column == From(text).value.column && o.row == From(text).value.row
  {
  }

  // ---------------------------------------------------------------------
  // Range
  // ---------------------------------------------------------------------

  datatype Range = Range(start: Reference, end: Reference)

  /** `new Range(start, end)`: refused when the two sheets are not equal. */
  function NewRange(start: Reference, end: Reference): (r: Result<Range>)
    ensures r.Ok? <==> start.sheet == end.sheet
    ensures r.Err? ==> r.error == CrossSheetRangeError
    ensures r.Ok? ==> r.value.start == start && r.value.end == end
  {
    Axis.EqualsIsIdentity(Axis.SheetAxis(start.sheet), Axis.SheetAxis(end.sheet));
    if !Axis.Equals(Axis.SheetAxis(start.sheet), Axis.SheetAxis(end.sheet)) then Err(CrossSheetRangeError)
    else Ok(Range(start, end))
  }

  /** `Range.from(start, end)`: both texts parsed, start first, then the sheet check. */
  function RangeFrom(start: string, end: string): (r: Result<Range>)
    ensures From(start).Err? ==> r == Err(From(start).error)
    ensures From(start).Ok? && From(end).Err? ==> r == Err(From(end).error)
    ensures From(start).Ok? && From(end).Ok? ==> r == NewRange(From(start).value, From(end).value)
  {
    var s :- From(start);
    var e :- From(end);
    NewRange(s, e)
  }

  /** A range across two sheets is refused, as `Range.from("1!A1", "2!A1")` is. */
  lemma RangeFromCrossSheet(n: nat, m: nat)
    requires 1 <= n && 1 <= m && n != m
    ensures RangeFrom(NatToDecimal(n) + "!A1", NatToDecimal(m) + "!A1") == Err(CrossSheetRangeError)
  {
    FromA1(n);
    FromA1(m);
  }


  /** `<n>!A1` names the first cell of sheet `n`. */
  lemma FromA1(n: nat)
    requires n >= 1
    ensures From(NatToDecimal(n) + "!A1").Ok?
    ensures Index.Base1(From(NatToDecimal(n) + "!A1").value.sheet.index) == n
  {
    var k := NatToDecimal(n);
    MatchParts(k, false, "A", false, "1", [], "A1");
    assert k + "!A1" == k + "!" + "A1" + [];
    NumberOfDecimal(n);
    assert StripTrailing(k, '!') == k;
    var m := RefMatch(k, "A", "1");
    assert Match(k + "!A1", 0) == Some(m);
    assert From(k + "!A1") == FromParts(m);
    assert Sheet.From(k).Ok? && Index.Base1(Sheet.From(k).value.index) == n;
    Row.FromOne();
    Column.FromA();
  }

  /** `label`: the start's label, `:`, and the end's column and row labels. */
  function RangeLabel(g: Range): string
  {
    Label(g.start) + ":" + Column.Label(g.end.column) + Row.Label(g.end.row)
  }

  /** Behind the start's sheet number, the range label parses as the start: the
      leftmost match ends at the `:`. */
  lemma RangeLabelStart(g: Range)
    ensures From(NatToDecimal(Index.Base1(g.start.sheet.index)) + "!" + RangeLabel(g)) == Ok(g.start)
  {
    var n := Index.Base1(g.start.sheet.index);
    var k := NatToDecimal(n);
    RangeLabelSplit(g, k);
    SheetNumber(n);
    assert Sheet.Sheet(Index.Index(n - 1)) == g.start.sheet;
    FromSheetAndLabel(k, g.start, ":" + Label(g.end));
    assert g.start.(sheet := g.start.sheet) == g.start;
  }

  /** The range label behind a sheet prefix is the start's label and a tail
      that begins with `:`. */
  lemma RangeLabelSplit(g: Range, k: string)
    ensures RangeLabel(g) == Label(g.start) + ":" + Label(g.end)
    ensures RangeLabel(g)[|Label(g.start)| + 1..] == Label(g.end)
    ensures k + "!" + RangeLabel(g) == k + "!" + Label(g.start) + (":" + Label(g.end))
  {
    var l, c, w := Label(g.start), Column.Label(g.end.column), Row.Label(g.end.row);
    Associate(l + ":", c, w);
    Associate(k + "!", l, ":" + (c + w));
  }

  lemma Associate(a: string, b: string, c: string)
    ensures a + b + c == a + (b + c)
  {
  }

  /** The part after the `:` is the end's label, so behind a sheet number it
      parses as the end on that sheet. */
  lemma RangeLabelEnd(g: Range)
    ensures From(NatToDecimal(Index.Base1(g.start.sheet.index)) + "!" + Label(g.end))
         == Ok(g.end.(sheet := g.start.sheet))
  {
    var n := Index.Base1(g.start.sheet.index);
    assert Sheet.Sheet(Index.Index(n - 1)) == g.start.sheet;
    FromNumberAndLabel(n, g.end);
  }

  /** A reference's label behind a sheet number parses as that reference on
      the numbered sheet. */
  lemma FromNumberAndLabel(n: nat, r: Reference)
    requires n >= 1
    ensures From(NatToDecimal(n) + "!" + Label(r)) == Ok(r.(sheet := Sheet.Sheet(Index.Index(n - 1))))
  {
    var k := NatToDecimal(n);
    assert k + "!" + Label(r) + [] == k + "!" + Label(r);
    SheetNumber(n);
    FromSheetAndLabel(k, r, []);
  }

  /** A sheet's 1-based number, printed, parses back to that sheet. */
  lemma SheetNumber(n: nat)
    requires n >= 1
    ensures |NatToDecimal(n)| > 0 && AllDigits(NatToDecimal(n))
    ensures Sheet.From(NatToDecimal(n)) == Ok(Sheet.Sheet(Index.Index(n - 1)))
  {
    var k := NatToDecimal(n);
    NumberOfDecimal(n);
    assert StripTrailing(k, '!') == k;
  }
}
