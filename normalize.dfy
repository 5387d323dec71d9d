/** lib/Workbook.ts, `normalizeCoords`: every cell or range reference in a
    label or formula text is rewritten as `<sheet id>!$COL$ROW`, with
    `:$COL$ROW` when it names a range. The pattern is
    `(?:'?([^']+)'?!)?\$?([a-zA-Z]+)\$?(\d+)(?::\$?([a-zA-Z]+)\$?(\d+))?`,
    applied globally; the functions below follow its backtracking order. */
module Normalize {
  import opened Errors
  import opened Text
  import opened Scan

  /** `getWorksheet(name).id`, when a sheet has that name. */
  type SheetIds = string -> Option<int>

  /** Length of the longest run of characters other than `'` from `i`. */
  function NonQuoteRun(s: string, i: nat): (n: nat)
    requires i <= |s|
    ensures i + n <= |s|
    decreases |s| - i
  {
    if i == |s| || s[i] == '\'' then 0 else 1 + NonQuoteRun(s, i + 1)
  }

  /** One corner, `\$?([a-zA-Z]+)\$?(\d+)`: its two groups and where it ends. */
  datatype Corner = Corner(column: string, row: string, end: nat)

  /** The corner at `i`. Greedy runs are the only choice that can succeed:
      fewer letters leave a letter where `$` or a digit is needed, and
      leaving out a `$` that is there leaves it where a letter or a digit is
      needed. */
  function CornerAt(s: string, i: nat): (r: Option<Corner>)
    requires i <= |s|
    ensures r.Some? ==> i + 2 <= r.value.end <= |s|
  {
    var a := if i < |s| && s[i] == '$' then i + 1 else i;
    var b := a + LetterRun(s, a);
    var c := if b < |s| && s[b] == '$' then b + 1 else b;
    var e := c + DigitRun(s, c);
    if b == a || e == c then None else Some(Corner(s[a..b], s[c..e], e))
  }

  /** One match: the sheet group if it took part, and the two corners. */
  datatype Found = Found(sheet: Option<string>, first: Corner, second: Option<Corner>)

  function EndOf(f: Found): nat
  {
    if f.second.Some? then f.second.value.end else f.first.end
  }

  /** The match from the first corner at `i` on: the `:` group is tried
      and left out when it does not match. */
  function RefAt(s: string, i: nat, sheet: Option<string>): (r: Option<Found>)
    requires i <= |s|
    ensures r.Some? <==> CornerAt(s, i).Some?
    ensures r.Some? ==> i + 2 <= EndOf(r.value) <= |s| && r.value.sheet == sheet
  {
    match CornerAt(s, i)
    case None => None
    case Some(c) =>
      var second := if c.end < |s| && s[c.end] == ':' then CornerAt(s, c.end + 1) else None;
      Some(Found(sheet, c, second))
  }

  /** The sheet group with the name `s[q..q + n]`, then shorter names: after
      the name an optional `'` (tried first) and a `!`, then a corner. */
  function SheetFrom(s: string, q: nat, n: nat): (r: Option<Found>)
    requires q + n <= |s|
    ensures r.Some? ==> q < EndOf(r.value) <= |s| && r.value.sheet.Some?
    decreases n
  {
    if n == 0 then None
    else
      var e := q + n;
      if e + 1 < |s| && s[e] == '\'' && s[e + 1] == '!' && CornerAt(s, e + 2).Some? then RefAt(s, e + 2, Some(s[q..e]))
      else if e < |s| && s[e] == '!' && CornerAt(s, e + 1).Some? then RefAt(s, e + 1, Some(s[q..e]))
      else SheetFrom(s, q, n - 1)
  }

  /** The match starting at `p`, if any: with the sheet group first (the
      name as long as possible), then without it. */
  function MatchAt(s: string, p: nat): (r: Option<Found>)
    requires p <= |s|
    ensures r.Some? ==> p < EndOf(r.value) <= |s|
  {
    var q := if p < |s| && s[p] == '\'' then p + 1 else p;
    var named := SheetFrom(s, q, NonQuoteRun(s, q));
    if named.Some? then named else RefAt(s, p, None)
  }

  /** The replacement for one match. A sheet name no worksheet has makes
      `getWorksheet(sheet)` undefined, and reading its `id` throws. */
  function Replacement(f: Found, defaultSheet: int, sheetIds: SheetIds): (r: Result<string>)
    ensures r.Err? <==> f.sheet.Some? && sheetIds(f.sheet.value).None?
    ensures r.Err? ==> r.error == TypeError("Cannot read properties of undefined (reading 'id')")
  {
    var sheet :- if f.sheet.None? then Ok(defaultSheet)
                 else if sheetIds(f.sheet.value).Some? then Ok(sheetIds(f.sheet.value).value)
                 else Err(TypeError("Cannot read properties of undefined (reading 'id')"));
    Ok(IntToDecimal(sheet) + "!" + "$" + f.first.column + "$" + f.first.row
       + (if f.second.Some? then ":" + "$" + f.second.value.column + "$" + f.second.value.row else ""))
  }

  /** `replace` from position `p`: each match is replaced and the scan goes
      on after it; other characters are kept. The first replacement that
      throws ends it. */
  function NormalizeFrom(s: string, p: nat, defaultSheet: int, sheetIds: SheetIds): (r: Result<string>)
    requires p <= |s|
    ensures r.Err? ==> r.error == TypeError("Cannot read properties of undefined (reading 'id')")
    decreases |s| - p
  {
    if p == |s| then Ok("")
    else
      match MatchAt(s, p)
      case Some(f) =>
        var head :- Replacement(f, defaultSheet, sheetIds);
        var rest :- NormalizeFrom(s, EndOf(f), defaultSheet, sheetIds);
        Ok(head + rest)
      case None =>
        var rest :- NormalizeFrom(s, p + 1, defaultSheet, sheetIds);
        Ok([s[p]] + rest)
  }

  /** `normalizeCoords(label, defaultSheet)`: the only way it fails is a sheet
      name no worksheet has, and text without a digit holds no reference. */
  function NormalizeCoords(text: string, defaultSheet: int, sheetIds: SheetIds): (r: Result<string>)
    ensures r.Err? ==> r.error == TypeError("Cannot read properties of undefined (reading 'id')")
    ensures (forall k | 0 <= k < |text| :: !IsDigit(text[k])) ==> r == Ok(text)
  {
    if forall k | 0 <= k < |text| :: !IsDigit(text[k]) then
      NoDigitsUnchanged(text, 0, defaultSheet, sheetIds);
      NormalizeFrom(text, 0, defaultSheet, sheetIds)
    else NormalizeFrom(text, 0, defaultSheet, sheetIds)
  }

  // ---------------------------------------------------------------------
  // Properties
  // ---------------------------------------------------------------------

  /** No corner can start where no digit follows. */
  lemma CornerNeedsDigit(s: string, i: nat)
    requires i <= |s| && forall k | i <= k < |s| :: !IsDigit(s[k])
    ensures CornerAt(s, i).None?
  {
  }

  lemma {:induction false} SheetFromNeedsDigit(s: string, q: nat, n: nat)
    requires q + n <= |s| && forall k | q <= k < |s| :: !IsDigit(s[k])
    ensures SheetFrom(s, q, n).None?
    decreases n
  {
    if n > 0 {
      SheetFromNeedsDigit(s, q, n - 1);
    }
  }

  /** A text without digits holds no reference and is kept as it is. */
  lemma NoDigitsUnchanged(s: string, p: nat, defaultSheet: int, sheetIds: SheetIds)
    requires p <= |s| && forall k | p <= k < |s| :: !IsDigit(s[k])
    ensures NormalizeFrom(s, p, defaultSheet, sheetIds) == Ok(s[p..])
  {
    DigitFreeOf(s, p);
    DigitFreeUnchanged(s, p, defaultSheet, sheetIds);
  }

  /** No digit from `p` on, stated one position at a time. */
  predicate DigitFree(s: string, p: nat)
    requires p <= |s|
    decreases |s| - p
  {
    p == |s| || (!IsDigit(s[p]) && DigitFree(s, p + 1))
  }

  lemma {:induction false} DigitFreeOf(s: string, p: nat)
    requires p <= |s| && forall k | p <= k < |s| :: !IsDigit(s[k])
    ensures DigitFree(s, p)
    decreases |s| - p
  {
    if p < |s| {
      DigitFreeOf(s, p + 1);
    }
  }

  lemma {:induction false} DigitFreeAll(s: string, p: nat)
    requires p <= |s| && DigitFree(s, p)
    ensures forall k | p <= k < |s| :: !IsDigit(s[k])
    decreases |s| - p
  {
    if p < |s| {
      DigitFreeAll(s, p + 1);
    }
  }

  lemma {:induction false} DigitFreeUnchanged(s: string, p: nat, defaultSheet: int, sheetIds: SheetIds)
    requires p <= |s| && DigitFree(s, p)
    ensures NormalizeFrom(s, p, defaultSheet, sheetIds) == Ok(s[p..])
    decreases |s| - p
  {
    if p < |s| {
      DigitFreeUnchanged(s, p + 1, defaultSheet, sheetIds);
      NoMatchWhereDigitFree(s, p);
      KeepSuffix(s, p, defaultSheet, sheetIds);
    } else {
      assert s[p..] == [];
    }
  }

  lemma KeepSuffix(s: string, p: nat, defaultSheet: int, sheetIds: SheetIds)
    requires p < |s| && MatchAt(s, p).None?
    requires NormalizeFrom(s, p + 1, defaultSheet, sheetIds) == Ok(s[p + 1..])
    ensures NormalizeFrom(s, p, defaultSheet, sheetIds) == Ok(s[p..])
  {
    KeepThenGoOn(s, p, s[p + 1..], defaultSheet, sheetIds);
    SuffixCons(s, p);
  }

  lemma SuffixCons(s: string, p: nat)
    requires p < |s|
    ensures s[p..] == [s[p]] + s[p + 1..]
  {
  }

  lemma NoMatchWhereDigitFree(s: string, p: nat)
    requires p < |s| && DigitFree(s, p)
    ensures MatchAt(s, p).None?
  {
    DigitFreeAll(s, p);
    NoMatchWithoutDigits(s, p);
  }

  /** Nothing matches where no digit follows. */
  lemma NoMatchWithoutDigits(s: string, p: nat)
    requires p < |s| && forall k | p <= k < |s| :: !IsDigit(s[k])
    ensures MatchAt(s, p).None?
  {
    var q := if s[p] == '\'' then p + 1 else p;
    SheetFromNeedsDigit(s, q, NonQuoteRun(s, q));
    CornerNeedsDigit(s, p);
  }

  /** Where nothing matches, the character is kept and the scan goes on
      after it. */
  lemma KeepThenGoOn(s: string, p: nat, rest: string, defaultSheet: int, sheetIds: SheetIds)
    requires p < |s| && MatchAt(s, p).None?
    requires NormalizeFrom(s, p + 1, defaultSheet, sheetIds) == Ok(rest)
    ensures NormalizeFrom(s, p, defaultSheet, sheetIds) == Ok([s[p]] + rest)
  {
  }

  /** The shape of one corner at `i`: an optional `$`, the letters `s[a..b]`,
      an optional `$` and the digits `s[c..e]`, not followed by a digit. */
  predicate CornerShape(s: string, i: nat, a: nat, b: nat, c: nat, e: nat)
  {
    && i <= a <= i + 1 && a < b && b <= c <= b + 1 && c < e <= |s|
    && (a == i + 1 <==> s[i] == '$')
    && (c == b + 1 <==> s[b] == '$')
    && (forall k | a <= k < b :: IsLetter(s[k]))
    && (forall k | c <= k < e :: IsDigit(s[k]))
    && (e == |s| || !IsDigit(s[e]))
  }

  lemma CornerAtShape(s: string, i: nat, a: nat, b: nat, c: nat, e: nat)
    requires CornerShape(s, i, a, b, c, e)
    ensures CornerAt(s, i) == Some(Corner(s[a..b], s[c..e], e))
  {
    LetterRunIs(s, a, b);
    DigitRunIs(s, c, e);
  }

  /** Sheet names longer than `m` are passed over when no `!` follows them. */
  lemma {:induction false} SheetFromSkips(s: string, q: nat, n: nat, m: nat)
    requires m <= n && q + n <= |s|
    requires forall k | q + m < k <= q + n && k < |s| :: s[k] != '!' && s[k] != '\''
    ensures SheetFrom(s, q, n) == SheetFrom(s, q, m)
    decreases n
  {
    if n > m {
      SheetFromSkips(s, q, n - 1, m);
    }
  }

  lemma {:induction false} NonQuoteRunIs(s: string, i: nat, j: nat)
    requires i <= j <= |s| && forall k | i <= k < j :: s[k] != '\''
    requires j == |s| || s[j] == '\''
    ensures NonQuoteRun(s, i) == j - i
    decreases j - i
  {
    if i < j {
      NonQuoteRunIs(s, i + 1, j);
    }
  }

  /** No `!` and no `'` at the positions after `i`. */
  predicate Unqualified(s: string, i: nat)
  {
    forall k | i < k < |s| :: s[k] != '!' && s[k] != '\''
  }

  /** What follows a match and is kept: no digit, so no further match. */
  predicate PlainTail(s: string, e: nat)
  {
    e <= |s| && (e == |s| || s[e] != ':') && forall k | e <= k < |s| :: !IsDigit(s[k])
  }

  /** The text after the last match is copied. */
  lemma TailKept(s: string, e: nat, defaultSheet: int, sheetIds: SheetIds)
    requires PlainTail(s, e)
    ensures NormalizeFrom(s, e, defaultSheet, sheetIds) == Ok(s[e..])
  {
    NoDigitsUnchanged(s, e, defaultSheet, sheetIds);
  }

  /** A match at `p` is replaced and the scan goes on after it. */
  lemma ReplaceThenGoOn(s: string, p: nat, f: Found, head: string, rest: string, defaultSheet: int, sheetIds: SheetIds)
    requires p < |s| && MatchAt(s, p) == Some(f)
    requires Replacement(f, defaultSheet, sheetIds) == Ok(head)
    requires NormalizeFrom(s, EndOf(f), defaultSheet, sheetIds) == Ok(rest)
    ensures NormalizeFrom(s, p, defaultSheet, sheetIds) == Ok(head + rest)
  {
  }

  /** A match whose replacement throws ends the scan with that error. */
  lemma ReplaceThrows(s: string, p: nat, f: Found, e: Error, defaultSheet: int, sheetIds: SheetIds)
    requires p < |s| && MatchAt(s, p) == Some(f)
    requires Replacement(f, defaultSheet, sheetIds) == Err(e)
    ensures NormalizeFrom(s, p, defaultSheet, sheetIds) == Err(e)
  {
  }

  /** The replacement of a one-corner match. */
  lemma ReplacementOfCorner(f: Found, sheet: int, defaultSheet: int, sheetIds: SheetIds)
    requires f.second.None?
    requires if f.sheet.None? then sheet == defaultSheet else sheetIds(f.sheet.value) == Some(sheet)
    ensures Replacement(f, defaultSheet, sheetIds) == Ok(IntToDecimal(sheet) + "!" + "$" + f.first.column + "$" + f.first.row)
  {
    var t := IntToDecimal(sheet) + "!" + "$" + f.first.column + "$" + f.first.row;
    assert t + "" == t;
  }

  /** Without a quote or `!` after the start, no sheet group can match. */
  lemma UnqualifiedMatch(s: string)
    requires 0 < |s| && s[0] != '\'' && Unqualified(s, 0)
    ensures MatchAt(s, 0) == RefAt(s, 0, None)
  {
    NonQuoteRunIs(s, 0, |s|);
    SheetFromSkips(s, 0, |s|, 0);
  }

  /** A reference without a sheet gets the default sheet, and `$` before
      both parts; the column's case is kept. */
  lemma SingleReference(s: string, a: nat, b: nat, c: nat, e: nat, defaultSheet: int, sheetIds: SheetIds)
    requires CornerShape(s, 0, a, b, c, e) && s[0] != '\'' && Unqualified(s, 0) && PlainTail(s, e)
    ensures NormalizeCoords(s, defaultSheet, sheetIds)
         == Ok(IntToDecimal(defaultSheet) + "!" + "$" + s[a..b] + "$" + s[c..e] + s[e..])
  {
    UnqualifiedMatch(s);
    CornerAtShape(s, 0, a, b, c, e);
    var f := Found(None, Corner(s[a..b], s[c..e], e), None);
    assert MatchAt(s, 0) == Some(f);
    ReplacementOfCorner(f, defaultSheet, defaultSheet, sheetIds);
    TailKept(s, e, defaultSheet, sheetIds);
    ReplaceThenGoOn(s, 0, f, IntToDecimal(defaultSheet) + "!" + "$" + s[a..b] + "$" + s[c..e], s[e..], defaultSheet, sheetIds);
  }

  /** The replacement of a two-corner match. */
  lemma ReplacementOfRange(f: Found, sheet: int, defaultSheet: int, sheetIds: SheetIds)
    requires f.second.Some?
    requires if f.sheet.None? then sheet == defaultSheet else sheetIds(f.sheet.value) == Some(sheet)
    ensures Replacement(f, defaultSheet, sheetIds)
         == Ok(IntToDecimal(sheet) + "!" + "$" + f.first.column + "$" + f.first.row
               + ":" + "$" + f.second.value.column + "$" + f.second.value.row)
  {
    var head := IntToDecimal(sheet) + "!" + "$" + f.first.column + "$" + f.first.row;
    var two := f.second.value;
    assert head + (":" + "$" + two.column + "$" + two.row) == head + ":" + "$" + two.column + "$" + two.row;
  }

  /** Without a sheet, two corners joined by `:` are one match. */
  lemma RangeMatch(s: string, a: nat, b: nat, c: nat, e: nat, a2: nat, b2: nat, c2: nat, e2: nat)
    requires CornerShape(s, 0, a, b, c, e) && e < |s| && s[e] == ':' && CornerShape(s, e + 1, a2, b2, c2, e2)
    requires s[0] != '\'' && Unqualified(s, 0)
    ensures MatchAt(s, 0) == Some(Found(None, Corner(s[a..b], s[c..e], e), Some(Corner(s[a2..b2], s[c2..e2], e2))))
  {
    CornerAtShape(s, 0, a, b, c, e);
    CornerAtShape(s, e + 1, a2, b2, c2, e2);
    MatchOfRange(s, Corner(s[a..b], s[c..e], e), Corner(s[a2..b2], s[c2..e2], e2));
  }

  /** A corner at the start followed by `:` and a second corner is a range. */
  lemma MatchOfRange(s: string, first: Corner, second: Corner)
    requires 0 < |s| && s[0] != '\'' && Unqualified(s, 0) && CornerAt(s, 0) == Some(first)
    requires first.end < |s| && s[first.end] == ':' && CornerAt(s, first.end + 1) == Some(second)
    ensures MatchAt(s, 0) == Some(Found(None, first, Some(second)))
  {
    UnqualifiedMatch(s);
  }

  /** A range `A1:B2` without a sheet: both corners are rewritten, and the
      sheet goes in front of the first only. */
  lemma RangeReference(s: string, a: nat, b: nat, c: nat, e: nat, a2: nat, b2: nat, c2: nat, e2: nat,
                       defaultSheet: int, sheetIds: SheetIds)
    requires CornerShape(s, 0, a, b, c, e) && e < |s| && s[e] == ':' && CornerShape(s, e + 1, a2, b2, c2, e2)
    requires s[0] != '\'' && Unqualified(s, 0) && PlainTail(s, e2)
    ensures NormalizeCoords(s, defaultSheet, sheetIds)
         == Ok(IntToDecimal(defaultSheet) + "!" + "$" + s[a..b] + "$" + s[c..e]
               + ":" + "$" + s[a2..b2] + "$" + s[c2..e2] + s[e2..])
  {
    RangeMatch(s, a, b, c, e, a2, b2, c2, e2);
    var f := Found(None, Corner(s[a..b], s[c..e], e), Some(Corner(s[a2..b2], s[c2..e2], e2)));
    ReplacementOfRange(f, defaultSheet, defaultSheet, sheetIds);
    TailKept(s, e2, defaultSheet, sheetIds);
    ReplaceThenGoOn(s, 0, f, IntToDecimal(defaultSheet) + "!" + "$" + s[a..b] + "$" + s[c..e]
                             + ":" + "$" + s[a2..b2] + "$" + s[c2..e2], s[e2..], defaultSheet, sheetIds);
  }

  /** The unquoted sheet group takes all of `s[..m]` when the only `!` is at `m`. */
  lemma NamedMatch(s: string, m: nat, a: nat, b: nat, c: nat, e: nat)
    requires 0 < m && m + 1 < |s| && s[m] == '!' && CornerShape(s, m + 1, a, b, c, e)
    requires forall k | 0 <= k < m :: s[k] != '\''
    requires Unqualified(s, m) && PlainTail(s, e)
    ensures MatchAt(s, 0) == Some(Found(Some(s[..m]), Corner(s[a..b], s[c..e], e), None))
  {
    NonQuoteRunIs(s, 0, |s|);
    SheetFromSkips(s, 0, |s|, m);
    CornerAtShape(s, m + 1, a, b, c, e);
  }

  /** An unquoted sheet name takes everything before the `!`, whatever it
      is: the name group is `[^']+` and greedy, so text in front of a name
      such as `SUM(` becomes part of it. The name is looked up among the
      worksheets, and a name no worksheet has throws. */
  lemma NamedSheet(s: string, m: nat, a: nat, b: nat, c: nat, e: nat, defaultSheet: int, sheetIds: SheetIds)
    requires 0 < m && m + 1 < |s| && s[m] == '!' && CornerShape(s, m + 1, a, b, c, e)
    requires forall k | 0 <= k < m :: s[k] != '\''
    requires Unqualified(s, m) && PlainTail(s, e)
    ensures sheetIds(s[..m]).None? ==>
              NormalizeCoords(s, defaultSheet, sheetIds) == Err(TypeError("Cannot read properties of undefined (reading 'id')"))
    ensures sheetIds(s[..m]).Some? ==>
              NormalizeCoords(s, defaultSheet, sheetIds)
              == Ok(IntToDecimal(sheetIds(s[..m]).value) + "!" + "$" + s[a..b] + "$" + s[c..e] + s[e..])
  {
    NamedMatch(s, m, a, b, c, e);
    var f := Found(Some(s[..m]), Corner(s[a..b], s[c..e], e), None);
    if sheetIds(s[..m]).None? {
      ReplaceThrows(s, 0, f, TypeError("Cannot read properties of undefined (reading 'id')"), defaultSheet, sheetIds);
    } else {
      var id := sheetIds(s[..m]).value;
      ReplacementOfCorner(f, id, defaultSheet, sheetIds);
      TailKept(s, e, defaultSheet, sheetIds);
      ReplaceThenGoOn(s, 0, f, IntToDecimal(id) + "!" + "$" + s[a..b] + "$" + s[c..e], s[e..], defaultSheet, sheetIds);
    }
  }

  /** The quoted sheet group takes the text between the quotes. */
  lemma QuotedMatch(s: string, m: nat, a: nat, b: nat, c: nat, e: nat)
    requires 1 < m && m + 2 < |s| && s[0] == '\'' && s[m] == '\'' && s[m + 1] == '!'
    requires forall k | 1 <= k < m :: s[k] != '\''
    requires CornerShape(s, m + 2, a, b, c, e) && (e == |s| || s[e] != ':')
    ensures MatchAt(s, 0) == Some(Found(Some(s[1..m]), Corner(s[a..b], s[c..e], e), None))
  {
    NonQuoteRunIs(s, 1, m);
    CornerAtShape(s, m + 2, a, b, c, e);
  }

  /** A quoted sheet name, `'My sheet'!A1`, is the text between the quotes. */
  lemma QuotedSheet(s: string, m: nat, a: nat, b: nat, c: nat, e: nat, defaultSheet: int, sheetIds: SheetIds)
    requires 1 < m && m + 2 < |s| && s[0] == '\'' && s[m] == '\'' && s[m + 1] == '!'
    requires forall k | 1 <= k < m :: s[k] != '\''
    requires CornerShape(s, m + 2, a, b, c, e) && PlainTail(s, e)
    ensures sheetIds(s[1..m]).None? ==>
              NormalizeCoords(s, defaultSheet, sheetIds) == Err(TypeError("Cannot read properties of undefined (reading 'id')"))
    ensures sheetIds(s[1..m]).Some? ==>
              NormalizeCoords(s, defaultSheet, sheetIds)
              == Ok(IntToDecimal(sheetIds(s[1..m]).value) + "!" + "$" + s[a..b] + "$" + s[c..e] + s[e..])
  {
    QuotedMatch(s, m, a, b, c, e);
    var f := Found(Some(s[1..m]), Corner(s[a..b], s[c..e], e), None);
    if sheetIds(s[1..m]).None? {
      ReplaceThrows(s, 0, f, TypeError("Cannot read properties of undefined (reading 'id')"), defaultSheet, sheetIds);
    } else {
      var id := sheetIds(s[1..m]).value;
      ReplacementOfCorner(f, id, defaultSheet, sheetIds);
      TailKept(s, e, defaultSheet, sheetIds);
      ReplaceThenGoOn(s, 0, f, IntToDecimal(id) + "!" + "$" + s[a..b] + "$" + s[c..e], s[e..], defaultSheet, sheetIds);
    }
  }

  /** `Sheet1!A1` inside a call: the sheet group swallows the `SUM(` in front
      of the name and looks up a sheet called `SUM(Sheet1`. */
  lemma SheetSwallowsCall(s: string, defaultSheet: int, sheetIds: SheetIds)
    requires s == "SUM(Sheet1!A1)"
    ensures sheetIds("SUM(Sheet1").None? ==>
              NormalizeCoords(s, defaultSheet, sheetIds) == Err(TypeError("Cannot read properties of undefined (reading 'id')"))
    ensures sheetIds("SUM(Sheet1").Some? ==>
              NormalizeCoords(s, defaultSheet, sheetIds)
              == Ok(IntToDecimal(sheetIds("SUM(Sheet1").value) + "!" + "$" + "A" + "$" + "1" + ")")
  {
    SwallowedPieces(s);
    NamedSheet(s, 10, 11, 12, 12, 13, defaultSheet, sheetIds);
  }

  lemma SwallowedPieces(s: string)
    requires s == "SUM(Sheet1!A1)"
    ensures CornerShape(s, 11, 11, 12, 12, 13) && PlainTail(s, 13) && Unqualified(s, 10)
    ensures s[..10] == "SUM(Sheet1" && s[11..12] == "A" && s[12..13] == "1" && s[13..] == ")"
    ensures forall k | 0 <= k < 10 :: s[k] != '\''
  {
  }
}
