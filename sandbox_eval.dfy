/** lib/sandbox/eval-formula.ts: the function that evaluates one exported
    formula. It copies the shared context (the module-level `context`, which
    holds the export's cells when `wrapFunc` evaluates the function's text in
    a scope that declares them), overrides the entries named by the
    arguments, and asks hot-formula-parser for the entry cell's formula; its
    own pieces are a column-letter printer, a range expander and the order in
    which errors are reported. */
module SandboxEval {
  import opened Errors
  import opened Text
  import opened Values
  import opened FormulaParser
  import Base26
  import Column
  import Index

  // ---------------------------------------------------------------------
  // toBase26
  // ---------------------------------------------------------------------

  /** `String.fromCharCode(d + 97)` for one digit. */
  function LetterOf(d: nat): (c: char)
    requires d < 26
    ensures IsLower(c) && c as int - 'a' as int == d
  {
    (97 + d) as char
  }

  /** What `toBase26(decimal)` returns: the digits of `decimal` in base 26,
      most significant first, written with 'a' as the digit zero. */
  function Letters(decimal: nat): (r: string)
    ensures |r| >= 1 && AllLower(r)
    decreases decimal
  {
    if decimal / 26 == 0 then [LetterOf(decimal % 26)]
    else Letters(decimal / 26) + [LetterOf(decimal % 26)]
  }

  /** The number a string of lower-case letters stands for, 'a' being zero. */
  function ValueOf(s: string): nat
    requires AllLower(s)
    decreases |s|
  {
    if s == [] then 0 else 26 * ValueOf(s[..|s| - 1]) + (s[|s| - 1] as int - 'a' as int)
  }

  /** `toBase26`: the loop takes off the lowest digit until the quotient is
      zero, always writing at least one letter. Negative inputs are not
      accepted: for them the source's loop never ends. */
  method ToBase26(decimal: nat) returns (out: string)
    ensures out == Letters(decimal)
  {
    out := "";
    var rest := decimal;
    while true
      invariant Letters(rest) + out == Letters(decimal)
      decreases rest
    {
      var digit := [LetterOf(rest % 26)];
      assert Letters(rest) == (if rest / 26 == 0 then [] else Letters(rest / 26)) + digit;
      out := digit + out;
      rest := rest / 26;
      if rest == 0 {
        assert out == Letters(decimal);
        break;
      }
    }
  }

  /** Reading the letters back gives the number: the printing loses nothing. */
  lemma {:induction false} LettersRoundTrip(decimal: nat)
    ensures ValueOf(Letters(decimal)) == decimal
    decreases decimal
  {
    var r := Letters(decimal);
    if decimal / 26 != 0 {
      LettersRoundTrip(decimal / 26);
      assert r[..|r| - 1] == Letters(decimal / 26);
    } else {
      assert r[..|r| - 1] == [];
    }
  }

  /** Different numbers print differently. */
  lemma LettersInjective(m: nat, n: nat)
    requires Letters(m) == Letters(n)
    ensures m == n
  {
    LettersRoundTrip(m);
    LettersRoundTrip(n);
  }

  /** Only zero starts with the zero digit 'a': there are no leading zeros. */
  lemma {:induction false} LettersNoLeadingZero(decimal: nat)
    ensures Letters(decimal)[0] == 'a' <==> decimal == 0
    decreases decimal
  {
    if decimal / 26 != 0 {
      LettersNoLeadingZero(decimal / 26);
    }
  }

  /** Below 26 a number is one letter, and that letter is the one the
      bijective base26 package prints for the 1-based number. */
  lemma SingleLetter(decimal: nat)
    requires decimal < 26
    ensures Letters(decimal) == [LetterOf(decimal)] == Base26.To(decimal + 1)
  {
  }

  /** Because 'a' is zero, 26 prints as "ba", where the bijective base26
      package prints the 1-based 27 as "aa". */
  lemma TwentySixIsBa()
    ensures Letters(26) == "ba"
    ensures Base26.To(27) == "aa"
  {
    assert Letters(1) == "b";
    assert Base26.To(1) == "a";
  }

  // ---------------------------------------------------------------------
  // parseRange
  // ---------------------------------------------------------------------

  /** `${sheet}` for the parser's sheet, which is undefined when the formula
      named none. */
  function SheetText(sheet: Option<string>): string
  {
    if sheet.Some? then sheet.value else "undefined"
  }

  /** The label `parseRange` writes for column `x` and row `y` (both
      0-based): absolute, with the column in upper-case letters. */
  function RangeLabel(sheet: string, x: nat, y: nat): string
  {
    sheet + "!" + "$" + ToUpper(Letters(x)) + "$" + NatToDecimal(y + 1)
  }

  /** How many indices run from `lo` to `hi`, both included. */
  function Span(lo: nat, hi: nat): nat
  {
    if hi < lo then 0 else hi - lo + 1
  }

  /** `parseRange(start, end)`: one row of labels per row index from start to
      end, each with one label per column index from start to end, in
      row-major order; empty when start is past end. */
  method ParseRange(start: ParserReference, end: ParserReference) returns (rety: seq<seq<string>>)
    ensures |rety| == Span(start.row.index, end.row.index)
    ensures forall j | 0 <= j < |rety| :: |rety[j]| == Span(start.column.index, end.column.index)
    ensures forall j, i | 0 <= j < |rety| && 0 <= i < |rety[j]|
              :: rety[j][i] == RangeLabel(SheetText(start.sheet), start.column.index + i, start.row.index + j)
  {
    var sheet := SheetText(start.sheet);
    var x0, y0 := start.column.index, start.row.index;
    var width := Span(x0, end.column.index);
    rety := [];
    var y := y0;
    while y <= end.row.index
      invariant y0 <= y && |rety| == y - y0
      invariant y <= end.row.index + 1 || y == y0
      invariant forall j | 0 <= j < |rety| :: |rety[j]| == width
      invariant forall j, i | 0 <= j < |rety| && 0 <= i < |rety[j]| :: rety[j][i] == RangeLabel(sheet, x0 + i, y0 + j)
    {
      var retx := [];
      var x := x0;
      while x <= end.column.index
        invariant x0 <= x && |retx| == x - x0
        invariant x <= end.column.index + 1 || x == x0
        invariant forall i | 0 <= i < |retx| :: retx[i] == RangeLabel(sheet, x0 + i, y)
      {
        var letters := ToBase26(x);
        retx := retx + [sheet + "!" + "$" + ToUpper(letters) + "$" + NatToDecimal(y + 1)];
        x := x + 1;
      }
      rety := rety + [retx];
      y := y + 1;
    }
  }

  /** A label of a column below 26 names that column when read back the way
      Column.from reads it. */
  lemma RangeColumnReadsBack(x: nat)
    requires x < 26
    ensures Column.From(ToUpper(Letters(x))).Ok?
    ensures Index.Base0(Column.From(ToUpper(Letters(x))).value.index) == x
  {
    SingleLetter(x);
    var t := ToUpper(Letters(x));
    assert StripLeading(t, '$') == t;
    assert Column.Letters(t) == Letters(x);
    Base26.FromTo(x + 1);
  }

  /** Column 26 is written "BA", which Column.from reads as column 52. */
  lemma RangeColumnTwentySix()
    ensures Column.From(ToUpper(Letters(26))).Ok?
    ensures Index.Base0(Column.From(ToUpper(Letters(26))).value.index) == 52
  {
    TwentySixIsBa();
    var t := ToUpper(Letters(26));
    assert t == "BA";
    assert StripLeading(t, '$') == t;
    assert Column.Letters(t) == "ba";
    assert Base26.From("ba") == 26 * Base26.From("b") + 1;
    assert Base26.From("b") == 2 by {
      assert "b"[..0] == [];
    }
  }

  /** The letters `toBase26` evidently means to print for a 0-based column:
      those of the bijective base26 package it cites, for the 1-based number. */
  function IntendedLetters(decimal: nat): (r: string)
    ensures |r| >= 1 && AllLower(r)
    ensures Base26.From(r) == decimal + 1
  {
    Base26.FromTo(decimal + 1);
    Base26.To(decimal + 1)
  }

  /** The intended letters agree with the printed ones below 26 only. */
  lemma IntendedLettersBelowTwentySix(decimal: nat)
    ensures decimal < 26 ==> IntendedLetters(decimal) == Letters(decimal)
    ensures decimal == 26 ==> IntendedLetters(decimal) != Letters(decimal)
  {
    if decimal < 26 {
      SingleLetter(decimal);
    } else if decimal == 26 {
      TwentySixIsBa();
    }
  }

  /** Every column's intended label reads back, through Column.from, as that
      column. */
  lemma IntendedColumnReadsBack(x: nat)
    ensures Column.From(ToUpper(IntendedLetters(x))).Ok?
    ensures Index.Base0(Column.From(ToUpper(IntendedLetters(x))).value.index) == x
  {
    var letters := IntendedLetters(x);
    var t := ToUpper(letters);
    LowerOfUpper(letters);
    assert t[0] != '$' by {
      assert IsUpper(t[0]);
    }
    assert StripLeading(t, '$') == t;
    assert Column.Letters(t) == letters;
  }

  // ---------------------------------------------------------------------
  // The override of the context
  // ---------------------------------------------------------------------

  /** The value argument `i` puts under `key`: the argument itself, or the
      shared context's value when the argument is undefined or missing. */
  function ArgValue(context: map<string, Value>, evalArgs: seq<Value>, i: nat, key: string): Value
  {
    if i < |evalArgs| && !evalArgs[i].Undefined? then evalArgs[i] else Get(context, key)
  }

  /** The local context after the first `n` arguments were applied to a copy
      of `context`. */
  function Overridden(context: map<string, Value>, args: seq<string>, evalArgs: seq<Value>, n: nat): map<string, Value>
    requires n <= |args|
  {
    if n == 0 then context
    else Overridden(context, args, evalArgs, n - 1)[args[n - 1] := ArgValue(context, evalArgs, n - 1, args[n - 1])]
  }

  /** The local context for `args`, which is used only when it is an array. */
  function Overrides(context: map<string, Value>, args: Option<seq<string>>, evalArgs: seq<Value>): map<string, Value>
  {
    if args.Some? then Overridden(context, args.value, evalArgs, |args.value|) else context
  }

  /** The `forEach` over `args` on the copy `localContext`. */
  method Override(context: map<string, Value>, args: Option<seq<string>>, evalArgs: seq<Value>)
    returns (localContext: map<string, Value>)
    ensures localContext == Overrides(context, args, evalArgs)
  {
    localContext := context;
    if args.Some? {
      for i := 0 to |args.value|
        invariant localContext == Overridden(context, args.value, evalArgs, i)
      {
        var arg := args.value[i];
        localContext := localContext[arg := if i < |evalArgs| && !evalArgs[i].Undefined? then evalArgs[i] else Get(context, arg)];
      }
    }
  }

  /** `i` is the last of the first `n` arguments that names `key`. */
  predicate LastAt(args: seq<string>, n: nat, i: nat, key: string)
    requires n <= |args|
  {
    i < n && args[i] == key && forall j | i < j < n :: args[j] != key
  }

  /** A key named by the arguments holds what its last naming argument gives:
      that argument, or the shared context's value when it is undefined. */
  lemma {:induction false} OverriddenLast(context: map<string, Value>, args: seq<string>, evalArgs: seq<Value>,
                                          n: nat, i: nat, key: string)
    requires n <= |args| && LastAt(args, n, i, key)
    ensures key in Overridden(context, args, evalArgs, n)
    ensures Overridden(context, args, evalArgs, n)[key]
         == if i < |evalArgs| && !evalArgs[i].Undefined? then evalArgs[i] else Get(context, key)
  {
    if i < n - 1 {
      OverriddenLast(context, args, evalArgs, n - 1, i, key);
    }
  }

  /** A key no argument names keeps the shared context's entry, or stays
      absent. */
  lemma {:induction false} OverriddenUnlisted(context: map<string, Value>, args: seq<string>, evalArgs: seq<Value>,
                                              n: nat, key: string)
    requires n <= |args| && forall j | 0 <= j < n :: args[j] != key
    ensures key in Overridden(context, args, evalArgs, n) <==> key in context
    ensures key in context ==> Overridden(context, args, evalArgs, n)[key] == context[key]
  {
    if n > 0 {
      OverriddenUnlisted(context, args, evalArgs, n - 1, key);
    }
  }

  /** The keys of the local context: the shared ones and the named ones. */
  lemma {:induction false} OverriddenKeys(context: map<string, Value>, args: seq<string>, evalArgs: seq<Value>, n: nat)
    requires n <= |args|
    ensures Overridden(context, args, evalArgs, n).Keys == context.Keys + set j | 0 <= j < n :: args[j]
  {
    if n > 0 {
      OverriddenKeys(context, args, evalArgs, n - 1);
      assert (set j | 0 <= j < n :: args[j]) == (set j | 0 <= j < n - 1 :: args[j]) + {args[n - 1]};
    }
  }

  // ---------------------------------------------------------------------
  // evalFormula
  // ---------------------------------------------------------------------

  /** What one `parser.parse` of the entry's formula yields: the errors its
      cell and range handlers collected while it ran, in order, and the
      parser's own `{error, result}`. */
  datatype Parsed = Parsed(handlerErrors: seq<Error>, error: Value, result: Value)

  /** hot-formula-parser, given the local context its handlers read. */
  type Parse = (map<string, Value>, string) -> Parsed

  /** `${localContext[entry]}` without one leading `=`. */
  function EntryText(localContext: map<string, Value>, entry: Value): string
  {
    StripLeading(StringOf(Get(localContext, StringOf(entry))), '=')
  }

  /** `evalFormula(entry, args, ...evalArgs)`. A falsy entry is refused
      whatever the parser would say; otherwise the first error a handler
      collected wins over the parser's own error, which is rethrown as a
      FormulaError carrying its message; without either, the result. */
  method EvalFormula(entry: Value, args: Option<seq<string>>, evalArgs: seq<Value>,
                     context: map<string, Value>, parse: Parse)
    returns (r: Result<Value>)
    ensures !Truthy(entry) ==> r == Err(EntryError)
    ensures Truthy(entry) ==>
              var localContext := Overrides(context, args, evalArgs);
              var p := parse(localContext, EntryText(localContext, entry));
              if |p.handlerErrors| > 0 then r == Err(p.handlerErrors[0])
              else if Truthy(p.error) then r == Err(FormulaError(StringOf(p.error)))
              else r == Ok(p.result)
  {
    var localContext := Override(context, args, evalArgs);
    if !Truthy(entry) {
      return Err(EntryError);
    }
    var p := parse(localContext, EntryText(localContext, entry));
    if |p.handlerErrors| > 0 {
      return Err(p.handlerErrors[0]);
    }
    if Truthy(p.error) {
      return Err(FormulaError(StringOf(p.error)));
    }
    return Ok(p.result);
  }
}
