/** lib/eval-formula.ts: the older evaluator. The caller's context object
    holds the cell values, the names of the arguments (`args`) and the entry
    label (`entry`); the arguments overwrite it in place, and
    hot-formula-parser evaluates the entry's formula, looking cells up by
    their label with the `$` markers taken out. */
module LegacyEval {
  import opened Errors
  import opened Text
  import opened Values

  /** JavaScript's `a || b`. */
  function Or(a: Value, b: Value): (r: Value)
    ensures Truthy(a) ==> r == a
    ensures !Truthy(a) ==> r == b
  {
    if Truthy(a) then a else b
  }

  /** `evalArgs[i]`: undefined past the end. */
  function Arg(evalArgs: seq<Value>, i: nat): Value
  {
    if i < |evalArgs| then evalArgs[i] else Undefined
  }

  /** The cells after the first `n` arguments were written in place:
      `context[arg] = evalArgs[i] || context[arg]`, each step reading what
      the steps before it wrote. */
  function Overridden(cells: map<string, Value>, args: seq<string>, evalArgs: seq<Value>, n: nat): (r: map<string, Value>)
    requires n <= |args|
    ensures cells.Keys <= r.Keys
    ensures n > 0 ==> args[n - 1] in r
  {
    if n == 0 then cells
    else
      var before := Overridden(cells, args, evalArgs, n - 1);
      before[args[n - 1] := Or(Arg(evalArgs, n - 1), Get(before, args[n - 1]))]
  }

  /** A key no argument names is left as it was. */
  lemma {:induction false} OverriddenUnlisted(cells: map<string, Value>, args: seq<string>, evalArgs: seq<Value>,
                                              n: nat, key: string)
    requires n <= |args| && forall j | 0 <= j < n :: args[j] != key
    ensures key in Overridden(cells, args, evalArgs, n) <==> key in cells
    ensures Get(Overridden(cells, args, evalArgs, n), key) == Get(cells, key)
  {
    if n > 0 {
      OverriddenUnlisted(cells, args, evalArgs, n - 1, key);
    }
  }

  /** Arguments that are falsy (0, '', false, null, NaN, undefined or
      missing) keep the value the key had, though the key is then present. */
  lemma {:induction false} OverriddenFalsy(cells: map<string, Value>, args: seq<string>, evalArgs: seq<Value>,
                                           n: nat, key: string)
    requires n <= |args| && forall j | 0 <= j < n && args[j] == key :: !Truthy(Arg(evalArgs, j))
    ensures Get(Overridden(cells, args, evalArgs, n), key) == Get(cells, key)
  {
    if n > 0 {
      OverriddenFalsy(cells, args, evalArgs, n - 1, key);
    }
  }

  /** A key takes the last truthy argument that names it, whatever falsy
      arguments name it after that. */
  lemma {:induction false} OverriddenLastTruthy(cells: map<string, Value>, args: seq<string>, evalArgs: seq<Value>,
                                                n: nat, i: nat, key: string)
    requires n <= |args| && i < n && args[i] == key && Truthy(Arg(evalArgs, i))
    requires forall j | i < j < n && args[j] == key :: !Truthy(Arg(evalArgs, j))
    ensures key in Overridden(cells, args, evalArgs, n)
    ensures Overridden(cells, args, evalArgs, n)[key] == Arg(evalArgs, i)
  {
    if i < n - 1 {
      OverriddenLastTruthy(cells, args, evalArgs, n - 1, i, key);
    }
  }

  /** `label.replace(/\$(\w+)/g, '$1')`: every `$` directly followed by a
      word character is dropped. A match's word characters hold no `$`, so
      scanning one character at a time finds the same matches. */
  function StripDollars(s: string): (r: string)
    ensures |r| <= |s|
    decreases |s|
  {
    if s == [] then []
    else if s[0] == '$' && |s| >= 2 && IsWordChar(s[1]) then StripDollars(s[1..])
    else [s[0]] + StripDollars(s[1..])
  }

  /** `s` with every `$` taken out. */
  function WithoutDollars(s: string): (r: string)
    ensures forall i | 0 <= i < |r| :: r[i] != '$'
    decreases |s|
  {
    if s == [] then [] else (if s[0] == '$' then [] else [s[0]]) + WithoutDollars(s[1..])
  }

  /** Only `$` characters are dropped, and the rest keep their order. */
  lemma {:induction false} StripDollarsKeepsTheRest(s: string)
    ensures WithoutDollars(StripDollars(s)) == WithoutDollars(s)
    ensures |StripDollars(s)| <= |s|
    decreases |s|
  {
    if s != [] {
      StripDollarsKeepsTheRest(s[1..]);
      var t := StripDollars(s[1..]);
      if !(s[0] == '$' && |s| >= 2 && IsWordChar(s[1])) {
        assert ([s[0]] + t)[1..] == t;
      }
    }
  }

  /** A label without `$` is looked up as it is. */
  lemma {:induction false} StripDollarsNone(s: string)
    requires forall i | 0 <= i < |s| :: s[i] != '$'
    ensures StripDollars(s) == s
    decreases |s|
  {
    if s != [] {
      StripDollarsNone(s[1..]);
    }
  }

  /** An absolute label `$C$R` is looked up as `CR`; a sheet prefix, had
      the parser kept one, would stay in front. */
  lemma StripDollarsAbsolute(column: string, row: string)
    requires |column| > 0 && |row| > 0 && AllLetters(column) && AllDigits(row)
    ensures StripDollars("$" + column + "$" + row) == column + row
  {
    var tail := "$" + row;
    var rest := column + tail;
    Associate("$", column, tail, row);
    assert IsWordChar(row[0]);
    DollarBeforeWord(tail, row);
    assert rest[0] == column[0];
    DollarBeforeWord("$" + rest, rest);
    assert forall i | 0 <= i < |column| :: column[i] != '$' by {
      forall i | 0 <= i < |column| ensures column[i] != '$' {
        assert IsLetter(column[i]);
      }
    }
    StripDollarsPrefix(column, tail);
    assert forall i | 0 <= i < |row| :: row[i] != '$' by {
      forall i | 0 <= i < |row| ensures row[i] != '$' {
        assert IsDigit(row[i]);
      }
    }
    StripDollarsNone(row);
  }

  /** `d + c + d + r` regrouped. */
  lemma Associate(d: string, c: string, tail: string, r: string)
    requires tail == d + r
    ensures d + c + d + r == d + (c + tail)
  {
  }

  /** A `$` in front of a word character is dropped. */
  lemma DollarBeforeWord(s: string, rest: string)
    requires s == "$" + rest && |rest| > 0 && IsWordChar(rest[0])
    ensures StripDollars(s) == StripDollars(rest)
  {
    assert s[1..] == rest;
  }

  /** Dollar-free text in front of a string is kept and the rest is stripped. */
  lemma {:induction false} StripDollarsPrefix(prefix: string, rest: string)
    requires forall i | 0 <= i < |prefix| :: prefix[i] != '$'
    ensures StripDollars(prefix + rest) == prefix + StripDollars(rest)
    decreases |prefix|
  {
    if prefix != [] {
      assert (prefix + rest)[1..] == prefix[1..] + rest;
      StripDollarsPrefix(prefix[1..], rest);
    } else {
      assert prefix + rest == rest;
    }
  }

  /** `$$A` loses only its second `$`: the result still has a `$` in front of
      a word character, so the stripping is not idempotent. */
  lemma StripDollarsTwice()
    ensures StripDollars("$$A") == "$A"
    ensures StripDollars(StripDollars("$$A")) == "A"
  {
    assert "$$A"[1..] == "$A";
    assert "$A"[1..] == "A";
    assert "A"[1..] == [];
  }

  /** What one `parser.parse` of the entry's formula yields, its handlers
      reading the (already overridden) cells. */
  datatype Parsed = Parsed(error: Value, result: Value)

  type Parse = (map<string, Value>, string) -> Parsed

  /** The caller's context object. `args` is Some exactly when `context.args`
      is an array. */
  class Context {
    var cells: map<string, Value>
    var args: Option<seq<string>>
    var entry: Value

    constructor(cells: map<string, Value>, args: Option<seq<string>>, entry: Value)
      ensures this.cells == cells && this.args == args && this.entry == entry
    {
      this.cells := cells;
      this.args := args;
      this.entry := entry;
    }

    /** The cells once the arguments have been written. */
    function Overrides(evalArgs: seq<Value>): map<string, Value>
      reads this
    {
      if args.Some? then Overridden(cells, args.value, evalArgs, |args.value|) else cells
    }

    /** The `forEach` over `context.args`, writing into the context itself. */
    method Override(evalArgs: seq<Value>)
      modifies this
      ensures cells == old(Overrides(evalArgs))
      ensures args == old(args) && entry == old(entry)
    {
      if args.Some? {
        ghost var start := cells;
        for i := 0 to |args.value|
          invariant args == old(args) && entry == old(entry)
          invariant cells == Overridden(start, args.value, evalArgs, i)
        {
          var arg := args.value[i];
          cells := cells[arg := Or(Arg(evalArgs, i), Get(cells, arg))];
        }
      }
    }

    /** `evalFormula(context, ...evalArgs)`: the override, then the entry's
        text. A text that is not a string has no `replace` and throws a
        TypeError; a parser error is rethrown as a FormulaError carrying its
        message. */
    method Eval(evalArgs: seq<Value>, parse: Parse) returns (r: Result<Value>)
      modifies this
      ensures cells == old(Overrides(evalArgs)) && args == old(args) && entry == old(entry)
      ensures !Get(cells, StringOf(entry)).Str? ==> r.Err? && r.error.TypeError?
      ensures Get(cells, StringOf(entry)).Str? ==>
                var p := parse(cells, StripLeading(Get(cells, StringOf(entry)).s, '='));
                r == if Truthy(p.error) then Err(FormulaError(StringOf(p.error))) else Ok(p.result)
    {
      Override(evalArgs);
      var text := Get(cells, StringOf(entry));
      if !text.Str? {
        if text.Undefined? || text.Null? {
          return Err(TypeError("Cannot read properties of " + StringOf(text) + " (reading 'replace')"));
        }
        return Err(TypeError("context[context.entry].replace is not a function"));
      }
      var p := parse(cells, StripLeading(text.s, '='));
      if Truthy(p.error) {
        return Err(FormulaError(StringOf(p.error)));
      }
      return Ok(p.result);
    }
  }
}
