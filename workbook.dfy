/** lib/Workbook.ts: `compile` turns a spec of named cells into exports. The
    cells of the spec are looked up, with everything their formulas depend on,
    by `buildContext`; each key then becomes an evaluator of the cell's
    formula, a constant function, or the cell's value converted to the type
    the spec names. `normalizeCoords` is the Normalize module. */
module Workbook {
  import opened Errors
  import opened Text
  import opened Values
  import Coordinate
  import Column
  import Row
  import Sheet
  import Index
  import Normalize
  import BuildContext
  import Formula
  import opened FormulaParser
  import opened Utils

  // ---------------------------------------------------------------------
  // The workbook, as exceljs presents it
  // ---------------------------------------------------------------------

  /** A cell by its exceljs value type. */
  datatype CellContent =
    | MergeCell
    | Primitive(value: Value)        // Date, Boolean, Null, Number and String cells
    | HyperlinkCell(text: string)
    | RichTextCell(runs: seq<string>)
    | ErrorCell(code: string)
    | FormulaCell(formula: string)
    | Unhandled                      // SharedString and any kind the switch has no case for

  /** A worksheet: its id, its name and its cells by column and row. */
  datatype Worksheet = Worksheet(id: int, name: string, cells: map<(Column.Column, Row.Row), CellContent>)

  datatype Book = Book(worksheets: seq<Worksheet>)

  /** `getWorksheet(id)` for a number. */
  function SheetById(sheets: seq<Worksheet>, id: int): (r: Option<Worksheet>)
    ensures r.Some? ==> r.value in sheets && r.value.id == id
    ensures r.None? ==> forall w | w in sheets :: w.id != id
  {
    if sheets == [] then None
    else if sheets[0].id == id then Some(sheets[0])
    else SheetById(sheets[1..], id)
  }

  /** `getWorksheet(name).id` for a name, when a worksheet has it. */
  function IdByName(sheets: seq<Worksheet>, name: string): (r: Option<int>)
    ensures r.Some? ==> exists w | w in sheets :: w.name == name && w.id == r.value
    ensures r.None? ==> forall w | w in sheets :: w.name != name
  {
    if sheets == [] then None
    else if sheets[0].name == name then Some(sheets[0].id)
    else IdByName(sheets[1..], name)
  }

  function SheetIds(book: Book): Normalize.SheetIds
  {
    (name: string) => IdByName(book.worksheets, name)
  }

  /** `getCell(label)`: a cell never written reads as a Null cell. */
  function CellIn(sheet: Worksheet, cell: Coordinate.Reference): CellContent
  {
    if (cell.column, cell.row) in sheet.cells then sheet.cells[(cell.column, cell.row)] else Primitive(Null)
  }

  /** `richText.map(t => t.text).join('')`. */
  function Join(runs: seq<string>): (r: string)
    ensures |r| == 0 <==> forall i | 0 <= i < |runs| :: runs[i] == ""
  {
    if runs == [] then "" else runs[0] + Join(runs[1..])
  }

  // ---------------------------------------------------------------------
  // The lookUp callback handed to buildContext
  // ---------------------------------------------------------------------

  /** The lookUp of `compile`: the cell's worksheet by its 1-based sheet
      number, then the value by cell kind. A missing worksheet is undefined
      and `getCell` on it throws; a formula is normalized against the cell's
      own sheet and may throw; a kind without a case never calls `done`. */
  function LookUp(book: Book, cell: Coordinate.Reference): (r: Option<Result<Value>>)
    ensures SheetById(book.worksheets, Index.Base1(cell.sheet.index)).None? ==>
              r == Some(Err(TypeError("Cannot read properties of undefined (reading 'getCell')")))
    ensures r.None? <==>
              SheetById(book.worksheets, Index.Base1(cell.sheet.index)).Some?
              && CellIn(SheetById(book.worksheets, Index.Base1(cell.sheet.index)).value, cell).Unhandled?
  {
    var base1 := Index.Base1(cell.sheet.index);
    match SheetById(book.worksheets, base1)
    case None => Some(Err(TypeError("Cannot read properties of undefined (reading 'getCell')")))
    case Some(sheet) =>
      match CellIn(sheet, cell)
      case MergeCell => Some(Ok(Str("")))
      case Primitive(v) => Some(Ok(v))
      case HyperlinkCell(text) => Some(Ok(Str(text)))
      case RichTextCell(runs) => Some(Ok(Str(Join(runs))))
      case ErrorCell(code) => Some(Ok(Str(code)))
      case FormulaCell(f) =>
        (match Normalize.NormalizeCoords(f, base1, SheetIds(book))
         case Err(e) => Some(Err(e))
         case Ok(text) => Some(Ok(Str("=" + text))))
      case Unhandled => None
  }

  function BookLookUp(book: Book): BuildContext.LookUp
  {
    (cell: Coordinate.Reference) => LookUp(book, cell)
  }

  // ---------------------------------------------------------------------
  // The spec and the exports
  // ---------------------------------------------------------------------

  /** One entry of the spec: the cell's text, its `type` if given, and its
      `args` if given. */
  datatype CellSpec = CellSpec(cell: string, tag: Option<TypeTag>, args: Option<seq<string>>)

  /** One export. An evaluator is `wrapFunc(evalFormula, {entry, ...context,
      args})`: calling it runs the sandbox `evalFormula` on that object. A
      constant is a function returning the value; data is the converted value. */
  datatype Export =
    | Evaluator(entry: string, context: map<string, Value>, args: Option<seq<string>>)
    | Constant(value: Value)
    | Data(formatted: Formatted)

  /** How `compile` ends: the exports, a rejection, a promise that never
      settles (a lookup never answered), or a walk deeper than the fuel. */
  datatype Compilation =
    | Done(exports: map<string, Export>)
    | Failed(error: Error)
    | Pending
    | Exhausted

  /** `Reference.from(this.normalizeCoords(text, 1))`: spec and argument cells
      without a sheet are on sheet 1. */
  function CellOf(text: string, book: Book): Result<Coordinate.Reference>
  {
    var normalized :- Normalize.NormalizeCoords(text, 1, SheetIds(book));
    Coordinate.From(normalized)
  }

  /** How a spec or argument text becomes a cell: `CellOf` for the
      workbook at hand. */
  type Resolver = string -> Result<Coordinate.Reference>

  function ResolverOf(book: Book): Resolver
  {
    (text: string) => CellOf(text, book)
  }

  /** `texts.map(t => Reference.from(this.normalizeCoords(t, 1)))`: the first
      text that throws ends the map. */
  function CellsOf(texts: seq<string>, cellOf: Resolver): (r: Result<seq<Coordinate.Reference>>)
    ensures r.Ok? ==> |r.value| == |texts| && forall i | 0 <= i < |texts| :: cellOf(texts[i]) == Ok(r.value[i])
    decreases |texts|
  {
    if texts == [] then Ok([])
    else
      var first :- cellOf(texts[0]);
      var rest :- CellsOf(texts[1..], cellOf);
      assert forall j | 1 <= j < |texts| :: texts[1..][j - 1] == texts[j];
      Ok([first] + rest)
  }

  /** The map fails exactly when some text does, with the error of the
      first text that does. */
  lemma {:induction false} CellsOfFails(texts: seq<string>, cellOf: Resolver)
    ensures CellsOf(texts, cellOf).Err? <==> exists i | 0 <= i < |texts| :: cellOf(texts[i]).Err?
    ensures CellsOf(texts, cellOf).Err? ==> exists i | 0 <= i < |texts| ::
              && cellOf(texts[i]) == Err(CellsOf(texts, cellOf).error)
              && forall j | 0 <= j < i :: cellOf(texts[j]).Ok?
    decreases |texts|
  {
    if texts != [] && cellOf(texts[0]).Ok? {
      CellsOfFails(texts[1..], cellOf);
      assert forall j | 1 <= j < |texts| :: texts[1..][j - 1] == texts[j];
      if CellsOf(texts, cellOf).Err? {
        var i :| 0 <= i < |texts[1..]| && cellOf(texts[1..][i]) == Err(CellsOf(texts[1..], cellOf).error)
                 && forall j | 0 <= j < i :: cellOf(texts[1..][j]).Ok?;
        assert cellOf(texts[i + 1]) == Err(CellsOf(texts, cellOf).error);
      } else {
        assert forall i | 0 <= i < |texts| :: cellOf(texts[i]).Ok? by {
          forall i | 0 <= i < |texts| ensures cellOf(texts[i]).Ok? {
            if i > 0 { assert texts[1..][i - 1] == texts[i]; }
          }
        }
      }
    }
  }

  /** Every cell's `toString()`. */
  function Keys(cells: seq<Coordinate.Reference>): (r: seq<string>)
    ensures |r| == |cells| && forall i | 0 <= i < |cells| :: r[i] == Coordinate.ToString(cells[i])
  {
    seq(|cells|, i requires 0 <= i < |cells| => Coordinate.ToString(cells[i]))
  }

  /** The spec's cell texts, in key order. */
  function SpecCells(specs: seq<(string, CellSpec)>): (r: seq<string>)
    ensures |r| == |specs| && forall i | 0 <= i < |specs| :: r[i] == specs[i].1.cell
  {
    seq(|specs|, i requires 0 <= i < |specs| => specs[i].1.cell)
  }

  /** The type a key is exported as: the one given; if none, Function when
      `args` is there (an empty array is truthy), otherwise String. */
  function ExportTag(spec: CellSpec): TypeTag
  {
    if spec.tag.Some? then spec.tag.value
    else if spec.args.Some? then FunctionTag
    else StringTag
  }

  /** The value text of a formula: a string that starts with `=`. */
  predicate IsFormulaText(v: Value)
  {
    v.Str? && StartsWith(v.s, "=")
  }

  /** The `args` an evaluator is bound to: each argument cell's
      `toString()`, or undefined when the spec gives none. */
  function ArgKeys(args: Option<seq<string>>, cellOf: Resolver): (r: Result<Option<seq<string>>>)
  {
    if args.None? then Ok(None)
    else
      var cells :- CellsOf(args.value, cellOf);
      Ok(Some(Keys(cells)))
  }

  /** The export of one key whose cell is `cell`, read from the built
      context. Argument cells that do not parse throw, and so does a type
      `formatValue` does not know. */
  function ExportOf(spec: CellSpec, cell: Coordinate.Reference, context: map<string, Value>, cellOf: Resolver,
                    parseFloat: Value -> JsNumber): (r: Result<Export>)
    ensures r.Ok? && r.value.Evaluator? ==>
              && ExportTag(spec) == FunctionTag && IsFormulaText(Get(context, Coordinate.ToString(cell)))
              && r.value.entry == Coordinate.ToString(cell) && r.value.context == context
              && (r.value.args.Some? <==> spec.args.Some?)
    ensures ExportTag(spec) == FunctionTag && !IsFormulaText(Get(context, Coordinate.ToString(cell))) ==>
              r == Ok(Constant(Get(context, Coordinate.ToString(cell))))
    ensures ExportTag(spec) != FunctionTag ==> r.Err? || r.value.Data?
  {
    var key := Coordinate.ToString(cell);
    var value := Get(context, key);
    var tag := ExportTag(spec);
    if tag == FunctionTag then
      if IsFormulaText(value) then
        var args :- ArgKeys(spec.args, cellOf);
        Ok(Evaluator(key, context, args))
      else Ok(Constant(value))
    else
      var formatted :- FormatValue(value, tag, parseFloat);
      Ok(Data(formatted))
  }

  /** What the loop over the keys writes, given each key's export (or the
      error computing it throws): for the first `n` keys in order,
      `exports[key]`, and with `exposeCells` the same export under the cell's
      `toString()` too. The first error ends the loop. */
  function Collect(keys: seq<string>, cellKeys: seq<string>, xs: seq<Result<Export>>, exposeCells: bool, n: nat)
    : Result<map<string, Export>>
    requires |keys| == |xs| && |cellKeys| == |xs| && n <= |xs|
  {
    if n == 0 then Ok(map[])
    else
      match Collect(keys, cellKeys, xs, exposeCells, n - 1)
      case Err(e) => Err(e)
      case Ok(before) =>
        match xs[n - 1]
        case Err(e) => Err(e)
        case Ok(x) => Ok(Put(before, keys[n - 1], cellKeys[n - 1], x, exposeCells))
  }

  /** `exports[key] = x`, and with `exposeCells` `exports[cell.toString()] = x`. */
  function Put(exports: map<string, Export>, key: string, cellKey: string, x: Export, exposeCells: bool)
    : map<string, Export>
  {
    var written := exports[key := x];
    if exposeCells then written[cellKey := x] else written
  }

  function SpecKeys(specs: seq<(string, CellSpec)>): (r: seq<string>)
    ensures |r| == |specs| && forall i | 0 <= i < |specs| :: r[i] == specs[i].0
  {
    seq(|specs|, i requires 0 <= i < |specs| => specs[i].0)
  }

  /** Each key's export, from its cell and the built context. */
  function ExportsOf(specs: seq<(string, CellSpec)>, cells: seq<Coordinate.Reference>, context: map<string, Value>,
                     cellOf: Resolver, parseFloat: Value -> JsNumber): (r: seq<Result<Export>>)
    requires |cells| == |specs|
    ensures |r| == |specs| && forall i | 0 <= i < |specs| :: r[i] == ExportOf(specs[i].1, cells[i], context, cellOf, parseFloat)
  {
    seq(|specs|, i requires 0 <= i < |specs| => ExportOf(specs[i].1, cells[i], context, cellOf, parseFloat))
  }

  /** The exports of all the keys. */
  function Exports(specs: seq<(string, CellSpec)>, cells: seq<Coordinate.Reference>, context: map<string, Value>,
                   cellOf: Resolver, exposeCells: bool, parseFloat: Value -> JsNumber): Result<map<string, Export>>
    requires |cells| == |specs|
  {
    Collect(SpecKeys(specs), Keys(cells), ExportsOf(specs, cells, context, cellOf, parseFloat), exposeCells, |specs|)
  }

  /** What follows the build: a rejection is `compile`'s, a build that never
      settles leaves `compile` pending, and a built context is exported. */
  function AfterBuild(o: BuildContext.Outcome, specs: seq<(string, CellSpec)>, roots: seq<Coordinate.Reference>,
                      cellOf: Resolver, exposeCells: bool, parseFloat: Value -> JsNumber): Compilation
    requires |roots| == |specs|
  {
    match o.status
    case Rejected(e) => Failed(e)
    case Stalled => Pending
    case OutOfFuel => Exhausted
    case Built =>
      match Exports(specs, roots, o.context, cellOf, exposeCells, parseFloat)
      case Err(e) => Failed(e)
      case Ok(exports) => Done(exports)
  }

  /** `compile(spec, { exposeCells })`, the spec's keys in order. The walk
      and the range expansion the build uses are passed in, as is
      `parseFloat`; `fuel` bounds the build's depth. */
  function CompileOf(book: Book, specs: seq<(string, CellSpec)>, exposeCells: bool, walk: Walk,
                     toArray: Coordinate.Range -> Result<seq<Coordinate.Reference>>,
                     parseFloat: Value -> JsNumber, fuel: nat): (r: Compilation)
    ensures |book.worksheets| == 0 ==> r == Failed(EmptyWorkbookError)
    ensures |book.worksheets| > 0 && CellsOf(SpecCells(specs), ResolverOf(book)).Err? ==>
              r == Failed(CellsOf(SpecCells(specs), ResolverOf(book)).error)
    ensures r.Done? ==> |book.worksheets| > 0 && CellsOf(SpecCells(specs), ResolverOf(book)).Ok?
  {
    if |book.worksheets| == 0 then Failed(EmptyWorkbookError)
    else
      match CellsOf(SpecCells(specs), ResolverOf(book))
      case Err(e) => Failed(e)
      case Ok(roots) =>
        var o := BuildContext.Build(roots, BuildContext.EnvOf(BookLookUp(book), walk, toArray), map[], fuel);
        AfterBuild(o, specs, roots, ResolverOf(book), exposeCells, parseFloat)
  }

  /** `compile`: the guard, the build into a fresh context, then the loop
      over the keys. */
  method Compile(book: Book, specs: seq<(string, CellSpec)>, exposeCells: bool, walk: Walk,
                 toArray: Coordinate.Range -> Result<seq<Coordinate.Reference>>,
                 parseFloat: Value -> JsNumber, fuel: nat)
    returns (r: Compilation)
    ensures r == CompileOf(book, specs, exposeCells, walk, toArray, parseFloat, fuel)
    ensures |book.worksheets| == 0 ==> r == Failed(EmptyWorkbookError)
  {
    if |book.worksheets| == 0 {
      return Failed(EmptyWorkbookError);
    }
    var roots := CellsOf(SpecCells(specs), ResolverOf(book));
    if roots.Err? {
      return Failed(roots.error);
    }
    var context := new BuildContext.Context(map[]);
    var status, fetched := BuildContext.BuildContext(roots.value, BookLookUp(book), walk, toArray, context, fuel);
    var o := BuildContext.Outcome(status, context.cells, fetched);
    if !status.Built? {
      return AfterBuild(o, specs, roots.value, ResolverOf(book), exposeCells, parseFloat);
    }
    var exports := ExportAll(specs, roots.value, context.cells, ResolverOf(book), exposeCells, parseFloat);
    r := if exports.Err? then Failed(exports.error) else Done(exports.value);
  }

  /** The loop over the keys: each key's cell is read from the roots, which
      hold the same `Reference.from(normalizeCoords(cell, 1))` the loop
      computes again. The first export that throws ends `compile`. */
  method ExportAll(specs: seq<(string, CellSpec)>, cells: seq<Coordinate.Reference>, context: map<string, Value>,
                   cellOf: Resolver, exposeCells: bool, parseFloat: Value -> JsNumber)
    returns (r: Result<map<string, Export>>)
    requires |cells| == |specs|
    ensures r == Exports(specs, cells, context, cellOf, exposeCells, parseFloat)
  {
    ghost var keys, cellKeys, xs := SpecKeys(specs), Keys(cells), ExportsOf(specs, cells, context, cellOf, parseFloat);
    var exports: map<string, Export> := map[];
    for i := 0 to |specs|
      invariant Collect(keys, cellKeys, xs, exposeCells, i) == Ok(exports)
    {
      var x := ExportOf(specs[i].1, cells[i], context, cellOf, parseFloat);
      var key, cellKey := specs[i].0, Coordinate.ToString(cells[i]);
      assert xs[i] == x && key == keys[i] && cellKey == cellKeys[i];
      CollectStep(keys, cellKeys, xs, exposeCells, i, exports, x);
      if x.Err? {
        CollectStops(keys, cellKeys, xs, exposeCells, i + 1, |specs|);
        assert Exports(specs, cells, context, cellOf, exposeCells, parseFloat) == Collect(keys, cellKeys, xs, exposeCells, |specs|);
        return Err(x.error);
      }
      exports := Write(exports, key, cellKey, x.value, exposeCells);
    }
    assert Exports(specs, cells, context, cellOf, exposeCells, parseFloat) == Collect(keys, cellKeys, xs, exposeCells, |specs|);
    return Ok(exports);
  }

  /** The body of the loop for an export that did not throw. */
  method Write(exports: map<string, Export>, key: string, cellKey: string, x: Export, exposeCells: bool)
    returns (r: map<string, Export>)
    ensures r == Put(exports, key, cellKey, x, exposeCells)
  {
    r := exports[key := x];
    if exposeCells {
      r := r[cellKey := x];
    }
  }

  /** Once an export throws, the loop's result is that error. */
  lemma {:induction false} CollectStops(keys: seq<string>, cellKeys: seq<string>, xs: seq<Result<Export>>,
                                        exposeCells: bool, n: nat, m: nat)
    requires |keys| == |xs| && |cellKeys| == |xs| && n <= m <= |xs|
    requires Collect(keys, cellKeys, xs, exposeCells, n).Err?
    ensures Collect(keys, cellKeys, xs, exposeCells, m) == Collect(keys, cellKeys, xs, exposeCells, n)
    decreases m
  {
    if m > n {
      CollectStops(keys, cellKeys, xs, exposeCells, n, m - 1);
    }
  }

  /** One more step of the loop: an error ends it, an export is written. */
  lemma CollectStep(keys: seq<string>, cellKeys: seq<string>, xs: seq<Result<Export>>, exposeCells: bool, n: nat,
                    before: map<string, Export>, x: Result<Export>)
    requires |keys| == |xs| && |cellKeys| == |xs| && n < |xs|
    requires Collect(keys, cellKeys, xs, exposeCells, n) == Ok(before) && xs[n] == x
    ensures x.Err? ==> Collect(keys, cellKeys, xs, exposeCells, n + 1) == Err(x.error)
    ensures x.Ok? ==> Collect(keys, cellKeys, xs, exposeCells, n + 1) == Ok(Put(before, keys[n], cellKeys[n], x.value, exposeCells))
  {
  }

  // ---------------------------------------------------------------------
  // Properties of the export loop
  // ---------------------------------------------------------------------

  /** Whether the loop's step `j` writes the key `k`. */
  predicate Writes(keys: seq<string>, cellKeys: seq<string>, exposeCells: bool, j: nat, k: string)
    requires j < |keys| && j < |cellKeys|
  {
    k == keys[j] || (exposeCells && k == cellKeys[j])
  }

  /** The exports hold exactly the spec's keys, and with `exposeCells` the
      cells' `toString()` too. */
  lemma {:induction false} CollectKeys(keys: seq<string>, cellKeys: seq<string>, xs: seq<Result<Export>>,
                                       exposeCells: bool, n: nat, k: string)
    requires |keys| == |xs| && |cellKeys| == |xs| && n <= |xs|
    requires Collect(keys, cellKeys, xs, exposeCells, n).Ok?
    ensures k in Collect(keys, cellKeys, xs, exposeCells, n).value <==>
              exists j | 0 <= j < n :: Writes(keys, cellKeys, exposeCells, j, k)
  {
    if n > 0 {
      CollectKeys(keys, cellKeys, xs, exposeCells, n - 1, k);
      CollectUnfold(keys, cellKeys, xs, exposeCells, n);
      if k in Collect(keys, cellKeys, xs, exposeCells, n).value && !Writes(keys, cellKeys, exposeCells, n - 1, k) {
        var j :| 0 <= j < n - 1 && Writes(keys, cellKeys, exposeCells, j, k);
      }
    }
  }

  /** The last step of a loop that did not throw. */
  lemma CollectUnfold(keys: seq<string>, cellKeys: seq<string>, xs: seq<Result<Export>>, exposeCells: bool, n: nat)
    requires |keys| == |xs| && |cellKeys| == |xs| && 0 < n <= |xs|
    requires Collect(keys, cellKeys, xs, exposeCells, n).Ok?
    ensures Collect(keys, cellKeys, xs, exposeCells, n - 1).Ok? && xs[n - 1].Ok?
    ensures var before := Collect(keys, cellKeys, xs, exposeCells, n - 1).value;
            var m := Collect(keys, cellKeys, xs, exposeCells, n).value;
            && m.Keys == before.Keys + {keys[n - 1]} + (if exposeCells then {cellKeys[n - 1]} else {})
            && (forall k | k in m && !Writes(keys, cellKeys, exposeCells, n - 1, k) :: m[k] == before[k])
            && (forall k | Writes(keys, cellKeys, exposeCells, n - 1, k) :: m[k] == xs[n - 1].value)
  {
  }

  /** A key holds the export of the last key or cell that wrote it. */
  lemma {:induction false} CollectLastWriter(keys: seq<string>, cellKeys: seq<string>, xs: seq<Result<Export>>,
                                             exposeCells: bool, n: nat, i: nat, k: string)
    requires |keys| == |xs| && |cellKeys| == |xs| && i < n <= |xs|
    requires Collect(keys, cellKeys, xs, exposeCells, n).Ok?
    requires Writes(keys, cellKeys, exposeCells, i, k)
    requires forall j | i < j < n :: !Writes(keys, cellKeys, exposeCells, j, k)
    ensures xs[i].Ok?
    ensures k in Collect(keys, cellKeys, xs, exposeCells, n).value
    ensures Collect(keys, cellKeys, xs, exposeCells, n).value[k] == xs[i].value
  {
    CollectUnfold(keys, cellKeys, xs, exposeCells, n);
    if i < n - 1 {
      CollectLastWriter(keys, cellKeys, xs, exposeCells, n - 1, i, k);
    }
  }

  /** The loop fails exactly when some key's export throws, with the first
      such error. */
  lemma {:induction false} CollectFails(keys: seq<string>, cellKeys: seq<string>, xs: seq<Result<Export>>,
                                        exposeCells: bool, n: nat)
    requires |keys| == |xs| && |cellKeys| == |xs| && n <= |xs|
    ensures Collect(keys, cellKeys, xs, exposeCells, n).Err? <==> exists i | 0 <= i < n :: xs[i].Err?
    ensures Collect(keys, cellKeys, xs, exposeCells, n).Err? ==> exists i | 0 <= i < n ::
              && xs[i] == Err(Collect(keys, cellKeys, xs, exposeCells, n).error)
              && forall j | 0 <= j < i :: xs[j].Ok?
  {
    if n > 0 {
      CollectFails(keys, cellKeys, xs, exposeCells, n - 1);
    }
  }

  /** With `exposeCells`, a cell's `toString()` and its key hold the same
      export, unless a later key or cell writes over one of them. */
  lemma ExposedCellAliasesKey(keys: seq<string>, cellKeys: seq<string>, xs: seq<Result<Export>>, n: nat, i: nat)
    requires |keys| == |xs| && |cellKeys| == |xs| && i < n <= |xs|
    requires Collect(keys, cellKeys, xs, true, n).Ok?
    requires forall j | i < j < n :: !Writes(keys, cellKeys, true, j, keys[i]) && !Writes(keys, cellKeys, true, j, cellKeys[i])
    ensures keys[i] in Collect(keys, cellKeys, xs, true, n).value
    ensures cellKeys[i] in Collect(keys, cellKeys, xs, true, n).value
    ensures Collect(keys, cellKeys, xs, true, n).value[cellKeys[i]] == Collect(keys, cellKeys, xs, true, n).value[keys[i]]
  {
    CollectLastWriter(keys, cellKeys, xs, true, n, i, keys[i]);
    CollectLastWriter(keys, cellKeys, xs, true, n, i, cellKeys[i]);
  }

  // ---------------------------------------------------------------------
  // Properties of one export
  // ---------------------------------------------------------------------

  /** Without `type` and `args` a key is exported as the cell's text. */
  lemma DefaultIsString(spec: CellSpec, cell: Coordinate.Reference, context: map<string, Value>, cellOf: Resolver,
                        parseFloat: Value -> JsNumber)
    requires spec.tag.None? && spec.args.None?
    ensures ExportOf(spec, cell, context, cellOf, parseFloat) == Ok(Data(Text(StringOf(Get(context, Coordinate.ToString(cell))))))
  {
  }

  /** With `args` and no `type` a key is exported as a function: an
      evaluator over a formula cell, a constant function otherwise. */
  lemma ArgsMakeAFunction(spec: CellSpec, cell: Coordinate.Reference, context: map<string, Value>, cellOf: Resolver,
                          parseFloat: Value -> JsNumber)
    requires spec.tag.None? && spec.args.Some?
    ensures ExportOf(spec, cell, context, cellOf, parseFloat).Ok? ==>
              !ExportOf(spec, cell, context, cellOf, parseFloat).value.Data?
    ensures !IsFormulaText(Get(context, Coordinate.ToString(cell))) ==>
              ExportOf(spec, cell, context, cellOf, parseFloat) == Ok(Constant(Get(context, Coordinate.ToString(cell))))
  {
  }

  /** An evaluator is bound to its own cell, whose value in its context is a
      formula, and to the `toString()` of each argument cell, in order. */
  lemma EvaluatorBinding(spec: CellSpec, cell: Coordinate.Reference, context: map<string, Value>, cellOf: Resolver,
                         parseFloat: Value -> JsNumber)
    requires ExportOf(spec, cell, context, cellOf, parseFloat).Ok?
    requires ExportOf(spec, cell, context, cellOf, parseFloat).value.Evaluator?
    ensures var x := ExportOf(spec, cell, context, cellOf, parseFloat).value;
            && ExportTag(spec) == FunctionTag
            && x.entry == Coordinate.ToString(cell) && x.context == context
            && IsFormulaText(Get(x.context, x.entry))
            && (x.args.None? <==> spec.args.None?)
            && (x.args.Some? ==>
                  && |x.args.value| == |spec.args.value|
                  && forall i | 0 <= i < |spec.args.value| ::
                       cellOf(spec.args.value[i]).Ok? && x.args.value[i] == Coordinate.ToString(cellOf(spec.args.value[i]).value))
  {
  }

  /** A key's export throws exactly when it is an evaluator one of whose
      argument cells does not parse, or its type is none of Function,
      Number, String and Boolean. */
  lemma ExportOfFails(spec: CellSpec, cell: Coordinate.Reference, context: map<string, Value>, cellOf: Resolver,
                      parseFloat: Value -> JsNumber)
    ensures ExportOf(spec, cell, context, cellOf, parseFloat).Err? <==>
              || (&& ExportTag(spec) == FunctionTag && IsFormulaText(Get(context, Coordinate.ToString(cell)))
                  && spec.args.Some? && exists i | 0 <= i < |spec.args.value| :: cellOf(spec.args.value[i]).Err?)
              || ExportTag(spec) !in {FunctionTag, NumberTag, StringTag, BooleanTag}
    ensures ExportTag(spec) !in {FunctionTag, NumberTag, StringTag, BooleanTag} ==>
              ExportOf(spec, cell, context, cellOf, parseFloat) == Err(UnknownTypeError(TagName(ExportTag(spec))))
  {
    if spec.args.Some? {
      CellsOfFails(spec.args.value, cellOf);
    }
  }

  // ---------------------------------------------------------------------
  // Properties of the lookUp
  // ---------------------------------------------------------------------

  /** Rich text runs are joined in order: the text of runs split in two is
      the text of the first part followed by that of the second. */
  lemma {:induction false} JoinAppend(a: seq<string>, b: seq<string>)
    ensures Join(a + b) == Join(a) + Join(b)
    decreases |a|
  {
    if a == [] {
      assert a + b == b;
    } else {
      assert (a + b)[1..] == a[1..] + b;
      JoinAppend(a[1..], b);
    }
  }

  /** The lookUp rejects only for a missing worksheet or a formula whose
      normalization throws; every other handled kind reads as a value. */
  lemma LookUpRejects(book: Book, cell: Coordinate.Reference)
    ensures var sheet := SheetById(book.worksheets, Index.Base1(cell.sheet.index));
            (LookUp(book, cell).Some? && LookUp(book, cell).value.Err?) <==>
              || sheet.None?
              || (&& CellIn(sheet.value, cell).FormulaCell?
                  && Normalize.NormalizeCoords(CellIn(sheet.value, cell).formula, Index.Base1(cell.sheet.index),
                                               SheetIds(book)).Err?)
  {
  }

  /** The text-like kinds flatten to strings: a merged cell to the empty
      string, a hyperlink to its text, rich text to its runs in order and an
      error cell to its code. */
  lemma TextKinds(book: Book, cell: Coordinate.Reference, sheet: Worksheet, text: string, runs: seq<string>)
    requires SheetById(book.worksheets, Index.Base1(cell.sheet.index)) == Some(sheet)
    ensures CellIn(sheet, cell) == MergeCell ==> LookUp(book, cell) == Some(Ok(Str("")))
    ensures CellIn(sheet, cell) == HyperlinkCell(text) ==> LookUp(book, cell) == Some(Ok(Str(text)))
    ensures CellIn(sheet, cell) == ErrorCell(text) ==> LookUp(book, cell) == Some(Ok(Str(text)))
    ensures CellIn(sheet, cell) == RichTextCell(runs) ==>
              LookUp(book, cell) == Some(Ok(Str(Join(runs))))
  {
  }

  /** A formula is normalized against its own worksheet: a bare reference in
      it names the formula's sheet, not sheet 1. */
  lemma FormulaOnOwnSheet(book: Book, cell: Coordinate.Reference, sheet: Worksheet, f: string,
                          a: nat, b: nat, c: nat, e: nat)
    requires SheetById(book.worksheets, Index.Base1(cell.sheet.index)) == Some(sheet)
    requires CellIn(sheet, cell) == FormulaCell(f)
    requires Normalize.CornerShape(f, 0, a, b, c, e) && f[0] != '\'' && Normalize.Unqualified(f, 0)
    requires Normalize.PlainTail(f, e)
    ensures LookUp(book, cell)
         == Some(Ok(Str("=" + (IntToDecimal(Index.Base1(cell.sheet.index)) + "!" + "$" + f[a..b] + "$" + f[c..e] + f[e..]))))
  {
    Normalize.SingleReference(f, a, b, c, e, Index.Base1(cell.sheet.index), SheetIds(book));
  }

  /** What a formula cell reads as is walked as a formula by the build. */
  lemma FormulaCellIsWalked(book: Book, cell: Coordinate.Reference, sheet: Worksheet, f: string)
    requires SheetById(book.worksheets, Index.Base1(cell.sheet.index)) == Some(sheet)
    requires CellIn(sheet, cell) == FormulaCell(f)
    requires Normalize.NormalizeCoords(f, Index.Base1(cell.sheet.index), SheetIds(book)).Ok?
    ensures LookUp(book, cell).Some? && LookUp(book, cell).value.Ok?
    ensures BuildContext.IsFormulaValue(LookUp(book, cell).value.value)
  {
    var text := Normalize.NormalizeCoords(f, Index.Base1(cell.sheet.index), SheetIds(book)).value;
    assert ("=" + text)[..1] == "=";
  }

  /** So is a string cell whose text starts with `=`: the build cannot tell
      it from a formula. */
  lemma EqualsStringIsWalked(book: Book, cell: Coordinate.Reference, sheet: Worksheet, s: string)
    requires SheetById(book.worksheets, Index.Base1(cell.sheet.index)) == Some(sheet)
    requires CellIn(sheet, cell) == Primitive(Str(s)) && StartsWith(s, "=")
    ensures LookUp(book, cell) == Some(Ok(Str(s)))
    ensures BuildContext.IsFormulaValue(Str(s))
  {
  }

  /** A cell of a kind without a case stops the build for good: `done` is
      never called, so the walk waits on it forever. */
  lemma UnhandledStalls(book: Book, cell: Coordinate.Reference, sheet: Worksheet, walk: Walk,
                        toArray: Coordinate.Range -> Result<seq<Coordinate.Reference>>, m: map<string, Value>, fuel: nat)
    requires SheetById(book.worksheets, Index.Base1(cell.sheet.index)) == Some(sheet)
    requires CellIn(sheet, cell).Unhandled?
    ensures BuildContext.Visit(cell, BuildContext.EnvOf(BookLookUp(book), walk, toArray), m, fuel)
         == BuildContext.Outcome(BuildContext.Stalled, m, [cell])
  {
    assert BookLookUp(book)(cell) == None;
  }

  // ---------------------------------------------------------------------
  // Properties of compile
  // ---------------------------------------------------------------------

  /** The exports of a compile that ends, in terms of the loop. */
  lemma CompiledExports(book: Book, specs: seq<(string, CellSpec)>, exposeCells: bool, walk: Walk,
                        toArray: Coordinate.Range -> Result<seq<Coordinate.Reference>>,
                        parseFloat: Value -> JsNumber, fuel: nat)
    requires CompileOf(book, specs, exposeCells, walk, toArray, parseFloat, fuel).Done?
    ensures |book.worksheets| > 0 && CellsOf(SpecCells(specs), ResolverOf(book)).Ok?
    ensures var roots := CellsOf(SpecCells(specs), ResolverOf(book)).value;
            var o := BuildContext.Build(roots, BuildContext.EnvOf(BookLookUp(book), walk, toArray), map[], fuel);
            && o.status.Built?
            && Collect(SpecKeys(specs), Keys(roots), ExportsOf(specs, roots, o.context, ResolverOf(book), parseFloat),
                       exposeCells, |specs|)
               == Ok(CompileOf(book, specs, exposeCells, walk, toArray, parseFloat, fuel).exports)
  {
  }

  /** Without `exposeCells` the exports are exactly the spec's keys. */
  lemma CompiledKeys(book: Book, specs: seq<(string, CellSpec)>, walk: Walk,
                     toArray: Coordinate.Range -> Result<seq<Coordinate.Reference>>,
                     parseFloat: Value -> JsNumber, fuel: nat, k: string)
    requires CompileOf(book, specs, false, walk, toArray, parseFloat, fuel).Done?
    ensures k in CompileOf(book, specs, false, walk, toArray, parseFloat, fuel).exports <==>
              exists j | 0 <= j < |specs| :: specs[j].0 == k
  {
    CompiledExports(book, specs, false, walk, toArray, parseFloat, fuel);
    var roots := CellsOf(SpecCells(specs), ResolverOf(book)).value;
    var o := BuildContext.Build(roots, BuildContext.EnvOf(BookLookUp(book), walk, toArray), map[], fuel);
    CollectKeysOnly(SpecKeys(specs), Keys(roots), ExportsOf(specs, roots, o.context, ResolverOf(book), parseFloat), k);
  }

  /** Without `exposeCells` the loop writes exactly the keys. */
  lemma CollectKeysOnly(keys: seq<string>, cellKeys: seq<string>, xs: seq<Result<Export>>, k: string)
    requires |keys| == |xs| && |cellKeys| == |xs|
    requires Collect(keys, cellKeys, xs, false, |xs|).Ok?
    ensures k in Collect(keys, cellKeys, xs, false, |xs|).value <==> k in keys
  {
    CollectKeys(keys, cellKeys, xs, false, |xs|, k);
    if k in keys {
      var j :| 0 <= j < |keys| && keys[j] == k;
      assert Writes(keys, cellKeys, false, j, k);
    }
  }

  /** With `exposeCells` each spec cell's `toString()` is exported too. */
  lemma CompiledExposesCells(book: Book, specs: seq<(string, CellSpec)>, walk: Walk,
                             toArray: Coordinate.Range -> Result<seq<Coordinate.Reference>>,
                             parseFloat: Value -> JsNumber, fuel: nat, j: nat)
    requires CompileOf(book, specs, true, walk, toArray, parseFloat, fuel).Done? && j < |specs|
    ensures CellOf(specs[j].1.cell, book).Ok?
    ensures Coordinate.ToString(CellOf(specs[j].1.cell, book).value)
              in CompileOf(book, specs, true, walk, toArray, parseFloat, fuel).exports
    ensures specs[j].0 in CompileOf(book, specs, true, walk, toArray, parseFloat, fuel).exports
  {
    CompiledExports(book, specs, true, walk, toArray, parseFloat, fuel);
    var roots := CellsOf(SpecCells(specs), ResolverOf(book)).value;
    var o := BuildContext.Build(roots, BuildContext.EnvOf(BookLookUp(book), walk, toArray), map[], fuel);
    var keys, cellKeys := SpecKeys(specs), Keys(roots);
    var xs := ExportsOf(specs, roots, o.context, ResolverOf(book), parseFloat);
    assert ResolverOf(book)(specs[j].1.cell) == Ok(roots[j]);
    assert Writes(keys, cellKeys, true, j, cellKeys[j]) && Writes(keys, cellKeys, true, j, keys[j]);
    CollectKeys(keys, cellKeys, xs, true, |specs|, cellKeys[j]);
    CollectKeys(keys, cellKeys, xs, true, |specs|, keys[j]);
  }

  /** The build of a one-key spec is the visit of its one cell. */
  lemma OneKeyBuild(book: Book, key: string, spec: CellSpec, cell: Coordinate.Reference, exposeCells: bool,
                    walk: Walk, toArray: Coordinate.Range -> Result<seq<Coordinate.Reference>>,
                    parseFloat: Value -> JsNumber, fuel: nat)
    requires |book.worksheets| > 0 && ResolverOf(book)(spec.cell) == Ok(cell)
    ensures CompileOf(book, [(key, spec)], exposeCells, walk, toArray, parseFloat, fuel)
         == AfterBuild(BuildContext.Build([cell], BuildContext.EnvOf(BookLookUp(book), walk, toArray), map[], fuel),
                       [(key, spec)], [cell], ResolverOf(book), exposeCells, parseFloat)
  {
    OneCell(spec.cell, ResolverOf(book), cell);
    assert SpecCells([(key, spec)]) == [spec.cell];
  }

  /** A one-text map resolves to the one cell. */
  lemma OneCell(text: string, cellOf: Resolver, cell: Coordinate.Reference)
    requires cellOf(text) == Ok(cell)
    ensures CellsOf([text], cellOf) == Ok([cell])
  {
    assert [text][1..] == [];
    assert CellsOf([text][1..], cellOf) == Ok([]);
    assert [cell] + [] == [cell];
  }

  /** Building one root is visiting it. */
  lemma OneRoot(cell: Coordinate.Reference, env: BuildContext.Env, m: map<string, Value>, fuel: nat)
    ensures BuildContext.Build([cell], env, m, fuel).status == BuildContext.Visit(cell, env, m, fuel).status
  {
    assert [cell][..0] == [];
  }

  /** A one-key spec whose cell is of a kind without a case leaves `compile`
      pending forever. */
  lemma UnhandledCellNeverSettles(book: Book, key: string, spec: CellSpec, cell: Coordinate.Reference, sheet: Worksheet,
                                  exposeCells: bool, walk: Walk,
                                  toArray: Coordinate.Range -> Result<seq<Coordinate.Reference>>,
                                  parseFloat: Value -> JsNumber, fuel: nat)
    requires |book.worksheets| > 0 && CellOf(spec.cell, book) == Ok(cell)
    requires SheetById(book.worksheets, Index.Base1(cell.sheet.index)) == Some(sheet)
    requires CellIn(sheet, cell).Unhandled?
    ensures CompileOf(book, [(key, spec)], exposeCells, walk, toArray, parseFloat, fuel) == Pending
  {
    var env := BuildContext.EnvOf(BookLookUp(book), walk, toArray);
    OneKeyBuild(book, key, spec, cell, exposeCells, walk, toArray, parseFloat, fuel);
    UnhandledStalls(book, cell, sheet, walk, toArray, map[], fuel);
    OneRoot(cell, env, map[], fuel);
  }

  /** A one-key spec whose cell is on a sheet number no worksheet has: the
      lookUp throws, and `compile` rejects with that TypeError. */
  lemma MissingWorksheetRejects(book: Book, key: string, spec: CellSpec, cell: Coordinate.Reference,
                                exposeCells: bool, walk: Walk,
                                toArray: Coordinate.Range -> Result<seq<Coordinate.Reference>>,
                                parseFloat: Value -> JsNumber, fuel: nat)
    requires |book.worksheets| > 0 && CellOf(spec.cell, book) == Ok(cell)
    requires SheetById(book.worksheets, Index.Base1(cell.sheet.index)).None?
    ensures CompileOf(book, [(key, spec)], exposeCells, walk, toArray, parseFloat, fuel)
         == Failed(TypeError("Cannot read properties of undefined (reading 'getCell')"))
  {
    var env := BuildContext.EnvOf(BookLookUp(book), walk, toArray);
    OneKeyBuild(book, key, spec, cell, exposeCells, walk, toArray, parseFloat, fuel);
    assert BookLookUp(book)(cell) == Some(Err(TypeError("Cannot read properties of undefined (reading 'getCell')")));
    OneRoot(cell, env, map[], fuel);
  }
}
