/** lib/Formula.ts: a formula text without its `=` sigil, the sheet it lives
    on, and the cells its operands name. */
module Formula {
  import opened Errors
  import opened Text
  import Index
  import Sheet
  import Coordinate
  import opened FormulaParser

  datatype Formula = Formula(formula: string, sheet: Sheet.Sheet)

  /** The second argument of `Formula.from`: a sheet label to parse, or a sheet. */
  datatype SheetArg = SheetText(text: string) | SheetValue(sheet: Sheet.Sheet)

  /** `Formula.isFormula(literal)`: the text starts with `=`. */
  predicate IsFormula(literal: string)
  {
    StartsWith(literal, "=")
  }

  /** `Formula.from(formula, sheet)`: one leading `=` is dropped; a sheet given
      as text is parsed by `Sheet.from` and fails as it does. */
  function From(formula: string, sheet: SheetArg): (r: Result<Formula>)
    ensures sheet.SheetValue? ==> r == Ok(Formula(StripLeading(formula, '='), sheet.sheet))
    ensures sheet.SheetText? ==> (r.Ok? <==> Sheet.From(sheet.text).Ok?)
    ensures sheet.SheetText? && r.Err? ==> r.error == Sheet.From(sheet.text).error
    ensures sheet.SheetText? && r.Ok? ==> r.value == Formula(StripLeading(formula, '='), Sheet.From(sheet.text).value)
    ensures r.Ok? ==> |r.value.formula| + (if IsFormula(formula) then 1 else 0) == |formula|
  {
    var stripped := StripLeading(formula, '=');
    match sheet
    case SheetValue(s) => Ok(Formula(stripped, s))
    case SheetText(text) =>
      var s :- Sheet.From(text);
      Ok(Formula(stripped, s))
  }

  /** `valueOf()`: the text without the sigil. */
  function ValueOf(f: Formula): (r: string)
    ensures "=" + r == ToString(f)
  {
    f.formula
  }

  /** `toString()`: the sigil put back. */
  function ToString(f: Formula): (r: string)
    ensures IsFormula(r) && r[1..] == f.formula
  {
    "=" + f.formula
  }

  /** A formula text survives `from` followed by `toString`. */
  lemma ToStringOfFrom(s: string, sheet: Sheet.Sheet)
    requires IsFormula(s)
    ensures From(s, SheetValue(sheet)).Ok? && ToString(From(s, SheetValue(sheet)).value) == s
  {
    var f := From(s, SheetValue(sheet)).value;
    assert s == [s[0]] + s[1..];
  }

  /** And a formula survives `toString` followed by `from`. */
  lemma FromOfToString(f: Formula)
    ensures From(ToString(f), SheetValue(f.sheet)) == Ok(f)
  {
  }

  /** At most one sigil is dropped: `from("==x")` keeps `=x`. */
  lemma FromStripsOneSigil(rest: string, sheet: Sheet.Sheet)
    ensures From("=" + rest, SheetValue(sheet)) == Ok(Formula(rest, sheet))
    ensures IsFormula(rest) ==> IsFormula(ValueOf(From("=" + rest, SheetValue(sheet)).value))
  {
    assert ("=" + rest)[1..] == rest;
  }

  // ---------------------------------------------------------------------
  // Operand cells
  // ---------------------------------------------------------------------

  /** The sheet text `createReference` puts in front of a parser reference:
      the reference's own sheet, or when that is absent or empty the default
      sheet's 1-based number. */
  function SheetPrefix(cell: ParserReference, defaultSheet: Sheet.Sheet): string
  {
    if cell.sheet.Some? && cell.sheet.value != "" then cell.sheet.value
    else NatToDecimal(Index.Base1(defaultSheet.index))
  }

  /** `createReference(cell, defaultSheet)`: `Reference.from` on the sheet
      prefix, `!` and the label as the parser saw it. */
  function CreateReference(cell: ParserReference, defaultSheet: Sheet.Sheet): Result<Coordinate.Reference>
  {
    Coordinate.From(SheetPrefix(cell, defaultSheet) + "!" + cell.text)
  }

  /** A reference without a sheet lands on the default sheet. */
  lemma CreateReferenceDefaultSheet(cell: ParserReference, defaultSheet: Sheet.Sheet, r: Coordinate.Reference)
    requires cell.sheet == None || cell.sheet == Some("")
    requires cell.text == Coordinate.Label(r)
    ensures CreateReference(cell, defaultSheet) == Ok(r.(sheet := defaultSheet))
  {
    var n := Index.Base1(defaultSheet.index);
    assert Sheet.Sheet(Index.Index(n - 1)) == defaultSheet;
    Coordinate.FromNumberAndLabel(n, r);
  }

  /** A reference with its own sheet number ignores the default sheet. */
  lemma CreateReferenceOwnSheet(cell: ParserReference, defaultSheet: Sheet.Sheet, n: nat, r: Coordinate.Reference)
    requires n >= 1 && cell.sheet == Some(NatToDecimal(n))
    requires cell.text == Coordinate.Label(r)
    ensures CreateReference(cell, defaultSheet) == Ok(r.(sheet := Sheet.Sheet(Index.Index(n - 1))))
  {
    Coordinate.FromNumberAndLabel(n, r);
  }

  /** The cells one handler call contributes: a cell reference, or the cells
      of the range between two references, which must share a sheet.
      `Range.toArray` is not part of this model and is given as `toArray`. */
  function VisitCells(sheet: Sheet.Sheet, v: Visit, toArray: Coordinate.Range -> Result<seq<Coordinate.Reference>>)
    : Result<seq<Coordinate.Reference>>
  {
    match v
    case CellValue(cell) =>
      var c :- CreateReference(cell, sheet);
      Ok([c])
    case RangeValue(start, end) =>
      var s :- CreateReference(start, sheet);
      var e :- CreateReference(end, sheet);
      var g :- Coordinate.NewRange(s, e);
      toArray(g)
  }

  /** A range whose two ends name different sheets is refused by the Range
      constructor: the handler throws CrossSheetRangeError. */
  lemma RangeAcrossSheets(sheet: Sheet.Sheet, start: ParserReference, end: ParserReference, n: nat, m: nat,
                          a: Coordinate.Reference, b: Coordinate.Reference,
                          toArray: Coordinate.Range -> Result<seq<Coordinate.Reference>>)
    requires 1 <= n && 1 <= m && n != m
    requires start.sheet == Some(NatToDecimal(n)) && start.text == Coordinate.Label(a)
    requires end.sheet == Some(NatToDecimal(m)) && end.text == Coordinate.Label(b)
    ensures VisitCells(sheet, RangeValue(start, end), toArray) == Err(CrossSheetRangeError)
  {
    CreateReferenceOwnSheet(start, sheet, n, a);
    CreateReferenceOwnSheet(end, sheet, m, b);
  }

  /** A range whose ends carry no sheet lies on the formula's sheet, and its
      cells are those `toArray` gives for it. */
  lemma RangeOnDefaultSheet(sheet: Sheet.Sheet, start: ParserReference, end: ParserReference,
                            a: Coordinate.Reference, b: Coordinate.Reference,
                            toArray: Coordinate.Range -> Result<seq<Coordinate.Reference>>)
    requires start.sheet == None && start.text == Coordinate.Label(a)
    requires end.sheet == None && end.text == Coordinate.Label(b)
    ensures VisitCells(sheet, RangeValue(start, end), toArray)
         == toArray(Coordinate.Range(a.(sheet := sheet), b.(sheet := sheet)))
  {
    CreateReferenceDefaultSheet(start, sheet, a);
    CreateReferenceDefaultSheet(end, sheet, b);
  }

  /** No handler call of the walk throws. */
  predicate Completes<T>(visits: seq<Visit>, cellsOf: Visit -> Result<seq<T>>)
  {
    forall i | 0 <= i < |visits| :: cellsOf(visits[i]).Ok?
  }

  /** The cells a walk collects when each handler call contributes `cellsOf`
      of it, appended in visiting order. A handler that throws ends the walk:
      `parser.parse` catches the error and reports it in its result, which
      `getOperandCells` ignores, so the cells collected before it stay. */
  function Collect<T>(visits: seq<Visit>, cellsOf: Visit -> Result<seq<T>>): seq<T>
    decreases |visits|
  {
    if visits == [] then []
    else
      match cellsOf(visits[0])
      case Err(_) => []
      case Ok(first) => first + Collect(visits[1..], cellsOf)
  }

  /** The cells `getOperandCells` collects from a walk on `sheet`. */
  function OperandCells(sheet: Sheet.Sheet, visits: seq<Visit>, toArray: Coordinate.Range -> Result<seq<Coordinate.Reference>>)
    : seq<Coordinate.Reference>
  {
    Collect(visits, CellsOf(sheet, toArray))
  }

  /** The handlers of a walk on `sheet`, as one function from handler call to cells. */
  function CellsOf(sheet: Sheet.Sheet, toArray: Coordinate.Range -> Result<seq<Coordinate.Reference>>)
    : Visit -> Result<seq<Coordinate.Reference>>
  {
    v => VisitCells(sheet, v, toArray)
  }

  /** `getOperandCells()`: a fresh parser walks the formula; the handlers push
      each cell and concatenate each range's cells onto `cells`, and the
      first handler that throws ends the parse with `cells` as they stand. */
  method GetOperandCells(f: Formula, walk: Walk, toArray: Coordinate.Range -> Result<seq<Coordinate.Reference>>)
    returns (cells: seq<Coordinate.Reference>)
    ensures cells == OperandCells(f.sheet, walk(f.formula), toArray)
  {
    var visits := walk(f.formula);
    var cellsOf := CellsOf(f.sheet, toArray);
    cells := [];
    var i := 0;
    while i < |visits|
      invariant 0 <= i <= |visits|
      invariant cells + Collect(visits[i..], cellsOf) == Collect(visits, cellsOf)
    {
      var more := cellsOf(visits[i]);
      CollectFirst(visits[i..], cellsOf);
      assert visits[i..][0] == visits[i] && visits[i..][1..] == visits[i + 1..];
      if more.Err? {
        // The parse stops here: the rest of the formula adds nothing.
        assert cells + [] == cells;
        return;
      }
      AppendAssociates(cells, more.value, Collect(visits[i + 1..], cellsOf));
      cells := cells + more.value;
      i := i + 1;
    }
    assert cells + [] == cells;
  }

  /** One step of `Collect`, for a non-empty walk. */
  lemma CollectFirst<T>(visits: seq<Visit>, cellsOf: Visit -> Result<seq<T>>)
    requires visits != []
    ensures cellsOf(visits[0]).Err? ==> Collect(visits, cellsOf) == []
    ensures cellsOf(visits[0]).Ok? ==> Collect(visits, cellsOf) == cellsOf(visits[0]).value + Collect(visits[1..], cellsOf)
  {
  }

  /** Walking two pieces one after the other: when no handler of the first
      throws, the cells of the first, then those of the second; otherwise
      the second adds nothing. */
  lemma {:induction false} CollectAppend<T>(xs: seq<Visit>, ys: seq<Visit>, cellsOf: Visit -> Result<seq<T>>)
    ensures Completes(xs, cellsOf) ==> Collect(xs + ys, cellsOf) == Collect(xs, cellsOf) + Collect(ys, cellsOf)
    ensures !Completes(xs, cellsOf) ==> Collect(xs + ys, cellsOf) == Collect(xs, cellsOf)
    decreases |xs|
  {
    if xs == [] {
      assert xs + ys == ys;
      assert Completes(xs, cellsOf);
    } else {
      assert (xs + ys)[0] == xs[0] && (xs + ys)[1..] == xs[1..] + ys;
      CollectAppend(xs[1..], ys, cellsOf);
      if cellsOf(xs[0]).Ok? {
        assert Completes(xs, cellsOf) <==> Completes(xs[1..], cellsOf) by {
          if Completes(xs[1..], cellsOf) {
            forall i | 0 <= i < |xs| ensures cellsOf(xs[i]).Ok? {
              if i > 0 { assert xs[i] == xs[1..][i - 1]; }
            }
          }
        }
        AppendAssociates(cellsOf(xs[0]).value, Collect(xs[1..], cellsOf), Collect(ys, cellsOf));
      } else {
        assert !cellsOf(xs[0]).Ok?;
      }
    }
  }

  /** A handler that throws ends the walk: whatever follows it adds nothing,
      and the cells collected before it are the walk's cells. */
  lemma ThrowEndsWalk<T>(xs: seq<Visit>, v: Visit, ys: seq<Visit>, cellsOf: Visit -> Result<seq<T>>)
    requires cellsOf(v).Err?
    ensures Collect(xs + [v] + ys, cellsOf) == Collect(xs, cellsOf)
  {
    CollectAppend(xs, [v] + ys, cellsOf);
    assert xs + [v] + ys == xs + ([v] + ys);
    CollectFirst([v] + ys, cellsOf);
    assert ([v] + ys)[0] == v;
    if !Completes(xs, cellsOf) {
    } else {
      assert Collect(xs, cellsOf) + [] == Collect(xs, cellsOf);
    }
  }

  /** When every handler call contributes exactly one cell, the walk collects
      those cells, one per call, in visiting order. */
  lemma {:induction false} CollectSingles<T>(visits: seq<Visit>, cellsOf: Visit -> Result<seq<T>>, cells: seq<T>)
    requires |visits| == |cells|
    requires forall i | 0 <= i < |visits| :: cellsOf(visits[i]) == Ok([cells[i]])
    ensures Collect(visits, cellsOf) == cells
    decreases |visits|
  {
    if visits != [] {
      forall i | 0 <= i < |visits| - 1
        ensures cellsOf(visits[1..][i]) == Ok([cells[1..][i]])
      {
        assert visits[1..][i] == visits[i + 1] && cells[1..][i] == cells[i + 1];
      }
      CollectSingles(visits[1..], cellsOf, cells[1..]);
      assert [cells[0]] + cells[1..] == cells;
    }
  }

  /** A formula whose one range names a sheet the start does not, such as
      `=SUM(A1:2!B2)` on sheet 1, has no operand cells: the Range
      constructor throws inside the handler and the parse swallows it. */
  lemma CrossSheetRangeNoOperands(sheet: Sheet.Sheet, start: ParserReference, end: ParserReference, n: nat, m: nat,
                                  a: Coordinate.Reference, b: Coordinate.Reference,
                                  toArray: Coordinate.Range -> Result<seq<Coordinate.Reference>>)
    requires 1 <= n && 1 <= m && n != m
    requires start.sheet == Some(NatToDecimal(n)) && start.text == Coordinate.Label(a)
    requires end.sheet == Some(NatToDecimal(m)) && end.text == Coordinate.Label(b)
    ensures OperandCells(sheet, [RangeValue(start, end)], toArray) == []
  {
    RangeAcrossSheets(sheet, start, end, n, m, a, b, toArray);
  }

  /** Cell references without a sheet, all on the formula's sheet, come out
      in visiting order, one cell per visit, duplicates kept. */
  lemma OperandCellsOfLabels(sheet: Sheet.Sheet, visits: seq<Visit>, refs: seq<Coordinate.Reference>,
                             toArray: Coordinate.Range -> Result<seq<Coordinate.Reference>>)
    requires |visits| == |refs|
    requires forall i | 0 <= i < |visits| ::
      visits[i].CellValue? && visits[i].cell.sheet == None && visits[i].cell.text == Coordinate.Label(refs[i])
    ensures OperandCells(sheet, visits, toArray) == seq(|refs|, i requires 0 <= i < |refs| => refs[i].(sheet := sheet))
  {
    var cells := seq(|refs|, i requires 0 <= i < |refs| => refs[i].(sheet := sheet));
    var cellsOf := CellsOf(sheet, toArray);
    forall i | 0 <= i < |visits|
      ensures cellsOf(visits[i]) == Ok([cells[i]])
    {
      CreateReferenceDefaultSheet(visits[i].cell, sheet, refs[i]);
    }
    CollectSingles(visits, cellsOf, cells);
  }
}
