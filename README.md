# excel-module core, modelled in Dafny

excel-module turns a spreadsheet into an API. A caller names exports, each
bound to a cell. `compile` gives back, for each one, either the cell's value
converted to a Number, String or Boolean, or a function that re-evaluates the
cell's formula with some of its input cells replaced by arguments. This
project models the part of the library between the workbook reader (exceljs)
and the formula engine (hot-formula-parser), one Dafny module per source
file:

- **Coordinate algebra.**
  - `Index`, `Column`, `Row`, `Sheet` and `Axis` are in `index.dfy`, `column.dfy`, `row.dfy`, `sheet.dfy` and `axis.dfy`.
  - `Reference`, `Vector` and `Range` are in `coordinate.dfy`. They import one another in the source, and Dafny modules cannot be cyclic, so they share one module.
  - The older `Coordinate`/`CoordRelation` of `lib/coordinate.ts` is in `legacy_coordinate.dfy`.
  - The `base26` package is in `base26.dfy`, specified from its type declaration.
- **Formula wrapper** (`formula.dfy`).
  - `isFormula`, `from`, `toString`/`valueOf` and `createReference`.
  - `getOperandCells` as a method over the sequence of handler calls the parser makes (`formula_parser.dfy`). A handler that throws ends the walk, and the parser catches the throw, so the cells collected before it are returned.
- **Dependency closure.** Two builders walk from root cells through formula operands and fill a context in place.
  - `build_context.dfy` models `lib/build-context.ts`, which uses a flat map keyed by `Reference.toString()`.
  - `context_builder.dfy` models the older `lib/ContextBuilder.ts`, which uses a nested `context[sheet][label]` map and attaches and detaches parser handlers for each parse.
  - Each builder is a class-backed method proved equal to a recursive specification function.
- **Evaluators.**
  - `sandbox_eval.dfy` models `lib/sandbox/eval-formula.ts`: the `toBase26` loop, the nested `parseRange` loops, the override of a copy of the context, and which error wins.
  - `legacy_eval.dfy` models `lib/eval-formula.ts`: the in-place override with `||`, the `$` stripping of labels, and the FormulaError.
- **Compile.**
  - `utils.dfy` models `formatValue`.
  - `normalize.dfy` models `normalizeCoords`: the global regular-expression replace, matched leftmost and greedy with backtracking.
  - `workbook.dfy` models the lookUp handed to the builder, the empty-workbook guard, the export type default, `exposeCells` aliasing, and the export loop. The loop is a method proved equal to a specification function.
- **Support modules.** `errors.dfy` (Option, Result, the error kinds), `text.dfy` (character classes, ASCII case, decimal text, JavaScript `Number()` on strings), `values.dfy` (JavaScript values, truthiness, `String()`) and `scan.dfy` (character runs).

Collaborators the code calls but does not contain are parameters:

| collaborator | how it appears in the model |
|---|---|
| hot-formula-parser's walk | a `Walk`: the handler calls made for a text |
| hot-formula-parser's evaluation | a `Parse`: the result, error and handler errors for a context and a text |
| `Range.toArray` | a function from a range to its cells |
| `toAbsCoord`, `utils.parseRange` | functions in the older builder's environment that return a value or the error they throw |
| `parseFloat` | a function from a value to a number |

The builders' recursion carries a `fuel` bound, because the source has no
visited set and loops forever on a cyclic formula.

Behaviour of the code worth noting:

- The only roots of the build are the spec's cells (lib/Workbook.ts:89). Argument cells are not roots.
- There is no visited set: a shared operand is fetched once per path (lib/build-context.ts:13-31).
- The builder fetches operands on any sheet the formula names (lib/build-context.ts:24-31).
- A spec entry with `args` and no `type` is exported as a function (lib/Workbook.ts:140-142).
- The sandboxed evaluator refuses a falsy entry (lib/sandbox/eval-formula.ts:88-90).

Quirks of the code are modelled as written, each with a lemma that shows it:

- A sheet label is the 0-based index (`Sheet.FirstSheetLabel`, `Coordinate.FromToString`).
- `toBase26` is not bijective (`SandboxEval.TwentySixIsBa`).
- An unhandled cell kind leaves `compile` pending (`Workbook.UnhandledCellNeverSettles`).
- The sheet group of `normalizeCoords` swallows text in front of a name (`Normalize.SheetSwallowsCall`).
- Stripping `$` from labels is not idempotent (`LegacyEval.StripDollarsTwice`).

## Model

| member | source | states |
|---|---|---|
| Base26.From | types/base26.d.ts:18-23 | the number lower-case letters stand for, 'a' being 1 |
| Base26.To | types/base26.d.ts:25-30 | the letters of a positive number are a non-empty lower-case string |
| Base26.FromTo | types/base26.d.ts:18-30 | `from(to(n)) == n` for every n > 0 |
| Base26.ToFrom | types/base26.d.ts:18-30 | `to(from(s)) == s` for every non-empty lower-case s, and from(s) > 0 |
| Base26.ToInjective | types/base26.d.ts:25-30 | distinct positive numbers print as distinct letters |
| Index.New | lib/coordinate/axis/Index.ts:6-11 | construction fails with a ValueError exactly when index < base; otherwise toBase(base) gives the index back and base0 is index - base |
| Index.Base0 | lib/coordinate/axis/Index.ts:13-15 | the base-0 value is never negative |
| Index.Base1 | lib/coordinate/axis/Index.ts:17-19 | base1 is base0 + 1 |
| Index.ValueOf | lib/coordinate/axis/Index.ts:25-27 | valueOf reports the base-0 value |
| Index.ToJson | lib/coordinate/axis/Index.ts:29-31 | toJSON reports the base-0 value |
| Index.ToString | lib/coordinate/axis/Index.ts:33-35 | toString is decimal text whose value is the base-0 value |
| Column.Label | lib/coordinate/axis/Column.ts:16-18 | `$` then upper-case letters that base26 reads, lower-cased, as the 1-based index |
| Column.From | lib/coordinate/axis/Column.ts:20-24 | one leading `$` is dropped and the letters lower-cased; the 1-based index is their base26 value; no letters is a ValueError |
| Column.FromLabel | lib/coordinate/axis/Column.ts:16-24 | parsing a column's own label gives the column back |
| Column.FromIgnoresDollarAndCase | lib/coordinate/axis/Column.ts:20-22 | a leading `$` and letter case make no difference to from |
| Column.FromA | lib/coordinate/axis/Column.ts:22-23 | from("A") has base0 0 |
| Row.Label | lib/coordinate/axis/Row.ts:13-15 | `$` then decimal digits whose value is the 1-based index |
| Row.From | lib/coordinate/axis/Row.ts:17-22 | NaN is a ValueError; otherwise it succeeds exactly when the number is at least 1, and the 1-based index is that number |
| Row.FromLabel | lib/coordinate/axis/Row.ts:13-22 | parsing a row's own label gives the row back |
| Row.FromZero | lib/coordinate/axis/Row.ts:21 | from("0") fails because the index is below base 1 |
| Row.FromOne | lib/coordinate/axis/Row.ts:17-22 | from("1") succeeds |
| Row.FromSeven | lib/coordinate/axis/Row.ts:20-21 | from("7") has base0 6 |
| Row.FromNotANumber | lib/coordinate/axis/Row.ts:18-19 | a label holding a visible ASCII character no numeric literal can contain (not a digit, sign, point, exponent, hexadecimal or radix letter, nor a letter of `Infinity`) is a ValueError |
| Sheet.Label | lib/coordinate/axis/Sheet.ts:14-16 | decimal digits of the base-0 index, then `!` |
| Sheet.Abs | lib/coordinate/axis/Sheet.ts:18-20 | a sheet is always absolute |
| Sheet.From | lib/coordinate/axis/Sheet.ts:22-26 | one trailing `!` is dropped; NaN is a ValueError; otherwise it succeeds exactly when the number is at least 1 |
| Sheet.FromZero | lib/coordinate/axis/Sheet.ts:25 | from("0") fails because sheets are 1-based |
| Sheet.FromThree | lib/coordinate/axis/Sheet.ts:25 | from("3") has base1 3 |
| Sheet.FirstSheetLabel | lib/coordinate/axis/Sheet.ts:14-16 | sheet 1 prints "0!" |
| Sheet.FromLabel | lib/coordinate/axis/Sheet.ts:14-26 | label and from disagree by one: sheet 1's label is refused, and any other label parses as the sheet before |
| Axis.Label | lib/coordinate/axis/Axis.ts:4-6 | a label has at least two characters; its last one is a letter exactly for a column and `!` exactly for a sheet |
| Axis.ValueOf | lib/coordinate/axis/Axis.ts:8-10 | valueOf is the index's base-0 value |
| Axis.ToString | lib/coordinate/axis/Axis.ts:12-14 | toString is the label |
| Axis.ToJson | lib/coordinate/axis/Axis.ts:16-21 | toJSON carries the base-0 index and the label |
| Axis.EqualsIsIdentity | lib/coordinate/axis/Axis.ts:23-25 | label equality holds exactly for equal axes |
| Coordinate.MatchWellFormed | lib/coordinate/Reference.ts:47 | every group the pattern captures is a non-empty run of digits or letters |
| Coordinate.MatchParts | lib/coordinate/Reference.ts:44-47 | a text laid out as `<digits>!$?<letters>$?<digits>` matches with exactly those three groups |
| Coordinate.From | lib/coordinate/Reference.ts:46-55 | no match is a ValueError naming the text; otherwise the result is built from the captured groups |
| Coordinate.FromParts | lib/coordinate/Reference.ts:50-54 | the sheet's error comes first, then the row's; on success sheet, column and row are those the groups parse to |
| Coordinate.EqualsIsIdentity | lib/coordinate/Reference.ts:29-33 | equals holds exactly when column, row and sheet are each equal |
| Coordinate.Label | lib/coordinate/Reference.ts:39-41 | the column label then the row label: `$`, an upper-case letter, and more |
| Coordinate.ToString | lib/coordinate/Reference.ts:35-37 | the sheet label then the label, at least six characters |
| Coordinate.ToStringInjective | lib/coordinate/Reference.ts:35-37 | distinct references print differently, so toString can key a map |
| Coordinate.LabelInjective | lib/coordinate/Reference.ts:39-41 | the label determines column and row |
| Coordinate.FromQualified | lib/coordinate/Reference.ts:39-55 | a label behind its 1-based sheet number parses back to the reference |
| Coordinate.FromSheetAndLabel | lib/coordinate/Reference.ts:46-55 | a label behind any digits parses as that reference on the sheet those digits name, whatever follows that is not a digit |
| Coordinate.FromToString | lib/coordinate/Reference.ts:35-55 | toString does not round-trip: sheet 1 is refused, any other sheet parses as the sheet before, column and row kept |
| Coordinate.FromIgnoresDollars | lib/coordinate/Reference.ts:44-47 | `$` markers and column case make no difference to from |
| Coordinate.FromWithoutDigits | lib/coordinate/Reference.ts:47-48 | a text without digits is a ValueError |
| Coordinate.OffsetAsWritten | lib/coordinate/Reference.ts:21-27 | as written, the moved column and row are plain numbers: the sheet is kept, and each is the old base-0 index plus the offset |
| Coordinate.OffsetAsWrittenByZero | lib/coordinate/Reference.ts:21-33 | as written, the row label of a reference moved by nothing is `$undefined`, never the original row's label |
| Coordinate.Offset | lib/coordinate/Reference.ts:21-27 | with the evident `new Index(n, 0)`: succeeds exactly when neither index goes below 0, keeps the sheet and adds the offsets |
| Coordinate.OffsetByZero | lib/coordinate/Reference.ts:21-33 | moving by (0, 0) gives a reference equal to the original |
| Coordinate.OffsetInverse | lib/coordinate/Reference.ts:21-27 | moving by a vector and then by its opposite comes back |
| Coordinate.VectorFrom | lib/coordinate/Vector.ts:18-25 | the target's error comes first, then the pivot's; otherwise the offsets are the target's base-0 column and row minus the pivot's |
| Coordinate.VectorFromSelf | lib/coordinate/Vector.ts:18-25 | the vector from a reference to itself is (0, 0) |
| Coordinate.VectorIgnoresSheets | lib/coordinate/Vector.ts:19-24 | the sheets of both texts make no difference |
| Coordinate.VectorOfSameCells | lib/coordinate/Vector.ts:19-24 | texts naming the same columns and rows give the same vector |
| Coordinate.VectorFromQualified | lib/coordinate/Vector.ts:18-25 | between two references' texts the vector is the difference of their base-0 columns and rows |
| Coordinate.OffsetByVectorFrom | lib/coordinate/Vector.ts:18-25 | moving the pivot by the vector to the target lands on the target's column and row, on the pivot's sheet |
| Coordinate.NewRange | lib/coordinate/Range.ts:7-12 | a CrossSheetRangeError exactly when the sheets differ; otherwise start and end are kept as given |
| Coordinate.RangeFrom | lib/coordinate/Range.ts:33-35 | the start's parse error, then the end's, then the constructor's check |
| Coordinate.RangeFromCrossSheet | lib/coordinate/Range.ts:11-34 | `from("n!A1", "m!A1")` with n different from m is a CrossSheetRangeError |
| Coordinate.RangeLabelSplit | lib/coordinate/Range.ts:29-31 | the range label is the start's label, `:`, and the end's label |
| Coordinate.RangeLabelStart | lib/coordinate/Range.ts:29-31 | behind the start's sheet number the range label parses as the start |
| Coordinate.RangeLabelEnd | lib/coordinate/Range.ts:29-31 | the part after `:` parses, on the start's sheet, as the end |
| Coordinate.FromA1 | lib/coordinate/Reference.ts:46-55 | `<n>!A1` parses, on sheet n |
| LegacyCoordinate.Plus | lib/coordinate.ts:89-90 | JavaScript `+` on numbers: NaN absorbs, finite values add |
| LegacyCoordinate.RowOfIndex | lib/coordinate.ts:29-31 | a row from a number is absolute, keeps the number, and is labelled `$` and more |
| LegacyCoordinate.ColumnLetters | lib/coordinate.ts:45-47 | the text base26 reads is the label without its `$`, lower-cased |
| LegacyCoordinate.ColumnOfIndex | lib/coordinate.ts:49-51 | a column from a number is absolute, keeps the number, and is labelled `$` and more |
| LegacyCoordinate.RowOfLabel | lib/coordinate.ts:24-27 | `new Row(label)` keeps the label, is absolute exactly when it starts with `$`, and its index is NaN exactly when the number after the `$` is |
| LegacyCoordinate.RowRoundTrip | lib/coordinate.ts:21-33 | a row's label read back as a string gives the same row, NaN included |
| LegacyCoordinate.ColumnRoundTrip | lib/coordinate.ts:41-53 | a column's label read back as a string gives the same column |
| LegacyCoordinate.ColumnIgnoresCase | lib/coordinate.ts:44-47 | case makes no difference to a column read from a label |
| LegacyCoordinate.MatchWellFormed | lib/coordinate.ts:73 | every captured group has the shape its class promises |
| LegacyCoordinate.MatchLayout | lib/coordinate.ts:73 | `[<digits>!]$?<LETTERS>$?<digits>` matches with exactly those groups |
| LegacyCoordinate.Make | lib/coordinate.ts:79-84 | column, row and sheet are kept, and the label is the column label then the row label |
| LegacyCoordinate.From | lib/coordinate.ts:72-84 | no match is an InvalidCoordError; the sheet is 1 without a sheet group, else that group's number |
| LegacyCoordinate.FromWithoutSheet | lib/coordinate.ts:73-78 | a text without a sheet is on sheet 1, and each axis is absolute exactly when its text carried `$` |
| LegacyCoordinate.GroupsRead | lib/coordinate.ts:24-47 | an axis read from a group is absolute exactly when the group starts with `$`; a row's index is its number minus 1 |
| LegacyCoordinate.FromToString | lib/coordinate.ts:79-115 | a coordinate built from numbers prints as text that reads back as the same coordinate |
| LegacyCoordinate.Shift | lib/coordinate.ts:87-93 | the sheet is kept, both indices move by the deltas, and the result is absolute |
| LegacyCoordinate.ShiftShift | lib/coordinate.ts:87-93 | two shifts are one shift by the summed deltas |
| LegacyCoordinate.ShiftByZero | lib/coordinate.ts:87-93 | shifting by nothing keeps the indices and the sheet |
| LegacyCoordinate.NewRelation | lib/coordinate.ts:120-130 | a TypeError exactly when the pivot is not absolute; otherwise the offset is rel minus pivot |
| LegacyCoordinate.ResolveFrom | lib/coordinate.ts:132-135 | a TypeError exactly when the target is not absolute; otherwise the target shifted by the offset |
| LegacyCoordinate.ResolveFromPivot | lib/coordinate.ts:126-134 | resolving from the pivot lands on the relative coordinate's indices |
| LegacyCoordinate.ResolveKeepsDistance | lib/coordinate.ts:132-135 | two targets resolve to coordinates as far apart as the targets are |
| Formula.From | lib/Formula.ts:59-66 | a given sheet is kept and one leading `=` dropped; a sheet text is parsed with Sheet.from, fails as it does, and on success the formula lies on the sheet Sheet.from gives |
| Formula.ValueOf | lib/Formula.ts:51-53 | `=` followed by valueOf is toString |
| Formula.ToString | lib/Formula.ts:55-57 | a formula text whose tail is the formula |
| Formula.ToStringOfFrom | lib/Formula.ts:55-61 | a formula text survives from followed by toString |
| Formula.FromOfToString | lib/Formula.ts:55-61 | a formula survives toString followed by from |
| Formula.FromStripsOneSigil | lib/Formula.ts:61 | at most one `=` is dropped |
| Formula.CreateReferenceDefaultSheet | lib/Formula.ts:22-24 | a reference without a sheet, or with an empty one, lands on the default sheet |
| Formula.CreateReferenceOwnSheet | lib/Formula.ts:22-24 | a reference with its own sheet number ignores the default sheet |
| Formula.RangeAcrossSheets | lib/Formula.ts:39-45 | a range whose ends name different sheets throws CrossSheetRangeError |
| Formula.RangeOnDefaultSheet | lib/Formula.ts:39-45 | a range without sheets lies on the formula's sheet |
| Formula.GetOperandCells | lib/Formula.ts:33-49 | the loop over the handler calls returns the cells collected before the first handler that throws, or all of them |
| Formula.ThrowEndsWalk | lib/Formula.ts:39-47 | a handler that throws hides every later handler call: the cells are those collected before it |
| Formula.CrossSheetRangeNoOperands | lib/Formula.ts:39-47 | a formula whose only operand is a range across sheets has no operand cells, and getOperandCells does not throw |
| Formula.CollectAppend | lib/Formula.ts:34-48 | the cells of a walk in two parts are those of the first, then the second, unless a handler of the first part throws, when they are those of the first part |
| Formula.CollectSingles | lib/Formula.ts:36-38 | single-cell handler calls yield their cells in visiting order |
| Formula.OperandCellsOfLabels | lib/Formula.ts:33-49 | sheetless cell references come out in visiting order, one per visit, duplicates kept, on the formula's sheet |
| BuildContext.BuildContext | lib/build-context.ts:5-43 | the loop over the roots writes the context in place and ends as the specification build does |
| BuildContext.LookUpCell | lib/build-context.ts:14-37 | one lookUp callback: store the value under `toString()`, then build a formula's operands into the same context |
| BuildContext.EnvOfKeysIdentifyCells | lib/build-context.ts:19 | `toString()` keys never collide |
| BuildContext.Build | lib/build-context.ts:13-39 | the roots are walked in order, each a lookUp callback; what the walk promises is stated by BuildSequential (order), BuildAgrees (values) and BuildChangesOnlyFetched (frame) |
| BuildContext.Visit | lib/build-context.ts:15-34 | one lookUp callback fetches its own cell first, then the operands of a formula |
| BuildContext.BuildStops | lib/build-context.ts:13-16 | a build that stops on some roots stops there for good |
| BuildContext.BuildSequential | lib/build-context.ts:13-14 | roots are built one after the other, in order, the later ones from the earlier ones' context |
| BuildContext.BuildNothing | lib/build-context.ts:13-42 | no roots: the context is unchanged and nothing is looked up |
| BuildContext.VisitPlainValue | lib/build-context.ts:19-21 | a value that is not a formula text is stored and leads to no further lookup |
| BuildContext.LookUpErrorRejects | lib/build-context.ts:16 | a lookup error rejects the whole build, whatever comes after it |
| BuildContext.ThrowingHandlerStillBuilds | lib/build-context.ts:18-36 | a formula whose operand handler throws is stored and the build goes on: the throw never reaches the builder |
| BuildContext.BuildChangesOnlyFetched | lib/build-context.ts:8-42 | the context changes only under the keys of the cells looked up |
| BuildContext.BuildAgrees | lib/build-context.ts:13-31 | after a finished build every cell looked up holds, under its key, the value the lookup gave |
| BuildContext.BuildFuel | lib/build-context.ts:13-31 | fuel only cuts the walk short: a build that ends within some fuel ends alike with more |
| BuildContext.SharedOperandFetchedTwice | lib/build-context.ts:13-31 | no visited set: an operand named twice is looked up twice |
| BuildContext.SharedOperandFetchedTwiceByWalk | lib/build-context.ts:24-29 | the same through the source's parser walk |
| BuildContext.SelfReferenceNeverFinishes | lib/build-context.ts:21-30 | a formula naming its own cell runs out of any fuel |
| BuildContext.SelfReferenceNeverFinishesByWalk | lib/build-context.ts:24-29 | the same through the source's parser walk |
| ContextBuilder.MergeEntry | lib/ContextBuilder.ts:32-36 | the deep merge sets `context[sheet][label]` and leaves every other entry as it was |
| ContextBuilder.MergeEntryIdempotent | lib/ContextBuilder.ts:32-36 | merging the same entry twice is merging it once |
| ContextBuilder.NestedContext.Merge | lib/ContextBuilder.ts:32-36 | the merge in place |
| ContextBuilder.Parser.OnCellValue | lib/ContextBuilder.ts:41-48 | one more cell handler is attached |
| ContextBuilder.Parser.OffCellValue | lib/ContextBuilder.ts:58 | every cell handler is removed |
| ContextBuilder.Parser.Parse | lib/ContextBuilder.ts:41-57 | each handler attached pushes the labels for each parser event, and a range handler whose `parseRange` throws passes the first such error to `reject` |
| ContextBuilder.EmittedOnce | lib/ContextBuilder.ts:39-57 | with one handler on each event a parse collects exactly the materials |
| ContextBuilder.EmittedDetached | lib/ContextBuilder.ts:58-59 | with the handlers detached a parse collects nothing |
| ContextBuilder.MaterialsAppend | lib/ContextBuilder.ts:39-57 | materials follow the visiting order |
| ContextBuilder.MaterialsOfCells | lib/ContextBuilder.ts:41-48 | a walk of single cells collects their labels, duplicates kept |
| ContextBuilder.BuildContextOf | lib/ContextBuilder.ts:14-78 | the loop over the entries with one fresh parser ends as the specification build does |
| ContextBuilder.LookUpDone | lib/ContextBuilder.ts:26-72 | one `done` callback: a throwing `toAbsCoord` stalls; otherwise merge, collect materials and build them, a range handler's rejection settling the status; the parser is left with no handlers |
| ContextBuilder.Build | lib/ContextBuilder.ts:24-73 | the entries are walked in order, each a `done` callback; what the walk promises is stated by BuildStops (a stop is final), BuildChangesOnlyFetched (frame) and TableExample (the test's table) |
| ContextBuilder.Visit | lib/ContextBuilder.ts:26-72 | one `done` callback fetches its own label first, then the materials of a formula |
| ContextBuilder.Settle | lib/ContextBuilder.ts:46-71 | a rejection from a range handler settles the promise before the later `resolve()` or the nested build's own outcome |
| ContextBuilder.AbsCoordThrowStalls | lib/ContextBuilder.ts:26-27 | a throwing `toAbsCoord` rejects only the async callback: nothing is merged and the build never settles |
| ContextBuilder.RangeThrowRejectsAfterBuilding | lib/ContextBuilder.ts:49-65 | a throwing `parseRange` rejects the build with its error, yet the nested build of the other materials still runs and fills the context |
| ContextBuilder.RejectionIsFirstThrow | lib/ContextBuilder.ts:49-57 | the build rejects with the error of the first range that throws; later rejections change nothing |
| ContextBuilder.RejectionNone | lib/ContextBuilder.ts:49-57 | a parse rejects nothing exactly when none of its ranges throws |
| ContextBuilder.BuildStops | lib/ContextBuilder.ts:24-73 | a build that stops on some entries stops there for good |
| ContextBuilder.VisitPlainValue | lib/ContextBuilder.ts:38 | a value that is not a formula text is merged and leads to no further lookup |
| ContextBuilder.VisitNoMaterials | lib/ContextBuilder.ts:49-65 | a formula naming no cell leads to no further lookup, and the build rejects when one of its ranges threw |
| ContextBuilder.BuildChangesOnlyFetched | lib/ContextBuilder.ts:32-63 | the context changes only where the answers for the labels looked up are merged |
| ContextBuilder.MergeEntryPresent | lib/ContextBuilder.ts:63 | merging an entry already present with its value changes nothing |
| ContextBuilder.TableExample | test/unit/buildContext.test.js:9-36 | building from `1!A2` over the test's table gives exactly A2 and A1..E1 on sheet 1; D1 and E1 are fetched twice |
| SandboxEval.Letters | lib/sandbox/eval-formula.ts:20-33 | the letters are a non-empty lower-case string |
| SandboxEval.ToBase26 | lib/sandbox/eval-formula.ts:20-33 | the loop prints the base-26 digits of the number, 'a' being zero |
| SandboxEval.LettersRoundTrip | lib/sandbox/eval-formula.ts:20-33 | reading the letters back, 'a' being zero, gives the number |
| SandboxEval.LettersInjective | lib/sandbox/eval-formula.ts:20-33 | distinct numbers print differently |
| SandboxEval.LettersNoLeadingZero | lib/sandbox/eval-formula.ts:23-29 | only zero starts with 'a' |
| SandboxEval.SingleLetter | lib/sandbox/eval-formula.ts:23-29 | below 26 the letters are one letter, the one base26 prints for the 1-based number |
| SandboxEval.TwentySixIsBa | lib/sandbox/eval-formula.ts:23-29 | 26 prints "ba", where base26 prints "aa" for 27 |
| SandboxEval.RangeColumnReadsBack | lib/sandbox/eval-formula.ts:43 | below 26 a written column reads back through Column.from as that column |
| SandboxEval.RangeColumnTwentySix | lib/sandbox/eval-formula.ts:43 | column 26 is written "BA", which Column.from reads as column 52 |
| SandboxEval.IntendedLetters | lib/sandbox/eval-formula.ts:17-20 | the evidently intended letters: base26 reads them as the 1-based number |
| SandboxEval.IntendedLettersBelowTwentySix | lib/sandbox/eval-formula.ts:20-33 | the intended and the printed letters agree below 26 and differ at 26 |
| SandboxEval.IntendedColumnReadsBack | lib/sandbox/eval-formula.ts:43 | every column's intended letters read back through Column.from as that column |
| SandboxEval.ParseRange | lib/sandbox/eval-formula.ts:35-49 | one row of labels per row index, one label per column index, row-major, `<sheet>!$<COL>$<row+1>`; empty when start is past end |
| SandboxEval.Override | lib/sandbox/eval-formula.ts:53-60 | the loop over `args` gives the overridden copy of the shared context |
| SandboxEval.OverriddenLast | lib/sandbox/eval-formula.ts:57-59 | a named key holds what its last naming argument gives: the argument, or the shared value when it is undefined |
| SandboxEval.OverriddenUnlisted | lib/sandbox/eval-formula.ts:53-60 | a key no argument names keeps the shared context's entry |
| SandboxEval.OverriddenKeys | lib/sandbox/eval-formula.ts:53-60 | the local keys are the shared keys and the named ones |
| SandboxEval.EvalFormula | lib/sandbox/eval-formula.ts:8-100 | a falsy entry is an EntryError; otherwise the first handler error, then the parser's error as a FormulaError, then the result |
| LegacyEval.Or | lib/eval-formula.ts:5 | JavaScript `a \|\| b` |
| LegacyEval.Overridden | lib/eval-formula.ts:3-7 | the context keeps every key it had and gains each argument name written so far |
| LegacyEval.OverriddenUnlisted | lib/eval-formula.ts:3-7 | a key no argument names is unchanged |
| LegacyEval.OverriddenFalsy | lib/eval-formula.ts:5 | falsy arguments keep the value the key had |
| LegacyEval.OverriddenLastTruthy | lib/eval-formula.ts:4-6 | a key holds its last truthy argument |
| LegacyEval.StripDollarsKeepsTheRest | lib/eval-formula.ts:12 | only `$` characters are dropped, the rest kept in order |
| LegacyEval.StripDollars | lib/eval-formula.ts:12 | `$` markers are only removed, so the label never grows |
| LegacyEval.StripDollarsNone | lib/eval-formula.ts:12 | a label without `$` is looked up as it is |
| LegacyEval.StripDollarsAbsolute | lib/eval-formula.ts:12 | `$C$R` is looked up as `CR` |
| LegacyEval.StripDollarsPrefix | lib/eval-formula.ts:12 | text without `$` in front is kept, and the rest is stripped |
| LegacyEval.StripDollarsTwice | lib/eval-formula.ts:12 | `$$A` becomes `$A`, so the stripping is not idempotent |
| LegacyEval.Context.Override | lib/eval-formula.ts:3-7 | the caller's context is overwritten in place by the override |
| LegacyEval.Context.Eval | lib/eval-formula.ts:1-28 | a non-string entry text is a TypeError; a parser error is a FormulaError with its message; otherwise the result |
| Utils.FormatValue | lib/utils.ts:24-38 | it succeeds exactly for Number, String and Boolean; Number is parseFloat; any other tag is `Unknown type` with the tag's name |
| Utils.BooleanFalsy | lib/utils.ts:33-34 | the Boolean tag is false exactly for undefined, null, false, 0, NaN and `''` |
| Utils.StringOfString | lib/utils.ts:31-32 | the String tag gives a string its own text |
| Utils.StringOfNumber | lib/utils.ts:31-32 | the String tag's text of a number reads back with Number() as that number |
| Utils.BooleanOfString | lib/utils.ts:31-34 | String then Boolean is true unless the text is empty, so null, 0 and false give true |
| Normalize.NormalizeCoords | lib/Workbook.ts:45-66 | the only failure is reading `id` of a sheet name no worksheet has, and text without a digit is returned as it is |
| Normalize.NormalizeFrom | lib/Workbook.ts:46-65 | the global replace from one position fails only with the missing-worksheet TypeError |
| Normalize.Replacement | lib/Workbook.ts:58-63 | one replacement fails exactly when the match names a sheet no worksheet has, with that TypeError |
| Normalize.NoDigitsUnchanged | lib/Workbook.ts:45-66 | a text without digits holds no reference and is kept as it is |
| Normalize.TailKept | lib/Workbook.ts:46-47 | the text after the last match is copied |
| Normalize.ReplaceThenGoOn | lib/Workbook.ts:46-65 | a match is replaced and the scan goes on after it |
| Normalize.KeepThenGoOn | lib/Workbook.ts:46-47 | where nothing matches, the character is kept and the scan goes on after it |
| Normalize.ReplaceThrows | lib/Workbook.ts:58 | a replacement that throws ends the rewrite with that error |
| Normalize.SingleReference | lib/Workbook.ts:58-63 | a reference without a sheet gets the default sheet, `$` goes before column and row, and column case is kept |
| Normalize.RangeReference | lib/Workbook.ts:58-63 | a range without a sheet gets the default sheet on the first corner and `:$COL$ROW` for the second |
| Normalize.NamedSheet | lib/Workbook.ts:47-58 | an unquoted sheet name is replaced by its worksheet's id; an unknown name is a TypeError |
| Normalize.QuotedSheet | lib/Workbook.ts:47-58 | a quoted sheet name is the text between the quotes |
| Normalize.SheetSwallowsCall | lib/Workbook.ts:47 | `SUM(Sheet1!A1)`: the sheet group takes `SUM(Sheet1` as the name |
| Workbook.SheetById | lib/Workbook.ts:93 | the worksheet with that id, or none when no worksheet has it |
| Workbook.IdByName | lib/Workbook.ts:58 | the id of a worksheet with that name, or none when no worksheet has it |
| Workbook.Join | lib/Workbook.ts:113-118 | the joined text is empty exactly when every run is |
| Workbook.JoinAppend | lib/Workbook.ts:115-117 | runs are joined in order |
| Workbook.LookUp | lib/Workbook.ts:90-131 | a missing worksheet is a TypeError from getCell; `done` is never called exactly for a kind without a case |
| Workbook.LookUpRejects | lib/Workbook.ts:93-129 | the lookUp rejects exactly for a missing worksheet or a formula whose normalization throws |
| Workbook.TextKinds | lib/Workbook.ts:100-124 | merged is `''`, hyperlink is its text, rich text its runs joined, error its code |
| Workbook.FormulaOnOwnSheet | lib/Workbook.ts:125-129 | a formula is normalized against the cell's own sheet and gets `=` in front |
| Workbook.FormulaCellIsWalked | lib/Workbook.ts:125-129 | a formula cell reads as a formula text, so the build walks it |
| Workbook.EqualsStringIsWalked | lib/Workbook.ts:105-108 | a string cell starting with `=` reads as a formula text too |
| Workbook.UnhandledStalls | lib/Workbook.ts:119-130 | a kind without a case stops the build at that cell |
| Workbook.CellsOf | lib/Workbook.ts:89 | the spec cells resolve in order, each to the reference its text parses to |
| Workbook.CellsOfFails | lib/Workbook.ts:89 | resolving fails exactly when some text fails, with the first such error |
| Workbook.DefaultIsString | lib/Workbook.ts:140-175 | without type and args a key is exported as the cell's text |
| Workbook.ArgsMakeAFunction | lib/Workbook.ts:140-168 | with args and no type a key is a function; over a non-formula cell, a constant |
| Workbook.EvaluatorBinding | lib/Workbook.ts:152-163 | an evaluator is bound to its own cell, whose value is a formula, to the context, and to each argument cell's `toString()` in order |
| Workbook.ExportOf | lib/Workbook.ts:140-179 | an evaluator only for a function type over a formula text, bound to the cell's key, the whole context and args exactly when the spec has some; a non-formula function value is a constant; other types give formatted data or fail |
| Workbook.ExportOfFails | lib/Workbook.ts:151-175 | an export throws exactly for an evaluator with an argument cell that does not parse, or an unknown type |
| Workbook.ExportAll | lib/Workbook.ts:137-180 | the loop over the keys gives the exports of the specification loop |
| Workbook.Write | lib/Workbook.ts:170-178 | `exports[key] = x`, and with exposeCells also under the cell's `toString()` |
| Workbook.CollectStops | lib/Workbook.ts:137-180 | once an export throws the loop's result is that error |
| Workbook.CollectKeys | lib/Workbook.ts:137-180 | a key is exported exactly when some step writes it |
| Workbook.CollectLastWriter | lib/Workbook.ts:137-180 | a key holds the export of the last step that wrote it |
| Workbook.CollectFails | lib/Workbook.ts:137-180 | the loop fails exactly when some export throws, with the first such error |
| Workbook.ExposedCellAliasesKey | lib/Workbook.ts:170-178 | with exposeCells a cell's `toString()` holds the same export as its key, unless a later step rewrote one of them |
| Workbook.CompileOf | lib/Workbook.ts:68-194 | an empty workbook is an EmptyWorkbookError, a spec cell that does not resolve is that error, and a finished compile had every spec cell resolved |
| Workbook.Compile | lib/Workbook.ts:68-194 | the guard, the build into a fresh context and the loop give the specification compile; an empty workbook is an EmptyWorkbookError |
| Workbook.CompiledKeys | lib/Workbook.ts:135-180 | without exposeCells the exports are exactly the spec's keys |
| Workbook.CompiledExposesCells | lib/Workbook.ts:170-178 | with exposeCells every spec cell's `toString()` is exported with its key |
| Workbook.UnhandledCellNeverSettles | lib/Workbook.ts:119-130 | a one-key spec over a kind without a case leaves compile pending |
| Workbook.MissingWorksheetRejects | lib/Workbook.ts:93-94 | a one-key spec over a sheet number no worksheet has rejects with getCell's TypeError |

## Left out

- `index.ts` (loading files and streams through exceljs), `lib/debug.ts` and every `debug`/`dumpToFile` call: I/O and logging.
- `wrapFunc` (lib/utils.ts:3-20) builds source text and calls `eval`. An export that it wraps is modelled as a datatype: an evaluator with its entry, context and args, or a constant. The model does not capture whether the generated text parses: it declares one `const` per context key, and a key such as `1!$A$1` is not a JavaScript identifier, so Workbook.ExportOfFails's "exactly" holds only with `wrapFunc` abstracted. In `lib/sandbox/eval-formula.ts` the `context` that the local context copies is the module-level `const context = {}` (line 3). It is the wrapped export's context only because `wrapFunc` evaluates the function's text inside a scope that declares one `const` per context key. The `context` parameter of the SandboxEval members stands for that scope.
- The `dataExports` loop (lib/Workbook.ts:182-189) only feeds the debug output.
- `Vector.normalize` and `length` use floating-point `Math.sqrt`.
- `Range.toArray` is a parameter of the model. It walks with a floating-point unit vector, and it hands sheetless labels to `Reference.from`, which refuses them.
- hot-formula-parser's tokenising and evaluation are not modelled. A walk is the sequence of handler calls it makes; an evaluation is a function of the context and the text. The nested `parser.parse` calls inside the evaluators' cell and range handlers are part of that function. `parser.parse` catches an exception thrown by a handler and reports it in its result instead of throwing, which is why a throwing handler only ends the walk.
- `toAbsCoord` and `utils.parseRange`, which the older builder imports, are not in the source. They are parameters of its environment. Either may throw; what a throw does to the build is modelled.
- ContextBuilder.Visit, ContextBuilder.RangeThrowRejectsAfterBuilding: after a range handler rejects, the source's outer build rejects at once while the nested build goes on in the background, writing into the same context. The model runs the nested build to its end first, so the final context is the same but the order of the rejection and those writes is not captured.
- `parseFloat` in `formatValue` is a parameter.
- The Promise/async structure of both builders is modelled as sequential recursion. A lookUp that never calls `done` is a `Stalled` build, which `compile` reports as `Pending`.
- BuildContext.Build, ContextBuilder.Build, Workbook.CompileOf: the recursion carries a `fuel` bound. The source has none, and a cyclic formula runs until the stack overflows. Running out of fuel is a distinct outcome, `OutOfFuel` and `Exhausted`, not a modelled error.
- SandboxEval.ToBase26 takes a `nat`. For a negative input the source's loop never ends.
- `ContextBuilder`'s `_merge(context, await buildContext(..., context))` merges the context into itself. lodash returns at once when the object is its own source, so this is a no-op and is not modelled.
- exceljs `getCell(label)` decodes an address. Here a worksheet's cells are keyed by column and row, and an absent cell reads as a Null cell.
- SharedString and any other kind without a case are one `Unhandled` kind.
- Workbook.ExportAll reads each key's cell from the roots the build already resolved. The source resolves `Reference.from(this.normalizeCoords(...))` again for each key. Both run the same deterministic function on the same text.
- Object.keys ordering of integer-like keys is not modelled. The spec is a sequence of keys in their given order.
- LegacyEval.Context.Override: the cells, `entry`, `args` and `parseRange` share one object (lib/eval-formula.ts:3-6, :17, :21), so an argument named `entry`, `args` or `parseRange` replaces that key; the model keeps them apart and does not capture the clash. The same holds for the `entry` and `args` context keys of `wrapFunc`.
- JavaScript numbers are modelled as integers or NaN, and `parseFloat` is a parameter. What this leaves out of `Number()` is stated on the next line.
- Row.From, Row.FromNotANumber, Sheet.From, LegacyCoordinate.RowOfLabel: `Number()` is modelled only on the empty string and on optionally signed decimal digits; every other text is NaN here. JavaScript also trims white space and reads fractions, exponents, `0x`/`0o`/`0b` literals and `Infinity`, so `Row.from(" 7")`, `Row.from("7.0")`, `Row.from("1e3")` and `Row.from("0x10")` succeed in the source and are a ValueError in the model. `Reference.from` passes only `\d+` groups (lib/coordinate/Reference.ts:47-53), where the two agree. Row.FromNotANumber is stated only for a visible ASCII character no numeric literal can hold.
- LegacyCoordinate.ColumnOfIndex, LegacyCoordinate.Shift, LegacyCoordinate.ResolveFrom: a column index below 0, which `shift` or `resolveFrom` reach by moving a column left of A (lib/coordinate.ts:87-93, 132-135), is excluded by a `requires`. `new Column(n)` hands `n + 1` to `base26.to`, which is declared only for positive numbers, so the source promises nothing there.
- LegacyCoordinate.Shift: the default arguments `deltaCol = 0, deltaRow = 0` are not modelled; both deltas are always passed.

## Findings

| source | as written | input that shows it | evidently intended | confidence | as-written member | corrected member |
|---|---|---|---|---|---|---|
| lib/coordinate/Reference.ts:21-27 | `offset` passes plain numbers where `Column` and `Row` expect an `Index`, so `base1` of the new row is undefined and its label is `$undefined` | any reference moved by (0, 0): the result's row label is `$undefined`, so it is not equal to the original | `new Column(new Index(n, 0))` and `new Row(new Index(n, 0))`: the same sheet, each 0-based index moved, a move below 0 refused | high; not executed | Coordinate.OffsetAsWrittenByZero | Coordinate.OffsetByZero |
| lib/sandbox/eval-formula.ts:20-33 | `toBase26` writes base-26 digits with 'a' as zero, although its comment cites the bijective base26 package | column index 26 (AA) is written "BA", which `Column.from` reads as column 52 | the bijective letters of the 1-based number, `base26.to(x + 1)` | high; not executed | SandboxEval.RangeColumnTwentySix | SandboxEval.IntendedColumnReadsBack |

`SandboxEval.ParseRange` keeps the letters as written, because it models the
sandboxed function itself. Nothing else in the model reads the labels it
writes: the parser that consumes them is a parameter.
