/** What the library sees of hot-formula-parser: the references it hands to the
    `callCellValue` and `callRangeValue` handlers while it walks a formula. The
    parser itself (tokenising, evaluating) is not part of this model; a walk
    is given as the sequence of handler calls it makes, in order. */
module FormulaParser {
  import opened Errors

  /** One axis of a parsed reference (lib/formula-parser/FormulaParserReference.ts):
      its 0-based index, its text and whether it carried a `$`. */
  datatype ParserAxis = ParserAxis(index: nat, text: string, isAbsolute: bool)

  /** A reference as the parser reports it: `label` is the text as written in
      the formula (`A1`, `$B$2`), `sheet` the sheet prefix, absent when the
      formula gave none. */
  datatype ParserReference = ParserReference(row: ParserAxis, column: ParserAxis, text: string, sheet: Option<string>)

  /** One handler call the parser makes while it walks a formula. */
  datatype Visit =
    | CellValue(cell: ParserReference)
    | RangeValue(start: ParserReference, end: ParserReference)

  /** A walk of one formula text: the handler calls in order. */
  type Walk = string -> seq<Visit>
}
