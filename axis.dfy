/** lib/coordinate/axis/Axis.ts: what columns, rows and sheets share. An axis
    is compared by its label alone. */
module Axis {
  import opened Text
  import Index
  import Column
  import Row
  import Sheet

  datatype Axis =
    | ColumnAxis(column: Column.Column)
    | RowAxis(row: Row.Row)
    | SheetAxis(sheet: Sheet.Sheet)

  function IndexOf(a: Axis): Index.Index
  {
    match a
    case ColumnAxis(c) => c.index
    case RowAxis(r) => r.index
    case SheetAxis(s) => s.index
  }

  /** The label of the axis; its last character tells the kind apart: a
      letter for a column, a digit for a row, `!` for a sheet. */
  function Label(a: Axis): (r: string)
    ensures |r| >= 2
    ensures a.ColumnAxis? <==> IsUpper(r[|r| - 1])
    ensures a.SheetAxis? <==> r[|r| - 1] == '!'
  {
    match a
    case ColumnAxis(c) =>
      var r := Column.Label(c);
      assert r[|r| - 1] == r[1..][|r| - 2];
      r
    case RowAxis(q) =>
      var r := Row.Label(q);
      assert r[|r| - 1] == r[1..][|r| - 2];
      r
    case SheetAxis(s) => Sheet.Label(s)
  }

  /** `valueOf()`: the 0-based value of the axis's index. */
  function ValueOf(a: Axis): (r: int)
    ensures r == Index.Base0(IndexOf(a)) && r >= 0
  {
    Index.ValueOf(IndexOf(a))
  }

  /** `toString()`: the label, which is never shorter than two characters. */
  function ToString(a: Axis): (r: string)
    ensures r == Label(a) && |r| >= 2
  {
    Label(a)
  }

  /** The object `toJSON()` returns: `{index, label}`. */
  datatype Json = Json(index: int, text: string)

  function ToJson(a: Axis): (r: Json)
    ensures r.index == Index.Base0(IndexOf(a)) && r.text == ToString(a)
  {
    Json(Index.ValueOf(IndexOf(a)), Label(a))
  }

  /** `equals(another)`: the labels are the same string. */
  predicate Equals(a: Axis, b: Axis)
  {
    Label(a) == Label(b)
  }

  /** Labels never collide: a column label has a letter after its `$`, a row
      label a digit, and a sheet label ends in `!`; within each kind the label
      determines the index. So label equality is equality of axes. */
  lemma EqualsIsIdentity(a: Axis, b: Axis)
    ensures Equals(a, b) <==> a == b
  {
    if Equals(a, b) {
      match a {
        case ColumnAxis(c) =>
          Column.FromLabel(c);
          Column.FromLabel(b.column);
        case RowAxis(r) =>
          Row.FromLabel(r);
          Row.FromLabel(b.row);
        case SheetAxis(s) =>
          var l := Label(a);
          assert l[..|l| - 1] == Sheet.Label(b.sheet)[..|l| - 1];
      }
    }
  }
}
