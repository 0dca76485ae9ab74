/** The rows the CSV reader produces and the store keeps: each row is the
    reader's dictionary, as its (column, cell) pairs in iteration order. */
module Rows {

  import opened Outcomes

  /** A cell as csv.DictReader fills it: the text of a field; the reader's
      `restval` (None) for a column missing from a short line; or the
      reader's `restkey` list of surplus fields of a long line. */
  datatype Cell = Text(text: string) | Missing | Surplus(values: seq<string>)

  datatype Field = Field(column: string, cell: Cell)

  type Row = seq<Field>

  /** Python's float() on a string: Some(value), or None where it raises ValueError. */
  type FloatParser = string -> Option<real>

  /** Every cell of the store, row by row and, within a row, in dictionary order. */
  function Cells(rows: seq<Row>): seq<Field>
  {
    if rows == [] then [] else Cells(rows[..|rows| - 1]) + rows[|rows| - 1]
  }

  lemma {:induction false} CellsAppend(a: seq<Row>, b: seq<Row>)
    ensures Cells(a + b) == Cells(a) + Cells(b)
    decreases |b|
  {
    if b == [] {
      assert a + b == a;
    } else {
      var n := |b| - 1;
      var ab := a + b;
      assert ab[..|ab| - 1] == a + b[..n];
      assert ab[|ab| - 1] == b[n];
      assert Cells(ab) == Cells(a + b[..n]) + b[n];
      assert Cells(b) == Cells(b[..n]) + b[n];
      CellsAppend(a, b[..n]);
    }
  }

  /** The cells of row i sit in the store's cells between those of the rows
      before it and those of the rows after it. */
  lemma {:induction false} CellsAround(rows: seq<Row>, i: nat)
    requires i < |rows|
    ensures Cells(rows) == Cells(rows[..i]) + rows[i] + Cells(rows[i + 1..])
  {
    var front := rows[..i + 1];
    assert rows == front + rows[i + 1..];
    CellsAppend(front, rows[i + 1..]);
    assert front[..|front| - 1] == rows[..i];
    assert Cells(front) == Cells(rows[..i]) + rows[i];
  }
}
