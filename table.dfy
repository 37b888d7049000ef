/**
 * The docx4j table builder the charts write to (TableAdapter), and the shape
 * a well-formed grid has: rows that tile the columns and vertical merges that
 * always continue a merge begun above.
 */
module Table {
  import opened Wrappers
  import opened Content

  /** The vertical-merge marker of a cell. */
  datatype Merge = NoMerge | Restart | Continue

  /** A cell: first grid column, columns spanned, merge marker, borders suppressed, paragraphs. */
  datatype Cell = Cell(column: nat, span: nat, merge: Merge, nilBorders: bool, content: seq<Para>)

  type Row = seq<Cell>

  /** The cells of `row` sit side by side from column 0 and end exactly at column `n`. */
  ghost predicate Tiles(row: Row, n: nat) {
    && |row| > 0
    && row[0].column == 0
    && (forall k :: 0 <= k < |row| ==> row[k].span > 0)
    && (forall j, k :: 0 <= j && k == j + 1 && k < |row| ==> row[k].column == row[j].column + row[j].span)
    && row[|row| - 1].column + row[|row| - 1].span == n
  }

  /** Every row of `rows` tiles `n` columns. */
  ghost predicate AllTile(rows: seq<Row>, n: nat) {
    forall i :: 0 <= i < |rows| ==> Tiles(rows[i], n)
  }

  /** The sum of the spans of a row. */
  function SpanSum(row: Row): nat {
    if row == [] then 0 else SpanSum(row[..|row| - 1]) + row[|row| - 1].span
  }

  lemma {:induction false} SpanSumUpTo(row: Row, n: nat, i: nat)
    requires Tiles(row, n) && 1 <= i <= |row|
    ensures SpanSum(row[..i]) == row[i - 1].column + row[i - 1].span
  {
    if i == 1 {
      assert row[..1][..0] == [];
    } else {
      SpanSumUpTo(row, n, i - 1);
      assert row[..i][..i - 1] == row[..i - 1];
    }
  }

  /** A row that tiles `n` columns has spans summing to `n`. */
  lemma TilesSpanSum(row: Row, n: nat)
    requires Tiles(row, n)
    ensures SpanSum(row) == n
  {
    SpanSumUpTo(row, n, |row|);
    assert row[..|row|] == row;
  }

  /** Some cell of `row` starts at column `c` and carries merge marker `m`. */
  ghost predicate MergesAt(row: Row, c: nat, m: Merge) {
    exists k :: 0 <= k < |row| && row[k].column == c && row[k].merge == m
  }

  /** No cell of `row` continues a vertical merge. */
  ghost predicate NoContinue(row: Row) {
    forall k :: 0 <= k < |row| ==> row[k].merge != Continue
  }

  /** No cell of `row` takes part in a vertical merge. */
  ghost predicate NoMerges(row: Row) {
    forall k :: 0 <= k < |row| ==> row[k].merge == NoMerge
  }

  /**
   * Every CONTINUE cell has, in the row right above it, a cell at the same
   * column that restarts or continues the merge (so the first row has none).
   */
  ghost predicate Anchored(rows: seq<Row>) {
    forall i, k :: 0 <= i < |rows| && 0 <= k < |rows[i]| && rows[i][k].merge == Continue ==>
      && 0 < i
      && (MergesAt(rows[i - 1], rows[i][k].column, Restart) || MergesAt(rows[i - 1], rows[i][k].column, Continue))
  }

  /** Appending anchored rows to anchored rows keeps them anchored. */
  lemma AnchoredConcat(a: seq<Row>, b: seq<Row>)
    requires Anchored(a) && Anchored(b)
    ensures Anchored(a + b)
  {
    var ab: seq<Row> := a + b;
    forall i: nat, k: nat | i < |ab| && k < |ab[i]| && ab[i][k].merge == Continue
      ensures 0 < i
      ensures MergesAt(ab[i - 1], ab[i][k].column, Restart) || MergesAt(ab[i - 1], ab[i][k].column, Continue)
    {
      if i < |a| {
        assert ab[i] == a[i];
        assert ab[i - 1] == a[i - 1];
      } else {
        assert ab[i] == b[i - |a|];
        assert b[i - |a|][k].merge == Continue;
        assert ab[i - 1] == b[i - 1 - |a|];
      }
    }
  }

  /** Appending rows that tile `n` columns to such rows. */
  lemma AllTileConcat(a: seq<Row>, b: seq<Row>, n: nat)
    requires AllTile(a, n) && AllTile(b, n)
    ensures AllTile(a + b, n)
  {
    forall i | 0 <= i < |a + b| ensures Tiles((a + b)[i], n) {
      if i >= |a| {
        assert (a + b)[i] == b[i - |a|];
      }
    }
  }

  /**
   * In anchored rows, a CONTINUE at column `c` belongs to a merge that a
   * RESTART at column `c` began in an earlier row, with every row in between
   * continuing it.
   */
  lemma {:induction false} ContinueHasRestart(rows: seq<Row>, i: nat, c: nat)
    requires Anchored(rows) && i < |rows| && MergesAt(rows[i], c, Continue)
    ensures exists j :: 0 <= j < i && MergesAt(rows[j], c, Restart)
                        && forall m :: j < m <= i ==> MergesAt(rows[m], c, Continue)
    decreases i
  {
    var k :| 0 <= k < |rows[i]| && rows[i][k].column == c && rows[i][k].merge == Continue;
    assert 0 < i;
    if MergesAt(rows[i - 1], c, Restart) {
      assert MergesAt(rows[i], c, Continue);
    } else {
      ContinueHasRestart(rows, i - 1, c);
      var j :| 0 <= j < i - 1 && MergesAt(rows[j], c, Restart)
               && forall m :: j < m <= i - 1 ==> MergesAt(rows[m], c, Continue);
      assert MergesAt(rows[i], c, Continue);
    }
  }

  /**
   * The table builder: `startTable` fixes the column widths, `startRow`,
   * `addColumn` and `endRow` append one row cell by cell. Rows are only ever
   * appended.
   */
  class TableAdapter {
    var widths: seq<real>
    var rows: seq<Row>
    var open: Option<Row>

    constructor StartTable(widths: seq<real>)
      ensures this.widths == widths && rows == [] && open == None
    {
      this.widths := widths;
      rows := [];
      open := None;
    }

    method StartRow()
      requires open.None?
      modifies this
      ensures widths == old(widths) && rows == old(rows)
      ensures open == Some([])
    {
      open := Some([]);
    }

    /** `addColumn(index, span, merge, tcPr, content...)`; a null span is 1. */
    method AddColumn(column: nat, span: Option<nat>, merge: Merge, nilBorders: bool, content: seq<Para>)
      requires open.Some?
      modifies this
      ensures widths == old(widths) && rows == old(rows)
      ensures open == Some(old(open.value) + [Cell(column, span.GetOr(1), merge, nilBorders, content)])
    {
      open := Some(open.value + [Cell(column, span.GetOr(1), merge, nilBorders, content)]);
    }

    method EndRow()
      requires open.Some?
      modifies this
      ensures widths == old(widths) && rows == old(rows) + [old(open.value)]
      ensures open == None
    {
      rows := rows + [open.value];
      open := None;
    }
  }
}
