/** The statistics endpoint's specification: which cells are numeric, the
    per-column samples that get_stats collects into `numeric_columns`, and
    the outcome it answers for a given store. */
module Stats {

  import opened Outcomes
  import opened Rows

  /** float() of a cell; None where it raises ValueError. A cell that is
      not a string makes float() raise TypeError instead; that case is
      ruled out by AllText before samples are looked at. */
  function Numeric(f: Field, toFloat: FloatParser): Option<real>
  {
    if f.cell.Text? then toFloat(f.cell.text) else None
  }

  predicate AllText(cells: seq<Field>)
  {
    forall p :: 0 <= p < |cells| ==> cells[p].cell.Text?
  }

  /** The values appended to `numeric_columns[column]`, in the order the
      loop visits the cells. */
  function Sample(cells: seq<Field>, column: string, toFloat: FloatParser): seq<real>
  {
    if cells == [] then []
    else
      var last := cells[|cells| - 1];
      Sample(cells[..|cells| - 1], column, toFloat) +
        (if last.column == column && Numeric(last, toFloat).Some?
         then [Numeric(last, toFloat).value] else [])
  }

  /** The keys of `numeric_columns` in the dictionary's order: the order in
      which each column first has a numeric cell. */
  function NumericColumns(cells: seq<Field>, toFloat: FloatParser): (cols: seq<string>)
    ensures forall i, j :: 0 <= i < j < |cols| ==> cols[i] != cols[j]
    ensures forall c :: c in cols ==> Sample(cells, c, toFloat) != []
  {
    if cells == [] then []
    else
      var before := NumericColumns(cells[..|cells| - 1], toFloat);
      var last := cells[|cells| - 1];
      if Numeric(last, toFloat).Some? && last.column !in before then before + [last.column]
      else before
  }

  datatype Summary = Summary(mean: real, median: real)

  /** The stats dictionary: its keys in order, and each key's summary. */
  datatype StatsTable = StatsTable(columns: seq<string>, summaries: map<string, Summary>)

  /** statistics.mean and statistics.median: each is given a sequence of
      floats and raises on an empty one. */
  type Statistic = seq<real> --> real

  ghost predicate DefinedOnNonEmpty(f: Statistic)
  {
    forall s: seq<real> :: s != [] ==> f.requires(s)
  }

  /** The dictionary comprehension over `numeric_columns`. */
  function Table(cells: seq<Field>, toFloat: FloatParser, mean: Statistic, median: Statistic): StatsTable
    requires DefinedOnNonEmpty(mean) && DefinedOnNonEmpty(median)
  {
    var cols := NumericColumns(cells, toFloat);
    StatsTable(cols, map c | c in cols :: Summary(mean(Sample(cells, c, toFloat)), median(Sample(cells, c, toFloat))))
  }

  /** What get_stats answers for a store. */
  function StatsOf(rows: seq<Row>, toFloat: FloatParser, mean: Statistic, median: Statistic): (r: Result<StatsTable>)
    requires DefinedOnNonEmpty(mean) && DefinedOnNonEmpty(median)
    ensures r == Err(NoDataAvailable) <==> rows == []
    ensures r.Ok? ==> r.value.columns != [] && r.value.summaries.Keys == set c | c in r.value.columns
    ensures r.Ok? || r.error in {NoDataAvailable, Uncaught(CellNotText), NoNumericData}
  {
    if rows == [] then Err(NoDataAvailable)
    else
      var cells := Cells(rows);
      if !AllText(cells) then Err(Uncaught(CellNotText))
      else if NumericColumns(cells, toFloat) == [] then Err(NoNumericData)
      else Ok(Table(cells, toFloat, mean, median))
  }

  // ---------------------------------------------------------------------
  // Properties of the samples and the numeric columns

  /** A column is a key of `numeric_columns` exactly when one of its cells parses. */
  lemma {:induction false} NumericColumnsMembership(cells: seq<Field>, toFloat: FloatParser, c: string)
    ensures c in NumericColumns(cells, toFloat) <==>
            exists p :: 0 <= p < |cells| && cells[p].column == c && Numeric(cells[p], toFloat).Some?
    decreases |cells|
  {
    if cells != [] {
      var n := |cells| - 1;
      var front := cells[..n];
      NumericColumnsMembership(front, toFloat, c);
      if c in NumericColumns(cells, toFloat) {
        if c in NumericColumns(front, toFloat) {
          var p :| 0 <= p < |front| && front[p].column == c && Numeric(front[p], toFloat).Some?;
          assert cells[p] == front[p];
        } else {
          assert cells[n].column == c && Numeric(cells[n], toFloat).Some?;
        }
      } else {
        forall p | 0 <= p < |cells| && cells[p].column == c
          ensures Numeric(cells[p], toFloat).None?
        {
          if p < n {
            assert cells[p] == front[p];
          }
        }
      }
    }
  }

  /** The sample of a column holds exactly the parsed values of that column's cells. */
  lemma {:induction false} SampleMembership(cells: seq<Field>, toFloat: FloatParser, c: string, v: real)
    ensures v in Sample(cells, c, toFloat) <==>
            exists p :: 0 <= p < |cells| && cells[p].column == c && Numeric(cells[p], toFloat) == Some(v)
    decreases |cells|
  {
    if cells != [] {
      var n := |cells| - 1;
      var front := cells[..n];
      SampleMembership(front, toFloat, c, v);
      if v in Sample(cells, c, toFloat) {
        if v in Sample(front, c, toFloat) {
          var p :| 0 <= p < |front| && front[p].column == c && Numeric(front[p], toFloat) == Some(v);
          assert cells[p] == front[p];
        } else {
          assert cells[n].column == c && Numeric(cells[n], toFloat) == Some(v);
        }
      } else {
        forall p | 0 <= p < |cells| && cells[p].column == c
          ensures Numeric(cells[p], toFloat) != Some(v)
        {
          if p < n {
            assert cells[p] == front[p];
          }
        }
      }
    }
  }

  /** Samples keep store order: the cells of a later stretch come after those of an earlier one. */
  lemma {:induction false} SampleAppend(a: seq<Field>, b: seq<Field>, toFloat: FloatParser, c: string)
    ensures Sample(a + b, c, toFloat) == Sample(a, c, toFloat) + Sample(b, c, toFloat)
    decreases |b|
  {
    if b == [] {
      assert a + b == a;
    } else {
      var n := |b| - 1;
      assert (a + b)[..|a + b| - 1] == a + b[..n];
      assert (a + b)[|a + b| - 1] == b[n];
      SampleAppend(a, b[..n], toFloat, c);
    }
  }

  /** A column's sample is non-empty exactly when the column is a key of `numeric_columns`. */
  lemma SampleNonEmptyIffNumericColumn(cells: seq<Field>, toFloat: FloatParser, c: string)
    ensures Sample(cells, c, toFloat) != [] <==> c in NumericColumns(cells, toFloat)
  {
    NumericColumnsMembership(cells, toFloat, c);
    if Sample(cells, c, toFloat) != [] {
      var v := Sample(cells, c, toFloat)[0];
      SampleMembership(cells, toFloat, c, v);
    }
  }

  /** A cell whose text float() rejects with ValueError is skipped on its own:
      the cells before and after it, in its row and elsewhere, are collected
      exactly as if it were not there. */
  lemma {:induction false} UnparsableCellSkipped(a: seq<Field>, f: Field, b: seq<Field>, toFloat: FloatParser)
    requires f.cell.Text? && toFloat(f.cell.text).None?
    ensures NumericColumns(a + [f] + b, toFloat) == NumericColumns(a + b, toFloat)
    ensures forall c :: Sample(a + [f] + b, c, toFloat) == Sample(a + b, c, toFloat)
    decreases |b|
  {
    forall c ensures Sample(a + [f] + b, c, toFloat) == Sample(a + b, c, toFloat) {
      SampleAppend(a + [f], b, toFloat, c);
      SampleAppend(a, [f], toFloat, c);
      SampleAppend(a, b, toFloat, c);
      assert Sample([f], c, toFloat) == [] by {
        assert [f][..0] == [];
      }
    }
    if b == [] {
      assert a + [f] + b == a + [f];
      assert (a + [f])[..|a|] == a;
      assert a + b == a;
    } else {
      var n := |b| - 1;
      UnparsableCellSkipped(a, f, b[..n], toFloat);
      var x := a + [f] + b;
      var y := a + b;
      assert x[..|x| - 1] == a + [f] + b[..n];
      assert y[..|y| - 1] == a + b[..n];
      assert x[|x| - 1] == b[n] == y[|y| - 1];
    }
  }

  /** Uploads accumulate: after a second batch of rows, each column's sample is
      its sample over the first batch followed by its sample over the second,
      and a column is numeric when it is numeric in either batch. */
  lemma UploadsAccumulate(first: seq<Row>, second: seq<Row>, toFloat: FloatParser, c: string)
    ensures Sample(Cells(first + second), c, toFloat) ==
            Sample(Cells(first), c, toFloat) + Sample(Cells(second), c, toFloat)
    ensures c in NumericColumns(Cells(first + second), toFloat) <==>
            c in NumericColumns(Cells(first), toFloat) || c in NumericColumns(Cells(second), toFloat)
  {
    CellsAppend(first, second);
    SampleAppend(Cells(first), Cells(second), toFloat, c);
    SampleNonEmptyIffNumericColumn(Cells(first + second), toFloat, c);
    SampleNonEmptyIffNumericColumn(Cells(first), toFloat, c);
    SampleNonEmptyIffNumericColumn(Cells(second), toFloat, c);
  }

  // ---------------------------------------------------------------------
  // Properties of the outcome

  /** A cell that is not a string (a short or long CSV line) makes the whole request fail. */
  lemma NonTextCellFails(rows: seq<Row>, toFloat: FloatParser, mean: Statistic, median: Statistic)
    requires DefinedOnNonEmpty(mean) && DefinedOnNonEmpty(median)
    ensures StatsOf(rows, toFloat, mean, median) == Err(Uncaught(CellNotText)) <==>
            exists p :: 0 <= p < |Cells(rows)| && !Cells(rows)[p].cell.Text?
  {
    if rows == [] {
      assert Cells(rows) == [];
    }
  }

  /** "No numeric data" is answered exactly when the store is non-empty, all
      its cells are strings and none of them parses. */
  lemma NoNumericDataExactly(rows: seq<Row>, toFloat: FloatParser, mean: Statistic, median: Statistic)
    requires DefinedOnNonEmpty(mean) && DefinedOnNonEmpty(median)
    ensures StatsOf(rows, toFloat, mean, median) == Err(NoNumericData) <==>
            rows != [] && AllText(Cells(rows)) &&
            forall p :: 0 <= p < |Cells(rows)| ==> Numeric(Cells(rows)[p], toFloat).None?
  {
    var cells := Cells(rows);
    var cols := NumericColumns(cells, toFloat);
    if cols != [] {
      NumericColumnsMembership(cells, toFloat, cols[0]);
    } else {
      forall p | 0 <= p < |cells| ensures Numeric(cells[p], toFloat).None? {
        NumericColumnsMembership(cells, toFloat, cells[p].column);
      }
    }
  }

  /** A successful answer is keyed by exactly the columns that have a
      numeric cell, in first-appearance order, and each column's summary is
      mean and median of its non-empty sample. */
  lemma StatsTableContents(rows: seq<Row>, toFloat: FloatParser, mean: Statistic, median: Statistic, c: string)
    requires DefinedOnNonEmpty(mean) && DefinedOnNonEmpty(median)
    requires StatsOf(rows, toFloat, mean, median).Ok?
    ensures var t := StatsOf(rows, toFloat, mean, median).value;
            t.columns == NumericColumns(Cells(rows), toFloat) &&
            (c in t.summaries <==>
               exists p :: 0 <= p < |Cells(rows)| && Cells(rows)[p].column == c && Numeric(Cells(rows)[p], toFloat).Some?) &&
            (c in t.summaries ==>
               var s := Sample(Cells(rows), c, toFloat);
               s != [] && t.summaries[c] == Summary(mean(s), median(s)))
  {
    NumericColumnsMembership(Cells(rows), toFloat, c);
  }
}
