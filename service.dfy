/** The service: the process-wide row store, the API-key guard that wraps
    every data endpoint, and the three handlers over the store. */
module Service {

  import opened Outcomes
  import opened Rows
  import opened Upload
  import opened Stats
  import opened Query

  /** The guard's test: the `x-api-key` header must be present and equal to
      the configured key; an absent header never passes. */
  function Authentication(providedKey: Option<string>, apiKey: string): (ok: bool)
    ensures providedKey.None? ==> !ok
    ensures ok ==> providedKey.value == apiKey
    ensures providedKey == Some(apiKey) ==> ok
  {
    providedKey == Some(apiKey)
  }

  /** What query_data sends to the language model: the whole store and the question. */
  datatype AnalysisRequest = AnalysisRequest(dataset: seq<Row>, question: Json)

  class App {
    /** The API key read at startup; startup refuses a missing or empty one. */
    const apiKey: string
    /** `data_storage`: every row uploaded so far, in upload order. */
    var dataStorage: seq<Row>

    constructor (apiKey: string)
      requires apiKey != ""
      ensures this.apiKey == apiKey && dataStorage == []
    {
      this.apiKey := apiKey;
      dataStorage := [];
    }

    /** upload_csv: validate the file part, read the rows, append them. */
    method UploadCsv(parts: seq<FilePart>) returns (r: Result<nat>)
      modifies this
      ensures match UploadedRows(parts)
              case Ok(rows) => r == Ok(|rows|) && dataStorage == old(dataStorage) + rows
              case Err(e) => r == Err(e) && dataStorage == old(dataStorage)
    {
      var file := ValidateUpload(parts);
      if file.Err? {
        return Err(file.error);
      }
      match file.value.contents {
        case None =>
          r := Err(Uncaught(UnreadableUpload));
        case Some(rows) =>
          dataStorage := dataStorage + rows;
          r := Ok(|rows|);
      }
    }

    /** get_stats: collect each column's numeric cells, then summarise them. */
    method GetStats(toFloat: FloatParser, mean: Statistic, median: Statistic) returns (r: Result<StatsTable>)
      requires DefinedOnNonEmpty(mean) && DefinedOnNonEmpty(median)
      ensures r == StatsOf(dataStorage, toFloat, mean, median)
    {
      var rows := dataStorage;
      if rows == [] {
        return Err(NoDataAvailable);
      }
      // `numeric_columns`: its keys in insertion order, and its lists
      var columns: seq<string> := [];
      var samples: map<string, seq<real>> := map[];
      for i := 0 to |rows|
        invariant AllText(Cells(rows[..i]))
        invariant Collected(Cells(rows[..i]), toFloat, columns, samples)
      {
        var row := rows[i];
        ghost var before := Cells(rows[..i]);
        assert before + row[..0] == before;
        for j := 0 to |row|
          invariant AllText(before + row[..j])
          invariant Collected(before + row[..j], toFloat, columns, samples)
        {
          var field := row[j];
          ghost var seen := before + row[..j];
          assert before + row[..j + 1] == seen + [field];
          match field.cell {
            case Text(text) =>
              match toFloat(text) {
                case Some(v) =>
                  ghost var columns0, samples0 := columns, samples;
                  if field.column !in samples {
                    columns := columns + [field.column];
                    samples := samples[field.column := []];
                  }
                  samples := samples[field.column := samples[field.column] + [v]];
                  CollectNumeric(seen, field, v, toFloat, columns0, samples0);
                case None =>
                  CollectSkipped(seen, field, toFloat, columns, samples);
              }
            case _ =>
              // float() of None or of a list raises TypeError, which escapes
              NonTextCellInStore(rows, i, j);
              return Err(Uncaught(CellNotText));
          }
        }
        assert row[..|row|] == row;
        CellsOfNextRow(rows, i);
      }
      assert rows[..|rows|] == rows;
      if columns == [] {
        return Err(NoNumericData);
      }
      CollectedTable(Cells(rows), toFloat, mean, median, columns, samples);
      r := Ok(StatsTable(columns, map c | c in samples :: Summary(mean(samples[c]), median(samples[c]))));
    }

    /** query_data up to the outbound call: the request it would send, or why it sends none. */
    method QueryData(contentType: Option<string>, body: Option<Json>) returns (r: Result<AnalysisRequest>)
      ensures match CheckQuery(contentType, body)
              case Ok(text) => r == Ok(AnalysisRequest(dataStorage, text))
              case Err(e) => r == Err(e)
    {
      var text := CheckQuery(contentType, body);
      if text.Err? {
        return Err(text.error);
      }
      r := Ok(AnalysisRequest(dataStorage, text.value));
    }

    // The routes: each handler wrapped in the API-key guard.

    method UploadRoute(providedKey: Option<string>, parts: seq<FilePart>) returns (r: Result<nat>)
      modifies this
      ensures !Authentication(providedKey, apiKey) ==> r == Err(Unauthorized) && dataStorage == old(dataStorage)
      ensures Authentication(providedKey, apiKey) ==>
                match UploadedRows(parts)
                case Ok(rows) => r == Ok(|rows|) && dataStorage == old(dataStorage) + rows
                case Err(e) => r == Err(e) && dataStorage == old(dataStorage)
    {
      if !Authentication(providedKey, apiKey) {
        return Err(Unauthorized);
      }
      r := UploadCsv(parts);
    }

    method StatsRoute(providedKey: Option<string>, toFloat: FloatParser, mean: Statistic, median: Statistic)
      returns (r: Result<StatsTable>)
      requires DefinedOnNonEmpty(mean) && DefinedOnNonEmpty(median)
      ensures r == if Authentication(providedKey, apiKey) then StatsOf(dataStorage, toFloat, mean, median)
                   else Err(Unauthorized)
    {
      if !Authentication(providedKey, apiKey) {
        return Err(Unauthorized);
      }
      r := GetStats(toFloat, mean, median);
    }

    method QueryRoute(providedKey: Option<string>, contentType: Option<string>, body: Option<Json>)
      returns (r: Result<AnalysisRequest>)
      ensures !Authentication(providedKey, apiKey) ==> r == Err(Unauthorized)
      ensures Authentication(providedKey, apiKey) ==>
                match CheckQuery(contentType, body)
                case Ok(text) => r == Ok(AnalysisRequest(dataStorage, text))
                case Err(e) => r == Err(e)
    {
      if !Authentication(providedKey, apiKey) {
        return Err(Unauthorized);
      }
      r := QueryData(contentType, body);
    }
  }

  /** The loop's invariant: `columns` and `samples` are `numeric_columns`
      after the loop has visited `cells`. */
  ghost predicate Collected(cells: seq<Field>, toFloat: FloatParser, columns: seq<string>, samples: map<string, seq<real>>)
  {
    columns == NumericColumns(cells, toFloat) &&
    (forall c :: c in samples <==> c in columns) &&
    (forall c :: c in samples ==> samples[c] == Sample(cells, c, toFloat))
  }

  lemma CellsOfNextRow(rows: seq<Row>, i: nat)
    requires i < |rows|
    ensures Cells(rows[..i + 1]) == Cells(rows[..i]) + rows[i]
  {
    assert rows[..i + 1][..i] == rows[..i];
  }

  /** A cell that is not a string makes the store's cells not all text. */
  lemma NonTextCellInStore(rows: seq<Row>, i: nat, j: nat)
    requires i < |rows| && j < |rows[i]| && !rows[i][j].cell.Text?
    ensures !AllText(Cells(rows))
  {
    CellsAround(rows, i);
    assert Cells(rows)[|Cells(rows[..i])| + j] == rows[i][j];
  }

  /** One numeric cell: its column is added to the keys if new, and its value
      appended to the column's list. */
  lemma CollectNumeric(seen: seq<Field>, f: Field, v: real, toFloat: FloatParser,
                       columns: seq<string>, samples: map<string, seq<real>>)
    requires Collected(seen, toFloat, columns, samples)
    requires Numeric(f, toFloat) == Some(v)
    ensures Collected(seen + [f], toFloat,
                      if f.column in samples then columns else columns + [f.column],
                      samples[f.column := (if f.column in samples then samples[f.column] else []) + [v]])
  {
    var cells := seen + [f];
    assert cells[..|seen|] == seen;
    var columns' := if f.column in samples then columns else columns + [f.column];
    var samples' := samples[f.column := (if f.column in samples then samples[f.column] else []) + [v]];
    assert columns' == NumericColumns(cells, toFloat);
    forall c ensures c in samples' <==> c in columns' {
    }
    forall c | c in samples' ensures samples'[c] == Sample(cells, c, toFloat) {
      assert Sample(cells, c, toFloat) == Sample(seen, c, toFloat) + (if c == f.column then [v] else []);
      if c == f.column && f.column !in samples {
        assert c !in NumericColumns(seen, toFloat);
        SampleNonEmptyIffNumericColumn(seen, toFloat, c);
      }
    }
  }

  /** One cell that does not parse: nothing changes. */
  lemma CollectSkipped(seen: seq<Field>, f: Field, toFloat: FloatParser,
                       columns: seq<string>, samples: map<string, seq<real>>)
    requires Collected(seen, toFloat, columns, samples)
    requires Numeric(f, toFloat).None?
    ensures Collected(seen + [f], toFloat, columns, samples)
  {
    assert (seen + [f])[..|seen|] == seen;
  }

  /** After the whole store, the comprehension over `numeric_columns` is the specified table. */
  lemma CollectedTable(cells: seq<Field>, toFloat: FloatParser, mean: Statistic, median: Statistic,
                       columns: seq<string>, samples: map<string, seq<real>>)
    requires DefinedOnNonEmpty(mean) && DefinedOnNonEmpty(median)
    requires Collected(cells, toFloat, columns, samples)
    ensures forall c :: c in samples ==> samples[c] != []
    ensures StatsTable(columns, map c | c in samples :: Summary(mean(samples[c]), median(samples[c]))) ==
            Table(cells, toFloat, mean, median)
  {
  }
}
