/** The upload endpoint's validation: which multipart file it reads, the
    three checks on its name, and what rows it then appends. */
module Upload {

  import opened Outcomes
  import opened Rows

  /** An uploaded file: its client-side name and what decoding it as UTF-8
      and reading it with csv.DictReader yields (None where either raises). */
  datatype FileStorage = FileStorage(filename: string, contents: Option<seq<Row>>)

  /** One file part of a multipart request, under its form field name. */
  datatype FilePart = FilePart(field: string, file: FileStorage)

  /** `request.files[field]`: the first part sent under that field name. */
  function FirstFile(parts: seq<FilePart>, field: string): (r: Option<FileStorage>)
    ensures r.None? <==> forall i :: 0 <= i < |parts| ==> parts[i].field != field
    ensures r.Some? ==>
              exists i :: 0 <= i < |parts| && parts[i].field == field && parts[i].file == r.value &&
                          forall j :: 0 <= j < i ==> parts[j].field != field
  {
    if parts == [] then None
    else if parts[0].field == field then Some(parts[0].file)
    else
      var r := FirstFile(parts[1..], field);
      assert forall i :: 0 < i < |parts| ==> parts[i] == parts[1..][i - 1];
      r
  }

  /** str.lower() on the ASCII letters. */
  function LowerChar(c: char): char
  {
    if 'A' <= c <= 'Z' then (c as int + 32) as char else c
  }

  function Lower(s: string): string
  {
    seq(|s|, i requires 0 <= i < |s| => LowerChar(s[i]))
  }

  predicate EndsWith(s: string, suffix: string)
  {
    |suffix| <= |s| && s[|s| - |suffix|..] == suffix
  }

  /** `filename.lower().endswith('.csv')`: the name ends in a dot followed by
      c, s and v, each in either case. */
  function IsCsvName(name: string): (r: bool)
    ensures r <==> |name| >= 4 && name[|name| - 4] == '.' &&
                   name[|name| - 3] in "cC" && name[|name| - 2] in "sS" && name[|name| - 1] in "vV"
  {
    var n := |name|;
    var low := Lower(name);
    assert n >= 4 ==> low[n - 4..] == [low[n - 4], low[n - 3], low[n - 2], low[n - 1]];
    EndsWith(low, ".csv")
  }

  /** The checks of upload_csv, in their order; Ok carries the file to read. */
  function ValidateUpload(parts: seq<FilePart>): (r: Result<FileStorage>)
    ensures r == Err(NoFileProvided) <==> forall i :: 0 <= i < |parts| ==> parts[i].field != "file"
    ensures r == Err(NoFileSelected) <==> FirstFile(parts, "file").Some? && FirstFile(parts, "file").value.filename == ""
    ensures r == Err(InvalidFileType) <==>
              FirstFile(parts, "file").Some? && FirstFile(parts, "file").value.filename != "" &&
              !IsCsvName(FirstFile(parts, "file").value.filename)
    ensures r.Ok? ==> FirstFile(parts, "file") == Some(r.value) && IsCsvName(r.value.filename)
    ensures r.Ok? || r.error in {NoFileProvided, NoFileSelected, InvalidFileType}
  {
    match FirstFile(parts, "file")
    case None => Err(NoFileProvided)
    case Some(f) =>
      if f.filename == "" then Err(NoFileSelected)
      else if !IsCsvName(f.filename) then Err(InvalidFileType)
      else Ok(f)
  }

  /** The rows an upload appends to the store, or why it appends none.
      Reading happens only after validation, and reads the whole file before
      anything is appended. */
  function UploadedRows(parts: seq<FilePart>): (r: Result<seq<Row>>)
    ensures r.Ok? <==> ValidateUpload(parts).Ok? && ValidateUpload(parts).value.contents.Some?
    ensures r.Ok? ==> FirstFile(parts, "file").Some? && FirstFile(parts, "file").value.contents == Some(r.value)
    ensures ValidateUpload(parts).Err? ==> r == Err(ValidateUpload(parts).error)
    ensures r.Err? && ValidateUpload(parts).Ok? ==> r == Err(Uncaught(UnreadableUpload))
  {
    match ValidateUpload(parts)
    case Err(e) => Err(e)
    case Ok(f) =>
      match f.contents
      case None => Err(Uncaught(UnreadableUpload))
      case Some(rows) => Ok(rows)
  }
}
