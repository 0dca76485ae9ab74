# CSV uploader API: a Dafny model of its row store and handlers

The service keeps every uploaded CSV row in one process-wide list,
`data_storage`. It offers three data endpoints, each behind an API-key guard:

- `/upload` checks the multipart file part and appends the file's rows.
- `/stats` groups every numeric cell by column and answers mean and median per column.
- `/query` checks a JSON body for a `text` question, then forwards the question and the whole store to an external language model.

The model has these modules:

- `Outcomes` (outcomes.dfy): the error responses, the exceptions that escape a handler, and their HTTP status codes.
- `Rows` (rows.dfy): what `csv.DictReader` produces. A row is its (column, cell) pairs in dictionary order. A cell is a string, the reader's `None` for a short line, or its list of surplus fields for a long line.
- `Upload` (upload.dfy): picking `request.files['file']`, the three filename checks, and the rows an accepted upload appends.
- `Stats` (stats.dfy): the specification of `numeric_columns` (`NumericColumns`, `Sample`), the stats outcome `StatsOf`, and lemmas about them.
- `Query` (query.dfy): the checks `query_data` makes on the content type and the JSON body, with Python's semantics for `not j`, `'text' in j` and `j['text']`.
- `Service` (service.dfy): the API-key test and class `App`. The class holds the store and the handler methods `UploadCsv`, `GetStats` and `QueryData`, plus the routes `UploadRoute`, `StatsRoute` and `QueryRoute`, which wrap each handler in the guard. `GetStats` is the source's nested loop over the store. Its invariant `Collected` says that the keys and lists built so far equal `NumericColumns` and `Sample` of the cells visited so far.

Inputs the model does not compute are passed in as parameters:

- `float()` is a parameter `toFloat: string -> Option<real>`. `None` stands for a `ValueError`.
- `statistics.mean` and `statistics.median` are parameters of type `seq<real> --> real`. They are required to be defined on non-empty sequences, so the verifier checks that each one is only ever given a non-empty sample.
- The bytes of an upload are replaced by the reader's output, `Option<seq<Row>>`. `None` means decoding or reading raised.

Behaviours of the code worth knowing, all modelled as written:

- The comment at app.py:147 speaks of filtering by a column value. That filter exists only as commented-out code (app.py:194-203). The live `/query` is the free-text forwarder.
- `query_data` answers 415 for any `Content-Type` other than exactly `application/json`, including `application/json; charset=utf-8`.
- The code catches only `ValueError`. A short or long CSV line makes `/stats` fail with a 500, because `float()` raises `TypeError` on a non-string cell. A JSON body that is a list or a string mentioning `text`, or a truthy number or boolean, also fails with a 500.

## Model

| member | source | states |
|---|---|---|
| `Outcomes.StatusCode` | app.py:56-160 | the guard answers 401, the content-type check 415, escaped exceptions 500, every other error 400 |
| `Service.Authentication` | app.py:52-54 | the request passes only if the `x-api-key` header is present and equals the configured key; an absent header never passes |
| `Service.App.UploadRoute` | app.py:49-57 | a wrong or absent key gives 401 before any file check, and the store is unchanged; otherwise the result and new store are those of `upload_csv` |
| `Service.App.StatsRoute` | app.py:49-57 | a wrong or absent key gives 401 before the empty-store check; otherwise the answer is `StatsOf` of the current store |
| `Service.App.QueryRoute` | app.py:49-57 | a wrong or absent key gives 401 before the content-type check, and no request is formed; otherwise the result is that of `query_data` |
| `Upload.FirstFile` | app.py:70-73 | `request.files['file']` is absent exactly when no part has field `file`; otherwise it is the first such part's file |
| `Upload.IsCsvName` | app.py:76 | a lower-cased name ends in `.csv` exactly when its last four characters are a dot and c, s, v in either case |
| `Upload.ValidateUpload` | app.py:70-77 | checks run in order: no `file` part gives NoFileProvided; an empty name gives NoFileSelected; a non-`.csv` name gives InvalidFileType; only these three errors occur, and the contents play no part |
| `Upload.UploadedRows` | app.py:79-83 | rows are read only after validation succeeds; an unreadable file is an escaped exception; accepted rows are exactly the reader's output |
| `Service.App.UploadCsv` | app.py:67-88 | on acceptance the store becomes the old store followed by exactly the parsed rows, in order, and `rows_uploaded` is their number (possibly 0); on any error the store is unchanged |
| `Stats.NumericColumns` | app.py:100-109 | the keys of `numeric_columns` have no duplicates, and each key's list is non-empty |
| `Stats.StatsOf` | app.py:96-118 | the "No data available" error occurs exactly for an empty store; a success has at least one column and is keyed by exactly its listed columns; only the three stats errors occur |
| `Stats.NumericColumnsMembership` | app.py:103-109 | a column is a key of `numeric_columns` exactly when one of its cells parses as a number |
| `Stats.SampleMembership` | app.py:103-109 | a column's list holds exactly the parsed values of that column's cells |
| `Stats.SampleAppend` | app.py:103-109 | lists are built in store order: the cells of an earlier stretch of the store come before those of a later one |
| `Stats.SampleNonEmptyIffNumericColumn` | app.py:107-109 | a column's list is non-empty exactly when the column is a key of `numeric_columns` |
| `Stats.UnparsableCellSkipped` | app.py:104-111 | a cell whose text raises ValueError changes neither the keys nor any list; the cells around it, in the same row and elsewhere, are collected as if it were absent |
| `Stats.UploadsAccumulate` | app.py:84 | after two uploads each column's list is its list over the first rows followed by its list over the second, and a column is numeric when it is numeric in either |
| `Stats.NonTextCellFails` | app.py:105-111 | stats fails with an escaped TypeError exactly when some cell in the store is not a string |
| `Stats.NoNumericDataExactly` | app.py:113-114 | "No numeric data found" is answered exactly when the store is non-empty, every cell is a string and none parses |
| `Stats.StatsTableContents` | app.py:113-118 | a successful answer lists `numeric_columns`' keys in first-appearance order; it has a summary for exactly the columns with a parsing cell, each equal to mean and median of that column's non-empty list |
| `Service.App.GetStats` | app.py:96-118 | the nested loop over rows and cells, its early exits and the comprehension produce exactly `StatsOf` of the store; it reads the store and does not change it |
| `Query.Contains` | app.py:155 | Python's `in` on a JSON value: on an object it is key membership, on a list element equality with the string, on a string substring occurrence at some position; it fails with TypeError exactly for null, booleans and numbers |
| `Query.IsSubstringAt` | app.py:155 | Python's `sub in s` on strings holds exactly when `sub` occurs in `s` at some position |
| `Query.CheckQuery` | app.py:152-160 | 415 exactly when the content type is not `application/json`; success exactly when the body is an object with a `text` member other than the empty string, and then the question is that member; a body that is not JSON gives the framework's 400; a falsy body (null, false, 0, empty string, list or object) gives 400 "No text provided"; for an object body, 400 "No text provided" exactly when `text` is missing or empty |
| `Query.NonObjectBodies` | app.py:155-158 | a truthy body that is not an object gives "No text provided" if `text` is not in it, and an escaped TypeError otherwise |
| `Service.App.QueryData` | app.py:152-174 | a request to the language model is formed only when every check passes, and it carries the whole current store and the checked question; otherwise the check's error is answered |

## Left out

- Flask routing, the `/` banner route, request and response objects and JSON serialisation. Outcomes are `Result` values, and `StatusCode` gives each error's status.
- UTF-8 decoding and `csv.DictReader` (app.py:81-83) are library calls. Their output is an input of the model, and a failure is one `UnreadableUpload` case.
- `float()` is a parameter. Its values are modelled as reals, so IEEE infinities and NaN are not represented.
- `statistics.mean` and `statistics.median` are parameters, and their floating-point arithmetic is not modelled.
- Upload.IsCsvName: `str.lower()` is modelled on ASCII letters only. No other character lower-cases to a dot, `c`, `s` or `v`, so the `.csv` test is the same.
- Service.Authentication: the header value is taken as given. The case-insensitive lookup of the header name, and a repeated header, are not modelled.
- The outbound call to the language model and the extraction of its answer (app.py:162-185) are a network client. `QueryData` ends with the request it would send, and the wording of the prompt is not modelled.
- Reading `API_KEY` and `DEEPSEEK_API_KEY` at startup, and the `ValueError` raised when one is missing (app.py:36-44), are configuration I/O. The constructor of `App` only requires a non-empty key.
- The `print` calls (app.py:121, 184) are I/O.
- Commented-out code (app.py:29-33, 126-144, 194-203), including the exact-match query filter, is not live behaviour.
- Concurrent requests on the shared store are not modelled. The source has no locking, and every handler call is modelled as atomic.
- A Python dictionary cannot hold a key twice. Rows in the model may, and no property depends on that.
