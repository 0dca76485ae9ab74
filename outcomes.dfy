/** What the service's handlers answer: a value on success, or one of the
    error responses they return explicitly, or an exception that escapes a
    handler (which the web framework turns into a 500 response). */
module Outcomes {

  datatype Option<+T> = None | Some(value: T)

  /** Exceptions that no handler catches. */
  datatype Exception =
    | UnreadableUpload  // the upload is not UTF-8, or the CSV reader raises
    | CellNotText       // float() of a cell that is not a string: TypeError
    | JsonTypeError     // `in` or indexing on a JSON value that does not support it

  datatype Error =
    | Unauthorized          // "Unauthorized"
    | NoFileProvided        // "No file provided"
    | NoFileSelected        // "No file selected"
    | InvalidFileType       // "Invalid file type. Only CSV files are allowed."
    | NoDataAvailable       // "No data available"
    | NoNumericData         // "No numeric data found in the dataset"
    | UnsupportedMediaType  // "Unsupported Media Type. ..."
    | MalformedJson         // the framework's own reply to a body that is not JSON
    | NoTextProvided        // "No text provided"
    | Uncaught(cause: Exception)

  datatype Result<+T> = Ok(value: T) | Err(error: Error)

  /** The HTTP status of each error response. */
  function StatusCode(e: Error): (code: nat)
    ensures code == 401 <==> e == Unauthorized
    ensures code == 415 <==> e == UnsupportedMediaType
    ensures code == 500 <==> e.Uncaught?
    ensures code == 400 <==> !(e == Unauthorized || e == UnsupportedMediaType || e.Uncaught?)
  {
    match e
    case Unauthorized => 401
    case UnsupportedMediaType => 415
    case Uncaught(_) => 500
    case _ => 400
  }
}
