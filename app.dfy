/**
 * The two boundary pieces of app.js: the upload filter handed to multer,
 * and the final error handler that turns an error into the HTTP response.
 */
module App {
  import opened Wrappers
  import opened Errors

  /** An uploaded file: where multer stored it and its declared type. */
  datatype File = File(path: string, mimetype: string)

  /** The answer `fileFilter` gives through `cb(error, accept)`. */
  datatype FilterVerdict = FilterVerdict(error: Option<HttpError>, accept: bool)

  predicate IsImageType(mimetype: string) {
    mimetype == "image/png" || mimetype == "image/jpg" || mimetype == "image/jpeg"
  }

  /**
   * `fileFilter`: never an error; the file is kept exactly when its type is
   * one of the three image types, compared as exact strings.
   */
  function FileFilter(file: File): (v: FilterVerdict)
    ensures v.error.None?
    ensures v.accept <==> file.mimetype in ["image/png", "image/jpg", "image/jpeg"]
  {
    if IsImageType(file.mimetype) then FilterVerdict(None, true) else FilterVerdict(None, false)
  }

  /**
   * `req.file` after the multer middleware ran with that filter: the upload
   * if it was accepted, and silently nothing otherwise.
   */
  function Upload(file: Option<File>): (r: Option<File>)
    ensures r.Some? <==> file.Some? && FileFilter(file.value).accept
    ensures r.Some? ==> r == file
  {
    if file.Some? && FileFilter(file.value).accept then file else None
  }

  /** The JSON error response: its status and the body `{ message, data }`. */
  datatype Response = Response(status: int, message: string, data: Option<seq<string>>)

  /**
   * The final error handler: `err.statusCode || 500` as the status, and
   * the error's message and data passed through unchanged.
   */
  function HandleError(err: HttpError): (r: Response)
    ensures HasStatus(err) ==> r.status == err.statusCode.value
    ensures !HasStatus(err) ==> r.status == 500
    ensures r.status != 0
    ensures r.message == err.message && r.data == err.data
  {
    Response(if HasStatus(err) then err.statusCode.value else 500, err.message, err.data)
  }

  /** Whatever codes the handlers assigned, the first non-zero one is the response status. */
  lemma FirstCodeIsStatus(message: string, codes: seq<int>, i: nat)
    requires i < |codes| && codes[i] != 0
    requires forall j :: 0 <= j < i ==> codes[j] == 0
    ensures HandleError(SetStatusAll(Plain(message), codes)).status == codes[i]
  {
    FirstCodeWins(Plain(message), codes, i);
  }
}
