/**
 * The upload error handler of server/middleware/multerError.js: every upload
 * error becomes one 400 reply, and no error passes the request on.
 */
module MulterError {
  import opened Wrappers

  /** An error raised while receiving files: one of multer's own, with its code, or any other. */
  datatype UploadError = Multer(code: string) | Other(message: string)

  /** What the handler does: call `next()`, or answer with a status and a JSON body. */
  datatype Reply = CallNext | Respond(status: int, success: bool, message: string)

  const LIMIT_FILE_SIZE: string := "LIMIT_FILE_SIZE"
  const TOO_LARGE: string := "File too large. Max size is 5MB."
  const INVALID_FILE: string := "Invalid file. Please upload an image (jpg/png/webp)."
  const UPLOAD_FAILED: string := "Upload failed. Try again."

  /** `multerErrorHandler`. */
  function HandleUploadError(err: Option<UploadError>): (r: Reply)
    ensures r == CallNext <==> err.None?
    ensures r.Respond? ==> r.status == 400 && !r.success && r.message != ""
    ensures err == Some(Multer(LIMIT_FILE_SIZE)) ==> r == Respond(400, false, TOO_LARGE)
    ensures (err.Some? && err.value.Multer? && err.value.code != LIMIT_FILE_SIZE) ==> r == Respond(400, false, INVALID_FILE)
    ensures (err.Some? && err.value.Other?) ==>
      r == Respond(400, false, if err.value.message != "" then err.value.message else UPLOAD_FAILED)
  {
    match err
    case None => CallNext
    case Some(Multer(code)) =>
      if code == LIMIT_FILE_SIZE then Respond(400, false, TOO_LARGE) else Respond(400, false, INVALID_FILE)
    case Some(Other(message)) =>
      Respond(400, false, if message != "" then message else UPLOAD_FAILED)
  }

  /**
   * The reply tells the classes apart: the size message comes only from the
   * size limit, and an error of another kind never gets the multer messages
   * unless it carries that very text.
   */
  lemma RepliesClassify(err: UploadError)
    ensures HandleUploadError(Some(err)).message == TOO_LARGE <==>
      (err == Multer(LIMIT_FILE_SIZE) || err == Other(TOO_LARGE))
    ensures err.Multer? ==> HandleUploadError(Some(err)).message in {TOO_LARGE, INVALID_FILE}
  {
  }

  /** All multer codes but the size limit are answered identically. */
  lemma OtherCodesCollapse(c1: string, c2: string)
    requires c1 != LIMIT_FILE_SIZE && c2 != LIMIT_FILE_SIZE
    ensures HandleUploadError(Some(Multer(c1))) == HandleUploadError(Some(Multer(c2)))
  {
  }
}
