/**
 * What the two `/fetch` handlers see of the outside world (backend/main.py,
 * backend/app.py): how yt_dlp's extraction and the polled download ended,
 * the exceptions that reach the `except` clauses, and the HTTP error reply.
 */
module ServerTypes {
  import opened Wrappers

  /** An exception raised inside a handler's `try` block. */
  datatype Raised =
    | DownloadError(message: string)         // yt_dlp's DownloadError; `message` is str(de)
    | HttpError(status: int, detail: string) // an HTTPException the handler raises itself
    | OtherException                         // any other exception

  /** The status and `detail` of an HTTPException the handler lets escape. */
  datatype Reply = Reply(status: int, detail: string)

  /** The fields of yt_dlp's info dictionary the handlers read. */
  datatype Info = Info(title: Option<string>, thumbnail: Option<string>, subtitleLanguages: seq<string>)

  /** How `extract_info(url, download=False)` ended; `Extracted(None)` is a None result. */
  datatype Extraction = ExtractRaised(e: Raised) | Extracted(info: Option<Info>)

  /** How the loop polling the download task ended. */
  datatype DownloadWait =
    | ClientDisconnected  // `request.is_disconnected()` answered true
    | WaitTimedOut        // more than 300 seconds passed
    | TaskRaised(e: Raised)
    | TaskDone
}
