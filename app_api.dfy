/**
 * The `/fetch` handler of backend/app.py, reduced to its reply: the ordered
 * classification of DownloadError messages, the catch-all, and the success
 * response with its download URL.
 */
module AppApi {
  import opened Wrappers
  import opened Strings
  import opened ServerTypes
  import opened Filenames

  const PrivateDetail := "This video is private or restricted. Cannot download."
  const RemovedDetail := "This video has been removed or is not available."
  const InvalidUrlDetail := "Invalid YouTube URL. Please check and try again."
  const RestrictedDetail := "Unable to download video. It might be restricted."
  const ServerErrorDetail := "Server error. Please try again later."

  predicate IsPrivate(message: string)
  {
    Contains(message, "Private video") || Contains(message, "This video is private")
  }

  predicate IsRemoved(message: string)
  {
    Contains(message, "Video unavailable") || Contains(message, "removed by the user")
  }

  predicate IsBadUrl(message: string)
  {
    Contains(message, "URL could be invalid") || Contains(message, "Unsupported URL")
  }

  /**
   * The `except DownloadError` branch: markers are tried in order (private,
   * removed, bad URL) and the first that occurs picks the reply.
   */
  function ClassifyDownloadError(message: string): (r: Reply)
    ensures r.status == 400 || r.status == 404
    ensures r.status == 404 <==> !IsPrivate(message) && IsRemoved(message)
    ensures r.status == 404 ==> r.detail == RemovedDetail
    ensures r.detail == PrivateDetail <==> IsPrivate(message)
    ensures r.detail == InvalidUrlDetail <==> !IsPrivate(message) && !IsRemoved(message) && IsBadUrl(message)
    ensures r.detail == RestrictedDetail <==> !IsPrivate(message) && !IsRemoved(message) && !IsBadUrl(message)
  {
    if IsPrivate(message) then Reply(400, PrivateDetail)
    else if IsRemoved(message) then Reply(404, RemovedDetail)
    else if IsBadUrl(message) then Reply(400, InvalidUrlDetail)
    else Reply(400, RestrictedDetail)
  }

  /** A message carrying both a private and a removed marker is reported as private. */
  lemma PrivateWinsOverRemoved(message: string)
    requires IsPrivate(message) && IsRemoved(message)
    ensures ClassifyDownloadError(message) == Reply(400, PrivateDetail)
  {
  }

  /** The two `except` clauses. */
  function HandleRaised(e: Raised): (r: Reply)
    ensures r.status == 400 || r.status == 404 || r.status == 500
    ensures r.status == 500 <==> !e.DownloadError?
    ensures !e.DownloadError? ==> r.detail == ServerErrorDetail
    ensures e.DownloadError? ==> r == ClassifyDownloadError(e.message)
  {
    match e
    case DownloadError(message) => ClassifyDownloadError(message)
    case _ => Reply(500, ServerErrorDetail)
  }

  /** The JSON body of a successful fetch. */
  datatype FetchResult = FetchResult(title: string, thumbnail: Option<string>, downloadUrl: string)

  /**
   * How the `try` block ends, given how extraction and download went, the
   * random suffix, and whether the re-encode steps (starting ffmpeg,
   * removing the original, renaming the `_fixed` file) raised. A None info
   * fails on `info.get`. The ffmpeg wait loop never iterates, because
   * `wait()` returns the exit code and never None.
   */
  function TryOutcome(extraction: Extraction, suffix: string, wait: DownloadWait, reencodeOk: bool)
    : (r: Result<FetchResult, Raised>)
    requires IsRandomSuffix(suffix)
    ensures r.Ok? <==> extraction.Extracted? && extraction.info.Some? && wait.TaskDone? && reencodeOk
    ensures r.Ok? ==>
      && r.value.title == TitleOrDefault(extraction.info.value.title)
      && r.value.thumbnail == extraction.info.value.thumbnail
      && r.value.downloadUrl == DownloadUrl(BaseFilename(extraction.info.value.title, suffix))
    ensures extraction.ExtractRaised? ==> r == Err(extraction.e)
    ensures extraction == Extracted(None) ==> r == Err(OtherException)
    ensures extraction.Extracted? && extraction.info.Some? ==>
      && (wait.ClientDisconnected? ==> r.Err? && r.error.HttpError? && r.error.status == 499)
      && (wait.WaitTimedOut? ==> r.Err? && r.error.HttpError? && r.error.status == 504)
      && (wait.TaskRaised? ==> r == Err(wait.e))
      && (wait.TaskDone? && !reencodeOk ==> r == Err(OtherException))
  {
    match extraction
    case ExtractRaised(e) => Err(e)
    case Extracted(None) => Err(OtherException)
    case Extracted(Some(info)) =>
      var base := BaseFilename(info.title, suffix);
      match wait
      case ClientDisconnected => Err(HttpError(499, "Client disconnected during download"))
      case WaitTimedOut => Err(HttpError(504, "Download timed out"))
      case TaskRaised(e) => Err(e)
      case TaskDone =>
        if !reencodeOk then Err(OtherException)
        else Ok(FetchResult(TitleOrDefault(info.title), info.thumbnail, DownloadUrl(base)))
  }

  /** `fetch_video`'s reply: the success body, or the HTTP error the handlers raise. */
  function FetchVideo(extraction: Extraction, suffix: string, wait: DownloadWait, reencodeOk: bool)
    : (r: Result<FetchResult, Reply>)
    requires IsRandomSuffix(suffix)
    ensures r.Err? ==> r.error.status == 400 || r.error.status == 404 || r.error.status == 500
    ensures r.Err? && r.error.status != 500 ==>
      || (extraction.ExtractRaised? && extraction.e.DownloadError?)
      || (extraction.Extracted? && wait.TaskRaised? && wait.e.DownloadError?)
    ensures r.Ok? <==> extraction.Extracted? && extraction.info.Some? && wait.TaskDone? && reencodeOk
    ensures extraction.ExtractRaised? && extraction.e.DownloadError? ==>
      r == Err(ClassifyDownloadError(extraction.e.message))
    ensures extraction.Extracted? && extraction.info.Some? && wait.TaskRaised? && wait.e.DownloadError? ==>
      r == Err(ClassifyDownloadError(wait.e.message))
    ensures r.Ok? ==> r.value.title != "" && DownloadRoute <= r.value.downloadUrl
    ensures r.Ok? ==>
      var name := r.value.downloadUrl[|DownloadRoute|..];
      '/' !in name && ServedPath(name) == OutputPath(BaseFilename(extraction.info.value.title, suffix))
  {
    match TryOutcome(extraction, suffix, wait, reencodeOk)
    case Ok(result) =>
      DownloadUrlServesOutput(BaseFilename(extraction.info.value.title, suffix));
      Ok(result)
    case Err(e) => Err(HandleRaised(e))
  }

  /**
   * A DownloadError raised by extraction or by the download reaches the
   * client as the classification of its message.
   */
  lemma DownloadErrorReachesClient(extraction: Extraction, suffix: string, wait: DownloadWait,
                                   reencodeOk: bool, message: string)
    requires IsRandomSuffix(suffix)
    requires extraction == ExtractRaised(DownloadError(message))
          || (extraction.Extracted? && extraction.info.Some? && wait == TaskRaised(DownloadError(message)))
    ensures FetchVideo(extraction, suffix, wait, reencodeOk) == Err(ClassifyDownloadError(message))
    ensures FetchVideo(extraction, suffix, wait, reencodeOk).error.status != 500
  {
  }

  /**
   * The handler's own 499 and 504 are raised inside the `try` and caught by
   * `except Exception`, so the client sees 500 instead.
   */
  lemma OwnHttpErrorsBecome500(info: Info, suffix: string, wait: DownloadWait, reencodeOk: bool)
    requires IsRandomSuffix(suffix)
    requires wait == ClientDisconnected || wait == WaitTimedOut
    ensures FetchVideo(Extracted(Some(info)), suffix, wait, reencodeOk) == Err(Reply(500, ServerErrorDetail))
  {
  }
}
