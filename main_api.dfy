/**
 * The `/fetch` handler of backend/main.py, reduced to the reply it produces
 * from the outcome of extraction and download. Every path through its
 * `try` block raises: the success path refers to names that are never
 * bound, so it ends in a NameError like any other server error.
 */
module MainApi {
  import opened Wrappers
  import opened ServerTypes
  import opened Filenames

  /** Python's `str.isspace` characters, the ones `strip()` removes. */
  predicate IsPySpace(c: char)
  {
    ('\t' <= c <= '\r') || ('\U{1C}' <= c <= '\U{1F}') || c == ' ' || c == '\U{85}' || c == '\U{A0}'
    || c == '\U{1680}' || ('\U{2000}' <= c <= '\U{200A}') || c == '\U{2028}' || c == '\U{2029}'
    || c == '\U{202F}' || c == '\U{205F}' || c == '\U{3000}'
  }

  /** `not url.strip()`. */
  predicate IsBlank(url: string)
  {
    forall k :: 0 <= k < |url| ==> IsPySpace(url[k])
  }

  const NoUrlDetail := "No URL provided."
  const NotFoundDetail := "Video not found."
  const DisconnectedDetail := "Client disconnected."
  const TimedOutDetail := "Download timed out."
  const DownloadErrorPrefix := "Download error: "
  const ServerErrorDetail := "Server error. Try again later."

  /**
   * The two `except` clauses: a DownloadError becomes 400 with its message
   * after a fixed prefix; everything else, HTTPExceptions included, 500.
   */
  function HandleRaised(e: Raised): (r: Reply)
    ensures r.status == 400 || r.status == 500
    ensures r.status == 400 <==> e.DownloadError?
    ensures e.DownloadError? ==> DownloadErrorPrefix <= r.detail && r.detail[|DownloadErrorPrefix|..] == e.message
    ensures !e.DownloadError? ==> r.detail == ServerErrorDetail
  {
    match e
    case DownloadError(message) => Reply(400, DownloadErrorPrefix + message)
    case _ => Reply(500, ServerErrorDetail)
  }

  /** The exception the `try` block ends with. */
  function TryRaises(extraction: Extraction, wait: DownloadWait): (r: Raised)
    ensures r.DownloadError? <==>
      || (extraction.ExtractRaised? && extraction.e.DownloadError?)
      || (extraction.Extracted? && extraction.info.Some? && wait.TaskRaised? && wait.e.DownloadError?)
    ensures extraction.ExtractRaised? ==> r == extraction.e
    ensures extraction.Extracted? && extraction.info.Some? && wait.TaskRaised? ==> r == wait.e
    ensures extraction == Extracted(None) ==> r == HttpError(404, NotFoundDetail)
  {
    match extraction
    case ExtractRaised(e) => e
    case Extracted(None) => HttpError(404, NotFoundDetail)
    case Extracted(Some(_)) =>
      match wait
      case ClientDisconnected => HttpError(499, DisconnectedDetail)
      case WaitTimedOut => HttpError(504, TimedOutDetail)
      case TaskRaised(e) => e
      // the thumbnail and subtitle steps raise nothing that is a DownloadError,
      // and the response construction then fails on an unbound name
      case TaskDone => OtherException
  }

  /** The reply of `fetch_video`: the blank check, then the `try` block through its handlers. */
  function FetchVideo(url: string, extraction: Extraction, wait: DownloadWait): (r: Reply)
    ensures r.status == 400 || r.status == 422 || r.status == 500
    ensures IsBlank(url) <==> r == Reply(422, NoUrlDetail)
    ensures r.status == 400 <==> !IsBlank(url) && TryRaises(extraction, wait).DownloadError?
  {
    if IsBlank(url) then Reply(422, NoUrlDetail)
    else HandleRaised(TryRaises(extraction, wait))
  }

  /** A DownloadError from extraction or from the download task reaches the client with its text. */
  lemma DownloadErrorReachesClient(url: string, extraction: Extraction, wait: DownloadWait, message: string)
    requires !IsBlank(url)
    requires extraction == ExtractRaised(DownloadError(message))
          || (extraction.Extracted? && extraction.info.Some? && wait == TaskRaised(DownloadError(message)))
    ensures FetchVideo(url, extraction, wait) == Reply(400, DownloadErrorPrefix + message)
  {
  }

  /**
   * The handler's own 404, 499 and 504 are raised inside the `try` and
   * caught by `except Exception`, so the client sees 500 instead.
   */
  lemma OwnHttpErrorsBecome500(url: string, extraction: Extraction, wait: DownloadWait)
    requires !IsBlank(url)
    requires TryRaises(extraction, wait).HttpError?
    ensures FetchVideo(url, extraction, wait) == Reply(500, ServerErrorDetail)
  {
  }

  /** `'en' if 'en' in subtitles else list(subtitles.keys())[0]`, for a non-empty dictionary. */
  function SubtitleLanguage(languages: seq<string>): (lang: Option<string>)
    ensures lang.None? <==> languages == []
    ensures lang.Some? ==> lang.value in languages
    ensures "en" in languages ==> lang == Some("en")
    ensures "en" !in languages && languages != [] ==> lang == Some(languages[0])
  {
    if languages == [] then None
    else if "en" in languages then Some("en")
    else Some(languages[0])
  }

  // -----------------------------------------------------------------------
  // The success path as written, and as evidently intended
  // -----------------------------------------------------------------------

  /**
   * As written: once extraction and download succeed, building the
   * response reads `video`, `filename` and `video_download_url`, none of
   * which is bound, and the NameError is reported as a server error.
   */
  lemma SuccessPathRaises(url: string, info: Info)
    requires !IsBlank(url)
    ensures FetchVideo(url, Extracted(Some(info)), TaskDone) == Reply(500, ServerErrorDetail)
  {
  }

  /** `str(request.base_url).rstrip("/")`. */
  function TrimTrailingSlashes(s: string): (r: string)
    ensures r <= s
    ensures r != [] ==> r[|r| - 1] != '/'
    ensures forall k :: |r| <= k < |s| ==> s[k] == '/'
  {
    if s != [] && s[|s| - 1] == '/' then TrimTrailingSlashes(s[..|s| - 1]) else s
  }

  /** The success body the handler builds. */
  datatype MainResult = MainResult(title: string, thumbnail: Option<string>, downloadUrl: string)

  const DownloadSegment := "/download/"
  const ThumbnailSuffix := "_thumbnail.jpg"

  /** `f"{base_url}/download/{base_filename}.mp4"`, with `root` the base URL followed by `/download/`. */
  function MainDownloadUrl(root: string, base: string): string
  {
    root + base + Extension
  }

  /** The link's part after `root` is one path segment that the download route maps to the output path. */
  lemma MainDownloadUrlServesOutput(root: string, base: string)
    requires AllSafe(base)
    ensures root <= MainDownloadUrl(root, base)
    ensures var name := MainDownloadUrl(root, base)[|root|..];
      '/' !in name && ServedPath(name) == OutputPath(base)
  {
    SafeHasNoSeparators(base);
    assert MainDownloadUrl(root, base)[|root|..] == base + Extension;
  }

  /** The response body for an info whose download finished. */
  function SuccessBody(info: Info, suffix: string, baseUrl: string, frameHost: Option<string>): MainResult
    requires IsRandomSuffix(suffix)
  {
    var base := BaseFilename(info.title, suffix);
    var thumbnail :=
      if info.thumbnail.Some? && info.thumbnail.value != "" then info.thumbnail
      else if frameHost.Some? then Some(frameHost.value + DownloadSegment + base + ThumbnailSuffix)
      else info.thumbnail;
    MainResult(TitleOrDefault(info.title), thumbnail,
               MainDownloadUrl(TrimTrailingSlashes(baseUrl) + DownloadSegment, base))
  }

  /**
   * The handler as evidently intended: the same replies on every failing
   * path, and on success the title, the thumbnail and a download URL
   * under the request's base URL that names the file the download wrote.
   * `frameHost` is the `BASE_URL` setting when ffmpeg produced a frame
   * thumbnail, and None when it did not.
   */
  function FetchVideoIntended(url: string, extraction: Extraction, wait: DownloadWait, suffix: string,
                              baseUrl: string, frameHost: Option<string>)
    : (r: Result<MainResult, Reply>)
    requires IsRandomSuffix(suffix)
    ensures r.Ok? <==> !IsBlank(url) && extraction.Extracted? && extraction.info.Some? && wait.TaskDone?
    ensures r.Err? ==> r.error == FetchVideo(url, extraction, wait)
    ensures r.Ok? ==>
      var info := extraction.info.value;
      && r.value.title != ""
      && (info.title.Some? && info.title.value != "" ==> r.value.title == info.title.value)
      && (info.thumbnail.Some? && info.thumbnail.value != "" ==> r.value.thumbnail == info.thumbnail)
    ensures r.Ok? ==>
      var root := TrimTrailingSlashes(baseUrl) + DownloadSegment;
      && root <= r.value.downloadUrl
      && '/' !in r.value.downloadUrl[|root|..]
      && ServedPath(r.value.downloadUrl[|root|..]) == OutputPath(BaseFilename(extraction.info.value.title, suffix))
  {
    if IsBlank(url) || !(extraction.Extracted? && extraction.info.Some? && wait.TaskDone?) then
      Err(FetchVideo(url, extraction, wait))
    else
      var info := extraction.info.value;
      MainDownloadUrlServesOutput(TrimTrailingSlashes(baseUrl) + DownloadSegment, BaseFilename(info.title, suffix));
      Ok(SuccessBody(info, suffix, baseUrl, frameHost))
  }
}
