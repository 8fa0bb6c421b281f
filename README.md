# ytd — a Dafny model of the downloader's rules

ytd is a small video downloader. A Next.js page takes a YouTube,
Instagram Reel, Twitter or TikTok link and posts it to a FastAPI backend.
The backend asks yt_dlp for the video's metadata, downloads the video into
`downloads/` under a sanitised name, and answers with a download link.
Two versions of the backend exist side by side: `backend/main.py` and
`backend/app.py`. A scheduled job removes old files.

This project models the parts of that system that decide things:

- **UrlRules** (`frontend/pages/index.tsx`): JavaScript's `trim`, the
  platform badge (`detectPlatform`), the accepted-link regular expression,
  and the `?`-stripping of the submitted link. The expression is written
  twice. `PatternAccepts` is a declarative decomposition
  (scheme · `www.` · host shape · at least one more character).
  `MatchesPattern` is a deterministic matcher. `MatcherDecidesPattern`
  proves the two agree on every string.
- **FetchPage** (`frontend/pages/index.tsx`): the page component as a
  class. Its React state is the fields. Its handlers (submit, cancel, URL
  change, theme toggle, clipboard paste, quality choice) are methods. The
  browser callbacks are methods too: the fetch resolving or rejecting, the
  300-second timeout and the 3-second "merging" publication. They may run
  in any order their preconditions allow. `AbortController` is a class of
  its own, because the timeout aborts the controller it captured and not
  necessarily the current one. Each method states the page's whole new
  state. `Valid` is preserved throughout: the badge matches the field,
  "Merging..." only shows while a publication is pending, and progress
  stays in 0..100.
- **Filenames** (both backends): `sanitize_filename`, the 50-character
  title cut, the `_<suffix>` base name, the output path, the re-encode
  path of `app.py`, the download URL, and the path `download_file` serves.
- **Formats**: the quality→format tables of both backends.
- **MainApi** and **AppApi**: each `/fetch` handler reduced to its reply.
  The inputs are how extraction and the download ended. The handlers'
  exception clauses, including app.py's ordered classification of yt_dlp
  error messages, map those outcomes to HTTP status and detail.
  `SubtitleLanguage` is main.py's subtitle language pick.
- **Cleanup**: `cleanup_old_files`, as a loop over a snapshot of the
  directory listing. It is proved to remove exactly the regular files
  older than the cutoff, and to partition the listing.

The model follows the code, including these quirks:

- main.py's `/fetch` never answers successfully (see Findings).
- In both backends, the 404, 499 and 504 that a handler raises inside its
  own `try` reach the client as 500.
- The page validates the trimmed link but sends the untrimmed link, cut
  at its first `?`.

The random suffix, the clock and the directory listing are parameters.
The suffix is constrained to six lower-case letters or digits. The
outcome of yt_dlp, ffmpeg and the client connection are parameters too.

## Model

| member | source | states |
|---|---|---|
| UrlRules.TrimStart | frontend/pages/index.tsx:74 | removes exactly the leading run of JavaScript whitespace and line terminators |
| UrlRules.TrimEnd | frontend/pages/index.tsx:74 | removes exactly the trailing run of JavaScript whitespace and line terminators |
| UrlRules.Trim | frontend/pages/index.tsx:74 | the result is a slice of the text with blank text on both sides and no whitespace at either end, so exactly the leading and trailing whitespace is removed; it is empty iff the text is blank |
| UrlRules.TrimmedEmpty | frontend/pages/index.tsx:74 | trimming the start and then the end leaves nothing exactly when the text is blank |
| UrlRules.TrimIsSlice | frontend/pages/index.tsx:80 | the trimmed link is a contiguous slice of the field's text |
| UrlRules.DetectPlatform | frontend/pages/index.tsx:63-70 | the badge is one of the four names or ""; "YouTube" iff youtube.com or youtu.be occurs; "Instagram" iff instagram.com occurs and no YouTube host; "TikTok" iff tiktok.com occurs and neither earlier host; "Twitter" iff twitter.com occurs and none of the earlier hosts; "" iff no known host occurs |
| UrlRules.EarlierHostWins | frontend/pages/index.tsx:64-66 | any link naming a YouTube host is badged YouTube, even when it also names Instagram, TikTok or Twitter |
| UrlRules.SchemeEnd | frontend/pages/index.tsx:79 | the matcher's scheme step consumes an optional `http://` or `https://` |
| UrlRules.WwwEnd | frontend/pages/index.tsx:79 | the matcher's `(www\.)?` step consumes an optional `www.` |
| UrlRules.RunEnd | frontend/pages/index.tsx:79 | a greedy `\w+` or `[\w.-]+` run: every consumed character is in the class and the next one is not |
| UrlRules.FramedEnd | frontend/pages/index.tsx:79 | a found end delimits head, a non-empty run and the tail |
| UrlRules.ShapeEnd | frontend/pages/index.tsx:79 | a found end delimits one of the five host shapes |
| UrlRules.PatternAccepts | frontend/pages/index.tsx:78-79 | the regular expression's meaning: an optional scheme, an optional `www.`, one of the five host shapes, then one character that is not a line terminator; its properties are stated by MatcherDecidesPattern |
| UrlRules.MatchesPattern | frontend/pages/index.tsx:80 | the `test` call as a left-to-right matcher; MatcherDecidesPattern proves it accepts exactly what PatternAccepts describes |
| UrlRules.PatternMatcherSound | frontend/pages/index.tsx:78-80 | every link the matcher accepts has the regular expression's decomposition |
| UrlRules.PatternMatcherComplete | frontend/pages/index.tsx:78-80 | every link with the decomposition is accepted by the matcher |
| UrlRules.MatcherDecidesPattern | frontend/pages/index.tsx:78-80 | the matcher accepts exactly the links the regular expression accepts |
| UrlRules.AcceptedUrlMentionsHost | frontend/pages/index.tsx:78-86 | an accepted link always mentions a known host, so its badge is never empty |
| UrlRules.AcceptedHostSurvivesTrim | frontend/pages/index.tsx:80-86 | a host found in the trimmed link is also in the untrimmed text the badge is computed from |
| UrlRules.CleanUrl | frontend/pages/index.tsx:85 | the cleaned link is the longest prefix before the first `?`, and the whole link when there is none |
| UrlRules.Validate | frontend/pages/index.tsx:74-85 | the empty-URL error iff the text is blank; the invalid-URL error iff it is not blank and its trim fails the expression; success iff the trim matches, and then the value is CleanUrl of the untrimmed text, which mentions a known host |
| Strings.ContainsAt | frontend/pages/index.tsx:64 | an occurrence at a position means `includes` holds |
| Strings.ContainsWitness | frontend/pages/index.tsx:64 | `includes` holding yields a position of an occurrence |
| Strings.ReplaceAll | backend/app.py:105 | without an occurrence the text is unchanged; a leading occurrence is replaced |
| Strings.ReplaceOnlyTrailing | backend/app.py:105 | when the pattern occurs only at the end, `replace` rewrites just that end |
| FetchPage.Toggled | frontend/pages/index.tsx:55-61 | the toggled theme differs from the current one |
| FetchPage.ToggleTwice | frontend/pages/index.tsx:55-61 | toggling twice restores the theme |
| FetchPage.CatchMessage | frontend/pages/index.tsx:116-137 | an abort leaves the error text alone; any other failure sets a non-empty text: the API's detail, or "Failed to fetch video info." when the response has none; the thrown message, or "Something went wrong. Try again later." when it is empty |
| FetchPage.ThrownMessage | frontend/pages/index.tsx:117 | the message of the error the catch block receives; its properties are stated by CatchMessage |
| FetchPage.AbortController.constructor | frontend/pages/index.tsx:89 | a new controller is not aborted |
| FetchPage.AbortController.Abort | frontend/pages/index.tsx:88 | the controller is aborted afterwards |
| FetchPage.Page.constructor | frontend/pages/index.tsx:7-23 | the initial state: empty link, quality "best", light theme, nothing loading, no controller, no timers; satisfies Valid |
| FetchPage.Page.Submit | frontend/pages/index.tsx:72-113 | returns the outcome of Validate on the field; a refused link only sets the error and sends nothing; an accepted one aborts the previous controller, installs a fresh live one, arms its timeout, clears error and result, starts loading and sends the cleaned link with the current quality; Valid is kept |
| FetchPage.Page.ShowError | frontend/pages/index.tsx:75 | a refused submission changes only the error text |
| FetchPage.Page.RefreshBadge | frontend/pages/index.tsx:86 | recomputing the badge leaves the state as it is, because Valid already ties the badge to the field |
| FetchPage.Page.StartRequest | frontend/pages/index.tsx:85-113 | the accepted-link half of submit, with the whole new state; progress restarts from 0 when loading turns on |
| FetchPage.Page.AbortCurrent | frontend/pages/index.tsx:88 | the current controller, if any, is aborted and the page's fields are unchanged |
| FetchPage.Page.Install | frontend/pages/index.tsx:89-102 | a fresh live controller becomes current with its timeout armed; loading on, merging off, error and result cleared; Valid is kept |
| FetchPage.Page.ResponseOk | frontend/pages/index.tsx:115-124 | a live request's ok response disarms its timeout, sets progress to 100, shows merging and queues the publication; nothing else changes |
| FetchPage.Page.MergeDone | frontend/pages/index.tsx:124-128 | the oldest queued response becomes the shown result and both spinners stop |
| FetchPage.Page.FetchFailed | frontend/pages/index.tsx:129-140 | the timeout is disarmed; the error text becomes CatchMessage unless the failure is an abort; both spinners stop |
| FetchPage.Page.Timeout | frontend/pages/index.tsx:97-102 | the timeout shows its message, stops both spinners and aborts the controller it captured |
| FetchPage.Page.Cancel | frontend/pages/index.tsx:143-148 | the current controller is aborted; loading stops, progress is 0 and the error is "Fetch cancelled."; merging and queued publications are untouched |
| FetchPage.Page.UrlChange | frontend/pages/index.tsx:150-155 | the field and badge follow the new text; it cancels iff a request is loading |
| FetchPage.Page.ToggleTheme | frontend/pages/index.tsx:55-61 | only the theme changes, to its toggle |
| FetchPage.Page.PasteFromClipboard | frontend/pages/index.tsx:25-35 | clipboard text matching the expression, untrimmed, replaces the field and badge; anything else, or a failed read, changes nothing |
| FetchPage.Page.SelectQuality | frontend/pages/index.tsx:276-277 | only the quality changes |
| FetchPage.TimeoutOutlivesAbort | frontend/pages/index.tsx:97-140 | after a timeout and the resulting AbortError, the timeout's message stays and both spinners are off |
| FetchPage.CancelDuringMerge | frontend/pages/index.tsx:120-148 | cancelling during the merge phase leaves merging on, and the pending publication still shows the result beside "Fetch cancelled." |
| FetchPage.ResubmitAbortsPrevious | frontend/pages/index.tsx:88-90 | a second submission aborts the first request's controller and sends with a distinct live one |
| FetchPage.RefusedUrlSendsNothing | frontend/pages/index.tsx:74-83 | a refused link sends nothing and does not start loading; the message tells blank from invalid |
| Filenames.Sanitize | backend/main.py:40-41 | same length; every character is safe; safe characters are kept and every other character becomes `_` |
| Filenames.SanitizeIdempotent | backend/main.py:40-41 | sanitising twice is sanitising once |
| Filenames.SanitizeKeepsSafeName | backend/main.py:40-41 | a name of safe characters is unchanged |
| Filenames.TitleOrDefault | backend/main.py:69 | a missing or empty title becomes "video"; any other title is kept |
| Filenames.SafeTitle | backend/main.py:73 | a safe prefix of the sanitised title, min(length, 50) characters long |
| Filenames.BaseFilename | backend/main.py:73-75 | the base name is the safe title of the defaulted title, then `_`, then the suffix; it is safe and 8 to 57 characters long |
| Filenames.SafeHasNoSeparators | backend/main.py:40-41 | a sanitised name holds neither `/` nor `.` |
| Filenames.OutputPath | backend/main.py:76 | `downloads/`, the base name and `.mp4`; OutputPathShape states its shape |
| Filenames.ServedPath | backend/app.py:155 | the file `download_file` serves for a name; DownloadUrlServesOutput relates it to the output path |
| Filenames.FixedPath | backend/app.py:105 | the re-encode path; FixedPathRewritesExtensionOnly states what it is for an output path |
| Filenames.DownloadUrl | backend/app.py:130 | the link app.py answers with; DownloadUrlServesOutput states that it leads to the output file |
| Filenames.OutputPathShape | backend/main.py:73-76 | the output path starts with `downloads/` and ends with `.mp4`; its only `/` ends the directory and its only `.` starts the extension |
| Filenames.FixedPathRewritesExtensionOnly | backend/app.py:105 | the re-encode path is the output path with `.mp4` turned into `_fixed.mp4`, and nothing else changed |
| Filenames.DownloadUrlServesOutput | backend/app.py:130 | the download link's last part is one path segment, and `download_file` maps it back to the output path |
| Formats.Height | backend/main.py:78-82 | a height quality is its height followed by `p` |
| Formats.MainFormat | backend/main.py:78-86 | heights map to `best[height<=h]`, "audio" to `bestaudio`, and anything else to `best` |
| Formats.AppFormat | backend/app.py:63-70 | heights map to `bestvideo[height<=h]+bestaudio/best[height<=h]`, and anything else, "audio" included, to the default |
| Formats.AudioChoiceDiffers | backend/app.py:63-70 | app.py serves "audio" like "best", while main.py serves audio only |
| MainApi.HandleRaised | backend/main.py:160-166 | a DownloadError becomes 400 with "Download error: " and its message; every other exception becomes 500 "Server error. Try again later." |
| MainApi.IsBlank | backend/main.py:57 | `not url.strip()`: every character is one that Python's `str.isspace` accepts |
| MainApi.TryRaises | backend/main.py:62-158 | the try block raises a DownloadError iff extraction or the download raised one, and then it is that same exception; a None info raises the 404 HTTPException |
| MainApi.FetchVideo | backend/main.py:54-166 | the status is 400, 422 or 500; 422 "No URL provided." iff the link is blank after `strip`; 400 iff the try block raised a DownloadError |
| MainApi.DownloadErrorReachesClient | backend/main.py:160-162 | a DownloadError from extraction or from the download reaches the client as 400 with its text |
| MainApi.OwnHttpErrorsBecome500 | backend/main.py:66-166 | the handler's own 404, 499 and 504 are caught by the catch-all and reach the client as 500 |
| MainApi.SubtitleLanguage | backend/main.py:125-127 | no language iff there are no subtitles; "en" when present, otherwise the first language |
| MainApi.SuccessPathRaises | backend/main.py:145-158 | a successful extraction and download still end in a 500 |
| MainApi.TrimTrailingSlashes | backend/main.py:146 | removes exactly the trailing `/` characters |
| MainApi.MainDownloadUrl | backend/main.py:147 | the base URL with `/download/`, the base name and `.mp4`; MainDownloadUrlServesOutput states where it leads |
| MainApi.MainDownloadUrlServesOutput | backend/main.py:146-147 | the part of the link after the base URL and `/download/` is one path segment that `download_file` maps to the output path |
| MainApi.SuccessBody | backend/main.py:151-158 | the success body of the corrected handler; FetchVideoIntended states its properties |
| MainApi.FetchVideoIntended | backend/main.py:110-158 | success iff the link is not blank and extraction and download succeed; every failure gives main.py's own reply; on success the title is non-empty and kept when present, a present thumbnail is kept, and the download link lies under the request's base URL and names the file the download wrote |
| AppApi.ClassifyDownloadError | backend/app.py:138-148 | status 400 or 404; 404 iff a removal marker occurs without a privacy marker; each detail text iff its marker is the first to match, and the restricted text when none does |
| AppApi.PrivateWinsOverRemoved | backend/app.py:141-144 | a message with both a privacy and a removal marker is reported as private |
| AppApi.HandleRaised | backend/app.py:138-151 | a DownloadError gets ClassifyDownloadError of its message; every other exception gets 500 "Server error. Please try again later." |
| AppApi.TryOutcome | backend/app.py:49-136 | the try block succeeds iff extraction returns an info, the download finishes without raising and the re-encode steps succeed; success returns the defaulted title, the info's thumbnail and the base name's download link; on failure it passes on extraction's or the download's own exception, the handler's 499 or 504 HTTPException, or a generic exception for a None info or a failed re-encode |
| AppApi.FetchVideo | backend/app.py:43-151 | the status is 400, 404 or 500; a DownloadError from extraction or the download gives ClassifyDownloadError of its message, and any status but 500 comes from such an error; success under TryOutcome's condition, with a non-empty title and a link whose last segment is served from the file the download wrote |
| AppApi.DownloadErrorReachesClient | backend/app.py:138-148 | a DownloadError from extraction or from the download reaches the client as the classification of its message, never as 500 |
| AppApi.OwnHttpErrorsBecome500 | backend/app.py:94-151 | a client disconnect or timeout during the download reaches the client as 500 |
| Cleanup.RemoveExpired | backend/main.py:176-182 | an entry is removed iff it is a regular file modified before `now - maxAge`; removed and remaining partition the listing |
| Cleanup.MainCleanup | backend/main.py:176-182 | main.py removes exactly the regular files older than 7200 seconds |
| Cleanup.AppCleanup | backend/app.py:166-176 | app.py removes exactly the regular files older than 86400 seconds |

## Left out

- Strings.ReplaceAll: the contract covers only the unchanged case and a leading occurrence. The one use in the model, the re-encode path, is covered in full by Strings.ReplaceOnlyTrailing and Filenames.FixedPathRewritesExtensionOnly.
- Rate limiting, CORS, the root route and the 429 handler of main.py (lines 34-35, 46-55) are framework configuration with no logic of the handlers' own.
- `random_suffix` is randomness. The suffix is a parameter, constrained to six lower-case letters or digits.
- Subtitle download, file-size rounding and `post_caption` in main.py (lines 128-140) are network I/O and floating point. Only the language pick is modelled.
- The frame-thumbnail extraction with ffmpeg in main.py (lines 110-121) is modelled only as its outcome: the `frameHost` parameter of MainApi.FetchVideoIntended.
- In main.py, `if not info` also rejects an empty info dictionary. The model has only a None info.
- app.py's ffmpeg wait loop (lines 118-125) never runs its body. `wait()` returns the exit code, never None, so that loop's 499 and 504 cannot happen. The exit code is ignored. Whether the remove and rename succeed is the `reencodeOk` parameter.
- `download_file`'s file-existence check and the file transfer are file-system I/O. Only the path it serves (Filenames.ServedPath) is modelled.
- The cleanup job's effect on disk, its schedule and its log line are left out. The model's result is the list of removed entries and the list of remaining ones. Times are exact reals, not floats.
- The page's progress ticker (frontend/pages/index.tsx:42-53) adds random amounts every 200 ms. The randomness and the interval are left out. The model keeps only the ticker's restart at 0 when loading starts, the jump to 100 and the reset on cancel.
- The `err.response?.status === 429` branch (frontend/pages/index.tsx:131-133) can never be taken. A rejected `fetch` carries no `response`. The model omits it.
- Rendering, the dark-mode body class, input focus, the copy buttons and the submit button's disabled state are presentation. The model does not rely on the button being disabled: submit may run in any state.
- While `loading` is true the page renders a skeleton instead of the form (frontend/pages/index.tsx:244-250). The URL field, the submit button and the Cancel button (frontend/pages/index.tsx:306-314) cannot be used then, and `merging` is only true while loading. So `handleUrlChange`'s cancel branch and the Cancel button are unreachable from the rendered page, and so is the FetchPage.CancelDuringMerge scenario. The model's handlers may run in any state and over-approximate the page in this respect.
- The API base URL and the multipart encoding of the request are left out. The model's Request carries the link, the quality and the abort signal.

## Findings

| source | as written | input that shows it | evidently intended | confidence | as-written member | corrected member |
|---|---|---|---|---|---|---|
| backend/main.py:145-158 | the success branch writes `video["download_url"]` and returns `video_download_url`; neither `video`, `filename` nor `video_download_url` is bound, so the NameError is caught and every successful fetch answers 500 | any non-blank link whose extraction and download both succeed | answer with the title, the thumbnail and a download link under the request's base URL naming the downloaded file | high; not executed | MainApi.SuccessPathRaises | MainApi.FetchVideoIntended |
