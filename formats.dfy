/**
 * The quality-to-format tables handed to yt_dlp: `format_preference` in
 * backend/main.py and `format_map` in backend/app.py, each with its default.
 */
module Formats {

  /** The four height-capped qualities both tables know. */
  predicate IsHeightQuality(q: string)
  {
    q == "360p" || q == "480p" || q == "720p" || q == "1080p"
  }

  /** The height a height-capped quality names: the quality without its trailing 'p'. */
  function Height(q: string): (h: string)
    requires IsHeightQuality(q)
    ensures q == h + "p"
  {
    if q == "360p" then "360"
    else if q == "480p" then "480"
    else if q == "720p" then "720"
    else "1080"
  }

  /** backend/main.py's entry for a height cap `h`: `best[height<=h]`. */
  function MainCapped(h: string): string
  {
    "best[height<=" + h + "]"
  }

  const MainFormatTable: map<string, string> := map[
    "360p" := MainCapped("360"),
    "480p" := MainCapped("480"),
    "720p" := MainCapped("720"),
    "1080p" := MainCapped("1080"),
    "audio" := "bestaudio",
    "best" := "best"]

  /** `format_preference.get(quality, "best")`. */
  function MainFormat(quality: string): (f: string)
    ensures IsHeightQuality(quality) ==> f == MainCapped(Height(quality))
    ensures quality == "audio" ==> f == "bestaudio"
    ensures !IsHeightQuality(quality) && quality != "audio" ==> f == "best"
  {
    if quality in MainFormatTable then MainFormatTable[quality] else "best"
  }

  /** backend/app.py's entry for a height cap `h`: `bestvideo[height<=h]+bestaudio/best[height<=h]`. */
  function AppCapped(h: string): string
  {
    "bestvideo[height<=" + h + "]+bestaudio/best[height<=" + h + "]"
  }

  const AppDefaultFormat := "bestvideo+bestaudio/best"

  const AppFormatTable: map<string, string> := map[
    "360p" := AppCapped("360"),
    "480p" := AppCapped("480"),
    "720p" := AppCapped("720"),
    "1080p" := AppCapped("1080"),
    "best" := AppDefaultFormat]

  /** `format_map.get(quality, "bestvideo+bestaudio/best")`. */
  function AppFormat(quality: string): (f: string)
    ensures IsHeightQuality(quality) ==> f == AppCapped(Height(quality))
    ensures !IsHeightQuality(quality) ==> f == AppDefaultFormat
  {
    if quality in AppFormatTable then AppFormatTable[quality] else AppDefaultFormat
  }

  /**
   * The page's "Audio Only" choice reaches backend/app.py as "audio", which
   * its table lacks, so it selects the same video-and-audio format as "best";
   * backend/main.py selects an audio-only format for it.
   */
  lemma AudioChoiceDiffers()
    ensures AppFormat("audio") == AppFormat("best") == AppDefaultFormat
    ensures MainFormat("audio") == "bestaudio" != MainFormat("best")
  {
  }
}
