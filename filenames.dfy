/**
 * How the server names a download (backend/main.py and backend/app.py, which
 * share these rules): the sanitised title, the random suffix, the output
 * path, the `_fixed` re-encode path and the download URL.
 */
module Filenames {
  import opened Wrappers
  import opened Strings

  /** The class `[a-zA-Z0-9_\-]` that survives sanitising. */
  predicate IsSafeChar(c: char)
  {
    ('a' <= c <= 'z') || ('A' <= c <= 'Z') || ('0' <= c <= '9') || c == '_' || c == '-'
  }

  predicate AllSafe(s: string)
  {
    forall k :: 0 <= k < |s| ==> IsSafeChar(s[k])
  }

  /**
   * `sanitize_filename`: each character outside the safe class becomes '_',
   * the others stay where they are.
   */
  function Sanitize(name: string): (r: string)
    ensures |r| == |name| && AllSafe(r)
    ensures forall k :: 0 <= k < |name| && IsSafeChar(name[k]) ==> r[k] == name[k]
    ensures forall k :: 0 <= k < |name| && !IsSafeChar(name[k]) ==> r[k] == '_'
    decreases |name|
  {
    if name == [] then []
    else [if IsSafeChar(name[0]) then name[0] else '_'] + Sanitize(name[1..])
  }

  /** Sanitising twice is sanitising once. */
  lemma SanitizeIdempotent(name: string)
    ensures Sanitize(Sanitize(name)) == Sanitize(name)
  {
    var once := Sanitize(name);
    assert forall k :: 0 <= k < |once| ==> Sanitize(once)[k] == once[k];
  }

  /** A name made only of safe characters is left as it is. */
  lemma SanitizeKeepsSafeName(name: string)
    requires AllSafe(name)
    ensures Sanitize(name) == name
  {
    assert forall k :: 0 <= k < |name| ==> Sanitize(name)[k] == name[k];
  }

  /** `info.get('title') or "video"`: a missing or empty title becomes "video". */
  function TitleOrDefault(title: Option<string>): (t: string)
    ensures t != ""
    ensures title.Some? && title.value != "" ==> t == title.value
    ensures title.None? || title.value == "" ==> t == "video"
  {
    if title.Some? && title.value != "" then title.value else "video"
  }

  /** `sanitize_filename(title)[:50]`. */
  function SafeTitle(title: string): (r: string)
    ensures |r| <= 50 && AllSafe(r)
    ensures r <= Sanitize(title)
    ensures |r| == if |title| < 50 then |title| else 50
  {
    var clean := Sanitize(title);
    if |clean| <= 50 then clean else clean[..50]
  }

  /** What `random_suffix()` yields: six lowercase ASCII letters or digits. */
  predicate IsRandomSuffix(s: string)
  {
    |s| == 6 && forall k :: 0 <= k < 6 ==> ('a' <= s[k] <= 'z') || ('0' <= s[k] <= '9')
  }

  /** A safe title joined to a random suffix by '_' is safe and ends with the suffix. */
  lemma JoinSafe(safe: string, suffix: string)
    requires AllSafe(safe) && IsRandomSuffix(suffix)
    ensures var base := safe + "_" + suffix;
      AllSafe(base) && base[|base| - 7..] == "_" + suffix && base[..|base| - 7] == safe
  {
    var base := safe + "_" + suffix;
    forall k | 0 <= k < |base|
      ensures IsSafeChar(base[k])
    {
      if k < |safe| {
        assert base[k] == safe[k];
      } else if k > |safe| {
        assert base[k] == suffix[k - |safe| - 1];
      }
    }
    assert base[|base| - 7..] == "_" + suffix;
    assert base[..|base| - 7] == safe;
  }

  /** `base_filename = f"{safe_title}_{suffix}"`, with the title fallback applied first. */
  function BaseFilename(title: Option<string>, suffix: string): (base: string)
    requires IsRandomSuffix(suffix)
    ensures AllSafe(base)
    ensures 8 <= |base| <= 57
    ensures base[|base| - 7..] == "_" + suffix
    ensures base[..|base| - 7] == SafeTitle(TitleOrDefault(title))
  {
    var safe := SafeTitle(TitleOrDefault(title));
    JoinSafe(safe, suffix);
    safe + "_" + suffix
  }

  const DownloadsDir := "downloads/"
  const Extension := ".mp4"
  const FixedExtension := "_fixed.mp4"
  const DownloadRoute := "http://127.0.0.1:8000/download/"

  /** `output_path = f"downloads/{base_filename}.mp4"`. */
  function OutputPath(base: string): string
  {
    DownloadsDir + base + Extension
  }

  /** `download_file`'s lookup: the served file is `downloads/` followed by the path parameter. */
  function ServedPath(filename: string): string
  {
    DownloadsDir + filename
  }

  /** `output_path.replace(".mp4", "_fixed.mp4")` in backend/app.py. */
  function FixedPath(outputPath: string): string
  {
    ReplaceAll(outputPath, Extension, FixedExtension)
  }

  /** `video_download_url` in backend/app.py. */
  function DownloadUrl(base: string): string
  {
    DownloadRoute + base + Extension
  }

  /** Safe names hold neither '/' nor '.'. */
  lemma SafeHasNoSeparators(base: string)
    requires AllSafe(base)
    ensures '/' !in base && '.' !in base
  {
  }

  /** In `downloads/` the only '/' is the last character and there is no '.'. */
  lemma DirectorySeparators()
    ensures forall k :: 0 <= k < |DownloadsDir| ==>
      (DownloadsDir[k] == '/' <==> k == |DownloadsDir| - 1) && DownloadsDir[k] != '.'
  {
  }

  /** In `.mp4` the only '.' is the first character and there is no '/'. */
  lemma ExtensionSeparators()
    ensures forall k :: 0 <= k < |Extension| ==> (Extension[k] == '.' <==> k == 0) && Extension[k] != '/'
  {
  }

  /**
   * The output path stays inside `downloads/`: its only '/' ends the
   * directory and its only '.' starts the extension.
   */
  lemma OutputPathShape(title: Option<string>, suffix: string)
    requires IsRandomSuffix(suffix)
    ensures var p := OutputPath(BaseFilename(title, suffix));
      && DownloadsDir <= p && p[|p| - |Extension|..] == Extension
      && (forall k :: 0 <= k < |p| ==> (p[k] == '/' <==> k == |DownloadsDir| - 1))
      && (forall k :: 0 <= k < |p| ==> (p[k] == '.' <==> k == |p| - |Extension|))
  {
    var base := BaseFilename(title, suffix);
    var p := OutputPath(base);
    DirectorySeparators();
    ExtensionSeparators();
    var d, e := |DownloadsDir|, |p| - |Extension|;
    forall k | 0 <= k < |p|
      ensures (p[k] == '/' <==> k == d - 1) && (p[k] == '.' <==> k == e)
    {
      if k < d {
        assert p[k] == DownloadsDir[k];
      } else if k < e {
        assert p[k] == base[k - d];
        assert IsSafeChar(base[k - d]);
      } else {
        assert p[k] == Extension[k - e];
      }
    }
  }

  /**
   * Because the base name has no '.', the re-encode path differs from the
   * output path only in its extension.
   */
  lemma FixedPathRewritesExtensionOnly(base: string)
    requires AllSafe(base)
    ensures FixedPath(OutputPath(base)) == DownloadsDir + base + FixedExtension
  {
    SafeHasNoSeparators(base);
    var stem := DownloadsDir + base;
    assert '.' !in DownloadsDir;
    assert '.' !in stem;
    assert OutputPath(base) == stem + Extension;
    ReplaceOnlyTrailing(stem, Extension, FixedExtension);
  }

  /**
   * The download URL's last segment is a single path segment, and the
   * download route resolves it back to the file the fetch wrote.
   */
  lemma DownloadUrlServesOutput(base: string)
    requires AllSafe(base)
    ensures DownloadRoute <= DownloadUrl(base)
    ensures var name := DownloadUrl(base)[|DownloadRoute|..];
      '/' !in name && ServedPath(name) == OutputPath(base)
  {
    SafeHasNoSeparators(base);
    var name := DownloadUrl(base)[|DownloadRoute|..];
    assert name == base + Extension;
  }
}
