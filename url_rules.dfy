/**
 * The page's pure URL rules: the platform badge, the accepted-URL pattern,
 * whitespace trimming, query-string removal and the validation step of a
 * submission (frontend/pages/index.tsx).
 */
module UrlRules {
  import opened Wrappers
  import opened Strings

  // ---------------------------------------------------------------------
  // Character classes
  // ---------------------------------------------------------------------

  /** `\w` of a JavaScript regular expression without the `u` flag. */
  predicate IsWordChar(c: char)
  {
    ('a' <= c <= 'z') || ('A' <= c <= 'Z') || ('0' <= c <= '9') || c == '_'
  }

  /** `[\w.-]`, the characters of a TikTok handle in the pattern. */
  predicate IsHandleChar(c: char)
  {
    IsWordChar(c) || c == '.' || c == '-'
  }

  /** The characters `.` does not match when the `s` flag is absent. */
  predicate IsLineTerminator(c: char)
  {
    c == '\n' || c == '\r' || c == '\U{2028}' || c == '\U{2029}'
  }

  /** The characters `String.prototype.trim` removes: WhiteSpace and LineTerminator. */
  predicate IsJsSpace(c: char)
  {
    c == '\t' || c == '\n' || c == '\U{B}' || c == '\U{C}' || c == '\r' || c == ' '
    || c == '\U{A0}' || c == '\U{1680}' || ('\U{2000}' <= c <= '\U{200A}')
    || c == '\U{2028}' || c == '\U{2029}' || c == '\U{202F}' || c == '\U{205F}'
    || c == '\U{3000}' || c == '\U{FEFF}'
  }

  /** A string that trims to the empty string. */
  predicate IsBlank(s: string)
  {
    forall k :: 0 <= k < |s| ==> IsJsSpace(s[k])
  }

  // ---------------------------------------------------------------------
  // Trimming
  // ---------------------------------------------------------------------

  /** `trimStart`: the suffix left after dropping leading whitespace. */
  function TrimStart(s: string): (r: string)
    ensures |r| <= |s| && r == s[|s| - |r|..]
    ensures forall k :: 0 <= k < |s| - |r| ==> IsJsSpace(s[k])
    ensures r != [] ==> !IsJsSpace(r[0])
    decreases |s|
  {
    if s != [] && IsJsSpace(s[0]) then TrimStart(s[1..]) else s
  }

  /** `trimEnd`: the prefix left after dropping trailing whitespace. */
  function TrimEnd(s: string): (r: string)
    ensures r <= s
    ensures forall k :: |r| <= k < |s| ==> IsJsSpace(s[k])
    ensures r != [] ==> !IsJsSpace(r[|r| - 1])
    decreases |s|
  {
    if s != [] && IsJsSpace(s[|s| - 1]) then TrimEnd(s[..|s| - 1]) else s
  }

  /** A run of whitespace from `n` to the end leaves a blank tail. */
  lemma BlankFrom(t: string, n: int)
    requires 0 <= n <= |t| && forall k :: n <= k < |t| ==> IsJsSpace(t[k])
    ensures IsBlank(t[n..])
  {
    assert forall k :: 0 <= k < |t| - n ==> t[n..][k] == t[n + k];
  }

  /** A run of whitespace up to `n` leaves a blank head. */
  lemma BlankUpTo(t: string, n: int)
    requires 0 <= n <= |t| && forall k :: 0 <= k < n ==> IsJsSpace(t[k])
    ensures IsBlank(t[..n])
  {
    assert forall k :: 0 <= k < n ==> t[..n][k] == t[k];
  }

  /** `r` sits at `lo` in `s` with nothing but whitespace before and after it. */
  ghost predicate TrimmedFrom(s: string, r: string, lo: int)
  {
    && 0 <= lo && lo + |r| <= |s| && s[lo..lo + |r|] == r
    && IsBlank(s[..lo]) && IsBlank(s[lo + |r|..])
  }

  /** A prefix of a suffix, with blank text before the suffix and after the prefix, sits between blanks. */
  lemma BetweenBlanks(s: string, lo: int, r: string)
    requires 0 <= lo <= |s| && IsBlank(s[..lo])
    requires r <= s[lo..] && IsBlank(s[lo..][|r|..])
    ensures TrimmedFrom(s, r, lo)
  {
    PrefixOfSuffix(s, lo, r);
    SuffixOfSuffix(s, lo, |r|);
  }

  /** Dropping `lo` and then `n` more drops `lo + n`. */
  lemma SuffixOfSuffix(s: string, lo: int, n: int)
    requires 0 <= lo <= |s| && 0 <= n <= |s| - lo
    ensures s[lo..][n..] == s[lo + n..]
  {
  }

  /** Trimming yields nothing exactly when the text is blank. */
  lemma TrimmedEmpty(s: string)
    ensures TrimEnd(TrimStart(s)) == [] <==> IsBlank(s)
  {
    var front := TrimStart(s);
    var lo := |s| - |front|;
    if front == [] {
      BlankUpTo(s, |s|);
      assert s[..|s|] == s;
    } else {
      assert front[0] == s[lo] && !IsJsSpace(front[0]);
      assert TrimEnd(front) != [];
    }
  }

  /** `trim`: neither end of the result is whitespace, and it is empty exactly for blank input. */
  function Trim(s: string): (r: string)
    ensures r == [] <==> IsBlank(s)
    ensures r != [] ==> !IsJsSpace(r[0]) && !IsJsSpace(r[|r| - 1])
    ensures exists lo :: TrimmedFrom(s, r, lo)
  {
    var front := TrimStart(s);
    var lo := |s| - |front|;
    BlankUpTo(s, lo);
    BlankFrom(front, |TrimEnd(front)|);
    BetweenBlanks(s, lo, TrimEnd(front));
    TrimmedEmpty(s);
    TrimEnd(TrimStart(s))
  }

  /** A prefix of a suffix is a slice. */
  lemma PrefixOfSuffix(s: string, lo: int, r: string)
    requires 0 <= lo <= |s| && r <= s[lo..]
    ensures lo + |r| <= |s| && s[lo..lo + |r|] == r
  {
    assert s[lo..][..|r|] == s[lo..lo + |r|];
  }

  /** The trimmed string is a contiguous piece of the original. */
  lemma TrimIsSlice(s: string) returns (lo: int)
    ensures 0 <= lo <= lo + |Trim(s)| <= |s| && s[lo..lo + |Trim(s)|] == Trim(s)
  {
    var front := TrimStart(s);
    lo := |s| - |front|;
    PrefixOfSuffix(s, lo, TrimEnd(front));
  }

  /** Whatever occurs in the trimmed string occurs in the original. */
  lemma ContainsThroughTrim(s: string, t: string)
    requires Contains(Trim(s), t)
    ensures Contains(s, t)
  {
    var lo := TrimIsSlice(s);
    ContainsInSlice(s, lo, lo + |Trim(s)|, t);
  }

  // ---------------------------------------------------------------------
  // Platform badge (`detectPlatform`)
  // ---------------------------------------------------------------------

  /** The url mentions one of YouTube's two host names. */
  predicate MentionsYoutube(url: string)
  {
    Contains(url, "youtube.com") || Contains(url, "youtu.be")
  }

  /** The url mentions one of the five host names the badge knows. */
  predicate MentionsKnownHost(url: string)
  {
    MentionsYoutube(url) || Contains(url, "instagram.com")
    || Contains(url, "tiktok.com") || Contains(url, "twitter.com")
  }

  /**
   * The badge: host names are tried in a fixed order and the first one that
   * occurs anywhere in the text decides the tag.
   */
  function DetectPlatform(url: string): (tag: string)
    ensures tag in {"YouTube", "Instagram", "TikTok", "Twitter", ""}
    ensures tag == "" <==> !MentionsKnownHost(url)
    ensures tag == "YouTube" <==> MentionsYoutube(url)
    ensures tag == "Instagram" <==> !MentionsYoutube(url) && Contains(url, "instagram.com")
    ensures tag == "TikTok" <==>
      !MentionsYoutube(url) && !Contains(url, "instagram.com") && Contains(url, "tiktok.com")
    ensures tag == "Twitter" <==>
      && !MentionsYoutube(url) && !Contains(url, "instagram.com") && !Contains(url, "tiktok.com")
      && Contains(url, "twitter.com")
  {
    if MentionsYoutube(url) then "YouTube"
    else if Contains(url, "instagram.com") then "Instagram"
    else if Contains(url, "tiktok.com") then "TikTok"
    else if Contains(url, "twitter.com") then "Twitter"
    else ""
  }

  // ---------------------------------------------------------------------
  // The accepted-URL pattern
  //   ^(https?:\/\/)?(www\.)?(youtube\.com\/|youtu\.be\/|instagram\.com\/reel\/
  //     |twitter\.com\/\w+\/status\/|tiktok\.com\/@[\w.-]+\/video\/).+
  // ---------------------------------------------------------------------

  const YoutubePath := "youtube.com/"
  const YoutuBePath := "youtu.be/"
  const InstagramReelPath := "instagram.com/reel/"
  const TwitterPath := "twitter.com/"
  const StatusPath := "/status/"
  const TiktokPath := "tiktok.com/@"
  const VideoPath := "/video/"

  /** What `(https?:\/\/)?` can match. */
  ghost predicate SchemePart(p: string)
  {
    p == "" || p == "http://" || p == "https://"
  }

  /** What `(www\.)?` can match. */
  ghost predicate WwwPart(p: string)
  {
    p == "" || p == "www."
  }

  /**
   * What `head`, then one or more `cls` characters, then `tail` can match:
   * the shape of the Twitter and TikTok alternatives.
   */
  ghost predicate FramedRun(p: string, head: string, cls: char -> bool, tail: string)
  {
    && |p| > |head| + |tail|
    && head <= p
    && p[|p| - |tail|..] == tail
    && forall k :: |head| <= k < |p| - |tail| ==> cls(p[k])
  }

  /** What `twitter\.com\/\w+\/status\/` can match. */
  ghost predicate TwitterShape(p: string)
  {
    FramedRun(p, TwitterPath, IsWordChar, StatusPath)
  }

  /** What `tiktok\.com\/@[\w.-]+\/video\/` can match. */
  ghost predicate TiktokShape(p: string)
  {
    FramedRun(p, TiktokPath, IsHandleChar, VideoPath)
  }

  /** What the five-way alternation can match. */
  ghost predicate ShapePart(p: string)
  {
    p == YoutubePath || p == YoutuBePath || p == InstagramReelPath || TwitterShape(p) || TiktokShape(p)
  }

  /**
   * The regular expression's meaning: anchored at the start, not at the end,
   * case-sensitive; `.+` needs one character that is not a line terminator
   * right after the alternation and accepts anything after it.
   */
  ghost predicate PatternAccepts(s: string)
  {
    exists i, j, k ::
      && 0 <= i <= j <= k < |s|
      && SchemePart(s[..i]) && WwwPart(s[i..j]) && ShapePart(s[j..k])
      && !IsLineTerminator(s[k])
  }

  /** End of the optional scheme. */
  function SchemeEnd(s: string): (i: nat)
    ensures i <= |s| && SchemePart(s[..i])
  {
    if "https://" <= s then |"https://"|
    else if "http://" <= s then |"http://"|
    else 0
  }

  /** End of the optional `www.` starting at `i`. */
  function WwwEnd(s: string, i: nat): (j: nat)
    requires i <= |s|
    ensures i <= j <= |s| && WwwPart(s[i..j])
  {
    if "www." <= s[i..] then i + |"www."| else i
  }

  /** End of the longest run of `cls` characters starting at `m`. */
  function RunEnd(s: string, m: nat, cls: char -> bool): (e: nat)
    requires m <= |s|
    ensures m <= e <= |s|
    ensures forall k :: m <= k < e ==> cls(s[k])
    ensures e < |s| ==> !cls(s[e])
    decreases |s| - m
  {
    if m < |s| && cls(s[m]) then RunEnd(s, m + 1, cls) else m
  }

  /**
   * End of `head`, a maximal run of `cls` characters and `tail`, matched at
   * `j`. The run class excludes the first character of `tail`, so the
   * maximal run is the only one that can be followed by `tail`.
   */
  function FramedEnd(s: string, j: nat, head: string, cls: char -> bool, tail: string): (k: Option<nat>)
    requires j <= |s| && head <= s[j..]
    ensures k.Some? ==> j <= k.value <= |s| && FramedRun(s[j..k.value], head, cls, tail)
  {
    var m := j + |head|;
    var e := RunEnd(s, m, cls);
    if e > m && tail <= s[e..] then
      FramedRunAt(s, j, e, head, cls, tail);
      Some(e + |tail|)
    else None
  }

  /** The slice from `j` to the end of `tail` has the framed shape. */
  lemma FramedRunAt(s: string, j: nat, e: nat, head: string, cls: char -> bool, tail: string)
    requires j + |head| < e <= |s| && head <= s[j..] && tail <= s[e..]
    requires forall k :: j + |head| <= k < e ==> cls(s[k])
    ensures FramedRun(s[j..e + |tail|], head, cls, tail)
  {
    var p := s[j..e + |tail|];
    assert p[..|head|] == s[j..][..|head|];
    assert p[|p| - |tail|..] == s[e..][..|tail|];
    forall k | |head| <= k < |p| - |tail| ensures cls(p[k]) {
      assert p[k] == s[j + k];
    }
  }

  /** End of the alternation matched at `j`, if any alternative matches there. */
  function ShapeEnd(s: string, j: nat): (k: Option<nat>)
    requires j <= |s|
    ensures k.Some? ==> j <= k.value <= |s| && ShapePart(s[j..k.value])
  {
    var t := s[j..];
    if YoutubePath <= t then
      assert s[j..j + |YoutubePath|] == t[..|YoutubePath|];
      Some(j + |YoutubePath|)
    else if YoutuBePath <= t then
      assert s[j..j + |YoutuBePath|] == t[..|YoutuBePath|];
      Some(j + |YoutuBePath|)
    else if InstagramReelPath <= t then
      assert s[j..j + |InstagramReelPath|] == t[..|InstagramReelPath|];
      Some(j + |InstagramReelPath|)
    else if TwitterPath <= t then FramedEnd(s, j, TwitterPath, IsWordChar, StatusPath)
    else if TiktokPath <= t then FramedEnd(s, j, TiktokPath, IsHandleChar, VideoPath)
    else None
  }

  /** The left-to-right matcher the page's `test` call amounts to. */
  predicate MatchesPattern(s: string)
  {
    var j := WwwEnd(s, SchemeEnd(s));
    match ShapeEnd(s, j)
    case Some(k) => k < |s| && !IsLineTerminator(s[k])
    case None => false
  }

  // ---------------------------------------------------------------------
  // The matcher decides the pattern
  // ---------------------------------------------------------------------

  /** Whatever the matcher accepts, the regular expression matches. */
  lemma PatternMatcherSound(s: string)
    requires MatchesPattern(s)
    ensures PatternAccepts(s)
  {
    var i := SchemeEnd(s);
    var j := WwwEnd(s, i);
    var k := ShapeEnd(s, j).value;
    assert 0 <= i <= j <= k < |s| && SchemePart(s[..i]) && WwwPart(s[i..j]) && ShapePart(s[j..k]);
  }

  /** Every alternative is at least nine characters long and starts with 'y', 'i' or 't'. */
  lemma ShapeStart(p: string)
    requires ShapePart(p)
    ensures |p| >= |YoutuBePath| && (p[0] == 'y' || p[0] == 'i' || p[0] == 't')
  {
    if TwitterShape(p) {
      assert p[0] == TwitterPath[0];
    } else if TiktokShape(p) {
      assert p[0] == TiktokPath[0];
    }
  }

  /**
   * The optional groups cannot be skipped when present: no alternative
   * starts with 'h' or 'w', so the matcher's greedy choice is the only one.
   */
  lemma PrefixEndsUnique(s: string, i: int, j: int, k: int)
    requires 0 <= i <= j <= k < |s| && SchemePart(s[..i]) && WwwPart(s[i..j]) && ShapePart(s[j..k])
    ensures SchemeEnd(s) == i && WwwEnd(s, i) == j
  {
    ShapeStart(s[j..k]);
    assert s[j] == s[j..k][0];
    if s[i..j] == "www." {
      assert s[i] == s[i..j][0] == 'w';
    }
    assert s[i] == 'w' || s[i] == 'y' || s[i] == 'i' || s[i] == 't';
    if s[..i] == "http://" {
      assert s[4] == ':';
    } else if s[..i] == "" {
      assert s[0] == s[i];
    }
    if s[i..j] == "" {
      assert s[i..][0] == s[i];
    } else {
      assert s[i..][..4] == s[i..j];
    }
  }

  /** The framed alternatives end where the pattern says, because `tail` starts outside `cls`. */
  lemma FramedEndUnique(s: string, j: int, k: int, head: string, cls: char -> bool, tail: string)
    requires 0 <= j <= k <= |s| && FramedRun(s[j..k], head, cls, tail)
    requires tail != [] && !cls(tail[0])
    ensures head <= s[j..] && FramedEnd(s, j, head, cls, tail) == Some(k)
  {
    var p := s[j..k];
    var m := j + |head|;
    var e := k - |tail|;
    assert p[..|head|] == s[j..][..|head|];
    assert s[e] == p[|p| - |tail|] == tail[0];
    forall q | m <= q < e ensures cls(s[q]) {
      assert s[q] == p[q - j];
    }
    assert s[e..][..|tail|] == p[|p| - |tail|..];
  }

  /** Whatever alternative matches at `j`, the matcher finds it and its end. */
  lemma ShapeEndUnique(s: string, j: int, k: int)
    requires 0 <= j <= k <= |s| && ShapePart(s[j..k])
    ensures ShapeEnd(s, j) == Some(k)
  {
    var p := s[j..k];
    var t := s[j..];
    assert p <= t;
    if p == YoutubePath {
      assert t[..|YoutubePath|] == p;
    } else if p == YoutuBePath {
      assert t[5] == '.';
      assert t[..|YoutuBePath|] == p;
    } else if p == InstagramReelPath {
      assert t[0] == 'i';
      assert t[..|InstagramReelPath|] == p;
    } else if TwitterShape(p) {
      assert t[0] == 't' && t[1] == 'w';
      FramedEndUnique(s, j, k, TwitterPath, IsWordChar, StatusPath);
    } else {
      assert TiktokShape(p);
      assert t[0] == 't' && t[1] == 'i';
      FramedEndUnique(s, j, k, TiktokPath, IsHandleChar, VideoPath);
    }
  }

  /** Whatever the regular expression matches, the matcher accepts. */
  lemma PatternMatcherComplete(s: string)
    requires PatternAccepts(s)
    ensures MatchesPattern(s)
  {
    var i, j, k :| && 0 <= i <= j <= k < |s|
                   && SchemePart(s[..i]) && WwwPart(s[i..j]) && ShapePart(s[j..k])
                   && !IsLineTerminator(s[k]);
    PrefixEndsUnique(s, i, j, k);
    ShapeEndUnique(s, j, k);
  }

  /** The deterministic matcher decides the regular expression exactly. */
  lemma MatcherDecidesPattern(s: string)
    ensures MatchesPattern(s) <==> PatternAccepts(s)
  {
    if MatchesPattern(s) {
      PatternMatcherSound(s);
    }
    if PatternAccepts(s) {
      PatternMatcherComplete(s);
    }
  }

  // ---------------------------------------------------------------------
  // Accepted URLs, the badge and query removal
  // ---------------------------------------------------------------------

  /** A host that begins the path found at `j` occurs in the url. */
  lemma HostBeforePath(s: string, j: nat, path: string, host: string)
    requires j <= |s| && path <= s[j..] && host <= path
    ensures Contains(s, host)
  {
    assert s[j..j + |host|] == host;
    ContainsAt(s, host, j);
  }

  /** An accepted URL names its platform's host, so the badge is never empty for it. */
  lemma AcceptedUrlMentionsHost(s: string)
    requires MatchesPattern(s)
    ensures MentionsKnownHost(s)
  {
    var j := WwwEnd(s, SchemeEnd(s));
    var t := s[j..];
    if YoutubePath <= t {
      HostBeforePath(s, j, YoutubePath, "youtube.com");
    } else if YoutuBePath <= t {
      HostBeforePath(s, j, YoutuBePath, "youtu.be");
    } else if InstagramReelPath <= t {
      HostBeforePath(s, j, InstagramReelPath, "instagram.com");
    } else if TwitterPath <= t {
      HostBeforePath(s, j, TwitterPath, "twitter.com");
    } else {
      assert TiktokPath <= t;
      HostBeforePath(s, j, TiktokPath, "tiktok.com");
    }
  }

  /** `split("?")[0]`: the longest prefix of the url without a question mark. */
  function CleanUrl(url: string): (r: string)
    ensures r <= url && '?' !in r
    ensures |r| < |url| ==> url[|r|] == '?'
    ensures '?' !in url ==> r == url
    decreases |url|
  {
    if url == [] || url[0] == '?' then [] else [url[0]] + CleanUrl(url[1..])
  }

  const EmptyUrlMessage := "Please enter a valid URL."
  const InvalidUrlMessage := "Invalid YouTube, Instagram, Twitter, or TikTok URL."

  /**
   * The checks `handleSubmit` makes before any request: a blank field, then
   * the pattern on the trimmed text. The request then carries the untrimmed
   * text cut at its first '?'.
   */
  function Validate(videoUrl: string): (r: Result<string, string>)
    ensures r == Err(EmptyUrlMessage) <==> IsBlank(videoUrl)
    ensures r == Err(InvalidUrlMessage) <==> !IsBlank(videoUrl) && !PatternAccepts(Trim(videoUrl))
    ensures r.Ok? <==> PatternAccepts(Trim(videoUrl))
    ensures r.Ok? ==> r.value == CleanUrl(videoUrl) && MentionsKnownHost(videoUrl)
  {
    var trimmed := Trim(videoUrl);
    MatcherDecidesPattern(trimmed);
    if trimmed == [] then Err(EmptyUrlMessage)
    else if !MatchesPattern(trimmed) then Err(InvalidUrlMessage)
    else
      AcceptedUrlMentionsHost(trimmed);
      AcceptedHostSurvivesTrim(videoUrl);
      Ok(CleanUrl(videoUrl))
  }

  /** A host named in the trimmed text is named in the text itself. */
  lemma AcceptedHostSurvivesTrim(s: string)
    requires MentionsKnownHost(Trim(s))
    ensures MentionsKnownHost(s)
  {
    var t := Trim(s);
    if Contains(t, "youtube.com") { ContainsThroughTrim(s, "youtube.com"); }
    if Contains(t, "youtu.be") { ContainsThroughTrim(s, "youtu.be"); }
    if Contains(t, "instagram.com") { ContainsThroughTrim(s, "instagram.com"); }
    if Contains(t, "tiktok.com") { ContainsThroughTrim(s, "tiktok.com"); }
    if Contains(t, "twitter.com") { ContainsThroughTrim(s, "twitter.com"); }
  }

  /**
   * Priority order at work: a link that names a YouTube host gets the
   * YouTube badge even when it also names Instagram, TikTok or Twitter,
   * as an Instagram reel link whose path mentions "youtu.be" does.
   */
  lemma EarlierHostWins(url: string)
    requires MentionsYoutube(url)
    requires Contains(url, "instagram.com") || Contains(url, "tiktok.com") || Contains(url, "twitter.com")
    ensures DetectPlatform(url) == "YouTube"
  {
  }
}
