/**
 * `cleanup_old_files` of backend/main.py and backend/app.py, run over a
 * snapshot of the `downloads` directory: each entry that is a regular file
 * last modified before the cutoff is removed, and nothing else is.
 */
module Cleanup {

  /** One name of `os.listdir("downloads")` with what `isfile` and `getmtime` report for it. */
  datatype Entry = Entry(name: string, isFile: bool, mtime: real)

  predicate IsExpired(e: Entry, cutoff: real)
  {
    e.isFile && e.mtime < cutoff
  }

  /**
   * The loop over the listing: `removed` are the entries deleted, in listing
   * order, and `remaining` what is left of the directory.
   */
  method RemoveExpired(listing: seq<Entry>, now: real, maxAge: real)
    returns (removed: seq<Entry>, remaining: seq<Entry>)
    ensures forall e :: e in removed <==> e in listing && IsExpired(e, now - maxAge)
    ensures forall e :: e in remaining <==> e in listing && !IsExpired(e, now - maxAge)
    ensures multiset(removed) + multiset(remaining) == multiset(listing)
  {
    var cutoff := now - maxAge;
    removed, remaining := [], [];
    var i := 0;
    while i < |listing|
      invariant 0 <= i <= |listing|
      invariant forall e :: e in removed <==> e in listing[..i] && IsExpired(e, cutoff)
      invariant forall e :: e in remaining <==> e in listing[..i] && !IsExpired(e, cutoff)
      invariant multiset(removed) + multiset(remaining) == multiset(listing[..i])
    {
      var e := listing[i];
      if e.isFile && e.mtime < cutoff {
        removed := removed + [e];
      } else {
        remaining := remaining + [e];
      }
      assert listing[..i + 1] == listing[..i] + [e];
      i := i + 1;
    }
    assert listing[..i] == listing;
  }

  /** backend/main.py keeps files for two hours. */
  const MainMaxAge: real := 2.0 * 3600.0

  /** backend/app.py keeps files for 24 hours. */
  const AppMaxAge: real := 24.0 * 3600.0

  /** backend/main.py's cleanup: regular files older than 7200 seconds go. */
  method MainCleanup(listing: seq<Entry>, now: real) returns (removed: seq<Entry>, remaining: seq<Entry>)
    ensures forall e :: e in removed <==> e in listing && e.isFile && e.mtime < now - 7200.0
    ensures multiset(removed) + multiset(remaining) == multiset(listing)
  {
    removed, remaining := RemoveExpired(listing, now, MainMaxAge);
  }

  /** backend/app.py's cleanup: regular files older than 86400 seconds go. */
  method AppCleanup(listing: seq<Entry>, now: real) returns (removed: seq<Entry>, remaining: seq<Entry>)
    ensures forall e :: e in removed <==> e in listing && e.isFile && e.mtime < now - 86400.0
    ensures multiset(removed) + multiset(remaining) == multiset(listing)
  {
    removed, remaining := RemoveExpired(listing, now, AppMaxAge);
  }
}
