/**
 * String operations the page and the server rely on: substring search
 * (JavaScript's `includes`, Python's `in`) and Python's `str.replace`.
 */
module Strings {

  /** `t` occurs at position `i` of `s`. */
  predicate OccursAt(s: string, t: string, i: int)
  {
    0 <= i && i + |t| <= |s| && s[i..i + |t|] == t
  }

  /** `t` occurs somewhere in `s` as a contiguous substring. */
  predicate Contains(s: string, t: string)
    decreases |s|
  {
    t <= s || (|s| > 0 && Contains(s[1..], t))
  }

  /** Contains is exactly "occurs at some position". */
  lemma {:induction false} ContainsAt(s: string, t: string, i: int)
    requires OccursAt(s, t, i)
    ensures Contains(s, t)
    decreases i
  {
    if i == 0 {
      assert s[..|t|] == t;
    } else {
      assert OccursAt(s[1..], t, i - 1) by {
        assert s[1..][i - 1..i - 1 + |t|] == s[i..i + |t|];
      }
      ContainsAt(s[1..], t, i - 1);
    }
  }

  /** Every occurrence found by Contains has a position. */
  lemma {:induction false} ContainsWitness(s: string, t: string) returns (i: int)
    requires Contains(s, t)
    ensures OccursAt(s, t, i)
    decreases |s|
  {
    if t <= s {
      i := 0;
    } else {
      var j := ContainsWitness(s[1..], t);
      assert s[1..][j..j + |t|] == s[j + 1..j + 1 + |t|];
      i := j + 1;
    }
  }

  /** A substring of a slice of `s` is a substring of `s`. */
  lemma ContainsInSlice(s: string, lo: int, hi: int, t: string)
    requires 0 <= lo <= hi <= |s|
    requires Contains(s[lo..hi], t)
    ensures Contains(s, t)
  {
    var i := ContainsWitness(s[lo..hi], t);
    assert 0 <= i && i + |t| <= hi - lo;
    forall k | 0 <= k < |t| ensures s[lo + i..lo + i + |t|][k] == t[k] {
      assert s[lo..hi][i..i + |t|][k] == t[k];
    }
    ContainsAt(s, t, lo + i);
  }

  /**
   * Python's `s.replace(pat, rep)` for a non-empty `pat`: every occurrence
   * of `pat`, scanning left to right without overlap, is replaced by `rep`.
   */
  function ReplaceAll(s: string, pat: string, rep: string): (r: string)
    requires pat != []
    ensures !Contains(s, pat) ==> r == s
    ensures pat <= s ==> rep <= r
    decreases |s|
  {
    if pat <= s then rep + ReplaceAll(s[|pat|..], pat, rep)
    else if s == [] then []
    else [s[0]] + ReplaceAll(s[1..], pat, rep)
  }

  /**
   * When the first character of `pat` does not occur in `s`, the only
   * occurrence of `pat` in `s + pat` is the final one, so only it is replaced.
   */
  lemma {:induction false} ReplaceOnlyTrailing(s: string, pat: string, rep: string)
    requires pat != [] && pat[0] !in s
    ensures ReplaceAll(s + pat, pat, rep) == s + rep
    decreases |s|
  {
    if s == [] {
      assert s + pat == pat;
      assert pat[|pat|..] == [];
    } else {
      assert (s + pat)[0] == s[0] != pat[0];
      assert !(pat <= s + pat);
      assert (s + pat)[1..] == s[1..] + pat;
      ReplaceOnlyTrailing(s[1..], pat, rep);
      assert [s[0]] + (s[1..] + rep) == s + rep;
    }
  }
}
