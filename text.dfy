/**
 * String helpers the labeler relies on: Python's `str.strip()` (used on the
 * label entry text) and `os.path.basename` (used to find the current file in
 * the sorted image list).
 */
module Text {

  /** Python's `str.isspace()` for a single character. */
  predicate IsSpace(c: char) {
    ('\t' <= c <= '\r') || ('\U{1C}' <= c <= '\U{1F}') || c == ' '
    || c == '\U{85}' || c == '\U{A0}' || c == '\U{1680}'
    || ('\U{2000}' <= c <= '\U{200A}') || c == '\U{2028}' || c == '\U{2029}'
    || c == '\U{202F}' || c == '\U{205F}' || c == '\U{3000}'
  }

  /** Every character of `s` from position `lo` up to (not including) `hi` is whitespace. */
  predicate SpaceBetween(s: string, lo: nat, hi: nat)
    requires lo <= hi <= |s|
  {
    forall k :: lo <= k < hi ==> IsSpace(s[k])
  }

  /** The first position at or after `from` that is not whitespace, or `|s|`. */
  function FirstNonSpace(s: string, from: nat): (i: nat)
    requires from <= |s|
    ensures from <= i <= |s| && SpaceBetween(s, from, i)
    ensures i < |s| ==> !IsSpace(s[i])
    decreases |s| - from
  {
    if from == |s| || !IsSpace(s[from]) then from else FirstNonSpace(s, from + 1)
  }

  /** The end of the last non-whitespace character in `s[lo..hi]`, or `lo` when there is none. */
  function EndOfNonSpace(s: string, lo: nat, hi: nat): (j: nat)
    requires lo <= hi <= |s|
    ensures lo <= j <= hi && SpaceBetween(s, j, hi)
    ensures lo < j ==> !IsSpace(s[j - 1])
    decreases hi
  {
    if hi == lo || !IsSpace(s[hi - 1]) then hi else EndOfNonSpace(s, lo, hi - 1)
  }

  /**
   * Python's `s.strip()`: the slice left after removing the whitespace run at
   * each end. It is empty exactly when `s` is all whitespace, and otherwise
   * starts and ends with a non-whitespace character.
   */
  function Strip(s: string): (r: string)
    ensures |r| <= |s|
    ensures var i := FirstNonSpace(s, 0);
      i + |r| <= |s| && r == s[i..i + |r|] && SpaceBetween(s, 0, i) && SpaceBetween(s, i + |r|, |s|)
    ensures r == [] <==> SpaceBetween(s, 0, |s|)
    ensures r != [] ==> !IsSpace(r[0]) && !IsSpace(r[|r| - 1])
  {
    var i := FirstNonSpace(s, 0);
    var j := EndOfNonSpace(s, i, |s|);
    assert j == i ==> SpaceBetween(s, 0, |s|);
    s[i..j]
  }

  /** Stripping twice is the same as stripping once. */
  lemma StripIdempotent(s: string)
    ensures Strip(Strip(s)) == Strip(s)
  {
    var r := Strip(s);
    if r != [] {
      assert FirstNonSpace(r, 0) == 0;
      assert EndOfNonSpace(r, 0, |r|) == |r|;
      assert r[0..|r|] == r;
    }
  }

  /**
   * POSIX `os.path.basename`: the part of `path` after its last '/', or the
   * whole path when it has none.
   */
  function BaseName(path: string): (r: string)
    ensures |r| <= |path| && r == path[|path| - |r|..]
    ensures '/' !in r
    ensures |r| < |path| ==> path[|path| - |r| - 1] == '/'
  {
    if path == [] then []
    else if path[|path| - 1] == '/' then []
    else BaseName(path[..|path| - 1]) + [path[|path| - 1]]
  }
}
