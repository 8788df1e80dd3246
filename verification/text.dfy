/**
  The two character classes of ECMAScript the route handlers and the page rely on: line
  terminators (which the regular-expression `.` does not match) and the
  characters `String.prototype.trim` removes.
 */
module Text {

  /** ECMAScript LineTerminator: LF, CR, LINE SEPARATOR, PARAGRAPH SEPARATOR. */
  predicate IsLineTerminator(c: char) {
    c == '\n' || c == '\r' || c == '\U{2028}' || c == '\U{2029}'
  }

  /** ECMAScript WhiteSpace: TAB, VT, FF, ZWNBSP and the space separators (category Zs). */
  predicate IsWhiteSpace(c: char) {
    || c == '\t' || c == '\U{000B}' || c == '\U{000C}' || c == '\U{FEFF}'
    || c == ' ' || c == '\U{00A0}' || c == '\U{1680}'
    || ('\U{2000}' <= c <= '\U{200A}')
    || c == '\U{202F}' || c == '\U{205F}' || c == '\U{3000}'
  }

  /** A character `trim` strips from either end. */
  predicate IsTrimmable(c: char) {
    IsWhiteSpace(c) || IsLineTerminator(c)
  }

  /** Every character of `s` could be matched by the regular-expression `.`. */
  predicate NoLineTerminator(s: string) {
    forall i :: 0 <= i < |s| ==> !IsLineTerminator(s[i])
  }

  /** Every character of `s[lo..hi]` is one `trim` strips. */
  predicate BlankRange(s: string, lo: int, hi: int)
    requires 0 <= lo <= hi <= |s|
  {
    forall k :: lo <= k < hi ==> IsTrimmable(s[k])
  }

  /** `s.trim()` is empty, i.e. `s` is falsy once trimmed. */
  predicate Blank(s: string) {
    BlankRange(s, 0, |s|)
  }

  /** The end of the longest blank run of `s` that starts at `lo`. */
  function SkipForward(s: string, lo: nat): (i: nat)
    requires lo <= |s|
    ensures lo <= i <= |s| && BlankRange(s, lo, i)
    ensures i == |s| || !IsTrimmable(s[i])
    decreases |s| - lo
  {
    if lo < |s| && IsTrimmable(s[lo]) then SkipForward(s, lo + 1) else lo
  }

  /** The start of the longest blank run of `s[lo..hi]` that ends at `hi`. */
  function SkipBackward(s: string, lo: nat, hi: nat): (j: nat)
    requires lo <= hi <= |s|
    ensures lo <= j <= hi && BlankRange(s, j, hi)
    ensures j == lo || !IsTrimmable(s[j - 1])
    decreases hi - lo
  {
    if lo < hi && IsTrimmable(s[hi - 1]) then SkipBackward(s, lo, hi - 1) else hi
  }

  /** `String.prototype.trim`: `s` without its blank prefix and blank suffix. */
  function Trim(s: string): (r: string)
    ensures r == "" <==> Blank(s)
    ensures r != "" ==> !IsTrimmable(r[0]) && !IsTrimmable(r[|r| - 1])
    ensures exists i :: 0 <= i <= |s| - |r| && BlankRange(s, 0, i) && r == s[i..i + |r|] && BlankRange(s, i + |r|, |s|)
  {
    var i := SkipForward(s, 0);
    var j := SkipBackward(s, i, |s|);
    s[i..j]
  }

  /** Trimming twice is trimming once. */
  lemma TrimIdempotent(s: string)
    ensures Trim(Trim(s)) == Trim(s)
  {
    var r := Trim(s);
    if r != "" {
      assert SkipForward(r, 0) == 0;
      assert SkipBackward(r, 0, |r|) == |r|;
    } else {
      assert Blank(r);
    }
  }
}
