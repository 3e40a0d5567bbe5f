/**
 * `String.prototype.trim` as ECMAScript defines it (the TrimString abstract
 * operation): remove every leading and trailing code point that is WhiteSpace
 * or a LineTerminator. The create handler calls it only to decide whether
 * `content` is blank.
 */
module JsTrim {

  /** The WhiteSpace code points (TAB, VT, FF, SPACE, NBSP, ZWNBSP and category Zs) and the LineTerminators (LF, CR, LS, PS). */
  const TrimmableSingles: set<char> := {
    '\t', '\U{000B}', '\U{000C}', ' ', '\U{00A0}', '\U{FEFF}',
    '\U{1680}', '\U{202F}', '\U{205F}', '\U{3000}',
    '\n', '\r', '\U{2028}', '\U{2029}'
  }

  /** A code point `trim()` removes: one of the singles, or a Zs space in U+2000..U+200A. */
  predicate IsTrimmable(c: char) {
    c in TrimmableSingles || '\U{2000}' <= c <= '\U{200A}'
  }

  /** Every character of `s` is trimmable: the string renders as nothing but space. */
  ghost predicate Blank(s: string) {
    forall i :: 0 <= i < |s| ==> IsTrimmable(s[i])
  }

  /** Removes the longest trimmable prefix. */
  function TrimStart(s: string): (r: string)
    ensures |r| <= |s| && r == s[|s| - |r|..]
    ensures Blank(s[..|s| - |r|])
    ensures r != [] ==> !IsTrimmable(r[0])
  {
    if s != [] && IsTrimmable(s[0]) then TrimStart(s[1..]) else s
  }

  /** Removes the longest trimmable suffix. */
  function TrimEnd(s: string): (r: string)
    ensures |r| <= |s| && r == s[..|r|]
    ensures Blank(s[|r|..])
    ensures r != [] ==> !IsTrimmable(r[|r| - 1])
  {
    if s != [] && IsTrimmable(s[|s| - 1]) then TrimEnd(s[..|s| - 1]) else s
  }

  /** `r` is the slice of `s` starting at `lo`, with only trimmable text before and after it. */
  ghost predicate SliceBetweenBlanks(s: string, r: string, lo: int) {
    && 0 <= lo <= |s| - |r|
    && r == s[lo..lo + |r|]
    && Blank(s[..lo])
    && Blank(s[lo + |r|..])
  }

  /**
   * `s.trim()`: the slice of `s` left between its longest trimmable prefix and
   * its longest trimmable suffix; when it is not empty it starts and ends with
   * a visible character.
   */
  function Trim(s: string): (r: string)
    ensures exists lo :: SliceBetweenBlanks(s, r, lo)
    ensures r != [] ==> !IsTrimmable(r[0]) && !IsTrimmable(r[|r| - 1])
  {
    var t := TrimStart(s);
    var r := TrimEnd(t);
    CutBothEnds(s, t, r);
    r
  }

  /**
   * Cutting a blank prefix whose remainder starts visibly, and then a blank
   * suffix whose remainder ends visibly, leaves a slice between blanks with
   * visible ends.
   */
  lemma CutBothEnds(s: string, t: string, r: string)
    requires |t| <= |s| && t == s[|s| - |t|..] && Blank(s[..|s| - |t|])
    requires t != [] ==> !IsTrimmable(t[0])
    requires |r| <= |t| && r == t[..|r|] && Blank(t[|r|..])
    ensures SliceBetweenBlanks(s, r, |s| - |t|)
    ensures r != [] ==> !IsTrimmable(r[0])
  {
    var lo := |s| - |t|;
    assert s[lo + |r|..] == t[|r|..];
    assert r == s[lo..lo + |r|];
    if r != [] {
      assert r[0] == t[0];
    }
  }

  /** `s.trim()` is empty exactly when `s` is blank. */
  lemma TrimEmptyIffBlank(s: string)
    ensures Trim(s) == [] <==> Blank(s)
  {
    var t := TrimStart(s);
    if Trim(s) == [] {
      assert t[0..] == t;
      assert s[..|s|] == s;
    }
  }

  /** Trimming twice is trimming once. */
  lemma TrimIdempotent(s: string)
    ensures Trim(Trim(s)) == Trim(s)
  {
    var r := Trim(s);
    if r != [] {
      assert TrimStart(r) == r;
      assert TrimEnd(r) == r;
    }
  }
}
