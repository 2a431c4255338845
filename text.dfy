/**
 * Python's `str.strip()` with no argument: removes, from both ends, every
 * character for which `str.isspace()` holds.
 */
module Text {

  /** The characters Python's `str.isspace()` accepts (bidirectional class WS, B or S, or category Zs). */
  predicate IsSpace(c: char)
  {
    || ('\t' <= c <= '\r')              // \t \n \v \f \r
    || ('\U{1c}' <= c <= '\U{1f}')      // file, group, record and unit separators
    || c == ' '
    || c == '\U{85}' || c == '\U{a0}' || c == '\U{1680}'
    || ('\U{2000}' <= c <= '\U{200a}')
    || c == '\U{2028}' || c == '\U{2029}' || c == '\U{202f}' || c == '\U{205f}' || c == '\U{3000}'
  }

  /** Neither end of `s` is whitespace (the empty string included). */
  predicate Trimmed(s: string)
  {
    s == [] || (!IsSpace(s[0]) && !IsSpace(s[|s| - 1]))
  }

  /** `s.lstrip()`: the longest suffix of `s` that does not start with whitespace. */
  function TrimLeft(s: string): (r: string)
    ensures |r| <= |s| && r == s[|s| - |r|..]
    ensures forall i :: 0 <= i < |s| - |r| ==> IsSpace(s[i])
    ensures r == [] || !IsSpace(r[0])
    decreases |s|
  {
    if s != [] && IsSpace(s[0]) then TrimLeft(s[1..]) else s
  }

  /** `s.rstrip()`: the longest prefix of `s` that does not end with whitespace. */
  function TrimRight(s: string): (r: string)
    ensures |r| <= |s| && r == s[..|r|]
    ensures forall i :: |r| <= i < |s| ==> IsSpace(s[i])
    ensures r == [] || !IsSpace(r[|r| - 1])
    decreases |s|
  {
    if s != [] && IsSpace(s[|s| - 1]) then TrimRight(s[..|s| - 1]) else s
  }

  /** `s.strip()`. */
  function Strip(s: string): (r: string)
    ensures Trimmed(r)
    ensures |r| <= |s|
  {
    var t := TrimRight(s);
    var r := TrimLeft(t);
    assert r == [] || r[|r| - 1] == t[|t| - 1];
    r
  }

  /** A string with no whitespace at either end is left alone by `strip()`. */
  lemma StripTrimmed(s: string)
    requires Trimmed(s)
    ensures Strip(s) == s
  {
  }

  /** `strip()` is idempotent. */
  lemma StripIdempotent(s: string)
    ensures Strip(Strip(s)) == Strip(s)
  {
    StripTrimmed(Strip(s));
  }

  /** One trailing whitespace character never survives `strip()`. */
  lemma StripDropsTrailingSpace(s: string, c: char)
    requires IsSpace(c)
    ensures Strip(s + [c]) == Strip(s)
  {
    var t := s + [c];
    assert t[|t| - 1] == c && t[..|t| - 1] == s;
    assert TrimRight(t) == TrimRight(s);
  }

  /** Where the stripped text starts in `s`: the number of leading whitespace characters removed. */
  function StripStart(s: string): (i: nat)
    ensures i + |Strip(s)| <= |s|
  {
    |TrimRight(s)| - |Strip(s)|
  }

  /** What `strip()` keeps is a contiguous slice of the input, and every character it removes is whitespace. */
  lemma StripIsSlice(s: string)
    ensures var i, r := StripStart(s), Strip(s);
      && r == s[i..i + |r|]
      && (forall k :: 0 <= k < i ==> IsSpace(s[k]))
      && (forall k :: i + |r| <= k < |s| ==> IsSpace(s[k]))
  {
    var t := TrimRight(s);
    var r := TrimLeft(t);
    var i := |t| - |r|;
    assert Strip(s) == r && StripStart(s) == i;
    assert t == s[..|t|] && r == t[i..];
    assert r == s[i..i + |r|];
    forall k | 0 <= k < i ensures IsSpace(s[k]) {
      assert s[k] == t[k];
    }
  }
}
