/** JavaScript's `String.prototype.trim`, which the message form uses to
    reject blank input. */
module Text {

  /** ECMAScript WhiteSpace and LineTerminator code points: the characters
      `trim` strips from both ends. */
  predicate IsJsWhitespace(c: char)
  {
    c == '\t' || c == '\n' || c == '\U{000B}' || c == '\U{000C}' || c == '\r' ||
    c == ' ' || c == '\U{00A0}' || c == '\U{1680}' ||
    ('\U{2000}' <= c <= '\U{200A}') ||
    c == '\U{2028}' || c == '\U{2029}' || c == '\U{202F}' || c == '\U{205F}' ||
    c == '\U{3000}' || c == '\U{FEFF}'
  }

  /** Reference meaning of "blank": every character is whitespace. */
  ghost predicate AllWhitespace(s: string)
  {
    forall i :: 0 <= i < |s| ==> IsJsWhitespace(s[i])
  }

  /** `s` without its leading whitespace. */
  function TrimStart(s: string): (r: string)
    ensures |r| <= |s| && r == s[|s| - |r|..]
    ensures r == [] || !IsJsWhitespace(r[0])
    ensures forall i :: 0 <= i < |s| - |r| ==> IsJsWhitespace(s[i])
  {
    if s != [] && IsJsWhitespace(s[0]) then TrimStart(s[1..]) else s
  }

  /** `s` without its trailing whitespace. */
  function TrimEnd(s: string): (r: string)
    ensures |r| <= |s| && r == s[..|r|]
    ensures r == [] || !IsJsWhitespace(r[|r| - 1])
    ensures forall i :: |r| <= i < |s| ==> IsJsWhitespace(s[i])
  {
    if s != [] && IsJsWhitespace(s[|s| - 1]) then TrimEnd(s[..|s| - 1]) else s
  }

  /** `s.trim()`: the piece of `s` left between its leading and its trailing
      whitespace; it neither starts nor ends with whitespace. */
  function Trim(s: string): (r: string)
    ensures |r| <= |s|
    ensures r == [] || (!IsJsWhitespace(r[0]) && !IsJsWhitespace(r[|r| - 1]))
  {
    TrimEnd(TrimStart(s))
  }

  /** `trim()` keeps a contiguous piece of its input and removes only
      whitespace, before and after that piece. */
  lemma TrimStripsOuterWhitespace(s: string)
    ensures exists i :: 0 <= i <= |s| - |Trim(s)| && Trim(s) == s[i..][..|Trim(s)|] &&
              (forall k :: 0 <= k < i ==> IsJsWhitespace(s[k])) &&
              (forall k :: i + |Trim(s)| <= k < |s| ==> IsJsWhitespace(s[k]))
  {
    var t := TrimStart(s);
    SliceBetweenWhitespace(s, |s| - |t|, t, Trim(s));
  }

  /** If `t` is `s` from position `i` on, with only whitespace before it, and
      `r` is a prefix of `t` with only whitespace after it, then `r` is the
      piece of `s` between leading and trailing whitespace. */
  lemma SliceBetweenWhitespace(s: string, i: int, t: string, r: string)
    requires 0 <= i <= |s| && t == s[i..] && forall k :: 0 <= k < i ==> IsJsWhitespace(s[k])
    requires |r| <= |t| && r == t[..|r|] && forall j :: |r| <= j < |t| ==> IsJsWhitespace(t[j])
    ensures exists i' :: 0 <= i' <= |s| - |r| && r == s[i'..][..|r|] &&
              (forall k :: 0 <= k < i' ==> IsJsWhitespace(s[k])) &&
              (forall k :: i' + |r| <= k < |s| ==> IsJsWhitespace(s[k]))
  {
  }

  /** `!s.trim()`: true exactly when `s` consists of whitespace only
      (the empty string included). */
  predicate IsBlank(s: string)
    ensures IsBlank(s) <==> AllWhitespace(s)
  {
    Trim(s) == []
  }
}
