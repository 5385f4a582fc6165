/** The two JavaScript string methods the page relies on, `toLowerCase` and
    `trim`, restricted to ASCII: only 'A'..'Z' are lowered, and only the ASCII
    white-space and line-terminator characters are trimmed. */
module AsciiText {

  predicate IsUpper(c: char) { 'A' <= c <= 'Z' }

  /** Tab, line feed, vertical tab, form feed, carriage return and space. */
  predicate IsSpace(c: char) { c == ' ' || '\t' <= c <= '\r' }

  function LowerChar(c: char): char {
    if IsUpper(c) then (c as int + 32) as char else c
  }

  /** `s.toLowerCase()`: every character lowered, nothing added or removed. */
  function ToLower(s: string): (r: string)
    ensures |r| == |s|
    ensures forall i :: 0 <= i < |s| ==> r[i] == LowerChar(s[i])
  {
    if s == [] then [] else [LowerChar(s[0])] + ToLower(s[1..])
  }

  /** A lowered string has no upper-case letter left. */
  lemma ToLowerHasNoUpper(s: string)
    ensures forall i :: 0 <= i < |s| ==> !IsUpper(ToLower(s)[i])
  {
  }

  /** Lowering a string that has no upper-case letter leaves it as it is. */
  lemma ToLowerOfLower(s: string)
    requires forall i :: 0 <= i < |s| ==> !IsUpper(s[i])
    ensures ToLower(s) == s
  {
    assert forall i :: 0 <= i < |s| ==> ToLower(s)[i] == s[i];
  }

  /** Lowering twice is lowering once. */
  lemma ToLowerIdempotent(s: string)
    ensures ToLower(ToLower(s)) == ToLower(s)
  {
    ToLowerHasNoUpper(s);
    ToLowerOfLower(ToLower(s));
  }

  /** Drops the leading white space: what is left is a suffix of `s` that
      starts with a non-space, and everything dropped was white space. */
  function TrimStart(s: string): (r: string)
    ensures |r| <= |s| && r == s[|s| - |r|..]
    ensures forall i :: 0 <= i < |s| - |r| ==> IsSpace(s[i])
    ensures r == [] || !IsSpace(r[0])
  {
    if s != [] && IsSpace(s[0]) then TrimStart(s[1..]) else s
  }

  /** Drops the trailing white space: what is left is a prefix of `s` that
      ends with a non-space, and everything dropped was white space. */
  function TrimEnd(s: string): (r: string)
    ensures |r| <= |s| && r == s[..|r|]
    ensures forall i :: |r| <= i < |s| ==> IsSpace(s[i])
    ensures r == [] || !IsSpace(r[|r| - 1])
  {
    if s != [] && IsSpace(s[|s| - 1]) then TrimEnd(s[..|s| - 1]) else s
  }

  /** `s.trim()`: the result is the part of `s` left after dropping its
      leading and trailing white space, and neither of its ends is white space. */
  function Trim(s: string): (r: string)
    ensures |r| <= |s|
    ensures MiddleBetweenBlanks(s, |s| - |TrimStart(s)|, r)
    ensures r == [] || (!IsSpace(r[0]) && !IsSpace(r[|r| - 1]))
  {
    var t := TrimStart(s);
    var r := TrimEnd(t);
    BlankPrefixAndSuffix(s, t, r);
    r
  }

  /** `r` is the part of `s` that starts at `a`, and what lies before and
      after it in `s` is blank. */
  predicate MiddleBetweenBlanks(s: string, a: nat, r: string) {
    && a + |r| <= |s| && r == s[a..a + |r|]
    && IsBlank(s[..a]) && IsBlank(s[a + |r|..])
  }

  /** A suffix `t` of `s` after white space, and a prefix `r` of `t` before
      white space, leave `r` as the middle of `s` between two blank parts. */
  lemma BlankPrefixAndSuffix(s: string, t: string, r: string)
    requires |t| <= |s| && t == s[|s| - |t|..]
    requires forall i :: 0 <= i < |s| - |t| ==> IsSpace(s[i])
    requires |r| <= |t| && r == t[..|r|]
    requires forall i :: |r| <= i < |t| ==> IsSpace(t[i])
    ensures MiddleBetweenBlanks(s, |s| - |t|, r)
  {
    var a := |s| - |t|;
    var tail := s[a + |r|..];
    forall i | 0 <= i < |tail|
      ensures IsSpace(tail[i])
    {
      assert tail[i] == t[|r| + i];
    }
  }

  /** A blank string is empty or made of white space only. */
  predicate IsBlank(s: string) { forall i :: 0 <= i < |s| ==> IsSpace(s[i]) }

  /** `!s.trim()` holds, the trimmed string being empty and so falsy,
      exactly when `s` is blank. */
  lemma TrimEmptyIffBlank(s: string)
    ensures Trim(s) == [] <==> IsBlank(s)
  {
  }

  /** One character that is not white space makes a string non-blank. */
  lemma NonSpaceIsNotBlank(s: string, i: nat)
    requires i < |s| && !IsSpace(s[i])
    ensures !IsBlank(s)
  {
  }
}
