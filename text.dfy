/** The string operations the screens' searches and form checks use:
    `toLowerCase`, `includes` and `trim() === ''`. */
module Text {

  /** Lower-casing of one character; only the ASCII letters are mapped. */
  function LowerChar(c: char): (d: char)
    ensures 'A' <= c <= 'Z' ==> 'a' <= d <= 'z'
    ensures !('A' <= c <= 'Z') ==> d == c
  {
    if 'A' <= c <= 'Z' then (c as int + 32) as char else c
  }

  function ToLower(s: string): (r: string)
    ensures |r| == |s|
    ensures forall i :: 0 <= i < |s| ==> r[i] == LowerChar(s[i])
  {
    if |s| == 0 then [] else [LowerChar(s[0])] + ToLower(s[1..])
  }

  /** Lower-casing twice is lower-casing once. */
  lemma ToLowerIdempotent(s: string)
    ensures ToLower(ToLower(s)) == ToLower(s)
  {
  }

  predicate IsPrefix(p: string, s: string) {
    |p| <= |s| && s[..|p|] == p
  }

  /** `s.includes(t)`: `t` occurs in `s` at some offset. */
  predicate Contains(s: string, t: string)
    decreases |s|
  {
    IsPrefix(t, s) || (|s| > 0 && Contains(s[1..], t))
  }

  /** The empty string occurs in every string. */
  lemma ContainsEmpty(s: string)
    ensures Contains(s, "")
  {
  }

  lemma ContainsSelf(s: string)
    ensures Contains(s, s)
  {
  }

  predicate IsWhitespace(c: char) {
    c == ' ' || c == '\t' || c == '\n' || c == '\r' || c == '\U{000B}' || c == '\U{000C}'
  }

  /** `s.trim() === ''`: every character is whitespace. */
  predicate IsBlank(s: string) {
    forall i :: 0 <= i < |s| ==> IsWhitespace(s[i])
  }

  /** Case-insensitive substring test: `a.toLowerCase().includes(b.toLowerCase())`. */
  predicate ContainsIgnoringCase(s: string, t: string) {
    Contains(ToLower(s), ToLower(t))
  }
}
