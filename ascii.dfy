/**
 The character classes the classifier's regular expressions test
 (`[A-Za-z]`, `[0-9]`, and "neither"), and case mapping restricted to ASCII letters.
 */
module Ascii {

  predicate IsLetter(c: char) {
    'A' <= c <= 'Z' || 'a' <= c <= 'z'
  }

  predicate IsUpper(c: char) {
    'A' <= c <= 'Z'
  }

  predicate IsLower(c: char) {
    'a' <= c <= 'z'
  }

  /** A decimal digit, as `[0-9]` and (without the Unicode flag) `\d` match. */
  predicate IsDigit(c: char) {
    '0' <= c <= '9'
  }

  /** A character the classifier reports as special: neither an ASCII letter nor an ASCII digit. */
  predicate IsSpecial(c: char) {
    !IsLetter(c) && !IsDigit(c)
  }

  /** Two letters that differ at most in case. */
  predicate SameLetterIgnoringCase(a: char, b: char) {
    IsLetter(a) && IsLetter(b) &&
    (a == b || a as int - b as int == 32 || b as int - a as int == 32)
  }

  /** `toUpperCase` on one ASCII character. */
  function ToUpper(c: char): (u: char)
    ensures IsLetter(c) ==> IsUpper(u) && SameLetterIgnoringCase(u, c)
    ensures !IsLower(c) ==> u == c
  {
    if IsLower(c) then (c as int - 32) as char else c
  }

  /** `toLowerCase` on one ASCII character. */
  function ToLower(c: char): (l: char)
    ensures IsLetter(c) ==> IsLower(l) && SameLetterIgnoringCase(l, c)
    ensures !IsUpper(c) ==> l == c
  {
    if IsUpper(c) then (c as int + 32) as char else c
  }

  /** `toUpperCase` on a whole string. */
  function UpperString(s: string): (r: string)
    ensures |r| == |s|
    ensures forall i :: 0 <= i < |s| && IsLetter(s[i]) ==> IsUpper(r[i]) && SameLetterIgnoringCase(r[i], s[i])
    ensures forall i :: 0 <= i < |s| && !IsLower(s[i]) ==> r[i] == s[i]
  {
    seq(|s|, i requires 0 <= i < |s| => ToUpper(s[i]))
  }
}
