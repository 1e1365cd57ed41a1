/**
 * The two Python string methods the shell and the resolver rely on,
 * `str.lower()` and `str.capitalize()`, restricted to ASCII case mapping:
 * characters outside 'A'..'Z' / 'a'..'z' are left as they are.
 */
module Ascii {

  predicate IsUpper(c: char) { 'A' <= c <= 'Z' }

  predicate IsLower(c: char) { 'a' <= c <= 'z' }

  function LowerChar(c: char): char
  {
    if IsUpper(c) then (c as int + 32) as char else c
  }

  function UpperChar(c: char): char
  {
    if IsLower(c) then (c as int - 32) as char else c
  }

  /** `s.lower()`: every character mapped to lower case, position by position. */
  function Lower(s: string): (r: string)
    ensures |r| == |s|
    ensures forall i :: 0 <= i < |s| ==> r[i] == LowerChar(s[i])
  {
    if s == [] then [] else [LowerChar(s[0])] + Lower(s[1..])
  }

  /** `s.capitalize()`: the first character upper-cased, all the others lower-cased. */
  function Capitalize(s: string): (r: string)
    ensures |r| == |s|
    ensures |s| > 0 ==> r[0] == UpperChar(s[0])
    ensures forall i :: 0 < i < |s| ==> r[i] == LowerChar(s[i])
  {
    if s == [] then [] else [UpperChar(s[0])] + Lower(s[1..])
  }

  /** Lower-casing is idempotent, so a line compared after `lower()` is compared in a canonical form. */
  lemma LowerIdempotent(s: string)
    ensures Lower(Lower(s)) == Lower(s)
  {
  }
}
