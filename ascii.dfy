/** ASCII case mapping: the part of JavaScript's `toUpperCase` and
    `toLowerCase` that the keyboard can reach. Every label and every
    character a key appends comes from the key layout, which holds only
    digits, lower-case letters, ',', '.' and '?'. */
module Ascii {

  predicate IsLowerLetter(c: char) { 'a' <= c <= 'z' }

  predicate IsUpperLetter(c: char) { 'A' <= c <= 'Z' }

  /** `toUpperCase` on one character. */
  function Upper(c: char): (r: char)
    ensures !IsLowerLetter(r)
    ensures IsLowerLetter(c) ==> IsUpperLetter(r) && r as int + 32 == c as int
    ensures !IsLowerLetter(c) ==> r == c
  {
    if IsLowerLetter(c) then (c as int - 32) as char else c
  }

  /** `toLowerCase` on one character. */
  function Lower(c: char): (r: char)
    ensures !IsUpperLetter(r)
    ensures IsUpperLetter(c) ==> IsLowerLetter(r) && r as int == c as int + 32
    ensures !IsUpperLetter(c) ==> r == c
  {
    if IsUpperLetter(c) then (c as int + 32) as char else c
  }

  /** The laws of case mapping on one character: each mapping is idempotent,
      each one absorbs the other, a letter and its counterpart agree after
      mapping, and only letters of the other case are changed. */
  lemma CharCaseLaws(c: char)
    ensures Upper(Upper(c)) == Upper(c) && Lower(Lower(c)) == Lower(c)
    ensures Upper(Lower(c)) == Upper(c) && Lower(Upper(c)) == Lower(c)
    ensures Upper(c) == c <==> !IsLowerLetter(c)
    ensures Lower(c) == c <==> !IsUpperLetter(c)
    ensures IsLowerLetter(c) ==> IsUpperLetter(Upper(c)) && Lower(Upper(c)) == c
    ensures IsUpperLetter(c) ==> IsLowerLetter(Lower(c)) && Upper(Lower(c)) == c
  {
  }

  /** `toUpperCase` on a string: the same length, every character mapped. */
  function UpperStr(s: string): (r: string)
    ensures |r| == |s|
    ensures forall i :: 0 <= i < |s| ==> r[i] == Upper(s[i])
  {
    if s == [] then [] else [Upper(s[0])] + UpperStr(s[1..])
  }

  /** `toLowerCase` on a string: the same length, every character mapped. */
  function LowerStr(s: string): (r: string)
    ensures |r| == |s|
    ensures forall i :: 0 <= i < |s| ==> r[i] == Lower(s[i])
  {
    if s == [] then [] else [Lower(s[0])] + LowerStr(s[1..])
  }

  /** The character laws lifted to strings: mapping twice is mapping once with
      the second mapping. */
  lemma StrCaseLaws(s: string)
    ensures UpperStr(UpperStr(s)) == UpperStr(s) && LowerStr(LowerStr(s)) == LowerStr(s)
    ensures UpperStr(LowerStr(s)) == UpperStr(s) && LowerStr(UpperStr(s)) == LowerStr(s)
  {
    forall i | 0 <= i < |s| {
      CharCaseLaws(s[i]);
    }
  }
}
