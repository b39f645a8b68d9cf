/**
 * Character classes and string helpers of JavaScript that the validation rules
 * rely on: the `\s` class and `String.prototype.trim` (both use ECMAScript's
 * WhiteSpace and LineTerminator code points), `\d`, ASCII letters, and
 * `toLowerCase` restricted to ASCII.
 */
module Text {

  /** ECMAScript WhiteSpace (including every Zs code point) and LineTerminator. */
  predicate IsWhiteSpace(c: char)
  {
    || c == '\t' || c == '\n' || c == '\U{000B}' || c == '\U{000C}' || c == '\r'
    || c == ' ' || c == '\U{00A0}' || c == '\U{1680}'
    || ('\U{2000}' <= c <= '\U{200A}')
    || c == '\U{2028}' || c == '\U{2029}' || c == '\U{202F}' || c == '\U{205F}'
    || c == '\U{3000}' || c == '\U{FEFF}'
  }

  predicate IsDigit(c: char) { '0' <= c <= '9' }

  predicate IsUpper(c: char) { 'A' <= c <= 'Z' }

  predicate IsLower(c: char) { 'a' <= c <= 'z' }

  predicate IsLetter(c: char) { IsUpper(c) || IsLower(c) }

  predicate IsAlphanumeric(c: char) { IsLetter(c) || IsDigit(c) }

  predicate IsDot(c: char) { c == '.' }

  /** Every character of `s` satisfies `p` (a regular expression `^[...]*$`). */
  predicate All(s: string, p: char -> bool)
  {
    forall i :: 0 <= i < |s| ==> p(s[i])
  }

  /** Some character of `s` satisfies `p` (a lookahead `(?=.*[...])`). */
  predicate Any(s: string, p: char -> bool)
  {
    exists i :: 0 <= i < |s| && p(s[i])
  }

  /** The first index whose character satisfies `p`, or `|s|`. */
  function FirstIndex(s: string, p: char -> bool): (i: nat)
    ensures i <= |s|
    ensures i < |s| ==> p(s[i])
    ensures forall j :: 0 <= j < i ==> !p(s[j])
  {
    if s == [] then 0
    else if p(s[0]) then 0
    else 1 + FirstIndex(s[1..], p)
  }

  /** `/^\d+$/`: one or more decimal digits and nothing else. */
  predicate AllDigits(s: string)
  {
    |s| > 0 && All(s, IsDigit)
  }

  /** `String.prototype.trimStart`. */
  function TrimStart(s: string): (r: string)
    ensures |r| <= |s| && r == s[|s| - |r|..]
    ensures r == [] || !IsWhiteSpace(r[0])
    ensures forall i :: 0 <= i < |s| - |r| ==> IsWhiteSpace(s[i])
  {
    if s != [] && IsWhiteSpace(s[0]) then TrimStart(s[1..]) else s
  }

  /** `String.prototype.trimEnd`. */
  function TrimEnd(s: string): (r: string)
    ensures |r| <= |s| && r == s[..|r|]
    ensures r == [] || !IsWhiteSpace(r[|r| - 1])
    ensures forall i :: |r| <= i < |s| ==> IsWhiteSpace(s[i])
  {
    if s != [] && IsWhiteSpace(s[|s| - 1]) then TrimEnd(s[..|s| - 1]) else s
  }

  /**
   * `String.prototype.trim`: `trimStart` then `trimEnd`, whose contracts say
   * exactly which white space each drops, so the result is the infix of `s`
   * between its leading and its trailing white space.
   */
  function Trim(s: string): (r: string)
    ensures r == TrimEnd(TrimStart(s))
    ensures r == [] || (!IsWhiteSpace(r[0]) && !IsWhiteSpace(r[|r| - 1]))
    ensures r == [] <==> All(s, IsWhiteSpace)
  {
    TrimEnd(TrimStart(s))
  }

  function ToLowerChar(c: char): char
  {
    if IsUpper(c) then (c as int + 32) as char else c
  }

  /**
   * `String.prototype.toLowerCase` on ASCII letters; other characters are kept.
   * Only the category rule lowercases, and a category must lowercase to one of
   * five ASCII words, which no non-ASCII character can do.
   */
  function ToLower(s: string): (r: string)
    ensures |r| == |s|
    ensures forall i :: 0 <= i < |s| ==> r[i] == ToLowerChar(s[i])
  {
    if s == [] then [] else [ToLowerChar(s[0])] + ToLower(s[1..])
  }
}


