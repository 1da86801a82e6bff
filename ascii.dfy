/**
 * Character classes and case mapping, restricted to ASCII: `str.isdigit`
 * in the backend and `toUpperCase` in the page are modelled on the ASCII
 * range only.
 */
module Ascii {

  predicate IsDigit(c: char) {
    '0' <= c <= '9'
  }

  predicate IsLower(c: char) {
    'a' <= c <= 'z'
  }

  predicate IsUpper(c: char) {
    'A' <= c <= 'Z'
  }

  predicate AllDigits(s: string) {
    forall i :: 0 <= i < |s| ==> IsDigit(s[i])
  }

  predicate NoLower(s: string) {
    forall i :: 0 <= i < |s| ==> !IsLower(s[i])
  }

  /** `toUpperCase` on one character: a lower-case letter becomes its capital, anything else stays. */
  function UpperChar(c: char): (u: char)
    ensures !IsLower(u)
    ensures IsLower(c) ==> IsUpper(u) && u as int + 32 == c as int
    ensures !IsLower(c) ==> u == c
  {
    if IsLower(c) then (c as int - 32) as char else c
  }

  /** `toUpperCase` on a string: character by character, length kept. */
  function Upper(s: string): (u: string)
    ensures |u| == |s|
    ensures forall i :: 0 <= i < |s| ==> u[i] == UpperChar(s[i])
    ensures NoLower(u)
  {
    if s == [] then [] else [UpperChar(s[0])] + Upper(s[1..])
  }

  /** Two strings that differ only in letter case have the same upper-case form. */
  lemma UpperIgnoresCase(a: string, b: string)
    requires |a| == |b|
    requires forall i :: 0 <= i < |a| ==> a[i] == b[i] || UpperChar(a[i]) == b[i] || a[i] == UpperChar(b[i])
    ensures Upper(a) == Upper(b)
  {
    assert forall i :: 0 <= i < |a| ==> Upper(a)[i] == Upper(b)[i];
  }

  /** The ASCII lower-case form of a character, used to type a query in lower case. */
  function LowerChar(c: char): (l: char)
    ensures !IsUpper(l)
    ensures IsUpper(c) ==> IsLower(l) && l as int == c as int + 32
    ensures !IsUpper(c) ==> l == c
  {
    if IsUpper(c) then (c as int + 32) as char else c
  }

  /** The ASCII lower-case form of a string, used to type a query in lower case. */
  function Lower(s: string): (l: string)
    ensures |l| == |s|
    ensures forall i :: 0 <= i < |s| ==> l[i] == LowerChar(s[i])
  {
    if s == [] then [] else [LowerChar(s[0])] + Lower(s[1..])
  }

  /** Upper-casing undoes lower-casing on a string without lower-case letters. */
  lemma UpperOfLower(s: string)
    requires NoLower(s)
    ensures Upper(Lower(s)) == s
  {
    var l := Lower(s);
    forall i | 0 <= i < |s|
      ensures Upper(l)[i] == s[i]
    {
      UpperOfLowerChar(s[i]);
    }
  }

  lemma UpperOfLowerChar(c: char)
    requires !IsLower(c)
    ensures UpperChar(LowerChar(c)) == c
  {
    if IsUpper(c) {
      assert IsLower(LowerChar(c));
    }
  }
}
