/**
 * The few .NET string operations the engine relies on:
 * `string.IsNullOrWhiteSpace`, `ToUpper` and `ToLower`.
 */
module Text {

  /** `char.IsWhiteSpace`: the Unicode separators and the control characters it accepts. */
  predicate IsWhiteSpace(c: char)
  {
    c == ' ' || ('\t' <= c <= '\r') || c == '\U{85}' || c == '\U{A0}' || c == '\U{1680}'
    || ('\U{2000}' <= c <= '\U{200A}') || c == '\U{2028}' || c == '\U{2029}'
    || c == '\U{202F}' || c == '\U{205F}' || c == '\U{3000}'
  }

  /** `string.IsNullOrWhiteSpace` on a non-null string: empty, or nothing but white space. */
  predicate IsNullOrWhiteSpace(s: string)
  {
    forall i :: 0 <= i < |s| ==> IsWhiteSpace(s[i])
  }

  function ToUpperChar(c: char): char
  {
    if 'a' <= c <= 'z' then (c as int - 'a' as int + 'A' as int) as char else c
  }

  function ToLowerChar(c: char): char
  {
    if 'A' <= c <= 'Z' then (c as int - 'A' as int + 'a' as int) as char else c
  }

  /** `string.ToUpper`, character by character. */
  function ToUpper(s: string): (r: string)
    ensures |r| == |s|
    ensures forall i :: 0 <= i < |s| ==> r[i] == ToUpperChar(s[i])
  {
    seq(|s|, i requires 0 <= i < |s| => ToUpperChar(s[i]))
  }

  /** `string.ToLower`, character by character. */
  function ToLower(s: string): (r: string)
    ensures |r| == |s|
    ensures forall i :: 0 <= i < |s| ==> r[i] == ToLowerChar(s[i])
  {
    seq(|s|, i requires 0 <= i < |s| => ToLowerChar(s[i]))
  }

  /** A string without lower-case ASCII letters is left alone by `ToUpper`. */
  predicate IsUpper(s: string)
  {
    forall i :: 0 <= i < |s| ==> !('a' <= s[i] <= 'z')
  }

  lemma ToUpperIsUpper(s: string)
    ensures IsUpper(ToUpper(s))
  {
  }

  lemma ToUpperFixesUpper(s: string)
    requires IsUpper(s)
    ensures ToUpper(s) == s
  {
  }

  lemma ToUpperAppend(a: string, b: string)
    ensures ToUpper(a + b) == ToUpper(a) + ToUpper(b)
  {
  }

  /** Upper-casing undoes lower-casing on a string of upper-case ASCII letters. */
  lemma ToUpperToLower(s: string)
    requires forall i :: 0 <= i < |s| ==> 'A' <= s[i] <= 'Z'
    ensures ToUpper(ToLower(s)) == s
  {
  }

  lemma ToUpperSlices(s: string, k: nat)
    requires k <= |s|
    ensures ToUpper(s)[..k] == ToUpper(s[..k]) && ToUpper(s)[k..] == ToUpper(s[k..])
  {
  }

  lemma UpperAppend(a: string, b: string)
    requires IsUpper(a) && IsUpper(b)
    ensures IsUpper(a + b)
  {
  }
}
