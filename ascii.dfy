/**
 * ASCII case mapping, as done by PHP's `strtoupper` (byte-wise and
 * locale-independent: only the letters a-z change).
 */
module Ascii {

  predicate IsLower(c: char) { 'a' <= c <= 'z' }

  predicate IsUpper(c: char) { 'A' <= c <= 'Z' }

  /** No character of `s` is a lower-case ASCII letter. */
  predicate NoLower(s: string) { forall i :: 0 <= i < |s| ==> !IsLower(s[i]) }

  function UpperChar(c: char): char
  {
    if IsLower(c) then (c as int - 32) as char else c
  }

  /** PHP's `strtoupper`. */
  function ToUpper(s: string): (r: string)
    ensures |r| == |s|
    ensures NoLower(r)
  {
    seq(|s|, i requires 0 <= i < |s| => UpperChar(s[i]))
  }

  /**
   * `c` and `d` are the same character up to ASCII case: equal, or an
   * upper-case letter and its lower-case counterpart (32 code points apart).
   */
  predicate SameIgnoringCase(c: char, d: char)
  {
    || c == d
    || (IsUpper(c) && d as int == c as int + 32)
    || (IsUpper(d) && c as int == d as int + 32)
  }

  /** `s` is a spelling of `t` in some mixture of upper and lower case. */
  predicate CaseVariant(s: string, t: string)
  {
    |s| == |t| && forall i :: 0 <= i < |s| ==> SameIgnoringCase(s[i], t[i])
  }

  /** Only lower-case letters change; every other character is kept. */
  lemma ToUpperKeeps(s: string, i: nat)
    requires i < |s|
    ensures !IsLower(s[i]) ==> ToUpper(s)[i] == s[i]
    ensures IsLower(s[i]) ==> IsUpper(ToUpper(s)[i]) && ToUpper(s)[i] as int + 32 == s[i] as int
  {
  }

  /** A string with no lower-case letter is its own upper-case form. */
  lemma ToUpperOfNoLower(s: string)
    requires NoLower(s)
    ensures ToUpper(s) == s
  {
  }

  /** Upper-casing twice is upper-casing once. */
  lemma ToUpperIdempotent(s: string)
    ensures ToUpper(ToUpper(s)) == ToUpper(s)
  {
  }

  /**
   * For a target `t` without lower-case letters, `s` upper-cases to `t`
   * exactly when `s` is `t` written in any casing.
   */
  lemma ToUpperIsCaseInsensitive(s: string, t: string)
    requires NoLower(t)
    ensures ToUpper(s) == t <==> CaseVariant(s, t)
  {
  }
}
