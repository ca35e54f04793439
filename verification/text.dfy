/**
 * Upper-casing of basemap keys (Python's `str.upper`), restricted to the
 * ASCII letters: 'a'..'z' become 'A'..'Z' and every other character is kept.
 */
module Text {
  predicate IsAsciiLower(c: char) { 'a' <= c <= 'z' }

  /** `a` and `b` are the same character, or the same ASCII letter in two cases. */
  predicate SameLetter(a: char, b: char) {
    a == b
    || (IsAsciiLower(a) && b as int == a as int - 32)
    || (IsAsciiLower(b) && a as int == b as int - 32)
  }

  predicate EqualIgnoringCase(s: string, t: string) {
    |s| == |t| && forall i :: 0 <= i < |s| ==> SameLetter(s[i], t[i])
  }

  predicate NoLowerCase(s: string) {
    forall i :: 0 <= i < |s| ==> !IsAsciiLower(s[i])
  }

  function UpperChar(c: char): char {
    if IsAsciiLower(c) then (c as int - 32) as char else c
  }

  /** The upper-case form of `s`: no lower-case letter is left and each character is `s`'s up to case. */
  function Upper(s: string): (r: string)
    ensures NoLowerCase(r) && EqualIgnoringCase(r, s)
  {
    seq(|s|, i requires 0 <= i < |s| => UpperChar(s[i]))
  }

  /** Upper-casing is case-insensitive: strings that differ only in case have the same upper-case form. */
  lemma UpperIgnoresCase(s: string, t: string)
    requires EqualIgnoringCase(s, t)
    ensures Upper(s) == Upper(t)
  {
    forall i | 0 <= i < |s|
      ensures Upper(s)[i] == Upper(t)[i]
    {
      assert SameLetter(s[i], t[i]);
    }
  }

  /** A string with no lower-case letter is its own upper-case form. */
  lemma UpperFixesUpperCase(s: string)
    requires NoLowerCase(s)
    ensures Upper(s) == s
  {
  }

  lemma UpperIdempotent(s: string)
    ensures Upper(Upper(s)) == Upper(s)
  {
    UpperFixesUpperCase(Upper(s));
  }
}
