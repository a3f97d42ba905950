/**
 * PHP's `strtoupper`, which (independently of the locale since PHP 8.2) maps only
 * the ASCII letters `a`..`z` to `A`..`Z` and leaves every other character alone.
 */
module AsciiCase {

  predicate IsLower(c: char) {
    'a' <= c <= 'z'
  }

  predicate IsUpper(c: char) {
    'A' <= c <= 'Z'
  }

  function UpperChar(c: char): char {
    if IsLower(c) then (c as int - 32) as char else c
  }

  /**
   * Two characters are equal ignoring ASCII case: the same character, or the
   * lower- and upper-case forms of one letter.
   */
  predicate SameIgnoringCase(a: char, b: char) {
    a == b || (IsLower(a) && b as int == a as int - 32) || (IsLower(b) && a as int == b as int - 32)
  }

  /** Equal ignoring ASCII case, character by character. */
  predicate EqualsIgnoringCase(s: string, t: string) {
    |s| == |t| && forall i :: 0 <= i < |s| ==> SameIgnoringCase(s[i], t[i])
  }

  /** A string in which no character is a lower-case ASCII letter. */
  predicate NoLower(s: string) {
    forall i :: 0 <= i < |s| ==> !IsLower(s[i])
  }

  /** `strtoupper(s)`. */
  function ToUpper(s: string): (r: string)
    ensures |r| == |s|
    ensures forall i :: 0 <= i < |s| ==> r[i] == UpperChar(s[i])
    ensures NoLower(r)
  {
    if s == [] then [] else [UpperChar(s[0])] + ToUpper(s[1..])
  }

  /** Upper-casing twice is upper-casing once. */
  lemma ToUpperIdempotent(s: string)
    ensures ToUpper(ToUpper(s)) == ToUpper(s)
  {
    var u := ToUpper(s);
    assert forall i :: 0 <= i < |u| ==> ToUpper(u)[i] == u[i];
  }

  /** A string with no lower-case letter is its own upper-case form. */
  lemma ToUpperOfNoLower(t: string)
    requires NoLower(t)
    ensures ToUpper(t) == t
  {
    assert forall i :: 0 <= i < |t| ==> ToUpper(t)[i] == t[i];
  }

  /**
   * For a target without lower-case letters, upper-casing `s` gives the target
   * exactly when `s` equals it ignoring case: so `strtoupper` compares case-insensitively.
   */
  lemma ToUpperMatchesIffEqualsIgnoringCase(s: string, t: string)
    requires NoLower(t)
    ensures ToUpper(s) == t <==> EqualsIgnoringCase(s, t)
  {
    var u := ToUpper(s);
    if u == t {
      forall i | 0 <= i < |s|
        ensures SameIgnoringCase(s[i], t[i])
      {
        assert t[i] == UpperChar(s[i]);
      }
    }
    if EqualsIgnoringCase(s, t) {
      forall i | 0 <= i < |s|
        ensures u[i] == t[i]
      {
        assert SameIgnoringCase(s[i], t[i]);
        assert !IsLower(t[i]);
      }
    }
  }
}
