/** Lower-casing as `String.prototype.toLowerCase` does it, restricted to ASCII letters. */
module Ascii {

  function ToLower(c: char): (r: char)
    ensures !('A' <= r <= 'Z')
    ensures 'A' <= c <= 'Z' ==> r as int == c as int + 32
    ensures !('A' <= c <= 'Z') ==> r == c
  {
    if 'A' <= c <= 'Z' then (c as int + 32) as char else c
  }

  /** `s.toLowerCase()` for ASCII letters; every other character is kept. */
  function Lower(s: string): (r: string)
    ensures |r| == |s|
    ensures forall i :: 0 <= i < |s| ==> r[i] == ToLower(s[i])
  {
    if s == [] then [] else [ToLower(s[0])] + Lower(s[1..])
  }

  /** The same character, or the upper- and lower-case form of one ASCII letter. */
  predicate SameLetterIgnoringCase(x: char, y: char)
  {
    || x == y
    || ('A' <= x <= 'Z' && y as int == x as int + 32)
    || ('A' <= y <= 'Z' && x as int == y as int + 32)
  }

  /** Two strings that differ at most in the case of their letters. */
  predicate EqualIgnoringCase(a: string, b: string)
  {
    |a| == |b| && forall i :: 0 <= i < |a| ==> SameLetterIgnoringCase(a[i], b[i])
  }

  /** Lower-casing two characters gives the same one iff they differ at most in case. */
  lemma ToLowerEqualIff(x: char, y: char)
    ensures ToLower(x) == ToLower(y) <==> SameLetterIgnoringCase(x, y)
  {
  }

  /** Comparing lower-cased strings is exactly case-insensitive comparison. */
  lemma LowerEqualIff(a: string, b: string)
    ensures Lower(a) == Lower(b) <==> EqualIgnoringCase(a, b)
  {
    if |a| == |b| {
      forall i | 0 <= i < |a|
        ensures Lower(a)[i] == Lower(b)[i] <==> SameLetterIgnoringCase(a[i], b[i])
      {
        ToLowerEqualIff(a[i], b[i]);
      }
      if EqualIgnoringCase(a, b) {
        assert forall i :: 0 <= i < |a| ==> Lower(a)[i] == Lower(b)[i];
      }
    }
  }

  /** A string of lower-case letters (and other non-upper-case characters) is its own lower-casing. */
  lemma LowerOfLowerCase(s: string)
    requires forall i :: 0 <= i < |s| ==> !('A' <= s[i] <= 'Z')
    ensures Lower(s) == s
  {
  }

  /** Lower-cased input compares equal to a lower-case literal iff the input
      spells that literal in any mix of cases. */
  lemma LowerMatchesLiteral(s: string, literal: string)
    requires forall i :: 0 <= i < |literal| ==> !('A' <= literal[i] <= 'Z')
    ensures Lower(s) == literal <==> EqualIgnoringCase(s, literal)
  {
    LowerOfLowerCase(literal);
    LowerEqualIff(s, literal);
  }
}
