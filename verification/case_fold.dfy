/**
 * Case-insensitive string comparison as java.lang.String performs it, with
 * character case mapping restricted to ASCII letters.
 *
 * `EqualsIgnoreCase` follows `String.equalsIgnoreCase`: the lengths must
 * agree and every pair of characters must pass the three-step test of
 * `String.regionMatches(true, ...)` (identical, same upper case, or same
 * lower case of the upper case).  `ToLower` is `String.toLowerCase` in the
 * root locale.
 */
module CaseFold {

  function UpperChar(c: char): char {
    if 'a' <= c <= 'z' then (c as int - 32) as char else c
  }

  function LowerChar(c: char): char {
    if 'A' <= c <= 'Z' then (c as int + 32) as char else c
  }

  function ToLower(s: string): string {
    seq(|s|, i requires 0 <= i < |s| => LowerChar(s[i]))
  }

  /** One character step of the ignore-case region match. */
  predicate CharsMatchIgnoreCase(c1: char, c2: char) {
    || c1 == c2
    || UpperChar(c1) == UpperChar(c2)
    || LowerChar(UpperChar(c1)) == LowerChar(UpperChar(c2))
  }

  predicate RegionMatchesIgnoreCase(a: string, b: string)
    requires |a| == |b|
    decreases |a|
  {
    |a| == 0 || (CharsMatchIgnoreCase(a[0], b[0]) && RegionMatchesIgnoreCase(a[1..], b[1..]))
  }

  predicate EqualsIgnoreCase(a: string, b: string) {
    |a| == |b| && RegionMatchesIgnoreCase(a, b)
  }

  /** The three-step character test accepts exactly the pairs with the same lower case. */
  lemma CharsMatchIffSameLower(c1: char, c2: char)
    ensures CharsMatchIgnoreCase(c1, c2) <==> LowerChar(c1) == LowerChar(c2)
  {
  }

  /** Two strings are equal ignoring case exactly when their lower-cased forms are equal. */
  lemma {:induction false} EqualsIgnoreCaseIffSameLower(a: string, b: string)
    ensures EqualsIgnoreCase(a, b) <==> ToLower(a) == ToLower(b)
    decreases |a|
  {
    if |a| != |b| {
      assert |ToLower(a)| != |ToLower(b)|;
    } else if |a| > 0 {
      EqualsIgnoreCaseIffSameLower(a[1..], b[1..]);
      CharsMatchIffSameLower(a[0], b[0]);
      assert ToLower(a) == [LowerChar(a[0])] + ToLower(a[1..]);
      assert ToLower(b) == [LowerChar(b[0])] + ToLower(b[1..]);
      if ToLower(a) == ToLower(b) {
        assert ToLower(a)[0] == ToLower(b)[0];
        assert ToLower(a)[1..] == ToLower(b)[1..];
      }
    }
  }

  lemma EqualsIgnoreCaseReflexive(a: string)
    ensures EqualsIgnoreCase(a, a)
  {
    EqualsIgnoreCaseIffSameLower(a, a);
  }

  lemma EqualsIgnoreCaseSymmetric(a: string, b: string)
    ensures EqualsIgnoreCase(a, b) <==> EqualsIgnoreCase(b, a)
  {
    EqualsIgnoreCaseIffSameLower(a, b);
    EqualsIgnoreCaseIffSameLower(b, a);
  }

  lemma EqualsIgnoreCaseTransitive(a: string, b: string, c: string)
    requires EqualsIgnoreCase(a, b) && EqualsIgnoreCase(b, c)
    ensures EqualsIgnoreCase(a, c)
  {
    EqualsIgnoreCaseIffSameLower(a, b);
    EqualsIgnoreCaseIffSameLower(b, c);
    EqualsIgnoreCaseIffSameLower(a, c);
  }
}
