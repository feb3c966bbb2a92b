/**
  Ordinal case-insensitive string comparison, restricted to ASCII letters:
  two strings are equal when they have the same length and agree character by
  character after mapping `a`..`z` to `A`..`Z`. A character here is a Unicode
  scalar value; one outside the Basic Multilingual Plane is two UTF-16 code
  units in .NET, which cannot matter against an ASCII constant.
 */
module Ascii {

  /** Upper-case an ASCII letter; every other character is left alone. */
  function ToUpper(c: char): char {
    if 'a' <= c <= 'z' then (c as int - 32) as char else c
  }

  /** The string with every ASCII letter upper-cased. */
  function FoldUpper(s: string): (r: string)
    ensures |r| == |s|
    ensures forall i :: 0 <= i < |s| ==> r[i] == ToUpper(s[i])
  {
    seq(|s|, i requires 0 <= i < |s| => ToUpper(s[i]))
  }

  /** Walks both strings in step, as an ordinal comparison does. */
  function EqualsIgnoreCase(a: string, b: string): bool
    decreases |a|
  {
    if |a| != |b| then false
    else if |a| == 0 then true
    else ToUpper(a[0]) == ToUpper(b[0]) && EqualsIgnoreCase(a[1..], b[1..])
  }

  /** The stepwise comparison agrees with comparing the upper-cased forms. */
  lemma {:induction false} EqualsIgnoreCaseFolds(a: string, b: string)
    ensures EqualsIgnoreCase(a, b) <==> FoldUpper(a) == FoldUpper(b)
    decreases |a|
  {
    if |a| == |b| && |a| > 0 {
      EqualsIgnoreCaseFolds(a[1..], b[1..]);
      assert FoldUpper(a) == [ToUpper(a[0])] + FoldUpper(a[1..]);
      assert FoldUpper(b) == [ToUpper(b[0])] + FoldUpper(b[1..]);
    }
  }

  /** A string upper-cases to a word of capital letters exactly when each of
      its characters is that letter in either case. */
  lemma FoldedCaseVariants(s: string, upper: string)
    requires forall i :: 0 <= i < |upper| ==> 'A' <= upper[i] <= 'Z'
    ensures FoldUpper(s) == upper <==>
              |s| == |upper| && forall i :: 0 <= i < |s| ==> s[i] == upper[i] || s[i] as int == upper[i] as int + 32
  {
  }
}
