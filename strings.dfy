/** The C string comparisons the program relies on. `strcmp` equality is
    sequence equality. `stricmp` compares after mapping the ASCII capitals
    to lower case, so two strings are equal under it when their lower-case
    forms are the same. */
module Strings {

  /** `tolower` in the "C" locale */
  function LowerChar(c: char): (r: char)
    ensures 'A' <= c <= 'Z' ==> r as int == c as int + 32
    ensures !('A' <= c <= 'Z') ==> r == c
  {
    if 'A' <= c <= 'Z' then (c as int + 32) as char else c
  }

  function Lower(s: string): (r: string)
    ensures |r| == |s|
    ensures forall i :: 0 <= i < |s| ==> r[i] == LowerChar(s[i])
  {
    if |s| == 0 then [] else [LowerChar(s[0])] + Lower(s[1..])
  }

  /** `stricmp(a, b) == 0` */
  function EqualsIgnoreCase(a: string, b: string): (r: bool)
    ensures a == b ==> r
    ensures r ==> |a| == |b|
  {
    Lower(a) == Lower(b)
  }

  /** lowering is idempotent: no lower-case letter has an upper-case image */
  lemma LowerIdempotent(s: string)
    ensures Lower(Lower(s)) == Lower(s)
  {
    assert forall i :: 0 <= i < |s| ==> LowerChar(LowerChar(s[i])) == LowerChar(s[i]);
  }

  /** the comparison is an equivalence, and exact equality implies it */
  lemma IgnoreCaseEquivalence(a: string, b: string, c: string)
    ensures EqualsIgnoreCase(a, a)
    ensures EqualsIgnoreCase(a, b) ==> EqualsIgnoreCase(b, a)
    ensures EqualsIgnoreCase(a, b) && EqualsIgnoreCase(b, c) ==> EqualsIgnoreCase(a, c)
  {}

  /** two strings are equal ignoring case exactly when they have the same
      length and agree at every position after lowering */
  lemma {:induction false} IgnoreCasePointwise(a: string, b: string)
    ensures EqualsIgnoreCase(a, b) <==>
      |a| == |b| && forall i :: 0 <= i < |a| ==> LowerChar(a[i]) == LowerChar(b[i])
  {
    if |a| == |b| && forall i :: 0 <= i < |a| ==> LowerChar(a[i]) == LowerChar(b[i]) {
      assert forall i :: 0 <= i < |a| ==> Lower(a)[i] == Lower(b)[i];
    }
  }

  /** exactly the ASCII capitals change under lowering, so a string with
      another upper-case spelling is still found */
  lemma UpperMatches()
    ensures EqualsIgnoreCase("TRUE", "true")
  {
    LowerIs("TRUE", "true");
    LowerIs("true", "true");
  }

  /** the same holds around digits and punctuation, as in a file name */
  lemma FileNameMatches()
    ensures EqualsIgnoreCase("Stone.PNG", "stone.png")
  {
    LowerIs("Stone.PNG", "stone.png");
    LowerIs("stone.png", "stone.png");
  }

  /** strings of different lengths never match */
  lemma {:induction false} LengthsDiffer(a: string, b: string)
    requires |a| != |b|
    ensures !EqualsIgnoreCase(a, b)
  {
    assert |Lower(a)| == |a|;
  }

  /** `t` is the lowered `s` when it lowers `s` position by position */
  lemma LowerIs(s: string, t: string)
    requires |s| == |t| && forall i :: 0 <= i < |s| ==> t[i] == LowerChar(s[i])
    ensures Lower(s) == t
  {}
}
