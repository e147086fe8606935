/**
 * Python's `<=` on strings: lexicographic order by code point, a proper
 * prefix coming first.  (Dafny's own `<=` on sequences means "is a prefix
 * of", which is a different relation.)
 */
module Lex {

  predicate LexLe(a: string, b: string)
    decreases |a|
  {
    if |a| == 0 then true
    else if |b| == 0 then false
    else if a[0] != b[0] then a[0] < b[0]
    else LexLe(a[1..], b[1..])
  }

  lemma {:induction false} LemmaLexLeReflexive(a: string)
    ensures LexLe(a, a)
    decreases |a|
  {
    if |a| > 0 {
      LemmaLexLeReflexive(a[1..]);
    }
  }

  /** Any two strings are comparable, so the tie-break always decides. */
  lemma {:induction false} LemmaLexLeTotal(a: string, b: string)
    ensures LexLe(a, b) || LexLe(b, a)
    decreases |a|
  {
    if |a| > 0 && |b| > 0 && a[0] == b[0] {
      LemmaLexLeTotal(a[1..], b[1..]);
    }
  }

  /** Only equal strings compare both ways, so the tie-break is asymmetric. */
  lemma {:induction false} LemmaLexLeAntisymmetric(a: string, b: string)
    requires LexLe(a, b) && LexLe(b, a)
    ensures a == b
    decreases |a|
  {
    if |a| > 0 && |b| > 0 {
      LemmaLexLeAntisymmetric(a[1..], b[1..]);
      assert a == [a[0]] + a[1..];
      assert b == [b[0]] + b[1..];
    }
  }

  lemma {:induction false} LemmaLexLeTransitive(a: string, b: string, c: string)
    requires LexLe(a, b) && LexLe(b, c)
    ensures LexLe(a, c)
    decreases |a|
  {
    if |a| > 0 && |b| > 0 && |c| > 0 && a[0] == b[0] && b[0] == c[0] {
      LemmaLexLeTransitive(a[1..], b[1..], c[1..]);
    }
  }
}
