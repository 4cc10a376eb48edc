/**
 * The java.lang.String operations the query builder relies on: startsWith,
 * indexOf and equalsIgnoreCase, the last with ASCII case folding.
 */
module Strings {

  /** `s.startsWith(prefix)`: case-sensitive. */
  predicate StartsWith(s: string, prefix: string)
  {
    |prefix| <= |s| && s[..|prefix|] == prefix
  }

  /** Regrouping a chain of appends. */
  lemma AppendAssoc(a: string, b: string, c: string)
    ensures (a + b) + c == a + (b + c)
  {
  }

  /** `s.indexOf(c)`: the first position of `c`, or -1 when there is none. */
  function IndexOf(s: string, c: char): (i: int)
    ensures -1 <= i < |s|
    ensures i == -1 <==> c !in s
    ensures 0 <= i ==> s[i] == c && c !in s[..i]
  {
    if s == [] then -1
    else if s[0] == c then 0
    else
      var j := IndexOf(s[1..], c);
      assert s[1..][..j + 1] == s[1..j + 2] by { assert j + 2 <= |s| || j == -1; }
      if j == -1 then -1 else j + 1
  }

  /** Maps 'A'..'Z' to 'a'..'z' and leaves every other character alone. */
  function ToLower(c: char): (r: char)
    ensures 'A' <= c <= 'Z' ==> 'a' <= r <= 'z' && r as int - c as int == 32
    ensures !('A' <= c <= 'Z') ==> r == c
  {
    if 'A' <= c <= 'Z' then (c as int + 32) as char else c
  }

  /** The case-folded form of a whole string. */
  function FoldCase(s: string): (r: string)
    ensures |r| == |s|
  {
    if s == [] then [] else [ToLower(s[0])] + FoldCase(s[1..])
  }

  /** `a.equalsIgnoreCase(b)`: same length and equal characters after folding. */
  predicate EqualsIgnoreCase(a: string, b: string)
  {
    |a| == |b| && forall i :: 0 <= i < |a| ==> ToLower(a[i]) == ToLower(b[i])
  }

  /** Folding a string folds it character by character. */
  lemma {:induction false} FoldCaseAt(s: string, i: int)
    requires 0 <= i < |s|
    ensures FoldCase(s)[i] == ToLower(s[i])
  {
    if i > 0 {
      FoldCaseAt(s[1..], i - 1);
    }
  }

  /** Case-insensitive equality is equality of the folded forms. */
  lemma EqualsIgnoreCaseIffFoldEqual(a: string, b: string)
    ensures EqualsIgnoreCase(a, b) <==> FoldCase(a) == FoldCase(b)
  {
    if |a| == |b| {
      forall i | 0 <= i < |a| ensures FoldCase(a)[i] == ToLower(a[i]) && FoldCase(b)[i] == ToLower(b[i]) {
        FoldCaseAt(a, i);
        FoldCaseAt(b, i);
      }
    }
  }

  /** Case-insensitive equality is an equivalence relation. */
  lemma EqualsIgnoreCaseIsEquivalence(a: string, b: string, c: string)
    ensures EqualsIgnoreCase(a, a)
    ensures EqualsIgnoreCase(a, b) ==> EqualsIgnoreCase(b, a)
    ensures EqualsIgnoreCase(a, b) && EqualsIgnoreCase(b, c) ==> EqualsIgnoreCase(a, c)
  {
    EqualsIgnoreCaseIffFoldEqual(a, a);
    EqualsIgnoreCaseIffFoldEqual(a, b);
    EqualsIgnoreCaseIffFoldEqual(b, a);
    EqualsIgnoreCaseIffFoldEqual(b, c);
    EqualsIgnoreCaseIffFoldEqual(a, c);
  }

  /** Only letters change under folding: a character that is not a letter matches only itself. */
  lemma EqualsIgnoreCaseKeepsNonLetters(a: string, b: string, i: int)
    requires EqualsIgnoreCase(a, b) && 0 <= i < |a|
    requires !('A' <= a[i] <= 'Z') && !('a' <= a[i] <= 'z')
    ensures b[i] == a[i]
  {
    assert ToLower(a[i]) == ToLower(b[i]);
  }

  /** A dot is kept in place by case-insensitive equality. */
  lemma EqualsIgnoreCaseKeepsDot(a: string, b: string)
    requires EqualsIgnoreCase(a, b)
    ensures '.' in a <==> '.' in b
  {
    if '.' in a {
      var i :| 0 <= i < |a| && a[i] == '.';
      EqualsIgnoreCaseKeepsNonLetters(a, b, i);
    }
    if '.' in b {
      var i :| 0 <= i < |b| && b[i] == '.';
      assert ToLower(a[i]) == ToLower(b[i]);
    }
  }
}
