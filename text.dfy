/** The string operations the protocol lookup relies on. */
module Text {

  /** Upper-cases one character; only the ASCII letters a-z have an upper-case form here. */
  function UpperChar(c: char): char
  {
    if 'a' <= c <= 'z' then (c as int - 32) as char else c
  }

  /** `String.toUpperCase`, applied character by character. */
  function ToUpper(s: string): (r: string)
    ensures |r| == |s|
    ensures forall i :: 0 <= i < |s| ==> r[i] == UpperChar(s[i])
  {
    if s == [] then [] else [UpperChar(s[0])] + ToUpper(s[1..])
  }

  /** `s` and `t` are the same string up to the letter case of each character. */
  ghost predicate EqualIgnoringCase(s: string, t: string)
  {
    |s| == |t| && forall i :: 0 <= i < |s| ==> UpperChar(s[i]) == UpperChar(t[i])
  }

  /** `sub` occurs inside `s` starting at index `i`. */
  ghost predicate OccursAt(s: string, sub: string, i: int)
  {
    0 <= i <= |s| - |sub| && s[i..i + |sub|] == sub
  }

  /** `sub` occurs somewhere inside `s`. */
  ghost predicate Contains(s: string, sub: string)
  {
    exists i :: OccursAt(s, sub, i)
  }

  /** An occurrence inside `b` is still one, shifted by `|a|`, inside `a + b`. */
  lemma OccursAfter(a: string, b: string, sub: string, j: int)
    requires OccursAt(b, sub, j)
    ensures OccursAt(a + b, sub, |a| + j)
  {
    assert (a + b)[|a| + j..|a| + j + |sub|] == b[j..j + |sub|];
  }

  /** An occurrence inside `a` is still one, at the same index, inside `a + b`. */
  lemma OccursBefore(a: string, b: string, sub: string, j: int)
    requires OccursAt(a, sub, j)
    ensures OccursAt(a + b, sub, j)
  {
    assert (a + b)[j..j + |sub|] == a[j..j + |sub|];
  }

  /** Two strings upper-case to the same string exactly when they agree up to letter case. */
  lemma EqualIgnoringCaseIffSameUpper(s: string, t: string)
    ensures EqualIgnoringCase(s, t) <==> ToUpper(s) == ToUpper(t)
  {
  }
}
