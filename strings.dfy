/** Substring tests on strings, the two that the edge functions use to classify
    error messages: JavaScript's `s.includes(t)` and `s.startsWith(t)`. */
module Strings {

  /** `s.startsWith(p)` */
  predicate IsPrefix(p: string, s: string) {
    |p| <= |s| && s[..|p|] == p
  }

  /** `s.includes(t)`: `t` occurs in `s` at some position. */
  predicate Contains(s: string, t: string) {
    exists i | 0 <= i <= |s| - |t| :: IsPrefix(t, s[i..])
  }

  /** A string contains every string that sits between two others in it. */
  lemma ContainsInfix(a: string, t: string, b: string)
    ensures Contains(a + t + b, t)
  {
    var s := a + t + b;
    assert s[|a|..][..|t|] == t;
    assert IsPrefix(t, s[|a|..]);
  }

  /** A string starts with its own prefixes and therefore contains them. */
  lemma ContainsPrefix(p: string, b: string)
    ensures Contains(p + b, p)
  {
    ContainsInfix([], p, b);
    assert [] + p + b == p + b;
  }

  /** A character of `t` that `s` lacks rules out every occurrence of `t` in `s`. */
  lemma NotContainsWithoutChar(s: string, t: string, c: char)
    requires c in t && c !in s
    ensures !Contains(s, t)
  {
    var k :| 0 <= k < |t| && t[k] == c;
    forall i | 0 <= i <= |s| - |t|
      ensures !IsPrefix(t, s[i..])
    {
      assert s[i..][k] == s[i + k] != c;
    }
  }

  /** Appending text keeps every occurrence that was already there. */
  lemma ContainsAppend(s: string, u: string, t: string)
    requires Contains(s, t)
    ensures Contains(s + u, t)
  {
    var i :| 0 <= i <= |s| - |t| && IsPrefix(t, s[i..]);
    assert (s + u)[i..][..|t|] == s[i..][..|t|];
    assert IsPrefix(t, (s + u)[i..]);
  }

  /** An occurrence of an occurrence is an occurrence. */
  lemma ContainsTransitive(s: string, t: string, v: string)
    requires Contains(s, t) && Contains(t, v)
    ensures Contains(s, v)
  {
    var i :| 0 <= i <= |s| - |t| && IsPrefix(t, s[i..]);
    var j :| 0 <= j <= |t| - |v| && IsPrefix(v, t[j..]);
    forall k | 0 <= k < |v|
      ensures s[i + j + k] == v[k]
    {
      assert v[k] == t[j..][..|v|][k] == t[j + k];
      assert t[j + k] == s[i..][..|t|][j + k] == s[i + j + k];
    }
    assert s[i + j..][..|v|] == v;
    assert IsPrefix(v, s[i + j..]);
  }

  /** A character absent from four strings is absent from their concatenation. */
  lemma AbsentFromPieces(a: string, b: string, c: string, d: string, ch: char)
    requires ch !in a && ch !in b && ch !in c && ch !in d
    ensures ch !in a + b + c + d
  {
  }
}
