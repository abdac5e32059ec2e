/**
 * Substring search on strings, standing in for JavaScript's
 * `String.prototype.includes`.
 */
module Text {

  /** `t` occurs in `s` starting at index `i`. */
  predicate OccursAt(s: string, t: string, i: int) {
    0 <= i && i + |t| <= |s| && s[i..i + |t|] == t
  }

  /**
   * `s.includes(t)`: `t` occurs at some index of `s`. The explicit range
   * on `i` gives the quantifier the finite bounds a compiled predicate needs.
   */
  predicate Contains(s: string, t: string) {
    exists i :: 0 <= i <= |s| - |t| && OccursAt(s, t, i)
  }

  /** An occurrence of `t + u` begins with an occurrence of `t` at the same index. */
  lemma {:induction false} OccursAtPrefix(s: string, t: string, u: string, i: int)
    requires OccursAt(s, t + u, i)
    ensures OccursAt(s, t, i)
  {
    assert s[i..i + |t|] == (t + u)[..|t|] by {
      assert s[i..i + |t|] == s[i..i + |t + u|][..|t|];
    }
    assert (t + u)[..|t|] == t;
  }

  /** Whatever contains `t + u` also contains `t`. */
  lemma {:induction false} ContainsPrefix(s: string, t: string, u: string)
    requires Contains(s, t + u)
    ensures Contains(s, t)
  {
    var i :| OccursAt(s, t + u, i);
    OccursAtPrefix(s, t, u, i);
  }

  /** A needle with a character that `s` lacks does not occur in `s`. */
  lemma MissingCharNotContained(s: string, t: string, k: int)
    requires 0 <= k < |t| && t[k] !in s
    ensures !Contains(s, t)
  {
  }

  /** A needle placed between two strings occurs right after the first. */
  lemma OccursBetween(a: string, t: string, b: string)
    ensures OccursAt(a + t + b, t, |a|)
  {
  }
}
