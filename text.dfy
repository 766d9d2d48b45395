/** Python's substring test `pat in s` on strings. */
module Text {

  /** `pat` occurs in `s` starting at index `i`. */
  ghost predicate OccursAt(s: string, pat: string, i: int)
  {
    0 <= i && i + |pat| <= |s| && s[i..i + |pat|] == pat
  }

  /** `pat` occurs somewhere in `s`: the meaning of Python's `pat in s`. */
  ghost predicate HasSubstring(s: string, pat: string)
  {
    exists i :: OccursAt(s, pat, i)
  }

  /** A left-to-right scan for `pat` in `s`, the executable form of `pat in s`. */
  function Contains(s: string, pat: string): bool
    decreases |s|
  {
    if |pat| > |s| then false
    else if s[..|pat|] == pat then true
    else Contains(s[1..], pat)
  }

  /** The scan finds `pat` exactly when `pat` occurs in `s`. */
  lemma {:induction false} ContainsIff(s: string, pat: string)
    ensures Contains(s, pat) <==> HasSubstring(s, pat)
    decreases |s|
  {
    if |pat| > |s| {
      assert !OccursAt(s, pat, 0);
    } else if s[..|pat|] == pat {
      assert OccursAt(s, pat, 0);
    } else {
      ContainsIff(s[1..], pat);
      if HasSubstring(s[1..], pat) {
        var i :| OccursAt(s[1..], pat, i);
        SliceOfTail(s, i, |pat|);
        assert OccursAt(s, pat, i + 1);
      }
      if HasSubstring(s, pat) {
        var j :| OccursAt(s, pat, j);
        assert j != 0;
        SliceOfTail(s, j - 1, |pat|);
        assert OccursAt(s[1..], pat, j - 1);
      }
    }
  }

  /** A window of the tail of `s` is the window of `s` one place further on. */
  lemma SliceOfTail(s: string, i: nat, n: nat)
    requires 1 + i + n <= |s|
    ensures s[1..][i..i + n] == s[i + 1..i + 1 + n]
  {
  }

  /** `pat` occurs in `prefix + pat + suffix` right after `prefix`. */
  lemma OccursInConcat(prefix: string, pat: string, suffix: string)
    ensures OccursAt(prefix + pat + suffix, pat, |prefix|)
  {
  }

  /** A string that contains `pat` is at least as long as `pat`. */
  lemma ContainsLength(s: string, pat: string)
    requires HasSubstring(s, pat)
    ensures |s| >= |pat|
  {
  }
}
