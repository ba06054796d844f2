/**
 * `/X/.test(v)` for a regular expression literal `X` without metacharacters:
 * such a literal matches exactly when `X` occurs as a contiguous substring of
 * the tested value, after JavaScript has converted that value to a string.
 */
module Pattern {
  import opened Wrappers

  /** `p` occurs in `s` starting at index `i`. */
  predicate OccursAt(s: string, p: string, i: nat)
  {
    i + |p| <= |s| && s[i..i + |p|] == p
  }

  /**
   * `/p/.test(s)`: the literal `p` matches somewhere in `s`, that is, it
   * occurs in `s` as a contiguous substring.
   */
  predicate Test(p: string, s: string): (r: bool)
    ensures r ==> |p| <= |s|
  {
    exists i: nat | i <= |s| :: OccursAt(s, p, i)
  }

  /** JavaScript's conversion of a possibly undefined string to a string. */
  function JsString(v: Option<string>): (r: string)
    ensures v.Some? ==> r == v.value
    ensures v.None? ==> |r| == 9 && r[0] == 'u'
  {
    match v
    case Some(s) => s
    case None => "undefined"
  }

  /** `/p/.test(v)` where `v` may be `undefined`. */
  function RegexTest(p: string, v: Option<string>): (r: bool)
    ensures v.None? && |p| > |"undefined"| ==> !r
  {
    Test(p, JsString(v))
  }

  /** A pattern whose first character appears nowhere in `s` does not match `s`. */
  lemma NoLeadingChar(p: string, s: string)
    requires |p| > 0 && p[0] !in s
    ensures !Test(p, s)
  {
  }

  /** When the first character of `p` appears in `s` only at index 0, `p` matches iff it is a prefix. */
  lemma LeadingCharOnlyFirst(p: string, c: char, rest: string)
    requires |p| > 0 && p[0] !in rest
    ensures Test(p, [c] + rest) <==> p <= [c] + rest
  {
    var s := [c] + rest;
    if Test(p, s) {
      var i: nat :| i <= |s| && OccursAt(s, p, i);
      assert i + |p| <= |s|;
      assert i == 0;  // at any later index `s[i]` would be `p[0]`, which is not in `rest`
      assert s[..|p|] == p;
    }
    if p <= s {
      assert OccursAt(s, p, 0);
    }
  }

  /** A message that starts with `p` matches `p`. */
  lemma MatchesPrefix(p: string, rest: string)
    ensures Test(p, p + rest)
  {
    assert OccursAt(p + rest, p, 0);
  }

  /** A message that ends with `p` matches `p`. */
  lemma MatchesSuffix(front: string, p: string)
    ensures Test(p, front + p)
  {
    assert OccursAt(front + p, p, |front|);
  }
}
