/**
 * The e-mail check of the client form: `/\S+@\S+\.\S+/.test(email)`.
 * The regular expression has no anchors, so it succeeds when SOME substring
 * of the input matches. `Matches` states that reference meaning directly;
 * `Test` is a left-to-right scan, proved equal to it.
 */
module EmailPattern {
  import opened Strings

  /** Positions lo .. hi-1 exist in `s` and none holds white space. */
  ghost predicate NonSpaceRun(s: string, lo: int, hi: int) {
    0 <= lo <= hi <= |s| && forall k :: lo <= k < hi ==> !IsSpace(s[k])
  }

  /**
   * `s[i..j]` matches `\S+@\S+\.\S+` with the `@` at index `a` and the
   * literal `.` at index `d`.
   */
  ghost predicate MatchAt(s: string, i: int, a: int, d: int, j: int) {
    && i < a && NonSpaceRun(s, i, a)
    && a < |s| && s[a] == '@'
    && a + 1 < d && NonSpaceRun(s, a + 1, d)
    && d < |s| && s[d] == '.'
    && d + 1 < j && NonSpaceRun(s, d + 1, j)
  }

  /** The reference meaning of the unanchored test. */
  ghost predicate Matches(s: string) {
    exists i, a, d, j :: MatchAt(s, i, a, d, j)
  }

  /**
   * A `.` at index `e` closes a match whose `@` is at index `at`: at least
   * one character between them, and a non-space character after the `.`.
   */
  ghost predicate DotWitness(s: string, at: int, e: int) {
    at + 1 < e && e + 2 <= |s| && NonSpaceRun(s, at + 1, e + 2) && s[e] == '.'
  }

  /** An `@` at index `k` with a non-space character before it and a closing `.` after it. */
  ghost predicate AtWitness(s: string, k: int) {
    1 <= k < |s| && s[k] == '@' && !IsSpace(s[k - 1]) && exists e :: DotWitness(s, k, e)
  }

  /**
   * Scans the run of non-space characters after the `@` at index `at`,
   * from index `d` on, for a `.` that closes a match.
   */
  function DotFrom(s: string, at: nat, d: nat): (b: bool)
    requires at + 1 <= d <= |s|
    requires NonSpaceRun(s, at + 1, d)
    ensures b <==> exists e :: d <= e && DotWitness(s, at, e)
    decreases |s| - d
  {
    if d + 1 >= |s| then false
    else if IsSpace(s[d]) then
      assert forall e :: d <= e && DotWitness(s, at, e) ==> !IsSpace(s[d]);
      false
    else if at + 1 < d && s[d] == '.' && !IsSpace(s[d + 1]) then
      assert DotWitness(s, at, d);
      true
    else
      DotFrom(s, at, d + 1)
  }

  /** Scans for an `@` at index `a` or later that starts a match. */
  function AtFrom(s: string, a: nat): (b: bool)
    requires 1 <= a
    ensures b <==> exists k :: a <= k && AtWitness(s, k)
    decreases |s| - a
  {
    if a >= |s| then false
    else
      var here := s[a] == '@' && !IsSpace(s[a - 1]) && DotFrom(s, a, a + 1);
      assert here <==> AtWitness(s, a);
      here || AtFrom(s, a + 1)
  }

  /** `/\S+@\S+\.\S+/.test(s)`, proved equal to the reference meaning. */
  function Test(s: string): (b: bool)
    ensures b <==> Matches(s)
  {
    var b := AtFrom(s, 1);
    assert b ==> Matches(s) by {
      if b {
        var k :| 1 <= k && AtWitness(s, k);
        var e :| DotWitness(s, k, e);
        assert MatchAt(s, k - 1, k, e, e + 2);
      }
    }
    assert Matches(s) ==> b by {
      if Matches(s) {
        var i, a, d, j :| MatchAt(s, i, a, d, j);
        assert DotWitness(s, a, d);
        assert AtWitness(s, a);
      }
    }
    b
  }

  /** Without an `@` there is no match. */
  lemma NoMatchWithoutAt(s: string)
    requires forall k :: 0 <= k < |s| ==> s[k] != '@'
    ensures !Test(s)
  {
  }

  /** An `@` right after white space, or at the start, cannot be the `@` of a match. */
  lemma NoMatchWhenEveryAtFollowsSpace(s: string)
    requires forall k :: 0 <= k < |s| && s[k] == '@' ==> k == 0 || IsSpace(s[k - 1])
    ensures !Test(s)
  {
  }

  /** The examples the form is meant to accept and reject. */
  lemma Examples()
    ensures Test("a@b.co")
    ensures !Test("not-an-email")
    ensures !Test("a@b.")
    ensures !Test("a @b.c")
  {
    assert MatchAt("a@b.co", 0, 1, 3, 5);
    NoMatchWithoutAt("not-an-email");
    NoMatchWhenEveryAtFollowsSpace("a @b.c");
  }
}
