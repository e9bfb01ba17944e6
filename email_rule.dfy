/**
 * The email check the four authentication forms share: the regular expression
 * `^[^\s@]+@[^\s@]+\.[^\s@]+$`, stated once as the language it matches and once
 * as the rule it amounts to, with a proof that the two agree.
 */
module EmailRule {
  import opened Common

  /** The character class `[^\s@]`. */
  predicate ClassChar(c: char) {
    !IsWhitespace(c) && c != '@'
  }

  /** Every character belongs to the class `[^\s@]`. */
  predicate InClass(s: string) {
    forall k :: 0 <= k < |s| ==> ClassChar(s[k])
  }

  /**
   * The strings the regular expression matches: a non-empty run of the class,
   * '@', a non-empty run, '.', a non-empty run, and nothing else.
   */
  ghost predicate MatchesPattern(s: string) {
    exists i, j :: 0 < i && i + 1 < j && j + 1 < |s| && s[i] == '@' && s[j] == '.'
                   && InClass(s[..i]) && InClass(s[i + 1..j]) && InClass(s[j + 1..])
  }

  /** Index `i` holds the only '@' of `s`. */
  predicate OnlyAt(s: string, i: int) {
    0 <= i < |s| && s[i] == '@' && forall k :: 0 <= k < |s| && k != i ==> s[k] != '@'
  }

  /**
   * The rule as the forms apply it: no whitespace, exactly one '@' (at `i`), a
   * non-empty part before it, and after it a domain holding a '.' (at `k`) with
   * at least one character on each side.
   */
  predicate IsValidEmail(s: string) {
    && (forall m :: 0 <= m < |s| ==> !IsWhitespace(s[m]))
    && exists i, k :: 0 < i && i + 1 < k < |s| - 1 && OnlyAt(s, i) && s[k] == '.'
  }

  lemma InClassRange(s: string, a: nat, b: nat)
    requires a <= b <= |s|
    ensures InClass(s[a..b]) <==> forall k :: a <= k < b ==> ClassChar(s[k])
  {
    if InClass(s[a..b]) {
      forall k | a <= k < b ensures ClassChar(s[k]) {
        assert s[k] == s[a..b][k - a];
      }
    }
  }

  lemma ValidImpliesPattern(s: string)
    requires IsValidEmail(s)
    ensures MatchesPattern(s)
  {
    var i, j :| 0 < i && i + 1 < j < |s| - 1 && OnlyAt(s, i) && s[j] == '.';
    assert forall m :: 0 <= m < |s| && m != i ==> ClassChar(s[m]);
    InClassRange(s, 0, i);
    InClassRange(s, i + 1, j);
    InClassRange(s, j + 1, |s|);
    assert s[..i] == s[0..i] && s[j + 1..] == s[j + 1..|s|];
  }

  lemma PatternImpliesValid(s: string)
    requires MatchesPattern(s)
    ensures IsValidEmail(s)
  {
    var i, j :| 0 < i && i + 1 < j && j + 1 < |s| && s[i] == '@' && s[j] == '.'
                && InClass(s[..i]) && InClass(s[i + 1..j]) && InClass(s[j + 1..]);
    assert s[..i] == s[0..i] && s[j + 1..] == s[j + 1..|s|];
    InClassRange(s, 0, i);
    InClassRange(s, i + 1, j);
    InClassRange(s, j + 1, |s|);
    assert forall m :: 0 <= m < |s| && m != i ==> ClassChar(s[m]);
    assert OnlyAt(s, i);
  }

  /** The rule accepts exactly the strings the regular expression matches. */
  lemma ValidIffMatchesPattern(s: string)
    ensures IsValidEmail(s) <==> MatchesPattern(s)
  {
    if IsValidEmail(s) {
      ValidImpliesPattern(s);
    }
    if MatchesPattern(s) {
      PatternImpliesValid(s);
    }
  }

  /** A sample address the rule accepts. */
  lemma AcceptsSimpleAddress()
    ensures IsValidEmail("a@b.c")
  {
    var s := "a@b.c";
    assert OnlyAt(s, 1) && s[3] == '.';
  }

  /** A second '@' is refused even when both halves look like addresses. */
  lemma RefusesTwoAts()
    ensures !IsValidEmail("a@b.c@d.e")
  {
    var s := "a@b.c@d.e";
    forall i | 0 < i < |s| ensures !OnlyAt(s, i) {
      if s[i] == '@' {
        assert s[1] == '@' && s[5] == '@';
      }
    }
  }
}
