/**
 * The login form's email check `/^[^\s@]+@[^\s@]+\.[^\s@]+$/`, stated
 * directly as a predicate on strings instead of through a regular-expression
 * engine.
 */
module EmailShape {
  import opened JsString

  /** A character of the class `[^\s@]`. */
  predicate Plain(c: char) {
    !IsSpace(c) && c != '@'
  }

  predicate AllPlain(s: string) {
    forall i :: 0 <= i < |s| ==> Plain(s[i])
  }

  /** `s` has a `.` that is neither its first nor its last character. */
  predicate HasInnerDot(s: string) {
    exists j :: 0 < j < |s| - 1 && s[j] == '.'
  }

  /** `s` splits at an `@` into a non-empty local part and a dotted domain, neither holding white space or `@`. */
  predicate SplitsAt(s: string, k: int) {
    && 0 < k < |s|
    && s[k] == '@'
    && AllPlain(s[..k])
    && AllPlain(s[k + 1..])
    && HasInnerDot(s[k + 1..])
  }

  /** The strings the regular expression accepts. */
  predicate IsEmail(s: string) {
    exists k | 0 < k < |s| :: SplitsAt(s, k)
  }

  /** Every `l@a.b` with non-empty plain parts is accepted; `a` and `b` may hold further dots. */
  lemma AcceptsParts(l: string, a: string, b: string)
    requires l != [] && a != [] && b != []
    requires AllPlain(l) && AllPlain(a) && AllPlain(b)
    ensures IsEmail(l + "@" + a + "." + b)
  {
    var s := l + "@" + a + "." + b;
    var d := a + "." + b;
    assert s == l + "@" + d;
    assert s[..|l|] == l;
    assert s[|l| + 1..] == d;
    assert d[|a|] == '.';
    assert AllPlain(d) by {
      assert forall i :: 0 <= i < |d| ==> d[i] == if i < |a| then a[i] else if i == |a| then '.' else b[i - |a| - 1];
    }
    assert SplitsAt(s, |l|);
  }

  /** Every accepted string is some `l@a.b` with non-empty plain parts. */
  lemma PartsOfAccepted(s: string) returns (l: string, a: string, b: string)
    requires IsEmail(s)
    ensures l != [] && a != [] && b != []
    ensures AllPlain(l) && AllPlain(a) && AllPlain(b)
    ensures s == l + "@" + a + "." + b
  {
    var k :| 0 < k < |s| && SplitsAt(s, k);
    var d := s[k + 1..];
    var j :| 0 < j < |d| - 1 && d[j] == '.';
    l, a, b := s[..k], d[..j], d[j + 1..];
    assert d == a + "." + b;
    assert s == l + "@" + d;
  }

  /** An accepted string holds exactly one `@`. */
  lemma AcceptedHasOneAt(s: string)
    requires IsEmail(s)
    ensures multiset(s)['@'] == 1
  {
    var k :| 0 < k < |s| && SplitsAt(s, k);
    var l, d := s[..k], s[k + 1..];
    assert s == l + ['@'] + d;
    assert '@' !in l && '@' !in d;
    assert multiset(s) == multiset(l) + multiset{'@'} + multiset(d);
  }

  /** An accepted string holds no white space at all, so trimming leaves it unchanged. */
  lemma AcceptedHasNoSpace(s: string)
    requires IsEmail(s)
    ensures forall i :: 0 <= i < |s| ==> !IsSpace(s[i])
    ensures Trimmed(s)
    ensures Trim(s) == s
  {
    var k :| 0 < k < |s| && SplitsAt(s, k);
    forall i | 0 <= i < |s|
      ensures !IsSpace(s[i])
    {
      if i < k {
        assert s[i] == s[..k][i];
      } else if i > k {
        assert s[i] == s[k + 1..][i - k - 1];
      }
    }
    TrimOfTrimmed(s);
  }
}
