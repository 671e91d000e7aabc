/**
 * The few ECMAScript string operations the application relies on:
 * `String.prototype.trim`, the `\s` character class, `String.prototype.includes`
 * and the `||` operator applied to a possibly-undefined string.
 */
module JsString {
  import opened Wrappers

  /**
   * A WhiteSpace or LineTerminator code point of ECMAScript: exactly what `trim`
   * removes and what the regular-expression class `\s` matches.
   */
  predicate IsSpace(c: char) {
    || c == '\t' || c == '\U{000B}' || c == '\U{000C}' || c == ' '
    || c == '\U{00A0}' || c == '\U{FEFF}' || c == '\U{1680}'
    || ('\U{2000}' <= c <= '\U{200A}')
    || c == '\U{202F}' || c == '\U{205F}' || c == '\U{3000}'
    || c == '\n' || c == '\r' || c == '\U{2028}' || c == '\U{2029}'
  }

  predicate AllSpace(s: string) {
    forall i :: 0 <= i < |s| ==> IsSpace(s[i])
  }

  /** `s` has no white space at either end. */
  predicate Trimmed(s: string) {
    s == [] || (!IsSpace(s[0]) && !IsSpace(s[|s| - 1]))
  }

  /** The number of white-space characters `s` starts with. */
  function LeadingSpace(s: string): (n: nat)
    ensures n <= |s|
    ensures forall i :: 0 <= i < n ==> IsSpace(s[i])
    ensures n < |s| ==> !IsSpace(s[n])
  {
    if |s| > 0 && IsSpace(s[0]) then
      var n := 1 + LeadingSpace(s[1..]);
      assert forall i :: 0 < i < n ==> s[i] == s[1..][i - 1];
      n
    else
      0
  }

  /** The index at which the white space `s` ends with begins. */
  function TrailingSpaceStart(s: string): (j: nat)
    ensures j <= |s|
    ensures forall i :: j <= i < |s| ==> IsSpace(s[i])
    ensures 0 < j ==> !IsSpace(s[j - 1])
  {
    if |s| > 0 && IsSpace(s[|s| - 1]) then
      var j := TrailingSpaceStart(s[..|s| - 1]);
      assert forall i :: j <= i < |s| - 1 ==> s[i] == s[..|s| - 1][i];
      j
    else
      |s|
  }

  /** `String.prototype.trim`: `s` without its leading and trailing white space. */
  function Trim(s: string): (r: string)
    ensures Trimmed(r)
    ensures r == [] <==> AllSpace(s)
    ensures |r| <= |s|
  {
    var i := LeadingSpace(s);
    if i == |s| then
      []
    else
      var j := TrailingSpaceStart(s);
      assert i < j;
      s[i..j]
  }

  /**
   * `trim` is characterised by the decomposition it undoes: a string that is a
   * trimmed middle padded with white space on both sides trims to that middle.
   */
  lemma TrimOfPadded(p: string, m: string, q: string)
    requires AllSpace(p) && AllSpace(q) && Trimmed(m)
    ensures Trim(p + m + q) == m
  {
    var s := p + m + q;
    if m == [] {
      assert AllSpace(s) by {
        assert forall i :: 0 <= i < |s| ==> s[i] == if i < |p| then p[i] else q[i - |p|];
      }
    } else {
      assert s[|p|] == m[0] && s[|p| + |m| - 1] == m[|m| - 1];
      assert forall i :: 0 <= i < |p| ==> s[i] == p[i];
      assert forall i :: |p| + |m| <= i < |s| ==> s[i] == q[i - |p| - |m|];
      assert LeadingSpace(s) == |p|;
      assert TrailingSpaceStart(s) == |p| + |m|;
      assert s[|p|..|p| + |m|] == m;
    }
  }

  lemma AllSpaceConcat(x: string, y: string)
    requires AllSpace(x) && AllSpace(y)
    ensures AllSpace(x + y)
  {
  }

  /** Every string is its trimmed form padded with white space on both sides. */
  lemma TrimDecompose(s: string) returns (a: string, b: string)
    ensures AllSpace(a) && AllSpace(b)
    ensures s == a + Trim(s) + b
  {
    var i := LeadingSpace(s);
    var j := if i == |s| then |s| else TrailingSpaceStart(s);
    a, b := s[..i], s[j..];
    assert s == a + s[i..j] + b;
  }

  /** Leading and trailing white space never changes what `trim` yields. */
  lemma TrimIgnoresPadding(p: string, s: string, q: string)
    requires AllSpace(p) && AllSpace(q)
    ensures Trim(p + s + q) == Trim(s)
  {
    var a, b := TrimDecompose(s);
    var r := Trim(s);
    AllSpaceConcat(p, a);
    AllSpaceConcat(b, q);
    Regroup(p, a, r, b, q);
    TrimOfPadded(p + a, r, b + q);
  }

  lemma Regroup(p: string, a: string, r: string, b: string, q: string)
    ensures p + (a + r + b) + q == (p + a) + r + (b + q)
  {
  }

  /** A string with no white space at either end is its own trimmed form. */
  lemma TrimOfTrimmed(s: string)
    requires Trimmed(s)
    ensures Trim(s) == s
  {
    assert [] + s + [] == s;
    TrimOfPadded([], s, []);
  }

  /** `trim` is idempotent. */
  lemma TrimIdempotent(s: string)
    ensures Trim(Trim(s)) == Trim(s)
  {
  }

  /** `t` occurs in `s` at position `i`. */
  predicate OccursAt(s: string, t: string, i: int) {
    0 <= i <= |s| - |t| && s[i..i + |t|] == t
  }

  /** `String.prototype.includes`: a substring test, scanning left to right. */
  function Includes(s: string, t: string): (r: bool)
    ensures r <==> exists i :: OccursAt(s, t, i)
    decreases |s|
  {
    if |t| > |s| then
      false
    else if s[..|t|] == t then
      assert OccursAt(s, t, 0);
      true
    else
      var r := Includes(s[1..], t);
      if r then
        assert forall i :: OccursAt(s[1..], t, i) ==> OccursAt(s, t, i + 1) by {
          forall i | OccursAt(s[1..], t, i)
            ensures OccursAt(s, t, i + 1)
          {
            assert s[1..][i..i + |t|] == s[i + 1..i + 1 + |t|];
          }
        }
        r
      else
        assert !OccursAt(s, t, 0) by {
          assert s[0..0 + |t|] == s[..|t|];
        }
        assert forall i :: OccursAt(s, t, i) && i > 0 ==> OccursAt(s[1..], t, i - 1) by {
          forall i | OccursAt(s, t, i) && i > 0
            ensures OccursAt(s[1..], t, i - 1)
          {
            assert s[1..][i - 1..i - 1 + |t|] == s[i..i + |t|];
          }
        }
        r
  }

  /** A string includes every infix of it. */
  lemma IncludesInfix(a: string, t: string, b: string)
    ensures Includes(a + t + b, t)
  {
    assert (a + t + b)[|a|..|a| + |t|] == t;
    assert OccursAt(a + t + b, t, |a|);
  }

  /** JavaScript truthiness of a possibly-undefined string: defined and non-empty. */
  predicate Truthy(v: Option<string>) {
    v.Some? && v.value != ""
  }

  /** `v || fallback` for a possibly-undefined string `v`. */
  function Or(v: Option<string>, fallback: string): (r: string)
    ensures Truthy(v) ==> r == v.value
    ensures !Truthy(v) ==> r == fallback
    ensures fallback != "" ==> r != ""
  {
    if Truthy(v) then v.value else fallback
  }
}
