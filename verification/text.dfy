/**
  Character classes and string helpers shared by the filter, the password rules and the
  display labels. Strings are sequences of `char`; lower- and upper-casing are ASCII-only,
  which is all that the model's inputs (ASCII literals and user text compared case-blindly)
  need.
 */
module Text {

  predicate IsUpper(c: char) { 'A' <= c <= 'Z' }

  predicate IsLower(c: char) { 'a' <= c <= 'z' }

  /** JavaScript's `\d`: the ten ASCII digits only. */
  predicate IsDigit(c: char) { '0' <= c <= '9' }

  function LowerChar(c: char): char {
    if IsUpper(c) then (c as int + 32) as char else c
  }

  function UpperChar(c: char): char {
    if IsLower(c) then (c as int - 32) as char else c
  }

  /** `String.prototype.toLowerCase`, restricted to ASCII letters. */
  function Lower(s: string): (r: string)
    ensures |r| == |s|
    ensures forall i :: 0 <= i < |s| ==> r[i] == LowerChar(s[i])
  {
    seq(|s|, i requires 0 <= i < |s| => LowerChar(s[i]))
  }

  /** `s.charAt(0).toUpperCase() + s.slice(1)`. */
  function Capitalize(s: string): (r: string)
    ensures |r| == |s|
    ensures |s| > 0 ==> r[0] == UpperChar(s[0]) && r[1..] == s[1..]
  {
    if |s| == 0 then s else [UpperChar(s[0])] + s[1..]
  }

  /** Lower-casing undoes capitalizing a lower-case word, and the capitalized word starts upper-case. */
  lemma CapitalizeRoundTrip(s: string)
    requires forall i :: 0 <= i < |s| ==> IsLower(s[i])
    ensures Lower(Capitalize(s)) == s
    ensures |s| > 0 ==> IsUpper(Capitalize(s)[0])
  {
    var c := Capitalize(s);
    forall i | 0 <= i < |s|
      ensures Lower(c)[i] == s[i]
    {
      if i > 0 {
        assert c[i] == c[1..][i - 1] == s[1..][i - 1] == s[i];
      }
    }
  }

  predicate StartsWith(s: string, prefix: string) {
    |prefix| <= |s| && s[..|prefix|] == prefix
  }

  /** `sub` occurs in `s` starting at index `i`. */
  ghost predicate OccursAt(s: string, sub: string, i: int) {
    0 <= i && i + |sub| <= |s| && s[i..i + |sub|] == sub
  }

  /** `String.prototype.includes`: a left-to-right search for `sub` in `s`. */
  function Includes(s: string, sub: string): (b: bool)
    ensures b <==> exists i :: OccursAt(s, sub, i)
    decreases |s|
  {
    if StartsWith(s, sub) then
      assert OccursAt(s, sub, 0);
      true
    else if |s| == 0 then
      false
    else
      var rest := Includes(s[1..], sub);
      IncludesStep(s, sub);
      rest
  }

  /** When `s` does not start with `sub`, every occurrence lies in `s[1..]`, shifted by one. */
  lemma IncludesStep(s: string, sub: string)
    requires |s| > 0 && !StartsWith(s, sub)
    ensures (exists i :: OccursAt(s, sub, i)) <==> (exists j :: OccursAt(s[1..], sub, j))
  {
    if i :| OccursAt(s, sub, i) {
      assert i != 0;
      assert s[1..][i - 1..i - 1 + |sub|] == s[i..i + |sub|];
      assert OccursAt(s[1..], sub, i - 1);
    }
    if j :| OccursAt(s[1..], sub, j) {
      assert s[j + 1..j + 1 + |sub|] == s[1..][j..j + |sub|];
      assert OccursAt(s, sub, j + 1);
    }
  }

  lemma LowerCharIdempotent(c: char)
    ensures LowerChar(LowerChar(c)) == LowerChar(c)
  {
  }

  /** Lower-casing twice is lower-casing once. */
  lemma LowerIdempotent(s: string)
    ensures Lower(Lower(s)) == Lower(s)
  {
    forall i | 0 <= i < |s|
      ensures Lower(Lower(s))[i] == Lower(s)[i]
    {
      LowerCharIdempotent(s[i]);
    }
  }

  /** The empty string is included in every string, as with JavaScript's `includes("")`. */
  lemma IncludesEmpty(s: string)
    ensures Includes(s, "")
  {
    assert OccursAt(s, "", 0);
  }

  /** No two neighbouring characters of `s` lower-case to `a` then `b`. */
  ghost predicate LacksPair(s: string, a: char, b: char) {
    forall i :: 0 <= i < |s| - 1 ==> !(LowerChar(s[i]) == a && LowerChar(s[i + 1]) == b)
  }

  /** A pair absent from both parts and from their seam is absent from the concatenation. */
  lemma LacksPairAppend(s: string, t: string, a: char, b: char)
    requires LacksPair(s, a, b) && LacksPair(t, a, b)
    requires |s| == 0 || |t| == 0 || !(LowerChar(s[|s| - 1]) == a && LowerChar(t[0]) == b)
    ensures LacksPair(s + t, a, b)
  {
    forall i | 0 <= i < |s + t| - 1
      ensures !(LowerChar((s + t)[i]) == a && LowerChar((s + t)[i + 1]) == b)
    {
      if i + 1 < |s| {
        assert (s + t)[i] == s[i] && (s + t)[i + 1] == s[i + 1];
      } else if i >= |s| {
        assert (s + t)[i] == t[i - |s|] && (s + t)[i + 1] == t[i - |s| + 1];
      }
    }
  }

  /**
    A string lacking the pair `sub[k], sub[k + 1]` cannot, once lower-cased, include `sub`:
    the cheap witness used to show that a record does not match a query.
   */
  lemma LacksPairNoMatch(s: string, sub: string, k: nat)
    requires k + 1 < |sub| && LacksPair(s, sub[k], sub[k + 1])
    ensures !Includes(Lower(s), sub)
  {
    NoPairNoMatch(Lower(s), sub, k);
  }

  /**
    A string that has no adjacent pair equal to `sub[k], sub[k + 1]` cannot include `sub`:
    the cheap witness used to show that a mock record does not match a query.
   */
  lemma NoPairNoMatch(s: string, sub: string, k: nat)
    requires k + 1 < |sub|
    requires forall i :: 0 <= i < |s| - 1 ==> !(s[i] == sub[k] && s[i + 1] == sub[k + 1])
    ensures !Includes(s, sub)
  {
    forall i | 0 <= i
      ensures !OccursAt(s, sub, i)
    {
      if i + |sub| <= |s| {
        var w := s[i..i + |sub|];
        assert w[k] == s[i + k] && w[k + 1] == s[i + k + 1];
        assert !(s[i + k] == sub[k] && s[i + k + 1] == sub[k + 1]);
      }
    }
  }
}
