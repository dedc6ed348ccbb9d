/**
 The two string operations the analyzer relies on: lower-casing (restricted
 to ASCII) and substring containment, plus the "contains any of a fixed
 list" test every resource-type predicate is built from.
 */
module Strings {

  /** ASCII lower-casing of one character. */
  function LowerChar(c: char): char
  {
    if 'A' <= c <= 'Z' then (c as int + 32) as char else c
  }

  predicate IsLowerChar(c: char)
  {
    !('A' <= c <= 'Z')
  }

  /** A string with no upper-case ASCII letter. */
  predicate IsLower(s: string)
  {
    forall i :: 0 <= i < |s| ==> IsLowerChar(s[i])
  }

  /**
   ASCII lower-casing of a whole string: each upper-case letter moves to its
   lower-case counterpart, every other character stays, and no upper-case
   letter is left.
   */
  function Lower(s: string): (r: string)
    ensures |r| == |s| && IsLower(r)
    ensures forall i :: 0 <= i < |s| ==>
              if IsLowerChar(s[i]) then r[i] == s[i] else r[i] as int == s[i] as int + 32
  {
    seq(|s|, i requires 0 <= i < |s| => LowerChar(s[i]))
  }

  /** A string with no upper-case letter is its own lower-case form. */
  lemma LowerFixesLower(s: string)
    requires IsLower(s)
    ensures Lower(s) == s
  {
  }

  /** `sub` occurs in `s` starting at position `k`. */
  predicate OccursAt(s: string, sub: string, k: nat)
  {
    k + |sub| <= |s| && s[k..k + |sub|] == sub
  }

  /** Substring containment, scanning `s` from the left. */
  function Contains(s: string, sub: string): (r: bool)
    ensures r <==> exists k: nat :: OccursAt(s, sub, k)
    decreases |s|
  {
    if |sub| <= |s| && s[..|sub|] == sub then
      assert OccursAt(s, sub, 0);
      true
    else if |s| == 0 then
      false
    else
      var r := Contains(s[1..], sub);
      if r then
        var k: nat :| OccursAt(s[1..], sub, k);
        assert OccursAt(s, sub, k + 1) by {
          assert s[k + 1..k + 1 + |sub|] == s[1..][k..k + |sub|];
        }
        r
      else
        assert forall k: nat :: OccursAt(s, sub, k) ==> k > 0 && OccursAt(s[1..], sub, k - 1) by {
          forall k: nat | OccursAt(s, sub, k)
            ensures k > 0 && OccursAt(s[1..], sub, k - 1)
          {
            assert k != 0;
            assert s[1..][k - 1..k - 1 + |sub|] == s[k..k + |sub|];
          }
        }
        r
  }

  /** A character of `sub` that `s` lacks rules out every occurrence. */
  lemma MissingCharNotContained(s: string, sub: string, c: char)
    requires c in sub && c !in s
    ensures !Contains(s, sub)
  {
  }

  /** Containment is transitive: what occurs in a substring occurs in the string. */
  lemma ContainsTransitive(s: string, mid: string, sub: string)
    requires Contains(s, mid) && Contains(mid, sub)
    ensures Contains(s, sub)
  {
    var k: nat :| OccursAt(s, mid, k);
    var j: nat :| OccursAt(mid, sub, j);
    assert k + |mid| <= |s| && s[k..k + |mid|] == mid;
    assert j + |sub| <= |mid| && mid[j..j + |sub|] == sub;
    forall i | 0 <= i < |sub|
      ensures s[k + j..k + j + |sub|][i] == sub[i]
    {
      assert sub[i] == mid[j + i];
      assert mid[j + i] == s[k + j + i];
    }
    assert OccursAt(s, sub, k + j);
  }

  /**
   Case-insensitive containment of any of `subs`: `s` and every candidate
   are lower-cased before comparing, and the candidates are tried in order.
   */
  function ContainsAny(s: string, subs: seq<string>): (r: bool)
    ensures r <==> exists i :: 0 <= i < |subs| && Contains(Lower(s), Lower(subs[i]))
  {
    if |subs| == 0 then
      false
    else if Contains(Lower(s), Lower(subs[0])) then
      true
    else
      var r := ContainsAny(s, subs[1..]);
      assert forall i :: 1 <= i < |subs| ==> subs[i] == subs[1..][i - 1];
      r
  }

  /** For a candidate list written in lower case, a hit at a known position decides the test. */
  lemma ContainsAnyWitness(s: string, subs: seq<string>, i: nat, k: nat)
    requires i < |subs| && IsLower(s) && IsLower(subs[i])
    requires OccursAt(s, subs[i], k)
    ensures ContainsAny(s, subs)
  {
    LowerFixesLower(s);
    LowerFixesLower(subs[i]);
    assert Contains(Lower(s), Lower(subs[i]));
  }
}
