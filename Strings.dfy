/**
 * The few JavaScript string operations the models share: `includes`, `indexOf`,
 * `startsWith`, `endsWith` and an ASCII `toLowerCase`.
 */
module Strings {
  import opened Wrappers

  predicate OccursAt(s: string, sub: string, i: nat) {
    i + |sub| <= |s| && s[i..i + |sub|] == sub
  }

  /** `s.includes(sub)`. */
  predicate Contains(s: string, sub: string) {
    exists i: nat | i <= |s| :: OccursAt(s, sub, i)
  }

  predicate StartsWith(s: string, prefix: string) {
    |prefix| <= |s| && s[..|prefix|] == prefix
  }

  predicate EndsWith(s: string, suffix: string) {
    |suffix| <= |s| && s[|s| - |suffix|..] == suffix
  }

  /** A character `sub` needs that `s` lacks rules out every occurrence. */
  lemma Lacks(s: string, sub: string, j: nat)
    requires j < |sub| && sub[j] !in s
    ensures !Contains(s, sub)
  {
    forall i: nat | i <= |s| ensures !OccursAt(s, sub, i) {
      if i + |sub| <= |s| {
        assert s[i..i + |sub|][j] == s[i + j];
        assert s[i + j] in s;
      }
    }
  }

  /** An occurrence that fits inside a prefix of `s` is an occurrence in that prefix, and conversely. */
  lemma OccursInPrefix(s: string, pre: string, sub: string, i: nat)
    requires |pre| <= |s| && s[..|pre|] == pre && i + |sub| <= |pre|
    ensures OccursAt(s, sub, i) <==> OccursAt(pre, sub, i)
  {
    var inS, inPre := s[i..i + |sub|], pre[i..i + |sub|];
    forall j | 0 <= j < |sub|
      ensures inS[j] == inPre[j]
    {
      assert s[..|pre|][i + j] == s[i + j];
    }
    assert inS == inPre;
  }

  /** An occurrence at or after `p` is an occurrence in the suffix of `s` from `p`. */
  lemma OccursInSuffix(s: string, sub: string, p: nat, i: nat)
    requires p <= i && OccursAt(s, sub, i)
    ensures OccursAt(s[p..], sub, i - p)
  {
    assert s[p..][i - p..i - p + |sub|] == s[i..i + |sub|];
  }

  /** `s.indexOf(sep, from)`, for a non-empty separator. */
  function IndexOf(s: string, sep: string, from: nat): (r: Option<nat>)
    requires |sep| > 0
    ensures r.Some? ==> from <= r.value && OccursAt(s, sep, r.value)
    ensures r.Some? ==> forall k: nat :: from <= k < r.value ==> !OccursAt(s, sep, k)
    ensures r.None? ==> forall k: nat :: from <= k ==> !OccursAt(s, sep, k)
    decreases |s| - from
  {
    if from + |sep| > |s| then None
    else if OccursAt(s, sep, from) then Some(from)
    else IndexOf(s, sep, from + 1)
  }

  function LowerChar(c: char): char {
    if 'A' <= c <= 'Z' then (c as int + 32) as char else c
  }

  /** `toLowerCase`, on the ASCII letters only. */
  function ToLower(s: string): (r: string)
    ensures |r| == |s| && forall i :: 0 <= i < |s| ==> r[i] == LowerChar(s[i])
  {
    seq(|s|, i requires 0 <= i < |s| => LowerChar(s[i]))
  }

  /** Lower-casing leaves a string without upper-case letters as it is. */
  lemma LowerOfLower(s: string)
    requires forall i :: 0 <= i < |s| ==> !('A' <= s[i] <= 'Z')
    ensures ToLower(s) == s
  {
  }
}
