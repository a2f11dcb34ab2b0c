/**
 * Pattern matching over the searchable text. The regular-expression engine itself is not
 * modelled: every operation takes it as a `Matcher`, a total predicate telling whether a
 * (compiled) pattern matches somewhere in a text.
 */
module Patterns {

  /** `m(pattern, text)` holds when `pattern` matches `text` (unanchored, as `regexp.Match`). */
  type Matcher = (string, string) -> bool

  /** Some pattern of `patterns` matches `text`: patterns are ORed. */
  predicate AnyMatch(m: Matcher, patterns: seq<string>, text: string)
  {
    exists i | 0 <= i < |patterns| :: m(patterns[i], text)
  }

  /**
   * The loop the source writes three times: compile each pattern in order and stop at the
   * first one that matches.
   */
  method MatchAny(m: Matcher, patterns: seq<string>, text: string) returns (found: bool)
    ensures found <==> AnyMatch(m, patterns, text)
  {
    var i := 0;
    while i < |patterns|
      invariant 0 <= i <= |patterns|
      invariant forall j | 0 <= j < i :: !m(patterns[j], text)
    {
      if m(patterns[i], text) {
        return true;
      }
      i := i + 1;
    }
    return false;
  }

  /** The characters of all texts together. */
  function TotalLength(texts: seq<string>): nat
  {
    if |texts| == 0 then 0 else |texts[0]| + TotalLength(texts[1..])
  }

  /**
   * `strings.Join(texts, " ")`: the searchable text. It starts with the first text and, besides
   * the texts, holds exactly one separator between each text and the next.
   */
  function Join(texts: seq<string>): (r: string)
    ensures |texts| > 0 ==> texts[0] <= r
    ensures |r| == TotalLength(texts) + if |texts| == 0 then 0 else |texts| - 1
  {
    if |texts| == 0 then ""
    else if |texts| == 1 then texts[0]
    else texts[0] + " " + Join(texts[1..])
  }

  /** Joining puts exactly one space between each text and the next, and nothing else. */
  lemma {:induction false} JoinAppend(texts: seq<string>, t: string)
    ensures Join(texts + [t]) == if |texts| == 0 then t else Join(texts) + " " + t
  {
    if |texts| > 1 {
      assert (texts + [t])[1..] == texts[1..] + [t];
      JoinAppend(texts[1..], t);
    } else if |texts| == 1 {
      assert (texts + [t])[1..] == [t];
    }
  }

  /** The patterns of `patterns` that match `text`, in their original order, duplicates kept. */
  function MatchingPatterns(m: Matcher, patterns: seq<string>, text: string): (r: seq<string>)
    ensures |r| <= |patterns|
    ensures forall p | p in r :: p in patterns && m(p, text)
    ensures forall i | 0 <= i < |patterns| && m(patterns[i], text) :: patterns[i] in r
  {
    if |patterns| == 0 then []
    else
      var init := MatchingPatterns(m, patterns[..|patterns| - 1], text);
      var last := patterns[|patterns| - 1];
      assert forall i | 0 <= i < |patterns| - 1 :: patterns[..|patterns| - 1][i] == patterns[i];
      if m(last, text) then init + [last] else init
  }

  /** The collecting loop: every pattern is tried, and each one that matches is appended. */
  method CollectMatching(m: Matcher, patterns: seq<string>, text: string) returns (matched: seq<string>)
    ensures matched == MatchingPatterns(m, patterns, text)
  {
    matched := [];
    var i := 0;
    while i < |patterns|
      invariant 0 <= i <= |patterns|
      invariant matched == MatchingPatterns(m, patterns[..i], text)
    {
      assert patterns[..i + 1][..i] == patterns[..i];
      if m(patterns[i], text) {
        matched := matched + [patterns[i]];
      }
      i := i + 1;
    }
    assert patterns[..i] == patterns;
  }

  /** No pattern is collected exactly when none matches. */
  lemma MatchingPatternsEmpty(m: Matcher, patterns: seq<string>, text: string)
    ensures MatchingPatterns(m, patterns, text) == [] <==> !AnyMatch(m, patterns, text)
  {
    var r := MatchingPatterns(m, patterns, text);
    if r != [] {
      assert r[0] in r;
      var i :| 0 <= i < |patterns| && patterns[i] == r[0];
    }
  }

  /** `a` is `b` with some elements left out, the rest in the same order. */
  predicate IsSubsequence(a: seq<string>, b: seq<string>)
    decreases |b|
  {
    if |a| == 0 then true
    else if |b| == 0 then false
    else
      (a[|a| - 1] == b[|b| - 1] && IsSubsequence(a[..|a| - 1], b[..|b| - 1]))
      || IsSubsequence(a, b[..|b| - 1])
  }

  /** The collected patterns keep the order they have in the configuration. */
  lemma {:induction false} MatchingPatternsSubsequence(m: Matcher, patterns: seq<string>, text: string)
    ensures IsSubsequence(MatchingPatterns(m, patterns, text), patterns)
  {
    if |patterns| > 0 {
      var init := patterns[..|patterns| - 1];
      MatchingPatternsSubsequence(m, init, text);
      var r := MatchingPatterns(m, patterns, text);
      if m(patterns[|patterns| - 1], text) {
        assert r[..|r| - 1] == MatchingPatterns(m, init, text);
      }
    }
  }
}
