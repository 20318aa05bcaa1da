/**
  String predicates the entry-file resolver is built from: a suffix test, a raw
  substring search (no parsing, as JavaScript's `String.prototype.includes`),
  and an extension swap that turns `paper.tex` into `paper.bbl`.
 */
module Strings {

  predicate StartsWith(s: string, prefix: string)
  {
    |prefix| <= |s| && s[..|prefix|] == prefix
  }

  predicate EndsWith(s: string, suffix: string)
  {
    |suffix| <= |s| && s[|s| - |suffix|..] == suffix
  }

  /** Raw substring search: does `pattern` occur anywhere in `s`? */
  predicate Contains(s: string, pattern: string)
    decreases |s|
  {
    StartsWith(s, pattern) || (|s| > 0 && Contains(s[1..], pattern))
  }

  /** Reference definition of an occurrence: `pattern` sits at index `i` of `s`. */
  ghost predicate OccursAt(s: string, pattern: string, i: int)
  {
    0 <= i && i + |pattern| <= |s| && s[i..i + |pattern|] == pattern
  }

  /** The recursive search finds exactly the occurrences of the reference definition. */
  lemma {:induction false} ContainsIff(s: string, pattern: string)
    ensures Contains(s, pattern) <==> exists i :: OccursAt(s, pattern, i)
    decreases |s|
  {
    if |s| == 0 {
      if Contains(s, pattern) {
        assert OccursAt(s, pattern, 0);
      }
    } else {
      ContainsIff(s[1..], pattern);
      if Contains(s, pattern) {
        if StartsWith(s, pattern) {
          assert OccursAt(s, pattern, 0);
        } else {
          var j :| OccursAt(s[1..], pattern, j);
          assert s[1..][j..j + |pattern|] == s[j + 1..j + 1 + |pattern|];
          assert OccursAt(s, pattern, j + 1);
        }
      }
      if exists i :: OccursAt(s, pattern, i) {
        var i :| OccursAt(s, pattern, i);
        if i == 0 {
          assert StartsWith(s, pattern);
        } else {
          assert s[1..][i - 1..i - 1 + |pattern|] == s[i..i + |pattern|];
          assert OccursAt(s[1..], pattern, i - 1);
        }
      }
    }
  }

  /** Whatever stands in front of it, a string is found in the concatenation. */
  lemma {:induction false} ContainsAfter(front: string, s: string)
    ensures Contains(front + s, s)
    decreases |front|
  {
    if front == [] {
      assert front + s == s;
      assert StartsWith(s, s);
    } else {
      assert (front + s)[1..] == front[1..] + s;
      ContainsAfter(front[1..], s);
    }
  }

  /** A pattern is found at the start of any string that begins with it. */
  lemma ContainsAtStart(pattern: string, rest: string)
    ensures Contains(pattern + rest, pattern)
  {
    assert (pattern + rest)[..|pattern|] == pattern;
  }

  /** A pattern whose first character never appears in `s` does not occur in `s`. */
  lemma {:induction false} AbsentFirstChar(s: string, pattern: string)
    requires |pattern| > 0 && pattern[0] !in s
    ensures !Contains(s, pattern)
    decreases |s|
  {
    if |s| > 0 {
      assert s[0] != pattern[0];
      assert forall c :: c in s[1..] ==> c in s;
      AbsentFirstChar(s[1..], pattern);
    }
  }

  /**
    A pattern whose first character appears in `s` at most at index 0 occurs
    in `s` only as a prefix.
   */
  lemma FirstCharOnlyAtStart(s: string, pattern: string)
    requires |s| > 0 && |pattern| > 0 && pattern[0] !in s[1..]
    ensures Contains(s, pattern) <==> StartsWith(s, pattern)
  {
    AbsentFirstChar(s[1..], pattern);
  }

  /** `s` with the suffix `from` replaced by `to` (the extension swap). */
  function ReplaceSuffix(s: string, from: string, to: string): (r: string)
    requires EndsWith(s, from)
    ensures EndsWith(r, to)
    ensures |r| - |to| == |s| - |from| && r[..|r| - |to|] == s[..|s| - |from|]
  {
    s[..|s| - |from|] + to
  }

  /** Swapping the suffix back gives the original string. */
  lemma ReplaceSuffixRoundTrip(s: string, from: string, to: string)
    requires EndsWith(s, from)
    ensures ReplaceSuffix(ReplaceSuffix(s, from, to), to, from) == s
  {
    var r := ReplaceSuffix(s, from, to);
    assert s == s[..|s| - |from|] + from;
    assert ReplaceSuffix(r, to, from) == r[..|r| - |to|] + from;
  }

  /** Two strings with the same suffix swap to different strings when they differ. */
  lemma ReplaceSuffixInjective(a: string, b: string, from: string, to: string)
    requires EndsWith(a, from) && EndsWith(b, from)
    requires ReplaceSuffix(a, from, to) == ReplaceSuffix(b, from, to)
    ensures a == b
  {
    ReplaceSuffixRoundTrip(a, from, to);
    ReplaceSuffixRoundTrip(b, from, to);
  }
}
