/** Sequence functions shared by both benchmark programs: sums of counts,
    occurrence counts of list indices, and the concatenation of a list of lists.
    All three recurse on the LAST element, so that a loop that walks a sequence
    from the front extends them one step at a time. */
module SeqUtil {

  /** Sum of a sequence of counts. */
  function Sum(s: seq<nat>): nat
  {
    if s == [] then 0 else Sum(s[..|s| - 1]) + s[|s| - 1]
  }

  /** Number of positions of `s` that hold `x`. */
  function Occurrences(s: seq<nat>, x: nat): nat
  {
    if s == [] then 0
    else Occurrences(s[..|s| - 1], x) + (if s[|s| - 1] == x then 1 else 0)
  }

  /** The lists of `ls` laid end to end, in index order. */
  function Flatten<T>(ls: seq<seq<T>>): seq<T>
  {
    if ls == [] then [] else Flatten(ls[..|ls| - 1]) + ls[|ls| - 1]
  }

  /** Taking one more element of `s` adds that element to the sum of the prefix. */
  lemma SumPrefixStep(s: seq<nat>, i: nat)
    requires i < |s|
    ensures Sum(s[..i + 1]) == Sum(s[..i]) + s[i]
  {
    assert s[..i + 1][..i] == s[..i];
  }

  /** Sums of longer prefixes are never smaller. */
  lemma {:induction false} SumPrefixMono(s: seq<nat>, i: nat, j: nat)
    requires i <= j <= |s|
    ensures Sum(s[..i]) <= Sum(s[..j])
    decreases j - i
  {
    if i < j {
      SumPrefixStep(s, i);
      SumPrefixMono(s, i + 1, j);
    }
  }

  /** Replacing one count changes the sum by exactly the difference. */
  lemma {:induction false} SumUpdate(s: seq<nat>, k: nat, v: nat)
    requires k < |s|
    ensures Sum(s[k := v]) + s[k] == Sum(s) + v
  {
    var t := s[k := v];
    if k == |s| - 1 {
      assert t[..|t| - 1] == s[..|s| - 1];
    } else {
      SumUpdate(s[..|s| - 1], k, v);
      assert t[..|t| - 1] == s[..|s| - 1][k := v];
    }
  }

  /** Counting one more position adds one exactly to the count of its value. */
  lemma OccurrencesPrefixStep(s: seq<nat>, i: nat, x: nat)
    requires i < |s|
    ensures Occurrences(s[..i + 1], x) == Occurrences(s[..i], x) + (if s[i] == x then 1 else 0)
  {
    assert s[..i + 1][..i] == s[..i];
  }

  /** Concatenating one more list appends exactly that list. */
  lemma FlattenPrefixStep<T>(ls: seq<seq<T>>, i: nat)
    requires i < |ls|
    ensures Flatten(ls[..i + 1]) == Flatten(ls[..i]) + ls[i]
  {
    assert ls[..i + 1][..i] == ls[..i];
  }

  /** Scaled by a width d, element k of `s` spans from the sum before it to the
      sum through it, and that end lies within the sum of the first n. */
  lemma PrefixSpan(s: seq<nat>, k: nat, n: nat, d: nat)
    requires k < n <= |s|
    ensures Sum(s[..k]) * d + s[k] * d == Sum(s[..k + 1]) * d <= Sum(s[..n]) * d
  {
    SumPrefixStep(s, k);
    SumPrefixMono(s, k + 1, n);
    MulMono(Sum(s[..k + 1]), Sum(s[..n]), d);
  }

  /** Multiplying both sides by the same factor keeps the order. */
  lemma MulMono(a: nat, b: nat, d: nat)
    requires a <= b
    ensures a * d <= b * d
  {
  }
}
