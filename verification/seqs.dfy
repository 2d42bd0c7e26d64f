/** Sequence helpers shared by the list derivations: `Array.prototype.filter`
    and its length, characterised independently of how they are computed. */
module Seqs {

  /** `a` can be obtained from `b` by deleting elements, keeping their order. */
  ghost predicate IsSubsequence<T>(a: seq<T>, b: seq<T>)
    decreases |b|
  {
    if |a| == 0 then true
    else if |b| == 0 then false
    else (a[0] == b[0] && IsSubsequence(a[1..], b[1..])) || IsSubsequence(a, b[1..])
  }

  /** The elements of `xs` that satisfy `p`, in their original order.
      The contract pins the result down completely: a subsequence of `xs`
      holding every satisfying element exactly as often as `xs` does and no
      other element. */
  function Filter<T(!new)>(xs: seq<T>, p: T -> bool): (r: seq<T>)
    ensures IsSubsequence(r, xs)
    ensures |r| <= |xs|
    ensures forall i :: 0 <= i < |r| ==> p(r[i])
    ensures forall x :: x in r <==> x in xs && p(x)
    ensures forall x :: multiset(r)[x] == if p(x) then multiset(xs)[x] else 0
  {
    if |xs| == 0 then []
    else
      var rest := Filter(xs[1..], p);
      assert xs == [xs[0]] + xs[1..];
      assert multiset(xs) == multiset{xs[0]} + multiset(xs[1..]);
      if p(xs[0]) then
        assert ([xs[0]] + rest)[1..] == rest;
        [xs[0]] + rest
      else rest
  }

  /** `xs.filter(p).length`. */
  function Count<T(!new)>(xs: seq<T>, p: T -> bool): (n: nat)
    ensures n == Occurrences(xs, p)
    ensures n <= |xs|
    ensures n == 0 <==> forall i :: 0 <= i < |xs| ==> !p(xs[i])
    ensures n == |xs| <==> forall i :: 0 <= i < |xs| ==> p(xs[i])
  {
    FilterLength(xs, p);
    OccurrencesBounds(xs, p);
    |Filter(xs, p)|
  }

  /** Number of positions of `xs` whose element satisfies `p`, computed by
      recursion on the sequence (the reference for `Count`). */
  function Occurrences<T>(xs: seq<T>, p: T -> bool): nat
  {
    if |xs| == 0 then 0 else (if p(xs[0]) then 1 else 0) + Occurrences(xs[1..], p)
  }

  lemma {:induction false} FilterLength<T(!new)>(xs: seq<T>, p: T -> bool)
    ensures |Filter(xs, p)| == Occurrences(xs, p)
  {
    if |xs| > 0 {
      FilterLength(xs[1..], p);
    }
  }

  lemma {:induction false} OccurrencesBounds<T>(xs: seq<T>, p: T -> bool)
    ensures Occurrences(xs, p) <= |xs|
    ensures Occurrences(xs, p) == 0 <==> forall i :: 0 <= i < |xs| ==> !p(xs[i])
    ensures Occurrences(xs, p) == |xs| <==> forall i :: 0 <= i < |xs| ==> p(xs[i])
  {
    if |xs| > 0 {
      var tail := xs[1..];
      OccurrencesBounds(tail, p);
      assert forall i :: 1 <= i < |xs| ==> xs[i] == tail[i - 1];
    }
  }
}
