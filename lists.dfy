/**
 * Python's list comprehension `[f(x) for x in xs if p(x)]`, taken apart into
 * the filter and the map it performs, each with what it preserves.
 */
module Lists {

  /** `a` can be obtained from `b` by deleting elements: same relative order. */
  predicate IsSubsequence<T(==)>(a: seq<T>, b: seq<T>)
    decreases |b|
  {
    if a == [] then true
    else if b == [] then false
    else if a[0] == b[0] then IsSubsequence(a[1..], b[1..])
    else IsSubsequence(a, b[1..])
  }

  /** `[x for x in xs if p(x)]`. */
  function Filter<T(==,!new)>(p: T -> bool, xs: seq<T>): (r: seq<T>)
    ensures |r| <= |xs|
    ensures forall i :: 0 <= i < |r| ==> p(r[i])
    ensures forall x {:trigger multiset(r)[x]} :: multiset(r)[x] == if p(x) then multiset(xs)[x] else 0
    ensures IsSubsequence(r, xs)
    decreases |xs|
  {
    if xs == [] then []
    else
      var rest := Filter(p, xs[1..]);
      assert xs == [xs[0]] + xs[1..];
      if p(xs[0]) then [xs[0]] + rest else rest
  }

  /** `[f(x) for x in xs]`. */
  function MapSeq<T, U>(f: T -> U, xs: seq<T>): (r: seq<U>)
    ensures |r| == |xs|
    ensures forall i :: 0 <= i < |xs| ==> r[i] == f(xs[i])
  {
    seq(|xs|, i requires 0 <= i < |xs| => f(xs[i]))
  }

  /** Mapping a subsequence yields a subsequence of the mapped whole. */
  lemma {:induction false} MapKeepsSubsequence<T, U>(f: T -> U, a: seq<T>, b: seq<T>)
    requires IsSubsequence(a, b)
    ensures IsSubsequence(MapSeq(f, a), MapSeq(f, b))
    decreases |b|
  {
    var fa, fb := MapSeq(f, a), MapSeq(f, b);
    if a != [] && b != [] {
      assert MapSeq(f, b[1..]) == fb[1..];
      if a[0] == b[0] {
        assert MapSeq(f, a[1..]) == fa[1..];
        MapKeepsSubsequence(f, a[1..], b[1..]);
      } else {
        MapKeepsSubsequence(f, a, b[1..]);
        if fa[0] == fb[0] {
          // the mapped heads coincide: pair them instead of skipping
          SubsequenceTail(fa, fb[1..]);
        }
      }
    }
  }

  /** Dropping the head of a subsequence keeps it a subsequence. */
  lemma {:induction false} SubsequenceTail<T>(a: seq<T>, b: seq<T>)
    requires a != [] && IsSubsequence(a, b)
    ensures IsSubsequence(a[1..], b)
    decreases |b|, 2
  {
    if b != [] {
      if a[0] == b[0] {
        SubsequenceWeaken(a[1..], b[1..], b);
      } else {
        SubsequenceTail(a, b[1..]);
        SubsequenceWeaken(a[1..], b[1..], b);
      }
    }
  }

  /** A subsequence of the tail is a subsequence of the whole. */
  lemma {:induction false} SubsequenceWeaken<T>(a: seq<T>, b': seq<T>, b: seq<T>)
    requires b != [] && b' == b[1..] && IsSubsequence(a, b')
    ensures IsSubsequence(a, b)
    decreases |b|, 1
  {
    if a != [] && a[0] == b[0] {
      SubsequenceTail(a, b');
    }
  }
}
