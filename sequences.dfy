/** Searches, sums and reversal over sequences: the `find`, `findIndex`,
    `reduce` and `reverse` calls the store makes. */
module Sequences {
  import opened Results

  /** Index of the first element satisfying `p`, or `None` when there is
      none (`findIndex` returning -1). */
  function FirstIndex<T>(s: seq<T>, p: T -> bool): (r: Option<nat>)
    ensures r.Some? ==> r.value < |s| && p(s[r.value])
    ensures r.Some? ==> forall j :: 0 <= j < r.value ==> !p(s[j])
    ensures r.None? <==> forall j :: 0 <= j < |s| ==> !p(s[j])
    decreases |s|
  {
    if s == [] then None
    else if p(s[0]) then Some(0)
    else match FirstIndex(s[1..], p)
      case None => None
      case Some(i) => Some(i + 1)
  }

  /** The elements of `s` in the opposite order (`[...s].reverse()`). */
  function Reversed<T>(s: seq<T>): (r: seq<T>)
    ensures |r| == |s|
    ensures forall k :: 0 <= k < |s| ==> r[k] == s[|s| - 1 - k]
  {
    if s == [] then [] else Reversed(s[1..]) + [s[0]]
  }

  /** `s.reduce((acc, x) => acc + f(x), 0)`: a left fold, so the last
      element is added last. */
  function Sum<T>(s: seq<T>, f: T -> real): real
  {
    if s == [] then 0.0 else Sum(s[..|s| - 1], f) + f(s[|s| - 1])
  }

  /** The same fold over integer-valued terms. */
  function Count<T>(s: seq<T>, f: T -> int): int
  {
    if s == [] then 0 else Count(s[..|s| - 1], f) + f(s[|s| - 1])
  }

  lemma {:induction false} SumAppend<T>(a: seq<T>, b: seq<T>, f: T -> real)
    ensures Sum(a + b, f) == Sum(a, f) + Sum(b, f)
    decreases |b|
  {
    if b == [] {
      assert a + b == a;
    } else {
      var b' := b[..|b| - 1];
      assert (a + b)[..|a + b| - 1] == a + b';
      SumAppend(a, b', f);
    }
  }

  lemma SumSingle<T>(x: T, f: T -> real)
    ensures Sum([x], f) == f(x)
  {
    assert [x][..0] == [];
  }

  /** Splitting around one element: the sum is the sum before it, its
      term, and the sum after it. */
  lemma SumAround<T>(a: seq<T>, x: T, b: seq<T>, f: T -> real)
    ensures Sum(a + [x] + b, f) == Sum(a, f) + f(x) + Sum(b, f)
  {
    SumAppend(a + [x], b, f);
    SumAppend(a, [x], f);
    SumSingle(x, f);
  }

  /** A sequence is the part before position `i`, the element at `i`, and
      the part after it. */
  lemma SplitAt<T>(s: seq<T>, i: nat)
    requires i < |s|
    ensures s == s[..i] + [s[i]] + s[i + 1..]
  {
  }

  /** Replacing one element changes the sum by the difference of its terms. */
  lemma SumUpdate<T>(s: seq<T>, i: nat, x: T, f: T -> real)
    requires i < |s|
    ensures Sum(s[i := x], f) == Sum(s, f) - f(s[i]) + f(x)
  {
    var a, b := s[..i], s[i + 1..];
    SplitAt(s, i);
    SplitAt(s[i := x], i);
    assert s[i := x][..i] == a && s[i := x][i + 1..] == b;
    SumAround(a, s[i], b, f);
    SumAround(a, x, b, f);
  }

  /** Deleting one element takes its term out of the sum. */
  lemma SumDelete<T>(s: seq<T>, i: nat, f: T -> real)
    requires i < |s|
    ensures Sum(s[..i] + s[i + 1..], f) == Sum(s, f) - f(s[i])
  {
    SplitAt(s, i);
    SumAround(s[..i], s[i], s[i + 1..], f);
    SumAppend(s[..i], s[i + 1..], f);
  }

  /** A sum of non-negative terms is non-negative. */
  lemma {:induction false} SumNonNegative<T>(s: seq<T>, f: T -> real)
    requires forall k :: 0 <= k < |s| ==> f(s[k]) >= 0.0
    ensures Sum(s, f) >= 0.0
    decreases |s|
  {
    if s != [] {
      SumNonNegative(s[..|s| - 1], f);
    }
  }
}
