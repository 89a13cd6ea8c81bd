/** `Array.prototype.filter` on sequences, and what it preserves. */
module Collections {

  /** The elements of `xs` that satisfy `keep`, in their original order. */
  function Filter<T>(xs: seq<T>, keep: T -> bool): (r: seq<T>)
    ensures |r| <= |xs|
    ensures forall x :: x in r ==> x in xs && keep(x)
  {
    if xs == [] then []
    else (if keep(xs[0]) then [xs[0]] else []) + Filter(xs[1..], keep)
  }

  /** An element survives the filter exactly when it was there and satisfies `keep`. */
  lemma {:induction false} FilterMembership<T>(xs: seq<T>, keep: T -> bool, x: T)
    ensures x in Filter(xs, keep) <==> x in xs && keep(x)
  {
    if xs != [] {
      FilterMembership(xs[1..], keep, x);
      assert xs == [xs[0]] + xs[1..];
    }
  }

  /** Filtering distributes over concatenation, so the relative order of kept elements is preserved. */
  lemma {:induction false} FilterAppend<T>(a: seq<T>, b: seq<T>, keep: T -> bool)
    ensures Filter(a + b, keep) == Filter(a, keep) + Filter(b, keep)
  {
    if a == [] {
      assert a + b == b;
    } else {
      assert (a + b)[1..] == a[1..] + b;
      FilterAppend(a[1..], b, keep);
    }
  }

  /** When every element satisfies `keep`, the filter returns its input unchanged. */
  lemma {:induction false} FilterKeepsAll<T>(xs: seq<T>, keep: T -> bool)
    requires forall i :: 0 <= i < |xs| ==> keep(xs[i])
    ensures Filter(xs, keep) == xs
  {
    if xs != [] {
      FilterKeepsAll(xs[1..], keep);
    }
  }

  /** When no element satisfies `keep`, the filter returns nothing. */
  lemma {:induction false} FilterDropsAll<T>(xs: seq<T>, keep: T -> bool)
    requires forall i :: 0 <= i < |xs| ==> !keep(xs[i])
    ensures Filter(xs, keep) == []
  {
    if xs != [] {
      FilterDropsAll(xs[1..], keep);
    }
  }

  /** Filtering twice by the same test is filtering once. */
  lemma FilterIdempotent<T>(xs: seq<T>, keep: T -> bool)
    ensures Filter(Filter(xs, keep), keep) == Filter(xs, keep)
  {
    var r := Filter(xs, keep);
    forall i | 0 <= i < |r| ensures keep(r[i]) {
      assert r[i] in r;
    }
    FilterKeepsAll(r, keep);
  }

  /** What the filter keeps and what it drops add up to the input. */
  lemma {:induction false} FilterSplitsLength<T>(xs: seq<T>, keep: T -> bool)
    ensures |Filter(xs, keep)| + |Filter(xs, x => !keep(x))| == |xs|
  {
    if xs != [] {
      FilterSplitsLength(xs[1..], keep);
    }
  }

  /** Two tests that agree on every element of `xs` filter it alike. */
  lemma {:induction false} FilterCongruent<T>(xs: seq<T>, k1: T -> bool, k2: T -> bool)
    requires forall i :: 0 <= i < |xs| ==> k1(xs[i]) == k2(xs[i])
    ensures Filter(xs, k1) == Filter(xs, k2)
  {
    if xs != [] {
      FilterCongruent(xs[1..], k1, k2);
    }
  }
}
