/** Array helpers of JavaScript used throughout the model:
    `filter` and `slice(0, n)`. */
module Seqs {

  /** `s.filter(p)`: the elements of `s` that satisfy `p`, in order. */
  function Filter<T>(s: seq<T>, p: T -> bool): (r: seq<T>)
    ensures |r| <= |s|
    ensures forall i :: 0 <= i < |r| ==> p(r[i])
  {
    if s == [] then []
    else
      if p(s[0]) then [s[0]] + Filter(s[1..], p) else Filter(s[1..], p)
  }

  /** `s.slice(0, n)` for n >= 0. */
  function Take<T>(s: seq<T>, n: nat): (r: seq<T>)
    ensures |r| == if |s| < n then |s| else n
    ensures r <= s
  {
    if |s| <= n then s else s[..n]
  }

  /** Every element kept by a filter comes from the filtered sequence. */
  lemma {:induction false} FilterSubset<T>(s: seq<T>, p: T -> bool)
    ensures forall i :: 0 <= i < |Filter(s, p)| ==> Filter(s, p)[i] in s
  {
    if s != [] {
      FilterSubset(s[1..], p);
    }
  }

  /** Every element of `s` that passes is kept by the filter. */
  lemma {:induction false} FilterComplete<T>(s: seq<T>, p: T -> bool)
    ensures forall i :: 0 <= i < |s| && p(s[i]) ==> s[i] in Filter(s, p)
  {
    if s != [] {
      FilterComplete(s[1..], p);
      forall i | 1 <= i < |s| && p(s[i])
        ensures s[i] in Filter(s, p)
      {
        assert s[i] == s[1..][i - 1];
      }
    }
  }

  lemma {:induction false} FilterConcat<T>(a: seq<T>, b: seq<T>, p: T -> bool)
    ensures Filter(a + b, p) == Filter(a, p) + Filter(b, p)
  {
    if a == [] {
      assert a + b == b;
    } else {
      assert (a + b)[1..] == a[1..] + b;
      FilterConcat(a[1..], b, p);
    }
  }

  /** Filtering keeps everything when every element passes. */
  lemma {:induction false} FilterAll<T>(s: seq<T>, p: T -> bool)
    requires forall i :: 0 <= i < |s| ==> p(s[i])
    ensures Filter(s, p) == s
  {
    if s != [] {
      FilterAll(s[1..], p);
    }
  }

  /** Filtering drops everything when no element passes. */
  lemma {:induction false} FilterNone<T>(s: seq<T>, p: T -> bool)
    requires forall i :: 0 <= i < |s| ==> !p(s[i])
    ensures Filter(s, p) == []
  {
    if s != [] {
      FilterNone(s[1..], p);
    }
  }

  /** Filtering twice with predicates that are both needed equals filtering
      once with their conjunction, in either order. */
  lemma {:induction false} FilterFilter<T>(s: seq<T>, p: T -> bool, q: T -> bool)
    ensures Filter(Filter(s, p), q) == Filter(Filter(s, q), p)
  {
    if s != [] {
      FilterFilter(s[1..], p, q);
    }
  }

  /** Filtering with a predicate that the first filter already implies changes nothing. */
  lemma {:induction false} FilterIdempotent<T>(s: seq<T>, p: T -> bool)
    ensures Filter(Filter(s, p), p) == Filter(s, p)
  {
    if s != [] {
      FilterIdempotent(s[1..], p);
    }
  }

  /** A filter keeps at least as many elements as there are distinct
      positions, listed in increasing order, whose elements pass. */
  lemma {:induction false} FilterKeepsMarked<T>(s: seq<T>, p: T -> bool, marks: seq<nat>)
    requires forall j :: 0 <= j < |marks| ==> marks[j] < |s| && p(s[marks[j]])
    requires forall j, k :: 0 <= j < k < |marks| ==> marks[j] < marks[k]
    ensures |Filter(s, p)| >= |marks|
    decreases |s|
  {
    if s != [] {
      if |marks| > 0 && marks[0] == 0 {
        var rest := seq(|marks| - 1, j requires 0 <= j < |marks| - 1 => marks[j + 1] - 1);
        FilterKeepsMarked(s[1..], p, rest);
      } else {
        var rest := seq(|marks|, j requires 0 <= j < |marks| => marks[j] - 1);
        FilterKeepsMarked(s[1..], p, rest);
      }
    }
  }
}
