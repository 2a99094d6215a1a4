/**
  The array operations the store and the pages are written with (`find`,
  `findIndex`, `filter`, `map`, `reduce` with `+`), as functions on sequences,
  and the facts about them that the rest of the model relies on.
 */
module Seqs {
  import opened Wrappers

  /** The index of the first occurrence of `x` (`findIndex` on an id). */
  function IndexOf<T(==)>(s: seq<T>, x: T): (r: Option<nat>)
    ensures r.None? <==> x !in s
    ensures r.Some? ==> r.value < |s| && s[r.value] == x && x !in s[..r.value]
  {
    if s == [] then None
    else if s[0] == x then Some(0)
    else
      match IndexOf(s[1..], x)
      case None => None
      case Some(k) =>
        assert s[..k + 1] == [s[0]] + s[1..][..k];
        Some(k + 1)
  }

  /** `s.filter(keep)`: the elements of `s` that satisfy `keep`, in order. */
  function Filter<T>(s: seq<T>, keep: T -> bool): (r: seq<T>)
    ensures |r| <= |s|
    ensures forall x :: x in r ==> x in s && keep(x)
  {
    if s == [] then []
    else if keep(s[0]) then [s[0]] + Filter(s[1..], keep)
    else Filter(s[1..], keep)
  }

  /** `s.map(f)`. */
  function Map<T, U>(s: seq<T>, f: T -> U): (r: seq<U>)
    ensures |r| == |s| && forall i :: 0 <= i < |s| ==> r[i] == f(s[i])
  {
    if s == [] then [] else [f(s[0])] + Map(s[1..], f)
  }

  /** `s.reduce((sum, x) => sum + f(x), 0)`, with exact integer addition. */
  function Sum<T>(s: seq<T>, f: T -> int): int
  {
    if s == [] then 0 else f(s[0]) + Sum(s[1..], f)
  }

  /** `a` is an order-preserving sublist of `b`: `b` with some elements dropped. */
  ghost predicate IsSublist<T>(a: seq<T>, b: seq<T>)
    decreases |b|
  {
    if a == [] then true
    else if b == [] then false
    else (a[0] == b[0] && IsSublist(a[1..], b[1..])) || IsSublist(a, b[1..])
  }

  /** No element occurs twice. */
  ghost predicate Distinct<T>(s: seq<T>)
  {
    forall i, j :: 0 <= i < j < |s| ==> s[i] != s[j]
  }

  // ---------------------------------------------------------------- Filter

  /** Filter keeps every element that satisfies the predicate. */
  lemma {:induction false} FilterComplete<T>(s: seq<T>, keep: T -> bool, x: T)
    requires x in s && keep(x)
    ensures x in Filter(s, keep)
  {
    if s[0] != x {
      assert x in s[1..];
      FilterComplete(s[1..], keep, x);
    }
  }

  /** Membership in a filtered sequence, both directions. */
  lemma FilterMembership<T>(s: seq<T>, keep: T -> bool)
    ensures forall x :: x in Filter(s, keep) <==> x in s && keep(x)
  {
    forall x | x in s && keep(x) ensures x in Filter(s, keep) {
      FilterComplete(s, keep, x);
    }
  }

  lemma {:induction false} FilterIsSublist<T>(s: seq<T>, keep: T -> bool)
    ensures IsSublist(Filter(s, keep), s)
  {
    if s != [] {
      FilterIsSublist(s[1..], keep);
      if keep(s[0]) {
        var r := Filter(s, keep);
        assert r[0] == s[0] && r[1..] == Filter(s[1..], keep);
      }
    }
  }

  lemma {:induction false} SublistRefl<T>(s: seq<T>)
    ensures IsSublist(s, s)
  {
    if s != [] {
      SublistRefl(s[1..]);
    }
  }

  lemma {:induction false} SublistTrans<T>(a: seq<T>, b: seq<T>, c: seq<T>)
    requires IsSublist(a, b) && IsSublist(b, c)
    ensures IsSublist(a, c)
    decreases |a| + |b| + |c|
  {
    if a != [] {
      if IsSublist(b, c[1..]) {
        SublistTrans(a, b, c[1..]);
      } else if a[0] == b[0] && IsSublist(a[1..], b[1..]) {
        SublistTrans(a[1..], b[1..], c[1..]);
      } else {
        SublistTrans(a, b[1..], c[1..]);
      }
    }
  }

  /** A filter that keeps everything is the identity. */
  lemma {:induction false} FilterKeepsAll<T>(s: seq<T>, keep: T -> bool)
    requires forall x :: x in s ==> keep(x)
    ensures Filter(s, keep) == s
  {
    if s != [] {
      FilterKeepsAll(s[1..], keep);
    }
  }

  /** A filter that keeps nothing gives the empty list. */
  lemma {:induction false} FilterKeepsNone<T>(s: seq<T>, keep: T -> bool)
    requires forall x :: x in s ==> !keep(x)
    ensures Filter(s, keep) == []
  {
    if s != [] {
      FilterKeepsNone(s[1..], keep);
    }
  }

  /** Two predicates that agree on the list filter it alike. */
  lemma {:induction false} FilterSamePredicate<T>(s: seq<T>, p: T -> bool, q: T -> bool)
    requires forall x :: x in s ==> p(x) == q(x)
    ensures Filter(s, p) == Filter(s, q)
  {
    if s != [] {
      FilterSamePredicate(s[1..], p, q);
    }
  }

  /** Filtering by `p` and then by `q` is filtering once by their conjunction. */
  lemma {:induction false} FilterFilter<T>(s: seq<T>, p: T -> bool, q: T -> bool, both: T -> bool)
    requires forall x :: x in s ==> (both(x) <==> p(x) && q(x))
    ensures Filter(Filter(s, p), q) == Filter(s, both)
  {
    if s != [] {
      FilterFilter(s[1..], p, q, both);
    }
  }

  lemma {:induction false} FilterAppend<T>(a: seq<T>, b: seq<T>, keep: T -> bool)
    ensures Filter(a + b, keep) == Filter(a, keep) + Filter(b, keep)
  {
    if a == [] {
      assert a + b == b;
    } else {
      assert (a + b)[0] == a[0] && (a + b)[1..] == a[1..] + b;
      FilterAppend(a[1..], b, keep);
    }
  }

  /** A list whose first `k` elements fail and whose others pass filters to its suffix. */
  lemma {:induction false} FilterSuffix<T>(s: seq<T>, keep: T -> bool, k: nat)
    requires k <= |s|
    requires forall i :: 0 <= i < k ==> !keep(s[i])
    requires forall i :: k <= i < |s| ==> keep(s[i])
    ensures Filter(s, keep) == s[k..]
  {
    if s != [] && k > 0 {
      FilterSuffix(s[1..], keep, k - 1);
      assert s[1..][k - 1..] == s[k..];
    } else if s != [] {
      assert forall x :: x in s ==> keep(x);
      FilterKeepsAll(s, keep);
    }
  }

  /** A list whose first `k` elements pass and whose others fail filters to its prefix. */
  lemma {:induction false} FilterPrefix<T>(s: seq<T>, keep: T -> bool, k: nat)
    requires k <= |s|
    requires forall i :: 0 <= i < k ==> keep(s[i])
    requires forall i :: k <= i < |s| ==> !keep(s[i])
    ensures Filter(s, keep) == s[..k]
  {
    if s != [] {
      if k == 0 {
        FilterKeepsNone(s, keep);
      } else {
        FilterPrefix(s[1..], keep, k - 1);
        assert s[..k] == [s[0]] + s[1..][..k - 1];
      }
    }
  }

  // ---------------------------------------------------------------- Sum

  lemma {:induction false} SumAppend<T>(a: seq<T>, b: seq<T>, f: T -> int)
    ensures Sum(a + b, f) == Sum(a, f) + Sum(b, f)
  {
    if a == [] {
      assert a + b == b;
    } else {
      assert (a + b)[0] == a[0] && (a + b)[1..] == a[1..] + b;
      SumAppend(a[1..], b, f);
    }
  }

  /** A sum of equal terms is a product. */
  lemma {:induction false} SumConst<T>(s: seq<T>, f: T -> int, c: int)
    requires forall x :: x in s ==> f(x) == c
    ensures Sum(s, f) == c * |s|
  {
    if s != [] {
      SumConst(s[1..], f, c);
    }
  }

  /**
    Splitting a filter by two predicates that never hold together: the count
    and the sum of what `either` keeps are those of what `p` keeps plus those
    of what `q` keeps.
   */
  lemma {:induction false} FilterSplit<T>(s: seq<T>, either: T -> bool, p: T -> bool, q: T -> bool, f: T -> int)
    requires forall x :: x in s ==> (either(x) <==> p(x) || q(x))
    requires forall x :: x in s ==> !(p(x) && q(x))
    ensures |Filter(s, either)| == |Filter(s, p)| + |Filter(s, q)|
    ensures Sum(Filter(s, either), f) == Sum(Filter(s, p), f) + Sum(Filter(s, q), f)
  {
    if s != [] {
      FilterSplit(s[1..], either, p, q, f);
    }
  }

  /** Two complementary predicates partition a list: counts and sums add up to the whole. */
  lemma FilterPartition<T>(s: seq<T>, p: T -> bool, q: T -> bool, f: T -> int)
    requires forall x :: x in s ==> p(x) != q(x)
    ensures |Filter(s, p)| + |Filter(s, q)| == |s|
    ensures Sum(Filter(s, p), f) + Sum(Filter(s, q), f) == Sum(s, f)
  {
    var all := (x: T) => true;
    FilterKeepsAll(s, all);
    FilterSplit(s, all, p, q, f);
  }

  /** Dropping elements that contribute nothing does not change a sum. */
  lemma {:induction false} FilterDropsZeros<T>(s: seq<T>, keep: T -> bool, f: T -> int)
    requires forall x :: x in s && !keep(x) ==> f(x) == 0
    ensures Sum(Filter(s, keep), f) == Sum(s, f)
  {
    if s != [] {
      FilterDropsZeros(s[1..], keep, f);
    }
  }

  /**
    Overwriting one element (`s[k] = v`) changes the count and the sum of what a
    filter keeps by what the old element took out and the new one brings in.
   */
  lemma FilterUpdate<T>(s: seq<T>, k: nat, v: T, keep: T -> bool, f: T -> int)
    requires k < |s|
    ensures |Filter(s[k := v], keep)| ==
      |Filter(s, keep)| - (if keep(s[k]) then 1 else 0) + (if keep(v) then 1 else 0)
    ensures Sum(Filter(s[k := v], keep), f) ==
      Sum(Filter(s, keep), f) - (if keep(s[k]) then f(s[k]) else 0) + (if keep(v) then f(v) else 0)
  {
    var pre, post := s[..k], s[k + 1..];
    assert s == pre + [s[k]] + post;
    assert s[k := v] == pre + [v] + post;
    FilterAppend(pre + [s[k]], post, keep);
    FilterAppend(pre, [s[k]], keep);
    FilterAppend(pre + [v], post, keep);
    FilterAppend(pre, [v], keep);
    SumAppend(Filter(pre, keep) + Filter([s[k]], keep), Filter(post, keep), f);
    SumAppend(Filter(pre, keep), Filter([s[k]], keep), f);
    SumAppend(Filter(pre, keep) + Filter([v], keep), Filter(post, keep), f);
    SumAppend(Filter(pre, keep), Filter([v], keep), f);
  }

  /** Overwriting one element changes a sum by the difference of the two terms. */
  lemma SumUpdate<T>(s: seq<T>, k: nat, v: T, f: T -> int)
    requires k < |s|
    ensures Sum(s[k := v], f) == Sum(s, f) - f(s[k]) + f(v)
  {
    var all := (x: T) => true;
    FilterKeepsAll(s, all);
    FilterKeepsAll(s[k := v], all);
    FilterUpdate(s, k, v, all, f);
  }

  // ---------------------------------------------------------------- Map

  lemma MapCons<T, U>(s: seq<T>, f: T -> U)
    requires s != []
    ensures Map(s, f) == [f(s[0])] + Map(s[1..], f)
  {
  }
}
