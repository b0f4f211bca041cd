/** Sequence operations shared by the model: boolean-mask filtering (pandas
    `df[mask]`), order-preserving subsequences, sums, arg-min, `nsmallest`,
    median, and the sorted list of a set of integers (`sorted(set(xs))`). */
module Seqs {
  import opened Wrappers


  /** Keeps, in order, the elements that satisfy p. */
  function Filter<T>(s: seq<T>, p: T -> bool): (r: seq<T>)
    ensures |r| <= |s|
    ensures forall x :: x in r ==> x in s && p(x)
  {
    if s == [] then [] else (if p(s[0]) then [s[0]] else []) + Filter(s[1..], p)
  }

  /** a is obtained from b by deleting elements (order is kept). */
  predicate Subseq<T(==)>(a: seq<T>, b: seq<T>)
    decreases |b|
  {
    if a == [] then true
    else if b == [] then false
    else if a[0] == b[0] then Subseq(a[1..], b[1..])
    else Subseq(a, b[1..])
  }

  lemma {:induction false} SubseqRefl<T>(a: seq<T>)
    ensures Subseq(a, a)
    decreases |a|
  {
    if a != [] {
      SubseqRefl(a[1..]);
    }
  }

  lemma {:induction false} SubseqMember<T>(a: seq<T>, b: seq<T>, x: T)
    requires Subseq(a, b) && x in a
    ensures x in b
    decreases |b|
  {
    if a[0] == b[0] {
      if x != a[0] {
        assert x in a[1..];
        SubseqMember(a[1..], b[1..], x);
      }
    } else {
      SubseqMember(a, b[1..], x);
    }
  }

  lemma {:induction false} SubseqLength<T>(a: seq<T>, b: seq<T>)
    requires Subseq(a, b)
    ensures |a| <= |b|
    decreases |b|
  {
    if a != [] {
      if a[0] == b[0] {
        SubseqLength(a[1..], b[1..]);
      } else {
        SubseqLength(a, b[1..]);
      }
    }
  }

  lemma {:induction false} SubseqDropFirst<T>(a: seq<T>, b: seq<T>)
    requires a != [] && Subseq(a, b)
    ensures Subseq(a[1..], b)
    decreases |b|, 0
  {
    if a[0] == b[0] {
      SubseqSkip(a[1..], b[1..], b[0]);
      assert [b[0]] + b[1..] == b;
    } else {
      SubseqDropFirst(a, b[1..]);
      SubseqSkip(a[1..], b[1..], b[0]);
      assert [b[0]] + b[1..] == b;
    }
  }

  lemma {:induction false} SubseqSkip<T>(a: seq<T>, b: seq<T>, x: T)
    requires Subseq(a, b)
    ensures Subseq(a, [x] + b)
    decreases |b|, 1
  {
    var xb := [x] + b;
    assert xb[1..] == b;
    if a != [] && a[0] == x {
      SubseqDropFirst(a, b);
    }
  }

  lemma {:induction false} SubseqTrans<T>(a: seq<T>, b: seq<T>, c: seq<T>)
    requires Subseq(a, b) && Subseq(b, c)
    ensures Subseq(a, c)
    decreases |c|
  {
    if a != [] {
      SubseqLength(b, c);
      assert [c[0]] + c[1..] == c;
      if b[0] == c[0] {
        if a[0] == b[0] {
          SubseqTrans(a[1..], b[1..], c[1..]);
        } else {
          SubseqTrans(a, b[1..], c[1..]);
        }
      } else {
        SubseqTrans(a, b, c[1..]);
        SubseqSkip(a, c[1..], c[0]);
      }
    }
  }

  /** A filter result is an order-preserving subsequence of its input. */
  lemma {:induction false} FilterSubseq<T>(s: seq<T>, p: T -> bool)
    ensures Subseq(Filter(s, p), s)
    decreases |s|
  {
    if s != [] {
      FilterSubseq(s[1..], p);
      if p(s[0]) {
        var r := Filter(s, p);
        assert r[0] == s[0] && r[1..] == Filter(s[1..], p);
      } else {
        assert Filter(s, p) == Filter(s[1..], p);
        SubseqSkip(Filter(s[1..], p), s[1..], s[0]);
        assert [s[0]] + s[1..] == s;
      }
    }
  }

  /** Membership in a filter result: exactly the elements of s that satisfy p. */
  lemma {:induction false} FilterMember<T>(s: seq<T>, p: T -> bool, x: T)
    ensures x in Filter(s, p) <==> x in s && p(x)
    decreases |s|
  {
    if s != [] {
      FilterMember(s[1..], p, x);
      assert x in s <==> x == s[0] || x in s[1..];
    }
  }

  lemma {:induction false} FilterAppend<T>(a: seq<T>, b: seq<T>, p: T -> bool)
    ensures Filter(a + b, p) == Filter(a, p) + Filter(b, p)
    decreases |a|
  {
    if a == [] {
      assert a + b == b;
    } else {
      assert (a + b)[1..] == a[1..] + b;
      FilterAppend(a[1..], b, p);
    }
  }

  /** The filter of a prefix grows by at most the next element. */
  lemma FilterSnoc<T>(s: seq<T>, x: T, p: T -> bool)
    ensures Filter(s + [x], p) == Filter(s, p) + (if p(x) then [x] else [])
  {
    FilterAppend(s, [x], p);
  }

  /** A filter whose predicate holds everywhere returns its input. */
  lemma {:induction false} FilterAllTrue<T>(s: seq<T>, p: T -> bool)
    requires forall i :: 0 <= i < |s| ==> p(s[i])
    ensures Filter(s, p) == s
    decreases |s|
  {
    if s != [] {
      FilterAllTrue(s[1..], p);
    }
  }

  /** Two filters in a row are one filter by the conjunction. */
  lemma {:induction false} FilterFilter<T>(s: seq<T>, p: T -> bool, q: T -> bool)
    ensures Filter(Filter(s, p), q) == Filter(s, x => p(x) && q(x))
    decreases |s|
  {
    if s != [] {
      FilterFilter(s[1..], p, q);
      FilterAppend(if p(s[0]) then [s[0]] else [], Filter(s[1..], p), q);
    }
  }

  /** Every element of a filter result satisfies the predicate, so filtering again changes nothing. */
  lemma FilterIdempotent<T>(s: seq<T>, p: T -> bool)
    ensures Filter(Filter(s, p), p) == Filter(s, p)
  {
    var r := Filter(s, p);
    forall i | 0 <= i < |r| ensures p(r[i]) {
      assert r[i] in r;
    }
    FilterAllTrue(r, p);
  }

  /** Sum of f over s (pandas `.sum()` of a column; 0 for no rows). */
  function Sum<T>(s: seq<T>, f: T -> real): real
  {
    if s == [] then 0.0 else f(s[0]) + Sum(s[1..], f)
  }

  lemma {:induction false} SumAppend<T>(a: seq<T>, b: seq<T>, f: T -> real)
    ensures Sum(a + b, f) == Sum(a, f) + Sum(b, f)
    decreases |a|
  {
    if a == [] {
      assert a + b == b;
    } else {
      assert (a + b)[1..] == a[1..] + b;
      SumAppend(a[1..], b, f);
    }
  }

  lemma {:induction false} SumBounds<T>(s: seq<T>, f: T -> real, lo: real, hi: real)
    requires forall i :: 0 <= i < |s| ==> lo <= f(s[i]) <= hi
    ensures |s| as real * lo <= Sum(s, f) <= |s| as real * hi
    decreases |s|
  {
    if s != [] {
      SumBounds(s[1..], f, lo, hi);
    }
  }

  lemma {:induction false} SumNonNegative<T>(s: seq<T>, f: T -> real)
    requires forall i :: 0 <= i < |s| ==> f(s[i]) >= 0.0
    ensures Sum(s, f) >= 0.0
    decreases |s|
  {
    if s != [] {
      SumNonNegative(s[1..], f);
    }
  }

  /** The column of values f(x), one per row (pandas `df[col].values`). */
  function MapReal<T>(s: seq<T>, f: T -> real): (r: seq<real>)
    ensures |r| == |s|
    ensures forall i :: 0 <= i < |s| ==> r[i] == f(s[i])
  {
    if s == [] then [] else [f(s[0])] + MapReal(s[1..], f)
  }

  lemma MapRealAppend<T>(a: seq<T>, b: seq<T>, f: T -> real)
    ensures MapReal(a + b, f) == MapReal(a, f) + MapReal(b, f)
  {
    var l, r := MapReal(a + b, f), MapReal(a, f) + MapReal(b, f);
    assert forall i :: 0 <= i < |l| ==> l[i] == r[i];
  }

  function WeightedSum(v: seq<real>, w: seq<real>): real
    requires |v| == |w|
  {
    if v == [] then 0.0 else v[0] * w[0] + WeightedSum(v[1..], w[1..])
  }

  /** numpy `average(v, weights=w)`: None stands for the ZeroDivisionError numpy
      raises when the weights sum to zero. */
  function WeightedAverage(v: seq<real>, w: seq<real>): (r: Option<real>)
    requires |v| == |w|
    ensures r.None? <==> SumReals(w) == 0.0
  {
    if SumReals(w) == 0.0 then None else Some(WeightedSum(v, w) / SumReals(w))
  }

  lemma MulBetween(v: real, w: real, lo: real, hi: real)
    requires lo <= v <= hi && w >= 0.0
    ensures lo * w <= v * w <= hi * w
  {
  }

  lemma {:induction false} WeightedSumBounds(v: seq<real>, w: seq<real>, lo: real, hi: real)
    requires |v| == |w|
    requires forall i :: 0 <= i < |v| ==> lo <= v[i] <= hi && w[i] >= 0.0
    ensures lo * SumReals(w) <= WeightedSum(v, w) <= hi * SumReals(w)
    decreases |v|
  {
    if v != [] {
      WeightedSumBounds(v[1..], w[1..], lo, hi);
      MulBetween(v[0], w[0], lo, hi);
      assert SumReals(w) == w[0] + SumReals(w[1..]);
      assert WeightedSum(v, w) == v[0] * w[0] + WeightedSum(v[1..], w[1..]);
      Distribute(lo, w[0], SumReals(w[1..]));
      Distribute(hi, w[0], SumReals(w[1..]));
    }
  }

  lemma Distribute(c: real, a: real, b: real)
    ensures c * (a + b) == c * a + c * b
  {
  }

  /** With non-negative weights of positive total, the weighted average lies within the values' bounds. */
  lemma WeightedAverageBetween(v: seq<real>, w: seq<real>, lo: real, hi: real)
    requires |v| == |w|
    requires forall i :: 0 <= i < |v| ==> lo <= v[i] <= hi && w[i] >= 0.0
    requires SumReals(w) > 0.0
    ensures WeightedAverage(v, w).Some?
    ensures lo <= WeightedAverage(v, w).value <= hi
  {
    WeightedSumBounds(v, w, lo, hi);
    DivBetween(WeightedSum(v, w), SumReals(w), lo, hi);
  }

  /** Index of the first smallest key (pandas `idxmin`, `nsmallest` keep='first'). */
  function ArgMin<T>(s: seq<T>, key: T -> real): (i: nat)
    requires |s| > 0
    ensures i < |s|
    ensures forall j :: 0 <= j < |s| ==> key(s[i]) <= key(s[j])
    ensures forall j :: 0 <= j < i ==> key(s[j]) > key(s[i])
    decreases |s|
  {
    if |s| == 1 then 0
    else
      var k := ArgMin(s[1..], key);
      if key(s[0]) <= key(s[1 + k]) then 0 else 1 + k
  }

  /** Index k of s holds the first element satisfying p whose key is the least among those elements. */
  predicate FirstMin<T>(s: seq<T>, p: T -> bool, key: T -> real, k: int)
  {
    && 0 <= k < |s| && p(s[k])
    && (forall j :: 0 <= j < |s| && p(s[j]) ==> key(s[k]) <= key(s[j]))
    && (forall j :: 0 <= j < k && p(s[j]) ==> key(s[j]) > key(s[k]))
  }

  /** `s[mask].idxmin()`: the first smallest element of the filtered sequence is,
      back in s, the first element satisfying p that has the least key. */
  lemma {:induction false} FilterArgMinFirst<T>(s: seq<T>, p: T -> bool, key: T -> real)
    requires |Filter(s, p)| > 0
    ensures exists k :: FirstMin(s, p, key, k) && s[k] == Filter(s, p)[ArgMin(Filter(s, p), key)]
    decreases |s|
  {
    var f, t := Filter(s, p), s[1..];
    var g := Filter(t, p);
    if !p(s[0]) {
      assert f == g;
      FilterArgMinFirst(t, p, key);
      var k' :| FirstMin(t, p, key, k') && t[k'] == g[ArgMin(g, key)];
      FirstMinShift(s, p, key, k');
    } else if g == [] {
      FirstMinHead(s, p, key);
    } else {
      assert f == [s[0]] + g && f[1..] == g;
      var kk := ArgMin(g, key);
      if key(s[0]) <= key(g[kk]) {
        assert ArgMin(f, key) == 0;
        FirstMinHead(s, p, key);
      } else {
        assert ArgMin(f, key) == 1 + kk;
        FilterArgMinFirst(t, p, key);
        var k' :| FirstMin(t, p, key, k') && t[k'] == g[ArgMin(g, key)];
        FirstMinShift(s, p, key, k');
      }
    }
  }

  /** A first minimum of the tail is one of the whole sequence when the head is skipped or larger. */
  lemma FirstMinShift<T>(s: seq<T>, p: T -> bool, key: T -> real, k: int)
    requires s != [] && FirstMin(s[1..], p, key, k)
    requires p(s[0]) ==> key(s[0]) > key(s[1 + k])
    ensures FirstMin(s, p, key, k + 1)
  {
    forall j | 0 < j < |s| && p(s[j])
      ensures key(s[k + 1]) <= key(s[j])
    {
      assert s[j] == s[1..][j - 1];
    }
  }

  /** The head is the first minimum when it satisfies p and no later such element is smaller. */
  lemma FirstMinHead<T>(s: seq<T>, p: T -> bool, key: T -> real)
    requires s != [] && p(s[0])
    requires Filter(s[1..], p) == [] || key(s[0]) <= key(Filter(s[1..], p)[ArgMin(Filter(s[1..], p), key)])
    ensures FirstMin(s, p, key, 0)
  {
    var t := s[1..];
    var g := Filter(t, p);
    forall j | 0 < j < |s| && p(s[j])
      ensures key(s[0]) <= key(s[j])
    {
      assert s[j] == t[j - 1];
      FilterMember(t, p, s[j]);
      var i :| 0 <= i < |g| && g[i] == s[j];
    }
  }

  /** Index of the first largest key (Python `max(..., key=...)`). */
  function ArgMax<T>(s: seq<T>, key: T -> real): (i: nat)
    requires |s| > 0
    ensures i < |s|
    ensures forall j :: 0 <= j < |s| ==> key(s[j]) <= key(s[i])
    ensures forall j :: 0 <= j < i ==> key(s[j]) < key(s[i])
    decreases |s|
  {
    if |s| == 1 then 0
    else
      var k := ArgMax(s[1..], key);
      if key(s[0]) >= key(s[1 + k]) then 0 else 1 + k
  }

  predicate SortedBy<T>(s: seq<T>, key: T -> real)
  {
    forall a, b :: 0 <= a < b < |s| ==> key(s[a]) <= key(s[b])
  }

  /** Inserts x in front of the first element whose key is not smaller. */
  function InsertBy<T>(x: T, s: seq<T>, key: T -> real): (r: seq<T>)
    requires SortedBy(s, key)
    ensures |r| == |s| + 1 && r[0] == (if s == [] || key(x) <= key(s[0]) then x else s[0])
    ensures SortedBy(r, key)
    ensures multiset(r) == multiset(s) + multiset{x}
  {
    if s == [] || key(x) <= key(s[0]) then [x] + s
    else
      assert s == [s[0]] + s[1..];
      var rest := InsertBy(x, s[1..], key);
      assert forall i :: 0 <= i < |rest| ==> key(rest[0]) <= key(rest[i]);
      [s[0]] + rest
  }

  /** Stable sort by key: rows with equal keys keep their input order. */
  function SortBy<T>(s: seq<T>, key: T -> real): (r: seq<T>)
    ensures |r| == |s|
    ensures SortedBy(r, key)
    ensures multiset(r) == multiset(s)
  {
    if s == [] then []
    else
      assert s == [s[0]] + s[1..];
      var rest := SortBy(s[1..], key);
      InsertBy(s[0], rest, key)
  }

  /** pandas `nsmallest(k, key)` (keep='first'): the k rows with the
      smallest keys in ascending key order, or all of them when s is shorter. */
  function NSmallest<T>(s: seq<T>, key: T -> real, k: int): (r: seq<T>)
    ensures |r| == if k <= 0 then 0 else MinNat(k, |s|)
    ensures SortedBy(r, key)
    ensures multiset(r) <= multiset(s)
  {
    var t := SortBy(s, key);
    var m := if k <= 0 then 0 else MinNat(k, |s|);
    assert t == t[..m] + t[m..];
    t[..m]
  }

  function MinNat(a: int, b: int): int
  {
    if a <= b then a else b
  }

  /** Every row nsmallest keeps is an element of the input. */
  lemma NSmallestMember<T>(s: seq<T>, key: T -> real, k: int, x: T)
    requires x in NSmallest(s, key, k)
    ensures x in s
  {
    assert x in multiset(NSmallest(s, key, k));
  }

  /** No dropped row has a smaller key than a kept row. */
  lemma NSmallestKeepsSmallest<T>(s: seq<T>, key: T -> real, k: int, a: nat, y: T)
    requires a < |NSmallest(s, key, k)|
    requires y in multiset(s) - multiset(NSmallest(s, key, k))
    ensures key(NSmallest(s, key, k)[a]) <= key(y)
  {
    var t := SortBy(s, key);
    var m := |NSmallest(s, key, k)|;
    assert NSmallest(s, key, k) == t[..m];
    MultisetSplit(t, m);
    var j := InDropped(t, m, y);
    assert t[..m][a] == t[a];
  }

  lemma MultisetSplit<T>(t: seq<T>, m: nat)
    requires m <= |t|
    ensures multiset(t) == multiset(t[..m]) + multiset(t[m..])
  {
    assert t == t[..m] + t[m..];
  }

  /** An element of the dropped part's multiset sits at some index at or after m. */
  lemma InDropped<T>(t: seq<T>, m: nat, y: T) returns (j: nat)
    requires m <= |t| && y in multiset(t[m..])
    ensures m <= j < |t| && t[j] == y
  {
    assert y in t[m..];
    var i :| 0 <= i < |t[m..]| && t[m..][i] == y;
    j := m + i;
  }

  /** The row of least key comes first in the sorted order. */
  lemma SortByFirstIsMin<T>(s: seq<T>, key: T -> real, y: T)
    requires y in s
    ensures key(SortBy(s, key)[0]) <= key(y)
  {
    var t := SortBy(s, key);
    assert y in multiset(t);
    var j :| 0 <= j < |t| && t[j] == y;
  }

  function Identity(x: real): real
  {
    x
  }

  lemma SortedElementInInput(s: seq<real>, k: nat)
    requires k < |s|
    ensures MinOf(s) <= SortBy(s, Identity)[k] <= MaxOf(s)
  {
    var t := SortBy(s, Identity);
    assert t[k] in multiset(t);
    assert t[k] in multiset(s);
    var i :| 0 <= i < |s| && s[i] == t[k];
  }

  /** numpy `median`: the middle value of the sorted values, or the mean of the two middle ones. */
  function Median(s: seq<real>): real
    requires |s| > 0
  {
    var t := SortBy(s, Identity);
    var n := |t|;
    if n % 2 == 1 then t[n / 2] else (t[n / 2 - 1] + t[n / 2]) / 2.0
  }

  /** The median lies between the smallest and the largest value. */
  lemma MedianBetween(s: seq<real>)
    requires |s| > 0
    ensures MinOf(s) <= Median(s) <= MaxOf(s)
  {
    var t := SortBy(s, Identity);
    var n := |t|;
    var h := n / 2;
    SortedElementInInput(s, h);
    if n % 2 == 0 {
      SortedElementInInput(s, h - 1);
      assert Identity(t[h - 1]) <= Identity(t[h]);
      assert Median(s) == (t[h - 1] + t[h]) / 2.0;
    } else {
      assert Median(s) == t[h];
    }
  }

  /** Arithmetic mean (numpy `mean`) of a non-empty sequence. */
  function Mean(s: seq<real>): (m: real)
    requires |s| > 0
  {
    SumReals(s) / |s| as real
  }

  function SumReals(s: seq<real>): real
  {
    if s == [] then 0.0 else s[0] + SumReals(s[1..])
  }

  function MinOf(s: seq<real>): (m: real)
    requires |s| > 0
    ensures forall i :: 0 <= i < |s| ==> m <= s[i]
  {
    if |s| == 1 then s[0] else var r := MinOf(s[1..]); if s[0] <= r then s[0] else r
  }

  /** The minimum is one of the values. */
  lemma {:induction false} MinOfIsElement(s: seq<real>)
    requires |s| > 0
    ensures MinOf(s) in s
  {
    if |s| > 1 {
      MinOfIsElement(s[1..]);
    }
  }

  function MaxOf(s: seq<real>): (m: real)
    requires |s| > 0
    ensures forall i :: 0 <= i < |s| ==> s[i] <= m
  {
    if |s| == 1 then s[0] else var r := MaxOf(s[1..]); if s[0] >= r then s[0] else r
  }

  /** The maximum is one of the values. */
  lemma {:induction false} MaxOfIsElement(s: seq<real>)
    requires |s| > 0
    ensures MaxOf(s) in s
  {
    if |s| > 1 {
      MaxOfIsElement(s[1..]);
    }
  }

  lemma {:induction false} SumRealsBounds(s: seq<real>, lo: real, hi: real)
    requires forall i :: 0 <= i < |s| ==> lo <= s[i] <= hi
    ensures |s| as real * lo <= SumReals(s) <= |s| as real * hi
    decreases |s|
  {
    if s != [] {
      SumRealsBounds(s[1..], lo, hi);
    }
  }

  /** The mean of values lies between their minimum and their maximum. */
  lemma MeanBetweenMinMax(s: seq<real>)
    requires |s| > 0
    ensures MinOf(s) <= Mean(s) <= MaxOf(s)
  {
    var lo, hi, n := MinOf(s), MaxOf(s), |s| as real;
    SumRealsBounds(s, lo, hi);
    DivBetween(SumReals(s), n, lo, hi);
    assert Mean(s) == SumReals(s) / n;
  }

  lemma DivBetween(a: real, n: real, lo: real, hi: real)
    requires n > 0.0 && n * lo <= a <= n * hi
    ensures lo <= a / n <= hi
  {
  }

  predicate StrictlyIncreasing(s: seq<int>)
  {
    forall a, b :: 0 <= a < b < |s| ==> s[a] < s[b]
  }

  /** Inserts x into a strictly increasing list unless it is already there. */
  function InsertSorted(x: int, s: seq<int>): (r: seq<int>)
    requires StrictlyIncreasing(s)
    ensures StrictlyIncreasing(r)
    ensures forall y :: y in r <==> y == x || y in s
  {
    if s == [] then [x]
    else if x < s[0] then
      assert forall y :: y in s ==> x < y by { IncreasingHeadLeast(s); }
      ConsIncreasing(x, s);
      [x] + s
    else if x == s[0] then s
    else
      var t := InsertSorted(x, s[1..]);
      assert forall y :: y in t ==> s[0] < y by { IncreasingHeadLeast(s); }
      ConsIncreasing(s[0], t);
      [s[0]] + t
  }

  lemma IncreasingHeadLeast(s: seq<int>)
    requires StrictlyIncreasing(s) && s != []
    ensures forall y :: y in s[1..] ==> s[0] < y
    ensures forall y :: y in s ==> s[0] <= y
  {
    forall y | y in s ensures s[0] <= y {
      var k :| 0 <= k < |s| && s[k] == y;
    }
    forall y | y in s[1..] ensures s[0] < y {
      var k :| 0 <= k < |s[1..]| && s[1..][k] == y;
      assert s[k + 1] == y;
    }
  }

  lemma ConsIncreasing(h: int, t: seq<int>)
    requires StrictlyIncreasing(t) && forall y :: y in t ==> h < y
    ensures StrictlyIncreasing([h] + t)
  {
    forall a, b | 0 <= a < b < |[h] + t| ensures ([h] + t)[a] < ([h] + t)[b] {
      assert ([h] + t)[b] == t[b - 1] && t[b - 1] in t;
      if a > 0 {
        assert ([h] + t)[a] == t[a - 1];
      }
    }
  }

  /** Python `sorted(list(set(xs)))`. */
  function SortedDistinct(xs: seq<int>): (r: seq<int>)
    ensures StrictlyIncreasing(r)
    ensures forall y :: y in r <==> y in xs
  {
    if xs == [] then [] else InsertSorted(xs[|xs| - 1], SortedDistinct(xs[..|xs| - 1]))
  }
}
