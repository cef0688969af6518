/** The numeric helper layer of the selector: lower-bound search and linear
    interpolation over `[key, value]` pairs, the binomial coefficient, the
    median, sampling without replacement, the empirical step CDF and the
    Kolmogorov-Smirnov critical value and distance. JavaScript numbers are
    modelled as exact reals. */
module Util {
  import opened Types

  // ---------------------------------------------------------------------
  // binary_search
  // ---------------------------------------------------------------------

  /** The keys (first coordinates) never decrease. */
  ghost predicate KeysSorted(data: seq<Point>) {
    forall i, j :: 0 <= i < j < |data| ==> data[i].0 <= data[j].0
  }

  ghost predicate KeysStrictlyIncreasing(data: seq<Point>) {
    forall i, j :: 0 <= i < j < |data| ==> data[i].0 < data[j].0
  }

  /** The negation of the guard both `binary_search` and `interp_array` use
      to reject `x`: a non-empty list whose first and last keys enclose `x`. */
  predicate InBounds(data: seq<Point>, x: real) {
    |data| >= 1 && data[0].0 <= x <= data[|data| - 1].0
  }

  /** The search loop of `binary_search` (the `first`/`count` form of C++'s
      `lower_bound`), one iteration per call. */
  function LowerBoundFrom(data: seq<Point>, x: real, first: nat, count: nat): (r: nat)
    requires first + count <= |data|
    ensures first <= r <= first + count
    decreases count
  {
    if count == 0 then first
    else
      var step := count / 2;
      var idx := first + step;
      if data[idx].0 < x then LowerBoundFrom(data, x, idx + 1, count - (step + 1))
      else LowerBoundFrom(data, x, first, step)
  }

  /** What `binary_search(data, x)` returns: -1 outside the bounds. */
  function LowerBound(data: seq<Point>, x: real): (r: int)
    ensures r == -1 <==> !InBounds(data, x)
    ensures r != -1 ==> 0 <= r <= |data|
  {
    if !InBounds(data, x) then -1 else LowerBoundFrom(data, x, 0, |data|)
  }

  /** The key just before index `i` is `< x` (or `i` is 0). */
  ghost predicate BelowAt(data: seq<Point>, x: real, i: nat) {
    i == 0 || (i <= |data| && data[i - 1].0 < x)
  }

  /** The key at index `i` is `>= x` (or `i` is past the end). */
  ghost predicate AboveAt(data: seq<Point>, x: real, i: nat) {
    i == |data| || (i < |data| && x <= data[i].0)
  }

  /** The loop keeps a crossing point between `first - 1` and `first + count`:
      the key before the window is `< x` and the key after it is `>= x`.
      No ordering of the keys is needed for this. */
  lemma {:induction false} LowerBoundFromCrossing(data: seq<Point>, x: real, first: nat, count: nat)
    requires first + count <= |data|
    requires BelowAt(data, x, first) && AboveAt(data, x, first + count)
    ensures BelowAt(data, x, LowerBoundFrom(data, x, first, count))
    ensures AboveAt(data, x, LowerBoundFrom(data, x, first, count))
    decreases count
  {
    if count > 0 {
      var step := count / 2;
      var idx := first + step;
      if data[idx].0 < x {
        LowerBoundFromCrossing(data, x, idx + 1, count - (step + 1));
      } else {
        LowerBoundFromCrossing(data, x, first, step);
      }
    }
  }

  /** For an `x` inside the bounds the search returns an index `i` of the
      list with `data[i-1].0 < x <= data[i].0` (or `i == 0`); with sorted keys
      every earlier key is `< x`, so `i` is the first index whose key is
      `>= x` (the first of several duplicates). */
  lemma LowerBoundSpec(data: seq<Point>, x: real)
    ensures var r := LowerBound(data, x);
      && (r == -1 <==> !InBounds(data, x))
      && (r != -1 ==> 0 <= r < |data| && x <= data[r].0 && (r == 0 || data[r - 1].0 < x))
      && (r != -1 && KeysSorted(data) ==> forall j :: 0 <= j < r ==> data[j].0 < x)
  {
    if InBounds(data, x) {
      LowerBoundFromCrossing(data, x, 0, |data|);
      var r := LowerBound(data, x);
      if KeysSorted(data) {
        forall j | 0 <= j < r ensures data[j].0 < x {
          assert data[j].0 <= data[r - 1].0;
        }
      }
    }
  }

  method BinarySearch(data: seq<Point>, x: real) returns (r: int)
    ensures r == LowerBound(data, x)
    ensures r == -1 <==> |data| < 1 || x < data[0].0 || x > data[|data| - 1].0
    ensures r != -1 ==> 0 <= r < |data| && x <= data[r].0 && (r == 0 || data[r - 1].0 < x)
    ensures r != -1 && KeysSorted(data) ==> forall j :: 0 <= j < r ==> data[j].0 < x
  {
    if |data| < 1 || x < data[0].0 || x > data[|data| - 1].0 {
      LowerBoundSpec(data, x);
      return -1;
    }
    var count: nat := |data|;
    var first: nat := 0;
    while count > 0
      invariant first + count <= |data|
      invariant LowerBoundFrom(data, x, first, count) == LowerBoundFrom(data, x, 0, |data|)
      decreases count
    {
      var idx := first;
      var step := count / 2;
      idx := idx + step;
      if data[idx].0 < x {
        first := idx + 1;
        count := count - (step + 1);
      } else {
        count := step;
      }
    }
    r := first;
    LowerBoundSpec(data, x);
  }

  /** The unit tests' odd-length list of keys `0 .. 4`: every key is found
      at its own index, a key between two is found at the upper one, and
      keys outside `[0, 4]` give -1. */
  lemma BinarySearchOddList()
    ensures var odd := [(0.0, 0.0), (1.0, 0.0), (2.0, 0.0), (3.0, 0.0), (4.0, 0.0)];
      && LowerBound(odd, 0.0) == 0 && LowerBound(odd, 1.0) == 1 && LowerBound(odd, 2.0) == 2
      && LowerBound(odd, 3.0) == 3 && LowerBound(odd, 4.0) == 4 && LowerBound(odd, -1.0) == -1
      && LowerBound(odd, 0.5) == 1 && LowerBound(odd, 3.9) == 4 && LowerBound(odd, 5.0) == -1
  {
    var odd := [(0.0, 0.0), (1.0, 0.0), (2.0, 0.0), (3.0, 0.0), (4.0, 0.0)];
    LowerBoundSpec(odd, 0.0);
    LowerBoundSpec(odd, 1.0);
    LowerBoundSpec(odd, 2.0);
    LowerBoundSpec(odd, 3.0);
    LowerBoundSpec(odd, 4.0);
    LowerBoundSpec(odd, 0.5);
    LowerBoundSpec(odd, 3.9);
  }

  /** The unit tests' even-length list of keys `0 .. 3`: the same, with
      `3.9` now past the last key. */
  lemma BinarySearchEvenList()
    ensures var even := [(0.0, 0.0), (1.0, 0.0), (2.0, 0.0), (3.0, 0.0)];
      && LowerBound(even, 0.0) == 0 && LowerBound(even, 1.0) == 1 && LowerBound(even, 2.0) == 2
      && LowerBound(even, 3.0) == 3 && LowerBound(even, -1.0) == -1 && LowerBound(even, 0.5) == 1
      && LowerBound(even, 1.999) == 2 && LowerBound(even, 3.9) == -1 && LowerBound(even, -0.1) == -1
  {
    var even := [(0.0, 0.0), (1.0, 0.0), (2.0, 0.0), (3.0, 0.0)];
    LowerBoundSpec(even, 0.0);
    LowerBoundSpec(even, 1.0);
    LowerBoundSpec(even, 2.0);
    LowerBoundSpec(even, 3.0);
    LowerBoundSpec(even, 0.5);
    LowerBoundSpec(even, 1.999);
  }

  /** The unit tests' list with a run of duplicate keys: the first of the
      run is found, and every key after the run goes to the last row. */
  lemma BinarySearchDuplicates()
    ensures var dups := [(1.0, 0.0), (1.0, 0.0), (1.0, 0.0), (3.0, 0.0)];
      && LowerBound(dups, 0.0) == -1 && LowerBound(dups, 1.0) == 0 && LowerBound(dups, 1.5) == 3
      && LowerBound(dups, 2.0) == 3 && LowerBound(dups, 2.5) == 3 && LowerBound(dups, 3.0) == 3
      && LowerBound(dups, 4.0) == -1
  {
    var dups := [(1.0, 0.0), (1.0, 0.0), (1.0, 0.0), (3.0, 0.0)];
    LowerBoundSpec(dups, 1.0);
    LowerBoundSpec(dups, 1.5);
    LowerBoundSpec(dups, 2.0);
    LowerBoundSpec(dups, 2.5);
    LowerBoundSpec(dups, 3.0);
  }

  // ---------------------------------------------------------------------
  // interp and interp_array
  // ---------------------------------------------------------------------

  function MaxReal(a: real, b: real): real { if a >= b then a else b }

  /** `interp(a, b, f)`: the point a fraction `f` of the way from `a` to `b`. */
  function Interp(a: real, b: real, f: real): (r: real)
    ensures f == 0.0 ==> r == a
    ensures f == 1.0 ==> r == b
  {
    a + f * (b - a)
  }

  /** A fraction in `[0, 1]` of the way from `a` to `b` stays between them. */
  lemma InterpBetween(a: real, b: real, f: real)
    requires 0.0 <= f <= 1.0
    ensures MinReal(a, b) <= Interp(a, b, f) <= MaxReal(a, b)
  {
    var d := b - a;
    Distributes(f, d);
    if d >= 0.0 {
      NonNegativeProduct(f, d);
      NonNegativeProduct(1.0 - f, d);
    } else {
      NonNegativeProduct(f, -d);
      NonNegativeProduct(1.0 - f, -d);
    }
  }

  lemma NonNegativeProduct(a: real, b: real)
    requires a >= 0.0 && b >= 0.0
    ensures a * b >= 0.0
  {
  }

  lemma Distributes(f: real, d: real)
    ensures (1.0 - f) * d == d - f * d
    ensures f * (-d) == -(f * d)
  {
  }

  lemma QuotientBounds(a: real, b: real)
    requires 0.0 < a <= b
    ensures 0.0 < a / b <= 1.0
  {
    var f := a / b;
    assert f * b == a;
  }

  lemma QuotientOfEqual(a: real, b: real)
    requires b != 0.0 && a == b
    ensures a / b == 1.0
  {
  }

  /** `interp_array(data, x)`: `null` outside the bounds, otherwise linear
      interpolation between the pair the search finds and the one before it. */
  function InterpArray(data: seq<Point>, x: real): (r: Option<real>)
    ensures r.None? <==> !InBounds(data, x)
  {
    if |data| < 1 || x < data[0].0 || x > data[|data| - 1].0 then None
    else
      LowerBoundSpec(data, x);
      var i := LowerBound(data, x);
      if i == 0 || data[i].0 == data[i - 1].0 then Some(data[i].1)
      else Some(Interp(data[i - 1].1, data[i].1, (x - data[i - 1].0) / (data[i].0 - data[i - 1].0)))
  }

  /** The test `data[i][0] == data[i-1][0]` in `interp_array` never holds:
      inside the bounds the search lands on index 0 or just after a strictly
      smaller key, whatever the order of the keys. Only the `i == 0` half of
      that branch returns a value without interpolating. */
  lemma EqualKeysBranchUnreachable(data: seq<Point>, x: real)
    requires InBounds(data, x)
    ensures var i := LowerBound(data, x);
      i == 0 || (0 < i < |data| && data[i - 1].0 < data[i].0)
  {
    LowerBoundSpec(data, x);
  }

  /** Inside the bounds the result is the value at index 0 when the search
      lands there (so `x` is the first key); otherwise the search brackets `x`
      strictly from below, the divisor is positive and the result lies
      between the two bracketing values. */
  lemma InterpArrayBracket(data: seq<Point>, x: real)
    requires InBounds(data, x)
    ensures var i := LowerBound(data, x);
      && 0 <= i < |data|
      && (i == 0 ==> x == data[0].0 && InterpArray(data, x) == Some(data[0].1))
      && (i > 0 ==> data[i - 1].0 < x <= data[i].0)
      && (i > 0 ==> MinReal(data[i - 1].1, data[i].1) <= InterpArray(data, x).value
                    <= MaxReal(data[i - 1].1, data[i].1))
  {
    LowerBoundSpec(data, x);
    var i := LowerBound(data, x);
    if i > 0 {
      var x0, x1 := data[i - 1].0, data[i].0;
      QuotientBounds(x - x0, x1 - x0);
      InterpBetween(data[i - 1].1, data[i].1, (x - x0) / (x1 - x0));
    }
  }

  /** With sorted keys, interpolating at a key returns the value stored with
      the first occurrence of that key. */
  lemma InterpArrayAtKey(data: seq<Point>, j: nat)
    requires KeysSorted(data)
    requires j < |data|
    ensures exists i :: 0 <= i <= j && data[i].0 == data[j].0
                        && (forall m :: 0 <= m < i ==> data[m].0 < data[j].0)
                        && InterpArray(data, data[j].0) == Some(data[i].1)
  {
    var x := data[j].0;
    assert data[0].0 <= x <= data[|data| - 1].0;
    LowerBoundSpec(data, x);
    var i := LowerBound(data, x);
    assert i <= j;
    assert data[i].0 <= x;
    InterpArrayExact(data, x);
    assert 0 <= i <= j && data[i].0 == data[j].0
           && (forall m :: 0 <= m < i ==> data[m].0 < data[j].0)
           && InterpArray(data, data[j].0) == Some(data[i].1);
  }

  /** When the search lands on a pair whose key is `x`, that pair's value is
      returned. */
  lemma InterpArrayExact(data: seq<Point>, x: real)
    requires InBounds(data, x)
    requires LowerBound(data, x) < |data| && data[LowerBound(data, x)].0 == x
    ensures InterpArray(data, x) == Some(data[LowerBound(data, x)].1)
  {
    LowerBoundSpec(data, x);
    var i := LowerBound(data, x);
    if i > 0 && data[i].0 != data[i - 1].0 {
      QuotientOfEqual(x - data[i - 1].0, data[i].0 - data[i - 1].0);
    }
  }

  /** With strictly increasing keys, interpolating at key `j` returns value `j`. */
  lemma InterpArrayAtDistinctKey(data: seq<Point>, j: nat)
    requires KeysStrictlyIncreasing(data)
    requires j < |data|
    ensures InterpArray(data, data[j].0) == Some(data[j].1)
  {
    InterpArrayAtKey(data, j);
    var i :| 0 <= i <= j && data[i].0 == data[j].0 && InterpArray(data, data[j].0) == Some(data[i].1);
    assert i == j;
  }

  // ---------------------------------------------------------------------
  // Sorting (Array.prototype.sort with an ascending numeric comparator)
  // ---------------------------------------------------------------------

  ghost predicate SortedBy<T>(s: seq<T>, key: T -> real) {
    forall i, j :: 0 <= i < j < |s| ==> key(s[i]) <= key(s[j])
  }

  ghost predicate Sorted(s: seq<real>) {
    forall i, j :: 0 <= i < j < |s| ==> s[i] <= s[j]
  }

  function InsertBy<T(==)>(x: T, s: seq<T>, key: T -> real): (r: seq<T>)
    ensures multiset(r) == multiset(s) + multiset{x}
  {
    if s == [] || key(x) <= key(s[0]) then [x] + s
    else
      assert s == [s[0]] + s[1..];
      [s[0]] + InsertBy(x, s[1..], key)
  }

  /** Inserting into a sorted sequence keeps it sorted. */
  lemma {:induction false} InsertBySorted<T>(x: T, s: seq<T>, key: T -> real)
    requires SortedBy(s, key)
    ensures SortedBy(InsertBy(x, s, key), key)
  {
    if s != [] && key(s[0]) < key(x) {
      var t := InsertBy(x, s[1..], key);
      InsertBySorted(x, s[1..], key);
      InsertByKeepsBound(x, s[1..], key, key(s[0]));
      assert forall k :: 0 <= k < |t| ==> key(s[0]) <= key(t[k]);
    }
  }

  /** Inserting an element whose key is at least `lo` into a list whose keys
      are all at least `lo` gives such a list. */
  lemma {:induction false} InsertByKeepsBound<T>(x: T, s: seq<T>, key: T -> real, lo: real)
    requires lo <= key(x)
    requires forall k :: 0 <= k < |s| ==> lo <= key(s[k])
    ensures forall k :: 0 <= k < |InsertBy(x, s, key)| ==> lo <= key(InsertBy(x, s, key)[k])
  {
    if s != [] && key(x) > key(s[0]) {
      InsertByKeepsBound(x, s[1..], key, lo);
    }
  }

  /** An ascending sort by `key`: sorted, and a permutation of the input. */
  function SortBy<T(==)>(s: seq<T>, key: T -> real): (r: seq<T>)
    ensures SortedBy(r, key)
    ensures multiset(r) == multiset(s)
    ensures |r| == |s|
  {
    if s == [] then []
    else
      var t := SortBy(s[1..], key);
      InsertBySorted(s[0], t, key);
      assert s == [s[0]] + s[1..];
      assert |multiset(InsertBy(s[0], t, key))| == |s|;
      InsertBy(s[0], t, key)
  }

  function Identity(x: real): real { x }

  /** `values.slice(0).sort(function(a, b) { return a - b; })`. */
  function Sort(values: seq<real>): (r: seq<real>)
    ensures Sorted(r)
    ensures multiset(r) == multiset(values)
    ensures |r| == |values|
  {
    SortBy(values, Identity)
  }

  // ---------------------------------------------------------------------
  // build_cdf
  // ---------------------------------------------------------------------

  /** The empirical step CDF of the first `m` of the sorted values: two
      points per value, at heights `j/n` and `(j+1)/n` for `n == |sorted|`. */
  function StepCdfUpTo(sorted: seq<real>, m: nat): (cdf: seq<Point>)
    requires m <= |sorted|
    decreases m
  {
    if m == 0 then []
    else
      var n := |sorted| as real;
      StepCdfUpTo(sorted, m - 1) + [(sorted[m - 1], (m - 1) as real / n), (sorted[m - 1], m as real / n)]
  }

  function StepCdf(sorted: seq<real>): seq<Point> {
    StepCdfUpTo(sorted, |sorted|)
  }

  /** Point `p` of the step CDF belongs to value `p / 2`; its height is
      `p / 2` steps for an even `p` and one more for an odd `p`. */
  lemma {:induction false} StepCdfUpToAt(sorted: seq<real>, m: nat, p: nat)
    requires m <= |sorted|
    requires p < 2 * m
    ensures |StepCdfUpTo(sorted, m)| == 2 * m
    ensures StepCdfUpTo(sorted, m)[p]
            == (sorted[p / 2], (p / 2 + p % 2) as real / |sorted| as real)
  {
    if m > 0 {
      if p < 2 * (m - 1) {
        StepCdfUpToAt(sorted, m - 1, p);
      } else {
        if m - 1 > 0 {
          StepCdfUpToAt(sorted, m - 1, 0);
        }
        assert |StepCdfUpTo(sorted, m - 1)| == 2 * (m - 1);
      }
    }
  }

  /** The points `2j` and `2j+1` of the step CDF. */
  lemma StepCdfShape(sorted: seq<real>)
    ensures |StepCdf(sorted)| == 2 * |sorted|
    ensures forall j :: 0 <= j < |sorted| ==>
      && StepCdf(sorted)[2 * j] == (sorted[j], j as real / |sorted| as real)
      && StepCdf(sorted)[2 * j + 1] == (sorted[j], (j + 1) as real / |sorted| as real)
  {
    if |sorted| == 0 {
    } else {
      StepCdfUpToAt(sorted, |sorted|, 0);
      forall j | 0 <= j < |sorted|
        ensures StepCdf(sorted)[2 * j] == (sorted[j], j as real / |sorted| as real)
        ensures StepCdf(sorted)[2 * j + 1] == (sorted[j], (j + 1) as real / |sorted| as real)
      {
        StepCdfUpToAt(sorted, |sorted|, 2 * j);
        StepCdfUpToAt(sorted, |sorted|, 2 * j + 1);
      }
    }
  }

  /** Heights of the step CDF lie in `[0, 1]` and the last one is 1. */
  lemma StepCdfHeights(sorted: seq<real>)
    ensures var cdf := StepCdf(sorted);
      && |cdf| == 2 * |sorted|
      && (forall p :: 0 <= p < |cdf| ==> 0.0 <= cdf[p].1 <= 1.0)
      && (|sorted| > 0 ==> cdf[|cdf| - 1].1 == 1.0)
  {
    var n := |sorted|;
    var cdf := StepCdf(sorted);
    StepCdfShape(sorted);
    if n > 0 {
      forall p | 0 <= p < |cdf| ensures 0.0 <= cdf[p].1 <= 1.0 {
        StepCdfUpToAt(sorted, n, p);
        HeightBounds(p / 2 + p % 2, n);
      }
      StepCdfUpToAt(sorted, n, 2 * n - 1);
    }
  }

  /** For sorted values both coordinates of the step CDF never decrease. */
  lemma StepCdfMonotone(sorted: seq<real>)
    requires Sorted(sorted)
    ensures var cdf := StepCdf(sorted);
      forall p, q :: 0 <= p < q < |cdf| ==> cdf[p].0 <= cdf[q].0 && cdf[p].1 <= cdf[q].1
  {
    var n := |sorted|;
    var cdf := StepCdf(sorted);
    StepCdfShape(sorted);
    forall p, q | 0 <= p < q < |cdf| ensures cdf[p].0 <= cdf[q].0 && cdf[p].1 <= cdf[q].1 {
      StepCdfUpToAt(sorted, n, p);
      StepCdfUpToAt(sorted, n, q);
      HeightMonotone(p / 2 + p % 2, q / 2 + q % 2, n);
    }
  }

  lemma HeightBounds(a: nat, n: nat)
    requires 0 < n && a <= 2 * n && a <= n
    ensures 0.0 <= a as real / n as real <= 1.0
  {
  }

  lemma HeightMonotone(a: nat, b: nat, n: nat)
    requires 0 < n && a <= b
    ensures a as real / n as real <= b as real / n as real
  {
  }

  /** `build_cdf(values)`: sorts a copy and pushes two points per value. */
  method BuildCdf(values: seq<real>) returns (cdf: seq<Point>)
    ensures cdf == StepCdf(Sort(values))
    ensures |cdf| == 2 * |values|
    ensures forall j :: 0 <= j < |values| ==>
      && cdf[2 * j] == (Sort(values)[j], j as real / |values| as real)
      && cdf[2 * j + 1] == (Sort(values)[j], (j + 1) as real / |values| as real)
    ensures forall p, q :: 0 <= p < q < |cdf| ==> cdf[p].0 <= cdf[q].0 && cdf[p].1 <= cdf[q].1
    ensures |values| > 0 ==> cdf[|cdf| - 1].1 == 1.0
  {
    var numValues := |values|;
    var sortedValues := Sort(values);
    var count := 0.0;
    cdf := [];
    for j := 0 to numValues
      invariant count == j as real
      invariant cdf == StepCdfUpTo(sortedValues, j)
    {
      cdf := cdf + [(sortedValues[j], count / numValues as real)];
      count := count + 1.0;
      cdf := cdf + [(sortedValues[j], count / numValues as real)];
    }
    StepCdfShape(sortedValues);
    StepCdfHeights(sortedValues);
    StepCdfMonotone(sortedValues);
  }

  // ---------------------------------------------------------------------
  // binomial
  // ---------------------------------------------------------------------

  /** The binomial coefficient by Pascal's rule: the number of `k`-element
      subsets of an `n`-element set. */
  function Choose(n: nat, k: nat): nat {
    if k == 0 then 1
    else if n == 0 then 0
    else Choose(n - 1, k - 1) + Choose(n - 1, k)
  }

  lemma {:induction false} ChooseAboveN(n: nat, k: nat)
    requires k > n
    ensures Choose(n, k) == 0
  {
    if n > 0 {
      ChooseAboveN(n - 1, k - 1);
      ChooseAboveN(n - 1, k);
    }
  }

  lemma {:induction false} ChooseAtLeastOne(n: nat, k: nat)
    requires k <= n
    ensures Choose(n, k) >= 1
  {
    if k > 0 {
      ChooseAtLeastOne(n - 1, k - 1);
    }
  }

  /** The absorption identity `(k+1) C(n+1, k+1) == (n+1) C(n, k)`. */
  lemma {:induction false} ChooseAbsorption(n: nat, k: nat)
    ensures (k + 1) * Choose(n + 1, k + 1) == (n + 1) * Choose(n, k)
    decreases n
  {
    if n == 0 {
      if k > 0 {
        ChooseAboveN(0, k);
        ChooseAboveN(1, k + 1);
      }
    } else {
      var a, b := Choose(n, k), Choose(n, k + 1);
      assert Choose(n + 1, k + 1) == a + b;
      ChooseAbsorption(n - 1, k);
      var c2 := Choose(n - 1, k);
      assert (k + 1) * b == n * c2;
      if k == 0 {
        assert a == 1 && c2 == 1;
      } else {
        ChooseAbsorption(n - 1, k - 1);
        var c1 := Choose(n - 1, k - 1);
        assert k * a == n * c1;
        assert a == c1 + c2;
        AbsorptionAlgebra(n, k, a, b, c1, c2);
      }
    }
  }

  lemma AbsorptionAlgebra(n: int, k: int, a: int, b: int, c1: int, c2: int)
    requires a == c1 + c2 && k * a == n * c1 && (k + 1) * b == n * c2
    ensures (k + 1) * (a + b) == (n + 1) * a
  {
    assert (k + 1) * (a + b) == k * a + a + (k + 1) * b;
    assert n * c1 + n * c2 == n * a;
  }

  /** The factor the loop of `binomial` applies at step `k`:
      `C(n, k+1) (k+1) == C(n, k) (n-k)`. */
  lemma ChooseStep(n: nat, k: nat)
    requires k <= n
    ensures Choose(n, k + 1) * (k + 1) == Choose(n, k) * (n - k)
  {
    if n == 0 {
      ChooseAboveN(0, 1);
    } else {
      ChooseAbsorption(n - 1, k);
      var b, c2 := Choose(n, k + 1), Choose(n - 1, k);
      assert (k + 1) * b == n * c2;
      if k == 0 {
        assert Choose(n, 0) == 1 && c2 == 1;
      } else {
        ChooseAbsorption(n - 1, k - 1);
        var a, c1 := Choose(n, k), Choose(n - 1, k - 1);
        assert a == c1 + c2;
        assert k * a == n * c1;
        StepAlgebra(n, k, a, b, c1, c2);
      }
    }
  }

  lemma StepAlgebra(n: int, k: int, a: int, b: int, c1: int, c2: int)
    requires a == c1 + c2 && k * a == n * c1 && (k + 1) * b == n * c2
    ensures b * (k + 1) == a * (n - k)
  {
    assert a * (n - k) == n * a - k * a;
    assert n * a == n * c1 + n * c2;
  }

  lemma DivideOut(a: int, b: int, p: int, q: int)
    requires q > 0 && a * q == b * p
    ensures (b as real) * p as real / q as real == a as real
  {
    assert (a * q) as real == a as real * q as real;
    assert (b * p) as real == b as real * p as real;
  }

  /** One iteration of the loop of `binomial` in exact arithmetic. */
  lemma BinomialStep(n: nat, i: nat)
    ensures (Choose(n, i) as real) * (n - i) as real / (i + 1) as real == Choose(n, i + 1) as real
  {
    var a, b := Choose(n, i + 1), Choose(n, i);
    if i <= n {
      ChooseStep(n, i);
    } else {
      ChooseAboveN(n, i);
      ChooseAboveN(n, i + 1);
    }
    assert a * (i + 1) == b * (n - i);
    DivideOut(a, b, n - i, i + 1);
  }

  /** `binomial(N, K)`: the product of `(N-k)/(k+1)` for `k < K`. With exact
      arithmetic and a natural `N` it is the binomial coefficient, so 0 when
      `K > N` (the factor `N-N` is 0), and it is 1 when the loop does not run. */
  method Binomial(n: int, k: int) returns (res: real)
    ensures k <= 0 ==> res == 1.0
    ensures n >= 0 && k >= 0 ==> res == Choose(n, k) as real
  {
    res := 1.0;
    var i := 0;
    while i < k
      invariant 0 <= i <= Count(k)
      invariant i == 0 ==> res == 1.0
      invariant n >= 0 ==> res == Choose(n, i) as real
    {
      if n >= 0 {
        BinomialStep(n, i);
      }
      res := res * (n - i) as real / (i + 1) as real;
      i := i + 1;
    }
  }

  // ---------------------------------------------------------------------
  // median
  // ---------------------------------------------------------------------

  /** `median(sortedvalues)`: `null` for an empty list, the middle value for
      an odd length, the mean of the two middle values for an even length. */
  function Median(sortedvalues: seq<real>): (r: Option<real>)
    ensures r.None? <==> |sortedvalues| == 0
  {
    if |sortedvalues| < 1 then None
    else
      var half := |sortedvalues| / 2;
      if |sortedvalues| % 2 == 1 then Some(sortedvalues[half])
      else Some((sortedvalues[half - 1] + sortedvalues[half]) / 2.0)
  }

  /** On sorted input the median splits the values: the first half (rounded
      up) lie at or below it and the second half at or above it. */
  lemma MedianSplits(s: seq<real>)
    requires Sorted(s) && |s| > 0
    ensures forall i :: 0 <= i < (|s| + 1) / 2 ==> s[i] <= Median(s).value
    ensures forall i :: |s| / 2 <= i < |s| ==> Median(s).value <= s[i]
  {
    var m := Median(s).value;
    var half := |s| / 2;
    forall i | 0 <= i < (|s| + 1) / 2 ensures s[i] <= m {
      if |s| % 2 == 0 {
        assert s[i] <= s[half - 1] <= s[half];
      } else {
        assert s[i] <= s[half];
      }
    }
    forall i | half <= i < |s| ensures m <= s[i] {
      if |s| % 2 == 0 {
        assert s[half - 1] <= s[half] <= s[i];
      }
    }
  }

  // ---------------------------------------------------------------------
  // sample
  // ---------------------------------------------------------------------

  /** `shuffled` is a permutation of `0 .. n-1`: `n` distinct values below `n`. */
  ghost predicate IsPermutationOfRange(shuffled: seq<nat>, n: nat) {
    && |shuffled| == n
    && (forall a :: 0 <= a < n ==> shuffled[a] < n)
    && (forall a, b :: 0 <= a < b < n ==> shuffled[a] != shuffled[b])
  }

  /** How many indices `sample(n, k)` returns, and how many `Math.random()`
      draws it consumes: `min(n, k)`, or none when that is negative. */
  function SampleSize(n: nat, k: int): (r: nat)
    ensures r <= n
    ensures 0 <= k <= n ==> r == k
    ensures k > n ==> r == n
  {
    Count(Min(n, k))
  }

  ghost predicate UnitDraws(draws: seq<real>) {
    forall t :: 0 <= t < |draws| ==> 0.0 <= draws[t] < 1.0
  }

  /** `Math.floor(m * u)` for a draw `u` in `[0, 1)` lies in `[0, max(m, 1))`. */
  lemma FloorOfDraw(m: nat, u: real)
    requires 0.0 <= u < 1.0
    ensures 0 <= (m as real * u).Floor
    ensures m > 0 ==> (m as real * u).Floor < m
    ensures m == 0 ==> (m as real * u).Floor == 0
  {
    NonNegativeProduct(m as real, u);
    if m > 0 {
      assert m as real * u < m as real by {
        PositiveProduct(m as real, 1.0 - u);
      }
    }
  }

  lemma PositiveProduct(a: real, b: real)
    requires a > 0.0 && b > 0.0
    ensures a * b > 0.0
  {
  }

  /** `Math.floor(m * Math.random())` with the draw `u` made explicit. */
  function Pick(m: nat, u: real): (r: nat)
    requires 0.0 <= u < 1.0
    ensures m > 0 ==> r < m
    ensures m == 0 ==> r == 0
  {
    FloorOfDraw(m, u);
    (m as real * u).Floor
  }

  /** One swap of the partial Fisher-Yates shuffle keeps a permutation. */
  method Swap(shuffled: array<nat>, a: nat, b: nat)
    requires a < shuffled.Length && b < shuffled.Length
    modifies shuffled
    ensures shuffled[a] == old(shuffled[b]) && shuffled[b] == old(shuffled[a])
    ensures forall m :: 0 <= m < shuffled.Length && m != a && m != b ==> shuffled[m] == old(shuffled[m])
    ensures IsPermutationOfRange(old(shuffled[..]), shuffled.Length) ==> IsPermutationOfRange(shuffled[..], shuffled.Length)
  {
    var temp := shuffled[a];
    shuffled[a] := shuffled[b];
    shuffled[b] := temp;
  }

  /** `sample(n, k)` with the index rule corrected to `floor((i+1) * u)`:
      `min(n, k)` distinct indices below `n` (none when `k <= 0`), read from
      the tail of a permutation of `0 .. n-1`. The `t`-th swap uses draw
      `draws[t]`. Slot `i` swaps with any slot `0 .. i`, so the last slot
      receives `floor(n * u)` for the first draw `u`, which can be any index
      below `n`. */
  method Sample(n: nat, k: int, draws: seq<real>) returns (r: seq<nat>)
    requires |draws| >= SampleSize(n, k) && UnitDraws(draws)
    ensures |r| == SampleSize(n, k)
    ensures forall a :: 0 <= a < |r| ==> r[a] < n
    ensures forall a, b :: 0 <= a < b < |r| ==> r[a] != r[b]
    ensures |r| > 0 ==> r[|r| - 1] == Pick(n, draws[0])
  {
    var shuffled := new nat[n](j => j);
    var i := n;
    var lo := n - SampleSize(n, k);
    var t := 0;
    while i > lo
      invariant lo <= i <= n && t == n - i
      invariant IsPermutationOfRange(shuffled[..], n)
      invariant t == 0 ==> forall a :: 0 <= a < n ==> shuffled[a] == a
      invariant t > 0 ==> shuffled[n - 1] == Pick(n, draws[0])
    {
      i := i - 1;
      var index := Pick(i + 1, draws[t]);
      Swap(shuffled, index, i);
      t := t + 1;
    }
    r := shuffled[lo..];
  }

  /** `sample(n, k)` as written: the index is `floor(i * u)`, so slot `i`
      only ever swaps with a slot strictly below it (for `i > 0`). The last
      slot then receives `floor((n-1) * u)`: the final sampled index is
      never `n - 1` once `n >= 2`, and `sample(n, 1)` never returns `[n-1]`. */
  method SampleAsWritten(n: nat, k: int, draws: seq<real>) returns (r: seq<nat>)
    requires |draws| >= SampleSize(n, k) && UnitDraws(draws)
    ensures |r| == SampleSize(n, k)
    ensures forall a :: 0 <= a < |r| ==> r[a] < n
    ensures forall a, b :: 0 <= a < b < |r| ==> r[a] != r[b]
    ensures |r| > 0 ==> r[|r| - 1] == Pick(n - 1, draws[0])
    ensures |r| > 0 && n >= 2 ==> r[|r| - 1] < n - 1
  {
    var shuffled := new nat[n](j => j);
    var i := n;
    var lo := n - SampleSize(n, k);
    var t := 0;
    while i > lo
      invariant lo <= i <= n && t == n - i
      invariant IsPermutationOfRange(shuffled[..], n)
      invariant t == 0 ==> forall a :: 0 <= a < n ==> shuffled[a] == a
      invariant t > 0 ==> shuffled[n - 1] == Pick(n - 1, draws[0])
    {
      i := i - 1;
      var index := Pick(i, draws[t]);
      Swap(shuffled, index, i);
      t := t + 1;
    }
    r := shuffled[lo..];
  }

  /** The draw `(n-1)/n` makes the corrected shuffle pick index `n - 1`
      first; by `FloorOfDraw` no draw does so in the shuffle as written. */
  lemma LastIndexReachable(n: nat)
    requires n >= 2
    ensures var u := (n - 1) as real / n as real;
      0.0 <= u < 1.0 && Pick(n, u) == n - 1
  {
    var u := (n - 1) as real / n as real;
    assert n as real * u == (n - 1) as real;
    QuotientBounds((n - 1) as real, n as real);
  }

  // ---------------------------------------------------------------------
  // ks_critical_value (Miller's table, n <= 20)
  // ---------------------------------------------------------------------

  /** The one-sided significance levels heading the columns of the table. */
  const Alpha1Columns: seq<real> := [0.00500, 0.01000, 0.02500, 0.05000, 0.10000]

  /** Miller's exact one-sample Kolmogorov-Smirnov critical values: row
      `n - 1` for sample size `n`, one column per entry of `Alpha1Columns`. */
  const MillerExact: seq<seq<real>> := [
      [0.99500, 0.99000, 0.97500, 0.95000, 0.90000],
      [0.92929, 0.90000, 0.84189, 0.77639, 0.68377],
      [0.82900, 0.78456, 0.70760, 0.63604, 0.56481],
      [0.73424, 0.68887, 0.62394, 0.56522, 0.49265],
      [0.66853, 0.62718, 0.56328, 0.50945, 0.44698],
      [0.61661, 0.57741, 0.51926, 0.46799, 0.41037],
      [0.57581, 0.53844, 0.48342, 0.43607, 0.38148],
      [0.54179, 0.50654, 0.45427, 0.40962, 0.35831],
      [0.51332, 0.47960, 0.43001, 0.38746, 0.33910],
      [0.48893, 0.45662, 0.40925, 0.36866, 0.32260],
      [0.46770, 0.43670, 0.39122, 0.35242, 0.30829],
      [0.44905, 0.41918, 0.37543, 0.33815, 0.29577],
      [0.43247, 0.40362, 0.36143, 0.32549, 0.28470],
      [0.41762, 0.38970, 0.34890, 0.31417, 0.27481],
      [0.40420, 0.37713, 0.33760, 0.30397, 0.26588],
      [0.39201, 0.36571, 0.32733, 0.29472, 0.25778],
      [0.38086, 0.35528, 0.31796, 0.28627, 0.25039],
      [0.37062, 0.34569, 0.30936, 0.27851, 0.24360],
      [0.36117, 0.33685, 0.30143, 0.27136, 0.23735],
      [0.35241, 0.32866, 0.29408, 0.26473, 0.23156]]

  /** The `data` pairs the table branch builds for sample size `n`. */
  function TableRow(n: int): (row: seq<Point>)
    requires 1 <= n <= 20
    ensures |row| == 5
    ensures forall c :: 0 <= c < 5 ==> row[c] == (Alpha1Columns[c], MillerExact[n - 1][c])
  {
    seq(5, c requires 0 <= c < 5 => (Alpha1Columns[c], MillerExact[n - 1][c]))
  }

  /** Each row of the table lies between its `0.10` entry and its `0.005`
      entry. */
  lemma RowBounds(n: int)
    requires 1 <= n <= 20
    ensures forall c :: 0 <= c < 5 ==> MillerExact[n - 1][4] <= TableRow(n)[c].1 <= MillerExact[n - 1][0]
  {
  }

  lemma TableRowKeysIncreasing(n: int)
    requires 1 <= n <= 20
    ensures KeysStrictlyIncreasing(TableRow(n))
  {
  }

  /** At a column's own significance level the table entry is returned
      exactly. */
  lemma TableAtColumn(n: int, c: nat)
    requires 1 <= n <= 20 && c < 5
    ensures InterpArray(TableRow(n), Alpha1Columns[c]) == Some(MillerExact[n - 1][c])
  {
    TableRowKeysIncreasing(n);
    InterpArrayAtDistinctKey(TableRow(n), c);
  }

  /** At any of the five column keys the table entry is returned. */
  lemma TableAtColumns(n: int, alpha1: real)
    requires 1 <= n <= 20
    ensures forall c :: 0 <= c < 5 && alpha1 == Alpha1Columns[c] ==>
      InterpArray(TableRow(n), alpha1) == Some(MillerExact[n - 1][c])
  {
    forall c | 0 <= c < 5 && alpha1 == Alpha1Columns[c]
      ensures InterpArray(TableRow(n), alpha1) == Some(MillerExact[n - 1][c])
    {
      TableAtColumn(n, c);
    }
  }

  /** Between columns the interpolated value stays inside the row's range:
      at most the `0.005` entry and at least the `0.10` entry. */
  lemma TableWithinRow(n: int, alpha1: real)
    requires 1 <= n <= 20 && 0.005 <= alpha1 <= 0.10
    ensures InterpArray(TableRow(n), alpha1).Some?
    ensures MillerExact[n - 1][4] <= InterpArray(TableRow(n), alpha1).value <= MillerExact[n - 1][0]
  {
    var row := TableRow(n);
    RowBounds(n);
    InterpArrayBracket(row, alpha1);
    var i := LowerBound(row, alpha1);
    assert MillerExact[n - 1][4] <= row[i].1 <= MillerExact[n - 1][0];
    if i > 0 {
      assert MillerExact[n - 1][4] <= row[i - 1].1 <= MillerExact[n - 1][0];
    }
  }

  /** The search looks only at keys: two lists with the same keys give the
      same index. */
  lemma {:induction false} LowerBoundFromKeysOnly(a: seq<Point>, b: seq<Point>, x: real, first: nat, count: nat)
    requires |a| == |b| && first + count <= |a|
    requires forall i :: 0 <= i < |a| ==> a[i].0 == b[i].0
    ensures LowerBoundFrom(a, x, first, count) == LowerBoundFrom(b, x, first, count)
    decreases count
  {
    if count > 0 {
      var step := count / 2;
      if a[first + step].0 < x {
        LowerBoundFromKeysOnly(a, b, x, first + step + 1, count - step - 1);
      } else {
        LowerBoundFromKeysOnly(a, b, x, first, step);
      }
    }
  }

  /** Interpolation with the same fraction is monotone in both endpoints. */
  lemma InterpMonotone(a: real, b: real, a2: real, b2: real, f: real)
    requires 0.0 <= f <= 1.0 && a2 <= a && b2 <= b
    ensures Interp(a2, b2, f) <= Interp(a, b, f)
  {
    NonNegativeProduct(1.0 - f, a - a2);
    NonNegativeProduct(f, b - b2);
    assert Interp(a, b, f) - Interp(a2, b2, f) == (1.0 - f) * (a - a2) + f * (b - b2);
  }

  /** Each column of the table falls from one sample size to the next. */
  lemma ColumnStep(n: int)
    requires 1 <= n < 20
    ensures forall c :: 0 <= c < 5 ==> TableRow(n + 1)[c].1 < TableRow(n)[c].1
  {
  }

  /** At any fixed significance level a larger sample never needs a larger
      statistic: the table branch is non-increasing in `n`. */
  lemma TableDecreasesWithN(n: int, alpha1: real)
    requires 1 <= n < 20 && 0.005 <= alpha1 <= 0.10
    ensures InterpArray(TableRow(n + 1), alpha1).Some? && InterpArray(TableRow(n), alpha1).Some?
    ensures InterpArray(TableRow(n + 1), alpha1).value <= InterpArray(TableRow(n), alpha1).value
  {
    var lo, hi := TableRow(n + 1), TableRow(n);
    LowerBoundFromKeysOnly(lo, hi, alpha1, 0, 5);
    ColumnStep(n);
    TableRowKeysIncreasing(n);
    InterpArrayBracket(hi, alpha1);
    var i := LowerBound(hi, alpha1);
    assert i == LowerBound(lo, alpha1);
    if i > 0 {
      var x0, x1 := hi[i - 1].0, hi[i].0;
      QuotientBounds(alpha1 - x0, x1 - x0);
      InterpMonotone(hi[i - 1].1, hi[i].1, lo[i - 1].1, lo[i].1, (alpha1 - x0) / (x1 - x0));
    }
  }

  /** Worked values of the table branch: a level equal to a column returns
      the entry (`n = 10`, `alpha = 0.05`), and a level halfway between two
      columns returns the mean of the two entries. */
  lemma TableExamples()
    ensures InterpArray(TableRow(10), 0.05 / 2.0) == Some(0.40925)
    ensures InterpArray(TableRow(20), 0.20 / 2.0) == Some(0.23156)
    ensures InterpArray(TableRow(1), 0.015 / 2.0) == Some(0.9925)
  {
    TableAtColumn(10, 2);
    TableAtColumn(20, 4);
    TableRowKeysIncreasing(1);
    InterpArrayBracket(TableRow(1), 0.0075);
  }

  /** The loop of `ks_critical_value` that pairs the column keys with row
      `n` of the table. */
  method BuildTableRow(n: int) returns (data: seq<Point>)
    requires 1 <= n <= 20
    ensures data == TableRow(n)
  {
    data := [];
    for i := 0 to |Alpha1Columns|
      invariant data == TableRow(n)[..i]
    {
      data := data + [(Alpha1Columns[i], MillerExact[n - 1][i])];
    }
  }

  /** `ks_critical_value(n, alpha)`: the critical value of the two-sided
      one-sample Kolmogorov-Smirnov test at level `alpha` (so the one-sided
      level is `alpha1 = alpha / 2`). `null` when `n < 1` or `alpha1` lies
      outside `[0.005, 0.10]`; for `n <= 20` the row for `n` of Miller's
      table interpolated at `alpha1`; for larger `n` Miller's approximation,
      here the parameter `asymptotic(n, alpha1)`, capped at `1 - alpha1`. */
  method KsCriticalValue(n: int, alpha: real, asymptotic: (int, real) -> real) returns (r: Option<real>)
    ensures r.None? <==> n < 1 || alpha / 2.0 < 0.005 || alpha / 2.0 > 0.10
    ensures 1 <= n <= 20 ==> r == InterpArray(TableRow(n), alpha / 2.0)
    ensures 1 <= n <= 20 && r.Some? ==> MillerExact[n - 1][4] <= r.value <= MillerExact[n - 1][0]
    ensures 1 <= n <= 20 ==> forall c :: 0 <= c < 5 && alpha / 2.0 == Alpha1Columns[c] ==> r == Some(MillerExact[n - 1][c])
    ensures n > 20 && r.Some? ==> r.value == MinReal(asymptotic(n, alpha / 2.0), 1.0 - alpha / 2.0)
  {
    if n < 1 {
      return None;
    }
    var alpha1 := alpha / 2.0;
    if alpha1 >= 0.005 && alpha1 <= 0.10 {
      if n <= 20 {
        var data := BuildTableRow(n);
        TableWithinRow(n, alpha1);
        TableAtColumns(n, alpha1);
        r := InterpArray(data, alpha1);
      } else {
        r := Some(MinReal(asymptotic(n, alpha1), 1.0 - alpha1));
      }
    } else {
      r := None;
    }
  }

  // ---------------------------------------------------------------------
  // ks_diff
  // ---------------------------------------------------------------------

  /** What `ks_diff` cannot compute: a non-empty sample against an empty
      target CDF reads `GCIMvalues[0][0]` of an empty array and throws. */
  datatype KsError = EmptyTarget

  /** `scaledIM[name]` of each ground motion, in order. */
  function ImValues(gms: seq<GroundMotion>, name: string): (r: seq<real>)
    requires forall i :: 0 <= i < |gms| ==> name in gms[i].scaledIM
    ensures |r| == |gms|
    ensures forall i :: 0 <= i < |gms| ==> r[i] == gms[i].scaledIM[name]
  {
    seq(|gms|, i requires 0 <= i < |gms| => gms[i].scaledIM[name])
  }

  /** The distance `ks_diff` measures at one empirical step point `p`: its
      height below the target's first key, one minus its height past the
      target's last key, and otherwise its distance to the target CDF
      interpolated at `p.0`. */
  function PointDiff(target: seq<Point>, p: Point): real
    requires |target| > 0
  {
    if p.0 < target[0].0 then p.1
    else if p.0 > target[|target| - 1].0 then 1.0 - p.1
    else Abs(p.1 - InterpArray(target, p.0).value)
  }

  /** The running maximum after the first `m` step points, from `0`. */
  function MaxDiffUpTo(target: seq<Point>, points: seq<Point>, m: nat): real
    requires m <= |points| && (m > 0 ==> |target| > 0)
  {
    if m == 0 then 0.0 else MaxReal(MaxDiffUpTo(target, points, m - 1), PointDiff(target, points[m - 1]))
  }

  /** The running maximum is the least upper bound of `0` and the distances
      seen so far: it bounds each of them and is either `0` or one of them. */
  lemma {:induction false} MaxDiffUpToIsMaximum(target: seq<Point>, points: seq<Point>, m: nat)
    requires m <= |points| && (m > 0 ==> |target| > 0)
    ensures MaxDiffUpTo(target, points, m) >= 0.0
    ensures forall p :: 0 <= p < m ==> PointDiff(target, points[p]) <= MaxDiffUpTo(target, points, m)
    ensures MaxDiffUpTo(target, points, m) == 0.0
            || exists p :: 0 <= p < m && MaxDiffUpTo(target, points, m) == PointDiff(target, points[p])
  {
    if m > 0 {
      MaxDiffUpToIsMaximum(target, points, m - 1);
      if MaxDiffUpTo(target, points, m) != 0.0 && MaxDiffUpTo(target, points, m) != MaxDiffUpTo(target, points, m - 1) {
        assert MaxDiffUpTo(target, points, m) == PointDiff(target, points[m - 1]);
      }
    }
  }

  /** A target CDF whose probabilities lie in `[0, 1]`. */
  ghost predicate UnitHeights(points: seq<Point>) {
    forall j :: 0 <= j < |points| ==> 0.0 <= points[j].1 <= 1.0
  }

  /** Between a step point and a target CDF whose heights lie in `[0, 1]`,
      every distance lies in `[0, 1]`. */
  lemma PointDiffUnit(target: seq<Point>, p: Point)
    requires |target| > 0 && UnitHeights(target) && 0.0 <= p.1 <= 1.0
    ensures 0.0 <= PointDiff(target, p) <= 1.0
  {
    if target[0].0 <= p.0 <= target[|target| - 1].0 {
      InterpArrayBracket(target, p.0);
      var i := LowerBound(target, p.0);
      assert 0.0 <= target[i].1 <= 1.0;
      if i > 0 {
        assert 0.0 <= target[i - 1].1 <= 1.0;
      }
    }
  }

  /** With unit target heights and unit step heights the running maximum
      stays in `[0, 1]`. */
  lemma {:induction false} MaxDiffUpToUnit(target: seq<Point>, points: seq<Point>, m: nat)
    requires m <= |points| && (m > 0 ==> |target| > 0)
    requires UnitHeights(target) && UnitHeights(points)
    ensures 0.0 <= MaxDiffUpTo(target, points, m) <= 1.0
  {
    if m > 0 {
      MaxDiffUpToUnit(target, points, m - 1);
      PointDiffUnit(target, points[m - 1]);
    }
  }

  /** The distance between a target CDF and the step CDF of `values`:
      non-negative, an upper bound of every point distance and either `0` or
      attained, and at most `1` when the target heights lie in `[0, 1]`. */
  lemma KsDistanceFacts(target: seq<Point>, values: seq<real>)
    requires |values| > 0 ==> |target| > 0
    ensures var points := StepCdf(Sort(values));
      var d := MaxDiffUpTo(target, points, |points|);
      && |points| == 2 * |values|
      && d >= 0.0
      && (forall p :: 0 <= p < |points| ==> PointDiff(target, points[p]) <= d)
      && (d == 0.0 || exists p :: 0 <= p < |points| && d == PointDiff(target, points[p]))
      && (UnitHeights(target) ==> d <= 1.0)
  {
    var points := StepCdf(Sort(values));
    StepCdfHeights(Sort(values));
    MaxDiffUpToIsMaximum(target, points, |points|);
    if UnitHeights(target) {
      MaxDiffUpToUnit(target, points, |points|);
    }
  }

  /** The first loop of `ks_diff`: the ground motions' scaled values of
      the IM, in order. */
  method ScaledValues(groundMotions: seq<GroundMotion>, name: string) returns (values: seq<real>)
    requires forall i :: 0 <= i < |groundMotions| ==> name in groundMotions[i].scaledIM
    ensures values == ImValues(groundMotions, name)
  {
    values := [];
    for i := 0 to |groundMotions|
      invariant |values| == i
      invariant forall j :: 0 <= j < i ==> values[j] == groundMotions[j].scaledIM[name]
    {
      values := values + [groundMotions[i].scaledIM[name]];
    }
  }

  /** The second loop of `ks_diff`: the running maximum of the distances at
      the step points, starting from `0`. */
  method MaxDistance(target: seq<Point>, points: seq<Point>) returns (maxDiff: real)
    requires |points| > 0 ==> |target| > 0
    ensures maxDiff == MaxDiffUpTo(target, points, |points|)
  {
    maxDiff := 0.0;
    for i := 0 to |points|
      invariant maxDiff == MaxDiffUpTo(target, points, i)
    {
      var diff;
      if points[i].0 < target[0].0 {
        diff := points[i].1;
      } else if points[i].0 > target[|target| - 1].0 {
        diff := 1.0 - points[i].1;
      } else {
        diff := Abs(points[i].1 - InterpArray(target, points[i].0).value);
      }
      maxDiff := MaxReal(maxDiff, diff);
    }
  }

  /** `ks_diff(groundMotions, im)`: the Kolmogorov-Smirnov distance between
      the empirical step CDF of the ground motions' scaled values for `im`
      and `im`'s target CDF, measured at the step points. `groundMotions`
      is not reordered: the values are copied before sorting. */
  method KsDiff(groundMotions: seq<GroundMotion>, im: IntensityMeasure) returns (r: Result<real, KsError>)
    requires forall i :: 0 <= i < |groundMotions| ==> im.name in groundMotions[i].scaledIM
    ensures r.Err? <==> |groundMotions| > 0 && |im.gcimValues| == 0
    ensures r.Ok? ==> var points := StepCdf(Sort(ImValues(groundMotions, im.name)));
      && |points| == 2 * |groundMotions|
      && r.value == MaxDiffUpTo(im.gcimValues, points, |points|)
      && r.value >= 0.0
      && (forall p :: 0 <= p < |points| ==> PointDiff(im.gcimValues, points[p]) <= r.value)
      && (r.value == 0.0 || exists p :: 0 <= p < |points| && r.value == PointDiff(im.gcimValues, points[p]))
    ensures r.Ok? && UnitHeights(im.gcimValues) ==> r.value <= 1.0
    ensures |groundMotions| == 0 ==> r == Ok(0.0)
  {
    var actualValues := ScaledValues(groundMotions, im.name);
    // ks_diff builds the empirical step CDF exactly as build_cdf does.
    var actualCdf := BuildCdf(actualValues);
    if |actualCdf| > 0 && |im.gcimValues| == 0 {
      return Err(EmptyTarget);
    }
    var target := im.gcimValues;
    var maxDiff := MaxDistance(target, actualCdf);
    KsDistanceFacts(target, actualValues);
    r := Ok(maxDiff);
  }
}
