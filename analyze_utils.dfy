/**
 * `kafka_http_emitter_analyze/utils.py`: the summary of a list of integers
 * (non-zero entries only) and the relative-closeness test the collector uses to
 * decide that all expected messages have arrived. Python's floating-point
 * `mean`, `median` and `max(a, b) * pct` are computed exactly, as reals.
 */
module AnalyzeUtils {

  /** `IntListSummary`. */
  datatype IntListSummary = IntListSummary(min: int, max: int, mean: real, median: real, entries: nat)

  /** The list comprehension dropping zeros: the non-zero entries, in order. */
  function NonZero(xs: seq<int>): (r: seq<int>)
    ensures |r| <= |xs|
    ensures forall x :: x in r <==> x in xs && x != 0
  {
    if xs == [] then []
    else
      var prefix := NonZero(xs[..|xs| - 1]);
      var last := xs[|xs| - 1];
      assert forall x :: x in xs <==> x in xs[..|xs| - 1] || x == last;
      if last != 0 then prefix + [last] else prefix
  }

  /** Every non-zero entry is kept as often as it occurs, and no zero is. */
  lemma {:induction false} NonZeroMultiplicity(xs: seq<int>)
    ensures multiset(NonZero(xs)) == multiset(xs)[0 := 0]
  {
    if xs != [] {
      var prefix := xs[..|xs| - 1];
      NonZeroMultiplicity(prefix);
      assert xs == prefix + [xs[|xs| - 1]];
    }
  }

  /** Dropping zeros works piece by piece, so the kept entries stay in input order. */
  lemma {:induction false} NonZeroConcat(a: seq<int>, b: seq<int>)
    ensures NonZero(a + b) == NonZero(a) + NonZero(b)
  {
    if b == [] {
      assert a + b == a;
    } else {
      var prefix := b[..|b| - 1];
      var last := b[|b| - 1];
      NonZeroConcat(a, prefix);
      assert (a + b)[..|a + b| - 1] == a + prefix;
      assert (a + b)[|a + b| - 1] == last;
      var tail := NonZero(a + prefix);
      assert NonZero(a + b) == if last != 0 then tail + [last] else tail;
      assert NonZero(b) == if last != 0 then NonZero(prefix) + [last] else NonZero(prefix);
    }
  }

  function Sum(xs: seq<int>): int
  {
    if xs == [] then 0 else Sum(xs[..|xs| - 1]) + xs[|xs| - 1]
  }

  /** `min` of a non-empty list. */
  function Min(xs: seq<int>): (m: int)
    requires xs != []
    ensures m in xs && forall x :: x in xs ==> m <= x
  {
    if |xs| == 1 then xs[0]
    else
      var rest := Min(xs[..|xs| - 1]);
      assert forall x :: x in xs ==> x in xs[..|xs| - 1] || x == xs[|xs| - 1];
      if xs[|xs| - 1] < rest then xs[|xs| - 1] else rest
  }

  /** `max` of a non-empty list. */
  function Max(xs: seq<int>): (m: int)
    requires xs != []
    ensures m in xs && forall x :: x in xs ==> x <= m
  {
    if |xs| == 1 then xs[0]
    else
      var rest := Max(xs[..|xs| - 1]);
      assert forall x :: x in xs ==> x in xs[..|xs| - 1] || x == xs[|xs| - 1];
      if xs[|xs| - 1] > rest then xs[|xs| - 1] else rest
  }

  predicate Sorted(xs: seq<int>)
  {
    forall i, j :: 0 <= i < j < |xs| ==> xs[i] <= xs[j]
  }

  /** `x` placed into a sorted list before the first larger element. */
  function InsertSorted(xs: seq<int>, x: int): (r: seq<int>)
    requires Sorted(xs)
    ensures Sorted(r) && multiset(r) == multiset(xs) + multiset{x}
  {
    if xs == [] then [x]
    else if x <= xs[0] then [x] + xs
    else
      var rest := InsertSorted(xs[1..], x);
      assert xs == [xs[0]] + xs[1..];
      LeastOfInsert(xs, x, rest);
      [xs[0]] + rest
  }

  lemma LeastOfInsert(xs: seq<int>, x: int, rest: seq<int>)
    requires Sorted(xs) && xs != [] && xs[0] < x
    requires multiset(rest) == multiset(xs[1..]) + multiset{x}
    requires Sorted(rest)
    ensures Sorted([xs[0]] + rest)
  {
    forall i | 0 <= i < |rest|
      ensures xs[0] <= rest[i]
    {
      assert rest[i] in multiset(rest);
      if rest[i] != x {
        assert rest[i] in multiset(xs[1..]);
        assert rest[i] in xs[1..];
      }
    }
  }

  /** `sorted`: the same elements, in ascending order. */
  function SortInts(xs: seq<int>): (r: seq<int>)
    ensures Sorted(r) && multiset(r) == multiset(xs)
  {
    if xs == [] then []
    else
      assert xs == xs[..|xs| - 1] + [xs[|xs| - 1]];
      InsertSorted(SortInts(xs[..|xs| - 1]), xs[|xs| - 1])
  }

  /** `statistics.median`: the middle of the sorted list, or the average of the two middle values. */
  function Median(xs: seq<int>): real
    requires xs != []
  {
    var s := SortInts(xs);
    var n := |s|;
    assert |s| == |multiset(s)| == |multiset(xs)| == |xs|;
    if n % 2 == 1 then s[n / 2] as real else (s[n / 2 - 1] + s[n / 2]) as real / 2.0
  }

  /** `statistics.mean`: the exact average. */
  function Mean(xs: seq<int>): real
    requires xs != []
  {
    Sum(xs) as real / |xs| as real
  }

  lemma {:induction false} SumBounds(xs: seq<int>, lo: int, hi: int)
    requires forall i :: 0 <= i < |xs| ==> lo <= xs[i] <= hi
    ensures |xs| * lo <= Sum(xs) <= |xs| * hi
  {
    if xs != [] {
      SumBounds(xs[..|xs| - 1], lo, hi);
    }
  }

  lemma CastProduct(a: int, b: int)
    ensures (a * b) as real == a as real * b as real
  {
  }

  lemma QuotientBounds(s: real, n: real, lo: real, hi: real)
    requires n > 0.0 && n * lo <= s <= n * hi
    ensures lo <= s / n <= hi
  {
  }

  /** An integer sum bounded by `n` copies of `lo` and of `hi` has its average between them. */
  lemma AverageBounds(s: int, n: int, lo: int, hi: int)
    requires n > 0 && n * lo <= s <= n * hi
    ensures lo as real <= s as real / n as real <= hi as real
  {
    CastProduct(n, lo);
    CastProduct(n, hi);
    QuotientBounds(s as real, n as real, lo as real, hi as real);
  }

  /** The mean lies between the smallest and the largest entry. */
  lemma MeanBetween(xs: seq<int>)
    requires xs != []
    ensures Min(xs) as real <= Mean(xs) <= Max(xs) as real
  {
    var lo, hi := Min(xs), Max(xs);
    forall i | 0 <= i < |xs|
      ensures lo <= xs[i] <= hi
    {
      assert xs[i] in xs;
    }
    SumBounds(xs, lo, hi);
    AverageBounds(Sum(xs), |xs|, lo, hi);
  }

  /** The median lies between the smallest and the largest entry. */
  lemma MedianBetween(xs: seq<int>)
    requires xs != []
    ensures Min(xs) as real <= Median(xs) <= Max(xs) as real
  {
    var s := SortInts(xs);
    assert |s| == |multiset(s)| == |multiset(xs)| == |xs|;
    forall i | 0 <= i < |s|
      ensures Min(xs) <= s[i] <= Max(xs)
    {
      assert s[i] in multiset(s);
      assert s[i] in xs;
    }
  }

  /**
   * `list_of_ints_stats`: zeros are dropped; an empty or all-zero input is
   * summarised as the single entry 0; otherwise the extremes, mean, median and
   * count of the non-zero entries.
   */
  function ListOfIntsStats(input: seq<int>): (s: IntListSummary)
    ensures NonZero(input) == [] ==> s == IntListSummary(0, 0, 0.0, 0.0, 1)
    ensures NonZero(input) != [] ==>
      && s.entries == |NonZero(input)|
      && s.min in input && s.min != 0 && s.max in input && s.max != 0
      && (forall x :: x in input && x != 0 ==> s.min <= x <= s.max)
      && s.min as real <= s.mean <= s.max as real
      && s.min as real <= s.median <= s.max as real
  {
    var kept := NonZero(input);
    var xs := if kept == [] then [0] else kept;
    MeanBetween(xs);
    MedianBetween(xs);
    assert kept == [] ==> Sum(xs) == 0 && SortInts(xs) == [0];
    IntListSummary(Min(xs), Max(xs), Mean(xs), Median(xs), |xs|)
  }

  /** `default_list_of_ints_stats`: everything zero, with no entries. */
  function DefaultListOfIntsStats(): (s: IntListSummary)
    ensures s.entries == 0 && s.min == 0 && s.max == 0 && s.mean == 0.0 && s.median == 0.0
  {
    IntListSummary(0, 0, 0.0, 0.0, 0)
  }

  /** The default summary differs from every computed one: a computed summary has at least one entry. */
  lemma DefaultIsNotComputed(input: seq<int>)
    ensures ListOfIntsStats(input) != DefaultListOfIntsStats()
  {
    if NonZero(input) != [] {
      assert ListOfIntsStats(input).entries >= 1;
    }
  }

  function Abs(x: int): nat
  {
    if x < 0 then -x else x
  }

  /** `int_similar_percentage`: the distance is at most `pct` of the larger value. */
  predicate IntSimilarPercentage(a: int, b: int, pct: real)
  {
    Abs(a - b) as real <= (if a >= b then a else b) as real * pct
  }

  /** The test does not depend on the order of its arguments. */
  lemma IntSimilarSymmetric(a: int, b: int, pct: real)
    ensures IntSimilarPercentage(a, b, pct) <==> IntSimilarPercentage(b, a, pct)
  {
    assert Abs(a - b) == Abs(b - a);
  }

  /** Equal values are always similar for a non-negative margin and value. */
  lemma IntSimilarReflexive(a: int, pct: real)
    requires a >= 0 && pct >= 0.0
    ensures IntSimilarPercentage(a, a, pct)
  {
  }
}
