/** Option and Result values used for the source's `Option` and error returns. */
module Wrappers {

  datatype Option<+T> = None | Some(value: T)

  datatype Result<+T, +E> = Success(value: T) | Failure(error: E)

  /** `map.get(k).cloned().unwrap_or(d)` on a map value. */
  function Lookup<K, V>(m: map<K, V>, k: K, d: V): V
  {
    if k in m then m[k] else d
  }

  /** The set of elements of a sequence. */
  function Elements<T>(s: seq<T>): set<T>
  {
    set x | x in s
  }

  /** No element occurs twice. */
  predicate Distinct<T(==)>(s: seq<T>)
  {
    forall i, j :: 0 <= i < j < |s| ==> s[i] != s[j]
  }

  /** A sequence without repeats has as many elements as its set. */
  lemma {:induction false} DistinctCardinality<T>(s: seq<T>)
    requires Distinct(s)
    ensures |Elements(s)| == |s|
  {
    if s != [] {
      var prefix := s[..|s| - 1];
      DistinctCardinality(prefix);
      assert Elements(s) == Elements(prefix) + {s[|s| - 1]};
      assert s[|s| - 1] !in Elements(prefix);
    }
  }

  /**
   * The keys of a hash map in its iteration order, which the model leaves open:
   * each element of `keys` exactly once, in an unspecified order.
   */
  method Enumerate<T>(keys: set<T>) returns (xs: seq<T>)
    ensures Distinct(xs) && Elements(xs) == keys && |xs| == |keys|
  {
    xs := [];
    var remaining := keys;
    while remaining != {}
      invariant remaining !! Elements(xs) && remaining + Elements(xs) == keys
      invariant Distinct(xs)
      decreases |remaining|
    {
      var x :| x in remaining;
      xs := xs + [x];
      remaining := remaining - {x};
    }
    DistinctCardinality(xs);
  }
}
