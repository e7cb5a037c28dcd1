/** Small value types shared by every module. */
module Common {

  datatype Option<+T> = None | Some(value: T)

  /** What one stored procedure call gives back: a value, or an exception that
      rolled the whole transaction back. */
  datatype Outcome<+T> = Done(value: T) | Raised

  /** UUIDs, digests and names are opaque: only equality (and, for names that
      the source sorts, an order) is used. */
  type Id = nat

  /** A point on the database clock. */
  type Time = int

  predicate Distinct<T(==)>(xs: seq<T>) {
    forall i, j :: 0 <= i < j < |xs| ==> xs[i] != xs[j]
  }

  function SeqSet<T>(xs: seq<T>): set<T> {
    set x | x in xs
  }

  lemma {:induction false} DistinctSeqSetSize<T>(xs: seq<T>)
    requires Distinct(xs)
    ensures |SeqSet(xs)| == |xs|
  {
    if xs != [] {
      var last := |xs| - 1;
      DistinctSeqSetSize(xs[..last]);
      assert xs == xs[..last] + [xs[last]];
      assert SeqSet(xs) == SeqSet(xs[..last]) + {xs[last]};
    }
  }
}
