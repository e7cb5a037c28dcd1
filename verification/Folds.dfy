/** The replay score: signals against the next return, over the whole episode and
    over chronological folds.  Exact arithmetic stands for Decimal. */
module Folds {
  import opened Common

  /** One signal per return but the last, and none without returns; a signal is 1,
      -1 or 0. */
  predicate Scored(signals: seq<int>, moves: seq<real>) {
    |signals| == (if moves == [] then 0 else |moves| - 1) && forall s <- signals :: s == 1 || s == -1 || s == 0
  }

  // ---- Sums over a stretch of signals ------------------------------------------------

  /** Sum of signal times next return over the signalled indices in [lo, hi). */
  function Gross(signals: seq<int>, moves: seq<real>, lo: nat, hi: nat): real
    requires Scored(signals, moves) && lo <= hi <= |signals|
    decreases hi - lo
  {
    if lo == hi then 0.0
    else Gross(signals, moves, lo, hi - 1) + (if signals[hi - 1] != 0 then signals[hi - 1] as real * moves[hi] else 0.0)
  }

  function Count(signals: seq<int>, lo: nat, hi: nat): nat
    requires lo <= hi <= |signals|
    decreases hi - lo
  {
    if lo == hi then 0 else Count(signals, lo, hi - 1) + (if signals[hi - 1] != 0 then 1 else 0)
  }

  lemma {:induction false} GrossSplits(signals: seq<int>, moves: seq<real>, lo: nat, mid: nat, hi: nat)
    requires Scored(signals, moves) && lo <= mid <= hi <= |signals|
    ensures Gross(signals, moves, lo, hi) == Gross(signals, moves, lo, mid) + Gross(signals, moves, mid, hi)
    ensures Count(signals, lo, hi) == Count(signals, lo, mid) + Count(signals, mid, hi)
    decreases hi - mid
  {
    if mid < hi {
      GrossSplits(signals, moves, lo, mid, hi - 1);
    }
  }

  // ---- Folds ----------------------------------------------------------------------------

  /** len(signals) * fold // folds */
  function Bound(n: nat, folds: nat, k: nat): nat
    requires folds > 0
  {
    n * k / folds
  }

  lemma MulMonotone(a: nat, b: nat, d: nat)
    requires a <= b
    ensures a * d <= b * d
  {
    assert b * d == a * d + (b - a) * d;
  }

  lemma DivIs(x: nat, q: nat, d: nat)
    requires d > 0 && q * d <= x < q * d + d
    ensures x / d == q
  {
    var p := x / d;
    assert x == p * d + x % d;
    if p < q {
      MulMonotone(p + 1, q, d);
    } else if q < p {
      MulMonotone(q + 1, p, d);
    }
  }

  lemma SumQuotient(a: nat, b: nat, p: nat, q: nat, r: nat, s: nat, d: nat)
    requires d > 0 && a == p * d + r && b == q * d + s && r < d && s < d
    ensures (a + b) / d == if r + s < d then p + q else p + q + 1
  {
    assert p * d + q * d == (p + q) * d && (p + q + 1) * d == (p + q) * d + d;
    DivIs(a + b, if r + s < d then p + q else p + q + 1, d);
  }

  lemma DivAdd(a: nat, b: nat, d: nat)
    requires d > 0
    ensures a / d + b / d <= (a + b) / d <= a / d + b / d + 1
  {
    SumQuotient(a, b, a / d, b / d, a % d, b % d, d);
  }

  lemma BoundEnds(n: nat, folds: nat)
    requires folds > 0
    ensures Bound(n, folds, 0) == 0 && Bound(n, folds, folds) == n
  {
    DivIs(n * folds, n, folds);
    DivIs(n * 0, 0, folds);
  }

  lemma BoundStep(n: nat, folds: nat, k: nat)
    requires folds > 0
    ensures Bound(n, folds, k) + n / folds <= Bound(n, folds, k + 1) <= Bound(n, folds, k) + n / folds + 1
  {
    assert n * (k + 1) == n * k + n;
    DivAdd(n * k, n, folds);
  }

  lemma BoundBelow(n: nat, folds: nat, k: nat)
    requires k <= folds && folds > 0
    ensures Bound(n, folds, k) <= n
  {
    BoundEnds(n, folds);
    assert n * folds == n * k + n * (folds - k);
    DivAdd(n * k, n * (folds - k), folds);
  }

  /** The folds follow one another from the first signal to the last, and their
      sizes differ by at most one. */
  lemma FoldsPartition(n: nat, folds: nat, k: nat)
    requires k < folds
    ensures Bound(n, folds, 0) == 0 && Bound(n, folds, folds) == n
    ensures Bound(n, folds, k) <= Bound(n, folds, k + 1) <= n
    ensures n / folds <= Bound(n, folds, k + 1) - Bound(n, folds, k) <= n / folds + 1
  {
    BoundEnds(n, folds);
    BoundStep(n, folds, k);
    BoundBelow(n, folds, k + 1);
  }

  predicate Populated(signals: seq<int>, folds: nat, k: nat)
    requires k < folds
  {
    FoldsPartition(|signals|, folds, k);
    Count(signals, Bound(|signals|, folds, k), Bound(|signals|, folds, k + 1)) > 0
  }

  /** What fold k earns before costs and what its signals cost. */
  function FoldGross(signals: seq<int>, moves: seq<real>, folds: nat, k: nat): real
    requires Scored(signals, moves) && k < folds
  {
    FoldsPartition(|signals|, folds, k);
    Gross(signals, moves, Bound(|signals|, folds, k), Bound(|signals|, folds, k + 1))
  }

  function FoldCost(signals: seq<int>, cost: real, folds: nat, k: nat): real
    requires k < folds
  {
    FoldsPartition(|signals|, folds, k);
    cost * Count(signals, Bound(|signals|, folds, k), Bound(|signals|, folds, k + 1)) as real
  }

  predicate Positive(signals: seq<int>, moves: seq<real>, cost: real, folds: nat, k: nat)
    requires Scored(signals, moves) && k < folds
  {
    Populated(signals, folds, k) && FoldGross(signals, moves, folds, k) - FoldCost(signals, cost, folds, k) > 0.0
  }

  /** ... when every position is reversed. */
  predicate ReversedPositive(signals: seq<int>, moves: seq<real>, cost: real, folds: nat, k: nat)
    requires Scored(signals, moves) && k < folds
  {
    Populated(signals, folds, k) && -FoldGross(signals, moves, folds, k) - FoldCost(signals, cost, folds, k) > 0.0
  }

  datatype Tally = Tally(positive: nat, reversed: nat, populated: nat)

  function TallyOf(signals: seq<int>, moves: seq<real>, cost: real, folds: nat, k: nat): Tally
    requires Scored(signals, moves) && k <= folds
  {
    if k == 0 then Tally(0, 0, 0)
    else
      var t := TallyOf(signals, moves, cost, folds, k - 1);
      Tally(t.positive + (if Positive(signals, moves, cost, folds, k - 1) then 1 else 0),
            t.reversed + (if ReversedPositive(signals, moves, cost, folds, k - 1) then 1 else 0),
            t.populated + (if Populated(signals, folds, k - 1) then 1 else 0))
  }

  function Ratios(t: Tally): (real, real) {
    if t.populated == 0 then (0.0, 0.0)
    else (t.positive as real / t.populated as real, t.reversed as real / t.populated as real)
  }

  /** _chronological_positive_fold_ratios */
  method FoldRatios(signals: seq<int>, moves: seq<real>, cost: real, folds: nat) returns (direct: real, reversed: real)
    requires Scored(signals, moves)
    ensures (direct, reversed) == Ratios(TallyOf(signals, moves, cost, folds, folds))
  {
    var positive, negative, populated := 0, 0, 0;
    for fold := 0 to folds
      invariant Tally(positive, negative, populated) == TallyOf(signals, moves, cost, folds, fold)
    {
      var some, wins, loses := ScoreFold(signals, moves, cost, folds, fold);
      if some {
        populated := populated + 1;
      }
      if wins {
        positive := positive + 1;
      }
      if loses {
        negative := negative + 1;
      }
    }
    if populated == 0 {
      return 0.0, 0.0;
    }
    return positive as real / populated as real, negative as real / populated as real;
  }

  /** The body of the fold loop. */
  method ScoreFold(signals: seq<int>, moves: seq<real>, cost: real, folds: nat, fold: nat)
    returns (some: bool, wins: bool, loses: bool)
    requires Scored(signals, moves) && fold < folds
    ensures some == Populated(signals, folds, fold)
    ensures wins == Positive(signals, moves, cost, folds, fold)
    ensures loses == ReversedPositive(signals, moves, cost, folds, fold)
  {
    FoldsPartition(|signals|, folds, fold);
    var start, end := Bound(|signals|, folds, fold), Bound(|signals|, folds, fold + 1);
    var gross, count := SumSignals(signals, moves, start, end);
    var spent := cost * count as real;
    some := count > 0;
    wins := some && gross - spent > 0.0;
    loses := some && -gross - spent > 0.0;
  }

  method SumSignals(signals: seq<int>, moves: seq<real>, start: nat, end: nat) returns (gross: real, count: nat)
    requires Scored(signals, moves) && start <= end <= |signals|
    ensures gross == Gross(signals, moves, start, end) && count == Count(signals, start, end)
  {
    gross, count := 0.0, 0;
    for i := start to end
      invariant gross == Gross(signals, moves, start, i) && count == Count(signals, start, i)
    {
      if signals[i] != 0 {
        gross := gross + signals[i] as real * moves[i + 1];
        count := count + 1;
      }
    }
  }

  // ---- What the ratios mean ------------------------------------------------------------------

  /** No fold earns its costs both ways. */
  lemma NeverBothWays(signals: seq<int>, moves: seq<real>, cost: real, folds: nat, k: nat)
    requires Scored(signals, moves) && k < folds && cost >= 0.0
    ensures !(Positive(signals, moves, cost, folds, k) && ReversedPositive(signals, moves, cost, folds, k))
  {
    FoldsPartition(|signals|, folds, k);
    var c := Count(signals, Bound(|signals|, folds, k), Bound(|signals|, folds, k + 1));
    assert cost * c as real >= 0.0;
  }

  lemma {:induction false} TallyBounds(signals: seq<int>, moves: seq<real>, cost: real, folds: nat, k: nat)
    requires Scored(signals, moves) && k <= folds && cost >= 0.0
    ensures var t := TallyOf(signals, moves, cost, folds, k);
            t.positive + t.reversed <= t.populated <= k
  {
    if k > 0 {
      TallyBounds(signals, moves, cost, folds, k - 1);
      NeverBothWays(signals, moves, cost, folds, k - 1);
    }
  }

  lemma RatioBounds(a: nat, b: nat, p: nat)
    requires a + b <= p && p > 0
    ensures 0.0 <= a as real / p as real <= 1.0 && 0.0 <= b as real / p as real <= 1.0
    ensures a as real / p as real + b as real / p as real <= 1.0
  {
    var x, y, z := a as real, b as real, p as real;
    assert x / z + y / z == (x + y) / z;
    assert (x + y) / z <= z / z == 1.0;
    assert 0.0 <= x / z && 0.0 <= y / z;
  }

  /** Both ratios lie in [0, 1] and together they are at most 1. */
  lemma RatiosAreShares(signals: seq<int>, moves: seq<real>, cost: real, folds: nat)
    requires Scored(signals, moves) && cost >= 0.0
    ensures var (direct, reversed) := Ratios(TallyOf(signals, moves, cost, folds, folds));
            0.0 <= direct <= 1.0 && 0.0 <= reversed <= 1.0 && direct + reversed <= 1.0
  {
    TallyBounds(signals, moves, cost, folds, folds);
    var t := TallyOf(signals, moves, cost, folds, folds);
    if t.populated > 0 {
      RatioBounds(t.positive, t.reversed, t.populated);
    }
  }

  /** Sum of the first k folds. */
  function FoldSum(signals: seq<int>, moves: seq<real>, folds: nat, k: nat): real
    requires Scored(signals, moves) && k <= folds
  {
    if k == 0 then 0.0 else FoldSum(signals, moves, folds, k - 1) + FoldGross(signals, moves, folds, k - 1)
  }

  lemma {:induction false} FoldSumIs(signals: seq<int>, moves: seq<real>, folds: nat, k: nat)
    requires Scored(signals, moves) && k <= folds && folds > 0
    ensures Bound(|signals|, folds, k) <= |signals|
    ensures FoldSum(signals, moves, folds, k) == Gross(signals, moves, 0, Bound(|signals|, folds, k))
  {
    FoldsPartition(|signals|, folds, if k == 0 then 0 else k - 1);
    if k > 0 {
      FoldSumIs(signals, moves, folds, k - 1);
      GrossSplits(signals, moves, 0, Bound(|signals|, folds, k - 1), Bound(|signals|, folds, k));
    }
  }

  /** Fold by fold the total gross comes out. */
  lemma FoldsAddUp(signals: seq<int>, moves: seq<real>, folds: nat)
    requires Scored(signals, moves) && folds > 0
    ensures FoldSum(signals, moves, folds, folds) == Gross(signals, moves, 0, |signals|)
  {
    FoldSumIs(signals, moves, folds, folds);
    FoldsPartition(|signals|, folds, 0);
  }

  /** Net of the first b signals. */
  function Net(signals: seq<int>, moves: seq<real>, cost: real, b: nat): real
    requires Scored(signals, moves) && b <= |signals|
  {
    Gross(signals, moves, 0, b) - cost * Count(signals, 0, b) as real
  }

  lemma {:induction false} NetSplits(signals: seq<int>, moves: seq<real>, cost: real, lo: nat, hi: nat)
    requires Scored(signals, moves) && lo <= hi <= |signals|
    ensures Net(signals, moves, cost, hi) ==
              Net(signals, moves, cost, lo) + Gross(signals, moves, lo, hi) - cost * Count(signals, lo, hi) as real
    ensures Count(signals, 0, hi) == Count(signals, 0, lo) + Count(signals, lo, hi)
  {
    GrossSplits(signals, moves, 0, lo, hi);
    Distribute(cost, Count(signals, 0, lo), Count(signals, lo, hi));
  }

  lemma Distribute(x: real, a: nat, b: nat)
    ensures x * (a + b) as real == x * a as real + x * b as real
  {
  }

  lemma {:induction false} NetStep(signals: seq<int>, moves: seq<real>, cost: real, folds: nat, k: nat)
    requires Scored(signals, moves) && k < folds
    ensures Bound(|signals|, folds, k) <= Bound(|signals|, folds, k + 1) <= |signals|
    ensures Net(signals, moves, cost, Bound(|signals|, folds, k + 1)) ==
              Net(signals, moves, cost, Bound(|signals|, folds, k)) +
                  FoldGross(signals, moves, folds, k) - FoldCost(signals, cost, folds, k)
    ensures Count(signals, 0, Bound(|signals|, folds, k + 1)) ==
              Count(signals, 0, Bound(|signals|, folds, k)) +
                  Count(signals, Bound(|signals|, folds, k), Bound(|signals|, folds, k + 1))
  {
    FoldsPartition(|signals|, folds, k);
    NetSplits(signals, moves, cost, Bound(|signals|, folds, k), Bound(|signals|, folds, k + 1));
  }

  lemma QuietFold(signals: seq<int>, moves: seq<real>, cost: real, folds: nat, k: nat)
    requires Scored(signals, moves) && k < folds && !Populated(signals, folds, k)
    ensures FoldGross(signals, moves, folds, k) == 0.0 && FoldCost(signals, cost, folds, k) == 0.0
  {
    FoldsPartition(|signals|, folds, k);
    EmptyStretch(signals, moves, Bound(|signals|, folds, k), Bound(|signals|, folds, k + 1));
  }

  /** When every populated fold earns its costs the whole episode does: the ratio
      1 implies a positive net. */
  lemma {:induction false} AllFoldsPositive(signals: seq<int>, moves: seq<real>, cost: real, folds: nat, k: nat)
    requires Scored(signals, moves) && 0 < folds && k <= folds
    requires forall j :: 0 <= j < k && Populated(signals, folds, j) ==> Positive(signals, moves, cost, folds, j)
    ensures var b := Bound(|signals|, folds, k);
            && b <= |signals| && Net(signals, moves, cost, b) >= 0.0
            && (Count(signals, 0, b) > 0 ==> Net(signals, moves, cost, b) > 0.0)
  {
    if k == 0 {
      BoundEnds(|signals|, folds);
    } else {
      AllFoldsPositive(signals, moves, cost, folds, k - 1);
      NetStep(signals, moves, cost, folds, k - 1);
      if Populated(signals, folds, k - 1) {
        assert Positive(signals, moves, cost, folds, k - 1);
      } else {
        QuietFold(signals, moves, cost, folds, k - 1);
      }
    }
  }

  lemma {:induction false} EmptyStretch(signals: seq<int>, moves: seq<real>, lo: nat, hi: nat)
    requires Scored(signals, moves) && lo <= hi <= |signals|
    ensures Count(signals, lo, hi) == 0 ==> Gross(signals, moves, lo, hi) == 0.0
    decreases hi - lo
  {
    if lo < hi {
      EmptyStretch(signals, moves, lo, hi - 1);
    }
  }

  // ---- The chosen family ---------------------------------------------------------------------------

  datatype Family = Momentum | MeanReversion

  /** The figures of one episode, as main computes them. */
  datatype Score = Score(gross: real, cost: real, stressed: real, reversedStressed: real, family: Family)

  method ScoreEpisode(signals: seq<int>, moves: seq<real>, perSignal: real) returns (s: Score)
    requires Scored(signals, moves)
    ensures s.gross == Gross(signals, moves, 0, |signals|) && s.cost == perSignal * Count(signals, 0, |signals|) as real
    ensures s.stressed == s.gross - 2.0 * s.cost && s.reversedStressed == -s.gross - 2.0 * s.cost
    ensures s.family.Momentum? <==> s.stressed >= s.reversedStressed
  {
    var gross, count := SumSignals(signals, moves, 0, |signals|);
    var cost := perSignal * count as real;
    var net := gross - cost;
    var stressed := net - cost;
    var reversedNet := -gross - cost;
    var reversedStressed := reversedNet - cost;
    s := Score(gross, cost, stressed, reversedStressed,
        if stressed >= reversedStressed then Momentum else MeanReversion);
  }

  function Abs(x: real): real {
    if x >= 0.0 then x else -x
  }

  /** The chosen family follows the sign of the gross, its stressed net is the
      absolute gross less twice the cost, and it is the better of the two. */
  lemma ChosenFamily(s: Score)
    requires s.stressed == s.gross - 2.0 * s.cost && s.reversedStressed == -s.gross - 2.0 * s.cost
    requires s.family.Momentum? <==> s.stressed >= s.reversedStressed
    ensures s.family.Momentum? <==> s.gross >= 0.0
    ensures (if s.family.Momentum? then s.stressed else s.reversedStressed) == Abs(s.gross) - 2.0 * s.cost
    ensures s.stressed <= Abs(s.gross) - 2.0 * s.cost && s.reversedStressed <= Abs(s.gross) - 2.0 * s.cost
  {
  }

  lemma {:induction false} GrossReversed(signals: seq<int>, moves: seq<real>, flipped: seq<real>, lo: nat, hi: nat)
    requires Scored(signals, moves) && |flipped| == |moves| && lo <= hi <= |signals|
    requires forall i :: 0 <= i < |moves| ==> flipped[i] == -moves[i]
    ensures Gross(signals, flipped, lo, hi) == -Gross(signals, moves, lo, hi)
    decreases hi - lo
  {
    if lo < hi {
      GrossReversed(signals, moves, flipped, lo, hi - 1);
    }
  }

  /** Mirrored moves swap the two fold ratios. */
  lemma {:induction false} MirroredFolds(
      signals: seq<int>, moves: seq<real>, flipped: seq<real>, cost: real, folds: nat, k: nat)
    requires Scored(signals, moves) && |flipped| == |moves| && k <= folds
    requires forall i :: 0 <= i < |moves| ==> flipped[i] == -moves[i]
    ensures var t := TallyOf(signals, moves, cost, folds, k);
            TallyOf(signals, flipped, cost, folds, k) == Tally(t.reversed, t.positive, t.populated)
  {
    if k > 0 {
      MirroredFolds(signals, moves, flipped, cost, folds, k - 1);
      FoldsPartition(|signals|, folds, k - 1);
      GrossReversed(signals, moves, flipped, Bound(|signals|, folds, k - 1), Bound(|signals|, folds, k));
    }
  }
}
