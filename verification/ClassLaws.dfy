/**
 Which class and confidence the features of a history decide, and what the features are, for every list of events;
 families of histories for each branch of the classifier.
 */
module ClassLaws {
  import opened Wrappers
  import opened Arithmetic
  import opened Events
  import opened Classify
  import opened DirectionRuns
  import opened Drift

  // ---- The features decide the class --------------------------------------------------------------

  /** Three or more events, all on one side. */
  predicate OneSided(events: seq<OutcomeEvent>) {
    |events| >= 3 && forall i :: 0 <= i < |events| ==> SideSign(events[i]) == SideSign(events[0])
  }

  lemma UnsortedDirections(events: seq<OutcomeEvent>, side: real)
    requires forall i :: 0 <= i < |SortBy(Timestamp, events)| ==> SideSign(SortBy(Timestamp, events)[i]) == side
    ensures forall i :: 0 <= i < |events| ==> SideSign(events[i]) == side
  {
    var sorted := SortBy(Timestamp, events);
    SortSorts(Timestamp, events, 0.0);
    forall i | 0 <= i < |events| ensures SideSign(events[i]) == side {
      assert events[i] in multiset(sorted);
    }
  }

  lemma SidesOfSorted(sorted: seq<OutcomeEvent>)
    requires AllSameDirection(Map(SideSign, sorted))
    ensures forall i :: 0 <= i < |sorted| ==> SideSign(sorted[i]) == SideSign(sorted[0])
  {
    var d := Map(SideSign, sorted);
    forall i | 0 <= i < |sorted| ensures SideSign(sorted[i]) == SideSign(sorted[0]) {
      assert d[i] == d[0];
    }
  }

  lemma OneSidedSorted(events: seq<OutcomeEvent>)
    ensures var sorted := SortBy(Timestamp, events);
            OneSided(events) <==> AllSameDirection(Map(SideSign, sorted)) && |sorted| >= 3
  {
    SortKeepsLength(Timestamp, events);
    var sorted := SortBy(Timestamp, events);
    if OneSided(events) {
      SortedDirections(events, SideSign(events[0]));
    } else if AllSameDirection(Map(SideSign, sorted)) {
      SidesOfSorted(sorted);
      UnsortedDirections(events, SideSign(sorted[0]));
    }
  }

  /** The features are those of the events in time order. */
  lemma FeaturesOfSorted(root: real -> real, events: seq<OutcomeEvent>)
    ensures var c, sorted := ClassifyLead(root, events), SortBy(Timestamp, events);
            && c.directionAutocorr == Autocorr(Map(SideSign, sorted))
            && c.sizeCv == SizeCv(root, sorted) && c.meanAbsPnlBps == MeanAbsPnl(sorted)
  {
  }

  /** Strong autocorrelation of either sign settles the class; one side throughout settles it before that. */
  ghost predicate AutocorrDecides(c: Classification, oneSided: bool) {
    && (oneSided ==> c.strategy == Momentum && c.confidence == 0.9)
    && (!oneSided && c.directionAutocorr >= 0.25 ==>
          c.strategy == Momentum && c.confidence == c.directionAutocorr)
    && (!oneSided && c.directionAutocorr <= -0.15 ==>
          c.strategy == MeanReversion && c.confidence == -c.directionAutocorr)
  }

  /** In between, steady sizes and small returns over five or more events are yield arbitrage, and nothing else is. */
  ghost predicate SteadinessDecides(c: Classification, oneSided: bool, n: nat) {
    var steady := c.sizeCv < 0.25 && c.meanAbsPnlBps < 80.0 && n >= 5;
    var weak := !oneSided && -0.15 < c.directionAutocorr < 0.25;
    && (c.strategy == YieldArb <==> weak && steady)
    && (weak && steady ==> c.confidence == 1.0 - c.sizeCv)
    && (weak && !steady ==> c.confidence == 0.35 && (c.strategy == Momentum <==> c.meanAbsPnlBps >= 100.0))
  }

  lemma FeaturesDecide(root: real -> real, events: seq<OutcomeEvent>)
    requires IsSqrt(root)
    ensures var c := ClassifyLead(root, events);
            AutocorrDecides(c, OneSided(events)) && SteadinessDecides(c, OneSided(events), |events|)
    ensures StrategyTypeCode(Momentum) == 0 && StrategyTypeCode(MeanReversion) == 1 && StrategyTypeCode(YieldArb) == 2
  {
    ConfidenceInRange(root, events);
    OneSidedSorted(events);
    SortKeepsLength(Timestamp, events);
  }

  // ---- What the features are ----------------------------------------------------------------------

  function SizeOf(e: OutcomeEvent): real { if e.sizePct.Some? then e.sizePct.value else 0.0 }

  /** The sizes taken into account are the positive ones, each as often as it occurs. */
  lemma {:induction false} SizesArePositiveOnes(events: seq<OutcomeEvent>, x: real)
    ensures multiset(PositiveSizes(events))[x] == if x > 0.0 then multiset(Map(SizeOf, events))[x] else 0
  {
    if events == [] {
    } else {
      SizesArePositiveOnes(events[1..], x);
      var all := Map(SizeOf, events);
      assert all == [all[0]] + Map(SizeOf, events[1..]);
      var head := if all[0] > 0.0 then [all[0]] else [];
      assert PositiveSizes(events) == head + PositiveSizes(events[1..]);
    }
  }

  /** cv is the standard deviation over the mean: (cv * mean)^2 * n is the sum of the squared deviations. */
  predicate IsVariation(cv: real, mean: real, n: real, sum: real) {
    cv >= 0.0 && Square(Product(cv, mean)) * n == sum
  }

  lemma CvFromVariance(root: real -> real, sum: real, n: real, mean: real)
    requires IsSqrt(root) && sum >= 0.0 && n > 0.0 && mean > 0.0
    ensures IsVariation(root(sum / n) / mean, mean, n, sum)
  {
    NonNegativeQuotient(sum, n);
    NonNegativeQuotient(root(sum / n), mean);
    var cv := root(sum / n) / mean;
    assert cv * mean == root(sum / n);
    assert sum / n * n == sum;
  }

  lemma CvOfSizes(root: real -> real, events: seq<OutcomeEvent>)
    requires PositiveSizes(events) != []
    ensures var sizes := PositiveSizes(events);
            && SquaredDeviations(sizes, Mean(sizes)) >= 0.0 && Mean(sizes) > 0.0
            && SizeCv(root, events) == root(SquaredDeviations(sizes, Mean(sizes)) / |sizes| as real) / Mean(sizes)
  {
    var sizes := PositiveSizes(events);
    SumPositive(sizes);
    NonNegativeQuotient(Total(sizes), |sizes| as real);
    SquaredDeviationsNonNegative(sizes, Mean(sizes));
    if |sizes| == 1 {
      LoneDeviation(sizes);
      NonNegativeQuotient(0.0, |sizes| as real);
    }
  }

  lemma SizeCvLaw(root: real -> real, events: seq<OutcomeEvent>)
    requires IsSqrt(root)
    ensures var sizes, cv := PositiveSizes(events), SizeCv(root, events);
            if sizes == [] then cv == 1.0
            else IsVariation(cv, Mean(sizes), |sizes| as real, SquaredDeviations(sizes, Mean(sizes)))
  {
    var sizes := PositiveSizes(events);
    if sizes != [] {
      CvOfSizes(root, events);
      CvFromVariance(root, SquaredDeviations(sizes, Mean(sizes)), |sizes| as real, Mean(sizes));
    }
  }

  lemma LoneDeviation(sizes: seq<real>)
    requires |sizes| == 1
    ensures SquaredDeviations(sizes, Mean(sizes)) == 0.0
  {
    assert sizes[1..] == [] && Total(sizes) == sizes[0];
    SquareSign(sizes[0] - Mean(sizes));
  }

  function Magnitude(e: OutcomeEvent): real { if e.pnlBps >= 0.0 then e.pnlBps else -e.pnlBps }

  lemma MeanTimesCount(sorted: seq<OutcomeEvent>, sum: real)
    requires sum == Total(Map(AbsPnl, sorted))
    ensures IsMean(MeanAbsPnl(sorted), |sorted| as real, sum)
  {
    if sorted == [] {
      assert Map(AbsPnl, sorted) == [];
      ZeroProduct(0.0, |sorted| as real);
    } else {
      MeanTimesLength(Map(AbsPnl, sorted));
    }
  }

  lemma SumOfMagnitudes(events: seq<OutcomeEvent>)
    ensures Total(Map(AbsPnl, SortBy(Timestamp, events))) == Total(Map(Magnitude, events))
  {
    var sorted := SortBy(Timestamp, events);
    SortSorts(Timestamp, events, 0.0);
    TotalOfPermutation(Magnitude, sorted, events);
    assert Map(AbsPnl, sorted) == Map(Magnitude, sorted);
  }

  /** The mean absolute return times the number of events is the sum of the absolute returns. */
  lemma MeanReturnLaw(root: real -> real, events: seq<OutcomeEvent>)
    ensures IsMean(ClassifyLead(root, events).meanAbsPnlBps, |events| as real, Total(Map(Magnitude, events)))
  {
    SortKeepsLength(Timestamp, events);
    SumOfMagnitudes(events);
    MeanTimesCount(SortBy(Timestamp, events), Total(Map(Magnitude, events)));
    FeaturesOfSorted(root, events);
  }

  // ---- Families of histories ----------------------------------------------------------------------

  /** k events on one side and then k on the other, in time order. */
  ghost predicate Persistent(events: seq<OutcomeEvent>, k: nat) {
    Persists(Map(SideSign, SortBy(Timestamp, events)), k)
  }

  lemma StrongAutocorrIsMomentum(root: real -> real, events: seq<OutcomeEvent>, x: real)
    requires IsSqrt(root) && !OneSided(events) && x >= 0.25
    requires Autocorr(Map(SideSign, SortBy(Timestamp, events))) == x
    ensures var c := ClassifyLead(root, events);
            c.strategy == Momentum && c.confidence == c.directionAutocorr == x
  {
    FeaturesOfSorted(root, events);
    FeaturesDecide(root, events);
  }

  lemma PersistentIsTwoSided(events: seq<OutcomeEvent>, k: nat)
    requires Persistent(events, k) && k >= 2
    ensures !OneSided(events) && |events| == 2 * k
  {
    SortKeepsLength(Timestamp, events);
    PersistenceClosedForm(Map(SideSign, SortBy(Timestamp, events)), k);
    OneSidedSorted(events);
  }

  /** Persistence is momentum, with confidence (n-3)/n. */
  lemma PersistentIsMomentum(root: real -> real, events: seq<OutcomeEvent>, k: nat)
    requires IsSqrt(root) && Persistent(events, k) && k >= 2
    ensures var c := ClassifyLead(root, events);
            && c.strategy == Momentum && c.confidence == c.directionAutocorr
            && c.confidence == (|events| - 3) as real / |events| as real
  {
    PersistentIsTwoSided(events, k);
    PersistenceClosedForm(Map(SideSign, SortBy(Timestamp, events)), k);
    PersistenceBounds(|events|);
    StrongAutocorrIsMomentum(root, events, (|events| - 3) as real / |events| as real);
  }

  const MEAN_REVERSION_BASELINE := 1

  /** It never drifts from a momentum baseline, and from a mean-reversion one exactly for thresholds up to (n-3)/n. */
  lemma PersistenceDrift(root: real -> real, lead: string, events: seq<OutcomeEvent>, k: nat, cycle: int,
                         threshold: real)
    requires IsSqrt(root) && Persistent(events, k) && k >= 2
    ensures !ResultOf(root, lead, MOMENTUM_BASELINE, events, cycle, threshold).drifted
    ensures ResultOf(root, lead, MEAN_REVERSION_BASELINE, events, cycle, threshold).drifted
            <==> threshold <= (|events| - 3) as real / |events| as real
  {
    PersistentIsMomentum(root, events, k);
  }

  lemma {:induction false} TotalBetween(s: seq<real>, low: real, high: real)
    requires forall i :: 0 <= i < |s| ==> low <= s[i] < high
    ensures |s| as real * low <= Total(s) && (s != [] ==> Total(s) < |s| as real * high)
  {
    if s == [] {
      ZeroProduct(0.0, low);
    } else {
      TotalBetween(s[1..], low, high);
      assert |s| as real * low == (|s| - 1) as real * low + low;
      assert |s| as real * high == (|s| - 1) as real * high + high;
    }
  }

  lemma MeanBetween(s: seq<real>, low: real, high: real)
    requires s != [] && forall i :: 0 <= i < |s| ==> low <= s[i] < high
    ensures low <= Mean(s) < high
  {
    TotalBetween(s, low, high);
    QuotientBetween(Total(s), |s| as real, low, high);
  }

  lemma QuotientBetween(sum: real, n: real, low: real, high: real)
    requires n > 0.0 && n * low <= sum < n * high
    ensures low <= sum / n < high
  {
    var q := sum / n;
    assert q * n == sum;
    if q < low { PositiveProduct(low - q, n); }
    if q >= high { NonNegativeProduct(q - high, n); }
  }

  /** Every return is within the bounds, in absolute value. */
  ghost predicate ReturnsBetween(events: seq<OutcomeEvent>, low: real, high: real) {
    forall i :: 0 <= i < |events| ==>
      var pnl := events[i].pnlBps;
      -high < pnl < high && (pnl >= low || pnl <= -low)
  }

  lemma SortedReturnsBetween(events: seq<OutcomeEvent>, low: real, high: real)
    requires ReturnsBetween(events, low, high)
    ensures forall i :: 0 <= i < |SortBy(Timestamp, events)| ==> low <= AbsPnl(SortBy(Timestamp, events)[i]) < high
  {
    var sorted := SortBy(Timestamp, events);
    SortSorts(Timestamp, events, 0.0);
    forall i | 0 <= i < |sorted| ensures low <= AbsPnl(sorted[i]) < high {
      assert sorted[i] in multiset(events);
    }
  }

  lemma MeanReturnBetween(root: real -> real, events: seq<OutcomeEvent>, low: real, high: real)
    requires events != [] && ReturnsBetween(events, low, high)
    ensures low <= ClassifyLead(root, events).meanAbsPnlBps < high
  {
    SortKeepsLength(Timestamp, events);
    SortedReturnsBetween(events, low, high);
    FeaturesOfSorted(root, events);
    MeanBetween(Map(AbsPnl, SortBy(Timestamp, events)), low, high);
  }

  /** One or two events are momentum when every return is at least 100 bps, and mean reversion when none is. */
  lemma ShortListsByReturns(root: real -> real, events: seq<OutcomeEvent>, high: real)
    requires IsSqrt(root) && 0 < |events| < 3
    ensures ReturnsBetween(events, 100.0, high) ==> ClassifyLead(root, events).strategy == Momentum
    ensures ReturnsBetween(events, 0.0, 100.0) ==> ClassifyLead(root, events).strategy == MeanReversion
  {
    ShortListsFallBack(root, events);
    FeaturesDecide(root, events);
    assert |Map(SideSign, SortBy(Timestamp, events))| < 3 by { SortKeepsLength(Timestamp, events); }
    if ReturnsBetween(events, 100.0, high) { MeanReturnBetween(root, events, 100.0, high); }
    if ReturnsBetween(events, 0.0, 100.0) { MeanReturnBetween(root, events, 0.0, 100.0); }
  }

  lemma {:induction false} EqualSizes(events: seq<OutcomeEvent>, size: real)
    requires size > 0.0 && forall i :: 0 <= i < |events| ==> events[i].sizePct == Some(size)
    ensures |PositiveSizes(events)| == |events|
    ensures forall i :: 0 <= i < |events| ==> PositiveSizes(events)[i] == size
  {
    if events != [] { EqualSizes(events[1..], size); }
  }

  lemma {:induction false} NoDeviation(s: seq<real>, x: real)
    requires forall i :: 0 <= i < |s| ==> s[i] == x
    ensures SquaredDeviations(s, x) == 0.0 && Total(s) == |s| as real * x
  {
    if s == [] {
      ZeroProduct(0.0, x);
    } else {
      NoDeviation(s[1..], x);
      SquareSign(s[0] - x);
      assert |s| as real * x == (|s| - 1) as real * x + x;
    }
  }

  lemma QuotientOfMultiple(n: real, x: real)
    requires n > 0.0
    ensures n * x / n == x
  {
  }

  lemma MeanOfEqual(s: seq<real>, x: real)
    requires s != [] && forall i :: 0 <= i < |s| ==> s[i] == x
    ensures Mean(s) == x
  {
    NoDeviation(s, x);
    QuotientOfMultiple(|s| as real, x);
  }

  lemma NoVariation(root: real -> real, n: real, x: real)
    requires IsSqrt(root) && n > 0.0 && x > 0.0
    ensures root(0.0 / n) / x == 0.0
  {
    NonNegativeQuotient(0.0, n);
    SquareSign(root(0.0));
    NonNegativeQuotient(0.0, x);
  }

  lemma EqualSizesHaveNoVariation(root: real -> real, events: seq<OutcomeEvent>, size: real)
    requires IsSqrt(root) && events != [] && size > 0.0
    requires forall i :: 0 <= i < |events| ==> events[i].sizePct == Some(size)
    ensures SizeCv(root, events) == 0.0
  {
    EqualSizes(events, size);
    var sizes := PositiveSizes(events);
    MeanOfEqual(sizes, size);
    NoDeviation(sizes, size);
    CvOfSizes(root, events);
    NoVariation(root, |sizes| as real, size);
  }

  lemma SteadyFeatures(root: real -> real, events: seq<OutcomeEvent>, size: real)
    requires IsSqrt(root) && events != [] && size > 0.0 && ReturnsBetween(events, 0.0, 80.0)
    requires forall i :: 0 <= i < |events| ==> events[i].sizePct == Some(size)
    ensures ClassifyLead(root, events).sizeCv == 0.0 && ClassifyLead(root, events).meanAbsPnlBps < 80.0
  {
    var sorted := SortBy(Timestamp, events);
    SortKeepsLength(Timestamp, events);
    SortSorts(Timestamp, events, 0.0);
    forall i | 0 <= i < |sorted| ensures sorted[i].sizePct == Some(size) {
      assert sorted[i] in multiset(events);
    }
    EqualSizesHaveNoVariation(root, sorted, size);
    MeanReturnBetween(root, events, 0.0, 80.0);
    FeaturesOfSorted(root, events);
  }

  /** Five or more trades of one size with small returns are yield arbitrage unless the autocorrelation is strong. */
  lemma SteadyTrades(root: real -> real, events: seq<OutcomeEvent>, size: real)
    requires IsSqrt(root) && |events| >= 5 && size > 0.0 && ReturnsBetween(events, 0.0, 80.0)
    requires forall i :: 0 <= i < |events| ==> events[i].sizePct == Some(size)
    requires !OneSided(events)
    ensures var c := ClassifyLead(root, events);
            && (c.strategy == Momentum <==> c.directionAutocorr >= 0.25)
            && (c.strategy == MeanReversion <==> c.directionAutocorr <= -0.15)
            && (c.strategy == YieldArb <==> -0.15 < c.directionAutocorr < 0.25)
            && (c.strategy == YieldArb ==> c.confidence == 1.0)
  {
    SteadyFeatures(root, events, size);
    FeaturesDecide(root, events);
  }

  /** With as many BUYs as SELLs, the number of changes c decides how strong it is: (n - 1 - 2c)/n. */
  lemma ChangesDecide(root: real -> real, events: seq<OutcomeEvent>, d: seq<real>)
    requires d == Map(SideSign, SortBy(Timestamp, events)) && |d| >= 3 && Total(d) == 0.0
    ensures ClassifyLead(root, events).directionAutocorr
            == (|d| as real - 1.0 - 2.0 * Changes(d, |d|) as real) / |d| as real
  {
    BalancedAutocorr(d);
    FeaturesOfSorted(root, events);
  }
}
