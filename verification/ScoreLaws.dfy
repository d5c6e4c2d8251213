/**
 What the composite score rewards, on the breakdowns it is reported with, and what its Sharpe-equivalent, consistency
 and completeness measure.
 */
module ScoreLaws {
  import opened Wrappers
  import opened Arithmetic
  import opened Events
  import opened Drawdown
  import opened Scoring
  import opened ClassLaws

  // ---- The composite ------------------------------------------------------------------------------

  /** At least as good in every component. */
  predicate Dominates(s: ScoreBreakdown, t: ScoreBreakdown) {
    && s.sharpe >= t.sharpe && s.maxDrawdown <= t.maxDrawdown
    && s.consistency >= t.consistency && s.dataCompleteness >= t.dataCompleteness
  }

  lemma ClampMonotone(x: real, y: real)
    requires x >= y
    ensures Clamp01(x) >= Clamp01(y)
  {
  }

  lemma RoundMonotone(x: real, y: real)
    requires x >= y
    ensures Round(x) >= Round(y)
  {
  }

  /** A lead that is at least as good in every component scores at least as high. */
  lemma BetterScoresHigher(root: real -> real, a: seq<OutcomeEvent>, b: seq<OutcomeEvent>, now: real, then': real)
    requires Dominates(Score(root, a, now), Score(root, b, then'))
    ensures Score(root, a, now).aiScore >= Score(root, b, then').aiScore
  {
    var s, t := Score(root, a, now), Score(root, b, then');
    ClampIsIdentity(root, a, now);
    ClampIsIdentity(root, b, then');
    ClampMonotone(s.sharpe / 2.0, t.sharpe / 2.0);
    ClampMonotone(1.0 - s.maxDrawdown, 1.0 - t.maxDrawdown);
    RoundMonotone(WeightedScore(s.sharpe, s.maxDrawdown, s.consistency, s.dataCompleteness),
                  WeightedScore(t.sharpe, t.maxDrawdown, t.consistency, t.dataCompleteness));
  }

  function SharpePoints(sharpe: real): real {
    if sharpe <= 0.0 then 0.0 else if sharpe >= 2.0 then 40.0 else 20.0 * sharpe
  }

  function DrawdownPoints(mdd: real): real {
    if mdd <= 0.0 then 25.0 else if mdd >= 1.0 then 0.0 else 25.0 * (1.0 - mdd)
  }

  function Points(s: ScoreBreakdown): real {
    SharpePoints(s.sharpe) + DrawdownPoints(s.maxDrawdown) + 20.0 * s.consistency + 15.0 * s.dataCompleteness
  }

  /** The score is the whole number nearest to the points: up to 40, 25, 20 and 15 for the four components. */
  lemma ScoreIsNearestToPoints(root: real -> real, events: seq<OutcomeEvent>, now: real)
    ensures var s := Score(root, events, now);
            && Points(s) - 0.5 < s.aiScore as real <= Points(s) + 0.5
            && 0.0 <= s.consistency <= 1.0 && 0.0 <= s.dataCompleteness <= 1.0
  {
    ClampIsIdentity(root, events, now);
    ConsistencyInRange(root, Map(Timestamp, SortBy(Timestamp, events)));
  }

  /** Every component is at its best or at its worst, as told. */
  predicate AtCorner(s: ScoreBreakdown, sharpe: bool, drawdown: bool, consistency: bool, completeness: bool) {
    && (if sharpe then s.sharpe >= 2.0 else s.sharpe <= 0.0)
    && (if drawdown then s.maxDrawdown == 0.0 else s.maxDrawdown >= 1.0)
    && s.consistency == (if consistency then 1.0 else 0.0)
    && s.dataCompleteness == (if completeness then 1.0 else 0.0)
  }

  /** With each component at its best or at its worst, the score is 40, 25, 20 and 15 for the best ones together. */
  lemma CornerScores(root: real -> real, events: seq<OutcomeEvent>, now: real,
                     sharpe: bool, drawdown: bool, consistency: bool, completeness: bool)
    requires AtCorner(Score(root, events, now), sharpe, drawdown, consistency, completeness)
    ensures Score(root, events, now).aiScore
            == (if sharpe then 40 else 0) + (if drawdown then 25 else 0)
               + (if consistency then 20 else 0) + (if completeness then 15 else 0)
  {
    ScoreIsNearestToPoints(root, events, now);
  }

  // ---- Completeness -------------------------------------------------------------------------------

  lemma {:induction false} InWindowSnoc(events: seq<OutcomeEvent>, e: OutcomeEvent, now: real)
    ensures InWindow(events + [e], now) == InWindow(events, now) + if e.timestamp >= now - 2_592_000.0 then 1 else 0
  {
    if events == [] {
      assert ([] + [e])[1..] == [];
    } else {
      assert (events + [e])[1..] == events[1..] + [e];
      InWindowSnoc(events[1..], e, now);
    }
  }

  /** The positions of the events of the last 30 days. */
  function Recent(events: seq<OutcomeEvent>, now: real): set<int> {
    set i | 0 <= i < |events| && events[i].timestamp >= now - 2_592_000.0
  }

  lemma {:induction false} InWindowCountsRecent(events: seq<OutcomeEvent>, now: real)
    ensures InWindow(events, now) == |Recent(events, now)|
    decreases |events|
  {
    if events == [] {
    } else {
      var init, last := events[..|events| - 1], events[|events| - 1];
      assert init + [last] == events;
      InWindowCountsRecent(init, now);
      InWindowSnoc(init, last, now);
      var added := if last.timestamp >= now - 2_592_000.0 then {|init|} else {};
      assert Recent(events, now) == Recent(init, now) + added;
    }
  }

  /** Completeness is a thirtieth per event of the last 30 days, at most 1. */
  lemma CompletenessCountsRecent(root: real -> real, events: seq<OutcomeEvent>, now: real)
    ensures var recent := |Recent(events, now)|;
            Score(root, events, now).dataCompleteness == if recent >= 30 then 1.0 else recent as real / 30.0
  {
    var sorted := SortBy(Timestamp, events);
    SortSorts(Timestamp, events, 0.0);
    CompletenessIgnoresOrder(sorted, events, now);
    InWindowCountsRecent(events, now);
  }

  // ---- Sharpe-equivalent --------------------------------------------------------------------------

  /** With fewer than two returns it is 0, with equal ones 10 or 0 by their sign. */
  lemma SharpeWithoutDeviation(root: real -> real, rs: seq<real>, periods: real)
    requires IsSqrt(root)
    ensures |rs| < 2 ==> SharpeEquivalent(root, rs, periods) == 0.0
    ensures |rs| >= 2 && AllEqual(rs, rs[0]) ==>
              SharpeEquivalent(root, rs, periods) == if rs[0] > 0.0 then 10.0 else 0.0
  {
    if |rs| >= 2 && AllEqual(rs, rs[0]) {
      MeanOfEqual(rs, rs[0]);
      NoDeviationIffEqual(rs, rs[0]);
      NonNegativeQuotient(0.0, (|rs| - 1) as real);
      RootIsZero(root, 0.0);
    }
  }

  /** Mean over sample deviation, annualized: s^2 * (sum / (n-1)) == mean^2 * periods, of the mean's sign. */
  predicate IsSharpe(s: real, mean: real, sum: real, freedom: real, periods: real)
    requires freedom > 0.0
  {
    && Square(s) * (sum / freedom) == Square(mean) * periods
    && (s > 0.0 <==> mean > 0.0) && (s < 0.0 <==> mean < 0.0)
  }

  lemma SignOfQuotient(x: real, y: real, z: real)
    requires y > 0.0 && z > 0.0
    ensures x / y * z > 0.0 <==> x > 0.0
    ensures x / y * z < 0.0 <==> x < 0.0
  {
    var q := x / y;
    assert q * y == x;
    if q > 0.0 {
      PositiveProduct(q, y);
      PositiveProduct(q, z);
    } else if q < 0.0 {
      NegativeProduct(q, y);
      NegativeProduct(q, z);
    }
  }

  lemma SquareOfQuotient(mean: real, dev: real, r: real, variance: real, periods: real)
    requires dev > 0.0 && dev * dev == variance && r * r == periods
    ensures Square(mean / dev * r) * variance == Square(mean) * periods
  {
    var q := mean / dev;
    assert q * dev == mean;
    assert Square(q * r) * (dev * dev) == Square(q * dev) * (r * r);
  }

  lemma SharpeOfDeviation(root: real -> real, mean: real, sum: real, freedom: real, periods: real)
    requires IsSqrt(root) && sum > 0.0 && freedom > 0.0 && periods > 0.0
    ensures root(sum / freedom) > 0.0
    ensures IsSharpe(mean / root(sum / freedom) * root(periods), mean, sum, freedom, periods)
  {
    NonNegativeQuotient(sum, freedom);
    RootIsZero(root, sum / freedom);
    RootIsZero(root, periods);
    SignOfQuotient(mean, root(sum / freedom), root(periods));
    SquareOfQuotient(mean, root(sum / freedom), root(periods), sum / freedom, periods);
  }

  lemma SharpeLaw(root: real -> real, rs: seq<real>, periods: real)
    requires IsSqrt(root) && |rs| >= 2 && !AllEqual(rs, rs[0]) && periods > 0.0
    ensures IsSharpe(SharpeEquivalent(root, rs, periods), Mean(rs), SquaredDeviations(rs, Mean(rs)),
                     (|rs| - 1) as real, periods)
  {
    var mean := Mean(rs);
    SquaredDeviationsNonNegative(rs, mean);
    NoDeviationIffEqual(rs, mean);
    if AllEqual(rs, mean) { assert rs[0] == mean; }
    SharpeOfDeviation(root, mean, SquaredDeviations(rs, mean), (|rs| - 1) as real, periods);
  }

  // ---- Consistency --------------------------------------------------------------------------------

  /** The gaps add up to the span. */
  lemma {:induction false} GapsAddUp(sorted: seq<real>)
    requires Ascending(IDENTITY, sorted) && sorted != []
    ensures Total(Gaps(sorted)) == sorted[|sorted| - 1] - sorted[0]
  {
    if |sorted| < 2 {
    } else {
      var n := |sorted| - 1;
      var init := sorted[..n];
      GapsAddUp(init);
      assert IDENTITY(sorted[n - 1]) <= IDENTITY(sorted[n]);
      var g := sorted[n] - sorted[n - 1];
      TotalSnoc(Gaps(init), g);
      assert Gaps(init) + [] == Gaps(init);
    }
  }

  lemma {:induction false} TotalSnoc(s: seq<real>, x: real)
    ensures Total(s + [x]) == Total(s) + x
  {
    if s == [] {
      assert ([] + [x])[1..] == [];
    } else {
      assert (s + [x])[1..] == s[1..] + [x];
      TotalSnoc(s[1..], x);
    }
  }

  /** Consistency is 1 minus the coefficient of variation of the gaps, 0 where that is above 1. */
  lemma ConsistencyLaw(root: real -> real, timestamps: seq<real>) returns (cv: real)
    requires IsSqrt(root)
    ensures timestamps == [] ==> Consistency(root, timestamps) == 0.0
    ensures 0 < |timestamps| < 3 ==> Consistency(root, timestamps) == 0.3
    ensures var gaps := Gaps(SortBy(IDENTITY, timestamps));
            |timestamps| >= 3 ==>
              if gaps == [] then Consistency(root, timestamps) == 0.0
              else && IsVariation(cv, Mean(gaps), |gaps| as real, SquaredDeviations(gaps, Mean(gaps)))
                   && Consistency(root, timestamps) == if cv >= 1.0 then 0.0 else 1.0 - cv
  {
    var gaps := Gaps(SortBy(IDENTITY, timestamps));
    cv := 0.0;
    if |timestamps| >= 3 && gaps != [] {
      var mean := Mean(gaps);
      SumPositive(gaps);
      NonNegativeQuotient(Total(gaps), |gaps| as real);
      SquaredDeviationsNonNegative(gaps, mean);
      CvFromVariance(root, SquaredDeviations(gaps, mean), |gaps| as real, mean);
      cv := root(SquaredDeviations(gaps, mean) / |gaps| as real) / mean;
    }
  }

  // ---- The components of a breakdown ------------------------------------------------------------

  function ReturnsOf(events: seq<OutcomeEvent>): seq<real> {
    Map((e: OutcomeEvent) => e.pnlBps / 10_000.0, SortBy(Timestamp, events))
  }

  lemma ReturnsAreMapped(events: seq<OutcomeEvent>)
    ensures ReturnsOf(events) == Map(Return, SortBy(Timestamp, events))
    ensures |ReturnsOf(events)| == |events|
  {
    SortKeepsLength(Timestamp, events);
  }

  /** Sharpe-equivalent and drawdown are those of the returns in time order, annualized by 365 periods. */
  lemma BreakdownMeasures(root: real -> real, events: seq<OutcomeEvent>, now: real)
    requires IsSqrt(root)
    ensures var rs, s := ReturnsOf(events), Score(root, events, now);
            && |rs| == |events|
            && (|rs| < 2 ==> s.sharpe == 0.0)
            && (|rs| >= 2 && AllEqual(rs, rs[0]) ==> s.sharpe == if rs[0] > 0.0 then 10.0 else 0.0)
            && (|rs| >= 2 && !AllEqual(rs, rs[0]) ==>
                  IsSharpe(s.sharpe, Mean(rs), SquaredDeviations(rs, Mean(rs)), (|rs| - 1) as real, 365.0))
            && (NoReturnBelowMinusOne(rs) ==> IsMaxDrawdown(rs, s.maxDrawdown) && 0.0 <= s.maxDrawdown <= 1.0)
            && s.consistency == Consistency(root, Map(Timestamp, SortBy(Timestamp, events)))
  {
    var rs := ReturnsOf(events);
    ReturnsAreMapped(events);
    SharpeWithoutDeviation(root, rs, 365.0);
    if |rs| >= 2 && !AllEqual(rs, rs[0]) { SharpeLaw(root, rs, 365.0); }
    WorstMeetsDefinition(rs);
  }

  // ---- A single event -----------------------------------------------------------------------------

  /** One event without a loss scores 32 if it is of the last 30 days, and 31 otherwise. */
  lemma LoneGain(root: real -> real, e: OutcomeEvent, now: real)
    requires e.pnlBps >= 0.0
    ensures Score(root, [e], now).aiScore == if e.timestamp >= now - 2_592_000.0 then 32 else 31
  {
    assert [e][1..] == [];
    assert SortBy(Timestamp, [e]) == [e];
    var rs := Map(Return, [e]);
    assert Equity(rs, 0) == 1.0 && Equity(rs, 1) == 1.0 + rs[0];
    assert rs[0] >= 0.0 && Peak(rs, 1) == Equity(rs, 1);
    assert Worst(rs, 1) == 0.0;
    InWindowSnoc([], e, now);
    assert [] + [e] == [e];
    ScoreIsNearestToPoints(root, [e], now);
  }
}
