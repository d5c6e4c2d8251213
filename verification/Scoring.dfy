/** The composite score of a lead: Sharpe-equivalent, drawdown, cadence consistency and data completeness. */
module Scoring {
  import opened Wrappers
  import opened Arithmetic
  import opened Events
  import opened Drawdown

  /** 0 for fewer than two returns; for a zero deviation 10 or 0 by the sign of the mean. */
  function SharpeEquivalent(root: real -> real, rs: seq<real>, periodsPerYear: real): real {
    if |rs| < 2 then 0.0
    else
      var mean := Mean(rs);
      var stdev := root(SquaredDeviations(rs, mean) / (|rs| - 1) as real);
      if stdev == 0.0 then (if mean > 0.0 then 10.0 else 0.0)
      else mean / stdev * root(periodsPerYear)
  }

  /** The positive gaps between consecutive timestamps. */
  function Gaps(sorted: seq<real>): (gaps: seq<real>)
    ensures forall i :: 0 <= i < |gaps| ==> gaps[i] > 0.0
  {
    if |sorted| < 2 then []
    else
      var g := sorted[|sorted| - 1] - sorted[|sorted| - 2];
      Gaps(sorted[..|sorted| - 1]) + if g > 0.0 then [g] else []
  }

  /** Regularity of the cadence: 1 minus the coefficient of variation of the gaps, clamped. */
  function ConsistencyOfGaps(root: real -> real, gaps: seq<real>): real {
    if gaps == [] then 0.0
    else
      var mean := Mean(gaps);
      if mean == 0.0 then 0.0
      else Clamp01(1.0 - root(SquaredDeviations(gaps, mean) / |gaps| as real) / mean)
  }

  const IDENTITY: real -> real := x => x

  function Consistency(root: real -> real, timestamps: seq<real>): real {
    if |timestamps| < 3 then (if timestamps == [] then 0.0 else 0.3)
    else ConsistencyOfGaps(root, Gaps(SortBy(IDENTITY, timestamps)))
  }

  method ConsistencyScore(root: real -> real, timestamps: seq<real>) returns (score: real)
    ensures score == Consistency(root, timestamps)
    ensures 0.0 <= score <= 1.0
  {
    if |timestamps| < 3 { return if |timestamps| == 0 then 0.0 else 0.3; }
    var sorted := SortBy(IDENTITY, timestamps);
    SortKeepsLength(IDENTITY, timestamps);
    var gaps: seq<real> := [];
    for i := 1 to |sorted|
      invariant gaps == Gaps(sorted[..i])
    {
      var g := sorted[i] - sorted[i - 1];
      assert sorted[..i + 1][..i] == sorted[..i];
      if g > 0.0 { gaps := gaps + [g]; }
    }
    assert sorted[..|sorted|] == sorted;
    return ConsistencyOfGaps(root, gaps);
  }

  const WINDOW := 2_592_000.0   // 30 days in seconds

  function InWindow(events: seq<OutcomeEvent>, now: real): nat {
    if events == [] then 0
    else (if events[0].timestamp >= now - WINDOW then 1 else 0) + InWindow(events[1..], now)
  }

  function DataCompleteness(events: seq<OutcomeEvent>, now: real): real {
    if events == [] then 0.0 else Clamp01(InWindow(events, now) as real / 30.0)
  }

  /** Math.round. */
  function Round(x: real): int { (x + 0.5).Floor }

  function WeightedScore(sharpe: real, mdd: real, consistency: real, completeness: real): real {
    100.0 * (0.4 * Clamp01(sharpe / 2.0) + 0.25 * Clamp01(1.0 - mdd) + 0.2 * consistency + 0.15 * completeness)
  }

  datatype ScoreBreakdown = ScoreBreakdown(sharpe: real, maxDrawdown: real, consistency: real,
                                           dataCompleteness: real, aiScore: int)

  function Return(e: OutcomeEvent): real { e.pnlBps / 10_000.0 }

  /** Breakdown of events already in time order. */
  function ScoreSorted(root: real -> real, sorted: seq<OutcomeEvent>, now: real): ScoreBreakdown {
    var rs := Map(Return, sorted);
    var sharpe := SharpeEquivalent(root, rs, 365.0);
    var mdd := Worst(rs, |rs|);
    var consistency := Consistency(root, Map(Timestamp, sorted));
    var completeness := DataCompleteness(sorted, now);
    var ai := Round(WeightedScore(sharpe, mdd, consistency, completeness));
    ScoreBreakdown(sharpe, mdd, consistency, completeness, if ai < 0 then 0 else if ai > 100 then 100 else ai)
  }

  function Score(root: real -> real, events: seq<OutcomeEvent>, now: real): ScoreBreakdown {
    ScoreSorted(root, SortBy(Timestamp, events), now)
  }

  method ScoreLead(root: real -> real, events: seq<OutcomeEvent>, now: real) returns (s: ScoreBreakdown)
    ensures s == Score(root, events, now)
    ensures s.aiScore == Round(WeightedScore(s.sharpe, s.maxDrawdown, s.consistency, s.dataCompleteness))
    ensures 0 <= s.aiScore <= 100
  {
    var sorted := SortBy(Timestamp, events);
    var rs := Map(Return, sorted);
    var timestamps := Map(Timestamp, sorted);
    var sharpe := SharpeEquivalent(root, rs, 365.0);
    var mdd := MaxDrawdown(rs);
    var consistency := ConsistencyScore(root, timestamps);
    var completeness := DataCompleteness(sorted, now);
    var ai := Round(WeightedScore(sharpe, mdd, consistency, completeness));
    WeightedScoreInRange(sharpe, mdd, consistency, completeness);
    s := ScoreBreakdown(sharpe, mdd, consistency, completeness, if ai < 0 then 0 else if ai > 100 then 100 else ai);
  }

  /** With the last two components in [0,1] the rounded score is in 0..100, whatever the first two are. */
  lemma WeightedScoreInRange(sharpe: real, mdd: real, consistency: real, completeness: real)
    requires 0.0 <= consistency <= 1.0 && 0.0 <= completeness <= 1.0
    ensures 0 <= Round(WeightedScore(sharpe, mdd, consistency, completeness)) <= 100
  {
  }

  lemma ConsistencyInRange(root: real -> real, timestamps: seq<real>)
    ensures 0.0 <= Consistency(root, timestamps) <= 1.0
  {
  }

  /** The final clamp never changes anything: every score is the rounded weighted sum, and lies in 0..100. */
  lemma ClampIsIdentity(root: real -> real, events: seq<OutcomeEvent>, now: real)
    ensures var s := Score(root, events, now);
            && s.aiScore == Round(WeightedScore(s.sharpe, s.maxDrawdown, s.consistency, s.dataCompleteness))
            && 0 <= s.aiScore <= 100
  {
    var sorted := SortBy(Timestamp, events);
    ConsistencyInRange(root, Map(Timestamp, sorted));
    var s := Score(root, events, now);
    WeightedScoreInRange(s.sharpe, s.maxDrawdown, s.consistency, s.dataCompleteness);
  }

  /** The score depends only on what each timestamp's events are, in their order: ties matter, all else does not. */
  lemma ScoreDeterminedByTies(root: real -> real, a: seq<OutcomeEvent>, b: seq<OutcomeEvent>, now: real)
    requires SameByKey(Timestamp, a, b)
    ensures Score(root, a, now) == Score(root, b, now)
  {
    SameSortIffSameByKey(Timestamp, a, b);
  }

  /** For distinct timestamps the score depends on the set of events only, not on the order they come in. */
  lemma ScoreIgnoresOrder(root: real -> real, a: seq<OutcomeEvent>, b: seq<OutcomeEvent>, now: real)
    requires multiset(a) == multiset(b) && DistinctKeys(Timestamp, a)
    ensures Score(root, a, now) == Score(root, b, now)
  {
    SortIgnoresOrder(Timestamp, a, b);
  }

  // ---- Tied events in any order -----------------------------------------------------------------------

  lemma {:induction false} DeviationsAsTotal(s: seq<OutcomeEvent>, m: real)
    ensures SquaredDeviations(Map(Return, s), m) == Total(Map((e: OutcomeEvent) => Square(Return(e) - m), s))
  {
    var f := (e: OutcomeEvent) => Square(Return(e) - m);
    if s == [] {
    } else {
      DeviationsAsTotal(s[1..], m);
      TotalStep(f, s);
      assert Map(Return, s)[1..] == Map(Return, s[1..]);
    }
  }

  lemma SharpeIgnoresOrder(root: real -> real, a: seq<OutcomeEvent>, b: seq<OutcomeEvent>, periodsPerYear: real)
    requires multiset(a) == multiset(b)
    ensures SharpeEquivalent(root, Map(Return, a), periodsPerYear)
            == SharpeEquivalent(root, Map(Return, b), periodsPerYear)
  {
    SameLength(a, b);
    TotalOfPermutation(Return, a, b);
    if |a| >= 2 {
      var m := Mean(Map(Return, a));
      DeviationsAsTotal(a, m);
      DeviationsAsTotal(b, m);
      TotalOfPermutation((e: OutcomeEvent) => Square(Return(e) - m), a, b);
    }
  }

  lemma {:induction false} WindowAsTotal(s: seq<OutcomeEvent>, now: real)
    ensures InWindow(s, now) as real
            == Total(Map((e: OutcomeEvent) => if e.timestamp >= now - WINDOW then 1.0 else 0.0, s))
  {
    if s == [] {
    } else {
      WindowAsTotal(s[1..], now);
      TotalStep((e: OutcomeEvent) => if e.timestamp >= now - WINDOW then 1.0 else 0.0, s);
    }
  }

  lemma CompletenessIgnoresOrder(a: seq<OutcomeEvent>, b: seq<OutcomeEvent>, now: real)
    requires multiset(a) == multiset(b)
    ensures DataCompleteness(a, now) == DataCompleteness(b, now)
  {
    SameLength(a, b);
    WindowAsTotal(a, now);
    WindowAsTotal(b, now);
    TotalOfPermutation((e: OutcomeEvent) => if e.timestamp >= now - WINDOW then 1.0 else 0.0, a, b);
  }

  /** The occurrences of a timestamp are copies of it, as many as there are events at that time. */
  lemma {:induction false} CopiesOf(s: seq<OutcomeEvent>, k: real)
    ensures var copies := WithKey(IDENTITY, Map(Timestamp, s), k);
            && AllEqual(copies, k)
            && |copies| as real == Total(Map((e: OutcomeEvent) => if e.timestamp == k then 1.0 else 0.0, s))
  {
    var f := (e: OutcomeEvent) => if e.timestamp == k then 1.0 else 0.0;
    var timestamps := Map(Timestamp, s);
    if s == [] {
    } else {
      CopiesOf(s[1..], k);
      TotalStep(f, s);
      assert timestamps[1..] == Map(Timestamp, s[1..]);
      AllEqualOne(s[0].timestamp, k);
      AllEqualAppend(if s[0].timestamp == k then [s[0].timestamp] else [],
                     WithKey(IDENTITY, Map(Timestamp, s[1..]), k), k);
    }
  }

  lemma SameCopies(a: seq<OutcomeEvent>, b: seq<OutcomeEvent>, k: real)
    requires multiset(a) == multiset(b)
    ensures WithKey(IDENTITY, Map(Timestamp, a), k) == WithKey(IDENTITY, Map(Timestamp, b), k)
  {
    CopiesOf(a, k);
    CopiesOf(b, k);
    TotalOfPermutation((e: OutcomeEvent) => if e.timestamp == k then 1.0 else 0.0, a, b);
  }

  lemma ConsistencyIgnoresOrder(root: real -> real, a: seq<OutcomeEvent>, b: seq<OutcomeEvent>)
    requires multiset(a) == multiset(b)
    ensures Consistency(root, Map(Timestamp, a)) == Consistency(root, Map(Timestamp, b))
  {
    SameLength(a, b);
    forall k ensures WithKey(IDENTITY, Map(Timestamp, a), k) == WithKey(IDENTITY, Map(Timestamp, b), k) {
      SameCopies(a, b, k);
    }
    SameSortIffSameByKey(IDENTITY, Map(Timestamp, a), Map(Timestamp, b));
    if a == [] { assert b == []; }
  }

  /** The order of tied events matters through the drawdown only: permuted lists score alike exactly when it agrees. */
  lemma TiesMatterThroughDrawdown(root: real -> real, a: seq<OutcomeEvent>, b: seq<OutcomeEvent>, now: real)
    requires multiset(a) == multiset(b)
    ensures var s, t := Score(root, a, now), Score(root, b, now);
            && s.sharpe == t.sharpe && s.consistency == t.consistency && s.dataCompleteness == t.dataCompleteness
            && (s == t <==> s.maxDrawdown == t.maxDrawdown)
  {
    var sa, sb := SortBy(Timestamp, a), SortBy(Timestamp, b);
    SortSorts(Timestamp, a, 0.0);
    SortSorts(Timestamp, b, 0.0);
    SharpeIgnoresOrder(root, sa, sb, 365.0);
    ConsistencyIgnoresOrder(root, sa, sb);
    CompletenessIgnoresOrder(sa, sb, now);
  }

  // ---- Perfect cadence ------------------------------------------------------------------------------

  ghost predicate AllEqual(s: seq<real>, g: real) {
    forall i :: 0 <= i < |s| ==> s[i] == g
  }

  lemma {:induction false} SumOfEqual(s: seq<real>, g: real)
    requires AllEqual(s, g)
    ensures Total(s) == g * |s| as real
  {
    if s == [] {
    } else {
      SumOfEqual(s[1..], g);
      assert g * |s| as real == g * (|s| - 1) as real + g;
    }
  }

  lemma {:induction false} NoDeviationIffEqual(s: seq<real>, m: real)
    ensures SquaredDeviations(s, m) == 0.0 <==> AllEqual(s, m)
  {
    if s == [] {
    } else {
      NoDeviationIffEqual(s[1..], m);
      SquaredDeviationsNonNegative(s[1..], m);
      var d := s[0] - m;
      SquareSign(d);
      if AllEqual(s, m) { assert s[0] == m; }
      if AllEqual(s[1..], m) && d == 0.0 {
        forall i | 0 <= i < |s| ensures s[i] == m { if i > 0 { assert s[i] == s[1..][i - 1]; } }
      }
    }
  }

  lemma RootIsZero(root: real -> real, x: real)
    requires IsSqrt(root) && x >= 0.0
    ensures root(x) >= 0.0 && (root(x) == 0.0 <==> x == 0.0)
  {
    SquareSign(root(x));
  }

  lemma EvenGapsArePerfect(root: real -> real, gaps: seq<real>)
    requires IsSqrt(root) && gaps != [] && forall i :: 0 <= i < |gaps| ==> gaps[i] > 0.0
    ensures ConsistencyOfGaps(root, gaps) == 1.0 <==> AllEqual(gaps, gaps[0])
  {
    SumPositive(gaps);
    var n := |gaps| as real;
    var mean := Mean(gaps);
    assert mean * n == Total(gaps);
    var variance := SquaredDeviations(gaps, mean) / n;
    SquaredDeviationsNonNegative(gaps, mean);
    NoDeviationIffEqual(gaps, mean);
    assert variance * n == SquaredDeviations(gaps, mean);
    RootIsZero(root, variance);
    if AllEqual(gaps, gaps[0]) { SumOfEqual(gaps, gaps[0]); SameFactor(mean, gaps[0], n); }
    NonNegativeQuotient(root(variance), mean);
  }

  function Stride(sorted: seq<real>, i: nat): real
    requires i + 1 < |sorted|
  {
    sorted[i + 1] - sorted[i]
  }

  ghost predicate StridesAre(sorted: seq<real>, g: real) {
    forall i :: 0 <= i < |sorted| - 1 ==> Stride(sorted, i) == 0.0 || Stride(sorted, i) == g
  }

  ghost predicate Moves(sorted: seq<real>) {
    exists i :: 0 <= i < |sorted| - 1 && Stride(sorted, i) > 0.0
  }

  /** Distinct neighbours lie exactly g apart, and not all timestamps are the same. */
  ghost predicate EvenlySpaced(sorted: seq<real>, g: real) {
    g > 0.0 && StridesAre(sorted, g) && Moves(sorted)
  }

  lemma StridesOfInit(sorted: seq<real>, g: real)
    requires |sorted| >= 2
    ensures var init, last := sorted[..|sorted| - 1], Stride(sorted, |sorted| - 2);
            && (StridesAre(sorted, g) <==> StridesAre(init, g) && (last == 0.0 || last == g))
            && (Moves(sorted) <==> Moves(init) || last > 0.0)
  {
    var n := |sorted| - 1;
    var init := sorted[..n];
    assert forall i :: 0 <= i < n - 1 ==> Stride(init, i) == Stride(sorted, i);
  }

  lemma {:induction false} GapsAreStrides(sorted: seq<real>, g: real)
    requires Ascending(IDENTITY, sorted) && g > 0.0
    ensures AllEqual(Gaps(sorted), g) <==> StridesAre(sorted, g)
    ensures Gaps(sorted) != [] <==> Moves(sorted)
  {
    if |sorted| < 2 {
    } else {
      var n := |sorted| - 1;
      var init := sorted[..n];
      GapsAreStrides(init, g);
      StridesOfInit(sorted, g);
      assert IDENTITY(sorted[n - 1]) <= IDENTITY(sorted[n]);
      var last := Stride(sorted, n - 1);
      var added := if last > 0.0 then [last] else [];
      assert Gaps(sorted) == Gaps(init) + added;
      AllEqualAppend(Gaps(init), added, g);
      AllEqualOne(last, g);
    }
  }

  lemma AllEqualOne(x: real, g: real)
    ensures AllEqual([x], g) <==> x == g
  {
    assert [x][0] == x;
  }

  lemma AllEqualAppend(a: seq<real>, b: seq<real>, g: real)
    ensures AllEqual(a + b, g) <==> AllEqual(a, g) && AllEqual(b, g)
  {
    if AllEqual(a + b, g) {
      forall i | 0 <= i < |a| ensures a[i] == g { assert (a + b)[i] == g; }
      forall i | 0 <= i < |b| ensures b[i] == g { assert (a + b)[|a| + i] == g; }
    }
  }

  /** The consistency score is 1 exactly for three or more timestamps whose distinct values are evenly spaced. */
  lemma PerfectIffEvenlySpaced(root: real -> real, timestamps: seq<real>)
    requires IsSqrt(root)
    ensures Consistency(root, timestamps) == 1.0 <==>
            |timestamps| >= 3 && exists g :: EvenlySpaced(SortBy(IDENTITY, timestamps), g)
  {
    var sorted := SortBy(IDENTITY, timestamps);
    SortSorts(IDENTITY, timestamps, 0.0);
    var gaps := Gaps(sorted);
    if |timestamps| >= 3 {
      if gaps != [] {
        EvenGapsArePerfect(root, gaps);
        GapsAreStrides(sorted, gaps[0]);
        if AllEqual(gaps, gaps[0]) { assert EvenlySpaced(sorted, gaps[0]); }
      }
      forall g | EvenlySpaced(sorted, g) ensures gaps != [] && AllEqual(gaps, gaps[0]) {
        GapsAreStrides(sorted, g);
        assert gaps[0] == g;
      }
    }
  }

  lemma DrawdownOfTies(root: real -> real, x: OutcomeEvent, y: OutcomeEvent, z: OutcomeEvent, now: real)
    requires x.timestamp == y.timestamp == z.timestamp
    requires || [Return(x), Return(y), Return(z)] == [-0.5, -0.5, 1.0]
             || [Return(x), Return(y), Return(z)] == [-0.5, 1.0, -0.5]
    ensures Score(root, [x, y, z], now).maxDrawdown == if Return(y) < 0.0 then 0.75 else 0.5
  {
    SortOfTies(x, y, z);
    var rs := Map(Return, [x, y, z]);
    assert rs == [Return(x), Return(y), Return(z)];
    assert [Return(x), Return(y), Return(z)][1] == Return(y);
    CurveOfThree(rs);
  }

  /** Why `ScoreDeterminedByTies` asks for the order of tied events: the stable sort keeps it, and drawdowns differ. */
  lemma TiesKeepTheirOrder(root: real -> real, now: real) returns (a: seq<OutcomeEvent>, b: seq<OutcomeEvent>)
    ensures multiset(a) == multiset(b) && !DistinctKeys(Timestamp, a)
    ensures Score(root, a, now).maxDrawdown != Score(root, b, now).maxDrawdown
  {
    var down := OutcomeEvent("", 0.0, -5_000.0, None, None);
    var up := OutcomeEvent("", 0.0, 10_000.0, None, None);
    DrawdownOfTies(root, down, down, up, now);
    DrawdownOfTies(root, down, up, down, now);
    a, b := [down, down, up], [down, up, down];
    assert multiset(a) == multiset{down, down, up} == multiset(b);
    assert Timestamp(a[0]) == Timestamp(a[1]);
  }

  lemma SortOfTies(x: OutcomeEvent, y: OutcomeEvent, z: OutcomeEvent)
    requires x.timestamp == y.timestamp == z.timestamp
    ensures SortBy(Timestamp, [x, y, z]) == [x, y, z]
  {
    assert [x, y, z][1..] == [y, z] && [y, z][1..] == [z] && [z][1..] == [];
    assert SortBy(Timestamp, [z]) == [z];
    assert SortBy(Timestamp, [y, z]) == [y, z];
  }

  lemma CurveOfThree(rs: seq<real>)
    requires rs == [-0.5, -0.5, 1.0] || rs == [-0.5, 1.0, -0.5]
    ensures Worst(rs, 3) == if rs[1] < 0.0 then 0.75 else 0.5
  {
    assert Equity(rs, 0) == 1.0;
    assert Equity(rs, 1) == 0.5;
    assert Equity(rs, 2) == if rs[1] < 0.0 then 0.25 else 1.0;
    assert Equity(rs, 3) == 0.5;
    assert Peak(rs, 1) == 1.0;
    assert Peak(rs, 2) == 1.0;
    assert Peak(rs, 3) == 1.0;
    assert Worst(rs, 1) == 0.5;
    assert Worst(rs, 2) == if rs[1] < 0.0 then 0.75 else 0.5;
  }
}
