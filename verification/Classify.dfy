/** The strategy classifier: lag-1 autocorrelation of trade directions and the branch ladder on top of it. */
module Classify {
  import opened Wrappers
  import opened Arithmetic
  import opened Events

  // ---- Lag-1 autocorrelation ------------------------------------------------------------------------

  function SideSign(e: OutcomeEvent): real { if e.direction == Some(Sell) then -1.0 else 1.0 }

  /** Sum of (d_i - m)^2 over i < k. */
  function Den(d: seq<real>, m: real, k: nat): real
    requires k <= |d|
  {
    if k == 0 then 0.0 else Den(d, m, k - 1) + Square(d[k - 1] - m)
  }

  /** Sum of (d_i - m)(d_{i-1} - m) over 1 <= i < k. */
  function Num(d: seq<real>, m: real, k: nat): real
    requires k <= |d|
  {
    if k <= 1 then 0.0 else Num(d, m, k - 1) + Product(d[k - 1] - m, d[k - 2] - m)
  }

  function Autocorr(d: seq<real>): real {
    if |d| < 3 then 0.0
    else
      var m := Mean(d);
      if Den(d, m, |d|) == 0.0 then 0.0 else Num(d, m, |d|) / Den(d, m, |d|)
  }

  method DirectionAutocorr(events: seq<OutcomeEvent>) returns (r: real)
    ensures r == Autocorr(Map(SideSign, events))
    ensures -1.0 < r < 1.0
  {
    var d := Map(SideSign, events);
    AutocorrStrictlyBounded(d);
    if |d| < 3 { return 0.0; }
    var mean := Mean(d);
    var num, den := 0.0, 0.0;
    for i := 0 to |d|
      invariant den == Den(d, mean, i)
    {
      den := den + Square(d[i] - mean);
    }
    for i := 1 to |d|
      invariant num == Num(d, mean, i)
    {
      num := num + Product(d[i] - mean, d[i - 1] - mean);
    }
    if den == 0.0 { return 0.0; }
    return num / den;
  }

  ghost predicate Signs(d: seq<real>) {
    forall i :: 0 <= i < |d| ==> d[i] == 1.0 || d[i] == -1.0
  }

  predicate Agree(d: seq<real>) {
    forall i :: 0 <= i < |d| ==> d[i] == d[0]
  }

  /** Twice a product of two numbers is at most the sum of their squares, in absolute value. */
  lemma ProductBound(x: real, y: real)
    ensures -(Square(x) + Square(y)) <= 2.0 * Product(x, y) <= Square(x) + Square(y)
  {
    SquareSign(x - y);
    SquareSign(x + y);
    assert Square(x - y) == Square(x) - 2.0 * Product(x, y) + Square(y);
    assert Square(x + y) == Square(x) + 2.0 * Product(x, y) + Square(y);
  }

  lemma {:induction false} NumBound(d: seq<real>, m: real, k: nat)
    requires 1 <= k <= |d|
    ensures var slack := 2.0 * Den(d, m, k) - Square(d[0] - m) - Square(d[k - 1] - m);
            -slack <= 2.0 * Num(d, m, k) <= slack
  {
    if k == 1 {
      assert Den(d, m, 0) == 0.0;
    } else {
      NumBound(d, m, k - 1);
      ProductBound(d[k - 1] - m, d[k - 2] - m);
    }
  }

  lemma {:induction false} PartialSum(d: seq<real>, k: nat)
    requires k < |d|
    ensures Total(d[..k + 1]) == Total(d[..k]) + d[k]
  {
    if k == 0 {
      assert d[..1] == [d[0]] && d[..1][1..] == [];
    } else {
      assert d[..k + 1][1..] == d[1..][..k] && d[..k][1..] == d[1..][..k - 1];
      PartialSum(d[1..], k - 1);
    }
  }

  /** Sum of d_i - m over i < k. */
  function Deviation(d: seq<real>, m: real, k: nat): real
    requires k <= |d|
  {
    if k == 0 then 0.0 else Deviation(d, m, k - 1) + (d[k - 1] - m)
  }

  lemma {:induction false} DeviationIsShift(d: seq<real>, m: real, k: nat)
    requires k <= |d|
    ensures Deviation(d, m, k) == Total(d[..k]) - m * k as real
  {
    if k == 0 {
      assert d[..0] == [];
    } else {
      DeviationIsShift(d, m, k - 1);
      PartialSum(d, k - 1);
      assert m * k as real == m * (k - 1) as real + m;
    }
  }

  lemma DeviationAtMean(d: seq<real>)
    requires d != []
    ensures Deviation(d, Mean(d), |d|) == 0.0
  {
    DeviationIsShift(d, Mean(d), |d|);
    assert d[..|d|] == d;
    MeanTimesLength(d);
  }

  /** (x - m)^2 == 1 - m^2 - 2m(x - m) when x^2 == 1. */
  lemma SignDeviation(x: real, m: real, dev: real)
    requires x == 1.0 || x == -1.0
    ensures Square(x - m) == 1.0 - Square(m) - 2.0 * Product(m, x - m)
    ensures Product(m, dev + (x - m)) == Product(m, dev) + Product(m, x - m)
  {
    assert Square(x) == 1.0;
    assert Square(x - m) == Square(x) - 2.0 * Product(m, x) + Square(m);
    assert Product(m, x - m) == Product(m, x) - Square(m);
  }

  lemma {:induction false} DenOfSigns(d: seq<real>, m: real, k: nat)
    requires Signs(d) && k <= |d|
    ensures Den(d, m, k) == k as real * (1.0 - Square(m)) - 2.0 * Product(m, Deviation(d, m, k))
  {
    if k == 0 {
    } else {
      DenOfSigns(d, m, k - 1);
      SignDeviation(d[k - 1], m, Deviation(d, m, k - 1));
      var f := 1.0 - Square(m);
      assert k as real * f == (k - 1) as real * f + f;
    }
  }

  lemma MeanTimesLength(d: seq<real>)
    requires d != []
    ensures Mean(d) * |d| as real == Total(d)
  {
  }

  lemma DenAtMean(d: seq<real>)
    requires Signs(d) && d != []
    ensures Den(d, Mean(d), |d|) == |d| as real * (1.0 - Square(Mean(d)))
  {
    DenOfSigns(d, Mean(d), |d|);
    DeviationAtMean(d);
  }

  lemma {:induction false} SumOfSigns(d: seq<real>)
    requires Signs(d) && d != []
    ensures -(|d| as real) <= Total(d) <= |d| as real
    ensures Total(d) == |d| as real ==> d[0] == 1.0 && Agree(d)
    ensures Total(d) == -(|d| as real) ==> d[0] == -1.0 && Agree(d)
    ensures Agree(d) ==> Total(d) == d[0] * |d| as real
  {
    if |d| == 1 {
      assert d[1..] == [];
    } else {
      var rest := d[1..];
      SumOfSigns(rest);
      assert forall i :: 1 <= i < |d| ==> d[i] == rest[i - 1];
      if Agree(d) {
        assert rest[0] == d[0] && Agree(rest);
        assert d[0] * |d| as real == d[0] * |rest| as real + d[0];
      }
    }
  }

  lemma AgreeingSum(d: seq<real>)
    requires Signs(d) && d != []
    ensures -(|d| as real) <= Total(d) <= |d| as real
    ensures Agree(d) <==> Total(d) == |d| as real || Total(d) == -(|d| as real)
  {
    SumOfSigns(d);
  }

  lemma DenSign(d: seq<real>)
    requires Signs(d) && d != [] && -(|d| as real) <= Total(d) <= |d| as real
    ensures Den(d, Mean(d), |d|) >= 0.0
    ensures Den(d, Mean(d), |d|) == 0.0 <==> Total(d) == |d| as real || Total(d) == -(|d| as real)
  {
    DenAtMean(d);
    MeanTimesLength(d);
    MeanOfSigns(Mean(d), |d| as real, Total(d));
  }

  lemma MeanWithin(d: seq<real>)
    requires d != [] && -(|d| as real) < Total(d) < |d| as real
    ensures -1.0 < Mean(d) < 1.0
  {
    MeanTimesLength(d);
    MeanInRange(Mean(d), |d| as real, Total(d));
  }

  /** The denominator is zero exactly when all directions agree. */
  lemma DenZeroIffAgree(d: seq<real>)
    requires Signs(d) && d != []
    ensures Den(d, Mean(d), |d|) == 0.0 <==> Agree(d)
    ensures Den(d, Mean(d), |d|) >= 0.0
    ensures !Agree(d) ==> -1.0 < Mean(d) < 1.0
  {
    AgreeingSum(d);
    DenSign(d);
    if !Agree(d) { MeanWithin(d); }
  }

  lemma MeanInRange(m: real, n: real, sum: real)
    requires n > 0.0 && m * n == sum && -n <= sum <= n
    ensures -1.0 <= m <= 1.0
    ensures m == 1.0 <==> sum == n
    ensures m == -1.0 <==> sum == -n
  {
    if m > 1.0 { PositiveProduct(m - 1.0, n); }
    if m < -1.0 { PositiveProduct(-1.0 - m, n); }
    if sum == n { SameFactor(m, 1.0, n); }
    if sum == -n { SameFactor(m, -1.0, n); }
  }

  lemma MeanOfSigns(m: real, n: real, sum: real)
    requires n > 0.0 && m * n == sum && -n <= sum <= n
    ensures n * (1.0 - Square(m)) >= 0.0
    ensures n * (1.0 - Square(m)) == 0.0 <==> sum == n || sum == -n
  {
    MeanInRange(m, n, sum);
    var f := 1.0 - Square(m);
    assert f == (1.0 - m) * (1.0 + m);
    if m == 1.0 || m == -1.0 {
      assert f == 0.0;
    } else {
      PositiveProduct(1.0 - m, 1.0 + m);
      PositiveProduct(n, f);
    }
  }

  lemma RatioBound(num: real, den: real)
    requires den > 0.0 && -den < num < den
    ensures -1.0 < num / den < 1.0
  {
    var r := num / den;
    assert r * den == num;
    if r >= 1.0 { NonNegativeProduct(r - 1.0, den); }
    if r <= -1.0 { NonNegativeProduct(-1.0 - r, den); }
  }

  /** The autocorrelation lies strictly between -1 and 1 for every series of directions. */
  lemma AutocorrStrictlyBounded(d: seq<real>)
    requires Signs(d)
    ensures -1.0 < Autocorr(d) < 1.0
  {
    if |d| >= 3 && !Agree(d) {
      var m := Mean(d);
      DenZeroIffAgree(d);
      NumBound(d, m, |d|);
      SquareSign(d[0] - m);
      SquareSign(d[|d| - 1] - m);
      RatioBound(Num(d, m, |d|), Den(d, m, |d|));
    } else if |d| >= 3 {
      DenZeroIffAgree(d);
    }
  }

  // ---- Alternating and agreeing series ----------------------------------------------------------------

  ghost predicate Alternates(d: seq<real>) {
    Signs(d) && forall i :: 0 <= i < |d| - 1 ==> d[i + 1] == -d[i]
  }

  lemma {:induction false} NumOfAlternation(d: seq<real>, m: real, k: nat)
    requires Alternates(d) && 1 <= k <= |d|
    ensures Num(d, m, k) == (k - 1) as real * (Square(m) - 1.0)
  {
    if k == 1 {
    } else {
      NumOfAlternation(d, m, k - 1);
      var x := d[k - 2];
      assert d[k - 1] == -x;
      assert Product(-x - m, x - m) == Square(m) - Square(x);
      assert Square(x) == 1.0;
      assert (k - 1) as real * (Square(m) - 1.0) == (k - 2) as real * (Square(m) - 1.0) + (Square(m) - 1.0);
    }
  }

  lemma CancelFactor(a: real, n: real, f: real, num: real, den: real)
    requires n > 0.0 && den > 0.0 && num == a * -f && den == n * f
    ensures num / den == -(a / n)
  {
    var q, r := -(a / n), num / den;
    assert q * n == -a;
    assert q * (n * f) == (q * n) * f;
    assert r * den == num == q * den;
    SameFactor(r, q, den);
  }

  lemma AlternationDiffers(d: seq<real>)
    requires Alternates(d) && |d| >= 2
    ensures !Agree(d)
  {
    assert d[1] == -d[0];
  }

  /** An alternating series of length n >= 3 has autocorrelation exactly -(n-1)/n, for odd and even n alike. */
  lemma AlternationClosedForm(d: seq<real>)
    requires Alternates(d) && |d| >= 3
    ensures Autocorr(d) == -((|d| - 1) as real / |d| as real)
  {
    var m := Mean(d);
    AlternationDiffers(d);
    DenZeroIffAgree(d);
    DenAtMean(d);
    NumOfAlternation(d, m, |d|);
    var f := 1.0 - Square(m);
    assert Square(m) - 1.0 == -f;
    CancelFactor((|d| - 1) as real, |d| as real, f, Num(d, m, |d|), Den(d, m, |d|));
  }

  // ---- The classifier -------------------------------------------------------------------------------

  datatype StrategyClass = Momentum | MeanReversion | YieldArb

  datatype Classification = Classification(strategy: StrategyClass, confidence: real,
                                           directionAutocorr: real, sizeCv: real, meanAbsPnlBps: real)

  function PositiveSizes(events: seq<OutcomeEvent>): (sizes: seq<real>)
    ensures forall i :: 0 <= i < |sizes| ==> sizes[i] > 0.0
  {
    if events == [] then []
    else
      var size := if events[0].sizePct.Some? then events[0].sizePct.value else 0.0;
      (if size > 0.0 then [size] else []) + PositiveSizes(events[1..])
  }

  /** Coefficient of variation of the positive sizes; 1 when there is none. */
  function SizeCv(root: real -> real, events: seq<OutcomeEvent>): real {
    var sizes := PositiveSizes(events);
    var mean := if sizes != [] then Mean(sizes) else 0.0;
    var variance := if |sizes| > 1 then SquaredDeviations(sizes, mean) / |sizes| as real else 0.0;
    if mean > 0.0 then root(variance) / mean else 1.0
  }

  function AbsPnl(e: OutcomeEvent): real { if e.pnlBps < 0.0 then -e.pnlBps else e.pnlBps }

  function MeanAbsPnl(events: seq<OutcomeEvent>): real {
    if events == [] then 0.0 else Mean(Map(AbsPnl, events))
  }

  predicate AllSameDirection(d: seq<real>) { d != [] && Agree(d) }

  /** The branch ladder; the confidence is the value handed to the clamp. */
  function Ladder(autocorr: real, sizeCv: real, meanAbsPnl: real, allSame: bool, n: nat): (StrategyClass, real) {
    if allSame && n >= 3 then (Momentum, 0.9)
    else if autocorr >= 0.25 then (Momentum, autocorr)
    else if autocorr <= -0.15 then (MeanReversion, -autocorr)
    else if sizeCv < 0.25 && meanAbsPnl < 80.0 && n >= 5 then (YieldArb, 1.0 - sizeCv)
    else (if meanAbsPnl >= 100.0 then Momentum else MeanReversion, 0.35)
  }

  function ClassifySorted(root: real -> real, sorted: seq<OutcomeEvent>): Classification {
    var d := Map(SideSign, sorted);
    var autocorr := Autocorr(d);
    var sizeCv := SizeCv(root, sorted);
    var meanAbsPnl := MeanAbsPnl(sorted);
    var (strategy, confidence) := Ladder(autocorr, sizeCv, meanAbsPnl, AllSameDirection(d), |sorted|);
    Classification(strategy, Clamp01(confidence), autocorr, sizeCv, meanAbsPnl)
  }

  function ClassifyLead(root: real -> real, events: seq<OutcomeEvent>): Classification {
    ClassifySorted(root, SortBy(Timestamp, events))
  }

  function StrategyTypeCode(s: StrategyClass): nat {
    match s
    case Momentum => 0
    case MeanReversion => 1
    case YieldArb => 2
  }

  /** A confidence above 0.35 comes from one of the four informed branches. */
  lemma InformedBranches(autocorr: real, sizeCv: real, meanAbsPnl: real, allSame: bool, n: nat)
    requires Ladder(autocorr, sizeCv, meanAbsPnl, allSame, n).1 > 0.35
    ensures || (allSame && n >= 3) || autocorr > 0.35 || autocorr < -0.35
            || (sizeCv < 0.25 && meanAbsPnl < 80.0 && n >= 5)
  {
  }

  lemma SizeCvNonNegative(root: real -> real, events: seq<OutcomeEvent>)
    requires IsSqrt(root)
    ensures SizeCv(root, events) >= 0.0
  {
    var sizes := PositiveSizes(events);
    if sizes != [] {
      var mean := Mean(sizes);
      SquaredDeviationsNonNegative(sizes, mean);
      NonNegativeQuotient(SquaredDeviations(sizes, mean), |sizes| as real);
      var variance := if |sizes| > 1 then SquaredDeviations(sizes, mean) / |sizes| as real else 0.0;
      if mean > 0.0 { NonNegativeQuotient(root(variance), mean); }
    }
  }

  /** Every confidence is in [0,1], and the clamps never change it. */
  lemma ConfidenceInRange(root: real -> real, events: seq<OutcomeEvent>)
    requires IsSqrt(root)
    ensures var c := ClassifyLead(root, events);
            var sorted := SortBy(Timestamp, events);
            var raw := Ladder(c.directionAutocorr, c.sizeCv, c.meanAbsPnlBps,
                              AllSameDirection(Map(SideSign, sorted)), |sorted|);
            && 0.0 <= c.confidence <= 1.0
            && c.confidence == raw.1
            && c.strategy == raw.0
            && -1.0 < c.directionAutocorr < 1.0
  {
    var sorted := SortBy(Timestamp, events);
    AutocorrStrictlyBounded(Map(SideSign, sorted));
    SizeCvNonNegative(root, sorted);
  }

  /** One of the branches above the fallback applies. */
  predicate Informed(c: Classification, sorted: seq<OutcomeEvent>) {
    || (AllSameDirection(Map(SideSign, sorted)) && |sorted| >= 3)
    || c.directionAutocorr > 0.35 || c.directionAutocorr < -0.35
    || (c.sizeCv < 0.25 && c.meanAbsPnlBps < 80.0 && |sorted| >= 5)
  }

  lemma ConfidentIsInformed(root: real -> real, events: seq<OutcomeEvent>)
    requires IsSqrt(root) && ClassifyLead(root, events).confidence > 0.35
    ensures Informed(ClassifyLead(root, events), SortBy(Timestamp, events))
  {
    ConfidenceInRange(root, events);
    var c := ClassifyLead(root, events);
    var sorted := SortBy(Timestamp, events);
    InformedBranches(c.directionAutocorr, c.sizeCv, c.meanAbsPnlBps, AllSameDirection(Map(SideSign, sorted)), |sorted|);
  }

  /** Fewer than three events always end in the fallback branch. */
  lemma ShortListsFallBack(root: real -> real, events: seq<OutcomeEvent>)
    requires |events| < 3
    ensures ClassifyLead(root, events).confidence == 0.35
    ensures ClassifyLead(root, events).strategy != YieldArb
  {
    SortKeepsLength(Timestamp, events);
  }

  lemma FractionBounds(n: nat)
    requires n >= 3
    ensures 0.5 < (n - 1) as real / n as real < 1.0
  {
    var q := (n - 1) as real / n as real;
    assert q * n as real == n as real - 1.0;
    if q >= 1.0 { NonNegativeProduct(q - 1.0, n as real); }
    if q <= 0.5 { NonNegativeProduct(0.5 - q, n as real); }
  }

  lemma LadderOfAlternation(autocorr: real, sizeCv: real, meanAbsPnl: real, n: nat)
    requires autocorr < -0.5
    ensures Ladder(autocorr, sizeCv, meanAbsPnl, false, n) == (MeanReversion, -autocorr)
  {
  }

  lemma ClassifiedByAutocorr(root: real -> real, sorted: seq<OutcomeEvent>, c: real)
    requires Autocorr(Map(SideSign, sorted)) == -c && 0.5 < c < 1.0 && !AllSameDirection(Map(SideSign, sorted))
    ensures ClassifySorted(root, sorted).strategy == MeanReversion
    ensures ClassifySorted(root, sorted).confidence == c
    ensures ClassifySorted(root, sorted).directionAutocorr == -c
  {
    LadderOfAlternation(-c, SizeCv(root, sorted), MeanAbsPnl(sorted), |sorted|);
  }

  /** A series that alternates in time order is mean reversion with confidence (n-1)/n. */
  lemma AlternatingIsMeanReversion(root: real -> real, events: seq<OutcomeEvent>)
    requires |events| >= 3 && Alternates(Map(SideSign, SortBy(Timestamp, events)))
    ensures var c := ClassifyLead(root, events);
            && c.strategy == MeanReversion
            && c.confidence == (|events| - 1) as real / |events| as real
            && c.directionAutocorr == -c.confidence
  {
    var sorted := SortBy(Timestamp, events);
    SortKeepsLength(Timestamp, events);
    AlternationClosedForm(Map(SideSign, sorted));
    AlternationDiffers(Map(SideSign, sorted));
    FractionBounds(|events|);
    ClassifiedByAutocorr(root, sorted, (|events| - 1) as real / |events| as real);
  }

  lemma SortedDirections(events: seq<OutcomeEvent>, side: real)
    requires forall i :: 0 <= i < |events| ==> SideSign(events[i]) == side
    ensures forall i :: 0 <= i < |SortBy(Timestamp, events)| ==> SideSign(SortBy(Timestamp, events)[i]) == side
  {
    var sorted := SortBy(Timestamp, events);
    SortSorts(Timestamp, events, 0.0);
    forall i | 0 <= i < |sorted| ensures SideSign(sorted[i]) == side {
      assert sorted[i] in multiset(events);
    }
  }

  lemma ClassifiedByAgreement(root: real -> real, sorted: seq<OutcomeEvent>, side: real)
    requires |sorted| >= 3 && forall i :: 0 <= i < |sorted| ==> SideSign(sorted[i]) == side
    ensures ClassifySorted(root, sorted).strategy == Momentum && ClassifySorted(root, sorted).confidence == 0.9
  {
    assert AllSameDirection(Map(SideSign, sorted));
  }

  /** A series of at least three equal directions is momentum with confidence 0.9. */
  lemma AgreeingIsMomentum(root: real -> real, events: seq<OutcomeEvent>)
    requires |events| >= 3 && forall i :: 0 <= i < |events| ==> SideSign(events[i]) == SideSign(events[0])
    ensures ClassifyLead(root, events).strategy == Momentum && ClassifyLead(root, events).confidence == 0.9
  {
    SortKeepsLength(Timestamp, events);
    SortedDirections(events, SideSign(events[0]));
    ClassifiedByAgreement(root, SortBy(Timestamp, events), SideSign(events[0]));
  }

  // ---- Swapping every BUY and SELL --------------------------------------------------------------------

  function Swapped(e: OutcomeEvent): OutcomeEvent {
    e.(direction := if e.direction == Some(Sell) then Some(Buy) else Some(Sell))
  }

  lemma {:induction false} InsertSwapped(x: OutcomeEvent, s: seq<OutcomeEvent>)
    ensures Map(Swapped, Insert(Timestamp, x, s)) == Insert(Timestamp, Swapped(x), Map(Swapped, s))
  {
    if s == [] || Timestamp(x) <= Timestamp(s[0]) {
    } else {
      InsertSwapped(x, s[1..]);
      assert Map(Swapped, s)[1..] == Map(Swapped, s[1..]);
    }
  }

  lemma {:induction false} SortSwapped(s: seq<OutcomeEvent>)
    ensures Map(Swapped, SortBy(Timestamp, s)) == SortBy(Timestamp, Map(Swapped, s))
  {
    if s == [] {
    } else {
      SortSwapped(s[1..]);
      InsertSwapped(s[0], SortBy(Timestamp, s[1..]));
      assert Map(Swapped, s)[1..] == Map(Swapped, s[1..]);
    }
  }

  lemma {:induction false} SizesSwapped(s: seq<OutcomeEvent>)
    ensures PositiveSizes(Map(Swapped, s)) == PositiveSizes(s)
  {
    if s == [] {
    } else {
      SizesSwapped(s[1..]);
      assert Map(Swapped, s)[1..] == Map(Swapped, s[1..]);
    }
  }

  function Negated(d: seq<real>): seq<real> { Map(x => -x, d) }

  lemma {:induction false} SumNegated(d: seq<real>)
    ensures Total(Negated(d)) == -Total(d)
  {
    if d == [] {
    } else {
      SumNegated(d[1..]);
      assert Negated(d)[1..] == Negated(d[1..]);
    }
  }

  lemma {:induction false} DenNegated(d: seq<real>, m: real, k: nat)
    requires k <= |d|
    ensures Den(Negated(d), -m, k) == Den(d, m, k)
  {
    if k == 0 {
    } else {
      DenNegated(d, m, k - 1);
      assert Square(-d[k - 1] - -m) == Square(d[k - 1] - m);
    }
  }

  lemma {:induction false} NumNegated(d: seq<real>, m: real, k: nat)
    requires k <= |d|
    ensures Num(Negated(d), -m, k) == Num(d, m, k)
  {
    if k <= 1 {
    } else {
      NumNegated(d, m, k - 1);
      assert Product(-d[k - 1] - -m, -d[k - 2] - -m) == Product(d[k - 1] - m, d[k - 2] - m);
    }
  }

  lemma NegatedQuotient(x: real, n: real)
    requires n > 0.0
    ensures (-x) / n == -(x / n)
  {
    var q, r := x / n, (-x) / n;
    assert q * n == x && r * n == -x;
    SameFactor(r, -q, n);
  }

  lemma AutocorrNegated(d: seq<real>)
    ensures Autocorr(Negated(d)) == Autocorr(d)
  {
    if |d| >= 3 {
      SumNegated(d);
      NegatedQuotient(Total(d), |d| as real);
      DenNegated(d, Mean(d), |d|);
      NumNegated(d, Mean(d), |d|);
    }
  }

  lemma DirectionsSwapped(sorted: seq<OutcomeEvent>)
    ensures var d, d' := Map(SideSign, sorted), Map(SideSign, Map(Swapped, sorted));
            Autocorr(d') == Autocorr(d) && AllSameDirection(d') == AllSameDirection(d)
  {
    var d := Map(SideSign, sorted);
    assert Map(SideSign, Map(Swapped, sorted)) == Negated(d);
    AutocorrNegated(d);
    assert forall i :: 0 <= i < |d| ==> Negated(d)[i] == -d[i];
  }

  lemma FeaturesSwapped(root: real -> real, sorted: seq<OutcomeEvent>)
    ensures SizeCv(root, Map(Swapped, sorted)) == SizeCv(root, sorted)
    ensures MeanAbsPnl(Map(Swapped, sorted)) == MeanAbsPnl(sorted)
  {
    SizesSwapped(sorted);
    assert Map(AbsPnl, Map(Swapped, sorted)) == Map(AbsPnl, sorted);
  }

  /** Swapping every BUY and SELL changes nothing in the classification. */
  lemma SwapInvariant(root: real -> real, events: seq<OutcomeEvent>)
    ensures ClassifyLead(root, Map(Swapped, events)) == ClassifyLead(root, events)
  {
    var sorted := SortBy(Timestamp, events);
    SortSwapped(events);
    DirectionsSwapped(sorted);
    FeaturesSwapped(root, sorted);
  }
}
