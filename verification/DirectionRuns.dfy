/**
 The autocorrelation of any series of directions from its mean, its ends and how often it changes; and what follows
 for series that persist.
 */
module DirectionRuns {
  import opened Wrappers
  import opened Arithmetic
  import opened Events
  import opened Classify
  import opened Drift

  /** How often the direction changes among the first k. */
  function Changes(d: seq<real>, k: nat): nat
    requires k <= |d|
  {
    if k <= 1 then 0 else Changes(d, k - 1) + if d[k - 1] == d[k - 2] then 0 else 1
  }

  /** Sum of d_i + d_{i-1} over 1 <= i < k. */
  function NeighbourSums(d: seq<real>, k: nat): real
    requires k <= |d|
  {
    if k <= 1 then 0.0 else NeighbourSums(d, k - 1) + (d[k - 1] + d[k - 2])
  }

  lemma {:induction false} NeighboursSumToTwice(d: seq<real>, k: nat)
    requires 1 <= k <= |d|
    ensures NeighbourSums(d, k) == 2.0 * Total(d[..k]) - d[0] - d[k - 1]
  {
    PartialSum(d, k - 1);
    if k == 1 {
      assert d[..0] == [];
    } else {
      NeighboursSumToTwice(d, k - 1);
    }
  }

  lemma NeighbourProduct(x: real, y: real, m: real)
    requires (x == 1.0 || x == -1.0) && (y == 1.0 || y == -1.0)
    ensures Product(x - m, y - m) == (if x == y then 1.0 else -1.0) - Product(m, x + y) + Square(m)
  {
    Distribute(x, m, y - m);
    DistributeSum(m, x, y);
  }

  /** Sum of m(d_i + d_{i-1}) over 1 <= i < k. */
  function ScaledNeighbours(d: seq<real>, m: real, k: nat): real
    requires k <= |d|
  {
    if k <= 1 then 0.0 else ScaledNeighbours(d, m, k - 1) + Product(m, d[k - 1] + d[k - 2])
  }

  function Repeated(x: real, k: nat): real { if k == 0 then 0.0 else Repeated(x, k - 1) + x }

  lemma {:induction false} RepeatedIsProduct(x: real, k: nat)
    ensures Repeated(x, k) == k as real * x
  {
    if k == 0 {
      ZeroProduct(0.0, x);
    } else {
      RepeatedIsProduct(x, k - 1);
      assert k as real * x == (k - 1) as real * x + x;
    }
  }

  lemma {:induction false} ScaledIsProduct(d: seq<real>, m: real, k: nat)
    requires k <= |d|
    ensures ScaledNeighbours(d, m, k) == Product(m, NeighbourSums(d, k))
  {
    if k <= 1 {
      ZeroProduct(0.0, m);
    } else {
      ScaledIsProduct(d, m, k - 1);
      DistributeSum(m, NeighbourSums(d, k - 1), d[k - 1] + d[k - 2]);
    }
  }

  lemma {:induction false} NumOfSigns(d: seq<real>, m: real, k: nat)
    requires Signs(d) && 1 <= k <= |d|
    ensures Num(d, m, k) == (k - 1) as real - 2.0 * Changes(d, k) as real - ScaledNeighbours(d, m, k)
                            + Repeated(Square(m), k - 1)
  {
    if k > 1 {
      NumOfSigns(d, m, k - 1);
      NeighbourProduct(d[k - 1], d[k - 2], m);
    }
  }

  /** The numerator for any m, from the sum of the series. */
  function Gathered(n: real, m: real, sum: real, changes: real, ends: real): real {
    n - 1.0 - 2.0 * changes - Product(m, 2.0 * sum - ends) + (n - 1.0) * Square(m)
  }

  lemma NumFromSums(d: seq<real>, m: real)
    requires Signs(d) && d != []
    ensures Num(d, m, |d|) == Gathered(|d| as real, m, Total(d), Changes(d, |d|) as real, d[0] + d[|d| - 1])
  {
    NumOfSigns(d, m, |d|);
    NeighboursSumToTwice(d, |d|);
    assert d[..|d|] == d;
    ScaledIsProduct(d, m, |d|);
    RepeatedIsProduct(Square(m), |d| - 1);
    assert NeighbourSums(d, |d|) == 2.0 * Total(d) - (d[0] + d[|d| - 1]);
  }

  function Numerator(n: real, m: real, changes: real, ends: real): real {
    n - 1.0 - 2.0 * changes - (n + 1.0) * Square(m) + Product(m, ends)
  }

  lemma TimesMean(m: real, n: real, sum: real)
    requires m * n == sum
    ensures Product(m, sum) == n * Square(m)
  {
  }

  lemma ProductOfDifference(m: real, sum: real, ends: real)
    ensures Product(m, 2.0 * sum - ends) == 2.0 * Product(m, sum) - Product(m, ends)
  {
  }

  lemma Regrouped(m: real, n: real, sum: real, changes: real, ends: real)
    requires m * n == sum
    ensures Gathered(n, m, sum, changes, ends) == Numerator(n, m, changes, ends)
  {
    TimesMean(m, n, sum);
    ProductOfDifference(m, sum, ends);
  }

  lemma Transitive(x: real, y: real, z: real)
    requires x == y && y == z
    ensures x == z
  {
  }

  predicate IsMean(m: real, n: real, sum: real) { m * n == sum }

  lemma NumAtMean(d: seq<real>, m: real)
    requires Signs(d) && d != [] && IsMean(m, |d| as real, Total(d))
    ensures Num(d, m, |d|) == Numerator(|d| as real, m, Changes(d, |d|) as real, d[0] + d[|d| - 1])
  {
    var n, changes, ends := |d| as real, Changes(d, |d|) as real, d[0] + d[|d| - 1];
    Transitive(Num(d, m, |d|), Gathered(n, m, Total(d), changes, ends), Numerator(n, m, changes, ends)) by {
      NumFromSums(d, m);
      Regrouped(m, n, Total(d), changes, ends);
    }
  }

  lemma MeanIsMean(d: seq<real>)
    requires d != []
    ensures IsMean(Mean(d), |d| as real, Total(d))
  {
  }

  lemma NumAtItsMean(d: seq<real>)
    requires Signs(d) && d != []
    ensures Num(d, Mean(d), |d|) == Numerator(|d| as real, Mean(d), Changes(d, |d|) as real, d[0] + d[|d| - 1])
  {
    MeanIsMean(d);
    NumAtMean(d, Mean(d));
  }

  /**
   Any series of n >= 3 directions that do not all agree, with mean m and c changes: its autocorrelation is
   (n - 1 - 2c - (n + 1)m^2 + m(d_1 + d_n)) / (n(1 - m^2)).
   */
  lemma AutocorrClosedForm(d: seq<real>)
    requires Signs(d) && |d| >= 3 && !Agree(d)
    ensures var n, m := |d| as real, Mean(d);
            && n * (1.0 - Square(m)) > 0.0
            && Autocorr(d) == Numerator(n, m, Changes(d, |d|) as real, d[0] + d[|d| - 1]) / (n * (1.0 - Square(m)))
  {
    DenZeroIffAgree(d);
    DenAtMean(d);
    NumAtItsMean(d);
  }

  /** With as many BUYs as SELLs it is (n - 1 - 2c)/n. */
  lemma BalancedAutocorr(d: seq<real>)
    requires Signs(d) && |d| >= 3 && Total(d) == 0.0
    ensures !Agree(d)
    ensures Autocorr(d) == (|d| as real - 1.0 - 2.0 * Changes(d, |d|) as real) / |d| as real
  {
    AgreeingSum(d);
    AutocorrClosedForm(d);
    ZeroProduct(0.0, d[0] + d[|d| - 1]);
    ZeroProduct(0.0, 0.0);
    assert Mean(d) == 0.0;
    assert Square(Mean(d)) == 0.0;
  }

  /** k equal directions, then k of the other. */
  ghost predicate Persists(d: seq<real>, k: nat) {
    && Signs(d) && |d| == 2 * k && k > 0
    && (forall i :: 0 <= i < k ==> d[i] == d[0])
    && (forall i :: k <= i < 2 * k ==> d[i] == -d[0])
  }

  lemma {:induction false} ChangesOfPersistence(d: seq<real>, k: nat, j: nat)
    requires Persists(d, k) && j <= |d|
    ensures Changes(d, j) == if j <= k then 0 else 1
  {
    if j > 1 { ChangesOfPersistence(d, k, j - 1); }
  }

  lemma {:induction false} SumOfPersistence(d: seq<real>, k: nat, j: nat)
    requires Persists(d, k) && j <= |d|
    ensures Total(d[..j]) == d[0] * (if j <= k then j as real else (2 * k - j) as real)
  {
    if j == 0 {
      assert d[..0] == [];
      ZeroProduct(0.0, d[0]);
    } else {
      SumOfPersistence(d, k, j - 1);
      PartialSum(d, j - 1);
    }
  }

  /** Persistence of n = 2k >= 4 directions: the autocorrelation is exactly (n-3)/n. */
  lemma PersistenceClosedForm(d: seq<real>, k: nat)
    requires Persists(d, k) && k >= 2
    ensures Autocorr(d) == (|d| - 3) as real / |d| as real && !Agree(d)
  {
    SumOfPersistence(d, k, 2 * k);
    assert d[..2 * k] == d;
    ZeroProduct(0.0, d[0]);
    BalancedAutocorr(d);
    ChangesOfPersistence(d, k, |d|);
  }

  lemma PersistenceBounds(n: nat)
    requires n >= 4
    ensures 0.25 <= (n - 3) as real / n as real < 1.0
  {
    var q := (n - 3) as real / n as real;
    assert q * n as real == n as real - 3.0;
    if q >= 1.0 { NonNegativeProduct(q - 1.0, n as real); }
    if q < 0.25 { PositiveProduct(0.25 - q, n as real); }
  }
}
