/** Maximum drawdown of a compounded equity curve: the one-pass loop against the two-index definition. */
module Drawdown {
  import opened Arithmetic

  /** Equity after the first k returns, starting from 1. */
  function Equity(rs: seq<real>, k: nat): real
    requires k <= |rs|
  {
    if k == 0 then 1.0 else Equity(rs, k - 1) * (1.0 + rs[k - 1])
  }

  /** Highest equity up to k. */
  function Peak(rs: seq<real>, k: nat): real
    requires k <= |rs|
  {
    if k == 0 then 1.0
    else if Equity(rs, k) > Peak(rs, k - 1) then Equity(rs, k)
    else Peak(rs, k - 1)
  }

  function Drop(from: real, to: real): real
    requires from > 0.0
  {
    (from - to) / from
  }

  /** The largest drop from the running peak. */
  function Worst(rs: seq<real>, k: nat): real
    requires k <= |rs|
  {
    if k == 0 then 0.0
    else
      PeakAtLeastOne(rs, k);
      var dd := Drop(Peak(rs, k), Equity(rs, k));
      if dd > Worst(rs, k - 1) then dd else Worst(rs, k - 1)
  }

  /** The running peak never falls below 1, so the guard against a non-positive peak never fires. */
  lemma {:induction false} PeakAtLeastOne(rs: seq<real>, k: nat)
    requires k <= |rs|
    ensures Peak(rs, k) >= 1.0 && Peak(rs, k) >= Equity(rs, k)
    ensures k > 0 ==> Peak(rs, k) >= Peak(rs, k - 1)
  {
    if k == 0 {
    } else {
      PeakAtLeastOne(rs, k - 1);
    }
  }

  /** d is the largest drop (E_i - E_j) / E_i over i <= j with positive equity at i. */
  ghost predicate IsMaxDrawdown(rs: seq<real>, d: real) {
    && (forall i, j :: 0 <= i <= j <= |rs| && Equity(rs, i) > 0.0 ==>
          Drop(Equity(rs, i), Equity(rs, j)) <= d)
    && (exists i, j :: 0 <= i <= j <= |rs| && Equity(rs, i) > 0.0
          && Drop(Equity(rs, i), Equity(rs, j)) == d)
  }

  ghost predicate NoReturnBelowMinusOne(rs: seq<real>) {
    forall k :: 0 <= k < |rs| ==> rs[k] >= -1.0
  }

  method MaxDrawdown(rs: seq<real>) returns (mdd: real)
    ensures mdd == Worst(rs, |rs|)
    ensures NoReturnBelowMinusOne(rs) ==> IsMaxDrawdown(rs, mdd) && 0.0 <= mdd <= 1.0
  {
    var equity, peak := 1.0, 1.0;
    mdd := 0.0;
    for k := 0 to |rs|
      invariant equity == Equity(rs, k) && peak == Peak(rs, k) && mdd == Worst(rs, k)
    {
      equity := equity * (1.0 + rs[k]);
      assert equity == Equity(rs, k + 1);
      if equity > peak { peak := equity; }
      PeakAtLeastOne(rs, k + 1);
      var dd := if peak > 0.0 then (peak - equity) / peak else 0.0;
      if dd > mdd { mdd := dd; }
    }
    WorstMeetsDefinition(rs);
  }

  lemma WorstMeetsDefinition(rs: seq<real>)
    ensures NoReturnBelowMinusOne(rs) ==> IsMaxDrawdown(rs, Worst(rs, |rs|)) && 0.0 <= Worst(rs, |rs|) <= 1.0
  {
    if NoReturnBelowMinusOne(rs) {
      WorstIsMaxDrawdown(rs);
      WorstInUnitInterval(rs, |rs|);
    }
  }

  lemma {:induction false} EquityNonNegative(rs: seq<real>, k: nat)
    requires NoReturnBelowMinusOne(rs) && k <= |rs|
    ensures Equity(rs, k) >= 0.0
  {
    if k == 0 {
    } else {
      EquityNonNegative(rs, k - 1);
    }
  }

  lemma DropInverse(a: real, c: real)
    requires a > 0.0
    ensures Drop(a, c) * a == a - c
  {
  }

  lemma ScaleLess(u: real, v: real, a: real, b: real)
    requires 0.0 < a <= b && 0.0 <= u < v
    ensures u * a < v * b
  {
    PositiveProduct(v - u, a);
    Distribute(v, u, a);
    if a < b {
      PositiveProduct(b - a, v);
      Distribute(b, a, v);
    }
  }

  /** From a higher start down to the same non-negative level is the larger drop. */
  lemma DropGrows(a: real, b: real, c: real)
    requires 0.0 < a <= b && c >= 0.0
    ensures Drop(a, c) <= Drop(b, c)
  {
    DropInverse(a, c);
    DropInverse(b, c);
    var u, v := 1.0 - Drop(a, c), 1.0 - Drop(b, c);
    assert u * a == c && v * b == c;
    if u < 0.0 { NegativeProduct(u, a); }
    if u < v { ScaleLess(u, v, a, b); }
  }

  lemma {:induction false} PeakIsHighest(rs: seq<real>, i: nat, k: nat)
    requires i <= k <= |rs|
    ensures Equity(rs, i) <= Peak(rs, k)
  {
    if i == k {
    } else {
      PeakIsHighest(rs, i, k - 1);
    }
    PeakAtLeastOne(rs, k);
  }

  lemma {:induction false} PeakAttained(rs: seq<real>, k: nat) returns (i: nat)
    requires k <= |rs|
    ensures i <= k && Equity(rs, i) == Peak(rs, k)
  {
    if k == 0 || Equity(rs, k) > Peak(rs, k - 1) { i := k; } else { i := PeakAttained(rs, k - 1); }
  }

  lemma {:induction false} WorstCovers(rs: seq<real>, j: nat, k: nat)
    requires j <= k <= |rs|
    ensures Peak(rs, j) >= 1.0 && Drop(Peak(rs, j), Equity(rs, j)) <= Worst(rs, k)
    ensures Worst(rs, j) <= Worst(rs, k)
  {
    PeakAtLeastOne(rs, k);
    if j == k {
    } else {
      WorstCovers(rs, j, k - 1);
    }
  }

  lemma {:induction false} WorstAttained(rs: seq<real>, k: nat) returns (i: nat, j: nat)
    requires k <= |rs|
    ensures i <= j <= k && Equity(rs, i) >= 1.0
    ensures Drop(Equity(rs, i), Equity(rs, j)) == Worst(rs, k)
  {
    if k == 0 {
      i, j := 0, 0;
    } else {
      PeakAtLeastOne(rs, k);
      if Drop(Peak(rs, k), Equity(rs, k)) > Worst(rs, k - 1) {
        i := PeakAttained(rs, k);
        j := k;
      } else {
        i, j := WorstAttained(rs, k - 1);
      }
    }
  }

  /** The lowest positive equity up to k. */
  function Lowest(rs: seq<real>, k: nat): real
    requires k <= |rs|
  {
    if k == 0 then 1.0
    else if 0.0 < Equity(rs, k) < Lowest(rs, k - 1) then Equity(rs, k)
    else Lowest(rs, k - 1)
  }

  lemma {:induction false} LowestIsLowest(rs: seq<real>, i: nat, k: nat)
    requires i <= k <= |rs|
    ensures 0.0 < Lowest(rs, k) && (Equity(rs, i) > 0.0 ==> Lowest(rs, k) <= Equity(rs, i))
  {
    if k == 0 {
    } else if i == k {
      LowestIsLowest(rs, k - 1, k - 1);
    } else {
      LowestIsLowest(rs, i, k - 1);
    }
  }

  lemma {:induction false} LowestAttained(rs: seq<real>, k: nat) returns (i: nat)
    requires k <= |rs|
    ensures i <= k && Equity(rs, i) == Lowest(rs, k)
  {
    if k == 0 || 0.0 < Equity(rs, k) < Lowest(rs, k - 1) { i := k; } else { i := LowestAttained(rs, k - 1); }
  }

  /** From a lower positive start down to the same negative level is the larger drop. */
  lemma NegativeDropGrows(a: real, b: real, c: real)
    requires 0.0 < a <= b && c < 0.0
    ensures Drop(b, c) <= Drop(a, c)
  {
    DropInverse(a, c);
    DropInverse(b, c);
    var u, v := Drop(a, c) - 1.0, Drop(b, c) - 1.0;
    Distribute(Drop(a, c), 1.0, a);
    Distribute(Drop(b, c), 1.0, b);
    if u <= 0.0 { NonNegativeProduct(-u, a); }
    if u < v { ScaleLess(u, v, a, b); }
  }

  /** No drop from the lowest positive equity so far to a negative level exceeds d. */
  ghost predicate CoversNegative(rs: seq<real>, d: real) {
    forall j :: 0 <= j <= |rs| && Equity(rs, j) < 0.0 ==>
      (LowestIsLowest(rs, j, j); Drop(Lowest(rs, j), Equity(rs, j)) <= d)
  }

  lemma CoversEach(rs: seq<real>, i: nat, j: nat)
    requires CoversNegative(rs, Worst(rs, |rs|)) && i <= j <= |rs| && Equity(rs, i) > 0.0
    ensures Drop(Equity(rs, i), Equity(rs, j)) <= Worst(rs, |rs|)
  {
    if Equity(rs, j) < 0.0 {
      LowestIsLowest(rs, i, j);
      NegativeDropGrows(Lowest(rs, j), Equity(rs, i), Equity(rs, j));
    } else {
      PeakIsHighest(rs, i, j);
      DropGrows(Equity(rs, i), Peak(rs, j), Equity(rs, j));
      WorstCovers(rs, j, |rs|);
    }
  }

  /** For any returns: the one-pass result is the two-index maximum exactly when it covers the negative levels. */
  lemma WorstIsMaxIffCoversNegative(rs: seq<real>)
    ensures IsMaxDrawdown(rs, Worst(rs, |rs|)) <==> CoversNegative(rs, Worst(rs, |rs|))
  {
    if CoversNegative(rs, Worst(rs, |rs|)) {
      forall i, j | 0 <= i <= j <= |rs| && Equity(rs, i) > 0.0
        ensures Drop(Equity(rs, i), Equity(rs, j)) <= Worst(rs, |rs|)
      {
        CoversEach(rs, i, j);
      }
      var i, j := WorstAttained(rs, |rs|);
    } else {
      var j :| 0 <= j <= |rs| && Equity(rs, j) < 0.0
               && (LowestIsLowest(rs, j, j); Drop(Lowest(rs, j), Equity(rs, j)) > Worst(rs, |rs|));
      var i := LowestAttained(rs, j);
      LowestIsLowest(rs, j, j);
      assert Drop(Equity(rs, i), Equity(rs, j)) > Worst(rs, |rs|);
    }
  }

  /** For returns of at least -1 equity is never negative, and the one-pass result is the two-index maximum. */
  lemma WorstIsMaxDrawdown(rs: seq<real>)
    requires NoReturnBelowMinusOne(rs)
    ensures IsMaxDrawdown(rs, Worst(rs, |rs|))
  {
    forall j | 0 <= j <= |rs| ensures Equity(rs, j) >= 0.0 { EquityNonNegative(rs, j); }
    WorstIsMaxIffCoversNegative(rs);
  }

  lemma WorstInUnitInterval(rs: seq<real>, k: nat)
    requires NoReturnBelowMinusOne(rs) && k <= |rs|
    ensures 0.0 <= Worst(rs, k) <= 1.0
  {
    WorstCovers(rs, 0, k);
    var i, j := WorstAttained(rs, k);
    EquityNonNegative(rs, j);
    DropInverse(Equity(rs, i), Equity(rs, j));
  }

  lemma {:induction false} PrefixCurve(rs: seq<real>, more: seq<real>, k: nat)
    requires k <= |rs|
    ensures Equity(rs + more, k) == Equity(rs, k)
    ensures Peak(rs + more, k) == Peak(rs, k)
    ensures Worst(rs + more, k) == Worst(rs, k)
  {
    if k == 0 {
    } else {
      PrefixCurve(rs, more, k - 1);
    }
  }

  /** Appending returns never lowers the result. */
  lemma NeverDecreases(rs: seq<real>, more: seq<real>)
    ensures Worst(rs, |rs|) <= Worst(rs + more, |rs + more|)
  {
    PrefixCurve(rs, more, |rs|);
    WorstCovers(rs + more, |rs|, |rs + more|);
  }

  ghost predicate NeverFalls(rs: seq<real>) {
    forall k :: 0 <= k < |rs| ==> Equity(rs, k) <= Equity(rs, k + 1)
  }

  lemma {:induction false} RisesFrom(rs: seq<real>, i: nat, j: nat)
    requires NeverFalls(rs) && i <= j <= |rs|
    ensures Equity(rs, i) <= Equity(rs, j)
  {
    if i == j {
    } else {
      RisesFrom(rs, i, j - 1);
    }
  }

  lemma PositiveDrop(a: real, c: real)
    requires 0.0 < a
    ensures Drop(a, c) > 0.0 <==> c < a
  {
    DropInverse(a, c);
    var d := Drop(a, c);
    if d > 0.0 { assert d * a > 0.0; }
    if d < 0.0 { NegativeProduct(d, a); }
  }

  lemma ZeroWhenRising(rs: seq<real>)
    requires NeverFalls(rs)
    ensures Worst(rs, |rs|) == 0.0
  {
    var i, j := WorstAttained(rs, |rs|);
    RisesFrom(rs, i, j);
    PositiveDrop(Equity(rs, i), Equity(rs, j));
    WorstCovers(rs, 0, |rs|);
  }

  lemma PositiveWhenFalling(rs: seq<real>, k: nat)
    requires NoReturnBelowMinusOne(rs) && k < |rs| && Equity(rs, k) > Equity(rs, k + 1)
    ensures Worst(rs, |rs|) > 0.0
  {
    WorstIsMaxDrawdown(rs);
    EquityNonNegative(rs, k + 1);
    PositiveDrop(Equity(rs, k), Equity(rs, k + 1));
    assert Drop(Equity(rs, k), Equity(rs, k + 1)) <= Worst(rs, |rs|);
  }

  lemma FallAt(rs: seq<real>) returns (k: nat)
    requires !NeverFalls(rs)
    ensures k < |rs| && Equity(rs, k) > Equity(rs, k + 1)
  {
    k :| k < |rs| && Equity(rs, k) > Equity(rs, k + 1);
  }

  /** The drawdown is zero exactly when equity never falls. */
  lemma ZeroIffNeverFalls(rs: seq<real>)
    requires NoReturnBelowMinusOne(rs)
    ensures Worst(rs, |rs|) == 0.0 <==> NeverFalls(rs)
  {
    if NeverFalls(rs) {
      ZeroWhenRising(rs);
    } else {
      var k := FallAt(rs);
      PositiveWhenFalling(rs, k);
    }
  }

  /** An input for which the condition of `WorstIsMaxIffCoversNegative` fails. */
  lemma BelowMinusOneMissesTheMaximum()
    ensures var rs := [-0.5, -3.0];
            !NoReturnBelowMinusOne(rs) && !IsMaxDrawdown(rs, Worst(rs, 2))
  {
    var rs := [-0.5, -3.0];
    assert rs[1] == -3.0;
    assert Equity(rs, 0) == 1.0;
    assert Equity(rs, 1) == 0.5;
    assert Equity(rs, 2) == -1.0;
    assert Peak(rs, 1) == 1.0 && Peak(rs, 2) == 1.0;
    assert Worst(rs, 1) == 0.5;
    assert Worst(rs, 2) == 2.0;
    assert Drop(Equity(rs, 1), Equity(rs, 2)) == 3.0;
  }
}
