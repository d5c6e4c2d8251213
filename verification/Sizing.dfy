/** The matching engine's integer sizing: basis points of a cap, per-follower shares, minimum outputs. */
module Sizing {
  import opened Arithmetic

  const BPS := 10_000

  /** Share of an amount in basis points; BigInt division, exact for non-negative operands. */
  function Share(amount: nat, bps: nat): nat { amount * bps / BPS }

  function ExpectedOut(amountIn: nat, priceIn: nat, priceOut: nat): nat
    requires priceOut > 0
  {
    amountIn * priceIn / priceOut
  }

  function MinOut(amountIn: nat, priceIn: nat, priceOut: nat): nat
    requires priceOut > 0
  {
    ExpectedOut(amountIn, priceIn, priceOut) * 9900 / BPS
  }

  function Sum(s: seq<nat>): nat { if s == [] then 0 else s[0] + Sum(s[1..]) }

  function Shares(amount: nat, allocations: seq<nat>): (r: seq<nat>)
    ensures |r| == |allocations| && forall i :: 0 <= i < |r| ==> r[i] == Share(amount, allocations[i])
  {
    if allocations == [] then [] else [Share(amount, allocations[0])] + Shares(amount, allocations[1..])
  }

  lemma SharesStep(amount: nat, allocations: seq<nat>)
    requires allocations != []
    ensures Sum(Shares(amount, allocations)) == Share(amount, allocations[0]) + Sum(Shares(amount, allocations[1..]))
  {
    assert Shares(amount, allocations)[1..] == Shares(amount, allocations[1..]);
  }

  /** The shares lose less than one unit each, in total and for every list of allocations. */
  lemma {:induction false} ShareSumBounds(amount: nat, allocations: seq<nat>)
    ensures BPS * Sum(Shares(amount, allocations)) <= amount * Sum(allocations)
    ensures amount * Sum(allocations) <= BPS * Sum(Shares(amount, allocations)) + (BPS - 1) * |allocations|
  {
    if allocations == [] {
    } else {
      var a, rest := allocations[0], allocations[1..];
      ShareSumBounds(amount, rest);
      SharesStep(amount, allocations);
      DivBounds(amount * a, BPS);
      MulDistributes(amount, a, Sum(rest));
    }
  }

  /** Allocations of at most 10,000 bps in all never spend more than the base amount. */
  lemma FanOutNeverOverspends(amount: nat, allocations: seq<nat>)
    requires Sum(allocations) <= BPS
    ensures Sum(Shares(amount, allocations)) <= amount
  {
    ShareSumBounds(amount, allocations);
    MulCommutes(amount, Sum(allocations));
    MulMono(Sum(allocations), BPS, amount);
  }

  /** Allocations of exactly 10,000 bps leave fewer dust units than there are followers. */
  lemma FanOutDust(amount: nat, allocations: seq<nat>)
    requires Sum(allocations) == BPS && allocations != []
    ensures amount - |allocations| < Sum(Shares(amount, allocations)) <= amount
  {
    ShareSumBounds(amount, allocations);
  }

  /** Each share is within one unit of its exact value, and grows with the allocation. */
  lemma ShareIsExactWithinOne(amount: nat, a: nat, b: nat)
    ensures BPS * Share(amount, a) <= amount * a < BPS * (Share(amount, a) + 1)
    ensures a <= b ==> Share(amount, a) <= Share(amount, b)
  {
    DivBounds(amount * a, BPS);
    if a <= b { MulMono(a, b, amount); }
  }

  // ---- Allocations as they are given: any positive numbers, truncated to whole basis points ---------

  /** The part of an allocation that truncation drops. */
  function Fraction(r: real): real { r - r.Floor as real }

  predicate Whole(r: real) { Fraction(r) == 0.0 }

  ghost predicate AllWhole(raw: seq<real>) { forall i :: 0 <= i < |raw| ==> Whole(raw[i]) }

  ghost predicate NonNegative(raw: seq<real>) { forall i :: 0 <= i < |raw| ==> raw[i] >= 0.0 }

  function Truncated(raw: seq<real>): (r: seq<nat>)
    requires NonNegative(raw)
    ensures |r| == |raw| && forall i :: 0 <= i < |raw| ==> r[i] == raw[i].Floor
  {
    if raw == [] then [] else [raw[0].Floor] + Truncated(raw[1..])
  }

  lemma {:induction false} TruncationLoses(raw: seq<real>)
    requires NonNegative(raw)
    ensures Sum(Truncated(raw)) as real <= Total(raw)
    ensures Sum(Truncated(raw)) as real == Total(raw) <==> AllWhole(raw)
  {
    if raw == [] {
    } else {
      var rest := raw[1..];
      TruncationLoses(rest);
      assert Truncated(raw)[1..] == Truncated(rest);
      assert AllWhole(raw) <==> Whole(raw[0]) && AllWhole(rest) by {
        if Whole(raw[0]) && AllWhole(rest) {
          forall i | 0 <= i < |raw| ensures Whole(raw[i]) { if i > 0 { assert raw[i] == rest[i - 1]; } }
        }
      }
    }
  }

  /** Given allocations of at most 10,000 bps in all never spend more than the base amount. */
  lemma RawNeverOverspends(amount: nat, raw: seq<real>)
    requires NonNegative(raw) && Total(raw) <= BPS as real
    ensures Sum(Shares(amount, Truncated(raw))) <= amount
  {
    TruncationLoses(raw);
    FanOutNeverOverspends(amount, Truncated(raw));
  }

  lemma ShortByABasisPoint(amount: nat, allocations: seq<nat>)
    requires Sum(allocations) <= BPS - 1
    ensures BPS * (amount - Sum(Shares(amount, allocations))) >= amount
  {
    ShareSumBounds(amount, allocations);
    AtMostShort(amount, Sum(allocations), Sum(Shares(amount, allocations)));
  }

  lemma AtMostShort(amount: nat, total: nat, spent: nat)
    requires BPS * spent <= amount * total && total <= BPS - 1
    ensures BPS * (amount - spent) >= amount
  {
    MulCommutes(amount, total);
    MulMono(total, BPS - 1, amount);
  }

  /**
   Given allocations of exactly 10,000 bps: when all are whole, less dust is left than there are followers, and
   once the base holds 10,000 units per follower, this is so only then.
   */
  lemma RawDustIffWhole(amount: nat, raw: seq<real>)
    requires NonNegative(raw) && Total(raw) == BPS as real
    ensures AllWhole(raw) ==> amount - Sum(Shares(amount, Truncated(raw))) < |raw|
    ensures |raw| * BPS <= amount ==>
              (amount - Sum(Shares(amount, Truncated(raw))) < |raw| <==> AllWhole(raw))
  {
    TruncationLoses(raw);
    if AllWhole(raw) {
      FanOutDust(amount, Truncated(raw));
    } else {
      ShortByABasisPoint(amount, Truncated(raw));
    }
  }

  /** Half basis points cost a ten-thousandth of the base: the list [3333.5, 6666.5] leaves 10^20 of 10^24 units. */
  lemma HalfBasisPointsAreLost()
    ensures var raw := [3333.5, 6666.5];
            var base := 1_000_000_000_000_000_000_000_000;
            && NonNegative(raw) && Total(raw) == BPS as real
            && base - Sum(Shares(base, Truncated(raw))) == 100_000_000_000_000_000_000
  {
    var raw := [3333.5, 6666.5];
    assert raw[1..] == [6666.5] && raw[1..][1..] == [];
    assert raw[0].Floor == 3333 && raw[1].Floor == 6666;
    assert Truncated(raw) == [3333, 6666];
    var shares := Shares(1_000_000_000_000_000_000_000_000, [3333, 6666]);
    assert shares[0] == 333_300_000_000_000_000_000_000 && shares[1] == 666_600_000_000_000_000_000_000;
    assert shares[1..][0] == shares[1] && shares[1..][1..] == [];
  }

  /** What the share of a given allocation loses: the truncated fraction, and the floor's remainder. */
  lemma RawShareLoss(amount: nat, r: real)
    requires r >= 0.0
    ensures var exact, share := amount as real * r, Share(amount, r.Floor);
            exact - (BPS * share) as real == amount as real * Fraction(r) + (amount * r.Floor % BPS) as real
  {
    var whole := r.Floor;
    assert r == whole as real + Fraction(r);
    assert amount as real * r == amount as real * whole as real + amount as real * Fraction(r);
    assert amount as real * whole as real == (amount * whole) as real;
  }

  /** What truncation drops from a list of allocations, and what the floors of the shares leave. */
  function Fractions(raw: seq<real>): real { if raw == [] then 0.0 else Fraction(raw[0]) + Fractions(raw[1..]) }

  function Remainders(amount: nat, raw: seq<real>): nat
    requires NonNegative(raw)
  {
    if raw == [] then 0 else amount * raw[0].Floor % BPS + Remainders(amount, raw[1..])
  }

  /** The exact total of the shares, and what the floors spend of it. */
  function Exact(amount: nat, raw: seq<real>): real { amount as real * Total(raw) }

  function Spent(amount: nat, raw: seq<real>): nat
    requires NonNegative(raw)
  {
    Sum(Shares(amount, Truncated(raw)))
  }

  lemma SpentStep(amount: nat, raw: seq<real>)
    requires NonNegative(raw) && raw != []
    ensures Spent(amount, raw) == Share(amount, raw[0].Floor) + Spent(amount, raw[1..])
  {
    assert Truncated(raw)[1..] == Truncated(raw[1..]);
    SharesStep(amount, Truncated(raw));
  }

  lemma {:induction false} RemaindersBelow(amount: nat, raw: seq<real>)
    requires NonNegative(raw)
    ensures Remainders(amount, raw) <= (BPS - 1) * |raw|
  {
    if raw == [] {
    } else {
      RemaindersBelow(amount, raw[1..]);
    }
  }

  lemma {:induction false} RawSharesLoss(amount: nat, raw: seq<real>)
    requires NonNegative(raw)
    ensures Exact(amount, raw) - (BPS * Spent(amount, raw)) as real
            == amount as real * Fractions(raw) + Remainders(amount, raw) as real
  {
    if raw == [] {
    } else {
      RawSharesLoss(amount, raw[1..]);
      RawShareLoss(amount, raw[0]);
      SpentStep(amount, raw);
      DistributeSum(amount as real, raw[0], Total(raw[1..]));
      DistributeSum(amount as real, Fraction(raw[0]), Fractions(raw[1..]));
    }
  }

  /**
   Given allocations of exactly 10,000 bps leave exactly the dropped fractions of the base and the remainders of the
   floors. Whatever the base, this is under one unit per follower exactly when the two fit into that.
   */
  lemma RawShortfall(amount: nat, raw: seq<real>)
    requires NonNegative(raw) && Total(raw) == BPS as real
    ensures var short := amount - Sum(Shares(amount, Truncated(raw)));
            var lost := amount as real * Fractions(raw) + Remainders(amount, raw) as real;
            && (BPS * short) as real == lost
            && (short < |raw| <==> lost < (BPS * |raw|) as real)
            && (BPS * short) as real <= amount as real * Fractions(raw) + ((BPS - 1) * |raw|) as real
  {
    RawSharesLoss(amount, raw);
    RemaindersBelow(amount, raw);
  }

  /** A share never exceeds its exact value; it is within one unit of it exactly when both losses fit into one. */
  lemma RawShareExactness(amount: nat, r: real, r': real)
    requires 0.0 <= r <= r'
    ensures var exact, share := amount as real * r, Share(amount, r.Floor);
            && (BPS * share) as real <= exact
            && (exact < (BPS * (share + 1)) as real <==>
                amount as real * Fraction(r) < (BPS - amount * r.Floor % BPS) as real)
    ensures Share(amount, r.Floor) <= Share(amount, r'.Floor)
  {
    RawShareLoss(amount, r);
    MulMonoReal(0.0, Fraction(r), amount as real);
    ShareIsExactWithinOne(amount, r.Floor, r'.Floor);
  }

  lemma BelowNinetyNine(min: nat, out: nat, q: nat, fair: nat)
    requires 100 * min <= 99 * out && out * q <= fair
    ensures 100 * (min * q) <= 99 * fair
  {
    MulMono(100 * min, 99 * out, q);
    assert 100 * min * q == 100 * (min * q);
    assert 99 * out * q == 99 * (out * q);
  }

  lemma WithinTwoUnits(min: nat, out: nat, q: nat, fair: nat)
    requires q > 0 && 99 * out < 100 * (min + 1) && fair < out * q + q
    ensures 99 * fair < 100 * ((min + 2) * q)
  {
    MulMono(99 * (out + 1), 100 * (min + 2), q);
    assert 99 * (out + 1) * q == 99 * (out * q + q);
    assert 100 * (min + 2) * q == 100 * ((min + 2) * q);
  }

  /** minOut is at most 99 % of the fair output amountIn * priceIn / priceOut, and less than two units below it. */
  lemma SlippageBound(amountIn: nat, priceIn: nat, priceOut: nat)
    requires priceOut > 0
    ensures 100 * (MinOut(amountIn, priceIn, priceOut) * priceOut) <= 99 * (amountIn * priceIn)
    ensures 99 * (amountIn * priceIn) < 100 * ((MinOut(amountIn, priceIn, priceOut) + 2) * priceOut)
  {
    var out := ExpectedOut(amountIn, priceIn, priceOut);
    var min := MinOut(amountIn, priceIn, priceOut);
    DivBounds(amountIn * priceIn, priceOut);
    DivBounds(out * 9900, BPS);
    BelowNinetyNine(min, out, priceOut, amountIn * priceIn);
    WithinTwoUnits(min, out, priceOut, amountIn * priceIn);
  }

  lemma NotAbove(amount: nat, back: nat, p: nat)
    requires p > 0 && back * p <= amount * p
    ensures back <= amount
  {
    if back > amount { MulMono(amount + 1, back, p); }
  }

  /** Buying at one price ratio and selling back at the inverse never returns more than was put in. */
  lemma NoFreeRoundTrip(amount: nat, p: nat, q: nat)
    requires p > 0 && q > 0
    ensures ExpectedOut(ExpectedOut(amount, p, q), q, p) <= amount
  {
    var out := ExpectedOut(amount, p, q);
    DivBounds(amount * p, q);
    DivBounds(out * q, p);
    NotAbove(amount, out * q / p, p);
  }
}
