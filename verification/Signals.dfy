/**
 MATCH_V1 told from the decrypted signal and the configuration alone: which signals succeed, which instruction each
 listed follower gets, why a signal is refused, and what is recorded.
 */
module Signals {
  import opened Wrappers
  import opened Arithmetic
  import opened Json
  import opened Sizing
  import opened OutcomeLog
  import opened MatchHandler

  // ---- What a signal lists ------------------------------------------------------------------------

  predicate IsAddressText(v: Js) { v.Str? && |v.s| == 42 && v.s[0] == '0' && v.s[1] == 'x' }

  predicate IsPositiveNumber(v: Js) { v.Num? && if v.n.Finite? then v.n.r > 0.0 else !v.n.negative }

  /** A follower entry that the swap path accepts. */
  predicate ValidEntry(item: Js) {
    IsAddressText(Field(item, "address")) && IsPositiveNumber(Field(item, "allocationBps"))
  }

  ghost predicate AllValid(items: seq<Js>) { forall i :: 0 <= i < |items| ==> ValidEntry(items[i]) }

  /** What a bad entry does to the whole signal. */
  function BadEntry(item: Js): Outcome {
    if item == Null || item == Undefined then Raised
    else if !IsAddressText(Field(item, "address")) then Refused(BadFollowerAddress)
    else Refused(BadAllocation)
  }

  ghost predicate FirstBad(items: seq<Js>, i: nat) {
    i < |items| && !ValidEntry(items[i]) && AllValid(items[..i])
  }

  /** The targets are the entries: as many, in the same order, each with its address and its number. */
  ghost predicate Listed(items: seq<Js>, targets: seq<Follower>) {
    && |targets| == |items|
    && forall i :: 0 <= i < |items| ==>
         && Field(items[i], "address") == Str(targets[i].address)
         && Field(items[i], "allocationBps") == Num(targets[i].allocation)
  }

  /** All listed followers are read, in order, if all entries are valid; else the first bad one decides. */
  lemma {:induction false} ReadsAllEntries(items: seq<Js>) returns (i: nat)
    ensures ReadFollowers(items).Success? <==> AllValid(items)
    ensures ReadFollowers(items).Success? ==> Listed(items, ReadFollowers(items).value)
    ensures ReadFollowers(items).Failure? ==>
              FirstBad(items, i) && ReadFollowers(items).error == BadEntry(items[i])
  {
    i := 0;
    if items == [] {
    } else {
      var rest := items[1..];
      var j := ReadsAllEntries(rest);
      assert AllValid(items) <==> ValidEntry(items[0]) && AllValid(rest) by {
        if ValidEntry(items[0]) && AllValid(rest) {
          forall k | 0 <= k < |items| ensures ValidEntry(items[k]) { if k > 0 { assert items[k] == rest[k - 1]; } }
        }
      }
      if ValidEntry(items[0]) && ReadFollowers(rest).Failure? {
        i := j + 1;
        assert rest[j] == items[i];
        forall k | 0 <= k < i ensures ValidEntry(items[..i][k]) {
          if k > 0 { assert items[..i][k] == rest[..j][k - 1]; }
        }
      }
    }
  }

  ghost predicate HasFollowers(parsed: Js) {
    Field(parsed, "followers").Arr? && |Field(parsed, "followers").items| > 0
  }

  /** Whom the signal names: the listed followers, or the lone recipient at 10,000 bps. */
  ghost predicate Names(parsed: Js, targets: seq<Follower>) {
    if HasFollowers(parsed) then
      AllValid(Field(parsed, "followers").items) && Listed(Field(parsed, "followers").items, targets)
    else
      && IsAddressText(Field(parsed, "recipient"))
      && targets == [Follower(Field(parsed, "recipient").s, Finite(10_000.0))]
  }

  ghost predicate NamesSomebody(parsed: Js) {
    if HasFollowers(parsed) then AllValid(Field(parsed, "followers").items)
    else IsAddressText(Field(parsed, "recipient"))
  }

  /** How a signal that names nobody properly is answered. */
  ghost predicate NamingError(parsed: Js, o: Outcome) {
    if HasFollowers(parsed) then
      var items := Field(parsed, "followers").items;
      exists i: nat :: FirstBad(items, i) && o == BadEntry(items[i])
    else o == Refused(BadRecipient)
  }

  lemma TargetsAreNamed(parsed: Js)
    ensures SwapTargets(parsed).Success? <==> NamesSomebody(parsed)
    ensures SwapTargets(parsed).Success? ==> Names(parsed, SwapTargets(parsed).value)
    ensures SwapTargets(parsed).Failure? ==> NamingError(parsed, SwapTargets(parsed).error)
  {
    var i := ReadsAllEntries(Followers(parsed));
  }

  lemma NamesAreUnique(parsed: Js, a: seq<Follower>, b: seq<Follower>)
    requires Names(parsed, a) && Names(parsed, b)
    ensures a == b
  {
    if HasFollowers(parsed) {
      var items := Field(parsed, "followers").items;
      forall i | 0 <= i < |a| ensures a[i] == b[i] {
        assert Field(items[i], "address") == Str(a[i].address);
        assert Field(items[i], "allocationBps") == Num(a[i].allocation);
      }
    }
  }

  // ---- The checks before the loop -----------------------------------------------------------------

  predicate ValidAsset(parsed: Js) { Field(parsed, "asset") in [Str("FXRP"), Str("USDT0")] }

  predicate ValidDirection(parsed: Js) { Field(parsed, "direction") in [Str("BUY"), Str("SELL")] }

  predicate ValidSize(parsed: Js) { IsPositiveNumber(Field(parsed, "sizePct")) && Field(parsed, "sizePct").n.Finite? }

  /** The size in whole basis points. */
  function SizeBps(parsed: Js): nat
    requires ValidSize(parsed)
  {
    Field(parsed, "sizePct").n.r.Floor
  }

  predicate IsBuy(parsed: Js) { Field(parsed, "direction") == Str("BUY") }

  predicate PricesRead(env: Env) { env.feeds.Some? && env.feeds.value.0 > 0 && env.feeds.value.1 > 0 }

  ghost predicate WellFormed(parsed: Js) {
    ValidAsset(parsed) && ValidDirection(parsed) && ValidSize(parsed) && NamesSomebody(parsed)
  }

  /** The checks on the signal, in order, each with the answer it gives when it is the first to fail. */
  ghost predicate Malformed(parsed: Js, o: Outcome) {
    if !ValidAsset(parsed) then o == Refused(BadAsset)
    else if !ValidDirection(parsed) then o == Refused(BadDirection)
    else if !ValidSize(parsed) then o == Refused(BadSizePct)
    else !NamesSomebody(parsed) && NamingError(parsed, o)
  }

  /** The checks on what is read for a well-formed signal, in order; the last one is on its size. */
  ghost predicate NotServed(env: Env, parsed: Js, o: Outcome)
    requires ValidSize(parsed)
  {
    if !env.rpcUrl then o == Refused(NoRpcUrl)
    else if env.feeds == None then o == Raised
    else if !PricesRead(env) then o == Refused(ZeroPrice)
    else if env.tokens == None then o == Raised
    else SizeBps(parsed) == 0 && o == Refused(ZeroNotional)
  }

  ghost predicate Accepted(env: Env, parsed: Js) {
    && WellFormed(parsed)
    && env.rpcUrl && PricesRead(env) && env.tokens.Some? && SizeBps(parsed) > 0
  }

  /** The order says what the signal says. */
  ghost predicate OrderOfSignal(env: Env, parsed: Js, order: Order)
    requires ValidSize(parsed) && env.feeds.Some? && env.tokens.Some?
  {
    && order.sizeBps == SizeBps(parsed) && Names(parsed, order.targets)
    && order.direction == (if IsBuy(parsed) then Buy else Sell)
    && order.quote.tokenIn == (if IsBuy(parsed) then env.tokens.value.1 else env.tokens.value.0)
    && order.quote.tokenOut == (if IsBuy(parsed) then env.tokens.value.0 else env.tokens.value.1)
    && order.quote.priceIn == (if IsBuy(parsed) then env.feeds.value.1 else env.feeds.value.0)
    && order.quote.priceOut == (if IsBuy(parsed) then env.feeds.value.0 else env.feeds.value.1)
  }

  /** A million tokens of 18 decimals, ten thousand basis points. */
  lemma BaseOfSize(sizeBps: nat)
    ensures Share(SWAP_CAP, sizeBps) == 100_000_000_000_000_000_000 * sizeBps
    ensures Share(MOCK_CAP, sizeBps) == 100_000_000 * sizeBps
  {
  }

  lemma OrderFollowsSignal(env: Env, parsed: Js)
    ensures SwapOrder(env, parsed).Success? <==> Accepted(env, parsed)
    ensures SwapOrder(env, parsed).Success? ==> OrderOfSignal(env, parsed, SwapOrder(env, parsed).value)
    ensures SwapOrder(env, parsed).Failure? ==>
              var o := SwapOrder(env, parsed).error;
              if WellFormed(parsed) then NotServed(env, parsed, o) else Malformed(parsed, o)
  {
    TargetsAreNamed(parsed);
    if ValidSize(parsed) { BaseOfSize(SizeBps(parsed)); }
  }

  // ---- The instructions ---------------------------------------------------------------------------

  /** The swap path takes the call: the payload is readable and is not for a mock venue. */
  predicate GoesToSwap(env: Env) {
    && env.payload.Some? && (env.payload.value.Obj? || env.payload.value.Arr?)
    && !(env.mockVenues && env.venueHint in ["enosys-cdp", "firelight-strategy"])
  }

  predicate GoesToMock(env: Env) {
    && env.payload.Some? && (env.payload.value.Obj? || env.payload.value.Arr?)
    && env.mockVenues && env.venueHint in ["enosys-cdp", "firelight-strategy"]
  }

  /** A follower's part of the order, in base units: two floors. */
  function AmountFor(sizeBps: nat, f: Follower): nat
    requires f.allocation.Finite? && f.allocation.r > 0.0
  {
    100_000_000_000_000_000_000 * sizeBps * f.allocation.r.Floor / 10_000
  }

  function FairOut(env: Env, parsed: Js, amount: nat): nat
    requires PricesRead(env)
  {
    if IsBuy(parsed) then amount * env.feeds.value.1 / env.feeds.value.0
    else amount * env.feeds.value.0 / env.feeds.value.1
  }

  function LeastOut(env: Env, parsed: Js, amount: nat): nat
    requires PricesRead(env)
  {
    FairOut(env, parsed, amount) * 9900 / 10_000
  }

  /** The instruction is this follower's: amount, recipient, router, minimum output and trade. */
  predicate TradesFor(env: Env, parsed: Js, f: Follower, x: Instruction)
    requires ValidSize(parsed) && PricesRead(env) && env.tokens.Some?
    requires f.allocation.Finite? && f.allocation.r > 0.0
  {
    var router := if env.venue == "blazeswap-v2" then env.blazeRouter else env.sparkRouter;
    && x.amountIn == AmountFor(SizeBps(parsed), f) > 0
    && Some(x.recipient) == env.checksum(f.address)
    && x.venue == env.venue && router.Some? && Some(x.to) == env.checksum(router.value)
    && MinOutOf(x.data) == LeastOut(env, parsed, x.amountIn) > 0
    && TradesAsAsked(env, parsed, x)
  }

  // ---- Selected positions -------------------------------------------------------------------------

  function Where<T>(s: seq<T>, p: T -> bool): seq<T> {
    if s == [] then [] else (if p(s[0]) then [s[0]] else []) + Where(s[1..], p)
  }

  /** ks are the positions of the elements that satisfy p, in order. */
  ghost predicate Positions<T>(ks: seq<nat>, s: seq<T>, p: T -> bool) {
    && (forall i, j :: 0 <= i < j < |ks| ==> ks[i] < ks[j])
    && (forall k :: 0 <= k < |ks| ==> ks[k] < |s| && p(s[ks[k]]))
    && (forall i :: 0 <= i < |s| && p(s[i]) ==> i in ks)
  }

  lemma {:induction false} WhereSnoc<T>(s: seq<T>, x: T, p: T -> bool)
    ensures Where(s + [x], p) == Where(s, p) + if p(x) then [x] else []
  {
    if s == [] {
      assert [] + [x] == [x] && [x][1..] == [];
    } else {
      assert (s + [x])[1..] == s[1..] + [x];
      WhereSnoc(s[1..], x, p);
    }
  }

  lemma {:induction false} WherePositions<T>(s: seq<T>, p: T -> bool) returns (ks: seq<nat>)
    ensures Positions(ks, s, p) && |ks| == |Where(s, p)|
    ensures forall k :: 0 <= k < |ks| ==> Where(s, p)[k] == s[ks[k]]
    decreases |s|
  {
    ks := [];
    if s != [] {
      var init, last := s[..|s| - 1], s[|s| - 1];
      ks := WherePositions(init, p);
      WhereSnoc(init, last, p);
      assert init + [last] == s;
      if p(last) { ks := AddPosition(ks, init, last, p); }
    }
  }

  lemma AddPosition<T>(ks: seq<nat>, init: seq<T>, last: T, p: T -> bool) returns (ks': seq<nat>)
    requires Positions(ks, init, p) && p(last)
    ensures ks' == ks + [|init|] && Positions(ks', init + [last], p)
  {
    ks' := ks + [|init|];
    forall i | 0 <= i < |init + [last]| && p((init + [last])[i]) ensures i in ks' {
      if i == |init| { assert ks'[|ks|] == i; } else { assert i in ks; }
    }
  }

  function IsFunded(base: nat): Follower -> bool {
    (f: Follower) => Share(base, AllocationBps(f)) != 0
  }

  lemma {:induction false} FundedIsWhere(base: nat, targets: seq<Follower>)
    ensures Funded(base, targets) == Where(targets, IsFunded(base))
  {
    if targets != [] { FundedIsWhere(base, targets[1..]); }
  }

  function IsMockFunded(env: Env, base: nat): Js -> bool {
    (f: Js) => MockFunded(env, base, f)
  }

  lemma {:induction false} FundedMockIsWhere(env: Env, base: nat, targets: seq<Js>)
    ensures FundedMock(env, base, targets) == Where(targets, IsMockFunded(env, base))
  {
    if targets != [] { FundedMockIsWhere(env, base, targets[1..]); }
  }

  // ---- The answer to a swap signal ----------------------------------------------------------------

  predicate Allotted(sizeBps: nat, f: Follower) {
    f.allocation.Finite? && f.allocation.r > 0.0 && AmountFor(sizeBps, f) > 0
  }

  /** ks are the positions of the targets that are allotted something, in order. */
  ghost predicate Selects(sizeBps: nat, targets: seq<Follower>, ks: seq<nat>) {
    && (forall i, j :: 0 <= i < j < |ks| ==> ks[i] < ks[j])
    && (forall k :: 0 <= k < |ks| ==> ks[k] < |targets| && Allotted(sizeBps, targets[ks[k]]))
    && (forall i :: 0 <= i < |targets| && Allotted(sizeBps, targets[i]) ==> i in ks)
  }

  lemma AmountIsShare(sizeBps: nat, f: Follower)
    requires f.allocation.Finite? && f.allocation.r > 0.0
    ensures AmountFor(sizeBps, f) == Share(Share(SWAP_CAP, sizeBps), AllocationBps(f))
  {
    BaseOfSize(sizeBps);
  }

  /** The lead named in the signal, if it looks like an address, or else the first recipient. */
  predicate LeadIs(parsed: Js, first: Instruction, lead: string) {
    var named := Field(parsed, "lead");
    if named.Str? && |named.s| >= 2 && named.s[0] == '0' && named.s[1] == 'x' then lead == named.s
    else lead == first.recipient
  }

  lemma NamedArePositive(parsed: Js, targets: seq<Follower>)
    requires Names(parsed, targets)
    ensures PositiveTargets(targets)
  {
    if HasFollowers(parsed) {
      var items := Field(parsed, "followers").items;
      forall i | 0 <= i < |targets| ensures Positive(targets[i].allocation) { assert ValidEntry(items[i]); }
    }
  }

  lemma SelectsFunded(sizeBps: nat, targets: seq<Follower>) returns (ks: seq<nat>)
    requires FiniteTargets(targets)
    ensures Selects(sizeBps, targets, ks)
    ensures var funded := Funded(Share(SWAP_CAP, sizeBps), targets);
            |ks| == |funded| && forall k :: 0 <= k < |ks| ==> funded[k] == targets[ks[k]]
  {
    var base := Share(SWAP_CAP, sizeBps);
    FundedIsWhere(base, targets);
    ks := WherePositions(targets, IsFunded(base));
    forall i | 0 <= i < |targets| ensures IsFunded(base)(targets[i]) == Allotted(sizeBps, targets[i]) {
      AmountIsShare(sizeBps, targets[i]);
    }
  }

  lemma ServesIsTrade(env: Env, parsed: Js, order: Order, f: Follower, x: Instruction)
    requires ValidSize(parsed) && PricesRead(env) && env.tokens.Some? && OrderOfSignal(env, parsed, order)
    requires f.allocation.Finite? && f.allocation.r > 0.0
    requires Serves(env, order.quote, Share(SWAP_CAP, order.sizeBps), f, x) && TradesAsAsked(env, parsed, x)
    ensures TradesFor(env, parsed, f, x)
  {
    AmountIsShare(order.sizeBps, f);
  }

  /** What a swap signal gets that is answered with a payload. */
  ghost predicate Served(env: Env, parsed: Js, targets: seq<Follower>, ks: seq<nat>, bs: seq<Instruction>)
    requires Accepted(env, parsed)
  {
    && Names(parsed, targets) && FiniteTargets(targets) && Selects(SizeBps(parsed), targets, ks)
    && |bs| == |ks| > 0
    && forall k :: 0 <= k < |ks| ==> TradesFor(env, parsed, targets[ks[k]], bs[k])
  }

  lemma BatchIsServed(env: Env, parsed: Js) returns (targets: seq<Follower>, ks: seq<nat>, bs: seq<Instruction>)
    requires MatchSwap(env, parsed).0.Done?
    ensures Accepted(env, parsed) && Served(env, parsed, targets, ks, bs)
    ensures Carries(MatchSwap(env, parsed).0.payload, bs)
    ensures SwapOrder(env, parsed).Success?
    ensures BuildAll(SwapBuilder(env, SwapOrder(env, parsed).value), targets) == Batch(bs)
    ensures targets == SwapOrder(env, parsed).value.targets
  {
    StopsAreNotDone(env, parsed);
    OrderFollowsSignal(env, parsed);
    var order := SwapOrder(env, parsed).value;
    targets := order.targets;
    SwapBatch(env, parsed);
    bs := BuildAll(SwapBuilder(env, order), targets).instructions;
    NamedArePositive(parsed, targets);
    BatchIsFinite(env, order);
    ks := SelectsFunded(order.sizeBps, targets);
    SwapTrades(env, parsed);
    forall k | 0 <= k < |ks| ensures TradesFor(env, parsed, targets[ks[k]], bs[k]) {
      ServesIsTrade(env, parsed, order, targets[ks[k]], bs[k]);
    }
  }

  /** The record names the lead, the moment, the direction and the size of the signal. */
  predicate Records(env: Env, parsed: Js, first: Instruction, direction: Direction, record: Option<OutcomeRecord>)
    requires ValidSize(parsed)
  {
    && record.Some?
    && LeadIs(parsed, first, record.value.lead) && record.value.timestamp == env.now && record.value.pnlBps == 0
    && record.value.direction == direction && record.value.sizePct == SizeBps(parsed)
  }

  /**
   A swap signal answered with a payload: one instruction for each listed follower, or for the lone recipient, who is
   allotted anything, in the order of the list, for exactly that follower; and a record of the signal.
   */
  lemma SwapServesSignal(env: Env) returns (targets: seq<Follower>, ks: seq<nat>, bs: seq<Instruction>)
    requires GoesToSwap(env) && Match(env).0.Done?
    ensures var parsed := env.payload.value;
            && Accepted(env, parsed) && Served(env, parsed, targets, ks, bs)
            && Carries(Match(env).0.payload, bs)
            && Records(env, parsed, bs[0], if IsBuy(parsed) then Buy else Sell, Match(env).1)
  {
    var parsed := env.payload.value;
    targets, ks, bs := BatchIsServed(env, parsed);
    OrderFollowsSignal(env, parsed);
    SwapRecord(env, parsed, bs);
  }

  lemma SwapRecord(env: Env, parsed: Js, bs: seq<Instruction>)
    requires SwapOrder(env, parsed).Success? && bs != []
    requires BuildAll(SwapBuilder(env, SwapOrder(env, parsed).value), SwapOrder(env, parsed).value.targets) == Batch(bs)
    requires Accepted(env, parsed) && OrderOfSignal(env, parsed, SwapOrder(env, parsed).value)
    ensures Records(env, parsed, bs[0], if IsBuy(parsed) then Buy else Sell, MatchSwap(env, parsed).1)
  {
  }

  predicate IsUint256(x: int) {
    0 <= x < 0x1_0000_0000_0000_0000_0000_0000_0000_0000_0000_0000_0000_0000_0000_0000_0000_0000
  }

  /** An allotted follower can be given an instruction: a well-formed address, and amounts that are not zero and fit. */
  predicate CanBeServed(env: Env, parsed: Js, f: Follower)
    requires ValidSize(parsed) && PricesRead(env) && f.allocation.Finite? && f.allocation.r > 0.0
  {
    var amount := AmountFor(SizeBps(parsed), f);
    && env.checksum(f.address).Some? && IsUint256(amount)
    && LeastOut(env, parsed, amount) > 0 && IsUint256(LeastOut(env, parsed, amount))
  }

  /** Nobody's allocation is infinite, somebody is allotted something, and everybody who is can be served. */
  ghost predicate EverybodyServable(env: Env, parsed: Js, targets: seq<Follower>)
    requires ValidSize(parsed) && PricesRead(env)
  {
    && FiniteTargets(targets) && RouterReady(env)
    && (exists i :: 0 <= i < |targets| && Allotted(SizeBps(parsed), targets[i]))
    && EachServable(env, parsed, targets)
  }

  ghost predicate EachServable(env: Env, parsed: Js, targets: seq<Follower>)
    requires ValidSize(parsed) && PricesRead(env)
  {
    forall i :: 0 <= i < |targets| && Allotted(SizeBps(parsed), targets[i]) ==> CanBeServed(env, parsed, targets[i])
  }

  lemma ServableIffCanBeServed(env: Env, parsed: Js, order: Order, f: Follower)
    requires ValidSize(parsed) && PricesRead(env) && env.tokens.Some? && OrderOfSignal(env, parsed, order)
    requires Allotted(order.sizeBps, f)
    ensures Servable(env, order.quote, Share(SWAP_CAP, order.sizeBps), f) <==> CanBeServed(env, parsed, f)
  {
    AmountIsShare(order.sizeBps, f);
  }

  /** A signal of the swap path succeeds exactly when it is accepted and everybody can be served. */
  lemma SwapSucceedsIff(env: Env, targets: seq<Follower>)
    requires GoesToSwap(env) && Names(env.payload.value, targets)
    ensures var parsed := env.payload.value;
            Match(env).0.Done? <==> Accepted(env, parsed) && EverybodyServable(env, parsed, targets)
  {
    var parsed := env.payload.value;
    StopsAreNotDone(env, parsed);
    OrderFollowsSignal(env, parsed);
    if Accepted(env, parsed) {
      var order := SwapOrder(env, parsed).value;
      NamesAreUnique(parsed, targets, order.targets);
      SwapBatch(env, parsed);
      NamedArePositive(parsed, targets);
      if FiniteTargets(targets) { FundedServable(env, parsed, order); }
    }
  }

  lemma ServablesAreFunded(env: Env, parsed: Js, order: Order, ks: seq<nat>, funded: seq<Follower>)
    requires ValidSize(parsed) && PricesRead(env) && env.tokens.Some? && OrderOfSignal(env, parsed, order)
    requires Selects(order.sizeBps, order.targets, ks)
    requires |funded| == |ks| && forall k :: 0 <= k < |ks| ==> funded[k] == order.targets[ks[k]]
    ensures AllServable(env, order.quote, Share(SWAP_CAP, order.sizeBps), funded)
            <==> EachServable(env, parsed, order.targets)
  {
    forall k | 0 <= k < |ks|
      ensures Servable(env, order.quote, Share(SWAP_CAP, order.sizeBps), funded[k])
              <==> CanBeServed(env, parsed, order.targets[ks[k]])
    {
      ServableIffCanBeServed(env, parsed, order, funded[k]);
    }
  }

  lemma FundedServable(env: Env, parsed: Js, order: Order)
    requires ValidSize(parsed) && PricesRead(env) && env.tokens.Some? && OrderOfSignal(env, parsed, order)
    requires FiniteTargets(order.targets)
    ensures var funded := Funded(Share(SWAP_CAP, order.sizeBps), order.targets);
            RouterReady(env) && funded != [] && AllServable(env, order.quote, Share(SWAP_CAP, order.sizeBps), funded)
            <==> EverybodyServable(env, parsed, order.targets)
  {
    var funded := Funded(Share(SWAP_CAP, order.sizeBps), order.targets);
    var ks := SelectsFunded(order.sizeBps, order.targets);
    ServablesAreFunded(env, parsed, order, ks, funded);
    if funded != [] { assert Allotted(order.sizeBps, order.targets[ks[0]]); }
  }

  /** The first check that fails decides the answer; nothing is recorded. */
  lemma SwapRefusals(env: Env)
    requires GoesToSwap(env) && !Accepted(env, env.payload.value)
    ensures var parsed := env.payload.value;
            var (o, record) := Match(env);
            && record == None
            && if WellFormed(parsed) then NotServed(env, parsed, o) else Malformed(parsed, o)
  {
    OrderFollowsSignal(env, env.payload.value);
  }

  /** The answer with which this follower stops the loop, if it does: the first reason that applies. */
  function StopOf(env: Env, parsed: Js, f: Follower): Option<Outcome>
    requires ValidSize(parsed) && PricesRead(env)
  {
    if f.allocation.Infinite? then Some(Raised)
    else if !Allotted(SizeBps(parsed), f) then None
    else
      var amount := AmountFor(SizeBps(parsed), f);
      if LeastOut(env, parsed, amount) == 0 then Some(Refused(ZeroMinOut))
      else if env.checksum(f.address) == None then Some(Raised)
      else if (if env.venue == "blazeswap-v2" then env.blazeRouter else env.sparkRouter) == None
      then Some(Refused(NoRouter))
      else if RouterReady(env) && CanBeServed(env, parsed, f) then None
      else Some(Raised)
  }

  lemma StopOfFollower(env: Env, parsed: Js, order: Order, f: Follower)
    requires ValidSize(parsed) && PricesRead(env) && env.tokens.Some? && OrderOfSignal(env, parsed, order)
    requires Positive(f.allocation)
    ensures var stop, built := StopOf(env, parsed, f), SwapBuilder(env, order)(f);
            if stop.Some? then built == Stop(stop.value) else !built.Stop?
  {
    if f.allocation.Finite? { AmountIsShare(order.sizeBps, f); }
  }

  /** The first follower that stops the loop decides the answer to the whole signal; if there is none, nobody is. */
  ghost predicate FirstStopDecides(env: Env, parsed: Js, targets: seq<Follower>, o: Outcome)
    requires ValidSize(parsed) && PricesRead(env)
  {
    if forall i :: 0 <= i < |targets| ==> StopOf(env, parsed, targets[i]) == None
    then o == Refused(NoInstructions) && forall i :: 0 <= i < |targets| ==> !Allotted(SizeBps(parsed), targets[i])
    else exists i :: 0 <= i < |targets| && StopOf(env, parsed, targets[i]) == Some(o)
                     && forall j :: 0 <= j < i ==> StopOf(env, parsed, targets[j]) == None
  }

  lemma StopsAreStops(env: Env, parsed: Js, order: Order)
    requires ValidSize(parsed) && PricesRead(env) && env.tokens.Some? && OrderOfSignal(env, parsed, order)
    ensures NoStops(SwapBuilder(env, order), order.targets)
            <==> forall i :: 0 <= i < |order.targets| ==> StopOf(env, parsed, order.targets[i]) == None
    ensures forall o :: FirstStop(SwapBuilder(env, order), order.targets, o) ==>
              exists i :: 0 <= i < |order.targets| && StopOf(env, parsed, order.targets[i]) == Some(o)
                          && forall j :: 0 <= j < i ==> StopOf(env, parsed, order.targets[j]) == None
  {
    var build, targets := SwapBuilder(env, order), order.targets;
    NamedArePositive(parsed, targets);
    forall i | 0 <= i < |targets|
      ensures var stop, built := StopOf(env, parsed, targets[i]), build(targets[i]);
              if stop.Some? then built == Stop(stop.value) else !built.Stop?
    {
      StopOfFollower(env, parsed, order, targets[i]);
    }
  }

  /** An accepted signal that fails is answered by the first follower that stops the loop, and leaves no record. */
  lemma SwapStops(env: Env, targets: seq<Follower>)
    requires GoesToSwap(env) && Accepted(env, env.payload.value) && Names(env.payload.value, targets)
    requires !Match(env).0.Done?
    ensures FirstStopDecides(env, env.payload.value, targets, Match(env).0) && Match(env).1 == None
  {
    var parsed := env.payload.value;
    OrderFollowsSignal(env, parsed);
    StopsAreNotDone(env, parsed);
    var order := SwapOrder(env, parsed).value;
    NamesAreUnique(parsed, targets, order.targets);
    NamedArePositive(parsed, targets);
    StopsAreStops(env, parsed, order);
    StopsAbort(SwapBuilder(env, order), targets);
    if BuildAll(SwapBuilder(env, order), targets).Batch? {
      BatchIsFinite(env, order);
      NobodyFunded(env, order);
      var ks := SelectsFunded(order.sizeBps, targets);
    }
  }

  lemma NobodyFunded(env: Env, order: Order)
    requires order.quote.priceOut > 0 && NoStops(SwapBuilder(env, order), order.targets)
    requires !Respond(BuildAll(SwapBuilder(env, order), order.targets)).Done?
    ensures Respond(BuildAll(SwapBuilder(env, order), order.targets)) == Refused(NoInstructions)
    ensures Funded(Share(SWAP_CAP, order.sizeBps), order.targets) == []
  {
    SwapAnswers(env, order);
    LiveIsFunded(env, order, order.targets);
    StopsAbort(SwapBuilder(env, order), order.targets);
  }

  // ---- The answer to a mock-venue signal ----------------------------------------------------------

  /** Whom a mock-venue signal names: the list as it is, or the lone recipient at 10,000 bps. */
  ghost predicate MockNames(parsed: Js, targets: seq<Js>) {
    if HasFollowers(parsed) then targets == Field(parsed, "followers").items
    else
      && IsAddressText(Field(parsed, "recipient")) && |targets| == 1
      && Field(targets[0], "address") == Field(parsed, "recipient")
      && Field(targets[0], "allocationBps") == Num(Finite(10_000.0))
      && targets[0] != Null && targets[0] != Undefined
  }

  /** The allocation as a number, coerced if it is not one; no number and an infinite one throw. */
  function AllocationRead(env: Env, f: Js): Option<real> {
    var given := Field(f, "allocationBps");
    var number := if given.Num? then Some(given.n) else env.coerce(given);
    if f != Null && f != Undefined && number.Some? && number.value.Finite? then Some(number.value.r) else None
  }

  /** The target's part in base units, truncated towards zero twice. */
  function MockAmount(sizeBps: nat, allocation: real): int {
    if allocation >= 0.0 then 100_000_000 * sizeBps * allocation.Floor / 10_000
    else -(100_000_000 * sizeBps * (-allocation).Floor / 10_000)
  }

  predicate MockAllotted(env: Env, sizeBps: nat, f: Js) {
    var allocation := AllocationRead(env, f);
    allocation.Some? && MockAmount(sizeBps, allocation.value) != 0
  }

  function VenueContract(env: Env): Option<string> {
    if env.venueHint == "enosys-cdp" then env.cdp else env.strategy
  }

  lemma TruncatedQuotient(base: nat, r: real)
    ensures TruncDiv(base * Trunc(r), BPS)
            == if r >= 0.0 then base * r.Floor / 10_000 else -(base * (-r).Floor / 10_000)
  {
    if r < 0.0 {
      var k := (-r).Floor;
      assert Trunc(r) == -k && base * (-k) == -(base * k);
    }
  }

  lemma MockNotionalIsAmount(env: Env, sizeBps: nat, f: Js)
    ensures var allocation := AllocationRead(env, f);
            MockNotionalOf(env, Share(MOCK_CAP, sizeBps), f)
            == if allocation.Some? then Some(MockAmount(sizeBps, allocation.value)) else None
  {
    BaseOfSize(sizeBps);
    var allocation := AllocationRead(env, f);
    if allocation.Some? { TruncatedQuotient(Share(MOCK_CAP, sizeBps), allocation.value); }
  }

  /** The instruction is this target's: amount, recipient, contract and operation of the venue. */
  predicate MockTradesFor(env: Env, sizeBps: nat, f: Js, x: Instruction) {
    var address := Field(f, "address");
    && AllocationRead(env, f).Some? && x.amountIn == MockAmount(sizeBps, AllocationRead(env, f).value)
    && address.Str? && Some(x.recipient) == env.checksum(address.s)
    && VenueContract(env).Some? && Some(x.to) == env.checksum(VenueContract(env).value)
    && x.venue == env.venueHint && x.fee == 0
    && x.data == if env.venueHint == "enosys-cdp" then OpenCdp(x.amountIn, x.amountIn / 2) else Deposit(x.amountIn)
  }

  ghost predicate MockSelects(env: Env, sizeBps: nat, targets: seq<Js>, ks: seq<nat>) {
    && (forall i, j :: 0 <= i < j < |ks| ==> ks[i] < ks[j])
    && (forall k :: 0 <= k < |ks| ==> ks[k] < |targets| && MockAllotted(env, sizeBps, targets[ks[k]]))
    && (forall i :: 0 <= i < |targets| && MockAllotted(env, sizeBps, targets[i]) ==> i in ks)
  }

  /** The answer with which this target stops the loop, if it does. */
  function MockStopOf(env: Env, sizeBps: nat, f: Js): Option<Outcome> {
    var address, contract := Field(f, "address"), VenueContract(env);
    if AllocationRead(env, f) == None then Some(Raised)
    else if !MockAllotted(env, sizeBps, f) then None
    else if !address.Str? || env.checksum(address.s) == None then Some(Raised)
    else if contract == None then Some(Refused(NoRouter))
    else if env.checksum(contract.value).Some? && IsUint256(MockAmount(sizeBps, AllocationRead(env, f).value)) then None
    else Some(Raised)
  }

  lemma MockStopOfTarget(env: Env, sizeBps: nat, f: Js)
    ensures var stop, built := MockStopOf(env, sizeBps, f), MockBuilder(env, Share(MOCK_CAP, sizeBps))(f);
            if stop.Some? then built == Stop(stop.value) else !built.Stop?
    ensures MockFunded(env, Share(MOCK_CAP, sizeBps), f) <==> MockAllotted(env, sizeBps, f)
  {
    MockNotionalIsAmount(env, sizeBps, f);
  }

  lemma MockSelectsFunded(env: Env, sizeBps: nat, targets: seq<Js>) returns (ks: seq<nat>)
    ensures MockSelects(env, sizeBps, targets, ks)
    ensures var funded := FundedMock(env, Share(MOCK_CAP, sizeBps), targets);
            |ks| == |funded| && forall k :: 0 <= k < |ks| ==> funded[k] == targets[ks[k]]
  {
    var base := Share(MOCK_CAP, sizeBps);
    FundedMockIsWhere(env, base, targets);
    ks := WherePositions(targets, IsMockFunded(env, base));
    forall i | 0 <= i < |targets|
      ensures IsMockFunded(env, base)(targets[i]) == MockAllotted(env, sizeBps, targets[i])
    {
      MockStopOfTarget(env, sizeBps, targets[i]);
    }
  }

  lemma MockServesIsTrade(env: Env, sizeBps: nat, f: Js, x: Instruction)
    requires MockServes(env, Share(MOCK_CAP, sizeBps), f, x)
    ensures MockTradesFor(env, sizeBps, f, x)
  {
    MockNotionalIsAmount(env, sizeBps, f);
  }

  lemma MockTargetsAreNamed(parsed: Js)
    ensures MockTargets(parsed).Success? <==> HasFollowers(parsed) || IsAddressText(Field(parsed, "recipient"))
    ensures MockTargets(parsed).Success? ==> MockNames(parsed, MockTargets(parsed).value)
    ensures MockTargets(parsed).Failure? ==> MockTargets(parsed).error == Refused(NoTargets)
  {
  }

  /** What a mock-venue signal gets that is answered with a payload. */
  ghost predicate MockServed(env: Env, parsed: Js, targets: seq<Js>, ks: seq<nat>, bs: seq<Instruction>)
    requires ValidSize(parsed)
  {
    && MockNames(parsed, targets) && MockSelects(env, SizeBps(parsed), targets, ks)
    && |bs| == |ks| > 0
    && forall k :: 0 <= k < |ks| ==> MockTradesFor(env, SizeBps(parsed), targets[ks[k]], bs[k])
  }

  lemma MockRecord(env: Env, parsed: Js, bs: seq<Instruction>)
    requires ValidSize(parsed) && MockTargets(parsed).Success? && bs != []
    requires BuildAll(MockBuilder(env, Share(MOCK_CAP, SizeBps(parsed))), MockTargets(parsed).value) == Batch(bs)
    ensures Records(env, parsed, bs[0], Buy, MatchMock(env, parsed).1)
  {
  }

  /** The same for the mock venues: one instruction per target that is allotted anything, in order; recorded as BUY. */
  lemma MockServesSignal(env: Env) returns (targets: seq<Js>, ks: seq<nat>, bs: seq<Instruction>)
    requires GoesToMock(env) && Match(env).0.Done?
    ensures var parsed := env.payload.value;
            && ValidSize(parsed) && MockServed(env, parsed, targets, ks, bs)
            && Carries(Match(env).0.payload, bs)
            && Records(env, parsed, bs[0], Buy, Match(env).1)
  {
    var parsed := env.payload.value;
    MockTargetsAreNamed(parsed);
    assert Match(env) == MatchMock(env, parsed);
    assert ValidSize(parsed) && MockTargets(parsed).Success?;
    targets := MockTargets(parsed).value;
    MockBatch(env, parsed, Field(parsed, "sizePct").n.r);
    var base := Share(MOCK_CAP, SizeBps(parsed));
    bs := BuildAll(MockBuilder(env, base), targets).instructions;
    ks := MockSelectsFunded(env, SizeBps(parsed), targets);
    MockRecord(env, parsed, bs);
    forall k | 0 <= k < |ks| ensures MockTradesFor(env, SizeBps(parsed), targets[ks[k]], bs[k]) {
      MockServesIsTrade(env, SizeBps(parsed), targets[ks[k]], bs[k]);
    }
  }

  /** A mock-venue signal of valid size succeeds exactly when no target stops the loop and one is allotted anything. */
  lemma MockSucceedsIff(env: Env, targets: seq<Js>)
    requires GoesToMock(env) && ValidSize(env.payload.value)
    requires MockTargets(env.payload.value) == Success(targets)
    ensures var size := SizeBps(env.payload.value);
            Match(env).0.Done? <==>
            && (forall i :: 0 <= i < |targets| ==> MockStopOf(env, size, targets[i]) == None)
            && (exists i :: 0 <= i < |targets| && MockAllotted(env, size, targets[i]))
  {
    var parsed := env.payload.value;
    var size := SizeBps(parsed);
    MockBatch(env, parsed, Field(parsed, "sizePct").n.r);
    MockStopsAreStops(env, size, targets);
    MockNoStops(env, Share(MOCK_CAP, size), targets);
    var ks := MockSelectsFunded(env, size, targets);
    if |ks| > 0 { assert MockAllotted(env, size, targets[ks[0]]); }
  }

  lemma MockStopsAreStops(env: Env, size: nat, targets: seq<Js>)
    ensures NoStops(MockBuilder(env, Share(MOCK_CAP, size)), targets)
            <==> forall i :: 0 <= i < |targets| ==> MockStopOf(env, size, targets[i]) == None
    ensures forall o :: FirstStop(MockBuilder(env, Share(MOCK_CAP, size)), targets, o) ==>
              exists i :: 0 <= i < |targets| && MockStopOf(env, size, targets[i]) == Some(o)
                          && forall j :: 0 <= j < i ==> MockStopOf(env, size, targets[j]) == None
  {
    var build := MockBuilder(env, Share(MOCK_CAP, size));
    forall i | 0 <= i < |targets|
      ensures var stop, built := MockStopOf(env, size, targets[i]), build(targets[i]);
              if stop.Some? then built == Stop(stop.value) else !built.Stop?
    {
      MockStopOfTarget(env, size, targets[i]);
    }
  }

  ghost predicate MockFirstStopDecides(env: Env, size: nat, targets: seq<Js>, o: Outcome) {
    if forall i :: 0 <= i < |targets| ==> MockStopOf(env, size, targets[i]) == None
    then o == Refused(NoInstructions) && forall i :: 0 <= i < |targets| ==> !MockAllotted(env, size, targets[i])
    else exists i :: 0 <= i < |targets| && MockStopOf(env, size, targets[i]) == Some(o)
                     && forall j :: 0 <= j < i ==> MockStopOf(env, size, targets[j]) == None
  }

  /** How a mock-venue signal fails: by its size, by naming nobody, or by the first target that stops the loop. */
  lemma MockRefusals(env: Env)
    requires GoesToMock(env) && !Match(env).0.Done?
    ensures var parsed := env.payload.value;
            var o := Match(env).0;
            && Match(env).1 == None
            && (if !ValidSize(parsed) then o == Refused(BadSizePct)
                else if !HasFollowers(parsed) && !IsAddressText(Field(parsed, "recipient")) then o == Refused(NoTargets)
                else MockTargets(parsed).Success?
                     && MockFirstStopDecides(env, SizeBps(parsed), MockTargets(parsed).value, o))
  {
    var parsed := env.payload.value;
    RecordIffDone(env);
    MockTargetsAreNamed(parsed);
    if ValidSize(parsed) && MockTargets(parsed).Success? {
      var targets := MockTargets(parsed).value;
      MockSucceedsIff(env, targets);
      MockStopsAreStops(env, SizeBps(parsed), targets);
      StopsAbort(MockBuilder(env, Share(MOCK_CAP, SizeBps(parsed))), targets);
      MockIsRespond(env, parsed, Field(parsed, "sizePct").n.r);
    }
  }

  /** Unreadable payloads are refused before anything else, and leave no record. */
  lemma UnreadablePayloads(env: Env)
    requires !GoesToSwap(env) && !GoesToMock(env)
    ensures Match(env).0 == Refused(if env.payload == None then Undecryptable else NotAnObject)
    ensures Match(env).1 == None
  {
  }
}
