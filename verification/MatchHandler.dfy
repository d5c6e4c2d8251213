/**
 MATCH_V1: from a decrypted signal to a batch of venue instructions, one per follower, and one outcome record.
 Feeds, token addresses, configuration, the clock and address checksums are inputs; calldata is an
 uninterpreted constructor over its arguments.
 */
module MatchHandler {
  import opened Wrappers
  import opened Arithmetic
  import opened Json
  import opened Sizing
  import opened OutcomeLog

  // ---- Signals ------------------------------------------------------------------------------------

  predicate IsAddress(s: string) { |s| == 42 && "0x" <= s }

  predicate Positive(n: JsNumber) { if n.Finite? then n.r > 0.0 else !n.negative }

  /** Math.trunc. */
  function Trunc(r: real): int { if r >= 0.0 then r.Floor else -((-r).Floor) }

  const UINT256: int := 115792089237316195423570985008687907853269984665640564039457584007913129639936

  predicate Fits(x: int) { 0 <= x < UINT256 }

  datatype Calldata =
    | SwapExactTokens(amountIn: int, minOut: int, tokenIn: string, tokenOut: string, recipient: string, deadline: int)
    | ExactInputSingle(tokenIn: string, tokenOut: string, poolFee: int, recipient: string, deadline: int,
                       amountIn: int, minOut: int)
    | OpenCdp(collateral: int, mint: int)
    | Deposit(assets: int)

  datatype Instruction = Instruction(to: string, data: Calldata, venue: string, fee: int,
                                     recipient: string, amountIn: int)

  datatype Payload =
    | Single(to: string, data: Calldata, venue: string, fee: int)
    | FanOut(instructions: seq<Instruction>, venue: string)

  datatype MatchError =
    | Undecryptable | NotAnObject | BadAsset | BadDirection | BadSizePct | BadFollowerAddress | BadAllocation
    | BadRecipient | NoRpcUrl | ZeroPrice | ZeroNotional | ZeroMinOut | NoRouter | NoInstructions | NoTargets

  /** `Raised`: the handler throws, so that its promise rejects. */
  datatype Outcome = Done(payload: Payload) | Refused(error: MatchError) | Raised

  datatype Env = Env(
    payload: Option<Js>,               // None when the message is not hex or cannot be decrypted
    venueHint: string,                 // lower-cased venue hint of the signal, or its default
    mockVenues: bool,
    rpcUrl: bool,
    feeds: Option<(nat, nat)>,         // FXRP and USDT0 price; None when a chain read fails
    tokens: Option<(string, string)>,  // FXRP and USDT0 address; None when a lookup fails
    venue: string,                     // lower-cased EXECUTION_VENUE, or its default
    blazeRouter: Option<string>, sparkRouter: Option<string>,
    cdp: Option<string>, strategy: Option<string>,
    checksum: string -> Option<string>,  // getAddress; None when it throws
    coerce: Js -> Option<JsNumber>,      // ToNumber of a non-number; None for NaN
    now: int
  )

  // ---- The fan-out loop, for any way of building one instruction -----------------------------------

  datatype Build = Skip | Built(instruction: Instruction) | Stop(outcome: Outcome)

  datatype Batch = Batch(instructions: seq<Instruction>) | Aborted(outcome: Outcome)

  function BuildAll<T>(build: T -> Build, targets: seq<T>): Batch {
    if targets == [] then Batch([])
    else
      match build(targets[0])
      case Skip => BuildAll(build, targets[1..])
      case Stop(o) => Aborted(o)
      case Built(x) => Prepend([x], BuildAll(build, targets[1..]))
  }

  function Prepend(xs: seq<Instruction>, b: Batch): Batch {
    if b.Batch? then Batch(xs + b.instructions) else b
  }

  method BuildLoop<T>(build: T -> Build, targets: seq<T>) returns (r: Batch)
    ensures r == BuildAll(build, targets)
  {
    var builds: seq<Instruction> := [];
    for i := 0 to |targets|
      invariant BuildAll(build, targets) == Prepend(builds, BuildAll(build, targets[i..]))
    {
      assert targets[i..][1..] == targets[i + 1..];
      match build(targets[i]) {
        case Skip =>
        case Stop(o) => return Aborted(o);
        case Built(x) =>
          ghost var rest := BuildAll(build, targets[i + 1..]);
          assert rest.Batch? ==> builds + ([x] + rest.instructions) == builds + [x] + rest.instructions;
          builds := builds + [x];
      }
    }
    return Batch(builds);
  }

  /** The single form for one instruction, the fan-out form for more, nothing for none. */
  function Respond(b: Batch): Outcome {
    if b.Aborted? then b.outcome
    else if b.instructions == [] then Refused(NoInstructions)
    else
      var first := b.instructions[0];
      Done(if |b.instructions| == 1 then Single(first.to, first.data, first.venue, first.fee)
           else FanOut(b.instructions, first.venue))
  }

  function RecordFor(b: Batch, parsed: Js, now: int, direction: Direction, sizePct: int): Option<OutcomeRecord> {
    if b.Aborted? || b.instructions == [] then None
    else
      var lead := Field(parsed, "lead");
      Some(OutcomeRecord(if lead.Str? && "0x" <= lead.s then lead.s else b.instructions[0].recipient,
                         now, 0, direction, sizePct))
  }

  // ---- The swap path --------------------------------------------------------------------------------

  datatype Follower = Follower(address: string, allocation: JsNumber)

  function ReadFollowers(items: seq<Js>): Result<seq<Follower>, Outcome> {
    if items == [] then Success([])
    else if items[0].Null? || items[0].Undefined? then Failure(Raised)
    else
      var address, allocation := Field(items[0], "address"), Field(items[0], "allocationBps");
      if !address.Str? || !IsAddress(address.s) then Failure(Refused(BadFollowerAddress))
      else if !allocation.Num? || !Positive(allocation.n) then Failure(Refused(BadAllocation))
      else
        match ReadFollowers(items[1..])
        case Failure(o) => Failure(o)
        case Success(rest) => Success([Follower(address.s, allocation.n)] + rest)
  }

  function Followers(parsed: Js): seq<Js> {
    if Field(parsed, "followers").Arr? then Field(parsed, "followers").items else []
  }

  function SwapTargets(parsed: Js): Result<seq<Follower>, Outcome> {
    if Followers(parsed) != [] then ReadFollowers(Followers(parsed))
    else
      var recipient := Field(parsed, "recipient");
      if !recipient.Str? || !IsAddress(recipient.s) then Failure(Refused(BadRecipient))
      else Success([Follower(recipient.s, Finite(10_000.0))])
  }

  const SWAP_CAP := 1_000_000 * 1_000_000_000_000_000_000

  datatype Quote = Quote(tokenIn: string, tokenOut: string, priceIn: nat, priceOut: nat)

  function QuoteFor(direction: Direction, feeds: (nat, nat), tokens: (string, string)): Quote {
    if direction.Buy? then Quote(tokens.1, tokens.0, feeds.1, feeds.0)
    else Quote(tokens.0, tokens.1, feeds.0, feeds.1)
  }

  /** The follower's allocation in whole basis points. */
  function AllocationBps(f: Follower): nat {
    if f.allocation.Finite? && f.allocation.r >= 0.0 then f.allocation.r.Floor else 0
  }

  function SwapInstruction(env: Env, q: Quote, base: nat, f: Follower): Build
    requires q.priceOut > 0
  {
    if f.allocation.Infinite? then Stop(Raised)   // BigInt of an infinite number
    else
      var notional := Share(base, AllocationBps(f));
      if notional == 0 then Skip
      else
        var minOut := MinOut(notional, q.priceIn, q.priceOut);
        if minOut == 0 then Stop(Refused(ZeroMinOut))
        else if env.checksum(f.address).None? then Stop(Raised)
        else
          var recipient := env.checksum(f.address).value;
          var blaze := env.venue == "blazeswap-v2";
          var router := if blaze then env.blazeRouter else env.sparkRouter;
          if router.None? then Stop(Refused(NoRouter))
          else if env.checksum(router.value).None? || !Fits(notional) || !Fits(minOut) then Stop(Raised)
          else
            var to := env.checksum(router.value).value;
            if blaze then
              Built(Instruction(to, SwapExactTokens(notional, minOut, q.tokenIn, q.tokenOut, recipient, env.now + 300),
                                env.venue, 0, recipient, notional))
            else
              Built(Instruction(to, ExactInputSingle(q.tokenIn, q.tokenOut, 500, recipient, env.now + 300,
                                                     notional, minOut),
                                env.venue, 500, recipient, notional))
  }

  /** What the checks before the loop leave: the direction, the size in basis points, the targets, the quote. */
  datatype Order = Order(direction: Direction, sizeBps: nat, targets: seq<Follower>, quote: Quote)

  function SwapOrder(env: Env, parsed: Js): Result<Order, Outcome> {
    var asset, direction, size := Field(parsed, "asset"), Field(parsed, "direction"), Field(parsed, "sizePct");
    if asset != Str("FXRP") && asset != Str("USDT0") then Failure(Refused(BadAsset))
    else if direction != Str("BUY") && direction != Str("SELL") then Failure(Refused(BadDirection))
    else if !size.Num? || !size.n.Finite? || size.n.r <= 0.0 then Failure(Refused(BadSizePct))
    else
      match SwapTargets(parsed)
      case Failure(o) => Failure(o)
      case Success(targets) =>
        var side := if direction == Str("BUY") then Buy else Sell;
        if !env.rpcUrl then Failure(Refused(NoRpcUrl))
        else if env.feeds.None? then Failure(Raised)
        else if env.feeds.value.0 == 0 || env.feeds.value.1 == 0 then Failure(Refused(ZeroPrice))
        else if env.tokens.None? then Failure(Raised)
        else if Share(SWAP_CAP, size.n.r.Floor) == 0 then Failure(Refused(ZeroNotional))
        else Success(Order(side, size.n.r.Floor, targets, QuoteFor(side, env.feeds.value, env.tokens.value)))
  }

  function SwapBuilder(env: Env, order: Order): Follower -> Build
    requires order.quote.priceOut > 0
  {
    (f: Follower) => SwapInstruction(env, order.quote, Share(SWAP_CAP, order.sizeBps), f)
  }

  function MatchSwap(env: Env, parsed: Js): (Outcome, Option<OutcomeRecord>) {
    match SwapOrder(env, parsed)
    case Failure(o) => (o, None)
    case Success(order) =>
      var batch := BuildAll(SwapBuilder(env, order), order.targets);
      (Respond(batch), RecordFor(batch, parsed, env.now, order.direction, order.sizeBps))
  }

  // ---- The mock venues ------------------------------------------------------------------------------

  const MOCK_CAP := 1_000_000 * 1_000_000

  function MockTargets(parsed: Js): Result<seq<Js>, Outcome> {
    if Followers(parsed) != [] then Success(Followers(parsed))
    else
      var recipient := Field(parsed, "recipient");
      if recipient.Str? && IsAddress(recipient.s)
      then Success([Obj(map["address" := recipient, "allocationBps" := Num(Finite(10_000.0))])])
      else Failure(Refused(NoTargets))
  }

  /** No validation here: a bad allocation or address surfaces as a thrown error, or not at all when skipped. */
  function MockInstruction(env: Env, base: nat, f: Js): Build {
    if f.Null? || f.Undefined? then Stop(Raised)
    else
      var raw := Field(f, "allocationBps");
      var allocation := if raw.Num? then Some(raw.n) else env.coerce(raw);
      if allocation.None? || allocation.value.Infinite? then Stop(Raised)
      else
        var notional := TruncDiv(base * Trunc(allocation.value.r), BPS);
        if notional == 0 then Skip
        else
          var address := Field(f, "address");
          if !address.Str? || env.checksum(address.s).None? then Stop(Raised)
          else
            var recipient := env.checksum(address.s).value;
            var cdp := env.venueHint == "enosys-cdp";
            var target := if cdp then env.cdp else env.strategy;
            if target.None? then Stop(Refused(NoRouter))
            else if env.checksum(target.value).None? || !Fits(notional) then Stop(Raised)
            else
              Built(Instruction(env.checksum(target.value).value,
                                if cdp then OpenCdp(notional, notional / 2) else Deposit(notional),
                                env.venueHint, 0, recipient, notional))
  }

  function MockBuilder(env: Env, base: nat): Js -> Build {
    (f: Js) => MockInstruction(env, base, f)
  }

  function MatchMock(env: Env, parsed: Js): (Outcome, Option<OutcomeRecord>) {
    var size := Field(parsed, "sizePct");
    if !size.Num? || !size.n.Finite? || size.n.r <= 0.0 then (Refused(BadSizePct), None)
    else
      match MockTargets(parsed)
      case Failure(o) => (o, None)
      case Success(targets) =>
        var base := Share(MOCK_CAP, size.n.r.Floor);
        var batch := BuildAll(MockBuilder(env, base), targets);
        (Respond(batch), RecordFor(batch, parsed, env.now, Buy, size.n.r.Floor))
  }

  // ---- The handler ----------------------------------------------------------------------------------

  predicate UsesMockVenue(env: Env) {
    env.mockVenues && (env.venueHint == "enosys-cdp" || env.venueHint == "firelight-strategy")
  }

  /** The handler's answer, and the outcome it logs. */
  function Match(env: Env): (Outcome, Option<OutcomeRecord>) {
    if env.payload.None? then (Refused(Undecryptable), None)
    else if !env.payload.value.Obj? && !env.payload.value.Arr? then (Refused(NotAnObject), None)
    else if UsesMockVenue(env) then MatchMock(env, env.payload.value)
    else MatchSwap(env, env.payload.value)
  }

  class MatchingEngine {
    const outcomes: Log

    constructor ()
      ensures outcomes.entries == [] && fresh(outcomes)
    {
      outcomes := new Log();
    }

    /** Appends the record of a successful call to the log, in the same segment as the answer is produced. */
    method Finish(batch: Batch, parsed: Js, now: int, direction: Direction, sizePct: int) returns (o: Outcome)
      modifies outcomes
      ensures o == Respond(batch)
      ensures var record := RecordFor(batch, parsed, now, direction, sizePct);
              outcomes.entries == if record.Some? then Append(old(outcomes.entries), record.value)
                                  else old(outcomes.entries)
    {
      if batch.Aborted? { return batch.outcome; }
      var builds := batch.instructions;
      if |builds| == 0 { return Refused(NoInstructions); }
      var payload := if |builds| == 1 then Single(builds[0].to, builds[0].data, builds[0].venue, builds[0].fee)
                     else FanOut(builds, builds[0].venue);
      var lead := Field(parsed, "lead");
      outcomes.AppendOutcome(OutcomeRecord(if lead.Str? && "0x" <= lead.s then lead.s else builds[0].recipient,
                                           now, 0, direction, sizePct));
      return Done(payload);
    }

    method HandleMirrorMatch(env: Env) returns (o: Outcome)
      modifies outcomes
      ensures o == Match(env).0
      ensures outcomes.entries == if Match(env).1.Some? then Append(old(outcomes.entries), Match(env).1.value)
                                  else old(outcomes.entries)
    {
      if env.payload.None? { return Refused(Undecryptable); }
      var parsed := env.payload.value;
      if !parsed.Obj? && !parsed.Arr? { return Refused(NotAnObject); }
      if UsesMockVenue(env) {
        o := BuildMockVenue(env, parsed);
        return;
      }
      var order := SwapOrder(env, parsed);
      if order.Failure? { return order.error; }
      var batch := BuildLoop(SwapBuilder(env, order.value), order.value.targets);
      o := Finish(batch, parsed, env.now, order.value.direction, order.value.sizeBps);
    }

    method BuildMockVenue(env: Env, parsed: Js) returns (o: Outcome)
      modifies outcomes
      ensures o == MatchMock(env, parsed).0
      ensures var record := MatchMock(env, parsed).1;
              outcomes.entries == if record.Some? then Append(old(outcomes.entries), record.value)
                                  else old(outcomes.entries)
    {
      var size := Field(parsed, "sizePct");
      if !size.Num? || !size.n.Finite? || size.n.r <= 0.0 { return Refused(BadSizePct); }
      var targets := MockTargets(parsed);
      if targets.Failure? { return targets.error; }
      var base := Share(MOCK_CAP, size.n.r.Floor);
      var batch := BuildLoop(MockBuilder(env, base), targets.value);
      o := Finish(batch, parsed, env.now, Buy, size.n.r.Floor);
    }
  }

  // ---- All or nothing -------------------------------------------------------------------------------

  function Live<T>(build: T -> Build, targets: seq<T>): seq<T> {
    if targets == [] then []
    else (if build(targets[0]).Skip? then [] else [targets[0]]) + Live(build, targets[1..])
  }

  ghost predicate FirstStop<T>(build: T -> Build, targets: seq<T>, o: Outcome) {
    exists i :: 0 <= i < |targets| && build(targets[i]) == Stop(o)
                && forall j :: 0 <= j < i ==> !build(targets[j]).Stop?
  }

  ghost predicate NoStops<T>(build: T -> Build, targets: seq<T>) {
    forall i :: 0 <= i < |targets| ==> !build(targets[i]).Stop?
  }

  /** One stop drops the whole batch, and the first one decides the answer. */
  lemma {:induction false} StopsAbort<T>(build: T -> Build, targets: seq<T>)
    ensures BuildAll(build, targets).Batch? <==> NoStops(build, targets)
    ensures BuildAll(build, targets).Aborted? ==> FirstStop(build, targets, BuildAll(build, targets).outcome)
  {
    if targets == [] {
    } else {
      var rest := targets[1..];
      StopsAbort(build, rest);
      assert forall i :: 0 <= i < |rest| ==> rest[i] == targets[i + 1];
      if build(targets[0]).Stop? {
      } else if BuildAll(build, rest).Aborted? {
        var o := BuildAll(build, rest).outcome;
        var i :| 0 <= i < |rest| && build(rest[i]) == Stop(o) && forall j :: 0 <= j < i ==> !build(rest[j]).Stop?;
        assert build(targets[i + 1]) == Stop(o);
        forall j | 0 <= j < i + 1 ensures !build(targets[j]).Stop? { if j > 0 { assert targets[j] == rest[j - 1]; } }
      } else {
        forall i | 0 <= i < |targets| ensures !build(targets[i]).Stop? {
          if i > 0 { assert targets[i] == rest[i - 1]; }
        }
      }
    }
  }

  /** A batch holds one instruction per target that is not skipped, in list order. */
  lemma {:induction false} OnePerLiveTarget<T>(build: T -> Build, targets: seq<T>)
    requires BuildAll(build, targets).Batch?
    ensures var bs, live := BuildAll(build, targets).instructions, Live(build, targets);
            |bs| == |live| && forall k :: 0 <= k < |bs| ==> build(live[k]) == Built(bs[k])
  {
    if targets == [] {
    } else {
      OnePerLiveTarget(build, targets[1..]);
    }
  }

  /** The followers who are allotted a non-zero notional, in list order. */
  function Funded(base: nat, targets: seq<Follower>): seq<Follower> {
    if targets == [] then []
    else (if Share(base, AllocationBps(targets[0])) != 0 then [targets[0]] else []) + Funded(base, targets[1..])
  }

  function MinOutOf(data: Calldata): int {
    match data
    case SwapExactTokens(_, minOut, _, _, _, _) => minOut
    case ExactInputSingle(_, _, _, _, _, _, minOut) => minOut
    case _ => 0
  }

  lemma SkippedIffUnfunded(env: Env, order: Order, f: Follower)
    requires order.quote.priceOut > 0 && !SwapBuilder(env, order)(f).Stop?
    ensures SwapBuilder(env, order)(f).Skip? <==> Share(Share(SWAP_CAP, order.sizeBps), AllocationBps(f)) == 0
  {
    assert SwapBuilder(env, order)(f) == SwapInstruction(env, order.quote, Share(SWAP_CAP, order.sizeBps), f);
  }

  lemma {:induction false} LiveIsFunded(env: Env, order: Order, targets: seq<Follower>)
    requires order.quote.priceOut > 0 && NoStops(SwapBuilder(env, order), targets)
    ensures Live(SwapBuilder(env, order), targets) == Funded(Share(SWAP_CAP, order.sizeBps), targets)
  {
    if targets == [] {
    } else {
      assert forall i :: 0 <= i < |targets| - 1 ==> targets[1..][i] == targets[i + 1];
      LiveIsFunded(env, order, targets[1..]);
      SkippedIffUnfunded(env, order, targets[0]);
    }
  }

  /** The payload is the lone instruction in single form, or all of them in the fan-out form. */
  predicate Carries(p: Payload, bs: seq<Instruction>) {
    match p
    case Single(to, data, venue, fee) =>
      |bs| == 1 && bs[0].to == to && bs[0].data == data && bs[0].venue == venue && bs[0].fee == fee
    case FanOut(instructions, venue) =>
      |bs| > 1 && instructions == bs && forall k :: 0 <= k < |bs| ==> bs[k].venue == venue
  }

  lemma {:induction false} OneVenue<T>(build: T -> Build, venue: string, targets: seq<T>)
    requires forall f :: build(f).Built? ==> build(f).instruction.venue == venue
    requires BuildAll(build, targets).Batch?
    ensures forall k :: 0 <= k < |BuildAll(build, targets).instructions| ==>
              BuildAll(build, targets).instructions[k].venue == venue
  {
    if targets == [] {
    } else {
      OneVenue(build, venue, targets[1..]);
    }
  }

  ghost predicate AnswersFor<T>(build: T -> Build, live: seq<T>, o: Outcome, bs: seq<Instruction>) {
    && o.Done? && Carries(o.payload, bs)
    && |bs| == |live| && forall k :: 0 <= k < |bs| ==> build(live[k]) == Built(bs[k])
  }

  /** The loop's answer is a payload exactly when nothing stops it and some target is live. */
  lemma BatchAnswers<T>(build: T -> Build, venue: string, targets: seq<T>)
    requires forall f :: build(f).Stop? ==> !build(f).outcome.Done?
    requires forall f :: build(f).Built? ==> build(f).instruction.venue == venue
    ensures var o := Respond(BuildAll(build, targets));
            && (o.Done? <==> NoStops(build, targets) && Live(build, targets) != [])
            && (o.Done? ==> BuildAll(build, targets).Batch?
                            && AnswersFor(build, Live(build, targets), o, BuildAll(build, targets).instructions))
  {
    StopsAbort(build, targets);
    if NoStops(build, targets) {
      OnePerLiveTarget(build, targets);
      OneVenue(build, venue, targets);
    }
  }

  function RouterOf(env: Env): Option<string> {
    if env.venue == "blazeswap-v2" then env.blazeRouter else env.sparkRouter
  }

  /** It serves a funded follower: its share of the base, its address, the venue's router, the minimum for its share. */
  ghost predicate Serves(env: Env, q: Quote, base: nat, f: Follower, x: Instruction)
    requires q.priceOut > 0
  {
    var share := Share(base, AllocationBps(f));
    && x.amountIn == share > 0
    && Some(x.recipient) == env.checksum(f.address)
    && x.venue == env.venue && RouterOf(env).Some? && Some(x.to) == env.checksum(RouterOf(env).value)
    && MinOutOf(x.data) == MinOut(share, q.priceIn, q.priceOut) > 0
  }

  /** A router is configured for the venue, and its address is well-formed. */
  predicate RouterReady(env: Env) {
    RouterOf(env).Some? && env.checksum(RouterOf(env).value).Some?
  }

  /** The follower's address is well-formed, and both amounts of its share fit and are not zero. */
  predicate Servable(env: Env, q: Quote, base: nat, f: Follower)
    requires q.priceOut > 0
  {
    var share := Share(base, AllocationBps(f));
    var minOut := MinOut(share, q.priceIn, q.priceOut);
    env.checksum(f.address).Some? && share > 0 && Fits(share) && minOut > 0 && Fits(minOut)
  }

  ghost predicate AllServable(env: Env, q: Quote, base: nat, funded: seq<Follower>)
    requires q.priceOut > 0
  {
    forall k :: 0 <= k < |funded| ==> Servable(env, q, base, funded[k])
  }

  /** What decides whether a follower stops the loop. */
  predicate Passes(env: Env, q: Quote, base: nat, f: Follower)
    requires q.priceOut > 0
  {
    f.allocation.Finite? && (Share(base, AllocationBps(f)) == 0 || (RouterReady(env) && Servable(env, q, base, f)))
  }

  lemma StopsUnlessPasses(env: Env, q: Quote, base: nat, f: Follower)
    requires q.priceOut > 0
    ensures SwapInstruction(env, q, base, f).Stop? <==> !Passes(env, q, base, f)
  {
  }

  ghost predicate AllPass(env: Env, q: Quote, base: nat, targets: seq<Follower>)
    requires q.priceOut > 0
  {
    forall i :: 0 <= i < |targets| ==> Passes(env, q, base, targets[i])
  }

  lemma NoStopsIffAllPass(env: Env, order: Order, targets: seq<Follower>)
    requires order.quote.priceOut > 0
    ensures NoStops(SwapBuilder(env, order), targets)
            <==> AllPass(env, order.quote, Share(SWAP_CAP, order.sizeBps), targets)
  {
    var base := Share(SWAP_CAP, order.sizeBps);
    forall i | 0 <= i < |targets|
      ensures SwapBuilder(env, order)(targets[i]).Stop? <==> !Passes(env, order.quote, base, targets[i])
    {
      StopsUnlessPasses(env, order.quote, base, targets[i]);
    }
  }

  lemma AllPassStep(env: Env, q: Quote, base: nat, targets: seq<Follower>)
    requires q.priceOut > 0 && targets != []
    ensures AllPass(env, q, base, targets)
            <==> Passes(env, q, base, targets[0]) && AllPass(env, q, base, targets[1..])
  {
    if Passes(env, q, base, targets[0]) && AllPass(env, q, base, targets[1..]) {
      forall i | 0 <= i < |targets| ensures Passes(env, q, base, targets[i]) {
        if i > 0 { assert targets[i] == targets[1..][i - 1]; }
      }
    }
  }

  ghost predicate AllFinite(targets: seq<Follower>) {
    forall i :: 0 <= i < |targets| ==> targets[i].allocation.Finite?
  }

  /** The loop is not stopped exactly when the funded followers can all be served and no allocation is infinite. */
  lemma {:induction false} AllPassIffServable(env: Env, q: Quote, base: nat, targets: seq<Follower>)
    requires q.priceOut > 0
    ensures var funded := Funded(base, targets);
            AllPass(env, q, base, targets)
            <==> AllFinite(targets) && (funded == [] || RouterReady(env)) && AllServable(env, q, base, funded)
  {
    if targets == [] {
    } else {
      var rest := targets[1..];
      AllPassIffServable(env, q, base, rest);
      AllPassStep(env, q, base, targets);
      AllFiniteStep(targets);
      AllServableAppend(env, q, base, if Share(base, AllocationBps(targets[0])) != 0 then [targets[0]] else [],
                        Funded(base, rest));
      OneServable(env, q, base, targets[0]);
    }
  }

  lemma AllFiniteStep(targets: seq<Follower>)
    requires targets != []
    ensures AllFinite(targets) <==> targets[0].allocation.Finite? && AllFinite(targets[1..])
  {
    if targets[0].allocation.Finite? && AllFinite(targets[1..]) {
      forall i | 0 <= i < |targets| ensures targets[i].allocation.Finite? {
        if i > 0 { assert targets[i] == targets[1..][i - 1]; }
      }
    }
  }

  lemma OneServable(env: Env, q: Quote, base: nat, f: Follower)
    requires q.priceOut > 0
    ensures AllServable(env, q, base, [f]) <==> Servable(env, q, base, f)
  {
    assert [f][0] == f;
  }

  lemma AllServableAppend(env: Env, q: Quote, base: nat, a: seq<Follower>, b: seq<Follower>)
    requires q.priceOut > 0
    ensures AllServable(env, q, base, a + b) <==> AllServable(env, q, base, a) && AllServable(env, q, base, b)
  {
    if AllServable(env, q, base, a + b) {
      forall k | 0 <= k < |a| ensures Servable(env, q, base, a[k]) { assert (a + b)[k] == a[k]; }
      forall k | 0 <= k < |b| ensures Servable(env, q, base, b[k]) { assert (a + b)[|a| + k] == b[k]; }
    }
  }

  lemma SwapAnswers(env: Env, order: Order)
    requires order.quote.priceOut > 0
    ensures var build := SwapBuilder(env, order);
            var o := Respond(BuildAll(build, order.targets));
            && (o.Done? <==> NoStops(build, order.targets) && Live(build, order.targets) != [])
            && (o.Done? ==> BuildAll(build, order.targets).Batch?
                            && AnswersFor(build, Live(build, order.targets), o,
                                          BuildAll(build, order.targets).instructions))
  {
    var build := SwapBuilder(env, order);
    forall f ensures build(f).Stop? ==> !build(f).outcome.Done?
             ensures build(f).Built? ==> build(f).instruction.venue == env.venue
    {
      BuiltFromShare(env, order.quote, Share(SWAP_CAP, order.sizeBps), f);
    }
    BatchAnswers(build, env.venue, order.targets);
  }

  lemma BuiltServes(env: Env, order: Order, live: seq<Follower>, bs: seq<Instruction>)
    requires order.quote.priceOut > 0 && |bs| == |live|
    requires forall k :: 0 <= k < |bs| ==> SwapBuilder(env, order)(live[k]) == Built(bs[k])
    ensures forall k :: 0 <= k < |bs| ==>
              Serves(env, order.quote, Share(SWAP_CAP, order.sizeBps), live[k], bs[k])
  {
    forall k | 0 <= k < |bs| ensures Serves(env, order.quote, Share(SWAP_CAP, order.sizeBps), live[k], bs[k]) {
      BuiltFromShare(env, order.quote, Share(SWAP_CAP, order.sizeBps), live[k]);
      assert SwapBuilder(env, order)(live[k]) == Built(bs[k]);
    }
  }

  /**
   A swap signal that passes the checks succeeds exactly when every allocation is finite, a router is configured,
   somebody is funded and everybody who is can be served; then there is one instruction per funded follower, in list
   order, each for that follower's share of the base notional and with a non-zero minimum output.
   */
  lemma SwapBatch(env: Env, parsed: Js)
    requires SwapOrder(env, parsed).Success?
    ensures var order := SwapOrder(env, parsed).value;
            var base := Share(SWAP_CAP, order.sizeBps);
            var batch := BuildAll(SwapBuilder(env, order), order.targets);
            var funded := Funded(base, order.targets);
            var answer := MatchSwap(env, parsed).0;
            && (answer.Done? <==>
                  && AllFinite(order.targets) && RouterReady(env)
                  && funded != [] && AllServable(env, order.quote, base, funded))
            && (answer.Done? ==>
                  && batch.Batch? && |batch.instructions| == |funded|
                  && Carries(answer.payload, batch.instructions)
                  && forall k :: 0 <= k < |funded| ==>
                       Serves(env, order.quote, base, funded[k], batch.instructions[k]))
  {
    var order := SwapOrder(env, parsed).value;
    var base := Share(SWAP_CAP, order.sizeBps);
    SwapAnswers(env, order);
    NoStopsIffAllPass(env, order, order.targets);
    AllPassIffServable(env, order.quote, base, order.targets);
    StopsAbort(SwapBuilder(env, order), order.targets);
    if NoStops(SwapBuilder(env, order), order.targets) {
      var batch := BuildAll(SwapBuilder(env, order), order.targets);
      LiveIsFunded(env, order, order.targets);
      OnePerLiveTarget(SwapBuilder(env, order), order.targets);
      BuiltServes(env, order, Funded(base, order.targets), batch.instructions);
    }
  }

  lemma BuiltFromShare(env: Env, q: Quote, base: nat, f: Follower)
    requires q.priceOut > 0
    ensures SwapInstruction(env, q, base, f).Built? ==>
              var x := SwapInstruction(env, q, base, f).instruction;
              Serves(env, q, base, f, x)
    ensures SwapInstruction(env, q, base, f).Stop? ==> !SwapInstruction(env, q, base, f).outcome.Done?
  {
  }

  /** The instruction trades tokenIn for tokenOut within one per cent, and two units, of the fair price. */
  predicate TradesAt(x: Instruction, tokenIn: string, tokenOut: string, priceIn: nat, priceOut: nat, now: int) {
    match x.data
    case SwapExactTokens(amountIn, minOut, i, o, recipient, deadline) =>
      && x.venue == "blazeswap-v2" && x.fee == 0
      && FairTrade(x, amountIn, minOut, priceIn, priceOut)
      && i == tokenIn && o == tokenOut && recipient == x.recipient && deadline == now + 300
    case ExactInputSingle(i, o, poolFee, recipient, deadline, amountIn, minOut) =>
      && x.venue != "blazeswap-v2" && x.fee == poolFee == 500
      && FairTrade(x, amountIn, minOut, priceIn, priceOut)
      && i == tokenIn && o == tokenOut && recipient == x.recipient && deadline == now + 300
    case _ => false
  }

  predicate FairTrade(x: Instruction, amountIn: int, minOut: int, priceIn: nat, priceOut: nat) {
    && amountIn == x.amountIn
    && 100 * (minOut * priceOut) <= 99 * (amountIn * priceIn) < 100 * ((minOut + 2) * priceOut)
  }

  lemma BuiltTrades(env: Env, q: Quote, base: nat, f: Follower)
    requires q.priceOut > 0 && SwapInstruction(env, q, base, f).Built?
    ensures TradesAt(SwapInstruction(env, q, base, f).instruction,
                     q.tokenIn, q.tokenOut, q.priceIn, q.priceOut, env.now)
  {
    SlippageBound(Share(base, AllocationBps(f)), q.priceIn, q.priceOut);
  }

  /** The trade a signal asks for: BUY spends USDT0 for FXRP and SELL the reverse, each at its own feed's price. */
  predicate TradesAsAsked(env: Env, parsed: Js, x: Instruction)
    requires env.tokens.Some? && env.feeds.Some?
  {
    var (fxrp, usdt0) := env.tokens.value;
    var (fxrpPrice, usdt0Price) := env.feeds.value;
    if Field(parsed, "direction") == Str("BUY") then TradesAt(x, usdt0, fxrp, usdt0Price, fxrpPrice, env.now)
    else Field(parsed, "direction") == Str("SELL") && TradesAt(x, fxrp, usdt0, fxrpPrice, usdt0Price, env.now)
  }

  lemma SwapTrades(env: Env, parsed: Js)
    requires SwapOrder(env, parsed).Success?
    ensures env.tokens.Some? && env.feeds.Some?
    ensures var order := SwapOrder(env, parsed).value;
            var batch := BuildAll(SwapBuilder(env, order), order.targets);
            batch.Batch? ==>
              forall k :: 0 <= k < |batch.instructions| ==> TradesAsAsked(env, parsed, batch.instructions[k])
  {
    var order := SwapOrder(env, parsed).value;
    var build, base := SwapBuilder(env, order), Share(SWAP_CAP, order.sizeBps);
    if BuildAll(build, order.targets).Batch? {
      OnePerLiveTarget(build, order.targets);
      var live := Live(build, order.targets);
      forall k | 0 <= k < |live|
        ensures TradesAsAsked(env, parsed, BuildAll(build, order.targets).instructions[k])
      {
        assert build(live[k]) == SwapInstruction(env, order.quote, base, live[k]);
        BuiltTrades(env, order.quote, base, live[k]);
      }
    }
  }

  function Amounts(bs: seq<Instruction>): int { if bs == [] then 0 else bs[0].amountIn + Amounts(bs[1..]) }

  function Allocations(targets: seq<Follower>): (r: seq<nat>)
    ensures |r| == |targets|
  {
    if targets == [] then [] else [AllocationBps(targets[0])] + Allocations(targets[1..])
  }

  lemma {:induction false} BatchSpendsTheShares(env: Env, order: Order, targets: seq<Follower>)
    requires order.quote.priceOut > 0
    requires BuildAll(SwapBuilder(env, order), targets).Batch?
    ensures Amounts(BuildAll(SwapBuilder(env, order), targets).instructions)
            == Sum(Shares(Share(SWAP_CAP, order.sizeBps), Allocations(targets)))
  {
    if targets == [] {
    } else {
      var base := Share(SWAP_CAP, order.sizeBps);
      BatchSpendsTheShares(env, order, targets[1..]);
      assert Shares(base, Allocations(targets))[1..] == Shares(base, Allocations(targets[1..]));
      var rest := BuildAll(SwapBuilder(env, order), targets[1..]).instructions;
      match SwapBuilder(env, order)(targets[0]) {
        case Built(x) => assert ([x] + rest)[1..] == rest;
        case _ =>
      }
    }
  }

  ghost predicate PositiveTargets(targets: seq<Follower>) {
    forall i :: 0 <= i < |targets| ==> Positive(targets[i].allocation)
  }

  ghost predicate FiniteTargets(targets: seq<Follower>) {
    forall i :: 0 <= i < |targets| ==> targets[i].allocation.Finite? && targets[i].allocation.r > 0.0
  }

  /** The allocations as the signal gives them. */
  function RawAllocations(targets: seq<Follower>): (raw: seq<real>)
    requires FiniteTargets(targets)
    ensures |raw| == |targets| && forall i :: 0 <= i < |raw| ==> raw[i] == targets[i].allocation.r
  {
    if targets == [] then [] else [targets[0].allocation.r] + RawAllocations(targets[1..])
  }

  lemma {:induction false} ReadFollowersPositive(items: seq<Js>)
    ensures ReadFollowers(items).Success? ==> PositiveTargets(ReadFollowers(items).value)
  {
    if items == [] {
    } else {
      ReadFollowersPositive(items[1..]);
    }
  }

  lemma SwapTargetsPositive(parsed: Js)
    ensures SwapTargets(parsed).Success? ==> PositiveTargets(SwapTargets(parsed).value)
  {
    ReadFollowersPositive(Followers(parsed));
  }

  /** An infinite allocation throws in the loop, so a batch has finite ones only. */
  lemma BatchIsFinite(env: Env, order: Order)
    requires order.quote.priceOut > 0 && PositiveTargets(order.targets)
    requires BuildAll(SwapBuilder(env, order), order.targets).Batch?
    ensures FiniteTargets(order.targets)
  {
    var build := SwapBuilder(env, order);
    StopsAbort(build, order.targets);
    forall i | 0 <= i < |order.targets| ensures order.targets[i].allocation.Finite? {
      assert build(order.targets[i])
          == SwapInstruction(env, order.quote, Share(SWAP_CAP, order.sizeBps), order.targets[i]);
    }
  }

  lemma {:induction false} AllocationsAreTruncated(targets: seq<Follower>)
    requires FiniteTargets(targets)
    ensures NonNegative(RawAllocations(targets)) && Allocations(targets) == Truncated(RawAllocations(targets))
  {
    if targets == [] {
    } else {
      AllocationsAreTruncated(targets[1..]);
      assert RawAllocations(targets)[1..] == RawAllocations(targets[1..]);
    }
  }

  /** What a batch that spends `spent` of the base owes to the allocations it was given. */
  ghost predicate Conserves(base: nat, spent: int, raw: seq<real>) {
    && (Total(raw) <= BPS as real ==> spent <= base)
    && (Total(raw) == BPS as real && AllWhole(raw) ==> base - spent < |raw|)
    && (Total(raw) == BPS as real && |raw| * BPS <= base ==> (base - spent < |raw| <==> AllWhole(raw)))
  }

  lemma SharesConserve(base: nat, raw: seq<real>)
    requires NonNegative(raw)
    ensures Conserves(base, Sum(Shares(base, Truncated(raw))), raw)
  {
    if Total(raw) <= BPS as real { RawNeverOverspends(base, raw); }
    if Total(raw) == BPS as real { RawDustIffWhole(base, raw); }
  }

  /**
   Skipped followers included, a batch spends at most the base notional when the given allocations sum to at most
   10,000 bps. When they sum to exactly that, all but dust is spent exactly when all of them are whole.
   */
  lemma BatchConservation(env: Env, parsed: Js)
    requires SwapOrder(env, parsed).Success?
    ensures var order := SwapOrder(env, parsed).value;
            var batch := BuildAll(SwapBuilder(env, order), order.targets);
            batch.Batch? ==>
              && FiniteTargets(order.targets)
              && Conserves(Share(SWAP_CAP, order.sizeBps), Amounts(batch.instructions), RawAllocations(order.targets))
  {
    var order := SwapOrder(env, parsed).value;
    if BuildAll(SwapBuilder(env, order), order.targets).Batch? {
      SwapTargetsPositive(parsed);
      BatchIsFinite(env, order);
      BatchSpendsTheShares(env, order, order.targets);
      AllocationsAreTruncated(order.targets);
      SharesConserve(Share(SWAP_CAP, order.sizeBps), RawAllocations(order.targets));
    }
  }

  /**
   A lone recipient, with no follower list or an empty or malformed one beside it, is served exactly like a
   one-element follower list at 10,000 bps: with the whole base.
   */
  lemma LoneRecipient(env: Env, signal: map<string, Js>, r: string)
    requires Followers(Obj(signal)) == []
    requires "recipient" in signal && signal["recipient"] == Str(r) && IsAddress(r)
    ensures var listed := Arr([Obj(map["address" := Str(r), "allocationBps" := Num(Finite(10_000.0))])]);
            MatchSwap(env, Obj(signal)) == MatchSwap(env, Obj(signal["followers" := listed]))
    ensures forall base: nat :: Share(base, AllocationBps(Follower(r, Finite(10_000.0)))) == base
  {
    var f := Obj(map["address" := Str(r), "allocationBps" := Num(Finite(10_000.0))]);
    var one := Obj(signal["followers" := Arr([f])]);
    assert Followers(one) == [f] && [f][1..] == [];
    assert Field(f, "address") == Str(r) && Field(f, "allocationBps") == Num(Finite(10_000.0));
    assert ReadFollowers([f]) == Success([Follower(r, Finite(10_000.0))] + []);
    assert [Follower(r, Finite(10_000.0))] + [] == [Follower(r, Finite(10_000.0))];
    assert SwapTargets(one) == SwapTargets(Obj(signal));
    assert SwapOrder(env, one) == SwapOrder(env, Obj(signal));
    assert (10_000.0).Floor == 10_000;
  }

  // ---- The mock venues' batch -----------------------------------------------------------------------

  /** It serves a funded target: its notional, its address, the contract of the venue and the venue's operation. */
  predicate MockServes(env: Env, base: nat, f: Js, x: Instruction) {
    var address := Field(f, "address");
    var venue := if env.venueHint == "enosys-cdp" then env.cdp else env.strategy;
    && MockNotionalOf(env, base, f) == Some(x.amountIn)
    && address.Str? && Some(x.recipient) == env.checksum(address.s)
    && venue.Some? && Some(x.to) == env.checksum(venue.value)
    && MockTrade(env, x)
  }

  predicate MockTrade(env: Env, x: Instruction) {
    && x.amountIn != 0 && Fits(x.amountIn)
    && x.venue == env.venueHint && x.fee == 0
    && x.data == if env.venueHint == "enosys-cdp" then OpenCdp(x.amountIn, x.amountIn / 2) else Deposit(x.amountIn)
  }

  /** The target's notional, where its allocation is a number; JavaScript coerces what is not one. */
  function MockNotionalOf(env: Env, base: nat, f: Js): Option<int> {
    var raw := Field(f, "allocationBps");
    var allocation := if raw.Num? then Some(raw.n) else env.coerce(raw);
    if f.Null? || f.Undefined? || allocation.None? || allocation.value.Infinite? then None
    else Some(TruncDiv(base * Trunc(allocation.value.r), BPS))
  }

  /** The venue's contract is configured, and its address is well-formed. */
  predicate MockVenueReady(env: Env) {
    var target := if env.venueHint == "enosys-cdp" then env.cdp else env.strategy;
    target.Some? && env.checksum(target.value).Some?
  }

  /** What decides whether a target stops the loop. */
  predicate MockPasses(env: Env, base: nat, f: Js) {
    var notional := MockNotionalOf(env, base, f);
    var address := Field(f, "address");
    notional.Some? && (notional.value == 0
      || (address.Str? && env.checksum(address.s).Some? && MockVenueReady(env) && Fits(notional.value)))
  }

  predicate MockFunded(env: Env, base: nat, f: Js) {
    MockNotionalOf(env, base, f).Some? && MockNotionalOf(env, base, f).value != 0
  }

  lemma MockStopsUnlessPasses(env: Env, base: nat, f: Js)
    ensures MockInstruction(env, base, f).Stop? <==> !MockPasses(env, base, f)
    ensures MockPasses(env, base, f) ==> (MockInstruction(env, base, f).Skip? <==> !MockFunded(env, base, f))
  {
  }

  ghost predicate AllMockPass(env: Env, base: nat, targets: seq<Js>) {
    forall i :: 0 <= i < |targets| ==> MockPasses(env, base, targets[i])
  }

  function FundedMock(env: Env, base: nat, targets: seq<Js>): seq<Js> {
    if targets == [] then []
    else (if MockFunded(env, base, targets[0]) then [targets[0]] else []) + FundedMock(env, base, targets[1..])
  }

  lemma MockNoStops(env: Env, base: nat, targets: seq<Js>)
    ensures NoStops(MockBuilder(env, base), targets) <==> AllMockPass(env, base, targets)
  {
    forall i | 0 <= i < |targets|
      ensures MockBuilder(env, base)(targets[i]).Stop? <==> !MockPasses(env, base, targets[i])
    {
      MockStopsUnlessPasses(env, base, targets[i]);
    }
  }

  lemma {:induction false} MockLiveIsFunded(env: Env, base: nat, targets: seq<Js>)
    requires AllMockPass(env, base, targets)
    ensures Live(MockBuilder(env, base), targets) == FundedMock(env, base, targets)
  {
    if targets == [] {
    } else {
      MockStopsUnlessPasses(env, base, targets[0]);
      assert MockPasses(env, base, targets[0]);
      MockLiveIsFunded(env, base, targets[1..]);
    }
  }

  lemma MockAnswers(env: Env, base: nat, targets: seq<Js>)
    ensures var build := MockBuilder(env, base);
            var o := Respond(BuildAll(build, targets));
            && (o.Done? <==> NoStops(build, targets) && Live(build, targets) != [])
            && (o.Done? ==> BuildAll(build, targets).Batch?
                            && AnswersFor(build, Live(build, targets), o, BuildAll(build, targets).instructions))
  {
    var build := MockBuilder(env, base);
    forall f ensures build(f).Stop? ==> !build(f).outcome.Done?
             ensures build(f).Built? ==> build(f).instruction.venue == env.venueHint
    {
      MockBuilds(env, base, f);
    }
    BatchAnswers(build, env.venueHint, targets);
  }

  lemma MockTrades(env: Env, base: nat, live: seq<Js>, bs: seq<Instruction>)
    requires |bs| == |live| && forall k :: 0 <= k < |bs| ==> MockBuilder(env, base)(live[k]) == Built(bs[k])
    ensures forall k :: 0 <= k < |bs| ==> MockServes(env, base, live[k], bs[k])
  {
    forall k | 0 <= k < |bs| ensures MockServes(env, base, live[k], bs[k]) {
      MockBuilds(env, base, live[k]);
      assert MockBuilder(env, base)(live[k]) == Built(bs[k]);
    }
  }

  /**
   A mock-venue signal of valid size succeeds exactly when every target passes and some target is funded; then there
   is one instruction per funded target, in order.
   */
  lemma MockBatch(env: Env, parsed: Js, size: real)
    requires Field(parsed, "sizePct") == Num(Finite(size)) && size > 0.0 && MockTargets(parsed).Success?
    ensures var targets := MockTargets(parsed).value;
            var base := Share(MOCK_CAP, size.Floor);
            var batch := BuildAll(MockBuilder(env, base), targets);
            var funded := FundedMock(env, base, targets);
            var answer := MatchMock(env, parsed).0;
            && (answer.Done? <==> AllMockPass(env, base, targets) && funded != [])
            && (answer.Done? ==>
                  && batch.Batch? && |batch.instructions| == |funded|
                  && Carries(answer.payload, batch.instructions)
                  && forall k :: 0 <= k < |funded| ==> MockServes(env, base, funded[k], batch.instructions[k]))
  {
    var targets := MockTargets(parsed).value;
    var base := Share(MOCK_CAP, size.Floor);
    MockIsRespond(env, parsed, size);
    MockAnswers(env, base, targets);
    MockNoStops(env, base, targets);
    if AllMockPass(env, base, targets) {
      MockLiveIsFunded(env, base, targets);
      StopsAbort(MockBuilder(env, base), targets);
      OnePerLiveTarget(MockBuilder(env, base), targets);
      MockTrades(env, base, FundedMock(env, base, targets), BuildAll(MockBuilder(env, base), targets).instructions);
    }
  }

  lemma MockBuilds(env: Env, base: nat, f: Js)
    ensures MockInstruction(env, base, f).Stop? ==> !MockInstruction(env, base, f).outcome.Done?
    ensures MockInstruction(env, base, f).Built? ==>
              MockServes(env, base, f, MockInstruction(env, base, f).instruction)
  {
  }

  lemma MockIsRespond(env: Env, parsed: Js, size: real)
    requires Field(parsed, "sizePct") == Num(Finite(size)) && size > 0.0 && MockTargets(parsed).Success?
    ensures MatchMock(env, parsed).0
            == Respond(BuildAll(MockBuilder(env, Share(MOCK_CAP, size.Floor)), MockTargets(parsed).value))
  {
  }

  predicate PositiveAllocation(f: Js) {
    var a := Field(f, "allocationBps");
    a.Num? && a.n.Finite? && a.n.r > 0.0
  }

  ghost predicate PositiveAllocations(targets: seq<Js>) {
    forall i :: 0 <= i < |targets| ==> PositiveAllocation(targets[i])
  }

  function RawAllocation(f: Js): real
    requires PositiveAllocation(f)
  {
    Field(f, "allocationBps").n.r
  }

  function RawMockAllocations(targets: seq<Js>): (raw: seq<real>)
    requires PositiveAllocations(targets)
    ensures |raw| == |targets| && forall i :: 0 <= i < |raw| ==> raw[i] == RawAllocation(targets[i]) > 0.0
  {
    if targets == [] then [] else [RawAllocation(targets[0])] + RawMockAllocations(targets[1..])
  }

  lemma {:induction false} MockSpendsTheShares(env: Env, base: nat, targets: seq<Js>)
    requires PositiveAllocations(targets)
    requires BuildAll(MockBuilder(env, base), targets).Batch?
    ensures Amounts(BuildAll(MockBuilder(env, base), targets).instructions)
            == Sum(Shares(base, Truncated(RawMockAllocations(targets))))
  {
    if targets == [] {
    } else {
      MockSpendsTheShares(env, base, targets[1..]);
      MockNotional(env, base, targets[0]);
      var raw := RawMockAllocations(targets);
      assert raw[1..] == RawMockAllocations(targets[1..]);
      assert Shares(base, Truncated(raw))[1..] == Shares(base, Truncated(raw[1..]));
      var rest := BuildAll(MockBuilder(env, base), targets[1..]).instructions;
      match MockBuilder(env, base)(targets[0]) {
        case Built(x) => assert ([x] + rest)[1..] == rest;
        case _ =>
      }
    }
  }

  lemma MockNotional(env: Env, base: nat, f: Js)
    requires PositiveAllocation(f)
    ensures var share := Share(base, RawAllocation(f).Floor);
            && (MockInstruction(env, base, f).Skip? <==> share == 0)
            && (MockInstruction(env, base, f).Built? ==> MockInstruction(env, base, f).instruction.amountIn == share)
  {
  }

  /** With positive allocations the mock venues conserve the base amount just like the swap path. */
  lemma MockConservation(env: Env, base: nat, targets: seq<Js>)
    requires PositiveAllocations(targets)
    requires BuildAll(MockBuilder(env, base), targets).Batch?
    ensures Conserves(base, Amounts(BuildAll(MockBuilder(env, base), targets).instructions),
                      RawMockAllocations(targets))
  {
    MockSpendsTheShares(env, base, targets);
    SharesConserve(base, RawMockAllocations(targets));
  }

  // ---- The outcome log over any calls ---------------------------------------------------------------

  /** A call leaves one record exactly when it succeeds. */
  lemma RecordIffDone(env: Env)
    ensures Match(env).1.Some? <==> Match(env).0.Done?
  {
    if env.payload.Some? && !UsesMockVenue(env) {
      StopsAreNotDone(env, env.payload.value);
    } else if env.payload.Some? && (env.payload.value.Obj? || env.payload.value.Arr?) {
      var parsed := env.payload.value;
      var size := Field(parsed, "sizePct");
      if size.Num? && size.n.Finite? && size.n.r > 0.0 && MockTargets(parsed).Success? {
        StopsAbort(MockBuilder(env, Share(MOCK_CAP, size.n.r.Floor)), MockTargets(parsed).value);
      }
    }
  }

  lemma {:induction false} FollowerErrorsAreNotDone(items: seq<Js>)
    ensures ReadFollowers(items).Failure? ==> !ReadFollowers(items).error.Done?
  {
    if items == [] {
    } else {
      FollowerErrorsAreNotDone(items[1..]);
    }
  }

  lemma StopsAreNotDone(env: Env, parsed: Js)
    ensures MatchSwap(env, parsed).1.Some? <==> MatchSwap(env, parsed).0.Done?
  {
    FollowerErrorsAreNotDone(Followers(parsed));
    if SwapOrder(env, parsed).Success? {
      var order := SwapOrder(env, parsed).value;
      StopsAbort(SwapBuilder(env, order), order.targets);
    }
  }

  /** What each call logs, in completion order. */
  function Logged(calls: seq<Env>): seq<Option<OutcomeRecord>> {
    if calls == [] then [] else [Match(calls[0]).1] + Logged(calls[1..])
  }

  function Successes(calls: seq<Env>): nat {
    if calls == [] then 0 else (if Match(calls[0]).0.Done? then 1 else 0) + Successes(calls[1..])
  }

  lemma {:induction false} OneRecordPerSuccess(calls: seq<Env>)
    ensures |Present(Logged(calls))| == Successes(calls)
  {
    if calls == [] {
    } else {
      RecordIffDone(calls[0]);
      OneRecordPerSuccess(calls[1..]);
      assert Logged(calls)[1..] == Logged(calls[1..]);
    }
  }

  /** After any calls the log holds the latest 10,000 records, one per successful call and none for any other. */
  lemma LogHoldsSuccessfulCalls(calls: seq<Env>)
    ensures LogAfter([], Logged(calls)) == Latest(Present(Logged(calls)), 10_000)
    ensures |Present(Logged(calls))| == Successes(calls)
  {
    LogFollowsRecords([], Logged(calls));
    assert [] + Present(Logged(calls)) == Present(Logged(calls));
    OneRecordPerSuccess(calls);
  }
}
