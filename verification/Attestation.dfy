/**
 Attestation requests: the fee-bumping retry loop, the voting-round arithmetic, and what the in-process gate
 (the same promise chain as the action server's queue) buys: no two requests are sent with one nonce.
 */
module Attestation {
  import opened Wrappers
  import opened Arithmetic
  import PromiseChain

  // ---- Fees ---------------------------------------------------------------------------------------

  /** estimateFeesPerGas: either field may be missing, or the whole call may fail. */
  datatype Estimate = Estimated(maxFee: Option<nat>, maxPriority: Option<nat>) | EstimateFailed

  datatype Fees = Fees(maxFee: nat, maxPriority: nat)

  const DEFAULT_MAX_FEE := 50_000_000_000
  const DEFAULT_PRIORITY_FEE := 2_000_000_000
  const MAX_ATTEMPTS := 5

  function GetOr(o: Option<nat>, default: nat): nat { if o.Some? then o.value else default }

  function InitialFees(e: Estimate): Fees {
    var maxFee := if e.Estimated? then GetOr(e.maxFee, DEFAULT_MAX_FEE) else DEFAULT_MAX_FEE;
    var priority := if e.Estimated? then GetOr(e.maxPriority, DEFAULT_PRIORITY_FEE) else DEFAULT_PRIORITY_FEE;
    Fees(if maxFee * 2 < priority * 2 then priority * 2 * 2 else maxFee * 2, priority * 2)
  }

  function BumpFee(fee: nat): nat { fee * 15 / 10 }

  function Bump(f: Fees): Fees { Fees(BumpFee(f.maxFee), BumpFee(f.maxPriority)) }

  /** The fees of attempt number i, counted from 0. */
  function FeesAt(e: Estimate, i: nat): Fees {
    if i == 0 then InitialFees(e) else Bump(FeesAt(e, i - 1))
  }

  datatype Sending = Sent(hash: string) | NonceRace | OtherError

  /** `sending(i)` is what attempt i meets; `waitOk(i)` whether waiting for the pending nonce after it succeeds. */
  method SubmitWithRetries(e: Estimate, sending: nat -> Sending, waitOk: nat -> bool)
    returns (attempts: seq<Fees>, hash: Option<string>)
    ensures 1 <= |attempts| <= 5
    ensures forall i :: 0 <= i < |attempts| ==> attempts[i] == FeesAt(e, i)
    // every attempt but the last lost a nonce race and waited successfully
    ensures forall i :: 0 <= i < |attempts| - 1 ==> sending(i).NonceRace? && waitOk(i)
    // the last one was sent, or gave up
    ensures match sending(|attempts| - 1)
            case Sent(h) => hash == Some(h)
            case OtherError => hash == None
            case NonceRace => hash == None && (|attempts| == 5 || !waitOk(|attempts| - 1))
  {
    var fees := InitialFees(e);
    attempts, hash := [], None;
    var attempt := 0;
    while attempt < MAX_ATTEMPTS
      invariant 0 <= attempt <= MAX_ATTEMPTS && |attempts| == attempt
      invariant fees == FeesAt(e, attempt)
      invariant forall i :: 0 <= i < attempt ==> attempts[i] == FeesAt(e, i)
      invariant forall i :: 0 <= i < attempt ==> sending(i).NonceRace? && waitOk(i) && i < MAX_ATTEMPTS - 1
      invariant hash == None
    {
      attempts := attempts + [fees];
      match sending(attempt) {
        case Sent(h) => hash := Some(h); return;
        case OtherError => return;
        case NonceRace =>
          if attempt == MAX_ATTEMPTS - 1 || !waitOk(attempt) { return; }
          fees := Bump(fees);
      }
      attempt := attempt + 1;
    }
  }

  /** What EIP-1559 requires of every transaction. */
  lemma {:induction false} PriorityWithinMax(e: Estimate, i: nat)
    ensures FeesAt(e, i).maxPriority <= FeesAt(e, i).maxFee
  {
    if i == 0 {
    } else {
      PriorityWithinMax(e, i - 1);
    }
  }

  /** The estimate offers these fees, with 50 and 2 gwei for what it leaves out, or for all of it when it fails. */
  predicate Offers(e: Estimate, maxFee: nat, priority: nat) {
    match e
    case Estimated(m, p) =>
      (m == Some(maxFee) || (m == None && maxFee == 50_000_000_000))
      && (p == Some(priority) || (p == None && priority == 2_000_000_000))
    case EstimateFailed => maxFee == 50_000_000_000 && priority == 2_000_000_000
  }

  /** The first attempt doubles what is offered; a maximum below the priority fee becomes four times that fee. */
  lemma FirstFeesDouble(e: Estimate, maxFee: nat, priority: nat)
    requires Offers(e, maxFee, priority)
    ensures FeesAt(e, 0).maxPriority == 2 * priority
    ensures FeesAt(e, 0).maxFee == if priority <= maxFee then 2 * maxFee else 4 * priority
  {
  }

  /** A retry offers one and a half times the fees, rounded down. */
  lemma RetriesBumpByHalf(e: Estimate, i: nat)
    ensures var now, later := FeesAt(e, i), FeesAt(e, i + 1);
            && 2 * later.maxFee <= 3 * now.maxFee < 2 * later.maxFee + 2
            && 2 * later.maxPriority <= 3 * now.maxPriority < 2 * later.maxPriority + 2
  {
  }

  /** Fees are zero throughout or at least 2, which floor division then lifts by at least 10 % per retry. */
  lemma {:induction false} FeesRise(e: Estimate, i: nat)
    ensures var now, later := FeesAt(e, i), FeesAt(e, i + 1);
            && (now.maxFee == 0 ==> later.maxFee == 0)
            && (now.maxFee > 0 ==> now.maxFee >= 2 && 10 * later.maxFee >= 11 * now.maxFee)
            && (now.maxPriority == 0 ==> later.maxPriority == 0)
            && (now.maxPriority > 0 ==> now.maxPriority >= 2 && 10 * later.maxPriority >= 11 * now.maxPriority)
  {
    if i == 0 {
    } else {
      FeesRise(e, i - 1);
    }
  }

  /** The last attempt offers at most 81/16 of the first one's fees. */
  lemma FeesStayBounded(e: Estimate, i: nat)
    requires i < 5
    ensures 16 * FeesAt(e, i).maxFee <= 81 * FeesAt(e, 0).maxFee
    ensures 16 * FeesAt(e, i).maxPriority <= 81 * FeesAt(e, 0).maxPriority
  {
    var f0 := FeesAt(e, 0);
    var f1 := FeesAt(e, 1); assert f1 == Bump(f0);
    var f2 := FeesAt(e, 2); assert f2 == Bump(f1);
    var f3 := FeesAt(e, 3); assert f3 == Bump(f2);
    var f4 := FeesAt(e, 4); assert f4 == Bump(f3);
  }

  // ---- Voting rounds ------------------------------------------------------------------------------

  /** Fails on a zero duration, as BigInt division does. */
  function RoundId(timestamp: nat, first: nat, duration: nat): Result<int, ()> {
    if duration == 0 then Failure(()) else Success(TruncDiv(timestamp - first, duration))
  }

  lemma QuotientUnique(d: nat, m: nat, r: int)
    requires m > 0
    ensures d / m == r <==> r * m <= d < (r + 1) * m
  {
    var q := d / m;
    assert q * m <= d < q * m + m;
    assert (q + 1) * m == q * m + m;
    if r < q { MulMono(r + 1, q, m); }
    if r > q { MulMono(q + 1, r, m); }
  }

  /** The round id names the one voting epoch that contains the block, for blocks from the first epoch on. */
  lemma RoundContainsBlock(timestamp: nat, first: nat, duration: nat, r: int)
    requires duration > 0 && timestamp >= first
    ensures RoundId(timestamp, first, duration) == Success(r) <==>
            first + r * duration <= timestamp < first + (r + 1) * duration
  {
    QuotientUnique(timestamp - first, duration, r);
  }

  predicate Contains(first: nat, duration: nat, r: int, timestamp: nat) {
    first + r * duration <= timestamp < first + (r + 1) * duration
  }

  /** Before the first epoch the quotient is minus the number of whole epochs still to pass. */
  lemma EpochsAhead(timestamp: nat, first: nat, duration: nat, q: int, rest: nat)
    requires duration > 0 && timestamp < first && rest < duration && first - timestamp == q * duration + rest
    ensures Contains(first, duration, -q, timestamp) <==> rest == 0
    ensures rest > 0 ==> timestamp < first + -q * duration
  {
    assert -q * duration == -(q * duration);
    assert (-q + 1) * duration == -(q * duration) + duration;
  }

  /**
   The round named for a block contains it exactly when the block lies in or after the first epoch, or a whole
   number of epochs before it. Otherwise the division, truncating towards zero, names a round yet to start.
   */
  lemma RoundNamedContainsBlockIff(timestamp: nat, first: nat, duration: nat)
    requires duration > 0
    ensures RoundId(timestamp, first, duration).Success?
    ensures var r := RoundId(timestamp, first, duration).value;
            && (Contains(first, duration, r, timestamp) <==>
                  timestamp >= first || (first - timestamp) % duration == 0)
            && (!Contains(first, duration, r, timestamp) ==> timestamp < first + r * duration)
  {
    var r := RoundId(timestamp, first, duration).value;
    if timestamp >= first {
      RoundContainsBlock(timestamp, first, duration, r);
    } else {
      var ahead := first - timestamp;
      DivMod(ahead, duration);
      EpochsAhead(timestamp, first, duration, ahead / duration, ahead % duration);
    }
  }

  // ---- The gate -----------------------------------------------------------------------------------

  /** A request is doing something else, holds a nonce it has read, or waits for its receipt. */
  datatype RequestState = Preparing | HoldsNonce(nonce: nat) | AwaitsReceipt

  /** `CountRead(extra)`: the node counts every nonce this process has used, and `extra` transactions more. */
  datatype NodeReply = CountRead(extra: nat) | Accepted | Raced | Mined | Other | Failed

  function NextNonce(used: seq<nat>): nat { if used == [] then 0 else used[|used| - 1] + 1 }

  function RequestSegment(l: RequestState, used: seq<nat>, reply: NodeReply)
    : PromiseChain.Next<RequestState, seq<nat>, ()>
  {
    if reply.Failed? then PromiseChain.Done(used, PromiseChain.Threw)
    else
      match (l, reply)
      case (Preparing, CountRead(extra)) => PromiseChain.More(HoldsNonce(NextNonce(used) + extra), used)
      case (HoldsNonce(n), Accepted) => PromiseChain.More(AwaitsReceipt, used + [n])
      case (HoldsNonce(_), Raced) => PromiseChain.More(Preparing, used)
      case (AwaitsReceipt, Mined) => PromiseChain.Done(used, PromiseChain.Returned(()))
      case _ => PromiseChain.More(l, used)
  }

  const REQUEST: PromiseChain.Program<RequestState, seq<nat>, NodeReply, ()> :=
    (l, used, reply) => RequestSegment(l, used, reply)

  ghost predicate Increasing(used: seq<nat>) {
    forall i, j :: 0 <= i < j < |used| ==> used[i] < used[j]
  }

  ghost predicate NonceAhead(l: RequestState, used: seq<nat>) {
    l.HoldsNonce? ==> l.nonce >= NextNonce(used)
  }

  lemma {:induction false} ReplayIncreasing(l: RequestState, used: seq<nat>, replies: seq<NodeReply>)
    requires Increasing(used) && NonceAhead(l, used)
    ensures Increasing(PromiseChain.Replay(REQUEST, l, used, replies).1)
    decreases |replies|
  {
    if replies == [] {
    } else {
      match RequestSegment(l, used, replies[0])
      case More(l', used') => ReplayIncreasing(l', used', replies[1..]);
      case Done(_, _) =>
    }
  }

  type RequestJob = PromiseChain.Job<RequestState, NodeReply, ()>

  lemma {:induction false} SequentialIncreasing(jobs: seq<RequestJob>)
    requires forall k :: 0 <= k < |jobs| ==> jobs[k].task == Preparing
    ensures Increasing(PromiseChain.Sequential(REQUEST, [], jobs))
  {
    if jobs == [] {
    } else {
      SequentialIncreasing(jobs[..|jobs| - 1]);
      var last := jobs[|jobs| - 1];
      ReplayIncreasing(last.task, PromiseChain.Sequential(REQUEST, [], jobs[..|jobs| - 1]), last.inputs);
    }
  }

  /** In every interleaving of requests through the gate, the nonces of the sent transactions strictly increase. */
  lemma GateKeepsNoncesApart(es: seq<PromiseChain.Event<RequestState, NodeReply>>)
    requires PromiseChain.Legal(REQUEST, PromiseChain.Initial([]), es)
    requires forall i :: 0 <= i < |es| && es[i].Arrive? ==> es[i].task == Preparing
    ensures Increasing(PromiseChain.Run(REQUEST, PromiseChain.Initial([]), es).shared)
  {
    var m0: PromiseChain.Machine<RequestState, seq<nat>, NodeReply, ()> := PromiseChain.Initial([]);
    var m := PromiseChain.Run(REQUEST, m0, es);
    PromiseChain.InitialInv<RequestState, seq<nat>, NodeReply, ()>(REQUEST, []);
    var n := PromiseChain.RunKeepsInv(REQUEST, [], m0, 0, es);
    PromiseChain.Linearizable(REQUEST, [], es);
    ArrivalsPreparing(es);
    SequentialIncreasing(m.jobs[..n]);
    if PromiseChain.Entered(m, n) {
      ReplayIncreasing(m.jobs[n].task, PromiseChain.Sequential(REQUEST, [], m.jobs[..n]), m.jobs[n].inputs);
    }
  }

  lemma {:induction false} ArrivalsPreparing(es: seq<PromiseChain.Event<RequestState, NodeReply>>)
    requires forall i :: 0 <= i < |es| && es[i].Arrive? ==> es[i].task == Preparing
    ensures forall k :: 0 <= k < |PromiseChain.Arrivals(es)| ==> PromiseChain.Arrivals(es)[k] == Preparing
  {
    if es == [] {
    } else {
      ArrivalsPreparing(es[1..]);
    }
  }

  /**
   Without the gate, two requests that both read the count before either sends keep their nonces increasing
   exactly when the second read counted more foreign transactions than the first.
   */
  lemma UngatedReadsCollide(used: seq<nat>, extra1: nat, extra2: nat)
    requires Increasing(used)
    ensures var read1 := RequestSegment(Preparing, used, CountRead(extra1));
            var read2 := RequestSegment(Preparing, used, CountRead(extra2));
            && read1.More? && read2.More? && read1.shared == used && read2.shared == used
            && var sent1 := RequestSegment(read1.local, used, Accepted);
               var sent2 := RequestSegment(read2.local, sent1.shared, Accepted);
               && sent2.shared == used + [NextNonce(used) + extra1] + [NextNonce(used) + extra2]
               && (Increasing(sent2.shared) <==> extra1 < extra2)
  {
    var base := NextNonce(used);
    var after := used + [base + extra1] + [base + extra2];
    assert after[|used|] == base + extra1 && after[|used| + 1] == base + extra2;
    if extra1 < extra2 {
      forall i, j | 0 <= i < j < |after| ensures after[i] < after[j] {
        if i < |used| { assert after[i] == used[i] && used[i] < base; }
      }
    }
  }
}
