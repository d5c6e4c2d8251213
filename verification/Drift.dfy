/** The drift detector: the live classification against the registered baseline, with a history of results. */
module Drift {
  import opened Wrappers
  import opened Events
  import opened Classify

  datatype DriftResult = DriftResult(lead: string, baseline: int, live: StrategyClass, liveCode: nat,
                                     confidence: real, drifted: bool, cycle: int, threshold: real)

  function ResultOf(root: real -> real, lead: string, baseline: int, events: seq<OutcomeEvent>, cycle: int,
                    threshold: real)
    : DriftResult
  {
    var c := ClassifyLead(root, events);
    var code := StrategyTypeCode(c.strategy);
    DriftResult(lead, baseline, c.strategy, code, c.confidence, code != baseline && c.confidence >= threshold,
                cycle, threshold)
  }

  function CountFalsePositives(results: seq<DriftResult>): nat {
    if results == [] then 0 else (if results[0].drifted then 1 else 0) + CountFalsePositives(results[1..])
  }

  class Detector {
    var history: seq<DriftResult>

    constructor ()
      ensures history == []
    {
      history := [];
    }

    /** `threshold` is the option given by the caller, else the configured default. */
    method DetectDrift(root: real -> real, lead: string, baseline: int, events: seq<OutcomeEvent>, cycle: int,
                       threshold: Option<real>, configured: real) returns (r: DriftResult)
      modifies this
      ensures r == ResultOf(root, lead, baseline, events, cycle,
                            if threshold.Some? then threshold.value else configured)
      ensures history == old(history) + [r]
    {
      var limit := if threshold.Some? then threshold.value else configured;
      var c := ClassifyLead(root, events);
      var code := StrategyTypeCode(c.strategy);
      var drifted := code != baseline && c.confidence >= limit;
      r := DriftResult(lead, baseline, c.strategy, code, c.confidence, drifted, cycle, limit);
      history := history + [r];
    }

    method ResetDriftHistory()
      modifies this
      ensures history == []
    {
      history := [];
    }
  }

  const MOMENTUM_BASELINE := 0

  /** An alternating series drifts from a momentum baseline exactly for thresholds up to (n-1)/n. */
  lemma AlternationDriftsFromMomentum(root: real -> real, lead: string, events: seq<OutcomeEvent>, cycle: int,
                                      threshold: real)
    requires |events| >= 3 && Alternates(Map(SideSign, SortBy(Timestamp, events)))
    ensures ResultOf(root, lead, MOMENTUM_BASELINE, events, cycle, threshold).drifted
            <==> threshold <= (|events| - 1) as real / |events| as real
  {
    AlternatingIsMeanReversion(root, events);
  }

  /** A series of at least three equal directions never drifts from a momentum baseline, whatever the threshold. */
  lemma AgreementNeverDriftsFromMomentum(root: real -> real, lead: string, events: seq<OutcomeEvent>, cycle: int,
                                         threshold: real)
    requires |events| >= 3 && forall i :: 0 <= i < |events| ==> SideSign(events[i]) == SideSign(events[0])
    ensures !ResultOf(root, lead, MOMENTUM_BASELINE, events, cycle, threshold).drifted
  {
    AgreeingIsMomentum(root, events);
  }

  /** Above a threshold of 0.35 the fallback branch, so any list of fewer than three events, never flags drift. */
  lemma ShortListsNeverDrift(root: real -> real, lead: string, baseline: int, events: seq<OutcomeEvent>, cycle: int,
                             threshold: real)
    requires |events| < 3 && threshold > 0.35
    ensures !ResultOf(root, lead, baseline, events, cycle, threshold).drifted
  {
    ShortListsFallBack(root, events);
  }

  /** A flagged drift always rests on one of the four informed branches. */
  lemma DriftIsInformed(root: real -> real, lead: string, baseline: int, events: seq<OutcomeEvent>, cycle: int,
                        threshold: real)
    requires IsSqrt(root) && threshold > 0.35
    requires ResultOf(root, lead, baseline, events, cycle, threshold).drifted
    ensures Informed(ClassifyLead(root, events), SortBy(Timestamp, events))
  {
    ConfidentIsInformed(root, events);
  }

  lemma {:induction false} CountSnoc(results: seq<DriftResult>, r: DriftResult)
    ensures CountFalsePositives(results + [r]) == CountFalsePositives(results) + if r.drifted then 1 else 0
  {
    if results == [] {
      assert ([] + [r])[1..] == [];
    } else {
      assert (results + [r])[1..] == results[1..] + [r];
      CountSnoc(results[1..], r);
    }
  }

  function Flagged(results: seq<DriftResult>): set<int> {
    set i | 0 <= i < |results| && results[i].drifted
  }

  /** The count is the number of positions in the history that are flagged. */
  lemma {:induction false} CountsFlaggedPositions(results: seq<DriftResult>)
    ensures CountFalsePositives(results) == |Flagged(results)|
    decreases |results|
  {
    if results == [] {
    } else {
      var init, last := results[..|results| - 1], results[|results| - 1];
      assert init + [last] == results;
      CountsFlaggedPositions(init);
      CountSnoc(init, last);
      assert Flagged(results) == Flagged(init) + if last.drifted then {|init|} else {};
    }
  }

  // ---- Over a history of detections -------------------------------------------------------------------

  datatype Call = Call(lead: string, baseline: int, events: seq<OutcomeEvent>, cycle: int, threshold: real)

  /** What `DetectDrift` has pushed after the given calls. */
  function HistoryOf(root: real -> real, calls: seq<Call>): seq<DriftResult> {
    if calls == [] then []
    else
      var c := calls[0];
      [ResultOf(root, c.lead, c.baseline, c.events, c.cycle, c.threshold)] + HistoryOf(root, calls[1..])
  }

  function InformedCalls(root: real -> real, calls: seq<Call>): nat {
    if calls == [] then 0
    else
      var informed := Informed(ClassifyLead(root, calls[0].events), SortBy(Timestamp, calls[0].events));
      (if informed then 1 else 0) + InformedCalls(root, calls[1..])
  }

  /** With thresholds above 0.35 no more results are flagged than calls whose classification was informed. */
  lemma {:induction false} FalsePositivesAreInformed(root: real -> real, calls: seq<Call>)
    requires IsSqrt(root) && forall i :: 0 <= i < |calls| ==> calls[i].threshold > 0.35
    ensures CountFalsePositives(HistoryOf(root, calls)) <= InformedCalls(root, calls) <= |calls|
  {
    if calls == [] {
    } else {
      var c := calls[0];
      FalsePositivesAreInformed(root, calls[1..]);
      assert HistoryOf(root, calls)[1..] == HistoryOf(root, calls[1..]);
      if ResultOf(root, c.lead, c.baseline, c.events, c.cycle, c.threshold).drifted {
        DriftIsInformed(root, c.lead, c.baseline, c.events, c.cycle, c.threshold);
      }
    }
  }
}
