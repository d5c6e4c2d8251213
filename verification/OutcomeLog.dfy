/** The bounded outcome log read by the scoring agent. */
module OutcomeLog {
  import opened Text
  import opened Wrappers

  datatype Direction = Buy | Sell

  datatype OutcomeRecord = OutcomeRecord(lead: string, timestamp: int, pnlBps: int, direction: Direction, sizePct: int)

  const MAX_ENTRIES := 10_000

  predicate SameLead(r: OutcomeRecord, lead: string) { Lower(r.lead) == Lower(lead) }

  function OfLead(log: seq<OutcomeRecord>, lead: string): seq<OutcomeRecord> {
    if log == [] then []
    else (if SameLead(log[0], lead) then [log[0]] else []) + OfLead(log[1..], lead)
  }

  /** push, then splice off the surplus at the front. */
  function Append(log: seq<OutcomeRecord>, r: OutcomeRecord): seq<OutcomeRecord> {
    var pushed := log + [r];
    if |pushed| > MAX_ENTRIES then pushed[|pushed| - MAX_ENTRIES..] else pushed
  }

  class Log {
    var entries: seq<OutcomeRecord>

    constructor ()
      ensures entries == []
    {
      entries := [];
    }

    method AppendOutcome(r: OutcomeRecord)
      modifies this
      ensures entries == Append(old(entries), r)
    {
      entries := entries + [r];
      if |entries| > MAX_ENTRIES {
        entries := entries[|entries| - MAX_ENTRIES..];
      }
    }

    method GetOutcomesForLead(lead: string) returns (r: seq<OutcomeRecord>)
      ensures r == OfLead(entries, lead)
    {
      r := [];
      for i := 0 to |entries|
        invariant OfLead(entries, lead) == r + OfLead(entries[i..], lead)
      {
        if SameLead(entries[i], lead) { r := r + [entries[i]]; }
      }
    }

    method GetAllOutcomes() returns (r: seq<OutcomeRecord>)
      ensures r == entries
    {
      r := entries;
    }

    method ClearOutcomeLog()
      modifies this
      ensures entries == []
    {
      entries := [];
    }
  }

  // ---- Refinement of an unbounded history -----------------------------------------------------------

  datatype Op = Add(r: OutcomeRecord) | Clear

  function RunLog(log: seq<OutcomeRecord>, ops: seq<Op>): seq<OutcomeRecord>
    decreases |ops|
  {
    if ops == [] then log
    else RunLog(if ops[0].Add? then Append(log, ops[0].r) else [], ops[1..])
  }

  /** Every record added since the last clear. */
  function History(before: seq<OutcomeRecord>, ops: seq<Op>): seq<OutcomeRecord>
    decreases |ops|
  {
    if ops == [] then before
    else History(if ops[0].Add? then before + [ops[0].r] else [], ops[1..])
  }

  function Latest(history: seq<OutcomeRecord>, n: nat): seq<OutcomeRecord> {
    if |history| <= n then history else history[|history| - n..]
  }

  lemma AppendKeepsLatest(history: seq<OutcomeRecord>, r: OutcomeRecord)
    ensures Append(Latest(history, MAX_ENTRIES), r) == Latest(history + [r], MAX_ENTRIES)
  {
  }

  lemma {:induction false} LogFollowsHistory(history: seq<OutcomeRecord>, ops: seq<Op>)
    ensures RunLog(Latest(history, MAX_ENTRIES), ops) == Latest(History(history, ops), MAX_ENTRIES)
    decreases |ops|
  {
    if ops == [] {
    } else {
      if ops[0].Add? {
        AppendKeepsLatest(history, ops[0].r);
        LogFollowsHistory(history + [ops[0].r], ops[1..]);
      } else {
        LogFollowsHistory([], ops[1..]);
      }
    }
  }

  /** After any run of the log it holds the last 10,000 records (or all, if fewer) since the last clear, in order. */
  lemma LogIsLatestOfHistory(ops: seq<Op>)
    ensures RunLog([], ops) == Latest(History([], ops), MAX_ENTRIES)
    ensures var log, all := RunLog([], ops), History([], ops);
            && |log| == (if |all| > 10_000 then 10_000 else |all|)
            && forall i :: 0 <= i < |log| ==> log[i] == all[|all| - |log| + i]
  {
    LogFollowsHistory([], ops);
  }

  // ---- Calls that may or may not leave a record -------------------------------------------------------

  function LogAfter(log: seq<OutcomeRecord>, records: seq<Option<OutcomeRecord>>): seq<OutcomeRecord>
    decreases |records|
  {
    if records == [] then log
    else LogAfter(if records[0].Some? then Append(log, records[0].value) else log, records[1..])
  }

  lemma {:induction false} LogAfterSnoc(log: seq<OutcomeRecord>, records: seq<Option<OutcomeRecord>>,
                                        r: Option<OutcomeRecord>)
    ensures LogAfter(log, records + [r]) ==
            if r.Some? then Append(LogAfter(log, records), r.value) else LogAfter(log, records)
    decreases |records|
  {
    if records == [] {
      assert (records + [r])[1..] == [];
    } else {
      assert (records + [r])[1..] == records[1..] + [r];
      LogAfterSnoc(if records[0].Some? then Append(log, records[0].value) else log, records[1..], r);
    }
  }

  function Present(records: seq<Option<OutcomeRecord>>): seq<OutcomeRecord> {
    if records == [] then []
    else (if records[0].Some? then [records[0].value] else []) + Present(records[1..])
  }

  lemma PresentStep(history: seq<OutcomeRecord>, records: seq<Option<OutcomeRecord>>)
    requires records != []
    ensures history + Present(records) ==
            (if records[0].Some? then history + [records[0].value] else history) + Present(records[1..])
  {
  }

  lemma {:induction false} LogFollowsRecords(history: seq<OutcomeRecord>, records: seq<Option<OutcomeRecord>>)
    ensures LogAfter(Latest(history, MAX_ENTRIES), records) == Latest(history + Present(records), MAX_ENTRIES)
    decreases |records|
  {
    if records == [] {
      assert history + Present(records) == history;
    } else {
      PresentStep(history, records);
      var r := records[0];
      if r.Some? { AppendKeepsLatest(history, r.value); }
      LogFollowsRecords(if r.Some? then history + [r.value] else history, records[1..]);
    }
  }

  // ---- Queries ----------------------------------------------------------------------------------------

  /** The per-lead query keeps the order of the log. */
  lemma {:induction false} QueryKeepsOrder(a: seq<OutcomeRecord>, b: seq<OutcomeRecord>, lead: string)
    ensures OfLead(a + b, lead) == OfLead(a, lead) + OfLead(b, lead)
  {
    if a == [] {
      assert a + b == b;
    } else {
      assert (a + b)[1..] == a[1..] + b;
      QueryKeepsOrder(a[1..], b, lead);
    }
  }

  /** It drops exactly the records of other leads, and keeps the multiplicity of the rest. */
  lemma {:induction false} QueryKeepsMultiplicity(a: seq<OutcomeRecord>, lead: string, r: OutcomeRecord)
    ensures multiset(OfLead(a, lead))[r] == if Lower(r.lead) == Lower(lead) then multiset(a)[r] else 0
  {
    if a == [] {
    } else {
      QueryKeepsMultiplicity(a[1..], lead, r);
      assert a == [a[0]] + a[1..];
      assert OfLead(a, lead) == (if SameLead(a[0], lead) then [a[0]] else []) + OfLead(a[1..], lead);
    }
  }
}
