/**
 Where a payment's run leads: to an active account when nothing fails, whether or not the payment was executed
 before, and to a failed record at the first failure.
 */
module PaymentPaths {
  import opened Wrappers
  import opened Text
  import opened PaymentMonitor

  lemma RunCons(accountOf: string -> string, m: Monitor, e: Event, rest: seq<Event>)
    requires Enabled(m, e) && Legal(accountOf, Step(accountOf, m, e), rest)
    ensures Legal(accountOf, m, [e] + rest)
    ensures RunAll(accountOf, m, [e] + rest) == RunAll(accountOf, Step(accountOf, m, e), rest)
  {
    assert ([e] + rest)[1..] == rest;
  }

  /** Run r has succeeded in m', which has the given ledger and executed payments; other runs and records are kept. */
  ghost predicate SucceededIn(accountOf: string -> string, m: Monitor, r: nat, m': Monitor,
                              ledger: seq<LedgerEntry>, executed: set<string>)
    requires ValidRefs(m) && r < |m.runs|
  {
    var rec := m.runs[r].rec;
    && ValidRefs(m')
    && m'.runs == m.runs[r := m.runs[r].(pc := Settled(true))]
    && m'.heap == m.heap[rec := Record(m.heap[rec].addr, m.heap[rec].tx, SubAccountActive,
                                       Some(accountOf(m.heap[rec].addr)))]
    && m'.ledger == ledger && m'.executed == executed
  }

  lemma FromVault(accountOf: string -> string, m: Monitor, r: nat, c: bool) returns (es: seq<Event>)
    requires ValidRefs(m) && r < |m.runs| && m.runs[r].pc == ReadingVault
    requires var record := m.heap[m.runs[r].rec]; record.account == Some(accountOf(record.addr))
    ensures es == [VaultRead(r, true, true, c)] && Legal(accountOf, m, es)
    ensures SucceededIn(accountOf, m, r, RunAll(accountOf, m, es), m.ledger, m.executed)
  {
    var e := VaultRead(r, true, true, c);
    es := [e];
    RunCons(accountOf, m, e, []);
    assert [e] + [] == es;
    AdvanceIsMove(m, r, SubAccountActive, Settled(true), c);
  }

  lemma FromAccount(accountOf: string -> string, m: Monitor, r: nat, c: bool) returns (es: seq<Event>)
    requires ValidRefs(m) && r < |m.runs| && (m.runs[r].pc == ReadingExisting || m.runs[r].pc == ReadingNew)
    ensures es == [AccountRead(r, true, c), VaultRead(r, true, true, c)] && Legal(accountOf, m, es)
    ensures SucceededIn(accountOf, m, r, RunAll(accountOf, m, es), m.ledger, m.executed)
  {
    var e := AccountRead(r, true, c);
    var m1 := Step(accountOf, m, e);
    var rest := FromVault(accountOf, m1, r, c);
    RunCons(accountOf, m, e, rest);
    es := [e] + rest;
  }

  lemma FromExecuted(accountOf: string -> string, m: Monitor, r: nat, c: bool) returns (es: seq<Event>)
    requires ValidRefs(m) && r < |m.runs| && m.runs[r].pc == Simulating && m.runs[r].key in m.executed
    ensures Legal(accountOf, m, es)
    ensures SucceededIn(accountOf, m, r, RunAll(accountOf, m, es), m.ledger, m.executed)
  {
    var e := Simulated(r, AlreadyExecuted, c);
    var m1 := Step(accountOf, m, e);
    var rest := FromAccount(accountOf, m1, r, c);
    RunCons(accountOf, m, e, rest);
    es := [e] + rest;
  }

  lemma FromMining(accountOf: string -> string, m: Monitor, r: nat, c: bool) returns (es: seq<Event>)
    requires ValidRefs(m) && r < |m.runs| && m.runs[r].pc == AwaitingReceipt && m.runs[r].key !in m.executed
    ensures Legal(accountOf, m, es)
    ensures SucceededIn(accountOf, m, r, RunAll(accountOf, m, es),
                        m.ledger + [Executed(r, m.runs[r].key)], m.executed + {m.runs[r].key})
  {
    var e := Mined(r, true, c);
    var m1 := Step(accountOf, m, e);
    var rest := FromAccount(accountOf, m1, r, c);
    RunCons(accountOf, m, e, rest);
    es := [e] + rest;
  }

  lemma FromWriting(accountOf: string -> string, m: Monitor, r: nat, c: bool) returns (es: seq<Event>)
    requires ValidRefs(m) && r < |m.runs| && m.runs[r].pc == Writing && m.runs[r].key !in m.executed
    ensures Legal(accountOf, m, es)
    ensures var key := m.runs[r].key;
            SucceededIn(accountOf, m, r, RunAll(accountOf, m, es),
                        m.ledger + [Submitted(r, key)] + [Executed(r, key)], m.executed + {key})
  {
    var e := Written(r, true, c);
    var m1 := Step(accountOf, m, e);
    var rest := FromMining(accountOf, m1, r, c);
    RunCons(accountOf, m, e, rest);
    es := [e] + rest;
  }

  lemma FromUnexecuted(accountOf: string -> string, m: Monitor, r: nat, c: bool) returns (es: seq<Event>)
    requires ValidRefs(m) && r < |m.runs| && m.runs[r].pc == Simulating && m.runs[r].key !in m.executed
    ensures Legal(accountOf, m, es)
    ensures var key := m.runs[r].key;
            SucceededIn(accountOf, m, r, RunAll(accountOf, m, es),
                        m.ledger + [Passed(r, key)] + [Submitted(r, key)] + [Executed(r, key)], m.executed + {key})
  {
    var e := Simulated(r, Passes, c);
    var m1 := Step(accountOf, m, e);
    var rest := FromWriting(accountOf, m1, r, c);
    RunCons(accountOf, m, e, rest);
    es := [e] + rest;
  }

  lemma ToSimulating(accountOf: string -> string, m: Monitor, r: nat, c: bool) returns (m1: Monitor)
    requires ValidRefs(m) && r < |m.runs| && m.runs[r].pc == Attesting
    ensures var rec := m.runs[r].rec;
            && m1 == Step(accountOf, m, Attested(r, true, true, c)) && ValidRefs(m1)
            && m1.runs == m.runs[r := m.runs[r].(pc := Simulating)]
            && m1.heap == m.heap[rec := m.heap[rec].(state := MintingFxrp)]
            && m1.ledger == m.ledger && m1.executed == m.executed
  {
    AdvanceIsMove(m, r, MintingFxrp, Simulating, c);
    m1 := Step(accountOf, m, Attested(r, true, true, c));
  }

  /**
   A run that is attesting can always succeed, and leaves the personal account of its address. A payment executed
   before is not submitted; any other one passes, is submitted and is executed once each.
   */
  lemma CanSucceed(accountOf: string -> string, m: Monitor, r: nat, c: bool) returns (es: seq<Event>)
    requires ValidRefs(m) && r < |m.runs| && m.runs[r].pc == Attesting
    ensures Legal(accountOf, m, es)
    ensures var key := m.runs[r].key;
            SucceededIn(accountOf, m, r, RunAll(accountOf, m, es),
                        m.ledger + (if key in m.executed then []
                                    else [Passed(r, key), Submitted(r, key), Executed(r, key)]),
                        m.executed + {key})
  {
    var e := Attested(r, true, true, c);
    var key := m.runs[r].key;
    var m1 := ToSimulating(accountOf, m, r, c);
    var rest;
    if key in m.executed {
      rest := FromExecuted(accountOf, m1, r, c);
      assert m.executed + {key} == m.executed && m.ledger + [] == m.ledger;
    } else {
      rest := FromUnexecuted(accountOf, m1, r, c);
      assert m.ledger + [Passed(r, key)] + [Submitted(r, key)] + [Executed(r, key)]
          == m.ledger + [Passed(r, key), Submitted(r, key), Executed(r, key)];
    }
    RunCons(accountOf, m, e, rest);
    es := [e] + rest;
  }

  /** The operation the run awaited has failed. */
  predicate Fails(e: Event) {
    match e
    case Attested(_, ok, _, _) => !ok
    case Simulated(_, verdict, _) => verdict.Rejects?
    case Written(_, ok, _) => !ok
    case Mined(_, ok, _) => !ok
    case AccountRead(_, ok, _) => !ok
    case VaultRead(_, ok, _, _) => !ok
    case _ => false
  }

  /** Or the record could not be written on the way. */
  predicate CannotWrite(e: Event) {
    match e
    case Attested(_, _, fsOk, _) => !fsOk
    case VaultRead(_, _, fsOk, _) => !fsOk
    case _ => false
  }

  /** A run ends as failed, in its record too, at the first operation or write that fails, and touches no ledger. */
  lemma FailureSettles(accountOf: string -> string, m: Monitor, e: Event)
    requires Enabled(m, e) && (Fails(e) || CannotWrite(e))
    ensures var m' := Step(accountOf, m, e);
            var run := m.runs[e.run];
            && m'.runs == m.runs[e.run := run.(pc := Settled(false))]
            && m'.heap == m.heap[run.rec := m.heap[run.rec].(state := Failed)]
            && m'.ledger == m.ledger && m'.executed == m.executed && m'.inflight == m.inflight
  {
    if e.Attested? { AdvanceIsMove(m, e.run, MintingFxrp, Simulating, e.fsCatch); }
    if e.VaultRead? { AdvanceIsMove(m, e.run, SubAccountActive, Settled(true), e.fsCatch); }
  }

  /**
   Two payments of one address: when the run of the older record fails after the younger one succeeded, its write takes
   both the map entry and the file of the address from the success, though that record is the later one.
   */
  lemma OlderRunOverwrites(accountOf: string -> string, addr: string, tx1: string, tx2: string)
    returns (es: seq<Event>, m: Monitor, e: Event, m': Monitor)
    requires PaymentKey(tx1) != PaymentKey(tx2)
    ensures Legal(accountOf, Start(map[], {PaymentKey(tx2)}), es)
    ensures m == RunAll(accountOf, Start(map[], {PaymentKey(tx2)}), es)
    ensures |m.runs| == |m.heap| == 2 && m.runs[0].rec == 0 && m.runs[1].rec == 1
    ensures m.runs[1].pc == Settled(true) && m.heap[1].addr == addr
    ensures Enabled(m, e) && m' == Step(accountOf, m, e)
    ensures |m'.runs| == |m'.heap| == 2 && m'.runs[1] == m.runs[1] && m'.heap[1] == m.heap[1]
    ensures Lower(addr) in m'.statuses && m'.statuses[Lower(addr)] == 0
    ensures addr in m'.files && m'.files[addr] == Record(addr, Some(tx1), Failed, None)
  {
    var m0 := Start(map[], {PaymentKey(tx2)});
    var call1, call2 := Call(addr, tx1, true), Call(addr, tx2, true);
    var m1 := Step(accountOf, m0, call1);
    var m2 := TwoCalls(accountOf, addr, tx1, tx2);
    var success := CanSucceed(accountOf, m2, 1, true);
    m := RunAll(accountOf, m2, success);
    RunCons(accountOf, m1, call2, success);
    RunCons(accountOf, m0, call1, [call2] + success);
    es := [call1] + ([call2] + success);
    e := Attested(0, false, true, true);
    m' := Step(accountOf, m, e);
  }

  lemma TwoCalls(accountOf: string -> string, addr: string, tx1: string, tx2: string) returns (m: Monitor)
    requires PaymentKey(tx1) != PaymentKey(tx2)
    ensures var m0 := Start(map[], {PaymentKey(tx2)});
            && Enabled(m0, Call(addr, tx1, true))
            && var m1 := Step(accountOf, m0, Call(addr, tx1, true));
               Enabled(m1, Call(addr, tx2, true)) && m == Step(accountOf, m1, Call(addr, tx2, true))
    ensures ValidRefs(m) && m.executed == {PaymentKey(tx2)}
    ensures m.heap == [Record(addr, Some(tx1), RequestingFdc, None), Record(addr, Some(tx2), RequestingFdc, None)]
    ensures m.runs == [PaymentRun(PaymentKey(tx1), 0, Attesting, false, false),
                       PaymentRun(PaymentKey(tx2), 1, Attesting, false, false)]
  {
    var m0 := Start(map[], {PaymentKey(tx2)});
    var m1 := Step(accountOf, m0, Call(addr, tx1, true));
    assert m1.heap == [Record(addr, Some(tx1), RequestingFdc, None)];
    assert m1.runs == [PaymentRun(PaymentKey(tx1), 0, Attesting, false, false)];
    m := Step(accountOf, m1, Call(addr, tx2, true));
  }
}
