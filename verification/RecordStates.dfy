/** The states of the payment monitor's records: single events, whole runs, and what lies between. */
module RecordStates {
  import opened Wrappers
  import opened Text
  import opened PaymentMonitor

  /** One event: requesting_fdc to minting_fxrp, that to sub_account_active, or failed from either of the two. */
  predicate Follows(a: Stepper, b: Stepper) {
    || a == b
    || (a == RequestingFdc && (b == MintingFxrp || b == Failed))
    || (a == MintingFxrp && (b == SubAccountActive || b == Failed))
  }

  /** Any number of events. */
  predicate Leads(a: Stepper, b: Stepper) {
    Follows(a, b) || (a == RequestingFdc && b == SubAccountActive)
  }

  ghost predicate Kept(heap: seq<Record>, heap': seq<Record>) {
    && |heap| <= |heap'|
    && forall i :: 0 <= i < |heap| ==>
         && heap'[i].addr == heap[i].addr && heap'[i].tx == heap[i].tx
         && (heap[i].state == SubAccountActive ==> heap'[i] == heap[i])
  }

  ghost predicate Stepped(heap: seq<Record>, heap': seq<Record>) {
    Kept(heap, heap') && forall i :: 0 <= i < |heap| ==> Follows(heap[i].state, heap'[i].state)
  }

  ghost predicate Forward(heap: seq<Record>, heap': seq<Record>) {
    Kept(heap, heap') && forall i :: 0 <= i < |heap| ==> Leads(heap[i].state, heap'[i].state)
  }

  /** Moving a run's own record forward, keeping its address and hash. */
  lemma MoveForward(heap: seq<Record>, rec: nat, record: Record)
    requires rec < |heap| && record.addr == heap[rec].addr && record.tx == heap[rec].tx
    requires heap[rec].state != SubAccountActive && Follows(heap[rec].state, record.state)
    ensures Stepped(heap, heap[rec := record])
  {
  }

  lemma FailForward(accountOf: string -> string, m: Monitor, r: nat, fsOk: bool)
    requires ValidRefs(m) && RecordsFit(accountOf, m.heap, m.runs) && r < |m.runs| && !m.runs[r].pc.Settled?
    ensures Stepped(m.heap, Fail(m, r, fsOk).heap)
  {
    var rec := m.runs[r].rec;
    assert RecordFits(accountOf, m.runs[r], m.heap[rec]);
    FailIsMove(m, r, fsOk);
    MoveForward(m.heap, rec, m.heap[rec].(state := Failed));
  }

  lemma AdvanceForward(accountOf: string -> string, m: Monitor, r: nat, st: Stepper, pc: Pc, fsOk: bool, fsCatch: bool)
    requires ValidRefs(m) && RecordsFit(accountOf, m.heap, m.runs) && r < |m.runs|
    requires AdvancesTo(m.runs[r].pc, st, pc)
    ensures Stepped(m.heap, Advance(m, r, st, pc, fsOk, fsCatch).heap)
  {
    var rec := m.runs[r].rec;
    assert RecordFits(accountOf, m.runs[r], m.heap[rec]);
    AdvanceIsMove(m, r, st, pc, fsCatch);
    if fsOk {
      MoveForward(m.heap, rec, m.heap[rec].(state := st));
    } else {
      FailForward(accountOf, m, r, fsCatch);
    }
  }

  lemma AccountForward(accountOf: string -> string, m: Monitor, e: Event)
    requires RecordsFit(accountOf, m.heap, m.runs) && Enabled(m, e) && e.AccountRead?
    ensures Stepped(m.heap, Step(accountOf, m, e).heap)
  {
    var rec := m.runs[e.run].rec;
    assert RecordFits(accountOf, m.runs[e.run], m.heap[rec]);
    FailForward(accountOf, m, e.run, e.fsCatch);
    MoveForward(m.heap, rec, m.heap[rec].(account := Some(accountOf(m.heap[rec].addr))));
  }

  lemma PrefixStepped(heap: seq<Record>, heap': seq<Record>)
    requires heap <= heap'
    ensures Stepped(heap, heap')
  {
    forall i | 0 <= i < |heap| ensures heap'[i] == heap[i] {}
  }

  lemma ArrivalForward(m: Monitor, addr: string, tx: string, fsWatch: bool, fsOk: bool)
    requires ValidRefs(m)
    ensures Stepped(m.heap, ProcessPayment(m, addr, tx, fsOk).heap)
    ensures Stepped(m.heap, Watch(m, addr, tx, fsWatch, fsOk).heap)
  {
    var waiting := [Record(addr, Some(tx), WaitingXrpl, None)];
    var requesting := [Record(addr, Some(tx), RequestingFdc, None)];
    var h1, h2 := ProcessPayment(m, addr, tx, fsOk).heap, Watch(m, addr, tx, fsWatch, fsOk).heap;
    assert h1 == m.heap || h1 == m.heap + requesting;
    assert h2 == m.heap + waiting || h2 == m.heap + waiting + requesting;
    PrefixStepped(m.heap, h1);
    PrefixStepped(m.heap, h2);
  }

  lemma ControllerForward(accountOf: string -> string, m: Monitor, e: Event)
    requires RecordsFit(accountOf, m.heap, m.runs) && Enabled(m, e) && (e.Simulated? || e.Written? || e.Mined?)
    ensures Stepped(m.heap, Step(accountOf, m, e).heap)
  {
    ControllerFailsOrKeepsRecords(accountOf, m, e);
    FailForward(accountOf, m, e.run, e.fsCatch);
  }

  lemma StepForward(accountOf: string -> string, m: Monitor, e: Event)
    requires RecordsFit(accountOf, m.heap, m.runs) && Enabled(m, e)
    ensures Stepped(m.heap, Step(accountOf, m, e).heap)
  {
    match e
    case Call(addr, tx, fsOk) => ArrivalForward(m, addr, tx, true, fsOk);
    case Seen(addr, tx, fsWatch, fsOk) => ArrivalForward(m, addr, tx, fsWatch, fsOk);
    case Attested(r, ok, fsOk, fsCatch) =>
      if ok { AdvanceForward(accountOf, m, r, MintingFxrp, Simulating, fsOk, fsCatch); }
      else { FailForward(accountOf, m, r, fsCatch); }
    case VaultRead(r, ok, fsOk, fsCatch) =>
      if ok { AdvanceForward(accountOf, m, r, SubAccountActive, Settled(true), fsOk, fsCatch); }
      else { FailForward(accountOf, m, r, fsCatch); }
    case Finalize(_) =>
    case ExecutedElsewhere(_) =>
    case AccountRead(_, _, _) => AccountForward(accountOf, m, e);
    case _ => ControllerForward(accountOf, m, e);
  }

  lemma {:induction false} ForwardFrom(accountOf: string -> string, files: map<string, Record>, m: Monitor,
                                              es: seq<Event>)
    requires Inv(accountOf, files, m) && Legal(accountOf, m, es)
    ensures Forward(m.heap, RunAll(accountOf, m, es).heap)
    decreases |es|
  {
    if es == [] {
    } else {
      var m1 := Step(accountOf, m, es[0]);
      StepForward(accountOf, m, es[0]);
      StepKeeps(accountOf, files, m, es[0]);
      ForwardFrom(accountOf, files, m1, es[1..]);
      ForwardTransitive(m.heap, m1.heap, RunAll(accountOf, m, es).heap);
    }
  }

  lemma ForwardTransitive(a: seq<Record>, b: seq<Record>, c: seq<Record>)
    requires Stepped(a, b) && Forward(b, c)
    ensures Forward(a, c)
  {
    forall i | 0 <= i < |a|
      ensures Leads(a[i].state, c[i].state)
      ensures a[i].state == SubAccountActive ==> c[i] == a[i]
      ensures c[i].addr == a[i].addr && c[i].tx == a[i].tx
    {
      assert Follows(a[i].state, b[i].state) && Leads(b[i].state, c[i].state);
    }
  }

  lemma RunPrefix(accountOf: string -> string, m: Monitor, es: seq<Event>, n: nat)
    requires Legal(accountOf, m, es) && es != [] && n < |es|
    requires Legal(accountOf, Step(accountOf, m, es[0]), es[1..][..n])
    ensures Legal(accountOf, m, es[..n + 1])
    ensures RunAll(accountOf, m, es[..n + 1]) == RunAll(accountOf, Step(accountOf, m, es[0]), es[1..][..n])
  {
    assert es[..n + 1][0] == es[0] && es[..n + 1][1..] == es[1..][..n];
  }

  /** A record that got from requesting_fdc to sub_account_active was in minting_fxrp at some moment between. */
  lemma {:induction false} PassesThroughMinting(accountOf: string -> string, files: map<string, Record>, m: Monitor,
                                                es: seq<Event>, i: nat) returns (n: nat)
    requires Inv(accountOf, files, m) && Legal(accountOf, m, es) && i < |m.heap| && m.heap[i].state == RequestingFdc
    requires i < |RunAll(accountOf, m, es).heap| && RunAll(accountOf, m, es).heap[i].state == SubAccountActive
    ensures n <= |es| && Legal(accountOf, m, es[..n])
    ensures i < |RunAll(accountOf, m, es[..n]).heap| && RunAll(accountOf, m, es[..n]).heap[i].state == MintingFxrp
    decreases |es|
  {
    var m1 := Step(accountOf, m, es[0]);
    StepForward(accountOf, m, es[0]);
    StepKeeps(accountOf, files, m, es[0]);
    assert Follows(m.heap[i].state, m1.heap[i].state);
    if m1.heap[i].state == MintingFxrp {
      assert es[1..][..0] == [] && RunAll(accountOf, m1, []) == m1;
      n := 0;
    } else {
      if m1.heap[i].state == Failed { FailedStays(accountOf, files, m1, es[1..], i); }
      n := PassesThroughMinting(accountOf, files, m1, es[1..], i);
    }
    RunPrefix(accountOf, m, es, n);
    n := n + 1;
  }

  lemma FailedStays(accountOf: string -> string, files: map<string, Record>, m: Monitor, es: seq<Event>, i: nat)
    requires Inv(accountOf, files, m) && Legal(accountOf, m, es) && i < |m.heap| && m.heap[i].state == Failed
    ensures i < |RunAll(accountOf, m, es).heap| && RunAll(accountOf, m, es).heap[i].state == Failed
  {
    ForwardFrom(accountOf, files, m, es);
    assert Leads(m.heap[i].state, RunAll(accountOf, m, es).heap[i].state);
  }

  /** Between any two moments of any run, a record keeps its address and hash and only moves forward. */
  lemma RecordsMoveForward(accountOf: string -> string, files: map<string, Record>, executed0: set<string>,
                           es: seq<Event>, more: seq<Event>)
    requires Legal(accountOf, Start(files, executed0), es)
    requires Legal(accountOf, RunAll(accountOf, Start(files, executed0), es), more)
    ensures var m := RunAll(accountOf, Start(files, executed0), es);
            Forward(m.heap, RunAll(accountOf, m, more).heap)
  {
    StartInv(accountOf, files, executed0);
    RunKeeps(accountOf, files, Start(files, executed0), es);
    ForwardFrom(accountOf, files, RunAll(accountOf, Start(files, executed0), es), more);
  }
}
