/** The status files over a whole run: each holds what was last written under its address, and what that means. */
module FileHistory {
  import opened Wrappers
  import opened Text
  import opened PaymentMonitor
  import opened StatusFiles
  import opened RecordStates

  predicate OfRun(e: Event) { !e.Call? && !e.Seen? && !e.Finalize? && !e.ExecutedElsewhere? }

  /** The record that the event leaves in the file of its address, if it writes one. */
  function Writes(accountOf: string -> string, m: Monitor, e: Event): Option<Record>
    requires Enabled(m, e)
  {
    var m' := Step(accountOf, m, e);
    match e
    case Call(addr, tx, fsOk) =>
      if |m'.runs| > |m.runs| && fsOk then Some(Record(addr, Some(tx), RequestingFdc, None)) else None
    case Seen(addr, tx, fsWatch, fsOk) =>
      if !fsWatch then None
      else Some(Record(addr, Some(tx), if |m'.runs| > |m.runs| && fsOk then RequestingFdc else WaitingXrpl, None))
    case Finalize(_) => None
    case ExecutedElsewhere(_) => None
    case _ =>
      if ChangesState(e) && LastWriteOk(e) && m.runs[e.run].rec < |m'.heap| then Some(m'.heap[m.runs[e.run].rec])
      else None
  }

  function WithFile(files: map<string, Record>, w: Option<Record>): map<string, Record> {
    if w.Some? then files[w.value.addr := w.value] else files
  }

  lemma RunStepWrites(accountOf: string -> string, m: Monitor, e: Event)
    requires Enabled(m, e) && RecordsFit(accountOf, m.heap, m.runs) && OfRun(e)
    ensures Step(accountOf, m, e).files == WithFile(m.files, Writes(accountOf, m, e))
  {
    FilesFollowRun(accountOf, m, e);
    StepForward(accountOf, m, e);
  }

  lemma StepWrites(accountOf: string -> string, m: Monitor, e: Event)
    requires Enabled(m, e) && RecordsFit(accountOf, m.heap, m.runs)
    ensures Step(accountOf, m, e).files == WithFile(m.files, Writes(accountOf, m, e))
  {
    match e
    case Call(addr, tx, fsOk) => FilesFollowCall(m, addr, tx, fsOk);
    case Seen(addr, tx, fsWatch, fsOk) =>
      if fsWatch { FilesFollowSighting(m, addr, tx, fsOk); } else { UnrecordedSightingDoesNothing(m, addr, tx, fsOk); }
    case Finalize(_) =>
    case ExecutedElsewhere(_) =>
    case _ => RunStepWrites(accountOf, m, e);
  }

  /** What the run last wrote under exactly this address. */
  function LastWritten(accountOf: string -> string, m: Monitor, es: seq<Event>, addr: string): Option<Record>
    requires Legal(accountOf, m, es)
    decreases |es|
  {
    if es == [] then None
    else
      var later := LastWritten(accountOf, Step(accountOf, m, es[0]), es[1..], addr);
      var w := Writes(accountOf, m, es[0]);
      if later.Some? then later else if w.Some? && w.value.addr == addr then w else None
  }

  function FileOf(files: map<string, Record>, addr: string): Option<Record> {
    if addr in files then Some(files[addr]) else None
  }

  lemma {:induction false} FilesFrom(accountOf: string -> string, files: map<string, Record>, m: Monitor,
                                     es: seq<Event>, addr: string)
    requires Inv(accountOf, files, m) && Legal(accountOf, m, es)
    ensures var w := LastWritten(accountOf, m, es, addr);
            FileOf(RunAll(accountOf, m, es).files, addr) == if w.Some? then w else FileOf(m.files, addr)
    decreases |es|
  {
    if es == [] {
    } else {
      StepWrites(accountOf, m, es[0]);
      StepKeeps(accountOf, files, m, es[0]);
      FilesFrom(accountOf, files, Step(accountOf, m, es[0]), es[1..], addr);
    }
  }

  /** After any run, a status file holds what was last written under exactly its name, else what it held before. */
  lemma FilesHoldLastWrite(accountOf: string -> string, files: map<string, Record>, executed0: set<string>,
                           es: seq<Event>, addr: string)
    requires Legal(accountOf, Start(files, executed0), es)
    ensures var w := LastWritten(accountOf, Start(files, executed0), es, addr);
            FileOf(RunAll(accountOf, Start(files, executed0), es).files, addr)
            == if w.Some? then w else FileOf(files, addr)
  {
    StartInv(accountOf, files, executed0);
    FilesFrom(accountOf, files, Start(files, executed0), es, addr);
  }

  lemma FailRuns(m: Monitor, r: nat, fsOk: bool)
    requires ValidRefs(m) && r < |m.runs|
    ensures Fail(m, r, fsOk).runs == m.runs[r := m.runs[r].(pc := Settled(false))]
  {
  }

  lemma AdvanceRuns(m: Monitor, r: nat, st: Stepper, pc: Pc, fsOk: bool, fsCatch: bool)
    requires ValidRefs(m) && r < |m.runs|
    ensures Advance(m, r, st, pc, fsOk, fsCatch).runs
            == m.runs[r := m.runs[r].(pc := if fsOk then pc else Settled(false))]
  {
    AdvanceIsMove(m, r, st, pc, fsCatch);
    FailRuns(m, r, fsCatch);
  }

  lemma CallRuns(m: Monitor, addr: string, tx: string, fsOk: bool)
    requires ValidRefs(m)
    ensures m.runs <= ProcessPayment(m, addr, tx, fsOk).runs
    ensures forall r :: |m.runs| <= r < |ProcessPayment(m, addr, tx, fsOk).runs| ==>
              ProcessPayment(m, addr, tx, fsOk).runs[r].pc != Settled(true)
  {
  }

  lemma SightingRuns(m: Monitor, addr: string, tx: string, fsWatch: bool, fsOk: bool)
    requires ValidRefs(m)
    ensures m.runs <= Watch(m, addr, tx, fsWatch, fsOk).runs
    ensures forall r :: |m.runs| <= r < |Watch(m, addr, tx, fsWatch, fsOk).runs| ==>
              Watch(m, addr, tx, fsWatch, fsOk).runs[r].pc != Settled(true)
  {
    CallRuns(Persist(m.(heap := m.heap + [Record(addr, Some(tx), WaitingXrpl, None)]), |m.heap|, true), addr, tx, fsOk);
  }

  /** An event of a run moves this run only, and makes it successful only by the last read with a successful write. */
  lemma RunEventMovesOne(accountOf: string -> string, m: Monitor, e: Event)
    requires Enabled(m, e) && OfRun(e)
    ensures var runs := Step(accountOf, m, e).runs;
            && |runs| == |m.runs| && m.runs[e.run].pc != Settled(true)
            && runs == m.runs[e.run := m.runs[e.run].(pc := runs[e.run].pc)]
            && (runs[e.run].pc == Settled(true) ==> e.VaultRead? && e.ok && e.fsOk)
  {
    FailRuns(m, e.run, e.fsCatch);
    match e
    case Attested(r, _, fsOk, fsCatch) => AdvanceRuns(m, r, MintingFxrp, Simulating, fsOk, fsCatch);
    case VaultRead(r, _, fsOk, fsCatch) => AdvanceRuns(m, r, SubAccountActive, Settled(true), fsOk, fsCatch);
    case _ =>
  }

  /** Other events leave every old run where it stands, and no new one is successful. */
  lemma OtherEventsMoveNone(accountOf: string -> string, m: Monitor, e: Event, r: nat)
    requires Enabled(m, e) && !OfRun(e)
    ensures var runs := Step(accountOf, m, e).runs;
            && |m.runs| <= |runs|
            && (r < |m.runs| ==> runs[r].rec == m.runs[r].rec && runs[r].pc == m.runs[r].pc)
            && (|m.runs| <= r < |runs| ==> runs[r].pc != Settled(true))
  {
    match e
    case Call(addr, tx, fsOk) => CallRuns(m, addr, tx, fsOk);
    case Seen(addr, tx, fsWatch, fsOk) => SightingRuns(m, addr, tx, fsWatch, fsOk);
    case _ =>
  }

  /** The event that makes a run successful writes its record. */
  lemma SuccessWrites(accountOf: string -> string, m: Monitor, e: Event, r: nat)
    requires Enabled(m, e) && RecordsFit(accountOf, m.heap, m.runs)
    requires r < |Step(accountOf, m, e).runs| && Step(accountOf, m, e).runs[r].pc == Settled(true)
    requires r < |m.runs| ==> m.runs[r].pc != Settled(true)
    ensures var m' := Step(accountOf, m, e);
            m'.runs[r].rec < |m'.heap| && Writes(accountOf, m, e) == Some(m'.heap[m'.runs[r].rec])
  {
    if OfRun(e) {
      RunEventMovesOne(accountOf, m, e);
      assert r == e.run;
      StepForward(accountOf, m, e);
    } else {
      OtherEventsMoveNone(accountOf, m, e, r);
    }
  }

  lemma SuccessfulRunStays(accountOf: string -> string, m: Monitor, e: Event, r: nat)
    requires Enabled(m, e) && r < |m.runs| && m.runs[r].pc == Settled(true)
    ensures var runs := Step(accountOf, m, e).runs;
            r < |runs| && runs[r].pc == Settled(true) && runs[r].rec == m.runs[r].rec
  {
    if OfRun(e) { RunEventMovesOne(accountOf, m, e); } else { OtherEventsMoveNone(accountOf, m, e, r); }
  }

  lemma ActiveStays(heap: seq<Record>, heap': seq<Record>, rec: nat)
    requires Stepped(heap, heap') && rec < |heap| && heap[rec].state == SubAccountActive
    ensures rec < |heap'| && heap'[rec] == heap[rec]
  {
  }

  lemma SuccessStays(accountOf: string -> string, m: Monitor, e: Event, r: nat)
    requires Enabled(m, e) && RecordsFit(accountOf, m.heap, m.runs) && r < |m.runs| && m.runs[r].pc == Settled(true)
    ensures var m' := Step(accountOf, m, e);
            && r < |m'.runs| && m'.runs[r].pc == Settled(true) && m'.runs[r].rec == m.runs[r].rec < |m'.heap|
            && m'.heap[m.runs[r].rec] == m.heap[m.runs[r].rec]
  {
    SuccessfulRunStays(accountOf, m, e, r);
    SettledFits(accountOf, m.heap, m.runs, r);
    StepForward(accountOf, m, e);
    ActiveStays(m.heap, Step(accountOf, m, e).heap, m.runs[r].rec);
  }

  lemma {:induction false} SuccessPersists(accountOf: string -> string, files: map<string, Record>, m: Monitor,
                                           es: seq<Event>, r: nat)
    requires Inv(accountOf, files, m) && Legal(accountOf, m, es) && r < |m.runs| && m.runs[r].pc == Settled(true)
    ensures var m' := RunAll(accountOf, m, es);
            && r < |m'.runs| && m'.runs[r].rec == m.runs[r].rec < |m'.heap|
            && m'.heap[m.runs[r].rec] == m.heap[m.runs[r].rec]
    decreases |es|
  {
    if es == [] {
    } else {
      SuccessStays(accountOf, m, es[0], r);
      StepKeeps(accountOf, files, m, es[0]);
      SuccessPersists(accountOf, files, Step(accountOf, m, es[0]), es[1..], r);
    }
  }

  /** A run that has become successful was written under its address, then or later. */
  lemma {:induction false} SuccessWasWritten(accountOf: string -> string, files: map<string, Record>, m: Monitor,
                                             es: seq<Event>, r: nat)
    requires Inv(accountOf, files, m) && Legal(accountOf, m, es)
    requires r < |m.runs| ==> m.runs[r].pc != Settled(true)
    requires r < |RunAll(accountOf, m, es).runs| && RunAll(accountOf, m, es).runs[r].pc == Settled(true)
    ensures var m' := RunAll(accountOf, m, es);
            && m'.runs[r].rec < |m'.heap|
            && LastWritten(accountOf, m, es, m'.heap[m'.runs[r].rec].addr).Some?
    decreases |es|
  {
    var m1 := Step(accountOf, m, es[0]);
    StepKeeps(accountOf, files, m, es[0]);
    if r < |m1.runs| && m1.runs[r].pc == Settled(true) {
      SuccessWrites(accountOf, m, es[0], r);
      SuccessPersists(accountOf, files, m1, es[1..], r);
    } else {
      SuccessWasWritten(accountOf, files, m1, es[1..], r);
    }
  }

  /**
   A success is on disk exactly as long as nothing else has been written under exactly its address since: its file
   holds its record if and only if that is what the run last wrote there, and so does a restarted process's answer.
   */
  lemma OnDiskIffLastWritten(accountOf: string -> string, files: map<string, Record>, executed0: set<string>,
                             es: seq<Event>, r: nat, executed1: set<string>)
    requires Legal(accountOf, Start(files, executed0), es)
    requires r < |RunAll(accountOf, Start(files, executed0), es).runs|
    requires RunAll(accountOf, Start(files, executed0), es).runs[r].pc == Settled(true)
    ensures var m := RunAll(accountOf, Start(files, executed0), es);
            && m.runs[r].rec < |m.heap|
            && var record := m.heap[m.runs[r].rec];
               var w := LastWritten(accountOf, Start(files, executed0), es, record.addr);
               && w.Some? && FileOf(m.files, record.addr) == w
               && (OnDisk(m, m.runs[r].rec) <==> w == Some(record))
               && GetStatus(Start(m.files, executed1), record.addr) == w
  {
    StartInv(accountOf, files, executed0);
    SuccessWasWritten(accountOf, files, Start(files, executed0), es, r);
    var m := RunAll(accountOf, Start(files, executed0), es);
    FilesHoldLastWrite(accountOf, files, executed0, es, m.heap[m.runs[r].rec].addr);
  }
}
