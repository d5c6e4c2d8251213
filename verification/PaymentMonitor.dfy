/**
 The XRPL payment monitor. `processPayment` deduplicates by an in-flight map and a status cache; each run of
 `runProcessPayment` is a chain of atomic segments between awaits, and the segments of all runs and all calls
 interleave freely. Status records live in a heap because the status map aliases the record a run mutates.
 */
module PaymentMonitor {
  import opened Wrappers
  import opened Text

  datatype Stepper = WaitingXrpl | RequestingFdc | MintingFxrp | SubAccountActive | Failed

  datatype Record = Record(addr: string, tx: Option<string>, state: Stepper, account: Option<string>)

  /** Where a run stands: the operation it awaits, or how its promise settled. */
  datatype Pc =
    | Attesting | Simulating | ReadingExisting | Writing | AwaitingReceipt | ReadingNew | ReadingVault
    | Settled(ok: bool)

  /** `unrecorded`: the very first persist of the run threw. `finalized`: its finally callback has run. */
  datatype PaymentRun = PaymentRun(key: string, rec: nat, pc: Pc, unrecorded: bool, finalized: bool)

  /** What processPayment hands back: the promise of a run, or a cached record. */
  datatype Answer = Shares(run: nat) | Cached(record: Record)

  datatype Reply = Reply(key: string, answer: Answer)

  /**
   What happens at the master account controller: simulations of this process that pass, its submissions, payments
   executed by them, and payments executed by a transaction of somebody else, or of a process now dead.
   */
  datatype LedgerEntry =
    | Passed(run: nat, key: string) | Submitted(run: nat, key: string) | Executed(run: nat, key: string)
    | Outside(key: string)

  datatype Monitor = Monitor(
    heap: seq<Record>,
    statuses: map<string, nat>,
    files: map<string, Record>,
    inflight: map<string, nat>,
    runs: seq<PaymentRun>,
    executed: set<string>,
    ledger: seq<LedgerEntry>,
    replies: seq<Reply>
  )

  /** A process starting on the files an earlier one left, when the controller has executed `executed0`. */
  function Start(files: map<string, Record>, executed0: set<string>): Monitor {
    Monitor([], map[], files, map[], [], executed0, [], [])
  }

  // ---- Status records -----------------------------------------------------------------------------

  function StatusKey(addr: string, tx: Option<string>): string {
    Lower(addr + ":" + if tx.Some? then tx.value else "pending")
  }

  function PaymentKey(tx: string): string { Lower(WithoutHexPrefix(tx)) }

  /** persist(s): the map entries are set first, then the file is written or the write throws. */
  function Persist(m: Monitor, rec: nat, fsOk: bool): Monitor
    requires rec < |m.heap|
  {
    var r := m.heap[rec];
    m.(statuses := m.statuses[StatusKey(r.addr, r.tx) := rec][Lower(r.addr) := rec],
       files := if fsOk then m.files[r.addr := r] else m.files)
  }

  predicate ValidRefs(m: Monitor) {
    && (forall k :: k in m.statuses ==> m.statuses[k] < |m.heap|)
    && (forall r :: 0 <= r < |m.runs| ==> m.runs[r].rec < |m.heap|)
  }

  function GetStatus(m: Monitor, s: string): Option<Record>
    requires ValidRefs(m)
  {
    if Lower(s) in m.statuses then Some(m.heap[m.statuses[Lower(s)]])
    else if s in m.files then Some(m.files[s])
    else None
  }

  predicate Reusable(r: Record, key: string) {
    && r.tx.Some? && r.tx.value != "" && PaymentKey(r.tx.value) == key
    && (r.state.MintingFxrp? || r.state.SubAccountActive?)
  }

  // ---- Segments -----------------------------------------------------------------------------------

  /** runProcessPayment up to its first await. */
  function StartRun(m: Monitor, addr: string, tx: string, fsOk: bool): Monitor {
    var rec := |m.heap|;
    var m1 := m.(heap := m.heap + [Record(addr, Some(tx), RequestingFdc, None)]);
    var run := PaymentRun(PaymentKey(tx), rec, if fsOk then Attesting else Settled(false), !fsOk, false);
    Persist(m1, rec, fsOk).(runs := m.runs + [run])
  }

  function ProcessPayment(m: Monitor, addr: string, tx: string, fsOk: bool): Monitor
    requires ValidRefs(m)
  {
    var key := PaymentKey(tx);
    if key in m.inflight then m.(replies := m.replies + [Reply(key, Shares(m.inflight[key]))])
    else
      var cached := GetStatus(m, addr);
      if cached.Some? && Reusable(cached.value, key)
      then m.(replies := m.replies + [Reply(key, Cached(cached.value))])
      else
        var run := |m.runs|;
        StartRun(m, addr, tx, fsOk).(inflight := m.inflight[key := run],
                                     replies := m.replies + [Reply(key, Shares(run))])
  }

  /** The watcher's callback: a fresh waiting record is persisted, then the payment is processed. */
  function Watch(m: Monitor, addr: string, tx: string, fsWatch: bool, fsOk: bool): Monitor
    requires ValidRefs(m)
  {
    var m1 := m.(heap := m.heap + [Record(addr, Some(tx), WaitingXrpl, None)]);
    var m2 := Persist(m1, |m.heap|, fsWatch);
    if fsWatch then ProcessPayment(m2, addr, tx, fsOk) else m2
  }

  function WithPc(m: Monitor, r: nat, pc: Pc): Monitor
    requires r < |m.runs|
  {
    m.(runs := m.runs[r := m.runs[r].(pc := pc)])
  }

  function WithState(m: Monitor, r: nat, st: Stepper): Monitor
    requires ValidRefs(m) && r < |m.runs|
  {
    var rec := m.runs[r].rec;
    m.(heap := m.heap[rec := m.heap[rec].(state := st)])
  }

  /** The catch block: mark failed, persist, reject (with the file error if persist throws as well). */
  function Fail(m: Monitor, r: nat, fsOk: bool): Monitor
    requires ValidRefs(m) && r < |m.runs|
  {
    WithPc(Persist(WithState(m, r, Failed), m.runs[r].rec, fsOk), r, Settled(false))
  }

  /** Set the state and persist inside the try block; a throwing persist lands in the catch block. */
  function Advance(m: Monitor, r: nat, st: Stepper, pc: Pc, fsOk: bool, fsCatch: bool): Monitor
    requires ValidRefs(m) && r < |m.runs|
  {
    var m1 := Persist(WithState(m, r, st), m.runs[r].rec, fsOk);
    if fsOk then WithPc(m1, r, pc) else Fail(m1, r, fsCatch)
  }

  datatype Verdict = Passes | AlreadyExecuted | Rejects

  datatype Event =
    | Call(addr: string, tx: string, fsOk: bool)
    | Seen(addr: string, tx: string, fsWatch: bool, fsOk: bool)
    | Attested(run: nat, ok: bool, fsOk: bool, fsCatch: bool)
    | Simulated(run: nat, verdict: Verdict, fsCatch: bool)
    | Written(run: nat, ok: bool, fsCatch: bool)
    | Mined(run: nat, ok: bool, fsCatch: bool)
    | AccountRead(run: nat, ok: bool, fsCatch: bool)
    | VaultRead(run: nat, ok: bool, fsOk: bool, fsCatch: bool)
    | Finalize(run: nat)
    | ExecutedElsewhere(key: string)

  /** The controller lets a simulation or a transaction pass only for a payment not executed before. */
  predicate Enabled(m: Monitor, e: Event) {
    && ValidRefs(m)
    && match e
       case Call(_, _, _) => true
       case Seen(_, _, _, _) => true
       case Attested(r, _, _, _) => r < |m.runs| && m.runs[r].pc == Attesting
       case Simulated(r, v, _) =>
         && r < |m.runs| && m.runs[r].pc == Simulating
         && (v.Passes? ==> m.runs[r].key !in m.executed)
         && (v.AlreadyExecuted? ==> m.runs[r].key in m.executed)
       case Written(r, _, _) => r < |m.runs| && m.runs[r].pc == Writing
       case Mined(r, ok, _) =>
         r < |m.runs| && m.runs[r].pc == AwaitingReceipt && (ok ==> m.runs[r].key !in m.executed)
       case AccountRead(r, _, _) => r < |m.runs| && (m.runs[r].pc == ReadingExisting || m.runs[r].pc == ReadingNew)
       case VaultRead(r, _, _, _) => r < |m.runs| && m.runs[r].pc == ReadingVault
       case Finalize(r) => r < |m.runs| && m.runs[r].pc.Settled? && !m.runs[r].finalized
       case ExecutedElsewhere(key) => key !in m.executed
  }

  /** `accountOf` is the controller's view function from XRPL address to personal account. */
  function Step(accountOf: string -> string, m: Monitor, e: Event): Monitor
    requires Enabled(m, e)
  {
    match e
    case Call(addr, tx, fsOk) => ProcessPayment(m, addr, tx, fsOk)
    case Seen(addr, tx, fsWatch, fsOk) => Watch(m, addr, tx, fsWatch, fsOk)
    case Attested(r, ok, fsOk, fsCatch) =>
      if ok then Advance(m, r, MintingFxrp, Simulating, fsOk, fsCatch) else Fail(m, r, fsCatch)
    case Simulated(r, verdict, fsCatch) =>
      (match verdict
       case Passes => WithPc(m, r, Writing).(ledger := m.ledger + [Passed(r, m.runs[r].key)])
       case AlreadyExecuted => WithPc(m, r, ReadingExisting)
       case Rejects => Fail(m, r, fsCatch))
    case Written(r, ok, fsCatch) =>
      if ok then WithPc(m, r, AwaitingReceipt).(ledger := m.ledger + [Submitted(r, m.runs[r].key)])
      else Fail(m, r, fsCatch)
    case Mined(r, ok, fsCatch) =>
      if ok then WithPc(m, r, ReadingNew).(ledger := m.ledger + [Executed(r, m.runs[r].key)],
                                           executed := m.executed + {m.runs[r].key})
      else Fail(m, r, fsCatch)
    case AccountRead(r, ok, fsCatch) =>
      if ok then
        var rec := m.runs[r].rec;
        WithPc(m.(heap := m.heap[rec := m.heap[rec].(account := Some(accountOf(m.heap[rec].addr)))]), r, ReadingVault)
      else Fail(m, r, fsCatch)
    case VaultRead(r, ok, fsOk, fsCatch) =>
      if ok then Advance(m, r, SubAccountActive, Settled(true), fsOk, fsCatch) else Fail(m, r, fsCatch)
    case Finalize(r) =>
      m.(inflight := m.inflight - {m.runs[r].key}, runs := m.runs[r := m.runs[r].(finalized := true)])
    case ExecutedElsewhere(key) => m.(ledger := m.ledger + [Outside(key)], executed := m.executed + {key})
  }

  // ---- The invariant ------------------------------------------------------------------------------

  ghost predicate InflightExact(inflight: map<string, nat>, runs: seq<PaymentRun>) {
    && (forall k :: k in inflight ==>
          inflight[k] < |runs| && runs[inflight[k]].key == k && !runs[inflight[k]].finalized)
    && (forall r :: 0 <= r < |runs| && !runs[r].finalized ==>
          runs[r].key in inflight && inflight[runs[r].key] == r)
  }

  /** A run's own record says where the run stands. */
  ghost predicate RecordFits(accountOf: string -> string, run: PaymentRun, r: Record) {
    && r.tx.Some? && PaymentKey(r.tx.value) == run.key
    && (run.unrecorded ==> run.pc == Settled(false))
    && (run.finalized ==> run.pc.Settled?)
    && r.state == (match run.pc
                   case Attesting => RequestingFdc
                   case Settled(true) => SubAccountActive
                   case Settled(false) => if run.unrecorded then RequestingFdc else Failed
                   case _ => MintingFxrp)
    && (run.pc == ReadingVault || run.pc == Settled(true) ==> r.account == Some(accountOf(r.addr)))
  }

  ghost predicate Owned(runs: seq<PaymentRun>, rec: nat) {
    exists r :: 0 <= r < |runs| && runs[r].rec == rec
  }

  /** Each run owns one record; the records without an owner are the watcher's. */
  ghost predicate RecordsFit(accountOf: string -> string, heap: seq<Record>, runs: seq<PaymentRun>) {
    && (forall r :: 0 <= r < |runs| ==> runs[r].rec < |heap| && RecordFits(accountOf, runs[r], heap[runs[r].rec]))
    && (forall r, q :: 0 <= r < q < |runs| ==> runs[r].rec != runs[q].rec)
    && (forall i :: 0 <= i < |heap| ==> Owned(runs, i) || heap[i].state == WaitingXrpl)
  }

  /** A file of this process has a map entry in front of it; any other file is as it was at the start. */
  ghost predicate FilesCovered(files0: map<string, Record>, files: map<string, Record>, statuses: map<string, nat>) {
    && (forall a :: a in files && Lower(a) !in statuses ==> a in files0 && files0[a] == files[a])
    && (forall a :: a in files0 ==> a in files)
  }

  predicate Executes(e: LedgerEntry) { e.Executed? || e.Outside? }

  /** The run's simulation passed within the first n entries. */
  ghost predicate PassedIn(ledger: seq<LedgerEntry>, r: nat, key: string, n: nat) {
    exists p :: 0 <= p < n && p < |ledger| && ledger[p] == Passed(r, key)
  }

  /** The only thing that may follow an execution for its payment: a submission, after an outside one. */
  predicate MayFollow(execution: LedgerEntry, later: LedgerEntry) { execution.Outside? && later.Submitted? }

  /** After the execution of a payment nothing follows for it but at most one such submission. */
  ghost predicate LedgerSound(ledger: seq<LedgerEntry>) {
    && (forall i, j :: 0 <= i < j < |ledger| && Executes(ledger[i]) && ledger[j].key == ledger[i].key ==>
          MayFollow(ledger[i], ledger[j]) && PassedIn(ledger, ledger[j].run, ledger[j].key, i))
    && (forall i, j, h :: 0 <= i < j < h < |ledger| && Executes(ledger[i]) && ledger[j].key == ledger[i].key ==>
          ledger[h].key != ledger[i].key)
  }

  ghost predicate LedgerFits(ledger: seq<LedgerEntry>, executed: set<string>) {
    && LedgerSound(ledger)
    && (forall i :: 0 <= i < |ledger| && Executes(ledger[i]) ==> ledger[i].key in executed)
  }

  predicate PastSimulation(pc: Pc) { pc == Writing || pc == AwaitingReceipt }

  /** A run past its simulation passed before any execution of its payment, and that was an outside one. */
  ghost predicate PassedFirst(ledger: seq<LedgerEntry>, r: nat, run: PaymentRun) {
    && PassedIn(ledger, r, run.key, |ledger|)
    && forall i :: 0 <= i < |ledger| && Executes(ledger[i]) && ledger[i].key == run.key ==>
         ledger[i].Outside? && PassedIn(ledger, r, run.key, i)
  }

  /** While a run is still to submit, nothing has followed an execution of its payment. */
  ghost predicate NothingFollowed(ledger: seq<LedgerEntry>, key: string) {
    forall i, j :: 0 <= i < j < |ledger| && Executes(ledger[i]) && ledger[i].key == key ==> ledger[j].key != key
  }

  ghost predicate SubmittersFit(ledger: seq<LedgerEntry>, runs: seq<PaymentRun>) {
    && (forall r :: 0 <= r < |runs| && PastSimulation(runs[r].pc) ==> PassedFirst(ledger, r, runs[r]))
    && (forall r :: 0 <= r < |runs| && runs[r].pc == Writing ==> NothingFollowed(ledger, runs[r].key))
  }

  /** Entries of a run are for that run's payment. */
  ghost predicate EntriesFit(ledger: seq<LedgerEntry>, runs: seq<PaymentRun>) {
    forall i :: 0 <= i < |ledger| && !ledger[i].Outside? ==>
      ledger[i].run < |runs| && runs[ledger[i].run].key == ledger[i].key
  }

  ghost predicate LedgerInv(ledger: seq<LedgerEntry>, executed: set<string>, runs: seq<PaymentRun>) {
    LedgerFits(ledger, executed) && SubmittersFit(ledger, runs) && EntriesFit(ledger, runs)
  }

  ghost predicate CachedWell(accountOf: string -> string, files0: map<string, Record>, c: Record) {
    || (c.state == SubAccountActive && c.account == Some(accountOf(c.addr)))
    || exists a :: a in files0 && files0[a] == c
  }

  ghost predicate RepliesFit(accountOf: string -> string, files0: map<string, Record>, replies: seq<Reply>,
                             runs: seq<PaymentRun>) {
    forall i :: 0 <= i < |replies| ==>
      match replies[i].answer
      case Shares(r) => r < |runs| && runs[r].key == replies[i].key
      case Cached(c) => Reusable(c, replies[i].key) && CachedWell(accountOf, files0, c)
  }

  ghost predicate Inv(accountOf: string -> string, files: map<string, Record>, m: Monitor) {
    && ValidRefs(m)
    && InflightExact(m.inflight, m.runs)
    && RecordsFit(accountOf, m.heap, m.runs)
    && FilesCovered(files, m.files, m.statuses)
    && LedgerInv(m.ledger, m.executed, m.runs)
    && RepliesFit(accountOf, files, m.replies, m.runs)
  }

  /** The invariant without the ledger. */
  ghost predicate RunsInv(accountOf: string -> string, files: map<string, Record>, m: Monitor) {
    && ValidRefs(m)
    && InflightExact(m.inflight, m.runs)
    && RecordsFit(accountOf, m.heap, m.runs)
    && FilesCovered(files, m.files, m.statuses)
    && RepliesFit(accountOf, files, m.replies, m.runs)
  }

  lemma StartInv(accountOf: string -> string, files: map<string, Record>, executed0: set<string>)
    ensures Inv(accountOf, files, Start(files, executed0))
  {
  }

  lemma PersistKeeps(accountOf: string -> string, files: map<string, Record>, m: Monitor, rec: nat, fsOk: bool)
    requires rec < |m.heap| && Inv(accountOf, files, m)
    ensures Inv(accountOf, files, Persist(m, rec, fsOk))
  {
  }

  function Moved(m: Monitor, r: nat, run: PaymentRun, record: Record): Monitor
    requires r < |m.runs| && run.rec < |m.heap|
  {
    m.(heap := m.heap[run.rec := record], runs := m.runs[r := run])
  }

  ghost predicate MayMove(accountOf: string -> string, runs: seq<PaymentRun>, r: nat, run: PaymentRun, record: Record) {
    && r < |runs|
    && run.key == runs[r].key && run.rec == runs[r].rec && run.finalized == runs[r].finalized
    && RecordFits(accountOf, run, record)
  }

  lemma SameOwners(runs: seq<PaymentRun>, runs': seq<PaymentRun>)
    requires |runs| <= |runs'| && forall r :: 0 <= r < |runs| ==> runs'[r].rec == runs[r].rec
    ensures forall i :: Owned(runs, i) ==> Owned(runs', i)
  {
    forall i | Owned(runs, i) ensures Owned(runs', i) {
      var q :| 0 <= q < |runs| && runs[q].rec == i;
      assert runs'[q].rec == i;
    }
  }

  lemma MoveKeepsRecords(accountOf: string -> string, heap: seq<Record>, runs: seq<PaymentRun>, r: nat,
                         run: PaymentRun, record: Record)
    requires RecordsFit(accountOf, heap, runs) && MayMove(accountOf, runs, r, run, record)
    ensures RecordsFit(accountOf, heap[run.rec := record], runs[r := run])
  {
    SameOwners(runs, runs[r := run]);
  }

  lemma MoveKeepsOthers(accountOf: string -> string, files: map<string, Record>, m: Monitor, r: nat, run: PaymentRun,
                        record: Record)
    requires ValidRefs(m) && MayMove(accountOf, m.runs, r, run, record)
    requires InflightExact(m.inflight, m.runs) && RepliesFit(accountOf, files, m.replies, m.runs)
    ensures var m' := Moved(m, r, run, record);
            && ValidRefs(m') && InflightExact(m'.inflight, m'.runs) && RepliesFit(accountOf, files, m'.replies, m'.runs)
  {
  }

  /** Moving one run and its own record together. */
  lemma MoveKeepsRuns(accountOf: string -> string, files: map<string, Record>, m: Monitor, r: nat, run: PaymentRun,
                      record: Record)
    requires RunsInv(accountOf, files, m) && MayMove(accountOf, m.runs, r, run, record)
    ensures RunsInv(accountOf, files, Moved(m, r, run, record))
  {
    MoveKeepsRecords(accountOf, m.heap, m.runs, r, run, record);
    MoveKeepsOthers(accountOf, files, m, r, run, record);
  }

  lemma MoveKeepsLedger(ledger: seq<LedgerEntry>, executed: set<string>, runs: seq<PaymentRun>, r: nat, run: PaymentRun)
    requires LedgerInv(ledger, executed, runs) && r < |runs| && !PastSimulation(run.pc) && run.key == runs[r].key
    ensures LedgerInv(ledger, executed, runs[r := run])
  {
  }

  lemma MoveKeeps(accountOf: string -> string, files: map<string, Record>, m: Monitor, r: nat, run: PaymentRun,
                  record: Record)
    requires Inv(accountOf, files, m) && MayMove(accountOf, m.runs, r, run, record) && !PastSimulation(run.pc)
    ensures Inv(accountOf, files, Moved(m, r, run, record))
  {
    MoveKeepsRuns(accountOf, files, m, r, run, record);
    MoveKeepsLedger(m.ledger, m.executed, m.runs, r, run);
  }

  lemma FailIsMove(m: Monitor, r: nat, fsOk: bool)
    requires ValidRefs(m) && r < |m.runs|
    ensures var run := m.runs[r];
            Fail(m, r, fsOk) ==
            Persist(Moved(m, r, run.(pc := Settled(false)), m.heap[run.rec].(state := Failed)), run.rec, fsOk)
  {
  }

  lemma AdvanceIsMove(m: Monitor, r: nat, st: Stepper, pc: Pc, fsCatch: bool)
    requires ValidRefs(m) && r < |m.runs|
    ensures Advance(m, r, st, pc, false, fsCatch) == Fail(m, r, fsCatch)
    ensures var run := m.runs[r];
            Advance(m, r, st, pc, true, fsCatch) ==
            Persist(Moved(m, r, run.(pc := pc), m.heap[run.rec].(state := st)), run.rec, true)
  {
    var run := m.runs[r];
    var rec := run.rec;
    var a, b := StatusKey(m.heap[rec].addr, m.heap[rec].tx), Lower(m.heap[rec].addr);
    assert m.heap[rec := m.heap[rec].(state := st)][rec := m.heap[rec].(state := Failed)]
        == m.heap[rec := m.heap[rec].(state := Failed)];
    assert m.statuses[a := rec][b := rec][a := rec][b := rec] == m.statuses[a := rec][b := rec];
  }

  /** A run that is not unrecorded and not yet settled may always fail. */
  lemma FailKeeps(accountOf: string -> string, files: map<string, Record>, m: Monitor, r: nat, fsOk: bool)
    requires Inv(accountOf, files, m) && r < |m.runs| && !m.runs[r].pc.Settled?
    ensures Inv(accountOf, files, Fail(m, r, fsOk))
  {
    var run := m.runs[r];
    assert RecordFits(accountOf, run, m.heap[run.rec]);
    var run', record := run.(pc := Settled(false)), m.heap[run.rec].(state := Failed);
    FailIsMove(m, r, fsOk);
    MoveKeeps(accountOf, files, m, r, run', record);
    PersistKeeps(accountOf, files, Moved(m, r, run', record), run.rec, fsOk);
  }

  predicate AdvancesTo(from: Pc, st: Stepper, pc: Pc) {
    || (from == Attesting && st == MintingFxrp && pc == Simulating)
    || (from == ReadingVault && st == SubAccountActive && pc == Settled(true))
  }

  lemma AdvanceMayMove(accountOf: string -> string, m: Monitor, r: nat, st: Stepper, pc: Pc)
    requires ValidRefs(m) && RecordsFit(accountOf, m.heap, m.runs)
    requires r < |m.runs| && AdvancesTo(m.runs[r].pc, st, pc)
    ensures MayMove(accountOf, m.runs, r, m.runs[r].(pc := pc), m.heap[m.runs[r].rec].(state := st))
    ensures !PastSimulation(pc)
  {
    assert RecordFits(accountOf, m.runs[r], m.heap[m.runs[r].rec]);
  }

  lemma AdvanceKeeps(accountOf: string -> string, files: map<string, Record>, m: Monitor, r: nat,
                     st: Stepper, pc: Pc, fsOk: bool, fsCatch: bool)
    requires Inv(accountOf, files, m) && r < |m.runs|
    requires AdvancesTo(m.runs[r].pc, st, pc)
    ensures Inv(accountOf, files, Advance(m, r, st, pc, fsOk, fsCatch))
  {
    var run := m.runs[r];
    AdvanceIsMove(m, r, st, pc, fsCatch);
    if fsOk {
      AdvanceMayMove(accountOf, m, r, st, pc);
      var run', record := run.(pc := pc), m.heap[run.rec].(state := st);
      MoveKeeps(accountOf, files, m, r, run', record);
      PersistKeeps(accountOf, files, Moved(m, r, run', record), run.rec, true);
    } else {
      FailKeeps(accountOf, files, m, r, fsCatch);
    }
  }

  lemma PcKeepsRuns(accountOf: string -> string, files: map<string, Record>, m: Monitor, r: nat, pc: Pc)
    requires RunsInv(accountOf, files, m) && r < |m.runs|
    requires RecordFits(accountOf, m.runs[r].(pc := pc), m.heap[m.runs[r].rec])
    ensures RunsInv(accountOf, files, WithPc(m, r, pc))
  {
    var run := m.runs[r];
    MoveKeepsRuns(accountOf, files, m, r, run.(pc := pc), m.heap[run.rec]);
    assert WithPc(m, r, pc) == Moved(m, r, run.(pc := pc), m.heap[run.rec]);
  }

  // ---- Ledger entries -----------------------------------------------------------------------------

  lemma PassedStays(ledger: seq<LedgerEntry>, e: LedgerEntry, r: nat, key: string, n: nat)
    requires PassedIn(ledger, r, key, n)
    ensures PassedIn(ledger + [e], r, key, n) && PassedIn(ledger + [e], r, key, n + 1)
  {
    var p :| 0 <= p < n && p < |ledger| && ledger[p] == Passed(r, key);
    assert (ledger + [e])[p] == Passed(r, key);
  }

  /** An entry for a payment that has not been executed leaves the ledger sound. */
  lemma UnexecutedEntry(ledger: seq<LedgerEntry>, executed: set<string>, e: LedgerEntry, executed': set<string>)
    requires LedgerFits(ledger, executed) && e.key !in executed
    requires executed' == if Executes(e) then executed + {e.key} else executed
    ensures LedgerFits(ledger + [e], executed')
  {
    var l := ledger + [e];
    forall i, j | 0 <= i < j < |l| && Executes(l[i]) && l[j].key == l[i].key
      ensures MayFollow(l[i], l[j]) && PassedIn(l, l[j].run, l[j].key, i)
    {
      assert l[i] == ledger[i] && l[i].key in executed;
      assert l[j] == ledger[j];
      PassedStays(ledger, e, l[j].run, l[j].key, i);
    }
  }

  lemma PassedFirstStays(ledger: seq<LedgerEntry>, e: LedgerEntry, r: nat, run: PaymentRun)
    requires PassedFirst(ledger, r, run) && (Executes(e) && e.key == run.key ==> e.Outside?)
    ensures PassedFirst(ledger + [e], r, run)
  {
    var l := ledger + [e];
    PassedStays(ledger, e, r, run.key, |ledger|);
    forall i | 0 <= i < |l| && Executes(l[i]) && l[i].key == run.key
      ensures l[i].Outside? && PassedIn(l, r, run.key, i)
    {
      if i < |ledger| {
        assert l[i] == ledger[i];
        PassedStays(ledger, e, r, run.key, i);
      }
    }
  }

  lemma NothingFollowedStays(ledger: seq<LedgerEntry>, e: LedgerEntry, key: string)
    requires NothingFollowed(ledger, key)
    requires e.key == key ==> forall i :: 0 <= i < |ledger| && Executes(ledger[i]) ==> ledger[i].key != key
    ensures NothingFollowed(ledger + [e], key)
  {
  }

  /** The other runs, when an entry is added that is not an execution of theirs by this process. */
  lemma OthersFit(ledger: seq<LedgerEntry>, e: LedgerEntry, runs: seq<PaymentRun>, q: nat)
    requires SubmittersFit(ledger, runs) && q < |runs|
    requires e.Executed? ==> runs[q].key != e.key || !PastSimulation(runs[q].pc)
    requires runs[q].pc == Writing && runs[q].key == e.key ==>
               forall i :: 0 <= i < |ledger| && Executes(ledger[i]) ==> ledger[i].key != e.key
    ensures PastSimulation(runs[q].pc) ==> PassedFirst(ledger + [e], q, runs[q])
    ensures runs[q].pc == Writing ==> NothingFollowed(ledger + [e], runs[q].key)
  {
    if PastSimulation(runs[q].pc) { PassedFirstStays(ledger, e, q, runs[q]); }
    if runs[q].pc == Writing { NothingFollowedStays(ledger, e, runs[q].key); }
  }

  lemma LedgerPass(ledger: seq<LedgerEntry>, executed: set<string>, runs: seq<PaymentRun>, r: nat)
    requires LedgerInv(ledger, executed, runs) && r < |runs| && runs[r].key !in executed
    ensures LedgerInv(ledger + [Passed(r, runs[r].key)], executed, runs[r := runs[r].(pc := Writing)])
  {
    var e, run := Passed(r, runs[r].key), runs[r].(pc := Writing);
    UnexecutedEntry(ledger, executed, e, executed);
    assert (ledger + [e])[|ledger|] == e;
    assert PassedFirst(ledger + [e], r, run) && NothingFollowed(ledger + [e], run.key);
    forall q | 0 <= q < |runs|
      ensures PastSimulation(runs[q].pc) ==> PassedFirst(ledger + [e], q, runs[q])
      ensures runs[q].pc == Writing ==> NothingFollowed(ledger + [e], runs[q].key)
    {
      OthersFit(ledger, e, runs, q);
    }
  }

  lemma LedgerOutside(ledger: seq<LedgerEntry>, executed: set<string>, runs: seq<PaymentRun>, key: string)
    requires LedgerInv(ledger, executed, runs) && key !in executed
    ensures LedgerInv(ledger + [Outside(key)], executed + {key}, runs)
  {
    var e := Outside(key);
    UnexecutedEntry(ledger, executed, e, executed + {key});
    forall q | 0 <= q < |runs|
      ensures PastSimulation(runs[q].pc) ==> PassedFirst(ledger + [e], q, runs[q])
      ensures runs[q].pc == Writing ==> NothingFollowed(ledger + [e], runs[q].key)
    {
      OthersFit(ledger, e, runs, q);
    }
  }

  /** Only this run of its payment is past its simulation. */
  ghost predicate AlonePast(runs: seq<PaymentRun>, r: nat)
    requires r < |runs|
  {
    forall q :: 0 <= q < |runs| && PastSimulation(runs[q].pc) && runs[q].key == runs[r].key ==> q == r
  }

  lemma LedgerExecute(ledger: seq<LedgerEntry>, executed: set<string>, runs: seq<PaymentRun>, r: nat)
    requires LedgerInv(ledger, executed, runs) && r < |runs| && runs[r].key !in executed && AlonePast(runs, r)
    ensures LedgerInv(ledger + [Executed(r, runs[r].key)], executed + {runs[r].key},
                      runs[r := runs[r].(pc := ReadingNew)])
  {
    var e := Executed(r, runs[r].key);
    UnexecutedEntry(ledger, executed, e, executed + {e.key});
    forall q | 0 <= q < |runs| && q != r
      ensures PastSimulation(runs[q].pc) ==> PassedFirst(ledger + [e], q, runs[q])
      ensures runs[q].pc == Writing ==> NothingFollowed(ledger + [e], runs[q].key)
    {
      OthersFit(ledger, e, runs, q);
    }
  }

  /** The submission of a run that passed before any execution leaves the ledger sound. */
  lemma SubmissionFits(ledger: seq<LedgerEntry>, executed: set<string>, r: nat, run: PaymentRun)
    requires LedgerFits(ledger, executed) && PassedFirst(ledger, r, run) && NothingFollowed(ledger, run.key)
    ensures LedgerFits(ledger + [Submitted(r, run.key)], executed)
  {
    var e := Submitted(r, run.key);
    var l := ledger + [e];
    forall i, j | 0 <= i < j < |l| && Executes(l[i]) && l[j].key == l[i].key
      ensures MayFollow(l[i], l[j]) && PassedIn(l, l[j].run, l[j].key, i)
    {
      assert l[i] == ledger[i];
      if j < |ledger| { assert l[j] == ledger[j]; }
      PassedStays(ledger, e, l[j].run, l[j].key, i);
    }
    forall i, j, h | 0 <= i < j < h < |l| && Executes(l[i]) && l[j].key == l[i].key
      ensures l[h].key != l[i].key
    {
      assert l[i] == ledger[i] && l[j] == ledger[j];
      if h < |ledger| { assert l[h] == ledger[h]; }
    }
  }

  lemma LedgerSubmit(ledger: seq<LedgerEntry>, executed: set<string>, runs: seq<PaymentRun>, r: nat)
    requires LedgerInv(ledger, executed, runs) && r < |runs| && runs[r].pc == Writing && AlonePast(runs, r)
    ensures LedgerInv(ledger + [Submitted(r, runs[r].key)], executed, runs[r := runs[r].(pc := AwaitingReceipt)])
  {
    var e, run := Submitted(r, runs[r].key), runs[r].(pc := AwaitingReceipt);
    SubmissionFits(ledger, executed, r, runs[r]);
    PassedFirstStays(ledger, e, r, run);
    forall q | 0 <= q < |runs| && q != r
      ensures PastSimulation(runs[q].pc) ==> PassedFirst(ledger + [e], q, runs[q])
      ensures runs[q].pc == Writing ==> NothingFollowed(ledger + [e], runs[q].key)
    {
      OthersFit(ledger, e, runs, q);
    }
  }

  /** Two runs past their simulations are both in flight, so they are for different payments. */
  lemma InFlightAlone(accountOf: string -> string, m: Monitor, r: nat)
    requires RecordsFit(accountOf, m.heap, m.runs) && InflightExact(m.inflight, m.runs)
    requires r < |m.runs| && PastSimulation(m.runs[r].pc)
    ensures AlonePast(m.runs, r)
  {
    forall q | 0 <= q < |m.runs| && PastSimulation(m.runs[q].pc) && m.runs[q].key == m.runs[r].key ensures q == r {
      assert RecordFits(accountOf, m.runs[q], m.heap[m.runs[q].rec]);
      assert RecordFits(accountOf, m.runs[r], m.heap[m.runs[r].rec]);
      assert m.inflight[m.runs[q].key] == q && m.inflight[m.runs[r].key] == r;
    }
  }

  lemma PassKeeps(accountOf: string -> string, files: map<string, Record>, m: Monitor, r: nat)
    requires Inv(accountOf, files, m) && r < |m.runs| && m.runs[r].pc == Simulating && m.runs[r].key !in m.executed
    ensures Inv(accountOf, files, WithPc(m, r, Writing).(ledger := m.ledger + [Passed(r, m.runs[r].key)]))
  {
    assert RecordFits(accountOf, m.runs[r], m.heap[m.runs[r].rec]);
    PcKeepsRuns(accountOf, files, m, r, Writing);
    LedgerPass(m.ledger, m.executed, m.runs, r);
  }

  lemma AlreadyExecutedKeeps(accountOf: string -> string, files: map<string, Record>, m: Monitor, r: nat)
    requires Inv(accountOf, files, m) && r < |m.runs| && m.runs[r].pc == Simulating
    ensures Inv(accountOf, files, WithPc(m, r, ReadingExisting))
  {
    assert RecordFits(accountOf, m.runs[r], m.heap[m.runs[r].rec]);
    PcKeepsRuns(accountOf, files, m, r, ReadingExisting);
    MoveKeepsLedger(m.ledger, m.executed, m.runs, r, m.runs[r].(pc := ReadingExisting));
  }

  lemma SimulatedKeeps(accountOf: string -> string, files: map<string, Record>, m: Monitor, e: Event)
    requires Inv(accountOf, files, m) && Enabled(m, e) && e.Simulated?
    ensures Inv(accountOf, files, Step(accountOf, m, e))
  {
    match e.verdict
    case Passes => PassKeeps(accountOf, files, m, e.run);
    case AlreadyExecuted => AlreadyExecutedKeeps(accountOf, files, m, e.run);
    case Rejects => FailKeeps(accountOf, files, m, e.run, e.fsCatch);
  }

  lemma WrittenKeeps(accountOf: string -> string, files: map<string, Record>, m: Monitor, e: Event)
    requires Inv(accountOf, files, m) && Enabled(m, e) && e.Written?
    ensures Inv(accountOf, files, Step(accountOf, m, e))
  {
    if e.ok {
      var run := m.runs[e.run];
      assert RecordFits(accountOf, run, m.heap[run.rec]);
      PcKeepsRuns(accountOf, files, m, e.run, AwaitingReceipt);
      InFlightAlone(accountOf, m, e.run);
      LedgerSubmit(m.ledger, m.executed, m.runs, e.run);
    } else {
      FailKeeps(accountOf, files, m, e.run, e.fsCatch);
    }
  }

  lemma MinedKeeps(accountOf: string -> string, files: map<string, Record>, m: Monitor, e: Event)
    requires Inv(accountOf, files, m) && Enabled(m, e) && e.Mined?
    ensures Inv(accountOf, files, Step(accountOf, m, e))
  {
    if e.ok {
      var run := m.runs[e.run];
      assert RecordFits(accountOf, run, m.heap[run.rec]);
      PcKeepsRuns(accountOf, files, m, e.run, ReadingNew);
      InFlightAlone(accountOf, m, e.run);
      LedgerExecute(m.ledger, m.executed, m.runs, e.run);
    } else {
      FailKeeps(accountOf, files, m, e.run, e.fsCatch);
    }
  }

  lemma AccountKeeps(accountOf: string -> string, files: map<string, Record>, m: Monitor, e: Event)
    requires Inv(accountOf, files, m) && Enabled(m, e) && e.AccountRead?
    ensures Inv(accountOf, files, Step(accountOf, m, e))
  {
    if e.ok {
      AccountMayMove(accountOf, m, e.run);
      var run := m.runs[e.run];
      var record := m.heap[run.rec];
      MoveKeeps(accountOf, files, m, e.run, run.(pc := ReadingVault), record.(account := Some(accountOf(record.addr))));
    } else {
      FailKeeps(accountOf, files, m, e.run, e.fsCatch);
    }
  }

  lemma AccountMayMove(accountOf: string -> string, m: Monitor, r: nat)
    requires ValidRefs(m) && RecordsFit(accountOf, m.heap, m.runs) && r < |m.runs|
    requires m.runs[r].pc == ReadingExisting || m.runs[r].pc == ReadingNew
    ensures var record := m.heap[m.runs[r].rec];
            MayMove(accountOf, m.runs, r, m.runs[r].(pc := ReadingVault),
                    record.(account := Some(accountOf(record.addr))))
  {
    assert RecordFits(accountOf, m.runs[r], m.heap[m.runs[r].rec]);
  }

  lemma FinalizeKeeps(accountOf: string -> string, files: map<string, Record>, m: Monitor, e: Event)
    requires Inv(accountOf, files, m) && Enabled(m, e) && e.Finalize?
    ensures Inv(accountOf, files, Step(accountOf, m, e))
  {
    FinalizeRecords(accountOf, m.heap, m.runs, e.run);
    FinalizeInflight(m.inflight, m.runs, e.run);
    FinalizeReplies(accountOf, files, m.replies, m.runs, e.run);
    FinalizeSubmitters(m.ledger, m.runs, e.run);
  }

  lemma FinalizeReplies(accountOf: string -> string, files: map<string, Record>, replies: seq<Reply>,
                        runs: seq<PaymentRun>, r: nat)
    requires RepliesFit(accountOf, files, replies, runs) && r < |runs|
    ensures RepliesFit(accountOf, files, replies, runs[r := runs[r].(finalized := true)])
  {
  }

  lemma FinalizeSubmitters(ledger: seq<LedgerEntry>, runs: seq<PaymentRun>, r: nat)
    requires SubmittersFit(ledger, runs) && r < |runs| && runs[r].pc.Settled?
    ensures SubmittersFit(ledger, runs[r := runs[r].(finalized := true)])
  {
  }

  lemma FinalizeRecords(accountOf: string -> string, heap: seq<Record>, runs: seq<PaymentRun>, r: nat)
    requires RecordsFit(accountOf, heap, runs) && r < |runs| && runs[r].pc.Settled?
    ensures RecordsFit(accountOf, heap, runs[r := runs[r].(finalized := true)])
  {
    SameOwners(runs, runs[r := runs[r].(finalized := true)]);
    assert RecordFits(accountOf, runs[r], heap[runs[r].rec]);
  }

  lemma FinalizeInflight(inflight: map<string, nat>, runs: seq<PaymentRun>, r: nat)
    requires InflightExact(inflight, runs) && r < |runs| && !runs[r].finalized
    ensures InflightExact(inflight - {runs[r].key}, runs[r := runs[r].(finalized := true)])
  {
  }

  /** A record found in the cache for a payment that is not in flight is finished, or an old file. */
  lemma CacheIsFinished(accountOf: string -> string, files: map<string, Record>, m: Monitor, addr: string, key: string)
    requires Inv(accountOf, files, m) && key !in m.inflight
    requires GetStatus(m, addr).Some? && Reusable(GetStatus(m, addr).value, key)
    ensures CachedWell(accountOf, files, GetStatus(m, addr).value)
    ensures Lower(addr) in m.statuses ==> GetStatus(m, addr).value.state == SubAccountActive
  {
    if Lower(addr) in m.statuses {
      var rec := m.statuses[Lower(addr)];
      assert Owned(m.runs, rec);
      var r :| 0 <= r < |m.runs| && m.runs[r].rec == rec;
      assert RecordFits(accountOf, m.runs[r], m.heap[rec]);
    }
  }

  lemma StartRecords(accountOf: string -> string, heap: seq<Record>, runs: seq<PaymentRun>, run: PaymentRun,
                     record: Record)
    requires RecordsFit(accountOf, heap, runs) && run.rec == |heap| && RecordFits(accountOf, run, record)
    ensures RecordsFit(accountOf, heap + [record], runs + [run])
  {
    SameOwners(runs, runs + [run]);
    assert (runs + [run])[|runs|].rec == |heap|;
    forall i | 0 <= i < |heap| ensures Owned(runs + [run], i) || (heap + [record])[i].state == WaitingXrpl {
      assert Owned(runs, i) || heap[i].state == WaitingXrpl;
    }
  }

  lemma StartInflight(inflight: map<string, nat>, runs: seq<PaymentRun>, run: PaymentRun)
    requires InflightExact(inflight, runs) && run.key !in inflight && !run.finalized
    ensures InflightExact(inflight[run.key := |runs|], runs + [run])
  {
  }

  /** The monitor right after a new run has been entered, before its record is persisted. */
  function WithNewRun(m: Monitor, run: PaymentRun, record: Record): Monitor {
    m.(heap := m.heap + [record], runs := m.runs + [run],
       inflight := m.inflight[run.key := |m.runs|],
       replies := m.replies + [Reply(run.key, Shares(|m.runs|))])
  }

  lemma NewRunKeeps(accountOf: string -> string, files: map<string, Record>, m: Monitor, run: PaymentRun,
                    record: Record)
    requires Inv(accountOf, files, m) && run.key !in m.inflight && !run.finalized && run.rec == |m.heap|
    requires RecordFits(accountOf, run, record) && !PastSimulation(run.pc)
    ensures Inv(accountOf, files, WithNewRun(m, run, record))
  {
    StartRecords(accountOf, m.heap, m.runs, run, record);
    StartInflight(m.inflight, m.runs, run);
    NewRunLedger(m.ledger, m.executed, m.runs, run);
    NewRunReplies(accountOf, files, m.replies, m.runs, run);
  }

  lemma NewRunLedger(ledger: seq<LedgerEntry>, executed: set<string>, runs: seq<PaymentRun>, run: PaymentRun)
    requires LedgerInv(ledger, executed, runs) && !PastSimulation(run.pc)
    ensures LedgerInv(ledger, executed, runs + [run])
  {
  }

  lemma NewRunReplies(accountOf: string -> string, files: map<string, Record>, replies: seq<Reply>,
                      runs: seq<PaymentRun>, run: PaymentRun)
    requires RepliesFit(accountOf, files, replies, runs)
    ensures RepliesFit(accountOf, files, replies + [Reply(run.key, Shares(|runs|))], runs + [run])
  {
  }

  lemma StartRunKeeps(accountOf: string -> string, files: map<string, Record>, m: Monitor, addr: string, tx: string,
                      fsOk: bool)
    requires Inv(accountOf, files, m) && PaymentKey(tx) !in m.inflight
    ensures var run := |m.runs|;
            Inv(accountOf, files,
                StartRun(m, addr, tx, fsOk).(inflight := m.inflight[PaymentKey(tx) := run],
                                             replies := m.replies + [Reply(PaymentKey(tx), Shares(run))]))
  {
    var run := PaymentRun(PaymentKey(tx), |m.heap|, if fsOk then Attesting else Settled(false), !fsOk, false);
    var record := Record(addr, Some(tx), RequestingFdc, None);
    NewRunKeeps(accountOf, files, m, run, record);
    PersistKeeps(accountOf, files, WithNewRun(m, run, record), |m.heap|, fsOk);
  }

  lemma ProcessKeeps(accountOf: string -> string, files: map<string, Record>, m: Monitor, addr: string, tx: string,
                     fsOk: bool)
    requires Inv(accountOf, files, m)
    ensures Inv(accountOf, files, ProcessPayment(m, addr, tx, fsOk))
  {
    var key := PaymentKey(tx);
    if key !in m.inflight {
      var cached := GetStatus(m, addr);
      if cached.Some? && Reusable(cached.value, key) {
        CacheIsFinished(accountOf, files, m, addr, key);
      } else {
        StartRunKeeps(accountOf, files, m, addr, tx, fsOk);
      }
    }
  }

  lemma WatchKeeps(accountOf: string -> string, files: map<string, Record>, m: Monitor, e: Event)
    requires Inv(accountOf, files, m) && e.Seen?
    ensures Inv(accountOf, files, Watch(m, e.addr, e.tx, e.fsWatch, e.fsOk))
  {
    var m1 := m.(heap := m.heap + [Record(e.addr, Some(e.tx), WaitingXrpl, None)]);
    assert Inv(accountOf, files, m1);
    PersistKeeps(accountOf, files, m1, |m.heap|, e.fsWatch);
    ProcessKeeps(accountOf, files, Persist(m1, |m.heap|, e.fsWatch), e.addr, e.tx, e.fsOk);
  }

  lemma StepKeeps(accountOf: string -> string, files: map<string, Record>, m: Monitor, e: Event)
    requires Inv(accountOf, files, m) && Enabled(m, e)
    ensures Inv(accountOf, files, Step(accountOf, m, e))
  {
    match e
    case Call(addr, tx, fsOk) => ProcessKeeps(accountOf, files, m, addr, tx, fsOk);
    case Seen(_, _, _, _) => WatchKeeps(accountOf, files, m, e);
    case Attested(r, ok, fsOk, fsCatch) =>
      if ok { AdvanceKeeps(accountOf, files, m, r, MintingFxrp, Simulating, fsOk, fsCatch); }
      else { FailKeeps(accountOf, files, m, r, fsCatch); }
    case Simulated(_, _, _) => SimulatedKeeps(accountOf, files, m, e);
    case Written(_, _, _) => WrittenKeeps(accountOf, files, m, e);
    case Mined(_, _, _) => MinedKeeps(accountOf, files, m, e);
    case AccountRead(_, _, _) => AccountKeeps(accountOf, files, m, e);
    case VaultRead(r, ok, fsOk, fsCatch) =>
      if ok { AdvanceKeeps(accountOf, files, m, r, SubAccountActive, Settled(true), fsOk, fsCatch); }
      else { FailKeeps(accountOf, files, m, r, fsCatch); }
    case Finalize(_) => FinalizeKeeps(accountOf, files, m, e);
    case ExecutedElsewhere(key) => LedgerOutside(m.ledger, m.executed, m.runs, key);
  }

  // ---- Every run of the process -------------------------------------------------------------------

  predicate Legal(accountOf: string -> string, m: Monitor, es: seq<Event>)
    decreases |es|
  {
    es == [] || (Enabled(m, es[0]) && Legal(accountOf, Step(accountOf, m, es[0]), es[1..]))
  }

  function RunAll(accountOf: string -> string, m: Monitor, es: seq<Event>): Monitor
    requires Legal(accountOf, m, es)
    decreases |es|
  {
    if es == [] then m else RunAll(accountOf, Step(accountOf, m, es[0]), es[1..])
  }

  lemma {:induction false} RunKeeps(accountOf: string -> string, files: map<string, Record>, m: Monitor, es: seq<Event>)
    requires Inv(accountOf, files, m) && Legal(accountOf, m, es)
    ensures Inv(accountOf, files, RunAll(accountOf, m, es))
    decreases |es|
  {
    if es == [] {
    } else {
      StepKeeps(accountOf, files, m, es[0]);
      RunKeeps(accountOf, files, Step(accountOf, m, es[0]), es[1..]);
    }
  }

  /** What holds of every run from the start. */
  lemma Reachable(accountOf: string -> string, files: map<string, Record>, executed0: set<string>, es: seq<Event>)
    returns (m: Monitor)
    requires Legal(accountOf, Start(files, executed0), es)
    ensures m == RunAll(accountOf, Start(files, executed0), es) && Inv(accountOf, files, m)
  {
    StartInv(accountOf, files, executed0);
    RunKeeps(accountOf, files, Start(files, executed0), es);
    m := RunAll(accountOf, Start(files, executed0), es);
  }

  /** A payment key is in flight exactly while one unfinalized run exists for it, and it maps to that run. */
  lemma InflightIsTheUnfinalizedRun(accountOf: string -> string, files: map<string, Record>, executed0: set<string>,
                                    es: seq<Event>)
    requires Legal(accountOf, Start(files, executed0), es)
    ensures var m := RunAll(accountOf, Start(files, executed0), es);
            && (forall k :: k in m.inflight <==>
                  exists r :: 0 <= r < |m.runs| && m.runs[r].key == k && !m.runs[r].finalized)
            && (forall r, q :: 0 <= r < |m.runs| && 0 <= q < |m.runs| ==>
                  !m.runs[r].finalized && !m.runs[q].finalized && m.runs[r].key == m.runs[q].key ==> r == q)
            && (forall r :: 0 <= r < |m.runs| && !m.runs[r].finalized ==>
                  m.runs[r].key in m.inflight && m.inflight[m.runs[r].key] == r)
  {
    StartInv(accountOf, files, executed0);
    RunKeeps(accountOf, files, Start(files, executed0), es);
    var m := RunAll(accountOf, Start(files, executed0), es);
    OnePerKey(m.inflight, m.runs);
  }

  lemma OnePerKey(inflight: map<string, nat>, runs: seq<PaymentRun>)
    requires InflightExact(inflight, runs)
    ensures forall k :: k in inflight <==> exists r :: 0 <= r < |runs| && runs[r].key == k && !runs[r].finalized
    ensures forall r, q :: 0 <= r < |runs| && 0 <= q < |runs| && !runs[r].finalized && !runs[q].finalized ==>
              runs[r].key == runs[q].key ==> r == q
  {
    forall r, q | 0 <= r < |runs| && 0 <= q < |runs| && !runs[r].finalized && !runs[q].finalized
                  && runs[r].key == runs[q].key
      ensures r == q
    {
      assert inflight[runs[r].key] == r && inflight[runs[q].key] == q;
    }
  }

  /** Callers that arrive while a run is in flight start nothing and share that run, whatever the spelling. */
  lemma CallersShareTheRun(accountOf: string -> string, files: map<string, Record>, executed0: set<string>,
                           es: seq<Event>, addr: string, tx: string, tx': string, fsOk: bool)
    requires Legal(accountOf, Start(files, executed0), es)
    requires Lower(WithoutHexPrefix(tx)) == Lower(WithoutHexPrefix(tx'))
    requires exists r :: 0 <= r < |RunAll(accountOf, Start(files, executed0), es).runs|
                         && RunAll(accountOf, Start(files, executed0), es).runs[r].key == PaymentKey(tx)
                         && !RunAll(accountOf, Start(files, executed0), es).runs[r].finalized
    ensures var m := RunAll(accountOf, Start(files, executed0), es);
            && PaymentKey(tx) in m.inflight
            && m.inflight[PaymentKey(tx)] < |m.runs|
            && !m.runs[m.inflight[PaymentKey(tx)]].finalized
            && ValidRefs(m)
            && ProcessPayment(m, addr, tx', fsOk)
               == m.(replies := m.replies + [Reply(PaymentKey(tx), Shares(m.inflight[PaymentKey(tx)]))])
  {
    StartInv(accountOf, files, executed0);
    RunKeeps(accountOf, files, Start(files, executed0), es);
  }

  /** A settled run leaves a terminal state exactly when its first persist went through. */
  lemma SettledIsTerminal(accountOf: string -> string, files: map<string, Record>, executed0: set<string>,
                          es: seq<Event>, r: nat)
    requires Legal(accountOf, Start(files, executed0), es)
    requires r < |RunAll(accountOf, Start(files, executed0), es).runs|
    requires RunAll(accountOf, Start(files, executed0), es).runs[r].pc.Settled?
    ensures var m := RunAll(accountOf, Start(files, executed0), es);
            var run := m.runs[r];
            && run.rec < |m.heap|
            && (m.heap[run.rec].state in {SubAccountActive, Failed} <==> !run.unrecorded)
            && (run.pc.ok <==> m.heap[run.rec].state == SubAccountActive)
            && (run.pc.ok ==> m.heap[run.rec].account == Some(accountOf(m.heap[run.rec].addr)))
  {
    var m := Reachable(accountOf, files, executed0, es);
    SettledFits(accountOf, m.heap, m.runs, r);
  }

  lemma SettledFits(accountOf: string -> string, heap: seq<Record>, runs: seq<PaymentRun>, r: nat)
    requires RecordsFit(accountOf, heap, runs) && r < |runs| && runs[r].pc.Settled?
    ensures var run, record := runs[r], heap[runs[r].rec];
            && (record.state in {SubAccountActive, Failed} <==> !run.unrecorded)
            && (run.pc.ok <==> record.state == SubAccountActive)
            && (run.pc.ok ==> record.account == Some(accountOf(record.addr)))
  {
    assert RecordFits(accountOf, runs[r], heap[runs[r].rec]);
  }

  /**
   A payment is executed at most once, counting what was executed before the start and what others execute. After
   an execution by this process, or before its start, nothing passes, is submitted or is executed for it again.
   */
  lemma ExecutedAtMostOnce(accountOf: string -> string, files: map<string, Record>, executed0: set<string>,
                           es: seq<Event>)
    requires Legal(accountOf, Start(files, executed0), es)
    ensures var ledger := RunAll(accountOf, Start(files, executed0), es).ledger;
            && (forall i, j :: 0 <= i < j < |ledger| && Executes(ledger[i]) && Executes(ledger[j]) ==>
                  ledger[j].key != ledger[i].key)
            && (forall i, j :: 0 <= i < j < |ledger| && ledger[i].Executed? ==> ledger[j].key != ledger[i].key)
            && (forall i :: 0 <= i < |ledger| ==> ledger[i].key !in executed0)
  {
    var m := Reachable(accountOf, files, executed0, es);
    SoundOnce(m.ledger);
    NothingForEarlier(accountOf, files, executed0, es);
  }

  lemma SoundOnce(ledger: seq<LedgerEntry>)
    requires LedgerSound(ledger)
    ensures forall i, j :: 0 <= i < j < |ledger| && Executes(ledger[i]) && Executes(ledger[j]) ==>
              ledger[j].key != ledger[i].key
    ensures forall i, j :: 0 <= i < j < |ledger| && ledger[i].Executed? ==> ledger[j].key != ledger[i].key
  {
    forall i, j | 0 <= i < j < |ledger| && Executes(ledger[i]) && ledger[j].key == ledger[i].key
      ensures ledger[i].Outside? && ledger[j].Submitted?
    {
      assert MayFollow(ledger[i], ledger[j]);
    }
  }

  lemma NothingForEarlier(accountOf: string -> string, files: map<string, Record>, executed0: set<string>,
                          es: seq<Event>)
    requires Legal(accountOf, Start(files, executed0), es)
    ensures var ledger := RunAll(accountOf, Start(files, executed0), es).ledger;
            forall i :: 0 <= i < |ledger| ==> ledger[i].key !in executed0
  {
    var ledger := RunAll(accountOf, Start(files, executed0), es).ledger;
    StartInv(accountOf, files, executed0);
    forall i | 0 <= i < |ledger| ensures ledger[i].key !in executed0 {
      if ledger[i].key in executed0 {
        NothingAfterExecution(accountOf, files, Start(files, executed0), es, ledger[i].key);
      }
    }
  }

  /**
   After somebody else has executed a payment, at most one thing still happens for it: the submission of the one run
   whose simulation had passed before. Its receipt then fails, for the payment is not executed again.
   */
  lemma OutsideExecution(accountOf: string -> string, files: map<string, Record>, executed0: set<string>,
                         es: seq<Event>, i: nat, j: nat)
    requires Legal(accountOf, Start(files, executed0), es)
    requires i < j < |RunAll(accountOf, Start(files, executed0), es).ledger|
    requires var ledger := RunAll(accountOf, Start(files, executed0), es).ledger;
             ledger[i].Outside? && ledger[j].key == ledger[i].key
    ensures var m := RunAll(accountOf, Start(files, executed0), es);
            && m.ledger[j].Submitted? && PassedIn(m.ledger, m.ledger[j].run, m.ledger[j].key, i)
            && (forall h :: j < h < |m.ledger| ==> m.ledger[h].key != m.ledger[i].key)
            && (forall fsCatch :: !Enabled(m, Mined(m.ledger[j].run, true, fsCatch)))
  {
    var m := Reachable(accountOf, files, executed0, es);
    LateEntry(m.ledger, m.executed, m.runs, i, j);
  }

  lemma LateEntry(ledger: seq<LedgerEntry>, executed: set<string>, runs: seq<PaymentRun>, i: nat, j: nat)
    requires LedgerInv(ledger, executed, runs)
    requires i < j < |ledger| && ledger[i].Outside? && ledger[j].key == ledger[i].key
    ensures ledger[j].Submitted? && PassedIn(ledger, ledger[j].run, ledger[j].key, i)
    ensures forall h :: j < h < |ledger| ==> ledger[h].key != ledger[i].key
    ensures ledger[j].run < |runs| && runs[ledger[j].run].key in executed
  {
    assert MayFollow(ledger[i], ledger[j]);
  }

  /** What one event adds to the ledger. */
  function Added(m: Monitor, e: Event): seq<LedgerEntry>
    requires Enabled(m, e)
  {
    match e
    case Simulated(r, verdict, _) => if verdict.Passes? then [Passed(r, m.runs[r].key)] else []
    case Written(r, ok, _) => if ok then [Submitted(r, m.runs[r].key)] else []
    case Mined(r, ok, _) => if ok then [Executed(r, m.runs[r].key)] else []
    case ExecutedElsewhere(key) => [Outside(key)]
    case _ => []
  }

  /** The same view of the controller. */
  predicate SameLedger(m: Monitor, m': Monitor) { m'.ledger == m.ledger && m'.executed == m.executed }

  lemma ArrivalKeepsLedger(m: Monitor, addr: string, tx: string, fsWatch: bool, fsOk: bool)
    requires ValidRefs(m)
    ensures SameLedger(m, ProcessPayment(m, addr, tx, fsOk)) && SameLedger(m, Watch(m, addr, tx, fsWatch, fsOk))
  {
  }

  lemma FailKeepsLedger(m: Monitor, r: nat, fsOk: bool)
    requires ValidRefs(m) && r < |m.runs|
    ensures SameLedger(m, Fail(m, r, fsOk))
  {
  }

  lemma AdvanceKeepsLedger(m: Monitor, r: nat, st: Stepper, pc: Pc, fsOk: bool, fsCatch: bool)
    requires ValidRefs(m) && r < |m.runs|
    ensures SameLedger(m, Advance(m, r, st, pc, fsOk, fsCatch))
  {
  }

  lemma StepLedger(accountOf: string -> string, m: Monitor, e: Event)
    requires Enabled(m, e)
    ensures m.executed <= Step(accountOf, m, e).executed
    ensures Step(accountOf, m, e).ledger == m.ledger + Added(m, e)
  {
    assert m.ledger + [] == m.ledger;
    match e
    case Call(addr, tx, fsOk) => ArrivalKeepsLedger(m, addr, tx, true, fsOk);
    case Seen(addr, tx, fsWatch, fsOk) => ArrivalKeepsLedger(m, addr, tx, fsWatch, fsOk);
    case Attested(r, _, fsOk, fsCatch) =>
      FailKeepsLedger(m, r, fsCatch);
      AdvanceKeepsLedger(m, r, MintingFxrp, Simulating, fsOk, fsCatch);
    case VaultRead(r, _, fsOk, fsCatch) =>
      FailKeepsLedger(m, r, fsCatch);
      AdvanceKeepsLedger(m, r, SubAccountActive, Settled(true), fsOk, fsCatch);
    case Finalize(_) =>
    case ExecutedElsewhere(_) =>
    case _ => FailKeepsLedger(m, e.run, e.fsCatch);
  }

  /** The entry is for another payment, or submits a run whose simulation had passed in the given ledger. */
  ghost predicate Excused(ledger: seq<LedgerEntry>, e: LedgerEntry, k: string) {
    e.key != k || (e.Submitted? && PassedIn(ledger, e.run, k, |ledger|))
  }

  lemma AddedExcused(m: Monitor, e: Event, k: string)
    requires Enabled(m, e) && SubmittersFit(m.ledger, m.runs) && k in m.executed
    ensures forall i :: 0 <= i < |Added(m, e)| ==> Excused(m.ledger, Added(m, e)[i], k)
  {
    if e.Written? && e.ok { assert PassedFirst(m.ledger, e.run, m.runs[e.run]); }
  }

  /** The later ledger extends the earlier one; what it adds for the payment is excused. */
  ghost predicate Spares(ledger: seq<LedgerEntry>, ledger': seq<LedgerEntry>, k: string) {
    ledger <= ledger' && forall i :: |ledger| <= i < |ledger'| ==> Excused(ledger, ledger'[i], k)
  }

  /** Entries that were excused by a longer ledger are excused by the shorter one if nothing passed in between. */
  lemma ExcusedEarlier(a: seq<LedgerEntry>, added: seq<LedgerEntry>, e: LedgerEntry, k: string)
    requires (forall i :: 0 <= i < |added| ==> Excused(a, added[i], k)) && Excused(a + added, e, k)
    ensures Excused(a, e, k)
  {
    if e.key == k {
      var p :| 0 <= p < |a + added| && (a + added)[p] == Passed(e.run, k);
      if p >= |a| { assert Excused(a, added[p - |a|], k); }
    }
  }

  lemma SparesCompose(a: seq<LedgerEntry>, added: seq<LedgerEntry>, c: seq<LedgerEntry>, k: string)
    requires (forall i :: 0 <= i < |added| ==> Excused(a, added[i], k)) && Spares(a + added, c, k)
    ensures Spares(a, c, k)
  {
    forall i | |a| <= i < |c| ensures Excused(a, c[i], k) {
      if i < |a + added| {
        assert c[i] == (a + added)[i] == added[i - |a|];
      } else {
        ExcusedEarlier(a, added, c[i], k);
      }
    }
    assert a <= c by { assert forall i :: 0 <= i < |a| ==> c[i] == (a + added)[i]; }
  }

  lemma {:induction false} NothingAfterExecution(accountOf: string -> string, files: map<string, Record>, m: Monitor,
                                                 es: seq<Event>, k: string)
    requires Inv(accountOf, files, m) && Legal(accountOf, m, es) && k in m.executed
    ensures Spares(m.ledger, RunAll(accountOf, m, es).ledger, k)
    decreases |es|
  {
    if es == [] {
    } else {
      var m1 := Step(accountOf, m, es[0]);
      StepLedger(accountOf, m, es[0]);
      AddedExcused(m, es[0], k);
      StepKeeps(accountOf, files, m, es[0]);
      NothingAfterExecution(accountOf, files, m1, es[1..], k);
      SparesCompose(m.ledger, Added(m, es[0]), RunAll(accountOf, m1, es[1..]).ledger, k);
    }
  }

  /**
   A restart: a second process starts on the first one's files, when the controller has executed all the first one
   saw executed and possibly more. Whatever it is asked, it neither submits nor executes such a payment, and
   a success for an address reports the same personal account as before. What the first process left pending may
   still land while the second one runs: `OutsideExecution` says what follows.
   */
  lemma RestartIsIdempotent(accountOf: string -> string, files: map<string, Record>, executed0: set<string>,
                            es: seq<Event>, executed1: set<string>, es': seq<Event>)
    requires Legal(accountOf, Start(files, executed0), es)
    requires RunAll(accountOf, Start(files, executed0), es).executed <= executed1
    requires Legal(accountOf, Start(RunAll(accountOf, Start(files, executed0), es).files, executed1), es')
    ensures var m := RunAll(accountOf, Start(files, executed0), es);
            var m' := RunAll(accountOf, Start(m.files, executed1), es');
            && (forall i :: 0 <= i < |m'.ledger| ==> m'.ledger[i].key !in m.executed)
            && (forall r, q :: 0 <= r < |m.runs| && 0 <= q < |m'.runs| ==>
                  SucceededFor(m, r) && SucceededFor(m', q) && OwnRecord(m, r).addr == OwnRecord(m', q).addr ==>
                    OwnRecord(m, r).account == OwnRecord(m', q).account)
  {
    var m := RunAll(accountOf, Start(files, executed0), es);
    var m' := RunAll(accountOf, Start(m.files, executed1), es');
    ExecutedAtMostOnce(accountOf, m.files, executed1, es');
    forall r | 0 <= r < |m.runs| && SucceededFor(m, r)
      ensures OwnRecord(m, r).account == Some(accountOf(OwnRecord(m, r).addr))
    {
      SettledIsTerminal(accountOf, files, executed0, es, r);
    }
    forall q | 0 <= q < |m'.runs| && SucceededFor(m', q)
      ensures OwnRecord(m', q).account == Some(accountOf(OwnRecord(m', q).addr))
    {
      SettledIsTerminal(accountOf, m.files, executed1, es', q);
    }
  }

  predicate SucceededFor(m: Monitor, r: nat)
    requires r < |m.runs|
  {
    m.runs[r].pc == Settled(true) && m.runs[r].rec < |m.heap|
  }

  function OwnRecord(m: Monitor, r: nat): Record
    requires r < |m.runs| && SucceededFor(m, r)
  {
    m.heap[m.runs[r].rec]
  }

  /** On an empty status directory a cached answer is always an active account of the asked payment. */
  lemma CachedAnswersAreActive(accountOf: string -> string, executed0: set<string>, es: seq<Event>, i: nat)
    requires Legal(accountOf, Start(map[], executed0), es)
    requires i < |RunAll(accountOf, Start(map[], executed0), es).replies|
    requires RunAll(accountOf, Start(map[], executed0), es).replies[i].answer.Cached?
    ensures var reply := RunAll(accountOf, Start(map[], executed0), es).replies[i];
            var c := reply.answer.record;
            && c.state == SubAccountActive && c.account == Some(accountOf(c.addr))
            && c.tx.Some? && PaymentKey(c.tx.value) == reply.key
  {
    StartInv(accountOf, map[], executed0);
    RunKeeps(accountOf, map[], Start(map[], executed0), es);
    var m := RunAll(accountOf, Start(map[], executed0), es);
    assert RepliesFit(accountOf, map[], m.replies, m.runs);
  }

  /** The run whose first persist throws: it is rejected at once, and its record stays in requesting_fdc. */
  lemma FirstPersistCanThrow(accountOf: string -> string, files: map<string, Record>, executed0: set<string>,
                             addr: string, tx: string)
    requires addr !in files
    ensures var es := [Call(addr, tx, false)];
            && Legal(accountOf, Start(files, executed0), es)
            && var m := RunAll(accountOf, Start(files, executed0), es);
               && |m.runs| == 1 && m.runs[0].pc == Settled(false) && m.runs[0].unrecorded
               && m.runs[0].rec == 0 && |m.heap| == 1 && m.heap[0].state == RequestingFdc
  {
    var e := Call(addr, tx, false);
    var m1 := Step(accountOf, Start(files, executed0), e);
    assert [e][1..] == [];
    assert Legal(accountOf, m1, []) && RunAll(accountOf, m1, []) == m1;
  }

  lemma ControllerFailsOrKeepsRecords(accountOf: string -> string, m: Monitor, e: Event)
    requires Enabled(m, e) && (e.Simulated? || e.Written? || e.Mined?)
    ensures var m' := Step(accountOf, m, e);
            m' == Fail(m, e.run, e.fsCatch) || (m'.heap == m.heap && m'.statuses == m.statuses)
  {
  }

  // ---- The source's own form ----------------------------------------------------------------------

  class Process {
    var heap: seq<Record>
    var statuses: map<string, nat>
    var files: map<string, Record>
    var inflight: map<string, nat>
    var runs: seq<PaymentRun>
    ghost var executed: set<string>
    ghost var ledger: seq<LedgerEntry>
    ghost var replies: seq<Reply>

    ghost function State(): Monitor
      reads this
    {
      Monitor(heap, statuses, files, inflight, runs, executed, ledger, replies)
    }

    constructor (files0: map<string, Record>, ghost executed0: set<string>)
      ensures State() == Start(files0, executed0)
    {
      heap, statuses, files, inflight, runs := [], map[], files0, map[], [];
      executed, ledger, replies := executed0, [], [];
    }

    method PersistRecord(rec: nat, fsOk: bool) returns (threw: bool)
      requires rec < |heap|
      modifies this`statuses, this`files
      ensures State() == Persist(old(State()), rec, fsOk) && threw == !fsOk
    {
      var s := heap[rec];
      statuses := statuses[StatusKey(s.addr, s.tx) := rec];
      statuses := statuses[Lower(s.addr) := rec];
      if !fsOk { return true; }
      files := files[s.addr := s];
      return false;
    }

    method LookUpStatus(s: string) returns (r: Option<Record>)
      requires ValidRefs(State())
      ensures r == GetStatus(State(), s)
    {
      var k := Lower(s);
      if k in statuses { return Some(heap[statuses[k]]); }
      if s in files { return Some(files[s]); }
      return None;
    }

    method RunProcessPayment(addr: string, tx: string, fsOk: bool) returns (run: nat)
      modifies this`heap, this`statuses, this`files, this`runs
      ensures State() == StartRun(old(State()), addr, tx, fsOk) && run == |old(runs)|
    {
      var rec := |heap|;
      heap := heap + [Record(addr, Some(tx), RequestingFdc, None)];
      var threw := PersistRecord(rec, fsOk);
      run := |runs|;
      runs := runs + [PaymentRun(PaymentKey(tx), rec, if threw then Settled(false) else Attesting, threw, false)];
    }

    method Handle(addr: string, tx: string, fsOk: bool) returns (answer: Answer)
      requires ValidRefs(State())
      modifies this
      ensures State() == ProcessPayment(old(State()), addr, tx, fsOk)
      ensures replies == old(replies) + [Reply(PaymentKey(tx), answer)]
    {
      var key := PaymentKey(tx);
      if key in inflight {
        answer := Shares(inflight[key]);
      } else {
        var cached := LookUpStatus(addr);
        if cached.Some? && Reusable(cached.value, key) {
          answer := Cached(cached.value);
        } else {
          var run := RunProcessPayment(addr, tx, fsOk);
          inflight := inflight[key := run];
          answer := Shares(run);
        }
      }
      replies := replies + [Reply(key, answer)];
    }

    method OnTransaction(addr: string, tx: string, fsWatch: bool, fsOk: bool)
      requires ValidRefs(State())
      modifies this
      ensures State() == Watch(old(State()), addr, tx, fsWatch, fsOk)
    {
      var rec := |heap|;
      heap := heap + [Record(addr, Some(tx), WaitingXrpl, None)];
      var threw := PersistRecord(rec, fsWatch);
      if !threw { var _ := Handle(addr, tx, fsOk); }
    }

    method Catch(r: nat, fsOk: bool)
      requires ValidRefs(State()) && r < |runs|
      modifies this`heap, this`statuses, this`files, this`runs
      ensures State() == Fail(old(State()), r, fsOk)
    {
      var rec := runs[r].rec;
      heap := heap[rec := heap[rec].(state := Failed)];
      var _ := PersistRecord(rec, fsOk);
      runs := runs[r := runs[r].(pc := Settled(false))];
    }

    /** The try block's pattern: assign the record's state, persist it, go on to the next await. */
    method AdvanceRecord(r: nat, st: Stepper, pc: Pc, fsOk: bool, fsCatch: bool)
      requires ValidRefs(State()) && r < |runs|
      modifies this`heap, this`statuses, this`files, this`runs
      ensures State() == Advance(old(State()), r, st, pc, fsOk, fsCatch)
    {
      var rec := runs[r].rec;
      heap := heap[rec := heap[rec].(state := st)];
      var threw := PersistRecord(rec, fsOk);
      if threw { Catch(r, fsCatch); } else { runs := runs[r := runs[r].(pc := pc)]; }
    }

    method Finally(r: nat)
      requires ValidRefs(State()) && r < |runs| && runs[r].pc.Settled? && !runs[r].finalized
      modifies this`inflight, this`runs
      ensures State() == Step(_ => "", old(State()), Finalize(r))
    {
      inflight := inflight - {runs[r].key};
      runs := runs[r := runs[r].(finalized := true)];
    }
  }
}
