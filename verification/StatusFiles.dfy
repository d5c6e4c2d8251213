/**
 The status files of the payment monitor: what each holds after every event, what survives a restart, and when a
 stale one answers for a payment.
 */
module StatusFiles {
  import opened Wrappers
  import opened Text
  import opened PaymentMonitor

  // ---- What the status files hold -----------------------------------------------------------------

  /** The last write of the event, if it makes one, succeeds. */
  predicate LastWriteOk(e: Event) {
    match e
    case Attested(_, ok, fsOk, fsCatch) => (ok && fsOk) || fsCatch
    case VaultRead(_, ok, fsOk, fsCatch) => (ok && fsOk) || fsCatch
    case Simulated(_, _, fsCatch) => fsCatch
    case Written(_, _, fsCatch) => fsCatch
    case Mined(_, _, fsCatch) => fsCatch
    case AccountRead(_, _, fsCatch) => fsCatch
    case _ => false
  }

  /** The event of a run changes the state of its record. */
  predicate ChangesState(e: Event) {
    match e
    case Attested(_, _, _, _) => true
    case VaultRead(_, _, _, _) => true
    case Simulated(_, verdict, _) => verdict.Rejects?
    case Written(_, ok, _) => !ok
    case Mined(_, ok, _) => !ok
    case AccountRead(_, ok, _) => !ok
    case _ => false
  }

  lemma FailWrites(m: Monitor, r: nat, fsOk: bool)
    requires ValidRefs(m) && r < |m.runs|
    ensures var rec := m.runs[r].rec;
            var m' := Fail(m, r, fsOk);
            && rec < |m'.heap|
            && m'.files == if fsOk then m.files[m.heap[rec].addr := m'.heap[rec]] else m.files
  {
  }

  lemma AdvanceWrites(m: Monitor, r: nat, st: Stepper, pc: Pc, fsOk: bool, fsCatch: bool)
    requires ValidRefs(m) && r < |m.runs|
    ensures var rec := m.runs[r].rec;
            var m' := Advance(m, r, st, pc, fsOk, fsCatch);
            && rec < |m'.heap|
            && m'.files == if fsOk || fsCatch then m.files[m.heap[rec].addr := m'.heap[rec]] else m.files
  {
    AdvanceIsMove(m, r, st, pc, fsCatch);
    FailWrites(m, r, fsCatch);
  }

  /**
   Whenever a run changes the state of its record, the file of exactly its address afterwards holds the record as it
   then is; if the last write failed, all files are as they were. Other events of a run touch no file.
   */
  lemma FilesFollowRun(accountOf: string -> string, m: Monitor, e: Event)
    requires Enabled(m, e) && !e.Call? && !e.Seen? && !e.Finalize? && !e.ExecutedElsewhere?
    ensures var rec := m.runs[e.run].rec;
            var m' := Step(accountOf, m, e);
            && rec < |m'.heap|
            && m'.files == if ChangesState(e) && LastWriteOk(e) then m.files[m.heap[rec].addr := m'.heap[rec]]
                           else m.files
  {
    FailWrites(m, e.run, e.fsCatch);
    match e
    case Attested(r, _, fsOk, fsCatch) => AdvanceWrites(m, r, MintingFxrp, Simulating, fsOk, fsCatch);
    case VaultRead(r, _, fsOk, fsCatch) => AdvanceWrites(m, r, SubAccountActive, Settled(true), fsOk, fsCatch);
    case _ =>
  }

  /** A call that starts a run leaves the requesting record in the file if it can be written, and no trace if not. */
  lemma FilesFollowCall(m: Monitor, addr: string, tx: string, fsOk: bool)
    requires ValidRefs(m)
    ensures var m' := ProcessPayment(m, addr, tx, fsOk);
            m'.files == if |m'.runs| > |m.runs| && fsOk
                        then m.files[addr := Record(addr, Some(tx), RequestingFdc, None)]
                        else m.files
  {
  }

  /** A sighting that can be recorded leaves in the file the waiting record, or the one of the run it starts. */
  lemma FilesFollowSighting(m: Monitor, addr: string, tx: string, fsOk: bool)
    requires ValidRefs(m)
    ensures var m' := Watch(m, addr, tx, true, fsOk);
            m'.files == m.files[addr := Record(addr, Some(tx),
                                               if |m'.runs| > |m.runs| && fsOk then RequestingFdc else WaitingXrpl,
                                               None)]
  {
    var record := Record(addr, Some(tx), WaitingXrpl, None);
    FilesFollowCall(Persist(m.(heap := m.heap + [record]), |m.heap|, true), addr, tx, fsOk);
  }

  /** A persisted record answers for its address and for address:hash, in any letter case, written or not. */
  lemma PersistedAnswers(m: Monitor, rec: nat, fsOk: bool, s: string)
    requires ValidRefs(m) && rec < |m.heap|
    ensures ValidRefs(Persist(m, rec, fsOk))
    ensures var r := m.heap[rec];
            var hash := if r.tx.Some? then r.tx.value else "pending";
            Lower(s) == Lower(r.addr) || Lower(s) == Lower(r.addr + ":" + hash) ==>
              GetStatus(Persist(m, rec, fsOk), s) == Some(r)
  {
    var r := m.heap[rec];
    assert |StatusKey(r.addr, r.tx)| > |Lower(r.addr)|;
  }

  /** A payment the watcher cannot record is not processed: no file, no run, no answer. */
  lemma UnrecordedSightingDoesNothing(m: Monitor, addr: string, tx: string, fsOk: bool)
    requires ValidRefs(m)
    ensures var m' := Watch(m, addr, tx, false, fsOk);
            m'.files == m.files && m'.runs == m.runs && m'.inflight == m.inflight && m'.replies == m.replies
  {
  }

  /** The run's record is the one the status map answers for its address. */
  predicate Current(m: Monitor, r: nat)
    requires r < |m.runs| && m.runs[r].rec < |m.heap|
  {
    var addr := Lower(m.heap[m.runs[r].rec].addr);
    addr in m.statuses && m.statuses[addr] == m.runs[r].rec
  }

  predicate OnDisk(m: Monitor, rec: nat)
    requires rec < |m.heap|
  {
    m.heap[rec].addr in m.files && m.files[m.heap[rec].addr] == m.heap[rec]
  }

  /** Every successful run that is current is on disk, other than the run of the given record. */
  ghost predicate DiskAgreesExcept(m: Monitor, rec: int)
    requires ValidRefs(m)
  {
    forall r :: 0 <= r < |m.runs| && m.runs[r].pc == Settled(true) && m.runs[r].rec != rec && Current(m, r) ==>
      OnDisk(m, m.runs[r].rec)
  }

  ghost predicate DiskAgrees(m: Monitor)
    requires ValidRefs(m)
  {
    DiskAgreesExcept(m, -1)
  }

  /** Persisting a record takes the map entry of its address from every other record. */
  lemma PersistDisk(m: Monitor, rec: nat, fsOk: bool)
    requires ValidRefs(m) && rec < |m.heap| && DiskAgreesExcept(m, rec)
    requires fsOk || forall r :: 0 <= r < |m.runs| && m.runs[r].rec == rec ==> m.runs[r].pc != Settled(true)
    ensures ValidRefs(Persist(m, rec, fsOk)) && DiskAgrees(Persist(m, rec, fsOk))
  {
    var m' := Persist(m, rec, fsOk);
    forall r | 0 <= r < |m'.runs| && m'.runs[r].pc == Settled(true) && Current(m', r)
      ensures OnDisk(m', m'.runs[r].rec)
    {
      var other := m'.runs[r].rec;
      if other != rec {
        assert Lower(m.heap[other].addr) != Lower(m.heap[rec].addr);
        assert Current(m, r);
      }
    }
  }

  lemma MoveDisk(accountOf: string -> string, m: Monitor, r: nat, run: PaymentRun, record: Record)
    requires ValidRefs(m) && RecordsFit(accountOf, m.heap, m.runs) && DiskAgrees(m)
    requires MayMove(accountOf, m.runs, r, run, record)
    ensures ValidRefs(Moved(m, r, run, record)) && DiskAgreesExcept(Moved(m, r, run, record), run.rec)
  {
    var m' := Moved(m, r, run, record);
    forall q | 0 <= q < |m'.runs| && m'.runs[q].pc == Settled(true) && m'.runs[q].rec != run.rec && Current(m', q)
      ensures OnDisk(m', m'.runs[q].rec)
    {
      assert q != r && Current(m, q);
    }
  }

  lemma FailDisk(accountOf: string -> string, m: Monitor, r: nat, fsOk: bool)
    requires ValidRefs(m) && RecordsFit(accountOf, m.heap, m.runs) && DiskAgrees(m)
    requires r < |m.runs| && !m.runs[r].pc.Settled?
    ensures ValidRefs(Fail(m, r, fsOk)) && DiskAgrees(Fail(m, r, fsOk))
  {
    var run := m.runs[r].(pc := Settled(false));
    var record := m.heap[run.rec].(state := Failed);
    assert RecordFits(accountOf, m.runs[r], m.heap[run.rec]);
    FailIsMove(m, r, fsOk);
    MoveDisk(accountOf, m, r, run, record);
    PersistDisk(Moved(m, r, run, record), run.rec, fsOk);
  }

  lemma AdvanceDisk(accountOf: string -> string, m: Monitor, r: nat, st: Stepper, pc: Pc, fsOk: bool, fsCatch: bool)
    requires ValidRefs(m) && RecordsFit(accountOf, m.heap, m.runs) && DiskAgrees(m)
    requires r < |m.runs| && AdvancesTo(m.runs[r].pc, st, pc)
    ensures ValidRefs(Advance(m, r, st, pc, fsOk, fsCatch)) && DiskAgrees(Advance(m, r, st, pc, fsOk, fsCatch))
  {
    AdvanceIsMove(m, r, st, pc, fsCatch);
    if fsOk {
      AdvanceMayMove(accountOf, m, r, st, pc);
      var run, record := m.runs[r].(pc := pc), m.heap[m.runs[r].rec].(state := st);
      MoveDisk(accountOf, m, r, run, record);
      PersistDisk(Moved(m, r, run, record), run.rec, true);
    } else {
      FailDisk(accountOf, m, r, fsCatch);
    }
  }

  /** A record that no run owns yet. */
  lemma NewRecordDisk(m: Monitor, record: Record)
    requires ValidRefs(m) && DiskAgrees(m)
    ensures var m' := m.(heap := m.heap + [record]);
            ValidRefs(m') && DiskAgrees(m')
  {
    var m' := m.(heap := m.heap + [record]);
    forall r | 0 <= r < |m'.runs| && m'.runs[r].pc == Settled(true) && Current(m', r)
      ensures OnDisk(m', m'.runs[r].rec)
    {
      assert Current(m, r);
    }
  }

  lemma ProcessDisk(m: Monitor, addr: string, tx: string, fsOk: bool)
    requires ValidRefs(m) && DiskAgrees(m)
    ensures ValidRefs(ProcessPayment(m, addr, tx, fsOk)) && DiskAgrees(ProcessPayment(m, addr, tx, fsOk))
  {
    var m' := ProcessPayment(m, addr, tx, fsOk);
    if |m'.runs| > |m.runs| {
      var record := Record(addr, Some(tx), RequestingFdc, None);
      var m1 := m.(heap := m.heap + [record]);
      NewRecordDisk(m, record);
      PersistDisk(m1, |m.heap|, fsOk);
      var m2 := Persist(m1, |m.heap|, fsOk);
      forall r | 0 <= r < |m'.runs| && m'.runs[r].pc == Settled(true) && Current(m', r)
        ensures OnDisk(m', m'.runs[r].rec)
      {
        assert Current(m2, r);
      }
    } else {
      assert m' == m.(replies := m'.replies);
      forall r | 0 <= r < |m'.runs| && m'.runs[r].pc == Settled(true) && Current(m', r)
        ensures OnDisk(m', m'.runs[r].rec)
      {
        assert Current(m, r);
      }
    }
  }

  lemma WatchDisk(m: Monitor, addr: string, tx: string, fsWatch: bool, fsOk: bool)
    requires ValidRefs(m) && DiskAgrees(m)
    ensures ValidRefs(Watch(m, addr, tx, fsWatch, fsOk)) && DiskAgrees(Watch(m, addr, tx, fsWatch, fsOk))
  {
    var record := Record(addr, Some(tx), WaitingXrpl, None);
    var m1 := m.(heap := m.heap + [record]);
    NewRecordDisk(m, record);
    PersistDisk(m1, |m.heap|, fsWatch);
    ProcessDisk(Persist(m1, |m.heap|, fsWatch), addr, tx, fsOk);
  }

  /** A change that leaves records, map and files alone and makes no run successful. */
  lemma QuietDisk(m: Monitor, m': Monitor)
    requires ValidRefs(m) && DiskAgrees(m)
    requires m'.heap == m.heap && m'.statuses == m.statuses && m'.files == m.files && |m'.runs| == |m.runs|
    requires forall r :: 0 <= r < |m.runs| ==>
               m'.runs[r].rec == m.runs[r].rec && (m'.runs[r].pc == Settled(true) ==> m.runs[r].pc == Settled(true))
    ensures ValidRefs(m') && DiskAgrees(m')
  {
    forall r | 0 <= r < |m'.runs| && m'.runs[r].pc == Settled(true) && Current(m', r)
      ensures OnDisk(m', m'.runs[r].rec)
    {
      assert Current(m, r);
    }
  }

  lemma ControllerIsQuiet(accountOf: string -> string, m: Monitor, e: Event)
    requires Enabled(m, e) && (e.Simulated? || e.Written? || e.Mined?) && !ChangesState(e)
    ensures var m' := Step(accountOf, m, e);
            && m'.heap == m.heap && m'.statuses == m.statuses && m'.files == m.files && |m'.runs| == |m.runs|
            && forall r :: 0 <= r < |m.runs| ==>
                 m'.runs[r].rec == m.runs[r].rec && (m'.runs[r].pc == Settled(true) ==> m.runs[r].pc == Settled(true))
  {
  }

  lemma ControllerDisk(accountOf: string -> string, m: Monitor, e: Event)
    requires Enabled(m, e) && RecordsFit(accountOf, m.heap, m.runs) && DiskAgrees(m)
    requires e.Simulated? || e.Written? || e.Mined?
    ensures ValidRefs(Step(accountOf, m, e)) && DiskAgrees(Step(accountOf, m, e))
  {
    if ChangesState(e) {
      FailDisk(accountOf, m, e.run, e.fsCatch);
    } else {
      ControllerIsQuiet(accountOf, m, e);
      QuietDisk(m, Step(accountOf, m, e));
    }
  }

  lemma AccountDisk(accountOf: string -> string, m: Monitor, e: Event)
    requires Enabled(m, e) && RecordsFit(accountOf, m.heap, m.runs) && DiskAgrees(m) && e.AccountRead?
    ensures ValidRefs(Step(accountOf, m, e)) && DiskAgrees(Step(accountOf, m, e))
  {
    if e.ok {
      var run, record := m.runs[e.run].(pc := ReadingVault), m.heap[m.runs[e.run].rec];
      var record' := record.(account := Some(accountOf(record.addr)));
      AccountMayMove(accountOf, m, e.run);
      MoveDisk(accountOf, m, e.run, run, record');
      var m' := Step(accountOf, m, e);
      assert m' == Moved(m, e.run, run, record');
      forall r | 0 <= r < |m'.runs| && m'.runs[r].pc == Settled(true) && Current(m', r)
        ensures OnDisk(m', m'.runs[r].rec)
      {
        assert r != e.run && m'.runs[r].rec != run.rec;
      }
    } else {
      FailDisk(accountOf, m, e.run, e.fsCatch);
    }
  }

  lemma StepDisk(accountOf: string -> string, m: Monitor, e: Event)
    requires Enabled(m, e) && RecordsFit(accountOf, m.heap, m.runs) && DiskAgrees(m)
    ensures ValidRefs(Step(accountOf, m, e)) && DiskAgrees(Step(accountOf, m, e))
  {
    match e
    case Call(addr, tx, fsOk) => ProcessDisk(m, addr, tx, fsOk);
    case Seen(addr, tx, fsWatch, fsOk) => WatchDisk(m, addr, tx, fsWatch, fsOk);
    case Attested(r, ok, fsOk, fsCatch) =>
      if ok { AdvanceDisk(accountOf, m, r, MintingFxrp, Simulating, fsOk, fsCatch); }
      else { FailDisk(accountOf, m, r, fsCatch); }
    case VaultRead(r, ok, fsOk, fsCatch) =>
      if ok { AdvanceDisk(accountOf, m, r, SubAccountActive, Settled(true), fsOk, fsCatch); }
      else { FailDisk(accountOf, m, r, fsCatch); }
    case AccountRead(_, _, _) => AccountDisk(accountOf, m, e);
    case Finalize(_) => QuietDisk(m, Step(accountOf, m, e));
    case ExecutedElsewhere(_) => QuietDisk(m, Step(accountOf, m, e));
    case _ => ControllerDisk(accountOf, m, e);
  }

  lemma {:induction false} RunDisk(accountOf: string -> string, files: map<string, Record>, m: Monitor, es: seq<Event>)
    requires Inv(accountOf, files, m) && Legal(accountOf, m, es) && DiskAgrees(m)
    ensures ValidRefs(RunAll(accountOf, m, es)) && DiskAgrees(RunAll(accountOf, m, es))
    decreases |es|
  {
    if es == [] {
    } else {
      StepDisk(accountOf, m, es[0]);
      StepKeeps(accountOf, files, m, es[0]);
      RunDisk(accountOf, files, Step(accountOf, m, es[0]), es[1..]);
    }
  }

  /** A restarted process answers from the file of an active record, and starts no run for its payment. */
  lemma RestartAnswers(files: map<string, Record>, executed: set<string>, addr: string, tx: string, fsOk: bool)
    requires addr in files && files[addr].state == SubAccountActive && files[addr].tx.Some?
    ensures GetStatus(Start(files, executed), addr) == Some(files[addr])
    ensures PaymentKey(files[addr].tx.value) == PaymentKey(tx) && files[addr].tx.value != "" ==>
              ProcessPayment(Start(files, executed), addr, tx, fsOk)
              == Start(files, executed).(replies := [Reply(PaymentKey(tx), Cached(files[addr]))])
  {
  }

  lemma CurrentIsOnDisk(accountOf: string -> string, m: Monitor, r: nat)
    requires ValidRefs(m) && RecordsFit(accountOf, m.heap, m.runs) && DiskAgrees(m)
    requires r < |m.runs| && m.runs[r].pc == Settled(true) && Current(m, r)
    ensures var record := m.heap[m.runs[r].rec];
            && record.state == SubAccountActive && record.account == Some(accountOf(record.addr))
            && record.tx.Some? && PaymentKey(record.tx.value) == m.runs[r].key
            && record.addr in m.files && m.files[record.addr] == record
  {
    assert RecordFits(accountOf, m.runs[r], m.heap[m.runs[r].rec]);
    assert OnDisk(m, m.runs[r].rec);
  }

  /**
   A successful run whose record the status map still answers is on disk: a process started on the files answers the
   address with that active record, and a call for the payment with it, and starts no run.
   */
  lemma SuccessSurvivesRestart(accountOf: string -> string, files: map<string, Record>, executed0: set<string>,
                               es: seq<Event>, r: nat, executed1: set<string>, tx: string, fsOk: bool)
    requires Legal(accountOf, Start(files, executed0), es)
    requires r < |RunAll(accountOf, Start(files, executed0), es).runs|
    requires RunAll(accountOf, Start(files, executed0), es).runs[r].pc == Settled(true)
    ensures var m := RunAll(accountOf, Start(files, executed0), es);
            && m.runs[r].rec < |m.heap|
            && (Current(m, r) ==>
                  var record := m.heap[m.runs[r].rec];
                  var restarted := Start(m.files, executed1);
                  && record.state == SubAccountActive && record.account == Some(accountOf(record.addr))
                  && record.tx.Some? && PaymentKey(record.tx.value) == m.runs[r].key
                  && record.addr in m.files && m.files[record.addr] == record
                  && GetStatus(restarted, record.addr) == Some(record)
                  && (PaymentKey(tx) == m.runs[r].key && record.tx.value != "" ==>
                        ProcessPayment(restarted, record.addr, tx, fsOk)
                        == restarted.(replies := [Reply(PaymentKey(tx), Cached(record))])))
  {
    var m := Reachable(accountOf, files, executed0, es);
    StartInv(accountOf, files, executed0);
    RunDisk(accountOf, files, Start(files, executed0), es);
    if Current(m, r) {
      CurrentIsOnDisk(accountOf, m, r);
      RestartAnswers(m.files, executed1, m.heap[m.runs[r].rec].addr, tx, fsOk);
    }
  }

  /** The record has a hash, and it is that of the payment up to prefix and letter case. */
  predicate NamesPayment(r: Record, key: string) {
    r.tx.Some? && r.tx.value != "" && Lower(WithoutHexPrefix(r.tx.value)) == key
  }

  /**
   What a call is answered: the run in flight for its payment, if there is one; else the record found for the address,
   exactly if it names the payment and is minting or active; else a new run, in flight from now on.
   */
  lemma CallAnswers(m: Monitor, addr: string, tx: string, fsOk: bool)
    requires ValidRefs(m)
    ensures var m' := ProcessPayment(m, addr, tx, fsOk);
            var key := Lower(WithoutHexPrefix(tx));
            var c := GetStatus(m, addr);
            var reusable := c.Some? && NamesPayment(c.value, key)
                            && (c.value.state == MintingFxrp || c.value.state == SubAccountActive);
            if key in m.inflight || reusable then
              m' == m.(replies := m.replies + [Reply(key, if key in m.inflight then Shares(m.inflight[key])
                                                          else Cached(c.value))])
            else
              && |m'.runs| == |m.runs| + 1 && m'.runs[..|m.runs|] == m.runs && m'.runs[|m.runs|].key == key
              && m'.inflight == m.inflight[key := |m.runs|]
              && m'.replies == m.replies + [Reply(key, Shares(|m.runs|))]
  {
  }

  // ---- Stale files ----------------------------------------------------------------------------------

  /** A call would be answered from the cache by a payment that is not finished. */
  predicate AnswersUnfinished(m: Monitor, addr: string, key: string)
    requires ValidRefs(m)
  {
    var c := GetStatus(m, addr);
    c.Some? && Reusable(c.value, key) && c.value.state != SubAccountActive
  }

  /** An earlier process left the payment in minting_fxrp, and this one has recorded nothing for the address. */
  predicate StaleFile(files: map<string, Record>, m: Monitor, addr: string, key: string) {
    && Lower(addr) !in m.statuses
    && addr in files && files[addr].state == MintingFxrp && NamesPayment(files[addr], key)
  }

  lemma UnfinishedAnswerIffStale(accountOf: string -> string, files: map<string, Record>, m: Monitor,
                                 addr: string, key: string)
    requires Inv(accountOf, files, m) && key !in m.inflight
    ensures AnswersUnfinished(m, addr, key) <==> StaleFile(files, m, addr, key)
    ensures StaleFile(files, m, addr, key) ==> GetStatus(m, addr) == Some(files[addr])
  {
    var c := GetStatus(m, addr);
    if c.Some? && Reusable(c.value, key) { CacheIsFinished(accountOf, files, m, addr, key); }
  }

  /**
   At any moment of any run, a call for a payment not in flight is answered by an unfinished one exactly when a
   stale file stands for that very spelling of the address; the call then starts nothing.
   */
  lemma StaleFilePinsPayment(accountOf: string -> string, files: map<string, Record>, executed0: set<string>,
                             es: seq<Event>, addr: string, tx: string, fsOk: bool)
    requires Legal(accountOf, Start(files, executed0), es)
    requires PaymentKey(tx) !in RunAll(accountOf, Start(files, executed0), es).inflight
    ensures var m := RunAll(accountOf, Start(files, executed0), es);
            && ValidRefs(m)
            && (AnswersUnfinished(m, addr, PaymentKey(tx)) <==> StaleFile(files, m, addr, PaymentKey(tx)))
            && (StaleFile(files, m, addr, PaymentKey(tx)) ==>
                  ProcessPayment(m, addr, tx, fsOk)
                  == m.(replies := m.replies + [Reply(PaymentKey(tx), Cached(files[addr]))]))
  {
    StartInv(accountOf, files, executed0);
    RunKeeps(accountOf, files, Start(files, executed0), es);
    UnfinishedAnswerIffStale(accountOf, files, RunAll(accountOf, Start(files, executed0), es), addr, PaymentKey(tx));
  }

  /** Recording the payment (a, tx) sets no map entry under the address. */
  predicate Avoids(a: string, tx: Option<string>, addr: string) {
    Lower(a) != Lower(addr) && StatusKey(a, tx) != Lower(addr)
  }

  /** The event repeats the pinned call or concerns other addresses. */
  predicate Bypasses(e: Event, addr: string, key: string) {
    match e
    case Call(a, tx, _) => (a == addr && PaymentKey(tx) == key) || Avoids(a, Some(tx), addr)
    case Seen(a, tx, _, _) => Avoids(a, Some(tx), addr)
    case _ => true
  }

  /** No record of this process sets a map entry under the address, and none is set. */
  ghost predicate Clear(m: Monitor, addr: string) {
    && Lower(addr) !in m.statuses
    && forall i :: 0 <= i < |m.heap| ==> Avoids(m.heap[i].addr, m.heap[i].tx, addr)
  }

  lemma PersistClear(m: Monitor, rec: nat, fsOk: bool, addr: string)
    requires rec < |m.heap| && Clear(m, addr)
    ensures Clear(Persist(m, rec, fsOk), addr)
  {
  }

  lemma RecordClear(m: Monitor, record: Record, addr: string)
    requires Clear(m, addr) && Avoids(record.addr, record.tx, addr)
    ensures Clear(m.(heap := m.heap + [record]), addr)
  {
  }

  lemma FailClear(m: Monitor, r: nat, fsOk: bool, addr: string)
    requires ValidRefs(m) && r < |m.runs| && Clear(m, addr)
    ensures Clear(Fail(m, r, fsOk), addr)
  {
  }

  lemma AdvanceClear(m: Monitor, r: nat, st: Stepper, pc: Pc, fsOk: bool, fsCatch: bool, addr: string)
    requires ValidRefs(m) && r < |m.runs| && Clear(m, addr)
    ensures Clear(Advance(m, r, st, pc, fsOk, fsCatch), addr)
  {
    AdvanceIsMove(m, r, st, pc, fsCatch);
    FailClear(m, r, fsCatch, addr);
  }

  lemma ProcessClear(m: Monitor, a: string, tx: string, fsOk: bool, addr: string)
    requires ValidRefs(m) && Avoids(a, Some(tx), addr) && Clear(m, addr)
    ensures Clear(ProcessPayment(m, a, tx, fsOk), addr)
  {
    var record := Record(a, Some(tx), RequestingFdc, None);
    RecordClear(m, record, addr);
    PersistClear(m.(heap := m.heap + [record]), |m.heap|, fsOk, addr);
  }

  lemma CallClear(accountOf: string -> string, files: map<string, Record>, m: Monitor, e: Event,
                  addr: string, key: string)
    requires Inv(accountOf, files, m) && e.Call? && Bypasses(e, addr, key)
    requires StaleFile(files, m, addr, key) && Clear(m, addr)
    ensures Clear(ProcessPayment(m, e.addr, e.tx, e.fsOk), addr)
  {
    if Avoids(e.addr, Some(e.tx), addr) {
      ProcessClear(m, e.addr, e.tx, e.fsOk, addr);
    } else if key !in m.inflight {
      UnfinishedAnswerIffStale(accountOf, files, m, addr, key);
    }
  }

  lemma SeenClear(m: Monitor, e: Event, addr: string)
    requires ValidRefs(m) && e.Seen? && Avoids(e.addr, Some(e.tx), addr) && Clear(m, addr)
    ensures Clear(Watch(m, e.addr, e.tx, e.fsWatch, e.fsOk), addr)
  {
    var record := Record(e.addr, Some(e.tx), WaitingXrpl, None);
    var m1 := m.(heap := m.heap + [record]);
    RecordClear(m, record, addr);
    PersistClear(m1, |m.heap|, e.fsWatch, addr);
    ProcessClear(Persist(m1, |m.heap|, e.fsWatch), e.addr, e.tx, e.fsOk, addr);
  }

  lemma AccountClear(accountOf: string -> string, m: Monitor, e: Event, addr: string)
    requires Enabled(m, e) && e.AccountRead? && Clear(m, addr)
    ensures Clear(Step(accountOf, m, e), addr)
  {
    FailClear(m, e.run, e.fsCatch, addr);
  }

  lemma RunStepClear(accountOf: string -> string, m: Monitor, e: Event, addr: string)
    requires Enabled(m, e) && Clear(m, addr) && !e.Call? && !e.Seen?
    ensures Clear(Step(accountOf, m, e), addr)
  {
    if e.Attested? {
      FailClear(m, e.run, e.fsCatch, addr);
      AdvanceClear(m, e.run, MintingFxrp, Simulating, e.fsOk, e.fsCatch, addr);
    } else if e.VaultRead? {
      FailClear(m, e.run, e.fsCatch, addr);
      AdvanceClear(m, e.run, SubAccountActive, Settled(true), e.fsOk, e.fsCatch, addr);
    } else if e.AccountRead? {
      AccountClear(accountOf, m, e, addr);
    } else if e.Simulated? || e.Written? || e.Mined? {
      ControllerFailsOrKeepsRecords(accountOf, m, e);
      FailClear(m, e.run, e.fsCatch, addr);
    }
  }

  lemma StepClear(accountOf: string -> string, files: map<string, Record>, m: Monitor, e: Event,
                  addr: string, key: string)
    requires Inv(accountOf, files, m) && Enabled(m, e) && Bypasses(e, addr, key)
    requires StaleFile(files, m, addr, key) && Clear(m, addr)
    ensures StaleFile(files, Step(accountOf, m, e), addr, key) && Clear(Step(accountOf, m, e), addr)
  {
    if e.Call? {
      CallClear(accountOf, files, m, e, addr, key);
    } else if e.Seen? {
      SeenClear(m, e, addr);
    } else {
      RunStepClear(accountOf, m, e, addr);
    }
  }

  lemma {:induction false} PinLasts(accountOf: string -> string, files: map<string, Record>, m: Monitor,
                                    es: seq<Event>, addr: string, key: string)
    requires Inv(accountOf, files, m) && Legal(accountOf, m, es)
    requires StaleFile(files, m, addr, key) && Clear(m, addr)
    requires forall i :: 0 <= i < |es| ==> Bypasses(es[i], addr, key)
    ensures StaleFile(files, RunAll(accountOf, m, es), addr, key)
    decreases |es|
  {
    if es == [] {
    } else {
      StepClear(accountOf, files, m, es[0], addr, key);
      StepKeeps(accountOf, files, m, es[0]);
      PinLasts(accountOf, files, Step(accountOf, m, es[0]), es[1..], addr, key);
    }
  }

  /** The pin lasts through any run in which the address is only ever asked for this payment, in this spelling. */
  lemma PinnedUntilRecorded(accountOf: string -> string, files: map<string, Record>, executed0: set<string>,
                            es: seq<Event>, addr: string, key: string)
    requires Legal(accountOf, Start(files, executed0), es)
    requires addr in files && files[addr].state == MintingFxrp && NamesPayment(files[addr], key)
    requires forall i :: 0 <= i < |es| ==> Bypasses(es[i], addr, key)
    ensures StaleFile(files, RunAll(accountOf, Start(files, executed0), es), addr, key)
  {
    StartInv(accountOf, files, executed0);
    PinLasts(accountOf, files, Start(files, executed0), es, addr, key);
  }

  /** A watcher event for the address, or a run started for it in any spelling, ends the pin for good. */
  lemma {:induction false} PinEndsForGood(accountOf: string -> string, files: map<string, Record>, m: Monitor,
                                          es: seq<Event>, addr: string, key: string)
    requires Inv(accountOf, files, m) && Legal(accountOf, m, es)
    requires Lower(addr) in m.statuses
    ensures !StaleFile(files, RunAll(accountOf, m, es), addr, key)
    decreases |es|
  {
    if es == [] {
    } else {
      StatusesGrow(accountOf, m, es[0]);
      StepKeeps(accountOf, files, m, es[0]);
      PinEndsForGood(accountOf, files, Step(accountOf, m, es[0]), es[1..], addr, key);
    }
  }

  lemma FailGrows(m: Monitor, r: nat, fsOk: bool)
    requires ValidRefs(m) && r < |m.runs|
    ensures m.statuses.Keys <= Fail(m, r, fsOk).statuses.Keys
  {
  }

  lemma AdvanceGrows(m: Monitor, r: nat, st: Stepper, pc: Pc, fsOk: bool, fsCatch: bool)
    requires ValidRefs(m) && r < |m.runs|
    ensures m.statuses.Keys <= Advance(m, r, st, pc, fsOk, fsCatch).statuses.Keys
  {
    AdvanceIsMove(m, r, st, pc, fsCatch);
    FailGrows(m, r, fsCatch);
  }

  lemma ArrivalGrows(m: Monitor, addr: string, tx: string, fsWatch: bool, fsOk: bool)
    requires ValidRefs(m)
    ensures m.statuses.Keys <= ProcessPayment(m, addr, tx, fsOk).statuses.Keys
    ensures m.statuses.Keys <= Watch(m, addr, tx, fsWatch, fsOk).statuses.Keys
  {
  }

  lemma StatusesGrow(accountOf: string -> string, m: Monitor, e: Event)
    requires Enabled(m, e)
    ensures m.statuses.Keys <= Step(accountOf, m, e).statuses.Keys
  {
    match e
    case Call(addr, tx, fsOk) => ArrivalGrows(m, addr, tx, true, fsOk);
    case Seen(addr, tx, fsWatch, fsOk) => ArrivalGrows(m, addr, tx, fsWatch, fsOk);
    case Attested(r, _, fsOk, fsCatch) =>
      FailGrows(m, r, fsCatch);
      AdvanceGrows(m, r, MintingFxrp, Simulating, fsOk, fsCatch);
    case VaultRead(r, _, fsOk, fsCatch) =>
      FailGrows(m, r, fsCatch);
      AdvanceGrows(m, r, SubAccountActive, Settled(true), fsOk, fsCatch);
    case Finalize(_) =>
    case ExecutedElsewhere(_) =>
    case _ => FailGrows(m, e.run, e.fsCatch);
  }

  /** Whatever was cached, a payment the watcher records is in flight afterwards, and its address is not pinned. */
  lemma SeenIsInFlight(m: Monitor, addr: string, tx: string, fsOk: bool)
    requires ValidRefs(m)
    ensures var m' := Watch(m, addr, tx, true, fsOk);
            PaymentKey(tx) in m'.inflight && Lower(addr) in m'.statuses
    ensures PaymentKey(tx) !in m.inflight ==>
              var m' := Watch(m, addr, tx, true, fsOk);
              |m'.runs| == |m.runs| + 1 && m'.runs[|m.runs|].key == PaymentKey(tx)
  {
  }

  /** Another spelling of a pinned address is not pinned: the call starts a run. */
  lemma OtherSpellingStartsRun(files: map<string, Record>, executed0: set<string>, addr: string, tx: string, fsOk: bool)
    requires addr !in files
    ensures var m := ProcessPayment(Start(files, executed0), addr, tx, fsOk);
            |m.runs| == 1 && m.runs[0].key == PaymentKey(tx) && Lower(addr) in m.statuses
  {
  }
}
