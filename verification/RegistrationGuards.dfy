/**
 What one registration attempt adds to the chain and leaves in the state file, told from what holds before it starts,
 and what this means for every history: no effect without the guard in front of it.
 */
module RegistrationGuards {
  import opened Wrappers
  import opened Registration
  import opened CommandChanges

  // ---- The guards, in terms of the file and the environment ---------------------------------------

  function Before(w: World): RegState { if w.file.Some? then w.file.value else EMPTY_STATE }

  /** The step is asked for and not yet saved. */
  predicate Missing(w: World, command: string, step: char) { step in command && step !in Before(w).completed }

  predicate Starts(w: World, env: Env) { env.teeInfoOk && (w.file == None || env.fileReadable) }

  predicate PastPreRegister(w: World, command: string, env: Env) {
    Starts(w, env) && (Missing(w, command, 'r') ==> env.preRegister.Landed?)
  }

  predicate PastAttest(w: World, command: string, env: Env) {
    PastPreRegister(w, command, env) && (Missing(w, command, 'R') ==> env.attest.Landed?)
  }

  predicate PastCheck(w: World, command: string, env: Env) {
    && PastAttest(w, command, env)
    && (Missing(w, command, 'a') ==> env.policyConsistent && env.check.Landed?)
  }

  predicate PastPromote(w: World, command: string, env: Env) {
    && PastCheck(w, command, env)
    && ('p' in command ==> env.proofAvailable && env.promote.Landed?)
  }

  /** The attestation a check of this attempt names. */
  function CheckedId(w: World, command: string, env: Env): Hash {
    if Missing(w, command, 'R') && env.attest.Landed? then env.attest.id
    else if Missing(w, command, 'r') && env.preRegister.Landed? then env.preRegister.id
    else if Attests(command) then Before(w).attestId
    else 0
  }

  /** The check a promotion of this attempt names. */
  function PromotedId(w: World, command: string, cliId: Hash, env: Env): Hash {
    if 'a' !in command then cliId
    else if Missing(w, command, 'a') && env.check.Landed? then env.check.id
    else Before(w).instructionId
  }

  // ---- What an attempt adds -----------------------------------------------------------------------

  function Traces(call: Call, e: Entry, step: char): seq<Entry> {
    match call
    case Dropped => []
    case Lost(_) => [e]
    case Landed(_) => [e, Saved(step)]
  }

  function IdOf(call: Call): Hash { if call.Dropped? then 0 else call.id }

  function AddedByPreRegister(w: World, command: string, env: Env): seq<Entry> {
    var id := IdOf(env.preRegister);
    if Starts(w, env) && Missing(w, command, 'r')
    then Traces(env.preRegister, if env.machineKnown then Attested('r', id) else PreRegistered(id), 'r') else []
  }

  function AddedByAttest(w: World, command: string, env: Env): seq<Entry> {
    if PastPreRegister(w, command, env) && Missing(w, command, 'R')
    then Traces(env.attest, Attested('R', IdOf(env.attest)), 'R') else []
  }

  function AddedByCheck(w: World, command: string, env: Env): seq<Entry> {
    if PastAttest(w, command, env) && Missing(w, command, 'a') && env.policyConsistent
    then Traces(env.check, CheckRequested(CheckedId(w, command, env), IdOf(env.check)), 'a') else []
  }

  function AddedByPromote(w: World, command: string, cliId: Hash, env: Env): seq<Entry> {
    if PastCheck(w, command, env) && 'p' in command && env.proofAvailable && !env.promote.Dropped?
    then [Promoted(PromotedId(w, command, cliId, env))] else []
  }

  function Added(w: World, command: string, cliId: Hash, env: Env): seq<Entry> {
    AddedByPreRegister(w, command, env) + AddedByAttest(w, command, env)
    + AddedByCheck(w, command, env) + AddedByPromote(w, command, cliId, env)
  }

  // ---- What it leaves in the file -----------------------------------------------------------------

  predicate SavesPreRegister(w: World, command: string, env: Env) {
    Starts(w, env) && Missing(w, command, 'r') && env.preRegister.Landed?
  }

  predicate SavesAttest(w: World, command: string, env: Env) {
    PastPreRegister(w, command, env) && Missing(w, command, 'R') && env.attest.Landed?
  }

  predicate SavesCheck(w: World, command: string, env: Env) {
    PastAttest(w, command, env) && Missing(w, command, 'a') && env.policyConsistent && env.check.Landed?
  }

  function Saves(w: World, command: string, env: Env): RegState {
    RegState(
      Before(w).completed
      + (if SavesPreRegister(w, command, env) then "r" else "")
      + (if SavesAttest(w, command, env) then "R" else "")
      + (if SavesCheck(w, command, env) then "a" else ""),
      if SavesAttest(w, command, env) then env.attest.id
      else if SavesPreRegister(w, command, env) then env.preRegister.id else Before(w).attestId,
      if SavesCheck(w, command, env) then env.check.id else Before(w).instructionId)
  }

  /** The file as the steps leave it: rewritten by each save, untouched if there is none. */
  function FileLeft(w: World, command: string, env: Env): Option<RegState> {
    if SavesPreRegister(w, command, env) || SavesAttest(w, command, env) || SavesCheck(w, command, env)
    then Some(Saves(w, command, env)) else w.file
  }

  lemma AfterPreRegister(w: World, command: string, env: Env) returns (l: Local)
    ensures l == StepPreRegister(Load(w, env), command, env)
    ensures l.world.trace == w.trace + AddedByPreRegister(w, command, env)
    ensures l.alive <==> PastPreRegister(w, command, env)
    ensures l.world.file == if SavesPreRegister(w, command, env) then Some(l.state) else w.file
    ensures l.state == if SavesPreRegister(w, command, env)
                       then Before(w).(completed := Before(w).completed + "r", attestId := env.preRegister.id)
                       else Before(w)
    ensures l.alive ==> l.attestId == if 'r' in command then l.state.attestId else 0
    ensures l.instructionId == 0
  {
    l := StepPreRegister(Load(w, env), command, env);
    if env.preRegister.Landed? {
      var e := PreRegisterEntry(env, env.preRegister.id);
      assert w.trace + [e] + [Saved('r')] == w.trace + [e, Saved('r')];
    }
  }

  lemma AfterAttest(w: World, command: string, env: Env) returns (l: Local)
    ensures l == StepAttest(StepPreRegister(Load(w, env), command, env), command, env)
    ensures l.world.trace == w.trace + AddedByPreRegister(w, command, env) + AddedByAttest(w, command, env)
    ensures l.alive <==> PastAttest(w, command, env)
    ensures var saved := SavesPreRegister(w, command, env) || SavesAttest(w, command, env);
            l.world.file == if saved then Some(l.state) else w.file
    ensures l.state.completed == Before(w).completed + (if SavesPreRegister(w, command, env) then "r" else "")
                                 + (if SavesAttest(w, command, env) then "R" else "")
    ensures l.state.attestId == if SavesAttest(w, command, env) then env.attest.id
                                else if SavesPreRegister(w, command, env) then env.preRegister.id
                                else Before(w).attestId
    ensures l.state.instructionId == Before(w).instructionId && l.instructionId == 0
    ensures l.alive ==> l.attestId == CheckedId(w, command, env)
  {
    var l1 := AfterPreRegister(w, command, env);
    l := StepAttest(l1, command, env);
    if env.attest.Landed? {
      var e := Attested('R', env.attest.id);
      assert l1.world.trace + [e] + [Saved('R')] == l1.world.trace + [e, Saved('R')];
    }
  }

  lemma AfterCheck(w: World, command: string, cliId: Hash, env: Env) returns (l: Local)
    ensures l == StepCheck(StepAttest(StepPreRegister(Load(w, env), command, env), command, env), command, cliId, env)
    ensures l.world.trace == w.trace + AddedByPreRegister(w, command, env) + AddedByAttest(w, command, env)
                             + AddedByCheck(w, command, env)
    ensures l.alive <==> PastCheck(w, command, env)
    ensures l.world.file == FileLeft(w, command, env)
    ensures l.alive ==> l.instructionId == PromotedId(w, command, cliId, env)
  {
    var l1 := AfterAttest(w, command, env);
    l := StepCheck(l1, command, cliId, env);
    if env.check.Landed? {
      var e := CheckRequested(l1.attestId, env.check.id);
      assert l1.world.trace + [e] + [Saved('a')] == l1.world.trace + [e, Saved('a')];
    }
    assert l1.state.completed + "" == l1.state.completed;
    assert l1.world.file == Some(l1.state) && !SavesCheck(w, command, env) ==> l1.state == Saves(w, command, env);
    assert SavesCheck(w, command, env) ==> l.state == Saves(w, command, env);
  }

  lemma AfterPromote(l: Local, command: string, env: Env)
    ensures var past := l.alive && ('p' in command ==> env.proofAvailable && env.promote.Landed?);
            var promotes := l.alive && 'p' in command && env.proofAvailable && !env.promote.Dropped?;
            && StepPromote(l, command, env).alive == past
            && StepPromote(l, command, env).world
               == l.world.(trace := l.world.trace + if promotes then [Promoted(l.instructionId)] else [])
  {
  }

  /**
   One attempt, from any world and under any command: it returns without an error exactly when every guard on its way
   held and it lived on to remove the file, and adds and saves exactly what the guards let through.
   */
  lemma AttemptLaw(w: World, command: string, cliId: Hash, env: Env)
    ensures var (w', ok) := Attempt(w, command, cliId, env);
            && (ok <==> PastPromote(w, command, env) && !env.ending.DiedBeforeRemove?)
            && w'.trace == w.trace + Added(w, command, cliId, env)
            && w'.file == (if ok && env.ending.Removed? then None else FileLeft(w, command, env))
  {
    var l := AfterCheck(w, command, cliId, env);
    AfterPromote(l, command, env);
    Regroup(w.trace, AddedByPreRegister(w, command, env), AddedByAttest(w, command, env),
            AddedByCheck(w, command, env), AddedByPromote(w, command, cliId, env));
  }

  lemma Regroup(t: seq<Entry>, a: seq<Entry>, b: seq<Entry>, c: seq<Entry>, d: seq<Entry>)
    ensures t + a + b + c + d == t + (a + b + c + d)
  {
  }

  /** The guards in front of an effect, and the ids it carries. */
  predicate Allowed(w: World, command: string, cliId: Hash, env: Env, e: Entry) {
    match e
    case PreRegistered(id) =>
      && Starts(w, env) && Missing(w, command, 'r') && !env.machineKnown
      && env.preRegister != Dropped && id == env.preRegister.id
    case Attested(step, id) =>
      if step == 'r' then && Starts(w, env) && Missing(w, command, 'r') && env.machineKnown
                          && env.preRegister != Dropped && id == env.preRegister.id
      else && PastPreRegister(w, command, env) && Missing(w, command, 'R') && step == 'R'
           && env.attest != Dropped && id == env.attest.id
    case CheckRequested(attestId, id) =>
      && PastAttest(w, command, env) && Missing(w, command, 'a') && env.policyConsistent
      && env.check != Dropped && id == env.check.id && attestId == CheckedId(w, command, env)
    case Promoted(id) =>
      && PastCheck(w, command, env) && 'p' in command && env.proofAvailable
      && env.promote != Dropped && id == PromotedId(w, command, cliId, env)
    case Saved(step) =>
      || (step == 'r' && SavesPreRegister(w, command, env))
      || (step == 'R' && SavesAttest(w, command, env))
      || (step == 'a' && SavesCheck(w, command, env))
  }

  lemma InTraces(call: Call, e: Entry, step: char, x: Entry)
    ensures x in Traces(call, e, step) <==>
            (call != Dropped && x == e) || (call.Landed? && x == Saved(step))
  {
  }

  lemma InAdded(w: World, command: string, cliId: Hash, env: Env, e: Entry)
    ensures e in Added(w, command, cliId, env) <==> Allowed(w, command, cliId, env, e)
  {
    var id := IdOf(env.preRegister);
    InTraces(env.preRegister, if env.machineKnown then Attested('r', id) else PreRegistered(id), 'r', e);
    InTraces(env.attest, Attested('R', IdOf(env.attest)), 'R', e);
    InTraces(env.check, CheckRequested(CheckedId(w, command, env), IdOf(env.check)), 'a', e);
  }

  /** An attempt adds an entry, with exactly these ids, if and only if the guards in front of it hold. */
  lemma EffectNeedsGuards(w: World, command: string, cliId: Hash, env: Env, e: Entry)
    ensures w.trace <= Attempt(w, command, cliId, env).0.trace
    ensures e in Attempt(w, command, cliId, env).0.trace[|w.trace|..] <==> Allowed(w, command, cliId, env, e)
  {
    AttemptLaw(w, command, cliId, env);
    InAdded(w, command, cliId, env, e);
    assert (w.trace + Added(w, command, cliId, env))[|w.trace|..] == Added(w, command, cliId, env);
  }

  /** In particular: without a proof nothing is promoted, and the attempt fails if it was to promote. */
  lemma NoProofNoPromotion(w: World, command: string, cliId: Hash, env: Env)
    requires !env.proofAvailable
    ensures w.trace <= Attempt(w, command, cliId, env).0.trace
    ensures forall id :: Promoted(id) !in Attempt(w, command, cliId, env).0.trace[|w.trace|..]
    ensures 'p' in command ==> !Attempt(w, command, cliId, env).1
  {
    AttemptLaw(w, command, cliId, env);
    forall id ensures Promoted(id) !in Attempt(w, command, cliId, env).0.trace[|w.trace|..] {
      EffectNeedsGuards(w, command, cliId, env, Promoted(id));
    }
  }

  // ---- Over any history ---------------------------------------------------------------------------

  function Count<T>(s: seq<T>, p: T -> bool): nat {
    if s == [] then 0 else (if p(s[0]) then 1 else 0) + Count(s[1..], p)
  }

  lemma {:induction false} CountAppend<T>(s: seq<T>, t: seq<T>, p: T -> bool)
    ensures Count(s + t, p) == Count(s, p) + Count(t, p)
  {
    if s == [] {
      assert s + t == t;
    } else {
      assert (s + t)[1..] == s[1..] + t;
      CountAppend(s[1..], t, p);
    }
  }

  lemma CountOne<T>(x: T, p: T -> bool)
    ensures Count([x], p) == if p(x) then 1 else 0
  {
    assert [x][1..] == [];
  }

  predicate IsRegistration(e: Entry) { e.PreRegistered? }
  predicate IsReAttestation(e: Entry) { e.Attested? && e.step == 'r' }
  predicate IsAttestation(e: Entry) { e.Attested? && e.step == 'R' }
  predicate IsCheck(e: Entry) { e.CheckRequested? }
  predicate IsPromotion(e: Entry) { e.Promoted? }

  /** The turn asks for the step, its guard holds and the call reaches the chain. */
  predicate MayRegister(t: Turn) {
    'r' in t.command && !t.session.env.machineKnown && t.session.env.preRegister != Dropped
  }
  predicate MayReAttest(t: Turn) {
    'r' in t.command && t.session.env.machineKnown && t.session.env.preRegister != Dropped
  }
  predicate MayAttest(t: Turn) { 'R' in t.command && t.session.env.attest != Dropped }
  predicate MayCheck(t: Turn) {
    'a' in t.command && t.session.env.policyConsistent && t.session.env.check != Dropped
  }
  predicate MayPromote(t: Turn) {
    'p' in t.command && t.session.env.proofAvailable && t.session.env.promote != Dropped
  }

  lemma CountTraces(call: Call, e: Entry, step: char, p: Entry -> bool)
    requires !p(Saved(step))
    ensures Count(Traces(call, e, step), p) == if call != Dropped && p(e) then 1 else 0
  {
    CountOne(e, p);
    CountOne(Saved(step), p);
    CountAppend([e], [Saved(step)], p);
    assert [e] + [Saved(step)] == [e, Saved(step)];
  }

  /** At most one entry of the kind is added, and none unless the turn may. */
  lemma AddedAtMostOnce(w: World, t: Turn, isKind: Entry -> bool, may: bool)
    requires forall c :: !isKind(Saved(c))
    requires || (isKind == IsRegistration && may == MayRegister(t))
             || (isKind == IsReAttestation && may == MayReAttest(t))
             || (isKind == IsAttestation && may == MayAttest(t))
             || (isKind == IsCheck && may == MayCheck(t))
             || (isKind == IsPromotion && may == MayPromote(t))
    ensures Count(Added(w, t.command, t.cliId, t.session.env), isKind) <= if may then 1 else 0
  {
    var env := t.session.env;
    var a, b := AddedByPreRegister(w, t.command, env), AddedByAttest(w, t.command, env);
    var c, d := AddedByCheck(w, t.command, env), AddedByPromote(w, t.command, t.cliId, env);
    CountAppend(a + b + c, d, isKind);
    CountAppend(a + b, c, isKind);
    CountAppend(a, b, isKind);
    var id := IdOf(env.preRegister);
    CountTraces(env.preRegister, if env.machineKnown then Attested('r', id) else PreRegistered(id), 'r', isKind);
    CountTraces(env.attest, Attested('R', IdOf(env.attest)), 'R', isKind);
    CountTraces(env.check, CheckRequested(CheckedId(w, t.command, env), IdOf(env.check)), 'a', isKind);
    CountOne(Promoted(PromotedId(w, t.command, t.cliId, env)), isKind);
  }

  /** The trace of the history has at most k entries of the kind more than the one it started from. */
  ghost predicate NoMore(w: World, ts: seq<Turn>, isKind: Entry -> bool, may: Turn -> bool) {
    Count(Turns(w, ts).trace, isKind) <= Count(w.trace, isKind) + Count(ts, may)
  }

  lemma TurnNeedsGuard(w: World, t: Turn, isKind: Entry -> bool, may: Turn -> bool)
    requires forall c :: !isKind(Saved(c))
    requires || (isKind == IsRegistration && may == MayRegister)
             || (isKind == IsReAttestation && may == MayReAttest)
             || (isKind == IsAttestation && may == MayAttest)
             || (isKind == IsCheck && may == MayCheck)
             || (isKind == IsPromotion && may == MayPromote)
    ensures Count(TakeTurn(w, t).trace, isKind) <= Count(w.trace, isKind) + if may(t) then 1 else 0
  {
    var w0 := StartOf(w, t);
    AttemptLaw(w0, t.command, t.cliId, t.session.env);
    AddedAtMostOnce(w0, t, isKind, may(t));
    CountAppend(w.trace, Added(w0, t.command, t.cliId, t.session.env), isKind);
  }

  lemma {:induction false} KindNeedsGuard(w: World, ts: seq<Turn>, isKind: Entry -> bool, may: Turn -> bool)
    requires forall c :: !isKind(Saved(c))
    requires || (isKind == IsRegistration && may == MayRegister)
             || (isKind == IsReAttestation && may == MayReAttest)
             || (isKind == IsAttestation && may == MayAttest)
             || (isKind == IsCheck && may == MayCheck)
             || (isKind == IsPromotion && may == MayPromote)
    ensures NoMore(w, ts, isKind, may)
    decreases |ts|
  {
    if ts == [] {
    } else {
      TurnNeedsGuard(w, ts[0], isKind, may);
      KindNeedsGuard(TakeTurn(w, ts[0]), ts[1..], isKind, may);
    }
  }

  /**
   Over any invocations, whatever their commands: no more registrations than turns that found the machine unknown, no
   more attestations in step r than turns that found it known, no more checks than turns with a consistent policy, and
   no more promotions than turns that had a proof.
   */
  lemma TurnsNeedGuards(w: World, ts: seq<Turn>)
    ensures NoMore(w, ts, IsRegistration, MayRegister) && NoMore(w, ts, IsReAttestation, MayReAttest)
    ensures NoMore(w, ts, IsAttestation, MayAttest)
    ensures NoMore(w, ts, IsCheck, MayCheck) && NoMore(w, ts, IsPromotion, MayPromote)
  {
    KindNeedsGuard(w, ts, IsRegistration, MayRegister);
    KindNeedsGuard(w, ts, IsReAttestation, MayReAttest);
    KindNeedsGuard(w, ts, IsAttestation, MayAttest);
    KindNeedsGuard(w, ts, IsCheck, MayCheck);
    KindNeedsGuard(w, ts, IsPromotion, MayPromote);
  }

  /** Invocations with one command are turns that all have it. */
  function TurnsOf(command: string, cliId: Hash, ss: seq<Session>): seq<Turn> {
    if ss == [] then [] else [Turn(command, cliId, ss[0])] + TurnsOf(command, cliId, ss[1..])
  }

  lemma {:induction false} InvocationsAreTurns(w: World, command: string, cliId: Hash, ss: seq<Session>)
    ensures Invocations(w, command, cliId, ss) == Turns(w, TurnsOf(command, cliId, ss))
    decreases |ss|
  {
    if ss == [] {
    } else {
      var ts := TurnsOf(command, cliId, ss);
      assert ts[0] == Turn(command, cliId, ss[0]) && ts[1..] == TurnsOf(command, cliId, ss[1..]);
      InvocationsAreTurns(Invoke(w, command, cliId, ss[0]), command, cliId, ss[1..]);
    }
  }

  lemma {:induction false} CountTurns(command: string, cliId: Hash, ss: seq<Session>, p: Turn -> bool,
                                      q: Session -> bool)
    requires forall s :: p(Turn(command, cliId, s)) ==> q(s)
    ensures Count(TurnsOf(command, cliId, ss), p) <= Count(ss, q)
  {
    if ss == [] {
    } else {
      var ts := TurnsOf(command, cliId, ss);
      assert ts[0] == Turn(command, cliId, ss[0]) && ts[1..] == TurnsOf(command, cliId, ss[1..]);
      CountTurns(command, cliId, ss[1..], p, q);
    }
  }

  predicate HasProof(s: Session) { s.env.proofAvailable }
  predicate PolicyHolds(s: Session) { s.env.policyConsistent }
  predicate MachineUnknown(s: Session) { !s.env.machineKnown }
  predicate MachineKnown(s: Session) { s.env.machineKnown }

  /** The same for invocations with one command, from no file and an empty history. */
  lemma InvocationsNeedGuards(command: string, cliId: Hash, ss: seq<Session>)
    ensures var t := Invocations(World(None, []), command, cliId, ss).trace;
            && Count(t, IsPromotion) <= Count(ss, HasProof)
            && Count(t, IsCheck) <= Count(ss, PolicyHolds)
            && Count(t, IsRegistration) <= Count(ss, MachineUnknown)
            && Count(t, IsReAttestation) <= Count(ss, MachineKnown)
  {
    var ts := TurnsOf(command, cliId, ss);
    InvocationsAreTurns(World(None, []), command, cliId, ss);
    TurnsNeedGuards(World(None, []), ts);
    CountTurns(command, cliId, ss, MayPromote, HasProof);
    CountTurns(command, cliId, ss, MayCheck, PolicyHolds);
    CountTurns(command, cliId, ss, MayRegister, MachineUnknown);
    CountTurns(command, cliId, ss, MayReAttest, MachineKnown);
  }
}
