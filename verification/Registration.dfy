/**
 Resumable TEE registration: steps r (pre-register), R (request attestation), a (availability check) and
 p (promote), a state file written after r, R and a, and an attempt that may fail or die anywhere and be
 started again. On-chain effects and successful saves are recorded in one trace.
 */
module Registration {
  import opened Wrappers

  type Hash = nat   // common.Hash; the zero value is 0

  datatype RegState = RegState(completed: string, attestId: Hash, instructionId: Hash)

  const EMPTY_STATE := RegState("", 0, 0)

  datatype Entry =
    | PreRegistered(id: Hash)                  // register() went through; it also requested an attestation
    | Attested(step: char, id: Hash)           // requestTeeAttestation() went through, in step r or R
    | CheckRequested(attestId: Hash, id: Hash) // requestAvailabilityCheckAttestation() went through
    | Promoted(instructionId: Hash)            // toProduction() went through
    | Saved(step: char)                        // the state file now lists the step

  /** What exists outside the process: the state file and the history of effects and saves. */
  datatype World = World(file: Option<RegState>, trace: seq<Entry>)

  /**
   One call that changes the chain. `Lost`: the effect took place, but the caller saw an error, or died, before
   the save. `Landed`: the call returned its id and the step was saved.
   */
  datatype Call = Dropped | Lost(id: Hash) | Landed(id: Hash)

  datatype Ending = Removed | RemoveFailed | DiedBeforeRemove

  /** Everything an attempt learns from outside; dying between two calls is `Dropped` for the second. */
  datatype Env = Env(
    teeInfoOk: bool, fileReadable: bool,
    machineKnown: bool, preRegister: Call,
    attest: Call,
    policyConsistent: bool, check: Call,
    proofAvailable: bool, promote: Call,
    ending: Ending
  )

  // ---- One attempt, step by step ------------------------------------------------------------------

  /** The process's own memory during an attempt. */
  datatype Local = Local(world: World, state: RegState, attestId: Hash, instructionId: Hash, alive: bool)

  function Record(l: Local, e: Entry): Local {
    l.(world := l.world.(trace := l.world.trace + [e]))
  }

  function Save(l: Local, step: char, st: RegState): Local {
    l.(state := st, world := World(Some(st), l.world.trace + [Saved(step)]))
  }

  function Load(w: World, env: Env): Local {
    var state := if w.file.Some? then w.file.value else EMPTY_STATE;
    Local(w, state, 0, 0, env.teeInfoOk && (w.file.Some? ==> env.fileReadable))
  }

  function PreRegisterEntry(env: Env, id: Hash): Entry {
    if env.machineKnown then Attested('r', id) else PreRegistered(id)
  }

  function StepPreRegister(l: Local, command: string, env: Env): Local {
    if !l.alive || 'r' !in command then l
    else if 'r' in l.state.completed then l.(attestId := l.state.attestId)
    else
      match env.preRegister
      case Dropped => l.(alive := false)
      case Lost(id) => Record(l, PreRegisterEntry(env, id)).(alive := false)
      case Landed(id) =>
        Save(Record(l, PreRegisterEntry(env, id)), 'r',
             l.state.(completed := l.state.completed + ['r'], attestId := id)).(attestId := id)
  }

  function StepAttest(l: Local, command: string, env: Env): Local {
    if !l.alive || 'R' !in command then l
    else if 'R' in l.state.completed then l.(attestId := l.state.attestId)
    else
      match env.attest
      case Dropped => l.(alive := false)
      case Lost(id) => Record(l, Attested('R', id)).(alive := false)
      case Landed(id) =>
        Save(Record(l, Attested('R', id)), 'R',
             l.state.(completed := l.state.completed + ['R'], attestId := id)).(attestId := id)
  }

  function StepCheck(l: Local, command: string, cliId: Hash, env: Env): Local {
    if !l.alive then l
    else if 'a' !in command then l.(instructionId := cliId)
    else if 'a' in l.state.completed then l.(instructionId := l.state.instructionId)
    else if !env.policyConsistent then l.(alive := false)
    else
      match env.check
      case Dropped => l.(alive := false)
      case Lost(id) => Record(l, CheckRequested(l.attestId, id)).(alive := false)
      case Landed(id) =>
        Save(Record(l, CheckRequested(l.attestId, id)), 'a',
             l.state.(completed := l.state.completed + ['a'], instructionId := id)).(instructionId := id)
  }

  function StepPromote(l: Local, command: string, env: Env): Local {
    if !l.alive || 'p' !in command then l
    else if !env.proofAvailable then l.(alive := false)
    else
      match env.promote
      case Dropped => l.(alive := false)
      case Lost(_) => Record(l, Promoted(l.instructionId)).(alive := false)
      case Landed(_) => Record(l, Promoted(l.instructionId))
  }

  /** The world after the attempt, and whether RegisterNode returned without an error. */
  function Attempt(w: World, command: string, cliId: Hash, env: Env): (World, bool) {
    var l := StepPromote(StepCheck(StepAttest(StepPreRegister(Load(w, env), command, env), command, env),
                                   command, cliId, env), command, env);
    if !l.alive then (l.world, false)
    else
      match env.ending
      case Removed => (l.world.(file := None), true)
      case RemoveFailed => (l.world, true)
      case DiedBeforeRemove => (l.world, false)
  }

  // ---- The source's own form ----------------------------------------------------------------------

  class Registrar {
    var file: Option<RegState>
    var trace: seq<Entry>

    ghost function State(): World
      reads this
    {
      World(file, trace)
    }

    constructor ()
      ensures State() == World(None, [])
    {
      file, trace := None, [];
    }

    method SaveState(step: char, state: RegState)
      modifies this
      ensures file == Some(state) && trace == old(trace) + [Saved(step)]
    {
      file, trace := Some(state), trace + [Saved(step)];
    }

    method PreRegister(command: string, env: Env, state: RegState, attestId: Hash)
      returns (state': RegState, attestId': Hash, ok: bool)
      modifies this
      ensures Local(State(), state', attestId', 0, ok)
              == StepPreRegister(Local(old(State()), state, attestId, 0, true), command, env)
    {
      state', attestId' := state, attestId;
      if 'r' !in command { return state, attestId, true; }
      if 'r' in state.completed { return state, state.attestId, true; }
      match env.preRegister {
        case Dropped => return state, attestId, false;
        case Lost(id) => trace := trace + [PreRegisterEntry(env, id)]; return state, attestId, false;
        case Landed(id) => trace := trace + [PreRegisterEntry(env, id)]; attestId' := id;
      }
      state' := state.(completed := state.completed + ['r'], attestId := attestId');
      SaveState('r', state');
      ok := true;
    }

    method RequestAttestation(command: string, env: Env, state: RegState, attestId: Hash)
      returns (state': RegState, attestId': Hash, ok: bool)
      modifies this
      ensures Local(State(), state', attestId', 0, ok)
              == StepAttest(Local(old(State()), state, attestId, 0, true), command, env)
    {
      state', attestId' := state, attestId;
      if 'R' !in command { return state, attestId, true; }
      if 'R' in state.completed { return state, state.attestId, true; }
      match env.attest {
        case Dropped => return state, attestId, false;
        case Lost(id) => trace := trace + [Attested('R', id)]; return state, attestId, false;
        case Landed(id) => trace := trace + [Attested('R', id)]; attestId' := id;
      }
      state' := state.(completed := state.completed + ['R'], attestId := attestId');
      SaveState('R', state');
      ok := true;
    }

    method RequestCheck(command: string, cliId: Hash, env: Env, state: RegState, attestId: Hash)
      returns (state': RegState, instructionId: Hash, ok: bool)
      modifies this
      ensures Local(State(), state', attestId, instructionId, ok)
              == StepCheck(Local(old(State()), state, attestId, 0, true), command, cliId, env)
    {
      state', instructionId := state, 0;
      if 'a' !in command { return state, cliId, true; }
      if 'a' in state.completed { return state, state.instructionId, true; }
      if !env.policyConsistent { return state, 0, false; }
      match env.check {
        case Dropped => return state, 0, false;
        case Lost(id) => trace := trace + [CheckRequested(attestId, id)]; return state, 0, false;
        case Landed(id) => trace := trace + [CheckRequested(attestId, id)]; instructionId := id;
      }
      state' := state.(completed := state.completed + ['a'], instructionId := instructionId);
      SaveState('a', state');
      ok := true;
    }

    method Promote(command: string, env: Env, instructionId: Hash) returns (ok: bool)
      modifies this
      ensures forall st, attestId ::
                Local(State(), st, attestId, instructionId, ok)
                == StepPromote(Local(old(State()), st, attestId, instructionId, true), command, env)
    {
      if 'p' !in command { return true; }
      if !env.proofAvailable || env.promote.Dropped? { return false; }
      trace := trace + [Promoted(instructionId)];
      return env.promote.Landed?;
    }

    method RegisterNode(command: string, cliId: Hash, env: Env) returns (ok: bool)
      modifies this
      ensures (State(), ok) == Attempt(old(State()), command, cliId, env)
    {
      if !env.teeInfoOk || (file.Some? && !env.fileReadable) { return false; }
      var state := if file.Some? then file.value else EMPTY_STATE;
      var attestId: Hash := 0;
      state, attestId, ok := PreRegister(command, env, state, attestId);
      if !ok { return; }
      state, attestId, ok := RequestAttestation(command, env, state, attestId);
      if !ok { return; }
      var instructionId: Hash;
      state, instructionId, ok := RequestCheck(command, cliId, env, state, attestId);
      if !ok { return; }
      ok := Promote(command, env, instructionId);
      if !ok { return; }
      if env.ending.DiedBeforeRemove? { return false; }
      if env.ending.Removed? { file := None; }
    }
  }

  // ---- Histories ----------------------------------------------------------------------------------

  /** Attempts with --resume, one after the other, until one of them completes. */
  function Campaign(w: World, command: string, cliId: Hash, envs: seq<Env>): World
    decreases |envs|
  {
    if envs == [] then w
    else
      var (w', ok) := Attempt(w, command, cliId, envs[0]);
      if ok then w' else Campaign(w', command, cliId, envs[1..])
  }

  /** Some attempt of the campaign returns without an error. */
  predicate Completes(w: World, command: string, cliId: Hash, envs: seq<Env>)
    decreases |envs|
  {
    && envs != []
    && (Attempt(w, command, cliId, envs[0]).1
        || Completes(Attempt(w, command, cliId, envs[0]).0, command, cliId, envs[1..]))
  }

  /** An invocation of the tool: without --resume the state file is deleted first, if it can be. */
  datatype Session = Session(resume: bool, deletable: bool, env: Env)

  function Invoke(w: World, command: string, cliId: Hash, s: Session): World {
    Attempt(if !s.resume && s.deletable then w.(file := None) else w, command, cliId, s.env).0
  }

  function Invocations(w: World, command: string, cliId: Hash, ss: seq<Session>): World
    decreases |ss|
  {
    if ss == [] then w else Invocations(Invoke(w, command, cliId, ss[0]), command, cliId, ss[1..])
  }

  // ---- Vocabulary ---------------------------------------------------------------------------------

  function Part(command: string, step: char): string { if step in command then [step] else [] }

  /** The saved steps the command asks for, among the first k of r, R, a. */
  function Through(command: string, k: nat): string {
    (if k >= 1 then Part(command, 'r') else []) +
    (if k >= 2 then Part(command, 'R') else []) +
    (if k >= 3 then Part(command, 'a') else [])
  }

  function Wanted(command: string): string { Through(command, 3) }

  function Durable(w: World): string { if w.file.Some? then w.file.value.completed else "" }

  function StepOf(e: Entry): char {
    match e
    case PreRegistered(_) => 'r'
    case Attested(step, _) => step
    case CheckRequested(_, _) => 'a'
    case Promoted(_) => 'p'
    case Saved(step) => step
  }

  function Rank(step: char): nat {
    if step == 'r' then 0 else if step == 'R' then 1 else if step == 'a' then 2 else 3
  }

  predicate IsEffect(e: Entry) { !e.Saved? }

  ghost predicate HasEffect(t: seq<Entry>, step: char) {
    exists i :: 0 <= i < |t| && IsEffect(t[i]) && StepOf(t[i]) == step
  }

  ghost predicate Ordered(t: seq<Entry>) {
    forall i, j :: 0 <= i < j < |t| && IsEffect(t[i]) && IsEffect(t[j]) ==> Rank(StepOf(t[i])) <= Rank(StepOf(t[j]))
  }

  /** No effect of a step follows a successful save of that step. */
  ghost predicate NoneRepeated(t: seq<Entry>) {
    forall i, j :: 0 <= i < j < |t| && t[i].Saved? && IsEffect(t[j]) ==> StepOf(t[j]) != t[i].step
  }

  ghost predicate PromotedAfterAll(command: string, t: seq<Entry>) {
    forall j :: 0 <= j < |t| && t[j].Promoted? ==> forall c :: c in Wanted(command) ==> HasEffect(t[..j], c)
  }

  // ---- Safety over crash and resume histories -----------------------------------------------------

  /** The step the next effect belongs to. */
  function NextStep(command: string, done: string): char {
    if |done| < |Wanted(command)| then Wanted(command)[|done|] else 'p'
  }

  ghost predicate SafeTrace(command: string, t: seq<Entry>) {
    Ordered(t) && NoneRepeated(t) && PromotedAfterAll(command, t)
  }

  ghost predicate Safe(command: string, w: World) {
    var done := Durable(w);
    && done <= Wanted(command)
    && SafeTrace(command, w.trace)
    && (forall c :: Saved(c) in w.trace <==> c in done)
    && (forall c :: c in done ==> HasEffect(w.trace, c))
    && (forall i :: 0 <= i < |w.trace| && IsEffect(w.trace[i]) ==>
          StepOf(w.trace[i]) in done || StepOf(w.trace[i]) == NextStep(command, done))
  }

  lemma RanksGrow(command: string, done: string)
    requires done <= Wanted(command)
    ensures forall c :: c in done ==> Rank(c) < Rank(NextStep(command, done))
  {
  }

  lemma PastStep(command: string, done: string, k: nat)
    requires k < 3 && done <= Wanted(command) && "rRa"[k] in command && |done| > |Through(command, k)|
    ensures "rRa"[k] in done
  {
    assert done[|Through(command, k)|] == Wanted(command)[|Through(command, k)|];
  }

  /** When the steps before step number k are durable and this one is wanted but missing, it is the next. */
  lemma NextIs(command: string, done: string, k: nat)
    requires k < 3 && done <= Wanted(command) && Through(command, k) <= done
    requires "rRa"[k] in command && "rRa"[k] !in done
    ensures done == Through(command, k) && NextStep(command, done) == "rRa"[k]
    ensures done + ["rRa"[k]] == Through(command, k + 1) <= Wanted(command)
  {
    if |done| > |Through(command, k)| { PastStep(command, done, k); }
    assert k == 0 || k == 1 || k == 2;
  }

  lemma EffectsStay(t: seq<Entry>, e: Entry)
    ensures forall c :: HasEffect(t, c) ==> HasEffect(t + [e], c)
  {
    forall c | HasEffect(t, c) ensures HasEffect(t + [e], c) {
      var i :| 0 <= i < |t| && IsEffect(t[i]) && StepOf(t[i]) == c;
      assert (t + [e])[i] == t[i];
    }
  }

  lemma PromotionsStay(command: string, t: seq<Entry>, e: Entry)
    requires PromotedAfterAll(command, t)
    requires e.Promoted? ==> forall c :: c in Wanted(command) ==> HasEffect(t, c)
    ensures PromotedAfterAll(command, t + [e])
  {
    forall j | 0 <= j < |t + [e]| && (t + [e])[j].Promoted?
      ensures forall c :: c in Wanted(command) ==> HasEffect((t + [e])[..j], c)
    {
      if j < |t| { assert (t + [e])[..j] == t[..j]; } else { assert (t + [e])[..j] == t; }
    }
  }

  lemma AppendEffect(command: string, w: World, e: Entry)
    requires Safe(command, w) && IsEffect(e) && StepOf(e) == NextStep(command, Durable(w))
    requires e.Promoted? ==> Durable(w) == Wanted(command)
    ensures Safe(command, w.(trace := w.trace + [e]))
    ensures HasEffect(w.trace + [e], StepOf(e))
  {
    RanksGrow(command, Durable(w));
    var t := w.trace + [e];
    assert t[|w.trace|] == e;
    EffectsStay(w.trace, e);
    PromotionsStay(command, w.trace, e);
    forall i, j | 0 <= i < j < |t| && t[i].Saved? && IsEffect(t[j]) ensures StepOf(t[j]) != t[i].step {
      assert t[i] in w.trace;
    }
    forall c ensures Saved(c) in t <==> Saved(c) in w.trace {}
  }

  lemma SavedKeepsOrder(t: seq<Entry>, step: char)
    requires Ordered(t) && NoneRepeated(t)
    ensures Ordered(t + [Saved(step)]) && NoneRepeated(t + [Saved(step)])
  {
  }

  lemma AppendSaved(command: string, w: World, st: RegState, step: char)
    requires Safe(command, w) && step == NextStep(command, Durable(w)) && HasEffect(w.trace, step)
    requires st.completed == Durable(w) + [step] && st.completed <= Wanted(command)
    ensures Safe(command, World(Some(st), w.trace + [Saved(step)]))
  {
    RanksGrow(command, Durable(w));
    var t := w.trace + [Saved(step)];
    SavedKeepsOrder(w.trace, step);
    EffectsStay(w.trace, Saved(step));
    PromotionsStay(command, w.trace, Saved(step));
    forall c ensures Saved(c) in t <==> c in st.completed {
      assert Saved(c) in t <==> Saved(c) in w.trace || c == step;
    }
  }

  ghost predicate LocalSafe(command: string, l: Local, k: nat) {
    && Safe(command, l.world)
    && (l.alive ==> l.state.completed == Durable(l.world) && Through(command, k) <= Durable(l.world))
  }

  /** Carrying out step number k (0 for r, 1 for R, 2 for a) when it is missing. */
  lemma MissingStepSafe(command: string, l: Local, k: nat, e: Entry, st: RegState)
    requires k < 3 && LocalSafe(command, l, k) && l.alive
    requires "rRa"[k] in command && "rRa"[k] !in l.state.completed
    requires IsEffect(e) && !e.Promoted? && StepOf(e) == "rRa"[k] && st.completed == l.state.completed + ["rRa"[k]]
    ensures Safe(command, Record(l, e).world)
    ensures LocalSafe(command, Save(Record(l, e), "rRa"[k], st), k + 1)
  {
    NextIs(command, l.state.completed, k);
    AppendEffect(command, l.world, e);
    AppendSaved(command, Record(l, e).world, st, "rRa"[k]);
  }

  lemma SkippedStepSafe(command: string, done: string, k: nat)
    requires k < 3 && done <= Wanted(command) && Through(command, k) <= done
    requires "rRa"[k] in command ==> "rRa"[k] in done
    ensures Through(command, k + 1) <= done
  {
  }

  lemma AttemptSafe(w: World, command: string, cliId: Hash, env: Env)
    requires Safe(command, w)
    ensures SafeTrace(command, Attempt(w, command, cliId, env).0.trace)
    ensures Durable(Attempt(w, command, cliId, env).0) <= Wanted(command)
    ensures !Attempt(w, command, cliId, env).1 ==> Safe(command, Attempt(w, command, cliId, env).0)
  {
    var l0 := Load(w, env);
    assert LocalSafe(command, l0, 0);
    var l1 := StepPreRegister(l0, command, env);
    PreRegisterSafe(command, l0, env);
    AttestSafe(command, l1, env);
    var l2 := StepAttest(l1, command, env);
    CheckSafe(command, l2, cliId, env);
    var l3 := StepCheck(l2, command, cliId, env);
    PromoteSafe(command, l3, env);
  }

  lemma PreRegisterSafe(command: string, l: Local, env: Env)
    requires LocalSafe(command, l, 0)
    ensures LocalSafe(command, StepPreRegister(l, command, env), 1)
  {
    if l.alive {
      if 'r' in command && 'r' !in l.state.completed && !env.preRegister.Dropped? {
        var id := env.preRegister.id;
        MissingStepSafe(command, l, 0, PreRegisterEntry(env, id),
                        l.state.(completed := l.state.completed + ['r'], attestId := id));
      } else if !('r' in command && 'r' !in l.state.completed) {
        SkippedStepSafe(command, l.state.completed, 0);
      }
    }
  }

  lemma AttestSafe(command: string, l: Local, env: Env)
    requires LocalSafe(command, l, 1)
    ensures LocalSafe(command, StepAttest(l, command, env), 2)
  {
    if l.alive {
      if 'R' in command && 'R' !in l.state.completed && !env.attest.Dropped? {
        var id := env.attest.id;
        MissingStepSafe(command, l, 1, Attested('R', id),
                        l.state.(completed := l.state.completed + ['R'], attestId := id));
      } else if !('R' in command && 'R' !in l.state.completed) {
        SkippedStepSafe(command, l.state.completed, 1);
      }
    }
  }

  lemma CheckSafe(command: string, l: Local, cliId: Hash, env: Env)
    requires LocalSafe(command, l, 2)
    ensures LocalSafe(command, StepCheck(l, command, cliId, env), 3)
  {
    if l.alive {
      if 'a' in command && 'a' !in l.state.completed {
        if env.policyConsistent && !env.check.Dropped? {
          var id := env.check.id;
          MissingStepSafe(command, l, 2, CheckRequested(l.attestId, id),
                          l.state.(completed := l.state.completed + ['a'], instructionId := id));
        }
      } else {
        SkippedStepSafe(command, l.state.completed, 2);
      }
    }
  }

  lemma PromoteSafe(command: string, l: Local, env: Env)
    requires LocalSafe(command, l, 3)
    ensures LocalSafe(command, StepPromote(l, command, env), 3)
  {
    if l.alive {
      assert Durable(l.world) == Wanted(command);
      AppendEffect(command, l.world, Promoted(l.instructionId));
    }
  }

  lemma {:induction false} CampaignSafe(w: World, command: string, cliId: Hash, envs: seq<Env>)
    requires Safe(command, w)
    ensures SafeTrace(command, Campaign(w, command, cliId, envs).trace)
    ensures Durable(Campaign(w, command, cliId, envs)) <= Wanted(command)
    ensures !Completes(w, command, cliId, envs) ==> Safe(command, Campaign(w, command, cliId, envs))
    decreases |envs|
  {
    if envs == [] {
    } else {
      AttemptSafe(w, command, cliId, envs[0]);
      var (w', ok) := Attempt(w, command, cliId, envs[0]);
      if !ok { CampaignSafe(w', command, cliId, envs[1..]); }
    }
  }

  /** From no state file, over any failures and crashes each followed by a resume, up to completion. */
  lemma RegistrationSafe(command: string, cliId: Hash, envs: seq<Env>)
    ensures var w := Campaign(World(None, []), command, cliId, envs);
            && Durable(w) <= Wanted(command)
            && Ordered(w.trace) && NoneRepeated(w.trace) && PromotedAfterAll(command, w.trace)
    ensures Wanted("rRap") == "rRa"
  {
    assert Safe(command, World(None, []));
    CampaignSafe(World(None, []), command, cliId, envs);
  }

  /** The same world with an earlier history in front of its own. */
  function After(t0: seq<Entry>, w: World): World { w.(trace := t0 + w.trace) }

  function LocalAfter(t0: seq<Entry>, l: Local): Local { l.(world := After(t0, l.world)) }

  lemma RecordAfter(t0: seq<Entry>, l: Local, e: Entry)
    ensures Record(LocalAfter(t0, l), e) == LocalAfter(t0, Record(l, e))
  {
    assert t0 + l.world.trace + [e] == t0 + (l.world.trace + [e]);
  }

  lemma SaveAfter(t0: seq<Entry>, l: Local, step: char, st: RegState)
    ensures Save(LocalAfter(t0, l), step, st) == LocalAfter(t0, Save(l, step, st))
  {
    assert t0 + l.world.trace + [Saved(step)] == t0 + (l.world.trace + [Saved(step)]);
  }

  lemma PreRegisterAfter(t0: seq<Entry>, l: Local, command: string, env: Env)
    ensures StepPreRegister(LocalAfter(t0, l), command, env) == LocalAfter(t0, StepPreRegister(l, command, env))
  {
    if !env.preRegister.Dropped? {
      var id := env.preRegister.id;
      var e := PreRegisterEntry(env, id);
      RecordAfter(t0, l, e);
      SaveAfter(t0, Record(l, e), 'r', l.state.(completed := l.state.completed + ['r'], attestId := id));
    }
  }

  lemma AttestAfter(t0: seq<Entry>, l: Local, command: string, env: Env)
    ensures StepAttest(LocalAfter(t0, l), command, env) == LocalAfter(t0, StepAttest(l, command, env))
  {
    if !env.attest.Dropped? {
      var id := env.attest.id;
      RecordAfter(t0, l, Attested('R', id));
      SaveAfter(t0, Record(l, Attested('R', id)), 'R',
                l.state.(completed := l.state.completed + ['R'], attestId := id));
    }
  }

  lemma CheckAfter(t0: seq<Entry>, l: Local, command: string, cliId: Hash, env: Env)
    ensures StepCheck(LocalAfter(t0, l), command, cliId, env) == LocalAfter(t0, StepCheck(l, command, cliId, env))
  {
    if !env.check.Dropped? {
      var id := env.check.id;
      RecordAfter(t0, l, CheckRequested(l.attestId, id));
      SaveAfter(t0, Record(l, CheckRequested(l.attestId, id)), 'a',
                l.state.(completed := l.state.completed + ['a'], instructionId := id));
    }
  }

  lemma PromoteAfter(t0: seq<Entry>, l: Local, command: string, env: Env)
    ensures StepPromote(LocalAfter(t0, l), command, env) == LocalAfter(t0, StepPromote(l, command, env))
  {
    RecordAfter(t0, l, Promoted(l.instructionId));
  }

  /** An attempt looks at the state file only: what happened before leaves no other mark on it. */
  lemma AttemptAfter(t0: seq<Entry>, w: World, command: string, cliId: Hash, env: Env)
    ensures Attempt(After(t0, w), command, cliId, env).0 == After(t0, Attempt(w, command, cliId, env).0)
    ensures Attempt(After(t0, w), command, cliId, env).1 == Attempt(w, command, cliId, env).1
  {
    var l := Load(w, env);
    assert Load(After(t0, w), env) == LocalAfter(t0, l);
    PreRegisterAfter(t0, l, command, env);
    var l1 := StepPreRegister(l, command, env);
    AttestAfter(t0, l1, command, env);
    var l2 := StepAttest(l1, command, env);
    CheckAfter(t0, l2, command, cliId, env);
    PromoteAfter(t0, StepCheck(l2, command, cliId, env), command, env);
  }

  lemma {:induction false} CampaignAfter(t0: seq<Entry>, w: World, command: string, cliId: Hash, envs: seq<Env>)
    ensures Campaign(After(t0, w), command, cliId, envs) == After(t0, Campaign(w, command, cliId, envs))
    decreases |envs|
  {
    if envs == [] {
    } else {
      AttemptAfter(t0, w, command, cliId, envs[0]);
      CampaignAfter(t0, Attempt(w, command, cliId, envs[0]).0, command, cliId, envs[1..]);
    }
  }

  /** A fresh start after any history: what it and its resumes add to that history is safe by itself. */
  lemma FreshStartSafe(t0: seq<Entry>, command: string, cliId: Hash, envs: seq<Env>)
    ensures var w := Campaign(World(None, t0), command, cliId, envs);
            && Durable(w) <= Wanted(command)
            && t0 <= w.trace
            && SafeTrace(command, w.trace[|t0|..])
  {
    assert After(t0, World(None, [])) == World(None, t0);
    CampaignAfter(t0, World(None, []), command, cliId, envs);
    RegistrationSafe(command, cliId, envs);
    var t := Campaign(World(None, []), command, cliId, envs).trace;
    assert (t0 + t)[|t0|..] == t;
  }

  // ---- Freshness of the ids over any invocations --------------------------------------------------

  function LastAttest(t: seq<Entry>): Option<Hash> {
    if t == [] then None
    else
      match t[|t| - 1]
      case PreRegistered(id) => Some(id)
      case Attested(_, id) => Some(id)
      case _ => LastAttest(t[..|t| - 1])
  }

  function LastCheck(t: seq<Entry>): Option<Hash> {
    if t == [] then None
    else if t[|t| - 1].CheckRequested? then Some(t[|t| - 1].id)
    else LastCheck(t[..|t| - 1])
  }

  /** Every availability check names the most recent attestation. */
  ghost predicate FreshChecks(t: seq<Entry>) {
    forall j :: 0 <= j < |t| && t[j].CheckRequested? ==> LastAttest(t[..j]) == Some(t[j].attestId)
  }

  /** Every promotion names the most recent availability check, or the given id when no check is asked for. */
  ghost predicate FreshPromotions(command: string, cliId: Hash, t: seq<Entry>) {
    forall j :: 0 <= j < |t| && t[j].Promoted? ==>
      if 'a' in command then LastCheck(t[..j]) == Some(t[j].instructionId) else t[j].instructionId == cliId
  }

  predicate Attests(command: string) { 'r' in command || 'R' in command }

  ghost predicate Fresh(command: string, cliId: Hash, w: World) {
    var done := Durable(w);
    && done <= Wanted(command)
    && (Attests(command) ==> FreshChecks(w.trace))
    && FreshPromotions(command, cliId, w.trace)
    && (Attests(command) && Through(command, 2) <= done ==> LastAttest(w.trace) == Some(w.file.value.attestId))
    && ('a' in done ==> LastCheck(w.trace) == Some(w.file.value.instructionId))
  }

  ghost predicate LocalFresh(command: string, cliId: Hash, l: Local, k: nat) {
    && Fresh(command, cliId, l.world)
    && (l.alive ==>
          && l.state == (if l.world.file.Some? then l.world.file.value else EMPTY_STATE)
          && Through(command, k) <= Durable(l.world)
          && (k >= 1 && Attests(command) && Through(command, k) == Through(command, 2) ==>
                LastAttest(l.world.trace) == Some(l.attestId))
          && (k >= 3 ==> if 'a' in command then LastCheck(l.world.trace) == Some(l.instructionId)
                         else l.instructionId == cliId))
  }

  lemma FreshAppend(command: string, cliId: Hash, t: seq<Entry>, e: Entry)
    requires Attests(command) ==> FreshChecks(t)
    requires FreshPromotions(command, cliId, t)
    requires e.CheckRequested? && Attests(command) ==> LastAttest(t) == Some(e.attestId)
    requires e.Promoted? ==>
               if 'a' in command then LastCheck(t) == Some(e.instructionId) else e.instructionId == cliId
    ensures Attests(command) ==> FreshChecks(t + [e])
    ensures FreshPromotions(command, cliId, t + [e])
    ensures LastAttest(t + [e]) ==
            (match e case PreRegistered(id) => Some(id) case Attested(_, id) => Some(id) case _ => LastAttest(t))
    ensures LastCheck(t + [e]) == if e.CheckRequested? then Some(e.id) else LastCheck(t)
  {
    assert (t + [e])[..|t|] == t;
    forall j | 0 <= j < |t| ensures (t + [e])[..j] == t[..j] {}
  }

  /** A missing attestation's effect, and then its save, keep the ids fresh. */
  lemma MissingAttestationFresh(command: string, cliId: Hash, l: Local, k: nat, e: Entry, id: Hash)
    requires k < 2 && LocalFresh(command, cliId, l, k) && l.alive
    requires "rRa"[k] in command && "rRa"[k] !in l.state.completed
    requires e == PreRegistered(id) || exists step :: e == Attested(step, id)
    ensures Fresh(command, cliId, Record(l, e).world)
    ensures var st := l.state.(completed := l.state.completed + ["rRa"[k]], attestId := id);
            LocalFresh(command, cliId, Save(Record(l, e), "rRa"[k], st).(attestId := id), k + 1)
  {
    var t := l.world.trace;
    NextIs(command, l.state.completed, k);
    assert k == 0 || k == 1;
    FreshAppend(command, cliId, t, e);
    FreshAppend(command, cliId, t + [e], Saved("rRa"[k]));
  }

  lemma MissingCheckFresh(command: string, cliId: Hash, l: Local, id: Hash)
    requires LocalFresh(command, cliId, l, 2) && l.alive && 'a' in command && 'a' !in l.state.completed
    ensures var e := CheckRequested(l.attestId, id);
            && Fresh(command, cliId, Record(l, e).world)
            && var st := l.state.(completed := l.state.completed + ['a'], instructionId := id);
               LocalFresh(command, cliId, Save(Record(l, e), 'a', st).(instructionId := id), 3)
  {
    var t, e := l.world.trace, CheckRequested(l.attestId, id);
    NextIs(command, l.state.completed, 2);
    FreshAppend(command, cliId, t, e);
    FreshAppend(command, cliId, t + [e], Saved('a'));
  }

  lemma PreRegisterFresh(command: string, cliId: Hash, l: Local, env: Env)
    requires LocalFresh(command, cliId, l, 0)
    ensures LocalFresh(command, cliId, StepPreRegister(l, command, env), 1)
  {
    if l.alive {
      if 'r' in command && 'r' !in l.state.completed {
        if !env.preRegister.Dropped? {
          var id := env.preRegister.id;
          MissingAttestationFresh(command, cliId, l, 0, PreRegisterEntry(env, id), id);
        }
      } else {
        SkippedStepSafe(command, l.state.completed, 0);
      }
    }
  }

  /** A step that is durable hands on the saved id, and a step not asked for the id at hand. */
  lemma SkippedAttestFresh(command: string, cliId: Hash, l: Local)
    requires LocalFresh(command, cliId, l, 1) && l.alive
    ensures 'R' !in command ==> LocalFresh(command, cliId, l, 2)
    ensures 'R' in l.state.completed ==> LocalFresh(command, cliId, l.(attestId := l.state.attestId), 2)
  {
    if 'R' !in command {
      assert Through(command, 2) == Through(command, 1);
    } else if 'R' in l.state.completed {
      SkippedStepSafe(command, l.state.completed, 1);
    }
  }

  lemma MissingAttestFresh(command: string, cliId: Hash, l: Local, env: Env)
    requires LocalFresh(command, cliId, l, 1) && l.alive && 'R' in command && 'R' !in l.state.completed
    ensures LocalFresh(command, cliId, StepAttest(l, command, env), 2)
  {
    if !env.attest.Dropped? {
      MissingAttestationFresh(command, cliId, l, 1, Attested('R', env.attest.id), env.attest.id);
    }
  }

  lemma AttestFresh(command: string, cliId: Hash, l: Local, env: Env)
    requires LocalFresh(command, cliId, l, 1)
    ensures LocalFresh(command, cliId, StepAttest(l, command, env), 2)
  {
    if l.alive {
      if 'R' in command && 'R' !in l.state.completed {
        MissingAttestFresh(command, cliId, l, env);
      } else {
        SkippedAttestFresh(command, cliId, l);
      }
    }
  }

  lemma CheckFresh(command: string, cliId: Hash, l: Local, env: Env)
    requires LocalFresh(command, cliId, l, 2)
    ensures LocalFresh(command, cliId, StepCheck(l, command, cliId, env), 3)
  {
    if l.alive {
      if 'a' in command && 'a' !in l.state.completed {
        if env.policyConsistent && !env.check.Dropped? {
          var id := env.check.id;
          MissingCheckFresh(command, cliId, l, id);
        }
      } else {
        SkippedStepSafe(command, l.state.completed, 2);
      }
    }
  }

  lemma PromotionFresh(command: string, cliId: Hash, l: Local)
    requires LocalFresh(command, cliId, l, 3) && l.alive
    ensures Fresh(command, cliId, Record(l, Promoted(l.instructionId)).world)
  {
    FreshAppend(command, cliId, l.world.trace, Promoted(l.instructionId));
  }

  lemma PromoteFresh(command: string, cliId: Hash, l: Local, env: Env)
    requires LocalFresh(command, cliId, l, 3)
    ensures Fresh(command, cliId, StepPromote(l, command, env).world)
  {
    if l.alive { PromotionFresh(command, cliId, l); }
  }

  lemma RemovedFresh(command: string, cliId: Hash, w: World)
    requires Fresh(command, cliId, w)
    ensures Fresh(command, cliId, w.(file := None))
  {
  }

  lemma AttemptFresh(w: World, command: string, cliId: Hash, env: Env)
    requires Fresh(command, cliId, w)
    ensures Fresh(command, cliId, Attempt(w, command, cliId, env).0)
  {
    var l0 := Load(w, env);
    var l1 := StepPreRegister(l0, command, env);
    var l2 := StepAttest(l1, command, env);
    var l3 := StepCheck(l2, command, cliId, env);
    PreRegisterFresh(command, cliId, l0, env);
    AttestFresh(command, cliId, l1, env);
    CheckFresh(command, cliId, l2, env);
    PromoteFresh(command, cliId, l3, env);
    RemovedFresh(command, cliId, StepPromote(l3, command, env).world);
  }

  lemma {:induction false} InvocationsFresh(w: World, command: string, cliId: Hash, ss: seq<Session>)
    requires Fresh(command, cliId, w)
    ensures Fresh(command, cliId, Invocations(w, command, cliId, ss))
    decreases |ss|
  {
    if ss == [] {
    } else {
      RemovedFresh(command, cliId, w);
      AttemptFresh(if !ss[0].resume && ss[0].deletable then w.(file := None) else w, command, cliId, ss[0].env);
      InvocationsFresh(Invoke(w, command, cliId, ss[0]), command, cliId, ss[1..]);
    }
  }

  /** Promotions are fresh for every command. */
  lemma PromotionsAreFresh(command: string, cliId: Hash, ss: seq<Session>)
    ensures FreshPromotions(command, cliId, Invocations(World(None, []), command, cliId, ss).trace)
  {
    InvocationsFresh(World(None, []), command, cliId, ss);
  }

  ghost predicate ZeroChecks(t: seq<Entry>) {
    forall j :: 0 <= j < |t| && t[j].CheckRequested? ==> t[j].attestId == 0
  }

  lemma AttemptUnattested(w: World, command: string, cliId: Hash, env: Env)
    requires !Attests(command) && ZeroChecks(w.trace)
    ensures ZeroChecks(Attempt(w, command, cliId, env).0.trace)
  {
    var l := Load(w, env);
    assert StepAttest(StepPreRegister(l, command, env), command, env) == l;
    assert ZeroChecks(StepCheck(l, command, cliId, env).world.trace);
  }

  /** Without r and R in the command, every availability check in every history carries the zero attestation id. */
  lemma {:induction false} UnattestedChecksAreZero(w: World, command: string, cliId: Hash, ss: seq<Session>)
    requires !Attests(command) && ZeroChecks(w.trace)
    ensures ZeroChecks(Invocations(w, command, cliId, ss).trace)
    decreases |ss|
  {
    if ss == [] {
    } else {
      var s := ss[0];
      AttemptUnattested(if !s.resume && s.deletable then w.(file := None) else w, command, cliId, s.env);
      UnattestedChecksAreZero(Invoke(w, command, cliId, s), command, cliId, ss[1..]);
    }
  }

  /** Such a check does occur, with no attestation before it. */
  lemma UnattestedCheckIsStale(command: string, cliId: Hash) returns (ss: seq<Session>)
    requires 'a' in command && !Attests(command)
    ensures Invocations(World(None, []), command, cliId, ss).trace == [CheckRequested(0, 7)]
    ensures !FreshChecks(Invocations(World(None, []), command, cliId, ss).trace)
  {
    var w := World(None, []);
    var env := Env(true, true, false, Dropped, Dropped, true, Lost(7), true, Dropped, Removed);
    ss := [Session(true, true, env)];
    var l := Load(w, env);
    assert StepAttest(StepPreRegister(l, command, env), command, env) == l;
    var l3 := StepCheck(l, command, cliId, env);
    assert l3 == Record(l, CheckRequested(0, 7)).(alive := false);
    assert StepPromote(l3, command, env) == l3;
    var w1 := Invoke(w, command, cliId, ss[0]);
    assert w1 == l3.world && w1.trace == [CheckRequested(0, 7)];
    assert ss[1..] == [];
    assert Invocations(w1, command, cliId, ss[1..]) == w1;
    assert Invocations(w, command, cliId, ss) == w1;
    assert w1.trace[0].CheckRequested? && w1.trace[..0] == [] && LastAttest([]) == None;
  }

  /** A command that asks for a check has fresh checks in every history exactly when it attests. */
  lemma ChecksAreFreshIffAttesting(command: string, cliId: Hash)
    requires 'a' in command
    ensures Attests(command) <==>
            forall ss :: FreshChecks(Invocations(World(None, []), command, cliId, ss).trace)
    ensures !Attests(command) ==>
            forall ss :: ZeroChecks(Invocations(World(None, []), command, cliId, ss).trace)
  {
    if Attests(command) {
      forall ss ensures FreshChecks(Invocations(World(None, []), command, cliId, ss).trace) {
        InvocationsFresh(World(None, []), command, cliId, ss);
      }
    } else {
      var ss := UnattestedCheckIsStale(command, cliId);
      forall ss ensures ZeroChecks(Invocations(World(None, []), command, cliId, ss).trace) {
        UnattestedChecksAreZero(World(None, []), command, cliId, ss);
      }
    }
  }

  // ---- A healthy resume finishes the job ----------------------------------------------------------

  /** The steps of the on-chain effects, in order. */
  function EffectSteps(t: seq<Entry>): string {
    if t == [] then []
    else
      var e := t[|t| - 1];
      EffectSteps(t[..|t| - 1]) + if IsEffect(e) then [StepOf(e)] else []
  }

  predicate Healthy(env: Env) {
    && env.teeInfoOk && env.fileReadable && env.policyConsistent && env.proofAvailable
    && env.preRegister.Landed? && env.attest.Landed? && env.check.Landed? && env.promote.Landed?
    && env.ending.Removed?
  }

  lemma EffectStepsSnoc(t: seq<Entry>, e: Entry)
    ensures EffectSteps(t + [e]) == EffectSteps(t) + if IsEffect(e) then [StepOf(e)] else []
  {
    assert (t + [e])[..|t|] == t;
  }

  /** The effects so far are those before the attempt, then one for each step that became durable in it. */
  ghost predicate CaughtUp(w: World, l: Local) {
    && l.alive
    && Durable(w) <= Durable(l.world)
    && EffectSteps(l.world.trace) == EffectSteps(w.trace) + Durable(l.world)[|Durable(w)|..]
  }

  lemma SaveCatchesUp(w: World, l: Local, step: char, e: Entry, st: RegState)
    requires CaughtUp(w, l) && IsEffect(e) && StepOf(e) == step && st.completed == Durable(l.world) + [step]
    ensures CaughtUp(w, Save(Record(l, e), step, st))
  {
    EffectStepsSnoc(l.world.trace, e);
    EffectStepsSnoc(l.world.trace + [e], Saved(step));
    var added := Durable(l.world)[|Durable(w)|..];
    assert st.completed[|Durable(w)|..] == added + [step];
    assert EffectSteps(w.trace) + added + [step] == EffectSteps(w.trace) + (added + [step]);
  }

  lemma HealthyPreRegister(w: World, l: Local, command: string, env: Env)
    requires Healthy(env) && CaughtUp(w, l) && l.state.completed == Durable(l.world)
    ensures CaughtUp(w, StepPreRegister(l, command, env))
  {
    if 'r' in command && 'r' !in l.state.completed {
      SaveCatchesUp(w, l, 'r', PreRegisterEntry(env, env.preRegister.id),
                    l.state.(completed := l.state.completed + ['r'], attestId := env.preRegister.id));
    }
  }

  lemma HealthyAttest(w: World, l: Local, command: string, env: Env)
    requires Healthy(env) && CaughtUp(w, l) && l.state.completed == Durable(l.world)
    ensures CaughtUp(w, StepAttest(l, command, env))
  {
    if 'R' in command && 'R' !in l.state.completed {
      SaveCatchesUp(w, l, 'R', Attested('R', env.attest.id),
                    l.state.(completed := l.state.completed + ['R'], attestId := env.attest.id));
    }
  }

  lemma HealthyCheck(w: World, l: Local, command: string, cliId: Hash, env: Env)
    requires Healthy(env) && CaughtUp(w, l) && l.state.completed == Durable(l.world)
    ensures CaughtUp(w, StepCheck(l, command, cliId, env))
  {
    if 'a' in command && 'a' !in l.state.completed {
      SaveCatchesUp(w, l, 'a', CheckRequested(l.attestId, env.check.id),
                    l.state.(completed := l.state.completed + ['a'], instructionId := env.check.id));
    }
  }

  lemma HealthyBeforePromotion(w: World, l: Local, command: string, cliId: Hash, env: Env) returns (l': Local)
    requires Fresh(command, cliId, w) && Healthy(env) && l == Load(w, env)
    ensures l' == StepCheck(StepAttest(StepPreRegister(l, command, env), command, env), command, cliId, env)
    ensures CaughtUp(w, l') && Durable(l'.world) == Wanted(command)
  {
    assert EffectSteps(w.trace) + [] == EffectSteps(w.trace);
    HealthyPreRegister(w, l, command, env);
    PreRegisterFresh(command, cliId, l, env);
    var l1 := StepPreRegister(l, command, env);
    HealthyAttest(w, l1, command, env);
    AttestFresh(command, cliId, l1, env);
    var l2 := StepAttest(l1, command, env);
    HealthyCheck(w, l2, command, cliId, env);
    CheckFresh(command, cliId, l2, env);
    l' := StepCheck(l2, command, cliId, env);
  }

  lemma HealthyPromotion(w: World, l: Local, command: string, env: Env)
    requires Healthy(env) && CaughtUp(w, l) && Durable(l.world) == Wanted(command)
    ensures var last := StepPromote(l, command, env);
            && last.alive
            && EffectSteps(last.world.trace)
               == EffectSteps(w.trace) + Wanted(command)[|Durable(w)|..] + Part(command, 'p')
  {
    EffectStepsSnoc(l.world.trace, Promoted(l.instructionId));
    var t := EffectSteps(l.world.trace);
    assert t + [] == t;
  }

  /** With nothing going wrong, an attempt performs exactly the wanted steps not yet durable, then promotes. */
  ghost predicate CompletesMissing(command: string, cliId: Hash, w: World, env: Env) {
    var (w', ok) := Attempt(w, command, cliId, env);
    && ok && w'.file == None
    && Durable(w) <= Wanted(command)
    && EffectSteps(w'.trace) == EffectSteps(w.trace) + Wanted(command)[|Durable(w)|..] + Part(command, 'p')
  }

  lemma HealthyAttemptCompletes(w: World, command: string, cliId: Hash, env: Env)
    requires Fresh(command, cliId, w) && Healthy(env)
    ensures CompletesMissing(command, cliId, w, env)
  {
    var l := HealthyBeforePromotion(w, Load(w, env), command, cliId, env);
    HealthyPromotion(w, l, command, env);
    var last := StepPromote(l, command, env);
    assert Attempt(w, command, cliId, env) == (last.world.(file := None), true);
  }

  /**
   After any invocations whatever, completed ones and fresh starts included, a healthy invocation completes. With
   --resume it performs the steps still missing; a fresh start that can delete the file performs all of them.
   */
  lemma HealthyInvocationCompletes(command: string, cliId: Hash, ss: seq<Session>, s: Session)
    requires Healthy(s.env)
    ensures var w := Invocations(World(None, []), command, cliId, ss);
            var start := if !s.resume && s.deletable then w.(file := None) else w;
            && CompletesMissing(command, cliId, start, s.env)
            && (!s.resume && s.deletable ==>
                  EffectSteps(Invoke(w, command, cliId, s).trace)
                  == EffectSteps(w.trace) + Wanted(command) + Part(command, 'p'))
  {
    var w := Invocations(World(None, []), command, cliId, ss);
    InvocationsFresh(World(None, []), command, cliId, ss);
    RemovedFresh(command, cliId, w);
    HealthyAttemptCompletes(if !s.resume && s.deletable then w.(file := None) else w, command, cliId, s.env);
    assert Wanted(command)[0..] == Wanted(command);
  }
}
