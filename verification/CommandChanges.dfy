/**
 Registration histories in which every invocation has a command of its own. Checks then name the most recent
 attestation exactly when each invocation found it current; promotions name the latest check in any case.
 */
module CommandChanges {
  import opened Wrappers
  import opened Registration

  /** An invocation with a command and an instruction id of its own. */
  datatype Turn = Turn(command: string, cliId: Hash, session: Session)

  function StartOf(w: World, t: Turn): World {
    if !t.session.resume && t.session.deletable then w.(file := None) else w
  }

  function TakeTurn(w: World, t: Turn): World { Invoke(w, t.command, t.cliId, t.session) }

  function Turns(w: World, ts: seq<Turn>): World
    decreases |ts|
  {
    if ts == [] then w else Turns(TakeTurn(w, ts[0]), ts[1..])
  }

  /** The attempt requests a new attestation before it can come to a check. */
  predicate ReAttests(w: World, command: string) {
    ('r' in command && 'r' !in Durable(w)) || ('R' in command && 'R' !in Durable(w))
  }

  /** The id a check would carry otherwise. */
  function HandedOn(w: World, command: string): Hash {
    if Attests(command) && w.file.Some? then w.file.value.attestId else 0
  }

  /** What the state file and the chain show before the attempt: its check would name the most recent attestation. */
  predicate AttestationCurrent(w: World, command: string) {
    ReAttests(w, command) || LastAttest(w.trace) == Some(HandedOn(w, command))
  }

  ghost predicate ChecksIn(t: seq<Entry>, from: nat) {
    exists j :: from <= j < |t| && t[j].CheckRequested?
  }

  ghost predicate Named(l: Local) { LastAttest(l.world.trace) == Some(l.attestId) }

  lemma LastAttestSnoc(t: seq<Entry>, e: Entry)
    ensures LastAttest(t + [e]) ==
            (match e case PreRegistered(id) => Some(id) case Attested(_, id) => Some(id) case _ => LastAttest(t))
  {
    assert (t + [e])[..|t|] == t;
  }

  lemma FreshChecksSnoc(t: seq<Entry>, e: Entry)
    ensures FreshChecks(t + [e]) <==>
            FreshChecks(t) && (e.CheckRequested? ==> LastAttest(t) == Some(e.attestId))
  {
    var u := t + [e];
    assert u[..|t|] == t && u[|t|] == e;
    assert forall j :: 0 <= j < |t| ==> u[j] == t[j] && u[..j] == t[..j];
    if FreshChecks(u) {
      forall j | 0 <= j < |t| && t[j].CheckRequested? ensures LastAttest(t[..j]) == Some(t[j].attestId) {
        assert u[j] == t[j] && u[..j] == t[..j];
      }
    }
  }

  /** Step r adds no check, and either re-attests or hands on what the file holds. */
  lemma PreRegisterNames(l: Local, command: string, env: Env)
    requires l.alive
    ensures var l1 := StepPreRegister(l, command, env);
            && l.world.trace <= l1.world.trace
            && (FreshChecks(l.world.trace) ==> FreshChecks(l1.world.trace))
            && !ChecksIn(l1.world.trace, |l.world.trace|)
            && (l1.alive ==>
                  if 'r' in command && 'r' !in l.state.completed
                  then Named(l1) && l1.state.attestId == l1.attestId && l1.state.completed == l.state.completed + ['r']
                  else l1 == (if 'r' in command then l.(attestId := l.state.attestId) else l))
  {
    if !env.preRegister.Dropped? {
      var e := PreRegisterEntry(env, env.preRegister.id);
      LastAttestSnoc(l.world.trace, e);
      LastAttestSnoc(l.world.trace + [e], Saved('r'));
      FreshChecksSnoc(l.world.trace, e);
      FreshChecksSnoc(l.world.trace + [e], Saved('r'));
    }
  }

  lemma AttestNames(l: Local, command: string, env: Env)
    requires l.alive
    ensures var l1 := StepAttest(l, command, env);
            && l.world.trace <= l1.world.trace
            && (FreshChecks(l.world.trace) ==> FreshChecks(l1.world.trace))
            && !ChecksIn(l1.world.trace, |l.world.trace|)
            && (l1.alive ==>
                  if 'R' in command && 'R' !in l.state.completed then Named(l1)
                  else l1 == (if 'R' in command then l.(attestId := l.state.attestId) else l))
  {
    if !env.attest.Dropped? {
      var e := Attested('R', env.attest.id);
      LastAttestSnoc(l.world.trace, e);
      LastAttestSnoc(l.world.trace + [e], Saved('R'));
      FreshChecksSnoc(l.world.trace, e);
      FreshChecksSnoc(l.world.trace + [e], Saved('R'));
    }
  }

  /** When an attempt comes to its check, the id at hand names the latest attestation exactly when it was current. */
  lemma NamedIffCurrent(w: World, command: string, env: Env) returns (l: Local)
    requires FreshChecks(w.trace) && Load(w, env).alive
    ensures l == StepAttest(StepPreRegister(Load(w, env), command, env), command, env)
    ensures w.trace <= l.world.trace && FreshChecks(l.world.trace) && !ChecksIn(l.world.trace, |w.trace|)
    ensures l.alive ==> (Named(l) <==> AttestationCurrent(w, command))
  {
    var l0 := Load(w, env);
    PreRegisterNames(l0, command, env);
    var l1 := StepPreRegister(l0, command, env);
    l := StepAttest(l1, command, env);
    if l1.alive { AttestNames(l1, command, env); }
  }

  /** A check, saved or not, is fresh exactly when it names the latest attestation. */
  lemma CheckFreshIffNamed(t: seq<Entry>, e: Entry, from: nat)
    requires FreshChecks(t) && from <= |t| && e.CheckRequested?
    ensures FreshChecks(t + [e]) <==> LastAttest(t) == Some(e.attestId)
    ensures FreshChecks(t + [e] + [Saved('a')]) <==> LastAttest(t) == Some(e.attestId)
    ensures ChecksIn(t + [e], from) && ChecksIn(t + [e] + [Saved('a')], from)
  {
    FreshChecksSnoc(t, e);
    FreshChecksSnoc(t + [e], Saved('a'));
    assert (t + [e])[|t|].CheckRequested? && (t + [e] + [Saved('a')])[|t|].CheckRequested?;
  }

  lemma CheckAdds(l: Local, command: string, cliId: Hash, env: Env, from: nat)
    requires l.alive && FreshChecks(l.world.trace) && from <= |l.world.trace| && !ChecksIn(l.world.trace, from)
    ensures var t := StepCheck(l, command, cliId, env).world.trace;
            l.world.trace <= t && (FreshChecks(t) <==> !ChecksIn(t, from) || Named(l))
  {
    if 'a' in command && 'a' !in l.state.completed && env.policyConsistent && !env.check.Dropped? {
      CheckFreshIffNamed(l.world.trace, CheckRequested(l.attestId, env.check.id), from);
    }
  }

  lemma PromoteAdds(l: Local, command: string, env: Env, from: nat)
    requires from <= |l.world.trace|
    ensures var t := StepPromote(l, command, env).world.trace;
            && l.world.trace <= t
            && (FreshChecks(t) <==> FreshChecks(l.world.trace))
            && (ChecksIn(t, from) <==> ChecksIn(l.world.trace, from))
  {
    var t, e := l.world.trace, Promoted(l.instructionId);
    FreshChecksSnoc(t, e);
    if ChecksIn(t, from) {
      var j :| from <= j < |t| && t[j].CheckRequested?;
      assert (t + [e])[j].CheckRequested?;
    }
  }

  /** One attempt, from any world: its check is fresh exactly when the attestation it names was current before. */
  lemma AttemptFreshIffCurrent(w: World, command: string, cliId: Hash, env: Env)
    requires FreshChecks(w.trace)
    ensures var t := Attempt(w, command, cliId, env).0.trace;
            && w.trace <= t
            && (FreshChecks(t) <==> !ChecksIn(t, |w.trace|) || AttestationCurrent(w, command))
  {
    if Load(w, env).alive {
      var l := NamedIffCurrent(w, command, env);
      if l.alive { CheckAdds(l, command, cliId, env, |w.trace|); }
      PromoteAdds(StepCheck(l, command, cliId, env), command, env, |w.trace|);
    }
  }

  /** Every turn that makes a check was current when it started. */
  ghost predicate AllCurrent(w: World, ts: seq<Turn>)
    decreases |ts|
  {
    ts == [] ||
    (&& (ChecksIn(TakeTurn(w, ts[0]).trace, |w.trace|) ==> AttestationCurrent(StartOf(w, ts[0]), ts[0].command))
     && AllCurrent(TakeTurn(w, ts[0]), ts[1..]))
  }

  lemma FreshPrefix(t: seq<Entry>, u: seq<Entry>)
    requires t <= u && FreshChecks(u)
    ensures FreshChecks(t)
  {
    forall j | 0 <= j < |t| && t[j].CheckRequested? ensures LastAttest(t[..j]) == Some(t[j].attestId) {
      assert u[j] == t[j] && u[..j] == t[..j];
    }
  }

  lemma AttemptExtends(w: World, command: string, cliId: Hash, env: Env)
    ensures w.trace <= Attempt(w, command, cliId, env).0.trace
  {
    var bare := World(w.file, []);
    assert After(w.trace, bare) == w;
    AttemptAfter(w.trace, bare, command, cliId, env);
  }

  lemma {:induction false} TurnsExtend(w: World, ts: seq<Turn>)
    ensures w.trace <= Turns(w, ts).trace
    decreases |ts|
  {
    if ts == [] {
    } else {
      AttemptExtends(StartOf(w, ts[0]), ts[0].command, ts[0].cliId, ts[0].session.env);
      TurnsExtend(TakeTurn(w, ts[0]), ts[1..]);
    }
  }

  /** Whatever the commands: all checks name the most recent attestation exactly when each turn was current. */
  lemma {:induction false} TurnsFreshIffCurrent(w: World, ts: seq<Turn>)
    requires FreshChecks(w.trace)
    ensures FreshChecks(Turns(w, ts).trace) <==> AllCurrent(w, ts)
    decreases |ts|
  {
    if ts == [] {
    } else {
      var t := ts[0];
      AttemptFreshIffCurrent(StartOf(w, t), t.command, t.cliId, t.session.env);
      var w1 := TakeTurn(w, t);
      if FreshChecks(w1.trace) {
        TurnsFreshIffCurrent(w1, ts[1..]);
      } else {
        TurnsExtend(w1, ts[1..]);
        if FreshChecks(Turns(w, ts).trace) { FreshPrefix(w1.trace, Turns(w, ts).trace); }
      }
    }
  }

  /** r landed and R lost under rRa, then a resume with ra: the check names the attestation before the latest. */
  lemma ChangedCommandIsStale(cliId: Hash) returns (ts: seq<Turn>)
    ensures |ts| == 2 && ts[0].command == "rRa" && ts[1].command == "ra" && ts[1].session.resume
    ensures LastAttest(Turns(World(None, []), ts[..1]).trace) == Some(2)
    ensures CheckRequested(1, 3) in Turns(World(None, []), ts).trace
    ensures !FreshChecks(Turns(World(None, []), ts).trace)
  {
    var env0 := Env(true, true, false, Landed(1), Lost(2), true, Dropped, true, Dropped, Removed);
    var env1 := Env(true, true, false, Dropped, Dropped, true, Landed(3), true, Dropped, RemoveFailed);
    ts := [Turn("rRa", cliId, Session(true, true, env0)), Turn("ra", cliId, Session(true, true, env1))];
    var w0 := World(None, []);
    var w1 := StaleFirstTurn(cliId, env0);
    assert TakeTurn(w0, ts[0]) == w1;
    assert ts[..1][0] == ts[0] && ts[..1][1..] == [] && Turns(w1, []) == w1;
    assert Turns(w0, ts[..1]) == w1;
    var w2 := StaleSecondTurn(w1, cliId, env1);
    assert TakeTurn(w1, ts[1]) == w2;
    assert ts[1..][0] == ts[1] && ts[1..][1..] == [] && Turns(w2, []) == w2;
    assert Turns(w0, ts) == w2;
  }

  lemma StaleFirstTurn(cliId: Hash, env: Env) returns (w: World)
    requires env == Env(true, true, false, Landed(1), Lost(2), true, Dropped, true, Dropped, Removed)
    ensures w == Attempt(World(None, []), "rRa", cliId, env).0
    ensures w == World(Some(RegState("r", 1, 0)), [PreRegistered(1), Saved('r'), Attested('R', 2)])
    ensures LastAttest(w.trace) == Some(2)
  {
    var l0 := Load(World(None, []), env);
    var l1 := StepPreRegister(l0, "rRa", env);
    assert l1.state.completed == "r" && l1.world.trace == [PreRegistered(1), Saved('r')];
    var l2 := StepAttest(l1, "rRa", env);
    assert l2.world.trace == [PreRegistered(1), Saved('r'), Attested('R', 2)] && !l2.alive;
    w := Attempt(World(None, []), "rRa", cliId, env).0;
  }

  lemma StaleSecondTurn(w: World, cliId: Hash, env: Env) returns (w': World)
    requires env == Env(true, true, false, Dropped, Dropped, true, Landed(3), true, Dropped, RemoveFailed)
    requires w == World(Some(RegState("r", 1, 0)), [PreRegistered(1), Saved('r'), Attested('R', 2)])
    requires LastAttest(w.trace) == Some(2)
    ensures w' == Attempt(w, "ra", cliId, env).0
    ensures CheckRequested(1, 3) in w'.trace && !FreshChecks(w'.trace)
  {
    w' := Attempt(w, "ra", cliId, env).0;
    var l := Load(w, env);
    var l2 := StepAttest(StepPreRegister(l, "ra", env), "ra", env);
    assert l2 == l.(attestId := 1);
    var t := StepCheck(l2, "ra", cliId, env).world.trace;
    assert t == w.trace + [CheckRequested(1, 3)] + [Saved('a')];
    assert w'.trace == t;
    assert t[3] == CheckRequested(1, 3) && t[..3] == w.trace;
  }

  /** The file names the most recent availability check. */
  ghost predicate CheckSaved(w: World) {
    'a' in Durable(w) ==> LastCheck(w.trace) == Some(w.file.value.instructionId)
  }

  /** Promotions a turn adds name the latest check if its command asks for one, else the id given to it. */
  ghost predicate PromotesFresh(command: string, cliId: Hash, from: nat, t: seq<Entry>) {
    forall j :: from <= j < |t| && t[j].Promoted? ==>
      if 'a' in command then LastCheck(t[..j]) == Some(t[j].instructionId) else t[j].instructionId == cliId
  }

  lemma LastCheckSnoc(t: seq<Entry>, e: Entry)
    ensures LastCheck(t + [e]) == if e.CheckRequested? then Some(e.id) else LastCheck(t)
  {
    assert (t + [e])[..|t|] == t;
  }

  ghost predicate NoPromotion(t: seq<Entry>, from: nat) { forall j :: from <= j < |t| ==> !t[j].Promoted? }

  /** Steps r and R leave the last check, the saved one and the promotions alone. */
  lemma AttestationKeepsCheck(w: World, command: string, env: Env)
    requires CheckSaved(w) && Load(w, env).alive
    ensures var l := StepAttest(StepPreRegister(Load(w, env), command, env), command, env);
            && CheckSaved(l.world) && w.trace <= l.world.trace && NoPromotion(l.world.trace, |w.trace|)
            && (l.alive ==> l.state == (if l.world.file.Some? then l.world.file.value else EMPTY_STATE))
  {
    var l0 := Load(w, env);
    PreRegisterKeepsCheck(l0, command, env);
    AttestKeepsCheck(StepPreRegister(l0, command, env), command, env);
  }

  ghost predicate FileInHand(l: Local) {
    l.alive ==> l.state == (if l.world.file.Some? then l.world.file.value else EMPTY_STATE)
  }

  /** An effect other than a check, and the save of a step other than a, leave the saved check alone. */
  lemma EffectKeepsCheck(w: World, e: Entry, step: char, st: RegState)
    requires CheckSaved(w) && !e.CheckRequested? && step != 'a' && st.completed == Durable(w) + [step]
    requires w.file.Some? ==> st.instructionId == w.file.value.instructionId
    ensures CheckSaved(w.(trace := w.trace + [e]))
    ensures CheckSaved(World(Some(st), w.trace + [e] + [Saved(step)]))
  {
    LastCheckSnoc(w.trace, e);
    LastCheckSnoc(w.trace + [e], Saved(step));
    assert 'a' in st.completed ==> 'a' in Durable(w);
  }

  lemma PreRegisterKeepsCheck(l: Local, command: string, env: Env)
    requires CheckSaved(l.world) && FileInHand(l)
    ensures var l1 := StepPreRegister(l, command, env);
            && CheckSaved(l1.world) && FileInHand(l1)
            && l.world.trace <= l1.world.trace && NoPromotion(l1.world.trace, |l.world.trace|)
  {
    if l.alive && !env.preRegister.Dropped? {
      var id := env.preRegister.id;
      EffectKeepsCheck(l.world, PreRegisterEntry(env, id), 'r',
                       l.state.(completed := l.state.completed + ['r'], attestId := id));
    }
  }

  lemma AttestKeepsCheck(l: Local, command: string, env: Env)
    requires CheckSaved(l.world) && FileInHand(l)
    ensures var l1 := StepAttest(l, command, env);
            && CheckSaved(l1.world) && FileInHand(l1)
            && l.world.trace <= l1.world.trace && NoPromotion(l1.world.trace, |l.world.trace|)
  {
    if l.alive && !env.attest.Dropped? {
      var id := env.attest.id;
      EffectKeepsCheck(l.world, Attested('R', id), 'R',
                       l.state.(completed := l.state.completed + ['R'], attestId := id));
    }
  }

  lemma CheckIsSaved(l: Local, command: string, cliId: Hash, env: Env)
    requires CheckSaved(l.world) && FileInHand(l)
    ensures var l1 := StepCheck(l, command, cliId, env);
            && CheckSaved(l1.world)
            && l.world.trace <= l1.world.trace && NoPromotion(l1.world.trace, |l.world.trace|)
            && (l1.alive ==> if 'a' in command then LastCheck(l1.world.trace) == Some(l1.instructionId)
                             else l1.instructionId == cliId)
  {
    if l.alive && !env.check.Dropped? {
      var e := CheckRequested(l.attestId, env.check.id);
      LastCheckSnoc(l.world.trace, e);
      LastCheckSnoc(l.world.trace + [e], Saved('a'));
    }
  }

  lemma PromoteIsFresh(l: Local, command: string, cliId: Hash, env: Env, from: nat)
    requires CheckSaved(l.world) && from <= |l.world.trace| && NoPromotion(l.world.trace, from)
    requires l.alive ==> if 'a' in command then LastCheck(l.world.trace) == Some(l.instructionId)
                         else l.instructionId == cliId
    ensures var l1 := StepPromote(l, command, env);
            CheckSaved(l1.world) && PromotesFresh(command, cliId, from, l1.world.trace)
  {
    var t, e := l.world.trace, Promoted(l.instructionId);
    LastCheckSnoc(t, e);
    assert (t + [e])[..|t|] == t;
  }

  lemma AttemptPromotesFresh(w: World, command: string, cliId: Hash, env: Env)
    requires CheckSaved(w)
    ensures CheckSaved(Attempt(w, command, cliId, env).0)
    ensures PromotesFresh(command, cliId, |w.trace|, Attempt(w, command, cliId, env).0.trace)
  {
    if Load(w, env).alive {
      AttestationKeepsCheck(w, command, env);
      var l := StepAttest(StepPreRegister(Load(w, env), command, env), command, env);
      CheckIsSaved(l, command, cliId, env);
      PromoteIsFresh(StepCheck(l, command, cliId, env), command, cliId, env, |w.trace|);
    }
  }

  ghost predicate AllPromoteFresh(w: World, ts: seq<Turn>)
    decreases |ts|
  {
    ts == [] ||
    (&& PromotesFresh(ts[0].command, ts[0].cliId, |w.trace|, TakeTurn(w, ts[0]).trace)
     && AllPromoteFresh(TakeTurn(w, ts[0]), ts[1..]))
  }

  /** Promotions, unlike checks, stay fresh even when the command changes from turn to turn. */
  lemma {:induction false} TurnsPromoteFresh(w: World, ts: seq<Turn>)
    requires CheckSaved(w)
    ensures AllPromoteFresh(w, ts)
    decreases |ts|
  {
    if ts == [] {
    } else {
      var t := ts[0];
      AttemptPromotesFresh(StartOf(w, t), t.command, t.cliId, t.session.env);
      TurnsPromoteFresh(TakeTurn(w, t), ts[1..]);
    }
  }
}
