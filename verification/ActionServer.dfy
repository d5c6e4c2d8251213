/**
 The handlers of the server and the state snapshot, run through the promise chain. The handlers keep plain
 module-level counters and a log, await in the middle, and take no lock; the theorems here say that their replies,
 the snapshots and the log are nevertheless those of a sequential server.
 */
module ActionServer {
  import opened Wrappers
  import opened Json
  import opened OutcomeLog
  import opened PromiseChain
  import MatchHandler

  // ---- Requests -------------------------------------------------------------------------------

  /** originalMessage of SAY_HELLO after hex decoding and JSON parsing. */
  datatype HelloMessage = HelloBadHex | HelloBadJson | HelloJson(json: Js)

  /** originalMessage of SAY_GOODBYE after hex and ABI decoding. */
  datatype GoodbyeMessage = GoodbyeBadHex | GoodbyeBadAbi | GoodbyeFields(name: string, reason: string)

  datatype HandlerError =
    | InvalidHex | Undecodable | NotAnObject | UnknownField | EmptyName
    | NoMatch(reason: MatchHandler.MatchError) | OtherError(message: string)

  datatype Reply =
    | Greeting(text: string, number: nat) | Farewell(text: string, number: nat)
    | Trade(payload: MatchHandler.Payload) | OtherData(hex: string)

  /** [data, status, error] with status 0 for an error and 1 for success. */
  datatype HandlerResult = HandlerResult(data: Option<Reply>, status: nat, error: Option<HandlerError>)

  function Refuse(e: HandlerError): HandlerResult { HandlerResult(None, 0, Some(e)) }

  function Accept(reply: Reply): HandlerResult { HandlerResult(Some(reply), 1, None) }

  datatype HandlerState = HandlerState(greetingCount: nat, lastGreeting: string,
                                       farewellCount: nat, lastFarewell: string)

  const INITIAL_STATE := HandlerState(0, "", 0, "")

  function HelloText(name: string): string { "Hello, " + name + "! Welcome to Flare Confidential Compute." }

  function GoodbyeText(name: string, reason: string): string { "Goodbye, " + name + "! Reason: " + reason }

  // ---- Handlers -------------------------------------------------------------------------------

  /** The greeted name, or the reason for refusing the message. */
  function DecodeHello(msg: HelloMessage): Result<string, HandlerError> {
    match msg
    case HelloBadHex => Failure(InvalidHex)
    case HelloBadJson => Failure(Undecodable)
    case HelloJson(json) =>
      if !json.Obj? then Failure(NotAnObject)
      else if exists k :: k in json.fields && k != "name" then Failure(UnknownField)
      else if "name" !in json.fields || !json.fields["name"].Str? || json.fields["name"].s == "" then Failure(EmptyName)
      else Success(json.fields["name"].s)
  }

  function DecodeGoodbye(msg: GoodbyeMessage): Result<(string, string), HandlerError> {
    match msg
    case GoodbyeBadHex => Failure(InvalidHex)
    case GoodbyeBadAbi => Failure(Undecodable)
    case GoodbyeFields(name, reason) => if name == "" then Failure(EmptyName) else Success((name, reason))
  }

  function SayHello(s: HandlerState, msg: HelloMessage): (HandlerState, HandlerResult) {
    match DecodeHello(msg)
    case Failure(e) => (s, Refuse(e))
    case Success(name) =>
      (s.(greetingCount := s.greetingCount + 1, lastGreeting := HelloText(name)),
       Accept(Greeting(HelloText(name), s.greetingCount + 1)))
  }

  function SayGoodbye(s: HandlerState, msg: GoodbyeMessage): (HandlerState, HandlerResult) {
    match DecodeGoodbye(msg)
    case Failure(e) => (s, Refuse(e))
    case Success((name, reason)) =>
      (s.(farewellCount := s.farewellCount + 1, lastFarewell := GoodbyeText(name, reason)),
       Accept(Farewell(GoodbyeText(name, reason), s.farewellCount + 1)))
  }

  class Handlers {
    var greetingCount: nat
    var lastGreeting: string
    var farewellCount: nat
    var lastFarewell: string

    ghost function State(): HandlerState
      reads this
    {
      HandlerState(greetingCount, lastGreeting, farewellCount, lastFarewell)
    }

    constructor ()
      ensures State() == INITIAL_STATE
    {
      greetingCount, lastGreeting, farewellCount, lastFarewell := 0, "", 0, "";
    }

    method ResetState()
      modifies this
      ensures State() == INITIAL_STATE
    {
      greetingCount, lastGreeting := 0, "";
      farewellCount, lastFarewell := 0, "";
    }

    method HandleSayHello(msg: HelloMessage) returns (r: HandlerResult)
      modifies this`greetingCount, this`lastGreeting
      ensures (State(), r) == SayHello(old(State()), msg)
    {
      match DecodeHello(msg)
      case Failure(e) => return Refuse(e);
      case Success(name) =>
        greetingCount := greetingCount + 1;
        var greeting := HelloText(name);
        lastGreeting := greeting;
        return Accept(Greeting(greeting, greetingCount));
    }

    method HandleSayGoodbye(msg: GoodbyeMessage) returns (r: HandlerResult)
      modifies this`farewellCount, this`lastFarewell
      ensures (State(), r) == SayGoodbye(old(State()), msg)
    {
      match DecodeGoodbye(msg)
      case Failure(e) => return Refuse(e);
      case Success((name, reason)) =>
        farewellCount := farewellCount + 1;
        var farewell := GoodbyeText(name, reason);
        lastFarewell := farewell;
        return Accept(Farewell(farewell, farewellCount));
    }

    method ReportState() returns (snapshot: HandlerState)
      ensures snapshot == State()
    {
      snapshot := HandlerState(greetingCount, lastGreeting, farewellCount, lastFarewell);
    }
  }

  // ---- Jobs of the server ---------------------------------------------------------------------

  /** All module-level state that handlers change. */
  datatype Shared = Shared(greetings: HandlerState, log: seq<OutcomeRecord>)

  const INITIAL := Shared(INITIAL_STATE, [])

  /** `TopUp` changes no state; like `MatchSignal` it awaits as often as it likes. */
  datatype Task = Hello(hello: HelloMessage) | Goodbye(goodbye: GoodbyeMessage) | Snapshot | MatchSignal | TopUp

  /** `Gathered`: the last await of MATCH_V1 has returned and the handler knows all it needs. */
  datatype External = StillWaiting | Gathered(env: MatchHandler.Env) | Answer(r: HandlerResult) | Raise

  datatype Response = Handled(result: HandlerResult) | Reported(state: HandlerState)

  function MatchResult(o: MatchHandler.Outcome): Outcome<Response> {
    match o
    case Done(payload) => Returned(Handled(Accept(Trade(payload))))
    case Refused(e) => Returned(Handled(Refuse(NoMatch(e))))
    case Raised => Threw
  }

  function Logged(log: seq<OutcomeRecord>, record: Option<OutcomeRecord>): seq<OutcomeRecord> {
    if record.Some? then Append(log, record.value) else log
  }

  /** The input ends the job: the segment that receives it is the last one. */
  predicate Decides(task: Task, input: External) {
    match task
    case MatchSignal => input.Gathered?
    case TopUp => input.Answer? || input.Raise?
    case _ => true
  }

  /** The last segment of a job. */
  function Conclude(task: Task, s: Shared, input: External): (Shared, Outcome<Response>)
    requires Decides(task, input)
  {
    match task
    case Hello(msg) =>
      var (g, r) := SayHello(s.greetings, msg);
      (s.(greetings := g), Returned(Handled(r)))
    case Goodbye(msg) =>
      var (g, r) := SayGoodbye(s.greetings, msg);
      (s.(greetings := g), Returned(Handled(r)))
    case Snapshot => (s, Returned(Reported(s.greetings)))
    case MatchSignal =>
      var (o, record) := MatchHandler.Match(input.env);
      (s.(log := Logged(s.log, record)), MatchResult(o))
    case TopUp => (s, if input.Answer? then Returned(Handled(input.r)) else Threw)
  }

  function Execute(task: Task, s: Shared, input: External): Next<Task, Shared, Response> {
    if Decides(task, input) then
      var (s', out) := Conclude(task, s, input);
      Next.Done(s', out)
    else More(task, s)
  }

  const SERVER: Program<Task, Shared, External, Response> := (task, s, input) => Execute(task, s, input)

  /** A greeting is accepted exactly when the message is an object with a non-empty text as name and nothing else. */
  lemma HelloAcceptedIff(msg: HelloMessage, name: string)
    ensures DecodeHello(msg) == Success(name) <==> msg == HelloJson(Obj(map["name" := Str(name)])) && name != ""
  {
    if DecodeHello(msg) == Success(name) {
      assert msg.json.fields.Keys == {"name"};
      assert msg.json.fields == map["name" := Str(name)];
    }
  }

  /** Why a message is refused: malformed, not an object, with a key other than name, or without a proper name. */
  lemma HelloRefusedIff(msg: HelloMessage)
    ensures DecodeHello(msg) == Failure(InvalidHex) <==> msg == HelloBadHex
    ensures DecodeHello(msg) == Failure(Undecodable) <==> msg == HelloBadJson
    ensures DecodeHello(msg) == Failure(NotAnObject) <==> msg.HelloJson? && !msg.json.Obj?
    ensures DecodeHello(msg) == Failure(UnknownField) <==>
            msg.HelloJson? && msg.json.Obj? && !(msg.json.fields.Keys <= {"name"})
    ensures DecodeHello(msg) == Failure(EmptyName) <==>
            msg.HelloJson? && msg.json.Obj? && msg.json.fields.Keys <= {"name"}
            && forall name :: msg.json.fields == map["name" := Str(name)] ==> name == ""
  {
    if msg.HelloJson? && msg.json.Obj? && msg.json.fields.Keys <= {"name"} {
      var fields := msg.json.fields;
      assert forall k :: k in fields ==> k in fields.Keys;
      if "name" in fields && fields["name"].Str? { assert fields == map["name" := Str(fields["name"].s)]; }
    }
  }

  /** A farewell is accepted exactly when it decodes to a non-empty name and any reason. */
  lemma GoodbyeAcceptedIff(msg: GoodbyeMessage, name: string, reason: string)
    ensures DecodeGoodbye(msg) == Success((name, reason)) <==> msg == GoodbyeFields(name, reason) && name != ""
    ensures DecodeGoodbye(msg) == Failure(InvalidHex) <==> msg == GoodbyeBadHex
    ensures DecodeGoodbye(msg) == Failure(Undecodable) <==> msg == GoodbyeBadAbi
  {
  }

  // ---- The sequential reference -----------------------------------------------------------------

  /** The greetings of the SAY_HELLO calls that are accepted, in order. */
  function Greetings(tasks: seq<Task>): seq<string> {
    if tasks == [] then []
    else
      var t := tasks[|tasks| - 1];
      Greetings(tasks[..|tasks| - 1]) +
      if t.Hello? && DecodeHello(t.hello).Success? then [HelloText(DecodeHello(t.hello).value)] else []
  }

  function Farewells(tasks: seq<Task>): seq<string> {
    if tasks == [] then []
    else
      var t := tasks[|tasks| - 1];
      Farewells(tasks[..|tasks| - 1]) +
      if t.Goodbye? && DecodeGoodbye(t.goodbye).Success?
      then [GoodbyeText(DecodeGoodbye(t.goodbye).value.0, DecodeGoodbye(t.goodbye).value.1)] else []
  }

  function LastOr(texts: seq<string>): string { if texts == [] then "" else texts[|texts| - 1] }

  /** The state a sequential server is in after the given calls. */
  function StateAfter(tasks: seq<Task>): HandlerState {
    HandlerState(|Greetings(tasks)|, LastOr(Greetings(tasks)), |Farewells(tasks)|, LastOr(Farewells(tasks)))
  }

  /** The first input that ends the job. */
  function Decision(task: Task, inputs: seq<External>): (d: Option<External>)
    ensures d.Some? ==> Decides(task, d.value)
  {
    if inputs == [] then None
    else if Decides(task, inputs[0]) then Some(inputs[0])
    else Decision(task, inputs[1..])
  }

  /** What a sequential server replies to `t` after having served `before`, given the inputs `t` received. */
  ghost predicate SequentialReply(before: seq<Task>, t: Task, inputs: seq<External>, out: Outcome<Response>) {
    match t
    case Hello(msg) =>
      out == Returned(Handled(
        match DecodeHello(msg)
        case Success(name) =>
          HandlerResult(Some(Greeting("Hello, " + name + "! Welcome to Flare Confidential Compute.",
                                      |Greetings(before)| + 1)), 1, None)
        case Failure(e) => HandlerResult(None, 0, Some(e))))
    case Goodbye(msg) =>
      out == Returned(Handled(
        match DecodeGoodbye(msg)
        case Success((name, reason)) =>
          HandlerResult(Some(Farewell("Goodbye, " + name + "! Reason: " + reason, |Farewells(before)| + 1)), 1, None)
        case Failure(e) => HandlerResult(None, 0, Some(e))))
    case Snapshot => out == Returned(Reported(StateAfter(before)))
    case MatchSignal =>
      var d := Decision(t, inputs);
      d.Some? && out ==
        (match MatchHandler.Match(d.value.env).0
         case Done(payload) => Returned(Handled(HandlerResult(Some(Trade(payload)), 1, None)))
         case Refused(e) => Returned(Handled(HandlerResult(None, 0, Some(NoMatch(e)))))
         case Raised => Threw)
    case TopUp =>
      var d := Decision(t, inputs);
      d.Some? && out == if d.value.Answer? then Returned(Handled(d.value.r)) else Threw
  }

  type ServerJob = Job<Task, External, Response>
  type ServerMachine = Machine<Task, Shared, External, Response>
  type ServerEvent = Event<Task, External>

  function Tasks(jobs: seq<ServerJob>): (ts: seq<Task>)
    ensures |ts| == |jobs| && forall k :: 0 <= k < |jobs| ==> ts[k] == jobs[k].task
  {
    if jobs == [] then [] else Tasks(jobs[..|jobs| - 1]) + [jobs[|jobs| - 1].task]
  }

  /** The record a job leaves in the log. */
  function RecordOf(job: ServerJob): Option<OutcomeRecord> {
    var d := Decision(job.task, job.inputs);
    if job.task.MatchSignal? && d.Some? then MatchHandler.Match(d.value.env).1 else None
  }

  function Records(jobs: seq<ServerJob>): (rs: seq<Option<OutcomeRecord>>)
    ensures |rs| == |jobs| && forall k :: 0 <= k < |jobs| ==> rs[k] == RecordOf(jobs[k])
  {
    if jobs == [] then [] else Records(jobs[..|jobs| - 1]) + [RecordOf(jobs[|jobs| - 1])]
  }

  /** A job changes nothing until the input that ends it arrives. */
  lemma {:induction false} ReplayByDecision(task: Task, s: Shared, inputs: seq<External>)
    ensures Replay(SERVER, task, s, inputs) ==
            match Decision(task, inputs)
            case None => (Running(task), s)
            case Some(x) => (Finished(Conclude(task, s, x).1), Conclude(task, s, x).0)
  {
    if inputs == [] {
    } else {
      assert SERVER(task, s, inputs[0]) == Execute(task, s, inputs[0]);
      if !Decides(task, inputs[0]) { ReplayByDecision(task, s, inputs[1..]); }
    }
  }

  /** The state after the given jobs: counters and texts from the calls, the log from the records. */
  function SharedAfter(jobs: seq<ServerJob>): Shared {
    Shared(StateAfter(Tasks(jobs)), LogAfter([], Records(jobs)))
  }

  lemma GreetingsStep(before: seq<Task>, t: Task)
    ensures Greetings(before + [t]) ==
            Greetings(before) + if t.Hello? && DecodeHello(t.hello).Success?
                                then [HelloText(DecodeHello(t.hello).value)] else []
  {
    assert (before + [t])[..|before|] == before;
  }

  lemma FarewellsStep(before: seq<Task>, t: Task)
    ensures Farewells(before + [t]) ==
            Farewells(before) + if t.Goodbye? && DecodeGoodbye(t.goodbye).Success?
                                then [GoodbyeText(DecodeGoodbye(t.goodbye).value.0, DecodeGoodbye(t.goodbye).value.1)]
                                else []
  {
    assert (before + [t])[..|before|] == before;
  }

  lemma ConcludeGreetings(before: seq<Task>, s: Shared, t: Task, x: External)
    requires s.greetings == StateAfter(before) && Decides(t, x)
    ensures Conclude(t, s, x).0.greetings == StateAfter(before + [t])
  {
    GreetingsStep(before, t);
    FarewellsStep(before, t);
  }

  /** A job that ends leads from the state after the jobs before it to the state after itself. */
  lemma ReplayOfTask(init: seq<ServerJob>, job: ServerJob)
    requires job.phase.Finished? && Replay(SERVER, job.task, SharedAfter(init), job.inputs).0 == job.phase
    ensures SequentialReply(Tasks(init), job.task, job.inputs, job.phase.out)
    ensures Replay(SERVER, job.task, SharedAfter(init), job.inputs).1 == SharedAfter(init + [job])
  {
    var s := SharedAfter(init);
    ReplayByDecision(job.task, s, job.inputs);
    var x := Decision(job.task, job.inputs).value;
    assert (init + [job])[..|init|] == init;
    ConcludeGreetings(Tasks(init), s, job.task, x);
    LogAfterSnoc([], Records(init), RecordOf(job));
  }

  lemma PrefixEnds(jobs: seq<ServerJob>, n: nat)
    requires n <= |jobs| && forall k :: 0 <= k < n ==> EndsAsSequential(SERVER, INITIAL, jobs, k)
    ensures forall k :: 0 <= k < n ==> EndsAsSequential(SERVER, INITIAL, jobs[..n], k)
  {
    forall k | 0 <= k < n ensures EndsAsSequential(SERVER, INITIAL, jobs[..n], k) {
      assert EndsAsSequential(SERVER, INITIAL, jobs, k);
      assert jobs[..n][..k] == jobs[..k];
    }
  }

  /** Executing finished jobs one after the other leads to the state of the sequential server. */
  lemma {:induction false} SequentialState(jobs: seq<ServerJob>)
    requires forall k :: 0 <= k < |jobs| ==> EndsAsSequential(SERVER, INITIAL, jobs, k)
    ensures Sequential(SERVER, INITIAL, jobs) == SharedAfter(jobs)
  {
    if jobs == [] {
    } else {
      var n := |jobs| - 1;
      PrefixEnds(jobs, n);
      SequentialState(jobs[..n]);
      assert EndsAsSequential(SERVER, INITIAL, jobs, n);
      ReplayOfTask(jobs[..n], jobs[n]);
      assert jobs[..n] + [jobs[n]] == jobs;
    }
  }

  // ---- Every run --------------------------------------------------------------------------------

  ghost predicate Answered(m: ServerMachine, k: nat) {
    && k < |m.jobs| && RunId(k) < |m.promises|
    && m.promises[RunId(k)].status != Pending
    && m.jobs[k].phase.Finished?
  }

  lemma ReplyFromPrefix(jobs: seq<ServerJob>, k: nat)
    requires k < |jobs| && forall j :: 0 <= j <= k ==> EndsAsSequential(SERVER, INITIAL, jobs, j)
    ensures jobs[k].phase.Finished?
    ensures SequentialReply(Tasks(jobs)[..k], jobs[k].task, jobs[k].inputs, jobs[k].phase.out)
  {
    var before := jobs[..k];
    assert EndsAsSequential(SERVER, INITIAL, jobs, k);
    PrefixEnds(jobs, k);
    SequentialState(before);
    ReplayOfTask(before, jobs[k]);
    TasksPrefix(jobs, k);
  }

  lemma TasksPrefix(jobs: seq<ServerJob>, k: nat)
    requires k <= |jobs|
    ensures Tasks(jobs[..k]) == Tasks(jobs)[..k]
  {
  }

  lemma AnsweredPrefix(es: seq<ServerEvent>, m: ServerMachine, k: nat)
    requires Legal(SERVER, Initial(INITIAL), es) && m == Run(SERVER, Initial(INITIAL), es)
    requires Answered(m, k)
    ensures forall j :: 0 <= j <= k ==> Answered(m, j) && EndsAsSequential(SERVER, INITIAL, m.jobs, j)
  {
    InitialInv<Task, Shared, External, Response>(SERVER, INITIAL);
    var n := RunKeepsInv(SERVER, INITIAL, Initial(INITIAL), 0, es);
    if k > n { LaterRunPending(SERVER, INITIAL, m, n, k); }
    forall j: nat | j <= k ensures Answered(m, j) && EndsAsSequential(SERVER, INITIAL, m.jobs, j) {
      assert Completed(SERVER, INITIAL, m, j);
    }
  }

  /**
   Every reply and snapshot equals the one a sequential server gives when it serves the requests one at a
   time in the order in which they were queued.
   */
  lemma RepliesAreSequential(es: seq<ServerEvent>, k: nat)
    requires Legal(SERVER, Initial(INITIAL), es)
    requires Answered(Run(SERVER, Initial(INITIAL), es), k)
    ensures k < |Arrivals(es)|
    ensures forall j :: 0 <= j < k ==> Answered(Run(SERVER, Initial(INITIAL), es), j)
    ensures SequentialReply(Arrivals(es)[..k], Arrivals(es)[k], InputsOf(es, k),
                            Run(SERVER, Initial(INITIAL), es).jobs[k].phase.out)
  {
    var m := Run(SERVER, Initial(INITIAL), es);
    Linearizable(SERVER, INITIAL, es);
    AnsweredPrefix(es, m, k);
    ReplyFromPrefix(m.jobs, k);
    assert Tasks(m.jobs) == Arrivals(es);
  }

  function NumberGiven(job: ServerJob): seq<nat> {
    match job.phase
    case Finished(Returned(Handled(HandlerResult(Some(Greeting(_, number)), _, _)))) =>
      if job.task.Hello? then [number] else []
    case _ => []
  }

  /** The greeting numbers handed out by the given jobs, in queue order. */
  function NumbersGiven(jobs: seq<ServerJob>): seq<nat> {
    if jobs == [] then [] else NumbersGiven(jobs[..|jobs| - 1]) + NumberGiven(jobs[|jobs| - 1])
  }

  lemma NumberFromReply(before: seq<Task>, job: ServerJob)
    requires job.phase.Finished? && SequentialReply(before, job.task, job.inputs, job.phase.out)
    ensures NumberGiven(job) ==
            if job.task.Hello? && DecodeHello(job.task.hello).Success? then [|Greetings(before)| + 1] else []
  {
  }

  /** Job k was answered as by a sequential server that served jobs 0, ..., k-1 before. */
  ghost predicate RepliedInTurn(jobs: seq<ServerJob>, k: nat)
    requires k < |jobs|
  {
    && jobs[k].phase.Finished?
    && SequentialReply(Tasks(jobs[..k]), jobs[k].task, jobs[k].inputs, jobs[k].phase.out)
  }

  lemma RepliedInit(jobs: seq<ServerJob>, init: seq<ServerJob>)
    requires init <= jobs && forall k :: 0 <= k < |jobs| ==> RepliedInTurn(jobs, k)
    ensures forall k :: 0 <= k < |init| ==> RepliedInTurn(init, k)
  {
    forall k | 0 <= k < |init| ensures RepliedInTurn(init, k) {
      assert RepliedInTurn(jobs, k);
      assert init[..k] == jobs[..k];
    }
  }

  lemma {:induction false} NumbersFromReplies(jobs: seq<ServerJob>)
    requires forall k :: 0 <= k < |jobs| ==> RepliedInTurn(jobs, k)
    ensures |NumbersGiven(jobs)| == |Greetings(Tasks(jobs))|
    ensures forall i :: 0 <= i < |NumbersGiven(jobs)| ==> NumbersGiven(jobs)[i] == i + 1
  {
    if jobs == [] {
    } else {
      var n := |jobs| - 1;
      var init := jobs[..n];
      RepliedInit(jobs, init);
      NumbersFromReplies(init);
      assert RepliedInTurn(jobs, n);
      NumberFromReply(Tasks(init), jobs[n]);
      GreetingsStep(Tasks(init), jobs[n].task);
      assert Tasks(jobs) == Tasks(init) + [jobs[n].task];
    }
  }

  lemma PrefixRepliedInTurn(es: seq<ServerEvent>, m: ServerMachine, n: nat)
    requires Legal(SERVER, Initial(INITIAL), es) && m == Run(SERVER, Initial(INITIAL), es)
    requires n > 0 ==> Answered(m, n - 1)
    ensures n <= |m.jobs| && forall k :: 0 <= k < n ==> RepliedInTurn(m.jobs[..n], k)
  {
    var served := m.jobs[..if n <= |m.jobs| then n else 0];
    if n > 0 { AnsweredPrefix(es, m, n - 1); }
    forall k: nat | k < n ensures RepliedInTurn(served, k) {
      assert served[..k] == m.jobs[..k];
      ReplyFromPrefix(m.jobs, k);
      assert Tasks(m.jobs)[..k] == Tasks(m.jobs[..k]);
    }
  }

  /** Successful SAY_HELLO calls get exactly 1, 2, ..., n: no gap, no repeat, none lost to a failing call. */
  lemma HelloNumbersAreConsecutive(es: seq<ServerEvent>, n: nat)
    requires Legal(SERVER, Initial(INITIAL), es)
    requires n > 0 ==> Answered(Run(SERVER, Initial(INITIAL), es), n - 1)
    ensures n <= |Run(SERVER, Initial(INITIAL), es).jobs| && n <= |Arrivals(es)|
    ensures var given := NumbersGiven(Run(SERVER, Initial(INITIAL), es).jobs[..n]);
            && |given| == |Greetings(Arrivals(es)[..n])|
            && forall i :: 0 <= i < |given| ==> given[i] == i + 1
  {
    var m := Run(SERVER, Initial(INITIAL), es);
    Linearizable(SERVER, INITIAL, es);
    PrefixRepliedInTurn(es, m, n);
    var served := m.jobs[..n];
    assert Tasks(served) == Arrivals(es)[..n];
    NumbersFromReplies(served);
  }

  // ---- The outcome log in every run -------------------------------------------------------------------

  /** The call was a MATCH_V1 signal and has been answered with a payload. */
  predicate Traded(job: ServerJob) {
    job.task.MatchSignal? && job.phase.Finished? && job.phase.out.Returned?
    && job.phase.out.value.Handled? && job.phase.out.value.result.status == 1
  }

  lemma RecordIffTraded(job: ServerJob, s: Shared)
    requires if job.inputs == [] then !job.phase.Finished?
             else job.phase == Replay(SERVER, job.task, s, job.inputs).0
    ensures RecordOf(job).Some? <==> Traded(job)
  {
    ReplayByDecision(job.task, s, job.inputs);
    var d := Decision(job.task, job.inputs);
    if job.task.MatchSignal? && d.Some? { MatchHandler.RecordIffDone(d.value.env); }
  }

  lemma PrefixState(m: ServerMachine, n: nat)
    requires InvAt(SERVER, INITIAL, m, n)
    ensures n <= |m.jobs| && Sequential(SERVER, INITIAL, m.jobs[..n]) == SharedAfter(m.jobs[..n])
  {
    forall k | 0 <= k < n ensures EndsAsSequential(SERVER, INITIAL, m.jobs, k) {
      assert Completed(SERVER, INITIAL, m, k);
    }
    PrefixEnds(m.jobs, n);
    SequentialState(m.jobs[..n]);
  }

  /** Whatever a job has received so far, it has logged what its record says. */
  lemma ReplayLogs(init: seq<ServerJob>, job: ServerJob)
    ensures Replay(SERVER, job.task, SharedAfter(init), job.inputs).1.log == LogAfter([], Records(init + [job]))
  {
    var d := Decision(job.task, job.inputs);
    ReplayByDecision(job.task, SharedAfter(init), job.inputs);
    if d.Some? { ConcludeLogs(job.task, SharedAfter(init), d.value); }
    LogAfterSnoc([], Records(init), RecordOf(job));
    RecordsSnoc(init, job);
  }

  lemma ConcludeLogs(task: Task, s: Shared, x: External)
    requires Decides(task, x)
    ensures Conclude(task, s, x).0.log == Logged(s.log, if task.MatchSignal? then MatchHandler.Match(x.env).1 else None)
  {
  }

  lemma RecordsSnoc(init: seq<ServerJob>, job: ServerJob)
    ensures Records(init + [job]) == Records(init) + [RecordOf(job)]
  {
    assert (init + [job])[..|init|] == init;
  }

  /** The frontier's job: what it has done so far is what its record says. */
  lemma FrontierLog(m: ServerMachine, n: nat)
    requires InvAt(SERVER, INITIAL, m, n)
    ensures m.shared.log == LogAfter([], Records(m.jobs[..if Entered(m, n) then n + 1 else n]))
  {
    PrefixState(m, n);
    if Entered(m, n) {
      ReplayLogs(m.jobs[..n], m.jobs[n]);
      assert m.jobs[..n + 1] == m.jobs[..n] + [m.jobs[n]];
    }
  }

  lemma {:induction false} WaitingLeavesLog(jobs: seq<ServerJob>, n: nat)
    requires n <= |jobs| && forall k :: n <= k < |jobs| ==> jobs[k].inputs == []
    ensures LogAfter([], Records(jobs)) == LogAfter([], Records(jobs[..n]))
    decreases |jobs|
  {
    if n == |jobs| {
      assert jobs[..n] == jobs;
    } else {
      var last := |jobs| - 1;
      WaitingLeavesLog(jobs[..last], n);
      assert jobs[..last][..n] == jobs[..n];
      LogAfterSnoc([], Records(jobs[..last]), RecordOf(jobs[last]));
    }
  }

  lemma JobMatchesReplay(m: ServerMachine, n: nat, k: nat)
    requires InvAt(SERVER, INITIAL, m, n) && k < |m.jobs|
    ensures RecordOf(m.jobs[k]).Some? <==> Traded(m.jobs[k])
  {
    var s := Sequential(SERVER, INITIAL, m.jobs[..k]);
    assert k < n ==> Completed(SERVER, INITIAL, m, k);
    assert k > n ==> Untouched(m, k);
    ReplayByDecision(m.jobs[k].task, s, m.jobs[k].inputs);
    RecordIffTraded(m.jobs[k], s);
  }

  lemma WaitingHaveNoInputs(m: ServerMachine, n: nat)
    requires InvAt(SERVER, INITIAL, m, n)
    ensures var from := if Entered(m, n) then n + 1 else n;
            from <= |m.jobs| && forall k :: from <= k < |m.jobs| ==> m.jobs[k].inputs == []
  {
    forall k | n < k < |m.jobs| ensures m.jobs[k].inputs == [] { assert Untouched(m, k); }
  }

  lemma LogOfRecords(records: seq<Option<OutcomeRecord>>)
    ensures LogAfter([], records) == Latest(Present(records), MAX_ENTRIES)
  {
    LogFollowsRecords([], records);
    assert [] + Present(records) == Present(records);
  }

  lemma LogAtFrontier(m: ServerMachine, n: nat)
    requires InvAt(SERVER, INITIAL, m, n)
    ensures m.shared.log == Latest(Present(Records(m.jobs)), MAX_ENTRIES)
  {
    FrontierLog(m, n);
    WaitingHaveNoInputs(m, n);
    WaitingLeavesLog(m.jobs, if Entered(m, n) then n + 1 else n);
    LogOfRecords(Records(m.jobs));
  }

  /**
   In every interleaving the log holds the last 10,000 records, in queue order: one for each MATCH_V1 call answered
   with a payload so far, and none for any other call, whether refused, thrown, still running or waiting.
   */
  lemma LogHoldsAnsweredTrades(es: seq<ServerEvent>)
    requires Legal(SERVER, Initial(INITIAL), es)
    ensures var m := Run(SERVER, Initial(INITIAL), es);
            && m.shared.log == Latest(Present(Records(m.jobs)), 10_000)
            && forall k :: 0 <= k < |m.jobs| ==> (Records(m.jobs)[k].Some? <==> Traded(m.jobs[k]))
  {
    var m := Run(SERVER, Initial(INITIAL), es);
    InitialInv<Task, Shared, External, Response>(SERVER, INITIAL);
    var n := RunKeepsInv(SERVER, INITIAL, Initial(INITIAL), 0, es);
    LogAtFrontier(m, n);
    forall k | 0 <= k < |m.jobs| ensures RecordOf(m.jobs[k]).Some? <==> Traded(m.jobs[k]) {
      JobMatchesReplay(m, n, k);
    }
  }
}
