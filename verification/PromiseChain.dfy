/**
 The promise chain that serializes every handler call and state read of the action server
 (and, with the same two lines of code, every attestation request of the relayer).

 The machine below is the ECMA-262 picture of that code: promises are cells that settle once, `then`
 (section 27.2.5.4) adds a derived cell with one callback per settlement, and a callback fires at some
 later moment, in any order the run-time likes, once its parent has settled. Callbacks that enter a job
 run the job's first segment; a job continues segment by segment, with other events in between, and the
 derived cell settles after the job's own body has ended.
 */
module PromiseChain {
  import Wrappers

  // ---- Jobs -----------------------------------------------------------------------------------

  datatype Outcome<+R> = Returned(value: R) | Threw

  /** What one atomic segment of a job (the code between two awaits) does. */
  datatype Next<+L, +S, +R> =
    | More(local: L, shared: S)
    | Done(shared: S, out: Outcome<R>)

  /** A segment reads the job's local state, the shared state and one input from outside. */
  type Program<!L, !S, !I, +R> = (L, S, I) -> Next<L, S, R>

  datatype Phase<+L, +R> = Waiting | Running(local: L) | Finished(out: Outcome<R>)

  /** `inputs` records the outside input of every segment executed so far. */
  datatype Job<+L, +I, +R> = Job(task: L, phase: Phase<L, R>, inputs: seq<I>)

  // ---- Promises -------------------------------------------------------------------------------

  datatype Status = Pending | Fulfilled | Rejected

  /** `Absent` is a callback not passed to `then`: the parent's settlement is copied. */
  datatype Callback = Absent | Enter(job: nat) | ReturnUndefined

  datatype Promise = Promise(status: Status, parent: nat,
                             onFulfilled: Callback, onRejected: Callback, fired: bool)

  datatype Machine<+L, +S, +I, +R> = Machine(
    promises: seq<Promise>,
    queue: nat,             // the promise stored in the `queue` field
    jobs: seq<Job<L, I, R>>,
    shared: S,              // module-level handler state
    started: seq<nat>       // jobs in the order in which they were entered
  )

  datatype Event<+L, +I> =
    | Arrive(task: L)                 // serialize(fn) is called
    | React(promise: nat, input: I)   // a callback fires
    | Resume(job: nat, input: I)      // an awaited operation of a started job completes
    | Settle(promise: nat)            // a derived promise takes over its job's outcome

  function Initial<L, S, I, R>(s0: S): Machine<L, S, I, R> {
    Machine([Promise(Fulfilled, 0, Absent, Absent, true)], 0, [], s0, [])
  }

  function AfterThen<L, S, I, R>(m: Machine<L, S, I, R>, parent: nat, onFulfilled: Callback, onRejected: Callback)
    : Machine<L, S, I, R>
  {
    m.(promises := m.promises + [Promise(Pending, parent, onFulfilled, onRejected, false)])
  }

  function AfterSerialize<L, S, I, R>(m: Machine<L, S, I, R>, task: L): Machine<L, S, I, R> {
    var job := |m.jobs|;
    var run := |m.promises|;
    var m1 := AfterThen(m.(jobs := m.jobs + [Job(task, Waiting, [])]), m.queue, Enter(job), Enter(job));
    var m2 := AfterThen(m1, run, ReturnUndefined, ReturnUndefined);
    m2.(queue := run + 1)
  }

  predicate Ready<L, S, I, R>(m: Machine<L, S, I, R>, p: nat) {
    && p < |m.promises|
    && m.promises[p].parent < |m.promises|
    && m.promises[m.promises[p].parent].status != Pending
  }

  /** The callback selected by the parent's settlement. */
  function Chosen<L, S, I, R>(m: Machine<L, S, I, R>, p: nat): Callback
    requires Ready(m, p)
  {
    if m.promises[m.promises[p].parent].status.Fulfilled? then m.promises[p].onFulfilled
    else m.promises[p].onRejected
  }

  predicate Enabled<L, S, I, R>(m: Machine<L, S, I, R>, e: Event<L, I>) {
    match e
    case Arrive(_) => true
    case React(p, _) =>
      && Ready(m, p)
      && !m.promises[p].fired
      && (Chosen(m, p).Enter? ==> Chosen(m, p).job < |m.jobs|)
    case Resume(k, _) => k < |m.jobs| && m.jobs[k].phase.Running?
    case Settle(p) =>
      && Ready(m, p)
      && m.promises[p].fired
      && m.promises[p].status.Pending?
      && Chosen(m, p).Enter?
      && Chosen(m, p).job < |m.jobs|
      && m.jobs[Chosen(m, p).job].phase.Finished?
  }

  function Segment<L, S, I, R>(prog: Program<L, S, I, R>, m: Machine<L, S, I, R>, k: nat, local: L, input: I)
    : Machine<L, S, I, R>
    requires k < |m.jobs|
  {
    var job := m.jobs[k].(inputs := m.jobs[k].inputs + [input]);
    match prog(local, m.shared, input)
    case More(l, s) => m.(jobs := m.jobs[k := job.(phase := Running(l))], shared := s)
    case Done(s, out) => m.(jobs := m.jobs[k := job.(phase := Finished(out))], shared := s)
  }

  function StatusOf<R>(out: Outcome<R>): Status {
    if out.Returned? then Fulfilled else Rejected
  }

  function WithPromise<L, S, I, R>(m: Machine<L, S, I, R>, p: nat, cell: Promise): Machine<L, S, I, R>
    requires p < |m.promises|
  {
    m.(promises := m.promises[p := cell])
  }

  function Step<L, S, I, R>(prog: Program<L, S, I, R>, m: Machine<L, S, I, R>, e: Event<L, I>)
    : Machine<L, S, I, R>
    requires Enabled(m, e)
  {
    match e
    case Arrive(task) => AfterSerialize(m, task)
    case React(p, input) =>
      var cell := m.promises[p].(fired := true);
      (match Chosen(m, p)
       case Absent => WithPromise(m, p, cell.(status := m.promises[cell.parent].status))
       case ReturnUndefined => WithPromise(m, p, cell.(status := Fulfilled))
       case Enter(k) =>
         Segment(prog, WithPromise(m, p, cell).(started := m.started + [k]), k, m.jobs[k].task, input))
    case Resume(k, input) => Segment(prog, m, k, m.jobs[k].phase.local, input)
    case Settle(p) =>
      WithPromise(m, p, m.promises[p].(status := StatusOf(m.jobs[Chosen(m, p).job].phase.out)))
  }

  // ---- Runs -----------------------------------------------------------------------------------

  predicate Legal<L, S, I, R>(prog: Program<L, S, I, R>, m: Machine<L, S, I, R>, es: seq<Event<L, I>>)
    decreases |es|
  {
    es == [] || (Enabled(m, es[0]) && Legal(prog, Step(prog, m, es[0]), es[1..]))
  }

  function Run<L, S, I, R>(prog: Program<L, S, I, R>, m: Machine<L, S, I, R>, es: seq<Event<L, I>>)
    : Machine<L, S, I, R>
    requires Legal(prog, m, es)
    decreases |es|
  {
    if es == [] then m else Run(prog, Step(prog, m, es[0]), es[1..])
  }

  /** The tasks handed to serialize, in the order of the calls. */
  function Arrivals<L, I>(es: seq<Event<L, I>>): seq<L> {
    if es == [] then []
    else (if es[0].Arrive? then [es[0].task] else []) + Arrivals(es[1..])
  }

  // ---- The sequential reference -----------------------------------------------------------------

  /** One job executed alone, without interruption, on the given inputs. */
  function Replay<L, S, I, R>(prog: Program<L, S, I, R>, local: L, s: S, inputs: seq<I>): (Phase<L, R>, S) {
    if inputs == [] then (Running(local), s)
    else
      match prog(local, s, inputs[0])
      case More(l, s') => Replay(prog, l, s', inputs[1..])
      case Done(s', out) => (Finished(out), s')
  }

  /** Shared state after executing all the given jobs one after the other. */
  function Sequential<L, S, I, R>(prog: Program<L, S, I, R>, s0: S, jobs: seq<Job<L, I, R>>): S {
    if jobs == [] then s0
    else
      var last := jobs[|jobs| - 1];
      Replay(prog, last.task, Sequential(prog, s0, jobs[..|jobs| - 1]), last.inputs).1
  }

  /** Job k ended exactly as it does when jobs 0, 1, ..., k run one after the other. */
  ghost predicate EndsAsSequential<L, S, I, R>(prog: Program<L, S, I, R>, s0: S, jobs: seq<Job<L, I, R>>, k: nat)
    requires k < |jobs|
  {
    && jobs[k].phase.Finished?
    && Replay(prog, jobs[k].task, Sequential(prog, s0, jobs[..k]), jobs[k].inputs).0 == jobs[k].phase
  }

  lemma {:induction false} ReplaySnoc<L, S, I, R>(prog: Program<L, S, I, R>, local: L, s: S, inputs: seq<I>, input: I)
    requires Replay(prog, local, s, inputs).0.Running?
    ensures Replay(prog, local, s, inputs + [input]) ==
            (match prog(Replay(prog, local, s, inputs).0.local, Replay(prog, local, s, inputs).1, input)
             case More(l, s') => (Running(l), s')
             case Done(s', out) => (Finished(out), s'))
  {
    if inputs == [] {
      assert (inputs + [input])[1..] == [];
    } else {
      assert (inputs + [input])[1..] == inputs[1..] + [input];
      match prog(local, s, inputs[0])
      case More(l, s') => ReplaySnoc(prog, l, s', inputs[1..], input);
      case Done(_, _) =>
    }
  }

  // ---- The invariant ----------------------------------------------------------------------------

  function RunId(k: nat): nat { 2 * k + 1 }    // the promise returned by the k-th serialize call

  function QueueId(k: nat): nat { 2 * k }      // the promise stored in `queue` after k calls

  /** The two cells allocated by the k-th serialize call. */
  ghost predicate Linked<L, S, I, R>(m: Machine<L, S, I, R>, k: nat)
    requires QueueId(k + 1) < |m.promises|
  {
    && m.promises[RunId(k)].parent == QueueId(k)
    && m.promises[RunId(k)].onFulfilled == Enter(k)
    && m.promises[RunId(k)].onRejected == Enter(k)
    && m.promises[QueueId(k + 1)].parent == RunId(k)
    && m.promises[QueueId(k + 1)].onFulfilled == ReturnUndefined
    && m.promises[QueueId(k + 1)].onRejected == ReturnUndefined
  }

  ghost predicate Shape<L, S, I, R>(m: Machine<L, S, I, R>) {
    && |m.promises| == QueueId(|m.jobs|) + 1
    && m.queue == QueueId(|m.jobs|)
    && Settled(m, 0)
    && forall k :: 0 <= k < |m.jobs| ==> Linked(m, k)
  }

  ghost predicate Unfired<L, S, I, R>(m: Machine<L, S, I, R>, p: nat)
    requires p < |m.promises|
  {
    m.promises[p].status == Pending && !m.promises[p].fired
  }

  ghost predicate Settled<L, S, I, R>(m: Machine<L, S, I, R>, p: nat)
    requires p < |m.promises|
  {
    m.promises[p].status == Fulfilled && m.promises[p].fired
  }

  ghost predicate Untouched<L, S, I, R>(m: Machine<L, S, I, R>, k: nat)
    requires k < |m.jobs| && QueueId(k + 1) < |m.promises|
  {
    && Unfired(m, RunId(k))
    && Unfired(m, QueueId(k + 1))
    && m.jobs[k].phase == Waiting
    && m.jobs[k].inputs == []
  }

  ghost predicate Completed<L, S, I, R>(prog: Program<L, S, I, R>, s0: S, m: Machine<L, S, I, R>, k: nat)
    requires k < |m.jobs| && QueueId(k + 1) < |m.promises|
  {
    && Settled(m, QueueId(k))
    && m.promises[RunId(k)].fired
    && EndsAsSequential(prog, s0, m.jobs, k)
    && m.promises[RunId(k)].status == StatusOf(m.jobs[k].phase.out)
  }

  ghost predicate Entered<L, S, I, R>(m: Machine<L, S, I, R>, n: nat) {
    n < |m.jobs| && RunId(n) < |m.promises| && m.promises[RunId(n)].fired
  }

  /** Job n, the first whose run promise is pending: it runs alone, or nothing runs. */
  ghost predicate Frontier<L, S, I, R>(prog: Program<L, S, I, R>, s0: S, m: Machine<L, S, I, R>, n: nat)
    requires n <= |m.jobs| && QueueId(|m.jobs|) < |m.promises|
  {
    var before := Sequential(prog, s0, m.jobs[..n]);
    if Entered(m, n) then
      && m.promises[RunId(n)].status == Pending
      && Settled(m, QueueId(n))
      && Unfired(m, QueueId(n + 1))
      && !m.jobs[n].phase.Waiting?
      && Replay(prog, m.jobs[n].task, before, m.jobs[n].inputs) == (m.jobs[n].phase, m.shared)
    else
      && m.shared == before
      && (Settled(m, QueueId(n)) || Unfired(m, QueueId(n)))
      && (n < |m.jobs| ==> Untouched(m, n))
  }

  ghost predicate StartedInOrder<L, S, I, R>(m: Machine<L, S, I, R>, n: nat) {
    && |m.started| == n + (if Entered(m, n) then 1 else 0)
    && forall i :: 0 <= i < |m.started| ==> m.started[i] == i
  }

  ghost predicate InvAt<L, S, I, R>(prog: Program<L, S, I, R>, s0: S, m: Machine<L, S, I, R>, n: nat) {
    && Shape(m)
    && n <= |m.jobs|
    && (forall k :: 0 <= k < n ==> Completed(prog, s0, m, k))
    && Frontier(prog, s0, m, n)
    && (forall k :: n < k < |m.jobs| ==> Untouched(m, k))
    && StartedInOrder(m, n)
  }

  lemma InitialInv<L, S, I, R>(prog: Program<L, S, I, R>, s0: S)
    ensures InvAt(prog, s0, Initial<L, S, I, R>(s0), 0)
  {
  }

  /** The number of settled run promises after the event. */
  function Advance<L, I>(n: nat, e: Event<L, I>): nat {
    if e.Settle? then n + 1 else n
  }

  lemma ArriveKeepsInv<L, S, I, R>(prog: Program<L, S, I, R>, s0: S, m: Machine<L, S, I, R>, n: nat, task: L)
    requires InvAt(prog, s0, m, n)
    ensures InvAt(prog, s0, AfterSerialize(m, task), n)
  {
    var m' := AfterSerialize(m, task);
    assert m'.promises[..|m.promises|] == m.promises;
    assert m'.jobs[..n] == m.jobs[..n];
    forall k | 0 <= k < |m'.jobs| ensures Linked(m', k) {
      if k < |m.jobs| { assert Linked(m, k); }
    }
    forall k | 0 <= k < n ensures Completed(prog, s0, m', k) {
      assert Completed(prog, s0, m, k);
      assert m'.jobs[..k] == m.jobs[..k];
    }
    forall k | n < k < |m'.jobs| ensures Untouched(m', k) {
      if k < |m.jobs| { assert Untouched(m, k); }
    }
  }

  /** Only the frontier's own cells can react, resume or settle. */
  lemma EnabledAtFrontier<L, S, I, R>(prog: Program<L, S, I, R>, s0: S, m: Machine<L, S, I, R>, n: nat, e: Event<L, I>)
    requires InvAt(prog, s0, m, n) && Enabled(m, e)
    ensures match e
            case Arrive(_) => true
            case React(p, _) =>
              || (p == QueueId(n) && n > 0 && Unfired(m, p))
              || (p == RunId(n) && n < |m.jobs| && !Entered(m, n) && Settled(m, QueueId(n)))
            case Resume(k, _) => k == n && Entered(m, n)
            case Settle(p) => p == RunId(n) && Entered(m, n) && m.jobs[n].phase.Finished?
  {
    match e
    case Arrive(_) =>
    case React(p, _) => CellsElsewhere(prog, s0, m, n, p);
    case Resume(k, _) =>
      assert k < n ==> Completed(prog, s0, m, k);
      assert k > n ==> Untouched(m, k);
    case Settle(p) => CellsElsewhere(prog, s0, m, n, p);
  }

  lemma CellsElsewhere<L, S, I, R>(prog: Program<L, S, I, R>, s0: S, m: Machine<L, S, I, R>, n: nat, p: nat)
    requires InvAt(prog, s0, m, n) && Ready(m, p)
    ensures p == QueueId(n) || p == RunId(n) ||
            (m.promises[p].fired && !m.promises[p].status.Pending?)
    ensures p == QueueId(n) && n > 0 ==> Chosen(m, p) == ReturnUndefined
    ensures p == RunId(n) ==> n < |m.jobs| && Chosen(m, p) == Enter(n) && Settled(m, QueueId(n))
  {
    var k := (p - 1) / 2;
    if p == 0 {
    } else if p % 2 == 1 {
      assert p == RunId(k) && Linked(m, k);
      assert k < n ==> Completed(prog, s0, m, k);
      if k > n { LaterQueuePending(prog, s0, m, n, k); }
    } else {
      assert p == QueueId(k + 1) && Linked(m, k);
      assert k + 1 < n ==> Completed(prog, s0, m, k + 1);
      if k > n { LaterRunPending(prog, s0, m, n, k); }
    }
  }

  lemma LaterQueuePending<L, S, I, R>(prog: Program<L, S, I, R>, s0: S, m: Machine<L, S, I, R>, n: nat, k: nat)
    requires InvAt(prog, s0, m, n) && n < k <= |m.jobs|
    ensures Unfired(m, QueueId(k))
  {
    if k == n + 1 {
    } else {
      assert Untouched(m, k - 1);
    }
  }

  lemma LaterRunPending<L, S, I, R>(prog: Program<L, S, I, R>, s0: S, m: Machine<L, S, I, R>, n: nat, k: nat)
    requires InvAt(prog, s0, m, n) && n < k < |m.jobs|
    ensures Unfired(m, RunId(k))
  {
    assert Untouched(m, k);
  }

  lemma EarlierSettled<L, S, I, R>(prog: Program<L, S, I, R>, s0: S, m: Machine<L, S, I, R>, n: nat, k: nat)
    requires InvAt(prog, s0, m, n) && k < n
    ensures !m.promises[RunId(k)].status.Pending?
  {
    assert Completed(prog, s0, m, k);
  }

  lemma ReactKeepsInv<L, S, I, R>(prog: Program<L, S, I, R>, s0: S, m: Machine<L, S, I, R>, n: nat, e: Event<L, I>)
    requires InvAt(prog, s0, m, n) && Enabled(m, e) && e.React?
    ensures InvAt(prog, s0, Step(prog, m, e), n)
  {
    EnabledAtFrontier(prog, s0, m, n, e);
    CellsElsewhere(prog, s0, m, n, e.promise);
    var m' := Step(prog, m, e);
    if e.promise == RunId(n) {
      ReplaySnoc(prog, m.jobs[n].task, m.shared, [], e.input);
    }
    FrameInv(prog, s0, m, m', n);
  }

  lemma ResumeKeepsInv<L, S, I, R>(prog: Program<L, S, I, R>, s0: S, m: Machine<L, S, I, R>, n: nat, e: Event<L, I>)
    requires InvAt(prog, s0, m, n) && Enabled(m, e) && e.Resume?
    ensures InvAt(prog, s0, Step(prog, m, e), n)
  {
    EnabledAtFrontier(prog, s0, m, n, e);
    var m' := Step(prog, m, e);
    ReplaySnoc(prog, m.jobs[n].task, Sequential(prog, s0, m.jobs[..n]), m.jobs[n].inputs, e.input);
    FrameInv(prog, s0, m, m', n);
  }

  /** Events at the frontier leave every other cell and job alone. */
  lemma FrameInv<L, S, I, R>(prog: Program<L, S, I, R>, s0: S, m: Machine<L, S, I, R>, m': Machine<L, S, I, R>, n: nat)
    requires InvAt(prog, s0, m, n)
    requires |m'.jobs| == |m.jobs| && |m'.promises| == |m.promises| && m'.queue == m.queue
    requires forall k :: 0 <= k < |m.jobs| && k != n ==> m'.jobs[k] == m.jobs[k]
    requires forall p :: 0 <= p < |m.promises| && p != QueueId(n) && p != RunId(n) ==> m'.promises[p] == m.promises[p]
    requires forall p :: 0 <= p < |m.promises| ==>
               && m'.promises[p].parent == m.promises[p].parent
               && m'.promises[p].onFulfilled == m.promises[p].onFulfilled
               && m'.promises[p].onRejected == m.promises[p].onRejected
    requires Settled(m, QueueId(n)) ==> Settled(m', QueueId(n))
    ensures Shape(m') && m'.jobs[..n] == m.jobs[..n]
    ensures forall k :: 0 <= k < n ==> Completed(prog, s0, m', k)
    ensures forall k :: n < k < |m.jobs| ==> Untouched(m', k)
  {
    forall k | 0 <= k < |m'.jobs| ensures Linked(m', k) { assert Linked(m, k); }
    forall k | 0 <= k < n ensures Completed(prog, s0, m', k) {
      assert Completed(prog, s0, m, k);
      assert m'.jobs[..k] == m.jobs[..k];
    }
    forall k | n < k < |m'.jobs| ensures Untouched(m', k) { assert Untouched(m, k); }
  }

  lemma SettleKeepsInv<L, S, I, R>(prog: Program<L, S, I, R>, s0: S, m: Machine<L, S, I, R>, n: nat, e: Event<L, I>)
    requires InvAt(prog, s0, m, n) && Enabled(m, e) && e.Settle?
    ensures InvAt(prog, s0, Step(prog, m, e), n + 1)
  {
    EnabledAtFrontier(prog, s0, m, n, e);
    CellsElsewhere(prog, s0, m, n, e.promise);
    var m' := Step(prog, m, e);
    FrameInv(prog, s0, m, m', n);
    assert m'.jobs[..n + 1][..n] == m'.jobs[..n];
    assert Completed(prog, s0, m', n);
    assert n + 1 < |m.jobs| ==> Untouched(m', n + 1);
  }

  lemma StepKeepsInv<L, S, I, R>(prog: Program<L, S, I, R>, s0: S, m: Machine<L, S, I, R>, n: nat, e: Event<L, I>)
    requires InvAt(prog, s0, m, n) && Enabled(m, e)
    ensures InvAt(prog, s0, Step(prog, m, e), Advance(n, e))
  {
    match e
    case Arrive(task) => ArriveKeepsInv(prog, s0, m, n, task);
    case React(_, _) => ReactKeepsInv(prog, s0, m, n, e);
    case Resume(_, _) => ResumeKeepsInv(prog, s0, m, n, e);
    case Settle(_) => SettleKeepsInv(prog, s0, m, n, e);
  }

  // ---- What holds of every run ------------------------------------------------------------------

  lemma {:induction false} RunKeepsInv<L, S, I, R>(
    prog: Program<L, S, I, R>, s0: S, m: Machine<L, S, I, R>, n: nat, es: seq<Event<L, I>>) returns (n': nat)
    requires InvAt(prog, s0, m, n) && Legal(prog, m, es)
    ensures InvAt(prog, s0, Run(prog, m, es), n')
    decreases |es|
  {
    if es == [] {
      n' := n;
    } else {
      StepKeepsInv(prog, s0, m, n, es[0]);
      n' := RunKeepsInv(prog, s0, Step(prog, m, es[0]), Advance(n, es[0]), es[1..]);
    }
  }

  /** A job has been entered and its run promise is still pending. */
  ghost predicate Busy<L, S, I, R>(m: Machine<L, S, I, R>, k: nat) {
    Entered(m, k) && m.promises[RunId(k)].status == Pending
  }

  /** The started jobs are 0, 1, 2, ...: the order of the serialize calls. */
  ghost predicate InOrder(started: seq<nat>) {
    forall i :: 0 <= i < |started| ==> started[i] == i
  }

  lemma MutualExclusionAndOrder<L, S, I, R>(prog: Program<L, S, I, R>, s0: S, es: seq<Event<L, I>>)
    requires Legal(prog, Initial(s0), es)
    ensures var m := Run(prog, Initial(s0), es);
            && (forall j, k :: Busy(m, j) && Busy(m, k) ==> j == k)
            && InOrder(m.started)
            && (forall j, k :: 0 <= j < k && Entered(m, k) ==> !Busy(m, j) && Entered(m, j))
            && (forall k :: Busy(m, k) ==> m.started != [] && m.started[|m.started| - 1] == k)
            && m.queue < |m.promises| && m.promises[m.queue].status != Rejected
  {
    var m := Run(prog, Initial(s0), es);
    InitialInv<L, S, I, R>(prog, s0);
    var n := RunKeepsInv(prog, s0, Initial(s0), 0, es);
    forall k: nat | Busy(m, k) ensures k == n {
      if k < n { EarlierSettled(prog, s0, m, n, k); }
      if k > n { LaterRunPending(prog, s0, m, n, k); }
    }
    forall j: nat, k: nat | j < k && Entered(m, k) ensures !Busy(m, j) && Entered(m, j) {
      if k > n { LaterRunPending(prog, s0, m, n, k); }
      assert Completed(prog, s0, m, j);
    }
    if n < |m.jobs| { LaterQueuePending(prog, s0, m, n, |m.jobs|); }
  }

  lemma RunOne<L, S, I, R>(prog: Program<L, S, I, R>, m: Machine<L, S, I, R>, e: Event<L, I>)
    requires Enabled(m, e)
    ensures Legal(prog, m, [e]) && Run(prog, m, [e]) == Step(prog, m, e)
  {
    assert [e][1..] == [];
  }

  lemma EnterFrontier<L, S, I, R>(prog: Program<L, S, I, R>, s0: S, m: Machine<L, S, I, R>, n: nat, input: I)
    requires InvAt(prog, s0, m, n) && n < |m.jobs| && !Entered(m, n) && Settled(m, QueueId(n))
    ensures Enabled(m, React(RunId(n), input))
    ensures Step(prog, m, React(RunId(n), input)).started == m.started + [n]
    ensures Busy(Step(prog, m, React(RunId(n), input)), n)
  {
    assert Linked(m, n);
    CellsElsewhere(prog, s0, m, n, RunId(n));
  }

  lemma PassFrontier<L, S, I, R>(prog: Program<L, S, I, R>, s0: S, m: Machine<L, S, I, R>, n: nat, input: I)
    requires InvAt(prog, s0, m, n) && 0 < n < |m.jobs| && Unfired(m, QueueId(n))
    ensures var e: Event<L, I> := React(QueueId(n), input);
            && Enabled(m, e)
            && var m1 := Step(prog, m, e);
               && m1.started == m.started && m1.jobs == m.jobs
               && InvAt(prog, s0, m1, n) && !Entered(m1, n) && Settled(m1, QueueId(n))
  {
    assert Linked(m, n - 1) && Completed(prog, s0, m, n - 1);
    CellsElsewhere(prog, s0, m, n, QueueId(n));
    StepKeepsInv(prog, s0, m, n, React(QueueId(n), input));
  }

  /** A job whose body has ended can settle, and then hands over to the next one. */
  lemma SettleFrontier<L, S, I, R>(prog: Program<L, S, I, R>, s0: S, m: Machine<L, S, I, R>, n: nat)
    requires InvAt(prog, s0, m, n) && Entered(m, n) && m.jobs[n].phase.Finished?
    ensures var e: Event<L, I> := Settle(RunId(n));
            && Enabled(m, e)
            && var m1 := Step(prog, m, e);
               && InvAt(prog, s0, m1, n + 1) && m1.started == m.started && |m1.jobs| == |m.jobs|
               && (n + 1 < |m.jobs| ==> !Entered(m1, n + 1) && Unfired(m1, QueueId(n + 1)))
  {
    assert Linked(m, n);
    CellsElsewhere(prog, s0, m, n, RunId(n));
    SettleKeepsInv(prog, s0, m, n, Settle(RunId(n)));
    if n + 1 < |m.jobs| { assert Untouched(m, n + 1); }
  }

  /** The callbacks that start the next job once the one before it has settled. */
  lemma KickIdle<L, S, I, R>(prog: Program<L, S, I, R>, s0: S, m: Machine<L, S, I, R>, n: nat, input: I)
    returns (kick: seq<Event<L, I>>)
    requires InvAt(prog, s0, m, n) && n < |m.jobs| && !Entered(m, n)
    ensures |kick| <= 2 && Legal(prog, m, kick)
    ensures Run(prog, m, kick).started == m.started + [n] && Busy(Run(prog, m, kick), n)
  {
    var enter: Event<L, I> := React(RunId(n), input);
    if Settled(m, QueueId(n)) {
      EnterFrontier(prog, s0, m, n, input);
      kick := [enter];
      RunOne(prog, m, enter);
    } else {
      var pass: Event<L, I> := React(QueueId(n), input);
      PassFrontier(prog, s0, m, n, input);
      var m1 := Step(prog, m, pass);
      EnterFrontier(prog, s0, m1, n, input);
      kick := [pass, enter];
      RunOne(prog, m1, enter);
      assert kick[1..] == [enter];
    }
  }

  /**
   Whatever became of the earlier jobs, as long as no job's body is still running, at most three events that are
   all enabled start the next waiting job: a settlement and two callbacks.
   */
  lemma NeverWedged<L, S, I, R>(prog: Program<L, S, I, R>, s0: S, es: seq<Event<L, I>>, input: I)
    returns (kick: seq<Event<L, I>>)
    requires Legal(prog, Initial(s0), es)
    requires var m := Run(prog, Initial(s0), es);
             |m.started| < |m.jobs| && forall k :: 0 <= k < |m.jobs| ==> !m.jobs[k].phase.Running?
    ensures |kick| <= 3
    ensures var m := Run(prog, Initial(s0), es);
            && Legal(prog, m, kick)
            && Run(prog, m, kick).started == m.started + [|m.started|]
            && Busy(Run(prog, m, kick), |m.started|)
  {
    var m := Run(prog, Initial(s0), es);
    InitialInv<L, S, I, R>(prog, s0);
    var n := RunKeepsInv(prog, s0, Initial(s0), 0, es);
    if Entered(m, n) {
      var settle: Event<L, I> := Settle(RunId(n));
      SettleFrontier(prog, s0, m, n);
      var rest := KickIdle(prog, s0, Step(prog, m, settle), n + 1, input);
      kick := [settle] + rest;
      assert kick[0] == settle && kick[1..] == rest;
    } else {
      kick := KickIdle(prog, s0, m, n, input);
    }
  }

  /** The inputs consumed by job k in a run. */
  function InputsOf<L, I>(es: seq<Event<L, I>>, k: nat): seq<I> {
    if es == [] then []
    else
      (match es[0]
       case React(p, i) => if p == RunId(k) then [i] else []
       case Resume(j, i) => if j == k then [i] else []
       case _ => []) + InputsOf(es[1..], k)
  }

  /** Job k of `after` is what the trace between the two machines says about it. */
  ghost predicate JobMatch<L, S, I, R>(
    before: Machine<L, S, I, R>, es: seq<Event<L, I>>, after: Machine<L, S, I, R>, k: nat)
  {
    && |after.jobs| == |before.jobs| + |Arrivals(es)|
    && (k < |after.jobs| ==>
          && after.jobs[k].task ==
             (if k < |before.jobs| then before.jobs[k].task else Arrivals(es)[k - |before.jobs|])
          && after.jobs[k].inputs ==
             (if k < |before.jobs| then before.jobs[k].inputs else []) + InputsOf(es, k))
    && (k >= |after.jobs| ==> InputsOf(es, k) == [])
  }

  lemma TraceOfOne<L, I>(e: Event<L, I>, k: nat)
    ensures InputsOf([e], k) == (if e.React? && e.promise == RunId(k) then [e.input]
                                 else if e.Resume? && e.job == k then [e.input] else [])
    ensures Arrivals([e]) == if e.Arrive? then [e.task] else []
  {
    assert [e][1..] == [];
  }

  lemma JobFromArrive<L, S, I, R>(m: Machine<L, S, I, R>, task: L, k: nat)
    ensures JobMatch(m, [Arrive(task)], AfterSerialize(m, task), k)
  {
    TraceOfOne<L, I>(Arrive(task), k);
  }

  /** One segment of job j, entered by `e`, appends its input to that job and leaves the others alone. */
  lemma JobFromSegment<L, S, I, R>(prog: Program<L, S, I, R>, m: Machine<L, S, I, R>, m1: Machine<L, S, I, R>,
                                   j: nat, local: L, input: I, e: Event<L, I>, k: nat)
    requires j < |m.jobs| && m1.jobs == m.jobs
    requires e == React(RunId(j), input) || e == Resume(j, input)
    ensures JobMatch(m, [e], Segment(prog, m1, j, local, input), k)
  {
    TraceOfOne(e, k);
  }

  lemma JobFromEvent<L, S, I, R>(
    prog: Program<L, S, I, R>, s0: S, m: Machine<L, S, I, R>, n: nat, e: Event<L, I>, k: nat)
    requires InvAt(prog, s0, m, n) && Enabled(m, e)
    ensures JobMatch(m, [e], Step(prog, m, e), k)
  {
    EnabledAtFrontier(prog, s0, m, n, e);
    match e
    case Arrive(task) => JobFromArrive(m, task, k);
    case React(p, input) => JobFromReact(prog, s0, m, n, p, input, k);
    case Resume(j, input) => JobFromSegment(prog, m, m, j, m.jobs[j].phase.local, input, e, k);
    case Settle(_) => TraceOfOne(e, k);
  }

  lemma JobFromReact<L, S, I, R>(
    prog: Program<L, S, I, R>, s0: S, m: Machine<L, S, I, R>, n: nat, p: nat, input: I, k: nat)
    requires InvAt(prog, s0, m, n) && Enabled(m, React(p, input))
    ensures JobMatch(m, [React(p, input)], Step(prog, m, React(p, input)), k)
  {
    var e: Event<L, I> := React(p, input);
    EnabledAtFrontier(prog, s0, m, n, e);
    CellsElsewhere(prog, s0, m, n, p);
    if p == RunId(n) {
      var m1 := WithPromise(m, p, m.promises[p].(fired := true)).(started := m.started + [n]);
      JobFromSegment(prog, m, m1, n, m.jobs[n].task, input, e, k);
    } else {
      TraceOfOne(e, k);
    }
  }

  lemma TraceCons<L, I>(es: seq<Event<L, I>>, k: nat)
    requires es != []
    ensures Arrivals(es) == Arrivals([es[0]]) + Arrivals(es[1..])
    ensures InputsOf(es, k) == InputsOf([es[0]], k) + InputsOf(es[1..], k)
  {
    TraceOfOne(es[0], k);
  }

  lemma JobMatchCompose<L, S, I, R>(
    m: Machine<L, S, I, R>, es: seq<Event<L, I>>, m1: Machine<L, S, I, R>, m2: Machine<L, S, I, R>, k: nat)
    requires es != [] && JobMatch(m, [es[0]], m1, k) && JobMatch(m1, es[1..], m2, k)
    ensures JobMatch(m, es, m2, k)
  {
    TraceCons(es, k);
    var x, y := InputsOf([es[0]], k), InputsOf(es[1..], k);
    if k < |m.jobs| {
      assert (m.jobs[k].inputs + x) + y == m.jobs[k].inputs + (x + y);
    } else if k < |m2.jobs| {
      assert [] + x + y == [] + (x + y);
    }
  }

  lemma {:induction false} JobFromTrace<L, S, I, R>(
    prog: Program<L, S, I, R>, s0: S, m: Machine<L, S, I, R>, n: nat, es: seq<Event<L, I>>, k: nat)
    requires InvAt(prog, s0, m, n) && Legal(prog, m, es)
    ensures JobMatch(m, es, Run(prog, m, es), k)
    decreases |es|
  {
    if es == [] {
    } else {
      var m1 := Step(prog, m, es[0]);
      StepKeepsInv(prog, s0, m, n, es[0]);
      JobFromEvent(prog, s0, m, n, es[0], k);
      JobFromTrace(prog, s0, m1, Advance(n, es[0]), es[1..], k);
      JobMatchCompose(m, es, m1, Run(prog, m, es), k);
    }
  }

  /**
   Linearizability. In every interleaving, the k-th queued job is the k-th serialize call, and once its run
   promise has settled, it settled with the very outcome of executing the calls one after the other, each on
   the inputs it was given.
   */
  lemma Linearizable<L, S, I, R>(prog: Program<L, S, I, R>, s0: S, es: seq<Event<L, I>>)
    requires Legal(prog, Initial(s0), es)
    ensures var m := Run(prog, Initial(s0), es);
            && |m.jobs| == |Arrivals(es)|
            && |m.promises| == 2 * |m.jobs| + 1
            && forall k :: 0 <= k < |m.jobs| ==>
                 && m.jobs[k].task == Arrivals(es)[k]
                 && m.jobs[k].inputs == InputsOf(es, k)
                 && (m.promises[RunId(k)].status != Pending ==>
                       && EndsAsSequential(prog, s0, m.jobs, k)
                       && (m.promises[RunId(k)].status == Fulfilled <==> m.jobs[k].phase.out.Returned?))
  {
    var m := Run(prog, Initial(s0), es);
    InitialInv<L, S, I, R>(prog, s0);
    var n := RunKeepsInv(prog, s0, Initial(s0), 0, es);
    JobFromTrace(prog, s0, Initial(s0), 0, es, 0);
    forall k | 0 <= k < |m.jobs|
      ensures m.jobs[k].task == Arrivals(es)[k] && m.jobs[k].inputs == InputsOf(es, k)
    {
      JobFromTrace(prog, s0, Initial(s0), 0, es, k);
      assert [] + InputsOf(es, k) == InputsOf(es, k);
    }
    forall k | 0 <= k < |m.jobs| && m.promises[RunId(k)].status != Pending
      ensures Completed(prog, s0, m, k)
    {
      assert k > n ==> Untouched(m, k);
    }
  }

  // ---- Refinement of a plain FIFO lock ------------------------------------------------------------

  datatype Lock = Lock(waiting: seq<nat>, holder: Wrappers.Option<nat>)

  datatype LockOp = Wait(id: nat) | Acquire(id: nat) | Release(id: nat) | Stutter

  predicate LockEnabled(l: Lock, op: LockOp) {
    match op
    case Wait(id) => id !in l.waiting && l.holder != Wrappers.Some(id)
    case Acquire(id) => l.holder.None? && l.waiting != [] && l.waiting[0] == id
    case Release(id) => l.holder == Wrappers.Some(id)
    case Stutter => true
  }

  function LockStep(l: Lock, op: LockOp): Lock
    requires LockEnabled(l, op)
  {
    match op
    case Wait(id) => l.(waiting := l.waiting + [id])
    case Acquire(id) => Lock(l.waiting[1..], Wrappers.Some(id))
    case Release(id) => l.(holder := Wrappers.None)
    case Stutter => l
  }

  /** The lock seen in a machine: jobs not yet entered wait, the last one entered holds until it settles. */
  ghost function AsLock<L, S, I, R>(m: Machine<L, S, I, R>): Lock {
    var first := |m.started|;
    Lock(seq(if first <= |m.jobs| then |m.jobs| - first else 0, i => first + i),
         if first > 0 && Busy(m, first - 1) then Wrappers.Some(first - 1) else Wrappers.None)
  }

  ghost function AsLockOp<L, S, I, R>(m: Machine<L, S, I, R>, e: Event<L, I>): LockOp
    requires Enabled(m, e)
  {
    match e
    case Arrive(_) => Wait(|m.jobs|)
    case React(p, _) => if Chosen(m, p).Enter? then Acquire(Chosen(m, p).job) else Stutter
    case Resume(_, _) => Stutter
    case Settle(p) => Release(Chosen(m, p).job)
  }

  lemma LockAtFrontier<L, S, I, R>(prog: Program<L, S, I, R>, s0: S, m: Machine<L, S, I, R>, n: nat)
    requires InvAt(prog, s0, m, n)
    ensures AsLock(m).holder == if Entered(m, n) then Wrappers.Some(n) else Wrappers.None
    ensures |m.started| <= |m.jobs| && |AsLock(m).waiting| == |m.jobs| - |m.started|
    ensures forall i :: 0 <= i < |AsLock(m).waiting| ==> AsLock(m).waiting[i] == |m.started| + i
  {
    if !Entered(m, n) && n > 0 { assert Completed(prog, s0, m, n - 1); }
  }

  /** One event is one operation of the lock. */
  lemma LockFollowsStep<L, S, I, R>(prog: Program<L, S, I, R>, s0: S, m: Machine<L, S, I, R>, n: nat, e: Event<L, I>)
    requires InvAt(prog, s0, m, n) && Enabled(m, e)
    ensures LockEnabled(AsLock(m), AsLockOp(m, e))
    ensures AsLock(Step(prog, m, e)) == LockStep(AsLock(m), AsLockOp(m, e))
  {
    match e
    case Arrive(task) => LockFollowsArrive(prog, s0, m, n, task);
    case React(_, _) => LockFollowsReact(prog, s0, m, n, e);
    case Resume(_, _) => EnabledAtFrontier(prog, s0, m, n, e);
    case Settle(_) => LockFollowsSettle(prog, s0, m, n, e);
  }

  lemma LockFollowsArrive<L, S, I, R>(prog: Program<L, S, I, R>, s0: S, m: Machine<L, S, I, R>, n: nat, task: L)
    requires InvAt(prog, s0, m, n)
    ensures LockEnabled(AsLock(m), Wait(|m.jobs|))
    ensures AsLock(AfterSerialize(m, task)) == LockStep(AsLock(m), Wait(|m.jobs|))
  {
    var m' := AfterSerialize(m, task);
    LockAtFrontier(prog, s0, m, n);
    ArriveKeepsInv(prog, s0, m, n, task);
    LockAtFrontier(prog, s0, m', n);
    assert AsLock(m').waiting == AsLock(m).waiting + [|m.jobs|];
  }

  lemma LockFollowsReact<L, S, I, R>(prog: Program<L, S, I, R>, s0: S, m: Machine<L, S, I, R>, n: nat, e: Event<L, I>)
    requires InvAt(prog, s0, m, n) && Enabled(m, e) && e.React?
    ensures LockEnabled(AsLock(m), AsLockOp(m, e))
    ensures AsLock(Step(prog, m, e)) == LockStep(AsLock(m), AsLockOp(m, e))
  {
    var m' := Step(prog, m, e);
    LockAtFrontier(prog, s0, m, n);
    EnabledAtFrontier(prog, s0, m, n, e);
    CellsElsewhere(prog, s0, m, n, e.promise);
    StepKeepsInv(prog, s0, m, n, e);
    LockAtFrontier(prog, s0, m', n);
    if e.promise == RunId(n) {
      assert AsLock(m').waiting == AsLock(m).waiting[1..];
    } else {
      assert AsLock(m').waiting == AsLock(m).waiting;
    }
  }

  lemma LockFollowsSettle<L, S, I, R>(prog: Program<L, S, I, R>, s0: S, m: Machine<L, S, I, R>, n: nat, e: Event<L, I>)
    requires InvAt(prog, s0, m, n) && Enabled(m, e) && e.Settle?
    ensures LockEnabled(AsLock(m), AsLockOp(m, e))
    ensures AsLock(Step(prog, m, e)) == LockStep(AsLock(m), AsLockOp(m, e))
  {
    var m' := Step(prog, m, e);
    LockAtFrontier(prog, s0, m, n);
    EnabledAtFrontier(prog, s0, m, n, e);
    CellsElsewhere(prog, s0, m, n, e.promise);
    StepKeepsInv(prog, s0, m, n, e);
    LockAtFrontier(prog, s0, m', n + 1);
    if n + 1 < |m.jobs| { assert Untouched(m, n + 1); }
    assert AsLock(m').waiting == AsLock(m).waiting;
  }

  ghost predicate LockLegal(l: Lock, ops: seq<LockOp>)
    decreases |ops|
  {
    ops == [] || (LockEnabled(l, ops[0]) && LockLegal(LockStep(l, ops[0]), ops[1..]))
  }

  ghost function LockRun(l: Lock, ops: seq<LockOp>): Lock
    requires LockLegal(l, ops)
    decreases |ops|
  {
    if ops == [] then l else LockRun(LockStep(l, ops[0]), ops[1..])
  }

  /** The lock operations of a run, one per event. */
  ghost function LockOps<L, S, I, R>(prog: Program<L, S, I, R>, m: Machine<L, S, I, R>, es: seq<Event<L, I>>)
    : (ops: seq<LockOp>)
    requires Legal(prog, m, es)
    ensures |ops| == |es|
    decreases |es|
  {
    if es == [] then [] else [AsLockOp(m, es[0])] + LockOps(prog, Step(prog, m, es[0]), es[1..])
  }

  lemma {:induction false} LockFollowsRun<L, S, I, R>(
    prog: Program<L, S, I, R>, s0: S, m: Machine<L, S, I, R>, n: nat, es: seq<Event<L, I>>)
    requires InvAt(prog, s0, m, n) && Legal(prog, m, es)
    ensures LockLegal(AsLock(m), LockOps(prog, m, es))
    ensures LockRun(AsLock(m), LockOps(prog, m, es)) == AsLock(Run(prog, m, es))
    decreases |es|
  {
    if es == [] {
    } else {
      var m1 := Step(prog, m, es[0]);
      LockFollowsStep(prog, s0, m, n, es[0]);
      StepKeepsInv(prog, s0, m, n, es[0]);
      LockFollowsRun(prog, s0, m1, Advance(n, es[0]), es[1..]);
      assert LockOps(prog, m, es)[1..] == LockOps(prog, m1, es[1..]);
    }
  }

  /** The chain refines a FIFO lock: from a free lock on, every run of the one is a run of the other. */
  lemma RefinesFifoLock<L, S, I, R>(prog: Program<L, S, I, R>, s0: S, es: seq<Event<L, I>>)
    requires Legal(prog, Initial(s0), es)
    ensures var free := Lock([], Wrappers.None);
            var ops := LockOps(prog, Initial(s0), es);
            && LockLegal(free, ops)
            && LockRun(free, ops) == AsLock(Run(prog, Initial(s0), es))
  {
    InitialInv<L, S, I, R>(prog, s0);
    LockFollowsRun(prog, s0, Initial(s0), 0, es);
    var m0: Machine<L, S, I, R> := Initial(s0);
    assert AsLock(m0) == Lock([], Wrappers.None);
  }

  // ---- The source's own operation -----------------------------------------------------------------

  class Server<L, S, I, R> {
    var promises: seq<Promise>
    var queue: nat
    var jobs: seq<Job<L, I, R>>
    var shared: S
    var started: seq<nat>

    ghost function State(): Machine<L, S, I, R>
      reads this
    {
      Machine(promises, queue, jobs, shared, started)
    }

    constructor (s0: S)
      ensures State() == Initial(s0)
    {
      promises := [Promise(Fulfilled, 0, Absent, Absent, true)];
      queue, jobs, shared, started := 0, [], s0, [];
    }

    method Then(parent: nat, onFulfilled: Callback, onRejected: Callback) returns (derived: nat)
      modifies this`promises
      ensures derived == |old(promises)|
      ensures State() == AfterThen(old(State()), parent, onFulfilled, onRejected)
    {
      derived := |promises|;
      promises := promises + [Promise(Pending, parent, onFulfilled, onRejected, false)];
    }

    /** Allocates the two cells, stores the second in `queue` and hands the first to the caller. */
    method Serialize(task: L) returns (run: nat)
      modifies this`promises, this`queue, this`jobs
      ensures run == |old(promises)|
      ensures State() == AfterSerialize(old(State()), task)
    {
      var job := |jobs|;
      jobs := jobs + [Job(task, Waiting, [])];
      run := Then(queue, Enter(job), Enter(job));
      queue := Then(run, ReturnUndefined, ReturnUndefined);
    }
  }
}
