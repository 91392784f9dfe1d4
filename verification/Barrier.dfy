/** The barrier between one parent and the worker shards: READY, RELEASED, RAMP_READY, PREPARED, COMMITTED,
    SAMPLING, COMPLETE. One step is one read or write of a shared event, value or queue, or the death of a
    worker. */
module Barrier {
  import opened Wrappers

  const WORKER_COUNT := 4
  const PARTITION_CLIENTS_PER_LANE := 2_500

  type Lane = nat

  datatype Counts = Counts(initiated: int, authenticated: int, held: int, terminalFailures: int, cancelled: int,
                           targetElapsedNs: int, releaseNs: int)

  type Proof = map<Lane, Counts>

  datatype Message =
    | Ready
    | RampReady(proof: Proof)
    | HoldPrepared(proof: Proof)
    | HoldCommitted(proof: Proof, hold: int)
    | TeardownReady
    | Stopped                      // partial_result, hard_safety_failed, cancelled or crashed

  datatype Outcome = CompletedResult(release: int, hold: int) | Bad

  /** An event, and whether the parent set it on the way or only in its clean-up. */
  datatype Signal = Unset | Given | Woken

  /** The teardown event may be given to a worker that stopped early, or once all are there. */
  datatype TeardownSignal = NotYet | Early | Full | WokenUp

  datatype WorkerPc =
    | Staging
    | WaitRelease | SawRelease | Ramping
    | WaitPrepare | SawPrepare | Preparing
    | WaitEpoch | SawEpoch | Committing
    | WaitSample | SawSample | Sampling
    | WaitTeardown | SawTeardown | Closing | Reported
    | Gone

  /** `ok` is set when the hold and its samples completed; `sent` is what it put on the control queue. */
  datatype Worker = Worker(pc: WorkerPc, ok: bool, release: int, hold: int, sent: seq<Message>, result: Option<Outcome>)

  datatype Shared = Shared(
    cancel: bool, releaseSet: Signal, prepare: Signal, epoch: Signal, sample: Signal, teardown: TeardownSignal,
    release: int, hold: int)

  datatype ParentPc =
    | AwaitReady | SetRelease | SignalRelease
    | AwaitRamp | SignalPrepare
    | AwaitPrepared | Mint | SignalEpoch
    | AwaitCommitted | CheckCommitted | SignalSample
    | AwaitResults
    | CleanUp(done: nat)
    | Ended

  datatype State = READY | RELEASED | RAMP_READY | PREPARED | COMMITTED | SAMPLING | COMPLETE | ABORT

  /** `taken[i]` of worker `i`'s control messages have been read. */
  datatype Parent = Parent(
    pc: ParentPc, state: State, taken: seq<nat>, observed: set<nat>, proofs: map<nat, Proof>,
    ramp: map<nat, Proof>, prepared: map<nat, Proof>, committed: map<nat, Proof>,
    teardownReady: set<nat>, safetySampled: bool, results: map<nat, Outcome>, mints: nat)

  datatype World = World(parent: Parent, shared: Shared, workers: seq<Worker>, lanes: set<Lane>)

  predicate IsWorker(i: int)
  {
    0 <= i < WORKER_COUNT
  }

  function Everyone(): (s: set<nat>)
    ensures forall i :: i in s <==> IsWorker(i)
  {
    {0, 1, 2, 3}
  }

  predicate CountsOk(c: Counts, release: int)
  {
    && c.initiated == PARTITION_CLIENTS_PER_LANE && c.authenticated == PARTITION_CLIENTS_PER_LANE
    && c.held == PARTITION_CLIENTS_PER_LANE && c.terminalFailures == 0 && c.cancelled == 0
    && c.targetElapsedNs > 0 && c.releaseNs == release
  }

  /** A full partition of every lane, since this release. */
  predicate ProofOk(p: Proof, release: int)
  {
    p != map[] && forall lane | lane in p :: CountsOk(p[lane], release)
  }

  // ---------- a worker ----------

  datatype WorkerAction =
    | SendReady
    | See                          // leaves the polling loop: the event is set
    | Pass                         // the re-check: not cancelled
    | GiveUp                       // cancelled, in the loop or at the re-check
    | Prove(proof: Proof)          // a fresh, valid proof; sent to the parent
    | Fail                         // an invalid proof, a failed ramp or a failed hold
    | Sampled                      // the hold and its samples completed
    | Report(clean: bool)          // its sockets are closed; it reports, and whether they all closed
    | Die

  predicate Waiting(pc: WorkerPc)
  {
    pc.WaitRelease? || pc.WaitPrepare? || pc.WaitEpoch? || pc.WaitSample? || pc.WaitTeardown?
  }

  predicate Saw(pc: WorkerPc)
  {
    pc.SawRelease? || pc.SawPrepare? || pc.SawEpoch? || pc.SawSample? || pc.SawTeardown?
  }

  /** The event that a worker at `pc` waits for, or has just seen, is set. */
  predicate EventSet(s: Shared, pc: WorkerPc)
    requires Waiting(pc) || Saw(pc)
  {
    match pc
    case WaitRelease => s.releaseSet != Unset
    case SawRelease => s.releaseSet != Unset
    case WaitPrepare => s.prepare != Unset
    case SawPrepare => s.prepare != Unset
    case WaitEpoch => s.epoch != Unset
    case SawEpoch => s.epoch != Unset
    case WaitSample => s.sample != Unset
    case SawSample => s.sample != Unset
    case WaitTeardown => s.teardown != NotYet
    case SawTeardown => s.teardown != NotYet
  }

  /** And it was set by the parent on its way, not in its clean-up. */
  predicate EventGiven(s: Shared, pc: WorkerPc)
    requires Saw(pc)
  {
    match pc
    case SawRelease => s.releaseSet == Given
    case SawPrepare => s.prepare == Given
    case SawEpoch => s.epoch == Given
    case SawSample => s.sample == Given
    case SawTeardown => s.teardown == Early || s.teardown == Full
  }

  ghost predicate CanWork(x: Worker, s: Shared, a: WorkerAction)
  {
    match a
    case SendReady => x.pc.Staging?
    case See => Waiting(x.pc) && EventSet(s, x.pc)
    case Pass => Saw(x.pc) && !s.cancel
    case GiveUp => (Waiting(x.pc) || Saw(x.pc)) && s.cancel
    case Prove(p) => (x.pc.Ramping? || x.pc.Preparing? || (x.pc.Committing? && x.hold > s.release)) && ProofOk(p, s.release)
    case Fail => x.pc.Ramping? || x.pc.Preparing? || x.pc.Committing? || x.pc.Sampling?
    case Sampled => x.pc.Sampling?
    case Report(_) => x.pc.Closing?
    case Die => !x.pc.Gone? && !x.pc.Reported?
  }

  function SawOf(pc: WorkerPc): WorkerPc
    requires Waiting(pc)
  {
    match pc
    case WaitRelease => SawRelease
    case WaitPrepare => SawPrepare
    case WaitEpoch => SawEpoch
    case WaitSample => SawSample
    case WaitTeardown => SawTeardown
  }

  function Passed(x: Worker, s: Shared): Worker
    requires Saw(x.pc)
  {
    match x.pc
    case SawRelease => x.(pc := Ramping, release := s.release)
    case SawPrepare => x.(pc := Preparing)
    case SawEpoch => x.(pc := Committing, hold := s.hold)
    case SawSample => x.(pc := Sampling)
    case SawTeardown => x.(pc := Closing)
  }

  /** Every way out of the run goes through `before_teardown`. */
  function Leaving(x: Worker, ok: bool): Worker
  {
    x.(pc := WaitTeardown, ok := ok, sent := x.sent + [TeardownReady])
  }

  function Stopping(x: Worker, pc: WorkerPc): Worker
  {
    x.(pc := pc, ok := false, sent := x.sent + [Stopped], result := Some(Bad))
  }

  function Work(x: Worker, s: Shared, a: WorkerAction): Worker
    requires CanWork(x, s, a)
  {
    match a
    case SendReady => x.(pc := WaitRelease, sent := x.sent + [Ready])
    case See => x.(pc := SawOf(x.pc))
    case Pass => Passed(x, s)
    case GiveUp =>
      if x.pc.WaitRelease? || x.pc.SawRelease? then Stopping(x, Gone)
      else if x.pc.WaitTeardown? || x.pc.SawTeardown? then Stopping(x, Reported)
      else Leaving(x, false)
    case Prove(p) =>
      if x.pc.Ramping? then x.(pc := WaitPrepare, sent := x.sent + [RampReady(p)])
      else if x.pc.Preparing? then x.(pc := WaitEpoch, sent := x.sent + [HoldPrepared(p)])
      else x.(pc := WaitSample, sent := x.sent + [HoldCommitted(p, x.hold)])
    case Fail => Leaving(x, false)
    case Sampled => Leaving(x, true)
    case Report(clean) =>
      if x.ok && clean then x.(pc := Reported, result := Some(CompletedResult(x.release, x.hold)))
      else Stopping(x, Reported)
    case Die => x.(pc := Gone, ok := false)
  }

  // ---------- the parent ----------

  datatype ParentAction =
    | TakeControl(i: nat)
    | TakeResult(i: nat)
    | Advance(now: int)
    | Abandon                      // a towel, a deadline, a safety failure or a dead worker
    | Clean

  predicate InStage(pc: ParentPc)
  {
    pc.AwaitReady? || pc.AwaitRamp? || pc.AwaitPrepared? || pc.AwaitCommitted?
  }

  predicate OnTheWay(pc: ParentPc)
  {
    !pc.CleanUp? && !pc.Ended?
  }

  ghost predicate CanLead(w: World, a: ParentAction)
  {
    var p := w.parent;
    match a
    case TakeControl(i) =>
      (InStage(p.pc) || p.pc.AwaitResults?) && i < |p.taken| && i < |w.workers| && p.taken[i] < |w.workers[i].sent|
    case TakeResult(i) => p.pc.AwaitResults? && i < |w.workers| && w.workers[i].result.Some? && i !in p.results
    case Advance(_) =>
      OnTheWay(p.pc) && (InStage(p.pc) ==> p.observed == Everyone()) && (p.pc.AwaitResults? ==> p.results.Keys == Everyone())
    case Abandon => OnTheWay(p.pc)
    case Clean => p.pc.CleanUp?
  }

  function Abort(p: Parent): Parent
  {
    p.(pc := CleanUp(0), state := ABORT)
  }

  /** `await_stage`'s view of a stage message: its proof, when it is the one the stage expects. */
  function StageProof(pc: ParentPc, m: Message, hold: int): Option<Proof>
  {
    if pc.AwaitRamp? && m.RampReady? then Some(m.proof)
    else if pc.AwaitPrepared? && m.HoldPrepared? then Some(m.proof)
    else if pc.AwaitCommitted? && m.HoldCommitted? && m.hold == hold then Some(m.proof)
    else None
  }

  /** A stage message's proof is kept if it is the stage's, valid, for this run's lanes, and its worker's first. */
  ghost function ProofNoted(w: World, i: nat, proof: Option<Proof>): World
  {
    var p := w.parent;
    if proof.None? || !ProofOk(proof.value, w.shared.release) || proof.value.Keys != w.lanes || i in p.observed then
      w.(parent := Abort(p))
    else w.(parent := p.(observed := p.observed + {i}, proofs := p.proofs[i := proof.value]))
  }

  ghost function Stage(w: World, i: nat, m: Message): World
  {
    var p, s := w.parent, w.shared;
    if m.TeardownReady? then
      if i in p.teardownReady then w.(parent := Abort(p))
      else w.(parent := p.(teardownReady := p.teardownReady + {i}),
              shared := s.(teardown := if s.teardown == NotYet then Early else s.teardown))
    else if m.Ready? && p.pc.AwaitReady? then
      w.(parent := if i in p.observed then Abort(p) else p.(observed := p.observed + {i}))
    else ProofNoted(w, i, StageProof(p.pc, m, s.hold))
  }

  ghost function DuringResults(w: World, i: nat, m: Message): World
  {
    var p, s := w.parent, w.shared;
    if m.TeardownReady? then
      if i in p.teardownReady then w.(parent := Abort(p))
      else if p.teardownReady + {i} == Everyone() then
        w.(parent := p.(teardownReady := p.teardownReady + {i}, safetySampled := true),
           shared := s.(teardown := if s.teardown == NotYet then Full else s.teardown))
      else w.(parent := p.(teardownReady := p.teardownReady + {i}))
    else if m.Stopped? then w.(parent := Abort(p))
    else w
  }

  ghost function TakesMessage(w: World, i: nat, m: Message): World
  {
    if InStage(w.parent.pc) then Stage(w, i, m) else DuringResults(w, i, m)
  }

  ghost function Dequeued(w: World, i: nat): World
    requires CanLead(w, TakeControl(i))
  {
    w.(parent := w.parent.(taken := w.parent.taken[i := w.parent.taken[i] + 1]))
  }

  ghost function TakesControl(w: World, i: nat): World
    requires CanLead(w, TakeControl(i))
  {
    TakesMessage(Dequeued(w, i), i, w.workers[i].sent[w.parent.taken[i]])
  }

  ghost function TakesResult(w: World, i: nat): World
    requires CanLead(w, TakeResult(i))
  {
    var p, r := w.parent, w.workers[i].result.value;
    if r.Bad? then w.(parent := Abort(p)) else w.(parent := p.(results := p.results[i := r]))
  }

  /** The end of one stage: the state moves on, and the next stage starts with nothing seen. */
  function Transition(p: Parent, next: State, pc: ParentPc): Parent
  {
    p.(pc := pc, state := next, observed := {}, proofs := map[])
  }

  ghost predicate ResultsOk(w: World)
  {
    forall i | i in w.parent.results ::
      w.parent.results[i] == CompletedResult(w.shared.release, w.shared.hold)
  }

  /** `transition_barrier` finds the state it expects. */
  predicate InOrder(p: Parent)
  {
    match p.pc
    case SetRelease => p.state == READY
    case AwaitRamp => p.state == RELEASED
    case AwaitPrepared => p.state == RAMP_READY
    case CheckCommitted => p.state == PREPARED
    case SignalSample => p.state == COMMITTED
    case AwaitResults => p.state == SAMPLING
    case _ => true
  }

  /** The checks of a step that raise. */
  predicate Raises(p: Parent, s: Shared, resultsOk: bool)
  {
    || !InOrder(p)
    || (p.pc.SetRelease? && s.release != 0)
    || (p.pc.AwaitPrepared? && p.proofs != p.ramp)
    || (p.pc.CheckCommitted? && (s.cancel || p.committed != p.prepared))
    || (p.pc.AwaitResults? && (!resultsOk || !p.safetySampled))
  }

  /** Otherwise: the parent's own record, and what it shares. */
  function AdvancedParent(p: Parent): Parent
    requires OnTheWay(p.pc)
  {
    match p.pc
    case AwaitReady => p.(pc := SetRelease, observed := {})
    case SetRelease => Transition(p, RELEASED, SignalRelease)
    case SignalRelease => p.(pc := AwaitRamp)
    case AwaitRamp => Transition(p.(ramp := p.proofs), RAMP_READY, SignalPrepare)
    case SignalPrepare => p.(pc := AwaitPrepared)
    case AwaitPrepared => Transition(p.(prepared := p.proofs), PREPARED, Mint)
    case Mint => p.(pc := SignalEpoch, mints := p.mints + 1)
    case SignalEpoch => p.(pc := AwaitCommitted)
    case AwaitCommitted => p.(pc := CheckCommitted, committed := p.proofs)
    case CheckCommitted => Transition(p, COMMITTED, SignalSample)
    case SignalSample => Transition(p, SAMPLING, AwaitResults)
    case AwaitResults => Transition(p, COMPLETE, CleanUp(0))
  }

  function AdvancedShared(p: Parent, s: Shared, now: int): Shared
  {
    match p.pc
    case SetRelease => s.(release := now)
    case SignalRelease => s.(releaseSet := Given)
    case SignalPrepare => s.(prepare := Given)
    case Mint => s.(hold := now)
    case SignalEpoch => s.(epoch := Given)
    case SignalSample => s.(sample := Given)
    case _ => s
  }

  ghost function Advances(w: World, now: int): World
    requires CanLead(w, Advance(now))
  {
    if Raises(w.parent, w.shared, ResultsOk(w)) then w.(parent := Abort(w.parent))
    else w.(parent := AdvancedParent(w.parent), shared := AdvancedShared(w.parent, w.shared, now))
  }

  function Wake(e: Signal): Signal
  {
    if e == Unset then Woken else e
  }

  /** The clean-up sets cancellation first, then every other event. */
  function Cleans(s: Shared, done: nat): Shared
  {
    if done == 0 then s.(cancel := true)
    else if done == 1 then s.(releaseSet := Wake(s.releaseSet))
    else if done == 2 then s.(prepare := Wake(s.prepare))
    else if done == 3 then s.(epoch := Wake(s.epoch))
    else if done == 4 then s.(sample := Wake(s.sample))
    else s.(teardown := if s.teardown == NotYet then WokenUp else s.teardown)
  }

  ghost function Lead(w: World, a: ParentAction): World
    requires CanLead(w, a)
  {
    var p := w.parent;
    match a
    case TakeControl(i) => TakesControl(w, i)
    case TakeResult(i) => TakesResult(w, i)
    case Advance(now) => Advances(w, now)
    case Abandon => w.(parent := Abort(p))
    case Clean =>
      w.(parent := p.(pc := if p.pc.done < 5 then CleanUp(p.pc.done + 1) else Ended), shared := Cleans(w.shared, p.pc.done))
  }

  // ---------- the whole ----------

  datatype Action =
    | OfWorker(i: nat, a: WorkerAction)
    | OfParent(b: ParentAction)
    | Towel                        // cancellation set from outside

  ghost predicate CanDo(w: World, a: Action)
  {
    match a
    case OfWorker(i, b) => i < |w.workers| && CanWork(w.workers[i], w.shared, b)
    case OfParent(b) => CanLead(w, b)
    case Towel => true
  }

  ghost function Step(w: World, a: Action): World
    requires CanDo(w, a)
  {
    match a
    case OfWorker(i, b) => w.(workers := w.workers[i := Work(w.workers[i], w.shared, b)])
    case OfParent(b) => Lead(w, b)
    case Towel => w.(shared := w.shared.(cancel := true))
  }

  ghost predicate Init(w: World)
  {
    var s, p := w.shared, w.parent;
    && |w.workers| == WORKER_COUNT
    && (forall i | 0 <= i < WORKER_COUNT :: w.workers[i] == Worker(Staging, false, w.workers[i].release, w.workers[i].hold, [], None))
    && s == Shared(s.cancel, Unset, Unset, Unset, Unset, NotYet, s.release, s.hold)
    && p == Parent(AwaitReady, READY, [0, 0, 0, 0], {}, map[], map[], map[], map[], {}, false, map[], 0)
  }
}
