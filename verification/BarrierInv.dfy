/** What every step of the barrier keeps. */
module BarrierInv {
  import opened Wrappers
  import opened Barrier

  // ---------- a worker against the shared events ----------

  predicate AtTeardown(pc: WorkerPc)
  {
    pc.WaitTeardown? || pc.SawTeardown? || pc.Closing? || pc.Reported?
  }

  /** It can no longer deliver a completed result. */
  predicate Doomed(x: Worker)
  {
    x.pc.Gone? || (AtTeardown(x.pc) && !x.ok)
  }

  /** Its sockets are closing or closed, by itself or by its death. */
  predicate Closed(x: Worker)
  {
    x.pc.Closing? || x.pc.Reported? || x.pc.Gone?
  }

  /** How many gates the worker has passed. */
  function Gates(x: Worker): nat
  {
    match x.pc
    case Ramping => 1
    case WaitPrepare => 1
    case SawPrepare => 1
    case Preparing => 2
    case WaitEpoch => 2
    case SawEpoch => 2
    case Committing => 3
    case WaitSample => 3
    case SawSample => 3
    case Sampling => 4
    case _ => if x.ok then 4 else 0
  }

  /** What the shared events must show once a worker has passed `gates` of them. */
  predicate Given4(x: Worker, s: Shared, gates: nat)
  {
    && (gates >= 1 ==> s.releaseSet == Given && x.release == s.release)
    && (gates >= 2 ==> s.prepare == Given)
    && (gates >= 3 ==> s.epoch == Given && x.hold == s.hold)
    && (gates >= 4 ==> s.sample == Given)
  }

  /** A message on the control queue, and what was true when it was sent and has been since. */
  ghost predicate MessageOk(x: Worker, s: Shared, m: Message)
  {
    match m
    case Ready => true
    case RampReady(p) => s.releaseSet == Given && ProofOk(p, s.release)
    case HoldPrepared(p) => s.releaseSet == Given && s.prepare == Given && ProofOk(p, s.release)
    case HoldCommitted(p, h) => s.releaseSet == Given && s.epoch == Given && h == s.hold && h > s.release && ProofOk(p, s.release)
    case TeardownReady => AtTeardown(x.pc) || x.pc.Gone?
    case Stopped => Doomed(x)
  }

  ghost predicate WorkerOk(x: Worker, s: Shared)
  {
    && Given4(x, s, Gates(x))
    && (Saw(x.pc) ==> EventSet(s, x.pc))
    && (x.ok ==> AtTeardown(x.pc))
    && (forall m | m in x.sent :: MessageOk(x, s, m))
    && (AtTeardown(x.pc) ==> TeardownReady in x.sent)
    && (x.result.Some? ==> x.pc.Reported? || Doomed(x))
    && (x.result.Some? && x.result.value != Bad ==>
          x.pc.Reported? && x.ok && x.result.value == CompletedResult(s.release, s.hold))
  }

  /** The shared state only moves onward: a set event stays as it was set, and a value stays once its event
      was given. */
  predicate Onward(s: Shared, s': Shared)
  {
    && (s.releaseSet != Unset ==> s'.releaseSet == s.releaseSet) && (s.prepare != Unset ==> s'.prepare == s.prepare)
    && (s.epoch != Unset ==> s'.epoch == s.epoch) && (s.sample != Unset ==> s'.sample == s.sample)
    && (s.teardown != NotYet ==> s'.teardown == s.teardown)
    && (s.releaseSet == Given ==> s'.release == s.release) && (s.epoch == Given ==> s'.hold == s.hold)
  }

  /** Cancellation comes before every wake-up. */
  predicate CancelledFirst(s: Shared)
  {
    && (s.releaseSet == Woken || s.prepare == Woken || s.epoch == Woken || s.sample == Woken ==> s.cancel)
    && (s.teardown == WokenUp ==> s.cancel)
  }

  /** A worker that passes a gate was let through by the parent, never by the clean-up. */
  lemma PassesOnlyWhatWasGiven(x: Worker, s: Shared)
    requires WorkerOk(x, s) && CancelledFirst(s) && CanWork(x, s, Pass)
    ensures EventGiven(s, x.pc)
  {
  }

  lemma PassKeepsWorker(x: Worker, s: Shared)
    requires WorkerOk(x, s) && CancelledFirst(s) && CanWork(x, s, Pass)
    ensures WorkerOk(Work(x, s, Pass), s)
  {
    PassesOnlyWhatWasGiven(x, s);
  }

  lemma WorkKeepsWorker(x: Worker, s: Shared, a: WorkerAction)
    requires WorkerOk(x, s) && CancelledFirst(s) && CanWork(x, s, a)
    ensures WorkerOk(Work(x, s, a), s)
  {
    if a.Pass? { PassKeepsWorker(x, s); } else if a.GiveUp? { GiveUpKeepsWorker(x, s); }
  }

  lemma GiveUpKeepsWorker(x: Worker, s: Shared)
    requires WorkerOk(x, s) && CanWork(x, s, GiveUp)
    ensures WorkerOk(Work(x, s, GiveUp), s)
  {
  }

  // ---------- the parent against the shared events ----------

  function Rank(pc: ParentPc): nat
  {
    match pc
    case AwaitReady => 0
    case SetRelease => 1
    case SignalRelease => 2
    case AwaitRamp => 3
    case SignalPrepare => 4
    case AwaitPrepared => 5
    case Mint => 6
    case SignalEpoch => 7
    case AwaitCommitted => 8
    case CheckCommitted => 9
    case SignalSample => 10
    case AwaitResults => 11
    case CleanUp(_) => 12
    case Ended => 13
  }

  function StateAt(rank: nat): State
  {
    if rank < 2 then READY else if rank < 4 then RELEASED else if rank < 6 then RAMP_READY else if rank < 10 then PREPARED
    else if rank < 11 then COMMITTED else SAMPLING
  }

  /** While the parent is on its way, its place alone says which events it has given. */
  predicate SignalsOk(pc: ParentPc, s: Shared)
  {
    var rank := Rank(pc);
    && s.releaseSet == (if rank >= 3 then Given else Unset)
    && s.prepare == (if rank >= 5 then Given else Unset)
    && s.epoch == (if rank >= 8 then Given else Unset)
    && s.sample == (if rank >= 11 then Given else Unset)
    && s.teardown != WokenUp && (rank < 11 ==> s.teardown != Full)
  }

  predicate FullMap(m: map<nat, Proof>)
  {
    m.Keys == Everyone()
  }

  predicate ProgressOk(p: Parent)
  {
    var rank := Rank(p.pc);
    && p.state == StateAt(rank)
    && p.mints == (if rank >= 7 then 1 else 0)
    && (p.proofs.Keys == if InStage(p.pc) && !p.pc.AwaitReady? then p.observed else p.proofs.Keys)
    && (p.pc.AwaitReady? || p.pc.SetRelease? || p.pc.SignalRelease? || p.pc.SignalPrepare? || p.pc.Mint? || p.pc.SignalEpoch? ==>
          p.proofs == map[])
    && (p.pc.SignalRelease? || p.pc.SignalPrepare? || p.pc.Mint? || p.pc.SignalEpoch? ==> p.observed == {})
    && (rank >= 4 ==> FullMap(p.ramp))
    && (rank >= 6 ==> p.prepared == p.ramp)
    && (rank >= 10 ==> p.committed == p.prepared)
  }

  /** And what it decided stands, on its way or in its clean-up. */
  predicate DecidedOk(p: Parent, s: Shared)
  {
    && p.mints <= 1
    && (s.prepare == Given ==> FullMap(p.ramp))
    && (s.epoch == Given ==> p.mints == 1)
    && (p.mints == 1 ==> FullMap(p.ramp) && p.prepared == p.ramp)
    && (s.sample == Given ==> s.epoch == Given && p.committed == p.prepared)
  }

  predicate ParentOk(p: Parent, s: Shared)
  {
    && DecidedOk(p, s)
    && (OnTheWay(p.pc) ==> SignalsOk(p.pc, s) && ProgressOk(p))
    && (p.pc.CleanUp? ==> p.pc.done > 0 ==> s.cancel)
  }

  predicate SentBy(ws: seq<Worker>, i: nat, m: Message)
  {
    i < |ws| && m in ws[i].sent
  }

  /** Each proof the parent has kept was sent by that worker, in that stage. */
  ghost predicate RecordsOk(p: Parent, hold: int, ws: seq<Worker>)
  {
    && (forall i | i in p.ramp :: SentBy(ws, i, RampReady(p.ramp[i])))
    && (forall i | i in p.prepared :: SentBy(ws, i, HoldPrepared(p.prepared[i])))
    && (forall i | i in p.committed :: SentBy(ws, i, HoldCommitted(p.committed[i], hold)))
    && (p.pc.AwaitRamp? ==> forall i | i in p.proofs :: SentBy(ws, i, RampReady(p.proofs[i])))
    && (p.pc.AwaitPrepared? ==> forall i | i in p.proofs :: SentBy(ws, i, HoldPrepared(p.proofs[i])))
    && (p.pc.AwaitCommitted? ==> forall i | i in p.proofs :: SentBy(ws, i, HoldCommitted(p.proofs[i], hold)))
    && (OnTheWay(p.pc) && Rank(p.pc) < 9 ==> p.committed == map[])
  }

  ghost predicate SomeDoomed(ws: seq<Worker>)
  {
    exists i :: 0 <= i < |ws| && Doomed(ws[i])
  }

  predicate AllAtTeardown(ws: seq<Worker>)
  {
    forall i | 0 <= i < |ws| :: AtTeardown(ws[i].pc)
  }

  /** Who is at the teardown, and why its event was given. */
  ghost predicate TeardownOk(ready: set<nat>, teardown: TeardownSignal, ws: seq<Worker>)
  {
    && (forall i | i in ready :: SentBy(ws, i, TeardownReady))
    && (teardown == Early ==> SomeDoomed(ws))
    && (teardown == Full ==> forall i | 0 <= i < |ws| :: SentBy(ws, i, TeardownReady))
    && (forall i | 0 <= i < |ws| :: Closed(ws[i]) ==> SomeDoomed(ws) || AllAtTeardown(ws))
  }

  ghost predicate ResultsKept(p: Parent, ws: seq<Worker>)
  {
    && (forall i | i in p.results :: i < |ws| && ws[i].result == Some(p.results[i]) && p.results[i] != Bad)
    && (p.state == COMPLETE ==> p.results.Keys == Everyone())
  }

  ghost predicate WorkersOk(ws: seq<Worker>, s: Shared)
  {
    && |ws| == WORKER_COUNT
    && forall i | 0 <= i < |ws| :: WorkerOk(ws[i], s)
  }

  ghost predicate Inv(w: World)
  {
    && WorkersOk(w.workers, w.shared) && |w.parent.taken| == WORKER_COUNT && CancelledFirst(w.shared)
    && ParentOk(w.parent, w.shared) && RecordsOk(w.parent, w.shared.hold, w.workers)
    && TeardownOk(w.parent.teardownReady, w.shared.teardown, w.workers) && ResultsKept(w.parent, w.workers)
  }

  lemma InitInv(w: World)
    requires Init(w)
    ensures Inv(w)
  {
    forall i | 0 <= i < |w.workers| ensures WorkerOk(w.workers[i], w.shared) { }
  }

  // ---------- a worker's step ----------

  lemma DoomedStays(x: Worker, s: Shared, a: WorkerAction)
    requires CanWork(x, s, a) && Doomed(x)
    ensures Doomed(Work(x, s, a))
  {
  }

  lemma TeardownStays(x: Worker, s: Shared, a: WorkerAction)
    requires CanWork(x, s, a) && AtTeardown(x.pc)
    ensures AtTeardown(Work(x, s, a).pc) || Doomed(Work(x, s, a))
  {
  }

  lemma SentGrows(x: Worker, s: Shared, a: WorkerAction)
    requires CanWork(x, s, a)
    ensures x.sent <= Work(x, s, a).sent
    ensures forall m | m in x.sent :: m in Work(x, s, a).sent
  {
  }

  lemma ClosingAnew(x: Worker, s: Shared, a: WorkerAction)
    requires CanWork(x, s, a) && !Closed(x) && Closed(Work(x, s, a))
    ensures Doomed(Work(x, s, a)) || (x.pc.SawTeardown? && a.Pass? && !s.cancel)
  {
  }

  /** A worker that delivered a completed result does nothing more. */
  lemma DeliveredIsStill(x: Worker, s: Shared, a: WorkerAction)
    requires CanWork(x, s, a) && WorkerOk(x, s)
    ensures x.result.Some? ==> x.result.value == Bad
  {
  }

  lemma GrowthKeepsRecords(p: Parent, hold: int, ws: seq<Worker>, i: nat, y: Worker)
    requires i < |ws| && RecordsOk(p, hold, ws) && forall m | m in ws[i].sent :: m in y.sent
    ensures RecordsOk(p, hold, ws[i := y])
  {
    forall k, m | SentBy(ws, k, m) ensures SentBy(ws[i := y], k, m) { }
  }

  lemma WorkKeepsTeardown(ready: set<nat>, s: Shared, ws: seq<Worker>, i: nat, a: WorkerAction)
    requires WorkersOk(ws, s) && TeardownOk(ready, s.teardown, ws) && CancelledFirst(s) && i < |ws| && CanWork(ws[i], s, a)
    ensures TeardownOk(ready, s.teardown, ws[i := Work(ws[i], s, a)])
  {
    var vs := ws[i := Work(ws[i], s, a)];
    assert WorkerOk(ws[i], s);
    SentGrows(ws[i], s, a);
    forall k: nat | SentBy(ws, k, TeardownReady) ensures SentBy(vs, k, TeardownReady) { }
    if SomeDoomed(ws) {
      var k :| 0 <= k < |ws| && Doomed(ws[k]);
      if k == i { DoomedStays(ws[i], s, a); }
      assert Doomed(vs[k]);
      assert SomeDoomed(vs);
    } else {
      WorkKeepsClosing(ready, s, ws, i, a);
    }
  }

  lemma WorkKeepsClosing(ready: set<nat>, s: Shared, ws: seq<Worker>, i: nat, a: WorkerAction)
    requires WorkersOk(ws, s) && TeardownOk(ready, s.teardown, ws) && CancelledFirst(s) && i < |ws| && CanWork(ws[i], s, a)
    requires !SomeDoomed(ws)
    ensures var vs := ws[i := Work(ws[i], s, a)];
      forall k | 0 <= k < |vs| :: Closed(vs[k]) ==> SomeDoomed(vs) || AllAtTeardown(vs)
  {
    var x, y := ws[i], Work(ws[i], s, a);
    var vs := ws[i := y];
    assert WorkerOk(x, s);
    forall k | 0 <= k < |vs| && Closed(vs[k]) ensures SomeDoomed(vs) || AllAtTeardown(vs) {
      if Doomed(y) {
        assert Doomed(vs[i]);
      } else {
        assert AllAtTeardown(ws) by {
          if k == i && !Closed(x) {
            ClosingAnew(x, s, a);
            PassesOnlyWhatWasGiven(x, s);
            FullMeansAll(ready, s, ws);
          } else {
            assert Closed(ws[k]);
          }
        }
        if AtTeardown(x.pc) { TeardownStays(x, s, a); }
      }
    }
  }

  lemma FullMeansAll(ready: set<nat>, s: Shared, ws: seq<Worker>)
    requires WorkersOk(ws, s) && TeardownOk(ready, s.teardown, ws) && s.teardown == Full && !SomeDoomed(ws)
    ensures AllAtTeardown(ws)
  {
    forall k | 0 <= k < |ws| ensures AtTeardown(ws[k].pc) {
      assert WorkerOk(ws[k], s) && SentBy(ws, k, TeardownReady);
      assert MessageOk(ws[k], s, TeardownReady);
    }
  }

  lemma WorkerStepInv(w: World, i: nat, a: WorkerAction)
    requires Inv(w) && i < |w.workers| && CanWork(w.workers[i], w.shared, a)
    ensures Inv(Step(w, OfWorker(i, a)))
  {
    var x, s := w.workers[i], w.shared;
    assert WorkerOk(x, s);
    WorkKeepsWorker(x, s, a);
    SentGrows(x, s, a);
    GrowthKeepsRecords(w.parent, s.hold, w.workers, i, Work(x, s, a));
    WorkKeepsTeardown(w.parent.teardownReady, s, w.workers, i, a);
    DeliveredIsStill(x, s, a);
  }

  // ---------- the parent's steps ----------

  lemma OnwardKeepsWorkers(ws: seq<Worker>, s: Shared, s': Shared)
    requires WorkersOk(ws, s) && Onward(s, s')
    ensures WorkersOk(ws, s')
  {
  }

  lemma AbortInv(w: World, taken: seq<nat>)
    requires Inv(w) && OnTheWay(w.parent.pc) && |taken| == WORKER_COUNT
    ensures Inv(w.(parent := Abort(w.parent.(taken := taken))))
  {
  }

  lemma CleansOnward(p: Parent, s: Shared)
    requires p.pc.CleanUp? && ParentOk(p, s) && CancelledFirst(s)
    ensures Onward(s, Cleans(s, p.pc.done)) && CancelledFirst(Cleans(s, p.pc.done)) && Cleans(s, p.pc.done).cancel
    ensures DecidedOk(p, Cleans(s, p.pc.done)) && Cleans(s, p.pc.done).hold == s.hold
    ensures Cleans(s, p.pc.done).teardown in {s.teardown, WokenUp}
  {
  }

  lemma CleanInv(w: World)
    requires Inv(w) && w.parent.pc.CleanUp?
    ensures Inv(Lead(w, Clean))
  {
    CleansOnward(w.parent, w.shared);
    OnwardKeepsWorkers(w.workers, w.shared, Cleans(w.shared, w.parent.pc.done));
  }

  lemma TakeResultInv(w: World, i: nat)
    requires Inv(w) && CanLead(w, TakeResult(i))
    ensures Inv(TakesResult(w, i))
  {
    if w.workers[i].result.value.Bad? { AbortInv(w, w.parent.taken); }
  }

  /** A worker found at the teardown while the parent is still in a stage has failed: only a worker that was
      let through to its samples can end well. */
  lemma EarlyIsDoomed(ws: seq<Worker>, s: Shared, i: nat)
    requires WorkersOk(ws, s) && s.sample != Given && SentBy(ws, i, TeardownReady)
    ensures Doomed(ws[i])
  {
  }

  lemma EarlyTeardownOk(ready: set<nat>, s: Shared, ws: seq<Worker>, i: nat)
    requires WorkersOk(ws, s) && TeardownOk(ready, s.teardown, ws) && s.sample != Given && SentBy(ws, i, TeardownReady)
    ensures TeardownOk(ready + {i}, if s.teardown == NotYet then Early else s.teardown, ws)
  {
  }

  /** The parent notes that a worker is at the teardown, and may give the event. */
  lemma TeardownNotedInv(w: World, i: nat, sampled: bool, teardown: TeardownSignal)
    requires Inv(w) && OnTheWay(w.parent.pc) && TeardownOk(w.parent.teardownReady + {i}, teardown, w.workers)
    requires w.shared.teardown != NotYet ==> teardown == w.shared.teardown
    requires teardown != WokenUp && (teardown == Full ==> w.parent.pc.AwaitResults?)
    ensures Inv(w.(parent := w.parent.(teardownReady := w.parent.teardownReady + {i}, safetySampled := sampled),
                   shared := w.shared.(teardown := teardown)))
  {
    OnwardKeepsWorkers(w.workers, w.shared, w.shared.(teardown := teardown));
    TeardownKeepsParent(w.parent, w.shared, w.parent.teardownReady + {i}, sampled, teardown);
  }

  lemma TeardownKeepsParent(p: Parent, s: Shared, ready: set<nat>, sampled: bool, teardown: TeardownSignal)
    requires ParentOk(p, s) && OnTheWay(p.pc) && teardown != WokenUp && (teardown == Full ==> p.pc.AwaitResults?)
    ensures ParentOk(p.(teardownReady := ready, safetySampled := sampled), s.(teardown := teardown))
  {
  }

  lemma StageTeardownInv(w: World, i: nat)
    requires Inv(w) && InStage(w.parent.pc) && SentBy(w.workers, i, TeardownReady)
    ensures Inv(Stage(w, i, TeardownReady))
  {
    if i in w.parent.teardownReady {
      AbortInv(w, w.parent.taken);
      assert w.parent.(taken := w.parent.taken) == w.parent;
    } else {
      EarlyTeardownOk(w.parent.teardownReady, w.shared, w.workers, i);
      TeardownNotedInv(w, i, w.parent.safetySampled, if w.shared.teardown == NotYet then Early else w.shared.teardown);
    }
  }

  /** What a stage keeps from one proof: that this worker sent it, in this stage. */
  lemma ProofRecorded(p: Parent, s: Shared, ws: seq<Worker>, i: nat, m: Message)
    requires RecordsOk(p, s.hold, ws) && InStage(p.pc) && SentBy(ws, i, m) && StageProof(p.pc, m, s.hold).Some?
    ensures RecordsOk(p.(observed := p.observed + {i}, proofs := p.proofs[i := StageProof(p.pc, m, s.hold).value]), s.hold, ws)
  {
  }

  lemma RecordParentOk(p: Parent, s: Shared, i: nat, proof: Proof)
    requires ParentOk(p, s) && InStage(p.pc) && !p.pc.AwaitReady?
    ensures ParentOk(p.(observed := p.observed + {i}, proofs := p.proofs[i := proof]), s)
  {
  }

  lemma RecordInv(w: World, i: nat, m: Message)
    requires Inv(w) && InStage(w.parent.pc) && SentBy(w.workers, i, m) && StageProof(w.parent.pc, m, w.shared.hold).Some?
    ensures var p := w.parent;
      Inv(w.(parent := p.(observed := p.observed + {i}, proofs := p.proofs[i := StageProof(p.pc, m, w.shared.hold).value])))
  {
    ProofRecorded(w.parent, w.shared, w.workers, i, m);
    RecordParentOk(w.parent, w.shared, i, StageProof(w.parent.pc, m, w.shared.hold).value);
  }

  lemma ReadyInv(w: World, i: nat)
    requires Inv(w) && w.parent.pc.AwaitReady?
    ensures Inv(w.(parent := w.parent.(observed := w.parent.observed + {i})))
  {
  }

  lemma StageReadyInv(w: World, i: nat)
    requires Inv(w) && w.parent.pc.AwaitReady?
    ensures Inv(Stage(w, i, Ready))
  {
    AbortInv(w, w.parent.taken);
    assert w.parent.(taken := w.parent.taken) == w.parent;
    ReadyInv(w, i);
  }

  lemma StageProofInv(w: World, i: nat, m: Message)
    requires Inv(w) && InStage(w.parent.pc) && SentBy(w.workers, i, m) && !m.TeardownReady? && !(m.Ready? && w.parent.pc.AwaitReady?)
    ensures Inv(Stage(w, i, m))
  {
    AbortInv(w, w.parent.taken);
    assert w.parent.(taken := w.parent.taken) == w.parent;
    if StageProof(w.parent.pc, m, w.shared.hold).Some? { RecordInv(w, i, m); }
  }

  lemma FullTeardownOk(ready: set<nat>, teardown: TeardownSignal, ws: seq<Worker>, i: nat)
    requires TeardownOk(ready, teardown, ws) && SentBy(ws, i, TeardownReady) && |ws| == WORKER_COUNT
    ensures TeardownOk(ready + {i}, if ready + {i} == Everyone() && teardown == NotYet then Full else teardown, ws)
  {
    if ready + {i} == Everyone() {
      forall k: nat | k < |ws| ensures SentBy(ws, k, TeardownReady) { assert k in ready + {i}; }
    }
  }

  lemma ResultsTeardownInv(w: World, i: nat)
    requires Inv(w) && w.parent.pc.AwaitResults? && SentBy(w.workers, i, TeardownReady) && i !in w.parent.teardownReady
    ensures Inv(DuringResults(w, i, TeardownReady))
  {
    var all := w.parent.teardownReady + {i} == Everyone();
    var teardown := if all && w.shared.teardown == NotYet then Full else w.shared.teardown;
    FullTeardownOk(w.parent.teardownReady, w.shared.teardown, w.workers, i);
    TeardownNotedInv(w, i, all || w.parent.safetySampled, teardown);
  }

  lemma DuringResultsInv(w: World, i: nat, m: Message)
    requires Inv(w) && w.parent.pc.AwaitResults? && SentBy(w.workers, i, m)
    ensures Inv(DuringResults(w, i, m))
  {
    AbortInv(w, w.parent.taken);
    assert w.parent.(taken := w.parent.taken) == w.parent;
    if m.TeardownReady? && i !in w.parent.teardownReady { ResultsTeardownInv(w, i); }
  }

  lemma DequeuedInv(w: World, i: nat)
    requires Inv(w) && CanLead(w, TakeControl(i))
    ensures Inv(Dequeued(w, i))
  {
  }

  lemma TakesMessageInv(w: World, i: nat, m: Message)
    requires Inv(w) && SentBy(w.workers, i, m) && (InStage(w.parent.pc) || w.parent.pc.AwaitResults?)
    ensures Inv(TakesMessage(w, i, m))
  {
    if !InStage(w.parent.pc) {
      DuringResultsInv(w, i, m);
    } else if m.TeardownReady? {
      StageTeardownInv(w, i);
    } else if m.Ready? && w.parent.pc.AwaitReady? {
      StageReadyInv(w, i);
    } else {
      StageProofInv(w, i, m);
    }
  }

  lemma TakeControlInv(w: World, i: nat)
    requires Inv(w) && CanLead(w, TakeControl(i))
    ensures Inv(TakesControl(w, i))
  {
    DequeuedInv(w, i);
    var q := Dequeued(w, i);
    assert q.workers == w.workers && q.parent.pc == w.parent.pc;
    TakesMessageInv(q, i, w.workers[i].sent[w.parent.taken[i]]);
  }

  predicate StageDone(p: Parent)
  {
    (InStage(p.pc) ==> p.observed == Everyone()) && (p.pc.AwaitResults? ==> p.results.Keys == Everyone())
  }

  lemma AdvanceOnward(p: Parent, s: Shared, now: int)
    requires OnTheWay(p.pc) && ParentOk(p, s) && CancelledFirst(s)
    ensures var s' := AdvancedShared(p, s, now); Onward(s, s') && CancelledFirst(s') && s'.teardown == s.teardown
  {
  }

  /** What one advance leaves true of the parent's record, its signals and its decisions. */
  ghost predicate Advanced(p: Parent, s: Shared, now: int, ws: seq<Worker>)
    requires OnTheWay(p.pc)
  {
    var p', s' := AdvancedParent(p), AdvancedShared(p, s, now);
    && ParentOk(p', s') && RecordsOk(p', s'.hold, ws) && ResultsKept(p', ws)
    && p'.teardownReady == p.teardownReady && p'.taken == p.taken
  }

  lemma ReadyAdvances(p: Parent, s: Shared, ok: bool, now: int, ws: seq<Worker>)
    requires (p.pc.AwaitReady? || p.pc.SetRelease?) && StageDone(p) && !Raises(p, s, ok)
    requires ParentOk(p, s) && RecordsOk(p, s.hold, ws) && ResultsKept(p, ws)
    ensures Advanced(p, s, now, ws)
  {
  }

  lemma ReleaseAdvances(p: Parent, s: Shared, ok: bool, now: int, ws: seq<Worker>)
    requires (p.pc.SignalRelease? || p.pc.AwaitRamp?) && StageDone(p) && !Raises(p, s, ok)
    requires ParentOk(p, s) && RecordsOk(p, s.hold, ws) && ResultsKept(p, ws)
    ensures Advanced(p, s, now, ws)
  {
  }

  lemma PrepareAdvances(p: Parent, s: Shared, ok: bool, now: int, ws: seq<Worker>)
    requires (p.pc.SignalPrepare? || p.pc.AwaitPrepared?) && StageDone(p) && !Raises(p, s, ok)
    requires ParentOk(p, s) && RecordsOk(p, s.hold, ws) && ResultsKept(p, ws)
    ensures Advanced(p, s, now, ws)
  {
  }

  lemma MintAdvances(p: Parent, s: Shared, ok: bool, now: int, ws: seq<Worker>)
    requires (p.pc.Mint? || p.pc.SignalEpoch?) && StageDone(p) && !Raises(p, s, ok)
    requires ParentOk(p, s) && RecordsOk(p, s.hold, ws) && ResultsKept(p, ws)
    ensures Advanced(p, s, now, ws)
  {
  }

  lemma CommitAdvances(p: Parent, s: Shared, ok: bool, now: int, ws: seq<Worker>)
    requires p.pc.AwaitCommitted? && StageDone(p) && !Raises(p, s, ok)
    requires ParentOk(p, s) && RecordsOk(p, s.hold, ws) && ResultsKept(p, ws)
    ensures Advanced(p, s, now, ws)
  {
    assert AdvancedParent(p) == p.(pc := CheckCommitted, committed := p.proofs) && AdvancedShared(p, s, now) == s;
  }

  lemma CheckAdvances(p: Parent, s: Shared, ok: bool, now: int, ws: seq<Worker>)
    requires p.pc.CheckCommitted? && StageDone(p) && !Raises(p, s, ok)
    requires ParentOk(p, s) && RecordsOk(p, s.hold, ws) && ResultsKept(p, ws)
    ensures Advanced(p, s, now, ws)
  {
    assert AdvancedParent(p) == p.(pc := SignalSample, state := COMMITTED, observed := {}, proofs := map[]) && AdvancedShared(p, s, now) == s;
  }

  lemma SampleAdvances(p: Parent, s: Shared, ok: bool, now: int, ws: seq<Worker>)
    requires p.pc.SignalSample? && StageDone(p) && !Raises(p, s, ok)
    requires ParentOk(p, s) && RecordsOk(p, s.hold, ws) && ResultsKept(p, ws)
    ensures Advanced(p, s, now, ws)
  {
    assert AdvancedParent(p) == p.(pc := AwaitResults, state := SAMPLING, observed := {}, proofs := map[]);
    assert AdvancedShared(p, s, now) == s.(sample := Given);
  }

  lemma CompleteAdvances(p: Parent, s: Shared, ok: bool, now: int, ws: seq<Worker>)
    requires p.pc.AwaitResults? && StageDone(p) && !Raises(p, s, ok)
    requires ParentOk(p, s) && RecordsOk(p, s.hold, ws) && ResultsKept(p, ws)
    ensures Advanced(p, s, now, ws)
  {
    assert AdvancedParent(p) == p.(pc := CleanUp(0), state := COMPLETE, observed := {}, proofs := map[]) && AdvancedShared(p, s, now) == s;
  }

  lemma ParentAdvances(p: Parent, s: Shared, ok: bool, now: int, ws: seq<Worker>)
    requires OnTheWay(p.pc) && StageDone(p) && !Raises(p, s, ok)
    requires ParentOk(p, s) && RecordsOk(p, s.hold, ws) && ResultsKept(p, ws)
    ensures Advanced(p, s, now, ws)
  {
    if Rank(p.pc) < 2 {
      ReadyAdvances(p, s, ok, now, ws);
    } else if Rank(p.pc) < 4 {
      ReleaseAdvances(p, s, ok, now, ws);
    } else if Rank(p.pc) < 6 {
      PrepareAdvances(p, s, ok, now, ws);
    } else if Rank(p.pc) < 8 {
      MintAdvances(p, s, ok, now, ws);
    } else if Rank(p.pc) < 9 {
      CommitAdvances(p, s, ok, now, ws);
    } else if Rank(p.pc) < 10 {
      CheckAdvances(p, s, ok, now, ws);
    } else if Rank(p.pc) < 11 {
      SampleAdvances(p, s, ok, now, ws);
    } else {
      CompleteAdvances(p, s, ok, now, ws);
    }
  }

  lemma AdvanceInv(w: World, now: int)
    requires Inv(w) && CanLead(w, Advance(now))
    ensures Inv(Advances(w, now))
  {
    var p, s, ok := w.parent, w.shared, ResultsOk(w);
    if Raises(p, s, ok) {
      AbortInv(w, p.taken);
      assert p.(taken := p.taken) == p;
    } else {
      AdvanceOnward(p, s, now);
      OnwardKeepsWorkers(w.workers, s, AdvancedShared(p, s, now));
      ParentAdvances(p, s, ok, now, w.workers);
    }
  }

  lemma LeadInv(w: World, a: ParentAction)
    requires Inv(w) && CanLead(w, a)
    ensures Inv(Lead(w, a))
  {
    match a
    case TakeControl(i) => TakeControlInv(w, i);
    case TakeResult(i) => TakeResultInv(w, i);
    case Advance(now) => AdvanceInv(w, now);
    case Abandon => AbortInv(w, w.parent.taken);
    case Clean => CleanInv(w);
  }

  lemma TowelInv(w: World)
    requires Inv(w)
    ensures Inv(Step(w, Towel))
  {
    OnwardKeepsWorkers(w.workers, w.shared, w.shared.(cancel := true));
  }

  lemma StepInv(w: World, a: Action)
    requires Inv(w) && CanDo(w, a)
    ensures Inv(Step(w, a))
  {
    match a
    case OfWorker(i, b) => WorkerStepInv(w, i, b);
    case OfParent(b) => LeadInv(w, b);
    case Towel => TowelInv(w);
  }
}
