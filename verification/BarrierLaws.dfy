/** What the barrier guarantees over every run: any interleaving of the parent and the workers, any deaths,
    any cancellation from outside. */
module BarrierLaws {
  import opened Wrappers
  import opened Barrier
  import opened BarrierInv

  ghost predicate Run(ws: seq<World>, acts: seq<Action>)
  {
    && |ws| == |acts| + 1 && Init(ws[0])
    && forall i {:trigger acts[i]} | 0 <= i < |acts| :: CanDo(ws[i], acts[i]) && ws[i + 1] == Step(ws[i], acts[i])
  }

  lemma {:induction false} RunInv(ws: seq<World>, acts: seq<Action>, i: nat)
    requires Run(ws, acts) && i < |ws|
    ensures Inv(ws[i])
    decreases i
  {
    if i == 0 {
      InitInv(ws[0]);
    } else {
      RunInv(ws, acts, i - 1);
      var a := acts[i - 1];
      StepInv(ws[i - 1], a);
    }
  }

  // ---------- the hold epoch ----------

  /** Worker `j` proved its full partition twice, with the same proof, once in each of the first two stages. */
  ghost predicate ProvedTwice(w: World, j: nat)
  {
    && j in w.parent.ramp && j in w.parent.prepared && w.parent.prepared[j] == w.parent.ramp[j]
    && ProofOk(w.parent.ramp[j], w.shared.release)
    && SentBy(w.workers, j, RampReady(w.parent.ramp[j])) && SentBy(w.workers, j, HoldPrepared(w.parent.ramp[j]))
  }

  /** The hold epoch is minted at most once, and only after every worker's second proof has matched its first. */
  lemma TheEpochFollowsFourFreshProofs(ws: seq<World>, acts: seq<Action>, i: nat, j: nat)
    requires Run(ws, acts) && i < |ws| && j < WORKER_COUNT
    ensures ws[i].parent.mints <= 1
    ensures ws[i].parent.mints == 1 ==> ProvedTwice(ws[i], j)
  {
    RunInv(ws, acts, i);
    var w := ws[i];
    if w.parent.mints == 1 { MintedMeansProved(w, j); }
  }

  lemma MintedMeansProved(w: World, j: nat)
    requires Inv(w) && w.parent.mints == 1 && j < WORKER_COUNT
    ensures ProvedTwice(w, j)
  {
    assert j in Everyone();
    var proof := w.parent.ramp[j];
    assert SentBy(w.workers, j, RampReady(proof)) && SentBy(w.workers, j, HoldPrepared(w.parent.prepared[j]));
    assert WorkerOk(w.workers[j], w.shared);
    assert MessageOk(w.workers[j], w.shared, RampReady(proof));
  }

  ghost predicate SameEpoch(w: World, v: World)
  {
    v.shared.hold == w.shared.hold && v.parent.mints == w.parent.mints
  }

  lemma OnlyTheMintMints(p: Parent)
    requires OnTheWay(p.pc) && !p.pc.Mint?
    ensures AdvancedParent(p).mints == p.mints
  {
    match p.pc
    case SetRelease => assert AdvancedParent(p) == Transition(p, RELEASED, SignalRelease);
    case AwaitRamp => assert AdvancedParent(p) == Transition(p.(ramp := p.proofs), RAMP_READY, SignalPrepare);
    case AwaitPrepared => assert AdvancedParent(p) == Transition(p.(prepared := p.proofs), PREPARED, Mint);
    case CheckCommitted => assert AdvancedParent(p) == Transition(p, COMMITTED, SignalSample);
    case SignalSample => assert AdvancedParent(p) == Transition(p, SAMPLING, AwaitResults);
    case AwaitResults => assert AdvancedParent(p) == Transition(p, COMPLETE, CleanUp(0));
    case _ =>
  }

  lemma OnlyTheMintDates(p: Parent, s: Shared, now: int)
    requires !p.pc.Mint?
    ensures AdvancedShared(p, s, now).hold == s.hold
  {
  }

  lemma HoldStaysOnAdvance(w: World, now: int)
    requires CanLead(w, Advance(now)) && !w.parent.pc.Mint?
    ensures SameEpoch(w, Advances(w, now))
  {
    OnlyTheMintMints(w.parent);
    OnlyTheMintDates(w.parent, w.shared, now);
  }

  lemma HoldStaysOnMessage(w: World, i: nat, m: Message)
    ensures SameEpoch(w, TakesMessage(w, i, m))
  {
    if InStage(w.parent.pc) {
      assert SameEpoch(w, Stage(w, i, m));
    } else {
      assert SameEpoch(w, DuringResults(w, i, m));
    }
  }

  lemma HoldStaysOnControl(w: World, i: nat)
    requires CanLead(w, TakeControl(i))
    ensures SameEpoch(w, TakesControl(w, i))
  {
    HoldStaysOnMessage(Dequeued(w, i), i, w.workers[i].sent[w.parent.taken[i]]);
  }

  lemma HoldStaysOnLead(w: World, b: ParentAction)
    requires CanLead(w, b) && !w.parent.pc.Mint?
    ensures SameEpoch(w, Lead(w, b))
  {
    match b
    case TakeControl(i) => HoldStaysOnControl(w, i);
    case TakeResult(i) =>
    case Advance(now) => HoldStaysOnAdvance(w, now);
    case Abandon =>
    case Clean =>
  }

  lemma HoldStaysOnWork(w: World, i: nat, a: WorkerAction)
    requires CanDo(w, OfWorker(i, a))
    ensures SameEpoch(w, Step(w, OfWorker(i, a)))
  {
  }

  lemma HoldStaysOnStep(w: World, a: Action)
    requires CanDo(w, a) && !w.parent.pc.Mint?
    ensures SameEpoch(w, Step(w, a))
  {
    match a
    case OfWorker(i, b) => HoldStaysOnWork(w, i, b);
    case OfParent(b) => HoldStaysOnLead(w, b);
    case Towel =>
  }

  lemma MintedIsPastTheMint(p: Parent, s: Shared)
    requires ParentOk(p, s) && p.mints == 1
    ensures !p.pc.Mint?
  {
  }

  lemma HoldStays(w: World, a: Action)
    requires Inv(w) && CanDo(w, a) && w.parent.mints == 1
    ensures SameEpoch(w, Step(w, a))
  {
    MintedIsPastTheMint(w.parent, w.shared);
    HoldStaysOnStep(w, a);
  }

  /** Once minted, the epoch never moves. */
  lemma {:induction false} TheEpochNeverMoves(ws: seq<World>, acts: seq<Action>, i: nat, j: nat)
    requires Run(ws, acts) && i <= j < |ws| && ws[i].parent.mints == 1
    ensures ws[j].shared.hold == ws[i].shared.hold && ws[j].parent.mints == 1
    decreases j
  {
    if i < j {
      TheEpochNeverMoves(ws, acts, i, j - 1);
      RunInv(ws, acts, j - 1);
      var a := acts[j - 1];
      HoldStays(ws[j - 1], a);
    }
  }

  /** A worker's second proof is a second look: it is sent only once every worker's first has been received. */
  lemma ThePreparedProofIsASecondLook(ws: seq<World>, acts: seq<Action>, i: nat, j: nat, proof: Proof, k: nat)
    requires Run(ws, acts) && i < |ws| && SentBy(ws[i].workers, j, HoldPrepared(proof)) && k < WORKER_COUNT
    ensures k in ws[i].parent.ramp && SentBy(ws[i].workers, k, RampReady(ws[i].parent.ramp[k]))
  {
    RunInv(ws, acts, i);
    var w := ws[i];
    assert WorkerOk(w.workers[j], w.shared);
    assert MessageOk(w.workers[j], w.shared, HoldPrepared(proof));
    assert k in Everyone();
  }

  // ---------- sampling ----------

  /** Worker `k` has committed to the one epoch with the proof it first sent. */
  ghost predicate CommittedTo(w: World, k: nat, hold: int)
  {
    ProvedTwice(w, k) && SentBy(w.workers, k, HoldCommitted(w.parent.ramp[k], hold)) && hold > w.shared.release
  }

  /** No worker samples, or ends well, before all four have committed to the epoch it holds. */
  lemma NobodySamplesBeforeAllHaveCommitted(ws: seq<World>, acts: seq<Action>, i: nat, j: nat, k: nat)
    requires Run(ws, acts) && i < |ws| && j < WORKER_COUNT && k < WORKER_COUNT
    requires |ws[i].workers| == WORKER_COUNT && (ws[i].workers[j].pc.Sampling? || ws[i].workers[j].ok)
    ensures CommittedTo(ws[i], k, ws[i].workers[j].hold)
  {
    RunInv(ws, acts, i);
    var w := ws[i];
    assert WorkerOk(w.workers[j], w.shared);
    SampledIsGiven(w.workers[j], w.shared);
    AllCommitted(w, k);
  }

  lemma SampledIsGiven(x: Worker, s: Shared)
    requires WorkerOk(x, s) && (x.pc.Sampling? || x.ok)
    ensures s.sample == Given && x.hold == s.hold
  {
  }

  lemma AllCommitted(w: World, k: nat)
    requires Inv(w) && w.shared.sample == Given && k < WORKER_COUNT
    ensures CommittedTo(w, k, w.shared.hold)
  {
    MintedMeansProved(w, k);
    var proof := w.parent.ramp[k];
    assert SentBy(w.workers, k, HoldCommitted(w.parent.committed[k], w.shared.hold));
    assert WorkerOk(w.workers[k], w.shared);
    assert MessageOk(w.workers[k], w.shared, HoldCommitted(proof, w.shared.hold));
  }

  /** The parent's check that every result carries the release and the epoch it minted never fails. */
  lemma EveryResultCarriesTheEpoch(ws: seq<World>, acts: seq<Action>, i: nat)
    requires Run(ws, acts) && i < |ws|
    ensures ResultsOk(ws[i])
  {
    RunInv(ws, acts, i);
    var w := ws[i];
    forall k | k in w.parent.results ensures w.parent.results[k] == CompletedResult(w.shared.release, w.shared.hold) {
      assert WorkerOk(w.workers[k], w.shared);
    }
  }

  // ---------- cancellation ----------

  /** A worker that leaves its polling loop on an event the clean-up set can only give up or die: a gate is
      passed exactly when nothing was cancelled, and then the parent gave it. */
  lemma AWokenWorkerOnlyGivesUp(ws: seq<World>, acts: seq<Action>, i: nat, j: nat, a: WorkerAction)
    requires Run(ws, acts) && i < |ws| && j < |ws[i].workers| && Saw(ws[i].workers[j].pc)
    requires CanWork(ws[i].workers[j], ws[i].shared, a)
    ensures a.Pass? ==> EventGiven(ws[i].shared, ws[i].workers[j].pc)
    ensures !EventGiven(ws[i].shared, ws[i].workers[j].pc) ==> ws[i].shared.cancel && (a.GiveUp? || a.Die?)
  {
    RunInv(ws, acts, i);
    var x, s := ws[i].workers[j], ws[i].shared;
    assert WorkerOk(x, s);
    if a.Pass? { PassesOnlyWhatWasGiven(x, s); }
  }

  /** The re-check matters: a worker does leave its loop on an event that only the clean-up set. */
  lemma AWorkerCanSeeAWakeUp(w: World) returns (ws: seq<World>, acts: seq<Action>)
    requires Init(w)
    ensures Run(ws, acts) && ws[0] == w
    ensures var v := ws[|acts|]; |v.workers| == WORKER_COUNT && v.workers[0].pc.SawRelease? && !EventGiven(v.shared, SawRelease)
  {
    var w1 := Step(w, OfWorker(0, SendReady));
    var w2 := Step(w1, OfParent(Abandon));
    var w3 := Step(w2, OfParent(Clean));
    var w4 := Step(w3, OfParent(Clean));
    assert w4.shared.releaseSet == Woken && w4.workers[0].pc == WaitRelease;
    var w5 := Step(w4, OfWorker(0, See));
    ws := [w, w1, w2, w3, w4, w5];
    acts := [OfWorker(0, SendReady), OfParent(Abandon), OfParent(Clean), OfParent(Clean), OfWorker(0, See)];
  }

  // ---------- the teardown ----------

  lemma {:induction false} DoomedForGood(ws: seq<World>, acts: seq<Action>, i: nat, j: nat, k: nat)
    requires Run(ws, acts) && i <= j < |ws| && |ws[i].workers| == WORKER_COUNT && k < WORKER_COUNT && Doomed(ws[i].workers[k])
    ensures |ws[j].workers| == WORKER_COUNT && Doomed(ws[j].workers[k])
    decreases j
  {
    if i < j {
      DoomedForGood(ws, acts, i, j - 1, k);
      var a := acts[j - 1];
      if a.OfWorker? && a.i == k { DoomedStays(ws[j - 1].workers[k], ws[j - 1].shared, a.a); }
    }
  }

  lemma CompleteDoomsNobody(w: World, k: nat)
    requires Inv(w) && w.parent.state == COMPLETE && k < WORKER_COUNT
    ensures !Doomed(w.workers[k])
  {
    assert k in Everyone();
    assert w.workers[k].result == Some(w.parent.results[k]);
    assert WorkerOk(w.workers[k], w.shared);
  }

  /** On a run that reaches COMPLETE, no worker's sockets close, in whatever way, at any point before all four
      are at the teardown, each with its hold and samples completed. */
  lemma OnCompleteNobodyClosedBeforeAllWereAtTheTeardown(ws: seq<World>, acts: seq<Action>, i: nat, j: nat, k: nat)
    requires Run(ws, acts) && i < |ws| && ws[|acts|].parent.state == COMPLETE
    requires |ws[i].workers| == WORKER_COUNT && j < WORKER_COUNT && k < WORKER_COUNT && Closed(ws[i].workers[j])
    ensures AtTeardown(ws[i].workers[k].pc) && ws[i].workers[k].ok
  {
    RunInv(ws, acts, i);
    RunInv(ws, acts, |acts|);
    forall d: nat | d < WORKER_COUNT ensures !Doomed(ws[i].workers[d]) {
      if Doomed(ws[i].workers[d]) {
        DoomedForGood(ws, acts, i, |acts|, d);
        CompleteDoomsNobody(ws[|acts|], d);
      }
    }
    assert AllAtTeardown(ws[i].workers);
    assert !Doomed(ws[i].workers[k]);
  }
}
