/** A run of the barrier that reaches COMPLETE: what the laws say of such runs is not said of none. */
module BarrierTraces {
  import opened Wrappers
  import opened Barrier
  import opened BarrierLaws

  ghost predicate Reached(w: World)
  {
    exists ws, acts :: Run(ws, acts) && ws[|acts|] == w
  }

  lemma Starts(w: World)
    requires Init(w)
    ensures Reached(w)
  {
    var acts: seq<Action> := [];
    assert Run([w], acts) && [w][|acts|] == w;
  }

  lemma Reach(w: World, a: Action)
    requires Reached(w) && CanDo(w, a)
    ensures Reached(Step(w, a))
  {
    var ws, acts :| Run(ws, acts) && ws[|acts|] == w;
    assert Run(ws + [Step(w, a)], acts + [a]) && (ws + [Step(w, a)])[|acts + [a]|] == Step(w, a);
  }

  /** Four workers in the same state. */
  function Alike(x: Worker): seq<Worker>
  {
    [x, x, x, x]
  }

  lemma OneWorks(w: World, i: nat, a: WorkerAction) returns (v: World)
    requires Reached(w) && i < |w.workers| && CanWork(w.workers[i], w.shared, a)
    ensures Reached(v) && v == w.(workers := w.workers[i := Work(w.workers[i], w.shared, a)])
  {
    Reach(w, OfWorker(i, a));
    v := Step(w, OfWorker(i, a));
  }

  /** Each of them takes the same step. */
  lemma EachWorks(w: World, x: Worker, a: WorkerAction) returns (v: World)
    requires Reached(w) && w.workers == Alike(x) && CanWork(x, w.shared, a)
    ensures Reached(v) && v == w.(workers := Alike(Work(x, w.shared, a)))
  {
    var w1 := OneWorks(w, 0, a);
    var w2 := OneWorks(w1, 1, a);
    var w3 := OneWorks(w2, 2, a);
    v := OneWorks(w3, 3, a);
  }

  lemma Leads(w: World, b: ParentAction) returns (v: World)
    requires Reached(w) && CanLead(w, b)
    ensures Reached(v) && v == Lead(w, b)
  {
    Reach(w, OfParent(b));
    v := Lead(w, b);
  }

  predicate TakenFrom(w: World, x: Worker, n: nat)
  {
    w.workers == Alike(x) && n < |x.sent| && |w.parent.taken| == WORKER_COUNT
  }

  /** The parent reads one proof of a stage. */
  lemma TakesProof(w: World, x: Worker, n: nat, i: nat, proof: Proof) returns (v: World)
    requires Reached(w) && TakenFrom(w, x, n) && IsWorker(i) && w.parent.taken[i] == n && i !in w.parent.observed
    requires InStage(w.parent.pc) && StageProof(w.parent.pc, x.sent[n], w.shared.hold) == Some(proof)
    requires ProofOk(proof, w.shared.release) && proof.Keys == w.lanes
    ensures Reached(v)
    ensures var p := w.parent;
      v == w.(parent := p.(taken := p.taken[i := n + 1], observed := p.observed + {i}, proofs := p.proofs[i := proof]))
  {
    v := Leads(w, TakeControl(i));
  }

  lemma TakesProofs(w: World, x: Worker, n: nat, proof: Proof) returns (v: World)
    requires Reached(w) && TakenFrom(w, x, n) && w.parent.taken == [n, n, n, n]
    requires w.parent.observed == {} && w.parent.proofs == map[]
    requires InStage(w.parent.pc) && StageProof(w.parent.pc, x.sent[n], w.shared.hold) == Some(proof)
    requires ProofOk(proof, w.shared.release) && proof.Keys == w.lanes
    ensures Reached(v)
    ensures v == w.(parent := w.parent.(taken := [n + 1, n + 1, n + 1, n + 1], observed := Everyone(),
                                        proofs := map[0 := proof, 1 := proof, 2 := proof, 3 := proof]))
  {
    var w1 := TakesProof(w, x, n, 0, proof);
    var w2 := TakesProof(w1, x, n, 1, proof);
    var w3 := TakesProof(w2, x, n, 2, proof);
    v := TakesProof(w3, x, n, 3, proof);
  }

  lemma TakesOneReady(w: World, x: Worker, i: nat) returns (v: World)
    requires Reached(w) && TakenFrom(w, x, 0) && IsWorker(i) && w.parent.taken[i] == 0 && x.sent[0] == Ready
    requires w.parent.pc.AwaitReady? && i !in w.parent.observed
    ensures Reached(v)
    ensures v == w.(parent := w.parent.(taken := w.parent.taken[i := 1], observed := w.parent.observed + {i}))
  {
    v := Leads(w, TakeControl(i));
  }

  lemma TakesReady(w: World, x: Worker) returns (v: World)
    requires Reached(w) && TakenFrom(w, x, 0) && w.parent.taken == [0, 0, 0, 0] && x.sent[0] == Ready
    requires w.parent.pc.AwaitReady? && w.parent.observed == {}
    ensures Reached(v) && v == w.(parent := w.parent.(taken := [1, 1, 1, 1], observed := Everyone()))
  {
    var w1 := TakesOneReady(w, x, 0);
    var w2 := TakesOneReady(w1, x, 1);
    var w3 := TakesOneReady(w2, x, 2);
    v := TakesOneReady(w3, x, 3);
  }

  lemma TakesTeardown(w: World, x: Worker, n: nat) returns (v: World)
    requires Reached(w) && TakenFrom(w, x, n) && w.parent.taken == [n, n, n, n] && x.sent[n] == TeardownReady
    requires w.parent.pc.AwaitResults? && w.parent.teardownReady == {} && w.shared.teardown == NotYet
    ensures Reached(v)
    ensures v == w.(parent := w.parent.(taken := [n + 1, n + 1, n + 1, n + 1], teardownReady := Everyone(), safetySampled := true),
                    shared := w.shared.(teardown := Full))
  {
    var w1 := TakesOneTeardown(w, x, n, 0);
    var w2 := TakesOneTeardown(w1, x, n, 1);
    var w3 := TakesOneTeardown(w2, x, n, 2);
    v := TakesLastTeardown(w3, x, n);
  }

  lemma TakesLastTeardown(w: World, x: Worker, n: nat) returns (v: World)
    requires Reached(w) && TakenFrom(w, x, n) && w.parent.taken == [n + 1, n + 1, n + 1, n] && x.sent[n] == TeardownReady
    requires w.parent.pc.AwaitResults? && w.parent.teardownReady == {0, 1, 2} && w.shared.teardown == NotYet
    ensures Reached(v)
    ensures v == w.(parent := w.parent.(taken := [n + 1, n + 1, n + 1, n + 1], teardownReady := Everyone(), safetySampled := true),
                    shared := w.shared.(teardown := Full))
  {
    v := Leads(w, TakeControl(3));
    assert w.parent.teardownReady + {3} == Everyone();
  }

  lemma TakesOneTeardown(w: World, x: Worker, n: nat, i: nat) returns (v: World)
    requires Reached(w) && TakenFrom(w, x, n) && IsWorker(i) && w.parent.taken[i] == n && x.sent[n] == TeardownReady
    requires w.parent.pc.AwaitResults? && i !in w.parent.teardownReady && w.parent.teardownReady + {i} != Everyone()
    ensures Reached(v)
    ensures v == w.(parent := w.parent.(taken := w.parent.taken[i := n + 1], teardownReady := w.parent.teardownReady + {i}))
  {
    v := Leads(w, TakeControl(i));
  }

  lemma TakesResults(w: World, x: Worker) returns (v: World)
    requires Reached(w) && w.workers == Alike(x) && w.parent.pc.AwaitResults? && w.parent.results == map[]
    requires x.result.Some? && x.result.value != Bad
    ensures Reached(v)
    ensures var r := x.result.value; v == w.(parent := w.parent.(results := map[0 := r, 1 := r, 2 := r, 3 := r]))
  {
    var w1 := Leads(w, TakeResult(0));
    var w2 := Leads(w1, TakeResult(1));
    var w3 := Leads(w2, TakeResult(2));
    v := Leads(w3, TakeResult(3));
  }

  // ---------- the stages in turn ----------

  const RELEASE := 1
  const HOLD := 2

  function TheProof(): (p: Proof)
    ensures p.Keys == {0}
  {
    map[0 := Counts(PARTITION_CLIENTS_PER_LANE, PARTITION_CLIENTS_PER_LANE, PARTITION_CLIENTS_PER_LANE, 0, 0, 1, RELEASE)]
  }

  lemma TheProofIsOk()
    ensures ProofOk(TheProof(), RELEASE)
  {
    assert 0 in TheProof();
  }

  /** A worker that sees the event it waits for and passes the re-check. */
  lemma EachPasses(w: World, x: Worker) returns (v: World)
    requires Reached(w) && w.workers == Alike(x) && Waiting(x.pc) && EventSet(w.shared, x.pc) && !w.shared.cancel
    ensures Reached(v) && v == w.(workers := Alike(Passed(x.(pc := SawOf(x.pc)), w.shared)))
  {
    var w1 := EachWorks(w, x, See);
    v := EachWorks(w1, x.(pc := SawOf(x.pc)), Pass);
  }

  lemma Advanced(w: World, now: int) returns (v: World)
    requires Reached(w) && CanLead(w, Advance(now)) && !Raises(w.parent, w.shared, ResultsOk(w))
    ensures Reached(v) && v == w.(parent := AdvancedParent(w.parent), shared := AdvancedShared(w.parent, w.shared, now))
  {
    v := Leads(w, Advance(now));
  }

  function AllOf(p: Proof): map<nat, Proof>
  {
    map[0 := p, 1 := p, 2 := p, 3 := p]
  }

  lemma ReleaseStage(w: World, x: Worker) returns (v: World)
    requires Reached(w) && w.workers == Alike(x) && x == Worker(Staging, false, 0, 0, [], None) && !w.shared.cancel
    requires w.parent == Parent(AwaitReady, READY, [0, 0, 0, 0], {}, map[], map[], map[], map[], {}, false, map[], 0)
    requires w.shared.release == 0
    ensures Reached(v) && v.lanes == w.lanes && v.workers == Alike(Worker(Ramping, false, RELEASE, 0, [Ready], None))
    ensures v.parent == w.parent.(pc := AwaitRamp, state := RELEASED, taken := [1, 1, 1, 1])
    ensures v.shared == w.shared.(release := RELEASE, releaseSet := Given)
  {
    var w1 := EachWorks(w, x, SendReady);
    var y := x.(pc := WaitRelease, sent := [Ready]);
    assert x.sent + [Ready] == [Ready];
    assert w1.workers == Alike(y);
    var w2 := TakesReady(w1, y);
    var w3 := Advanced(w2, 0);
    var w4 := Advanced(w3, RELEASE);
    var w5 := Advanced(w4, 0);
    v := EachPasses(w5, y);
  }

  /** One round of proofs: each worker proves, the parent collects all four. */
  lemma ProofStage(w: World, x: Worker, n: nat, m: Message) returns (v: World)
    requires Reached(w) && w.workers == Alike(x) && |x.sent| == n && w.lanes == {0} && w.shared.release == RELEASE
    requires CanWork(x, w.shared, Prove(TheProof())) && Work(x, w.shared, Prove(TheProof())).sent == x.sent + [m]
    requires InStage(w.parent.pc) && StageProof(w.parent.pc, m, w.shared.hold) == Some(TheProof())
    requires w.parent.taken == [n, n, n, n] && w.parent.observed == {} && w.parent.proofs == map[]
    ensures Reached(v)
    ensures v == w.(workers := Alike(Work(x, w.shared, Prove(TheProof()))),
                    parent := w.parent.(taken := [n + 1, n + 1, n + 1, n + 1], observed := Everyone(), proofs := AllOf(TheProof())))
  {
    TheProofIsOk();
    var w1 := EachWorks(w, x, Prove(TheProof()));
    v := TakesProofs(w1, Work(x, w.shared, Prove(TheProof())), n, TheProof());
  }

  lemma RampStage(w: World, x: Worker) returns (v: World)
    requires Reached(w) && w.workers == Alike(x) && x == Worker(Ramping, false, RELEASE, 0, [Ready], None) && !w.shared.cancel
    requires w.lanes == {0} && w.shared.release == RELEASE
    requires w.parent == Parent(AwaitRamp, RELEASED, [1, 1, 1, 1], {}, map[], map[], map[], map[], {}, false, map[], 0)
    ensures Reached(v) && v.lanes == w.lanes && v.shared == w.shared.(prepare := Given)
    ensures v.workers == Alike(x.(pc := Preparing, sent := [Ready] + [RampReady(TheProof())]))
    ensures v.parent == w.parent.(pc := AwaitPrepared, state := RAMP_READY, taken := [2, 2, 2, 2], ramp := AllOf(TheProof()))
  {
    TheProofIsOk();
    var w1 := ProofStage(w, x, 1, RampReady(TheProof()));
    var y := Work(x, w.shared, Prove(TheProof()));
    var w2 := Advanced(w1, 0);
    var w3 := Advanced(w2, 0);
    v := EachPasses(w3, y);
  }

  lemma MintsAndSignals(w: World) returns (v: World)
    requires Reached(w) && w.parent.pc.Mint? && w.parent.mints == 0
    ensures Reached(v) && v.workers == w.workers && v.lanes == w.lanes && v.shared == w.shared.(hold := HOLD, epoch := Given)
    ensures v.parent == w.parent.(pc := AwaitCommitted, mints := 1)
  {
    var w1 := Advanced(w, HOLD);
    v := Advanced(w1, 0);
  }

  lemma PrepareStage(w: World, x: Worker, sent: seq<Message>) returns (v: World)
    requires Reached(w) && w.workers == Alike(x) && x == Worker(Preparing, false, RELEASE, 0, sent, None) && |sent| == 2
    requires w.lanes == {0} && w.shared.release == RELEASE && !w.shared.cancel
    requires w.parent == Parent(AwaitPrepared, RAMP_READY, [2, 2, 2, 2], {}, map[], AllOf(TheProof()), map[], map[], {}, false, map[], 0)
    ensures Reached(v) && v.lanes == w.lanes && v.shared == w.shared.(hold := HOLD, epoch := Given)
    ensures v.workers == Alike(x.(pc := Committing, hold := HOLD, sent := sent + [HoldPrepared(TheProof())]))
    ensures v.parent == w.parent.(pc := AwaitCommitted, state := PREPARED, taken := [3, 3, 3, 3], prepared := AllOf(TheProof()), mints := 1)
  {
    TheProofIsOk();
    var w1 := ProofStage(w, x, 2, HoldPrepared(TheProof()));
    var y := Work(x, w.shared, Prove(TheProof()));
    var w2 := Advanced(w1, 0);
    var w3 := MintsAndSignals(w2);
    v := EachPasses(w3, y);
  }

  lemma ChecksAndSamples(w: World) returns (v: World)
    requires Reached(w) && w.parent.pc.CheckCommitted? && w.parent.state == PREPARED && !w.shared.cancel
    requires w.parent.committed == w.parent.prepared
    ensures Reached(v) && v.workers == w.workers && v.lanes == w.lanes && v.shared == w.shared.(sample := Given)
    ensures v.parent == w.parent.(pc := AwaitResults, state := SAMPLING, observed := {}, proofs := map[])
  {
    var w1 := Advanced(w, 0);
    v := Advanced(w1, 0);
  }

  lemma CommitStage(w: World, x: Worker, sent: seq<Message>) returns (v: World)
    requires Reached(w) && w.workers == Alike(x) && x == Worker(Committing, false, RELEASE, HOLD, sent, None) && |sent| == 3
    requires w.lanes == {0} && w.shared.release == RELEASE && w.shared.hold == HOLD && !w.shared.cancel
    requires w.parent == Parent(AwaitCommitted, PREPARED, [3, 3, 3, 3], {}, map[], AllOf(TheProof()), AllOf(TheProof()), map[], {}, false, map[], 1)
    ensures Reached(v) && v.lanes == w.lanes && v.shared == w.shared.(sample := Given)
    ensures v.workers == Alike(x.(pc := Sampling, sent := sent + [HoldCommitted(TheProof(), HOLD)]))
    ensures v.parent == w.parent.(pc := AwaitResults, state := SAMPLING, taken := [4, 4, 4, 4], committed := AllOf(TheProof()))
  {
    TheProofIsOk();
    var w1 := ProofStage(w, x, 3, HoldCommitted(TheProof(), HOLD));
    var y := Work(x, w.shared, Prove(TheProof()));
    var w2 := Advanced(w1, 0);
    var w3 := ChecksAndSamples(w2);
    v := EachPasses(w3, y);
  }

  lemma SampleStage(w: World, x: Worker, sent: seq<Message>) returns (v: World)
    requires Reached(w) && w.workers == Alike(x) && x == Worker(Sampling, false, RELEASE, HOLD, sent, None) && |sent| == 4
    requires w.shared.release == RELEASE && w.shared.hold == HOLD && w.shared.teardown == NotYet && !w.shared.cancel
    requires w.parent.pc.AwaitResults? && w.parent.state == SAMPLING && w.parent.taken == [4, 4, 4, 4]
    requires w.parent.teardownReady == {} && w.parent.results == map[]
    ensures Reached(v) && v.parent.state == COMPLETE
    ensures |v.workers| == WORKER_COUNT && forall i | 0 <= i < |v.workers| :: v.workers[i].pc.Reported? && v.workers[i].ok
  {
    var w1 := EachWorks(w, x, Sampled);
    var y := Leaving(x, true);
    var w2 := TakesTeardown(w1, y, 4);
    var w3 := EachPasses(w2, y);
    v := ResultsStage(w3, y.(pc := Closing));
  }

  /** With the teardown given, all four close their sockets and report, and the parent completes. */
  lemma ResultsStage(w: World, z: Worker) returns (v: World)
    requires Reached(w) && w.workers == Alike(z) && z.pc.Closing? && z.ok && z.release == RELEASE && z.hold == HOLD
    requires w.shared.release == RELEASE && w.shared.hold == HOLD
    requires w.parent.pc.AwaitResults? && w.parent.state == SAMPLING && w.parent.safetySampled && w.parent.results == map[]
    ensures Reached(v) && v.parent.state == COMPLETE
    ensures |v.workers| == WORKER_COUNT && forall i | 0 <= i < |v.workers| :: v.workers[i].pc.Reported? && v.workers[i].ok
  {
    var w1 := EachWorks(w, z, Report(true));
    var w2 := TakesResults(w1, z.(pc := Reported, result := Some(CompletedResult(RELEASE, HOLD))));
    v := Advanced(w2, 0);
  }

  /** A parent and four workers that nothing disturbs reach COMPLETE, every worker done and well. */
  lemma ABarrierCanComplete() returns (v: World)
    ensures Reached(v) && v.parent.state == COMPLETE
    ensures |v.workers| == WORKER_COUNT && forall i | 0 <= i < |v.workers| :: v.workers[i].pc.Reported? && v.workers[i].ok
  {
    var x := Worker(Staging, false, 0, 0, [], None);
    var w := World(
      Parent(AwaitReady, READY, [0, 0, 0, 0], {}, map[], map[], map[], map[], {}, false, map[], 0),
      Shared(false, Unset, Unset, Unset, Unset, NotYet, 0, 0), Alike(x), {0});
    Starts(w);
    var w1 := ReleaseStage(w, x);
    var w2 := RampStage(w1, w1.workers[0]);
    var w3 := PrepareStage(w2, w2.workers[0], w2.workers[0].sent);
    var w4 := CommitStage(w3, w3.workers[0], w3.workers[0].sent);
    v := SampleStage(w4, w4.workers[0], w4.workers[0].sent);
  }
}
