/** The parent's own record of the barrier, as the code updates it message by message. */
module BarrierParent {
  import opened Wrappers
  import opened Barrier

  /** One lane's entry as it comes from a worker: its counts, and whose they say they are. */
  datatype Entry = Entry(counts: Counts, run: string, lane: Lane, worker: int)

  datatype Identity = Identity(run: string, worker: int, release: int)

  predicate EntryOk(e: Entry, lane: Lane, id: Identity)
  {
    e.run != "" && CountsOk(e.counts, id.release) && e.lane == lane && e.run == id.run && e.worker == id.worker
  }

  /** The proof an accepted message carries from there on. */
  function CountsOf(raw: map<Lane, Entry>): Proof
  {
    map lane | lane in raw :: raw[lane].counts
  }

  /** `_validated_ramp_proof`, lane by lane, as the workers and the parent call it: with the run, the worker
      and the release they expect. */
  method ValidatedRampProof(raw: map<Lane, Entry>, known: set<Lane>, id: Identity) returns (proof: Option<Proof>)
    ensures proof.Some? <==> raw != map[] && forall lane | lane in raw :: lane in known && EntryOk(raw[lane], lane, id)
    ensures proof.Some? ==> proof.value == CountsOf(raw) && ProofOk(proof.value, id.release)
  {
    if raw == map[] { return None; }
    var todo, counts: Proof := raw.Keys, map[];
    while todo != {}
      invariant todo <= raw.Keys && counts.Keys == raw.Keys - todo
      invariant forall lane | lane in counts :: lane in known && EntryOk(raw[lane], lane, id) && counts[lane] == raw[lane].counts
    {
      var lane :| lane in todo;
      if lane !in known || !EntryOk(raw[lane], lane, id) { return None; }
      counts := counts[lane := raw[lane].counts];
      todo := todo - {lane};
    }
    assert counts == CountsOf(raw);
    assert counts != map[] by { var lane :| lane in raw; assert lane in counts; }
    proof := Some(counts);
  }

  class ShardedRun {
    const lanes: set<Lane>
    var state: State
    var observed: set<nat>
    var proofs: map<nat, Proof>
    var teardownReady: set<nat>
    var safetySampled: bool
    var teardown: TeardownSignal

    constructor (lanes: set<Lane>)
      ensures this.lanes == lanes && state == READY && observed == {} && proofs == map[] && teardownReady == {}
      ensures !safetySampled && teardown == NotYet
    {
      this.lanes := lanes;
      state, observed, proofs, teardownReady, safetySampled, teardown := READY, {}, map[], {}, false, NotYet;
    }

    /** This object holds what the machine's parent does. */
    ghost predicate Mirrors(w: World)
      reads this
    {
      && lanes == w.lanes && state == w.parent.state && observed == w.parent.observed && proofs == w.parent.proofs
      && teardownReady == w.parent.teardownReady && safetySampled == w.parent.safetySampled && teardown == w.shared.teardown
    }

    method TransitionBarrier(expected: State, next: State) returns (raised: bool)
      modifies this`state
      ensures raised <==> old(state) != expected
      ensures state == if raised then ABORT else next
    {
      if state != expected {
        state := ABORT;
        return true;
      }
      state := next;
      raised := false;
    }

    /** One message in `await_stage`. */
    method StageMessage(stage: ParentPc, i: nat, m: Message, release: int, hold: int, ghost w: World)
      requires Mirrors(w) && w.parent.pc == stage && w.shared.release == release && w.shared.hold == hold
      modifies this
      ensures Mirrors(Stage(w, i, m))
    {
      if m.TeardownReady? {
        NoteTeardown(i, w);
      } else if m.Ready? && stage.AwaitReady? {
        NoteReady(i, w);
      } else {
        NoteProof(i, StageProof(stage, m, hold), release, w);
      }
    }

    method NoteTeardown(i: nat, ghost w: World)
      requires Mirrors(w)
      modifies this
      ensures Mirrors(Stage(w, i, TeardownReady))
    {
      if i in teardownReady {
        state := ABORT;
      } else {
        teardownReady := teardownReady + {i};
        if teardown == NotYet { teardown := Early; }
      }
    }

    method NoteReady(i: nat, ghost w: World)
      requires Mirrors(w) && w.parent.pc.AwaitReady?
      modifies this
      ensures Mirrors(Stage(w, i, Ready))
    {
      if i in observed { state := ABORT; } else { observed := observed + {i}; }
    }

    method NoteProof(i: nat, proof: Option<Proof>, release: int, ghost w: World)
      requires Mirrors(w) && w.shared.release == release
      modifies this
      ensures Mirrors(ProofNoted(w, i, proof))
    {
      if proof.None? {
        state := ABORT;
        return;
      }
      var valid := ProofOk(proof.value, release);
      if !valid || proof.value.Keys != lanes || i in observed {
        state := ABORT;
      } else {
        observed, proofs := observed + {i}, proofs[i := proof.value];
      }
    }

    /** One control message while the results come in. */
    method ResultsMessage(i: nat, m: Message, ghost w: World)
      requires Mirrors(w)
      modifies this
      ensures Mirrors(DuringResults(w, i, m))
    {
      if m.TeardownReady? {
        if i in teardownReady { state := ABORT; return; }
        teardownReady := teardownReady + {i};
        if teardownReady == Everyone() {
          safetySampled := true;
          if teardown == NotYet { teardown := Full; }
        }
      } else if m.Stopped? {
        state := ABORT;
      }
    }
  }
}
