/** Two runs of the job registry that show where its promises end. */
module JobTraces {
  import opened Wrappers
  import opened JobRegistry
  import opened JobLaws

  /** Where a trace starts, and whether all its moves are ordinary; else an exception may strike the claim
      at any point. */
  datatype Origin = Origin(from: World, ordinary: bool)

  ghost predicate AnyRun(ws: seq<World>, ms: seq<Move>, o: Origin)
  {
    && |ws| == |ms| + 1 && ws[0] == o.from
    && forall i {:trigger ms[i]} | 0 <= i < |ms| :: Allowed(ws[i], ms[i], o.ordinary) && ws[i + 1] == After(ws[i], ms[i])
  }

  predicate Allowed(w: World, m: Move, ordinary: bool)
  {
    Possible(w, m) && (ordinary ==> Ordinary(w, m))
  }

  ghost predicate Reached(w: World, o: Origin)
  {
    exists ws, ms :: AnyRun(ws, ms, o) && ws[|ms|] == w
  }

  /** What an ordinary trace reaches, a run does, so that every law of runs holds there. */
  ghost predicate EndsARun(w: World)
  {
    exists ws, ms :: Run(ws, ms) && Init(ws[0]) && ws[|ms|] == w
  }

  lemma ReachedEndsARun(w: World, o: Origin)
    requires Reached(w, o) && o.ordinary && Init(o.from)
    ensures EndsARun(w)
  {
    var ws, ms :| AnyRun(ws, ms, o) && ws[|ms|] == w;
    InitIsSound(ws[0]);
    assert Run(ws, ms);
  }

  lemma Starts(o: Origin)
    ensures Reached(o.from, o)
  {
    var ms: seq<Move> := [];
    assert AnyRun([o.from], ms, o) && [o.from][|ms|] == o.from;
  }

  lemma Reach(w: World, o: Origin, m: Move)
    requires Reached(w, o) && Allowed(w, m, o.ordinary)
    ensures Reached(After(w, m), o)
  {
    var ws, ms :| AnyRun(ws, ms, o) && ws[|ms|] == w;
    var ws', ms' := ws + [After(w, m)], ms + [m];
    assert AnyRun(ws', ms', o) && ws'[|ms'|] == After(w, m);
  }

  lemma Goes(w: World, o: Origin, p: Pid) returns (w': World)
    requires Reached(w, o) && CanDo(w, p, Go)
    ensures Reached(w', o) && w' == Forward(w, p)
  {
    Reach(w, o, Acts(p, Go));
    w' := Forward(w, p);
  }

  lemma Does(w: World, o: Origin, p: Pid, a: Action) returns (w': World)
    requires Reached(w, o) && CanDo(w, p, a) && (o.ordinary ==> !RaisesAfterPublishing(w, p, a))
    ensures Reached(w', o) && w' == Step(w, p, a)
  {
    Reach(w, o, Acts(p, a));
    w' := Step(w, p, a);
  }

  /** The job's directory and one process's place, with everything else of `w`. */
  function At(w: World, d: Directory, locks: map<nat, Pid>, p: Pid, x: Proc): World
  {
    w.(dir := d, locks := locks, procs := w.procs[p := x])
  }

  lemma Claims(w: World, o: Origin, p: Pid) returns (w': World)
    requires Reached(w, o) && p in w.procs && w.procs[p].pc.Start? && w.dir.Absent? && w.locks == map[]
    ensures Reached(w', o)
    ensures var x := w.procs[p];
      w' == At(w, Present(w.nextGen, p, Some(x.digest), Some(Claimed), None, false), map[w.nextGen := p],
               p, x.(pc := OwnerReady, gen := w.nextGen)).(nextGen := w.nextGen + 1)
  {
    var x, d := w.procs[p], Present(w.nextGen, p, None, None, None, false);
    var w1 := Goes(w, o, p);
    assert w1 == At(w, d, map[], p, x.(pc := ClaimLock, gen := w.nextGen)).(nextGen := w.nextGen + 1);
    var w2 := Goes(w1, o, p);
    assert w2 == At(w1, d, map[w.nextGen := p], p, x.(pc := ClaimDigest, gen := w.nextGen));
    var w3 := Goes(w2, o, p);
    assert w3 == At(w2, d.(digest := Some(x.digest)), w2.locks, p, x.(pc := ClaimState, gen := w.nextGen));
    w' := Goes(w3, o, p);
  }

  lemma BeginsRun(w: World, o: Origin, p: Pid) returns (w': World)
    requires Reached(w, o) && p in w.procs && w.procs[p].pc.OwnerReady? && w.runner == Free && w.dir.Present?
    ensures Reached(w', o)
    ensures w' == At(w, w.dir.(state := Some(RunningState)), w.locks, p, w.procs[p].(pc := Running, hasRunner := true))
                    .(runner := Held(p), starts := w.starts + [p])
  {
    var w1 := Goes(w, o, p);
    w' := Goes(w1, o, p);
  }

  /** The owner's run returns, it writes the result, and it dies before it can mark the job completed. */
  lemma WritesAndDies(w: World, o: Origin, p: Pid, r: Encoded) returns (w': World)
    requires Reached(w, o) && p in w.procs && w.procs[p].pc.Running? && w.procs[p].hasRunner && w.runner == Held(p)
    requires w.dir.Present? && w.locks == map[w.procs[p].gen := p]
    ensures Reached(w', o)
    ensures w' == At(w, w.dir.(result := Some(r)), map[], p, w.procs[p].(pc := Crashed, hasRunner := false))
                    .(runner := Free, finished := w.finished + {r})
  {
    var w1 := Does(w, o, p, Returns(r));
    var w2 := Goes(w1, o, p);
    w' := DiesRunning(w2, o, p);
  }

  lemma DiesRunning(w: World, o: Origin, p: Pid) returns (w': World)
    requires Reached(w, o) && p in w.procs && w.procs[p].pc.MarkCompleted? && w.procs[p].hasRunner
    requires w.locks == map[w.procs[p].gen := p]
    ensures Reached(w', o)
    ensures w' == At(w, w.dir, map[], p, w.procs[p].(pc := Crashed, hasRunner := false)).(runner := Free)
  {
    w' := Does(w, o, p, Crash);
    assert Unlocked(w.locks, p) == map[];
  }

  /** A later invocation of the same request comes to the job's directory. */
  lemma Comes(w: World, o: Origin, p: Pid) returns (w': World)
    requires Reached(w, o) && p in w.procs && w.procs[p].pc.Start? && w.dir.Present?
    requires w.dir.digest == Some(w.procs[p].digest)
    ensures Reached(w', o)
    ensures w' == At(w, w.dir, w.locks, p, w.procs[p].(pc := Poll, gen := w.dir.gen))
  {
    var w1 := Goes(w, o, p);
    var w2 := Goes(w1, o, p);
    w' := Goes(w2, o, p);
  }

  /** It finds the job unsettled and its lock free. */
  lemma TakesLock(w: World, o: Origin, p: Pid) returns (w': World)
    requires Reached(w, o) && p in w.procs && w.procs[p].pc.Poll? && w.dir.Present? && !w.dir.settled && w.locks == map[]
    ensures Reached(w', o)
    ensures w' == At(w, w.dir, map[w.procs[p].gen := p], p, w.procs[p].(pc := Locked))
  {
    var w1 := Goes(w, o, p);
    w' := Goes(w1, o, p);
  }

  lemma Contends(w: World, o: Origin, p: Pid) returns (w': World)
    requires Reached(w, o) && p in w.procs && w.procs[p].pc.Start? && w.dir.Present? && !w.dir.settled && w.locks == map[]
    requires w.dir.digest == Some(w.procs[p].digest)
    ensures Reached(w', o)
    ensures w' == At(w, w.dir, map[w.dir.gen := p], p, w.procs[p].(pc := Locked, gen := w.dir.gen))
  {
    var w1 := Comes(w, o, p);
    w' := TakesLock(w1, o, p);
  }

  /** It takes the job over from a dead owner. */
  lemma TakesOver(w: World, o: Origin, p: Pid) returns (w': World)
    requires Reached(w, o) && p in w.procs && w.procs[p].pc.Locked?
    requires w.dir.Present? && !w.dir.settled && w.dir.state == Some(RunningState) && w.dir.digest == Some(w.procs[p].digest)
    ensures Reached(w', o)
    ensures w' == At(w, w.dir.(state := Some(Claimed)), w.locks, p, w.procs[p].(pc := OwnerReady))
  {
    var w1 := Goes(w, o, p);
    assert w1 == To(w, p, Reclaim);
    w' := Goes(w1, o, p);
  }

  /** It fails, and dies with the failure recorded but not settled. */
  lemma FailsAndDies(w: World, o: Origin, p: Pid) returns (w': World)
    requires Reached(w, o) && p in w.procs && w.procs[p].pc.OwnerReady? && w.runner == Elsewhere
    requires w.dir.Present? && !w.procs[p].hasRunner && w.locks == map[w.procs[p].gen := p]
    ensures Reached(w', o)
    ensures w' == At(w, w.dir.(state := Some(FailedState)), map[], p, w.procs[p].(pc := Crashed)).(recorded := w.recorded + {p})
  {
    var w1 := Goes(w, o, p);
    assert w1 == To(w, p, MarkEnd(FailedState));
    var w2 := Goes(w1, o, p);
    assert w2 == At(w, w.dir.(state := Some(FailedState)), w.locks, p, w.procs[p].(pc := DropRunner)).(recorded := w.recorded + {p});
    w' := Does(w2, o, p, Crash);
    assert Unlocked(w.locks, p) == map[];
  }

  /** The next invocation recovers the failure, settles it, and answers with no result. */
  lemma RecoversFailure(w: World, o: Origin, p: Pid) returns (w': World)
    requires Reached(w, o) && p in w.procs && w.procs[p].pc.Locked?
    requires w.dir.Present? && !w.dir.settled && w.dir.state == Some(FailedState)
    requires w.dir.digest == Some(w.procs[p].digest) && w.locks == map[w.procs[p].gen := p]
    ensures Reached(w', o)
    ensures w' == At(w, w.dir.(settled := true), map[], p, w.procs[p].(pc := Done(Some(Replayed(None, false)))))
  {
    var w1 := Goes(w, o, p);
    assert w1 == To(w, p, Settling(Replayed(None, false)));
    var w2 := Goes(w1, o, p);
    assert w2 == At(w, w.dir.(settled := true), w.locks, p, w.procs[p].(pc := DropLock(Some(Replayed(None, false)))));
    w' := Goes(w2, o, p);
    assert Unlocked(w.locks, p) == map[];
  }

  /** And the one after that replays the result the first owner left. */
  lemma ReplaysResult(w: World, o: Origin, p: Pid) returns (w': World)
    requires Reached(w, o) && p in w.procs && w.procs[p].pc.Poll? && w.dir.Present? && w.dir.settled && w.dir.result.Some?
    ensures Reached(w', o)
    ensures w' == At(w, w.dir, w.locks, p, w.procs[p].(pc := Done(Some(Replayed(w.dir.result, false)))))
                    .(answers := w.answers + [Replayed(w.dir.result, false)])
  {
    var w1 := Goes(w, o, p);
    w' := Goes(w1, o, p);
  }

  lemma RunnerGoes(w: World, o: Origin, r: Runner) returns (w': World)
    requires Reached(w, o) && RunnerMoves(w.runner, r)
    ensures Reached(w', o) && w' == w.(runner := r)
  {
    Reach(w, o, OtherJob(r));
    w' := w.(runner := r);
  }

  predicate AllStart(w: World, ps: set<Pid>, digest: Digest)
  {
    forall p | p in ps :: p in w.procs && w.procs[p].pc.Start? && w.procs[p].digest == digest && !w.procs[p].hasRunner
  }

  /** Two takeovers of one job, both ended by a death. */
  lemma LeavesAResultUnderAFailure(w: World, o: Origin, p1: Pid, p2: Pid, digest: Digest, r: Encoded) returns (w': World)
    requires w == o.from && Init(w) && w.runner == Free && p1 != p2 && AllStart(w, {p1, p2}, digest)
    ensures Reached(w', o)
    ensures w'.dir == Present(w.nextGen, p1, Some(digest), Some(FailedState), Some(r), false)
    ensures w'.locks == map[] && w'.answers == [] && w'.procs.Keys == w.procs.Keys
    ensures forall q | q in w.procs && q != p1 && q != p2 :: w'.procs[q] == w.procs[q]
  {
    Starts(o);
    var w1 := Claims(w, o, p1);
    var w2 := BeginsRun(w1, o, p1);
    var w3 := WritesAndDies(w2, o, p1, r);
    var w4 := RunnerGoes(w3, o, Elsewhere);
    var w5 := Contends(w4, o, p2);
    var w6 := TakesOver(w5, o, p2);
    w' := FailsAndDies(w6, o, p2);
  }

  /** A job can settle as failed with a result still present: one invocation is then told that it failed, and
      the next is given the result. */
  lemma OneIsToldItFailedAndTheNextGetsAResult(w: World, p1: Pid, p2: Pid, p3: Pid, p4: Pid, digest: Digest, r: Encoded)
      returns (w': World)
    requires Init(w) && w.runner == Free && AllStart(w, {p1, p2, p3, p4}, digest)
    requires p1 != p2 && p3 !in {p1, p2} && p4 !in {p1, p2, p3}
    ensures EndsARun(w') && w'.dir.Present? && w'.dir.settled && w'.dir.state == Some(FailedState)
    ensures p3 in w'.procs && w'.procs[p3].pc == Done(Some(Replayed(None, false)))
    ensures p4 in w'.procs && w'.procs[p4].pc == Done(Some(Replayed(Some(r), false)))
  {
    var o := Origin(w, true);
    var w1 := LeavesAResultUnderAFailure(w, o, p1, p2, digest, r);
    var w2 := Contends(w1, o, p3);
    var w3 := RecoversFailure(w2, o, p3);
    var w4 := Comes(w3, o, p4);
    w' := ReplaysResult(w4, o, p4);
    ReachedEndsARun(w', o);
  }

  /** An exception strikes the claim between its two writes, once its identity is published. */
  lemma ClaimsAndRaises(w: World, o: Origin, p: Pid) returns (w': World)
    requires Reached(w, o) && !o.ordinary && p in w.procs && w.procs[p].pc.Start? && w.dir.Absent? && w.locks == map[]
    ensures Reached(w', o)
    ensures w' == At(w, Present(w.nextGen, p, Some(w.procs[p].digest), None, None, false), map[],
                     p, w.procs[p].(pc := Aborting, gen := w.nextGen)).(nextGen := w.nextGen + 1)
  {
    var w1 := Goes(w, o, p);
    var w2 := Goes(w1, o, p);
    var w3 := Goes(w2, o, p);
    w' := Does(w3, o, p, Raise);
    assert Unlocked(w3.locks, p) == map[];
  }

  /** A contender takes over a claim that recorded no state. */
  lemma TakesOverBareClaim(w: World, o: Origin, p: Pid) returns (w': World)
    requires Reached(w, o) && !o.ordinary && p in w.procs && w.procs[p].pc.Locked?
    requires w.dir.Present? && !w.dir.settled && w.dir.state == None && w.dir.digest == Some(w.procs[p].digest)
    ensures Reached(w', o)
    ensures w' == At(w, w.dir.(state := Some(Claimed)), w.locks, p, w.procs[p].(pc := OwnerReady))
  {
    var w1 := Goes(w, o, p);
    assert w1 == To(w, p, Reclaim);
    w' := Goes(w1, o, p);
  }

  /** The exception's clean-up then removes a directory that another process has taken over, and a third
      process claims the job afresh: two processes own it, and the first is in its run. */
  lemma ACleanUpAfterPublishingBreaksOwnership(w: World, p1: Pid, p2: Pid, p3: Pid, digest: Digest) returns (w': World)
    requires Init(w) && w.runner == Free && AllStart(w, {p1, p2, p3}, digest) && p1 != p2 && p3 !in {p1, p2}
    ensures Reached(w', Origin(w, false))
    ensures p2 in w'.procs && w'.procs[p2].pc.Running? && p3 in w'.procs && w'.procs[p3].pc.ClaimLock?
    ensures w'.dir.Present? && w'.dir.creator == p3
  {
    var o := Origin(w, false);
    Starts(o);
    var w1 := ClaimsAndRaises(w, o, p1);
    var w2 := Contends(w1, o, p2);
    var w3 := TakesOverBareClaim(w2, o, p2);
    var w4 := BeginsRun(w3, o, p2);
    var w5 := Goes(w4, o, p1);
    w' := Goes(w5, o, p3);
  }
}
