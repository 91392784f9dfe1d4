/** What the job registry guarantees over every run, for any processes and any crashes. */
module JobLaws {
  import opened Wrappers
  import opened JobRegistry

  datatype Move = Acts(p: Pid, a: Action) | OtherJob(r: Runner)

  predicate Possible(w: World, m: Move)
  {
    match m
    case Acts(p, a) => CanDo(w, p, a)
    case OtherJob(r) => RunnerMoves(w.runner, r)
  }

  /** Every move except an exception raised in the claim after its identity was published. */
  predicate Ordinary(w: World, m: Move)
  {
    Possible(w, m) && (m.Acts? ==> !RaisesAfterPublishing(w, m.p, m.a))
  }

  function After(w: World, m: Move): World
    requires Possible(w, m)
  {
    match m
    case Acts(p, a) => Step(w, p, a)
    case OtherJob(r) => w.(runner := r)
  }

  /** A world from which the laws hold: one with every process at the start and no directory is one. */
  ghost predicate Sound(w: World)
  {
    Inv(w) && Explained(w)
  }

  lemma InitIsSound(w: World)
    requires Init(w)
    ensures Sound(w)
  {
    InitInv(w);
  }

  /** `ws` is a run: it starts in a sound world, and each world follows from the one before by an ordinary
      move. */
  ghost predicate Run(ws: seq<World>, ms: seq<Move>)
  {
    && |ws| == |ms| + 1 && Sound(ws[0])
    && forall i {:trigger ms[i]} | 0 <= i < |ms| :: Ordinary(ws[i], ms[i]) && ws[i + 1] == After(ws[i], ms[i])
  }

  lemma MoveInv(w: World, m: Move)
    requires Inv(w) && Ordinary(w, m)
    ensures Inv(After(w, m))
  {
    match m
    case Acts(p, a) => StepInv(w, p, a);
    case OtherJob(r) => RunnerMoveInv(w, r);
  }

  lemma {:induction false} RunInv(ws: seq<World>, ms: seq<Move>, i: nat)
    requires Run(ws, ms) && i < |ws|
    ensures Inv(ws[i])
    decreases i
  {
    if i > 0 {
      RunInv(ws, ms, i - 1);
      MoveInv(ws[i - 1], ms[i - 1]);
    }
  }

  /** At every point of every run, at most one process is in the run section, and it alone owns the job. */
  lemma AtMostOneOwnerRuns(ws: seq<World>, ms: seq<Move>, i: nat, p: Pid, q: Pid)
    requires Run(ws, ms) && i < |ws|
    requires p in ws[i].procs && q in ws[i].procs && p != q
    ensures !(Holds(ws[i].procs[p].pc) && Holds(ws[i].procs[q].pc))
    ensures !(InRunSection(ws[i].procs[p]) && InRunSection(ws[i].procs[q]))
    ensures InRunSection(ws[i].procs[p]) ==> Holds(ws[i].procs[p].pc)
  {
    RunInv(ws, ms, i);
    assert ProcOk(ws[i], p) && ProcOk(ws[i], q);
    if Holds(ws[i].procs[p].pc) { OneHolder(ws[i], p, q); }
  }

  lemma {:induction false} StartsOnlyGrow(ws: seq<World>, ms: seq<Move>, i: nat, j: nat)
    requires Run(ws, ms) && i <= j < |ws|
    ensures ws[i].starts <= ws[j].starts
    decreases j
  {
    if i < j {
      StartsOnlyGrow(ws, ms, i, j - 1);
      if ms[j - 1].Acts? { StartsGrow(ws[j - 1], ms[j - 1].p, ms[j - 1].a); }
    }
  }

  /** A second run begins only after the process that began the one before has died, and it died before it
      recorded any terminal state. */
  lemma ARunIsRepeatedOnlyAfterAnUnrecordedDeath(ws: seq<World>, ms: seq<Move>, i: nat, k: nat)
    requires Run(ws, ms) && i < |ws| && k + 1 < |ws[i].starts|
    ensures var q := ws[i].starts[k]; q in ws[i].procs && ws[i].procs[q].pc.Crashed? && q !in ws[i].recorded
  {
    RunInv(ws, ms, i);
    assert StartOk(ws[i], ws[i].starts[k]);
  }

  lemma SettledStays(w: World, m: Move)
    requires Inv(w) && Ordinary(w, m) && w.dir.Present? && w.dir.settled
    ensures After(w, m).dir == w.dir
  {
    if m.Acts? {
      assert ProcOk(w, m.p);
      StepChangesDir(w, m.p, m.a);
    }
  }

  /** Once the job has settled, nothing in its directory ever changes, and no run begins. */
  lemma {:induction false} SettledIsFinal(ws: seq<World>, ms: seq<Move>, i: nat, j: nat)
    requires Run(ws, ms) && i <= j < |ws| && ws[i].dir.Present? && ws[i].dir.settled
    ensures ws[j].dir == ws[i].dir && ws[j].starts == ws[i].starts
    decreases j
  {
    if i < j {
      SettledIsFinal(ws, ms, i, j - 1);
      RunInv(ws, ms, j - 1);
      SettledStays(ws[j - 1], ms[j - 1]);
      SettledBeginsNothing(ws[j - 1], ms[j - 1]);
    }
  }

  lemma SettledBeginsNothing(w: World, m: Move)
    requires Inv(w) && Ordinary(w, m) && w.dir.Present? && w.dir.settled
    ensures After(w, m).starts == w.starts
  {
    if m.Acts? {
      assert ProcOk(w, m.p);
      StartsGrow(w, m.p, m.a);
    }
  }

  /** Every answer given by an invocation that saw the job settled, at any time, is one and the same, and a
      result in it was returned by a run that finished. */
  lemma ReplaysAgree(ws: seq<World>, ms: seq<Move>, i: nat, j: nat, k: nat, l: nat)
    requires Run(ws, ms) && i < |ws| && j < |ws| && k < |ws[i].answers| && l < |ws[j].answers|
    ensures ws[i].answers[k] == ws[j].answers[l]
    ensures ws[i].answers[k].result.Some? ==> ws[i].answers[k].result.value in ws[i].finished
  {
    RunInv(ws, ms, i);
    RunInv(ws, ms, j);
    assert ws[i].answers[k] in ws[i].answers && ws[j].answers[l] in ws[j].answers;
    if i <= j { SettledIsFinal(ws, ms, i, j); } else { SettledIsFinal(ws, ms, j, i); }
  }

  // ---------- where a recovered answer and a later replay differ ----------

  predicate InRun(pc: Pc)
  {
    pc.Running? || pc.KeepResult? || pc.MarkCompleted?
  }

  /** The process that wrote the result: about to mark it completed, or dead before it could. */
  ghost predicate Wrote(w: World, q: Pid)
  {
    q in w.starts && q in w.procs && (Dead(w, q) || w.procs[q].pc.MarkCompleted?)
  }

  predicate Leftover(d: Directory)
  {
    d.Present? && d.result.Some? && d.state != Some(Completed)
  }

  ghost predicate Explained(w: World)
  {
    && (forall p | p in w.procs :: InRun(w.procs[p].pc) ==> p in w.starts)
    && (Leftover(w.dir) ==> exists q :: Wrote(w, q))
  }

  lemma WriterIsRemembered(w: World, m: Move, q: Pid)
    requires Inv(w) && Ordinary(w, m) && Wrote(w, q) && Leftover(After(w, m).dir)
    ensures Wrote(After(w, m), q)
  {
    if m.Acts? {
      assert ProcOk(w, q);
      StartsGrow(w, m.p, m.a);
      if Dead(w, q) { DeadStaysDead(w, m.p, m.a, q); } else if q != m.p { StepSpares(w, m.p, m.a, q); }
    }
  }

  lemma StepSpares(w: World, p: Pid, a: Action, q: Pid)
    requires CanDo(w, p, a) && q in w.procs && q != p
    ensures q in Step(w, p, a).procs && Step(w, p, a).procs[q] == w.procs[q]
  {
  }

  lemma NewLeftover(w: World, m: Move)
    requires Inv(w) && Ordinary(w, m) && !Leftover(w.dir) && Leftover(After(w, m).dir)
    ensures m.Acts? && w.procs[m.p].pc.KeepResult? && After(w, m).procs[m.p].pc.MarkCompleted?
  {
    assert ProcOk(w, m.p);
    if w.dir.Present? && w.dir.result.Some? {
      CompletedStays(w, m);
    } else {
      OnlyTheRunWritesAResult(w, m);
    }
  }

  lemma CompletedStays(w: World, m: Move)
    requires Inv(w) && Ordinary(w, m) && w.dir.Present? && w.dir.result.Some? && w.dir.state == Some(Completed)
    ensures After(w, m).dir.Present? && After(w, m).dir.state == Some(Completed)
  {
    if m.Acts? { assert ProcOk(w, m.p); }
  }

  lemma OnlyTheRunWritesAResult(w: World, m: Move)
    requires Possible(w, m) && (w.dir.Absent? || w.dir.result.None?)
    requires After(w, m).dir.Present? && After(w, m).dir.result.Some?
    ensures m.Acts? && w.procs[m.p].pc.KeepResult? && After(w, m).procs[m.p].pc.MarkCompleted?
  {
    if m.Acts? && m.a.Go? && !w.procs[m.p].pc.KeepResult? {
      OthersWriteNoResult(w, m.p);
    }
  }

  lemma OthersWriteNoResult(w: World, p: Pid)
    requires p in w.procs && !w.procs[p].pc.KeepResult? && Forward(w, p).dir.Present? && Forward(w, p).dir.result.Some?
    ensures w.dir.Present? && w.dir.result == Forward(w, p).dir.result
  {
    if Starting(w.procs[p].pc) {
      StartingWritesNoResult(w, p);
    } else if w.procs[p].pc.Locked? {
      assert Reread(w, p).dir == w.dir;
    }
  }

  lemma StartingWritesNoResult(w: World, p: Pid)
    requires p in w.procs && Starting(w.procs[p].pc) && Forward(w, p).dir.Present? && Forward(w, p).dir.result.Some?
    ensures w.dir.Present? && w.dir.result == Forward(w, p).dir.result
  {
  }

  lemma LeftoverExplained(w: World, m: Move)
    requires Inv(w) && Explained(w) && Ordinary(w, m) && Leftover(After(w, m).dir)
    ensures exists q :: Wrote(After(w, m), q)
  {
    if Leftover(w.dir) {
      var q :| Wrote(w, q);
      WriterIsRemembered(w, m, q);
    } else {
      NewLeftover(w, m);
      StartsGrow(w, m.p, m.a);
      assert Wrote(After(w, m), m.p);
    }
  }

  lemma EntersRun(w: World, p: Pid, a: Action)
    requires CanDo(w, p, a) && InRun(Step(w, p, a).procs[p].pc)
    ensures InRun(w.procs[p].pc) || (a.Go? && w.procs[p].pc.OwnerRuns?)
  {
    if a.Go? { GoesIntoRun(w, p); }
  }

  lemma GoesIntoRun(w: World, p: Pid)
    requires p in w.procs && InRun(Forward(w, p).procs[p].pc)
    ensures InRun(w.procs[p].pc) || w.procs[p].pc.OwnerRuns?
  {
    if Starting(w.procs[p].pc) {
      StartingStaysOut(w, p);
    } else if Rejoining(w.procs[p].pc) {
      RejoiningStaysOut(w, p);
    }
  }

  lemma StartingStaysOut(w: World, p: Pid)
    requires p in w.procs && Starting(w.procs[p].pc)
    ensures !InRun(Forward(w, p).procs[p].pc)
  {
  }

  lemma RejoiningStaysOut(w: World, p: Pid)
    requires p in w.procs && Rejoining(w.procs[p].pc)
    ensures !InRun(Forward(w, p).procs[p].pc)
  {
    if w.procs[p].pc.Locked? { assert Forward(w, p) == Reread(w, p); }
  }

  lemma MoveExplained(w: World, m: Move)
    requires Inv(w) && Explained(w) && Ordinary(w, m)
    ensures Explained(After(w, m))
  {
    if Leftover(After(w, m).dir) { LeftoverExplained(w, m); }
    if m.Acts? {
      StartsGrow(w, m.p, m.a);
      StepKeepsProcs(w, m.p, m.a);
      forall q | q in After(w, m).procs ensures InRun(After(w, m).procs[q].pc) ==> q in After(w, m).starts {
        if q != m.p {
          StepSpares(w, m.p, m.a, q);
        } else if InRun(After(w, m).procs[q].pc) {
          EntersRun(w, m.p, m.a);
        }
      }
    }
  }

  lemma {:induction false} RunExplained(ws: seq<World>, ms: seq<Move>, i: nat)
    requires Run(ws, ms) && i < |ws|
    ensures Explained(ws[i])
    decreases i
  {
    if i > 0 {
      RunExplained(ws, ms, i - 1);
      RunInv(ws, ms, i - 1);
      MoveExplained(ws[i - 1], ms[i - 1]);
    }
  }

  /** An invocation that recovers a dead owner's outcome answers as every later replay does exactly when the
      job completed or no result was left behind; and one is left behind only by an owner that died between
      writing its result and marking it completed. */
  lemma RecoveryAgreesExactlyWithoutALeftover(ws: seq<World>, ms: seq<Move>, i: nat, p: Pid)
    requires Run(ws, ms) && i < |ws| && p in ws[i].procs && ws[i].procs[p].pc.Settling?
    ensures ws[i].dir.Present?
    ensures ws[i].procs[p].pc.answer == AnswerOf(ws[i].dir) <==> !Leftover(ws[i].dir)
    ensures Leftover(ws[i].dir) ==> exists q :: q in ws[i].starts && Dead(ws[i], q)
  {
    RunInv(ws, ms, i);
    RunExplained(ws, ms, i);
    assert ProcOk(ws[i], p);
    if Leftover(ws[i].dir) {
      var q :| Wrote(ws[i], q);
      assert ProcOk(ws[i], q);
      assert Dead(ws[i], q) by { if !Dead(ws[i], q) { OneHolder(ws[i], p, q); } }
    }
  }
}