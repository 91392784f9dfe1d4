/** An exception in the claim after its identity was published: the claimant's clean-up will remove a
    directory that others can by then be using. Exactly which clean-ups keep the registry's invariant. */
module JobCleanUp {
  import opened Wrappers
  import opened JobRegistry
  import opened JobLaws

  /** The invariant of a claimant that raised is that of one that crashed, until it cleans up. */
  ghost predicate InvBut(w: World, p: Pid)
  {
    p in w.procs && w.procs[p].pc.Aborting? && Inv(To(w, p, Crashed))
  }

  /** No other live process relies on the directory, every run begun in it died unrecorded, and nobody was
      answered from it. */
  ghost predicate Harmless(w: World, p: Pid)
  {
    && (forall q | q in w.procs && q != p :: !Relies(w.procs[q].pc))
    && (forall q | q in w.starts :: Dead(w, q))
    && w.answers == []
  }

  /** Raising leaves everybody else as a crash would. */
  lemma RaisingIsLikeCrashing(w: World, p: Pid)
    requires Inv(w) && CanDo(w, p, Raise)
    ensures InvBut(Step(w, p, Raise), p)
  {
    assert ProcOk(w, p);
    StepInv(w, p, Crash);
    assert To(Step(w, p, Raise), p, Crashed).procs == Step(w, p, Crash).procs;
    assert To(Step(w, p, Raise), p, Crashed) == Step(w, p, Crash);
  }

  /** What others do meanwhile they do just as well beside a crashed process. */
  lemma OthersStepBeside(w: World, p: Pid, q: Pid, a: Action)
    requires InvBut(w, p) && q != p && CanDo(w, q, a) && !RaisesAfterPublishing(w, q, a)
    ensures InvBut(Step(w, q, a), p)
  {
    var beside := To(w, p, Crashed);
    assert beside.procs[q] == w.procs[q];
    StepInv(beside, q, a);
    StepsAlike(w, p, q, a);
  }

  lemma StepsAlike(w: World, p: Pid, q: Pid, a: Action)
    requires p in w.procs && w.procs[p].pc.Aborting? && q != p && CanDo(w, q, a) && CanDo(To(w, p, Crashed), q, a)
    ensures Step(w, q, a).procs[p] == w.procs[p]
    ensures To(Step(w, q, a), p, Crashed) == Step(To(w, p, Crashed), q, a)
  {
    var v := To(w, p, Crashed);
    assert Alike(w, v, q);
    if a.Go? { ForwardAlike(w, v, q); }
    assert To(Step(w, q, a), p, Crashed).procs == Step(v, q, a).procs;
  }

  /** Two worlds that differ at most in processes other than `q`. */
  predicate Alike(w: World, v: World, q: Pid)
  {
    q in w.procs && q in v.procs && v.procs[q] == w.procs[q] && v == w.(procs := v.procs)
  }

  predicate Arriving(pc: Pc)
  {
    pc.Start? || pc.AwaitDigest?
  }

  predicate Claiming(pc: Pc)
  {
    InClaim(pc) || pc.Aborting?
  }

  predicate TakingOver(pc: Pc)
  {
    pc.Settling? || pc.Reclaim? || pc.OwnerReady? || pc.OwnerRuns?
  }

  predicate Recording(pc: Pc)
  {
    pc.KeepResult? || pc.MarkCompleted? || pc.MarkEnd?
  }

  predicate Finishing(pc: Pc)
  {
    pc.DropRunner? || pc.MarkSettled? || pc.DropLock? || pc.Running? || Ended(pc)
  }

  predicate Contending(pc: Pc)
  {
    pc.OpenLock? || pc.Poll? || pc.ReadResult? || pc.ReadState? || pc.TryLock?
  }

  lemma RereadAlike(w: World, v: World, q: Pid)
    requires Alike(w, v, q)
    ensures Alike(Reread(w, q), Reread(v, q), q)
  {
  }

  lemma ClaimingAlike(w: World, v: World, q: Pid)
    requires Alike(w, v, q) && Claiming(w.procs[q].pc)
    ensures Alike(Forward(w, q), Forward(v, q), q)
  {
  }

  lemma ContendingAlike(w: World, v: World, q: Pid)
    requires Alike(w, v, q) && Contending(w.procs[q].pc)
    ensures Alike(Forward(w, q), Forward(v, q), q)
  {
  }

  lemma ArrivingAlike(w: World, v: World, q: Pid)
    requires Alike(w, v, q) && Arriving(w.procs[q].pc)
    ensures Alike(Forward(w, q), Forward(v, q), q)
  {
  }

  lemma TakingOverAlike(w: World, v: World, q: Pid)
    requires Alike(w, v, q) && TakingOver(w.procs[q].pc)
    ensures Alike(Forward(w, q), Forward(v, q), q)
  {
  }

  lemma RecordingAlike(w: World, v: World, q: Pid)
    requires Alike(w, v, q) && Recording(w.procs[q].pc)
    ensures Alike(Forward(w, q), Forward(v, q), q)
  {
  }

  lemma FinishingAlike(w: World, v: World, q: Pid)
    requires Alike(w, v, q) && Finishing(w.procs[q].pc)
    ensures Alike(Forward(w, q), Forward(v, q), q)
  {
  }

  lemma ForwardAlike(w: World, v: World, q: Pid)
    requires Alike(w, v, q)
    ensures Alike(Forward(w, q), Forward(v, q), q)
  {
    var pc := w.procs[q].pc;
    if Arriving(pc) { ArrivingAlike(w, v, q); }
    else if Claiming(pc) { ClaimingAlike(w, v, q); }
    else if Contending(pc) { ContendingAlike(w, v, q); }
    else if pc.Locked? { RereadAlike(w, v, q); }
    else if TakingOver(pc) { TakingOverAlike(w, v, q); }
    else if Recording(pc) { RecordingAlike(w, v, q); }
    else { FinishingAlike(w, v, q); }
  }

  lemma OthersMoveBeside(w: World, p: Pid, m: Move)
    requires InvBut(w, p) && Ordinary(w, m) && (m.Acts? ==> m.p != p)
    ensures InvBut(After(w, m), p)
  {
    match m
    case Acts(q, a) => OthersStepBeside(w, p, q, a);
    case OtherJob(r) =>
      RunnerMoveInv(To(w, p, Crashed), r);
      assert To(w, p, Crashed).(runner := r) == To(After(w, m), p, Crashed);
  }

  function Cleaned(w: World, p: Pid): World
    requires p in w.procs
  {
    To(w, p, Done(None)).(dir := Absent)
  }

  lemma HarmlessKeepsProc(w: World, p: Pid, q: Pid)
    requires InvBut(w, p) && Harmless(w, p) && q in w.procs
    ensures ProcOk(Cleaned(w, p), q)
  {
    var beside := To(w, p, Crashed);
    assert ProcOk(beside, q);
    assert q != p ==> beside.procs[q] == w.procs[q] == Cleaned(w, p).procs[q];
  }

  lemma HarmlessKeepsStarts(w: World, p: Pid)
    requires InvBut(w, p) && Harmless(w, p)
    ensures StartsOk(Cleaned(w, p))
  {
    var w' := Cleaned(w, p);
    forall i | 0 <= i < |w.starts| ensures StartOk(w', w'.starts[i]) && Dead(w', w'.starts[i]) {
      assert w.starts[i] in w.starts;
    }
  }

  lemma HarmlessKeepsDir(w: World, p: Pid)
    requires InvBut(w, p) && Harmless(w, p)
    ensures DirOk(Cleaned(w, p))
  {
    assert DirOk(To(w, p, Crashed));
  }

  /** A harmless clean-up leaves a world from which every law of the registry holds. */
  lemma HarmlessIsSound(w: World, p: Pid)
    requires InvBut(w, p) && Harmless(w, p)
    ensures Sound(Cleaned(w, p))
  {
    var w' := Cleaned(w, p);
    HarmlessKeepsDir(w, p);
    HarmlessKeepsStarts(w, p);
    forall q | q in w'.procs ensures ProcOk(w', q) && !InRun(w'.procs[q].pc) {
      HarmlessKeepsProc(w, p, q);
    }
  }

  lemma WhatKeepsIsHarmless(w: World, p: Pid)
    requires InvBut(w, p) && Inv(Cleaned(w, p))
    ensures Harmless(w, p)
  {
    var w' := Cleaned(w, p);
    forall q | q in w.procs && q != p ensures !Relies(w.procs[q].pc) {
      assert ProcOk(w', q) && w'.procs[q] == w.procs[q];
    }
    forall q | q in w.starts ensures Dead(w, q) {
      var i :| 0 <= i < |w.starts| && w.starts[i] == q;
      assert StartOk(w', q);
    }
  }

  /** The clean-up of a claim that raised keeps the registry's invariant exactly when it is harmless. */
  lemma ACleanUpKeepsTheRegistryExactlyWhenHarmless(w: World, p: Pid)
    requires InvBut(w, p)
    ensures CanDo(w, p, Go) && (Inv(Step(w, p, Go)) <==> Harmless(w, p))
  {
    assert Step(w, p, Go) == Cleaned(w, p);
    if Harmless(w, p) { HarmlessIsSound(w, p); }
    if Inv(Cleaned(w, p)) { WhatKeepsIsHarmless(w, p); }
  }

  // ---------- over a run ----------

  /** A run whose one move out of the ordinary is `p`'s exception, its `k`th. */
  ghost predicate RunWithARaise(ws: seq<World>, ms: seq<Move>, p: Pid, k: nat)
  {
    && k < |ms| && |ws| == |ms| + 1 && Sound(ws[0])
    && ms[k] == Acts(p, Raise) && Possible(ws[k], ms[k])
    && (forall i {:trigger ms[i]} | 0 <= i < |ms| :: Possible(ws[i], ms[i]) && ws[i + 1] == After(ws[i], ms[i]))
    && (forall i {:trigger ms[i]} | 0 <= i < |ms| && i != k :: Ordinary(ws[i], ms[i]))
  }

  lemma {:induction false} InvBeforeTheRaise(ws: seq<World>, ms: seq<Move>, p: Pid, k: nat, i: nat)
    requires RunWithARaise(ws, ms, p, k) && i <= k
    ensures Inv(ws[i])
    decreases i
  {
    if i > 0 {
      InvBeforeTheRaise(ws, ms, p, k, i - 1);
      MoveInv(ws[i - 1], ms[i - 1]);
    }
  }

  lemma {:induction false} InvButAfterTheRaise(ws: seq<World>, ms: seq<Move>, p: Pid, k: nat, i: nat)
    requires RunWithARaise(ws, ms, p, k) && k < i < |ws|
    requires forall j {:trigger ms[j]} | k < j < i :: ms[j].Acts? ==> ms[j].p != p
    ensures InvBut(ws[i], p)
    decreases i
  {
    var m := ms[i - 1];
    if i == k + 1 {
      InvBeforeTheRaise(ws, ms, p, k, k);
      RaisingIsLikeCrashing(ws[k], p);
    } else {
      InvButAfterTheRaise(ws, ms, p, k, i - 1);
      OthersMoveBeside(ws[i - 1], p, m);
    }
  }

  /** After a harmless clean-up the rest of such a run is a run, so that all the laws of runs hold of it. */
  lemma TheRestOfTheRunIsARun(ws: seq<World>, ms: seq<Move>, p: Pid, k: nat, i: nat)
    requires RunWithARaise(ws, ms, p, k) && k < i < |ms| && ms[i] == Acts(p, Go)
    requires forall j {:trigger ms[j]} | k < j < i :: ms[j].Acts? ==> ms[j].p != p
    requires Harmless(ws[i], p)
    ensures Run(ws[i + 1..], ms[i + 1..])
  {
    InvButAfterTheRaise(ws, ms, p, k, i);
    var m := ms[i];
    assert ws[i + 1] == Cleaned(ws[i], p);
    HarmlessIsSound(ws[i], p);
    var rest, moves := ws[i + 1..], ms[i + 1..];
    forall j {:trigger moves[j]} | 0 <= j < |moves| ensures Ordinary(rest[j], moves[j]) && rest[j + 1] == After(rest[j], moves[j]) {
      assert moves[j] == ms[i + 1 + j];
    }
  }
}
