/** What a clean-up can break: from every one that is not harmless, two later invocations suffice to break a
    law of the registry by ordinary moves alone. */
module JobHarm {
  import opened Wrappers
  import opened JobRegistry
  import opened JobLaws
  import opened JobTraces
  import opened JobCleanUp

  // ---------- the laws, in one world ----------

  ghost predicate OneOwner(w: World)
  {
    forall p, q | p in w.procs && q in w.procs && p != q :: !(Holds(w.procs[p].pc) && Holds(w.procs[q].pc))
  }

  /** Every run but the last was begun by a process that died before it recorded an end. */
  ghost predicate RepeatedOnlyAfterDeath(w: World)
  {
    forall k | 0 <= k < |w.starts| - 1 :: Dead(w, w.starts[k])
  }

  ghost predicate OneAnswer(w: World)
  {
    forall k, l | 0 <= k < |w.answers| && 0 <= l < |w.answers| :: w.answers[k] == w.answers[l]
  }

  ghost predicate Lawful(w: World)
  {
    OneOwner(w) && RepeatedOnlyAfterDeath(w) && OneAnswer(w)
  }

  /** Whatever ordinary moves follow, the laws hold. */
  ghost predicate Safe(w: World)
  {
    forall v | Reached(v, Origin(w, true)) :: Lawful(v)
  }

  lemma SoundIsSafe(w: World)
    requires Sound(w)
    ensures Safe(w)
  {
    forall v | Reached(v, Origin(w, true)) ensures Lawful(v) {
      var ws, ms :| AnyRun(ws, ms, Origin(w, true)) && ws[|ms|] == v;
      assert Run(ws, ms);
      SoundRunIsLawful(ws, ms);
    }
  }

  lemma SoundRunIsLawful(ws: seq<World>, ms: seq<Move>)
    requires Run(ws, ms)
    ensures Lawful(ws[|ms|])
  {
    var n := |ms|;
    forall p, q | p in ws[n].procs && q in ws[n].procs && p != q ensures !(Holds(ws[n].procs[p].pc) && Holds(ws[n].procs[q].pc)) {
      AtMostOneOwnerRuns(ws, ms, n, p, q);
    }
    forall k | 0 <= k < |ws[n].starts| - 1 ensures Dead(ws[n], ws[n].starts[k]) {
      ARunIsRepeatedOnlyAfterAnUnrecordedDeath(ws, ms, n, k);
    }
    forall k, l | 0 <= k < |ws[n].answers| && 0 <= l < |ws[n].answers| ensures ws[n].answers[k] == ws[n].answers[l] {
      ReplaysAgree(ws, ms, n, n, k, l);
    }
  }

  // ---------- what a later invocation can do ----------

  predicate Arrives(w: World, r: Pid)
  {
    r in w.procs && w.procs[r].pc.Start? && !w.procs[r].hasRunner
  }

  lemma Mkdirs(w: World, o: Origin, r: Pid) returns (w': World)
    requires Reached(w, o) && Arrives(w, r) && w.dir.Absent?
    ensures Reached(w', o)
    ensures w' == At(w, Present(w.nextGen, r, None, None, None, false), w.locks, r, w.procs[r].(pc := ClaimLock, gen := w.nextGen))
                    .(nextGen := w.nextGen + 1)
  {
    w' := Goes(w, o, r);
  }

  lemma LocksAfresh(w: World, o: Origin, r: Pid) returns (w': World)
    requires Reached(w, o) && Arrives(w, r) && w.dir.Absent? && w.nextGen !in w.locks
    ensures Reached(w', o)
    ensures w' == At(w, Present(w.nextGen, r, None, None, None, false), w.locks[w.nextGen := r],
                     r, w.procs[r].(pc := ClaimDigest, gen := w.nextGen)).(nextGen := w.nextGen + 1)
  {
    var w1 := Mkdirs(w, o, r);
    w' := Goes(w1, o, r);
  }

  /** Beside a process that holds a lock of the directory that is gone, a fresh claim is a second owner. */
  lemma TwoOwners(w: World, o: Origin, q: Pid, r: Pid) returns (w': World)
    requires Reached(w, o) && Arrives(w, r) && w.dir.Absent? && w.nextGen !in w.locks && q in w.procs && Holds(w.procs[q].pc)
    ensures Reached(w', o) && !Lawful(w')
  {
    w' := LocksAfresh(w, o, r);
    assert Holds(w'.procs[q].pc) && Holds(w'.procs[r].pc);
  }

  /** A contender that had opened the old lock file takes that lock. */
  lemma LocksTheOld(w: World, o: Origin, q: Pid) returns (w': World)
    requires Reached(w, o) && q in w.procs && (w.procs[q].pc.Poll? || w.procs[q].pc.TryLock?) && w.dir.Absent? && w.locks == map[]
    ensures Reached(w', o) && w' == At(w, w.dir, map[w.procs[q].gen := q], q, w.procs[q].(pc := Locked))
  {
    var w1 := w;
    if w.procs[q].pc.Poll? { w1 := Goes(w, o, q); }
    w' := Goes(w1, o, q);
  }

  lemma AContenderBecomesASecondOwner(w: World, o: Origin, q: Pid, r: Pid) returns (w': World)
    requires Reached(w, o) && Arrives(w, r) && w.dir.Absent? && w.locks == map[]
    requires q in w.procs && (w.procs[q].pc.Poll? || w.procs[q].pc.TryLock?) && w.procs[q].gen < w.nextGen
    ensures Reached(w', o) && !Lawful(w')
  {
    var w1 := LocksTheOld(w, o, q);
    w' := TwoOwners(w1, o, q, r);
  }

  /** A contender about to open the lock file locks the next claim's directory before its claimant does;
      that claimant aborts, and the claim after it is a second owner. */
  lemma AnOpenerBecomesASecondOwner(w: World, o: Origin, q: Pid, r: Pid, s: Pid) returns (w': World)
    requires Reached(w, o) && Arrives(w, r) && Arrives(w, s) && r != s && w.dir.Absent? && w.locks == map[]
    requires q in w.procs && w.procs[q].pc.OpenLock?
    ensures Reached(w', o) && !Lawful(w')
  {
    var w1 := Mkdirs(w, o, r);
    var w2 := OpensAndLocks(w1, o, q);
    var w3 := Goes(w2, o, r);
    assert w3 == To(w2, r, Aborting);
    var w4 := Goes(w3, o, r);
    assert w4 == At(w2, Absent, w2.locks, r, w2.procs[r].(pc := Done(None)));
    w' := TwoOwners(w4, o, q, s);
  }

  lemma OpensAndLocks(w: World, o: Origin, q: Pid) returns (w': World)
    requires Reached(w, o) && q in w.procs && w.procs[q].pc.OpenLock? && w.dir.Present? && !w.dir.settled && w.locks == map[]
    ensures Reached(w', o) && w' == At(w, w.dir, map[w.dir.gen := q], q, w.procs[q].(pc := Locked, gen := w.dir.gen))
  {
    var w1 := Goes(w, o, q);
    assert w1 == At(w, w.dir, map[], q, w.procs[q].(pc := Poll, gen := w.dir.gen));
    w' := TakesLock(w1, o, q);
  }

  /** The runner's own lock is free, or another job's process lets it go. */
  lemma RunnerIsFreed(w: World, o: Origin) returns (w': World)
    requires Reached(w, o) && !w.runner.Held?
    ensures Reached(w', o) && w' == w.(runner := Free)
  {
    w' := w;
    if w.runner == Elsewhere { w' := RunnerGoes(w, o, Free); }
  }

  /** A fresh claim runs. */
  lemma RunsAfresh(w: World, o: Origin, r: Pid) returns (w': World)
    requires Reached(w, o) && Arrives(w, r) && w.dir.Absent? && w.locks == map[] && !w.runner.Held?
    ensures Reached(w', o)
    ensures var x := w.procs[r];
      w' == At(w, Present(w.nextGen, r, Some(x.digest), Some(RunningState), None, false), map[w.nextGen := r],
               r, x.(pc := Running, gen := w.nextGen, hasRunner := true))
              .(nextGen := w.nextGen + 1, runner := Held(r), starts := w.starts + [r])
  {
    var w1 := RunnerIsFreed(w, o);
    var w2 := Claims(w1, o, r);
    w' := BeginsRun(w2, o, r);
  }

  /** Behind a run that did not die unrecorded, it repeats that run. */
  lemma ARunIsRepeated(w: World, o: Origin, q: Pid, r: Pid) returns (w': World)
    requires Reached(w, o) && Arrives(w, r) && w.dir.Absent? && w.locks == map[] && !w.runner.Held?
    requires q in w.starts && !Dead(w, q)
    ensures Reached(w', o) && !Lawful(w')
  {
    w' := RunsAfresh(w, o, r);
    var k :| 0 <= k < |w.starts| && w.starts[k] == q;
    assert w'.starts[k] == q && !Dead(w', q);
  }

  /** The run fails or is cancelled, and its owner settles the job. */
  lemma EndsAndSettles(w: World, o: Origin, r: Pid, cancelled: bool) returns (w': World)
    requires Reached(w, o) && r in w.procs && w.procs[r].pc.Running? && w.dir.Present? && w.procs[r].hasRunner
    ensures Reached(w', o)
    ensures w' == At(w, w.dir.(state := Some(if cancelled then CancelledState else FailedState), settled := true), w.locks,
                     r, w.procs[r].(pc := DropLock(None), hasRunner := false))
                    .(runner := Free, recorded := w.recorded + {r})
  {
    var w1 := RecordsItsEnd(w, o, r, cancelled);
    var w2 := Goes(w1, o, r);
    w' := Goes(w2, o, r);
  }

  lemma RecordsItsEnd(w: World, o: Origin, r: Pid, cancelled: bool) returns (w': World)
    requires Reached(w, o) && r in w.procs && w.procs[r].pc.Running? && w.dir.Present?
    ensures Reached(w', o)
    ensures w' == At(w, w.dir.(state := Some(if cancelled then CancelledState else FailedState)), w.locks,
                     r, w.procs[r].(pc := DropRunner)).(recorded := w.recorded + {r})
  {
    var w1 := Does(w, o, r, if cancelled then IsCancelled else Fails);
    assert w1 == To(w, r, MarkEnd(if cancelled then CancelledState else FailedState));
    w' := Goes(w1, o, r);
  }

  /** A later invocation is told how it ended. */
  lemma IsTold(w: World, o: Origin, s: Pid) returns (w': World)
    requires Reached(w, o) && Arrives(w, s) && w.dir.Present? && w.dir.digest == Some(w.procs[s].digest)
    requires w.dir.settled && w.dir.result.None?
    ensures Reached(w', o) && w'.answers == w.answers + [Replayed(None, w.dir.state == Some(CancelledState))]
  {
    var w1 := Comes(w, o, s);
    var w2 := Goes(w1, o, s);
    assert w2 == At(w, w.dir, w.locks, s, w.procs[s].(pc := ReadResult, gen := w.dir.gen));
    w' := ReadsNoResult(w2, o, s);
  }

  lemma ReadsNoResult(w: World, o: Origin, s: Pid) returns (w': World)
    requires Reached(w, o) && s in w.procs && (w.procs[s].pc.ReadResult? || w.procs[s].pc.ReadState?)
    requires w.dir.Present? ==> w.dir.result.None?
    ensures Reached(w', o)
    ensures var a := Replayed(None, w.dir.Present? && w.dir.state == Some(CancelledState));
      w' == To(w, s, Done(Some(a))).(answers := w.answers + [a])
  {
    var w1 := w;
    if w.procs[s].pc.ReadResult? { w1 := Goes(w, o, s); }
    assert w1 == To(w, s, ReadState);
    w' := Goes(w1, o, s);
  }

  /** Behind an answer already given, a fresh run ends otherwise and the next invocation is told so. */
  lemma AnswersDisagree(w: World, o: Origin, r: Pid, s: Pid) returns (w': World)
    requires Reached(w, o) && Arrives(w, r) && Arrives(w, s) && r != s && w.procs[r].digest == w.procs[s].digest
    requires w.dir.Absent? && w.locks == map[] && !w.runner.Held? && w.answers != []
    ensures Reached(w', o) && !Lawful(w')
  {
    var cancelled := w.answers[0] != Replayed(None, true);
    var w1 := RunsAfresh(w, o, r);
    var w2 := EndsAndSettles(w1, o, r, cancelled);
    w' := IsTold(w2, o, s);
    assert w'.answers[0] == w.answers[0] && w'.answers[|w.answers|] == Replayed(None, cancelled);
  }

  /** A reader of the settled directory that is gone is told of no result, and so it goes on. */
  lemma AReaderIsToldAmiss(w: World, o: Origin, q: Pid, r: Pid, s: Pid) returns (w': World)
    requires Reached(w, o) && Arrives(w, r) && Arrives(w, s) && r != s && w.procs[r].digest == w.procs[s].digest
    requires w.dir.Absent? && w.locks == map[] && !w.runner.Held?
    requires q in w.procs && (w.procs[q].pc.ReadResult? || w.procs[q].pc.ReadState?)
    ensures Reached(w', o) && !Lawful(w')
  {
    var w1 := ReadsNoResult(w, o, q);
    w' := AnswersDisagree(w1, o, r, s);
  }

  // ---------- exactly the harmless are safe ----------

  lemma LocksAreHeld(w: World, p: Pid)
    requires InvBut(w, p)
    ensures w.nextGen !in w.locks
    ensures forall g | g in w.locks :: w.locks[g] in w.procs && w.locks[g] != p && Holds(w.procs[w.locks[g]].pc)
    ensures w.runner.Held? ==> w.runner.p in w.procs && w.runner.p != p && Holds(w.procs[w.runner.p].pc)
  {
    var beside := To(w, p, Crashed);
    forall g | g in w.locks ensures w.locks[g] in w.procs && w.locks[g] != p && Holds(w.procs[w.locks[g]].pc) && g < w.nextGen {
      assert ProcOk(beside, beside.locks[g]);
    }
    if w.runner.Held? { assert ProcOk(beside, w.runner.p); }
  }

  lemma RelierIsOlder(w: World, p: Pid, q: Pid)
    requires InvBut(w, p) && q in w.procs && q != p && UsesDirectory(w.procs[q].pc)
    ensures w.procs[q].gen < w.nextGen
  {
    assert ProcOk(To(w, p, Crashed), q);
  }

  /** Any process that relies on the directory lets a law be broken. */
  lemma ARelierBreaksALaw(w: World, p: Pid, q: Pid, r: Pid, s: Pid) returns (w': World)
    requires InvBut(w, p) && q in w.procs && q != p && Relies(w.procs[q].pc)
    requires Arrives(w, r) && Arrives(w, s) && r != s && w.procs[r].digest == w.procs[s].digest
    ensures Reached(w', Origin(Cleaned(w, p), true)) && !Lawful(w')
  {
    var v, o := Cleaned(w, p), Origin(Cleaned(w, p), true);
    Starts(o);
    LocksAreHeld(w, p);
    assert v.procs[q] == w.procs[q] && v.procs[r] == w.procs[r] && v.procs[s] == w.procs[s];
    if exists x :: x in w.procs && x != p && Holds(w.procs[x].pc) {
      var x :| x in w.procs && x != p && Holds(w.procs[x].pc);
      assert v.procs[x] == w.procs[x];
      w' := TwoOwners(v, o, x, r);
    } else {
      assert v.locks == map[] by { assert forall g :: g !in w.locks; }
      w' := ALockFreeRelierBreaksALaw(v, o, w, p, q, r, s);
    }
  }

  lemma ALockFreeRelierBreaksALaw(v: World, o: Origin, w: World, p: Pid, q: Pid, r: Pid, s: Pid) returns (w': World)
    requires InvBut(w, p) && q in w.procs && q != p && Relies(w.procs[q].pc) && !Holds(w.procs[q].pc)
    requires v == Cleaned(w, p) && Reached(v, o) && v.locks == map[] && !v.runner.Held? && v.procs[q] == w.procs[q]
    requires Arrives(v, r) && Arrives(v, s) && r != s && v.procs[r].digest == v.procs[s].digest
    ensures Reached(w', o) && !Lawful(w')
  {
    var pc := w.procs[q].pc;
    if pc.OpenLock? {
      w' := AnOpenerBecomesASecondOwner(v, o, q, r, s);
    } else {
      RelierIsOlder(w, p, q);
      if pc.Poll? || pc.TryLock? {
        w' := AContenderBecomesASecondOwner(v, o, q, r);
      } else if pc.ReadResult? || pc.ReadState? {
        w' := AReaderIsToldAmiss(v, o, q, r, s);
      } else if pc.ClaimLock? {
        w' := AClaimantGoesOn(v, o, q, r);
      } else {
        w' := ASecondCleanUpComesLate(v, o, q, r, s);
      }
    }
  }

  lemma AClaimantGoesOn(w: World, o: Origin, q: Pid, r: Pid) returns (w': World)
    requires Reached(w, o) && Arrives(w, r) && w.dir.Absent? && w.locks == map[]
    requires q in w.procs && w.procs[q].pc.ClaimLock? && w.procs[q].gen < w.nextGen
    ensures Reached(w', o) && !Lawful(w')
  {
    var w1 := Goes(w, o, q);
    assert w1 == At(w, w.dir, map[w.procs[q].gen := q], q, w.procs[q].(pc := ClaimDigest));
    w' := TwoOwners(w1, o, q, r);
  }

  lemma ASecondCleanUpComesLate(w: World, o: Origin, q: Pid, r: Pid, s: Pid) returns (w': World)
    requires Reached(w, o) && Arrives(w, r) && Arrives(w, s) && r != s && w.dir.Absent? && w.locks == map[]
    requires q in w.procs && w.procs[q].pc.Aborting?
    ensures Reached(w', o) && !Lawful(w')
  {
    var w1 := LocksAfresh(w, o, r);
    var w2 := Goes(w1, o, q);
    assert w2 == At(w1, Absent, w1.locks, q, w.procs[q].(pc := Done(None)));
    w' := TwoOwners(w2, o, r, s);
  }

  lemma WhatIsHarmfulBreaksALaw(w: World, p: Pid, r: Pid, s: Pid) returns (w': World)
    requires InvBut(w, p) && !Harmless(w, p)
    requires Arrives(w, r) && Arrives(w, s) && r != s && w.procs[r].digest == w.procs[s].digest
    ensures Reached(w', Origin(Cleaned(w, p), true)) && !Lawful(w')
  {
    if exists q :: q in w.procs && q != p && Relies(w.procs[q].pc) {
      var q :| q in w.procs && q != p && Relies(w.procs[q].pc);
      w' := ARelierBreaksALaw(w, p, q, r, s);
    } else {
      w' := WhatIsLeftBreaksALaw(w, p, r, s);
    }
  }

  lemma WhatIsLeftBreaksALaw(w: World, p: Pid, r: Pid, s: Pid) returns (w': World)
    requires InvBut(w, p) && !Harmless(w, p) && forall q | q in w.procs && q != p :: !Relies(w.procs[q].pc)
    requires Arrives(w, r) && Arrives(w, s) && r != s && w.procs[r].digest == w.procs[s].digest
    ensures Reached(w', Origin(Cleaned(w, p), true)) && !Lawful(w')
  {
    var v, o := Cleaned(w, p), Origin(Cleaned(w, p), true);
    Starts(o);
    LocksAreHeld(w, p);
    assert v.locks == map[] by { assert forall g :: g !in w.locks; }
    assert v.procs[r] == w.procs[r] && v.procs[s] == w.procs[s];
    if w.answers != [] {
      w' := AnswersDisagree(v, o, r, s);
    } else {
      var q :| q in w.starts && !Dead(w, q);
      w' := ARunIsRepeated(v, o, q, r);
    }
  }

  /** With two invocations of one request still to come, the clean-up of a claim that raised is safe -- no
      ordinary moves lead from it to two owners, to a run repeated after one that did not die unrecorded, or
      to answers that disagree -- exactly when no other live process relies on the directory it removes,
      every run begun there died unrecorded, and nobody was answered from it. */
  lemma ACleanUpIsSafeExactlyWhenHarmless(w: World, p: Pid, r: Pid, s: Pid)
    requires InvBut(w, p)
    requires Arrives(w, r) && Arrives(w, s) && r != s && w.procs[r].digest == w.procs[s].digest
    ensures CanDo(w, p, Go) && (Safe(Step(w, p, Go)) <==> Harmless(w, p))
  {
    assert Step(w, p, Go) == Cleaned(w, p);
    if Harmless(w, p) {
      HarmlessIsSound(w, p);
      SoundIsSafe(Cleaned(w, p));
    } else {
      var w' := WhatIsHarmfulBreaksALaw(w, p, r, s);
    }
  }

  /** The same in every run in which one claim raises after publishing its identity, whatever the others do
      before it cleans up. */
  lemma ARaisedClaimCleansUpSafelyExactlyWhenAlone(ws: seq<World>, ms: seq<Move>, p: Pid, k: nat, i: nat, r: Pid, s: Pid)
    requires RunWithARaise(ws, ms, p, k) && k < i < |ms| && ms[i] == Acts(p, Go)
    requires forall j {:trigger ms[j]} | k < j < i :: ms[j].Acts? ==> ms[j].p != p
    requires Arrives(ws[i], r) && Arrives(ws[i], s) && r != s && ws[i].procs[r].digest == ws[i].procs[s].digest
    ensures Safe(ws[i + 1]) <==> Harmless(ws[i], p)
  {
    InvButAfterTheRaise(ws, ms, p, k, i);
    var m := ms[i];
    ACleanUpIsSafeExactlyWhenHarmless(ws[i], p, r, s);
  }
}
