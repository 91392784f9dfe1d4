/** The files of one job's directory, and the code that reads and writes them in turn. Each method is tied
    to the steps of the registry's machine that it takes when no other process interferes. */
module JobFiles {
  import opened Wrappers
  import opened JobRegistry

  datatype Disposition = Conflict | Replay(answer: Answer) | Takeover

  datatype Outcome = Result(value: Encoded) | Cancelled | Failed

  /** The machine's step under the lock, with the write that a recovery or a takeover then makes. */
  ghost function Consulted(w: World, p: Pid): World
    requires p in w.procs
  {
    var r := Reread(w, p);
    if r.procs[p].pc.Settling? || r.procs[p].pc.Reclaim? then Forward(r, p) else r
  }

  ghost predicate Told(pc: Pc, t: Disposition)
  {
    match t
    case Conflict => pc == Done(None)
    case Replay(a) => pc == Done(Some(a)) || pc == DropLock(Some(a))
    case Takeover => pc == OwnerReady
  }

  predicate CanEnd(w: World, p: Pid)
  {
    p in w.procs && w.procs[p].pc.Running? && w.procs[p].hasRunner
  }

  /** The machine from the end of the run to the settled directory. */
  ghost function Finished(w: World, p: Pid, o: Outcome): World
    requires CanEnd(w, p)
  {
    match o
    case Result(r) => Settled(Forward(Forward(Step(w, p, Returns(r)), p), p), p)
    case Cancelled => Settled(Forward(Step(w, p, IsCancelled), p), p)
    case Failed => Settled(Forward(Step(w, p, Fails), p), p)
  }

  ghost function Settled(w: World, p: Pid): World
    requires p in w.procs
  {
    Forward(Forward(w, p), p)
  }

  lemma SettledDir(w: World, p: Pid)
    requires p in w.procs && w.procs[p].pc.DropRunner? && w.dir.Present?
    ensures Settled(w, p).dir == w.dir.(settled := true)
  {
  }

  lemma ResultDir(w: World, p: Pid, r: Encoded)
    requires CanEnd(w, p) && w.dir.Present?
    ensures Finished(w, p, Result(r)).dir == w.dir.(result := Some(r), state := Some(Completed), settled := true)
  {
    SettledDir(Forward(Forward(Step(w, p, Returns(r)), p), p), p);
  }

  lemma CancelledDir(w: World, p: Pid)
    requires CanEnd(w, p) && w.dir.Present?
    ensures Finished(w, p, Cancelled).dir == w.dir.(state := Some(CancelledState), settled := true)
  {
    SettledDir(Forward(Step(w, p, IsCancelled), p), p);
  }

  lemma FailedDir(w: World, p: Pid)
    requires CanEnd(w, p) && w.dir.Present?
    ensures Finished(w, p, Failed).dir == w.dir.(state := Some(FailedState), settled := true)
  {
    SettledDir(Forward(Step(w, p, Fails), p), p);
  }

  class Job {
    const gen: nat
    const creator: Pid
    var digest: Option<Digest>
    var state: Option<JobState>
    var result: Option<Encoded>
    var settled: bool

    constructor (gen: nat, creator: Pid)
      ensures View() == Present(gen, creator, None, None, None, false)
    {
      this.gen, this.creator := gen, creator;
      digest, state, result, settled := None, None, None, false;
    }

    ghost function View(): Directory
      reads this
    {
      Present(gen, creator, digest, state, result, settled)
    }

    method SettledTerminal() returns (r: Option<Answer>)
      ensures r == if settled then Some(AnswerOf(View())) else None
    {
      if !settled { return None; }
      if result.Some? { return Some(Replayed(result, false)); }
      r := Some(Replayed(None, state == Some(CancelledState)));
    }

    method RecoverUnsettledTerminal() returns (r: Option<Answer>)
      ensures r == Recovered(View())
    {
      if state == Some(Completed) && result.Some? { return Some(Replayed(result, false)); }
      if state == Some(CancelledState) { return Some(Replayed(None, true)); }
      if state == Some(FailedState) { return Some(Replayed(None, false)); }
      r := None;
    }

    /** A contender that has just taken the lock. */
    method Consult(mine: Digest, ghost w: World, ghost p: Pid) returns (t: Disposition)
      requires w.dir == View() && p in w.procs && w.procs[p].digest == mine
      modifies this`state, this`settled
      ensures View() == Consulted(w, p).dir && Told(Consulted(w, p).procs[p].pc, t)
    {
      var terminal := SettledTerminal();
      if terminal.Some? { return Replay(terminal.value); }
      if digest != Some(mine) { return Conflict; }
      var recovered := RecoverUnsettledTerminal();
      if recovered.Some? {
        settled := true;
        return Replay(recovered.value);
      }
      state := Some(Claimed);
      t := Takeover;
    }

    /** The owner's writes after its run: a result before its state, and settled last. */
    method Finish(o: Outcome, ghost w: World, ghost p: Pid)
      requires w.dir == View() && CanEnd(w, p)
      modifies this`state, this`result, this`settled
      ensures View() == Finished(w, p, o).dir
    {
      match o {
        case Result(r) =>
          ResultDir(w, p, r);
          result := Some(r);
          state := Some(Completed);
        case Cancelled =>
          CancelledDir(w, p);
          state := Some(CancelledState);
        case Failed =>
          FailedDir(w, p);
          state := Some(FailedState);
      }
      settled := true;
    }
  }
}
