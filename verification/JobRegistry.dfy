/** One job's registry directory and the processes that claim it, rejoin it or take it over. One step is
    one file operation, one lock operation, or a crash; files are replaced atomically. */
module JobRegistry {
  import opened Wrappers

  type Pid = nat
  type Digest = nat
  type Encoded = nat

  datatype JobState = Claimed | RunningState | Completed | FailedState | CancelledState

  /** The job's directory. `gen` tells one `mkdir` of it, with its own lock file, from the next. */
  datatype Directory =
    | Absent
    | Present(gen: nat, creator: Pid, digest: Option<Digest>, state: Option<JobState>, result: Option<Encoded>, settled: bool)

  /** What a rejoining invocation replays: a result, or none and whether the job was cancelled. */
  datatype Answer = Replayed(result: Option<Encoded>, wasCancelled: bool)

  datatype Pc =
    | Start                       // before mkdir
    | AwaitDigest                 // lost the mkdir; waits for the winner's identity
    | ClaimLock                   // won the mkdir; takes the fresh lock
    | ClaimDigest                 // publishes its identity
    | ClaimState                  // writes state=claimed
    | Aborting                    // an exception in the claim: lock released, rmtree to come
    | OpenLock                    // a contender opens the lock file
    | Poll                        // reads settled, lock not held
    | ReadResult                  // settled was seen
    | ReadState
    | TryLock
    | Locked                      // holds the lock; reads again
    | Settling(answer: Answer)    // recovered a dead owner's outcome; writes settled
    | Reclaim                     // takes over; writes state=claimed
    | OwnerReady                  // owns the job; tries the runner's own lock
    | OwnerRuns                   // has it; writes state=running
    | Running                     // the run itself
    | KeepResult(result: Encoded) // the run returned; writes its result
    | MarkCompleted
    | MarkEnd(state: JobState)    // failed or cancelled; writes it
    | DropRunner                  // finally: releases the runner's lock if held
    | MarkSettled
    | DropLock(told: Option<Answer>)
    | Done(told: Option<Answer>)
    | Crashed

  datatype Proc = Proc(pc: Pc, digest: Digest, gen: nat, hasRunner: bool)

  datatype Runner = Free | Held(p: Pid) | Elsewhere

  /** The shared state, and history variables: who entered the run section, which processes recorded a
      terminal state, what finished runs returned, and the answers given once the job had settled. */
  datatype World = World(
    dir: Directory, nextGen: nat, locks: map<nat, Pid>, runner: Runner, procs: map<Pid, Proc>,
    starts: seq<Pid>, recorded: set<Pid>, finished: set<Encoded>, answers: seq<Answer>)

  datatype Action =
    | Go
    | Crash
    | Raise                       // an exception inside the claim
    | GiveUp                      // a deadline passed
    | Refuse                      // the runtime check failed
    | Returns(result: Encoded)    // the run's outcome
    | Fails
    | IsCancelled
    | Interrupt                   // an exception that no handler of main catches

  predicate InClaim(pc: Pc)
  {
    pc.ClaimLock? || pc.ClaimDigest? || pc.ClaimState?
  }

  predicate Ended(pc: Pc)
  {
    pc.Done? || pc.Crashed?
  }

  /** Where a live process holds the job's lock. */
  predicate Holds(pc: Pc)
  {
    || pc.ClaimDigest? || pc.ClaimState? || pc.Locked? || pc.Settling? || pc.Reclaim? || pc.OwnerReady? || pc.OwnerRuns?
    || pc.Running? || pc.KeepResult? || pc.MarkCompleted? || pc.MarkEnd? || pc.DropRunner? || pc.MarkSettled? || pc.DropLock?
  }

  /** The run section, from the runner's lock to its release. */
  predicate InRunSection(x: Proc)
  {
    x.hasRunner
  }

  predicate CanDo(w: World, p: Pid, a: Action)
  {
    p in w.procs &&
    var pc := w.procs[p].pc;
    match a
    case Go => !Ended(pc) && !pc.Running?
    case Crash => !Ended(pc)
    case Raise => InClaim(pc)
    case GiveUp => pc.AwaitDigest? || pc.Poll?
    case Refuse => pc.OwnerRuns?
    case Returns(_) => pc.Running?
    case Fails => pc.Running?
    case IsCancelled => pc.Running?
    case Interrupt => pc.OwnerReady? || pc.OwnerRuns? || pc.Running?
  }

  function Put(w: World, p: Pid, x: Proc): World
  {
    w.(procs := w.procs[p := x])
  }

  function To(w: World, p: Pid, pc: Pc): World
    requires p in w.procs
  {
    Put(w, p, w.procs[p].(pc := pc))
  }

  function Unlocked(locks: map<nat, Pid>, p: Pid): map<nat, Pid>
  {
    map g | g in locks && locks[g] != p :: locks[g]
  }

  /** `_settled_terminal`'s reading of a settled directory. */
  function AnswerOf(d: Directory): Answer
    requires d.Present?
  {
    if d.result.Some? then Replayed(d.result, false) else Replayed(None, d.state == Some(CancelledState))
  }

  /** `_recover_unsettled_terminal`. */
  function Recovered(d: Directory): Option<Answer>
    requires d.Present?
  {
    if d.state == Some(Completed) && d.result.Some? then Some(Replayed(d.result, false))
    else if d.state == Some(CancelledState) then Some(Replayed(None, true))
    else if d.state == Some(FailedState) then Some(Replayed(None, false))
    else None
  }

  predicate Terminal(s: Option<JobState>)
  {
    s == Some(Completed) || s == Some(CancelledState) || s == Some(FailedState)
  }

  function Tell(w: World, p: Pid, a: Answer): World
    requires p in w.procs
  {
    To(w, p, Done(Some(a))).(answers := w.answers + [a])
  }

  function WriteState(d: Directory, s: JobState): Directory
  {
    if d.Present? then d.(state := Some(s)) else d
  }

  /** A process under the lock reads the registry again and decides. */
  function Reread(w: World, p: Pid): (r: World)
    requires p in w.procs
    ensures p in r.procs && r.procs == w.procs[p := r.procs[p]]
  {
    var x, d := w.procs[p], w.dir;
    var released := w.(locks := Unlocked(w.locks, p));
    if d.Absent? then To(released, p, Done(None))
    else if d.settled then Tell(released, p, AnswerOf(d))
    else if d.digest != Some(x.digest) then To(released, p, Done(None))
    else if Recovered(d).Some? then To(w, p, Settling(Recovered(d).value))
    else To(w, p, Reclaim)
  }

  function Forward(w: World, p: Pid): (r: World)
    requires p in w.procs
    ensures p in r.procs && r.procs == w.procs[p := r.procs[p]]
  {
    var x, d := w.procs[p], w.dir;
    match x.pc
    case Start =>
      if d.Absent? then
        Put(w, p, x.(pc := ClaimLock, gen := w.nextGen)).(dir := Present(w.nextGen, p, None, None, None, false), nextGen := w.nextGen + 1)
      else To(w, p, AwaitDigest)
    case AwaitDigest =>
      if d.Absent? || d.digest.None? then w
      else if d.digest == Some(x.digest) then To(w, p, OpenLock)
      else To(w, p, Done(None))
    case ClaimLock =>
      if x.gen in w.locks then To(w, p, Aborting)
      else To(w, p, ClaimDigest).(locks := w.locks[x.gen := p])
    case ClaimDigest => To(w, p, ClaimState).(dir := if d.Present? then d.(digest := Some(x.digest)) else d)
    case ClaimState => To(w, p, OwnerReady).(dir := WriteState(d, Claimed))
    case Aborting => To(w, p, Done(None)).(dir := Absent)
    case OpenLock => if d.Absent? then To(w, p, Done(None)) else Put(w, p, x.(pc := Poll, gen := d.gen))
    case Poll => To(w, p, if d.Present? && d.settled then ReadResult else TryLock)
    case ReadResult =>
      if d.Present? && d.result.Some? then Tell(w, p, Replayed(d.result, false)) else To(w, p, ReadState)
    case ReadState => Tell(w, p, Replayed(None, d.Present? && d.state == Some(CancelledState)))
    case TryLock =>
      if x.gen in w.locks then To(w, p, Poll)
      else To(w, p, Locked).(locks := w.locks[x.gen := p])
    case Locked => Reread(w, p)
    case Settling(a) => To(w, p, DropLock(Some(a))).(dir := if d.Present? then d.(settled := true) else d)
    case Reclaim => To(w, p, OwnerReady).(dir := WriteState(d, Claimed))
    case OwnerReady =>
      if w.runner == Free then Put(w, p, x.(pc := OwnerRuns, hasRunner := true)).(runner := Held(p))
      else To(w, p, MarkEnd(FailedState))
    case OwnerRuns => To(w, p, Running).(dir := WriteState(d, RunningState), starts := w.starts + [p])
    case KeepResult(r) => To(w, p, MarkCompleted).(dir := if d.Present? then d.(result := Some(r)) else d)
    case MarkCompleted => To(w, p, DropRunner).(dir := WriteState(d, Completed), recorded := w.recorded + {p})
    case MarkEnd(s) => To(w, p, DropRunner).(dir := WriteState(d, s), recorded := w.recorded + {p})
    case DropRunner =>
      Put(w, p, x.(pc := MarkSettled, hasRunner := false)).(runner := if x.hasRunner then Free else w.runner)
    case MarkSettled => To(w, p, DropLock(None)).(dir := if d.Present? then d.(settled := true) else d)
    case DropLock(a) => To(w, p, Done(a)).(locks := Unlocked(w.locks, p))
    case Running => w
    case Done(_) => w
    case Crashed => w
  }

  function Step(w: World, p: Pid, a: Action): (r: World)
    requires CanDo(w, p, a)
    ensures p in r.procs && r.procs == w.procs[p := r.procs[p]]
  {
    var x := w.procs[p];
    match a
    case Go => Forward(w, p)
    case Crash =>
      Put(w, p, x.(pc := Crashed, hasRunner := false))
        .(locks := Unlocked(w.locks, p), runner := if x.hasRunner then Free else w.runner)
    case Raise => To(w, p, Aborting).(locks := Unlocked(w.locks, p))
    case GiveUp => To(w, p, Done(None))
    case Refuse => To(w, p, MarkEnd(FailedState))
    case Returns(r) => To(w, p, KeepResult(r)).(finished := w.finished + {r})
    case Fails => To(w, p, MarkEnd(FailedState))
    case IsCancelled => To(w, p, MarkEnd(CancelledState))
    case Interrupt => To(w, p, DropRunner)
  }

  /** Another job's process takes or leaves the runner's own lock. */
  predicate RunnerMoves(r: Runner, r': Runner)
  {
    (r == Free && r' == Elsewhere) || (r == Elsewhere && r' == Free)
  }

  /** An exception raised in the claim after its identity was published. */
  predicate RaisesAfterPublishing(w: World, p: Pid, a: Action)
    requires CanDo(w, p, a)
  {
    a.Raise? && w.procs[p].pc.ClaimState?
  }

  // ---------- what every step keeps ----------

  /** Where a process relies on the directory it found or made. */
  predicate UsesDirectory(pc: Pc)
  {
    Holds(pc) || pc.ClaimLock? || pc.Aborting? || pc.Poll? || pc.ReadResult? || pc.ReadState? || pc.TryLock?
  }

  predicate Unpublished(pc: Pc)
  {
    pc.ClaimLock? || pc.ClaimDigest? || pc.Aborting?
  }

  /** A process's own part of the invariant. */
  ghost predicate ProcOk(w: World, p: Pid)
    requires p in w.procs
  {
    var x, d := w.procs[p], w.dir;
    && (UsesDirectory(x.pc) ==> d.Present? && x.gen == d.gen)
    && (Unpublished(x.pc) ==> d.Present? && d.creator == p && d.digest.None?)
    && ((UsesDirectory(x.pc) || x.pc.OpenLock?) && !Unpublished(x.pc) ==> d.Present? && d.digest == Some(x.digest))
    && (Holds(x.pc) ==> x.gen in w.locks && w.locks[x.gen] == p)
    && (forall g | g in w.locks :: w.locks[g] == p ==> Holds(x.pc) && g == x.gen)
    && (x.hasRunner <==> w.runner == Held(p))
    && (x.hasRunner ==> x.pc.OwnerRuns? || x.pc.Running? || x.pc.KeepResult? || x.pc.MarkCompleted? || x.pc.MarkEnd? || x.pc.DropRunner?)
    && (x.pc.OwnerRuns? || x.pc.Running? || x.pc.KeepResult? || x.pc.MarkCompleted? ==> x.hasRunner)
    && (Holds(x.pc) && !x.pc.DropLock? && !x.pc.Locked? ==> !d.settled)
    && (x.pc.ReadResult? || x.pc.ReadState? || x.pc.DropLock? ==> d.settled)
    && (x.pc.ReadState? ==> d.result.None?)
    && (x.pc.Settling? ==> Recovered(d) == Some(x.pc.answer))
    && (x.pc.Reclaim? ==> Recovered(d) == None)
    && (x.pc.ClaimState? ==> d.state.None?)
    && (x.pc.OwnerReady? || x.pc.OwnerRuns? ==> d.state == Some(Claimed))
    && (x.pc.Running? || x.pc.KeepResult? || x.pc.MarkCompleted? ==> d.state == Some(RunningState))
    && (x.pc.MarkEnd? ==> !Terminal(d.state) && (x.pc.state.FailedState? || x.pc.state.CancelledState?))
    && (x.pc.KeepResult? ==> x.pc.result in w.finished)
    && (x.pc.MarkCompleted? ==> d.result.Some?)
    && (p in w.recorded ==> x.pc.DropRunner? || x.pc.MarkSettled? || x.pc.DropLock? || Ended(x.pc))
  }

  /** The directory's own part. */
  ghost predicate DirOk(w: World)
  {
    var d := w.dir;
    && (forall g | g in w.locks :: w.locks[g] in w.procs)
    && (d.Present? ==> d.gen < w.nextGen)
    && (d.Present? && d.result.Some? ==> d.result.value in w.finished)
    && (d.Present? && d.state == Some(Completed) ==> d.result.Some?)
    && (d.Present? && d.digest.None? ==> d.state.None? && d.result.None? && !d.settled)
    && (w.runner.Held? ==> w.runner.p in w.procs)
    && (d.Present? && d.settled ==> forall a | a in w.answers :: a == AnswerOf(d))
    && (d.Absent? || !d.settled ==> w.answers == [])
  }

  /** A process past the run's start: still at work and holding the lock, or dead, or the job settled. */
  ghost predicate StartOk(w: World, q: Pid)
  {
    && q in w.procs
    && (w.procs[q].pc.Crashed? || (w.dir.Present? && w.dir.settled)
        || w.procs[q].pc.Running? || w.procs[q].pc.KeepResult? || w.procs[q].pc.MarkCompleted? || w.procs[q].pc.MarkEnd?
        || w.procs[q].pc.DropRunner? || w.procs[q].pc.MarkSettled?)
    && (q in w.recorded ==> w.dir.Present? && (w.dir.settled || Terminal(w.dir.state)))
  }

  /** Each run but the last began by a process that died before recording any terminal state. */
  ghost predicate StartsOk(w: World)
  {
    && (forall i | 0 <= i < |w.starts| :: StartOk(w, w.starts[i]))
    && (forall i | 0 <= i < |w.starts| - 1 :: w.procs[w.starts[i]].pc.Crashed? && w.starts[i] !in w.recorded)
  }

  ghost predicate Inv(w: World)
  {
    DirOk(w) && StartsOk(w) && forall p | p in w.procs :: ProcOk(w, p)
  }

  ghost predicate Init(w: World)
  {
    && w.dir.Absent? && w.locks == map[] && !w.runner.Held? && w.starts == [] && w.recorded == {} && w.answers == []
    && forall p | p in w.procs :: w.procs[p].pc.Start? && !w.procs[p].hasRunner
  }

  lemma InitInv(w: World)
    requires Init(w)
    ensures Inv(w)
  {
  }

  // ---------- a step seen by the other processes ----------

  predicate Relies(pc: Pc)
  {
    UsesDirectory(pc) || pc.OpenLock?
  }

  /** What process `q` may see of another process's step. */
  ghost predicate SeenBy(w: World, w': World, q: Pid)
  {
    && q in w.procs && q in w'.procs && w'.procs[q] == w.procs[q]
    && (forall g :: g in w.locks && w.locks[g] == q <==> g in w'.locks && w'.locks[g] == q)
    && (w.runner == Held(q) <==> w'.runner == Held(q))
    && w.finished <= w'.finished && (q in w.recorded <==> q in w'.recorded)
    && DirSeenBy(w, w', q)
  }

  ghost predicate DirSeenBy(w: World, w': World, q: Pid)
    requires q in w.procs
  {
    var pc, d, d' := w.procs[q].pc, w.dir, w'.dir;
    || d' == d
    || !Relies(pc)
    || (!Holds(pc) && !Unpublished(pc) && d.Present? && d'.Present? && d'.gen == d.gen && d'.digest == d.digest && !d.settled)
  }

  lemma OthersKeep(w: World, w': World, q: Pid)
    requires q in w.procs && ProcOk(w, q) && SeenBy(w, w', q)
    ensures ProcOk(w', q)
  {
  }

  /** Two processes never both hold the lock of the directory they use. */
  lemma OneHolder(w: World, p: Pid, q: Pid)
    requires p in w.procs && q in w.procs && ProcOk(w, p) && ProcOk(w, q)
    requires Holds(w.procs[p].pc) && p != q
    ensures !Holds(w.procs[q].pc)
  {
  }

  /** While one process has yet to publish its identity, no other relies on the directory. */
  lemma UnpublishedIsAlone(w: World, p: Pid, q: Pid)
    requires p in w.procs && q in w.procs && ProcOk(w, p) && ProcOk(w, q)
    requires Unpublished(w.procs[p].pc) && p != q
    ensures !Relies(w.procs[q].pc)
  {
  }

  /** How a step may change the directory. */
  ghost predicate DirChange(w: World, w': World, p: Pid)
    requires p in w.procs
  {
    var pc, d, d' := w.procs[p].pc, w.dir, w'.dir;
    || d' == d
    || (pc.Start? && d.Absent?)
    || Unpublished(pc)
    || (Holds(pc) && d.Present? && d'.Present? && d'.gen == d.gen && d'.digest == d.digest && !d.settled)
  }

  lemma StepChangesDir(w: World, p: Pid, a: Action)
    requires CanDo(w, p, a) && ProcOk(w, p) && !RaisesAfterPublishing(w, p, a)
    ensures DirChange(w, Step(w, p, a), p)
  {
    if a.Go? { ForwardChangesDir(w, p); }
  }

  lemma ForwardChangesDir(w: World, p: Pid)
    requires p in w.procs && ProcOk(w, p)
    ensures DirChange(w, Forward(w, p), p)
  {
    var pc := w.procs[p].pc;
    if Holds(pc) && !pc.Locked? {
    } else if pc.Locked? {
    } else {
    }
  }

  /** How a step may change the locks: it takes a free one, or frees its own. */
  ghost predicate LockChange(locks: map<nat, Pid>, locks': map<nat, Pid>, p: Pid)
  {
    || locks' == locks
    || locks' == Unlocked(locks, p)
    || (exists g: nat :: g !in locks && locks' == locks[g := p])
  }

  lemma ForwardChangesLocks(w: World, p: Pid)
    requires p in w.procs
    ensures LockChange(w.locks, Forward(w, p).locks, p)
  {
    if w.procs[p].pc.ClaimLock? || w.procs[p].pc.TryLock? {
    } else if w.procs[p].pc.Locked? || w.procs[p].pc.DropLock? {
      assert w.locks == Forward(w, p).locks || Unlocked(w.locks, p) == Forward(w, p).locks;
    } else {
      assert w.locks == Forward(w, p).locks;
    }
  }

  lemma StepChangesLocks(w: World, p: Pid, a: Action)
    requires CanDo(w, p, a)
    ensures LockChange(w.locks, Step(w, p, a).locks, p)
  {
    if a.Go? { ForwardChangesLocks(w, p); }
  }

  lemma LocksSeenBy(locks: map<nat, Pid>, locks': map<nat, Pid>, p: Pid, q: Pid)
    requires LockChange(locks, locks', p) && q != p
    ensures forall g :: g in locks && locks[g] == q <==> g in locks' && locks'[g] == q
  {
  }

  lemma StepSparesOthers(w: World, p: Pid, a: Action, q: Pid)
    requires CanDo(w, p, a) && q in w.procs && q != p && ProcOk(w, p)
    ensures var w' := Step(w, p, a);
      && q in w'.procs && w'.procs[q] == w.procs[q] && w.finished <= w'.finished && (q in w.recorded <==> q in w'.recorded)
      && (w.runner == Held(q) <==> w'.runner == Held(q))
  {
  }

  lemma StepSeenBy(w: World, p: Pid, a: Action, q: Pid)
    requires Inv(w) && CanDo(w, p, a) && !RaisesAfterPublishing(w, p, a)
    requires q in w.procs && q != p
    ensures SeenBy(w, Step(w, p, a), q)
  {
    assert ProcOk(w, p) && ProcOk(w, q);
    var w' := Step(w, p, a);
    StepSparesOthers(w, p, a, q);
    StepChangesLocks(w, p, a);
    LocksSeenBy(w.locks, w'.locks, p, q);
    StepChangesDir(w, p, a);
    if Holds(w.procs[p].pc) { OneHolder(w, p, q); }
    if Unpublished(w.procs[p].pc) { UnpublishedIsAlone(w, p, q); }
    DirChangeSeenBy(w, w', p, q);
  }

  lemma DirChangeSeenBy(w: World, w': World, p: Pid, q: Pid)
    requires p in w.procs && q in w.procs && ProcOk(w, q) && DirChange(w, w', p)
    requires Holds(w.procs[p].pc) ==> !Holds(w.procs[q].pc)
    requires Unpublished(w.procs[p].pc) ==> !Relies(w.procs[q].pc)
    requires ProcOk(w, p) && p != q
    ensures DirSeenBy(w, w', q)
  {
    if Unpublished(w.procs[q].pc) && Relies(w.procs[p].pc) { UnpublishedIsAlone(w, q, p); }
  }

  // ---------- a step seen by its own process ----------

  predicate Starting(pc: Pc)
  {
    pc.Start? || pc.AwaitDigest? || InClaim(pc) || pc.Aborting? || pc.OpenLock?
  }

  predicate Rejoining(pc: Pc)
  {
    pc.Poll? || pc.ReadResult? || pc.ReadState? || pc.TryLock? || pc.Locked? || pc.Settling? || pc.Reclaim?
  }

  lemma StartingKeepsOwn(w: World, p: Pid)
    requires p in w.procs && ProcOk(w, p) && Starting(w.procs[p].pc) && DirOk(w)
    ensures ProcOk(Forward(w, p), p)
  {
    if InClaim(w.procs[p].pc) {
      ClaimKeepsOwn(w, p);
    } else if w.procs[p].pc.Start? {
      MkdirKeepsOwn(w, p);
    }
  }

  lemma ClaimKeepsOwn(w: World, p: Pid)
    requires p in w.procs && ProcOk(w, p) && InClaim(w.procs[p].pc) && DirOk(w)
    ensures ProcOk(Forward(w, p), p)
  {
  }

  lemma MkdirKeepsOwn(w: World, p: Pid)
    requires p in w.procs && ProcOk(w, p) && w.procs[p].pc.Start? && DirOk(w)
    ensures ProcOk(Forward(w, p), p)
  {
  }

  lemma RereadKeepsOwn(w: World, p: Pid)
    requires p in w.procs && ProcOk(w, p) && w.procs[p].pc.Locked? && DirOk(w)
    ensures ProcOk(Reread(w, p), p)
  {
    var x, d := w.procs[p], w.dir;
    if d.Absent? || d.settled || d.digest != Some(x.digest) {
      RereadLetsGo(w, p);
    } else if Recovered(d).Some? {
      assert Reread(w, p) == To(w, p, Settling(Recovered(d).value));
    } else {
      assert Reread(w, p) == To(w, p, Reclaim);
    }
  }

  lemma RereadLetsGo(w: World, p: Pid)
    requires p in w.procs && ProcOk(w, p) && w.procs[p].pc.Locked?
    requires w.dir.Absent? || w.dir.settled || w.dir.digest != Some(w.procs[p].digest)
    ensures ProcOk(Reread(w, p), p)
  {
    assert Reread(w, p).procs[p].pc.Done?;
  }

  lemma PollingKeepsOwn(w: World, p: Pid)
    requires p in w.procs && ProcOk(w, p) && w.procs[p].pc.Poll?
    ensures ProcOk(Forward(w, p), p)
  {
  }

  lemma ReplayingKeepsOwn(w: World, p: Pid)
    requires p in w.procs && ProcOk(w, p) && (w.procs[p].pc.ReadResult? || w.procs[p].pc.ReadState?)
    ensures ProcOk(Forward(w, p), p)
  {
  }

  lemma TryingKeepsOwn(w: World, p: Pid)
    requires p in w.procs && ProcOk(w, p) && w.procs[p].pc.TryLock?
    ensures ProcOk(Forward(w, p), p)
  {
  }

  lemma RejoiningKeepsOwn(w: World, p: Pid)
    requires p in w.procs && ProcOk(w, p) && Rejoining(w.procs[p].pc) && DirOk(w)
    ensures ProcOk(Forward(w, p), p)
  {
    var pc := w.procs[p].pc;
    if pc.Locked? {
      RereadKeepsOwn(w, p);
    } else if pc.Settling? || pc.Reclaim? {
    } else if pc.TryLock? {
      TryingKeepsOwn(w, p);
    } else if pc.Poll? {
      PollingKeepsOwn(w, p);
    } else {
      ReplayingKeepsOwn(w, p);
    }
  }

  lemma OwningKeepsOwn(w: World, p: Pid)
    requires p in w.procs && ProcOk(w, p) && !Starting(w.procs[p].pc) && !Rejoining(w.procs[p].pc) && DirOk(w)
    ensures ProcOk(Forward(w, p), p)
  {
    var pc := w.procs[p].pc;
    if pc.OwnerReady? || pc.OwnerRuns? || pc.KeepResult? {
      RunningKeepsOwn(w, p);
    } else if pc.MarkCompleted? || pc.MarkEnd? {
      MarkingKeepsOwn(w, p);
    }
  }

  lemma RunningKeepsOwn(w: World, p: Pid)
    requires p in w.procs && ProcOk(w, p) && (w.procs[p].pc.OwnerReady? || w.procs[p].pc.OwnerRuns? || w.procs[p].pc.KeepResult?)
    ensures ProcOk(Forward(w, p), p)
  {
  }

  lemma MarkingKeepsOwn(w: World, p: Pid)
    requires p in w.procs && ProcOk(w, p) && (w.procs[p].pc.MarkCompleted? || w.procs[p].pc.MarkEnd?)
    ensures ProcOk(Forward(w, p), p)
  {
  }

  lemma StepKeepsOwn(w: World, p: Pid, a: Action)
    requires Inv(w) && CanDo(w, p, a) && !RaisesAfterPublishing(w, p, a)
    ensures ProcOk(Step(w, p, a), p)
  {
    assert ProcOk(w, p);
    if a.Go? {
      if Starting(w.procs[p].pc) {
        StartingKeepsOwn(w, p);
      } else if Rejoining(w.procs[p].pc) {
        RejoiningKeepsOwn(w, p);
      } else {
        OwningKeepsOwn(w, p);
      }
    } else {
      OtherwiseKeepsOwn(w, p, a);
    }
  }

  lemma OtherwiseKeepsOwn(w: World, p: Pid, a: Action)
    requires CanDo(w, p, a) && ProcOk(w, p) && !a.Go? && !RaisesAfterPublishing(w, p, a)
    ensures ProcOk(Step(w, p, a), p)
  {
    if a.Crash? || a.Raise? || a.GiveUp? { LeavingKeepsOwn(w, p, a); }
  }

  lemma LeavingKeepsOwn(w: World, p: Pid, a: Action)
    requires CanDo(w, p, a) && ProcOk(w, p) && !RaisesAfterPublishing(w, p, a) && (a.Crash? || a.Raise? || a.GiveUp?)
    ensures ProcOk(Step(w, p, a), p)
  {
  }

  lemma StepKeepsDir(w: World, p: Pid, a: Action)
    requires Inv(w) && CanDo(w, p, a) && !RaisesAfterPublishing(w, p, a)
    ensures DirOk(Step(w, p, a))
  {
    assert ProcOk(w, p);
    if a.Go? {
      if Starting(w.procs[p].pc) {
        StartingKeepsDir(w, p);
      } else if Rejoining(w.procs[p].pc) {
        RejoiningKeepsDir(w, p);
      } else {
        OwningKeepsDir(w, p);
      }
    }
  }

  lemma StartingKeepsDir(w: World, p: Pid)
    requires p in w.procs && ProcOk(w, p) && Starting(w.procs[p].pc) && DirOk(w)
    ensures DirOk(Forward(w, p))
  {
  }

  lemma RejoiningKeepsDir(w: World, p: Pid)
    requires p in w.procs && ProcOk(w, p) && Rejoining(w.procs[p].pc) && DirOk(w)
    ensures DirOk(Forward(w, p))
  {
  }

  lemma OwningKeepsDir(w: World, p: Pid)
    requires p in w.procs && ProcOk(w, p) && !Starting(w.procs[p].pc) && !Rejoining(w.procs[p].pc) && DirOk(w)
    ensures DirOk(Forward(w, p))
  {
  }

  // ---------- the runs begun so far ----------

  lemma StartKept(w: World, p: Pid, a: Action, q: Pid)
    requires CanDo(w, p, a) && !RaisesAfterPublishing(w, p, a) && DirOk(w) && ProcOk(w, p)
    requires StartOk(w, q)
    ensures StartOk(Step(w, p, a), q)
  {
    if q == p { OwnStartKept(w, p, a); } else { OtherStartKept(w, p, a, q); }
  }

  lemma OwnStartKept(w: World, p: Pid, a: Action)
    requires CanDo(w, p, a) && !RaisesAfterPublishing(w, p, a) && DirOk(w) && ProcOk(w, p) && StartOk(w, p)
    ensures StartOk(Step(w, p, a), p)
  {
  }

  lemma OtherStartKept(w: World, p: Pid, a: Action, q: Pid)
    requires CanDo(w, p, a) && !RaisesAfterPublishing(w, p, a) && DirOk(w) && ProcOk(w, p) && StartOk(w, q)
    requires q != p
    ensures StartOk(Step(w, p, a), q)
  {
  }

  /** A run begins only when every earlier one was begun by a process that died before recording an end. */
  lemma BeginsAfterDeath(w: World, p: Pid, q: Pid)
    requires p in w.procs && q in w.procs && ProcOk(w, p) && ProcOk(w, q) && StartOk(w, q)
    requires w.procs[p].pc.OwnerRuns?
    ensures q != p && w.procs[q].pc.Crashed? && q !in w.recorded
  {
    if q != p { OneHolder(w, p, q); }
  }

  ghost predicate Dead(w: World, q: Pid)
  {
    q in w.procs && w.procs[q].pc.Crashed? && q !in w.recorded
  }

  lemma DeadStaysDead(w: World, p: Pid, a: Action, q: Pid)
    requires CanDo(w, p, a) && Dead(w, q)
    ensures Dead(Step(w, p, a), q)
  {
  }

  lemma StartsGrow(w: World, p: Pid, a: Action)
    requires CanDo(w, p, a)
    ensures Step(w, p, a).starts == if a.Go? && w.procs[p].pc.OwnerRuns? then w.starts + [p] else w.starts
  {
    if a.Go? && w.procs[p].pc.Locked? { assert Reread(w, p).starts == w.starts; }
  }

  lemma BeginningKeepsStarts(w: World, p: Pid)
    requires Inv(w) && p in w.procs && w.procs[p].pc.OwnerRuns?
    ensures StartsOk(Step(w, p, Go))
  {
    var w' := Step(w, p, Go);
    assert ProcOk(w, p);
    forall i | 0 <= i < |w.starts|
      ensures StartOk(w', w.starts[i]) && Dead(w', w.starts[i])
    {
      var q := w.starts[i];
      assert StartOk(w, q) && ProcOk(w, q);
      BeginsAfterDeath(w, p, q);
      DeadStaysDead(w, p, Go, q);
      StartKept(w, p, Go, q);
    }
    BegunIsOk(w, p);
  }

  lemma BegunIsOk(w: World, p: Pid)
    requires p in w.procs && ProcOk(w, p) && w.procs[p].pc.OwnerRuns? && DirOk(w)
    ensures StartOk(Step(w, p, Go), p)
  {
  }

  lemma StepKeepsStarts(w: World, p: Pid, a: Action)
    requires Inv(w) && CanDo(w, p, a) && !RaisesAfterPublishing(w, p, a)
    ensures StartsOk(Step(w, p, a))
  {
    var w' := Step(w, p, a);
    StartsGrow(w, p, a);
    assert ProcOk(w, p);
    if a.Go? && w.procs[p].pc.OwnerRuns? {
      BeginningKeepsStarts(w, p);
    } else {
      forall i | 0 <= i < |w.starts| ensures StartOk(w', w'.starts[i]) {
        StartKept(w, p, a, w.starts[i]);
      }
      forall i | 0 <= i < |w.starts| - 1 ensures Dead(w', w'.starts[i]) {
        DeadStaysDead(w, p, a, w.starts[i]);
      }
    }
  }

  lemma StepKeepsOther(w: World, p: Pid, a: Action, q: Pid)
    requires Inv(w) && CanDo(w, p, a) && !RaisesAfterPublishing(w, p, a)
    requires q in w.procs && q != p
    ensures ProcOk(Step(w, p, a), q)
  {
    StepSeenBy(w, p, a, q);
    OthersKeep(w, Step(w, p, a), q);
  }

  lemma StepKeepsProcs(w: World, p: Pid, a: Action)
    requires CanDo(w, p, a)
    ensures Step(w, p, a).procs.Keys == w.procs.Keys
  {
  }

  lemma StepInv(w: World, p: Pid, a: Action)
    requires Inv(w) && CanDo(w, p, a) && !RaisesAfterPublishing(w, p, a)
    ensures Inv(Step(w, p, a))
  {
    StepKeepsDir(w, p, a);
    StepKeepsStarts(w, p, a);
    StepKeepsProcs(w, p, a);
    forall q | q in Step(w, p, a).procs ensures ProcOk(Step(w, p, a), q) {
      if q == p { StepKeepsOwn(w, p, a); } else { StepKeepsOther(w, p, a, q); }
    }
  }

  lemma RunnerMoveInv(w: World, r: Runner)
    requires Inv(w) && RunnerMoves(w.runner, r)
    ensures Inv(w.(runner := r))
  {
    var w' := w.(runner := r);
    forall q | q in w'.procs ensures ProcOk(w', q) {
      assert ProcOk(w, q);
      OthersKeep(w, w', q);
    }
    forall i | 0 <= i < |w.starts| ensures StartOk(w', w'.starts[i]) {
      assert StartOk(w, w.starts[i]);
    }
    forall i | 0 <= i < |w.starts| - 1 ensures Dead(w', w'.starts[i]) {
      assert StartOk(w, w.starts[i]);
    }
  }
}