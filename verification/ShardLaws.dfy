/** What a shard's counters mean, over every run of its events. */
module ShardLaws {
  import opened Wrappers
  import opened Shard

  datatype Timed = Timed(event: Event, now: nat)

  ghost predicate Runs(s: State, es: seq<Timed>)
    decreases |es|
  {
    es == [] || (Enabled(s, es[0].event) && Runs(Next(s, es[0].event, es[0].now), es[1..]))
  }

  ghost function After(s: State, es: seq<Timed>): State
    requires Runs(s, es)
    decreases |es|
  {
    if es == [] then s else After(Next(s, es[0].event, es[0].now), es[1..])
  }

  lemma {:induction false} RunsInTwo(s: State, es: seq<Timed>, fs: seq<Timed>)
    requires Runs(s, es) && Runs(After(s, es), fs)
    ensures Runs(s, es + fs) && After(s, es + fs) == After(After(s, es), fs)
    decreases |es|
  {
    if es == [] {
      assert es + fs == fs;
    } else {
      assert (es + fs)[1..] == es[1..] + fs;
      RunsInTwo(Next(s, es[0].event, es[0].now), es[1..], fs);
    }
  }

  lemma {:induction false} RunKeepsBooks(s: State, es: seq<Timed>)
    requires Books(s) && Runs(s, es)
    ensures Books(After(s, es))
    decreases |es|
  {
    if es != [] {
      StepKeepsBooks(s, es[0].event, es[0].now);
      RunKeepsBooks(Next(s, es[0].event, es[0].now), es[1..]);
    }
  }

  // ---------- the gate ----------

  /** Every slot of the target is launched, and its client is ready, open and counted. */
  ghost predicate FullyHeld(s: State)
  {
    |s.slots| == s.target && forall i | 0 <= i < |s.slots| ::
      s.slots[i].line.Up? && !s.slots[i].login.Ready? && !s.slots[i].repair.Back? && s.slots[i].abandoned == 0
  }

  /** After any run, `held_now` reaches the target exactly when every slot is held at once. */
  lemma HeldNowAtTargetIsAFullHold(target: nat, t0: int, es: seq<Timed>)
    requires target > 0 && Runs(Fresh(target, t0), es)
    ensures var s := After(Fresh(target, t0), es);
      s.heldNow <= s.target == target && (s.heldNow == s.target <==> FullyHeld(s))
  {
    FreshBooks(target, t0);
    RunKeepsBooks(Fresh(target, t0), es);
    TargetNeverMoves(Fresh(target, t0), es);
    BooksAtTarget(After(Fresh(target, t0), es));
  }

  lemma BooksAtTarget(s: State)
    requires Books(s)
    ensures s.heldNow <= s.target && (s.heldNow == s.target <==> FullyHeld(s))
  {
    SumBounds(s.slots);
    if FullyHeld(s) {
      AllHeldSum(s.slots);
    }
  }

  lemma {:induction false} AllHeldSum(slots: seq<Slot>)
    requires forall i | 0 <= i < |slots| :: HeldBy(slots[i]) == 1
    ensures Sum(slots).held == |slots|
  {
    if slots != [] {
      var n := |slots| - 1;
      AllHeldSum(slots[..n]);
      SumOfOneMore(slots[..n], slots[n]);
      assert slots[..n] + [slots[n]] == slots;
    }
  }

  lemma {:induction false} TargetNeverMoves(s: State, es: seq<Timed>)
    requires Runs(s, es)
    ensures After(s, es).target == s.target
    decreases |es|
  {
    if es != [] {
      TargetNeverMoves(Next(s, es[0].event, es[0].now), es[1..]);
    }
  }

  /** The gate's time is stamped only by an event that leaves every client held, and is that event's
      time since the bell. */
  lemma TheStampIsAFullHold(s: State, e: Event, now: nat)
    requires Books(s) && Enabled(s, e)
    ensures var s' := Next(s, e, now);
      s'.targetElapsed != s.targetElapsed ==> !s.gateFrozen && FullyHeld(s') && s'.targetElapsed == Some(now - s.t0)
  {
    StepKeepsBooks(s, e, now);
    BooksAtTarget(Next(s, e, now));
  }

  /** Once frozen, the stamp never moves. */
  lemma {:induction false} AFrozenStampNeverMoves(s: State, es: seq<Timed>)
    requires s.gateFrozen && Runs(s, es)
    ensures After(s, es).gateFrozen && After(s, es).targetElapsed == s.targetElapsed
    decreases |es|
  {
    if es != [] {
      AFrozenStampNeverMoves(Next(s, es[0].event, es[0].now), es[1..]);
    }
  }

  // ---------- outcomes ----------

  /** Every launched client is authenticated, cancelled, refused or still in flight, and every
      terminal failure is counted under one code. */
  lemma EveryOutcomeIsAccounted(target: nat, t0: int, es: seq<Timed>)
    requires Runs(Fresh(target, t0), es)
    ensures var s := After(Fresh(target, t0), es); var t := Sum(s.slots);
      && s.initiated == s.authenticated + s.cancelled + t.refused + t.pending
      && t.refused <= s.terminalFailures == |s.failureCodes|
      && s.reconnected <= s.disconnected
  {
    FreshBooks(target, t0);
    RunKeepsBooks(Fresh(target, t0), es);
    SumBounds(After(Fresh(target, t0), es).slots);
  }

  /** The counts of a complete shard already force every client to be held, with no reconnect pending anywhere. */
  lemma CompleteCountsForceEveryClientHeld(s: State)
    requires Books(s) && CountsComplete(s)
    ensures |s.slots| == s.target && forall i | 0 <= i < |s.slots| ::
              s.slots[i].login.Counted? && s.slots[i].line.Up? && s.slots[i].repair.Idle?
  {
    SumBounds(s.slots);
    forall i | 0 <= i < |s.slots| ensures s.slots[i].login.Counted? && s.slots[i].line.Up? && s.slots[i].repair.Idle? {
      assert s.slots[i] in s.slots;
    }
  }

  /** A slot lost for good stays lost, and keeps its shard from completing. */
  lemma BrokenStaysBroken(s: State, e: Event, now: nat, i: nat)
    requires Books(s) && Enabled(s, e) && i < |s.slots| && Broken(s.slots[i])
    ensures var s' := Next(s, e, now); i < |s'.slots| && s'.slots[i] == s.slots[i]
  {
    if !e.Launch? && !e.FreezeGate? && !e.StopRepairs? {
      assert s.slots[e.i] in s.slots;
      EventMoves(s, e, now);
      assert e.i != i;
    }
  }

  lemma BrokenNeverCompletes(s: State, i: nat)
    requires Books(s) && i < |s.slots| && Broken(s.slots[i])
    ensures !CountsComplete(s)
  {
    if CountsComplete(s) {
      CompleteCountsForceEveryClientHeld(s);
    }
  }

  /** One more event at the end of a run. */
  lemma {:induction false} OneMore(s: State, es: seq<Timed>, e: Event, now: nat) returns (fs: seq<Timed>)
    requires Runs(s, es) && Enabled(After(s, es), e)
    ensures fs == es + [Timed(e, now)] && Runs(s, fs) && After(s, fs) == Next(After(s, es), e, now)
  {
    var last := [Timed(e, now)];
    assert last[1..] == [];
    assert Runs(After(s, es), last);
    RunsInTwo(s, es, last);
    fs := es + last;
  }

  /** A slot launched, logged in and counted, then reset by the server. */
  lemma {:induction false} HeldThenReset(s: State, es: seq<Timed>) returns (fs: seq<Timed>)
    requires Runs(s, es) && Enabled(After(s, es), Launch) && After(s, es).reconnectEnabled
    ensures Runs(s, fs)
    ensures var a, b := After(s, es), After(s, fs); var n := |a.slots|;
      && |b.slots| == n + 1 && b.slots[n] == Slot(Counted, Created, Down(4, 2), 1, 0, 0)
      && b.retries == a.retries && b.peakSleepers == a.peakSleepers && b.reconnectEnabled && b.target == a.target
      && b.terminalFailures == a.terminalFailures && b.cancelled == a.cancelled
      && b.authenticated == a.authenticated + 1 && b.initiated == a.initiated + 1
      && b.disconnected == a.disconnected + 1 && b.reconnected == a.reconnected
  {
    var n := |After(s, es).slots|;
    fs := OneMore(s, es, Launch, 1);
    fs := OneMore(s, fs, LoginReady(n), 2);
    fs := OneMore(s, fs, LoginCounted(n), 3);
    fs := OneMore(s, fs, Lost(n), 4);
  }

  /** A client reset after its reconnect logged in and before that task resumed gets no new task: the
      slot is lost for good with no terminal failure, and only disconnected > reconnected tells. */
  lemma {:induction false} AClientLostBeforeItsReconnectResumesIsOrphaned() returns (es: seq<Timed>)
    ensures Runs(Fresh(1, 0), es)
    ensures var s := After(Fresh(1, 0), es);
      && |s.slots| == 1 && Broken(s.slots[0]) && s.reconnectEnabled
      && s.terminalFailures == 0 && s.cancelled == 0 && s.authenticated == s.initiated == 1
      && s.disconnected == 2 && s.reconnected == 1
  {
    es := HeldThenReset(Fresh(1, 0), []);
    es := ReadyAgain(Fresh(1, 0), es);
    es := ResetThenCounted(Fresh(1, 0), es);
  }

  /** A created reconnect logs in at its first try. */
  lemma {:induction false} ReadyAgain(s: State, es: seq<Timed>) returns (fs: seq<Timed>)
    requires Runs(s, es) && |After(s, es).slots| == 1 && After(s, es).retries == 0
    requires After(s, es).slots[0].login.Counted? && After(s, es).slots[0].repair.Created?
    ensures Runs(s, fs)
    ensures var a, b := After(s, es), After(s, fs);
      && |b.slots| == 1 && b.slots[0] == a.slots[0].(repair := Back(false), line := Up(6))
      && b == a.(slots := b.slots, retries := 1)
  {
    fs := OneMore(s, es, RepairBegins(0), 5);
    fs := OneMore(s, fs, RepairReady(0), 6);
  }

  /** The new client is reset, and then its reconnect is counted. */
  lemma {:induction false} ResetThenCounted(s: State, es: seq<Timed>) returns (fs: seq<Timed>)
    requires Runs(s, es) && |After(s, es).slots| == 1
    requires var x := After(s, es).slots[0]; x.login.Counted? && x.repair == Back(false) && x.line.Up?
    ensures Runs(s, fs)
    ensures var a, b := After(s, es), After(s, fs);
      && |b.slots| == 1 && Broken(b.slots[0])
      && b == a.(slots := b.slots, disconnected := a.disconnected + 1, reconnected := a.reconnected + 1, targetElapsed := b.targetElapsed)
  {
    fs := OneMore(s, es, Lost(0), 7);
    fs := OneMore(s, fs, RepairCounted(0), 8);
  }
}
