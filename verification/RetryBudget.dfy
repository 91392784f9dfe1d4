/** The shard's retry budget: looked at before a first login is retried and before a reconnect sleeps
    or makes its first try, but not when a reconnect that slept spends its retry. */
module RetryBudget {
  import opened Shard
  import opened ShardLaws

  // ---------- the bound ----------

  /** A reconnect asleep between its check and its spend may overdraw the budget by one, so retries
      never exceed the budget by more than the most that ever slept at once. */
  lemma RetriesStayWithinBudgetPlusSleepers(target: nat, t0: int, es: seq<Timed>)
    requires Runs(Fresh(target, t0), es)
    ensures var s := After(Fresh(target, t0), es); s.retries <= PARTITION_RETRY_BUDGET + s.peakSleepers
  {
    FreshBooks(target, t0);
    RunKeepsBooks(Fresh(target, t0), es);
    SumBounds(After(Fresh(target, t0), es).slots);
  }

  /** Each reconnect under way has spent a retry; nobody goes to sleep on an empty budget, and whoever
      emptied it is not asleep. */
  ghost predicate BudgetInv(s: State)
  {
    var t := Sum(s.slots);
    && Books(s)
    && t.begun <= s.retries
    && s.peakSleepers < PARTITION_RETRY_BUDGET
    && (s.retries >= PARTITION_RETRY_BUDGET ==> s.retries + t.sleeping <= PARTITION_RETRY_BUDGET + s.target - 1)
  }

  /** How one slot's change moves the retries. */
  ghost predicate Spends(s: State, s': State, i: nat)
    requires i < |s.slots| && i < |s'.slots|
  {
    var x, y := s.slots[i], s'.slots[i];
    && s'.target == s.target
    && One(Begun(y.repair)) - One(Begun(x.repair)) <= s'.retries - s.retries
    && s.retries <= s'.retries <= s.retries + 1
    && (s'.peakSleepers == s.peakSleepers
        || (s.retries < PARTITION_RETRY_BUDGET && s'.retries == s.retries && s'.peakSleepers <= Sum(s'.slots).sleeping))
    && (y.repair.Sleeping? && !x.repair.Sleeping? ==> s.retries < PARTITION_RETRY_BUDGET && s'.retries == s.retries)
    && (s'.retries > s.retries ==> !y.repair.Sleeping?)
    && (s'.retries > s.retries >= PARTITION_RETRY_BUDGET ==> x.repair.Sleeping?)
  }

  lemma RepairLoopSpends(s: State, i: nat, tries: nat)
    requires i < |s.slots| && SlotOk(s.slots[i])
    requires s.slots[i].repair == if tries == 0 then Created else Trying(tries)
    ensures Spends(s, RepairLoop(s, i, tries), i)
  {
  }

  lemma EventSpends(s: State, e: Event, now: nat)
    requires !e.Launch? && !e.FreezeGate? && !e.StopRepairs?
    requires Enabled(s, e) && SlotOk(s.slots[e.i])
    requires e.i < |Next(s, e, now).slots|
    ensures Spends(s, Next(s, e, now), e.i)
  {
    if e.RepairBegins? {
      RepairLoopSpends(s, e.i, 0);
    } else if e.RepairFails? && s.slots[e.i].repair.Trying? && Retryable(e.code) {
      RepairLoopSpends(s, e.i, s.slots[e.i].repair.tries);
    }
  }

  lemma {:induction false} SomeoneIsAwake(slots: seq<Slot>, i: nat)
    requires i < |slots| && !slots[i].repair.Sleeping?
    ensures Sum(slots).sleeping <= |slots| - 1
  {
    var n := |slots| - 1;
    assert slots[..n] + [slots[n]] == slots;
    SumOfOneMore(slots[..n], slots[n]);
    if i < n {
      SomeoneIsAwake(slots[..n], i);
    } else {
      AtMostAllAsleep(slots[..n]);
    }
  }

  lemma {:induction false} AtMostAllAsleep(slots: seq<Slot>)
    ensures Sum(slots).sleeping <= |slots|
  {
    if slots != [] {
      var n := |slots| - 1;
      assert slots[..n] + [slots[n]] == slots;
      SumOfOneMore(slots[..n], slots[n]);
      AtMostAllAsleep(slots[..n]);
    }
  }

  lemma SpendKeepsBudget(s: State, s': State, i: nat)
    requires BudgetInv(s) && Books(s') && i < |s.slots| && i < |s'.slots| && s'.slots == s.slots[i := s'.slots[i]]
    requires Spends(s, s', i)
    ensures BudgetInv(s')
  {
    SumOfUpdate(s.slots, i, s'.slots[i]);
    SumBounds(s'.slots);
    if !s'.slots[i].repair.Sleeping? {
      SomeoneIsAwake(s'.slots, i);
    }
  }

  lemma LaunchKeepsBudget(s: State, now: nat)
    requires BudgetInv(s) && Enabled(s, Launch) && Books(Next(s, Launch, now))
    ensures BudgetInv(Next(s, Launch, now))
  {
    SumOfOneMore(s.slots, Slot(Connecting(0), Idle, Down(now, now), 0, 0, 0));
  }

  lemma StepKeepsBudget(s: State, e: Event, now: nat)
    requires BudgetInv(s) && Enabled(s, e)
    ensures BudgetInv(Next(s, e, now))
  {
    StepKeepsBooks(s, e, now);
    if e.Launch? {
      LaunchKeepsBudget(s, now);
    } else if !e.FreezeGate? && !e.StopRepairs? {
      assert s.slots[e.i] in s.slots;
      EventMoves(s, e, now);
      EventSpends(s, e, now);
      SpendKeepsBudget(s, Next(s, e, now), e.i);
    }
  }

  lemma {:induction false} RunKeepsBudget(s: State, es: seq<Timed>)
    requires BudgetInv(s) && Runs(s, es)
    ensures BudgetInv(After(s, es))
    decreases |es|
  {
    if es != [] {
      StepKeepsBudget(s, es[0].event, es[0].now);
      RunKeepsBudget(Next(s, es[0].event, es[0].now), es[1..]);
    }
  }

  /** How far a shard of `target` clients can overdraw its budget. */
  function MostOverdrawn(target: nat): int
  {
    if target < PARTITION_RETRY_BUDGET then target - 1 else PARTITION_RETRY_BUDGET - 1
  }

  lemma RetriesAreBounded(target: nat, t0: int, es: seq<Timed>)
    requires target > 0 && Runs(Fresh(target, t0), es)
    ensures After(Fresh(target, t0), es).retries <= PARTITION_RETRY_BUDGET + MostOverdrawn(target)
  {
    FreshBooks(target, t0);
    RunKeepsBudget(Fresh(target, t0), es);
    TargetNeverMoves(Fresh(target, t0), es);
    SumBounds(After(Fresh(target, t0), es).slots);
  }

  // ---------- exactly when ----------

  /** The reconnects that wake on an empty budget and spend a retry all the same. */
  ghost function WakesOnEmpty(s: State, es: seq<Timed>): nat
    requires Runs(s, es)
    decreases |es|
  {
    if es == [] then 0
    else
      (if es[0].event.RepairWakes? && s.retries >= PARTITION_RETRY_BUDGET then 1 else 0)
      + WakesOnEmpty(Next(s, es[0].event, es[0].now), es[1..])
  }

  lemma OnlyAWakeOverdraws(s: State, e: Event, now: nat)
    requires Enabled(s, e)
    ensures var s' := Next(s, e, now);
      if s.retries >= PARTITION_RETRY_BUDGET then s'.retries == s.retries + One(e.RepairWakes?)
      else s'.retries <= PARTITION_RETRY_BUDGET
  {
  }

  lemma {:induction false} OverdraftIsWakes(s: State, es: seq<Timed>)
    requires Runs(s, es)
    ensures var s' := After(s, es);
      if s.retries >= PARTITION_RETRY_BUDGET then s'.retries == s.retries + WakesOnEmpty(s, es)
      else if WakesOnEmpty(s, es) > 0 then s'.retries == PARTITION_RETRY_BUDGET + WakesOnEmpty(s, es)
      else s'.retries <= PARTITION_RETRY_BUDGET
    decreases |es|
  {
    if es != [] {
      OnlyAWakeOverdraws(s, es[0].event, es[0].now);
      OverdraftIsWakes(Next(s, es[0].event, es[0].now), es[1..]);
    }
  }

  /** A shard ends over its budget exactly when some reconnect woke on an empty one, and by exactly as
      many retries as reconnects did. */
  lemma TheBudgetIsOverdrawnExactlyByWakesOnEmpty(target: nat, t0: int, es: seq<Timed>)
    requires Runs(Fresh(target, t0), es)
    ensures var s0 := Fresh(target, t0); var r := After(s0, es).retries;
      && (r > PARTITION_RETRY_BUDGET <==> WakesOnEmpty(s0, es) > 0)
      && (r > PARTITION_RETRY_BUDGET ==> r - PARTITION_RETRY_BUDGET == WakesOnEmpty(s0, es))
  {
    OverdraftIsWakes(Fresh(target, t0), es);
  }

  lemma {:induction false} NoSleepersWithoutRefusals(s: State, es: seq<Timed>)
    requires Runs(s, es) && forall t | t in es :: !t.event.RepairFails?
    ensures After(s, es).peakSleepers == s.peakSleepers
    decreases |es|
  {
    if es != [] {
      assert es[0] in es;
      assert forall t | t in es[1..] :: t in es;
      NoSleepersWithoutRefusals(Next(s, es[0].event, es[0].now), es[1..]);
    }
  }

  /** In particular, first logins alone, and reconnects that are never refused, stay within it. */
  lemma LoginsAloneStayWithinTheBudget(target: nat, t0: int, es: seq<Timed>)
    requires Runs(Fresh(target, t0), es) && forall t | t in es :: !t.event.RepairFails?
    ensures After(Fresh(target, t0), es).retries <= PARTITION_RETRY_BUDGET
    ensures WakesOnEmpty(Fresh(target, t0), es) == 0
  {
    RetriesStayWithinBudgetPlusSleepers(target, t0, es);
    NoSleepersWithoutRefusals(Fresh(target, t0), es);
    TheBudgetIsOverdrawnExactlyByWakesOnEmpty(target, t0, es);
  }

  // ---------- every overdraft within the bound happens ----------

  /** A counted client, up, with no reconnect. */
  predicate Steady(x: Slot)
  {
    x.login.Counted? && x.repair.Idle? && x.line.Up?
  }

  /** Slots `from` up to `asleep` sleep before a second try; from there up to `held` they are steady. */
  ghost predicate Stage(s: State, target: nat, from: nat, asleep: nat, held: nat, retries: int)
  {
    && s.target == target && s.reconnectEnabled && s.retries == retries && |s.slots| == held
    && (forall i | from <= i < asleep && i < held :: s.slots[i].repair == Sleeping(1))
    && (forall i | asleep <= i < held :: Steady(s.slots[i]))
  }

  /** Only one slot differs, and the retries. */
  ghost predicate OneSlotMoved(a: State, b: State, i: nat, spent: int)
  {
    && i < |a.slots| && i < |b.slots| && b.slots == a.slots[i := b.slots[i]]
    && b.target == a.target && b.reconnectEnabled == a.reconnectEnabled && b.retries == a.retries + spent
  }

  lemma {:induction false} HoldOne(s: State, es: seq<Timed>) returns (fs: seq<Timed>)
    requires Runs(s, es) && Enabled(After(s, es), Launch)
    ensures Runs(s, fs)
    ensures var a, b := After(s, es), After(s, fs);
      && |b.slots| == |a.slots| + 1 && b.slots[..|a.slots|] == a.slots && Steady(b.slots[|a.slots|])
      && b.target == a.target && b.reconnectEnabled == a.reconnectEnabled && b.retries == a.retries
  {
    var n := |After(s, es).slots|;
    fs := OneMore(s, es, Launch, 1);
    fs := OneMore(s, fs, LoginReady(n), 2);
    fs := OneMore(s, fs, LoginCounted(n), 3);
  }

  lemma {:induction false} HoldAll(target: nat, n: nat) returns (es: seq<Timed>)
    requires n <= target
    ensures Runs(Fresh(target, 0), es) && Stage(After(Fresh(target, 0), es), target, 0, 0, n, 0)
  {
    if n == 0 {
      es := [];
    } else {
      var held := HoldAll(target, n - 1);
      es := HoldOne(Fresh(target, 0), held);
      var a, b := After(Fresh(target, 0), held), After(Fresh(target, 0), es);
      forall i | 0 <= i < n ensures Steady(b.slots[i]) {
        if i < n - 1 { assert b.slots[i] == b.slots[..n - 1][i] == a.slots[i]; }
      }
    }
  }

  lemma {:induction false} ResetAndTrying(s: State, es: seq<Timed>, i: nat) returns (fs: seq<Timed>)
    requires Runs(s, es) && i < |After(s, es).slots| && Steady(After(s, es).slots[i])
    requires After(s, es).reconnectEnabled && After(s, es).retries < PARTITION_RETRY_BUDGET
    ensures Runs(s, fs) && OneSlotMoved(After(s, es), After(s, fs), i, 1)
    ensures var x := After(s, fs).slots[i]; x.login.Counted? && x.repair == Trying(1)
  {
    fs := OneMore(s, es, Lost(i), 4);
    fs := OneMore(s, fs, RepairBegins(i), 5);
  }

  /** A steady client is reset and reconnects at its first try. */
  lemma {:induction false} ReconnectOnce(s: State, es: seq<Timed>, i: nat) returns (fs: seq<Timed>)
    requires Runs(s, es) && i < |After(s, es).slots| && Steady(After(s, es).slots[i])
    requires After(s, es).reconnectEnabled && After(s, es).retries < PARTITION_RETRY_BUDGET
    ensures Runs(s, fs) && OneSlotMoved(After(s, es), After(s, fs), i, 1) && Steady(After(s, fs).slots[i])
  {
    fs := ResetAndTrying(s, es, i);
    fs := OneMore(s, fs, RepairReady(i), 6);
    fs := OneMore(s, fs, RepairCounted(i), 7);
  }

  lemma {:induction false} ReconnectTimes(s: State, es: seq<Timed>, target: nat, held: nat, r: nat) returns (fs: seq<Timed>)
    requires Runs(s, es) && Stage(After(s, es), target, 0, 0, held, 0) && held > 0 && r <= PARTITION_RETRY_BUDGET
    ensures Runs(s, fs) && Stage(After(s, fs), target, 0, 0, held, r)
  {
    if r == 0 {
      fs := es;
    } else {
      fs := ReconnectTimes(s, es, target, held, r - 1);
      fs := ReconnectOnce(s, fs, held - 1);
    }
  }

  /** A steady client is reset and sleeps after its first try. */
  lemma {:induction false} FallAsleep(s: State, es: seq<Timed>, i: nat) returns (fs: seq<Timed>)
    requires Runs(s, es) && i < |After(s, es).slots| && Steady(After(s, es).slots[i])
    requires After(s, es).reconnectEnabled && After(s, es).retries + 1 < PARTITION_RETRY_BUDGET
    ensures Runs(s, fs) && OneSlotMoved(After(s, es), After(s, fs), i, 1) && After(s, fs).slots[i].repair == Sleeping(1)
  {
    fs := ResetAndTrying(s, es, i);
    fs := OneMore(s, fs, RepairFails(i, ConnectFailed), 10);
  }

  lemma {:induction false} AllFallAsleep(s: State, es: seq<Timed>, target: nat, held: nat, r: nat, k: nat) returns (fs: seq<Timed>)
    requires Runs(s, es) && Stage(After(s, es), target, 0, 0, held, r) && k < held && r + k < PARTITION_RETRY_BUDGET
    ensures Runs(s, fs) && Stage(After(s, fs), target, 0, k, held, r + k)
  {
    if k == 0 {
      fs := es;
    } else {
      fs := AllFallAsleep(s, es, target, held, r, k - 1);
      fs := FallAsleep(s, fs, k - 1);
    }
  }

  /** The first `k` slots wake, one after the other, whatever has been spent. */
  lemma {:induction false} AllWake(s: State, es: seq<Timed>, n: nat, k: nat) returns (fs: seq<Timed>)
    requires Runs(s, es) && n <= k <= |After(s, es).slots|
    requires forall i | 0 <= i < k :: After(s, es).slots[i].repair == Sleeping(1)
    ensures Runs(s, fs) && After(s, fs).retries == After(s, es).retries + n && |After(s, fs).slots| == |After(s, es).slots|
    ensures forall i | n <= i < k :: After(s, fs).slots[i].repair == Sleeping(1)
  {
    if n == 0 {
      fs := es;
    } else {
      fs := AllWake(s, es, n - 1, k);
      fs := OneMore(s, fs, RepairWakes(n - 1), 13);
    }
  }

  /** The bound is met at every point: a shard of `target` clients can end over its budget by any `k`
      up to the bound, `k` reconnects having slept at once. */
  lemma {:induction false} EveryOverdraftWithinTheBoundHappens(target: nat, k: nat) returns (es: seq<Timed>)
    requires target > 0 && k <= MostOverdrawn(target)
    ensures Runs(Fresh(target, 0), es) && After(Fresh(target, 0), es).retries == PARTITION_RETRY_BUDGET + k
    ensures After(Fresh(target, 0), es).peakSleepers >= k && WakesOnEmpty(Fresh(target, 0), es) == k
  {
    var s0 := Fresh(target, 0);
    es := HoldAll(target, k + 1);
    es := ReconnectTimes(s0, es, target, k + 1, PARTITION_RETRY_BUDGET - 1 - k);
    es := AllFallAsleep(s0, es, target, k + 1, PARTITION_RETRY_BUDGET - 1 - k, k);
    es := ResetAndTrying(s0, es, k);
    es := AllWake(s0, es, k, k);
    RetriesStayWithinBudgetPlusSleepers(target, 0, es);
    OverdraftIsWakes(s0, es);
  }
}
