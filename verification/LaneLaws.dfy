/** What a settled hold proves about the whole lane, over every interleaving of its shards. */
module LaneLaws {
  import opened Arithmetic
  import opened HoldWindow
  import opened Shard
  import opened LaneHold
  import opened LaneDecision

  ghost predicate Runs(l: Lane, es: seq<LaneEvent>)
    decreases |es|
  {
    es == [] || (CanStep(l, es[0]) && Runs(Step(l, es[0]), es[1..]))
  }

  ghost function After(l: Lane, es: seq<LaneEvent>): Lane
    requires Runs(l, es)
    decreases |es|
  {
    if es == [] then l else After(Step(l, es[0]), es[1..])
  }

  lemma {:induction false} RunInv(l: Lane, es: seq<LaneEvent>)
    requires Inv(l) && Runs(l, es)
    ensures Inv(After(l, es)) && After(l, es).holdStart == l.holdStart
    decreases |es|
  {
    if es != [] {
      StepInv(l, es[0]);
      RunInv(Step(l, es[0]), es[1..]);
    }
  }

  lemma {:induction false} RunTrail(l: Lane, es: seq<LaneEvent>)
    requires Inv(l) && Trail(l) && Runs(l, es)
    ensures Shaped(After(l, es)) && Trail(After(l, es))
    decreases |es|
  {
    if es != [] {
      StepInv(l, es[0]);
      StepTrail(l, es[0]);
      RunTrail(Step(l, es[0]), es[1..]);
    }
  }

  // ---------- a settled hold ----------

  ghost predicate SettlesTimed(l: Lane)
  {
    forall k | 0 <= k < |l.settles| :: l.settles[k].decided.at >= Max(l.holdStart, l.settles[k].latest) + HOLD_NS
  }

  lemma StepSettlesTimed(l: Lane, e: LaneEvent)
    requires SettlesTimed(l) && CanStep(l, e)
    ensures SettlesTimed(Step(l, e))
  {
  }

  lemma {:induction false} RunSettlesTimed(l: Lane, es: seq<LaneEvent>)
    requires Runs(l, es) && SettlesTimed(l)
    ensures SettlesTimed(After(l, es))
    decreases |es|
  {
    if es != [] {
      StepSettlesTimed(l, es[0]);
      RunSettlesTimed(Step(l, es[0]), es[1..]);
    }
  }

  /** Lost to a reconnect task that has not run its first line, or after its own shard had already
      closed its evidence. */
  ghost predicate Excused(seen: Seen, a: nat, i: nat)
    requires a < |seen.shards| && a < |seen.closedAt| && i < |seen.shards[a].slots|
  {
    var x := seen.shards[a].slots[i];
    x.line.Down? && (x.repair.Created? || (seen.closedAt[a].Some? && x.line.at >= seen.closedAt[a].value))
  }

  /** A slot held from `start` up to this moment, or up to a loss that is excused. */
  ghost predicate HeldOrExcused(seen: Seen, start: nat, a: nat, i: nat)
    requires a < |seen.shards| && a < |seen.closedAt| && i < |seen.shards[a].slots|
  {
    var x := seen.shards[a].slots[i];
    x.line.since <= start && (x.line.Up? || Excused(seen, a, i))
  }

  /** Every slot of the lane so. */
  ghost predicate FullSince(seen: Seen, start: nat)
  {
    && |seen.closedAt| == |seen.shards|
    && forall a, i | 0 <= a < |seen.shards| && 0 <= i < |seen.shards[a].slots| :: HeldOrExcused(seen, start, a, i)
  }

  /** The later of the hold's epoch and the latest reconnect when the in-flight count was loaded. */
  function Start(holdStart: nat, r: Settle): nat
  {
    Max(holdStart, r.seen.latest)
  }

  ghost predicate AllComplete(l: Lane)
  {
    forall a | 0 <= a < |l.completed| :: l.completed[a]
  }

  lemma SettleFacts(l0: Lane, es: seq<LaneEvent>, k: nat)
    requires Init(l0) && Runs(l0, es) && k < |After(l0, es).settles|
    ensures var l := After(l0, es); var r := l.settles[k];
      && Inv(l) && l.holdStart == l0.holdStart && SettleOk(l, r) && Followed(l, r.seen, r.decided)
      && r.decided.at >= Max(l0.holdStart, r.latest) + HOLD_NS
  {
    InitInv(l0);
    RunInv(l0, es);
    RunTrail(l0, es);
    RunSettlesTimed(l0, es);
  }

  lemma ExplainedIsFull(l: Lane, seen: Seen)
    requires Shaped(l) && AllComplete(l) && SeenOk(l, seen)
    ensures FullSince(seen, Max(l.holdStart, seen.latest))
  {
    forall a, i | 0 <= a < |seen.shards| && 0 <= i < |seen.shards[a].slots|
      ensures HeldOrExcused(seen, Max(l.holdStart, seen.latest), a, i)
    {
      assert Explained(l, seen, a, i);
    }
  }

  /** Hold safety: if every shard closes complete, then at each settled hold's load of the in-flight
      count every client of every shard had been held without a break from `Start` up to that load,
      but for clients lost with their reconnect not begun and clients lost behind a shard that had
      closed, each held from `Start` up to that loss; and a read that was not stale settled at least
      HOLD_SECONDS after `Start`. */
  lemma ASettledHoldHeldEveryClient(l0: Lane, es: seq<LaneEvent>, k: nat)
    requires Init(l0) && Runs(l0, es) && AllComplete(After(l0, es)) && k < |After(l0, es).settles|
    ensures var l := After(l0, es); var r := l.settles[k]; var start := Start(l0.holdStart, r);
      && |r.seen.shards| == |l.shards|
      && start <= r.seen.at <= r.decided.at
      && FullSince(r.seen, start)
      && (r.latest == r.seen.latest ==> r.decided.at - start >= HOLD_NS)
  {
    SettleFacts(l0, es, k);
    ExplainedIsFull(After(l0, es), After(l0, es).settles[k].seen);
  }

  // ---------- from the load to the decision ----------

  /** The two shared counters are at the decision what they were at the load. */
  predicate CountersStay(r: Settle)
  {
    r.decided.inFlight == 0 && r.decided.latest == r.seen.latest
  }

  /** Between the load and the decision no slot was lost outside the excuses: each client up is the
      client of the load, never lost since, and no reconnect of a lost one has begun. */
  ghost predicate OnlyExcusedLosses(r: Settle)
    requires SameShape(r.seen.shards, r.decided.shards) && |r.decided.closedAt| == |r.decided.shards|
  {
    forall a, i | 0 <= a < |r.seen.shards| && 0 <= i < |r.seen.shards[a].slots| ::
      var x, y := r.seen.shards[a].slots[i], r.decided.shards[a].slots[i];
      y.repaired == x.repaired && ((y.line.Up? && y.line == x.line && y.losses == x.losses) || Excused(r.decided, a, i))
  }

  lemma OnlyExcusedStays(l: Lane, r: Settle)
    requires Shaped(l) && AllComplete(l) && Followed(l, r.seen, r.decided) && OnlyExcusedLosses(r)
    ensures CountersStay(r)
  {
    forall a, i | 0 <= a < |l.shards| && 0 <= i < |l.shards[a].slots| ensures !Moved(l, r.seen, r.decided, a, i) {
      assert l.completed[a];
    }
  }

  /** A slot that has been reconnecting since a load after `start` is not held from `start`. */
  lemma FullHasNotMoved(l: Lane, r: Settle, start: nat)
    requires Shaped(l) && AllComplete(l) && Followed(l, r.seen, r.decided) && FullSince(r.decided, start) && start < r.seen.at
    ensures OnlyExcusedLosses(r)
  {
    forall a, i | 0 <= a < |l.shards| && 0 <= i < |l.shards[a].slots| ensures !Moved(l, r.seen, r.decided, a, i) {
      assert HeldOrExcused(r.decided, start, a, i);
      assert l.completed[a];
    }
    forall a, i | 0 <= a < |r.seen.shards| && 0 <= i < |r.seen.shards[a].slots|
      ensures var x, y := r.seen.shards[a].slots[i], r.decided.shards[a].slots[i];
        y.repaired == x.repaired && ((y.line.Up? && y.line == x.line && y.losses == x.losses) || Excused(r.decided, a, i))
    {
      assert Kept(r.seen.shards[a].slots[i], r.decided.shards[a].slots[i]);
      assert HeldOrExcused(r.decided, start, a, i);
    }
  }

  /** The hold is full up to the decision exactly when no slot was lost after the load outside the
      excuses, and exactly when a second look at the two counters would find them unchanged. A load in
      the very nanosecond of `Start` cannot tell a reconnect in that nanosecond from none. */
  lemma TheHoldIsFullExactlyWhileTheCountersStay(l0: Lane, es: seq<LaneEvent>, k: nat)
    requires Init(l0) && Runs(l0, es) && AllComplete(After(l0, es)) && k < |After(l0, es).settles|
    ensures var l := After(l0, es); var r := l.settles[k]; var start := Start(l0.holdStart, r);
      && SameShape(r.seen.shards, r.decided.shards) && |r.decided.closedAt| == |r.decided.shards| == |l.shards|
      && (OnlyExcusedLosses(r) ==> CountersStay(r))
      && (CountersStay(r) ==> FullSince(r.decided, start))
      && (start < r.seen.at ==> (FullSince(r.decided, start) <==> CountersStay(r)))
      && (start < r.seen.at ==> (FullSince(r.decided, start) <==> OnlyExcusedLosses(r)))
  {
    SettleFacts(l0, es, k);
    var l := After(l0, es);
    var r := l.settles[k];
    var start := Start(l0.holdStart, r);
    if CountersStay(r) {
      ExplainedIsFull(l, r.decided);
    }
    if OnlyExcusedLosses(r) {
      OnlyExcusedStays(l, r);
    }
    if FullSince(r.decided, start) && start < r.seen.at {
      FullHasNotMoved(l, r, start);
    }
  }

  /** With nothing between the load and the decision, in time or in the shards, a read that was not
      stale proves a hold of the full HOLD_SECONDS up to the decision. */
  lemma AnUndisturbedDecisionProvesTheWholeHold(l0: Lane, es: seq<LaneEvent>, k: nat)
    requires Init(l0) && Runs(l0, es) && AllComplete(After(l0, es)) && k < |After(l0, es).settles|
    requires var r := After(l0, es).settles[k]; r.latest == r.seen.latest && (r.seen.at == r.decided.at || r.seen.shards == r.decided.shards)
    ensures var r := After(l0, es).settles[k]; var start := Start(l0.holdStart, r);
      && r.decided.at - start >= HOLD_NS
      && (r.seen.at == r.decided.at ==> FullSince(r.seen, start))
      && (r.seen.shards == r.decided.shards ==> FullSince(r.decided, start))
  {
    ASettledHoldHeldEveryClient(l0, es, k);
    SettleFacts(l0, es, k);
    var l := After(l0, es);
    var r := l.settles[k];
    if r.seen.shards == r.decided.shards {
      forall a, i | 0 <= a < |l.shards| && 0 <= i < |l.shards[a].slots| ensures !Moved(l, r.seen, r.decided, a, i) {
        assert l.completed[a];
      }
      ExplainedIsFull(l, r.decided);
    }
  }

  /** No shard closes complete before the first settle. */
  ghost predicate FirstSettleFirst(l: Lane)
    requires Shaped(l)
  {
    if l.settles == [] then forall a | 0 <= a < |l.completed| :: !l.completed[a]
    else
      var r := l.settles[0];
      && (forall a | 0 <= a < |l.shards| && a < |r.seen.closedAt| :: r.seen.closedAt[a].Some? ==> !l.completed[a])
      && (forall a | 0 <= a < |l.shards| && a < |r.decided.closedAt| :: r.decided.closedAt[a].Some? ==> !l.completed[a])
  }

  lemma SettlesOnlyGrow(l: Lane, e: LaneEvent)
    requires Shaped(l) && CanStep(l, e)
    ensures Step(l, e).settles == l.settles || (e.Decide? && |Step(l, e).settles| == |l.settles| + 1 && Step(l, e).settles[..|l.settles|] == l.settles)
  {
  }

  lemma FirstStays(l: Lane, e: LaneEvent)
    requires Inv(l) && Trail(l) && FirstSettleFirst(l) && CanStep(l, e) && l.settles != []
    ensures Shaped(Step(l, e)) && FirstSettleFirst(Step(l, e))
  {
    var r := l.settles[0];
    assert SettleOk(l, r);
    assert Matches(l, r.seen, r.decided);
    StepPersists(l, e);
    SettlesOnlyGrow(l, e);
    assert Step(l, e).settles[0] == r;
  }

  lemma StepFirstSettle(l: Lane, e: LaneEvent)
    requires Inv(l) && Trail(l) && FirstSettleFirst(l) && CanStep(l, e)
    ensures Shaped(Step(l, e)) && FirstSettleFirst(Step(l, e))
  {
    if l.settles != [] {
      FirstStays(l, e);
    }
  }

  lemma {:induction false} RunFirstSettle(l: Lane, es: seq<LaneEvent>)
    requires Inv(l) && Trail(l) && FirstSettleFirst(l) && Runs(l, es)
    ensures Shaped(After(l, es)) && FirstSettleFirst(After(l, es))
    decreases |es|
  {
    if es != [] {
      StepInv(l, es[0]);
      StepTrail(l, es[0]);
      StepFirstSettle(l, es[0]);
      RunFirstSettle(Step(l, es[0]), es[1..]);
    }
  }

  /** Held from `start` up to this moment, or up to a loss whose reconnect task has not run its first
      line. */
  ghost predicate HeldOrAboutToReconnect(seen: Seen, start: nat)
  {
    forall a, i | 0 <= a < |seen.shards| && 0 <= i < |seen.shards[a].slots| ::
      var x := seen.shards[a].slots[i]; x.line.since <= start && (x.line.Up? || x.repair.Created?)
  }

  lemma FirstSettleOpen(l0: Lane, es: seq<LaneEvent>)
    requires Init(l0) && Runs(l0, es)
    ensures Shaped(After(l0, es)) && FirstSettleFirst(After(l0, es))
  {
    InitInv(l0);
    RunFirstSettle(l0, es);
  }

  /** At the first settle no shard had closed, so the only excuse left is a reconnect that had not run
      its first line: at the load, and at the decision too if the counters stayed. */
  lemma TheFirstSettleHeldEveryClient(l0: Lane, es: seq<LaneEvent>)
    requires Init(l0) && Runs(l0, es) && AllComplete(After(l0, es)) && After(l0, es).settles != []
    ensures var r := After(l0, es).settles[0];
      && HeldOrAboutToReconnect(r.seen, Start(l0.holdStart, r))
      && (CountersStay(r) ==> HeldOrAboutToReconnect(r.decided, Start(l0.holdStart, r)))
  {
    SettleFacts(l0, es, 0);
    FirstSettleOpen(l0, es);
    var l := After(l0, es);
    var r := l.settles[0];
    OnlyOpenShards(l, r.seen);
    if CountersStay(r) {
      OnlyOpenShards(l, r.decided);
    }
  }

  lemma OnlyOpenShards(l: Lane, seen: Seen)
    requires Shaped(l) && AllComplete(l) && SeenOk(l, seen)
    requires forall a | 0 <= a < |l.shards| && a < |seen.closedAt| :: seen.closedAt[a].Some? ==> !l.completed[a]
    ensures HeldOrAboutToReconnect(seen, Max(l.holdStart, seen.latest))
  {
    ExplainedIsFull(l, seen);
    forall a, i | 0 <= a < |seen.shards| && 0 <= i < |seen.shards[a].slots|
      ensures var x := seen.shards[a].slots[i]; x.line.since <= Max(l.holdStart, seen.latest) && (x.line.Up? || x.repair.Created?)
    {
      assert HeldOrExcused(seen, Max(l.holdStart, seen.latest), a, i);
      assert l.completed[a];
    }
  }

  // ---------- stale reads ----------

  /** `e` writes a completion later than the shared latest. */
  ghost predicate Raises(l: Lane, e: LaneEvent)
    requires CanStep(l, e)
  {
    e.WriteLatest? && l.micro[e.j].completed > l.latest
  }

  /** Some reconnect's end raised the latest completion and then dropped its in-flight count. */
  ghost predicate WholeEndWithin(l: Lane, es: seq<LaneEvent>)
    requires Runs(l, es)
    decreases |es|
  {
    es != [] && ((Raises(l, es[0]) && DropCount(es[0].j) in es[1..]) || WholeEndWithin(Step(l, es[0]), es[1..]))
  }

  lemma {:induction false} LatestOnlyGrows(l: Lane, es: seq<LaneEvent>)
    requires Runs(l, es)
    ensures After(l, es).latest >= l.latest
    decreases |es|
  {
    if es != [] {
      LatestOnlyGrows(Step(l, es[0]), es[1..]);
    }
  }

  lemma {:induction false} ADropHappens(l: Lane, es: seq<LaneEvent>, a: nat)
    requires Inv(l) && Runs(l, es) && a < |l.micro| && l.micro[a].Dropping? && After(l, es).inFlight == 0
    ensures DropCount(a) in es
    decreases |es|
  {
    if es == [] {
      NoneInFlight(l);
    } else if es[0] != DropCount(a) {
      StepInv(l, es[0]);
      DroppingStays(l, es[0], a);
      ADropHappens(Step(l, es[0]), es[1..], a);
    }
  }

  lemma DroppingStays(l: Lane, e: LaneEvent, a: nat)
    requires Shaped(l) && CanStep(l, e) && a < |l.micro| && l.micro[a].Dropping? && e != DropCount(a)
    ensures a < |Step(l, e).micro| && Step(l, e).micro[a].Dropping?
  {
  }

  /** Between a reader's two loads, with none in flight at the second: the latest completion it loaded
      first has gone stale exactly when a whole end() fell between them. */
  lemma {:induction false} AReadIsStaleExactlyWhenAnEndFallsBetweenItsLoads(l: Lane, es: seq<LaneEvent>)
    requires Inv(l) && Runs(l, es) && After(l, es).inFlight == 0
    ensures After(l, es).latest != l.latest <==> WholeEndWithin(l, es)
    decreases |es|
  {
    if es != [] {
      var next := Step(l, es[0]);
      StepInv(l, es[0]);
      AReadIsStaleExactlyWhenAnEndFallsBetweenItsLoads(next, es[1..]);
      LatestOnlyGrows(next, es[1..]);
      if Raises(l, es[0]) {
        ADropHappens(next, es[1..], es[0].j);
      } else {
        assert next.latest == l.latest;
      }
    }
  }

  /** With the loads swapped the latest completion is never stale: loaded any time after an in-flight
      count of zero, it dates every client that was up when that zero was loaded. */
  lemma SwappedLoadsAreNeverStale(l: Lane, es: seq<LaneEvent>)
    requires Inv(l) && l.inFlight == 0 && Runs(l, es)
    ensures forall a, i | 0 <= a < |l.shards| && 0 <= i < |l.shards[a].slots| && l.shards[a].slots[i].line.Up? ::
              l.shards[a].slots[i].line.since <= Max(l.holdStart, After(l, es).latest)
  {
    LatestOnlyGrows(l, es);
    NoneInFlight(l);
    forall a, i | 0 <= a < |l.shards| && 0 <= i < |l.shards[a].slots| && l.shards[a].slots[i].line.Up?
      ensures l.shards[a].slots[i].line.since <= Max(l.holdStart, After(l, es).latest)
    {
      assert Dated(l, a, l.shards[a].slots[i]);
    }
  }
}
