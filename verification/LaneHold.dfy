/** A lane's shards in their shared hold. Each shard is a process of its own; its accesses to the two
    shared counters (the latest reconnect, the reconnects in flight) interleave with the others'. */
module LaneHold {
  import opened Arithmetic
  import opened Wrappers
  import opened HoldWindow
  import opened Shard
  import SL = ShardLaws

  /** The lane at one moment `at`: every shard, which had closed, and the two shared counters. */
  datatype Seen = Seen(shards: seq<State>, closedAt: seq<Option<nat>>, latest: nat, inFlight: int, at: nat)

  /** A shard inside one of the window's calls: writing its completion, then dropping its in-flight
      count; or having loaded the latest completion, then the count as well, with the lane as it was at
      that second load. */
  datatype Micro =
    | Free
    | Writing(completed: nat)
    | Dropping
    | Loaded(latest: nat)
    | LoadedBoth(latest: nat, seen: Seen)

  /** One shard's decision that its hold is over: the latest completion it had loaded, the lane when it
      loaded the in-flight count, and the lane when it decided. */
  datatype Settle = Settle(shard: nat, latest: nat, seen: Seen, decided: Seen)

  datatype Lane = Lane(
    shards: seq<State>, micro: seq<Micro>, latest: nat, inFlight: int, clock: nat, holdStart: nat,
    closedAt: seq<Option<nat>>, completed: seq<bool>, settles: seq<Settle>)

  datatype LaneEvent =
    | Tick(ns: nat)
    | Local(j: nat, event: Event)
    | WriteLatest(j: nat)
    | DropCount(j: nat)
    | LoadLatest(j: nat)
    | LoadInFlight(j: nat)
    | Decide(j: nat)
    | Close(j: nat, samplesOk: bool)

  function Snapshot(l: Lane): Seen
  {
    Seen(l.shards, l.closedAt, l.latest, l.inFlight, l.clock)
  }

  predicate OfTheHold(e: Event)
  {
    e.Lost? || e.RepairBegins? || e.RepairReady? || e.RepairCounted? || e.RepairFails? || e.RepairWakes?
  }

  predicate InRange(l: Lane, j: nat)
  {
    j < |l.shards| && j < |l.micro| && j < |l.closedAt| && j < |l.completed|
  }

  predicate CanStep(l: Lane, e: LaneEvent)
  {
    match e
    case Tick(ns) => ns > 0
    case Local(j, event) => InRange(l, j) && l.micro[j].Free? && OfTheHold(event) && Enabled(l.shards[j], event)
    case WriteLatest(j) => InRange(l, j) && l.micro[j].Writing?
    case DropCount(j) => InRange(l, j) && l.micro[j].Dropping?
    case LoadLatest(j) => InRange(l, j) && l.micro[j].Free? && l.closedAt[j].None?
    case LoadInFlight(j) => InRange(l, j) && l.micro[j].Loaded?
    case Decide(j) => InRange(l, j) && l.micro[j].LoadedBoth?
    case Close(j, _) => InRange(l, j) && l.micro[j].Free? && l.closedAt[j].None?
  }

  /** The window call that ends an event: a reconnect that finished writes when it completed (if it
      did) and drops its in-flight count. */
  function EndsWith(s: State, event: Event, now: nat): Micro
    requires Enabled(s, event) && OfTheHold(event)
  {
    if event.RepairCounted? then Writing(now)
    else if (event.RepairBegins? || event.RepairFails?) && !Begun(SlotAfter(s, event, now, event.i).repair) then Dropping
    else Free
  }

  ghost function Step(l: Lane, e: LaneEvent): Lane
    requires CanStep(l, e)
  {
    match e
    case Tick(ns) => l.(clock := l.clock + ns)
    case Local(j, event) =>
      l.(shards := l.shards[j := Next(l.shards[j], event, l.clock)],
         inFlight := l.inFlight + One(event.RepairBegins?),
         micro := l.micro[j := EndsWith(l.shards[j], event, l.clock)])
    case WriteLatest(j) => l.(latest := Max(l.latest, l.micro[j].completed), micro := l.micro[j := Dropping])
    case DropCount(j) => l.(inFlight := l.inFlight - 1, micro := l.micro[j := Free])
    case LoadLatest(j) => l.(micro := l.micro[j := Loaded(l.latest)])
    case LoadInFlight(j) =>
      l.(micro := l.micro[j := LoadedBoth(l.micro[j].latest, Snapshot(l))])
    case Decide(j) =>
      var m := l.micro[j];
      var l' := l.(micro := l.micro[j := Free]);
      if m.seen.inFlight == 0 && l.clock >= Max(l.holdStart, m.latest) + HOLD_NS then
        l'.(settles := l.settles + [Settle(j, m.latest, m.seen, Snapshot(l))])
      else if l.clock >= l.holdStart + HOLD_NS + HOLD_RESTART_LIMIT_NS then
        l'.(shards := l.shards[j := Terminal(l.shards[j], HoldRestartUnsettled)])
      else l'
    case Close(j, samplesOk) =>
      l.(shards := l.shards[j := Next(l.shards[j], StopRepairs, l.clock)],
         closedAt := l.closedAt[j := Some(l.clock)],
         completed := l.completed[j := samplesOk && CountsComplete(l.shards[j]) && exists s :: s in l.settles && s.shard == j])
  }

  // ---------- the in-flight count ----------

  /** A shard's share of the in-flight count: its reconnects begun, and one it is about to drop. */
  function Share(s: State, m: Micro): int
  {
    Sum(s.slots).begun + One(m.Writing? || m.Dropping?)
  }

  function Shares(l: Lane): (shares: seq<int>)
    requires |l.micro| == |l.shards|
    ensures |shares| == |l.shards|
  {
    seq(|l.shards|, j requires 0 <= j < |l.shards| => Share(l.shards[j], l.micro[j]))
  }

  // ---------- what every step keeps ----------

  ghost predicate Shaped(l: Lane)
  {
    |l.micro| == |l.closedAt| == |l.completed| == |l.shards|
  }

  /** A shard in the hold: its books, every client counted at the gate. */
  ghost predicate ShardInHold(s: State)
  {
    Books(s) && forall i | 0 <= i < |s.slots| :: s.slots[i].login.Counted?
  }

  /** A connection came up no later than the lane's latest reconnect, unless its own reconnect has
      still to say so; one lost before any new reconnect began had come up no later than that. */
  ghost predicate Dated(l: Lane, j: nat, x: Slot)
    requires j < |l.micro|
  {
    && (x.line.Up? ==>
          && x.line.since <= l.clock
          && (x.line.since <= Max(l.holdStart, l.latest) || x.repair.Back? || (l.micro[j].Writing? && x.line.since <= l.micro[j].completed)))
    && (x.repair.Created? ==> x.line.since <= Max(l.holdStart, l.latest))
  }

  /** A shard that closed complete: no reconnects, and every loss came after, of a client that had
      been up since no later than the latest reconnect. */
  ghost predicate ClosedComplete(l: Lane, j: nat)
    requires j < |l.shards| && j < |l.closedAt| && j < |l.completed|
  {
    l.completed[j] ==>
      l.closedAt[j].Some? && forall i | 0 <= i < |l.shards[j].slots| ::
        var x := l.shards[j].slots[i];
        x.repair.Idle? && (x.line.Down? ==> x.line.at >= l.closedAt[j].value && x.line.since <= Max(l.holdStart, l.latest))
  }

  /** What a reader that saw none in flight saw of one slot: held since before the hold it counts; or
      lost, with its reconnect not begun; or lost after its shard closed complete; or lost for good,
      so that its shard cannot complete. */
  ghost predicate Explained(l: Lane, seen: Seen, a: nat, i: nat)
    requires Shaped(l) && a < |seen.shards| == |l.shards| && |seen.closedAt| == |l.shards| && i < |seen.shards[a].slots|
  {
    var x := seen.shards[a].slots[i];
    || (x.line.Up? && x.line.since <= Max(l.holdStart, seen.latest))
    || (x.repair.Created? && x.line.Down? && x.line.since <= Max(l.holdStart, seen.latest))
    || (seen.closedAt[a].Some? && x.line.Down? &&
          (l.completed[a] ==> x.line.at >= seen.closedAt[a].value && x.line.since <= Max(l.holdStart, seen.latest)))
    || (seen.closedAt[a].None? && !l.completed[a] && i < |l.shards[a].slots| && Broken(l.shards[a].slots[i]))
  }

  ghost predicate SeenOk(l: Lane, seen: Seen)
    requires Shaped(l)
  {
    && |seen.shards| == |seen.closedAt| == |l.shards|
    && seen.latest <= seen.at && l.holdStart <= seen.at <= l.clock
    && (forall a, i | 0 <= a < |l.shards| && 0 <= i < |seen.shards[a].slots| :: Explained(l, seen, a, i))
    && (forall a | 0 <= a < |l.shards| :: seen.closedAt[a].Some? ==> l.closedAt[a] == seen.closedAt[a])
  }

  ghost predicate MicroOk(l: Lane, m: Micro)
    requires Shaped(l)
  {
    && (m.Writing? ==> m.completed <= l.clock)
    && (m.LoadedBoth? && m.seen.inFlight == 0 ==> SeenOk(l, m.seen))
  }

  ghost predicate SettleOk(l: Lane, r: Settle)
    requires Shaped(l)
  {
    SeenOk(l, r.seen) && (r.decided.inFlight == 0 ==> SeenOk(l, r.decided))
  }

  ghost predicate Core(l: Lane)
    requires Shaped(l)
  {
    && l.holdStart <= l.clock && l.latest <= l.clock
    && l.inFlight == Total(Shares(l))
    && (forall j | 0 <= j < |l.shards| :: ShardInHold(l.shards[j]))
    && (forall j | 0 <= j < |l.shards| :: l.closedAt[j].None? ==> !l.completed[j])
    && (forall j | 0 <= j < |l.shards| :: l.closedAt[j].None? <==> l.shards[j].reconnectEnabled)
    && (forall j | 0 <= j < |l.shards| :: l.closedAt[j].Some? ==> l.closedAt[j].value <= l.clock)
  }

  ghost predicate AllDated(l: Lane)
    requires Shaped(l)
  {
    forall j, i | 0 <= j < |l.shards| && 0 <= i < |l.shards[j].slots| :: Dated(l, j, l.shards[j].slots[i])
  }

  ghost predicate AllClosed(l: Lane)
    requires Shaped(l)
  {
    forall j | 0 <= j < |l.shards| :: ClosedComplete(l, j)
  }

  /** All snapshots a lane keeps are explained. */
  ghost predicate Snapshots(l: Lane)
    requires Shaped(l)
  {
    && (forall j | 0 <= j < |l.micro| :: MicroOk(l, l.micro[j]))
    && (forall k | 0 <= k < |l.settles| :: SettleOk(l, l.settles[k]))
  }

  ghost predicate Inv(l: Lane)
  {
    Shaped(l) && Core(l) && AllDated(l) && AllClosed(l) && Snapshots(l)
  }

  /** The start of a hold: every client counted and up by now, though some may since have been lost,
      their reconnects begun, or just ended and not yet told to the lane. */
  ghost predicate Init(l: Lane)
  {
    && Shaped(l)
    && l.clock == l.holdStart && l.latest <= l.clock
    && l.inFlight == Total(Shares(l))
    && l.settles == []
    && (forall j | 0 <= j < |l.shards| ::
          && ShardInHold(l.shards[j]) && l.shards[j].reconnectEnabled
          && (l.micro[j].Free? || l.micro[j].Dropping? || (l.micro[j].Writing? && l.micro[j].completed <= l.clock))
          && l.closedAt[j].None? && !l.completed[j]
          && forall i | 0 <= i < |l.shards[j].slots| :: l.shards[j].slots[i].line.since <= l.clock)
  }

  lemma InitInv(l: Lane)
    requires Init(l)
    ensures Inv(l)
  {
  }

  // ---------- one shard's event ----------

  lemma HoldEvent(s: State, e: Event, now: nat)
    requires ShardInHold(s) && Enabled(s, e) && OfTheHold(e)
    ensures var s' := Next(s, e, now);
      && ShardInHold(s')
      && e.i < |s.slots| == |s'.slots| && s'.slots == s.slots[e.i := s'.slots[e.i]]
      && s'.reconnectEnabled == s.reconnectEnabled
      && Sum(s'.slots).begun == Sum(s.slots).begun - One(Begun(s.slots[e.i].repair)) + One(Begun(s'.slots[e.i].repair))
  {
    var s' := Next(s, e, now);
    HoldEventMoves(s, e, now);
    StepKeepsBooks(s, e, now);
    SumOfUpdate(s.slots, e.i, s'.slots[e.i]);
  }

  lemma HoldEventMoves(s: State, e: Event, now: nat)
    requires ShardInHold(s) && Enabled(s, e) && OfTheHold(e)
    ensures OneSlot(s, Next(s, e, now), e.i)
  {
    assert s.slots[e.i] in s.slots;
    EventMoves(s, e, now);
  }

  /** What an event of the hold does to its slot, and with what window call it ends. */
  predicate HoldSlot(x: Slot, y: Slot, m: Micro, begins: bool, enabled: bool, now: nat)
  {
    && One(begins) + One(Begun(x.repair)) == One(Begun(y.repair)) + One(m.Writing? || m.Dropping?)
    && !m.Loaded? && !m.LoadedBoth? && (m.Writing? ==> m.completed == now)
    && (y.line.Up? ==> y.line == x.line || (y.line.since == now && y.repair.Back?))
    && (y.line.Up? && x.repair.Back? && !y.repair.Back? ==> m.Writing?)
    && (y.line.Down? ==> y.line == x.line || (x.line.Up? && y.line == Down(now, x.line.since)))
    && (y.repair.Created? ==> x.line.Up? && x.repair.Idle?)
    && !Broken(x)
    && (x.repair.Idle? && !enabled ==> y.repair.Idle?)
  }

  lemma RepairFailsSlot(s: State, e: Event, now: nat)
    requires Enabled(s, e) && e.RepairFails? && SlotOk(s.slots[e.i])
    ensures HoldSlot(s.slots[e.i], SlotAfter(s, e, now, e.i), EndsWith(s, e, now), false, s.reconnectEnabled, now)
  {
  }

  lemma HoldEventSlot(s: State, e: Event, now: nat)
    requires ShardInHold(s) && Enabled(s, e) && OfTheHold(e)
    ensures HoldSlot(s.slots[e.i], SlotAfter(s, e, now, e.i), EndsWith(s, e, now), e.RepairBegins?, s.reconnectEnabled, now)
  {
    assert SlotOk(s.slots[e.i]) by { assert s.slots[e.i] in s.slots; }
    if e.RepairFails? { RepairFailsSlot(s, e, now); }
  }

  // ---------- each step keeps the invariant ----------

  /** Snapshots stay explained while no slot lost for good recovers and no shard closes. */
  lemma SeenFrame(l: Lane, l': Lane, seen: Seen)
    requires Shaped(l) && Shaped(l') && |l'.shards| == |l.shards| && SeenOk(l, seen)
    requires l'.holdStart == l.holdStart && l'.completed == l.completed && l'.closedAt == l.closedAt && l'.clock >= l.clock
    requires forall a, i | 0 <= a < |l.shards| && 0 <= i < |l.shards[a].slots| && Broken(l.shards[a].slots[i]) ::
               i < |l'.shards[a].slots| && Broken(l'.shards[a].slots[i])
    ensures SeenOk(l', seen)
  {
    forall a, i | 0 <= a < |l.shards| && 0 <= i < |seen.shards[a].slots| ensures Explained(l', seen, a, i) {
      assert Explained(l, seen, a, i);
    }
  }

  lemma SettleFrame(l: Lane, l': Lane, r: Settle)
    requires Shaped(l) && Shaped(l') && |l'.shards| == |l.shards| && SettleOk(l, r)
    requires l'.holdStart == l.holdStart && l'.completed == l.completed && l'.closedAt == l.closedAt && l'.clock >= l.clock
    requires forall a, i | 0 <= a < |l.shards| && 0 <= i < |l.shards[a].slots| && Broken(l.shards[a].slots[i]) ::
               i < |l'.shards[a].slots| && Broken(l'.shards[a].slots[i])
    ensures SettleOk(l', r)
  {
    SeenFrame(l, l', r.seen);
    if r.decided.inFlight == 0 {
      SeenFrame(l, l', r.decided);
    }
  }

  lemma SnapshotsFrame(l: Lane, l': Lane)
    requires Shaped(l) && Shaped(l') && |l'.shards| == |l.shards| && Snapshots(l)
    requires l'.holdStart == l.holdStart && l'.completed == l.completed && l'.closedAt == l.closedAt
    requires l'.clock >= l.clock && l'.settles == l.settles
    requires forall j | 0 <= j < |l.micro| :: l'.micro[j] == l.micro[j] || (!l'.micro[j].LoadedBoth? && (l'.micro[j].Writing? ==> l'.micro[j].completed <= l'.clock))
    requires forall a, i | 0 <= a < |l.shards| && 0 <= i < |l.shards[a].slots| && Broken(l.shards[a].slots[i]) ::
               i < |l'.shards[a].slots| && Broken(l'.shards[a].slots[i])
    ensures Snapshots(l')
  {
    forall j | 0 <= j < |l'.micro| ensures MicroOk(l', l'.micro[j]) {
      assert MicroOk(l, l.micro[j]);
      if l'.micro[j] == l.micro[j] && l.micro[j].LoadedBoth? && l.micro[j].seen.inFlight == 0 {
        SeenFrame(l, l', l.micro[j].seen);
      }
    }
    forall k | 0 <= k < |l'.settles| ensures SettleOk(l', l'.settles[k]) {
      SettleFrame(l, l', l.settles[k]);
    }
  }

  lemma TickInv(l: Lane, ns: nat)
    requires Inv(l) && CanStep(l, Tick(ns))
    ensures Inv(Step(l, Tick(ns)))
  {
    var l' := Step(l, Tick(ns));
    SnapshotsFrame(l, l');
    assert Shares(l') == Shares(l);
    forall j, i | 0 <= j < |l'.shards| && 0 <= i < |l'.shards[j].slots| ensures Dated(l', j, l'.shards[j].slots[i]) {
      assert Dated(l, j, l.shards[j].slots[i]);
    }
    forall j | 0 <= j < |l'.shards| ensures ClosedComplete(l', j) {
      assert ClosedComplete(l, j);
    }
  }

  /** The facts about an event of the hold that its lane needs. */
  ghost predicate LocalFacts(l: Lane, l': Lane, j: nat, i: nat)
  {
    && Shaped(l) && Shaped(l') && j < |l.shards| == |l'.shards|
    && l' == l.(shards := l'.shards, micro := l'.micro, inFlight := l'.inFlight)
    && l'.shards == l.shards[j := l'.shards[j]] && l'.micro == l.micro[j := l'.micro[j]]
    && l.micro[j].Free? && !l'.micro[j].Loaded? && !l'.micro[j].LoadedBoth?
    && (l'.micro[j].Writing? ==> l'.micro[j].completed == l.clock)
    && ShardInHold(l'.shards[j]) && l'.shards[j].reconnectEnabled == l.shards[j].reconnectEnabled
    && i < |l.shards[j].slots| == |l'.shards[j].slots|
    && l'.shards[j].slots == l.shards[j].slots[i := l'.shards[j].slots[i]]
    && var x, y := l.shards[j].slots[i], l'.shards[j].slots[i];
      && l'.inFlight - l.inFlight == Share(l'.shards[j], l'.micro[j]) - Share(l.shards[j], l.micro[j])
      && (y.line.Up? ==> y.line == x.line || (y.line.since == l.clock && y.repair.Back?))
      && (y.line.Up? && x.repair.Back? && !y.repair.Back? ==> l'.micro[j].Writing?)
      && (y.line.Down? ==> y.line == x.line || (x.line.Up? && y.line == Down(l.clock, x.line.since)))
      && (y.repair.Created? ==> x.line.Up? && x.repair.Idle?)
      && !Broken(x)
      && (x.repair.Idle? && !l.shards[j].reconnectEnabled ==> y.repair.Idle?)
  }

  lemma LocalIsLocal(l: Lane, j: nat, e: Event)
    requires Inv(l) && CanStep(l, Local(j, e))
    ensures LocalFacts(l, Step(l, Local(j, e)), j, e.i)
  {
    HoldEvent(l.shards[j], e, l.clock);
    HoldEventSlot(l.shards[j], e, l.clock);
    LocalShare(l.shards[j], e, l.clock);
  }

  lemma LocalShare(s: State, e: Event, now: nat)
    requires ShardInHold(s) && Enabled(s, e) && OfTheHold(e)
    ensures Share(Next(s, e, now), EndsWith(s, e, now)) == Share(s, Free) + One(e.RepairBegins?)
  {
    HoldEvent(s, e, now);
    HoldEventSlot(s, e, now);
  }

  lemma LocalDated(l: Lane, l': Lane, j: nat, i: nat, a: nat, k: nat)
    requires Inv(l) && LocalFacts(l, l', j, i) && a < |l'.shards| && k < |l'.shards[a].slots|
    ensures Dated(l', a, l'.shards[a].slots[k])
  {
    assert Dated(l, a, l.shards[a].slots[k]);
  }

  lemma LocalClosed(l: Lane, l': Lane, j: nat, i: nat)
    requires Inv(l) && LocalFacts(l, l', j, i)
    ensures ClosedComplete(l', j)
  {
    assert ClosedComplete(l, j);
  }

  lemma LocalInv(l: Lane, j: nat, e: Event)
    requires Inv(l) && CanStep(l, Local(j, e))
    ensures Inv(Step(l, Local(j, e)))
  {
    LocalIsLocal(l, j, e);
    LocalFactsInv(l, Step(l, Local(j, e)), j, e.i);
  }

  lemma LocalFactsInv(l: Lane, l': Lane, j: nat, i: nat)
    requires Inv(l) && LocalFacts(l, l', j, i)
    ensures Inv(l')
  {
    LocalCore(l, l', j, i);
    SnapshotsFrame(l, l');
    forall a, k | 0 <= a < |l'.shards| && 0 <= k < |l'.shards[a].slots| ensures Dated(l', a, l'.shards[a].slots[k]) {
      LocalDated(l, l', j, i, a, k);
    }
    forall a | 0 <= a < |l'.shards| ensures ClosedComplete(l', a) {
      assert ClosedComplete(l, a);
      if a == j {
        LocalClosed(l, l', j, i);
      }
    }
  }

  lemma LocalCore(l: Lane, l': Lane, j: nat, i: nat)
    requires Inv(l) && LocalFacts(l, l', j, i)
    ensures Core(l')
  {
    assert Shares(l') == Shares(l)[j := Share(l'.shards[j], l'.micro[j])];
    TotalOfUpdate(Shares(l), j, Share(l'.shards[j], l'.micro[j]));
    forall a | 0 <= a < |l'.shards| ensures ShardInHold(l'.shards[a]) && l'.shards[a].reconnectEnabled == l.shards[a].reconnectEnabled {
      assert a != j ==> l'.shards[a] == l.shards[a];
    }
  }

  lemma WriteInv(l: Lane, j: nat)
    requires Inv(l) && CanStep(l, WriteLatest(j))
    ensures Inv(Step(l, WriteLatest(j)))
  {
    var l' := Step(l, WriteLatest(j));
    assert MicroOk(l, l.micro[j]);
    assert Shares(l') == Shares(l);
    SnapshotsFrame(l, l');
    forall a, i | 0 <= a < |l'.shards| && 0 <= i < |l'.shards[a].slots| ensures Dated(l', a, l'.shards[a].slots[i]) {
      assert Dated(l, a, l.shards[a].slots[i]);
    }
    forall a | 0 <= a < |l'.shards| ensures ClosedComplete(l', a) {
      assert ClosedComplete(l, a);
    }
  }

  lemma MicroOnlyInv(l: Lane, l': Lane, j: nat)
    requires Inv(l) && InRange(l, j)
    requires l' == l.(micro := l'.micro, inFlight := l'.inFlight) && j < |l'.micro| && l'.micro == l.micro[j := l'.micro[j]]
    requires !l.micro[j].Writing? && !l'.micro[j].Writing? && !l'.micro[j].Dropping?
    requires l'.inFlight == l.inFlight - One(l.micro[j].Dropping?)
    requires MicroOk(l', l'.micro[j])
    ensures Inv(l')
  {
    assert Shares(l') == Shares(l)[j := Share(l.shards[j], l'.micro[j])];
    TotalOfUpdate(Shares(l), j, Share(l.shards[j], l'.micro[j]));
    forall a, i | 0 <= a < |l'.shards| && 0 <= i < |l'.shards[a].slots| ensures Dated(l', a, l'.shards[a].slots[i]) {
      assert Dated(l, a, l.shards[a].slots[i]);
    }
    forall a | 0 <= a < |l'.shards| ensures ClosedComplete(l', a) {
      assert ClosedComplete(l, a);
    }
    forall a | 0 <= a < |l'.micro| ensures MicroOk(l', l'.micro[a]) {
      assert MicroOk(l, l.micro[a]);
      if l.micro[a].LoadedBoth? && l.micro[a].seen.inFlight == 0 {
        SeenFrame(l, l', l.micro[a].seen);
      }
    }
    forall k | 0 <= k < |l'.settles| ensures SettleOk(l', l'.settles[k]) {
      SettleFrame(l, l', l.settles[k]);
    }
  }

  /** With none in flight, no shard has begun a reconnect it has not ended. */
  lemma NoneInFlight(l: Lane)
    requires Inv(l) && l.inFlight == 0
    ensures forall a | 0 <= a < |l.shards| :: !l.micro[a].Writing? && !l.micro[a].Dropping?
    ensures forall a, i | 0 <= a < |l.shards| && 0 <= i < |l.shards[a].slots| :: !Begun(l.shards[a].slots[i].repair)
  {
    forall a | 0 <= a < |l.shards| ensures Shares(l)[a] >= 0 {
      SumBounds(l.shards[a].slots);
    }
    TotalOfNaturals(Shares(l));
    forall a | 0 <= a < |l.shards|
      ensures !l.micro[a].Writing? && !l.micro[a].Dropping?
      ensures forall i | 0 <= i < |l.shards[a].slots| :: !Begun(l.shards[a].slots[i].repair)
    {
      assert Shares(l)[a] == 0;
      SumBounds(l.shards[a].slots);
    }
  }

  /** What a reader sees when it loads an in-flight count of zero is explained. */
  lemma ZeroInFlightExplained(l: Lane)
    requires Inv(l) && l.inFlight == 0
    ensures SeenOk(l, Snapshot(l))
  {
    NoneInFlight(l);
    var seen := Snapshot(l);
    forall a, i | 0 <= a < |l.shards| && 0 <= i < |seen.shards[a].slots| ensures Explained(l, seen, a, i) {
      var x := l.shards[a].slots[i];
      assert Dated(l, a, x);
      assert ClosedComplete(l, a);
      assert x in l.shards[a].slots;
      assert SlotOk(x);
      assert !Begun(x.repair);
    }
  }

  lemma LoadInFlightInv(l: Lane, j: nat)
    requires Inv(l) && CanStep(l, LoadInFlight(j))
    ensures Inv(Step(l, LoadInFlight(j)))
  {
    var l' := Step(l, LoadInFlight(j));
    var seen := Snapshot(l);
    if l.inFlight == 0 {
      ZeroInFlightExplained(l);
      SeenFrame(l, l', seen);
    }
    MicroOnlyInv(l, l', j);
  }

  lemma SettleInv(l: Lane, r: Settle)
    requires Inv(l) && SettleOk(l, r)
    ensures Inv(l.(settles := l.settles + [r]))
  {
    var l' := l.(settles := l.settles + [r]);
    assert Shares(l') == Shares(l);
    SettleSnapshots(l, r);
    forall a, i | 0 <= a < |l'.shards| && 0 <= i < |l'.shards[a].slots| ensures Dated(l', a, l'.shards[a].slots[i]) {
      assert Dated(l, a, l.shards[a].slots[i]);
    }
    forall a | 0 <= a < |l'.shards| ensures ClosedComplete(l', a) {
      assert ClosedComplete(l, a);
    }
  }

  lemma SettleSnapshots(l: Lane, r: Settle)
    requires Inv(l) && SettleOk(l, r)
    ensures Snapshots(l.(settles := l.settles + [r]))
  {
    var l' := l.(settles := l.settles + [r]);
    SettleFrame(l, l', r);
    forall k | 0 <= k < |l'.settles| ensures SettleOk(l', l'.settles[k]) {
      if k < |l.settles| {
        SettleFrame(l, l', l.settles[k]);
      }
    }
    forall a | 0 <= a < |l'.micro| ensures MicroOk(l', l'.micro[a]) {
      assert MicroOk(l, l.micro[a]);
      if l.micro[a].LoadedBoth? && l.micro[a].seen.inFlight == 0 {
        SeenFrame(l, l', l.micro[a].seen);
      }
    }
  }

  lemma DecideInv(l: Lane, j: nat)
    requires Inv(l) && CanStep(l, Decide(j))
    ensures Inv(Step(l, Decide(j)))
  {
    var m := l.micro[j];
    var l1 := l.(micro := l.micro[j := Free]);
    MicroOnlyInv(l, l1, j);
    if m.seen.inFlight == 0 && l.clock >= Max(l.holdStart, m.latest) + HOLD_NS {
      assert MicroOk(l, m);
      if l.inFlight == 0 {
        ZeroInFlightExplained(l);
      }
      var r := Settle(j, m.latest, m.seen, Snapshot(l));
      SettleFrame(l, l1, r);
      SettleInv(l1, r);
    } else if l.clock >= l.holdStart + HOLD_NS + HOLD_RESTART_LIMIT_NS {
      TerminalInv(l1, j);
    }
  }

  lemma TerminalDates(l: Lane, j: nat)
    requires Inv(l) && InRange(l, j)
    ensures var l' := l.(shards := l.shards[j := Terminal(l.shards[j], HoldRestartUnsettled)]);
      forall a, i | 0 <= a < |l'.shards| && 0 <= i < |l'.shards[a].slots| :: Dated(l', a, l'.shards[a].slots[i])
  {
    var l' := l.(shards := l.shards[j := Terminal(l.shards[j], HoldRestartUnsettled)]);
    forall a, i | 0 <= a < |l'.shards| && 0 <= i < |l'.shards[a].slots| ensures Dated(l', a, l'.shards[a].slots[i]) {
      assert Dated(l, a, l.shards[a].slots[i]);
    }
  }

  lemma TerminalKeeps(s: State, code: Code)
    requires ShardInHold(s)
    ensures var s' := Terminal(s, code); ShardInHold(s') && s'.slots == s.slots && s'.reconnectEnabled == s.reconnectEnabled
  {
  }

  lemma TerminalCore(l: Lane, j: nat)
    requires Inv(l) && InRange(l, j)
    ensures Core(l.(shards := l.shards[j := Terminal(l.shards[j], HoldRestartUnsettled)]))
  {
    var l' := l.(shards := l.shards[j := Terminal(l.shards[j], HoldRestartUnsettled)]);
    TerminalKeeps(l.shards[j], HoldRestartUnsettled);
    assert Shares(l') == Shares(l);
    forall a | 0 <= a < |l'.shards| ensures ShardInHold(l'.shards[a]) {
      assert a != j ==> l'.shards[a] == l.shards[a];
    }
  }

  lemma TerminalInv(l: Lane, j: nat)
    requires Inv(l) && InRange(l, j)
    ensures Inv(l.(shards := l.shards[j := Terminal(l.shards[j], HoldRestartUnsettled)]))
  {
    var l' := l.(shards := l.shards[j := Terminal(l.shards[j], HoldRestartUnsettled)]);
    TerminalCore(l, j);
    TerminalKeeps(l.shards[j], HoldRestartUnsettled);
    SnapshotsFrame(l, l');
    TerminalDates(l, j);
    forall a | 0 <= a < |l'.shards| ensures ClosedComplete(l', a) {
      assert ClosedComplete(l, a);
    }
  }

  /** Closing: a shard with a slot lost for good does not close complete. */
  lemma CloseSeen(l: Lane, j: nat, samplesOk: bool, seen: Seen)
    requires Inv(l) && CanStep(l, Close(j, samplesOk)) && SeenOk(l, seen)
    ensures SeenOk(Step(l, Close(j, samplesOk)), seen)
  {
    var l' := Step(l, Close(j, samplesOk));
    forall a, i | 0 <= a < |l.shards| && 0 <= i < |seen.shards[a].slots| ensures Explained(l', seen, a, i) {
      assert Explained(l, seen, a, i);
      if a == j && l'.completed[j] {
        SL.CompleteCountsForceEveryClientHeld(l.shards[j]);
      }
    }
  }

  lemma StopKeeps(s: State, now: nat)
    requires ShardInHold(s)
    ensures var s' := Next(s, StopRepairs, now); ShardInHold(s') && s'.slots == s.slots && !s'.reconnectEnabled
  {
  }

  lemma CloseCore(l: Lane, j: nat, samplesOk: bool)
    requires Inv(l) && CanStep(l, Close(j, samplesOk))
    ensures Core(Step(l, Close(j, samplesOk)))
  {
    var l' := Step(l, Close(j, samplesOk));
    StopKeeps(l.shards[j], l.clock);
    assert l'.shards == l.shards[j := Next(l.shards[j], StopRepairs, l.clock)];
    assert Shares(l') == Shares(l);
    assert l'.closedAt == l.closedAt[j := Some(l.clock)] && l'.clock == l.clock;
    forall a | 0 <= a < |l'.shards| ensures ShardInHold(l'.shards[a]) && (l'.closedAt[a].None? ==> !l'.completed[a]) {
      assert a != j ==> l'.shards[a] == l.shards[a];
    }
  }

  lemma CloseDated(l: Lane, j: nat, samplesOk: bool)
    requires Inv(l) && CanStep(l, Close(j, samplesOk))
    ensures AllDated(Step(l, Close(j, samplesOk)))
  {
    var l' := Step(l, Close(j, samplesOk));
    forall a, i | 0 <= a < |l'.shards| && 0 <= i < |l'.shards[a].slots| ensures Dated(l', a, l'.shards[a].slots[i]) {
      assert Dated(l, a, l.shards[a].slots[i]);
    }
  }

  lemma CloseCloses(l: Lane, j: nat, samplesOk: bool)
    requires Inv(l) && CanStep(l, Close(j, samplesOk))
    ensures AllClosed(Step(l, Close(j, samplesOk)))
  {
    var l' := Step(l, Close(j, samplesOk));
    if l'.completed[j] {
      SL.CompleteCountsForceEveryClientHeld(l.shards[j]);
    }
    forall a | 0 <= a < |l'.shards| ensures ClosedComplete(l', a) {
      assert ClosedComplete(l, a);
    }
  }

  lemma CloseSnapshots(l: Lane, j: nat, samplesOk: bool)
    requires Inv(l) && CanStep(l, Close(j, samplesOk))
    ensures Snapshots(Step(l, Close(j, samplesOk)))
  {
    var l' := Step(l, Close(j, samplesOk));
    forall a | 0 <= a < |l'.micro| ensures MicroOk(l', l'.micro[a]) {
      assert MicroOk(l, l.micro[a]);
      if l.micro[a].LoadedBoth? && l.micro[a].seen.inFlight == 0 {
        CloseSeen(l, j, samplesOk, l.micro[a].seen);
      }
    }
    forall k | 0 <= k < |l'.settles| ensures SettleOk(l', l'.settles[k]) {
      assert SettleOk(l, l.settles[k]);
      CloseSeen(l, j, samplesOk, l.settles[k].seen);
      if l.settles[k].decided.inFlight == 0 {
        CloseSeen(l, j, samplesOk, l.settles[k].decided);
      }
    }
  }

  lemma CloseInv(l: Lane, j: nat, samplesOk: bool)
    requires Inv(l) && CanStep(l, Close(j, samplesOk))
    ensures Inv(Step(l, Close(j, samplesOk)))
  {
    CloseCore(l, j, samplesOk);
    CloseDated(l, j, samplesOk);
    CloseCloses(l, j, samplesOk);
    CloseSnapshots(l, j, samplesOk);
  }

  /** Every step of every shard keeps the lane's invariant. */
  lemma StepInv(l: Lane, e: LaneEvent)
    requires Inv(l) && CanStep(l, e)
    ensures Inv(Step(l, e))
  {
    match e {
      case Tick(ns) => TickInv(l, ns);
      case Local(j, event) => LocalInv(l, j, event);
      case WriteLatest(j) => WriteInv(l, j);
      case DropCount(j) => MicroOnlyInv(l, Step(l, e), j);
      case LoadLatest(j) => MicroOnlyInv(l, Step(l, e), j);
      case LoadInFlight(j) => LoadInFlightInv(l, j);
      case Decide(j) => DecideInv(l, j);
      case Close(j, ok) => CloseInv(l, j, ok);
    }
  }
}
