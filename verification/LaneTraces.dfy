/** Runs of a lane of two shards that show where its hold promises end. */
module LaneTraces {
  import opened Arithmetic
  import opened Wrappers
  import opened HoldWindow
  import opened Shard
  import opened LaneHold
  import opened LaneLaws

  ghost predicate Leads(from: Lane, l: Lane)
  {
    exists es :: Runs(from, es) && After(from, es) == l
  }

  lemma Starts(l: Lane)
    ensures Leads(l, l)
  {
    var es: seq<LaneEvent> := [];
    assert Runs(l, es) && After(l, es) == l;
  }

  lemma {:induction false} RunsInTwo(l: Lane, es: seq<LaneEvent>, fs: seq<LaneEvent>)
    requires Runs(l, es) && Runs(After(l, es), fs)
    ensures Runs(l, es + fs) && After(l, es + fs) == After(After(l, es), fs)
    decreases |es|
  {
    if es == [] {
      assert es + fs == fs;
    } else {
      assert (es + fs)[1..] == es[1..] + fs;
      RunsInTwo(Step(l, es[0]), es[1..], fs);
    }
  }

  lemma Goes(from: Lane, l: Lane, e: LaneEvent) returns (l': Lane)
    requires Leads(from, l) && CanStep(l, e)
    ensures Leads(from, l') && l' == Step(l, e)
  {
    var es :| Runs(from, es) && After(from, es) == l;
    var last := [e];
    assert last[1..] == [] && Runs(l, last);
    assert After(l, last) == After(Step(l, e), last[1..]) == Step(l, e);
    RunsInTwo(from, es, last);
    l' := Step(l, e);
  }

  // ---------- a shard of one client ----------

  function OneClient(up: nat): Slot
  {
    Slot(Counted, Idle, Up(up), 0, 0, 0)
  }

  /** A shard whose one client is held. */
  function OneHeld(up: nat): State
  {
    State([OneClient(up)], 1, 1, 1, 1, 0, 0, 0, 0, 0, multiset{}, Some(0), true, true, 0, 0)
  }

  /** Its client lost and its reconnect created; in its first try; back and not resumed; counted. */
  function LostOne(up: nat, line: Line): State
  {
    OneHeld(up).(slots := [Slot(Counted, Created, line, 1, 0, 0)], heldNow := 0, disconnected := 1)
  }

  function TryingOne(up: nat, line: Line): State
  {
    LostOne(up, line).(slots := [Slot(Counted, Trying(1), line, 1, 0, 0)], retries := 1)
  }

  function BackOne(up: nat, since: nat): State
  {
    LostOne(up, Up(since)).(slots := [Slot(Counted, Back(false), Up(since), 1, 0, 0)], retries := 1)
  }

  function RepairedOne(up: nat, since: nat): State
  {
    OneHeld(up).(slots := [Slot(Counted, Idle, Up(since), 1, 1, 0)], disconnected := 1, reconnected := 1, retries := 1)
  }

  // ---------- single steps ----------

  lemma Ticks(from: Lane, l: Lane, ns: nat) returns (l': Lane)
    requires Leads(from, l) && ns > 0
    ensures Leads(from, l') && l' == l.(clock := l.clock + ns)
  {
    l' := Goes(from, l, Tick(ns));
  }

  lemma Loses(from: Lane, l: Lane, j: nat, up: nat) returns (l': Lane)
    requires Leads(from, l) && InRange(l, j) && l.micro[j].Free? && l.shards[j] == OneHeld(up)
    ensures Leads(from, l') && l' == l.(shards := l.shards[j := LostOne(up, Down(l.clock, up))])
  {
    l' := Goes(from, l, Local(j, Lost(0)));
    assert l'.shards[j].slots == [Slot(Counted, Created, Down(l.clock, up), 1, 0, 0)];
    assert l'.shards[j] == LostOne(up, Down(l.clock, up));
    assert l'.micro == l.micro;
  }

  /** A shard that has closed its evidence starts no reconnect. */
  lemma LosesUnrepaired(from: Lane, l: Lane, j: nat, up: nat) returns (l': Lane)
    requires Leads(from, l) && InRange(l, j) && l.micro[j].Free? && l.shards[j] == OneHeld(up).(reconnectEnabled := false)
    ensures Leads(from, l')
    ensures l' == l.(shards := l.shards[j := LostOne(up, Down(l.clock, up))
                       .(slots := [Slot(Counted, Idle, Down(l.clock, up), 1, 0, 0)], reconnectEnabled := false)])
  {
    l' := Goes(from, l, Local(j, Lost(0)));
    assert l'.shards[j].slots == [Slot(Counted, Idle, Down(l.clock, up), 1, 0, 0)];
    assert l'.micro == l.micro;
  }

  lemma BeginsReconnect(from: Lane, l: Lane, j: nat, up: nat, line: Line) returns (l': Lane)
    requires Leads(from, l) && InRange(l, j) && l.micro[j].Free? && l.shards[j] == LostOne(up, line) && line.Down?
    ensures Leads(from, l') && l' == l.(shards := l.shards[j := TryingOne(up, line)], inFlight := l.inFlight + 1)
  {
    l' := Goes(from, l, Local(j, RepairBegins(0)));
    assert l'.shards[j] == TryingOne(up, line);
    assert l'.micro == l.micro;
  }

  lemma BecomesReady(from: Lane, l: Lane, j: nat, up: nat, line: Line) returns (l': Lane)
    requires Leads(from, l) && InRange(l, j) && l.micro[j].Free? && l.shards[j] == TryingOne(up, line)
    ensures Leads(from, l') && l' == l.(shards := l.shards[j := BackOne(up, l.clock)])
  {
    l' := Goes(from, l, Local(j, RepairReady(0)));
    assert l'.shards[j].slots == [Slot(Counted, Back(false), Up(l.clock), 1, 0, 0)];
    assert l'.shards[j] == BackOne(up, l.clock);
    assert l'.micro == l.micro;
  }

  lemma CountsReconnect(from: Lane, l: Lane, j: nat, up: nat, since: nat) returns (l': Lane)
    requires Leads(from, l) && InRange(l, j) && l.micro[j].Free? && l.shards[j] == BackOne(up, since)
    ensures Leads(from, l') && l' == l.(shards := l.shards[j := RepairedOne(up, since)], micro := l.micro[j := Writing(l.clock)])
  {
    l' := Goes(from, l, Local(j, RepairCounted(0)));
    assert l'.shards[j].slots == [Slot(Counted, Idle, Up(since), 1, 1, 0)];
    assert l'.shards[j] == RepairedOne(up, since);
  }

  lemma EndsReconnect(from: Lane, l: Lane, j: nat, completed: nat) returns (l': Lane)
    requires Leads(from, l) && InRange(l, j) && l.micro[j] == Writing(completed)
    ensures Leads(from, l')
    ensures l' == l.(latest := Max(l.latest, completed), inFlight := l.inFlight - 1, micro := l.micro[j := Free])
  {
    var l1 := Goes(from, l, WriteLatest(j));
    l' := Goes(from, l1, DropCount(j));
  }

  lemma Loads(from: Lane, l: Lane, j: nat) returns (l': Lane)
    requires Leads(from, l) && InRange(l, j) && l.micro[j].Free? && l.closedAt[j].None?
    ensures Leads(from, l') && l' == l.(micro := l.micro[j := LoadedBoth(l.latest, Snapshot(l))])
  {
    var l1 := Goes(from, l, LoadLatest(j));
    assert Snapshot(l1) == Snapshot(l);
    l' := Goes(from, l1, LoadInFlight(j));
  }

  lemma Decides(from: Lane, l: Lane, j: nat, latest: nat, seen: Seen) returns (l': Lane)
    requires Leads(from, l) && InRange(l, j) && l.micro[j] == LoadedBoth(latest, seen)
    requires seen.inFlight == 0 && l.clock >= Max(l.holdStart, latest) + HOLD_NS
    ensures Leads(from, l') && l' == l.(micro := l.micro[j := Free], settles := l.settles + [Settle(j, latest, seen, Snapshot(l))])
  {
    l' := Goes(from, l, Decide(j));
  }

  lemma Closes(from: Lane, l: Lane, j: nat) returns (l': Lane)
    requires Leads(from, l) && InRange(l, j) && l.micro[j].Free? && l.closedAt[j].None? && CountsComplete(l.shards[j])
    requires l.settles != [] && l.settles[|l.settles| - 1].shard == j
    ensures Leads(from, l')
    ensures l' == l.(shards := l.shards[j := l.shards[j].(reconnectEnabled := false)], closedAt := l.closedAt[j := Some(l.clock)],
                     completed := l.completed[j := true])
  {
    l' := Goes(from, l, Close(j, true));
    assert l.settles[|l.settles| - 1] in l.settles;
  }

  // ---------- runs of steps ----------

  lemma LosesAndIsBack(from: Lane, l: Lane, j: nat, up: nat) returns (l': Lane)
    requires Leads(from, l) && InRange(l, j) && l.micro[j].Free? && l.shards[j] == OneHeld(up)
    ensures Leads(from, l') && l' == l.(shards := l.shards[j := BackOne(up, l.clock)], inFlight := l.inFlight + 1)
  {
    var l1 := Loses(from, l, j, up);
    l' := ReconnectIsBack(from, l1, j, up, Down(l.clock, up));
    assert l1.shards[j := BackOne(up, l.clock)] == l.shards[j := BackOne(up, l.clock)];
  }

  lemma ReconnectIsBack(from: Lane, l: Lane, j: nat, up: nat, line: Line) returns (l': Lane)
    requires Leads(from, l) && InRange(l, j) && l.micro[j].Free? && l.shards[j] == LostOne(up, line) && line.Down?
    ensures Leads(from, l') && l' == l.(shards := l.shards[j := BackOne(up, l.clock)], inFlight := l.inFlight + 1)
  {
    var l1 := BeginsReconnect(from, l, j, up, line);
    l' := BecomesReady(from, l1, j, up, line);
    assert l1.shards[j := BackOne(up, l.clock)] == l.shards[j := BackOne(up, l.clock)];
  }

  lemma BackIsCountedAndEnds(from: Lane, l: Lane, j: nat, up: nat, since: nat) returns (l': Lane)
    requires Leads(from, l) && InRange(l, j) && l.micro[j].Free? && l.shards[j] == BackOne(up, since) && l.latest <= l.clock
    ensures Leads(from, l')
    ensures l' == l.(shards := l.shards[j := RepairedOne(up, since)], latest := l.clock, inFlight := l.inFlight - 1)
  {
    var l1 := CountsReconnect(from, l, j, up, since);
    l' := EndsReconnect(from, l1, j, l.clock);
    assert l'.micro == l.micro;
  }

  /** A created reconnect runs to its end. */
  lemma Reconnects(from: Lane, l: Lane, j: nat, up: nat, line: Line) returns (l': Lane)
    requires Leads(from, l) && InRange(l, j) && l.micro[j].Free? && l.shards[j] == LostOne(up, line) && line.Down? && l.latest <= l.clock
    ensures Leads(from, l') && l' == l.(shards := l.shards[j := RepairedOne(up, l.clock)], latest := l.clock)
  {
    var l1 := ReconnectIsBack(from, l, j, up, line);
    l' := BackIsCountedAndEnds(from, l1, j, up, l.clock);
    assert l1.shards[j := RepairedOne(up, l.clock)] == l.shards[j := RepairedOne(up, l.clock)];
  }

  lemma ReadsAndSettles(from: Lane, l: Lane, j: nat) returns (l': Lane)
    requires Leads(from, l) && InRange(l, j) && l.micro[j].Free? && l.closedAt[j].None? && l.inFlight == 0
    requires l.clock >= Max(l.holdStart, l.latest) + HOLD_NS && CountsComplete(l.shards[j])
    ensures Leads(from, l')
    ensures l' == l.(shards := l.shards[j := l.shards[j].(reconnectEnabled := false)], closedAt := l.closedAt[j := Some(l.clock)],
                     completed := l.completed[j := true], settles := l.settles + [Settle(j, l.latest, Snapshot(l), Snapshot(l))])
  {
    var l1 := Loads(from, l, j);
    var l2 := Decides(from, l1, j, l.latest, Snapshot(l));
    assert Snapshot(l1) == Snapshot(l) && l2.micro == l.micro;
    l' := Closes(from, l2, j);
  }

  // ---------- the lane ----------

  /** Two such shards, at the start of their hold. */
  function TwoShards(start: nat): Lane
  {
    Lane([OneHeld(start), OneHeld(start)], [Free, Free], 0, 0, start, start, [None, None], [false, false], [])
  }

  lemma OneHeldInHold(s: State, up: nat)
    requires s == OneHeld(up)
    ensures ShardInHold(s) && Sum(s.slots).begun == 0
  {
    SumOfSingle(s.slots);
    assert forall x | x in s.slots :: x == OneClient(up);
  }

  lemma TwoShardsInit(l: Lane, start: nat)
    requires l == TwoShards(start)
    ensures Init(l)
  {
    TwoShardsShare(l, start);
    OneHeldInHold(OneHeld(start), start);
  }

  lemma TwoShardsShare(l: Lane, start: nat)
    requires l == TwoShards(start)
    ensures Total(Shares(l)) == 0
  {
    var shares := Shares(l);
    OneHeldInHold(l.shards[0], start);
    OneHeldInHold(l.shards[1], start);
    assert shares[0] == 0 && shares[1] == 0;
    TotalOfZeros(shares);
  }

  // ---------- a stale read ----------

  /** The one settle was decided on a stale read, at the very moment shard 1's client came back. */
  ghost predicate SettledAtAReconnect(l: Lane)
  {
    && |l.settles| == 1
    && var r := l.settles[0];
      && r.latest < r.seen.latest == r.decided.at
      && |r.seen.shards| == 2 && |r.seen.shards[1].slots| == 1 && r.seen.shards[1].slots[0].line == Up(r.decided.at)
  }

  /** A run whose reader loads the latest completion, then misses a whole end(), settles at the very
      moment of a reconnect: that client had been up for no time at all. */
  lemma AStaleReadSettlesEarly(start: nat) returns (es: seq<LaneEvent>)
    ensures Init(TwoShards(start)) && Runs(TwoShards(start), es) && SettledAtAReconnect(After(TwoShards(start), es))
  {
    var from := TwoShards(start);
    TwoShardsInit(from, start);
    Starts(from);
    var l1 := Ticks(from, from, HOLD_NS);
    var l2 := LosesAndIsBack(from, l1, 1, start);
    var l3 := LoadsAroundAnEnd(from, l2, start);
    var l4 := Decides(from, l3, 0, 0, l3.micro[0].seen);
    es :| Runs(from, es) && After(from, es) == l4;
  }

  /** Shard 0 loads the latest completion; shard 1's reconnect is counted and ends; shard 0 loads the count. */
  lemma LoadsAroundAnEnd(from: Lane, l: Lane, up: nat) returns (l': Lane)
    requires Leads(from, l) && l.micro == [Free, Free] && InRange(l, 1) && |l.shards| == 2 && l.closedAt[0].None?
    requires l.shards[1] == BackOne(up, l.clock) && l.latest == 0 && l.inFlight == 1
    ensures Leads(from, l') && |l'.micro| == 2 && l'.micro[0].LoadedBoth?
    ensures var seen := l'.micro[0].seen;
      && l' == l.(shards := [l.shards[0], RepairedOne(up, l.clock)], latest := l.clock, inFlight := 0, micro := [LoadedBoth(0, seen), Free])
      && seen == Seen(l'.shards, l.closedAt, l.clock, 0, l.clock)
  {
    var l1 := Goes(from, l, LoadLatest(0));
    assert l1 == l.(micro := [Loaded(0), Free]);
    var l2 := BackIsCountedAndEnds(from, l1, 1, up, l.clock);
    assert l2.shards == [l.shards[0], RepairedOne(up, l.clock)];
    l' := Goes(from, l2, LoadInFlight(0));
  }

  // ---------- a later settle ----------

  /** Every shard closed complete, and the later settle, read fresh, counted as held a client lost, with no
      reconnect, since before that hold was half over. */
  ghost predicate MissedALoss(l: Lane)
  {
    && AllComplete(l) && |l.settles| == 2
    && var r := l.settles[1];
      && r.latest == r.seen.latest
      && |r.seen.shards| == 2 && |r.seen.shards[0].slots| == 1
      && var x := r.seen.shards[0].slots[0];
        && x.repair.Idle? && x.line.Down? && Max(l.holdStart, r.latest) < x.line.at < r.decided.at - HOLD_NS / 2
  }

  /** Why the excuse for closed shards is needed. */
  lemma ALaterSettleCanMissALoss(start: nat) returns (es: seq<LaneEvent>)
    ensures Init(TwoShards(start)) && Runs(TwoShards(start), es) && MissedALoss(After(TwoShards(start), es))
  {
    var from := TwoShards(start);
    TwoShardsInit(from, start);
    Starts(from);
    var l1 := ClosesBeforeAReconnect(from, from, start);
    var l2 := Reconnects(from, l1, 1, start, Down(l1.clock, start));
    var l3 := LosesAfterClosing(from, l2, start);
    es :| Runs(from, es) && After(from, es) == l3;
  }

  /** Shard 1 loses its client, and shard 0 settles and closes before that reconnect begins. */
  lemma ClosesBeforeAReconnect(from: Lane, l: Lane, up: nat) returns (l': Lane)
    requires Leads(from, l) && l == TwoShards(up)
    ensures Leads(from, l') && |l'.settles| == 1
    ensures l' == l.(clock := up + HOLD_NS, settles := l'.settles, closedAt := [Some(up + HOLD_NS), None], completed := [true, false],
                     shards := [OneHeld(up).(reconnectEnabled := false), LostOne(up, Down(up + HOLD_NS, up))])
  {
    var l1 := Ticks(from, l, HOLD_NS);
    var l2 := Loses(from, l1, 1, up);
    assert l2.shards == [OneHeld(up), LostOne(up, Down(up + HOLD_NS, up))];
    l' := ReadsAndSettles(from, l2, 0);
  }

  /** Shard 0's client is lost behind its closed evidence, and shard 1 settles a hold later. */
  lemma LosesAfterClosing(from: Lane, l: Lane, up: nat) returns (l': Lane)
    requires Leads(from, l) && l.micro == [Free, Free] && l.inFlight == 0 && |l.settles| == 1
    requires l.latest == l.clock == up + HOLD_NS && l.holdStart == up
    requires l.closedAt == [Some(up + HOLD_NS), None] && l.completed == [true, false]
    requires l.shards == [OneHeld(up).(reconnectEnabled := false), RepairedOne(up, l.clock)]
    ensures Leads(from, l') && MissedALoss(l')
  {
    var l1 := Ticks(from, l, 1);
    var l2 := LosesUnrepaired(from, l1, 0, up);
    var l3 := Ticks(from, l2, HOLD_NS);
    l' := ReadsAndSettles(from, l3, 1);
    assert l'.settles[1] == Settle(1, l3.latest, Snapshot(l3), Snapshot(l3));
  }

  // ---------- a loss between the load and the decision ----------

  /** Every shard closed complete, and the first settle, read fresh, decided thirty seconds after its start
      although a client had been up for only half of them. */
  ghost predicate UnseenLoss(l: Lane, holdStart: nat)
  {
    && AllComplete(l) && l.settles != []
    && var r := l.settles[0];
      && r.latest == r.seen.latest && Start(holdStart, r) < r.seen.at && r.decided.at == Start(holdStart, r) + 1 + HOLD_NS
      && !CountersStay(r)
      && |r.decided.shards| == 2 && |r.decided.shards[1].slots| == 1
      && r.decided.shards[1].slots[0].line == Up(r.decided.at - HOLD_NS / 2)
  }

  /** That client was lost and reconnected between the reader's load and its decision. */
  lemma ALossAfterTheLoadGoesUnseen(start: nat) returns (es: seq<LaneEvent>)
    ensures Init(TwoShards(start)) && Runs(TwoShards(start), es) && UnseenLoss(After(TwoShards(start), es), start)
  {
    var from := TwoShards(start);
    TwoShardsInit(from, start);
    Starts(from);
    var l1 := Ticks(from, from, 1);
    var l2 := Loads(from, l1, 0);
    var l3 := HalfAHoldLater(from, l2, start);
    var l4 := DecidesAnyway(from, l3, start, l2.micro[0].seen);
    es :| Runs(from, es) && After(from, es) == l4;
  }

  /** Shard 0 has loaded both counters; half a hold later shard 1's client is lost and back. */
  lemma HalfAHoldLater(from: Lane, l: Lane, up: nat) returns (l': Lane)
    requires Leads(from, l) && |l.micro| == 2 && l.micro[1].Free? && InRange(l, 1) && l.shards == [OneHeld(up), OneHeld(up)] && l.latest <= l.clock
    ensures Leads(from, l')
    ensures var t := l.clock + HOLD_NS / 2; l' == l.(clock := t, shards := [OneHeld(up), RepairedOne(up, t)], latest := t)
  {
    var l1 := Ticks(from, l, HOLD_NS / 2);
    var l2 := Loses(from, l1, 1, up);
    l' := Reconnects(from, l2, 1, up, Down(l1.clock, up));
    assert l'.shards == [OneHeld(up), RepairedOne(up, l1.clock)];
  }

  lemma DecidesAnyway(from: Lane, l: Lane, up: nat, seen: Seen) returns (l': Lane)
    requires Leads(from, l) && l.holdStart == up && l.inFlight == 0 && l.settles == []
    requires l.clock == l.latest == up + 1 + HOLD_NS / 2 && l.shards == [OneHeld(up), RepairedOne(up, l.clock)]
    requires l.closedAt == [None, None] && l.completed == [false, false] && l.micro == [LoadedBoth(0, seen), Free]
    requires seen.inFlight == 0 && seen.latest == 0 && seen.at == up + 1
    ensures Leads(from, l') && UnseenLoss(l', up)
  {
    var l1 := Ticks(from, l, HOLD_NS / 2);
    var l2 := Decides(from, l1, 0, 0, seen);
    assert l2.micro == [Free, Free];
    var l3 := Closes(from, l2, 0);
    var l4 := Ticks(from, l3, HOLD_NS);
    l' := ReadsAndSettles(from, l4, 1);
    assert l'.settles[0] == Settle(0, 0, seen, Snapshot(l1));
  }
}
