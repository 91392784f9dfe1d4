/** From a reader's load of the in-flight count to the decision it makes of it: which slots may have
    been reconnected in between, and what the shared counters would then say. */
module LaneDecision {
  import opened Shard
  import SL = ShardLaws
  import opened LaneHold

  // ---------- one slot, at the load and since ----------

  /** No reconnect of the slot has begun since: a client up is the client of the load, never lost. */
  predicate Kept(x: Slot, y: Slot)
  {
    && !Begun(y.repair)
    && y.repaired == x.repaired && y.losses >= x.losses
    && (y.line.Up? ==> y.line == x.line && y.losses == x.losses)
    && (y.repair.Created? && x.line.Up? ==> y.losses > x.losses)
  }

  /** A reconnect of the slot has begun at or after `at`, and perhaps been counted. */
  predicate Reconnecting(x: Slot, y: Slot, at: nat)
  {
    && y.losses >= x.losses && y.repaired >= x.repaired
    && (y.repaired > x.repaired || (Begun(y.repair) && (x.line.Down? || y.losses > x.losses)))
    && (((y.repair.Sleeping? || y.repair.Trying?) && y.line.Down?) || y.line.since >= at)
  }

  /** What an event of the hold does to its slot. */
  predicate SlotStep(x: Slot, y: Slot, begins: bool, now: nat)
  {
    && y.losses >= x.losses && y.repaired >= x.repaired
    && (Begun(x.repair) ==> Begun(y.repair) || y.repaired > x.repaired || Broken(y))
    && (!Begun(x.repair) ==> y.repaired == x.repaired && (y.line.Up? ==> y.line == x.line && y.losses == x.losses))
    && (!Begun(x.repair) && !begins ==> !Begun(y.repair))
    && (y.repair.Created? ==> y.losses > x.losses)
    && (begins ==> x.repair.Created? && y.losses == x.losses && (y.repair.Trying? || Broken(y)))
    && (y.line.since == x.line.since || y.line.since == now)
    && (y.repair.Sleeping? || y.repair.Trying? ==> y.line.Down?)
    && (x.repair.Sleeping? || x.repair.Trying? ==> y.repair.Sleeping? || y.repair.Trying? || y.line.since == now || Broken(y))
  }

  lemma RepairFailsStep(s: State, e: Event, now: nat)
    requires Enabled(s, e) && e.RepairFails? && SlotOk(s.slots[e.i]) && s.slots[e.i].login.Counted?
    ensures SlotStep(s.slots[e.i], SlotAfter(s, e, now, e.i), false, now)
  {
  }

  lemma HoldSlotStep(s: State, e: Event, now: nat)
    requires ShardInHold(s) && Enabled(s, e) && OfTheHold(e)
    ensures SlotStep(s.slots[e.i], SlotAfter(s, e, now, e.i), e.RepairBegins?, now)
  {
    assert SlotOk(s.slots[e.i]) by { assert s.slots[e.i] in s.slots; }
    if e.RepairFails? { RepairFailsStep(s, e, now); }
  }

  lemma ReconnectGoesOn(x: Slot, y: Slot, z: Slot, at: nat, begins: bool, now: nat)
    requires Reconnecting(x, y, at) && SlotStep(y, z, begins, now) && at <= now
    ensures Reconnecting(x, z, at) || (Broken(z) && Begun(y.repair))
  {
  }

  // ---------- the lane, at the load and since ----------

  /** The shard can no longer close complete: it has closed without, or has a slot lost for good. */
  ghost predicate NeverCompletes(l: Lane, a: nat, i: nat)
    requires Shaped(l) && a < |l.shards| && i < |l.shards[a].slots|
  {
    !l.completed[a] && (l.closedAt[a].Some? || Broken(l.shards[a].slots[i]))
  }

  predicate SameShape(s: seq<State>, t: seq<State>)
  {
    |s| == |t| && forall a | 0 <= a < |s| :: |s[a].slots| == |t[a].slots|
  }

  ghost predicate Matches(l: Lane, seen: Seen, d: Seen)
    requires Shaped(l)
  {
    && SameShape(seen.shards, l.shards) && SameShape(d.shards, l.shards)
    && |d.closedAt| == |l.shards|
    && forall a | 0 <= a < |l.shards| :: d.closedAt[a].Some? ==> l.closedAt[a].Some?
  }

  ghost predicate Moved(l: Lane, seen: Seen, d: Seen, a: nat, i: nat)
    requires Shaped(l) && Matches(l, seen, d) && a < |l.shards| && i < |l.shards[a].slots|
  {
    var y := d.shards[a].slots[i];
    || (Reconnecting(seen.shards[a].slots[i], y, seen.at) && (d.closedAt[a].Some? && Begun(y.repair) ==> !l.completed[a]))
    || NeverCompletes(l, a, i)
  }

  ghost predicate SomeMoved(l: Lane, seen: Seen, d: Seen)
    requires Shaped(l) && Matches(l, seen, d)
  {
    exists a, i :: 0 <= a < |l.shards| && 0 <= i < |l.shards[a].slots| && Moved(l, seen, d, a, i)
  }

  ghost predicate AllKept(seen: Seen, d: Seen)
    requires SameShape(seen.shards, d.shards)
  {
    forall a, i | 0 <= a < |seen.shards| && 0 <= i < |seen.shards[a].slots| :: Kept(seen.shards[a].slots[i], d.shards[a].slots[i])
  }

  /** Since a load that saw none in flight, the two counters are as they were and no reconnect has
      begun; or some slot has been reconnecting, or sits in a shard that cannot complete. */
  ghost predicate Followed(l: Lane, seen: Seen, d: Seen)
    requires Shaped(l)
  {
    && Matches(l, seen, d) && SameShape(seen.shards, d.shards) && seen.at <= d.at <= l.clock
    && (forall a, i | 0 <= a < |seen.shards| && 0 <= i < |seen.shards[a].slots| :: !Begun(seen.shards[a].slots[i].repair))
    && ((d.inFlight == 0 && d.latest == seen.latest && AllKept(seen, d)) || SomeMoved(l, seen, d))
  }

  ghost predicate Trail(l: Lane)
    requires Shaped(l)
  {
    && (forall j | 0 <= j < |l.micro| :: l.micro[j].LoadedBoth? && l.micro[j].seen.inFlight == 0 ==> Followed(l, l.micro[j].seen, Snapshot(l)))
    && (forall k | 0 <= k < |l.settles| :: Followed(l, l.settles[k].seen, l.settles[k].decided))
  }

  // ---------- what a step leaves in place ----------

  ghost predicate Persists(l: Lane, l': Lane)
  {
    && Shaped(l) && Shaped(l') && SameShape(l.shards, l'.shards) && l'.clock >= l.clock
    && (forall a | 0 <= a < |l.shards| :: l.closedAt[a].Some? ==> l'.closedAt[a].Some? && l'.completed[a] == l.completed[a])
    && (forall a, i | 0 <= a < |l.shards| && 0 <= i < |l.shards[a].slots| && NeverCompletes(l, a, i) :: NeverCompletes(l', a, i))
  }

  lemma LocalPersists(l: Lane, l': Lane, j: nat, i: nat)
    requires Inv(l) && LocalFacts(l, l', j, i)
    ensures Persists(l, l')
  {
    forall a, k | 0 <= a < |l.shards| && 0 <= k < |l.shards[a].slots| && NeverCompletes(l, a, k) ensures NeverCompletes(l', a, k) {
      assert a == j && k == i ==> !Broken(l.shards[a].slots[k]);
    }
  }

  lemma ClosePersists(l: Lane, j: nat, samplesOk: bool)
    requires Inv(l) && CanStep(l, Close(j, samplesOk))
    ensures Persists(l, Step(l, Close(j, samplesOk)))
  {
    var l' := Step(l, Close(j, samplesOk));
    assert l'.shards == l.shards[j := Next(l.shards[j], StopRepairs, l.clock)];
    forall a, k | 0 <= a < |l.shards| && 0 <= k < |l.shards[a].slots| && NeverCompletes(l, a, k) ensures NeverCompletes(l', a, k) {
      if a == j && l'.completed[j] {
        SL.CompleteCountsForceEveryClientHeld(l.shards[j]);
      }
    }
  }

  /** A step that is no shard's own event changes no slot. */
  ghost predicate SlotsStay(l: Lane, l': Lane)
  {
    && Shaped(l) && Shaped(l') && |l'.shards| == |l.shards| && l'.clock >= l.clock
    && forall a | 0 <= a < |l.shards| :: l'.shards[a].slots == l.shards[a].slots
  }

  lemma StepSlotsStay(l: Lane, e: LaneEvent)
    requires Shaped(l) && CanStep(l, e) && !e.Local?
    ensures SlotsStay(l, Step(l, e))
    ensures !e.Close? ==> Step(l, e).closedAt == l.closedAt && Step(l, e).completed == l.completed
    ensures !e.WriteLatest? && !e.DropCount? ==> Step(l, e).inFlight == l.inFlight && Step(l, e).latest == l.latest
  {
  }

  lemma StaysPersists(l: Lane, l': Lane)
    requires SlotsStay(l, l') && l'.closedAt == l.closedAt && l'.completed == l.completed
    ensures Persists(l, l')
  {
  }

  lemma StepPersists(l: Lane, e: LaneEvent)
    requires Inv(l) && CanStep(l, e)
    ensures Persists(l, Step(l, e))
  {
    if e.Local? {
      LocalIsLocal(l, e.j, e.event);
      LocalPersists(l, Step(l, e), e.j, e.event.i);
    } else if e.Close? {
      ClosePersists(l, e.j, e.samplesOk);
    } else {
      StepSlotsStay(l, e);
      StaysPersists(l, Step(l, e));
    }
  }

  lemma FollowedFrame(l: Lane, l': Lane, seen: Seen, d: Seen)
    requires Persists(l, l') && Followed(l, seen, d)
    ensures Followed(l', seen, d)
  {
    if SomeMoved(l, seen, d) {
      var a, i :| 0 <= a < |l.shards| && 0 <= i < |l.shards[a].slots| && Moved(l, seen, d, a, i);
      assert Moved(l', seen, d, a, i);
    }
  }

  // ---------- the reader's lane moves on ----------

  lemma StillMoved(l: Lane, l': Lane, seen: Seen)
    requires Inv(l') && Persists(l, l') && SlotsStay(l, l') && Matches(l, seen, Snapshot(l)) && Matches(l', seen, Snapshot(l'))
    requires SomeMoved(l, seen, Snapshot(l))
    ensures SomeMoved(l', seen, Snapshot(l'))
  {
    var a, i :| 0 <= a < |l.shards| && 0 <= i < |l.shards[a].slots| && Moved(l, seen, Snapshot(l), a, i);
    assert ClosedComplete(l', a);
    assert Moved(l', seen, Snapshot(l'), a, i);
  }

  /** A step that changes no slot. */
  lemma StillFollowed(l: Lane, l': Lane, seen: Seen)
    requires Inv(l') && Persists(l, l') && Followed(l, seen, Snapshot(l))
    requires SlotsStay(l, l')
    requires l.inFlight == 0 ==> l'.inFlight == 0 && l'.latest == l.latest
    ensures Followed(l', seen, Snapshot(l'))
  {
    if SomeMoved(l, seen, Snapshot(l)) {
      StillMoved(l, l', seen);
    }
  }

  lemma MovesOn(l: Lane, l': Lane, seen: Seen, j: nat, i: nat, begins: bool)
    requires Inv(l) && Inv(l') && Persists(l, l') && LocalFacts(l, l', j, i) && Followed(l, seen, Snapshot(l))
    requires SlotStep(l.shards[j].slots[i], l'.shards[j].slots[i], begins, l.clock)
    requires SomeMoved(l, seen, Snapshot(l))
    ensures SomeMoved(l', seen, Snapshot(l'))
  {
    var a, k :| 0 <= a < |l.shards| && 0 <= k < |l.shards[a].slots| && Moved(l, seen, Snapshot(l), a, k);
    var x, y := l.shards[a].slots[k], l'.shards[a].slots[k];
    if Reconnecting(seen.shards[a].slots[k], x, seen.at) {
      assert ClosedComplete(l, a) && ClosedComplete(l', a);
      if a == j && k == i {
        ReconnectGoesOn(seen.shards[a].slots[k], x, y, seen.at, begins, l.clock);
      } else {
        assert x == y;
      }
    } else {
      assert NeverCompletes(l', a, k);
    }
    assert Moved(l', seen, Snapshot(l'), a, k);
  }

  lemma FirstMoves(l: Lane, l': Lane, seen: Seen, j: nat, i: nat)
    requires Inv(l) && Inv(l') && Persists(l, l') && LocalFacts(l, l', j, i) && Followed(l, seen, Snapshot(l))
    requires SlotStep(l.shards[j].slots[i], l'.shards[j].slots[i], true, l.clock)
    requires AllKept(seen, Snapshot(l))
    ensures SomeMoved(l', seen, Snapshot(l'))
  {
    assert Kept(seen.shards[j].slots[i], l.shards[j].slots[i]);
    assert ClosedComplete(l, j) && ClosedComplete(l', j);
    assert Moved(l', seen, Snapshot(l'), j, i);
  }

  lemma StaysKept(l: Lane, l': Lane, seen: Seen, j: nat, i: nat)
    requires LocalFacts(l, l', j, i) && Followed(l, seen, Snapshot(l)) && SameShape(seen.shards, l'.shards)
    requires SlotStep(l.shards[j].slots[i], l'.shards[j].slots[i], false, l.clock)
    requires AllKept(seen, Snapshot(l))
    ensures AllKept(seen, Snapshot(l'))
  {
    forall a, k | 0 <= a < |seen.shards| && 0 <= k < |seen.shards[a].slots|
      ensures Kept(seen.shards[a].slots[k], l'.shards[a].slots[k])
    {
      assert Kept(seen.shards[a].slots[k], l.shards[a].slots[k]);
    }
  }

  lemma LocalFollowed(l: Lane, j: nat, e: Event, seen: Seen)
    requires Inv(l) && CanStep(l, Local(j, e)) && Followed(l, seen, Snapshot(l))
    ensures var l' := Step(l, Local(j, e)); Shaped(l') && Followed(l', seen, Snapshot(l'))
  {
    var l' := Step(l, Local(j, e));
    LocalIsLocal(l, j, e);
    LocalFactsInv(l, l', j, e.i);
    LocalPersists(l, l', j, e.i);
    HoldSlotStep(l.shards[j], e, l.clock);
    if SomeMoved(l, seen, Snapshot(l)) {
      MovesOn(l, l', seen, j, e.i, e.RepairBegins?);
    } else if e.RepairBegins? {
      FirstMoves(l, l', seen, j, e.i);
    } else {
      StaysKept(l, l', seen, j, e.i);
    }
  }

  lemma LiveFollowed(l: Lane, e: LaneEvent, seen: Seen)
    requires Inv(l) && CanStep(l, e) && Followed(l, seen, Snapshot(l))
    ensures var l' := Step(l, e); Shaped(l') && Followed(l', seen, Snapshot(l'))
  {
    if e.Local? {
      LocalFollowed(l, e.j, e.event, seen);
    } else {
      StepInv(l, e);
      StepPersists(l, e);
      StepSlotsStay(l, e);
      if l.inFlight == 0 {
        NoneInFlight(l);
        assert !e.WriteLatest? && !e.DropCount?;
      }
      StillFollowed(l, Step(l, e), seen);
    }
  }

  /** A load that sees none in flight starts with nothing moved. */
  lemma LoadFollowed(l: Lane)
    requires Inv(l) && l.inFlight == 0
    ensures Followed(l, Snapshot(l), Snapshot(l))
  {
    NoneInFlight(l);
    forall a, i | 0 <= a < |l.shards| && 0 <= i < |l.shards[a].slots| ensures Kept(l.shards[a].slots[i], l.shards[a].slots[i]) {
      assert l.shards[a].slots[i] in l.shards[a].slots;
      assert SlotOk(l.shards[a].slots[i]);
    }
  }

  lemma AnOldLoadStays(l: Lane, e: LaneEvent, j: nat)
    requires Shaped(l) && CanStep(l, e) && j < |l.micro|
    ensures var l' := Step(l, e);
      |l'.micro| == |l.micro| && (l'.micro[j].LoadedBoth? ==> l'.micro[j] == if e == LoadInFlight(j) then LoadedBoth(l.micro[j].latest, Snapshot(l)) else l.micro[j])
  {
  }

  lemma MicroTrail(l: Lane, e: LaneEvent, j: nat)
    requires Inv(l) && Trail(l) && CanStep(l, e) && j < |l.micro|
    ensures var l' := Step(l, e);
      Shaped(l') && (l'.micro[j].LoadedBoth? && l'.micro[j].seen.inFlight == 0 ==> Followed(l', l'.micro[j].seen, Snapshot(l')))
  {
    StepInv(l, e);
    AnOldLoadStays(l, e, j);
    var m := Step(l, e).micro[j];
    if m.LoadedBoth? && m.seen.inFlight == 0 {
      if e == LoadInFlight(j) {
        LoadFollowed(l);
      }
      LiveFollowed(l, e, m.seen);
    }
  }

  lemma SettleTrail(l: Lane, e: LaneEvent, k: nat)
    requires Inv(l) && Trail(l) && CanStep(l, e) && k < |Step(l, e).settles|
    ensures var l' := Step(l, e); Shaped(l') && Followed(l', l'.settles[k].seen, l'.settles[k].decided)
  {
    StepPersists(l, e);
    var r := Step(l, e).settles[k];
    if k == |l.settles| {
      assert Followed(l, l.micro[e.j].seen, Snapshot(l));
    }
    FollowedFrame(l, Step(l, e), r.seen, r.decided);
  }

  /** Every step keeps every load followed up to now, and every settle up to its decision. */
  lemma StepTrail(l: Lane, e: LaneEvent)
    requires Inv(l) && Trail(l) && CanStep(l, e)
    ensures Shaped(Step(l, e)) && Trail(Step(l, e))
  {
    StepInv(l, e);
    var l' := Step(l, e);
    forall j | 0 <= j < |l'.micro|
      ensures l'.micro[j].LoadedBoth? && l'.micro[j].seen.inFlight == 0 ==> Followed(l', l'.micro[j].seen, Snapshot(l'))
    {
      MicroTrail(l, e, j);
    }
    forall k | 0 <= k < |l'.settles| ensures Followed(l', l'.settles[k].seen, l'.settles[k].decided) {
      SettleTrail(l, e, k);
    }
  }
}
