/** Clients the server resets: each is reconnected, or leaves a failure code, or is orphaned. Exactly
    which, over every run of a shard whose reconnects are enabled. */
module Orphans {
  import opened Shard
  import opened ShardLaws

  /** A client that reached ready has been lost, with no reconnect under way. */
  predicate Orphan(x: Slot)
  {
    (x.login.Counted? || x.login.Ready?) && x.repair.Idle? && x.line.Down?
  }

  /** A slot whose login was itself refused or cancelled. */
  predicate Ended(x: Slot)
  {
    x.login.Refused? || x.login.Stopped?
  }

  predicate Orphans(s: State, i: nat)
  {
    i < |s.slots| && Orphan(s.slots[i])
  }

  predicate OnSlot(e: Event, i: nat)
  {
    !e.Launch? && !e.FreezeGate? && !e.StopRepairs? && e.i == i
  }

  lemma OthersStay(s: State, e: Event, now: nat, i: nat)
    requires Enabled(s, e) && i < |s.slots| && !OnSlot(e, i)
    ensures SlotAfter(s, e, now, i) == s.slots[i]
  {
  }

  /** One event on a slot that is neither an orphan nor ended. */
  lemma OneEvent(s: State, e: Event, now: nat, i: nat)
    requires Books(s) && s.reconnectEnabled && i < |s.slots| && Enabled(s, e) && OnSlot(e, i)
    requires !Orphan(s.slots[i]) && !Ended(s.slots[i])
    ensures var s' := Next(s, e, now); var x := s.slots[i];
      && (Orphan(s'.slots[i]) && s'.terminalFailures == s.terminalFailures <==> e == RepairCounted(i) && x.repair == Back(true))
      && (s'.terminalFailures > s.terminalFailures ==> Orphan(s'.slots[i]) || Ended(s'.slots[i]))
      && s'.terminalFailures >= s.terminalFailures
  {
    assert SlotOk(s.slots[i]) by { assert s.slots[i] in s.slots; }
  }

  lemma OneEventOnAnEndedSlot(s: State, e: Event, now: nat, i: nat)
    requires i < |s.slots| && Enabled(s, e) && OnSlot(e, i) && Ended(s.slots[i])
    ensures Ended(SlotAfter(s, e, now, i))
  {
  }

  /** While reconnects are enabled an event orphans a client without counting a terminal failure
      exactly when it is the end of a reconnect whose client was reset before its task resumed. */
  lemma AnEventOrphansSilentlyExactlyWhenItCountsALostReconnect(s: State, e: Event, now: nat, i: nat)
    requires Books(s) && s.reconnectEnabled && Enabled(s, e)
    ensures var s' := Next(s, e, now);
      (!Orphans(s, i) && Orphans(s', i) && s'.terminalFailures == s.terminalFailures) <==>
      (e == RepairCounted(i) && s.slots[i].repair == Back(true) && !Ended(s.slots[i]))
  {
    if i < |s.slots| {
      assert SlotOk(s.slots[i]) by { assert s.slots[i] in s.slots; }
      if !OnSlot(e, i) {
        OthersStay(s, e, now, i);
      } else if Ended(s.slots[i]) {
        OneEventOnAnEndedSlot(s, e, now, i);
      } else if !Orphan(s.slots[i]) {
        OneEvent(s, e, now, i);
      }
    }
  }

  // ---------- over a run ----------

  /** The terminal failures counted by the events of one slot. */
  ghost function Reported(s: State, es: seq<Timed>, i: nat): int
    requires Runs(s, es)
    decreases |es|
  {
    if es == [] then 0
    else
      var s' := Next(s, es[0].event, es[0].now);
      (if OnSlot(es[0].event, i) then s'.terminalFailures - s.terminalFailures else 0) + Reported(s', es[1..], i)
  }

  /** The reconnect that is back in slot `i` is counted, rather than failing or staying as it is. */
  predicate CountedNext(es: seq<Timed>, i: nat)
    decreases |es|
  {
    && es != []
    && (es[0].event == RepairCounted(i) || (!(es[0].event.RepairFails? && es[0].event.i == i) && CountedNext(es[1..], i)))
  }

  /** Somewhere in the run the client of slot `i` was lost after its reconnect had reached ready and
      before that task resumed, and the task then counted it as reconnected. */
  ghost predicate LostThenCounted(s: State, es: seq<Timed>, i: nat)
    requires Runs(s, es)
    decreases |es|
  {
    && es != []
    && ((es[0].event == Lost(i) && s.slots[i].repair == Back(false) && CountedNext(es[1..], i))
        || LostThenCounted(Next(s, es[0].event, es[0].now), es[1..], i))
  }

  /** The same, for a run that may start with the client already lost. */
  ghost predicate OrphanedIn(s: State, es: seq<Timed>, i: nat)
    requires Runs(s, es)
  {
    LostThenCounted(s, es, i) || (i < |s.slots| && s.slots[i].repair == Back(true) && CountedNext(es, i))
  }

  /** Reconnects are never switched off in the run. */
  ghost predicate NeverStopped(es: seq<Timed>)
  {
    forall t | t in es :: !t.event.StopRepairs?
  }

  lemma {:induction false} EndedStaysEnded(s: State, es: seq<Timed>, i: nat)
    requires Runs(s, es) && i < |s.slots| && Ended(s.slots[i])
    ensures i < |After(s, es).slots| && Ended(After(s, es).slots[i])
    decreases |es|
  {
    if es != [] {
      if OnSlot(es[0].event, i) {
        OneEventOnAnEndedSlot(s, es[0].event, es[0].now, i);
      } else {
        OthersStay(s, es[0].event, es[0].now, i);
      }
      EndedStaysEnded(Next(s, es[0].event, es[0].now), es[1..], i);
    }
  }

  /** An orphan's only events are those of a login that has still to resume. */
  lemma OneEventOnAnOrphan(s: State, e: Event, now: nat, i: nat)
    requires Enabled(s, e) && Orphans(s, i) && OnSlot(e, i)
    ensures var s' := Next(s, e, now);
      && (Orphans(s', i) || Ended(s'.slots[i]))
      && (Orphans(s', i) ==> s'.terminalFailures == s.terminalFailures)
      && !e.Lost? && !e.RepairCounted?
  {
  }

  lemma BackAndLost(s: State, e: Event, now: nat, i: nat)
    requires Enabled(s, e) && i < |s.slots|
    requires (e.RepairCounted? || e.RepairFails?) && e.i == i ==> s.slots[i].repair != Back(true)
    ensures SlotAfter(s, e, now, i).repair == Back(true) <==>
            s.slots[i].repair == Back(true) || (e == Lost(i) && s.slots[i].repair == Back(false))
  {
    if !OnSlot(e, i) {
      OthersStay(s, e, now, i);
    }
  }

  /** The first event of a run only moves a lost client on. */
  lemma OrphanedInUnfolds(s: State, es: seq<Timed>, i: nat)
    requires Runs(s, es) && es != [] && i < |s.slots|
    requires (es[0].event.RepairCounted? || es[0].event.RepairFails?) && es[0].event.i == i ==> s.slots[i].repair != Back(true)
    ensures OrphanedIn(s, es, i) <==> OrphanedIn(Next(s, es[0].event, es[0].now), es[1..], i)
  {
    BackAndLost(s, es[0].event, es[0].now, i);
  }

  lemma ReportsOfTheFirst(s: State, es: seq<Timed>, i: nat)
    requires Runs(s, es) && es != [] && OnSlot(es[0].event, i)
    ensures var s' := Next(s, es[0].event, es[0].now);
      Reported(s, es, i) == s'.terminalFailures - s.terminalFailures + Reported(s', es[1..], i)
  {
  }

  lemma {:induction false} AnOrphanStaysOne(s: State, es: seq<Timed>, i: nat)
    requires Runs(s, es) && Orphans(s, i)
    ensures i < |After(s, es).slots| && (Orphan(After(s, es).slots[i]) || Ended(After(s, es).slots[i]))
    ensures Orphan(After(s, es).slots[i]) ==> Reported(s, es, i) == 0 && !OrphanedIn(s, es, i)
    decreases |es|
  {
    if es != [] {
      var s' := Next(s, es[0].event, es[0].now);
      if OnSlot(es[0].event, i) {
        OneEventOnAnOrphan(s, es[0].event, es[0].now, i);
        ReportsOfTheFirst(s, es, i);
      } else {
        OthersStay(s, es[0].event, es[0].now, i);
      }
      if Ended(s'.slots[i]) {
        EndedStaysEnded(s', es[1..], i);
      } else {
        AnOrphanStaysOne(s', es[1..], i);
        OrphanedInUnfolds(s, es, i);
      }
    }
  }

  lemma {:induction false} ReportsOnlyGrow(s: State, es: seq<Timed>, i: nat)
    requires Runs(s, es)
    ensures Reported(s, es, i) >= 0
    decreases |es|
  {
    if es != [] {
      ReportsOnlyGrow(Next(s, es[0].event, es[0].now), es[1..], i);
    }
  }

  /** The event that makes the slot an orphan, or ends it, and all that follows. */
  lemma OrphanedOrEndedHere(s: State, es: seq<Timed>, i: nat)
    requires Books(s) && s.reconnectEnabled && Runs(s, es) && es != [] && i < |s.slots| && OnSlot(es[0].event, i)
    requires !Orphan(s.slots[i]) && !Ended(s.slots[i])
    requires var x := SlotAfter(s, es[0].event, es[0].now, i); Orphan(x) || Ended(x)
    ensures i < |After(s, es).slots|
    ensures var y := After(s, es).slots[i];
      Orphan(y) && Reported(s, es, i) == 0 <==> OrphanedIn(s, es, i) && !Ended(y)
  {
    if Ended(SlotAfter(s, es[0].event, es[0].now, i)) {
      EndedStaysEnded(Next(s, es[0].event, es[0].now), es[1..], i);
    } else {
      OrphanedHere(s, es, i);
    }
  }

  lemma OrphanedHere(s: State, es: seq<Timed>, i: nat)
    requires Books(s) && s.reconnectEnabled && Runs(s, es) && es != [] && i < |s.slots| && OnSlot(es[0].event, i)
    requires !Orphan(s.slots[i]) && !Ended(s.slots[i])
    requires Orphans(Next(s, es[0].event, es[0].now), i)
    ensures i < |After(s, es).slots|
    ensures var y := After(s, es).slots[i];
      Orphan(y) && Reported(s, es, i) == 0 <==> OrphanedIn(s, es, i) && !Ended(y)
  {
    var s' := Next(s, es[0].event, es[0].now);
    AnOrphanStaysOne(s', es[1..], i);
    if !Ended(After(s', es[1..]).slots[i]) {
      OneEvent(s, es[0].event, es[0].now, i);
      OrphanHereIn(s, es, i);
      ReportsOfTheFirst(s, es, i);
    }
  }

  lemma OrphanHereIn(s: State, es: seq<Timed>, i: nat)
    requires Books(s) && s.reconnectEnabled && Runs(s, es) && es != [] && i < |s.slots| && OnSlot(es[0].event, i)
    requires !Orphan(s.slots[i]) && !Ended(s.slots[i]) && Orphans(Next(s, es[0].event, es[0].now), i)
    requires !OrphanedIn(Next(s, es[0].event, es[0].now), es[1..], i)
    ensures OrphanedIn(s, es, i) <==> es[0].event == RepairCounted(i) && s.slots[i].repair == Back(true)
  {
    assert SlotOk(s.slots[i]) by { assert s.slots[i] in s.slots; }
  }

  lemma {:induction false} UnreportedExactlyWhenOrphanedIn(s: State, es: seq<Timed>, i: nat)
    requires Books(s) && s.reconnectEnabled && Runs(s, es) && NeverStopped(es) && i < |After(s, es).slots|
    requires i < |s.slots| ==> !Orphan(s.slots[i]) && !Ended(s.slots[i])
    ensures var y := After(s, es).slots[i];
      Orphan(y) && Reported(s, es, i) == 0 <==> OrphanedIn(s, es, i) && !Ended(y)
    decreases |es|
  {
    if es != [] {
      var s' := Next(s, es[0].event, es[0].now);
      assert es[0] in es;
      assert NeverStopped(es[1..]) by { assert forall t | t in es[1..] :: t in es; }
      StepKeepsBooks(s, es[0].event, es[0].now);
      StaysEnabled(s, es[0].event, es[0].now);
      if i < |s.slots| && (Orphan(s'.slots[i]) || Ended(s'.slots[i])) {
        OnSlotOr(s, es[0].event, es[0].now, i);
        OrphanedOrEndedHere(s, es, i);
      } else {
        UnreportedExactlyWhenOrphanedIn(s', es[1..], i);
        QuietReports(s, es, i);
        QuietOrphanedIn(s, es, i);
      }
    }
  }

  lemma StaysEnabled(s: State, e: Event, now: nat)
    requires Enabled(s, e) && !e.StopRepairs?
    ensures Next(s, e, now).reconnectEnabled == s.reconnectEnabled
  {
  }

  lemma OnSlotOr(s: State, e: Event, now: nat, i: nat)
    requires Enabled(s, e) && i < |s.slots| && SlotAfter(s, e, now, i) != s.slots[i]
    ensures OnSlot(e, i)
  {
  }

  /** An event that leaves the slot neither an orphan nor ended reports nothing of it. */
  ghost predicate Quiet(s: State, t: Timed, i: nat)
    requires Enabled(s, t.event)
  {
    && (i < |s.slots| ==> !Orphan(s.slots[i]) && !Ended(s.slots[i]))
    && var s' := Next(s, t.event, t.now);
      i < |s'.slots| ==> !Orphan(s'.slots[i]) && !Ended(s'.slots[i])
  }

  lemma QuietReports(s: State, es: seq<Timed>, i: nat)
    requires Books(s) && s.reconnectEnabled && Runs(s, es) && es != [] && Quiet(s, es[0], i)
    ensures Reported(s, es, i) == Reported(Next(s, es[0].event, es[0].now), es[1..], i)
  {
    if OnSlot(es[0].event, i) {
      ReportsOfTheFirst(s, es, i);
      OneEvent(s, es[0].event, es[0].now, i);
    }
  }

  lemma QuietOrphanedIn(s: State, es: seq<Timed>, i: nat)
    requires Books(s) && s.reconnectEnabled && Runs(s, es) && es != [] && Quiet(s, es[0], i)
    ensures OrphanedIn(s, es, i) <==> OrphanedIn(Next(s, es[0].event, es[0].now), es[1..], i)
  {
    if i < |s.slots| {
      if OnSlot(es[0].event, i) {
        BackIsNotQuiet(s, es[0].event, es[0].now, i);
      }
      OrphanedInUnfolds(s, es, i);
    } else {
      NotYetLaunched(s, es, i);
    }
  }

  lemma NotYetLaunched(s: State, es: seq<Timed>, i: nat)
    requires Runs(s, es) && es != [] && i >= |s.slots|
    ensures OrphanedIn(s, es, i) <==> OrphanedIn(Next(s, es[0].event, es[0].now), es[1..], i)
  {
    var s' := Next(s, es[0].event, es[0].now);
    assert i < |s'.slots| ==> s'.slots[i].repair.Idle?;
    assert es[0].event != Lost(i);
  }

  lemma BackIsNotQuiet(s: State, e: Event, now: nat, i: nat)
    requires Books(s) && i < |s.slots| && Enabled(s, e) && OnSlot(e, i) && !Ended(s.slots[i])
    requires !Orphans(Next(s, e, now), i)
    ensures e.RepairCounted? || e.RepairFails? ==> s.slots[i].repair != Back(true)
  {
    assert SlotOk(s.slots[i]) by { assert s.slots[i] in s.slots; }
  }

  /** With reconnects enabled throughout, a shard ends with an orphan it never reported exactly when
      that client was lost between its reconnect's reaching ready and the task's resuming, and the task
      then counted it: every other lost client is up again, has its reconnect under way, has had its
      login refused or cancelled, or left a terminal failure. */
  lemma ALossIsUnreportedExactlyWhenItsReconnectIsCountedLost(target: nat, t0: int, es: seq<Timed>, i: nat)
    requires Runs(Fresh(target, t0), es) && NeverStopped(es) && i < |After(Fresh(target, t0), es).slots|
    ensures Reported(Fresh(target, t0), es, i) >= 0
    ensures var s0 := Fresh(target, t0); var y := After(s0, es).slots[i];
      Orphan(y) && Reported(s0, es, i) == 0 <==> LostThenCounted(s0, es, i) && !Ended(y)
  {
    FreshBooks(target, t0);
    ReportsOnlyGrow(Fresh(target, t0), es, i);
    UnreportedExactlyWhenOrphanedIn(Fresh(target, t0), es, i);
  }
}
