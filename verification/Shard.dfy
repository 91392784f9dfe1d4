/** One shard of a lane: its client slots, their first logins, and the reconnects of held clients the
    server resets. One event is the code an asyncio task runs between two awaits. */
module Shard {
  import opened Wrappers

  const PARTITION_RETRY_BUDGET := 25
  const MAX_RETRIES_PER_CLIENT := 3
  const RECONNECT_MAX_TRIES := 7

  /** The code a failure is counted under: the refusals a retry may ride out (PgBouncer's 08P01,
      53300, 57P03, a socket lost or refused), then the terminal ones. */
  datatype Code =
    | PoolerRefused
    | TooManyConnections
    | CannotConnectNow
    | LostBeforeAuthentication
    | ConnectFailed
    | ConnectTimeout
    | ServerResetUnrecovered
    | HoldRestartUnsettled
    | OtherCode(name: string)

  predicate Retryable(code: Code)
  {
    code.PoolerRefused? || code.TooManyConnections? || code.CannotConnectNow? || code.LostBeforeAuthentication? || code.ConnectFailed?
  }

  // ---------- a slot ----------

  /** A slot's first login. `Ready` is a client that reached ready before its task resumed to count
      it; `lost` says the server has reset that client meanwhile. */
  datatype Login =
    | Connecting(retries: nat)
    | Ready(lost: bool)
    | Backoff(retries: nat)
    | Counted
    | Refused
    | Stopped

  /** A slot's reconnect task: created but not yet run, asleep between tries, in a try, or with a
      client that reached ready before the task resumed. */
  datatype Repair = Idle | Created | Sleeping(tries: nat) | Trying(tries: nat) | Back(lost: bool)

  /** The slot's connection: ready, open and not being closed from this side, since when; or lost,
      with when that was and since when it had been up. */
  datatype Line = Down(at: nat, since: nat) | Up(since: nat)

  /** `abandoned` counts clients the server reset before they were counted, whose task then ended
      without counting them. */
  datatype Slot = Slot(login: Login, repair: Repair, line: Line, losses: nat, repaired: nat, abandoned: nat)

  predicate Begun(r: Repair)
  {
    r.Sleeping? || r.Trying? || r.Back?
  }

  ghost predicate SlotOk(x: Slot)
  {
    && (x.login.Connecting? || x.login.Backoff? ==> x.line.Down? && x.repair.Idle?)
    && (x.login.Ready? && !x.login.lost ==> x.line.Up? && x.repair.Idle?)
    && (x.repair.Back? ==> (x.line.Up? <==> !x.repair.lost))
    && (x.repair.Created? || x.repair.Sleeping? || x.repair.Trying? ==> x.line.Down?)
    && (x.repair.Trying? || x.repair.Sleeping? ==> x.repair.tries > 0)
    && x.losses >= x.repaired
    && (!x.repair.Idle? ==> x.losses >= x.repaired + 1)
    && (x.repair.Back? && x.repair.lost ==> x.losses >= x.repaired + 2)
    && ((x.login.Counted? || x.login.Ready?) && x.line.Down? ==> x.losses >= x.repaired + 1)
  }

  /** Lost for good: no reconnect is under way, and none can start. */
  predicate Broken(x: Slot)
  {
    x.login.Counted? && x.repair.Idle? && x.line.Down?
  }

  function One(b: bool): int
  {
    if b then 1 else 0
  }

  /** Ready and open, less ready but not (or never) counted by its task. */
  function HeldBy(x: Slot): int
  {
    One(x.line.Up?) - One(x.login.Ready?) - One(x.repair.Back?) - x.abandoned
  }

  // ---------- sums over slots ----------

  datatype Totals = Totals(held: int, losses: int, repaired: int, counted: int, stopped: int, refused: int,
                           pending: int, sleeping: int, begun: int)

  function Plus(a: Totals, b: Totals): Totals
  {
    Totals(a.held + b.held, a.losses + b.losses, a.repaired + b.repaired, a.counted + b.counted, a.stopped + b.stopped,
           a.refused + b.refused, a.pending + b.pending, a.sleeping + b.sleeping, a.begun + b.begun)
  }

  function Minus(a: Totals, b: Totals): Totals
  {
    Totals(a.held - b.held, a.losses - b.losses, a.repaired - b.repaired, a.counted - b.counted, a.stopped - b.stopped,
           a.refused - b.refused, a.pending - b.pending, a.sleeping - b.sleeping, a.begun - b.begun)
  }

  function Tally(x: Slot): Totals
  {
    Totals(HeldBy(x), x.losses, x.repaired, One(x.login.Counted?), One(x.login.Stopped?), One(x.login.Refused?),
           One(x.login.Connecting? || x.login.Ready? || x.login.Backoff?), One(x.repair.Sleeping?), One(Begun(x.repair)))
  }

  const NOTHING := Totals(0, 0, 0, 0, 0, 0, 0, 0, 0)

  function Add(ts: seq<Totals>): Totals
  {
    if ts == [] then NOTHING else Plus(Add(ts[..|ts| - 1]), ts[|ts| - 1])
  }

  lemma {:induction false} AddUpdate(ts: seq<Totals>, i: nat, t: Totals)
    requires i < |ts|
    ensures Add(ts[i := t]) == Plus(Minus(Add(ts), ts[i]), t)
  {
    var n := |ts| - 1;
    if i == n {
      assert ts[i := t][..n] == ts[..n];
    } else {
      assert ts[i := t][..n] == ts[..n][i := t];
      AddUpdate(ts[..n], i, t);
    }
  }

  function Tallies(slots: seq<Slot>): (ts: seq<Totals>)
    ensures |ts| == |slots|
  {
    seq(|slots|, i requires 0 <= i < |slots| => Tally(slots[i]))
  }

  function Sum(slots: seq<Slot>): Totals
  {
    Add(Tallies(slots))
  }

  lemma SumOfUpdate(slots: seq<Slot>, i: nat, x: Slot)
    requires i < |slots|
    ensures Sum(slots[i := x]) == Plus(Minus(Sum(slots), Tally(slots[i])), Tally(x))
  {
    assert Tallies(slots[i := x]) == Tallies(slots)[i := Tally(x)];
    AddUpdate(Tallies(slots), i, Tally(x));
  }

  lemma SumOfOneMore(slots: seq<Slot>, x: Slot)
    ensures Sum(slots + [x]) == Plus(Sum(slots), Tally(x))
  {
    assert Tallies(slots + [x])[..|slots|] == Tallies(slots);
  }

  lemma SumOfSingle(slots: seq<Slot>)
    requires |slots| == 1
    ensures Sum(slots) == Tally(slots[0])
  {
    var ts := Tallies(slots);
    assert ts[..0] == [];
    assert Add(ts) == Plus(Add(ts[..0]), ts[0]);
  }

  /** One slot's share of every bound. */
  predicate InBounds(t: Totals)
  {
    && t.held <= 1
    && t.losses >= t.repaired
    && t.counted + t.stopped + t.refused + t.pending == 1
    && 0 <= t.counted && 0 <= t.stopped && 0 <= t.refused && 0 <= t.pending && 0 <= t.sleeping <= t.begun
  }

  lemma {:induction false} AddBounds(ts: seq<Totals>)
    requires forall i | 0 <= i < |ts| :: InBounds(ts[i])
    ensures var t := Add(ts);
      && t.held <= |ts|
      && t.losses >= t.repaired
      && t.counted + t.stopped + t.refused + t.pending == |ts|
      && 0 <= t.counted && 0 <= t.stopped && 0 <= t.refused && 0 <= t.pending && 0 <= t.sleeping <= t.begun
    ensures Add(ts).held == |ts| ==> forall i | 0 <= i < |ts| :: ts[i].held == 1
    ensures Add(ts).losses == Add(ts).repaired ==> forall i | 0 <= i < |ts| :: ts[i].losses == ts[i].repaired
    ensures Add(ts).counted == |ts| ==> forall i | 0 <= i < |ts| :: ts[i].counted == 1
    ensures Add(ts).begun == 0 ==> forall i | 0 <= i < |ts| :: ts[i].begun == 0
  {
    if ts != [] {
      AddBounds(ts[..|ts| - 1]);
    }
  }

  lemma SumBounds(slots: seq<Slot>)
    requires forall x | x in slots :: SlotOk(x)
    ensures var t := Sum(slots);
      && t.held <= |slots|
      && t.losses >= t.repaired
      && t.counted + t.stopped + t.refused + t.pending == |slots|
      && 0 <= t.counted && 0 <= t.stopped && 0 <= t.refused && 0 <= t.pending && 0 <= t.sleeping <= t.begun
    ensures Sum(slots).held == |slots| ==> forall i | 0 <= i < |slots| :: HeldBy(slots[i]) == 1
    ensures Sum(slots).losses == Sum(slots).repaired ==> forall i | 0 <= i < |slots| :: slots[i].losses == slots[i].repaired
    ensures Sum(slots).counted == |slots| ==> forall i | 0 <= i < |slots| :: slots[i].login.Counted?
    ensures Sum(slots).begun == 0 ==> forall i | 0 <= i < |slots| :: !Begun(slots[i].repair)
  {
    var ts := Tallies(slots);
    forall i | 0 <= i < |ts| ensures InBounds(ts[i]) {
      assert slots[i] in slots;
    }
    AddBounds(ts);
    forall i | 0 <= i < |slots|
      ensures Sum(slots).held == |slots| ==> HeldBy(slots[i]) == 1
      ensures Sum(slots).losses == Sum(slots).repaired ==> slots[i].losses == slots[i].repaired
      ensures Sum(slots).counted == |slots| ==> slots[i].login.Counted?
      ensures Sum(slots).begun == 0 ==> !Begun(slots[i].repair)
    {
      assert ts[i] == Tally(slots[i]);
    }
  }

  // ---------- the shard ----------

  /** `LaneRuntime`'s counters. `peakSleepers` is a history variable: the most reconnects that were
      ever asleep between tries at once. */
  datatype State = State(
    slots: seq<Slot>, target: nat, heldNow: int, initiated: int, authenticated: int, cancelled: int, terminalFailures: int,
    retries: int, disconnected: int, reconnected: int, failureCodes: multiset<Code>,
    targetElapsed: Option<int>, gateFrozen: bool, reconnectEnabled: bool, t0: int, peakSleepers: int)

  function Fresh(target: nat, t0: int): State
  {
    State([], target, 0, 0, 0, 0, 0, 0, 0, 0, multiset{}, None, false, true, t0, 0)
  }

  datatype Event =
    | Launch
    | LoginReady(i: nat)
    | LoginCounted(i: nat)
    | LoginFails(i: nat, code: Code)
    | LoginRetries(i: nat)
    | LoginCancelled(i: nat)
    | Lost(i: nat)
    | RepairBegins(i: nat)
    | RepairReady(i: nat)
    | RepairCounted(i: nat)
    | RepairFails(i: nat, code: Code)
    | RepairWakes(i: nat)
    | FreezeGate
    | StopRepairs

  predicate Enabled(s: State, e: Event)
  {
    match e
    case Launch => |s.slots| < s.target
    case FreezeGate => true
    case StopRepairs => true
    case _ =>
      e.i < |s.slots| &&
      var x := s.slots[e.i];
      match e
      case LoginReady(i) => x.login.Connecting?
      case LoginCounted(i) => x.login.Ready?
      case LoginFails(i, code) => x.login.Connecting? || (x.login.Ready? && code.ConnectTimeout?)
      case LoginRetries(i) => x.login.Backoff?
      case LoginCancelled(i) => x.login.Connecting? || x.login.Ready? || x.login.Backoff?
      case Lost(i) => x.line.Up?
      case RepairBegins(i) => x.repair.Created?
      case RepairReady(i) => x.repair.Trying?
      case RepairCounted(i) => x.repair.Back?
      case RepairFails(i, code) => x.repair.Trying? || (x.repair.Back? && code.ConnectTimeout?)
      case RepairWakes(i) => x.repair.Sleeping?
      case _ => false
  }

  /** The last lines of a login that was counted: one more held, and the gate's time if that is all. */
  function CountHeld(s: State, now: nat): State
  {
    s.(heldNow := s.heldNow + 1,
       targetElapsed := if !s.gateFrozen && s.heldNow + 1 == s.target then Some(now - s.t0) else s.targetElapsed)
  }

  function Terminal(s: State, code: Code): State
  {
    s.(terminalFailures := s.terminalFailures + 1, failureCodes := s.failureCodes + multiset{code})
  }

  function Put(s: State, i: nat, x: Slot): State
    requires i < |s.slots|
  {
    s.(slots := s.slots[i := x])
  }

  /** The first line of the reconnect loop with `tries` tries behind it: give up, sleep, or (on the
      first try) spend a retry at once. */
  function RepairLoop(s: State, i: nat, tries: nat): State
    requires i < |s.slots|
  {
    var x := s.slots[i];
    if tries >= RECONNECT_MAX_TRIES || s.retries >= PARTITION_RETRY_BUDGET then
      Terminal(Put(s, i, x.(repair := Idle)), ServerResetUnrecovered)
    else if tries > 0 then
      var s' := Put(s, i, x.(repair := Sleeping(tries)));
      s'.(peakSleepers := if Sum(s'.slots).sleeping > s.peakSleepers then Sum(s'.slots).sleeping else s.peakSleepers)
    else
      Put(s, i, x.(repair := Trying(1))).(retries := s.retries + 1)
  }

  function Next(s: State, e: Event, now: nat): State
    requires Enabled(s, e)
  {
    match e
    case Launch =>
      s.(slots := s.slots + [Slot(Connecting(0), Idle, Down(now, now), 0, 0, 0)], initiated := s.initiated + 1)
    case FreezeGate => s.(gateFrozen := true)
    case StopRepairs => s.(reconnectEnabled := false)
    case LoginReady(i) => Put(s, i, s.slots[i].(login := Ready(false), line := Up(now)))
    case LoginCounted(i) =>
      CountHeld(Put(s, i, s.slots[i].(login := Counted)).(authenticated := s.authenticated + 1), now)
    case LoginFails(i, code) =>
      var x := s.slots[i];
      if x.login.Connecting? then
        if Retryable(code) && x.login.retries < MAX_RETRIES_PER_CLIENT && s.retries < PARTITION_RETRY_BUDGET then
          Put(s, i, x.(login := Backoff(x.login.retries))).(retries := s.retries + 1)
        else
          Terminal(Put(s, i, x.(login := Refused)), code)
      else
        Terminal(Put(s, i, Uncounted(x, now).(login := Refused)), code)
    case LoginRetries(i) => Put(s, i, s.slots[i].(login := Connecting(s.slots[i].login.retries + 1)))
    case LoginCancelled(i) =>
      var x := s.slots[i];
      Put(s, i, (if x.login.Ready? then Uncounted(x, now) else x).(login := Stopped)).(cancelled := s.cancelled + 1)
    case Lost(i) =>
      var x := s.slots[i];
      var y := x.(line := Down(now, x.line.since), losses := x.losses + 1,
                  login := if x.login == Ready(false) then Ready(true) else x.login,
                  repair := if x.repair == Back(false) then Back(true)
                            else if s.reconnectEnabled && x.repair.Idle? then Created else x.repair);
      Put(s, i, y).(disconnected := s.disconnected + 1, heldNow := s.heldNow - 1)
    case RepairBegins(i) => RepairLoop(s, i, 0)
    case RepairReady(i) => Put(s, i, s.slots[i].(repair := Back(false), line := Up(now)))
    case RepairCounted(i) =>
      var x := s.slots[i];
      CountHeld(Put(s, i, x.(repair := Idle, repaired := x.repaired + 1)).(reconnected := s.reconnected + 1), now)
    case RepairFails(i, code) =>
      var x := s.slots[i];
      if x.repair.Trying? && Retryable(code) then RepairLoop(s, i, x.repair.tries)
      else if x.repair.Trying? then Terminal(Put(s, i, x.(repair := Idle)), code)
      else if x.repair.lost then Terminal(Put(s, i, x.(repair := Idle, abandoned := x.abandoned + 1)), code)
      else Terminal(Put(s, i, x.(repair := Idle, line := Down(now, x.line.since))), code)
    case RepairWakes(i) =>
      Put(s, i, s.slots[i].(repair := Trying(s.slots[i].repair.tries + 1))).(retries := s.retries + 1)
  }

  lemma RepairLoopKeepsSlots(s: State, i: nat, tries: nat)
    requires i < |s.slots|
    ensures |RepairLoop(s, i, tries).slots| == |s.slots|
  {
  }

  lemma RepairFailsKeepsSlots(s: State, i: nat, code: Code, now: nat)
    requires Enabled(s, RepairFails(i, code))
    ensures |Next(s, RepairFails(i, code), now).slots| == |s.slots|
  {
    if s.slots[i].repair.Trying? { RepairLoopKeepsSlots(s, i, s.slots[i].repair.tries); }
  }

  lemma NextKeepsSlots(s: State, e: Event, now: nat)
    requires Enabled(s, e)
    ensures |Next(s, e, now).slots| >= |s.slots|
  {
    match e
    case RepairBegins(i) => RepairLoopKeepsSlots(s, i, 0);
    case RepairFails(i, code) => RepairFailsKeepsSlots(s, i, code, now);
    case _ =>
  }

  /** What an event leaves in one slot. */
  function SlotAfter(s: State, e: Event, now: nat, i: nat): Slot
    requires Enabled(s, e) && i < |s.slots|
  {
    NextKeepsSlots(s, e, now);
    Next(s, e, now).slots[i]
  }

  /** A task that ends with a ready client it never counted: an open one is closed from this side, a
      reset one stays subtracted. */
  function Uncounted(x: Slot, now: nat): Slot
    requires x.login.Ready?
  {
    if x.login.lost then x.(abandoned := x.abandoned + 1) else x.(line := Down(now, x.line.since))
  }

  /** The counts that let a shard report `completed`, the held count left out. */
  ghost predicate CountsComplete(s: State)
  {
    s.initiated == s.authenticated == s.target && s.cancelled == 0 && s.terminalFailures == 0 && s.disconnected == s.reconnected
  }

  // ---------- what every event keeps ----------

  ghost predicate Books(s: State)
  {
    var t := Sum(s.slots);
    && (forall x | x in s.slots :: SlotOk(x))
    && |s.slots| == s.initiated <= s.target
    && s.heldNow == t.held
    && s.disconnected == t.losses && s.reconnected == t.repaired
    && s.authenticated == t.counted && s.cancelled == t.stopped
    && t.refused <= s.terminalFailures == |s.failureCodes|
    && t.sleeping <= s.peakSleepers
    && s.retries + t.sleeping <= PARTITION_RETRY_BUDGET + s.peakSleepers
  }

  lemma FreshBooks(target: nat, t0: int)
    ensures Books(Fresh(target, t0))
  {
  }

  /** What one slot's change must do to the counters. */
  ghost predicate Moves(s: State, s': State, i: nat)
    requires i < |s.slots| && i < |s'.slots|
  {
    var x, y := s.slots[i], s'.slots[i];
    var slept := One(y.repair.Sleeping?) - One(x.repair.Sleeping?);
    && s'.initiated == s.initiated && s'.target == s.target
    && s'.heldNow - s.heldNow == HeldBy(y) - HeldBy(x)
    && s'.disconnected - s.disconnected == y.losses - x.losses
    && s'.reconnected - s.reconnected == y.repaired - x.repaired
    && s'.authenticated - s.authenticated == One(y.login.Counted?) - One(x.login.Counted?)
    && s'.cancelled - s.cancelled == One(y.login.Stopped?) - One(x.login.Stopped?)
    && One(y.login.Refused?) - One(x.login.Refused?) <= s'.terminalFailures - s.terminalFailures
    && s'.terminalFailures - s.terminalFailures == |s'.failureCodes| - |s.failureCodes|
    && s'.peakSleepers >= s.peakSleepers
    && (slept == 1 ==> s'.retries == s.retries < PARTITION_RETRY_BUDGET && s'.peakSleepers >= Sum(s'.slots).sleeping)
    && (slept == 0 ==> s'.retries == s.retries || s'.retries == s.retries + 1 <= PARTITION_RETRY_BUDGET)
    && (slept == -1 ==> s'.retries <= s.retries + 1)
  }

  lemma MoveKeepsBooks(s: State, s': State, i: nat)
    requires Books(s) && i < |s.slots| && i < |s'.slots| && s'.slots == s.slots[i := s'.slots[i]]
    requires SlotOk(s'.slots[i]) && Moves(s, s', i)
    ensures Books(s')
  {
    SumOfUpdate(s.slots, i, s'.slots[i]);
    SumBounds(s'.slots);
  }

  /** One slot changes, stays well formed, and the counters move with it. */
  ghost predicate OneSlot(s: State, s': State, i: nat)
  {
    && i < |s.slots| && i < |s'.slots|
    && s'.slots == s.slots[i := s'.slots[i]]
    && SlotOk(s'.slots[i])
    && (s.slots[i].login.Counted? ==> s'.slots[i].login.Counted?)
    && s'.reconnectEnabled == s.reconnectEnabled
    && Moves(s, s', i)
  }

  lemma RepairLoopMoves(s: State, i: nat, tries: nat)
    requires i < |s.slots| && SlotOk(s.slots[i])
    requires s.slots[i].repair == if tries == 0 then Created else Trying(tries)
    ensures OneSlot(s, RepairLoop(s, i, tries), i)
  {
    var x := s.slots[i];
    if tries >= RECONNECT_MAX_TRIES || s.retries >= PARTITION_RETRY_BUDGET {
      assert RepairLoop(s, i, tries) == Terminal(Put(s, i, x.(repair := Idle)), ServerResetUnrecovered);
    } else if tries == 0 {
      assert RepairLoop(s, i, tries) == Put(s, i, x.(repair := Trying(1))).(retries := s.retries + 1);
    }
  }

  lemma LoginReadyMoves(s: State, i: nat, now: nat)
    requires Enabled(s, LoginReady(i)) && SlotOk(s.slots[i])
    ensures OneSlot(s, Next(s, LoginReady(i), now), i)
  {
  }

  lemma LoginCountedMoves(s: State, i: nat, now: nat)
    requires Enabled(s, LoginCounted(i)) && SlotOk(s.slots[i])
    ensures OneSlot(s, Next(s, LoginCounted(i), now), i)
  {
  }

  lemma LoginFailsMoves(s: State, i: nat, code: Code, now: nat)
    requires Enabled(s, LoginFails(i, code)) && SlotOk(s.slots[i])
    ensures OneSlot(s, Next(s, LoginFails(i, code), now), i)
  {
    if s.slots[i].login.Connecting? { ConnectFailsMoves(s, i, code, now); } else { ReadyFailsMoves(s, i, code, now); }
  }

  lemma ConnectFailsMoves(s: State, i: nat, code: Code, now: nat)
    requires Enabled(s, LoginFails(i, code)) && SlotOk(s.slots[i]) && s.slots[i].login.Connecting?
    ensures OneSlot(s, Next(s, LoginFails(i, code), now), i)
  {
    var x, s' := s.slots[i], Next(s, LoginFails(i, code), now);
    if Retryable(code) && x.login.retries < MAX_RETRIES_PER_CLIENT && s.retries < PARTITION_RETRY_BUDGET {
      assert s' == Put(s, i, x.(login := Backoff(x.login.retries))).(retries := s.retries + 1);
    } else {
      assert s' == Terminal(Put(s, i, x.(login := Refused)), code);
    }
  }

  lemma ReadyFailsMoves(s: State, i: nat, code: Code, now: nat)
    requires Enabled(s, LoginFails(i, code)) && SlotOk(s.slots[i]) && s.slots[i].login.Ready?
    ensures OneSlot(s, Next(s, LoginFails(i, code), now), i)
  {
  }

  lemma LoginRetriesMoves(s: State, i: nat, now: nat)
    requires Enabled(s, LoginRetries(i)) && SlotOk(s.slots[i])
    ensures OneSlot(s, Next(s, LoginRetries(i), now), i)
  {
  }

  lemma LoginCancelledMoves(s: State, i: nat, now: nat)
    requires Enabled(s, LoginCancelled(i)) && SlotOk(s.slots[i])
    ensures OneSlot(s, Next(s, LoginCancelled(i), now), i)
  {
  }

  lemma LostMoves(s: State, i: nat, now: nat)
    requires Enabled(s, Lost(i)) && SlotOk(s.slots[i])
    ensures OneSlot(s, Next(s, Lost(i), now), i)
  {
  }

  lemma RepairBeginsMoves(s: State, i: nat, now: nat)
    requires Enabled(s, RepairBegins(i)) && SlotOk(s.slots[i])
    ensures OneSlot(s, Next(s, RepairBegins(i), now), i)
  {
    RepairLoopMoves(s, i, 0);
  }

  lemma RepairReadyMoves(s: State, i: nat, now: nat)
    requires Enabled(s, RepairReady(i)) && SlotOk(s.slots[i])
    ensures OneSlot(s, Next(s, RepairReady(i), now), i)
  {
  }

  lemma RepairCountedMoves(s: State, i: nat, now: nat)
    requires Enabled(s, RepairCounted(i)) && SlotOk(s.slots[i])
    ensures OneSlot(s, Next(s, RepairCounted(i), now), i)
  {
  }

  lemma RepairFailsMoves(s: State, i: nat, code: Code, now: nat)
    requires Enabled(s, RepairFails(i, code)) && SlotOk(s.slots[i])
    ensures OneSlot(s, Next(s, RepairFails(i, code), now), i)
  {
    if s.slots[i].repair.Trying? && Retryable(code) {
      RepairLoopMoves(s, i, s.slots[i].repair.tries);
    }
  }

  lemma RepairWakesMoves(s: State, i: nat, now: nat)
    requires Enabled(s, RepairWakes(i)) && SlotOk(s.slots[i])
    ensures OneSlot(s, Next(s, RepairWakes(i), now), i)
  {
  }

  lemma EventMoves(s: State, e: Event, now: nat)
    requires !e.Launch? && !e.FreezeGate? && !e.StopRepairs?
    requires Enabled(s, e) && SlotOk(s.slots[e.i])
    ensures OneSlot(s, Next(s, e, now), e.i)
  {
    match e {
      case LoginReady(i) => LoginReadyMoves(s, i, now);
      case LoginCounted(i) => LoginCountedMoves(s, i, now);
      case LoginFails(i, code) => LoginFailsMoves(s, i, code, now);
      case LoginRetries(i) => LoginRetriesMoves(s, i, now);
      case LoginCancelled(i) => LoginCancelledMoves(s, i, now);
      case Lost(i) => LostMoves(s, i, now);
      case RepairBegins(i) => RepairBeginsMoves(s, i, now);
      case RepairReady(i) => RepairReadyMoves(s, i, now);
      case RepairCounted(i) => RepairCountedMoves(s, i, now);
      case RepairFails(i, code) => RepairFailsMoves(s, i, code, now);
      case RepairWakes(i) => RepairWakesMoves(s, i, now);
    }
  }

  /** Every event of a shard keeps its books. */
  lemma StepKeepsBooks(s: State, e: Event, now: nat)
    requires Books(s) && Enabled(s, e)
    ensures Books(Next(s, e, now))
  {
    if e.Launch? {
      SumOfOneMore(s.slots, Slot(Connecting(0), Idle, Down(now, now), 0, 0, 0));
    } else if !e.FreezeGate? && !e.StopRepairs? {
      assert s.slots[e.i] in s.slots;
      EventMoves(s, e, now);
      MoveKeepsBooks(s, Next(s, e, now), e.i);
    }
  }
}
