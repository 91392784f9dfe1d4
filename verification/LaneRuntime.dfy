/** `LaneRuntime` as the tasks of a shard update it, each method the lines run between two awaits. */
module LaneRuntimes {
  import opened Wrappers
  import opened Shard

  class LaneRuntime {
    const target: nat
    var slots: seq<Slot>
    var heldNow: int
    var initiated: int
    var authenticated: int
    var cancelled: int
    var terminalFailures: int
    var retries: int
    var disconnected: int
    var reconnected: int
    var failureCodes: multiset<Code>
    var targetElapsed: Option<int>
    var gateFrozen: bool
    var reconnectEnabled: bool
    var t0: int
    ghost var peakSleepers: int

    ghost function View(): State
      reads this
    {
      State(slots, target, heldNow, initiated, authenticated, cancelled, terminalFailures, retries, disconnected, reconnected,
            failureCodes, targetElapsed, gateFrozen, reconnectEnabled, t0, peakSleepers)
    }

    /** A lane at the bell. */
    constructor (target: nat, releaseNs: int)
      ensures View() == Fresh(target, releaseNs)
    {
      this.target := target;
      slots := [];
      heldNow, initiated, authenticated, cancelled, terminalFailures := 0, 0, 0, 0, 0;
      retries, disconnected, reconnected := 0, 0, 0;
      failureCodes := multiset{};
      targetElapsed := None;
      gateFrozen, reconnectEnabled := false, true;
      t0 := releaseNs;
      peakSleepers := 0;
    }

    /** `unexpected_disconnect`: one fewer held; a reconnect task unless one is already there. */
    method UnexpectedDisconnect(i: nat, now: nat)
      requires Enabled(View(), Lost(i))
      modifies this
      ensures View() == Next(old(View()), Lost(i), now)
    {
      var x := slots[i];
      disconnected := disconnected + 1;
      heldNow := heldNow - 1;
      x := x.(line := Down(now, x.line.since), losses := x.losses + 1);
      if x.login == Ready(false) {
        x := x.(login := Ready(true));
      }
      if x.repair == Back(false) {
        x := x.(repair := Back(true));
      } else if reconnectEnabled && x.repair.Idle? {
        x := x.(repair := Created);
      }
      slots := slots[i := x];
    }

    /** The first lines of `_open_client`. */
    method OpenClient(now: nat)
      requires Enabled(View(), Launch)
      modifies this
      ensures View() == Next(old(View()), Launch, now)
    {
      initiated := initiated + 1;
      slots := slots + [Slot(Connecting(0), Idle, Down(now, now), 0, 0, 0)];
    }

    method CountHeldClient(now: nat)
      modifies this`heldNow, this`targetElapsed
      ensures View() == CountHeld(old(View()), now)
    {
      heldNow := heldNow + 1;
      if !gateFrozen && heldNow == target {
        targetElapsed := Some(now - t0);
      }
    }

    /** One terminal failure under its code, and what is left of its slot. */
    method CountTerminal(i: nat, x: Slot, code: Code)
      requires i < |slots|
      modifies this`terminalFailures, this`failureCodes, this`slots
      ensures View() == Terminal(Put(old(View()), i, x), code)
    {
      terminalFailures := terminalFailures + 1;
      failureCodes := failureCodes + multiset{code};
      slots := slots[i := x];
    }

    /** `_open_client` resuming after its client reached ready. */
    method FinishLogin(i: nat, now: nat)
      requires Enabled(View(), LoginCounted(i))
      modifies this
      ensures View() == Next(old(View()), LoginCounted(i), now)
    {
      authenticated := authenticated + 1;
      slots := slots[i := slots[i].(login := Counted)];
      CountHeldClient(now);
    }

    /** `_open_client`'s `except Exception`: retried within the slot's three tries and the shard's
        budget, else a terminal failure. */
    method FailLogin(i: nat, code: Code, now: nat)
      requires Enabled(View(), LoginFails(i, code))
      modifies this
      ensures View() == Next(old(View()), LoginFails(i, code), now)
    {
      var x := slots[i];
      if x.login.Ready? {
        x := Uncounted(x, now);
      } else if Retryable(code) && x.login.retries < MAX_RETRIES_PER_CLIENT && retries < PARTITION_RETRY_BUDGET {
        retries := retries + 1;
        slots := slots[i := x.(login := Backoff(x.login.retries))];
        return;
      }
      CountTerminal(i, x.(login := Refused), code);
    }

    /** `_open_client`'s `except CancelledError`. */
    method CancelLogin(i: nat, now: nat)
      requires Enabled(View(), LoginCancelled(i))
      modifies this
      ensures View() == Next(old(View()), LoginCancelled(i), now)
    {
      cancelled := cancelled + 1;
      var x := slots[i];
      if x.login.Ready? {
        x := Uncounted(x, now);
      }
      slots := slots[i := x.(login := Stopped)];
    }

    /** `_reconnect_client` from the head of its loop to its next await. */
    method ReconnectLoop(i: nat, tries: nat)
      requires i < |slots|
      modifies this
      ensures View() == RepairLoop(old(View()), i, tries)
    {
      if tries >= RECONNECT_MAX_TRIES || retries >= PARTITION_RETRY_BUDGET {
        CountTerminal(i, slots[i].(repair := Idle), ServerResetUnrecovered);
      } else if tries > 0 {
        slots := slots[i := slots[i].(repair := Sleeping(tries))];
        peakSleepers := if Sum(slots).sleeping > peakSleepers then Sum(slots).sleeping else peakSleepers;
      } else {
        slots := slots[i := slots[i].(repair := Trying(1))];
        retries := retries + 1;
      }
    }

    /** A reconnect's backoff is over: the retry is spent without looking at the budget again. */
    method SpendAfterBackoff(i: nat, now: nat)
      requires Enabled(View(), RepairWakes(i))
      modifies this
      ensures View() == Next(old(View()), RepairWakes(i), now)
    {
      retries := retries + 1;
      slots := slots[i := slots[i].(repair := Trying(slots[i].repair.tries + 1))];
    }

    /** A reconnect's try failed. */
    method FailReconnect(i: nat, code: Code, now: nat)
      requires Enabled(View(), RepairFails(i, code))
      modifies this
      ensures View() == Next(old(View()), RepairFails(i, code), now)
    {
      var x := slots[i];
      if x.repair.Trying? && Retryable(code) {
        ReconnectLoop(i, x.repair.tries);
        return;
      }
      if x.repair.Trying? {
        x := x.(repair := Idle);
      } else if x.repair.lost {
        x := x.(repair := Idle, abandoned := x.abandoned + 1);
      } else {
        x := x.(repair := Idle, line := Down(now, x.line.since));
      }
      CountTerminal(i, x, code);
    }

    /** `_reconnect_client` resuming after its client reached ready. */
    method FinishReconnect(i: nat, now: nat)
      requires Enabled(View(), RepairCounted(i))
      modifies this
      ensures View() == Next(old(View()), RepairCounted(i), now)
    {
      reconnected := reconnected + 1;
      slots := slots[i := slots[i].(repair := Idle, repaired := slots[i].repaired + 1)];
      CountHeldClient(now);
    }
  }
}
