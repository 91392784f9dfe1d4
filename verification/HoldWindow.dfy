/** When a hold may end: the window's counters in one process, and the loop that waits on them. */
module HoldWindow {
  import opened Arithmetic
  import opened Wrappers

  const HOLD_NS: nat := 30_000_000_000
  const HOLD_RESTART_LIMIT_NS: nat := 120_000_000_000

  /** The latest completed reconnect (0 for none) and how many are in flight. */
  datatype Window = Window(latest: nat, inFlight: int)

  function Begin(w: Window): Window
  {
    w.(inFlight := w.inFlight + 1)
  }

  function End(w: Window, completed: Option<nat>): Window
  {
    Window(if completed.Some? then Max(w.latest, completed.value) else w.latest, w.inFlight - 1)
  }

  /** `HoldWindow.local()`: the closures over one process's state. */
  class LocalWindow {
    var latest: nat
    var inFlight: int

    function View(): Window
      reads this
    {
      Window(latest, inFlight)
    }

    constructor ()
      ensures View() == Window(0, 0)
    {
      latest, inFlight := 0, 0;
    }

    method BeginOne()
      modifies this
      ensures View() == Begin(old(View()))
    {
      inFlight := inFlight + 1;
    }

    method EndOne(completed: Option<nat>)
      modifies this
      ensures View() == End(old(View()), completed)
    {
      inFlight := inFlight - 1;
      if completed.Some? && completed.value > latest {
        latest := completed.value;
      }
    }

    method Read() returns (w: Window)
      ensures w == View()
    {
      w := Window(latest, inFlight);
    }
  }

  /** One poll of the hold loop: what it read from the window, and the clock just after. */
  datatype Poll = Poll(window: Window, now: nat)

  predicate Settles(p: Poll, holdStart: nat)
  {
    p.window.inFlight == 0 && p.now >= Max(holdStart, p.window.latest) + HOLD_NS
  }

  predicate OutOfTime(p: Poll, holdStart: nat)
  {
    p.now >= holdStart + HOLD_NS + HOLD_RESTART_LIMIT_NS
  }

  /** `_hold_until_settled`, over any window whose clock moves between polls: it stops at the first
      poll that settles or is out of time, and settling wins when both hold at once. */
  method HoldUntilSettled(poll: nat -> Poll, holdStart: nat) returns (settled: bool, polls: nat)
    requires forall k: nat :: poll(k).now < poll(k + 1).now
    ensures forall k | 0 <= k < polls :: !Settles(poll(k), holdStart) && !OutOfTime(poll(k), holdStart)
    ensures settled <==> Settles(poll(polls), holdStart)
    ensures !settled ==> OutOfTime(poll(polls), holdStart)
  {
    var limit := holdStart + HOLD_NS + HOLD_RESTART_LIMIT_NS;
    polls := 0;
    while true
      invariant forall k | 0 <= k < polls :: !Settles(poll(k), holdStart) && !OutOfTime(poll(k), holdStart)
      decreases limit - poll(polls).now
    {
      var Window(latest, inFlight) := poll(polls).window;
      var end := Max(holdStart, latest) + HOLD_NS;
      var now := poll(polls).now;
      if inFlight == 0 && now >= end {
        return true, polls;
      }
      if now >= limit {
        return false, polls;
      }
      polls := polls + 1;
    }
  }
}
