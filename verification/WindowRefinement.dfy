/** The lane's shared window does what one process's window would: each `begin` and `end` takes effect
    at once, and a reader that missed no whole `end` reads what the single window holds. */
module WindowRefinement {
  import opened Arithmetic
  import opened Wrappers
  import opened HoldWindow
  import opened Shard
  import opened LaneHold
  import opened LaneLaws

  /** The latest completion still to be written, and the counts still to be dropped. */
  function PendingLatest(ms: seq<Micro>): nat
  {
    if ms == [] then 0
    else Max(PendingLatest(ms[..|ms| - 1]), if ms[|ms| - 1].Writing? then ms[|ms| - 1].completed else 0)
  }

  function PendingDrops(ms: seq<Micro>): nat
  {
    if ms == [] then 0
    else PendingDrops(ms[..|ms| - 1]) + if ms[|ms| - 1].Writing? || ms[|ms| - 1].Dropping? then 1 else 0
  }

  lemma {:induction false} PendingOfUpdate(ms: seq<Micro>, j: nat, m: Micro)
    requires j < |ms|
    ensures PendingDrops(ms[j := m]) == PendingDrops(ms) - One(ms[j].Writing? || ms[j].Dropping?) + One(m.Writing? || m.Dropping?)
    ensures !ms[j].Writing? ==> PendingLatest(ms[j := m]) == Max(PendingLatest(ms), if m.Writing? then m.completed else 0)
    ensures ms[j].Writing? && !m.Writing? ==> PendingLatest(ms) == Max(PendingLatest(ms[j := m]), ms[j].completed)
  {
    var n := |ms| - 1;
    if j == n {
      assert ms[j := m][..n] == ms[..n];
    } else {
      assert ms[j := m][..n] == ms[..n][j := m];
      PendingOfUpdate(ms[..n], j, m);
    }
  }

  lemma {:induction false} NothingPending(ms: seq<Micro>)
    requires forall j | 0 <= j < |ms| :: !ms[j].Writing? && !ms[j].Dropping?
    ensures PendingLatest(ms) == 0 && PendingDrops(ms) == 0
  {
    if ms != [] {
      NothingPending(ms[..|ms| - 1]);
    }
  }

  /** The single-process window that the shared counters stand for. */
  function LocalView(l: Lane): Window
  {
    Window(Max(l.latest, PendingLatest(l.micro)), l.inFlight - PendingDrops(l.micro))
  }

  /** What a step is to that window: a reconnect's first line begins, its last line ends, and no other
      step touches it. */
  ghost function WindowCalls(l: Lane, e: LaneEvent, w: Window): Window
    requires CanStep(l, e)
  {
    if !e.Local? then w
    else
      var begun := if e.event.RepairBegins? then Begin(w) else w;
      match EndsWith(l.shards[e.j], e.event, l.clock)
      case Writing(completed) => End(begun, Some(completed))
      case Dropping => End(begun, None)
      case _ => begun
  }

  /** Every step of the shared window is an atomic step of the single one. */
  lemma EachStepIsOneWindowCall(l: Lane, e: LaneEvent)
    requires Shaped(l) && CanStep(l, e)
    ensures LocalView(Step(l, e)) == WindowCalls(l, e, LocalView(l))
  {
    if !e.Tick? && !e.Close? {
      PendingOfUpdate(l.micro, e.j, Step(l, e).micro[e.j]);
      assert Step(l, e).micro == l.micro[e.j := Step(l, e).micro[e.j]];
    }
  }

  /** A read that loads an in-flight count of zero equals an atomic read of the single window exactly
      when no whole end() fell between its two loads. */
  lemma AReadIsAtomicExactlyWithoutAnEndBetweenItsLoads(l: Lane, es: seq<LaneEvent>)
    requires Inv(l) && Runs(l, es) && After(l, es).inFlight == 0
    ensures Window(l.latest, After(l, es).inFlight) == LocalView(After(l, es)) <==> !WholeEndWithin(l, es)
  {
    RunInv(l, es);
    NoneInFlight(After(l, es));
    NothingPending(After(l, es).micro);
    AReadIsStaleExactlyWhenAnEndFallsBetweenItsLoads(l, es);
  }
}
