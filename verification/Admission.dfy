/** The admission controller: how many clients may be connecting at once, as CPU and event-loop pressure is
    observed. */
module Admission {
  import opened Arithmetic

  const MIN_ADMISSION_CONCURRENCY_PER_LANE := 2
  const LANE_CONNECT_CONCURRENCY := 15
  const ADMISSION_RECOVERY_STEP_PER_LANE := 1
  const ADMISSION_PRESSURE_INTERVALS := 2
  const ADMISSION_RECOVERY_CLEAN_INTERVALS := 3

  datatype Signal = Cpu | Loop

  datatype Observation = Observation(signal: Signal, pressured: bool)

  /** Every observation made so far, the latest outermost. */
  datatype History = Start | Then(before: History, last: Observation)

  function Floor(lanes: nat): nat
  {
    lanes * MIN_ADMISSION_CONCURRENCY_PER_LANE
  }

  function Ceiling(lanes: nat): nat
  {
    lanes * LANE_CONNECT_CONCURRENCY
  }

  // ---------- the controller as a function of its whole history ----------

  /** How many of one signal's latest intervals were pressured in a row. */
  function Streak(h: History, signal: Signal): nat
  {
    match h
    case Start => 0
    case Then(before, o) =>
      if o.signal != signal then Streak(before, signal) else if o.pressured then Streak(before, signal) + 1 else 0
  }

  predicate LoopPressured(h: History)
  {
    match h
    case Start => false
    case Then(before, o) => if o.signal == Loop then o.pressured else LoopPressured(before)
  }

  /** Clean CPU intervals in a row: none pressured of either signal among them, and none taken while the
      latest loop interval was pressured. Clean loop intervals neither count nor interrupt. */
  function CleanRun(h: History): nat
  {
    match h
    case Start => 0
    case Then(before, o) =>
      if o.pressured then 0 else if o.signal == Loop then CleanRun(before)
      else if LoopPressured(before) then 0 else CleanRun(before) + 1
  }

  /** The last observation halves: it is the second, fourth, ... pressured one of its signal in a row. */
  predicate Halves(h: History)
  {
    h.Then? && h.last.pressured && Streak(h, h.last.signal) % ADMISSION_PRESSURE_INTERVALS == 0
  }

  /** The last observation steps up: it is the third, sixth, ... clean CPU interval in a row. */
  predicate StepsUp(h: History)
  {
    h.Then? && h.last == Observation(Cpu, false) && CleanRun(h) > 0 && CleanRun(h) % ADMISSION_RECOVERY_CLEAN_INTERVALS == 0
  }

  function Concurrency(h: History, lanes: nat): (c: nat)
    ensures Floor(lanes) <= c <= Ceiling(lanes)
  {
    if h.Start? then Ceiling(lanes)
    else
      var before := Concurrency(h.before, lanes);
      if Halves(h) then Max(Floor(lanes), before / 2)
      else if StepsUp(h) then Min(Ceiling(lanes), before + lanes * ADMISSION_RECOVERY_STEP_PER_LANE)
      else before
  }

  /** How often the concurrency fell, how often it rose, and the least it has been. */
  function Reductions(h: History, lanes: nat): nat
  {
    if h.Start? then 0
    else Reductions(h.before, lanes) + (if Concurrency(h, lanes) < Concurrency(h.before, lanes) then 1 else 0)
  }

  function Recoveries(h: History, lanes: nat): nat
  {
    if h.Start? then 0
    else Recoveries(h.before, lanes) + (if Concurrency(h, lanes) > Concurrency(h.before, lanes) then 1 else 0)
  }

  function Least(h: History, lanes: nat): nat
  {
    if h.Start? then Ceiling(lanes) else Min(Least(h.before, lanes), Concurrency(h, lanes))
  }

  // ---------- the controller as it counts ----------

  datatype Counters = Counters(
    current: nat, observedMinimum: nat, reductions: nat, recoveries: nat,
    clean: nat, cpuPressure: nat, loopPressure: nat, latestLoopPressured: bool)

  /** The same record with runs that never start again: what a history says. */
  function Tally(h: History, lanes: nat): Counters
  {
    Counters(Concurrency(h, lanes), Least(h, lanes), Reductions(h, lanes), Recoveries(h, lanes),
             CleanRun(h), Streak(h, Cpu), Streak(h, Loop), LoopPressured(h))
  }

  /** The controller's own counts start again at two, and at three. */
  function Folded(t: Counters): Counters
  {
    t.(clean := t.clean % ADMISSION_RECOVERY_CLEAN_INTERVALS, cpuPressure := t.cpuPressure % ADMISSION_PRESSURE_INTERVALS,
       loopPressure := t.loopPressure % ADMISSION_PRESSURE_INTERVALS)
  }

  /** What the controller's fields are, by its history. */
  function Counted(h: History, lanes: nat): Counters
  {
    Folded(Tally(h, lanes))
  }

  /** The step down, and the step up. */
  function Halved(c: Counters, lanes: nat): Counters
  {
    var next := Max(Floor(lanes), c.current / 2);
    if next >= c.current then c
    else c.(current := next, reductions := c.reductions + 1, observedMinimum := Min(c.observedMinimum, next))
  }

  function Raised(c: Counters, lanes: nat): Counters
  {
    var next := Min(Ceiling(lanes), c.current + lanes * ADMISSION_RECOVERY_STEP_PER_LANE);
    if next <= c.current then c else c.(current := next, recoveries := c.recoveries + 1)
  }

  function AfterPressure(c: Counters, signal: Signal, lanes: nat): Counters
  {
    var count := (if signal == Cpu then c.cpuPressure else c.loopPressure) + 1;
    var kept := if count >= ADMISSION_PRESSURE_INTERVALS then 0 else count;
    var d := if signal == Cpu then c.(clean := 0, cpuPressure := kept)
             else c.(clean := 0, loopPressure := kept, latestLoopPressured := true);
    if count >= ADMISSION_PRESSURE_INTERVALS then Halved(d, lanes) else d
  }

  function AfterCleanLoop(c: Counters): Counters
  {
    c.(loopPressure := 0, latestLoopPressured := false)
  }

  function AfterCleanCpu(c: Counters, lanes: nat): Counters
  {
    var d := c.(cpuPressure := 0);
    if c.latestLoopPressured then d.(clean := 0)
    else if c.clean + 1 >= ADMISSION_RECOVERY_CLEAN_INTERVALS then Raised(d.(clean := 0), lanes)
    else d.(clean := c.clean + 1)
  }

  function After(c: Counters, o: Observation, lanes: nat): Counters
  {
    if o.pressured then AfterPressure(c, o.signal, lanes)
    else if o.signal == Loop then AfterCleanLoop(c) else AfterCleanCpu(c, lanes)
  }

  class AdmissionController {
    const laneCount: nat
    var current: nat
    var observedMinimum: nat
    var reductions: nat
    var recoveries: nat
    var clean: nat
    var cpuPressure: nat
    var loopPressure: nat
    var latestLoopPressured: bool
    ghost var history: History

    ghost function View(): Counters
      reads this
    {
      Counters(current, observedMinimum, reductions, recoveries, clean, cpuPressure, loopPressure, latestLoopPressured)
    }

    /** Every field is what the whole history of observations says. */
    ghost predicate Valid()
      reads this
    {
      laneCount >= 1 && View() == Counted(history, laneCount)
    }

    constructor (laneCount: nat)
      requires laneCount >= 1
      ensures Valid() && history == Start && this.laneCount == laneCount
    {
      this.laneCount := laneCount;
      current, observedMinimum := laneCount * LANE_CONNECT_CONCURRENCY, laneCount * LANE_CONNECT_CONCURRENCY;
      reductions, recoveries, clean, cpuPressure, loopPressure, latestLoopPressured := 0, 0, 0, 0, 0, false;
      history := Start;
    }

    method ObserveLoop(pressured: bool)
      requires Valid()
      modifies this
      ensures Valid() && history == Then(old(history), Observation(Loop, pressured))
    {
      latestLoopPressured := pressured;
      ObservePressure(pressured, Loop);
      Follows(history, Observation(Loop, pressured), laneCount);
      history := Then(history, Observation(Loop, pressured));
    }

    method ObserveCpu(pressured: bool)
      requires Valid()
      modifies this
      ensures Valid() && history == Then(old(history), Observation(Cpu, pressured))
    {
      ObservePressure(pressured, Cpu);
      Follows(history, Observation(Cpu, pressured), laneCount);
      history := Then(history, Observation(Cpu, pressured));
    }

    method ObservePressure(pressured: bool, signal: Signal)
      requires signal == Loop ==> latestLoopPressured == pressured
      modifies this
      ensures View() == After(old(View()), Observation(signal, pressured), laneCount) && history == old(history)
    {
      if pressured {
        clean := 0;
        var count := Min(ADMISSION_PRESSURE_INTERVALS, (if signal == Cpu then cpuPressure else loopPressure) + 1);
        var kept := if count < ADMISSION_PRESSURE_INTERVALS then count else 0;
        if signal == Cpu { cpuPressure := kept; } else { loopPressure := kept; }
        if count < ADMISSION_PRESSURE_INTERVALS { return; }
        var next := Max(laneCount * MIN_ADMISSION_CONCURRENCY_PER_LANE, current / 2);
        if next < current {
          current, reductions := next, reductions + 1;
          observedMinimum := Min(observedMinimum, next);
        }
        return;
      }
      if signal == Cpu { cpuPressure := 0; } else { loopPressure := 0; }
      if signal != Cpu { return; }
      if latestLoopPressured { clean := 0; return; }
      clean := Min(ADMISSION_RECOVERY_CLEAN_INTERVALS, clean + 1);
      if clean < ADMISSION_RECOVERY_CLEAN_INTERVALS { return; }
      clean := 0;
      var next := Min(laneCount * LANE_CONNECT_CONCURRENCY, current + laneCount * ADMISSION_RECOVERY_STEP_PER_LANE);
      if next > current { current, recoveries := next, recoveries + 1; }
    }
  }

  /** A count that starts again at two, and at three. */
  lemma NextCount(n: nat)
    ensures (n + 1) % 2 == if n % 2 == 1 then 0 else n % 2 + 1
    ensures (n + 1) % 3 == if n % 3 == 2 then 0 else n % 3 + 1
  {
  }

  /** One more observation, on the record of runs. */
  function Told(t: Counters, o: Observation, lanes: nat): Counters
  {
    if o.pressured then
      var streak := if o.signal == Cpu then t.cpuPressure else t.loopPressure;
      var d := if o.signal == Cpu then t.(clean := 0, cpuPressure := streak + 1)
               else t.(clean := 0, loopPressure := streak + 1, latestLoopPressured := true);
      if streak % ADMISSION_PRESSURE_INTERVALS == 1 then Halved(d, lanes) else d
    else if o.signal == Loop then t.(loopPressure := 0, latestLoopPressured := false)
    else if t.latestLoopPressured then t.(cpuPressure := 0, clean := 0)
    else
      var d := t.(cpuPressure := 0, clean := t.clean + 1);
      if t.clean % ADMISSION_RECOVERY_CLEAN_INTERVALS == 2 then Raised(d, lanes) else d
  }

  lemma {:induction false} LeastIsBelow(h: History, lanes: nat)
    ensures Least(h, lanes) <= Concurrency(h, lanes)
  {
  }

  lemma TallyFollows(h: History, o: Observation, lanes: nat)
    ensures Tally(Then(h, o), lanes) == Told(Tally(h, lanes), o, lanes)
  {
    NextCount(Streak(h, o.signal));
    NextCount(CleanRun(h));
    LeastIsBelow(h, lanes);
  }

  lemma FoldFollows(t: Counters, o: Observation, lanes: nat)
    ensures Folded(Told(t, o, lanes)) == After(Folded(t), o, lanes)
  {
    if o.pressured {
      FoldFollowsPressure(t, o.signal, lanes);
    } else if o.signal == Cpu {
      FoldFollowsCleanCpu(t, lanes);
    }
  }

  lemma FoldFollowsPressure(t: Counters, signal: Signal, lanes: nat)
    ensures Folded(Told(t, Observation(signal, true), lanes)) == AfterPressure(Folded(t), signal, lanes)
  {
    if signal == Cpu { NextCount(t.cpuPressure); } else { NextCount(t.loopPressure); }
  }

  lemma FoldFollowsCleanCpu(t: Counters, lanes: nat)
    ensures Folded(Told(t, Observation(Cpu, false), lanes)) == AfterCleanCpu(Folded(t), lanes)
  {
    NextCount(t.clean);
  }

  /** Counting on from what a history says is what the longer history says. */
  lemma Follows(h: History, o: Observation, lanes: nat)
    ensures Counted(Then(h, o), lanes) == After(Counted(h, lanes), o, lanes)
  {
    TallyFollows(h, o, lanes);
    FoldFollows(Tally(h, lanes), o, lanes);
  }
}
