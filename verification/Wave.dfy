/** Launching mirrored waves of connects: how many are in flight, how many each lane creates, and when the
    ramp ends. */
module Wave {
  import opened Admission
  import opened Arithmetic

  const MICRO_BATCH_SIZE := 2
  const INITIAL_WAVE_SIZE := 100

  // ---------- one wave ----------

  /** What a lane still has to create of a wave of `size`. */
  function Share(size: nat, target: nat, baseline: nat): nat
  {
    if baseline >= target then 0 else Min(size, target - baseline)
  }

  // ---------- what the controller has seen ----------

  /** `h` is `g` with any number of observations more. */
  predicate Extends(h: History, g: History)
  {
    h == g || (h.Then? && Extends(h.before, g))
  }

  lemma {:induction false} ExtendsOn(k: History, h: History, g: History)
    requires Extends(k, h) && Extends(h, g)
    ensures Extends(k, g)
  {
    if k != h { ExtendsOn(k.before, h, g); }
  }

  /** While a wave waits or yields, connects complete and the controller is told of any number of
      intervals. */
  method Meanwhile(c: AdmissionController)
    requires c.Valid()
    modifies c
    ensures c.Valid() && Extends(c.history, old(c.history))
  {
    var n: int := *;
    while n > 0
      invariant c.Valid() && Extends(c.history, old(c.history))
    {
      var pressured: bool, cpu: bool := *, *;
      if cpu { c.ObserveCpu(pressured); } else { c.ObserveLoop(pressured); }
      n := n - 1;
    }
  }

  // ---------- the connects in flight ----------

  /** An entry of a wave's history: one connect launched, under the observations on which the concurrency
      had just been read; or some completed. With each, how many are then in flight. */
  datatype Flight = Launched(inFlight: nat, seen: History) | Landed(inFlight: nat)

  /** How many were in flight before the `k`th entry. */
  function Before(flights: seq<Flight>, k: nat): nat
    requires k <= |flights|
  {
    if k == 0 then 0 else flights[k - 1].inFlight
  }

  ghost function Launches(flights: seq<Flight>): nat
  {
    if flights == [] then 0
    else Launches(flights[..|flights| - 1]) + if flights[|flights| - 1].Launched? then 1 else 0
  }

  /** One entry, in a wave during which the controller's history grew from `h0` to `h`. */
  ghost predicate FlightOk(f: Flight, before: nat, lanes: nat, h0: History, h: History)
  {
    match f
    case Launched(n, seen) => n == before + 1 && n <= Concurrency(seen, lanes) && Extends(seen, h0) && Extends(h, seen)
    case Landed(n) => n < before
  }

  ghost predicate Flights(flights: seq<Flight>, now: nat, lanes: nat, h0: History, h: History)
  {
    && Before(flights, |flights|) == now
    && forall k | 0 <= k < |flights| :: FlightOk(flights[k], Before(flights, k), lanes, h0, h)
  }

  lemma FlightsStay(flights: seq<Flight>, now: nat, lanes: nat, h0: History, h: History, h': History)
    requires Flights(flights, now, lanes, h0, h) && Extends(h', h)
    ensures Flights(flights, now, lanes, h0, h')
  {
    forall k | 0 <= k < |flights| ensures FlightOk(flights[k], Before(flights, k), lanes, h0, h') {
      assert FlightOk(flights[k], Before(flights, k), lanes, h0, h);
      if flights[k].Launched? { ExtendsOn(h', h, flights[k].seen); }
    }
  }

  lemma OneMoreLaunch(flights: seq<Flight>, f: Flight)
    ensures Launches(flights + [f]) == Launches(flights) + if f.Launched? then 1 else 0
  {
    assert (flights + [f])[..|flights|] == flights;
  }

  lemma SameBefore(flights: seq<Flight>, f: Flight, k: nat)
    requires k <= |flights|
    ensures Before(flights + [f], k) == Before(flights, k)
  {
  }

  lemma OneMoreFlight(flights: seq<Flight>, now: nat, lanes: nat, h0: History, h: History, f: Flight)
    requires Flights(flights, now, lanes, h0, h) && FlightOk(f, now, lanes, h0, h)
    ensures Flights(flights + [f], f.inFlight, lanes, h0, h)
    ensures Launches(flights + [f]) == Launches(flights) + if f.Launched? then 1 else 0
  {
    OneMoreLaunch(flights, f);
    var more := flights + [f];
    forall k | 0 <= k < |more| ensures FlightOk(more[k], Before(more, k), lanes, h0, h) {
      SameBefore(flights, f, k);
      assert k < |flights| ==> more[k] == flights[k] && FlightOk(flights[k], Before(flights, k), lanes, h0, h);
    }
  }

  /** One connect launched for lane `i`. */
  lemma OneLaunched(flights: seq<Flight>, now: nat, lanes: nat, h0: History, h: History, seen: History, counts: seq<nat>, i: nat)
    requires Flights(flights, now, lanes, h0, h) && Launches(flights) == Total(counts) && i < |counts|
    requires Extends(seen, h0) && Extends(h, seen) && now + 1 <= Concurrency(seen, lanes)
    ensures Flights(flights + [Launched(now + 1, seen)], now + 1, lanes, h0, h)
    ensures Launches(flights + [Launched(now + 1, seen)]) == Total(counts[i := counts[i] + 1])
  {
    var f := Launched(now + 1, seen);
    assert FlightOk(f, now, lanes, h0, h);
    OneMoreFlight(flights, now, lanes, h0, h, f);
    OneMoreCounted(counts, i);
  }

  lemma OneMoreCounted(counts: seq<nat>, i: nat)
    requires i < |counts|
    ensures Total(counts[i := counts[i] + 1]) == Total(counts) + 1
  {
    TotalOfUpdate(counts, i, counts[i] + 1);
  }

  /** Every entry keeps to the ceiling, since every concurrency read does. */
  lemma {:induction false} FlightsKeepToTheCeiling(flights: seq<Flight>, now: nat, lanes: nat, h0: History, h: History, k: nat)
    requires Flights(flights, now, lanes, h0, h) && k < |flights|
    ensures flights[k].inFlight <= Ceiling(lanes)
    decreases k
  {
    assert FlightOk(flights[k], Before(flights, k), lanes, h0, h);
    if flights[k].Landed? && k > 0 { FlightsKeepToTheCeiling(flights, now, lanes, h0, h, k - 1); }
  }

  /** Wait, a completion at a time, until at most `target` connects are in flight. */
  method Settle(c: AdmissionController, inFlight: nat, target: nat, ghost h0: History, ghost flights: seq<Flight>)
      returns (left: nat, ghost history: seq<Flight>)
    requires c.Valid() && Flights(flights, inFlight, c.laneCount, h0, c.history)
    modifies c
    ensures c.Valid() && Extends(c.history, old(c.history))
    ensures left <= target && Flights(history, left, c.laneCount, h0, c.history) && Launches(history) == Launches(flights)
  {
    left, history := inFlight, flights;
    while left > target
      invariant c.Valid() && Extends(c.history, old(c.history))
      invariant Flights(history, left, c.laneCount, h0, c.history) && Launches(history) == Launches(flights)
    {
      ghost var was := c.history;
      Meanwhile(c);
      ExtendsOn(c.history, was, old(c.history));
      FlightsStay(history, left, c.laneCount, h0, was, c.history);
      var done: nat :| 1 <= done <= left;
      OneMoreFlight(history, left, c.laneCount, h0, c.history, Landed(left - done));
      left, history := left - done, history + [Landed(left - done)];
    }
  }

  /** One pass over the lanes: each that is short of its target starts one connect. */
  method LaunchOne(baseline: seq<nat>, targets: seq<nat>, created: seq<nat>, inFlight: nat,
                   ghost lanes: nat, ghost h0: History, ghost seen: History, ghost h: History, ghost flights: seq<Flight>)
      returns (now: seq<nat>, flying: nat, ghost history: seq<Flight>)
    requires |baseline| == |targets| == |created|
    requires Flights(flights, inFlight, lanes, h0, h) && Launches(flights) == Total(created)
    requires Extends(seen, h0) && Extends(h, seen) && inFlight + |created| <= Concurrency(seen, lanes)
    ensures |now| == |created| && flying <= inFlight + |created|
    ensures Flights(history, flying, lanes, h0, h) && Launches(history) == Total(now)
    ensures forall i | 0 <= i < |now| :: now[i] == created[i] + (if baseline[i] + created[i] < targets[i] then 1 else 0)
  {
    now, flying, history := created, inFlight, flights;
    for i := 0 to |created|
      invariant |now| == |created| && flying <= inFlight + i
      invariant Flights(history, flying, lanes, h0, h) && Launches(history) == Total(now)
      invariant forall k | 0 <= k < i :: now[k] == created[k] + (if baseline[k] + created[k] < targets[k] then 1 else 0)
      invariant forall k | i <= k < |created| :: now[k] == created[k]
    {
      if baseline[i] + now[i] < targets[i] {
        OneLaunched(history, flying, lanes, h0, h, seen, now, i);
        now := now[i := now[i] + 1];
        flying, history := flying + 1, history + [Launched(flying + 1, seen)];
      }
    }
  }

  predicate HasShares(created: seq<nat>, launched: nat, targets: seq<nat>, baseline: seq<nat>)
    requires |baseline| == |targets| == |created|
  {
    forall i | 0 <= i < |created| :: created[i] == Share(launched, targets[i], baseline[i])
  }

  /** `_open_equal_wave`. Each lane creates exactly its share of the wave, one launch for each connect
      created; each launch leaves in flight at most the concurrency the controller had just been read at,
      since the floor has room for one micro-batch of every lane; and at the end none is in flight. */
  method OpenEqualWave(c: AdmissionController, baseline: seq<nat>, targets: seq<nat>, size: nat)
      returns (created: seq<nat>, ghost flights: seq<Flight>)
    requires c.Valid() && |baseline| == |targets| == c.laneCount
    modifies c
    ensures c.Valid() && |created| == |targets|
    ensures HasShares(created, size, targets, baseline)
    ensures Flights(flights, 0, c.laneCount, old(c.history), c.history) && Launches(flights) == Total(created)
  {
    var launched: nat, inFlight: nat := 0, 0;
    created, flights := seq(|targets|, _ => 0), [];
    TotalOfZeros(created);
    while launched < size
      invariant c.Valid() && Extends(c.history, old(c.history)) && launched <= size && |created| == |targets|
      invariant HasShares(created, launched, targets, baseline)
      invariant Flights(flights, inFlight, c.laneCount, old(c.history), c.history) && Launches(flights) == Total(created)
    {
      var quantum := Min(MICRO_BATCH_SIZE, size - launched);
      var allowed := c.current;
      ghost var seen := c.history;
      RoomForAQuantum(c.laneCount, quantum, allowed);
      inFlight, flights := Settle(c, inFlight, Max(0, allowed - quantum * |targets|), old(c.history), flights);
      ExtendsOn(c.history, seen, old(c.history));
      created, inFlight, flights :=
        LaunchQuantum(baseline, targets, created, launched, quantum, inFlight, c.laneCount, old(c.history), seen, c.history, flights);
      launched := launched + quantum;
      Yield(c, inFlight, old(c.history), flights);
    }
    inFlight, flights := Settle(c, inFlight, 0, old(c.history), flights);
  }

  /** `asyncio.sleep(0)`: other tasks run, and the wave counts no completion yet. */
  method Yield(c: AdmissionController, ghost inFlight: nat, ghost h0: History, ghost flights: seq<Flight>)
    requires c.Valid() && Extends(c.history, h0) && Flights(flights, inFlight, c.laneCount, h0, c.history)
    modifies c
    ensures c.Valid() && Extends(c.history, h0) && Flights(flights, inFlight, c.laneCount, h0, c.history)
  {
    Meanwhile(c);
    ExtendsOn(c.history, old(c.history), h0);
    FlightsStay(flights, inFlight, c.laneCount, h0, old(c.history), c.history);
  }

  lemma RoomForAQuantum(lanes: nat, quantum: int, allowed: int)
    requires 0 <= quantum <= MICRO_BATCH_SIZE && Floor(lanes) <= allowed
    ensures quantum * lanes <= allowed
  {
  }

  method LaunchQuantum(baseline: seq<nat>, targets: seq<nat>, created: seq<nat>, launched: nat, quantum: nat, inFlight: nat,
                       ghost lanes: nat, ghost h0: History, ghost seen: History, ghost h: History, ghost flights: seq<Flight>)
      returns (now: seq<nat>, flying: nat, ghost history: seq<Flight>)
    requires |baseline| == |targets| == |created| && HasShares(created, launched, targets, baseline)
    requires Flights(flights, inFlight, lanes, h0, h) && Launches(flights) == Total(created)
    requires Extends(seen, h0) && Extends(h, seen) && inFlight + quantum * |created| <= Concurrency(seen, lanes)
    ensures |now| == |created| && HasShares(now, launched + quantum, targets, baseline)
    ensures Flights(history, flying, lanes, h0, h) && Launches(history) == Total(now)
  {
    now, flying, history := created, inFlight, flights;
    for n := 0 to quantum
      invariant |now| == |created| && HasShares(now, launched + n, targets, baseline)
      invariant flying <= inFlight + n * |created|
      invariant Flights(history, flying, lanes, h0, h) && Launches(history) == Total(now)
    {
      OneMorePass(n, quantum, |created|);
      now, flying, history := LaunchOne(baseline, targets, now, flying, lanes, h0, seen, h, history);
    }
  }

  lemma OneMorePass(n: nat, quantum: nat, lanes: nat)
    requires n < quantum
    ensures n * lanes + lanes == (n + 1) * lanes <= quantum * lanes
  {
  }

  // ---------- the ramp ----------

  /** What each lane still has to create. */
  type Remaining = seq<nat>

  function Least(r: Remaining): (m: nat)
    requires r != []
    ensures m in r && forall i | 0 <= i < |r| :: m <= r[i]
    decreases |r|
  {
    if |r| == 1 then r[0]
    else
      assert r == r[..|r| - 1] + [r[|r| - 1]];
      Min(Least(r[..|r| - 1]), r[|r| - 1])
  }

  /** The wave the ramp asks of every lane. */
  function WaveSize(r: Remaining): (w: nat)
    requires r != []
    ensures forall i | 0 <= i < |r| :: w <= r[i]
  {
    Min(INITIAL_WAVE_SIZE, Least(r))
  }

  /** One turn of the ramp loop: every lane creates its share of the wave. */
  function AfterWave(r: Remaining): (s: Remaining)
    requires r != []
    ensures |s| == |r| && forall i | 0 <= i < |r| :: s[i] == r[i] - WaveSize(r)
  {
    var w := WaveSize(r);
    seq(|r|, i requires 0 <= i < |r| && w <= r[i] => (r[i] - w) as nat)
  }

  function AfterWaves(r: Remaining, n: nat): (s: Remaining)
    requires r != []
    ensures |s| == |r|
    decreases n
  {
    if n == 0 then r else AfterWaves(AfterWave(r), n - 1)
  }

  predicate Finished(r: Remaining)
  {
    forall i | 0 <= i < |r| :: r[i] == 0
  }

  predicate Lockstep(r: Remaining)
  {
    forall i, j | 0 <= i < |r| && 0 <= j < |r| :: r[i] == r[j]
  }

  lemma WaveKeepsGaps(r: Remaining)
    requires r != []
    ensures Lockstep(AfterWave(r)) <==> Lockstep(r)
  {
    var s := AfterWave(r);
    if Lockstep(s) {
      forall i, j | 0 <= i < |r| && 0 <= j < |r| ensures r[i] == r[j] { assert s[i] == s[j]; }
    }
  }

  lemma {:induction false} WavesKeepGaps(r: Remaining, n: nat)
    requires r != []
    ensures Lockstep(AfterWaves(r, n)) <==> Lockstep(r)
    decreases n
  {
    if n > 0 {
      WaveKeepsGaps(r);
      WavesKeepGaps(AfterWave(r), n - 1);
    }
  }

  /** The number of waves that lanes in lockstep need. */
  function Waves(remaining: nat): nat
  {
    (remaining + INITIAL_WAVE_SIZE - 1) / INITIAL_WAVE_SIZE
  }

  lemma {:induction false} LockstepFinishes(r: Remaining)
    requires r != [] && Lockstep(r)
    ensures Finished(AfterWaves(r, Waves(r[0])))
    decreases r[0]
  {
    if r[0] > 0 {
      assert Least(r) == r[0];
      WaveKeepsGaps(r);
      LockstepFinishes(AfterWave(r));
      assert Waves(r[0]) == Waves(AfterWave(r)[0]) + 1;
    }
  }

  /** The ramp loop ends exactly when its lanes are in lockstep: otherwise the first lane to finish makes every
      later wave empty, and the loop turns forever. */
  lemma TheRampEndsExactlyInLockstep(r: Remaining)
    requires r != []
    ensures Lockstep(r) ==> Finished(AfterWaves(r, Waves(r[0])))
    ensures !Lockstep(r) ==> forall n: nat :: !Finished(AfterWaves(r, n))
  {
    if Lockstep(r) {
      LockstepFinishes(r);
    } else {
      forall n: nat ensures !Finished(AfterWaves(r, n)) { WavesKeepGaps(r, n); }
    }
  }

  /** Once one lane has finished, a wave changes nothing. */
  lemma AFinishedLaneEmptiesTheWave(r: Remaining, i: nat)
    requires i < |r| && r[i] == 0
    ensures WaveSize(r) == 0 && AfterWave(r) == r
  {
  }

  /** The ramp of lanes in lockstep, wave by wave. */
  method Ramp(c: AdmissionController, targets: seq<nat>) returns (initiated: seq<nat>, waves: nat)
    requires c.Valid() && |targets| == c.laneCount && Lockstep(targets)
    modifies c
    ensures c.Valid() && initiated == targets && waves == Waves(targets[0])
  {
    initiated, waves := seq(|targets|, _ => 0), 0;
    while initiated[0] < targets[0]
      invariant c.Valid() && |initiated| == |targets| && Lockstep(initiated) && initiated[0] <= targets[0]
      invariant waves + Waves(targets[0] - initiated[0]) == Waves(targets[0])
      decreases targets[0] - initiated[0]
    {
      var wave := Min(INITIAL_WAVE_SIZE, targets[0] - initiated[0]);
      var created, _ := OpenEqualWave(c, initiated, targets, wave);
      forall i | 0 <= i < |targets| ensures created[i] == wave { assert initiated[i] == initiated[0] && targets[i] == targets[0]; }
      initiated := seq(|targets|, i requires 0 <= i < |initiated| && i < |created| => initiated[i] + created[i]);
      waves := waves + 1;
    }
    assert forall i | 0 <= i < |targets| :: initiated[i] == initiated[0] && targets[i] == targets[0];
  }
}
