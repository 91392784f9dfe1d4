/** One bout's result from its four workers' results, for one lane. */
module Aggregation {
  import opened Wrappers
  import B = Barrier
  import H = HoldWindow

  const TARGET_CLIENTS_PER_LANE := 10_000

  type Code = nat

  datatype Worker = Worker(
    index: int, completed: bool, release: int, hold: int, cpu: int,
    initiated: int, authenticated: int, cancelled: int, held: int, terminalFailures: int, retries: int,
    failureCodes: map<Code, int>, identityVerified: bool, targetElapsed: int, holdElapsed: int, achievedElapsed: int)

  datatype Error =
    | WorkerCountInvalid | WorkerIndexInvalid | NotCompleted | ReleaseMismatch | AffinityMismatch | TargetTimestampInvalid
    | CompletionChronologyInvalid | AuthenticatedNone

  datatype Lane = Lane(
    release: int, hold: int, initiated: int, authenticated: int, cancelled: int, held: int, terminalFailures: int, retries: int,
    failureCodes: map<Code, int>, identityVerified: bool, timeToTarget: int, holdElapsed: int)

  // ---------- the dictionary by worker index ----------

  /** `{int(result["worker_index"]): result for result in results}`: the last of an index wins. */
  function ByIndex(results: seq<Worker>): map<int, Worker>
  {
    if results == [] then map[]
    else ByIndex(results[..|results| - 1])[results[|results| - 1].index := results[|results| - 1]]
  }

  predicate EveryIndex(byIndex: map<int, Worker>)
  {
    byIndex.Keys == {0, 1, 2, 3}
  }

  function InOrder(byIndex: map<int, Worker>): (ordered: seq<Worker>)
    requires EveryIndex(byIndex)
  {
    [byIndex[0], byIndex[1], byIndex[2], byIndex[3]]
  }

  // ---------- sums over the workers ----------

  function Sum(f: Worker -> int, ws: seq<Worker>): int
  {
    if ws == [] then 0 else f(ws[0]) + Sum(f, ws[1..])
  }

  const Initiated: Worker -> int := (w: Worker) => w.initiated
  const Authenticated: Worker -> int := (w: Worker) => w.authenticated
  const HeldClients: Worker -> int := (w: Worker) => w.held
  const Failures: Worker -> int := (w: Worker) => w.terminalFailures

  function CodeCount(w: Worker, code: Code): int
  {
    if code in w.failureCodes then w.failureCodes[code] else 0
  }

  /** The counts of one code, worker by worker. */
  function Counting(code: Code): Worker -> int
  {
    (w: Worker) => CodeCount(w, code)
  }

  function AllCodes(ws: seq<Worker>): set<Code>
  {
    set w, code | w in ws && code in w.failureCodes.Keys :: code
  }

  function MergedCodes(ws: seq<Worker>): map<Code, int>
  {
    map code | code in AllCodes(ws) :: Sum(Counting(code), ws)
  }

  function MaxElapsed(ws: seq<Worker>): int
    requires ws != []
  {
    if |ws| == 1 || ws[0].targetElapsed > MaxElapsed(ws[1..]) then ws[0].targetElapsed else MaxElapsed(ws[1..])
  }

  function MinHold(ws: seq<Worker>): int
    requires ws != []
  {
    if |ws| == 1 || ws[0].holdElapsed < MinHold(ws[1..]) then ws[0].holdElapsed else MinHold(ws[1..])
  }

  /** One shard, complete on its own. */
  predicate Exact(w: Worker)
  {
    && w.initiated == B.PARTITION_CLIENTS_PER_LANE && w.authenticated == B.PARTITION_CLIENTS_PER_LANE
    && w.cancelled == 0 && w.held == B.PARTITION_CLIENTS_PER_LANE
  }

  /** Its hold lasted, and it finished no sooner than the shared epoch and that hold allow. */
  predicate InTime(w: Worker, sinceRelease: int)
  {
    w.holdElapsed >= H.HOLD_NS && w.achievedElapsed >= sinceRelease + H.HOLD_NS
  }

  function Combined(ws: seq<Worker>): Lane
    requires |ws| == B.WORKER_COUNT
  {
    var initiated, authenticated, held := Sum(Initiated, ws), Sum(Authenticated, ws), Sum(HeldClients, ws);
    Lane(ws[0].release, ws[0].hold, initiated, authenticated, Sum((w: Worker) => w.cancelled, ws), held,
         Sum(Failures, ws), Sum((w: Worker) => w.retries, ws), MergedCodes(ws),
         initiated == TARGET_CLIENTS_PER_LANE && authenticated == TARGET_CLIENTS_PER_LANE && held == TARGET_CLIENTS_PER_LANE
           && (forall w | w in ws :: Exact(w)) && (forall w | w in ws :: w.identityVerified),
         MaxElapsed(ws), MinHold(ws))
  }

  predicate Released(ws: seq<Worker>)
    requires ws != []
  {
    (forall w | w in ws :: w.release == ws[0].release && w.hold == ws[0].hold) && 1 <= ws[0].release < ws[0].hold
  }

  predicate OnCpusOfTheirOwn(ws: seq<Worker>)
  {
    |set w | w in ws :: w.cpu| == B.WORKER_COUNT && forall w | w in ws :: w.cpu >= 0
  }

  /** The checks on the four in order, then what they add up to. */
  function OfFour(ws: seq<Worker>): Result<Lane, Error>
    requires |ws| == B.WORKER_COUNT
  {
    if exists w | w in ws :: !w.completed then Err(NotCompleted)
    else if !Released(ws) then Err(ReleaseMismatch)
    else if !OnCpusOfTheirOwn(ws) then Err(AffinityMismatch)
    else if exists w | w in ws :: !(0 < w.targetElapsed <= ws[0].hold - ws[0].release) then Err(TargetTimestampInvalid)
    else if exists w | w in ws :: !InTime(w, ws[0].hold - ws[0].release) then Err(CompletionChronologyInvalid)
    else if exists w | w in ws :: w.authenticated == 0 then Err(AuthenticatedNone)
    else Ok(Combined(ws))
  }

  function Aggregate(results: seq<Worker>): Result<Lane, Error>
  {
    if |results| != B.WORKER_COUNT then Err(WorkerCountInvalid)
    else
      var byIndex := ByIndex(results);
      if !EveryIndex(byIndex) then Err(WorkerIndexInvalid) else OfFour(InOrder(byIndex))
  }

  // ---------- laws ----------

  predicate DistinctIndexes(results: seq<Worker>)
  {
    forall i, j | 0 <= i < j < |results| :: results[i].index != results[j].index
  }

  predicate HasIndex(results: seq<Worker>, k: int)
  {
    exists w :: w in results && w.index == k
  }

  lemma {:induction false} ByIndexFinds(results: seq<Worker>, k: int)
    ensures k in ByIndex(results) <==> HasIndex(results, k)
    ensures k in ByIndex(results) ==> ByIndex(results)[k] in results && ByIndex(results)[k].index == k
  {
    if results != [] {
      var before, last := results[..|results| - 1], results[|results| - 1];
      ByIndexFinds(before, k);
      assert results == before + [last];
    }
  }

  lemma {:induction false} EveryIndexOnce(results: seq<Worker>, w: Worker)
    requires DistinctIndexes(results) && w in results
    ensures w.index in ByIndex(results) && ByIndex(results)[w.index] == w
  {
    var before, last := results[..|results| - 1], results[|results| - 1];
    assert results == before + [last];
    if w == last {
    } else {
      assert w in before;
      var i :| 0 <= i < |before| && before[i] == w;
      assert results[i].index != results[|results| - 1].index;
      assert DistinctIndexes(before);
      EveryIndexOnce(before, w);
    }
  }

  lemma IndexIsSomewhere(results: seq<Worker>, k: int)
    requires |results| == B.WORKER_COUNT && k in ByIndex(results)
    ensures k == results[0].index || k == results[1].index || k == results[2].index || k == results[3].index
  {
    ByIndexFinds(results, k);
    var w :| w in results && w.index == k;
    var i :| 0 <= i < 4 && results[i] == w;
  }

  /** Four results that cover every index have each index once. */
  lemma EveryIndexMeansDistinct(results: seq<Worker>)
    requires |results| == B.WORKER_COUNT && EveryIndex(ByIndex(results))
    ensures DistinctIndexes(results)
  {
    IndexIsSomewhere(results, 0);
    IndexIsSomewhere(results, 1);
    IndexIsSomewhere(results, 2);
    IndexIsSomewhere(results, 3);
  }

  lemma SameIndexes(a: seq<Worker>, b: seq<Worker>)
    requires multiset(a) == multiset(b)
    ensures ByIndex(a).Keys == ByIndex(b).Keys
  {
    forall k ensures k in ByIndex(a) <==> k in ByIndex(b) {
      ByIndexFinds(a, k);
      ByIndexFinds(b, k);
      if HasIndex(a, k) {
        var w :| w in a && w.index == k;
        assert w in multiset(b) && w in b;
      }
      if HasIndex(b, k) {
        var w :| w in b && w.index == k;
        assert w in multiset(a) && w in a;
      }
    }
  }

  /** The order in which the workers' results come does not matter, whether they combine or are refused. */
  lemma AnyOrderAggregatesAlike(a: seq<Worker>, b: seq<Worker>)
    requires multiset(a) == multiset(b)
    ensures Aggregate(a) == Aggregate(b)
  {
    assert |a| == |multiset(a)| == |multiset(b)| == |b|;
    SameIndexes(a, b);
    if |a| == B.WORKER_COUNT && EveryIndex(ByIndex(a)) {
      EveryIndexMeansDistinct(b);
      forall k | k in ByIndex(a) ensures ByIndex(a)[k] == ByIndex(b)[k] {
        ByIndexFinds(a, k);
        assert ByIndex(a)[k] in multiset(b);
        EveryIndexOnce(b, ByIndex(a)[k]);
      }
      assert ByIndex(a) == ByIndex(b);
    }
  }

  lemma OrderedHoldsAll(results: seq<Worker>, w: Worker)
    requires |results| == B.WORKER_COUNT && EveryIndex(ByIndex(results))
    ensures w in results <==> w in InOrder(ByIndex(results))
  {
    var ws := InOrder(ByIndex(results));
    EveryIndexMeansDistinct(results);
    if w in results {
      EveryIndexOnce(results, w);
      assert ws[w.index] == w;
    }
    if w in ws {
      var k :| 0 <= k < 4 && ws[k] == w;
      ByIndexFinds(results, k);
    }
  }

  lemma SumOfFour(f: Worker -> int, ws: seq<Worker>)
    requires |ws| == 4
    ensures Sum(f, ws) == f(ws[0]) + f(ws[1]) + f(ws[2]) + f(ws[3])
  {
    assert ws[1..][1..] == ws[2..] && ws[2..][1..] == ws[3..] && ws[3..][1..] == [];
    assert Sum(f, ws[1..]) == f(ws[1]) + Sum(f, ws[2..]);
    assert Sum(f, ws[2..]) == f(ws[2]) + Sum(f, ws[3..]);
    assert Sum(f, ws[3..]) == f(ws[3]);
  }

  lemma ExactShardsAddUp(ws: seq<Worker>)
    requires |ws| == 4 && forall w | w in ws :: Exact(w)
    ensures Sum(Initiated, ws) == TARGET_CLIENTS_PER_LANE
    ensures Sum(Authenticated, ws) == TARGET_CLIENTS_PER_LANE
    ensures Sum(HeldClients, ws) == TARGET_CLIENTS_PER_LANE
  {
    SumOfFour(Initiated, ws);
    SumOfFour(Authenticated, ws);
    SumOfFour(HeldClients, ws);
    assert forall k | 0 <= k < 4 :: ws[k] in ws;
  }

  /** A lane's identity is verified exactly when every one of its four shards is exact, and verified, itself:
      the right total is not enough, and follows. */
  lemma VerifiedMeansEveryShardExact(results: seq<Worker>)
    requires Aggregate(results).Ok?
    ensures Aggregate(results).value.identityVerified <==> forall w | w in results :: Exact(w) && w.identityVerified
  {
    var ws := InOrder(ByIndex(results));
    forall w ensures w in results <==> w in ws { OrderedHoldsAll(results, w); }
    if forall w | w in results :: Exact(w) && w.identityVerified {
      forall w | w in ws ensures Exact(w) { assert w in results; }
      ExactShardsAddUp(ws);
    }
    if Aggregate(results).value.identityVerified {
      forall w | w in results ensures Exact(w) && w.identityVerified { assert w in ws; }
    }
  }

  /** One of four shards of a lane, with `count` clients of its own and everything else in order. */
  function Sharded(index: int, count: int): Worker
  {
    Worker(index, true, 1, 3, index, count, count, 0, count, 0, 0, map[], true, 1, H.HOLD_NS, 2 + H.HOLD_NS)
  }

  /** Two shards off by `d` in opposite directions. */
  function Lopsided(d: int): seq<Worker>
  {
    [Sharded(0, B.PARTITION_CLIENTS_PER_LANE + d), Sharded(1, B.PARTITION_CLIENTS_PER_LANE - d),
     Sharded(2, B.PARTITION_CLIENTS_PER_LANE), Sharded(3, B.PARTITION_CLIENTS_PER_LANE)]
  }

  lemma OrderedAlready(ws: seq<Worker>)
    requires |ws| == B.WORKER_COUNT && forall k | 0 <= k < B.WORKER_COUNT :: ws[k].index == k
    ensures EveryIndex(ByIndex(ws)) && InOrder(ByIndex(ws)) == ws
  {
    forall k ensures k in ByIndex(ws) <==> k in {0, 1, 2, 3} {
      ByIndexFinds(ws, k);
      if 0 <= k < 4 { assert ws[k] in ws; }
    }
    forall k | 0 <= k < 4 ensures ByIndex(ws)[k] == ws[k] {
      EveryIndexOnce(ws, ws[k]);
    }
  }

  lemma CpusByIndex(ws: seq<Worker>)
    requires |ws| == B.WORKER_COUNT && forall k | 0 <= k < B.WORKER_COUNT :: ws[k].cpu == k
    ensures OnCpusOfTheirOwn(ws)
  {
    var cpus := set w | w in ws :: w.cpu;
    forall k ensures k in cpus <==> k in {0, 1, 2, 3} {
      if 0 <= k < 4 { assert ws[k] in ws && ws[k].cpu == k; }
    }
    assert cpus == {0, 1, 2, 3};
  }

  lemma LopsidedCombines(ws: seq<Worker>, d: int)
    requires ws == Lopsided(d) && 0 < d < B.PARTITION_CLIENTS_PER_LANE
    ensures Aggregate(ws) == Ok(Combined(ws))
  {
    OrderedAlready(ws);
    CpusByIndex(ws);
    forall w | w in ws ensures exists count :: count > 0 && w == Sharded(w.index, count) {
      var k :| 0 <= k < B.WORKER_COUNT && ws[k] == w;
      assert ws[k] == Sharded(w.index, ws[k].initiated);
    }
  }

  /** The right total is not enough: four shards that each call themselves verified, and that together
      initiated, authenticated and hold exactly the target, combine to a lane that is not verified. */
  lemma TheRightTotalIsNotEnough(d: int)
    requires 0 < d < B.PARTITION_CLIENTS_PER_LANE
    ensures var lane := Aggregate(Lopsided(d));
      && (forall w | w in Lopsided(d) :: w.identityVerified)
      && lane.Ok? && lane.value.initiated == lane.value.authenticated == lane.value.held == TARGET_CLIENTS_PER_LANE
      && !lane.value.identityVerified
  {
    var ws := Lopsided(d);
    LopsidedCombines(ws, d);
    SumOfFour(Initiated, ws);
    SumOfFour(Authenticated, ws);
    SumOfFour(HeldClients, ws);
    assert ws[0] in ws && !Exact(ws[0]);
  }

  lemma {:induction false} MinHoldIsLeast(ws: seq<Worker>)
    requires ws != []
    ensures exists w :: w in ws && MinHold(ws) == w.holdElapsed
    ensures forall w | w in ws :: MinHold(ws) <= w.holdElapsed
  {
    assert ws[0] in ws;
    if |ws| > 1 {
      MinHoldIsLeast(ws[1..]);
      var w :| w in ws[1..] && MinHold(ws[1..]) == w.holdElapsed;
      assert w in ws;
    }
  }

  lemma {:induction false} MaxElapsedIsMost(ws: seq<Worker>)
    requires ws != []
    ensures exists w :: w in ws && MaxElapsed(ws) == w.targetElapsed
    ensures forall w | w in ws :: MaxElapsed(ws) >= w.targetElapsed
  {
    assert ws[0] in ws;
    if |ws| > 1 {
      MaxElapsedIsMost(ws[1..]);
      var w :| w in ws[1..] && MaxElapsed(ws[1..]) == w.targetElapsed;
      assert w in ws;
    }
  }

  /** A lane that combines reports its slowest shard's time to target, within the time from release to
      hold, and its shortest hold, of at least HOLD_SECONDS, behind which no shard finished early. */
  lemma ACombinedLaneKeptTheChronology(results: seq<Worker>)
    requires Aggregate(results).Ok?
    ensures var lane := Aggregate(results).value;
      && 0 < lane.timeToTarget <= lane.hold - lane.release && H.HOLD_NS <= lane.holdElapsed
      && (forall w | w in results :: w.targetElapsed <= lane.timeToTarget && lane.holdElapsed <= w.holdElapsed)
      && (forall w | w in results :: w.achievedElapsed >= lane.timeToTarget + H.HOLD_NS)
  {
    var ws := InOrder(ByIndex(results));
    forall w ensures w in results <==> w in ws { OrderedHoldsAll(results, w); }
    MinHoldIsLeast(ws);
    MaxElapsedIsMost(ws);
    forall w | w in ws ensures InTime(w, ws[0].hold - ws[0].release) && 0 < w.targetElapsed <= ws[0].hold - ws[0].release { }
  }

  // ---------- failure codes ----------

  function Listed(codes: seq<Code>, m: map<Code, int>): int
  {
    if codes == [] then 0 else (if codes[0] in m then m[codes[0]] else 0) + Listed(codes[1..], m)
  }

  function Listing(codes: seq<Code>): Worker -> int
  {
    (w: Worker) => Listed(codes, w.failureCodes)
  }

  lemma {:induction false} UnreportedCodeSumsToZero(ws: seq<Worker>, code: Code)
    requires code !in AllCodes(ws)
    ensures Sum(Counting(code), ws) == 0
  {
    if ws != [] {
      assert ws[0] in ws;
      forall c | c in AllCodes(ws[1..]) ensures c in AllCodes(ws) { }
      UnreportedCodeSumsToZero(ws[1..], code);
    }
  }

  lemma {:induction false} SumsAdd(f: Worker -> int, g: Worker -> int, h: Worker -> int, ws: seq<Worker>)
    requires forall w :: h(w) == f(w) + g(w)
    ensures Sum(h, ws) == Sum(f, ws) + Sum(g, ws)
  {
    if ws != [] { SumsAdd(f, g, h, ws[1..]); }
  }

  lemma {:induction false} SumOfZeros(f: Worker -> int, ws: seq<Worker>)
    requires forall w :: f(w) == 0
    ensures Sum(f, ws) == 0
  {
    if ws != [] { SumOfZeros(f, ws[1..]); }
  }

  /** Over any list of codes, the merged counts add up to what the workers counted. */
  lemma {:induction false} MergedCodesAddUp(codes: seq<Code>, ws: seq<Worker>)
    ensures Listed(codes, MergedCodes(ws)) == Sum(Listing(codes), ws)
    decreases |codes|
  {
    if codes == [] {
      SumOfZeros(Listing(codes), ws);
    } else {
      MergedCodesAddUp(codes[1..], ws);
      SumsAdd(Counting(codes[0]), Listing(codes[1..]), Listing(codes), ws);
      if codes[0] !in AllCodes(ws) { UnreportedCodeSumsToZero(ws, codes[0]); }
    }
  }

  lemma {:induction false} SumsAgree(f: Worker -> int, g: Worker -> int, ws: seq<Worker>)
    requires forall w | w in ws :: f(w) == g(w)
    ensures Sum(f, ws) == Sum(g, ws)
  {
    if ws != [] { SumsAgree(f, g, ws[1..]); }
  }

  /** When each worker's codes account for its failures, the lane's codes account for the lane's. */
  lemma FailuresStayAccounted(results: seq<Worker>, codes: seq<Code>)
    requires Aggregate(results).Ok?
    requires forall w | w in results :: Listed(codes, w.failureCodes) == w.terminalFailures
    ensures Listed(codes, Aggregate(results).value.failureCodes) == Aggregate(results).value.terminalFailures
  {
    var ws := InOrder(ByIndex(results));
    forall w | w in ws ensures Listed(codes, w.failureCodes) == w.terminalFailures { OrderedHoldsAll(results, w); }
    MergedCodesAddUp(codes, ws);
    SumsAgree(Listing(codes), Failures, ws);
  }
}
