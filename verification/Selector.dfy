/** The selector's batch cap under level-triggered readiness: what a poll reports, delivers and defers, and
    what it costs to drain a burst. */
module Selector {
  /** A limit of zero or less is no limit. */
  function Delivered(ready: nat, limit: int): (n: nat)
    ensures n <= ready && (ready > 0 ==> n > 0)
  {
    if limit > 0 && ready > limit then limit else ready
  }

  datatype Cost = Cost(polls: nat, wakeups: nat, deferred: nat)

  /** The whole cost of draining a burst: what a poll leaves undelivered is reported again by the next. */
  function Drain(ready: nat, limit: int): Cost
    decreases ready
  {
    if ready == 0 then Cost(0, 0, 0)
    else
      var batch := Delivered(ready, limit);
      var rest := Drain(ready - batch, limit);
      Cost(rest.polls + 1, rest.wakeups + ready, rest.deferred + (ready - batch))
  }

  class SelectorProbe {
    const limit: int
    var calls: nat
    var wakeups: nat
    var deferred: nat
    var peakWakeups: nat
    var peakDeferred: nat
    var lastBatch: nat
    var peakBatch: nat

    constructor (limit: int)
      ensures this.limit == limit && calls == wakeups == deferred == peakWakeups == peakDeferred == lastBatch == peakBatch == 0
    {
      this.limit := limit;
      calls, wakeups, deferred, peakWakeups, peakDeferred, lastBatch, peakBatch := 0, 0, 0, 0, 0, 0, 0;
    }

    /** `profiled_select`, on the number of ready descriptors. */
    method Select(ready: nat) returns (batch: nat)
      modifies this
      ensures batch == Delivered(ready, limit) == lastBatch
      ensures calls == old(calls) + 1 && wakeups == old(wakeups) + ready && deferred == old(deferred) + (ready - batch)
      ensures peakWakeups == (if ready > old(peakWakeups) then ready else old(peakWakeups))
      ensures peakDeferred == (if ready - batch > old(peakDeferred) then ready - batch else old(peakDeferred))
      ensures peakBatch == (if batch > old(peakBatch) then batch else old(peakBatch))
    {
      calls, wakeups := calls + 1, wakeups + ready;
      if ready > peakWakeups { peakWakeups := ready; }
      if limit > 0 && ready > limit {
        batch := limit;
        var left := ready - limit;
        deferred := deferred + left;
        if left > peakDeferred { peakDeferred := left; }
      } else {
        batch := ready;
      }
      lastBatch := batch;
      if batch > peakBatch { peakBatch := batch; }
    }

    /** The fan-out burst: every descriptor stays ready until it is delivered. */
    method DrainBurst(burst: nat)
      modifies this
      ensures calls == old(calls) + Drain(burst, limit).polls
      ensures wakeups == old(wakeups) + Drain(burst, limit).wakeups
      ensures deferred == old(deferred) + Drain(burst, limit).deferred
    {
      var ready := burst;
      ghost var whole := Drain(burst, limit);
      while ready > 0
        invariant calls >= old(calls) && wakeups >= old(wakeups) && deferred >= old(deferred)
        invariant calls - old(calls) + Drain(ready, limit).polls == whole.polls
        invariant wakeups - old(wakeups) + Drain(ready, limit).wakeups == whole.wakeups
        invariant deferred - old(deferred) + Drain(ready, limit).deferred == whole.deferred
      {
        var batch := Select(ready);
        ready := ready - batch;
      }
    }
  }

  /** Wakeups are the events delivered and the events deferred: a dropped event is paid for again. */
  lemma {:induction false} WakeupsAreDeliveredPlusDeferred(n: nat, limit: int)
    ensures Drain(n, limit).wakeups == n + Drain(n, limit).deferred
    decreases n
  {
    if n > 0 { WakeupsAreDeliveredPlusDeferred(n - Delivered(n, limit), limit); }
  }

  /** The cost of a burst drained k at a time, in closed form: with q full batches and r over,
      k q (q + 1) / 2 + r (q + 1) wakeups. */
  lemma {:induction false} BatchesCost(q: nat, r: nat, k: nat)
    requires r < k
    ensures 2 * Drain(k * q + r, k).wakeups == k * (q * (q + 1)) + 2 * (r * (q + 1))
    ensures Drain(k * q + r, k).polls == q + (if r > 0 then 1 else 0)
    decreases q
  {
    var n := k * q + r;
    if q == 0 {
      assert n == r;
      assert Drain(0, k) == Cost(0, 0, 0);
    } else {
      OneMoreBatch(k, q, r);
      BatchesCost(q - 1, r, k);
      var m := k * (q - 1) + r;
      assert n == m + k;
      if m == 0 { assert Drain(0, k) == Cost(0, 0, 0); }
      assert Delivered(n, k) == k;
    }
  }

  lemma OneMoreBatch(k: nat, q: nat, r: nat)
    requires q > 0
    ensures k * q + r == (k * (q - 1) + r) + k
    ensures k * ((q - 1) * q) + 2 * (r * q) + 2 * (k * q + r) == k * (q * (q + 1)) + 2 * (r * (q + 1))
  {
    assert q * (q + 1) == (q - 1) * q + 2 * q;
    assert k * (q * (q + 1)) == k * ((q - 1) * q) + 2 * (k * q);
    assert r * (q + 1) == r * q + r;
  }

  /** When the cap divides the burst n: n (n / k + 1) / 2 wakeups. */
  lemma DividedCost(n: nat, k: nat)
    requires k > 0 && n % k == 0
    ensures 2 * Drain(n, k).wakeups == n * (n / k + 1)
  {
    var q := n / k;
    assert n == k * q + 0;
    BatchesCost(q, 0, k);
    assert k * (q * (q + 1)) == (k * q) * (q + 1);
  }

  /** A cap never helps: a burst costs one wakeup for each event exactly when no batch is cut short. */
  lemma {:induction false} ACapOnlyAdds(n: nat, limit: int)
    ensures Drain(n, limit).wakeups >= n
    ensures Drain(n, limit).wakeups == n <==> limit <= 0 || n <= limit
  {
    WakeupsAreDeliveredPlusDeferred(n, limit);
    if n > 0 {
      var batch := Delivered(n, limit);
      WakeupsAreDeliveredPlusDeferred(n - batch, limit);
    }
  }

  /** 1,024 descriptors drained 16 at a time cost 32.5 wakeups for each event. */
  lemma TheMeasuredAmplification()
    ensures 10 * Drain(1024, 16).wakeups == 325 * 1024
  {
    DividedCost(1024, 16);
  }
}
