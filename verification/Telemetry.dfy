/** Event-loop lag as the telemetry summary keeps it: rolling windows, their ninety-ninth percentiles, and the
    advisories they raise. */
module Telemetry {
  import opened Arithmetic
  import opened Wrappers
  import opened Statistics

  type Lags = seq<int>

  /** One turn of the event loop: its raw lag, and what the generator owned of it. */
  datatype Turn = Turn(raw: int, owned: int)

  /** Every turn observed so far, the latest outermost. */
  datatype History = Start | Then(before: History, last: Turn)

  datatype Kind = Raw | Owned | External

  /** What one kind of window takes from a turn. */
  function Lag(t: Turn, kind: Kind): int
  {
    match kind
    case Raw => t.raw
    case Owned => t.owned
    case External => if t.owned <= 0 then t.raw else 0
  }

  /** A deque of bounded length. */
  function Appended(w: Lags, lag: int): Lags
  {
    if |w| + 1 > EVENT_LOOP_P99_WINDOW_SAMPLES then (w + [lag])[|w| + 1 - EVENT_LOOP_P99_WINDOW_SAMPLES..] else w + [lag]
  }

  function Window(h: History, kind: Kind): Lags
  {
    if h.Start? then [] else Appended(Window(h.before, kind), Lag(h.last, kind))
  }

  /** The percentile a summary uses: a parameter of it, since what it keeps does not depend on what this is. */
  type Percentile99 = Lags -> int

  /** The one it is given. */
  function P99OrZero(s: Lags): int
  {
    if P99(s).None? then 0 else P99(s).value
  }

  /** The highest percentile any window with enough samples has shown. */
  function Peak(h: History, kind: Kind, atLeast: nat, p99: Percentile99): int
  {
    if h.Start? then 0
    else
      var before, w := Peak(h.before, kind, atLeast, p99), Window(h, kind);
      if |w| >= atLeast then Max(before, p99(w)) else before
  }

  /** How many raw lags exceeded a bound. */
  function Breaches(h: History, bound: int): nat
  {
    if h.Start? then 0 else Breaches(h.before, bound) + (if h.last.raw > bound then 1 else 0)
  }

  /** A window under pressure. */
  predicate Pressured(w: Lags, p99: Percentile99)
  {
    |w| >= EVENT_LOOP_P99_MIN_SAMPLES && p99(w) > RUNTIME_MAX_EVENT_LOOP_P99_MS
  }

  predicate EverPressured(h: History, p99: Percentile99)
  {
    h.Then? && (Pressured(Window(h, Owned), p99) || EverPressured(h.before, p99))
  }

  // ---------- the summary as an object ----------

  datatype Summary = Summary(
    raw: Lags, owned: Lags, external: Lags, peakOwned: int, peakRaw: int, peakExternal: int,
    warnings: nat, breaches: nat, pressureAdvised: bool, instabilityAdvised: bool)

  /** What the summary's fields are, by the whole history of turns. */
  function Told(h: History, p99: Percentile99): Summary
  {
    Summary(Window(h, Raw), Window(h, Owned), Window(h, External),
            Peak(h, Owned, EVENT_LOOP_P99_MIN_SAMPLES, p99), Peak(h, Raw, 1, p99), Peak(h, External, 1, p99),
            Breaches(h, RAW_WALL_LAG_WARNING_MS), Breaches(h, RAW_WALL_LAG_CEILING_MS),
            EverPressured(h, p99), Breaches(h, RAW_WALL_LAG_CEILING_MS) >= RAW_WALL_LAG_MAX_BREACHES)
  }

  /** One more turn, on the summary's fields. */
  function Observed(s: Summary, t: Turn, p99: Percentile99): Summary
  {
    var raw, owned, external := Appended(s.raw, Lag(t, Raw)), Appended(s.owned, Lag(t, Owned)), Appended(s.external, Lag(t, External));
    var enough := |raw| >= EVENT_LOOP_P99_MIN_SAMPLES;
    var breaches := s.breaches + (if t.raw > RAW_WALL_LAG_CEILING_MS then 1 else 0);
    Summary(raw, owned, external,
            if enough then Max(s.peakOwned, p99(owned)) else s.peakOwned,
            Max(s.peakRaw, p99(raw)), Max(s.peakExternal, p99(external)),
            s.warnings + (if t.raw > RAW_WALL_LAG_WARNING_MS then 1 else 0), breaches,
            s.pressureAdvised || (enough && p99(owned) > RUNTIME_MAX_EVENT_LOOP_P99_MS),
            s.instabilityAdvised || (t.raw > RAW_WALL_LAG_CEILING_MS && breaches >= RAW_WALL_LAG_MAX_BREACHES))
  }

  /** Keeping the fields up turn by turn is what the longer history says. */
  lemma ObservedFollows(h: History, t: Turn, p99: Percentile99)
    ensures Told(Then(h, t), p99) == Observed(Told(h, p99), t, p99)
  {
    WindowsAgree(Then(h, t));
  }

  class TelemetrySummary {
    const percentile99: Percentile99
    var raw: Lags
    var owned: Lags
    var external: Lags
    var peakOwned: int
    var peakRaw: int
    var peakExternal: int
    var warnings: nat
    var breaches: nat
    var pressureAdvised: bool
    var instabilityAdvised: bool
    ghost var history: History

    ghost function View(): Summary
      reads this
    {
      Summary(raw, owned, external, peakOwned, peakRaw, peakExternal, warnings, breaches, pressureAdvised, instabilityAdvised)
    }

    ghost predicate Valid()
      reads this
    {
      View() == Told(history, percentile99)
    }

    constructor (percentile99: Percentile99)
      ensures Valid() && history == Start && this.percentile99 == percentile99
    {
      this.percentile99 := percentile99;
      raw, owned, external, peakOwned, peakRaw, peakExternal := [], [], [], 0, 0, 0;
      warnings, breaches, pressureAdvised, instabilityAdvised := 0, 0, false, false;
      history := Start;
    }

    method ObserveEventLoop(rawLag: int, generatorOwned: Option<int>)
      requires Valid()
      modifies this
      ensures Valid()
      ensures history == Then(old(history), Turn(rawLag, if generatorOwned.None? then rawLag else generatorOwned.value))
    {
      var ownedLag := if generatorOwned.None? then rawLag else generatorOwned.value;
      ObservedFollows(history, Turn(rawLag, ownedLag), percentile99);
      history := Then(history, Turn(rawLag, ownedLag));
      Keep(rawLag, ownedLag);
    }

    method Keep(rawLag: int, ownedLag: int)
      modifies `raw, `owned, `external, `peakOwned, `peakRaw, `peakExternal, `warnings, `breaches, `pressureAdvised, `instabilityAdvised
      ensures View() == Observed(old(View()), Turn(rawLag, ownedLag), percentile99)
    {
      var externalLag := if ownedLag <= 0 then rawLag else 0;
      raw, owned, external := Appended(raw, rawLag), Appended(owned, ownedLag), Appended(external, externalLag);
      peakRaw := Max(peakRaw, percentile99(raw));
      peakExternal := Max(peakExternal, percentile99(external));
      if |raw| >= EVENT_LOOP_P99_MIN_SAMPLES {
        var p99 := percentile99(owned);
        peakOwned := Max(peakOwned, p99);
        if p99 > RUNTIME_MAX_EVENT_LOOP_P99_MS { pressureAdvised := true; }
      }
      CountBreaches(rawLag);
    }

    method CountBreaches(rawLag: int)
      modifies `warnings, `breaches, `instabilityAdvised
      ensures warnings == old(warnings) + (if rawLag > RAW_WALL_LAG_WARNING_MS then 1 else 0)
      ensures breaches == old(breaches) + (if rawLag > RAW_WALL_LAG_CEILING_MS then 1 else 0)
      ensures instabilityAdvised ==
        (old(instabilityAdvised) || (rawLag > RAW_WALL_LAG_CEILING_MS && breaches >= RAW_WALL_LAG_MAX_BREACHES))
    {
      if rawLag > RAW_WALL_LAG_WARNING_MS { warnings := warnings + 1; }
      if rawLag > RAW_WALL_LAG_CEILING_MS {
        breaches := breaches + 1;
        if breaches >= RAW_WALL_LAG_MAX_BREACHES { instabilityAdvised := true; }
      }
    }
  }

  // ---------- what the windows and the advisory mean ----------

  function Listed(h: History, kind: Kind): Lags
  {
    if h.Start? then [] else Listed(h.before, kind) + [Lag(h.last, kind)]
  }

  /** A window holds the latest thousand lags, in order. */
  lemma {:induction false} AWindowIsTheLatestThousand(h: History, kind: Kind)
    ensures |Window(h, kind)| == Min(|Listed(h, kind)|, EVENT_LOOP_P99_WINDOW_SAMPLES)
    ensures Window(h, kind) == Listed(h, kind)[|Listed(h, kind)| - |Window(h, kind)|..]
  {
    if h.Then? { AWindowIsTheLatestThousand(h.before, kind); }
  }

  /** The three windows always hold the same number of lags. */
  lemma {:induction false} WindowsAgree(h: History)
    ensures |Window(h, Raw)| == |Window(h, Owned)| == |Window(h, External)|
    ensures h.Then? ==> |Window(h, Raw)| >= 1
  {
    if h.Then? { WindowsAgree(h.before); }
  }

  predicate Within(earlier: History, h: History)
  {
    earlier == h || (h.Then? && Within(earlier, h.before))
  }

  /** How many large lags put a window of n samples under pressure: n - ceil(0.99 n) + 1. */
  function Enough(n: nat): nat
    requires n > 0
  {
    n - Rank(n, 99, 100) + 1
  }

  predicate EnoughAreLarge(w: Lags)
  {
    |w| >= EVENT_LOOP_P99_MIN_SAMPLES && Above(w, RUNTIME_MAX_EVENT_LOOP_P99_MS) >= Enough(|w|)
  }

  /** The nearest-rank percentile, as the summary is given it. */
  ghost predicate NearestRank(p99: Percentile99)
  {
    forall w :: p99(w) == P99OrZero(w)
  }

  lemma PressureMeansEnough(w: Lags, p99: Percentile99)
    requires NearestRank(p99)
    ensures Pressured(w, p99) <==> EnoughAreLarge(w)
  {
    assert p99(w) == P99OrZero(w);
    if w != [] { PercentileExceeds(w, 99, 100, RUNTIME_MAX_EVENT_LOOP_P99_MS); }
  }

  lemma {:induction false} PressureIsRemembered(h: History, earlier: History, p99: Percentile99)
    requires Within(earlier, h) && earlier.Then? && Pressured(Window(earlier, Owned), p99)
    ensures EverPressured(h, p99)
  {
    if earlier != h { PressureIsRemembered(h.before, earlier, p99); }
  }

  lemma {:induction false} PressureWasSometime(h: History, p99: Percentile99) returns (earlier: History)
    requires EverPressured(h, p99)
    ensures Within(earlier, h) && Pressured(Window(earlier, Owned), p99)
  {
    if Pressured(Window(h, Owned), p99) { earlier := h; } else { earlier := PressureWasSometime(h.before, p99); }
  }

  /** A moment at which at least a hundred lags were in the window and enough of them were over the limit. */
  predicate LargeAt(earlier: History, h: History)
  {
    Within(earlier, h) && EnoughAreLarge(Window(earlier, Owned))
  }

  /** The pressure advisory has fired exactly when there was such a moment. */
  lemma AdvisedExactlyWhenEnoughLagsWereLarge(h: History, p99: Percentile99)
    requires NearestRank(p99)
    ensures EverPressured(h, p99) <==> exists earlier :: LargeAt(earlier, h)
  {
    if EverPressured(h, p99) {
      var earlier := PressureWasSometime(h, p99);
      PressureMeansEnough(Window(earlier, Owned), p99);
      assert LargeAt(earlier, h);
    }
    if earlier :| LargeAt(earlier, h) {
      PressureMeansEnough(Window(earlier, Owned), p99);
      PressureIsRemembered(h, earlier, p99);
    }
  }
}
