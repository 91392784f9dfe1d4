/** Round 4 end to end: any deliveries of the same changes leave the same target table. */
module Convergence {
  import opened Wrappers
  import opened KeyOrder
  import opened ChangeReduction
  import opened ReductionLaws
  import opened Ledger

  /** The source table's history: every change row ever committed, and the rows of a key as of a
      version. */
  datatype History = History(feed: set<Row>, snapshot: (string, int) -> seq<Image>)

  /** `resolve_from_snapshot`. */
  function ResolveFromSnapshot(key: string, version: int, rows: seq<Image>): Result<Change, Fault>
  {
    if |rows| > 1 then Err(DuplicateSourceRows(|rows|, key, version))
    else if rows == [] then Ok(Change(key, Delete, version, NO_IMAGE))
    else Ok(Change(key, UpdatePostimage, version, rows[0]))
  }

  /** The change the source's history holds for a key at a version. */
  ghost function Truth(h: History, key: string, version: int): Result<Change, Fault>
  {
    match Decide(RowsAt(h.feed, key, version), key, version)
    case Winner(c) => Ok(c)
    case Unresolved(_, _) => ResolveFromSnapshot(key, version, h.snapshot(key, version))
  }

  function ResolveAll(snapshot: (string, int) -> seq<Image>, unresolved: seq<(string, int)>): Result<seq<Change>, Fault>
  {
    if unresolved == [] then Ok([])
    else
      var n := |unresolved| - 1;
      match ResolveAll(snapshot, unresolved[..n])
      case Err(e) => Err(e)
      case Ok(cs) =>
        match ResolveFromSnapshot(unresolved[n].0, unresolved[n].1, snapshot(unresolved[n].0, unresolved[n].1))
        case Err(e) => Err(e)
        case Ok(c) => Ok(cs + [c])
  }

  /** The changes one batch applies: its winners, then what the snapshots decide. */
  ghost function BatchChanges(h: History, rows: seq<Row>): Result<seq<Change>, Fault>
  {
    match Answer(rows)
    case Err(e) => Err(e)
    case Ok(r) =>
      match ResolveAll(h.snapshot, r.unresolved)
      case Err(e) => Err(e)
      case Ok(cs) => Ok(r.winners + cs)
  }

  datatype Written = Failed(fault: Fault) | Wrote(exit: Exit)

  /** The batch step `write`: reduce, resolve what is unresolved, apply with retries. */
  method WriteBatch(db: Database, h: History, rows: seq<Row>, tableId: string, attempts: int, fates: nat -> Fate)
    returns (w: Written)
    modifies db
    ensures w.Failed? <==> BatchChanges(h, rows).Err?
    ensures w.Failed? ==> BatchChanges(h, rows) == Err(w.fault) && db.table == old(db.table)
    ensures w == Wrote(Returned) && attempts >= 1 ==>
              db.table == AppliedAll(old(db.table), tableId, BatchChanges(h, rows).value)
    ensures w.Wrote? ==> db.table == old(db.table) || db.table == AppliedAll(old(db.table), tableId, BatchChanges(h, rows).value)
  {
    var reduced := ReduceChanges(rows);
    if reduced.Err? {
      return Failed(reduced.error);
    }
    var resolved := ResolveEach(h.snapshot, reduced.value.unresolved);
    if resolved.Err? {
      return Failed(resolved.error);
    }
    var changes := reduced.value.winners + resolved.value;
    if changes == [] {
      return Wrote(Returned);
    }
    var exit := ApplyWithRetry(db, changes, tableId, attempts, fates);
    return Wrote(exit);
  }

  /** The loop over the unresolved keys, one snapshot each, up to the first that fails. */
  method ResolveEach(snapshot: (string, int) -> seq<Image>, unresolved: seq<(string, int)>)
    returns (r: Result<seq<Change>, Fault>)
    ensures r == ResolveAll(snapshot, unresolved)
  {
    var resolved: seq<Change> := [];
    for i := 0 to |unresolved|
      invariant ResolveAll(snapshot, unresolved[..i]) == Ok(resolved)
    {
      assert unresolved[..i + 1][..i] == unresolved[..i];
      var (key, version) := unresolved[i];
      var c := ResolveFromSnapshot(key, version, snapshot(key, version));
      if c.Err? {
        ResolveAllStops(snapshot, unresolved, i + 1);
        return Err(c.error);
      }
      resolved := resolved + [c.value];
    }
    assert unresolved[..|unresolved|] == unresolved;
    r := Ok(resolved);
  }

  lemma {:induction false} ResolveAllStops(snapshot: (string, int) -> seq<Image>, unresolved: seq<(string, int)>, n: nat)
    requires n <= |unresolved| && ResolveAll(snapshot, unresolved[..n]).Err?
    ensures ResolveAll(snapshot, unresolved) == ResolveAll(snapshot, unresolved[..n])
  {
    if n == |unresolved| {
      assert unresolved[..n] == unresolved;
    } else {
      var m := |unresolved| - 1;
      assert unresolved[..m][..n] == unresolved[..n];
      ResolveAllStops(snapshot, unresolved[..m], n);
    }
  }

  // ---------- a batch carries the truth of its newest versions ----------

  /** A batch drawn from the feed: a (key, version) it mentions comes with all of its rows. */
  ghost predicate Drawn(h: History, rows: seq<Row>)
  {
    && LiveRows(rows) <= h.feed
    && forall r, s | r in LiveRows(rows) && s in h.feed && KeyOf(r) == KeyOf(s) && VersionOf(r) == VersionOf(s) ::
         s in LiveRows(rows)
  }

  lemma {:induction false} EntriesAreOutcomes(live: set<Row>, keys: seq<string>)
    requires forall k | k in keys :: k in Keys(live)
    ensures forall c | c in ReducedTo(live, keys).winners :: c.key in Keys(live) && Outcome(live, c.key) == Winner(c)
    ensures forall u | u in ReducedTo(live, keys).unresolved :: u.0 in Keys(live) && Outcome(live, u.0) == Unresolved(u.0, u.1)
  {
    if keys != [] {
      EntriesAreOutcomes(live, keys[..|keys| - 1]);
      assert keys[|keys| - 1] in keys;
      OutcomeNames(live, keys[|keys| - 1]);
    }
  }

  lemma {:induction false} ResolvedOneByOne(snapshot: (string, int) -> seq<Image>, unresolved: seq<(string, int)>)
    requires ResolveAll(snapshot, unresolved).Ok?
    ensures var cs := ResolveAll(snapshot, unresolved).value;
      |cs| == |unresolved| && forall i | 0 <= i < |cs| ::
        cs[i].key == unresolved[i].0 && ResolveFromSnapshot(unresolved[i].0, unresolved[i].1, snapshot(unresolved[i].0, unresolved[i].1)) == Ok(cs[i])
  {
    if unresolved != [] {
      ResolvedOneByOne(snapshot, unresolved[..|unresolved| - 1]);
    }
  }

  lemma OutcomeOfDrawn(h: History, rows: seq<Row>, key: string)
    requires Drawn(h, rows) && key in Keys(LiveRows(rows))
    ensures var v := NewestOf(LiveRows(rows), key);
      Outcome(LiveRows(rows), key) == Decide(RowsAt(h.feed, key, v), key, v)
  {
    var live := LiveRows(rows);
    var v := NewestOf(live, key);
    var r :| r in RowsOf(live, key) && VersionOf(r) == v;
    assert RowsAt(live, key, v) == RowsAt(h.feed, key, v);
  }

  /** The newest version a batch mentions of each of its keys, with what the history holds there. */
  ghost predicate Truthful(h: History, live: set<Row>, cs: seq<Change>)
  {
    && OnePerKey(cs)
    && (forall c | c in cs :: c.key in Keys(live) && c.version == NewestOf(live, c.key) && Truth(h, c.key, c.version) == Ok(c))
    && (forall k | k in Keys(live) :: exists c :: c in cs && c.key == k)
  }

  lemma WinnerIsTruth(h: History, rows: seq<Row>, c: Change)
    requires Drawn(h, rows) && Answer(rows).Ok? && c in Answer(rows).value.winners
    ensures c.key in Keys(LiveRows(rows)) && c.version == NewestOf(LiveRows(rows), c.key)
    ensures Truth(h, c.key, c.version) == Ok(c)
  {
    var live := LiveRows(rows);
    EntriesAreOutcomes(live, SortedKeys(Keys(live)));
    OutcomeNames(live, c.key);
    OutcomeOfDrawn(h, rows, c.key);
  }

  lemma ResolvedIsTruth(h: History, rows: seq<Row>, u: (string, int), c: Change)
    requires Drawn(h, rows) && Answer(rows).Ok? && u in Answer(rows).value.unresolved
    requires ResolveFromSnapshot(u.0, u.1, h.snapshot(u.0, u.1)) == Ok(c)
    ensures c.key == u.0 && c.key in Keys(LiveRows(rows)) && c.version == NewestOf(LiveRows(rows), c.key)
    ensures Truth(h, c.key, c.version) == Ok(c)
  {
    var live := LiveRows(rows);
    EntriesAreOutcomes(live, SortedKeys(Keys(live)));
    OutcomeNames(live, u.0);
    OutcomeOfDrawn(h, rows, u.0);
  }

  lemma EntryKeysAreOnePerKey(r: Reduction, cs: seq<Change>)
    requires EntriesSorted(r) && |cs| == |r.unresolved|
    requires forall i | 0 <= i < |cs| :: cs[i].key == r.unresolved[i].0
    ensures OnePerKey(r.winners + cs)
    ensures forall k | k in EntryKeys(r) :: exists c :: c in r.winners + cs && c.key == k
  {
    var all, n := r.winners + cs, |r.winners|;
    forall i, j | 0 <= i < j < |all| ensures all[i].key != all[j].key {
      BelowIrreflexive(all[i].key);
    }
    forall k | k in EntryKeys(r) ensures exists c :: c in all && c.key == k {
      if c :| c in r.winners && c.key == k {
        assert c in all;
      } else {
        var u :| u in r.unresolved && u.0 == k;
        var i :| 0 <= i < |r.unresolved| && r.unresolved[i] == u;
        assert all[n + i] in all && all[n + i].key == k;
      }
    }
  }

  lemma ChangeIsTruth(h: History, rows: seq<Row>, c: Change)
    requires Drawn(h, rows) && BatchChanges(h, rows).Ok? && c in BatchChanges(h, rows).value
    ensures c.key in Keys(LiveRows(rows)) && c.version == NewestOf(LiveRows(rows), c.key)
    ensures Truth(h, c.key, c.version) == Ok(c)
  {
    var r := Answer(rows).value;
    var resolved := ResolveAll(h.snapshot, r.unresolved).value;
    if c in r.winners {
      WinnerIsTruth(h, rows, c);
    } else {
      assert c in resolved;
      ResolvedOneByOne(h.snapshot, r.unresolved);
      var i :| 0 <= i < |resolved| && resolved[i] == c;
      ResolvedIsTruth(h, rows, r.unresolved[i], c);
    }
  }

  lemma BatchIsTruthful(h: History, rows: seq<Row>)
    requires Drawn(h, rows) && BatchChanges(h, rows).Ok?
    ensures Truthful(h, LiveRows(rows), BatchChanges(h, rows).value)
  {
    var r := Answer(rows).value;
    ResolvedOneByOne(h.snapshot, r.unresolved);
    WinnersAndUnresolvedPartitionTheKeys(rows);
    EntryKeysAreOnePerKey(r, ResolveAll(h.snapshot, r.unresolved).value);
    forall c | c in BatchChanges(h, rows).value
      ensures c.key in Keys(LiveRows(rows)) && c.version == NewestOf(LiveRows(rows), c.key) && Truth(h, c.key, c.version) == Ok(c)
    {
      ChangeIsTruth(h, rows, c);
    }
  }

  // ---------- one batch, seen from one key ----------

  function Lookup(t: Table, key: string): Option<LedgerRow>
  {
    if key in t then Some(t[key]) else None
  }

  /** What one guarded write does to a row. */
  function Guarded(row: Option<LedgerRow>, tableId: string, c: Change): LedgerRow
  {
    if row == None || row.value.tableId != tableId || row.value.version < c.version then RowFor(tableId, c) else row.value
  }

  lemma AppliedByKey(t: Table, tableId: string, c: Change, key: string)
    ensures Lookup(Applied(t, tableId, c), key) == if c.key == key then Some(Guarded(Lookup(t, key), tableId, c)) else Lookup(t, key)
  {
  }

  lemma {:induction false} AppliedAllByKey(t: Table, tableId: string, cs: seq<Change>, key: string)
    requires OnePerKey(cs)
    ensures (forall c | c in cs :: c.key != key) ==> Lookup(AppliedAll(t, tableId, cs), key) == Lookup(t, key)
    ensures forall c | c in cs && c.key == key ::
              Lookup(AppliedAll(t, tableId, cs), key) == Some(Guarded(Lookup(t, key), tableId, c))
  {
    if cs != [] {
      var n := |cs| - 1;
      var first, last := cs[..n], cs[n];
      AppliedAllByKey(t, tableId, first, key);
      AppliedByKey(AppliedAll(t, tableId, first), tableId, last, key);
      assert forall c :: c in cs <==> c in first || c == last;
      assert last.key == key ==> forall c | c in first :: c.key != key;
    }
  }

  // ---------- every finite sequence of deliveries ----------

  /** One delivery of a batch, and whether its commit landed. */
  datatype Delivery = Delivery(rows: seq<Row>, landed: bool)

  /** A batch that is refused leaves the table alone, and so does one whose commit never landed. */
  ghost predicate Counts(h: History, d: Delivery)
  {
    d.landed && BatchChanges(h, d.rows).Ok?
  }

  ghost function Delivered(h: History, t: Table, tableId: string, ds: seq<Delivery>): Table
  {
    if ds == [] then t
    else
      var before := Delivered(h, t, tableId, ds[..|ds| - 1]);
      var d := ds[|ds| - 1];
      if Counts(h, d) then AppliedAll(before, tableId, BatchChanges(h, d.rows).value) else before
  }

  ghost function VersionsDelivered(h: History, ds: seq<Delivery>, key: string): set<int>
  {
    set d, r | d in ds && Counts(h, d) && r in LiveRows(d.rows) && KeyOf(r) == key :: VersionOf(r)
  }

  ghost predicate IsHighest(versions: set<int>, m: int)
  {
    m in versions && forall v | v in versions :: v <= m
  }

  lemma SomeVersion(versions: set<int>)
    ensures versions == {} || exists v: int :: v in versions
  {
    if forall w: int :: w !in versions {
      assert versions == {};
    }
  }

  lemma {:induction false} HighestExists(versions: set<int>)
    requires versions != {}
    ensures exists m :: IsHighest(versions, m)
  {
    SomeVersion(versions);
    var v: int :| v in versions;
    var rest := versions - {v};
    assert versions == rest + {v};
    if rest == {} {
      assert IsHighest(versions, v);
    } else {
      HighestExists(rest);
      var m :| IsHighest(rest, m);
      assert IsHighest(versions, if v > m then v else m);
    }
  }

  ghost function Highest(versions: set<int>): (m: int)
    requires versions != {}
    ensures IsHighest(versions, m)
  {
    HighestExists(versions);
    var m :| IsHighest(versions, m);
    m
  }

  /** The row a key ends with: the history's change at its highest delivered version, unless the
      table already held that Delta table's row at that version or above. */
  ghost function Expected(h: History, t: Table, tableId: string, versions: set<int>, key: string): Option<LedgerRow>
  {
    if versions == {} then Lookup(t, key)
    else
      var m := Highest(versions);
      if key in t && t[key].tableId == tableId && t[key].version >= m then Some(t[key])
      else if Truth(h, key, m).Ok? then Some(RowFor(tableId, Truth(h, key, m).value))
      else None
  }

  ghost predicate Sound(h: History, ds: seq<Delivery>)
  {
    forall d | d in ds :: Drawn(h, d.rows)
  }

  lemma VersionsOfLast(h: History, ds: seq<Delivery>, key: string)
    requires ds != []
    ensures var d := ds[|ds| - 1];
      VersionsDelivered(h, ds, key) == VersionsDelivered(h, ds[..|ds| - 1], key) + (if Counts(h, d) then VersionsIn(d.rows, key) else {})
  {
    assert ds == ds[..|ds| - 1] + [ds[|ds| - 1]];
  }

  ghost function VersionsIn(rows: seq<Row>, key: string): set<int>
  {
    set r | r in LiveRows(rows) && KeyOf(r) == key :: VersionOf(r)
  }

  /** The row of a key follows its highest delivered version. */
  ghost predicate Follows(h: History, t0: Table, tableId: string, versions: set<int>, key: string, row: Option<LedgerRow>)
  {
    && row == Expected(h, t0, tableId, versions, key)
    && (versions != {} ==> Truth(h, key, Highest(versions)).Ok? && Truth(h, key, Highest(versions)).value.version == Highest(versions))
  }

  lemma HighestOfTwo(a: set<int>, b: set<int>, m: int)
    requires IsHighest(b, m)
    ensures Highest(a + b) == if a != {} && Highest(a) > m then Highest(a) else m
  {
    var h := if a != {} && Highest(a) > m then Highest(a) else m;
    assert IsHighest(a + b, h);
    assert IsHighest(a + b, Highest(a + b));
  }

  lemma GuardFollows(h: History, t0: Table, tableId: string, before: set<int>, news: set<int>, key: string, row: Option<LedgerRow>, c: Change)
    requires Follows(h, t0, tableId, before, key, row)
    requires IsHighest(news, c.version) && Truth(h, key, c.version) == Ok(c)
    ensures Follows(h, t0, tableId, before + news, key, Some(Guarded(row, tableId, c)))
  {
    HighestOfTwo(before, news, c.version);
    assert before + news != {} by {
      assert c.version in before + news;
    }
  }

  lemma VersionsInAre(rows: seq<Row>, key: string)
    ensures key in Keys(LiveRows(rows)) ==> IsHighest(VersionsIn(rows, key), NewestOf(LiveRows(rows), key))
    ensures key !in Keys(LiveRows(rows)) ==> VersionsIn(rows, key) == {}
  {
    var live := LiveRows(rows);
    if key in Keys(live) {
      assert IsNewest(RowsOf(live, key), NewestOf(live, key));
    } else {
      forall r | r in live ensures KeyOf(r) != key {
        assert KeyOf(r) in Keys(live);
      }
    }
  }

  lemma OneDelivery(h: History, t0: Table, t: Table, tableId: string, rows: seq<Row>, before: set<int>, key: string)
    requires Drawn(h, rows) && BatchChanges(h, rows).Ok?
    requires Follows(h, t0, tableId, before, key, Lookup(t, key))
    ensures Follows(h, t0, tableId, before + VersionsIn(rows, key), key,
                    Lookup(AppliedAll(t, tableId, BatchChanges(h, rows).value), key))
  {
    var cs := BatchChanges(h, rows).value;
    BatchIsTruthful(h, rows);
    AppliedAllByKey(t, tableId, cs, key);
    VersionsInAre(rows, key);
    if key in Keys(LiveRows(rows)) {
      var c :| c in cs && c.key == key;
      GuardFollows(h, t0, tableId, before, VersionsIn(rows, key), key, Lookup(t, key), c);
    } else {
      assert before + VersionsIn(rows, key) == before;
    }
  }

  ghost predicate RowFollows(h: History, t: Table, tableId: string, ds: seq<Delivery>, key: string)
  {
    Follows(h, t, tableId, VersionsDelivered(h, ds, key), key, Lookup(Delivered(h, t, tableId, ds), key))
  }

  lemma LastDelivery(h: History, t: Table, tableId: string, ds: seq<Delivery>, key: string)
    requires ds != [] && Sound(h, ds)
    requires RowFollows(h, t, tableId, ds[..|ds| - 1], key)
    ensures RowFollows(h, t, tableId, ds, key)
  {
    var before, d := ds[..|ds| - 1], ds[|ds| - 1];
    VersionsOfLast(h, ds, key);
    if Counts(h, d) {
      OneDelivery(h, t, Delivered(h, t, tableId, before), tableId, d.rows, VersionsDelivered(h, before, key), key);
    } else {
      assert VersionsDelivered(h, ds, key) == VersionsDelivered(h, before, key);
    }
  }

  /** For any finite sequence of batches, split, merged, reordered, replayed, refused or lost, every row
      of the target equals the source's resolved change at the highest version delivered for its key. */
  lemma {:induction false} EveryRowIsTheHighestVersionDelivered(h: History, t: Table, tableId: string, ds: seq<Delivery>, key: string)
    requires Sound(h, ds)
    ensures RowFollows(h, t, tableId, ds, key)
  {
    if ds == [] {
      assert VersionsDelivered(h, ds, key) == {};
    } else {
      var n := |ds| - 1;
      assert forall d | d in ds[..n] :: d in ds;
      EveryRowIsTheHighestVersionDelivered(h, t, tableId, ds[..n], key);
      LastDelivery(h, t, tableId, ds, key);
    }
  }

  /** Nothing of a key is delivered by either, or both have the same highest version of it. */
  ghost predicate SameHighest(v: set<int>, w: set<int>)
  {
    if v == {} || w == {} then v == w else Highest(v) == Highest(w)
  }

  lemma SameLookup(h: History, t: Table, tableId: string, ds: seq<Delivery>, es: seq<Delivery>, key: string)
    requires Sound(h, ds) && Sound(h, es)
    requires SameHighest(VersionsDelivered(h, ds, key), VersionsDelivered(h, es, key))
    ensures Lookup(Delivered(h, t, tableId, ds), key) == Lookup(Delivered(h, t, tableId, es), key)
  {
    EveryRowIsTheHighestVersionDelivered(h, t, tableId, ds, key);
    EveryRowIsTheHighestVersionDelivered(h, t, tableId, es, key);
  }

  lemma SameLookupsSameTable(a: Table, b: Table)
    requires forall key :: Lookup(a, key) == Lookup(b, key)
    ensures a == b
  {
    assert forall key :: key in a <==> Lookup(a, key).Some?;
    assert forall key :: key in b <==> Lookup(b, key).Some?;
    forall key | key in a ensures key in b && a[key] == b[key] {
      assert Lookup(a, key) == Lookup(b, key);
    }
  }

  /** Two deliveries that reach the same highest version of every key end in the same table. */
  lemma DeliveriesConverge(h: History, t: Table, tableId: string, ds: seq<Delivery>, es: seq<Delivery>)
    requires Sound(h, ds) && Sound(h, es)
    requires forall key :: SameHighest(VersionsDelivered(h, ds, key), VersionsDelivered(h, es, key))
    ensures Delivered(h, t, tableId, ds) == Delivered(h, t, tableId, es)
  {
    forall key ensures Lookup(Delivered(h, t, tableId, ds), key) == Lookup(Delivered(h, t, tableId, es), key) {
      SameLookup(h, t, tableId, ds, es, key);
    }
    SameLookupsSameTable(Delivered(h, t, tableId, ds), Delivered(h, t, tableId, es));
  }
}
