/** What the reduction promises: no dependence on arrival order, one entry per key, stability. */
module ReductionLaws {
  import opened Wrappers
  import opened KeyOrder
  import opened ChangeReduction

  // ---------- arrival order ----------

  /** Every permutation of a batch is refused, or every permutation reduces to the same answer. */
  lemma ArrivalOrderIsIrrelevant(p: seq<Row>, q: seq<Row>)
    requires multiset(p) == multiset(q)
    ensures Answer(p).Ok? <==> Answer(q).Ok?
    ensures Answer(p).Ok? ==> Answer(p) == Answer(q)
  {
    forall r ensures r in p <==> r in q {
      assert r in p <==> r in multiset(p);
      assert r in q <==> r in multiset(q);
    }
    FirstFaultNone(p);
    FirstFaultNone(q);
    assert LiveRows(p) == LiveRows(q);
  }

  /** Which error a malformed batch raises does depend on the order of its rows. */
  lemma TheErrorDependsOnOrder() returns (p: seq<Row>, q: seq<Row>)
    ensures multiset(p) == multiset(q) && Answer(p).Err? && Answer(q).Err? && Answer(p) != Answer(q)
  {
    var noImage := Image(None, None, None);
    var a := Row(Unknown("'merge'"), Text("k"), Number(1), noImage);
    var b := Row(Insert, NotText, Number(1), noImage);
    p, q := [a, b], [b, a];
    assert RowFault(a) == Some(UnknownChangeType("'merge'")) && RowFault(b) == Some(NoKey);
  }

  /** All malformed rows of a batch raise one error: the same fault, naming the same type or key. */
  ghost predicate OneFault(rows: seq<Row>)
  {
    forall a, b | a in rows && b in rows && RowFault(a).Some? && RowFault(b).Some? :: RowFault(a) == RowFault(b)
  }

  lemma {:induction false} FirstFaultIsARows(rows: seq<Row>)
    requires FirstFault(rows).Some?
    ensures exists r :: r in rows && RowFault(r) == FirstFault(rows)
  {
    if RowFault(rows[0]).Some? {
      assert rows[0] in rows;
    } else {
      FirstFaultIsARows(rows[1..]);
      var r :| r in rows[1..] && RowFault(r) == FirstFault(rows[1..]);
      assert r in rows;
    }
  }

  lemma OneFaultAnyOrder(p: seq<Row>, q: seq<Row>)
    requires multiset(p) == multiset(q) && OneFault(p)
    ensures Answer(p) == Answer(q)
  {
    ArrivalOrderIsIrrelevant(p, q);
    if Answer(p).Err? {
      FirstFaultIsARows(p);
      FirstFaultIsARows(q);
      var a :| a in p && RowFault(a) == FirstFault(p);
      var b :| b in q && RowFault(b) == FirstFault(q);
      assert b in multiset(p);
    }
  }

  /** Moving a malformed row to the front makes its fault the one that is raised. */
  lemma MoveToFront(p: seq<Row>, r: Row) returns (q: seq<Row>)
    requires r in p && RowFault(r).Some?
    ensures multiset(q) == multiset(p) && Answer(q) == Err(RowFault(r).value)
  {
    var i :| 0 <= i < |p| && p[i] == r;
    q := [r] + (p[..i] + p[i + 1..]);
    assert p == p[..i] + [r] + p[i + 1..];
    assert multiset(q) == multiset{r} + multiset(p[..i]) + multiset(p[i + 1..]);
  }

  /** A batch has one answer in every order, the whole text of its error included, exactly when all its
      malformed rows raise one error. */
  lemma TheErrorIsOrderFreeExactlyWithOneFault(p: seq<Row>)
    ensures (forall q | multiset(q) == multiset(p) :: Answer(q) == Answer(p)) <==> OneFault(p)
  {
    if OneFault(p) {
      forall q | multiset(q) == multiset(p) ensures Answer(q) == Answer(p) {
        OneFaultAnyOrder(p, q);
      }
    } else {
      var a, b :| a in p && b in p && RowFault(a).Some? && RowFault(b).Some? && RowFault(a) != RowFault(b);
      var q := MoveToFront(p, a);
      var r := MoveToFront(p, b);
      assert Answer(q) != Answer(r);
    }
  }

  // ---------- one entry per key ----------

  ghost predicate EntriesSorted(r: Reduction)
  {
    && (forall i, j | 0 <= i < j < |r.winners| :: Below(r.winners[i].key, r.winners[j].key))
    && (forall i, j | 0 <= i < j < |r.unresolved| :: Below(r.unresolved[i].0, r.unresolved[j].0))
    && (forall i, j | 0 <= i < |r.winners| && 0 <= j < |r.unresolved| :: r.winners[i].key != r.unresolved[j].0)
  }

  ghost function EntryKeys(r: Reduction): set<string>
  {
    (set c | c in r.winners :: c.key) + (set u | u in r.unresolved :: u.0)
  }

  lemma OutcomeNames(live: set<Row>, key: string)
    requires key in Keys(live)
    ensures match Outcome(live, key) case Winner(c) => c.key == key && c.version == NewestOf(live, key) case Unresolved(k, v) => k == key && v == NewestOf(live, key)
  {
  }

  lemma {:induction false} ReducedToPartitions(live: set<Row>, keys: seq<string>)
    requires StrictlySorted(keys) && forall k | k in keys :: k in Keys(live)
    ensures EntriesSorted(ReducedTo(live, keys))
    ensures EntryKeys(ReducedTo(live, keys)) == set k | k in keys
    ensures |ReducedTo(live, keys).winners| + |ReducedTo(live, keys).unresolved| == |keys|
  {
    if keys != [] {
      var n := |keys| - 1;
      ReducedToPartitions(live, keys[..n]);
      var before, o := ReducedTo(live, keys[..n]), Outcome(live, keys[n]);
      OutcomeNames(live, keys[n]);
      OneMoreEntry(before, o, keys, n);
    }
  }

  lemma OneMoreEntry(before: Reduction, o: KeyOutcome, keys: seq<string>, n: nat)
    requires StrictlySorted(keys) && |keys| == n + 1 && EntryKeys(before) == set k | k in keys[..n]
    requires EntriesSorted(before) && if o.Winner? then o.change.key == keys[n] else o.key == keys[n]
    ensures EntriesSorted(AddOutcome(before, o))
    ensures EntryKeys(AddOutcome(before, o)) == set k | k in keys
  {
    EntriesBelowTheNext(before, keys, n);
    AddOutcomeKeeps(before, o, keys[n]);
    assert (set k | k in keys) == (set k | k in keys[..n]) + {keys[n]} by { assert keys == keys[..n] + [keys[n]]; }
  }

  lemma EntriesBelowTheNext(before: Reduction, keys: seq<string>, n: nat)
    requires StrictlySorted(keys) && n < |keys| && EntryKeys(before) == set k | k in keys[..n]
    ensures forall c | c in before.winners :: Below(c.key, keys[n]) && c.key != keys[n]
    ensures forall u | u in before.unresolved :: Below(u.0, keys[n]) && u.0 != keys[n]
  {
    forall k | k in EntryKeys(before) ensures Below(k, keys[n]) && k != keys[n] {
      assert k in keys[..n];
      BelowIrreflexive(k);
    }
    assert forall c | c in before.winners :: c.key in EntryKeys(before);
    assert forall u | u in before.unresolved :: u.0 in EntryKeys(before);
  }

  lemma AddOutcomeKeeps(before: Reduction, o: KeyOutcome, key: string)
    requires EntriesSorted(before)
    requires if o.Winner? then o.change.key == key else o.key == key
    requires forall c | c in before.winners :: Below(c.key, key) && c.key != key
    requires forall u | u in before.unresolved :: Below(u.0, key) && u.0 != key
    ensures EntriesSorted(AddOutcome(before, o))
    ensures EntryKeys(AddOutcome(before, o)) == EntryKeys(before) + {key}
  {
    var after := AddOutcome(before, o);
    match o {
      case Winner(c) =>
        assert forall x :: x in after.winners <==> x in before.winners || x == c;
        assert c in after.winners;
      case Unresolved(k, v) =>
        assert forall x :: x in after.unresolved <==> x in before.unresolved || x == (k, v);
        assert (k, v) in after.unresolved;
    }
    forall x ensures x in EntryKeys(after) <==> x in EntryKeys(before) || x == key {
    }
  }

  /** Winners and unresolved keys partition the keys of the rows that are not pre-images, one entry
      each, in key order. */
  lemma WinnersAndUnresolvedPartitionTheKeys(rows: seq<Row>)
    requires Answer(rows).Ok?
    ensures EntriesSorted(Answer(rows).value)
    ensures EntryKeys(Answer(rows).value) == Keys(LiveRows(rows))
    ensures |Answer(rows).value.winners| + |Answer(rows).value.unresolved| == |Keys(LiveRows(rows))|
  {
    var keys := Keys(LiveRows(rows));
    ReducedToPartitions(LiveRows(rows), SortedKeys(keys));
    assert (set k | k in SortedKeys(keys)) == keys;
  }

  // ---------- reducing what was reduced ----------

  function AsRow(c: Change): Row
  {
    Row(c.changeType, Text(c.key), Number(c.version), c.image)
  }

  function AsRows(cs: seq<Change>): seq<Row>
  {
    seq(|cs|, i requires 0 <= i < |cs| => AsRow(cs[i]))
  }

  predicate WellFormed(c: Change)
  {
    c.key != "" && c.version >= 0 && Rank(c.changeType) > 0
  }

  ghost predicate OnePerKey(cs: seq<Change>)
  {
    forall i, j | 0 <= i < j < |cs| :: cs[i].key != cs[j].key
  }

  lemma SoleRowDecides(cs: seq<Change>, i: nat)
    requires OnePerKey(cs) && i < |cs| && forall c | c in cs :: WellFormed(c)
    ensures cs[i].key in Keys(LiveRows(AsRows(cs)))
    ensures Outcome(LiveRows(AsRows(cs)), cs[i].key) == Winner(cs[i])
  {
    var live, row := LiveRows(AsRows(cs)), AsRow(cs[i]);
    assert cs[i] in cs;
    assert AsRows(cs)[i] == row;
    assert row in live;
    forall r | r in RowsOf(live, cs[i].key) ensures r == row {
      var j :| 0 <= j < |cs| && AsRows(cs)[j] == r;
    }
    assert RowsOf(live, cs[i].key) == {row};
    assert NewestOf(live, cs[i].key) == cs[i].version;
    assert RowsAt(live, cs[i].key, cs[i].version) == {row};
    assert RowFault(row) == None;
    assert !Clash({row});
    assert IsTopRanked({row}, row);
    DecideIs({row}, cs[i].key, cs[i].version, row);
  }

  lemma SoleOutcome(cs: seq<Change>, key: string)
    requires OnePerKey(cs) && forall c | c in cs :: WellFormed(c)
    requires key in Keys(LiveRows(AsRows(cs)))
    ensures var o := Outcome(LiveRows(AsRows(cs)), key); o.Winner? && o.change.key == key && o.change in cs
  {
    var r :| r in LiveRows(AsRows(cs)) && KeyOf(r) == key;
    var i :| 0 <= i < |cs| && AsRows(cs)[i] == r;
    SoleRowDecides(cs, i);
  }

  lemma {:induction false} ReducedToSingles(cs: seq<Change>, live: set<Row>, keys: seq<string>)
    requires OnePerKey(cs) && forall c | c in cs :: WellFormed(c)
    requires live == LiveRows(AsRows(cs))
    requires forall k | k in keys :: k in Keys(live)
    ensures OneWinnerEach(cs, keys, ReducedTo(live, keys))
  {
    if keys != [] {
      var n := |keys| - 1;
      ReducedToSingles(cs, live, keys[..n]);
      assert keys[n] in keys;
      SoleOutcome(cs, keys[n]);
      var before, o := ReducedTo(live, keys[..n]), Outcome(live, keys[n]);
      assert ReducedTo(live, keys) == AddOutcome(before, o);
      OneMoreWinner(cs, keys, before, o.change);
    }
  }

  /** Each key has its winner among the changes, in the order of the keys, and none is unresolved. */
  ghost predicate OneWinnerEach(cs: seq<Change>, keys: seq<string>, r: Reduction)
  {
    && r.unresolved == [] && |r.winners| == |keys|
    && forall i | 0 <= i < |keys| :: r.winners[i].key == keys[i] && r.winners[i] in cs
  }

  lemma OneMoreWinner(cs: seq<Change>, keys: seq<string>, before: Reduction, c: Change)
    requires keys != [] && OneWinnerEach(cs, keys[..|keys| - 1], before) && c.key == keys[|keys| - 1] && c in cs
    ensures OneWinnerEach(cs, keys, AddOutcome(before, Winner(c)))
  {
  }

  ghost function KeySet(cs: seq<Change>, n: nat): set<string>
    requires n <= |cs|
  {
    set i | 0 <= i < n :: cs[i].key
  }

  lemma KeysOfRows(cs: seq<Change>)
    requires OnePerKey(cs) && forall c | c in cs :: WellFormed(c)
    ensures Keys(LiveRows(AsRows(cs))) == KeySet(cs, |cs|)
  {
    var live := LiveRows(AsRows(cs));
    forall i | 0 <= i < |cs| ensures cs[i].key in Keys(live) {
      SoleRowDecides(cs, i);
    }
    forall k | k in Keys(live) ensures k in KeySet(cs, |cs|) {
      var r :| r in live && KeyOf(r) == k;
      var i :| 0 <= i < |cs| && AsRows(cs)[i] == r;
    }
  }

  ghost predicate SortedByKey(cs: seq<Change>)
  {
    forall i, j | 0 <= i < j < |cs| :: Below(cs[i].key, cs[j].key)
  }

  lemma {:induction false} CountOfEach(cs: seq<Change>, c: Change)
    requires OnePerKey(cs)
    ensures multiset(cs)[c] == if c in cs then 1 else 0
  {
    if cs != [] {
      var n := |cs| - 1;
      assert cs == cs[..n] + [cs[n]];
      CountOfEach(cs[..n], c);
    }
  }

  /** A set of changes with one per key has one order by key. */
  lemma {:induction false} OneOrderByKey(a: seq<Change>, b: seq<Change>)
    requires SortedByKey(a) && SortedByKey(b) && forall c :: c in a <==> c in b
    ensures a == b
  {
    if b != [] { assert b[0] in b; }
    if a != [] {
      var n := |a| - 1;
      assert a[n] in b;
      var m := |b| - 1;
      LastIsLast(a, b);
      forall c ensures c in a[..n] <==> c in b[..m] {
        WithoutLast(a, c);
        WithoutLast(b, c);
      }
      OneOrderByKey(a[..n], b[..m]);
      assert a == a[..n] + [a[n]] && b == b[..m] + [b[m]];
    }
  }

  lemma WithoutLast(cs: seq<Change>, c: Change)
    requires SortedByKey(cs) && cs != []
    ensures c in cs[..|cs| - 1] <==> c in cs && c != cs[|cs| - 1]
  {
    var n := |cs| - 1;
    assert cs == cs[..n] + [cs[n]];
    BelowIrreflexive(cs[n].key);
  }

  lemma LastIsLast(a: seq<Change>, b: seq<Change>)
    requires SortedByKey(a) && SortedByKey(b) && a != [] && b != [] && forall c :: c in a <==> c in b
    ensures a[|a| - 1] == b[|b| - 1]
  {
    var x, y := a[|a| - 1], b[|b| - 1];
    assert x in a && y in b;
    if x != y {
      var i :| 0 <= i < |a| && a[i] == y;
      var j :| 0 <= j < |b| && b[j] == x;
      assert i < |a| - 1 && j < |b| - 1;
      assert Below(y.key, x.key) && Below(x.key, y.key);
      BelowTransitive(x.key, y.key, x.key);
      BelowIrreflexive(x.key);
    }
  }

  lemma SinglesKeepEverything(cs: seq<Change>)
    requires OnePerKey(cs) && forall c | c in cs :: WellFormed(c)
    ensures Answer(AsRows(cs)).Ok?
    ensures Answer(AsRows(cs)).value.unresolved == []
    ensures SortedByKey(Answer(AsRows(cs)).value.winners)
    ensures forall c :: c in cs <==> c in Answer(AsRows(cs)).value.winners
  {
    var live := LiveRows(AsRows(cs));
    var keys := SortedKeys(Keys(live));
    WellFormedHaveNoFault(cs);
    ReducedToSingles(cs, live, keys);
    KeysOfRows(cs);
    WinnersAreAll(cs, keys, Reduced(live));
  }

  lemma WellFormedHaveNoFault(cs: seq<Change>)
    requires forall c | c in cs :: WellFormed(c)
    ensures Answer(AsRows(cs)) == Ok(Reduced(LiveRows(AsRows(cs))))
  {
    var rows := AsRows(cs);
    forall r | r in rows ensures RowFault(r) == None {
      var i :| 0 <= i < |cs| && rows[i] == r;
      assert cs[i] in cs;
    }
    FirstFaultNone(rows);
  }

  lemma WinnersAreAll(cs: seq<Change>, keys: seq<string>, r: Reduction)
    requires OnePerKey(cs) && StrictlySorted(keys) && OneWinnerEach(cs, keys, r) && forall k :: k in keys <==> k in KeySet(cs, |cs|)
    ensures SortedByKey(r.winners) && forall c :: c in cs <==> c in r.winners
  {
    forall c | c in r.winners ensures c in cs {
      var j :| 0 <= j < |r.winners| && r.winners[j] == c;
      assert r.winners[j].key == keys[j];
    }
    forall c | c in cs ensures c in r.winners {
      var i :| 0 <= i < |cs| && cs[i] == c;
      assert cs[i].key in KeySet(cs, |cs|);
      var j :| 0 <= j < |keys| && keys[j] == c.key;
      SameKeySameChange(cs, c, r.winners[j]);
    }
    forall i, j | 0 <= i < j < |r.winners| ensures Below(r.winners[i].key, r.winners[j].key) {
      assert Below(keys[i], keys[j]);
    }
  }

  lemma SameKeySameChange(cs: seq<Change>, c: Change, d: Change)
    requires OnePerKey(cs) && c in cs && d in cs && c.key == d.key
    ensures c == d
  {
    var i :| 0 <= i < |cs| && cs[i] == c;
    var j :| 0 <= j < |cs| && cs[j] == d;
    assert !(i < j) && !(j < i);
  }

  /** Reducing well-formed changes that already hold one per key is sorting them by key: none is
      dropped, added or altered, and nothing is left unresolved. */
  lemma ReducingAgainChangesNothing(cs: seq<Change>)
    requires OnePerKey(cs) && forall c | c in cs :: WellFormed(c)
    ensures Answer(AsRows(cs)).Ok?
    ensures Answer(AsRows(cs)).value.unresolved == []
    ensures SortedByKey(Answer(AsRows(cs)).value.winners)
    ensures multiset(Answer(AsRows(cs)).value.winners) == multiset(cs)
    ensures SortedByKey(cs) ==> Answer(AsRows(cs)) == Ok(Reduction(cs, []))
  {
    SinglesKeepEverything(cs);
    var winners := Answer(AsRows(cs)).value.winners;
    forall i, j | 0 <= i < j < |winners| ensures winners[i].key != winners[j].key {
      BelowIrreflexive(winners[i].key);
    }
    forall c ensures multiset(winners)[c] == multiset(cs)[c] {
      CountOfEach(cs, c);
      CountOfEach(winners, c);
    }
    if SortedByKey(cs) {
      OneOrderByKey(cs, winners);
    }
  }

  /** A reduction's own winners are well formed and one per key, so re-reducing them is stable. */
  lemma {:induction false} WinnersAreWellFormed(rows: seq<Row>)
    requires Answer(rows).Ok?
    ensures OnePerKey(Answer(rows).value.winners)
    ensures forall c | c in Answer(rows).value.winners :: WellFormed(c)
    ensures forall u | u in Answer(rows).value.unresolved :: u.0 != "" && u.1 >= 0
  {
    var live := LiveRows(rows);
    WinnersAndUnresolvedPartitionTheKeys(rows);
    FirstFaultNone(rows);
    var winners := Answer(rows).value.winners;
    forall i, j | 0 <= i < j < |winners| ensures winners[i].key != winners[j].key {
      BelowIrreflexive(winners[i].key);
    }
    OutcomesWellFormed(live, SortedKeys(Keys(live)));
  }

  /** The reduction is idempotent. */
  lemma ReducingTwiceIsReducingOnce(rows: seq<Row>)
    requires Answer(rows).Ok?
    ensures Answer(AsRows(Answer(rows).value.winners)) == Ok(Reduction(Answer(rows).value.winners, []))
  {
    WinnersAreWellFormed(rows);
    WinnersAndUnresolvedPartitionTheKeys(rows);
    ReducingAgainChangesNothing(Answer(rows).value.winners);
  }

  lemma {:induction false} OutcomesWellFormed(live: set<Row>, keys: seq<string>)
    requires forall r | r in live :: IsLive(r) && RowFault(r) == None
    requires forall k | k in keys :: k in Keys(live)
    ensures forall c | c in ReducedTo(live, keys).winners :: WellFormed(c)
    ensures forall u | u in ReducedTo(live, keys).unresolved :: u.0 != "" && u.1 >= 0
  {
    if keys != [] {
      var n := |keys| - 1;
      OutcomesWellFormed(live, keys[..n]);
      var key := keys[n];
      assert key in keys;
      var v := NewestOf(live, key);
      var at := RowsAt(live, key, v);
      var r :| r in RowsOf(live, key) && VersionOf(r) == v;
      assert r in at;
      OutcomeNames(live, key);
      if !Clash(at) {
        TopRankedExists(at);
        var top :| IsTopRanked(at, top);
        DecideIs(at, key, v, top);
      }
    }
  }
}
