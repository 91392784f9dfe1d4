/** Round 4's change reduction: one batch of change-feed rows to at most one change per key. */
module ChangeReduction {
  import opened Wrappers
  import opened KeyOrder

  /** `Unknown` is any other value of the field, a string or not, as `repr` shows it. */
  datatype ChangeType = Insert | UpdatePostimage | Delete | UpdatePreimage | Unknown(shown: string)

  /** A field read from a row with `get`: anything but a string, or anything but a plain integer
      (a boolean included), is refused later. */
  datatype KeyField = Text(text: string) | NotText
  datatype VersionField = Number(number: int) | NotNumber

  datatype Image = Image(score: Option<real>, modelVersion: Option<string>, proofNonce: Option<string>)

  datatype Row = Row(changeType: ChangeType, key: KeyField, version: VersionField, image: Image)

  datatype Change = Change(key: string, changeType: ChangeType, version: int, image: Image)

  /** What a refused batch raises, with all that its text names. */
  datatype Fault =
    | UnknownChangeType(shown: string)
    | NoKey
    | NoVersion(key: string)
    | DuplicateSourceRows(count: nat, key: string, version: int)

  datatype KeyOutcome = Winner(change: Change) | Unresolved(key: string, version: int)

  datatype Reduction = Reduction(winners: seq<Change>, unresolved: seq<(string, int)>)

  // ---------- one row ----------

  function Rank(t: ChangeType): int
  {
    match t
    case Insert => 1
    case UpdatePostimage => 2
    case Delete => 3
    case UpdatePreimage => 0
    case Unknown(_) => 0
  }

  predicate IsLive(r: Row)
  {
    r.changeType != UpdatePreimage
  }

  function KeyOf(r: Row): string
  {
    if r.key.Text? then r.key.text else ""
  }

  function VersionOf(r: Row): int
  {
    if r.version.Number? then r.version.number else -1
  }

  /** What `reduce_changes` raises on this row, in the order it checks. */
  function RowFault(r: Row): Option<Fault>
  {
    if !IsLive(r) then None
    else if Rank(r.changeType) == 0 then Some(UnknownChangeType(r.changeType.shown))
    else if KeyOf(r) == "" then Some(NoKey)
    else if VersionOf(r) < 0 then Some(NoVersion(KeyOf(r)))
    else None
  }

  function FirstFault(rows: seq<Row>): Option<Fault>
  {
    if rows == [] then None
    else if RowFault(rows[0]).Some? then RowFault(rows[0])
    else FirstFault(rows[1..])
  }

  lemma {:induction false} FirstFaultNone(rows: seq<Row>)
    ensures FirstFault(rows) == None <==> forall r | r in rows :: RowFault(r) == None
  {
    if rows != [] {
      FirstFaultNone(rows[1..]);
      assert rows == [rows[0]] + rows[1..];
    }
  }

  lemma {:induction false} FirstFaultPrefix(rows: seq<Row>, n: nat)
    requires n < |rows| && RowFault(rows[n]).Some?
    requires forall i | 0 <= i < n :: RowFault(rows[i]) == None
    ensures FirstFault(rows) == RowFault(rows[n])
  {
    if n > 0 {
      FirstFaultPrefix(rows[1..], n - 1);
    }
  }

  // ---------- what a batch means, as a set of rows ----------

  ghost function LiveRows(rows: seq<Row>): set<Row>
  {
    set r | r in rows && IsLive(r)
  }

  ghost function Keys(live: set<Row>): set<string>
  {
    set r | r in live :: KeyOf(r)
  }

  ghost function RowsOf(live: set<Row>, key: string): set<Row>
  {
    set r | r in live && KeyOf(r) == key
  }

  ghost function RowsAt(live: set<Row>, key: string, version: int): set<Row>
  {
    set r | r in live && KeyOf(r) == key && VersionOf(r) == version
  }

  ghost predicate IsNewest(rows: set<Row>, v: int)
  {
    (exists r :: r in rows && VersionOf(r) == v) && forall r | r in rows :: VersionOf(r) <= v
  }

  ghost predicate IsTopRanked(rows: set<Row>, top: Row)
  {
    top in rows && forall r | r in rows :: Rank(r.changeType) <= Rank(top.changeType)
  }

  lemma {:induction false} NewestExists(rows: set<Row>)
    requires rows != {}
    ensures exists v :: IsNewest(rows, v)
  {
    var r :| r in rows;
    var rest := rows - {r};
    if rest == {} {
      assert rows == {r};
      assert IsNewest(rows, VersionOf(r));
    } else {
      NewestExists(rest);
      var v :| IsNewest(rest, v);
      assert IsNewest(rows, if VersionOf(r) > v then VersionOf(r) else v);
    }
  }

  lemma {:induction false} TopRankedExists(rows: set<Row>)
    requires rows != {}
    ensures exists top :: IsTopRanked(rows, top)
  {
    var r :| r in rows;
    var rest := rows - {r};
    if rest == {} {
      assert rows == {r};
      assert IsTopRanked(rows, r);
    } else {
      TopRankedExists(rest);
      var t :| IsTopRanked(rest, t);
      assert IsTopRanked(rows, if Rank(r.changeType) > Rank(t.changeType) then r else t);
    }
  }

  ghost function Newest(rows: set<Row>): (v: int)
    requires rows != {}
    ensures IsNewest(rows, v)
  {
    NewestExists(rows);
    var v :| IsNewest(rows, v);
    v
  }

  /** Two rows of one type with different images: the feed orders nothing inside a commit. */
  ghost predicate Clash(rows: set<Row>)
  {
    exists r, s :: r in rows && s in rows && r.changeType == s.changeType && r.image != s.image
  }

  /** What the rows of one key at one version decide. */
  ghost function Decide(rows: set<Row>, key: string, version: int): KeyOutcome
  {
    if rows == {} || Clash(rows) then Unresolved(key, version)
    else
      TopRankedExists(rows);
      var top :| IsTopRanked(rows, top);
      Winner(Change(key, top.changeType, version, top.image))
  }

  /** `Decide` never depends on which top-ranked row is looked at. */
  lemma DecideIs(rows: set<Row>, key: string, version: int, top: Row)
    requires forall r | r in rows :: IsLive(r) && RowFault(r) == None
    requires IsTopRanked(rows, top) && !Clash(rows)
    ensures Decide(rows, key, version) == Winner(Change(key, top.changeType, version, top.image))
  {
    forall r | IsTopRanked(rows, r) ensures r.changeType == top.changeType && r.image == top.image {
      assert Rank(r.changeType) == Rank(top.changeType) > 0;
    }
  }

  ghost function NewestOf(live: set<Row>, key: string): (v: int)
    requires key in Keys(live)
    ensures IsNewest(RowsOf(live, key), v)
  {
    assert RowsOf(live, key) != {} by {
      var r :| r in live && KeyOf(r) == key;
      assert r in RowsOf(live, key);
    }
    Newest(RowsOf(live, key))
  }

  ghost function Outcome(live: set<Row>, key: string): KeyOutcome
    requires key in Keys(live)
  {
    Decide(RowsAt(live, key, NewestOf(live, key)), key, NewestOf(live, key))
  }

  ghost function AddOutcome(r: Reduction, o: KeyOutcome): Reduction
  {
    match o
    case Winner(c) => r.(winners := r.winners + [c])
    case Unresolved(k, v) => r.(unresolved := r.unresolved + [(k, v)])
  }

  ghost function ReducedTo(live: set<Row>, keys: seq<string>): Reduction
    requires forall k | k in keys :: k in Keys(live)
  {
    if keys == [] then Reduction([], [])
    else AddOutcome(ReducedTo(live, keys[..|keys| - 1]), Outcome(live, keys[|keys| - 1]))
  }

  /** The reduction of a batch, told by its set of live rows alone. */
  ghost function Reduced(live: set<Row>): Reduction
  {
    ReducedTo(live, SortedKeys(Keys(live)))
  }

  ghost function Answer(rows: seq<Row>): Result<Reduction, Fault>
  {
    match FirstFault(rows)
    case Some(fault) => Err(fault)
    case None => Ok(Reduced(LiveRows(rows)))
  }

  // ---------- the loops ----------

  predicate RowsOfKey(changes: seq<Row>, key: string)
  {
    forall r | r in changes :: IsLive(r) && RowFault(r) == None && KeyOf(r) == key
  }

  /** `max(...)` over the commit versions of one key's rows. */
  method NewestVersion(changes: seq<Row>) returns (top: int)
    requires changes != [] && forall r | r in changes :: IsLive(r)
    ensures LiveRows(changes) != {} && top == Newest(LiveRows(changes))
  {
    top := VersionOf(changes[0]);
    ghost var at := 0;
    for i := 1 to |changes|
      invariant 0 <= at < |changes| && VersionOf(changes[at]) == top
      invariant forall j | 0 <= j < i :: VersionOf(changes[j]) <= top
    {
      if VersionOf(changes[i]) > top {
        top, at := VersionOf(changes[i]), i;
      }
    }
    assert changes[at] in LiveRows(changes);
    assert IsNewest(LiveRows(changes), top);
  }

  /** The loop that keeps one row of each type at the newest version, and notices a clash. */
  method KeepByType(key: string, changes: seq<Row>, top: int) returns (kept: map<ChangeType, Row>, unorderable: bool)
    requires RowsOfKey(changes, key)
    ensures forall t | t in kept :: kept[t] in RowsAt(LiveRows(changes), key, top) && kept[t].changeType == t
    ensures forall r | r in RowsAt(LiveRows(changes), key, top) ::
              r.changeType in kept && (!unorderable ==> kept[r.changeType].image == r.image)
    ensures unorderable ==> Clash(RowsAt(LiveRows(changes), key, top))
  {
    ghost var at := RowsAt(LiveRows(changes), key, top);
    var imagesByType: map<ChangeType, Image> := map[];
    kept := map[];
    unorderable := false;
    for i := 0 to |changes|
      invariant imagesByType.Keys == kept.Keys
      invariant forall t | t in kept :: kept[t] in at && kept[t].changeType == t && kept[t].image == imagesByType[t]
      invariant forall j | 0 <= j < i && VersionOf(changes[j]) == top ::
        changes[j].changeType in kept && (!unorderable ==> kept[changes[j].changeType].image == changes[j].image)
      invariant unorderable ==> Clash(at)
    {
      if VersionOf(changes[i]) == top {
        var c := changes[i];
        assert c in at;
        if c.changeType !in imagesByType {
          imagesByType := imagesByType[c.changeType := c.image];
          kept := kept[c.changeType := c];
        } else if imagesByType[c.changeType] != c.image {
          unorderable := true;
        }
      }
    }
  }

  /** `max(kept_by_type.values(), key=rank)`. */
  method HighestRanked(kept: map<ChangeType, Row>) returns (winner: Row)
    requires kept != map[] && forall t | t in kept :: kept[t].changeType == t
    ensures IsTopRanked(kept.Values, winner)
  {
    ghost var t0 :| t0 in kept;
    assert kept[t0] in kept.Values;
    TopRankedExists(kept.Values);
    winner :| winner in kept.Values && forall r | r in kept.Values :: Rank(r.changeType) <= Rank(winner.changeType);
  }

  /** The rows of one key: unresolved when its newest version clashes, else its top-ranked row. */
  method ReduceKey(key: string, changes: seq<Row>) returns (o: KeyOutcome)
    requires changes != [] && RowsOfKey(changes, key)
    ensures var rows := LiveRows(changes);
      rows != {} && o == Decide(RowsAt(rows, key, Newest(rows)), key, Newest(rows))
  {
    var top := NewestVersion(changes);
    ghost var at := RowsAt(LiveRows(changes), key, top);
    assert at != {} by {
      var r :| r in LiveRows(changes) && VersionOf(r) == top;
      assert r in at;
    }
    var kept, unorderable := KeepByType(key, changes, top);
    if unorderable {
      o := Unresolved(key, top);
    } else {
      ghost var r0 :| r0 in at;
      assert r0.changeType in kept;
      var winner := HighestRanked(kept);
      assert IsTopRanked(at, winner) by {
        forall r | r in at ensures Rank(r.changeType) <= Rank(winner.changeType) {
          assert kept[r.changeType] in kept.Values;
        }
      }
      DecideIs(at, key, top, winner);
      o := Winner(Change(key, winner.changeType, top, winner.image));
    }
  }

  ghost predicate Grouped(byKey: map<string, seq<Row>>, live: set<Row>)
  {
    && byKey.Keys == Keys(live)
    && forall k | k in byKey :: byKey[k] != [] && RowsOfKey(byKey[k], k) && LiveRows(byKey[k]) == RowsOf(live, k)
  }

  lemma GroupAppend(byKey: map<string, seq<Row>>, live: set<Row>, row: Row)
    requires Grouped(byKey, live) && IsLive(row) && RowFault(row) == None
    ensures var key := KeyOf(row);
      Grouped(byKey[key := (if key in byKey then byKey[key] else []) + [row]], live + {row})
  {
    var key := KeyOf(row);
    var group := if key in byKey then byKey[key] else [];
    assert LiveRows(group + [row]) == LiveRows(group) + {row};
    if key !in byKey {
      forall x | x in live ensures KeyOf(x) != key {
        assert KeyOf(x) in Keys(live);
      }
    }
    assert RowsOf(live + {row}, key) == RowsOf(live, key) + {row};
    assert Keys(live + {row}) == Keys(live) + {key};
    forall k | k in byKey && k != key ensures RowsOf(live + {row}, k) == RowsOf(live, k) {
    }
  }

  /** The first loop of `reduce_changes`: it raises at the first malformed live row. */
  method GroupByKey(rows: seq<Row>) returns (r: Result<map<string, seq<Row>>, Fault>)
    ensures FirstFault(rows).Some? ==> r == Err(FirstFault(rows).value)
    ensures FirstFault(rows) == None ==> r.Ok? && Grouped(r.value, LiveRows(rows))
  {
    var byKey: map<string, seq<Row>> := map[];
    for i := 0 to |rows|
      invariant forall j | 0 <= j < i :: RowFault(rows[j]) == None
      invariant Grouped(byKey, LiveRows(rows[..i]))
    {
      LiveRowsAppend(rows, i);
      var row := rows[i];
      if IsLive(row) {
        if RowFault(row).Some? {
          FirstFaultPrefix(rows, i);
          return Err(RowFault(row).value);
        }
        GroupAppend(byKey, LiveRows(rows[..i]), row);
        var key := KeyOf(row);
        byKey := byKey[key := (if key in byKey then byKey[key] else []) + [row]];
      }
    }
    FirstFaultNone(rows);
    assert rows[..|rows|] == rows;
    return Ok(byKey);
  }

  lemma LiveRowsAppend(rows: seq<Row>, i: nat)
    requires i < |rows|
    ensures LiveRows(rows[..i + 1]) == LiveRows(rows[..i]) + (if IsLive(rows[i]) then {rows[i]} else {})
  {
    assert rows[..i + 1] == rows[..i] + [rows[i]];
  }

  lemma GroupDecides(live: set<Row>, key: string, group: seq<Row>)
    requires key in Keys(live) && LiveRows(group) == RowsOf(live, key)
    ensures LiveRows(group) != {}
    ensures Decide(RowsAt(LiveRows(group), key, Newest(LiveRows(group))), key, Newest(LiveRows(group))) == Outcome(live, key)
  {
    var v := NewestOf(live, key);
    assert RowsAt(RowsOf(live, key), key, v) == RowsAt(live, key, v);
  }

  lemma ReducedToNext(live: set<Row>, keys: seq<string>, i: nat)
    requires i < |keys| && forall k | k in keys :: k in Keys(live)
    ensures keys[i] in Keys(live)
    ensures forall j: nat, k | j <= |keys| && k in keys[..j] :: k in Keys(live)
    ensures ReducedTo(live, keys[..i + 1]) == AddOutcome(ReducedTo(live, keys[..i]), Outcome(live, keys[i]))
  {
    assert keys[..i + 1][..i] == keys[..i];
    assert keys[i] in keys;
  }

  /** The second loop of `reduce_changes`: its keys in order, one outcome each. */
  method ReduceGroups(byKey: map<string, seq<Row>>, ghost live: set<Row>) returns (result: Reduction)
    requires Grouped(byKey, live)
    ensures result == Reduced(live)
  {
    var keys := SortedKeys(byKey.Keys);
    assert forall k | k in keys :: k in Keys(live);
    result := Reduction([], []);
    for i := 0 to |keys|
      invariant forall k | k in keys[..i] :: k in Keys(live)
      invariant result == ReducedTo(live, keys[..i])
    {
      ReducedToNext(live, keys, i);
      var key := keys[i];
      var o := ReduceKey(key, byKey[key]);
      GroupDecides(live, key, byKey[key]);
      match o {
        case Winner(c) => result := result.(winners := result.winners + [c]);
        case Unresolved(k, v) => result := result.(unresolved := result.unresolved + [(k, v)]);
      }
    }
    assert keys[..|keys|] == keys;
  }

  /** `reduce_changes`: what it returns is told by the set of live rows, and it raises exactly when
      some live row is malformed. */
  method ReduceChanges(rows: seq<Row>) returns (r: Result<Reduction, Fault>)
    ensures r == Answer(rows)
  {
    var grouped := GroupByKey(rows);
    if grouped.Err? {
      return Err(grouped.error);
    }
    var result := ReduceGroups(grouped.value, LiveRows(rows));
    return Ok(result);
  }
}
