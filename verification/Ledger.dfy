/** Round 4's ledger on the target row: guarded writes, one transaction a batch, bounded retry. */
module Ledger {
  import opened Wrappers
  import opened ChangeReduction

  /** A target row. When it was written is not modelled. */
  datatype LedgerRow = LedgerRow(image: Image, tableId: string, version: int, deleted: bool)

  type Table = map<string, LedgerRow>

  const NO_IMAGE := Image(None, None, None)

  function RowFor(tableId: string, c: Change): LedgerRow
  {
    if c.changeType == Delete then LedgerRow(NO_IMAGE, tableId, c.version, true)
    else LedgerRow(c.image, tableId, c.version, false)
  }

  /** The guard of both statements: no row yet, a row of another Delta table, or an older version. */
  predicate Admits(t: Table, tableId: string, c: Change)
  {
    c.key !in t || t[c.key].tableId != tableId || t[c.key].version < c.version
  }

  function Applied(t: Table, tableId: string, c: Change): Table
  {
    if Admits(t, tableId, c) then t[c.key := RowFor(tableId, c)] else t
  }

  function AppliedAll(t: Table, tableId: string, cs: seq<Change>): Table
  {
    if cs == [] then t
    else Applied(AppliedAll(t, tableId, cs[..|cs| - 1]), tableId, cs[|cs| - 1])
  }

  // ---------- what repeating a batch does ----------

  /** A row that already answers a change: same table, at least its version. */
  ghost predicate Covers(t: Table, tableId: string, c: Change)
  {
    c.key in t && t[c.key].tableId == tableId && t[c.key].version >= c.version
  }

  lemma {:induction false} AppliedAllCovers(t: Table, tableId: string, cs: seq<Change>)
    ensures forall c | c in cs :: Covers(AppliedAll(t, tableId, cs), tableId, c)
    ensures forall c :: Covers(t, tableId, c) ==> Covers(AppliedAll(t, tableId, cs), tableId, c)
  {
    if cs != [] {
      AppliedAllCovers(t, tableId, cs[..|cs| - 1]);
      assert cs == cs[..|cs| - 1] + [cs[|cs| - 1]];
    }
  }

  lemma {:induction false} CoveredChangesNothing(t: Table, tableId: string, cs: seq<Change>)
    requires forall c | c in cs :: Covers(t, tableId, c)
    ensures AppliedAll(t, tableId, cs) == t
  {
    if cs != [] {
      CoveredChangesNothing(t, tableId, cs[..|cs| - 1]);
      assert cs[|cs| - 1] in cs;
    }
  }

  /** Replaying a batch changes nothing. */
  lemma ApplyingTwiceIsApplyingOnce(t: Table, tableId: string, cs: seq<Change>)
    ensures AppliedAll(AppliedAll(t, tableId, cs), tableId, cs) == AppliedAll(t, tableId, cs)
  {
    AppliedAllCovers(t, tableId, cs);
    CoveredChangesNothing(AppliedAll(t, tableId, cs), tableId, cs);
  }

  /** Two changes of one key may be applied in either order, to every table, exactly when they name
      one Delta table and are not two different rows at one version. */
  lemma ChangesCommuteExactlyWithinOneTable(id: string, c: Change, id': string, c': Change)
    requires c.key == c'.key
    ensures (forall t: Table :: Applied(Applied(t, id, c), id', c') == Applied(Applied(t, id', c'), id, c))
            <==> id == id' && (c.version == c'.version ==> RowFor(id, c) == RowFor(id, c'))
  {
    if id != id' || (c.version == c'.version && RowFor(id, c) != RowFor(id, c')) {
      var t: Table := map[];
      assert Applied(t, id, c)[c.key] == RowFor(id, c);
      assert Applied(t, id', c')[c.key] == RowFor(id', c');
      assert Applied(Applied(t, id, c), id', c') != Applied(Applied(t, id', c'), id, c);
    } else {
      forall t: Table ensures Applied(Applied(t, id, c), id', c') == Applied(Applied(t, id', c'), id, c) {
      }
    }
  }

  // ---------- one transaction, and the retry around it ----------

  /** How one attempt ends. `interrupt` marks what `except Exception` does not catch. */
  datatype Fate =
    | ConnectRaises(interrupt: bool)
    | StatementRaises(at: nat, interrupt: bool)
    | CommitRaises(landed: bool, interrupt: bool)
    | Succeeds

  datatype Exit = Returned | Raised(interrupt: bool)

  class Database {
    var table: Table

    constructor (t: Table)
      ensures table == t
    {
      table := t;
    }
  }

  /** `apply_changes(connect(), ...)`: every statement, then the commit, or nothing. */
  method ApplyChanges(db: Database, changes: seq<Change>, tableId: string, fate: Fate) returns (exit: Exit)
    modifies db
    ensures exit.Returned? ==> db.table == AppliedAll(old(db.table), tableId, changes)
    ensures exit.Raised? ==> db.table == old(db.table) || db.table == AppliedAll(old(db.table), tableId, changes)
    ensures exit.Raised? ==> !fate.Succeeds? && exit.interrupt == fate.interrupt
    ensures fate.Succeeds? ==> exit.Returned?
  {
    if fate.ConnectRaises? {
      return Raised(fate.interrupt);
    }
    var uncommitted := db.table;
    for i := 0 to |changes|
      invariant uncommitted == AppliedAll(db.table, tableId, changes[..i])
      invariant db.table == old(db.table)
    {
      assert changes[..i + 1][..i] == changes[..i];
      if fate.StatementRaises? && fate.at == i {
        return Raised(fate.interrupt);  // rolled back, or the connection is discarded
      }
      if Admits(uncommitted, tableId, changes[i]) {
        uncommitted := uncommitted[changes[i].key := RowFor(tableId, changes[i])];
      }
    }
    assert changes[..|changes|] == changes;
    if fate.CommitRaises? {
      if fate.landed {
        db.table := uncommitted;
      }
      return Raised(fate.interrupt);
    }
    db.table := uncommitted;
    return Returned;
  }

  /** `apply_with_retry`: for every pattern of failures, returning means one application of the batch
      and raising means none or one; it raises an ordinary error only after the last attempt. */
  method ApplyWithRetry(db: Database, changes: seq<Change>, tableId: string, attempts: int, fates: nat -> Fate)
    returns (exit: Exit)
    modifies db
    ensures exit.Returned? && attempts >= 1 ==> db.table == AppliedAll(old(db.table), tableId, changes)
    ensures exit.Raised? ==> db.table == old(db.table) || db.table == AppliedAll(old(db.table), tableId, changes)
    ensures attempts < 1 ==> exit.Returned? && db.table == old(db.table)
    ensures exit.Raised? && !exit.interrupt ==> forall a: nat | a < attempts :: !fates(a).Succeeds?
  {
    var attempt := 1;
    while attempt < attempts + 1
      invariant attempt >= 1
      invariant db.table == old(db.table) || db.table == AppliedAll(old(db.table), tableId, changes)
      invariant forall a: nat | a < attempt - 1 :: !fates(a).Succeeds?
      invariant attempts < 1 ==> db.table == old(db.table)
      invariant attempts >= 1 ==> attempt <= attempts
      decreases attempts - attempt
    {
      ApplyingTwiceIsApplyingOnce(old(db.table), tableId, changes);
      var once := ApplyChanges(db, changes, tableId, fates(attempt - 1));
      if once.Returned? {
        return Returned;
      }
      if once.interrupt || attempt == attempts {
        return once;
      }
      attempt := attempt + 1;
    }
    return Returned;
  }
}
