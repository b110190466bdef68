/** Each primitive keeps the invariant and evolves the tables; evolution composes over runs. */
module History {
  import opened Types
  import opened Tables
  import opened Ledger

  // ---- folds over a concatenation

  lemma {:induction false} RecordedAppend(a: seq<Record>, b: seq<Record>, batch: Id)
    ensures Recorded(a + b, batch) == Recorded(a, batch) + Recorded(b, batch)
  {
    if b == [] {
      assert a + b == a;
    } else {
      assert (a + b)[..|a + b| - 1] == a + b[..|b| - 1];
      RecordedAppend(a, b[..|b| - 1], batch);
    }
  }

  lemma PublishedSnoc(entries: seq<Entry>, last: Entry, key: Key)
    ensures PublishedAll(entries + [last], key) == PublishedAll(entries, key) + Published(last, key)
  {
    assert (entries + [last])[..|entries|] == entries;
  }

  lemma Associate<T>(x: seq<T>, y: seq<T>, z: seq<T>)
    ensures (x + y) + z == x + (y + z)
  {
  }

  lemma {:induction false} PublishedAppend(a: seq<Entry>, b: seq<Entry>, key: Key)
    ensures PublishedAll(a + b, key) == PublishedAll(a, key) + PublishedAll(b, key)
    decreases |b|
  {
    if b == [] {
      assert a + b == a;
    } else {
      var front, last := b[..|b| - 1], b[|b| - 1];
      PublishedAppend(a, front, key);
      PublishedSnoc(a + front, last, key);
      PublishedSnoc(front, last, key);
      assert front + [last] == b;
      Associate(a, front, [last]);
      Associate(PublishedAll(a, key), PublishedAll(front, key), Published(last, key));
    }
  }

  lemma {:induction false} ApplyAppend(replica: Replica, a: seq<Entry>, b: seq<Entry>)
    ensures ApplyAll(replica, a + b) == ApplyAll(ApplyAll(replica, a), b)
  {
    if b == [] {
      assert a + b == a;
    } else {
      assert (a + b)[..|a + b| - 1] == a + b[..|b| - 1];
      ApplyAppend(replica, a, b[..|b| - 1]);
    }
  }

  lemma IntroducedAppend(a: seq<Entry>, b: seq<Entry>)
    ensures Introduced(a + b) == Introduced(a) + Introduced(b)
  {
    forall key | key in Introduced(b) ensures key in Introduced(a + b) {
      var i :| 0 <= i < |b| && b[i].RowEntry? && b[i].key == key;
      assert (a + b)[|a| + i] == b[i];
    }
    forall key | key in Introduced(a) ensures key in Introduced(a + b) {
      var i :| 0 <= i < |a| && a[i].RowEntry? && a[i].key == key;
      assert (a + b)[i] == a[i];
    }
  }

  lemma GroundedAppend(known: set<Key>, a: seq<Entry>, b: seq<Entry>)
    requires Grounded(known, a) && Grounded(known + Introduced(a), b)
    ensures Grounded(known, a + b)
  {
    forall i | 0 <= i < |a + b| ensures References((a + b)[i]) <= known + Introduced((a + b)[..i]) {
      if i < |a| {
        assert (a + b)[..i] == a[..i];
      } else {
        assert (a + b)[..i] == a + b[..i - |a|];
        IntroducedAppend(a, b[..i - |a|]);
        assert References(b[i - |a|]) <= (known + Introduced(a)) + Introduced(b[..i - |a|]);
      }
    }
  }

  lemma StepsJoin(low: int, mid: int, high: int)
    requires low <= mid <= high
    ensures Steps(low, high) == Steps(low, mid) + Steps(mid, high)
  {
  }

  // ---- composition

  lemma Suffixes(a: Db, b: Db, c: Db)
    requires Extends(a, b) && Extends(b, c)
    ensures Extends(a, c)
    ensures NewEntries(a, c) == NewEntries(a, b) + NewEntries(b, c)
    ensures c.records[|a.records|..] == b.records[|a.records|..] + c.records[|b.records|..]
  {
  }

  lemma {:induction false} FirstRowAppend(a: seq<Entry>, b: seq<Entry>, key: Key)
    ensures FirstRow(a + b, key) == if FirstRow(a, key).Some? then FirstRow(a, key) else FirstRow(b, key)
  {
    if b == [] {
      assert a + b == a;
    } else {
      assert (a + b)[..|a + b| - 1] == a + b[..|b| - 1];
      FirstRowAppend(a, b[..|b| - 1], key);
    }
  }

  lemma {:induction false} FirstRowIntroduces(entries: seq<Entry>, key: Key)
    ensures FirstRow(entries, key).Some? <==> key in Introduced(entries)
  {
    if entries != [] {
      var front, last := entries[..|entries| - 1], entries[|entries| - 1];
      FirstRowIntroduces(front, key);
      assert entries == front + [last];
      IntroducedAppend(front, [last]);
      assert Introduced([last]) == if last.RowEntry? then {last.key} else {} by {
        assert [last][0] == last;
      }
    }
  }

  lemma {:induction false} NothingRecorded(records: seq<Record>, batch: Id)
    requires forall i :: 0 <= i < |records| ==> records[i].batch != batch
    ensures Recorded(records, batch) == 0
  {
    if records != [] {
      NothingRecorded(records[..|records| - 1], batch);
    }
  }

  lemma OpeningJoins(a: Db, b: Db, c: Db, key: Key)
    requires Extends(a, b) && Extends(b, c)
    requires b.rows.Keys == a.rows.Keys + Introduced(NewEntries(a, b))
    ensures Extends(a, c)
    ensures Opening(a.rows, NewEntries(a, c), key) ==
              if key in b.rows then Opening(a.rows, NewEntries(a, b), key) else Opening(b.rows, NewEntries(b, c), key)
  {
    Suffixes(a, b, c);
    FirstRowAppend(NewEntries(a, b), NewEntries(b, c), key);
    FirstRowIntroduces(NewEntries(a, b), key);
  }

  lemma UnknownUnrecorded(a: Db, b: Db, id: Id)
    requires Extends(a, b) && Conserves(a, b) && BatchKey(id) !in b.rows
    ensures Recorded(b.records[|a.records|..], id) == 0
  {
    forall i | 0 <= i < |b.records[|a.records|..]| ensures b.records[|a.records|..][i].batch != id {
      assert BatchKey(b.records[|a.records| + i].batch) in b.rows;
    }
    NothingRecorded(b.records[|a.records|..], id);
  }

  lemma BalancedTransitive(a: Db, b: Db, c: Db, id: Id)
    requires Extends(a, b) && Extends(b, c) && Conserves(a, b) && Accounted(b, c, id)
    requires b.rows.Keys == a.rows.Keys + Introduced(NewEntries(a, b))
    ensures Extends(a, c) && Accounted(a, c, id)
  {
    Suffixes(a, b, c);
    RecordedAppend(b.records[|a.records|..], c.records[|b.records|..], id);
    OpeningJoins(a, b, c, BatchKey(id));
    if BatchKey(id) in b.rows {
      assert Balanced(a, b, id);
    } else {
      UnknownUnrecorded(a, b, id);
    }
  }

  ghost predicate Accounted(a: Db, b: Db, id: Id)
    requires Extends(a, b)
  {
    BatchKey(id) in b.rows && Balanced(a, b, id)
  }

  lemma ConservesTransitive(a: Db, b: Db, c: Db)
    requires Extends(a, b) && Extends(b, c) && Conserves(a, b) && Conserves(b, c)
    requires b.rows.Keys == a.rows.Keys + Introduced(NewEntries(a, b))
    ensures Extends(a, c) && Conserves(a, c)
  {
    forall id | BatchKey(id) in c.rows ensures Balanced(a, c, id) {
      assert Balanced(b, c, id);
      BalancedTransitive(a, b, c, id);
    }
    forall i | |a.records| <= i < |c.records| ensures BatchKey(c.records[i].batch) in c.rows {
      if i < |b.records| {
        assert c.records[i] == b.records[i];
      }
    }
  }

  lemma ChainsTransitive(a: Db, b: Db, c: Db)
    requires Extends(a, b) && Extends(b, c) && Chains(a, b) && Chains(b, c)
    ensures Extends(a, c) && Chains(a, c)
  {
    Suffixes(a, b, c);
    forall key ensures Chained(a, c, key) {
      assert Chained(a, b, key) && Chained(b, c, key);
      PublishedAppend(NewEntries(a, b), NewEntries(b, c), key);
      StepsJoin(VersionOf(a.rows, key), VersionOf(b.rows, key), VersionOf(c.rows, key));
    }
  }

  lemma SettlesTransitive(a: Db, b: Db, c: Db)
    requires Extends(a, b) && Extends(b, c) && Settles(a, b) && Settles(b, c)
    ensures Extends(a, c) && Settles(a, c)
  {
    Suffixes(a, b, c);
    forall id | BatchKey(id) in a.rows && !Available(a.rows[BatchKey(id)].status)
      ensures c.rows[BatchKey(id)].status == a.rows[BatchKey(id)].status
      ensures c.rows[BatchKey(id)].quantity == a.rows[BatchKey(id)].quantity
      ensures !MovedBy(NewEntries(a, c), id)
    {
      assert !MovedBy(NewEntries(a, b), id) && !MovedBy(NewEntries(b, c), id);
      MovedByAppend(NewEntries(a, b), NewEntries(b, c), id);
    }
  }

  lemma MovedByAppend(a: seq<Entry>, b: seq<Entry>, batch: Id)
    ensures MovedBy(a + b, batch) <==> MovedBy(a, batch) || MovedBy(b, batch)
  {
    if MovedBy(a, batch) {
      var i :| 0 <= i < |a| && a[i].StockEntry? && BatchKey(batch) in References(a[i]);
      assert (a + b)[i] == a[i];
    }
    if MovedBy(b, batch) {
      var i :| 0 <= i < |b| && b[i].StockEntry? && BatchKey(batch) in References(b[i]);
      assert (a + b)[|a| + i] == b[i];
    }
    if MovedBy(a + b, batch) {
      var i :| 0 <= i < |a + b| && (a + b)[i].StockEntry? && BatchKey(batch) in References((a + b)[i]);
      if i < |a| {
        assert a[i] == (a + b)[i];
      } else {
        assert b[i - |a|] == (a + b)[i];
      }
    }
  }

  lemma ConvergesTransitive(a: Db, b: Db, c: Db)
    requires Extends(a, b) && Extends(b, c) && Converges(a, b) && Converges(b, c)
    ensures Extends(a, c) && Converges(a, c)
  {
    Suffixes(a, b, c);
    ApplyAppend(Snapshot(a.rows), NewEntries(a, b), NewEntries(b, c));
  }

  lemma OrderedTransitive(a: Db, b: Db, c: Db)
    requires Extends(a, b) && Extends(b, c) && Ordered(a, b) && Ordered(b, c)
    ensures Extends(a, c) && Ordered(a, c)
  {
    Suffixes(a, b, c);
    GroundedAppend(a.rows.Keys, NewEntries(a, b), NewEntries(b, c));
    IntroducedAppend(NewEntries(a, b), NewEntries(b, c));
  }

  lemma RemembersTransitive(a: Db, b: Db, c: Db)
    requires Remembers(a, b) && Remembers(b, c)
    ensures Remembers(a, c)
  {
  }

  lemma EvolvesTransitive(a: Db, b: Db, c: Db)
    requires Evolves(a, b) && Evolves(b, c)
    ensures Evolves(a, c)
  {
    ConservesTransitive(a, b, c);
    ChainsTransitive(a, b, c);
    ConvergesTransitive(a, b, c);
    OrderedTransitive(a, b, c);
    SettlesTransitive(a, b, c);
    RemembersTransitive(a, b, c);
  }

  /** Receipts, conflicts, the shared sequence and other families' ids may change without touching the tables. */
  lemma MetadataEvolves(db: Db, db': Db)
    requires db'.rows == db.rows && db'.records == db.records && db'.log == db.log
    requires db.sequence <= db'.sequence && Remembers(db, db')
    ensures Evolves(db, db')
  {
    assert db.rows.Keys + Introduced([]) == db.rows.Keys;
    assert NewEntries(db, db') == [] && db'.records[|db.records|..] == [];
    forall id | BatchKey(id) in db'.rows ensures Balanced(db, db', id) {
    }
  }

  // ---- a row write

  lemma PublishConserves(db: Db, key: Key, row: Row, change: ChangeId)
    requires Inv(db) && ValidWrite(db, key, row)
    requires Extends(db, Publish(db, key, row, change))
    ensures Conserves(db, Publish(db, key, row, change))
  {
    var db' := Publish(db, key, row, change);
    var entry := RowEntry(db.sequence + 1, change, key, row);
    assert NewEntries(db, db') == [entry];
    assert db'.records[|db.records|..] == [];
    assert FirstRow([entry], key) == Some(row) by {
      assert [entry][..0] == [];
    }
    forall id | BatchKey(id) in db'.rows ensures Balanced(db, db', id) {
    }
  }

  lemma PublishChains(db: Db, key: Key, row: Row, change: ChangeId)
    requires Inv(db) && ValidWrite(db, key, row)
    requires Extends(db, Publish(db, key, row, change))
    ensures Chains(db, Publish(db, key, row, change))
  {
    var db' := Publish(db, key, row, change);
    var entry := RowEntry(db.sequence + 1, change, key, row);
    assert NewEntries(db, db') == [entry];
    forall k ensures Chained(db, db', k) {
      assert [entry][..0] == [];
      assert PublishedAll([entry], k) == Published(entry, k);
    }
  }

  lemma PublishOrdered(db: Db, key: Key, row: Row, change: ChangeId)
    requires Inv(db) && ValidWrite(db, key, row)
    requires Extends(db, Publish(db, key, row, change))
    ensures Ordered(db, Publish(db, key, row, change)) && Settles(db, Publish(db, key, row, change))
  {
    var db' := Publish(db, key, row, change);
    var entry := RowEntry(db.sequence + 1, change, key, row);
    assert NewEntries(db, db') == [entry];
    assert Introduced([entry]) == {key} by {
      assert [entry][0].key == key;
    }
    assert Introduced([entry][..0]) == {};
    forall id | BatchKey(id) in db.rows && !Available(db.rows[BatchKey(id)].status) ensures !MovedBy([entry], id) {
    }
  }

  lemma PublishEvolves(db: Db, key: Key, row: Row, change: ChangeId)
    requires Inv(db) && ValidWrite(db, key, row)
    ensures Evolves(db, Publish(db, key, row, change))
  {
    var db' := Publish(db, key, row, change);
    PublishConserves(db, key, row, change);
    PublishChains(db, key, row, change);
    PublishOrdered(db, key, row, change);
    assert Converges(db, db') by {
      var entry := RowEntry(db.sequence + 1, change, key, row);
      assert NewEntries(db, db') == [entry] && [entry][..0] == [];
      assert ApplyAll(Snapshot(db.rows), [entry]) == Apply(Snapshot(db.rows), entry);
    }
  }

  // ---- a stock movement

  lemma {:induction false} NotesOfBatch(shifts: seq<Shift>, notes: seq<Record>, batch: Id)
    requires DistinctBatches(shifts) && Booked(shifts, notes)
    ensures Recorded(notes, batch) ==
              if FindShift(shifts, batch).Some? then FindShift(shifts, batch).value.delta else 0
  {
    if shifts != [] {
      NotesOfBatch(shifts[..|shifts| - 1], notes[..|notes| - 1], batch);
    }
  }

  lemma {:induction false} VersionsOfBatch(rows: Rows, shifts: seq<Shift>, batch: Id)
    requires DistinctBatches(shifts)
    requires forall i :: 0 <= i < |shifts| ==> BatchKey(shifts[i].batch) in rows
    ensures SettledVersions(SettleAll(rows, shifts), batch) ==
              if FindShift(shifts, batch).Some? then [rows[BatchKey(batch)].version + 1] else []
  {
    if shifts != [] {
      var front := shifts[..|shifts| - 1];
      VersionsOfBatch(rows, front, batch);
      assert SettleAll(rows, shifts)[..|shifts| - 1] == SettleAll(rows, front);
    }
  }

  /** The client's loop over the allocations does to the replica what the server's updates did to the rows. */
  lemma {:induction false} AllocationsReplay(rows: Rows, shifts: seq<Shift>)
    requires DistinctBatches(shifts)
    requires forall i :: 0 <= i < |shifts| ==> BatchKey(shifts[i].batch) in rows
    ensures ApplyAllocations(Snapshot(rows), SettleAll(rows, shifts)) == Snapshot(ShiftAll(rows, shifts))
  {
    if shifts != [] {
      var front, last := shifts[..|shifts| - 1], shifts[|shifts| - 1];
      AllocationsReplay(rows, front);
      assert SettleAll(rows, shifts)[..|shifts| - 1] == SettleAll(rows, front);
      ShiftAllAt(rows, front, BatchKey(last.batch));
    }
  }

  lemma StockReferences(rows: Rows, shifts: seq<Shift>, cursor: nat, change: ChangeId)
    requires forall i :: 0 <= i < |shifts| ==> BatchKey(shifts[i].batch) in rows
    ensures References(StockEntry(cursor, change, SettleAll(rows, shifts))) == set i | 0 <= i < |shifts| ::
            BatchKey(shifts[i].batch)
  {
    var allocations := SettleAll(rows, shifts);
    assert forall i :: 0 <= i < |shifts| ==> allocations[i].batch == shifts[i].batch;
    var left, right := set i | 0 <= i < |allocations| :: BatchKey(allocations[i].batch), set i | 0 <= i < |shifts| ::
        BatchKey(shifts[i].batch);
    forall key ensures key in left <==> key in right {
      if key in left {
        var i :| 0 <= i < |allocations| && key == BatchKey(allocations[i].batch);
        assert key == BatchKey(shifts[i].batch);
      }
      if key in right {
        var i :| 0 <= i < |shifts| && key == BatchKey(shifts[i].batch);
        assert key == BatchKey(allocations[i].batch);
      }
    }
  }

  lemma StockExtends(db: Db, shifts: seq<Shift>, notes: seq<Record>, change: ChangeId)
    requires Inv(db) && ValidShifts(db.rows, shifts)
    ensures var db' := PublishStock(db, shifts, notes, change);
            && Extends(db, db')
            && NewEntries(db, db') == [StockEntry(db.sequence + 1, change, SettleAll(db.rows, shifts))]
            && db'.records[|db.records|..] == notes
            && db'.rows.Keys == db.rows.Keys
  {
    ShiftedRowsSound(db.rows, shifts);
  }

  lemma StockConserves(db: Db, shifts: seq<Shift>, notes: seq<Record>, change: ChangeId)
    requires Inv(db) && ValidShifts(db.rows, shifts) && Booked(shifts, notes)
    requires Extends(db, PublishStock(db, shifts, notes, change))
    ensures Conserves(db, PublishStock(db, shifts, notes, change))
  {
    var db' := PublishStock(db, shifts, notes, change);
    StockExtends(db, shifts, notes, change);
    forall id | BatchKey(id) in db'.rows ensures Balanced(db, db', id) {
      ShiftAllAt(db.rows, shifts, BatchKey(id));
      NotesOfBatch(shifts, notes, id);
    }
    forall i | |db.records| <= i < |db'.records| ensures BatchKey(db'.records[i].batch) in db'.rows {
      assert db'.records[i] == notes[i - |db.records|];
    }
  }

  lemma StockPublishes(rows: Rows, shifts: seq<Shift>, cursor: nat, change: ChangeId, key: Key)
    requires DistinctBatches(shifts)
    requires forall i :: 0 <= i < |shifts| ==> BatchKey(shifts[i].batch) in rows
    ensures PublishedAll([StockEntry(cursor, change, SettleAll(rows, shifts))], key) ==
              if key.kind == ProductBatches && FindShift(shifts, key.id).Some? then [VersionOf(rows, key) + 1] else []
  {
    var entry := StockEntry(cursor, change, SettleAll(rows, shifts));
    assert [entry][..0] == [];
    assert PublishedAll([entry], key) == Published(entry, key);
    if key.kind == ProductBatches {
      VersionsOfBatch(rows, shifts, key.id);
      assert key == BatchKey(key.id);
    }
  }

  lemma StockVersion(rows: Rows, shifts: seq<Shift>, key: Key)
    requires DistinctBatches(shifts)
    requires forall i :: 0 <= i < |shifts| ==> BatchKey(shifts[i].batch) in rows
    ensures VersionOf(ShiftAll(rows, shifts), key) ==
              VersionOf(rows, key) + if key.kind == ProductBatches && FindShift(shifts, key.id).Some? then 1 else 0
  {
    ShiftAllAt(rows, shifts, key);
    assert key.kind == ProductBatches ==> key == BatchKey(key.id);
  }

  lemma StockChains(db: Db, shifts: seq<Shift>, notes: seq<Record>, change: ChangeId)
    requires Inv(db) && ValidShifts(db.rows, shifts)
    requires Extends(db, PublishStock(db, shifts, notes, change))
    ensures Chains(db, PublishStock(db, shifts, notes, change))
  {
    var db' := PublishStock(db, shifts, notes, change);
    StockExtends(db, shifts, notes, change);
    forall key ensures Chained(db, db', key) {
      StockPublishes(db.rows, shifts, db.sequence + 1, change, key);
      StockVersion(db.rows, shifts, key);
    }
  }

  lemma PublishStockEvolves(db: Db, shifts: seq<Shift>, notes: seq<Record>, change: ChangeId)
    requires Inv(db) && ValidShifts(db.rows, shifts) && Booked(shifts, notes)
    ensures Evolves(db, PublishStock(db, shifts, notes, change))
  {
    var entry := StockEntry(db.sequence + 1, change, SettleAll(db.rows, shifts));
    StockExtends(db, shifts, notes, change);
    StockConserves(db, shifts, notes, change);
    StockChains(db, shifts, notes, change);
    AllocationsReplay(db.rows, shifts);
    assert ApplyAll(Snapshot(db.rows), [entry]) == Apply(ApplyAll(Snapshot(db.rows), []), entry);
    StockReferences(db.rows, shifts, db.sequence + 1, change);
    assert Introduced([entry]) == {} && Introduced([entry][..0]) == {};
    StockSettles(db, shifts, notes, change);
  }

  lemma StockSettles(db: Db, shifts: seq<Shift>, notes: seq<Record>, change: ChangeId)
    requires Inv(db) && ValidShifts(db.rows, shifts)
    ensures ShiftAll(db.rows, shifts).Keys == db.rows.Keys
    ensures Extends(db, PublishStock(db, shifts, notes, change))
    ensures Settles(db, PublishStock(db, shifts, notes, change))
  {
    var db' := PublishStock(db, shifts, notes, change);
    var entry := StockEntry(db.sequence + 1, change, SettleAll(db.rows, shifts));
    assert NewEntries(db, db') == [entry];
    ShiftedRowsSound(db.rows, shifts);
    StockReferences(db.rows, shifts, db.sequence + 1, change);
    forall id | BatchKey(id) in db.rows && !Available(db.rows[BatchKey(id)].status)
      ensures db'.rows[BatchKey(id)] == db.rows[BatchKey(id)]
      ensures !MovedBy([entry], id)
    {
      ShiftAllAt(db.rows, shifts, BatchKey(id));
    }
  }

  /** The allocations that a stock entry publishes are the stored values before and after it. */
  lemma AllocationsAreStored(db: Db, shifts: seq<Shift>, i: nat)
    requires ValidShifts(db.rows, shifts) && i < |shifts|
    ensures var a := SettleAll(db.rows, shifts)[i];
            var key := BatchKey(a.batch);
            var rows' := ShiftAll(db.rows, shifts);
            && key in rows'
            && a.before == db.rows[key].quantity && a.beforeVersion == db.rows[key].version
            && a.final == rows'[key].quantity && a.afterVersion == rows'[key].version
            && a.final >= 0
  {
    ShiftAllAt(db.rows, shifts, BatchKey(shifts[i].batch));
    FindShiftAt(shifts, i);
    assert Movable(db.rows, shifts[i]);
  }
}
