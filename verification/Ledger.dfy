/** The two ways in which any writer changes a family's tables, and what a run of them keeps. */
module Ledger {
  import opened Types
  import opened Tables

  // ---- stock rows

  /** What applyBatchChangeSQL sets. */
  function Moved(row: Row, delta: int, discard: bool): Row {
    row.(quantity := row.quantity + delta,
         initial := Max(row.initial, row.quantity) + Max(delta, 0),
         status := if discard then Discarded else if row.quantity + delta == 0 then UsedUp else Active,
         version := row.version + 1)
  }

  predicate Available(status: Status) {
    status == Active || status == UsedUp
  }

  datatype Shift = Shift(batch: Id, delta: int, discard: bool)

  function Shifted(rows: Rows, s: Shift): Rows {
    if BatchKey(s.batch) in rows
    then rows[BatchKey(s.batch) := Moved(rows[BatchKey(s.batch)], s.delta, s.discard)]
    else rows
  }

  function ShiftAll(rows: Rows, shifts: seq<Shift>): Rows {
    if shifts == [] then rows
    else Shifted(ShiftAll(rows, shifts[..|shifts| - 1]), shifts[|shifts| - 1])
  }

  /** The WHERE clause of applyBatchChangeSQL. */
  predicate Movable(rows: Rows, s: Shift) {
    var key := BatchKey(s.batch);
    key in rows && !rows[key].deleted && rows[key].quantity + s.delta >= 0
  }

  /** Both columns stay within INTEGER. */
  predicate Fits(rows: Rows, s: Shift) {
    var key := BatchKey(s.batch);
    key in rows ==> Max(rows[key].initial, rows[key].quantity) + Max(s.delta, 0) <= MAX_INTEGER
  }

  ghost predicate DistinctBatches(shifts: seq<Shift>) {
    forall i, j :: 0 <= i < j < |shifts| ==> shifts[i].batch != shifts[j].batch
  }

  ghost predicate ValidShifts(rows: Rows, shifts: seq<Shift>) {
    && DistinctBatches(shifts)
    && (forall i :: 0 <= i < |shifts| ==> Movable(rows, shifts[i]) && Fits(rows, shifts[i]))
    && (forall i :: 0 <= i < |shifts| ==> Available(rows[BatchKey(shifts[i].batch)].status))
    && (forall i :: 0 <= i < |shifts| && shifts[i].discard ==>
          rows[BatchKey(shifts[i].batch)].quantity + shifts[i].delta == 0)
  }

  function Settle(row: Row, s: Shift): Settled {
    Settled(s.batch, Max(s.delta, -s.delta), row.quantity, row.quantity + s.delta, row.version, row.version + 1)
  }

  function SettleAll(rows: Rows, shifts: seq<Shift>): seq<Settled>
    requires forall i :: 0 <= i < |shifts| ==> BatchKey(shifts[i].batch) in rows
  {
    seq(|shifts|, i requires 0 <= i < |shifts| => Settle(rows[BatchKey(shifts[i].batch)], shifts[i]))
  }

  function FindShift(shifts: seq<Shift>, batch: Id): (r: Option<Shift>)
    ensures r.Some? ==> r.value in shifts && r.value.batch == batch
    ensures r.None? ==> forall i :: 0 <= i < |shifts| ==> shifts[i].batch != batch
  {
    if shifts == [] then None
    else if shifts[|shifts| - 1].batch == batch then Some(shifts[|shifts| - 1])
    else FindShift(shifts[..|shifts| - 1], batch)
  }

  /** Distinct batches: every row is moved at most once, from its original value. */
  lemma {:induction false} ShiftAllAt(rows: Rows, shifts: seq<Shift>, key: Key)
    requires DistinctBatches(shifts)
    ensures key in ShiftAll(rows, shifts) <==> key in rows
    ensures key in rows && (key.kind != ProductBatches || FindShift(shifts, key.id).None?) ==>
              ShiftAll(rows, shifts)[key] == rows[key]
    ensures key in rows && key.kind == ProductBatches && FindShift(shifts, key.id).Some? ==>
              var s := FindShift(shifts, key.id).value;
              ShiftAll(rows, shifts)[key] == Moved(rows[key], s.delta, s.discard)
  {
    if shifts != [] {
      var front, last := shifts[..|shifts| - 1], shifts[|shifts| - 1];
      ShiftAllAt(rows, front, key);
      ShiftAllAt(rows, front, BatchKey(last.batch));
      assert key.kind == ProductBatches ==> key == BatchKey(key.id);
    }
  }

  lemma FindShiftAt(shifts: seq<Shift>, i: nat)
    requires i < |shifts| && DistinctBatches(shifts)
    ensures FindShift(shifts, shifts[i].batch) == Some(shifts[i])
  {
    var found := FindShift(shifts, shifts[i].batch);
    var j :| 0 <= j < |shifts| && shifts[j] == found.value;
  }

  // ---- the two primitives

  function Publish(db: Db, key: Key, row: Row, change: ChangeId): Db {
    db.(rows := db.rows[key := row],
        log := db.log + [RowEntry(db.sequence + 1, change, key, row)],
        sequence := db.sequence + 1)
  }

  function PublishStock(db: Db, shifts: seq<Shift>, notes: seq<Record>, change: ChangeId): Db
    requires forall i :: 0 <= i < |shifts| ==> BatchKey(shifts[i].batch) in db.rows
  {
    db.(rows := ShiftAll(db.rows, shifts),
        records := db.records + notes,
        log := db.log + [StockEntry(db.sequence + 1, change, SettleAll(db.rows, shifts))],
        sequence := db.sequence + 1)
  }

  /** A row write is sound: the version rises by one, stock columns keep their values (a new batch may
      bring its own), and the parent exists. */
  ghost predicate ValidWrite(db: Db, key: Key, row: Row) {
    && key !in db.foreign
    && row.version == VersionOf(db.rows, key) + 1
    && SoundRow(key, row)
    && !Taken(db.rows, key, row)
    && (key in db.rows ==>
          && row.quantity == db.rows[key].quantity
          && row.initial == db.rows[key].initial
          && row.status == db.rows[key].status)
    && (row.parent.Some? ==> ParentOf(key, row).value in db.rows)
  }

  /** One record per moved batch, with the moved amount. */
  ghost predicate Booked(shifts: seq<Shift>, notes: seq<Record>) {
    && |notes| == |shifts|
    && (forall i :: 0 <= i < |notes| ==> notes[i].batch == shifts[i].batch && notes[i].change == shifts[i].delta)
  }

  // ---- the invariant

  ghost predicate SoundRow(key: Key, row: Row) {
    && row.version >= 1
    && 0 <= row.quantity <= row.initial <= MAX_INTEGER
    && (row.status == UsedUp || row.status == Discarded ==> row.quantity == 0)
    && (key.kind != ProductBatches ==> row.initial == 0)
  }

  ghost predicate SoundRows(rows: Rows) {
    && (forall key :: key in rows ==> SoundRow(key, rows[key]))
    && (forall key :: key in rows && rows[key].parent.Some? ==> ParentOf(key, rows[key]).value in rows)
  }

  /** The unique indexes hold. */
  ghost predicate UniqueRows(rows: Rows) {
    forall key :: key in rows ==> !Taken(rows, key, rows[key])
  }

  ghost predicate SoundLog(log: seq<Entry>, sequence: nat) {
    && (forall i :: 0 <= i < |log| ==> 1 <= log[i].cursor <= sequence)
    && (forall i, j :: 0 <= i < j < |log| ==> log[i].cursor < log[j].cursor)
    && (forall i, j :: 0 <= i < j < |log| ==> log[i].change != log[j].change)
  }

  ghost predicate SoundRecords(rows: Rows, records: seq<Record>) {
    forall i :: 0 <= i < |records| ==> BatchKey(records[i].batch) in rows
  }

  /** Every accepted receipt of a change is backed by the log entry of that change. */
  ghost predicate SoundReceipts(receipts: map<ReceiptKey, Receipt>, log: seq<Entry>) {
    forall k :: k in receipts && Booking(receipts[k]) ==> Backed(receipts[k], log)
  }

  predicate Booking(receipt: Receipt) {
    receipt.outcome.Accepted? && receipt.pushed.OfTables?
  }

  ghost predicate Backed(receipt: Receipt, log: seq<Entry>)
    requires Booking(receipt)
  {
    exists i :: 0 <= i < |log| && log[i].change == receipt.pushed.change.id && log[i].cursor == receipt.outcome.cursor
  }

  ghost predicate Inv(db: Db) {
    && SoundRows(db.rows)
    && UniqueRows(db.rows)
    && SoundLog(db.log, db.sequence)
    && SoundRecords(db.rows, db.records)
    && SoundReceipts(db.receipts, db.log)
    && db.rows.Keys !! db.foreign
  }

  lemma WriteKeepsUnique(rows: Rows, key: Key, row: Row)
    requires UniqueRows(rows) && !Taken(rows, key, row)
    ensures UniqueRows(rows[key := row])
  {
    var rows' := rows[key := row];
    forall k | k in rows' ensures !Taken(rows', k, rows'[k]) {
      assert k != key ==> !Taken(rows, k, rows[k]);
    }
  }

  /** Rows that keep their names, parents and deletion keep the indexes. */
  lemma SameNamesUnique(rows: Rows, rows': Rows)
    requires UniqueRows(rows) && rows'.Keys == rows.Keys
    requires forall k :: k in rows ==>
               rows'[k].deleted == rows[k].deleted && rows'[k].columns == rows[k].columns
                   && rows'[k].parent == rows[k].parent
    ensures UniqueRows(rows')
  {
    forall k | k in rows' ensures !Taken(rows', k, rows'[k]) {
      assert !Taken(rows, k, rows[k]);
    }
  }

  lemma PublishInv(db: Db, key: Key, row: Row, change: ChangeId)
    requires Inv(db) && ValidWrite(db, key, row) && !Logged(db.log, change)
    ensures Inv(Publish(db, key, row, change))
  {
    var db' := Publish(db, key, row, change);
    WriteKeepsUnique(db.rows, key, row);
    forall k | k in db'.receipts && Booking(db'.receipts[k]) ensures Backed(db'.receipts[k], db'.log) {
      BackedGrows(db.receipts[k], db.log, [RowEntry(db.sequence + 1, change, key, row)]);
    }
  }

  lemma BackedGrows(receipt: Receipt, log: seq<Entry>, more: seq<Entry>)
    requires Booking(receipt) && Backed(receipt, log)
    ensures Backed(receipt, log + more)
  {
    var i :| 0 <= i < |log| && log[i].change == receipt.pushed.change.id && log[i].cursor == receipt.outcome.cursor;
    assert (log + more)[i] == log[i];
  }

  lemma ShiftedRowsSound(rows: Rows, shifts: seq<Shift>)
    requires SoundRows(rows) && ValidShifts(rows, shifts)
    ensures SoundRows(ShiftAll(rows, shifts))
    ensures ShiftAll(rows, shifts).Keys == rows.Keys
    ensures forall key :: key in rows ==>
              var after := ShiftAll(rows, shifts)[key];
              after.deleted == rows[key].deleted && after.columns == rows[key].columns
                  && after.parent == rows[key].parent
  {
    var rows' := ShiftAll(rows, shifts);
    forall key ensures key in rows' <==> key in rows {
      ShiftAllAt(rows, shifts, key);
    }
    forall key | key in rows'
      ensures SoundRow(key, rows'[key]) && rows'[key].parent == rows[key].parent
      ensures rows'[key].deleted == rows[key].deleted && rows'[key].columns == rows[key].columns
    {
      ShiftAllAt(rows, shifts, key);
      if key.kind == ProductBatches && FindShift(shifts, key.id).Some? {
        var s := FindShift(shifts, key.id).value;
        var i :| 0 <= i < |shifts| && shifts[i] == s;
        assert key == BatchKey(s.batch);
        assert Movable(rows, shifts[i]) && Fits(rows, shifts[i]);
      }
    }
  }

  lemma PublishStockInv(db: Db, shifts: seq<Shift>, notes: seq<Record>, change: ChangeId)
    requires Inv(db) && ValidShifts(db.rows, shifts) && Booked(shifts, notes) && !Logged(db.log, change)
    ensures Inv(PublishStock(db, shifts, notes, change))
  {
    ShiftedRowsSound(db.rows, shifts);
    SameNamesUnique(db.rows, ShiftAll(db.rows, shifts));
    var db' := PublishStock(db, shifts, notes, change);
    forall k | k in db'.receipts && Booking(db'.receipts[k]) ensures Backed(db'.receipts[k], db'.log) {
      BackedGrows(db.receipts[k], db.log, db'.log[|db.log|..]);
    }
  }

  lemma LoggedGrows(log: seq<Entry>, more: seq<Entry>, change: ChangeId)
    requires log <= more && Logged(log, change)
    ensures Logged(more, change)
  {
    var i :| 0 <= i < |log| && log[i].change == change;
    assert more[i] == log[i];
  }

  // ---- what the log and the history say

  /** The stock moved on one batch by a list of records. */
  function Recorded(records: seq<Record>, batch: Id): int {
    if records == [] then 0
    else
      var last := records[|records| - 1];
      Recorded(records[..|records| - 1], batch) + if last.batch == batch then last.change else 0
  }

  function SettledVersions(allocations: seq<Settled>, batch: Id): seq<int> {
    if allocations == [] then []
    else
      var last := allocations[|allocations| - 1];
      SettledVersions(allocations[..|allocations| - 1], batch) + if last.batch == batch then [last.afterVersion] else []
  }

  /** The versions of one entity that an entry publishes. */
  function Published(e: Entry, key: Key): seq<int> {
    match e
    case RowEntry(_, _, k, row) => if k == key then [row.version] else []
    case StockEntry(_, _, allocations) => if key.kind == ProductBatches then SettledVersions(allocations, key.id)
        else []
  }

  function PublishedAll(entries: seq<Entry>, key: Key): seq<int> {
    if entries == [] then []
    else PublishedAll(entries[..|entries| - 1], key) + Published(entries[|entries| - 1], key)
  }

  /** low + 1, ..., high */
  function Steps(low: int, high: int): seq<int> {
    if low >= high then [] else seq(high - low, i => low + 1 + i)
  }

  // ---- replicas

  /** What clients keep of a row: everything but the server-owned `initial_quantity` and `status`. */
  datatype Seen = Seen(version: int, deleted: bool, parent: Option<Id>, expiry: Option<Day>,
                       columns: map<string, string>, quantity: int)

  type Replica = map<Key, Seen>

  function Shown(row: Row): Seen {
    Seen(row.version, row.deleted, row.parent, row.expiry, row.columns, row.quantity)
  }

  function Snapshot(rows: Rows): Replica {
    map key | key in rows :: Shown(rows[key])
  }

  function ApplyAllocations(replica: Replica, allocations: seq<Settled>): Replica {
    if allocations == [] then replica
    else
      var before := ApplyAllocations(replica, allocations[..|allocations| - 1]);
      var last := allocations[|allocations| - 1];
      var key := BatchKey(last.batch);
      if key in before then before[key := before[key].(quantity := last.final, version := last.afterVersion)]
      else before
  }

  /** How a client applies one pulled entry. */
  function Apply(replica: Replica, e: Entry): Replica {
    match e
    case RowEntry(_, _, key, row) => replica[key := Shown(row)]
    case StockEntry(_, _, allocations) => ApplyAllocations(replica, allocations)
  }

  function ApplyAll(replica: Replica, entries: seq<Entry>): Replica {
    if entries == [] then replica
    else Apply(ApplyAll(replica, entries[..|entries| - 1]), entries[|entries| - 1])
  }

  // ---- dependencies

  function Introduced(entries: seq<Entry>): set<Key> {
    set i | 0 <= i < |entries| && entries[i].RowEntry? :: entries[i].key
  }

  /** Every entry refers only to entities that are known or have an earlier entry. */
  ghost predicate Grounded(known: set<Key>, entries: seq<Entry>) {
    forall i :: 0 <= i < |entries| ==> References(entries[i]) <= known + Introduced(entries[..i])
  }

  function References(e: Entry): set<Key> {
    match e
    case RowEntry(_, _, key, row) => if row.parent.Some? then {ParentOf(key, row).value} else {}
    case StockEntry(_, _, allocations) => set i | 0 <= i < |allocations| :: BatchKey(allocations[i].batch)
  }

  ghost predicate MovedBy(entries: seq<Entry>, batch: Id) {
    exists i :: 0 <= i < |entries| && entries[i].StockEntry? && BatchKey(batch) in References(entries[i])
  }

  // ---- one stretch of history

  ghost predicate Extends(db: Db, db': Db) {
    && db.log <= db'.log
    && db.records <= db'.records
    && db.rows.Keys <= db'.rows.Keys
    && db.sequence <= db'.sequence
  }

  function NewEntries(db: Db, db': Db): seq<Entry>
    requires db.log <= db'.log
  {
    db'.log[|db.log|..]
  }

  /** Stock is conserved: each batch holds what it held at the start, or what it was created with since,
      plus the sum of its records. */
  ghost predicate Conserves(db: Db, db': Db)
    requires Extends(db, db')
  {
    && (forall id :: BatchKey(id) in db'.rows ==> Balanced(db, db', id))
    && (forall i :: |db.records| <= i < |db'.records| ==> BatchKey(db'.records[i].batch) in db'.rows)
  }

  ghost predicate Balanced(db: Db, db': Db, id: Id)
    requires Extends(db, db') && BatchKey(id) in db'.rows
  {
    var opening := Opening(db.rows, NewEntries(db, db'), BatchKey(id));
    opening.Some? && db'.rows[BatchKey(id)].quantity == opening.value.quantity
        + Recorded(db'.records[|db.records|..], id)
  }

  /** The row at the start, or else the one that the first entry about it created. */
  function Opening(rows: Rows, entries: seq<Entry>, key: Key): Option<Row> {
    if key in rows then Some(rows[key]) else FirstRow(entries, key)
  }

  function FirstRow(entries: seq<Entry>, key: Key): Option<Row> {
    if entries == [] then None
    else
      var last := entries[|entries| - 1];
      match FirstRow(entries[..|entries| - 1], key)
      case Some(row) => Some(row)
      case None => if last.RowEntry? && last.key == key then Some(last.row) else None
  }

  /** The log publishes every version of every entity, once, in order. */
  ghost predicate Chains(db: Db, db': Db)
    requires Extends(db, db')
  {
    forall key :: Chained(db, db', key)
  }

  ghost predicate Chained(db: Db, db': Db, key: Key)
    requires Extends(db, db')
  {
    && VersionOf(db.rows, key) <= VersionOf(db'.rows, key)
    && PublishedAll(NewEntries(db, db'), key) == Steps(VersionOf(db.rows, key), VersionOf(db'.rows, key))
  }

  /** A replica of the old state that applies the new entries is a replica of the new state. */
  ghost predicate Converges(db: Db, db': Db)
    requires Extends(db, db')
  {
    Snapshot(db'.rows) == ApplyAll(Snapshot(db.rows), NewEntries(db, db'))
  }

  ghost predicate Ordered(db: Db, db': Db)
    requires Extends(db, db')
  {
    && Grounded(db.rows.Keys, NewEntries(db, db'))
    && db'.rows.Keys == db.rows.Keys + Introduced(NewEntries(db, db'))
  }

  /** A batch that is discarded or marked expired keeps its stock and no stock entry moves it. */
  ghost predicate Settles(db: Db, db': Db)
    requires Extends(db, db')
  {
    forall id :: BatchKey(id) in db.rows && !Available(db.rows[BatchKey(id)].status) ==>
      && db'.rows[BatchKey(id)].status == db.rows[BatchKey(id)].status
      && db'.rows[BatchKey(id)].quantity == db.rows[BatchKey(id)].quantity
      && !MovedBy(NewEntries(db, db'), id)
  }

  /** Settled outcomes are never altered, and conflicts are closed, never reopened or dropped. */
  ghost predicate Remembers(db: Db, db': Db) {
    && (forall k :: k in db.receipts ==> k in db'.receipts && db'.receipts[k] == db.receipts[k])
    && |db.conflicts| <= |db'.conflicts|
    && (forall i :: 0 <= i < |db.conflicts| ==>
          db'.conflicts[i] == db.conflicts[i] || db'.conflicts[i] == db.conflicts[i].(open := false))
  }

  ghost predicate Evolves(db: Db, db': Db) {
    && Extends(db, db')
    && Conserves(db, db')
    && Chains(db, db')
    && Converges(db, db')
    && Ordered(db, db')
    && Settles(db, db')
    && Remembers(db, db')
  }
}
