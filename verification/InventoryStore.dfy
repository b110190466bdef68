/** The inventory service as the code runs it: locks, row updates, records; partial effects included. */
module InventoryStore {
  import opened Types
  import opened Tables
  import opened Ledger
  import opened Database
  import opened Inventory
  import Fefo

  /** Why the n-th batch change fails: the batch is not locked under this spelling, no row matches the
      WHERE clause, or a column leaves INTEGER. */
  function ChangeError(rows: Rows, locked: set<Ref>, change: BatchChange): Option<Failure> {
    if change.batch !in locked then Some(Raw(OtherFailure))
    else if !Movable(rows, ShiftOf(change)) then Some(Business(InsufficientStock, 0))
    else if !Fits(rows, ShiftOf(change)) then Some(Raw(InvalidData))
    else None
  }

  /** The rows after the first n changes. */
  ghost function RowsAfter(rows: Rows, changes: seq<BatchChange>, n: nat): Rows
    requires n <= |changes|
  {
    ShiftAll(rows, ShiftsOf(changes[..n]))
  }

  lemma RowsAfterStep(rows: Rows, changes: seq<BatchChange>, n: nat)
    requires n < |changes|
    ensures RowsAfter(rows, changes, n + 1) == Shifted(RowsAfter(rows, changes, n), ShiftOf(changes[n]))
  {
    var shifts := ShiftsOf(changes[..n + 1]);
    assert shifts[..n] == ShiftsOf(changes[..n]);
  }

  ghost predicate Passed(rows: Rows, locked: set<Ref>, changes: seq<BatchChange>, n: nat)
    requires n <= |changes|
  {
    forall i :: 0 <= i < n ==> ChangeError(RowsAfter(rows, changes, i), locked, changes[i]) == None
  }

  ghost predicate FailsAt(rows: Rows, locked: set<Ref>, changes: seq<BatchChange>, n: nat, e: Failure) {
    && n < |changes|
    && Passed(rows, locked, changes, n)
    && ChangeError(RowsAfter(rows, changes, n), locked, changes[n]) == Some(e)
  }

  lemma PassedMore(rows: Rows, locked: set<Ref>, changes: seq<BatchChange>, n: nat)
    requires n < |changes| && Passed(rows, locked, changes, n)
    requires ChangeError(RowsAfter(rows, changes, n), locked, changes[n]) == None
    ensures Passed(rows, locked, changes, n + 1)
    ensures RowsAfter(rows, changes, n + 1) == Shifted(RowsAfter(rows, changes, n), ShiftOf(changes[n]))
  {
    RowsAfterStep(rows, changes, n);
  }

  ghost predicate Fails(rows: Rows, locked: set<Ref>, changes: seq<BatchChange>, e: Failure) {
    exists n: nat :: FailsAt(rows, locked, changes, n, e)
  }

  lemma FailsHere(rows: Rows, locked: set<Ref>, changes: seq<BatchChange>, n: nat, e: Failure)
    requires n < |changes| && Passed(rows, locked, changes, n)
    requires ChangeError(RowsAfter(rows, changes, n), locked, changes[n]) == Some(e)
    ensures Fails(rows, locked, changes, e)
  {
    assert FailsAt(rows, locked, changes, n, e);
  }

  /** txRepository: the caller's SQL transaction and the batches locked so far. */
  class StockTx {
    const db: Database
    var locked: set<Ref>

    constructor (db: Database)
      ensures this.db == db && locked == {}
    {
      this.db := db;
      locked := {};
    }

    ghost predicate Valid()
      reads this
    {
      forall batch :: batch in locked ==> Canonical(batch)
    }

    method FindBatchesForUpdate(product: Id) returns (batches: seq<Fefo.Batch>)
      requires Valid()
      modifies this
      ensures Valid()
      ensures batches == SelectBatches(db.rows, product)
      ensures forall i :: 0 <= i < |batches| ==> Uuid(batches[i].id, 0) in locked
    {
      batches := SelectBatches(db.rows, product);
      Lock(batches);
    }

    method Lock(batches: seq<Fefo.Batch>)
      requires Valid()
      modifies this
      ensures Valid()
      ensures forall i :: 0 <= i < |batches| ==> Uuid(batches[i].id, 0) in locked
    {
      for i := 0 to |batches|
        invariant Valid()
        invariant forall j :: 0 <= j < i ==> Uuid(batches[j].id, 0) in locked
      {
        locked := locked + {Uuid(batches[i].id, 0)};
      }
    }

    method FindBatchForUpdate(batch: Ref) returns (r: Result<Row>)
      requires Valid()
      modifies this
      ensures Valid() && old(locked) <= locked
      ensures r == if Found(db.rows, batch) then Ok(db.rows[BatchKey(batch.id)]) else Err(Business(BatchUnavailable, 0))
      ensures r.Ok? ==> Uuid(batch.id, 0) in locked
    {
      if !Found(db.rows, batch) {
        return Err(Business(BatchUnavailable, 0));
      }
      locked := locked + {Uuid(batch.id, 0)};
      r := Ok(db.rows[BatchKey(batch.id)]);
    }

    /** One UPDATE of applyBatchChangeSQL, after the check that its batch is locked. */
    method ApplyBatchChange(change: BatchChange) returns (r: Result<()>, fault: Option<SqlState>)
      modifies db`rows
      ensures fault.Some? ==> r == Err(Raw(fault.value))
      ensures fault.None? ==>
                r == (match ChangeError(old(db.rows), locked, change) case None => Ok(()) case Some(e) => Err(e))
      ensures r.Ok? ==> fault.None? && db.rows == Shifted(old(db.rows), ShiftOf(change))
    {
      if change.batch !in locked {
        return Err(Raw(OtherFailure)), None;
      }
      fault := Statement();
      if fault.Some? {
        return Err(Raw(fault.value)), fault;
      }
      if !Movable(db.rows, ShiftOf(change)) {
        return Err(Business(InsufficientStock, 0)), None;
      }
      if !Fits(db.rows, ShiftOf(change)) {
        return Err(Raw(InvalidData)), None;
      }
      var key := BatchKey(ShiftOf(change).batch);
      db.rows := db.rows[key := Moved(db.rows[key], change.delta, change.discard)];
      r := Ok(());
    }

    method ApplyBatchChanges(changes: seq<BatchChange>) returns (r: Result<()>, fault: Option<SqlState>)
      requires Valid()
      modifies db`rows
      ensures fault.Some? ==> r == Err(Raw(fault.value))
      ensures r.Ok? ==> fault.None? && db.rows == ShiftAll(old(db.rows), ShiftsOf(changes))
      ensures r.Ok? ==> Passed(old(db.rows), locked, changes, |changes|)
      ensures fault.None? && r.Err? ==> Fails(old(db.rows), locked, changes, r.error)
    {
      ghost var rows := db.rows;
      for i := 0 to |changes|
        invariant db.rows == RowsAfter(rows, changes, i)
        invariant Passed(rows, locked, changes, i)
      {
        r, fault := ApplyBatchChange(changes[i]);
        if r.Err? {
          if fault.None? {
            FailsHere(rows, locked, changes, i, r.error);
          }
          return;
        }
        PassedMore(rows, locked, changes, i);
      }
      assert changes[..|changes|] == changes;
      r, fault := Ok(()), None;
    }

    method AppendConsumptionRecord(note: Record) returns (r: Result<()>, fault: Option<SqlState>)
      modifies db`records
      ensures fault.Some? ==> r == Err(Raw(fault.value)) && db.records == old(db.records)
      ensures fault.None? && note.operation.OperationText? ==> r == Err(Raw(InvalidData))
      ensures fault.None? && note.operation.OperationUuid? ==>
                r == if AlreadyRecorded(old(db.records), note) then Err(Raw(UniqueViolation)) else Ok(())
      ensures db.records == if r.Ok? then old(db.records) + [note] else old(db.records)
    {
      fault := Statement();
      if fault.Some? {
        return Err(Raw(fault.value)), fault;
      }
      if note.operation.OperationText? {
        return Err(Raw(InvalidData)), None;
      }
      if AlreadyRecorded(db.records, note) {
        return Err(Raw(UniqueViolation)), None;
      }
      db.records := db.records + [note];
      r := Ok(());
    }
  }

  method ValidateAllocated(tx: StockTx, allocations: seq<Line>, today: Day) returns (r: Result<seq<Allocation>>)
    requires tx.Valid() && allocations != []
    modifies tx
    ensures tx.Valid()
    ensures r == CheckLines(tx.db.rows, allocations, today)
    ensures r.Ok? ==> forall a :: a in r.value ==> Uuid(IdOf(a.batch), 0) in tx.locked
  {
    var seen: set<Ref> := {};
    var out: seq<Allocation> := [];
    for i := 0 to |allocations|
      invariant tx.Valid()
      invariant CheckLines(tx.db.rows, allocations[..i], today) == Ok(out)
      invariant forall batch :: batch in seen <==> exists j :: 0 <= j < i && allocations[j].batch == batch
      invariant forall a :: a in out ==> Uuid(IdOf(a.batch), 0) in tx.locked
    {
      var line := allocations[i];
      assert allocations[..i + 1][..i] == allocations[..i];
      assert line.batch in seen <==> exists j :: 0 <= j < |allocations[..i]| && allocations[..i][j].batch == line.batch;
      if line.batch.Malformed? || line.quantity < 1 {
        FirstError(tx.db.rows, allocations, i, today);
        return Err(Business(ValidationFailed, 0));
      }
      if line.batch in seen {
        FirstError(tx.db.rows, allocations, i, today);
        return Err(Business(ValidationFailed, 0));
      }
      seen := seen + {line.batch};
      var found := tx.FindBatchForUpdate(line.batch);
      if found.Err? {
        FirstError(tx.db.rows, allocations, i, today);
        return Err(found.error);
      }
      var row := found.value;
      if !Available(row.status) || row.quantity < line.quantity {
        FirstError(tx.db.rows, allocations, i, today);
        return Err(Business(InsufficientStock, 0));
      }
      if row.expiry.Some? && row.expiry.value < today {
        FirstError(tx.db.rows, allocations, i, today);
        return Err(Business(BatchUnavailable, 0));
      }
      out := out + [Planned(line.batch, line.quantity, row)];
    }
    assert allocations[..|allocations|] == allocations;
    r := Ok(out);
  }

  /** The first line that fails decides the result of the whole list. */
  lemma {:induction false} FirstError(rows: Rows, lines: seq<Line>, n: nat, today: Day)
    requires n < |lines|
    requires CheckLines(rows, lines[..n + 1], today).Err?
    ensures CheckLines(rows, lines, today) == CheckLines(rows, lines[..n + 1], today)
  {
    if |lines| == n + 1 {
      assert lines[..n + 1] == lines;
    } else {
      assert lines[..|lines| - 1][..n + 1] == lines[..n + 1];
      FirstError(rows, lines[..|lines| - 1], n, today);
    }
  }

  method MakePlan(tx: StockTx, c: Command, today: Day) returns (r: Result<seq<Allocation>>)
    requires tx.Valid()
    modifies tx
    ensures tx.Valid()
    ensures r == Plan(tx.db.rows, c, today)
    ensures r.Ok? ==> forall i :: 0 <= i < |r.value| ==> Uuid(IdOf(r.value[i].batch), 0) in tx.locked
  {
    match c.name
    case ConsumeFefo =>
      var batches := tx.FindBatchesForUpdate(c.product);
      var takes := Fefo.AllocateFEFO(batches, c.quantity, today);
      if takes.Err? {
        return Err(takes.error);
      }
      SelectUnique(tx.db.rows, c.product);
      Fefo.TakesNameBatches(batches, c.quantity, today);
      forall i | 0 <= i < |takes.value| ensures Uuid(takes.value[i].id, 0) in tx.locked {
        assert Fefo.Named(takes.value[i], batches, today);
      }
      r := Ok(FromTakes(takes.value));
    case ConsumeAllocated =>
      if c.allocations == [] {
        return Err(Business(ValidationFailed, 0));
      }
      r := ValidateAllocated(tx, c.allocations, today);
    case _ =>
      if c.batch.Malformed? || c.quantity < (if c.name == Restock then 1 else 0) {
        return Err(Business(ValidationFailed, 0));
      }
      var found := tx.FindBatchForUpdate(c.batch);
      if found.Err? {
        return Err(found.error);
      }
      var row := found.value;
      if !Available(row.status) || row.quantity < 0 {
        return Err(Business(BatchUnavailable, 0));
      }
      if c.name == Discard && c.quantity != row.quantity {
        if c.quantity > row.quantity {
          return Err(Business(InsufficientStock, 0));
        }
        return Err(Business(ValidationFailed, 0));
      }
      r := Ok([Planned(Uuid(c.batch.id, 0), c.quantity, row)]);
  }

  // ---- after a successful plan no change can lack stock

  ghost predicate LockedFor(locked: set<Ref>, plan: seq<Allocation>) {
    && (forall batch :: batch in locked ==> Canonical(batch))
    && (forall i :: 0 <= i < |plan| ==> Uuid(IdOf(plan[i].batch), 0) in locked)
  }

  /** Changes to other batches leave the n-th planned row as the plan saw it. */
  lemma RowUntouched(rows: Rows, name: CommandName, plan: seq<Allocation>, n: nat)
    requires PlanHolds(rows, name, plan) && n < |plan|
    requires forall i :: 0 <= i <= n ==> Canonical(plan[i].batch)
    ensures var key := BatchKey(plan[n].batch.id);
            && key in rows && key in RowsAfter(rows, ChangesOf(name, plan), n)
            && RowsAfter(rows, ChangesOf(name, plan), n)[key] == rows[key]
  {
    var shifts := ShiftsOf(ChangesOf(name, plan)[..n]);
    forall i, j | 0 <= i < j < |shifts| ensures shifts[i].batch != shifts[j].batch {
      assert plan[i].batch != plan[j].batch;
    }
    forall i | 0 <= i < |shifts| ensures shifts[i].batch != plan[n].batch.id {
      assert plan[i].batch != plan[n].batch;
    }
    assert AllocationHolds(rows, name, plan[n]);
    ShiftAllAt(rows, shifts, BatchKey(plan[n].batch.id));
  }

  lemma PlannedChange(rows: Rows, name: CommandName, plan: seq<Allocation>, locked: set<Ref>, n: nat)
    requires PlanHolds(rows, name, plan) && LockedFor(locked, plan) && n < |plan|
    requires Passed(rows, locked, ChangesOf(name, plan), n)
    ensures ChangeError(RowsAfter(rows, ChangesOf(name, plan), n), locked, ChangesOf(name, plan)[n]) ==
              if !Canonical(plan[n].batch) then Some(Raw(OtherFailure))
              else if !Fits(rows, ShiftOf(ChangeOf(name, plan[n]))) then Some(Raw(InvalidData))
              else None
  {
    assert AllocationHolds(rows, name, plan[n]);
    if Canonical(plan[n].batch) {
      forall i | 0 <= i <= n ensures Canonical(plan[i].batch) {
        if i < n {
          assert ChangeError(RowsAfter(rows, ChangesOf(name, plan), i), locked, ChangesOf(name, plan)[i]) == None;
        }
      }
      RowUntouched(rows, name, plan, n);
      assert plan[n].batch == Uuid(IdOf(plan[n].batch), 0);
    }
  }

  /** Only a restock can leave INTEGER, and it has one canonical allocation. */
  lemma OverflowMeansRestock(rows: Rows, name: CommandName, plan: seq<Allocation>, n: nat)
    requires SoundRows(rows) && PlanHolds(rows, name, plan) && n < |plan|
    requires !Fits(rows, ShiftOf(ChangeOf(name, plan[n])))
    ensures forall i :: 0 <= i < |plan| ==> Canonical(plan[i].batch)
  {
    assert AllocationHolds(rows, name, plan[n]);
    assert SoundRow(BatchKey(plan[n].batch.id), rows[BatchKey(plan[n].batch.id)]);
    assert name == Restock;
    forall i | 0 <= i < |plan| ensures Canonical(plan[i].batch) {
      assert AllocationHolds(rows, name, plan[i]);
    }
  }

  lemma FailureIsObstacle(rows: Rows, records: seq<Record>, c: Command, plan: seq<Allocation>, locked: set<Ref>, n: nat,
                          e: Failure)
    requires SoundRows(rows) && PlanHolds(rows, c.name, plan) && LockedFor(locked, plan)
    requires FailsAt(rows, locked, ChangesOf(c.name, plan), n, e)
    ensures e.Raw? && Obstacle(rows, records, c, plan) == Some(e.state)
  {
    PlannedChange(rows, c.name, plan, locked, n);
    if Canonical(plan[n].batch) {
      OverflowMeansRestock(rows, c.name, plan, n);
    }
  }

  lemma PassedMeansClear(rows: Rows, c: Command, plan: seq<Allocation>, locked: set<Ref>)
    requires PlanHolds(rows, c.name, plan) && LockedFor(locked, plan)
    requires Passed(rows, locked, ChangesOf(c.name, plan), |plan|)
    ensures AllClear(rows, c.name, plan)
  {
    forall i | 0 <= i < |plan| ensures Canonical(plan[i].batch) && Fits(rows, ShiftOf(ChangeOf(c.name, plan[i]))) {
      assert Passed(rows, locked, ChangesOf(c.name, plan), i);
      PlannedChange(rows, c.name, plan, locked, i);
    }
  }

  /** Records of this command never collide with one another. */
  lemma FreshNote(records: seq<Record>, c: Command, plan: seq<Allocation>, n: nat)
    requires n < |plan|
    requires forall i :: 0 <= i < |plan| ==> Canonical(plan[i].batch)
    requires forall i, j :: 0 <= i < j < |plan| ==> plan[i].batch != plan[j].batch
    ensures AlreadyRecorded(records + NotesOf(c, plan)[..n], NoteOf(c, plan[n])) <==>
              AlreadyRecorded(records, NoteOf(c, plan[n]))
  {
    var notes, note := NotesOf(c, plan), NoteOf(c, plan[n]);
    var all := records + notes[..n];
    forall i | 0 <= i < n ensures notes[i].batch != note.batch {
      assert plan[i].batch != plan[n].batch;
    }
    if AlreadyRecorded(records, note) {
      var i :| 0 <= i < |records| && records[i].batch == note.batch && records[i].operation == note.operation
          && records[i].device == note.device;
      assert all[i] == records[i];
    }
  }

  /** The first loop of Execute: complete every allocation in place and derive its batch change. */
  method Complete(name: CommandName, plan: seq<Allocation>)
    returns (allocations: seq<Allocation>, changes: seq<BatchChange>)
    ensures allocations == FinishAll(name, plan)
    ensures changes == ChangesOf(name, plan)
  {
    allocations, changes := plan, [];
    for i := 0 to |allocations|
      invariant |allocations| == |plan|
      invariant forall j :: 0 <= j < |plan| ==> allocations[j] == if j < i then Finished(name, plan[j]) else plan[j]
      invariant changes == ChangesOf(name, plan)[..i]
    {
      var a := allocations[i];
      allocations := allocations[i :=
          a.(final := a.before + QuantityDelta(name, a.quantity), afterVersion := a.beforeVersion + 1)];
      changes := changes + [BatchChange(a.batch, QuantityDelta(name, a.quantity), name == Discard)];
    }
  }

  /** The second loop: one record per allocation. */
  method AppendRecords(tx: StockTx, c: Command, plan: seq<Allocation>) returns (r: Result<()>, fault: Option<SqlState>)
    requires forall i :: 0 <= i < |plan| ==> Canonical(plan[i].batch)
    requires forall i, j :: 0 <= i < j < |plan| ==> plan[i].batch != plan[j].batch
    modifies tx.db`records
    ensures fault.Some? ==> r == Err(Raw(fault.value))
    ensures fault.None? ==>
              r == if c.operation.OperationText? && plan != [] then Err(Raw(InvalidData))
                   else if exists i :: 0 <= i < |plan| && AlreadyRecorded(old(tx.db.records), NoteOf(c, plan[i]))
                   then Err(Raw(UniqueViolation)) else Ok(())
    ensures r.Ok? ==> fault.None? && tx.db.records == old(tx.db.records) + NotesOf(c, plan)
  {
    ghost var records := tx.db.records;
    for i := 0 to |plan|
      invariant tx.db.records == records + NotesOf(c, plan)[..i]
      invariant i > 0 ==> c.operation.OperationUuid?
      invariant forall j :: 0 <= j < i ==> !AlreadyRecorded(records, NoteOf(c, plan[j]))
    {
      FreshNote(records, c, plan, i);
      r, fault := tx.AppendConsumptionRecord(NoteOf(c, plan[i]));
      if r.Err? {
        return;
      }
    }
    r, fault := Ok(()), None;
  }

  /** The batch updates of a plan: every failure is raw, no business error can follow a successful plan,
      so no partial update can escape the savepoint. */
  method MoveStock(tx: StockTx, c: Command, plan: seq<Allocation>, changes: seq<BatchChange>)
    returns (r: Result<()>, fault: Option<SqlState>)
    requires tx.Valid() && SoundRows(tx.db.rows)
    requires PlanHolds(tx.db.rows, c.name, plan) && LockedFor(tx.locked, plan)
    requires changes == ChangesOf(c.name, plan)
    modifies tx.db`rows
    ensures r.Err? ==> r.error.Raw?
    ensures fault.Some? ==> r == Err(Raw(fault.value))
    ensures fault.None? && r.Err? ==> Obstacle(old(tx.db.rows), tx.db.records, c, plan) == Some(r.error.state)
    ensures r.Ok? ==> fault.None? && AllClear(old(tx.db.rows), c.name, plan)
    ensures r.Ok? ==> tx.db.rows == ShiftAll(old(tx.db.rows), ShiftsOf(changes))
  {
    ghost var rows := tx.db.rows;
    r, fault := tx.ApplyBatchChanges(changes);
    if r.Ok? {
      PassedMeansClear(rows, c, plan, tx.locked);
    } else if fault.None? {
      ghost var n: nat :| FailsAt(rows, tx.locked, changes, n, r.error);
      FailureIsObstacle(rows, tx.db.records, c, plan, tx.locked, n, r.error);
    }
  }

  ghost predicate AllClear(rows: Rows, name: CommandName, plan: seq<Allocation>) {
    forall i :: 0 <= i < |plan| ==> Canonical(plan[i].batch) && Fits(rows, ShiftOf(ChangeOf(name, plan[i])))
  }

  /** Execute after planning. */
  method Perform(tx: StockTx, c: Command, plan: seq<Allocation>)
    returns (r: Result<seq<Allocation>>, fault: Option<SqlState>)
    requires tx.Valid() && SoundRows(tx.db.rows)
    requires PlanHolds(tx.db.rows, c.name, plan) && LockedFor(tx.locked, plan)
    modifies tx.db`rows, tx.db`records
    ensures r.Err? ==> r.error.Raw?
    ensures fault.Some? ==> r == Err(Raw(fault.value))
    ensures fault.None? ==> r == Performed(old(tx.db.rows), old(tx.db.records), c, plan)
    ensures r.Ok? ==> fault.None?
    ensures r.Ok? ==> tx.db.rows == ShiftAll(old(tx.db.rows), ShiftsOf(ChangesOf(c.name, plan)))
    ensures r.Ok? ==> tx.db.records == old(tx.db.records) + NotesOf(c, plan)
  {
    var allocations, changes := Complete(c.name, plan);
    var moved;
    moved, fault := MoveStock(tx, c, plan, changes);
    if moved.Err? {
      return Err(moved.error), fault;
    }
    var recorded;
    recorded, fault := AppendRecords(tx, c, plan);
    r := if recorded.Err? then Err(recorded.error) else Ok(allocations);
  }

  /** Execute: plan, then move the stock and append the records. A business error means that nothing
      was written. */
  method Execute(tx: StockTx, c: Command, today: Day) returns (r: Result<seq<Allocation>>, fault: Option<SqlState>)
    requires tx.Valid() && SoundRows(tx.db.rows)
    modifies tx, tx.db`rows, tx.db`records
    ensures fault.Some? ==> r == Err(Raw(fault.value))
    ensures fault.None? ==> r == Executed(old(tx.db.rows), old(tx.db.records), c, today)
    ensures r.Err? && r.error.Business? ==> tx.db.rows == old(tx.db.rows) && tx.db.records == old(tx.db.records)
    ensures r.Ok? ==> Carried(old(tx.db.rows), old(tx.db.records), tx.db.rows, tx.db.records, c, today)
  {
    var planned := MakePlan(tx, c, today);
    if planned.Err? {
      return planned, None;
    }
    PlanGuarantees(tx.db.rows, c, today);
    r, fault := Perform(tx, c, planned.value);
  }

  /** The effect of an accepted command: the planned stock moved, one record for each move. */
  ghost predicate Carried(rows: Rows, records: seq<Record>, rows': Rows, records': seq<Record>, c: Command,
                          today: Day) {
    && Executed(rows, records, c, today).Ok?
    && var plan := Plan(rows, c, today).value;
    && rows' == ShiftAll(rows, ShiftsOf(ChangesOf(c.name, plan)))
    && records' == records + NotesOf(c, plan)
  }
}
