/** The sync service and its PostgreSQL transaction as the code runs them. */
module SyncStore {
  import opened Types
  import opened Tables
  import opened Receipts
  import opened Ledger
  import opened Database
  import opened Inventory
  import opened SyncSpec
  import opened InventoryStore
  import SyncSafety

  /** A method's result and the tables it leaves are what the specification says; after a raw error
      the tables do not matter, since the caller rolls back. */
  ghost predicate Meets(r: Result<Outcome>, after: Db, spec: Result<(Db, Outcome)>) {
    match spec
    case Ok(done) => r == Ok(done.1) && after == done.0
    case Err(e) => r == Err(e)
  }

  ghost predicate Lost(r: Result<Outcome>, fault: Option<SqlState>) {
    fault.Some? && r == Err(Raw(fault.value))
  }

  // ---- the check of the inventory service's answer

  /** The conditions that ExecuteInventoryCommand demands of an allocation. */
  predicate Authoritative(name: CommandName, a: Allocation) {
    && a.quantity >= 0
    && (a.quantity == 0 ==> name == Discard && a.before == 0 && a.final == 0)
    && a.before >= 0 && a.final >= 0
    && a.beforeVersion >= 1 && a.afterVersion >= 1
  }

  method CheckAllocations(name: CommandName, allocations: seq<Allocation>) returns (r: Result<seq<Settled>>)
    ensures r.Ok? <==> forall i :: 0 <= i < |allocations| ==> Authoritative(name, allocations[i])
    ensures r.Ok? ==> r.value == Report(allocations)
    ensures r.Err? ==> r.error == Business(InvalidAuthoritativeResult, 0)
  {
    var out: seq<Settled> := [];
    for i := 0 to |allocations|
      invariant forall j :: 0 <= j < i ==> Authoritative(name, allocations[j])
      invariant out == Report(allocations)[..i]
    {
      var a := allocations[i];
      if a.quantity < 0 || (a.quantity == 0 && (name != Discard || a.before != 0 || a.final != 0))
         || a.before < 0 || a.final < 0 || a.beforeVersion < 1 || a.afterVersion < 1 {
        return Err(Business(InvalidAuthoritativeResult, 0));
      }
      out := out + [Settled(IdOf(a.batch), a.quantity, a.before, a.final, a.beforeVersion, a.afterVersion)];
    }
    r := Ok(out);
  }

  /** The check never fails: what the service plans over sound rows is authoritative. */
  lemma FinishedIsAuthoritative(rows: Rows, c: Command, today: Day, i: nat)
    requires SoundRows(rows) && Plan(rows, c, today).Ok? && i < |Plan(rows, c, today).value|
    ensures Authoritative(c.name, FinishAll(c.name, Plan(rows, c, today).value)[i])
  {
    var plan := Plan(rows, c, today).value;
    PlanGuarantees(rows, c, today);
    assert AllocationHolds(rows, c.name, plan[i]);
    assert SoundRow(BatchKey(plan[i].batch.id), rows[BatchKey(plan[i].batch.id)]);
  }

  // ---- one transaction

  class Transaction {
    const db: Database
    const device: Id
    const today: Day

    constructor (db: Database, device: Id, today: Day)
      ensures this.db == db && this.device == device && this.today == today
    {
      this.db, this.device, this.today := db, device, today;
    }

    method UpsertEntity(key: Key, base: int, patch: Patch) returns (r: Result<Row>, fault: Option<SqlState>)
      modifies db`rows
      ensures fault.Some? ==> r == Err(Raw(fault.value))
      ensures fault.None? ==> r == UpsertRow(old(db.State()), key, base, patch)
      ensures db.rows == if r.Ok? then old(db.rows)[key := r.value] else old(db.rows)
    {
      if key.kind == OtherEntity {
        return Err(Business(UnsupportedEntity, 0)), None;
      }
      if key.kind == ProductBatches && !patch.stockFields.NoStockField? {
        return Err(Business(InventoryCommandRequired, 0)), None;
      }
      if key.kind == ProductBatches && !patch.validDates {
        return Err(Business(ValidationFailed, 0)), None;
      }
      if base == 0 && !SyncSpec.Complete(key.kind, patch) {
        return Err(Business(ValidationFailed, 0)), None;
      }
      fault := Statement();
      if fault.Some? {
        return Err(Raw(fault.value)), fault;
      }
      var dependency := DependencyError(db.rows, key.kind, patch);
      if dependency.Some? {
        return Err(dependency.value), None;
      }
      if base == 0 {
        if key in db.rows || key in db.foreign {
          return Err(MutationConflict(db.State(), key)), None;
        }
        r := Stored(db.rows, key, Inserted(key, patch), Storable(key.kind, patch, true));
      } else {
        if key !in db.rows || db.rows[key].version != base {
          return Err(MutationConflict(db.State(), key)), None;
        }
        r := Stored(db.rows, key, Updated(key, db.rows[key], patch), Storable(key.kind, patch, false));
      }
      if r.Ok? {
        db.rows := db.rows[key := r.value];
      }
    }

    method DeleteEntity(key: Key, base: int) returns (r: Result<Row>, fault: Option<SqlState>)
      modifies db`rows
      ensures fault.Some? ==> r == Err(Raw(fault.value))
      ensures fault.None? ==> r == DeleteRow(old(db.State()), key, base)
      ensures r.Ok? ==> fault.None? && db.rows == old(db.rows)[key := r.value]
      ensures r.Err? && r.error.Business? ==> db.rows == old(db.rows)
    {
      if key.kind == OtherEntity {
        return Err(Business(UnsupportedEntity, 0)), None;
      }
      fault := Statement();
      if fault.Some? {
        return Err(Raw(fault.value)), fault;
      }
      if key !in db.rows || db.rows[key].version != base {
        return Err(MutationConflict(db.State(), key)), None;
      }
      db.rows := db.rows[key := db.rows[key].(version := db.rows[key].version + 1, deleted := true)];
      // the tombstone and its audit row
      fault := Statement();
      if fault.Some? {
        return Err(Raw(fault.value)), fault;
      }
      r := Ok(db.rows[key]);
    }

    /** The loop of validateInventoryDependencies over the batches of a command. */
    method CheckBatches(lines: seq<Line>) returns (error: Option<Failure>)
      ensures error == BatchesError(db.rows, lines)
    {
      var seen: set<Ref> := {};
      for i := 0 to |lines|
        invariant BatchesError(db.rows, lines[..i]) == None
        invariant forall batch :: batch in seen <==> exists j :: 0 <= j < i && lines[j].batch == batch
      {
        var batch := lines[i].batch;
        assert lines[..i + 1][..i] == lines[..i];
        assert batch in seen <==> exists j :: 0 <= j < |lines[..i]| && lines[..i][j].batch == batch;
        if batch.Malformed? {
          FirstBatchError(db.rows, lines, i);
          return Some(Business(InvalidBatch, 0));
        }
        if batch in seen {
          FirstBatchError(db.rows, lines, i);
          return Some(Business(ValidationFailed, 0));
        }
        seen := seen + {batch};
        if !SyncSpec.Active(db.rows, BatchKey(batch.id)) {
          FirstBatchError(db.rows, lines, i);
          return Some(Business(FamilyScopeViolation, 0));
        }
      }
      assert lines[..|lines|] == lines;
      error := None;
    }

    method ExecuteInventoryCommand(ch: Change) returns (r: Result<seq<Settled>>, fault: Option<SqlState>)
      requires ch.operation.Inventory? && SoundRows(db.rows)
      modifies db`rows, db`records
      ensures fault.Some? ==> r == Err(Raw(fault.value))
      ensures fault.None? && r.Err? ==> CommandResult(old(db.State()), device, ch, today) == Err(r.error)
      ensures r.Err? && r.error.Business? ==> db.rows == old(db.rows) && db.records == old(db.records)
      ensures r.Ok? ==> CommandResult(old(db.State()), device, ch, today).Ok?
      ensures r.Ok? ==> r.value == Report(CommandResult(old(db.State()), device, ch, today).value)
      ensures r.Ok? ==> Carried(old(db.rows), old(db.records), db.rows, db.records, ToCommand(device, ch), today)
    {
      var op := ch.operation;
      if (op.name == Restock || op.name == Discard) && |op.lines| != 1 {
        return Err(Business(ValidationFailed, 0)), None;
      }
      var dependency := CheckReferences(op);
      if dependency.Some? {
        return Err(dependency.value), None;
      }
      ghost var rows := db.rows;
      var tx := new StockTx(db);
      var command := ToCommand(device, ch);
      var executed;
      executed, fault := InventoryStore.Execute(tx, command, today);
      if executed.Err? {
        return Err(executed.error), fault;
      }
      forall i | 0 <= i < |executed.value| ensures Authoritative(command.name, executed.value[i]) {
        FinishedIsAuthoritative(rows, command, today, i);
      }
      r := CheckAllocations(op.name, executed.value);
    }

    method CheckReferences(op: Operation) returns (error: Option<Failure>)
      requires op.Inventory?
      ensures error == ReferenceError(db.rows, op)
    {
      if op.name == ConsumeFefo {
        if op.product.Malformed? {
          return Some(Business(InvalidProduct, 0));
        }
        if !SyncSpec.Active(db.rows, Key(Products, op.product.id)) {
          return Some(Business(FamilyScopeViolation, 0));
        }
        return None;
      }
      error := CheckBatches(op.lines);
    }

    /** INSERT INTO change_log: change ids are unique, the cursor is the next value of the sequence. */
    method AppendChange(entry: Entry) returns (r: Result<nat>, fault: Option<SqlState>)
      modifies db`log, db`sequence
      ensures fault.Some? ==> r == Err(Raw(fault.value))
      ensures fault.None? && Logged(old(db.log), entry.change) ==> r == Err(Raw(UniqueViolation))
      ensures fault.None? && !Logged(old(db.log), entry.change) ==> r == Ok(old(db.sequence) + 1)
      ensures r.Ok? ==> db.sequence == old(db.sequence) + 1
      ensures r.Ok? ==> db.log == old(db.log) + [entry.(cursor := old(db.sequence) + 1)]
    {
      fault := Statement();
      if fault.Some? {
        return Err(Raw(fault.value)), fault;
      }
      if Logged(db.log, entry.change) {
        return Err(Raw(UniqueViolation)), None;
      }
      db.sequence := db.sequence + 1;
      db.log := db.log + [entry.(cursor := db.sequence)];
      r := Ok(db.sequence);
    }

    method RecordConflict(ch: Change, reason: Code, serverVersion: int, cursor: nat)
      returns (r: Result<Outcome>, fault: Option<SqlState>)
      requires cursor == Cursor(db.State())
      modifies db`conflicts
      ensures Lost(r, fault) || (fault.None? &&
              match SyncSpec.RecordConflict(old(db.State()), device, ch, reason, serverVersion)
              case Err(e) => r == Err(e)
              case Ok(after) =>
                  r == Ok(Conflicted(reason, serverVersion, Cursor(old(db.State())))) && db.State() == after)
    {
      fault := Statement();
      if fault.Some? {
        return Err(Raw(fault.value)), fault;
      }
      if ch.operation.Inventory? && ch.operation.entity.None? {
        return Err(Raw(InvalidData)), None;
      }
      if HasConflict(db.conflicts, device, ch.id) {
        return Err(Raw(UniqueViolation)), None;
      }
      db.conflicts := db.conflicts + [Conflict(device, ch.id, ch.operation, reason, serverVersion, true)];
      r := Ok(Conflicted(reason, serverVersion, cursor));
    }

    method BusinessOutcomeOrError(ch: Change, f: Failure, cursor: nat)
      returns (r: Result<Outcome>, fault: Option<SqlState>)
      requires cursor == Cursor(db.State())
      modifies db`conflicts
      ensures Lost(r, fault) || (fault.None? &&
              Meets(r, db.State(), if f.Raw? then Err(f)
                  else BusinessOutcome(old(db.State()), device, ch, f.code, f.serverVersion)))
    {
      if f.Raw? {
        return Err(f), None;
      }
      if f.code == VersionConflict || f.code == FamilyScopeViolation {
        r, fault := RecordConflict(ch, f.code, f.serverVersion, cursor);
        return;
      }
      return Ok(Rejected(f.code, cursor)), None;
    }

    method ApplyEntityChange(ch: Change, cursor: nat) returns (r: Result<Outcome>, fault: Option<SqlState>)
      requires !ch.operation.Inventory? && cursor == Cursor(db.State())
      modifies db
      ensures Lost(r, fault) || (fault.None? && Meets(r, db.State(), AppliedEntity(old(db.State()), device, ch)))
    {
      fault := Statement();
      if fault.Some? {
        return Err(Raw(fault.value)), fault;
      }
      var key := ch.operation.key;
      var current := CurrentVersion(db.State(), key);
      if ch.operation.baseVersion != current {
        r, fault := RecordConflict(ch, VersionConflict, current, cursor);
        return;
      }
      var updated;
      if ch.operation.Upsert? {
        updated, fault := UpsertEntity(key, ch.operation.baseVersion, ch.operation.patch);
      } else {
        updated, fault := DeleteEntity(key, ch.operation.baseVersion);
      }
      if updated.Err? {
        if fault.Some? {
          return Err(updated.error), fault;
        }
        r, fault := BusinessOutcomeOrError(ch, updated.error, cursor);
        return;
      }
      var appended;
      appended, fault := AppendChange(RowEntry(0, ch.id, key, updated.value));
      r := if appended.Err? then Err(appended.error) else Ok(Accepted(updated.value.version, appended.value));
    }

    method ApplyInventoryChange(ch: Change, cursor: nat) returns (r: Result<Outcome>, fault: Option<SqlState>)
      requires ch.operation.Inventory? && cursor == Cursor(db.State()) && SoundRows(db.rows)
      modifies db
      ensures Lost(r, fault)
              || (fault.None? && Meets(r, db.State(), AppliedCommand(old(db.State()), device, ch, today)))
    {
      ghost var before := db.State();
      var result;
      result, fault := ExecuteInventoryCommand(ch);
      if result.Err? {
        if fault.Some? {
          return Err(result.error), fault;
        }
        r, fault := BusinessOutcomeOrError(ch, result.error, cursor);
        return;
      }
      ghost var command := ToCommand(device, ch);
      r, fault := PublishCommand(ch, result.value, before, command, Plan(before.rows, command, today).value);
    }

    /** The log entry of a command that has been carried out. */
    method PublishCommand(ch: Change, allocations: seq<Settled>, ghost before: Db, ghost c: Command,
                          ghost plan: seq<Allocation>)
      returns (r: Result<Outcome>, fault: Option<SqlState>)
      requires allocations == Report(FinishAll(c.name, plan))
      requires db.rows == ShiftAll(before.rows, ShiftsOf(ChangesOf(c.name, plan)))
      requires db.records == before.records + NotesOf(c, plan)
      requires db.State() == before.(rows := db.rows, records := db.records)
      modifies db
      ensures Lost(r, fault) || (fault.None? && Meets(r, db.State(), SyncSpec.PublishCommand(before, c, plan, ch.id)))
    {
      var appended;
      appended, fault := AppendChange(StockEntry(0, ch.id, allocations));
      r := if appended.Err? then Err(appended.error) else Ok(Accepted(FirstVersion(allocations), appended.value));
    }

    method ApplyChange(ch: Change, cursor: nat) returns (r: Result<Outcome>, fault: Option<SqlState>)
      requires cursor == Cursor(db.State()) && SoundRows(db.rows)
      modifies db
      ensures Lost(r, fault) || (fault.None? && Meets(r, db.State(), Applied(old(db.State()), device, ch, today)))
    {
      if ch.operation.Inventory? {
        r, fault := ApplyInventoryChange(ch, cursor);
      } else {
        r, fault := ApplyEntityChange(ch, cursor);
      }
    }

    /** SAVEPOINT, apply, ROLLBACK TO SAVEPOINT on any error, and the translation of database errors. */
    method WithinChange(ch: Change, cursor: nat) returns (r: Result<Outcome>, fault: Fault)
      requires cursor == Cursor(db.State()) && SoundRows(db.rows)
      modifies db
      ensures fault.Outside? ==> r.Err? && r.error.Raw?
      ensures !fault.Outside? ==>
                match GuardedChange(old(db.State()), device, ch, today, fault)
                case Ok(done) => r == Ok(done.1) && db.State() == done.0
                case Err(f) => r == Err(Guarded(f)) && db.State() == old(db.State())
    {
      var savepoint := db.State();
      var lost;
      r, lost := ApplyChange(ch, cursor);
      fault := if lost.Some? then InChange(lost.value) else NoFault;
      if r.Err? {
        db.Restore(savepoint);
        match r.error {
          case Raw(UniqueViolation) => r := Err(Business(VersionConflict, 0));
          case Raw(ForeignKeyViolation) => r := Err(Business(VersionConflict, 0));
          case Raw(InvalidData) => r := Err(Business(ValidationFailed, 0));
          case _ =>
        }
      }
      var release := Statement();
      if release.Some? {
        return Err(Raw(release.value)), Outside;
      }
    }

    method PutIdempotency(ch: Change, outcome: Outcome) returns (r: Result<()>, fault: Option<SqlState>)
      modifies db`receipts
      ensures fault.Some? ==> r.Err?
      ensures fault.None? ==> (r.Ok? <==> StorableKey(ch.key))
      ensures r.Ok? ==>
                db.receipts == old(db.receipts)[ReceiptKey(device, ch.key) := Receipt(device, OfTables(ch), outcome)]
      ensures r.Err? ==> db.receipts == old(db.receipts)
    {
      fault := Statement();
      if fault.Some? {
        return Err(Raw(fault.value)), fault;
      }
      if !StorableKey(ch.key) {
        return Err(Raw(InvalidData)), None;
      }
      db.receipts := db.receipts[ReceiptKey(device, ch.key) := Receipt(device, OfTables(ch), outcome)];
      r := Ok(());
    }

    /** GetIdempotency, and the answer that a receipt gives; a key with U+0000 cannot be looked up. */
    method GetIdempotency(base: int, ch: Change) returns (found: Option<Reply>, unread: bool)
      ensures unread <==> !Readable(ch.key)
      ensures !unread ==> found == Lookup(db.receipts, device, OfTables(ch), base, Cursor(db.State()))
    {
      if !Readable(ch.key) {
        return None, true;
      }
      var k := ReceiptKey(device, ch.key);
      if k !in db.receipts {
        return None, false;
      }
      if db.receipts[k].device != device || db.receipts[k].pushed != OfTables(ch) {
        return Some(Answer(Rejected(IdempotencyKeyReuse, if base < 0 then 0 else base))), false;
      }
      return Some(Replay(db.receipts[k].outcome, Cursor(db.State()))), false;
    }

    /** The change and its recovery: the outcome to be stored, or the error that ends the push. */
    method Decide(base: int, ch: Change, cursor: nat) returns (r: Result<Outcome>, fault: Fault)
      requires cursor == Cursor(db.State()) && SoundRows(db.rows)
      modifies db
      ensures fault.Outside? ==> r.Err?
      ensures !fault.Outside? ==> Decided(old(db.State()), device, base, ch, today, fault, r, db.State())
    {
      if base > cursor {
        return Ok(Rejected(InvalidCursor, cursor)), NoFault;
      }
      if !ValidChange(ch) {
        return Ok(Rejected(ValidationFailed, cursor)), NoFault;
      }
      r, fault := WithinChange(ch, cursor);
      if r.Err? && !fault.Outside? {
        var lost;
        r, lost := BusinessOutcomeOrError(ch, r.error, cursor);
        if lost.Some? {
          fault := Outside;
        }
      }
    }

    /** The function that processChange runs in a transaction. */
    method InTransaction(base: int, ch: Change) returns (r: Result<Reply>, fault: Fault)
      requires Inv(db.State())
      modifies db
      ensures fault.Outside? ==> r.Err?
      ensures !fault.Outside? ==>
                var spec := Process(old(db.State()), device, base, ch, today, fault);
                if spec.1.Aborted? then r.Err? else r == Ok(spec.1) && db.State() == spec.0
    {
      var lost := Statement();
      if lost.Some? {
        return Err(Raw(lost.value)), Outside;
      }
      var cursor := Cursor(db.State());
      var found, unread := GetIdempotency(base, ch);
      if unread {
        return Err(Raw(OtherFailure)), NoFault;
      }
      if found.Some? {
        return Ok(found.value), NoFault;
      }
      var outcome;
      outcome, fault := Decide(base, ch, cursor);
      if outcome.Err? {
        return Err(outcome.error), fault;
      }
      ghost var applied := db.State();
      var put;
      put, lost := PutIdempotency(ch, outcome.value);
      if put.Err? {
        return Err(put.error), if lost.Some? then Outside else fault;
      }
      assert db.State() == applied.(receipts := db.receipts);
      r := Ok(Answer(outcome.value));
    }

    /** processChange: what the transaction decides is committed as a whole or not at all. */
    method ProcessChange(base: int, ch: Change) returns (reply: Reply, ghost fault: Fault)
      requires Inv(db.State())
      modifies db
      ensures (db.State(), reply) == Process(old(db.State()), device, base, ch, today, fault)
      ensures Inv(db.State())
    {
      var begun := db.State();
      var r, met := InTransaction(base, ch);
      fault := met;
      if r.Ok? {
        var lost := Statement();
        if lost.Some? {
          r, fault := Err(Raw(lost.value)), Outside;
        }
      }
      if r.Err? {
        db.Restore(begun);
        reply := Aborted;
      } else {
        reply := r.value;
      }
      SyncSafety.ProcessKeeps(begun, device, base, ch, today, fault);
    }
  }

  ghost predicate Decided(db: Db, device: Id, base: int, ch: Change, today: Day, fault: Fault, r: Result<Outcome>,
                          after: Db) {
    if base > Cursor(db) then r == Ok(Rejected(InvalidCursor, Cursor(db))) && after == db
    else if !ValidChange(ch) then r == Ok(Rejected(ValidationFailed, Cursor(db))) && after == db
    else
      match GuardedChange(db, device, ch, today, fault)
      case Ok(done) => r == Ok(done.1) && after == done.0
      case Err(f) =>
        match Guarded(f)
        case Raw(_) => r.Err?
        case Business(code, version) => Meets(r, after, BusinessOutcome(db, device, ch, code, version))
  }

  /** The first line that offends decides. */
  lemma {:induction false} FirstBatchError(rows: Rows, lines: seq<Line>, n: nat)
    requires n < |lines|
    requires BatchesError(rows, lines[..n + 1]).Some?
    ensures BatchesError(rows, lines) == BatchesError(rows, lines[..n + 1])
  {
    if |lines| == n + 1 {
      assert lines[..n + 1] == lines;
    } else {
      assert lines[..|lines| - 1][..n + 1] == lines[..n + 1];
      FirstBatchError(rows, lines[..|lines| - 1], n);
    }
  }
}
