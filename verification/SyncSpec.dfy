/** What one pushed change does to the tables, as a function: the specification of the sync service. */
module SyncSpec {
  import opened Types
  import opened Texts
  import opened Tables
  import opened Receipts
  import opened Ledger
  import opened Inventory

  // ---- validation

  predicate ValidLine(name: CommandName, line: Line) {
    line.quantity > 0 || (line.quantity == 0 && name == Discard)
  }

  /** validateChange */
  predicate ValidChange(ch: Change) {
    && ch.wellFormed
    && ValidKey(ch.key)
    && match ch.operation
       case Upsert(key, base, patch) =>
         base >= 0 && (key.kind == ProductBatches ==> patch.validDates && !patch.stockFields.QuantityField?)
       case Delete(key, base) => base >= 0
       case Inventory(name, _, _, lines, _, _) =>
         name != ConsumeFefo ==> lines != [] && forall i :: 0 <= i < |lines| ==> ValidLine(name, lines[i])
  }

  // ---- entities

  predicate Active(rows: Rows, key: Key) {
    key in rows && !rows[key].deleted
  }

  predicate HasParent(kind: Kind) {
    kind == Products || kind == ProductBatches || kind == ShoppingItems || kind == ReminderSettings
  }

  /** validateEntityDependencies */
  function DependencyError(rows: Rows, kind: Kind, patch: Patch): Option<Failure> {
    if !HasParent(kind) then None
    else if patch.parent.Keep? || patch.parent.value.NoParent? then
      if kind == ProductBatches then Some(Business(DependencyRequired, 0)) else None
    else match patch.parent.value.ref
      case Malformed => Some(Business(InvalidReference, 0))
      case Uuid(id, _) => if Active(rows, Key(ParentKind(kind), id)) then None
          else Some(Business(FamilyScopeViolation, 0))
  }

  function PatchedParent(kind: Kind, patch: Patch, current: Option<Id>): Option<Id> {
    if !HasParent(kind) || patch.parent.Keep? then current
    else match patch.parent.value
      case NoParent => None
      case Parent(ref) => if ref.Uuid? then Some(ref.id) else None
  }

  function PatchedExpiry(kind: Kind, patch: Patch, current: Option<Day>): Option<Day> {
    if kind == ProductBatches && patch.expiry.Replace? then patch.expiry.value else current
  }

  function Inserted(key: Key, patch: Patch): Row {
    Row(1, false, PatchedParent(key.kind, patch, None), PatchedExpiry(key.kind, patch, None), patch.columns, 0, 0,
        Status.Active)
  }

  /** buildUpdateSQL: named columns change, the row is undeleted, quantity and status are not touched. */
  function Updated(key: Key, row: Row, patch: Patch): Row {
    row.(version := row.version + 1,
         deleted := false,
         parent := PatchedParent(key.kind, patch, row.parent),
         expiry := PatchedExpiry(key.kind, patch, row.expiry),
         columns := row.columns + patch.columns)
  }

  /** lookupMutationConflict and classifyMutationFailure */
  function MutationConflict(db: Db, key: Key): Failure {
    if key in db.foreign then Business(FamilyScopeViolation, 0)
    else Business(VersionConflict, VersionOf(db.rows, key))
  }

  /** Kinds whose table has a name column, and the longest name it takes. */
  function NameLimit(kind: Kind): nat {
    match kind
    case Categories => 120
    case Products => 255
    case ShoppingItems => 255
    case _ => 0
  }

  /** validateRequiredPayload */
  predicate Complete(kind: Kind, patch: Patch) {
    && (NameLimit(kind) > 0 ==> Trim(NameOf(patch.columns)) != "")
    && (kind == ProductBatches ==> patch.parent.Replace? && patch.parent.value.Parent?)
  }

  /** Whether the statement can store the named columns: casts, NOT NULL and CHECK constraints. */
  predicate Storable(kind: Kind, patch: Patch, inserting: bool) {
    && (if inserting then patch.insertable else patch.updatable)
    && (NameLimit(kind) > 0 && "name" in patch.columns ==> 1 <= |patch.columns["name"]| <= NameLimit(kind))
  }

  /** What the constraints make of the row the statement would write. */
  function Stored(rows: Rows, key: Key, row: Row, storable: bool): Result<Row> {
    if !storable then Err(Raw(InvalidData))
    else if Taken(rows, key, row) then Err(Raw(UniqueViolation))
    else Ok(row)
  }

  function UpsertRow(db: Db, key: Key, base: int, patch: Patch): Result<Row> {
    if key.kind == OtherEntity then Err(Business(UnsupportedEntity, 0))
    else if key.kind == ProductBatches && !patch.stockFields.NoStockField?
        then Err(Business(InventoryCommandRequired, 0))
    else if key.kind == ProductBatches && !patch.validDates then Err(Business(ValidationFailed, 0))
    else if base == 0 && !Complete(key.kind, patch) then Err(Business(ValidationFailed, 0))
    else match DependencyError(db.rows, key.kind, patch)
      case Some(e) => Err(e)
      case None =>
        if base == 0 then
          if key in db.rows || key in db.foreign then Err(MutationConflict(db, key))
          else Stored(db.rows, key, Inserted(key, patch), Storable(key.kind, patch, true))
        else if key in db.rows && db.rows[key].version == base
            then Stored(db.rows, key, Updated(key, db.rows[key], patch), Storable(key.kind, patch, false))
        else Err(MutationConflict(db, key))
  }

  function DeleteRow(db: Db, key: Key, base: int): Result<Row> {
    if key.kind == OtherEntity then Err(Business(UnsupportedEntity, 0))
    else if key in db.rows && db.rows[key].version == base
    then Ok(db.rows[key].(version := base + 1, deleted := true))
    else Err(MutationConflict(db, key))
  }

  // ---- inventory commands

  /** validateInventoryDependencies, batch part: the first offending line decides. */
  function BatchesError(rows: Rows, lines: seq<Line>): Option<Failure> {
    if lines == [] then None
    else
      var front, last := lines[..|lines| - 1], lines[|lines| - 1];
      match BatchesError(rows, front)
      case Some(e) => Some(e)
      case None =>
        if last.batch.Malformed? then Some(Business(InvalidBatch, 0))
        else if exists i :: 0 <= i < |front| && front[i].batch == last.batch then Some(Business(ValidationFailed, 0))
        else if !Active(rows, BatchKey(last.batch.id)) then Some(Business(FamilyScopeViolation, 0))
        else None
  }

  function ReferenceError(rows: Rows, op: Operation): Option<Failure>
    requires op.Inventory?
  {
    if op.name == ConsumeFefo then
      if op.product.Malformed? then Some(Business(InvalidProduct, 0))
      else if !Active(rows, Key(Products, op.product.id)) then Some(Business(FamilyScopeViolation, 0))
      else None
    else BatchesError(rows, op.lines)
  }

  function ToCommand(device: Id, ch: Change): Command
    requires ch.operation.Inventory?
  {
    var op := ch.operation;
    var single := (op.name == Restock || op.name == Discard) && |op.lines| == 1;
    Command(op.name, op.operation, device,
            IdOf(op.product),
            if single then op.lines[0].batch else Malformed,
            if op.name == ConsumeFefo then op.quantity else if single then op.lines[0].quantity else 0,
            if op.name == ConsumeAllocated then op.lines else [])
  }

  /** ExecuteInventoryCommand up to its last check. */
  function CommandResult(db: Db, device: Id, ch: Change, today: Day): Result<seq<Allocation>>
    requires ch.operation.Inventory?
  {
    var op := ch.operation;
    if (op.name == Restock || op.name == Discard) && |op.lines| != 1 then Err(Business(ValidationFailed, 0))
    else match ReferenceError(db.rows, op)
      case Some(e) => Err(e)
      case None => Executed(db.rows, db.records, ToCommand(device, ch), today)
  }

  // ---- outcomes

  predicate HasConflict(conflicts: seq<Conflict>, device: Id, change: ChangeId) {
    exists i :: 0 <= i < |conflicts| && conflicts[i].device == device && conflicts[i].change == change
  }

  /** A conflict row needs an entity id, and a device has at most one conflict for a change id. */
  function RecordConflict(db: Db, device: Id, ch: Change, reason: Code, serverVersion: int): Result<Db> {
    if ch.operation.Inventory? && ch.operation.entity.None? then Err(Raw(InvalidData))
    else if HasConflict(db.conflicts, device, ch.id) then Err(Raw(UniqueViolation))
    else Ok(db.(conflicts := db.conflicts + [Conflict(device, ch.id, ch.operation, reason, serverVersion, true)]))
  }

  /** businessOutcomeOrError */
  function BusinessOutcome(db: Db, device: Id, ch: Change, code: Code, serverVersion: int): Result<(Db, Outcome)> {
    if code == VersionConflict || code == FamilyScopeViolation then
      match RecordConflict(db, device, ch, code, serverVersion)
      case Err(e) => Err(e)
      case Ok(db') => Ok((db', Conflicted(code, serverVersion, Cursor(db))))
    else Ok((db, Rejected(code, Cursor(db))))
  }

  /** The entity's version as GetEntity reports it: 0 when there is no such row. */
  function CurrentVersion(db: Db, key: Key): int {
    if key.kind == OtherEntity then 0 else VersionOf(db.rows, key)
  }

  function PublishRow(db: Db, key: Key, row: Row, change: ChangeId): Result<(Db, Outcome)> {
    if Logged(db.log, change) then Err(Raw(UniqueViolation))
    else Ok((Publish(db, key, row, change), Accepted(row.version, db.sequence + 1)))
  }

  function AppliedEntity(db: Db, device: Id, ch: Change): Result<(Db, Outcome)>
    requires !ch.operation.Inventory?
  {
    var key, base := ch.operation.key, ch.operation.baseVersion;
    var current := CurrentVersion(db, key);
    if base != current then
      match RecordConflict(db, device, ch, VersionConflict, current)
      case Err(e) => Err(e)
      case Ok(db') => Ok((db', Conflicted(VersionConflict, current, Cursor(db))))
    else
      match (if ch.operation.Upsert? then UpsertRow(db, key, base, ch.operation.patch) else DeleteRow(db, key, base))
      case Err(Business(code, version)) => BusinessOutcome(db, device, ch, code, version)
      case Err(Raw(state)) => Err(Raw(state))
      case Ok(row) => PublishRow(db, key, row, ch.id)
  }

  /** The tables after an accepted command: stock moved, records appended, every allocation published. */
  function StockPublished(db: Db, c: Command, plan: seq<Allocation>, change: ChangeId): Db {
    db.(rows := ShiftAll(db.rows, ShiftsOf(ChangesOf(c.name, plan))),
        records := db.records + NotesOf(c, plan),
        log := db.log + [StockEntry(db.sequence + 1, change, Report(FinishAll(c.name, plan)))],
        sequence := db.sequence + 1)
  }

  /** The allocations of the service, as the log publishes them. */
  function Report(allocations: seq<Allocation>): seq<Settled> {
    seq(|allocations|, i requires 0 <= i < |allocations| =>
      var a := allocations[i];
      Settled(IdOf(a.batch), a.quantity, a.before, a.final, a.beforeVersion, a.afterVersion))
  }

  function AppliedCommand(db: Db, device: Id, ch: Change, today: Day): Result<(Db, Outcome)>
    requires ch.operation.Inventory?
  {
    match CommandResult(db, device, ch, today)
    case Err(Business(code, version)) => BusinessOutcome(db, device, ch, code, version)
    case Err(Raw(state)) => Err(Raw(state))
    case Ok(_) =>
      var c := ToCommand(device, ch);
      PublishCommand(db, c, Plan(db.rows, c, today).value, ch.id)
  }

  function PublishCommand(db: Db, c: Command, plan: seq<Allocation>, change: ChangeId): Result<(Db, Outcome)> {
    if Logged(db.log, change) then Err(Raw(UniqueViolation))
    else Ok((StockPublished(db, c, plan, change),
             Accepted(FirstVersion(Report(FinishAll(c.name, plan))), db.sequence + 1)))
  }

  /** The version that ExecuteInventoryCommand reports: that of the first allocation's batch. */
  function FirstVersion(allocations: seq<Settled>): int {
    if allocations == [] then 0 else allocations[0].afterVersion
  }

  function Applied(db: Db, device: Id, ch: Change, today: Day): Result<(Db, Outcome)> {
    if ch.operation.Inventory? then AppliedCommand(db, device, ch, today) else AppliedEntity(db, device, ch)
  }

  // ---- the change guard and the transaction

  /** WithinChange, error mapping after the rollback to the savepoint. */
  function Guarded(f: Failure): Failure {
    match f
    case Business(_, _) => f
    case Raw(UniqueViolation) => Business(VersionConflict, 0)
    case Raw(ForeignKeyViolation) => Business(VersionConflict, 0)
    case Raw(InvalidData) => Business(ValidationFailed, 0)
    case Raw(OtherFailure) => f
  }

  /** What the database does wrong while a change is processed: nothing, a failed statement within the
      guarded part, or a failure outside it (the receipt, a read before it, the commit). */
  datatype Fault = NoFault | InChange(state: SqlState) | Outside

  /** PutIdempotency; the key must satisfy the length constraint of its column. */
  function Concluded(before: Db, after: Db, device: Id, ch: Change, outcome: Outcome): (Db, Reply) {
    if !StorableKey(ch.key) then (before, Aborted)
    else
      var k := ReceiptKey(device, ch.key);
      (after.(receipts := after.receipts[k := Receipt(device, OfTables(ch), outcome)]), Answer(outcome))
  }

  function Recovered(db: Db, device: Id, ch: Change, f: Failure): (Db, Reply) {
    match Guarded(f)
    case Raw(_) => (db, Aborted)
    case Business(code, version) =>
      match BusinessOutcome(db, device, ch, code, version)
      case Err(_) => (db, Aborted)
      case Ok(done) => Concluded(db, done.0, device, ch, done.1)
  }

  /** What WithinChange is handed: the applied change, or the failure of one of its statements. */
  function GuardedChange(db: Db, device: Id, ch: Change, today: Day, fault: Fault): Result<(Db, Outcome)> {
    if fault.InChange? then Err(Raw(fault.state)) else Applied(db, device, ch, today)
  }

  /** processChange */
  function Process(db: Db, device: Id, baseCursor: int, ch: Change, today: Day, fault: Fault): (Db, Reply) {
    var found := Lookup(db.receipts, device, OfTables(ch), baseCursor, Cursor(db));
    if fault.Outside? || !Readable(ch.key) then (db, Aborted)
    else if found.Some? then (db, found.value)
    else if baseCursor > Cursor(db) then Concluded(db, db, device, ch, Rejected(InvalidCursor, Cursor(db)))
    else if !ValidChange(ch) then Concluded(db, db, device, ch, Rejected(ValidationFailed, Cursor(db)))
    else
      match GuardedChange(db, device, ch, today, fault)
      case Err(f) => Recovered(db, device, ch, f)
      case Ok(done) => Concluded(db, done.0, device, ch, done.1)
  }
}
