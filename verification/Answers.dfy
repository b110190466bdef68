/** What every pushed change is answered, as tables over the stored rows: the independent definition that the
    functions of the specification, and with them the code, are measured by. */
module Answers {
  import opened Types
  import opened Texts
  import opened Tables
  import opened Receipts
  import opened Ledger
  import opened Database
  import opened Inventory
  import opened SyncSpec
  import SyncSafety
  import Replies
  import Fefo
  import Plans

  // ---- how a change may end

  datatype Verdict =
    | Accepts
    | Rejects(code: Code)
    | Collides(code: Code, serverVersion: int)   // a conflict, which has to be recorded
    | Breaks                                     // an error of the whole push

  /** A conflict row needs an entity id, and a device has at most one conflict for a change id. */
  predicate Recordable(db: Db, device: Id, ch: Change) {
    && (ch.operation.Inventory? ==> ch.operation.entity.Some?)
    && forall i :: 0 <= i < |db.conflicts| ==> db.conflicts[i].device != device || db.conflicts[i].change != ch.id
  }

  predicate Ends(db: Db, device: Id, ch: Change, done: (Db, Reply), v: Verdict) {
    match v
    case Accepts => done.1.Answer? && done.1.outcome.Accepted?
    case Rejects(code) => done.1 == Answer(Rejected(code, Cursor(db)))
    case Breaks => done == (db, Aborted)
    case Collides(code, version) =>
      if !Recordable(db, device, ch) then done == (db, Aborted)
      else
        && done.1 == Answer(Conflicted(code, version, Cursor(db)))
        && done.0.conflicts == db.conflicts + [Conflict(device, ch.id, ch.operation, code, version, true)]
  }

  /** A new change under a key that its column takes, based on a cursor that the server has reached. */
  predicate IsNew(db: Db, device: Id, base: int, ch: Change) {
    && ReceiptKey(device, ch.key) !in db.receipts && base <= Cursor(db)
    && 16 <= |ch.key| <= 255 && '\0' !in ch.key
  }

  predicate Used(log: seq<Entry>, change: ChangeId) {
    exists i :: 0 <= i < |log| && log[i].change == change
  }

  /** A row that is not deleted. */
  predicate Live(rows: Rows, key: Key) {
    key in rows && !rows[key].deleted
  }

  /** What the change guard, and the recovery behind it, make of a failure. */
  function OfFailure(f: Failure): Verdict {
    match f
    case Business(VersionConflict, version) => Collides(VersionConflict, version)
    case Business(FamilyScopeViolation, version) => Collides(FamilyScopeViolation, version)
    case Business(code, _) => Rejects(code)
    case Raw(UniqueViolation) => Collides(VersionConflict, 0)
    case Raw(ForeignKeyViolation) => Collides(VersionConflict, 0)
    case Raw(InvalidData) => Rejects(ValidationFailed)
    case Raw(OtherFailure) => Breaks
  }

  lemma FailureEnds(db: Db, device: Id, base: int, ch: Change, today: Day, f: Failure)
    requires IsNew(db, device, base, ch) && ValidChange(ch) && Applied(db, device, ch, today) == Err(f)
    ensures Ends(db, device, ch, Process(db, device, base, ch, today, NoFault), OfFailure(f))
  {
    Replies.GuardedReply(db, device, base, ch, today, f);
  }

  lemma OutcomeEnds(db: Db, device: Id, base: int, ch: Change, today: Day)
    requires IsNew(db, device, base, ch) && ValidChange(ch) && Applied(db, device, ch, today).Ok?
    ensures Process(db, device, base, ch, today, NoFault).1 == Answer(Applied(db, device, ch, today).value.1)
    ensures Process(db, device, base, ch, today, NoFault).0.conflicts ==
            Applied(db, device, ch, today).value.0.conflicts
  {
    Replies.AppliedReply(db, device, base, ch, today);
  }

  // ---- entity changes

  /** The text checks of an entity change. */
  predicate WellMade(ch: Change)
    requires !ch.operation.Inventory?
  {
    && ch.wellFormed && 16 <= Bytes(ch.key) <= 255 && ch.operation.baseVersion >= 0
    && (ch.operation.Upsert? && ch.operation.key.kind == ProductBatches ==>
          ch.operation.patch.validDates && !ch.operation.patch.stockFields.QuantityField?)
  }

  predicate Named(kind: Kind) {
    kind == Categories || kind == Products || kind == ShoppingItems
  }

  /** Products stand under categories; batches, shopping items and reminders under products. */
  predicate Child(kind: Kind) {
    kind == Products || kind == ProductBatches || kind == ShoppingItems || kind == ReminderSettings
  }

  /** The patch names a parent. */
  predicate Names(patch: Patch) {
    patch.parent.Replace? && patch.parent.value.Parent?
  }

  predicate ParentLives(rows: Rows, kind: Kind, patch: Patch)
    requires Names(patch) && patch.parent.value.ref.Uuid?
  {
    Live(rows, Key(if kind == Products then Categories else Products, patch.parent.value.ref.id))
  }

  /** The columns take the patch: casts and constraints, and a name of 1 to 120 or 255 characters. */
  predicate FitsColumns(kind: Kind, patch: Patch, inserting: bool) {
    && (if inserting then patch.insertable else patch.updatable)
    && (Named(kind) && "name" in patch.columns ==>
          1 <= |patch.columns["name"]| <= if kind == Categories then 120 else 255)
  }

  function NameAfter(rows: Rows, key: Key, patch: Patch): string {
    if "name" in patch.columns then patch.columns["name"]
    else if key in rows && "name" in rows[key].columns then rows[key].columns["name"]
    else ""
  }

  function ParentAfter(rows: Rows, key: Key, patch: Patch): Option<Id> {
    if patch.parent.Replace?
    then if Names(patch) && patch.parent.value.ref.Uuid? then Some(patch.parent.value.ref.id) else None
    else if key in rows then rows[key].parent else None
  }

  /** The unique indexes: names of active categories without regard to case, scopes of active reminders. */
  predicate InUse(rows: Rows, key: Key, patch: Patch) {
    exists k :: k in rows && k != key && k.kind == key.kind && !rows[k].deleted
                && ((key.kind == Categories
                     && Lower(if "name" in rows[k].columns then rows[k].columns["name"] else "")
                        == Lower(NameAfter(rows, key, patch)))
                    || (key.kind == ReminderSettings && rows[k].parent == ParentAfter(rows, key, patch)))
  }

  /** Why an upsert on the current version (0 for a new row) is refused. */
  function UpsertRefusal(db: Db, key: Key, base: int, patch: Patch): Option<Failure> {
    if key.kind == OtherEntity then Some(Business(UnsupportedEntity, 0))
    else if key.kind == ProductBatches && patch.stockFields != NoStockField
    then Some(Business(InventoryCommandRequired, 0))
    else if key.kind == ProductBatches && !patch.validDates then Some(Business(ValidationFailed, 0))
    else if base == 0 && Named(key.kind) && ("name" !in patch.columns || Trim(patch.columns["name"]) == "")
    then Some(Business(ValidationFailed, 0))
    else if base == 0 && key.kind == ProductBatches && !Names(patch) then Some(Business(ValidationFailed, 0))
    else if key.kind == ProductBatches && !Names(patch) then Some(Business(DependencyRequired, 0))
    else if Child(key.kind) && Names(patch) && patch.parent.value.ref.Malformed?
    then Some(Business(InvalidReference, 0))
    else if Child(key.kind) && Names(patch) && !ParentLives(db.rows, key.kind, patch)
    then Some(Business(FamilyScopeViolation, 0))
    else if base == 0 && key in db.foreign then Some(Business(FamilyScopeViolation, 0))
    else if !FitsColumns(key.kind, patch, base == 0) then Some(Raw(InvalidData))
    else if InUse(db.rows, key, patch) then Some(Raw(UniqueViolation))
    else None
  }

  /** The empty text is blank. */
  lemma NothingToTrim()
    ensures Trim("") == ""
  {
  }

  lemma InUseIsClash(db: Db, key: Key, patch: Patch)
    requires key.kind == Categories || key.kind == ReminderSettings
    requires Names(patch) && HasParent(key.kind) ==> patch.parent.value.ref.Uuid?
    ensures InUse(db.rows, key, patch) <==> Replies.Clashes(db, key, patch)
  {
  }

  lemma NoIndex(db: Db, key: Key, patch: Patch)
    requires key.kind != Categories && key.kind != ReminderSettings
    ensures !InUse(db.rows, key, patch) && !Replies.Clashes(db, key, patch)
  {
  }

  lemma ClashIsInUse(db: Db, key: Key, patch: Patch)
    requires Names(patch) && HasParent(key.kind) ==> patch.parent.value.ref.Uuid?
    ensures InUse(db.rows, key, patch) <==> Replies.Clashes(db, key, patch)
  {
    if key.kind == Categories || key.kind == ReminderSettings {
      InUseIsClash(db, key, patch);
    } else {
      NoIndex(db, key, patch);
    }
  }

  lemma UpsertRefusalIs(db: Db, key: Key, base: int, patch: Patch)
    requires Inv(db) && base == CurrentVersion(db, key)
    ensures UpsertRefusal(db, key, base, patch) ==
              match UpsertRow(db, key, base, patch) case Ok(_) => None case Err(f) => Some(f)
  {
    NothingToTrim();
    assert key in db.rows ==> SoundRow(key, db.rows[key]);
    if Names(patch) && HasParent(key.kind) ==> patch.parent.value.ref.Uuid? {
      ClashIsInUse(db, key, patch);
    }
  }

  function EntityVerdict(db: Db, ch: Change): Verdict
    requires !ch.operation.Inventory?
  {
    var key, base := ch.operation.key, ch.operation.baseVersion;
    var current := if key.kind != OtherEntity && key in db.rows then db.rows[key].version else 0;
    if !WellMade(ch) then Rejects(ValidationFailed)
    else if base != current then Collides(VersionConflict, current)
    else if ch.operation.Upsert? then
      var refusal := UpsertRefusal(db, key, base, ch.operation.patch);
      if refusal.Some? then OfFailure(refusal.value)
      else if Used(db.log, ch.id) then Collides(VersionConflict, 0)
      else Accepts
    else if key.kind == OtherEntity then Rejects(UnsupportedEntity)
    else if key !in db.rows then Collides(if key in db.foreign then FamilyScopeViolation else VersionConflict, 0)
    else if Used(db.log, ch.id) then Collides(VersionConflict, 0)
    else Accepts
  }

  /** Every new entity change is answered as the table says. */
  lemma EntityAnswer(db: Db, device: Id, base: int, ch: Change, today: Day)
    requires Inv(db) && IsNew(db, device, base, ch) && !ch.operation.Inventory?
    ensures Ends(db, device, ch, Process(db, device, base, ch, today, NoFault), EntityVerdict(db, ch))
  {
    assert WellMade(ch) <==> ValidChange(ch);
    if WellMade(ch) {
      EntityApplied(db, device, ch, today);
      ShownEnds(db, device, base, ch, today, EntityVerdict(db, ch));
    } else {
      Replies.InvalidChangeReply(db, device, base, ch, today);
    }
  }

  /** The applied change, before its receipt, in the terms of the verdict. */
  predicate Shows(db: Db, device: Id, ch: Change, applied: Result<(Db, Outcome)>, v: Verdict) {
    match applied
    case Err(f) =>
      OfFailure(f) == v || (v.Collides? && OfFailure(f).Collides? && !Recordable(db, device, ch))
    case Ok(done) =>
      match v
      case Accepts => done.1.Accepted?
      case Rejects(code) => done.1 == Rejected(code, Cursor(db))
      case Breaks => false
      case Collides(code, version) =>
        && Recordable(db, device, ch) && done.1 == Conflicted(code, version, Cursor(db))
        && done.0.conflicts == db.conflicts + [Conflict(device, ch.id, ch.operation, code, version, true)]
  }

  lemma EntityApplied(db: Db, device: Id, ch: Change, today: Day)
    requires Inv(db) && ValidChange(ch) && !ch.operation.Inventory?
    ensures Shows(db, device, ch, Applied(db, device, ch, today), EntityVerdict(db, ch))
  {
    var key, base := ch.operation.key, ch.operation.baseVersion;
    assert key in db.rows ==> SoundRow(key, db.rows[key]);
    if base == CurrentVersion(db, key) {
      if ch.operation.Upsert? {
        UpsertRefusalIs(db, key, base, ch.operation.patch);
        OutcomeShows(db, device, ch, UpsertRow(db, key, base, ch.operation.patch));
      } else {
        OutcomeShows(db, device, ch, DeleteRow(db, key, base));
      }
    }
  }

  /** What becomes of the row or the error of an entity change. */
  lemma OutcomeShows(db: Db, device: Id, ch: Change, r: Result<Row>)
    requires !ch.operation.Inventory? && ch.operation.baseVersion == CurrentVersion(db, ch.operation.key)
    requires r == if ch.operation.Upsert?
             then UpsertRow(db, ch.operation.key, ch.operation.baseVersion, ch.operation.patch)
                  else DeleteRow(db, ch.operation.key, ch.operation.baseVersion)
    ensures Shows(db, device, ch, AppliedEntity(db, device, ch),
                  match r case Err(f) => OfFailure(f)
                  case Ok(_) => if Used(db.log, ch.id) then Collides(VersionConflict, 0) else Accepts)
  {
  }

  // ---- inventory commands

  /** The text checks of a command: lines for all but a FEFO consumption, of positive amounts (0 for a discard). */
  predicate CommandMade(ch: Change)
    requires ch.operation.Inventory?
  {
    var op := ch.operation;
    && ch.wellFormed && 16 <= Bytes(ch.key) <= 255
    && (op.name != ConsumeFefo ==>
          && op.lines != []
          && forall i :: 0 <= i < |op.lines| ==>
               op.lines[i].quantity > 0 || (op.lines[i].quantity == 0 && op.name == Discard))
  }

  /** A reference that leaves the family: a conflict, for which a command needs an entity id. */
  function Outside(op: Operation): Verdict
    requires op.Inventory?
  {
    if op.entity.None? then Rejects(ValidationFailed) else Collides(FamilyScopeViolation, 0)
  }

  /** The device has a record of this operation for the batch; another spelling is another operation. */
  predicate RecordedFor(records: seq<Record>, device: Id, operation: OperationRef, batch: Id) {
    exists i :: 0 <= i < |records| && records[i].batch == batch && records[i].operation == operation
                && records[i].device == Some(device)
  }

  /** A command whose stock can be moved: what the records and the log still say. */
  function Closing(db: Db, ch: Change, recorded: bool): Verdict
    requires ch.operation.Inventory?
  {
    if ch.operation.operation.OperationText? then Rejects(ValidationFailed)
    else if recorded || Used(db.log, ch.id) then Collides(VersionConflict, 0)
    else Accepts
  }

  /** Restock and discard: one batch, whatever its day. A discard takes all that is left. */
  function SingleVerdict(db: Db, device: Id, ch: Change): Verdict
    requires ch.operation.Inventory?
  {
    var op := ch.operation;
    if |op.lines| != 1 then Rejects(ValidationFailed)
    else if op.lines[0].batch.Malformed? then Rejects(InvalidBatch)
    else
      var id, amount := op.lines[0].batch.id, op.lines[0].quantity;
      var key := BatchKey(id);
      if !Live(db.rows, key) then Outside(op)
      else
        var row := db.rows[key];
        if row.status != Status.Active && row.status != UsedUp then Rejects(BatchUnavailable)
        else if op.name == Discard && amount > row.quantity then Rejects(InsufficientStock)
        else if op.name == Discard && amount < row.quantity then Rejects(ValidationFailed)
        else if op.name == Restock && row.initial + amount > 0x7fff_ffff then Rejects(ValidationFailed)
        else Closing(db, ch, RecordedFor(db.records, device, op.operation, id))
  }

  /** A FEFO consumption: an active product and a quantity that its usable stock covers. */
  ghost function FefoVerdict(db: Db, device: Id, ch: Change, today: Day): Verdict
    requires ch.operation.Inventory?
  {
    var op := ch.operation;
    if op.product.Malformed? then Rejects(InvalidProduct)
    else if !Live(db.rows, Key(Products, op.product.id)) then Outside(op)
    else if op.quantity < 1 then Rejects(ValidationFailed)
    else if !Plans.Coverable(db.rows, op.product.id, op.quantity, today) then Rejects(InsufficientStock)
    else Closing(db, ch, exists parts :: RecordedPlan(db, device, op, today, parts))
  }

  /** The plan for the quantity draws from a batch for which the operation is recorded. */
  ghost predicate RecordedPlan(db: Db, device: Id, op: Operation, today: Day, parts: seq<Plans.Part>)
    requires op.Inventory? && op.product.Uuid?
  {
    && Plans.RowPlan(db.rows, op.product.id, op.quantity, today, parts)
    && exists i :: 0 <= i < |parts| && RecordedFor(db.records, device, op.operation, parts[i].batch)
  }

  /** A line whose batch cannot be referred to: no UUID, a text that an earlier line has, or no live batch. */
  predicate BadReference(rows: Rows, lines: seq<Line>, n: nat)
    requires n < |lines|
  {
    || lines[n].batch.Malformed?
    || (exists j :: 0 <= j < n && lines[j].batch == lines[n].batch)
    || !Live(rows, BatchKey(lines[n].batch.id))
  }

  ghost predicate FirstBadReference(rows: Rows, lines: seq<Line>, n: nat) {
    n < |lines| && BadReference(rows, lines, n) && forall j :: 0 <= j < n ==> !BadReference(rows, lines, j)
  }

  /** The batch is discarded or expired by status, or has too little. */
  predicate Short(rows: Rows, line: Line) {
    && line.batch.Uuid? && BatchKey(line.batch.id) in rows
    && var row := rows[BatchKey(line.batch.id)];
       (row.status != Status.Active && row.status != UsedUp) || row.quantity < line.quantity
  }

  predicate PastItsDay(rows: Rows, line: Line, today: Day) {
    && line.batch.Uuid? && BatchKey(line.batch.id) in rows
    && var row := rows[BatchKey(line.batch.id)]; row.expiry.Some? && row.expiry.value < today
  }

  predicate BadStock(rows: Rows, line: Line, today: Day) {
    Short(rows, line) || PastItsDay(rows, line, today)
  }

  ghost predicate FirstBadStock(rows: Rows, lines: seq<Line>, n: nat, today: Day) {
    n < |lines| && BadStock(rows, lines[n], today) && forall j :: 0 <= j < n ==> !BadStock(rows, lines[j], today)
  }

  predicate SpelledOtherwise(line: Line) {
    line.batch.Uuid? && line.batch.spelling != 0
  }

  predicate RecordedLine(records: seq<Record>, device: Id, operation: OperationRef, line: Line) {
    line.batch.Uuid? && RecordedFor(records, device, operation, line.batch.id)
  }

  /** A consumption of allocated batches: the first line with a bad reference decides; then the first whose batch
      has too little, or is past its day; then the spelling of the batch ids. */
  ghost function AllocatedVerdict(db: Db, device: Id, ch: Change, today: Day): Verdict
    requires ch.operation.Inventory?
  {
    var op := ch.operation;
    var rows, lines := db.rows, op.lines;
    if n: nat :| FirstBadReference(rows, lines, n) then
      if lines[n].batch.Malformed? then Rejects(InvalidBatch)
      else if exists j :: 0 <= j < n && lines[j].batch == lines[n].batch then Rejects(ValidationFailed)
      else Outside(op)
    else if n: nat :| FirstBadStock(rows, lines, n, today) then
      if Short(rows, lines[n]) then Rejects(InsufficientStock) else Rejects(BatchUnavailable)
    else if exists i :: 0 <= i < |lines| && SpelledOtherwise(lines[i]) then Breaks
    else Closing(db, ch, exists i :: 0 <= i < |lines| && RecordedLine(db.records, device, op.operation, lines[i]))
  }

  lemma {:induction false} NoneBad(rows: Rows, lines: seq<Line>)
    requires forall n: nat :: !FirstBadReference(rows, lines, n)
    ensures forall j :: 0 <= j < |lines| ==> !BadReference(rows, lines, j)
  {
    var n := 0;
    while n < |lines|
      invariant n <= |lines| && forall j :: 0 <= j < n ==> !BadReference(rows, lines, j)
    {
      assert !FirstBadReference(rows, lines, n);
      n := n + 1;
    }
  }

  ghost function CommandVerdict(db: Db, device: Id, ch: Change, today: Day): Verdict
    requires ch.operation.Inventory?
  {
    if !CommandMade(ch) then Rejects(ValidationFailed)
    else match ch.operation.name
      case ConsumeFefo => FefoVerdict(db, device, ch, today)
      case ConsumeAllocated => AllocatedVerdict(db, device, ch, today)
      case _ => SingleVerdict(db, device, ch)
  }

  /** What the command's result and the log make of the answer. */
  function OfResult(op: Operation, r: Result<seq<Allocation>>, used: bool): Verdict
    requires op.Inventory?
  {
    match r
    case Err(Business(FamilyScopeViolation, _)) => Outside(op)
    case Err(f) => OfFailure(f)
    case Ok(_) => if used then Collides(VersionConflict, 0) else Accepts
  }

  /** Errors of a command: a reference outside the family is the only conflict among them. */
  predicate Orderly(r: Result<seq<Allocation>>) {
    r.Err? && r.error.Business? ==>
      r.error.code != VersionConflict && (r.error.code == FamilyScopeViolation ==> r.error.serverVersion == 0)
  }

  lemma FailedCommandShows(db: Db, device: Id, ch: Change, f: Failure, today: Day)
    requires ch.operation.Inventory? && CommandResult(db, device, ch, today) == Err(f) && Orderly(Err(f))
    ensures Shows(db, device, ch, AppliedCommand(db, device, ch, today), OfResult(ch.operation, Err(f), false))
  {
    assert HasConflict(db.conflicts, device, ch.id) || ch.operation.entity.None? <==> !Recordable(db, device, ch);
    match f
    case Raw(_) =>
    case Business(code, version) =>
      assert AppliedCommand(db, device, ch, today) == BusinessOutcome(db, device, ch, code, version);
  }

  lemma CommandShows(db: Db, device: Id, ch: Change, today: Day)
    requires ch.operation.Inventory? && Orderly(CommandResult(db, device, ch, today))
    ensures Shows(db, device, ch, AppliedCommand(db, device, ch, today),
                  OfResult(ch.operation, CommandResult(db, device, ch, today), Used(db.log, ch.id)))
  {
    var r := CommandResult(db, device, ch, today);
    if r.Err? {
      FailedCommandShows(db, device, ch, r.error, today);
    } else {
      Replies.PublishedResult(db, device, ch, today);
    }
  }

  // ---- restock and discard

  lemma OneReference(rows: Rows, lines: seq<Line>)
    requires |lines| == 1
    ensures BatchesError(rows, lines) ==
              if lines[0].batch.Malformed? then Some(Business(InvalidBatch, 0))
              else if !Live(rows, BatchKey(lines[0].batch.id)) then Some(Business(FamilyScopeViolation, 0))
              else None
  {
    assert lines[..0] == [];
    assert BatchesError(rows, []) == None;
  }

  /** The obstacles of a plan over one canonical batch. */
  lemma OneObstacle(db: Db, device: Id, ch: Change, row: Row, amount: int)
    requires ch.operation.Inventory? && |ch.operation.lines| == 1 && ch.operation.lines[0].batch.Uuid?
    requires ch.operation.name == Restock || ch.operation.name == Discard
    requires BatchKey(ch.operation.lines[0].batch.id) in db.rows
    requires row == db.rows[BatchKey(ch.operation.lines[0].batch.id)]
             && SoundRow(BatchKey(ch.operation.lines[0].batch.id), row)
    requires amount >= 0
    ensures var id := ch.operation.lines[0].batch.id;
            var c := ToCommand(device, ch);
            Obstacle(db.rows, db.records, c, [Planned(Uuid(id, 0), amount, row)]) ==
              if ch.operation.name == Restock && row.initial + amount > 0x7fff_ffff then Some(InvalidData)
              else if ch.operation.operation.OperationText? then Some(InvalidData)
              else if RecordedFor(db.records, device, ch.operation.operation, id) then Some(UniqueViolation)
              else None
  {
    var id := ch.operation.lines[0].batch.id;
    var c := ToCommand(device, ch);
    var plan := [Planned(Uuid(id, 0), amount, row)];
    assert plan[0].batch == Uuid(id, 0);
    assert NoteOf(c, plan[0]) == Record(id, QuantityDelta(c.name, amount), ch.operation.operation, Some(device));
    assert AlreadyRecorded(db.records, NoteOf(c, plan[0])) <==>
        RecordedFor(db.records, device, ch.operation.operation, id);
    assert Fits(db.rows, ShiftOf(ChangeOf(c.name, plan[0]))) <==>
        !(ch.operation.name == Restock && row.initial + amount > 0x7fff_ffff);
  }

  lemma SingleResult(db: Db, device: Id, ch: Change, today: Day)
    requires Inv(db) && ch.operation.Inventory? && CommandMade(ch)
    requires ch.operation.name == Restock || ch.operation.name == Discard
    ensures OfResult(ch.operation, CommandResult(db, device, ch, today), Used(db.log, ch.id)) ==
            SingleVerdict(db, device, ch)
    ensures Orderly(CommandResult(db, device, ch, today))
  {
    var op := ch.operation;
    if |op.lines| == 1 {
      OneReference(db.rows, op.lines);
      if op.lines[0].batch.Uuid? && Live(db.rows, BatchKey(op.lines[0].batch.id)) {
        var key := BatchKey(op.lines[0].batch.id);
        assert SoundRow(key, db.rows[key]);
        OneObstacle(db, device, ch, db.rows[key], op.lines[0].quantity);
      }
    }
  }

  // ---- FEFO consumption

  /** A take out of a stored batch fits its columns, and its record is the one looked for. */
  lemma TakeFits(db: Db, device: Id, ch: Change, today: Day, takes: seq<Fefo.Take>, i: nat)
    requires Inv(db) && ch.operation.Inventory? && ch.operation.name == ConsumeFefo && i < |takes|
    requires AllocationHolds(db.rows, ConsumeFefo, FromTakes(takes)[i])
    ensures var c, a := ToCommand(device, ch), FromTakes(takes)[i];
            && Canonical(a.batch) && Fits(db.rows, ShiftOf(ChangeOf(c.name, a)))
            && (AlreadyRecorded(db.records, NoteOf(c, a)) <==>
                  RecordedFor(db.records, device, ch.operation.operation, takes[i].id))
  {
    var a := FromTakes(takes)[i];
    assert a.batch == Uuid(takes[i].id, 0);
    assert SoundRow(BatchKey(a.batch.id), db.rows[BatchKey(a.batch.id)]);
  }

  lemma FefoObstacle(db: Db, device: Id, ch: Change, today: Day, takes: seq<Fefo.Take>)
    requires Inv(db) && ch.operation.Inventory? && ch.operation.name == ConsumeFefo
    requires PlanHolds(db.rows, ConsumeFefo, FromTakes(takes))
    ensures takes != []
    ensures Obstacle(db.rows, db.records, ToCommand(device, ch), FromTakes(takes)) ==
              if ch.operation.operation.OperationText? then Some(InvalidData)
              else if exists i ::
                  0 <= i < |takes| && RecordedFor(db.records, device, ch.operation.operation, takes[i].id)
              then Some(UniqueViolation)
              else None
  {
    var c, plan := ToCommand(device, ch), FromTakes(takes);
    forall i | 0 <= i < |plan|
      ensures Canonical(plan[i].batch) && Fits(db.rows, ShiftOf(ChangeOf(c.name, plan[i])))
      ensures AlreadyRecorded(db.records, NoteOf(c, plan[i])) <==>
                RecordedFor(db.records, device, ch.operation.operation, takes[i].id)
    {
      TakeFits(db, device, ch, today, takes, i);
    }
  }

  lemma RecordedPlanIs(db: Db, device: Id, op: Operation, today: Day, takes: seq<Fefo.Take>)
    requires op.Inventory? && op.product.Uuid?
    requires Fefo.Allocate(SelectBatches(db.rows, op.product.id), op.quantity, today) == Ok(takes)
    ensures (exists parts :: RecordedPlan(db, device, op, today, parts)) <==>
              exists i :: 0 <= i < |takes| && RecordedFor(db.records, device, op.operation, takes[i].id)
  {
    Plans.AllocatedIsRowPlan(db.rows, op.product.id, op.quantity, today, takes);
    var mine := Plans.PartsOf(takes);
    if parts: seq<Plans.Part> :| RecordedPlan(db, device, op, today, parts) {
      Plans.PlanIsUnique(db.rows, op.product.id, op.quantity, today, parts, mine);
      var i :| 0 <= i < |parts| && RecordedFor(db.records, device, op.operation, parts[i].batch);
      assert takes[i].id == parts[i].batch;
    }
    if i :| 0 <= i < |takes| && RecordedFor(db.records, device, op.operation, takes[i].id) {
      assert mine[i].batch == takes[i].id;
      assert RecordedPlan(db, device, op, today, mine);
    }
  }

  lemma FefoPlanned(db: Db, device: Id, ch: Change, today: Day)
    requires ch.operation.Inventory? && ch.operation.name == ConsumeFefo && ch.operation.product.Uuid?
    requires Live(db.rows, Key(Products, ch.operation.product.id))
    ensures var op := ch.operation;
            CommandResult(db, device, ch, today) ==
              match Fefo.Allocate(SelectBatches(db.rows, op.product.id), op.quantity, today)
              case Err(e) => Err(e)
              case Ok(takes) => Performed(db.rows, db.records, ToCommand(device, ch), FromTakes(takes))
  {
  }

  lemma ClosingIs(db: Db, ch: Change, r: Result<seq<Allocation>>, c: Command, plan: seq<Allocation>, recorded: bool)
    requires ch.operation.Inventory? && r == Performed(db.rows, db.records, c, plan)
    requires Obstacle(db.rows, db.records, c, plan) ==
               if ch.operation.operation.OperationText? then Some(InvalidData)
               else if recorded then Some(UniqueViolation)
               else None
    ensures OfResult(ch.operation, r, Used(db.log, ch.id)) == Closing(db, ch, recorded) && Orderly(r)
  {
  }

  lemma CoveredResult(db: Db, device: Id, ch: Change, today: Day, takes: seq<Fefo.Take>)
    requires Inv(db) && ch.operation.Inventory? && ch.operation.name == ConsumeFefo && ch.operation.product.Uuid?
    requires Fefo.Allocate(SelectBatches(db.rows, ch.operation.product.id), ch.operation.quantity, today) == Ok(takes)
    ensures var r := Performed(db.rows, db.records, ToCommand(device, ch), FromTakes(takes));
            && OfResult(ch.operation, r, Used(db.log, ch.id)) ==
                 Closing(db, ch, exists parts :: RecordedPlan(db, device, ch.operation, today, parts))
            && Orderly(r)
  {
    var c, plan := ToCommand(device, ch), FromTakes(takes);
    FefoHolds(db.rows, ch.operation.product.id, ch.operation.quantity, today);
    FefoObstacle(db, device, ch, today, takes);
    RecordedPlanIs(db, device, ch.operation, today, takes);
    ClosingIs(db, ch, Performed(db.rows, db.records, c, plan), c, plan,
              exists parts :: RecordedPlan(db, device, ch.operation, today, parts));
  }

  lemma FefoResult(db: Db, device: Id, ch: Change, today: Day)
    requires Inv(db) && ch.operation.Inventory? && ch.operation.name == ConsumeFefo
    ensures OfResult(ch.operation, CommandResult(db, device, ch, today), Used(db.log, ch.id)) ==
              FefoVerdict(db, device, ch, today)
    ensures Orderly(CommandResult(db, device, ch, today))
  {
    var op := ch.operation;
    if op.product.Uuid? && Live(db.rows, Key(Products, op.product.id)) {
      FefoPlanned(db, device, ch, today);
      StockedResult(db, device, ch, today);
    } else {
      UnreferredResult(db, device, ch, today);
    }
  }

  lemma UnreferredResult(db: Db, device: Id, ch: Change, today: Day)
    requires ch.operation.Inventory? && ch.operation.name == ConsumeFefo
    requires ch.operation.product.Malformed? || !Live(db.rows, Key(Products, ch.operation.product.id))
    ensures CommandResult(db, device, ch, today) ==
              Err(Business(if ch.operation.product.Malformed? then InvalidProduct else FamilyScopeViolation, 0))
  {
  }

  lemma StockedResult(db: Db, device: Id, ch: Change, today: Day)
    requires Inv(db) && ch.operation.Inventory? && ch.operation.name == ConsumeFefo && ch.operation.product.Uuid?
    requires Live(db.rows, Key(Products, ch.operation.product.id))
    ensures var op := ch.operation;
            var r := match Fefo.Allocate(SelectBatches(db.rows, op.product.id), op.quantity, today)
                     case Err(e) => Err(e)
                     case Ok(takes) => Performed(db.rows, db.records, ToCommand(device, ch), FromTakes(takes));
            OfResult(op, r, Used(db.log, ch.id)) == FefoVerdict(db, device, ch, today) && Orderly(r)
  {
    var op := ch.operation;
    Plans.AllocateAnswers(db.rows, op.product.id, op.quantity, today);
    var r := Fefo.Allocate(SelectBatches(db.rows, op.product.id), op.quantity, today);
    if r.Ok? {
      CoveredResult(db, device, ch, today, r.value);
    }
  }

  // ---- allocated consumption

  /** The references fail as their first bad line does. */
  lemma {:induction false} ReferencesFail(rows: Rows, lines: seq<Line>, n: nat)
    requires FirstBadReference(rows, lines, n)
    ensures BatchesError(rows, lines) ==
              Some(Business(if lines[n].batch.Malformed? then InvalidBatch
                            else if exists j :: 0 <= j < n && lines[j].batch == lines[n].batch then ValidationFailed
                            else FamilyScopeViolation, 0))
    decreases |lines|
  {
    var front, last := lines[..|lines| - 1], lines[|lines| - 1];
    FrontReferences(rows, lines);
    assert forall j :: 0 <= j < |front| ==> front[j] == lines[j];
    if n < |front| {
      ReferencesFail(rows, front, n);
    } else {
      ReferencesPass(rows, front);
    }
  }

  lemma FrontReference(rows: Rows, lines: seq<Line>, n: nat)
    requires n < |lines| - 1
    ensures BadReference(rows, lines[..|lines| - 1], n) <==> BadReference(rows, lines, n)
  {
    var front := lines[..|lines| - 1];
    assert forall j :: 0 <= j < |front| ==> front[j] == lines[j];
  }

  lemma FrontReferences(rows: Rows, lines: seq<Line>)
    requires lines != []
    ensures var front := lines[..|lines| - 1];
            forall j :: 0 <= j < |front| ==> (BadReference(rows, front, j) <==> BadReference(rows, lines, j))
  {
    var front := lines[..|lines| - 1];
    forall j | 0 <= j < |front| ensures BadReference(rows, front, j) <==> BadReference(rows, lines, j) {
      FrontReference(rows, lines, j);
    }
  }

  lemma {:induction false} ReferencesPass(rows: Rows, lines: seq<Line>)
    requires forall j :: 0 <= j < |lines| ==> !BadReference(rows, lines, j)
    ensures BatchesError(rows, lines) == None
    decreases |lines|
  {
    if lines != [] {
      var front := lines[..|lines| - 1];
      FrontReferences(rows, lines);
      ReferencesPass(rows, front);
      assert !BadReference(rows, lines, |lines| - 1);
      assert forall j :: 0 <= j < |front| ==> front[j] == lines[j];
    }
  }

  lemma {:induction false} StockFails(rows: Rows, lines: seq<Line>, n: nat, today: Day)
    requires forall j :: 0 <= j < |lines| ==> !BadReference(rows, lines, j) && lines[j].quantity >= 1
    requires FirstBadStock(rows, lines, n, today)
    ensures CheckLines(rows, lines, today) ==
              Err(Business(if Short(rows, lines[n]) then InsufficientStock else BatchUnavailable, 0))
    decreases |lines|
  {
    var front, last := lines[..|lines| - 1], lines[|lines| - 1];
    FrontReferences(rows, lines);
    assert forall j :: 0 <= j < |front| ==> front[j] == lines[j];
    if n < |front| {
      StockFails(rows, front, n, today);
    } else {
      StockPasses(rows, front, today);
      assert !BadReference(rows, lines, n);
    }
  }

  lemma {:induction false} StockPasses(rows: Rows, lines: seq<Line>, today: Day)
    requires forall j :: 0 <= j < |lines| ==> !BadReference(rows, lines, j) && lines[j].quantity >= 1
    requires forall j :: 0 <= j < |lines| ==> !BadStock(rows, lines[j], today)
    ensures CheckLines(rows, lines, today).Ok?
    ensures var plan := CheckLines(rows, lines, today).value;
      |plan| == |lines| && forall j :: 0 <= j < |plan| ==> plan[j].batch == lines[j].batch
    decreases |lines|
  {
    if lines != [] {
      var front := lines[..|lines| - 1];
      FrontReferences(rows, lines);
      assert forall j :: 0 <= j < |front| ==> front[j] == lines[j];
      StockPasses(rows, front, today);
      assert !BadReference(rows, lines, |lines| - 1) && !BadStock(rows, lines[|lines| - 1], today);
    }
  }

  lemma AllocatedObstacle(db: Db, device: Id, ch: Change, today: Day, plan: seq<Allocation>)
    requires Inv(db) && ch.operation.Inventory? && ch.operation.name == ConsumeAllocated
    requires CheckLines(db.rows, ch.operation.lines, today) == Ok(plan) && ch.operation.lines != []
    requires |plan| == |ch.operation.lines|
    requires forall i :: 0 <= i < |plan| ==> plan[i].batch == ch.operation.lines[i].batch && plan[i].batch.Uuid?
    ensures var lines := ch.operation.lines;
            Obstacle(db.rows, db.records, ToCommand(device, ch), plan) ==
              if exists i :: 0 <= i < |lines| && SpelledOtherwise(lines[i]) then Some(OtherFailure)
              else if ch.operation.operation.OperationText? then Some(InvalidData)
              else if exists i :: 0 <= i < |lines|
                                  && RecordedLine(db.records, device, ch.operation.operation, lines[i])
              then Some(UniqueViolation)
              else None
  {
    var c, lines := ToCommand(device, ch), ch.operation.lines;
    CheckLinesHolds(db.rows, lines, today);
    forall i | 0 <= i < |plan|
      ensures Fits(db.rows, ShiftOf(ChangeOf(c.name, plan[i])))
      ensures AlreadyRecorded(db.records, NoteOf(c, plan[i])) <==>
                RecordedLine(db.records, device, ch.operation.operation, lines[i])
      ensures Canonical(plan[i].batch) <==> !SpelledOtherwise(lines[i])
    {
      assert AllocationHolds(db.rows, ConsumeAllocated, plan[i]);
      assert SoundRow(BatchKey(plan[i].batch.id), db.rows[BatchKey(plan[i].batch.id)]);
    }
  }

  lemma AllocatedResult(db: Db, device: Id, ch: Change, today: Day)
    requires Inv(db) && ch.operation.Inventory? && CommandMade(ch) && ch.operation.name == ConsumeAllocated
    ensures OfResult(ch.operation, CommandResult(db, device, ch, today), Used(db.log, ch.id)) ==
              AllocatedVerdict(db, device, ch, today)
    ensures Orderly(CommandResult(db, device, ch, today))
  {
    var rows, lines := db.rows, ch.operation.lines;
    if n: nat :| FirstBadReference(rows, lines, n) {
      forall m: nat | FirstBadReference(rows, lines, m) ensures m == n {
      }
      ReferencesFail(rows, lines, n);
    } else {
      NoneBad(rows, lines);
      ReferencesPass(rows, lines);
      AllocatedStock(db, device, ch, today);
    }
  }

  lemma {:induction false} NoneShort(rows: Rows, lines: seq<Line>, today: Day)
    requires forall n: nat :: !FirstBadStock(rows, lines, n, today)
    ensures forall j :: 0 <= j < |lines| ==> !BadStock(rows, lines[j], today)
  {
    var n := 0;
    while n < |lines|
      invariant n <= |lines| && forall j :: 0 <= j < n ==> !BadStock(rows, lines[j], today)
    {
      assert !FirstBadStock(rows, lines, n, today);
      n := n + 1;
    }
  }

  lemma AllocatedStock(db: Db, device: Id, ch: Change, today: Day)
    requires Inv(db) && ch.operation.Inventory? && CommandMade(ch) && ch.operation.name == ConsumeAllocated
    requires forall n: nat :: !FirstBadReference(db.rows, ch.operation.lines, n)
    requires forall j :: 0 <= j < |ch.operation.lines| ==> !BadReference(db.rows, ch.operation.lines, j)
    requires BatchesError(db.rows, ch.operation.lines) == None
    ensures OfResult(ch.operation, CommandResult(db, device, ch, today), Used(db.log, ch.id)) ==
              AllocatedVerdict(db, device, ch, today)
    ensures Orderly(CommandResult(db, device, ch, today))
  {
    var rows, lines := db.rows, ch.operation.lines;
    assert forall j :: 0 <= j < |lines| ==> lines[j].quantity >= 1;
    if n: nat :| FirstBadStock(rows, lines, n, today) {
      forall m: nat | FirstBadStock(rows, lines, m, today) ensures m == n {
      }
      StockFails(rows, lines, n, today);
    } else {
      NoneShort(rows, lines, today);
      StockPasses(rows, lines, today);
      forall i | 0 <= i < |lines| ensures lines[i].batch.Uuid? {
        assert !BadReference(rows, lines, i);
      }
      AllocatedObstacle(db, device, ch, today, CheckLines(rows, lines, today).value);
    }
  }

  /** Every new inventory command is answered as the table says. */
  lemma CommandAnswer(db: Db, device: Id, base: int, ch: Change, today: Day)
    requires Inv(db) && IsNew(db, device, base, ch) && ch.operation.Inventory?
    ensures Ends(db, device, ch, Process(db, device, base, ch, today, NoFault), CommandVerdict(db, device, ch, today))
  {
    assert CommandMade(ch) <==> ValidChange(ch);
    if CommandMade(ch) {
      match ch.operation.name {
        case ConsumeFefo => FefoResult(db, device, ch, today);
        case ConsumeAllocated => AllocatedResult(db, device, ch, today);
        case _ => SingleResult(db, device, ch, today);
      }
      CommandShows(db, device, ch, today);
      ShownEnds(db, device, base, ch, today, CommandVerdict(db, device, ch, today));
    } else {
      Replies.InvalidChangeReply(db, device, base, ch, today);
    }
  }

  lemma ShownEnds(db: Db, device: Id, base: int, ch: Change, today: Day, v: Verdict)
    requires IsNew(db, device, base, ch) && ValidChange(ch) && Shows(db, device, ch, Applied(db, device, ch, today), v)
    ensures Ends(db, device, ch, Process(db, device, base, ch, today, NoFault), v)
  {
    var applied := Applied(db, device, ch, today);
    if applied.Ok? {
      OutcomeEnds(db, device, base, ch, today);
    } else {
      FailureEnds(db, device, base, ch, today, applied.error);
    }
  }
}
