/** Exactly when a push answers a change, and when it fails as a whole instead. */
module Replies {
  import opened Types
  import opened Texts
  import opened Tables
  import opened Receipts
  import opened Ledger
  import opened Inventory
  import opened SyncSpec
  import SyncSafety

  /** The change gets as far as being applied: a new key, a possible cursor, a valid envelope. */
  predicate Reaches(db: Db, device: Id, base: int, ch: Change) {
    ReceiptKey(device, ch.key) !in db.receipts && base <= Cursor(db) && ValidChange(ch)
  }

  /** An invalid change, or one under an impossible cursor, is rejected exactly when its idempotency key fits
      its column. Otherwise the receipt cannot be stored, and the whole push fails although the change was to
      be rejected. */
  lemma InvalidChangeReply(db: Db, device: Id, base: int, ch: Change, today: Day)
    requires ReceiptKey(device, ch.key) !in db.receipts && (base > Cursor(db) || !ValidChange(ch))
    ensures var done := Process(db, device, base, ch, today, NoFault);
            if !StorableKey(ch.key) then done == (db, Aborted)
            else done.1 == Answer(Rejected(if base > Cursor(db) then InvalidCursor else ValidationFailed, Cursor(db)))
  {
  }

  /** No change whatever is answered under a key that does not fit its column, however valid it is. */
  lemma UnstorableKeyReply(db: Db, device: Id, base: int, ch: Change, today: Day)
    requires Filed(db.receipts) && !StorableKey(ch.key)
    ensures Process(db, device, base, ch, today, NoFault) == (db, Aborted)
  {
    var k := ReceiptKey(device, ch.key);
    assert k in db.receipts ==> Filable(k, db.receipts[k]);
  }

  predicate IsConflict(code: Code) {
    code == VersionConflict || code == FamilyScopeViolation
  }

  predicate CanRecord(db: Db, device: Id, ch: Change) {
    !(ch.operation.Inventory? && ch.operation.entity.None?) && !HasConflict(db.conflicts, device, ch.id)
  }

  /** What becomes of a failure that leaves the change guard. */
  lemma GuardedReply(db: Db, device: Id, base: int, ch: Change, today: Day, f: Failure)
    requires Reaches(db, device, base, ch) && StorableKey(ch.key) && Applied(db, device, ch, today) == Err(f)
    ensures var done := Process(db, device, base, ch, today, NoFault);
            match Guarded(f)
            case Raw(_) => done == (db, Aborted)
            case Business(code, version) =>
              if !IsConflict(code) then done.1 == Answer(Rejected(code, Cursor(db)))
              else if !CanRecord(db, device, ch) then done == (db, Aborted)
              else
                && done.1 == Answer(Conflicted(code, version, Cursor(db)))
                && done.0.conflicts == db.conflicts + [Conflict(device, ch.id, ch.operation, code, version, true)]
  {
  }

  lemma AppliedReply(db: Db, device: Id, base: int, ch: Change, today: Day)
    requires Reaches(db, device, base, ch) && StorableKey(ch.key) && Applied(db, device, ch, today).Ok?
    ensures Process(db, device, base, ch, today, NoFault).1 == Answer(Applied(db, device, ch, today).value.1)
  {
  }

  /** A version conflict is answered and recorded exactly when the key can be stored and this device has no
      conflict for the change id yet; a second one makes the push fail, every time. */
  lemma StaleChangeReply(db: Db, device: Id, base: int, ch: Change, today: Day)
    requires Reaches(db, device, base, ch) && !ch.operation.Inventory?
    requires ch.operation.baseVersion != CurrentVersion(db, ch.operation.key)
    ensures var done := Process(db, device, base, ch, today, NoFault);
            var current := CurrentVersion(db, ch.operation.key);
            if !StorableKey(ch.key) || HasConflict(db.conflicts, device, ch.id) then done == (db, Aborted)
            else
              && done.1 == Answer(Conflicted(VersionConflict, current, Cursor(db)))
              && done.0.conflicts == db.conflicts
                   + [Conflict(device, ch.id, ch.operation, VersionConflict, current, true)]
  {
  }

  /** What the service demands of an upsert on the current version before it sends the statement. */
  predicate Permitted(db: Db, key: Key, base: int, patch: Patch) {
    var named := patch.parent.Replace? && patch.parent.value.Parent?;
    && key.kind != OtherEntity
    && (key.kind == ProductBatches ==> patch.stockFields.NoStockField? && patch.validDates && named)
    && (HasParent(key.kind) && named ==>
          patch.parent.value.ref.Uuid?
              && SyncSpec.Active(db.rows, Key(ParentKind(key.kind), patch.parent.value.ref.id)))
    && (base == 0 ==> (NameLimit(key.kind) > 0 ==> Trim(NameOf(patch.columns)) != "") && key !in db.foreign)
  }

  /** The row that the statement would write. */
  function RowAfter(db: Db, key: Key, patch: Patch): Row {
    if key in db.rows then Updated(key, db.rows[key], patch) else Inserted(key, patch)
  }

  /** Another active row has the name, or the scope. */
  predicate Clashes(db: Db, key: Key, patch: Patch) {
    Taken(db.rows, key, RowAfter(db, key, patch))
  }

  predicate Upsertable(db: Db, key: Key, base: int, patch: Patch) {
    Permitted(db, key, base, patch) && Storable(key.kind, patch, base == 0) && !Clashes(db, key, patch)
  }

  /** An entity change is accepted exactly when it is based on the current version, its change id is new, and
      it may be made: an upsert names an active parent where it names or needs one, touches no stock column,
      brings what a new row needs, fits its columns, and takes no name or reminder scope that another active
      row has; a deletion finds the row. And its key must fit its column. */
  lemma EntityAcceptedIff(db: Db, device: Id, base: int, ch: Change, today: Day)
    requires Inv(db) && Reaches(db, device, base, ch) && !ch.operation.Inventory?
    ensures SyncSafety.Accepts(Process(db, device, base, ch, today, NoFault).1) <==>
              && StorableKey(ch.key)
              && ch.operation.baseVersion == VersionOf(db.rows, ch.operation.key)
              && !Logged(db.log, ch.id)
              && (if ch.operation.Upsert?
                   then Upsertable(db, ch.operation.key, ch.operation.baseVersion, ch.operation.patch)
                  else ch.operation.key.kind != OtherEntity && ch.operation.key in db.rows)
  {
    var key, version := ch.operation.key, ch.operation.baseVersion;
    assert key in db.rows ==> SoundRow(key, db.rows[key]);
    if ch.operation.Upsert? && key.kind != OtherEntity && version == CurrentVersion(db, key) {
      UpsertableIff(db, key, version, ch.operation.patch);
    }
    EntityReply(db, device, base, ch, today);
  }

  lemma UpsertableIff(db: Db, key: Key, base: int, patch: Patch)
    requires Inv(db) && base == CurrentVersion(db, key)
    requires key.kind != OtherEntity
    ensures UpsertRow(db, key, base, patch).Ok? <==> Upsertable(db, key, base, patch)
    ensures Permitted(db, key, base, patch) ==>
              UpsertRow(db, key, base, patch) ==
                  Stored(db.rows, key, RowAfter(db, key, patch), Storable(key.kind, patch, base == 0))
  {
    assert key in db.rows ==> SoundRow(key, db.rows[key]);
  }

  /** What a permitted upsert is answered when its statement fails: a value that does not fit its column
      rejects it; a name or scope that is taken makes it a conflict of version 0, or fails the push when
      that conflict, or the receipt, cannot be stored. */
  lemma FailedStatementReply(db: Db, device: Id, base: int, ch: Change, today: Day)
    requires Inv(db) && Reaches(db, device, base, ch) && ch.operation.Upsert?
    requires ch.operation.baseVersion == VersionOf(db.rows, ch.operation.key)
    requires Permitted(db, ch.operation.key, ch.operation.baseVersion, ch.operation.patch)
    ensures var key, version, patch := ch.operation.key, ch.operation.baseVersion, ch.operation.patch;
            var done := Process(db, device, base, ch, today, NoFault);
            if !StorableKey(ch.key) then done == (db, Aborted)
            else if !Storable(key.kind, patch, version == 0)
                then done.1 == Answer(Rejected(ValidationFailed, Cursor(db)))
            else Clashes(db, key, patch) ==>
                   if HasConflict(db.conflicts, device, ch.id) then done == (db, Aborted)
                   else done.1 == Answer(Conflicted(VersionConflict, 0, Cursor(db)))
                        && done.0.conflicts == db.conflicts
                             + [Conflict(device, ch.id, ch.operation, VersionConflict, 0, true)]
  {
    var key, version, patch := ch.operation.key, ch.operation.baseVersion, ch.operation.patch;
    UpsertableIff(db, key, version, patch);
    if !Upsertable(db, key, version, patch) && StorableKey(ch.key) {
      var f := UpsertRow(db, key, version, patch).error;
      assert Applied(db, device, ch, today) == Err(f);
      GuardedReply(db, device, base, ch, today, f);
    }
  }

  lemma EntityReply(db: Db, device: Id, base: int, ch: Change, today: Day)
    requires Reaches(db, device, base, ch) && !ch.operation.Inventory?
    ensures var key, version := ch.operation.key, ch.operation.baseVersion;
            SyncSafety.Accepts(Process(db, device, base, ch, today, NoFault).1) <==>
              && StorableKey(ch.key)
              && version == CurrentVersion(db, key)
              && (if ch.operation.Upsert? then UpsertRow(db, key, version, ch.operation.patch).Ok?
                   else DeleteRow(db, key, version).Ok?)
              && !Logged(db.log, ch.id)
  {
  }

  /** The references of the command are in order, and it can be planned. */
  predicate Plannable(db: Db, device: Id, ch: Change, today: Day) {
    && ch.operation.Inventory?
    && (ch.operation.name == Restock || ch.operation.name == Discard ==> |ch.operation.lines| == 1)
    && ReferenceError(db.rows, ch.operation) == None
    && Plan(db.rows, ToCommand(device, ch), today).Ok?
  }

  lemma PlannedResult(db: Db, device: Id, ch: Change, today: Day)
    requires Plannable(db, device, ch, today)
    ensures CommandResult(db, device, ch, today) ==
              Performed(db.rows, db.records, ToCommand(device, ch), Plan(db.rows, ToCommand(device, ch), today).value)
  {
  }

  function ObstacleOf(db: Db, device: Id, ch: Change, today: Day): Option<SqlState>
    requires Plannable(db, device, ch, today)
  {
    Obstacle(db.rows, db.records, ToCommand(device, ch), Plan(db.rows, ToCommand(device, ch), today).value)
  }

  /** A command that can be planned is accepted exactly when nothing stands in its way; a batch spelled
      otherwise than canonically makes the push fail, an overflow or an operation id that is no UUID rejects
      it, and a repeated record or change id is a conflict, or fails the push when that conflict cannot be
      recorded. Under a key that does not fit its column the push fails in any case. */
  lemma PlannedCommandReply(db: Db, device: Id, base: int, ch: Change, today: Day)
    requires Reaches(db, device, base, ch) && Plannable(db, device, ch, today)
    ensures var done := Process(db, device, base, ch, today, NoFault);
            if !StorableKey(ch.key) then done == (db, Aborted)
            else match ObstacleOf(db, device, ch, today)
              case Some(OtherFailure) => done == (db, Aborted)
              case Some(InvalidData) => done.1 == Answer(Rejected(ValidationFailed, Cursor(db)))
              case None => if Logged(db.log, ch.id) then Collided(db, device, ch, done) else SyncSafety.Accepts(done.1)
              case Some(_) => Collided(db, device, ch, done)
  {
    PlannedResult(db, device, ch, today);
    var obstacle := ObstacleOf(db, device, ch, today);
    if !StorableKey(ch.key) {
      UnstoredReply(db, device, base, ch, today);
    } else if obstacle.None? {
      UnobstructedReply(db, device, base, ch, today);
    } else {
      assert CommandResult(db, device, ch, today) == Err(Raw(obstacle.value));
      assert Applied(db, device, ch, today) == Err(Raw(obstacle.value));
      GuardedReply(db, device, base, ch, today, Raw(obstacle.value));
    }
  }

  lemma UnstoredReply(db: Db, device: Id, base: int, ch: Change, today: Day)
    requires ReceiptKey(device, ch.key) !in db.receipts && !StorableKey(ch.key)
    ensures Process(db, device, base, ch, today, NoFault) == (db, Aborted)
  {
  }

  lemma UnobstructedReply(db: Db, device: Id, base: int, ch: Change, today: Day)
    requires Reaches(db, device, base, ch) && StorableKey(ch.key)
    requires ch.operation.Inventory? && CommandResult(db, device, ch, today).Ok?
    ensures var done := Process(db, device, base, ch, today, NoFault);
            if Logged(db.log, ch.id) then Collided(db, device, ch, done) else SyncSafety.Accepts(done.1)
  {
    PublishedResult(db, device, ch, today);
    if Logged(db.log, ch.id) {
      GuardedReply(db, device, base, ch, today, Raw(UniqueViolation));
    } else {
      AppliedReply(db, device, base, ch, today);
    }
  }

  /** A unique violation: a conflict of version 0, or none can be recorded and the push fails. */
  predicate Collided(db: Db, device: Id, ch: Change, done: (Db, Reply)) {
    if CanRecord(db, device, ch) then done.1 == Answer(Conflicted(VersionConflict, 0, Cursor(db)))
    else done == (db, Aborted)
  }

  lemma PublishedResult(db: Db, device: Id, ch: Change, today: Day)
    requires ch.operation.Inventory? && CommandResult(db, device, ch, today).Ok?
    ensures var r := Applied(db, device, ch, today);
            if Logged(db.log, ch.id) then r == Err(Raw(UniqueViolation)) else r.Ok? && r.value.1.Accepted?
  {
  }

  // ---- answered or not

  /** The entity change ends in a conflict that has to be recorded: it is stale, its parent or its id belongs to
      another family, it takes a name or scope of another row, or its change id has been used. */
  predicate EndsInConflict(db: Db, ch: Change)
    requires !ch.operation.Inventory?
  {
    var key, version := ch.operation.key, ch.operation.baseVersion;
    || version != CurrentVersion(db, key)
    || (key.kind != OtherEntity &&
        if ch.operation.Upsert? then UpsertCollides(db, key, version, ch.operation.patch, ch.id)
        else key in db.rows ==> Logged(db.log, ch.id))
  }

  predicate UpsertCollides(db: Db, key: Key, base: int, patch: Patch, change: ChangeId) {
    && (key.kind == ProductBatches ==> patch.stockFields.NoStockField? && patch.validDates)
    && (base == 0 ==> SyncSpec.Complete(key.kind, patch))
    && match DependencyError(db.rows, key.kind, patch)
       case Some(e) => e == Business(FamilyScopeViolation, 0)
       case None =>
         || (base == 0 && key in db.foreign)
         || (Storable(key.kind, patch, base == 0) && (Clashes(db, key, patch) || Logged(db.log, change)))
  }

  /** The command ends in a failure that no receipt can settle: a batch that is not spelled canonically, or a
      conflict that cannot be recorded. */
  predicate CommandStuck(db: Db, device: Id, ch: Change, today: Day)
    requires ch.operation.Inventory?
  {
    if Plannable(db, device, ch, today) then
      match ObstacleOf(db, device, ch, today)
      case Some(OtherFailure) => true
      case Some(InvalidData) => false
      case None => Logged(db.log, ch.id) && !CanRecord(db, device, ch)
      case Some(_) => !CanRecord(db, device, ch)
    else OutOfScope(db, ch) && ch.operation.entity.Some? && HasConflict(db.conflicts, device, ch.id)
  }

  predicate Stuck(db: Db, device: Id, ch: Change, today: Day) {
    if ch.operation.Inventory? then CommandStuck(db, device, ch, today)
    else HasConflict(db.conflicts, device, ch.id) && EndsInConflict(db, ch)
  }

  /** Exactly when a push answers a new change: its key fits the column, and the change is not stuck. Otherwise
      the whole push fails, however often it is repeated. */
  lemma AnsweredIff(db: Db, device: Id, base: int, ch: Change, today: Day)
    requires Inv(db) && ReceiptKey(device, ch.key) !in db.receipts
    ensures !Process(db, device, base, ch, today, NoFault).1.Aborted? <==>
              StorableKey(ch.key) && (base <= Cursor(db) && ValidChange(ch) ==> !Stuck(db, device, ch, today))
  {
    if base > Cursor(db) || !ValidChange(ch) {
      InvalidChangeReply(db, device, base, ch, today);
    } else if StorableKey(ch.key) {
      if ch.operation.Inventory? {
        CommandAnsweredIff(db, device, base, ch, today);
      } else {
        EntityAnsweredIff(db, device, base, ch, today);
      }
    }
  }

  lemma EntityAnsweredIff(db: Db, device: Id, base: int, ch: Change, today: Day)
    requires Inv(db) && Reaches(db, device, base, ch) && StorableKey(ch.key) && !ch.operation.Inventory?
    ensures !Process(db, device, base, ch, today, NoFault).1.Aborted? <==> !Stuck(db, device, ch, today)
  {
    var applied := Applied(db, device, ch, today);
    EntityFailure(db, device, ch, today);
    if applied.Ok? {
      AppliedReply(db, device, base, ch, today);
    } else {
      GuardedReply(db, device, base, ch, today, applied.error);
    }
  }

  lemma EntityFailure(db: Db, device: Id, ch: Change, today: Day)
    requires Inv(db) && !ch.operation.Inventory?
    ensures match Applied(db, device, ch, today)
            case Ok(_) => !Stuck(db, device, ch, today)
            case Err(f) =>
              match Guarded(f)
              case Raw(_) => false
              case Business(code, _) => IsConflict(code) && HasConflict(db.conflicts, device, ch.id) <==>
                  Stuck(db, device, ch, today)
  {
    var key, version := ch.operation.key, ch.operation.baseVersion;
    assert key in db.rows ==> SoundRow(key, db.rows[key]);
    if version == CurrentVersion(db, key) && key.kind != OtherEntity {
      if ch.operation.Upsert? {
        UpsertFailure(db, key, version, ch.operation.patch, ch.id);
      }
    }
  }

  lemma UpsertFailure(db: Db, key: Key, base: int, patch: Patch, change: ChangeId)
    requires Inv(db) && base == CurrentVersion(db, key) && key.kind != OtherEntity
    ensures match UpsertRow(db, key, base, patch)
            case Ok(_) => UpsertCollides(db, key, base, patch, change) <==> Logged(db.log, change)
            case Err(Business(code, _)) => UpsertCollides(db, key, base, patch, change) <==> IsConflict(code)
            case Err(Raw(state)) =>
              && (state == InvalidData || state == UniqueViolation)
              && (UpsertCollides(db, key, base, patch, change) <==> state == UniqueViolation)
  {
    assert key in db.rows ==> SoundRow(key, db.rows[key]);
  }

  lemma CommandAnsweredIff(db: Db, device: Id, base: int, ch: Change, today: Day)
    requires Reaches(db, device, base, ch) && StorableKey(ch.key) && ch.operation.Inventory?
    ensures !Process(db, device, base, ch, today, NoFault).1.Aborted? <==> !Stuck(db, device, ch, today)
  {
    if Plannable(db, device, ch, today) {
      PlannedCommandReply(db, device, base, ch, today);
    } else {
      UnplannedReply(db, device, base, ch, today);
    }
  }

  lemma UnplannedReply(db: Db, device: Id, base: int, ch: Change, today: Day)
    requires Reaches(db, device, base, ch) && StorableKey(ch.key) && ch.operation.Inventory?
    requires !Plannable(db, device, ch, today)
    ensures !Process(db, device, base, ch, today, NoFault).1.Aborted? <==> !CommandStuck(db, device, ch, today)
  {
    UnplannedFailure(db, device, ch, today);
    var applied := Applied(db, device, ch, today);
    if applied.Ok? {
      AppliedReply(db, device, base, ch, today);
    } else {
      GuardedReply(db, device, base, ch, today, applied.error);
    }
  }

  /** The batches of a command are counted right, and one of its references is outside the family. */
  predicate OutOfScope(db: Db, ch: Change)
    requires ch.operation.Inventory?
  {
    && (ch.operation.name == Restock || ch.operation.name == Discard ==> |ch.operation.lines| == 1)
    && ReferenceError(db.rows, ch.operation) == Some(Business(FamilyScopeViolation, 0))
  }

  lemma UnplannedResult(db: Db, device: Id, ch: Change, today: Day)
    requires ch.operation.Inventory? && !Plannable(db, device, ch, today)
    ensures var r := CommandResult(db, device, ch, today);
            && r.Err? && r.error.Business?
            && (IsConflict(r.error.code) <==> OutOfScope(db, ch))
            && (OutOfScope(db, ch) ==> r.error == Business(FamilyScopeViolation, 0))
  {
    BatchesCode(db.rows, ch.operation.lines);
    PlanCode(db.rows, ToCommand(device, ch), today);
  }

  lemma UnplannedFailure(db: Db, device: Id, ch: Change, today: Day)
    requires ch.operation.Inventory? && !Plannable(db, device, ch, today)
    ensures match Applied(db, device, ch, today)
            case Ok(_) => !CommandStuck(db, device, ch, today)
            case Err(f) =>
              match Guarded(f)
              case Raw(_) => false
              case Business(code, _) => IsConflict(code) && !CanRecord(db, device, ch) <==>
                  CommandStuck(db, device, ch, today)
  {
    UnplannedResult(db, device, ch, today);
    var f := CommandResult(db, device, ch, today).error;
    assert Applied(db, device, ch, today) == BusinessOutcome(db, device, ch, f.code, f.serverVersion);
  }

  lemma {:induction false} BatchesCode(rows: Rows, lines: seq<Line>)
    ensures BatchesError(rows, lines).Some? ==>
              BatchesError(rows, lines).value == Business(FamilyScopeViolation, 0)
              || (BatchesError(rows, lines).value.Business? && !IsConflict(BatchesError(rows, lines).value.code))
  {
    if lines != [] {
      BatchesCode(rows, lines[..|lines| - 1]);
    }
  }

  lemma {:induction false} LinesCode(rows: Rows, lines: seq<Line>, today: Day)
    ensures var r := CheckLines(rows, lines, today); r.Err? ==> r.error.Business? && !IsConflict(r.error.code)
  {
    if lines != [] {
      LinesCode(rows, lines[..|lines| - 1], today);
    }
  }

  lemma PlanCode(rows: Rows, c: Command, today: Day)
    ensures var r := Plan(rows, c, today); r.Err? ==> r.error.Business? && !IsConflict(r.error.code)
  {
    LinesCode(rows, c.allocations, today);
  }
}
