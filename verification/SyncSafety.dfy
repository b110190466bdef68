/** What every processed change keeps, and what a repeated push does. */
module SyncSafety {
  import opened Types
  import opened Tables
  import opened Receipts
  import opened Ledger
  import opened Inventory
  import opened SyncSpec
  import History

  /** Nothing a client can see has changed. */
  ghost predicate Quiet(db: Db, db': Db) {
    db'.rows == db.rows && db'.records == db.records && db'.log == db.log && db'.sequence == db.sequence
        && db'.foreign == db.foreign
  }

  // ---- one change writes one sound step

  lemma UpsertIsSound(db: Db, key: Key, base: int, patch: Patch)
    requires Inv(db) && base == CurrentVersion(db, key) && UpsertRow(db, key, base, patch).Ok?
    ensures ValidWrite(db, key, UpsertRow(db, key, base, patch).value)
  {
    if key in db.rows {
      assert SoundRow(key, db.rows[key]);
    }
  }

  lemma DeleteIsSound(db: Db, key: Key, base: int)
    requires Inv(db) && base == CurrentVersion(db, key) && DeleteRow(db, key, base).Ok?
    ensures ValidWrite(db, key, DeleteRow(db, key, base).value)
  {
    assert SoundRow(key, db.rows[key]);
  }

  /** The allocations the service reports are the ones PublishStock derives from the rows. */
  lemma ReportsTheStock(rows: Rows, c: Command, plan: seq<Allocation>)
    requires PlanHolds(rows, c.name, plan)
    requires ValidShifts(rows, ShiftsOf(ChangesOf(c.name, plan)))
    ensures Report(FinishAll(c.name, plan)) == SettleAll(rows, ShiftsOf(ChangesOf(c.name, plan)))
  {
    var shifts := ShiftsOf(ChangesOf(c.name, plan));
    forall i | 0 <= i < |plan| ensures Report(FinishAll(c.name, plan))[i] == SettleAll(rows, shifts)[i] {
      assert AllocationHolds(rows, c.name, plan[i]);
    }
  }

  ghost predicate SoundMove(db: Db, shifts: seq<Shift>, notes: seq<Record>) {
    ValidShifts(db.rows, shifts) && Booked(shifts, notes) && shifts != []
  }

  function CommandShifts(db: Db, device: Id, ch: Change, today: Day): seq<Shift>
    requires ch.operation.Inventory? && Plan(db.rows, ToCommand(device, ch), today).Ok?
  {
    var c := ToCommand(device, ch);
    ShiftsOf(ChangesOf(c.name, Plan(db.rows, c, today).value))
  }

  function CommandNotes(db: Db, device: Id, ch: Change, today: Day): seq<Record>
    requires ch.operation.Inventory? && Plan(db.rows, ToCommand(device, ch), today).Ok?
  {
    var c := ToCommand(device, ch);
    NotesOf(c, Plan(db.rows, c, today).value)
  }

  lemma CommandIsSound(db: Db, device: Id, ch: Change, today: Day)
    requires Inv(db) && ch.operation.Inventory? && CommandResult(db, device, ch, today).Ok?
    ensures SoundMove(db, CommandShifts(db, device, ch, today), CommandNotes(db, device, ch, today))
    ensures StockPublished(db, ToCommand(device, ch), Plan(db.rows, ToCommand(device, ch), today).value, ch.id) ==
              PublishStock(db, CommandShifts(db, device, ch, today), CommandNotes(db, device, ch, today), ch.id)
  {
    var c := ToCommand(device, ch);
    var plan := Plan(db.rows, c, today).value;
    PlanGuarantees(db.rows, c, today);
    PlannedShifts(db.rows, c, plan);
    ReportsTheStock(db.rows, c, plan);
  }

  /** An accepted change is one row write on its base version, or one stock movement. */
  ghost predicate RowStep(db: Db, ch: Change, db': Db, outcome: Outcome) {
    && !ch.operation.Inventory?
    && !Logged(db.log, ch.id)
    && var key := ch.operation.key;
    && ch.operation.baseVersion == VersionOf(db.rows, key)
    && key in db'.rows
    && ValidWrite(db, key, db'.rows[key])
    && db' == Publish(db, key, db'.rows[key], ch.id)
    && outcome == Accepted(ch.operation.baseVersion + 1, db.sequence + 1)
  }

  ghost predicate StockStep(db: Db, ch: Change, db': Db, outcome: Outcome) {
    && ch.operation.Inventory?
    && !Logged(db.log, ch.id)
    && (exists shifts, notes :: IsMove(db, ch, db', shifts, notes) && Tells(db, db', shifts, outcome))
  }

  /** The version told is that of the first batch, as it is now. */
  ghost predicate Tells(db: Db, db': Db, shifts: seq<Shift>, outcome: Outcome) {
    && shifts != [] && BatchKey(shifts[0].batch) in db.rows
    && outcome == Accepted(db.rows[BatchKey(shifts[0].batch)].version + 1, db.sequence + 1)
  }

  ghost predicate IsMove(db: Db, ch: Change, db': Db, shifts: seq<Shift>, notes: seq<Record>) {
    SoundMove(db, shifts, notes) && db' == PublishStock(db, shifts, notes, ch.id)
  }

  lemma AcceptedEntitySteps(db: Db, device: Id, ch: Change)
    requires Inv(db) && !ch.operation.Inventory? && AppliedEntity(db, device, ch).Ok?
    requires AppliedEntity(db, device, ch).value.1.Accepted?
    ensures var done := AppliedEntity(db, device, ch).value; RowStep(db, ch, done.0, done.1)
  {
    var key, base := ch.operation.key, ch.operation.baseVersion;
    if ch.operation.Upsert? {
      UpsertIsSound(db, key, base, ch.operation.patch);
    } else {
      DeleteIsSound(db, key, base);
    }
  }

  lemma AcceptedCommandSteps(db: Db, device: Id, ch: Change, today: Day)
    requires Inv(db) && ch.operation.Inventory? && AppliedCommand(db, device, ch, today).Ok?
    requires AppliedCommand(db, device, ch, today).value.1.Accepted?
    ensures var done := AppliedCommand(db, device, ch, today).value; StockStep(db, ch, done.0, done.1)
  {
    CommandIsSound(db, device, ch, today);
    var done := AppliedCommand(db, device, ch, today).value;
    var shifts := CommandShifts(db, device, ch, today);
    assert IsMove(db, ch, done.0, shifts, CommandNotes(db, device, ch, today));
    var c := ToCommand(device, ch);
    var plan := Plan(db.rows, c, today).value;
    PlanGuarantees(db.rows, c, today);
    ReportsTheStock(db.rows, c, plan);
    assert SettleAll(db.rows, shifts)[0].afterVersion == db.rows[BatchKey(shifts[0].batch)].version + 1;
    assert Tells(db, done.0, shifts, done.1);
  }

  lemma AppliedSteps(db: Db, device: Id, ch: Change, today: Day)
    requires Inv(db) && Applied(db, device, ch, today).Ok?
    ensures var done := Applied(db, device, ch, today).value;
            if done.1.Accepted? then RowStep(db, ch, done.0, done.1) || StockStep(db, ch, done.0, done.1)
            else Quiet(db, done.0) && Remembers(db, done.0) && done.0.receipts == db.receipts
  {
    if Applied(db, device, ch, today).value.1.Accepted? {
      if ch.operation.Inventory? {
        AcceptedCommandSteps(db, device, ch, today);
      } else {
        AcceptedEntitySteps(db, device, ch);
      }
    }
  }

  /** What a processed change may have done to the database, told by its reply. */
  ghost predicate Explained(db: Db, device: Id, ch: Change, db': Db, reply: Reply) {
    match reply
    case Aborted => db' == db
    case Replay(original, cursor) => db' == db && IsFiled(db, device, ch, original)
    case Answer(outcome) =>
      if ReceiptKey(device, ch.key) in db.receipts
          then db' == db && outcome.Rejected? && outcome.code == IdempotencyKeyReuse
      else exists applied :: Concludes(db, device, ch, applied, db', outcome)
  }

  /** The change took the tables to `applied`; the receipt made them `db'`. */
  ghost predicate Concludes(db: Db, device: Id, ch: Change, applied: Db, db': Db, outcome: Outcome) {
    && db' == applied.(receipts :=
         applied.receipts[ReceiptKey(device, ch.key) := Receipt(device, OfTables(ch), outcome)])
    && applied.receipts == db.receipts
    && Effect(db, ch, applied, outcome)
  }

  ghost predicate Effect(db: Db, ch: Change, applied: Db, outcome: Outcome) {
    if outcome.Accepted? then RowStep(db, ch, applied, outcome) || StockStep(db, ch, applied, outcome)
    else Quiet(db, applied) && Remembers(db, applied)
  }

  predicate IsFiled(db: Db, device: Id, ch: Change, outcome: Outcome) {
    var k := ReceiptKey(device, ch.key);
    k in db.receipts && db.receipts[k] == Receipt(device, OfTables(ch), outcome)
  }

  lemma ProcessExplained(db: Db, device: Id, base: int, ch: Change, today: Day, fault: Fault)
    requires Inv(db)
    ensures var done := Process(db, device, base, ch, today, fault); Explained(db, device, ch, done.0, done.1)
  {
    if ReceiptKey(device, ch.key) !in db.receipts && base <= Cursor(db) && ValidChange(ch) {
      var applied := GuardedChange(db, device, ch, today, fault);
      if applied.Ok? {
        AppliedSteps(db, device, ch, today);
        var done := Process(db, device, base, ch, today, fault);
        assert done.1.Answer? ==> Concludes(db, device, ch, applied.value.0, done.0, done.1.outcome);
      } else if Guarded(applied.error).Business? {
        var recovered := BusinessOutcome(db, device, ch, Guarded(applied.error).code,
                                         Guarded(applied.error).serverVersion);
        if recovered.Ok? {
          var done := Process(db, device, base, ch, today, fault);
          assert done.1.Answer? ==> Concludes(db, device, ch, recovered.value.0, done.0, done.1.outcome);
        }
      }
    } else {
      var done := Process(db, device, base, ch, today, fault);
      if done.1.Answer? && ReceiptKey(device, ch.key) !in db.receipts {
        assert Concludes(db, device, ch, db, done.0, done.1.outcome);
      }
    }
  }

  /** Whatever a change does, if it is not accepted then no row, record or log entry has changed; and an
      aborted or replayed change, or a reused key, leaves the whole database as it was. */
  lemma RefusedChangesNothing(db: Db, device: Id, base: int, ch: Change, today: Day, fault: Fault)
    requires Inv(db)
    ensures var done := Process(db, device, base, ch, today, fault);
            && (done.1.Aborted? || done.1.Replay? || ReceiptKey(device, ch.key) in db.receipts ==> done.0 == db)
            && (done.1.Answer? && !done.1.outcome.Accepted? ==> Quiet(db, done.0))
  {
    ProcessExplained(db, device, base, ch, today, fault);
  }

  // ---- the invariant and the history

  lemma RecordReceipt(db: Db, k: ReceiptKey, receipt: Receipt)
    requires Inv(db) && k !in db.receipts
    requires Booking(receipt) ==> Backed(receipt, db.log)
    ensures var db' := db.(receipts := db.receipts[k := receipt]); Inv(db') && Evolves(db, db')
  {
    History.MetadataEvolves(db, db.(receipts := db.receipts[k := receipt]));
  }

  lemma AcceptedKeeps(db: Db, device: Id, ch: Change, applied: Db, outcome: Outcome)
    requires Inv(db) && Effect(db, ch, applied, outcome) && outcome.Accepted?
    ensures Inv(applied) && Evolves(db, applied) && Backed(Receipt(device, OfTables(ch), outcome), applied.log)
  {
    if RowStep(db, ch, applied, outcome) {
      var key := ch.operation.key;
      PublishInv(db, key, applied.rows[key], ch.id);
      History.PublishEvolves(db, key, applied.rows[key], ch.id);
    } else {
      var shifts, notes :| IsMove(db, ch, applied, shifts, notes);
      PublishStockInv(db, shifts, notes, ch.id);
      History.PublishStockEvolves(db, shifts, notes, ch.id);
    }
    assert applied.log[|db.log|].change == ch.id && applied.log[|db.log|].cursor == outcome.cursor;
  }

  lemma EffectKeeps(db: Db, device: Id, ch: Change, applied: Db, outcome: Outcome)
    requires Inv(db) && Effect(db, ch, applied, outcome) && applied.receipts == db.receipts
    ensures Inv(applied) && Evolves(db, applied)
    ensures outcome.Accepted? ==> Backed(Receipt(device, OfTables(ch), outcome), applied.log)
  {
    if outcome.Accepted? {
      AcceptedKeeps(db, device, ch, applied, outcome);
    } else {
      History.MetadataEvolves(db, applied);
    }
  }

  /** One pushed change, with whatever failure the database adds, keeps the invariant and all that a
      stretch of history promises. */
  lemma ProcessKeeps(db: Db, device: Id, base: int, ch: Change, today: Day, fault: Fault)
    requires Inv(db)
    ensures var db' := Process(db, device, base, ch, today, fault).0; Inv(db') && Evolves(db, db')
  {
    var done := Process(db, device, base, ch, today, fault);
    ProcessExplained(db, device, base, ch, today, fault);
    var k := ReceiptKey(device, ch.key);
    if done.0 == db {
      History.MetadataEvolves(db, db);
    } else {
      var outcome := done.1.outcome;
      var applied :| Concludes(db, device, ch, applied, done.0, outcome);
      EffectKeeps(db, device, ch, applied, outcome);
      RecordReceipt(applied, k, Receipt(device, OfTables(ch), outcome));
      History.EvolvesTransitive(db, applied, done.0);
    }
  }

  // ---- accepted writes

  predicate Accepts(reply: Reply) {
    reply.Answer? && reply.outcome.Accepted?
  }

  /** No lost update: an accepted entity change was applied to exactly the version it was based on, raises
      it by one, touches no other row, and logs exactly the row it wrote. */
  lemma AcceptedEntityChange(db: Db, device: Id, base: int, ch: Change, today: Day, fault: Fault)
    requires Inv(db) && !ch.operation.Inventory?
    requires Accepts(Process(db, device, base, ch, today, fault).1)
    ensures var db' := Process(db, device, base, ch, today, fault).0;
            var outcome := Process(db, device, base, ch, today, fault).1.outcome;
            var key := ch.operation.key;
            && VersionOf(db.rows, key) == ch.operation.baseVersion
            && key in db'.rows && db'.rows[key].version == outcome.version == ch.operation.baseVersion + 1
            && db'.rows == db.rows[key := db'.rows[key]]
            && db'.records == db.records
            && db'.log == db.log + [RowEntry(outcome.cursor, ch.id, key, db'.rows[key])]
            && outcome.cursor > Cursor(db)
            && (ch.operation.Delete? ==> db'.rows[key] == db.rows[key].(version := outcome.version, deleted := true))
            && (ch.operation.Upsert? ==> !db'.rows[key].deleted && SameStock(db, db', key))
  {
    ProcessExplained(db, device, base, ch, today, fault);
  }

  ghost predicate SameStock(db: Db, db': Db, key: Key)
    requires key in db'.rows
  {
    if key in db.rows then
      && db'.rows[key].quantity == db.rows[key].quantity
      && db'.rows[key].initial == db.rows[key].initial
      && db'.rows[key].status == db.rows[key].status
    else db'.rows[key].quantity == 0
  }

  /** An accepted command: the entry's allocations name distinct batches and carry the stored quantity and
      version of each batch before and after; every other row is as it was; one record per allocation. */
  lemma AcceptedCommand(db: Db, device: Id, base: int, ch: Change, today: Day, fault: Fault)
    requires Inv(db) && ch.operation.Inventory?
    ensures var done := Process(db, device, base, ch, today, fault);
            Accepts(done.1) ==> exists cursor: nat, allocations: seq<Settled> ::
                CommandEffect(db, done.0, ch, cursor, allocations)
                    && done.1.outcome == Accepted(allocations[0].afterVersion, cursor)
  {
    ProcessExplained(db, device, base, ch, today, fault);
    var done := Process(db, device, base, ch, today, fault);
    if Accepts(done.1) {
      var applied :| Concludes(db, device, ch, applied, done.0, done.1.outcome);
      assert StockStep(db, ch, applied, done.1.outcome);
      StepEffect(db, applied, ch, done.1.outcome);
      var cursor: nat, allocations: seq<Settled> :|
          CommandEffect(db, applied, ch, cursor, allocations)
              && done.1.outcome == Accepted(allocations[0].afterVersion, cursor);
      assert CommandEffect(db, done.0, ch, cursor, allocations);
    }
  }

  lemma StepEffect(db: Db, applied: Db, ch: Change, outcome: Outcome)
    requires Inv(db) && StockStep(db, ch, applied, outcome)
    ensures exists cursor: nat, allocations: seq<Settled> ::
                CommandEffect(db, applied, ch, cursor, allocations)
                    && outcome == Accepted(allocations[0].afterVersion, cursor)
  {
    var shifts, notes :| IsMove(db, ch, applied, shifts, notes) && Tells(db, applied, shifts, outcome);
    MoveEffect(db, applied, ch, shifts, notes);
    var allocations := SettleAll(db.rows, shifts);
    assert CommandEffect(db, applied, ch, db.sequence + 1, allocations);
    assert outcome == Accepted(allocations[0].afterVersion, db.sequence + 1);
  }

  lemma QuotedAll(db: Db, shifts: seq<Shift>)
    requires ValidShifts(db.rows, shifts)
    ensures var allocations := SettleAll(db.rows, shifts);
            && (forall i :: 0 <= i < |allocations| ==> Quoted(db.rows, ShiftAll(db.rows, shifts), allocations[i]))
            && (forall i, j :: 0 <= i < j < |allocations| ==> allocations[i].batch != allocations[j].batch)
  {
    forall i | 0 <= i < |shifts| ensures Quoted(db.rows, ShiftAll(db.rows, shifts), SettleAll(db.rows, shifts)[i]) {
      History.AllocationsAreStored(db, shifts, i);
    }
  }

  lemma OthersUntouched(rows: Rows, shifts: seq<Shift>, key: Key)
    requires ValidShifts(rows, shifts)
    requires key in rows && !Names(SettleAll(rows, shifts), key)
    ensures key in ShiftAll(rows, shifts) && ShiftAll(rows, shifts)[key] == rows[key]
  {
    ShiftAllAt(rows, shifts, key);
    assert forall i :: 0 <= i < |shifts| ==> SettleAll(rows, shifts)[i].batch == shifts[i].batch;
  }

  lemma MoveEffect(db: Db, applied: Db, ch: Change, shifts: seq<Shift>, notes: seq<Record>)
    requires Inv(db) && IsMove(db, ch, applied, shifts, notes)
    ensures CommandEffect(db, applied, ch, db.sequence + 1, SettleAll(db.rows, shifts))
  {
    QuotedAll(db, shifts);
    forall key | key in db.rows && !Names(SettleAll(db.rows, shifts), key)
      ensures key in applied.rows && applied.rows[key] == db.rows[key]
    {
      OthersUntouched(db.rows, shifts, key);
    }
    NotesMatch(db, applied, ch, shifts, notes);
  }

  lemma NotesMatch(db: Db, applied: Db, ch: Change, shifts: seq<Shift>, notes: seq<Record>)
    requires IsMove(db, ch, applied, shifts, notes)
    ensures NotedAs(db.records, applied.records, SettleAll(db.rows, shifts))
  {
  }

  /** One record per allocation, with the difference it made. */
  ghost predicate NotedAs(records: seq<Record>, records': seq<Record>, allocations: seq<Settled>) {
    && records <= records' && |records'| == |records| + |allocations|
    && forall i :: 0 <= i < |allocations| ==>
         var note := records'[|records| + i];
         note.batch == allocations[i].batch && note.change == allocations[i].final - allocations[i].before
  }

  predicate Names(allocations: seq<Settled>, key: Key) {
    exists i :: 0 <= i < |allocations| && BatchKey(allocations[i].batch) == key
  }

  ghost predicate Quoted(rows: Rows, rows': Rows, a: Settled) {
    var key := BatchKey(a.batch);
    && key in rows && key in rows'
    && a.before == rows[key].quantity && a.beforeVersion == rows[key].version
    && a.final == rows'[key].quantity && a.afterVersion == rows'[key].version
    && a.afterVersion == a.beforeVersion + 1 && a.final >= 0
    && a.quantity == if a.final < a.before then a.before - a.final else a.final - a.before
  }

  ghost predicate CommandEffect(db: Db, db': Db, ch: Change, cursor: nat, allocations: seq<Settled>) {
    && db'.log == db.log + [StockEntry(cursor, ch.id, allocations)]
    && cursor > Cursor(db)
    && allocations != []
    && (forall i, j :: 0 <= i < j < |allocations| ==> allocations[i].batch != allocations[j].batch)
    && (forall i :: 0 <= i < |allocations| ==> Quoted(db.rows, db'.rows, allocations[i]))
    && (forall key :: key in db.rows && !Names(allocations, key) ==> key in db'.rows && db'.rows[key] == db.rows[key])
    && NotedAs(db.records, db'.records, allocations)
  }

  // ---- receipts

  lemma {:induction false} BatchesErrorCode(rows: Rows, lines: seq<Line>)
    ensures BatchesError(rows, lines).Some? ==>
              BatchesError(rows, lines).value.Business? && BatchesError(rows, lines).value.code != IdempotencyKeyReuse
  {
    if lines != [] {
      BatchesErrorCode(rows, lines[..|lines| - 1]);
    }
  }

  lemma {:induction false} LinesErrorCode(rows: Rows, lines: seq<Line>, today: Day)
    ensures var r := CheckLines(rows, lines, today); r.Err? ==> r.error.Business? && r.error.code != IdempotencyKeyReuse
  {
    if lines != [] {
      LinesErrorCode(rows, lines[..|lines| - 1], today);
    }
  }

  predicate NotReuse(f: Failure) {
    f.Raw? || f.code != IdempotencyKeyReuse
  }

  lemma PlanNeverReuse(rows: Rows, c: Command, today: Day)
    ensures Plan(rows, c, today).Err? ==> NotReuse(Plan(rows, c, today).error)
  {
    LinesErrorCode(rows, c.allocations, today);
  }

  lemma CommandNeverReuse(db: Db, device: Id, ch: Change, today: Day)
    requires ch.operation.Inventory?
    ensures CommandResult(db, device, ch, today).Err? ==> NotReuse(CommandResult(db, device, ch, today).error)
  {
    BatchesErrorCode(db.rows, ch.operation.lines);
    PlanNeverReuse(db.rows, ToCommand(device, ch), today);
  }

  predicate OutcomeNotReuse(r: Result<(Db, Outcome)>) {
    match r
    case Ok(done) => !KeyReused(Answer(done.1))
    case Err(f) => NotReuse(f)
  }

  lemma AppliedNeverReuse(db: Db, device: Id, ch: Change, today: Day)
    ensures OutcomeNotReuse(Applied(db, device, ch, today))
  {
    if ch.operation.Inventory? {
      CommandNeverReuse(db, device, ch, today);
    } else if ch.operation.Upsert? {
      UpsertNeverReuse(db, ch.operation.key, ch.operation.baseVersion, ch.operation.patch);
    }
  }

  lemma UpsertNeverReuse(db: Db, key: Key, base: int, patch: Patch)
    ensures UpsertRow(db, key, base, patch).Err? ==> NotReuse(UpsertRow(db, key, base, patch).error)
  {
  }

  lemma OnlyReceiptsAdded(db: Db, device: Id, base: int, ch: Change, today: Day, fault: Fault)
    ensures var done := Process(db, device, base, ch, today, fault);
            var k := ReceiptKey(device, ch.key);
            if k in db.receipts || done.1.Aborted? then done.0 == db
            else done.1.Answer? && !KeyReused(done.1)
                 && done.0.receipts == db.receipts[k := Receipt(device, OfTables(ch), done.1.outcome)]
  {
    AppliedNeverReuse(db, device, ch, today);
    var applied := GuardedChange(db, device, ch, today, fault);
    if applied.Ok? {
      AppliedKeepsReceipts(db, device, ch, today);
    } else if Guarded(applied.error).Business? {
      var f := Guarded(applied.error);
      assert OutcomeNotReuse(BusinessOutcome(db, device, ch, f.code, f.serverVersion));
    }
  }

  lemma AppliedKeepsReceipts(db: Db, device: Id, ch: Change, today: Day)
    ensures var r := Applied(db, device, ch, today); r.Ok? ==> r.value.0.receipts == db.receipts
  {
  }

  lemma ProcessSettles(db: Db, device: Id, base: int, ch: Change, today: Day, fault: Fault)
    requires Filed(db.receipts)
    ensures var done := Process(db, device, base, ch, today, fault);
            Filed(done.0.receipts) && (!done.1.Aborted? ==> InReceipts(done.0.receipts, device, OfTables(ch), done.1))
  {
    OnlyReceiptsAdded(db, device, base, ch, today, fault);
  }

  /** Once settled, a change is settled for good: whatever happened in between, repeating it, under any
      cursor and on any day, writes nothing and tells the first outcome. */
  lemma SettledForGood(db: Db, later: Db, device: Id, base: int, ch: Change, reply: Reply, today: Day, fault: Fault)
    requires Filed(db.receipts) && InReceipts(db.receipts, device, OfTables(ch), reply)
    requires KeepsReceipts(db.receipts, later.receipts) && !fault.Outside?
    ensures InReceipts(later.receipts, device, OfTables(ch), reply)
    ensures var again := Process(later, device, base, ch, today, fault);
            && again.0 == later
            && (if KeyReused(reply) then KeyReused(again.1) else again.1 == Replay(Told(reply), Cursor(later)))
  {
    assert Filable(ReceiptKey(device, ch.key), db.receipts[ReceiptKey(device, ch.key)]);
    LookupAgain(db.receipts, later.receipts, device, OfTables(ch), reply, base, Cursor(later));
  }

  /** A change id is accepted at most once, whatever key or device it comes under. */
  lemma ChangeIdAcceptedOnce(db: Db, later: Db, device: Id, device': Id, base: int, base': int, ch: Change,
                             again: Change,
                             today: Day, today': Day, fault: Fault, fault': Fault)
    requires Inv(db) && Inv(later) && again.id == ch.id
    ensures var first := Process(db, device, base, ch, today, fault);
            Accepts(first.1) && first.0.log <= later.log ==>
                !Accepts(Process(later, device', base', again, today', fault').1)
  {
    ProcessExplained(db, device, base, ch, today, fault);
    ProcessExplained(later, device', base', again, today', fault');
    var first := Process(db, device, base, ch, today, fault);
    if Accepts(first.1) && first.0.log <= later.log {
      assert first.0.log[|db.log|].change == ch.id;
      assert later.log[|db.log|] == first.0.log[|db.log|];
      assert Logged(later.log, ch.id);
    }
  }
}
