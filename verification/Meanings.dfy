/** What an accepted change does to the rows, said without the functions that compute it. */
module Meanings {
  import opened Types
  import opened Tables
  import opened Ledger
  import opened Database
  import opened Inventory
  import opened SyncSpec
  import opened SyncSafety
  import Fefo
  import Plans

  // ---- upserts

  /** The row after an upsert: the patch's columns take its values and all others stay; parent and expiry
      change only when the patch names them, and only where the kind has them. */
  ghost predicate Patched(key: Key, before: Option<Row>, after: Row, patch: Patch) {
    var columns := if before.Some? then before.value.columns else map[];
    && after.columns.Keys == columns.Keys + patch.columns.Keys
    && (forall c :: c in patch.columns ==> after.columns[c] == patch.columns[c])
    && (forall c :: c in columns && c !in patch.columns ==> after.columns[c] == columns[c])
    && (if HasParent(key.kind) && patch.parent.Replace?
        then (if patch.parent.value.NoParent? then after.parent == None
              else patch.parent.value.ref.Uuid? && after.parent == Some(patch.parent.value.ref.id))
        else after.parent == (if before.Some? then before.value.parent else None))
    && (if key.kind == ProductBatches && patch.expiry.Replace? then after.expiry == patch.expiry.value
        else after.expiry == if before.Some? then before.value.expiry else None)
  }

  function RowBefore(rows: Rows, key: Key): Option<Row> {
    if key in rows then Some(rows[key]) else None
  }

  lemma UpsertPatches(db: Db, key: Key, base: int, patch: Patch)
    requires Inv(db) && base == CurrentVersion(db, key) && UpsertRow(db, key, base, patch).Ok?
    ensures Patched(key, RowBefore(db.rows, key), UpsertRow(db, key, base, patch).value, patch)
    ensures HasParent(key.kind) && patch.parent.Replace? && patch.parent.value.Parent? ==>
              patch.parent.value.ref.Uuid?
                  && SyncSpec.Active(db.rows, Key(ParentKind(key.kind), patch.parent.value.ref.id))
  {
    if key in db.rows {
      assert SoundRow(key, db.rows[key]);
    }
  }

  lemma AcceptedIsApplied(db: Db, device: Id, base: int, ch: Change, today: Day, fault: Fault)
    requires Inv(db)
    requires Accepts(Process(db, device, base, ch, today, fault).1)
    ensures Applied(db, device, ch, today).Ok? && Applied(db, device, ch, today).value.1.Accepted?
    ensures Process(db, device, base, ch, today, fault).0.rows == Applied(db, device, ch, today).value.0.rows
  {
  }

  /** An accepted upsert leaves exactly the patched row, under an active parent if it names one. */
  lemma AcceptedUpsertIsPatched(db: Db, device: Id, base: int, ch: Change, today: Day, fault: Fault)
    requires Inv(db) && ch.operation.Upsert?
    requires Accepts(Process(db, device, base, ch, today, fault).1)
    ensures var after := Process(db, device, base, ch, today, fault).0.rows;
            var key, patch := ch.operation.key, ch.operation.patch;
            && key in after && Patched(key, RowBefore(db.rows, key), after[key], patch)
            && (HasParent(key.kind) && patch.parent.Replace? && patch.parent.value.Parent? ==>
                  patch.parent.value.ref.Uuid?
                      && SyncSpec.Active(db.rows, Key(ParentKind(key.kind), patch.parent.value.ref.id)))
  {
    AcceptedIsApplied(db, device, base, ch, today, fault);
    UpsertPatches(db, ch.operation.key, ch.operation.baseVersion, ch.operation.patch);
  }

  // ---- which lines can be consumed

  /** A line asks for a positive amount of a live, available, unexpired batch that holds it. */
  ghost predicate Consumable(rows: Rows, line: Line, today: Day) {
    && line.batch.Uuid? && line.quantity >= 1
    && BatchKey(line.batch.id) in rows
    && var row := rows[BatchKey(line.batch.id)];
    && !row.deleted && Available(row.status) && row.quantity >= line.quantity
    && (row.expiry.Some? ==> row.expiry.value >= today)
  }

  /** Allocated lines are accepted exactly when every one is consumable and none repeats a batch text. */
  lemma {:induction false} LinesAcceptedIff(rows: Rows, lines: seq<Line>, today: Day)
    ensures CheckLines(rows, lines, today).Ok? <==>
              && (forall i :: 0 <= i < |lines| ==> Consumable(rows, lines[i], today))
              && (forall i, j :: 0 <= i < j < |lines| ==> lines[i].batch != lines[j].batch)
  {
    if lines != [] {
      var front, last := lines[..|lines| - 1], lines[|lines| - 1];
      LinesAcceptedIff(rows, front, today);
      assert lines == front + [last];
      assert CheckLine(rows, front, last, today).Ok? <==>
               Consumable(rows, last, today) && forall i :: 0 <= i < |front| ==> front[i].batch != last.batch;
      assert forall i :: 0 <= i < |front| ==> front[i] == lines[i];
    }
  }

  // ---- inventory commands

  /** What an allocation takes out of its batch (negative for a restock). */
  function Taken(a: Settled): int {
    a.before - a.final
  }

  /** The allocations are the ones the command calls for. */
  ghost predicate CalledFor(rows: Rows, op: Operation, today: Day, allocations: seq<Settled>)
    requires op.Inventory?
  {
    match op.name
    case ConsumeFefo =>
      op.product.Uuid? && Plans.RowPlan(rows, op.product.id, op.quantity, today, PartsOf(allocations))
    case ConsumeAllocated =>
      && |allocations| == |op.lines|
      && forall i :: 0 <= i < |allocations| ==>
           op.lines[i].batch.Uuid? && allocations[i].batch == op.lines[i].batch.id
               && Taken(allocations[i]) == op.lines[i].quantity
    case Restock =>
      |op.lines| == 1 && |allocations| == 1 && op.lines[0].batch.Uuid?
      && allocations[0].batch == op.lines[0].batch.id && -Taken(allocations[0]) == op.lines[0].quantity >= 1
    case Discard =>
      |op.lines| == 1 && |allocations| == 1 && op.lines[0].batch.Uuid?
      && allocations[0].batch == op.lines[0].batch.id && Taken(allocations[0]) == op.lines[0].quantity
           && allocations[0].final == 0
  }

  /** What the allocations take, batch by batch. */
  function PartsOf(allocations: seq<Settled>): (r: seq<Plans.Part>)
    ensures |r| == |allocations|
    ensures forall i :: 0 <= i < |r| ==> r[i] == Plans.Part(allocations[i].batch, Taken(allocations[i]))
  {
    seq(|allocations|, i requires 0 <= i < |allocations| => Plans.Part(allocations[i].batch, Taken(allocations[i])))
  }

  /** The batch rows afterwards: status by what is left, the initial quantity raised by a restock only. */
  ghost predicate RowsSettled(rows: Rows, rows': Rows, name: CommandName, allocations: seq<Settled>) {
    forall i :: 0 <= i < |allocations| ==> RowSettled(rows, rows', name, allocations[i])
  }

  ghost predicate RowSettled(rows: Rows, rows': Rows, name: CommandName, a: Settled) {
    var key := BatchKey(a.batch);
    && key in rows && key in rows'
    && rows'[key] == rows[key].(
         quantity := a.final,
         version := rows[key].version + 1,
         status := if name == Discard then Discarded else if a.final == 0 then UsedUp else Status.Active,
         initial := if name == Restock then rows[key].initial + a.final - a.before else rows[key].initial)
  }

  lemma ShiftSettles(rows: Rows, name: CommandName, plan: seq<Allocation>, i: nat)
    requires SoundRows(rows) && PlanHolds(rows, name, plan) && i < |plan|
    requires ValidShifts(rows, ShiftsOf(ChangesOf(name, plan)))
    ensures var shifts := ShiftsOf(ChangesOf(name, plan));
            RowSettled(rows, ShiftAll(rows, shifts), name, SettleAll(rows, shifts)[i])
  {
    var shifts := ShiftsOf(ChangesOf(name, plan));
    var key := BatchKey(shifts[i].batch);
    assert AllocationHolds(rows, name, plan[i]);
    assert SoundRow(key, rows[key]);
    FindShiftAt(shifts, i);
    ShiftAllAt(rows, shifts, key);
  }

  lemma PlanFollows(rows: Rows, product: Id, quantity: int, today: Day, takes: seq<Fefo.Take>,
                    allocations: seq<Settled>)
    requires Fefo.Allocate(SelectBatches(rows, product), quantity, today) == Ok(takes)
    requires |allocations| == |takes|
    requires forall i :: 0 <= i < |takes| ==>
               allocations[i].batch == takes[i].id && Taken(allocations[i]) == takes[i].quantity
    ensures Plans.RowPlan(rows, product, quantity, today, PartsOf(allocations))
  {
    Plans.AllocatedIsRowPlan(rows, product, quantity, today, takes);
    assert PartsOf(allocations) == Plans.PartsOf(takes);
  }

  /** The allocations name the planned batches, with the planned amounts. */
  ghost predicate Mirrors(name: CommandName, plan: seq<Allocation>, allocations: seq<Settled>) {
    && |allocations| == |plan|
    && forall i :: 0 <= i < |plan| ==>
         allocations[i].batch == IdOf(plan[i].batch) && Taken(allocations[i]) == -QuantityDelta(name, plan[i].quantity)
         && allocations[i].before == plan[i].before
  }

  lemma SettledMirrors(rows: Rows, name: CommandName, plan: seq<Allocation>)
    requires PlanHolds(rows, name, plan) && ValidShifts(rows, ShiftsOf(ChangesOf(name, plan)))
    ensures Mirrors(name, plan, SettleAll(rows, ShiftsOf(ChangesOf(name, plan))))
  {
    forall i | 0 <= i < |plan| ensures rows[BatchKey(IdOf(plan[i].batch))].quantity == plan[i].before {
      assert AllocationHolds(rows, name, plan[i]);
    }
  }

  lemma {:induction false} LinesAreCalledFor(rows: Rows, lines: seq<Line>, today: Day, i: nat)
    requires CheckLines(rows, lines, today).Ok? && i < |lines|
    ensures var plan := CheckLines(rows, lines, today).value;
            lines[i].batch.Uuid? && plan[i].batch == lines[i].batch && plan[i].quantity == lines[i].quantity
  {
    var front := lines[..|lines| - 1];
    if i < |front| {
      LinesAreCalledFor(rows, front, today, i);
      assert front[i] == lines[i];
    }
  }

  /** The command that ToCommand makes of an operation whose line count is right. */
  predicate Translates(op: Operation, c: Command) {
    && op.Inventory? && c.name == op.name
    && match op.name
       case ConsumeFefo => op.product.Uuid? && c.product == op.product.id && c.quantity == op.quantity
       case ConsumeAllocated => c.allocations == op.lines
       case _ => |op.lines| == 1 && c.batch == op.lines[0].batch && c.quantity == op.lines[0].quantity
  }

  lemma PlanIsCalledFor(rows: Rows, op: Operation, c: Command, today: Day, plan: seq<Allocation>,
                        allocations: seq<Settled>)
    requires Translates(op, c) && Plan(rows, c, today) == Ok(plan) && PlanHolds(rows, c.name, plan)
    requires Mirrors(c.name, plan, allocations)
    ensures CalledFor(rows, op, today, allocations)
  {
    match c.name
    case ConsumeFefo =>
      PlanFollows(rows, c.product, c.quantity, today,
                  Fefo.Allocate(SelectBatches(rows, c.product), c.quantity, today).value, allocations);
    case ConsumeAllocated =>
      forall i | 0 <= i < |plan|
        ensures plan[i].batch == c.allocations[i].batch && plan[i].quantity == c.allocations[i].quantity
                                        && c.allocations[i].batch.Uuid? {
        LinesAreCalledFor(rows, c.allocations, today, i);
      }
    case _ => assert AllocationHolds(rows, c.name, plan[0]);
  }

  /** An accepted command moves exactly what it calls for: a consumption follows the one FEFO plan for its
      quantity, or its own lines; a restock adds its quantity; a discard empties its batch for good. */
  lemma AcceptedCommandMeans(db: Db, device: Id, base: int, ch: Change, today: Day, fault: Fault)
    requires Inv(db) && ch.operation.Inventory?
    ensures var done := Process(db, device, base, ch, today, fault);
            Accepts(done.1) ==> exists allocations ::
                CalledFor(db.rows, ch.operation, today, allocations)
                    && RowsSettled(db.rows, done.0.rows, ch.operation.name, allocations)
  {
    if Accepts(Process(db, device, base, ch, today, fault).1) {
      AcceptedIsApplied(db, device, base, ch, today, fault);
      CommandMeans(db, device, ch, today);
      var shifts := CommandShifts(db, device, ch, today);
      assert Process(db, device, base, ch, today, fault).0.rows == ShiftAll(db.rows, shifts);
    }
  }

  lemma CommandMeans(db: Db, device: Id, ch: Change, today: Day)
    requires Inv(db) && ch.operation.Inventory? && CommandResult(db, device, ch, today).Ok?
    ensures exists allocations ::
              && CalledFor(db.rows, ch.operation, today, allocations)
              && RowsSettled(db.rows, ShiftAll(db.rows, CommandShifts(db, device, ch, today)), ch.operation.name,
                             allocations)
  {
    var c := ToCommand(device, ch);
    var plan := Plan(db.rows, c, today).value;
    CommandIsSound(db, device, ch, today);
    PlanGuarantees(db.rows, c, today);
    SettledMirrors(db.rows, c.name, plan);
    var allocations := SettleAll(db.rows, CommandShifts(db, device, ch, today));
    PlanIsCalledFor(db.rows, ch.operation, c, today, plan, allocations);
    CommandSettles(db, device, ch, today);
    assert CalledFor(db.rows, ch.operation, today, allocations);
  }

  lemma CommandSettles(db: Db, device: Id, ch: Change, today: Day)
    requires Inv(db) && ch.operation.Inventory? && CommandResult(db, device, ch, today).Ok?
    requires ValidShifts(db.rows, CommandShifts(db, device, ch, today))
    ensures var shifts := CommandShifts(db, device, ch, today);
            RowsSettled(db.rows, ShiftAll(db.rows, shifts), ch.operation.name, SettleAll(db.rows, shifts))
  {
    var c := ToCommand(device, ch);
    var plan := Plan(db.rows, c, today).value;
    PlanGuarantees(db.rows, c, today);
    forall i | 0 <= i < |plan|
      ensures RowSettled(db.rows, ShiftAll(db.rows, ShiftsOf(ChangesOf(c.name, plan))), c.name,
                         SettleAll(db.rows, ShiftsOf(ChangesOf(c.name, plan)))[i])
    {
      ShiftSettles(db.rows, c.name, plan, i);
    }
  }
}
