/** The inventory service over the bound PostgreSQL store: plan, apply, record. */
module Inventory {
  import opened Types
  import opened Tables
  import opened Ledger
  import opened Database
  import Fefo

  datatype Command = Command(
    name: CommandName,
    operation: OperationRef,
    device: Id,
    product: Id,
    batch: Ref,
    quantity: int,
    allocations: seq<Line>)

  datatype Allocation = Allocation(batch: Ref, quantity: int, before: int, final: int, beforeVersion: int,
                                   afterVersion: int)

  function QuantityDelta(name: CommandName, quantity: int): int {
    if name == Restock then quantity else -quantity
  }

  // ---- planning

  function Planned(batch: Ref, quantity: int, row: Row): Allocation {
    Allocation(batch, quantity, row.quantity, 0, row.version, 0)
  }

  function FromTakes(takes: seq<Fefo.Take>): (r: seq<Allocation>)
    ensures |r| == |takes|
    ensures forall i :: 0 <= i < |r| ==>
              r[i] == Allocation(Uuid(takes[i].id, 0), takes[i].quantity, takes[i].before, 0, takes[i].version, 0)
  {
    seq(|takes|, i requires 0 <= i < |takes| =>
        Allocation(Uuid(takes[i].id, 0), takes[i].quantity, takes[i].before, 0, takes[i].version, 0))
  }

  predicate Found(rows: Rows, batch: Ref) {
    batch.Uuid? && BatchKey(batch.id) in rows && !rows[BatchKey(batch.id)].deleted
  }

  predicate Lapsed(row: Row, today: Day) {
    row.expiry.Some? && row.expiry.value < today
  }

  /** One line of a consume_allocated command, after the lines in `earlier`. */
  function CheckLine(rows: Rows, earlier: seq<Line>, line: Line, today: Day): Result<Allocation> {
    if line.batch.Malformed? || line.quantity < 1 then Err(Business(ValidationFailed, 0))
    else if exists i :: 0 <= i < |earlier| && earlier[i].batch == line.batch then Err(Business(ValidationFailed, 0))
    else if !Found(rows, line.batch) then Err(Business(BatchUnavailable, 0))
    else
      var row := rows[BatchKey(line.batch.id)];
      if !Available(row.status) || row.quantity < line.quantity then Err(Business(InsufficientStock, 0))
      else if Lapsed(row, today) then Err(Business(BatchUnavailable, 0))
      else Ok(Planned(line.batch, line.quantity, row))
  }

  function CheckLines(rows: Rows, lines: seq<Line>, today: Day): (r: Result<seq<Allocation>>)
    ensures r.Ok? ==> |r.value| == |lines|
  {
    if lines == [] then Ok([])
    else
      var front := lines[..|lines| - 1];
      match CheckLines(rows, front, today)
      case Err(e) => Err(e)
      case Ok(before) =>
        match CheckLine(rows, front, lines[|lines| - 1], today)
        case Err(e) => Err(e)
        case Ok(a) => Ok(before + [a])
  }

  /** The result of `plan`: the allocations, or the error that refuses the command. */
  function Plan(rows: Rows, c: Command, today: Day): Result<seq<Allocation>> {
    match c.name
    case ConsumeFefo =>
      (match Fefo.Allocate(SelectBatches(rows, c.product), c.quantity, today)
       case Err(e) => Err(e)
       case Ok(takes) => Ok(FromTakes(takes)))
    case ConsumeAllocated =>
      if c.allocations == [] then Err(Business(ValidationFailed, 0)) else CheckLines(rows, c.allocations, today)
    case _ =>
      if c.batch.Malformed? || c.quantity < (if c.name == Restock then 1 else 0) then Err(Business(ValidationFailed, 0))
      else if !Found(rows, c.batch) then Err(Business(BatchUnavailable, 0))
      else
        var row := rows[BatchKey(c.batch.id)];
        if !Available(row.status) || row.quantity < 0 then Err(Business(BatchUnavailable, 0))
        else if c.name == Discard && c.quantity > row.quantity then Err(Business(InsufficientStock, 0))
        else if c.name == Discard && c.quantity != row.quantity then Err(Business(ValidationFailed, 0))
        else Ok([Planned(Uuid(c.batch.id, 0), c.quantity, row)])
  }

  // ---- what a successful plan guarantees

  ghost predicate PlanHolds(rows: Rows, name: CommandName, plan: seq<Allocation>) {
    && plan != []
    && (forall i :: 0 <= i < |plan| ==> AllocationHolds(rows, name, plan[i]))
    && (forall i, j :: 0 <= i < j < |plan| ==> plan[i].batch != plan[j].batch)
  }

  /** The allocation names a live, available batch, carries its stored quantity and version, and its
      amount can be moved; only a discard of an empty batch has amount 0. */
  ghost predicate AllocationHolds(rows: Rows, name: CommandName, a: Allocation) {
    && Found(rows, a.batch)
    && var row := rows[BatchKey(a.batch.id)];
    && Available(row.status)
    && a.before == row.quantity && a.beforeVersion == row.version
    && row.quantity + QuantityDelta(name, a.quantity) >= 0
    && (a.quantity >= 1 || (a.quantity == 0 && name == Discard))
    && (name == Discard ==> a.quantity == row.quantity)
    && (name != ConsumeAllocated ==> a.batch.spelling == 0)
  }

  lemma {:induction false} CheckLinesHolds(rows: Rows, lines: seq<Line>, today: Day)
    requires CheckLines(rows, lines, today).Ok?
    ensures var plan := CheckLines(rows, lines, today).value;
            && (forall i :: 0 <= i < |plan| ==>
                  plan[i].batch == lines[i].batch && AllocationHolds(rows, ConsumeAllocated, plan[i]))
            && (forall i, j :: 0 <= i < j < |plan| ==> plan[i].batch != plan[j].batch)
  {
    if lines != [] {
      CheckLinesHolds(rows, lines[..|lines| - 1], today);
    }
  }

  lemma FefoHolds(rows: Rows, product: Id, quantity: int, today: Day)
    requires Fefo.Allocate(SelectBatches(rows, product), quantity, today).Ok?
    ensures PlanHolds(rows, ConsumeFefo, FromTakes(Fefo.Allocate(SelectBatches(rows, product), quantity, today).value))
  {
    var batches := SelectBatches(rows, product);
    SelectUnique(rows, product);
    Fefo.TakesNameBatches(batches, quantity, today);
    var takes := Fefo.Allocate(batches, quantity, today).value;
    var plan := FromTakes(takes);
    forall i | 0 <= i < |plan| ensures AllocationHolds(rows, ConsumeFefo, plan[i]) {
      assert Fefo.Named(takes[i], batches, today);
      var b :| b in batches && Fefo.Eligible(b, today) && Fefo.Fills(takes[i], b);
      assert b in Listed(rows, product);
    }
    forall i, j | 0 <= i < j < |plan| ensures plan[i].batch != plan[j].batch {
      assert takes[i].id != takes[j].id;
    }
  }

  lemma SelectUnique(rows: Rows, product: Id)
    ensures Fefo.UniqueIds(SelectBatches(rows, product))
    ensures forall b :: b in SelectBatches(rows, product) <==> b in Listed(rows, product)
  {
    Fefo.SortAscending(Listed(rows, product));
    forall b ensures b in SelectBatches(rows, product) <==> b in Listed(rows, product) {
      assert b in multiset(SelectBatches(rows, product)) <==> b in multiset(Listed(rows, product));
    }
    var sorted := SelectBatches(rows, product);
    forall i, j | 0 <= i < j < |sorted| ensures sorted[i].id != sorted[j].id {
      assert Fefo.Before(sorted[i], sorted[j]);
      assert sorted[i] in sorted && sorted[j] in sorted;
      assert sorted[i] in Listed(rows, product) && sorted[j] in Listed(rows, product);
    }
  }

  lemma PlanGuarantees(rows: Rows, c: Command, today: Day)
    requires Plan(rows, c, today).Ok?
    ensures PlanHolds(rows, c.name, Plan(rows, c, today).value)
  {
    match c.name
    case ConsumeFefo => FefoHolds(rows, c.product, c.quantity, today);
    case ConsumeAllocated => CheckLinesHolds(rows, c.allocations, today);
    case _ =>
  }

  // ---- executing

  /** BatchChange: the batch as the plan spells it, the delta, and the new status of a discard. */
  datatype BatchChange = BatchChange(batch: Ref, delta: int, discard: bool)

  function Finished(name: CommandName, a: Allocation): Allocation {
    a.(final := a.before + QuantityDelta(name, a.quantity), afterVersion := a.beforeVersion + 1)
  }

  function FinishAll(name: CommandName, plan: seq<Allocation>): seq<Allocation> {
    seq(|plan|, i requires 0 <= i < |plan| => Finished(name, plan[i]))
  }

  function ChangeOf(name: CommandName, a: Allocation): BatchChange {
    BatchChange(a.batch, QuantityDelta(name, a.quantity), name == Discard)
  }

  function ChangesOf(name: CommandName, plan: seq<Allocation>): seq<BatchChange> {
    seq(|plan|, i requires 0 <= i < |plan| => ChangeOf(name, plan[i]))
  }

  function IdOf(batch: Ref): Id {
    if batch.Uuid? then batch.id else 0
  }

  function ShiftOf(c: BatchChange): Shift {
    Shift(IdOf(c.batch), c.delta, c.discard)
  }

  function ShiftsOf(changes: seq<BatchChange>): seq<Shift> {
    seq(|changes|, i requires 0 <= i < |changes| => ShiftOf(changes[i]))
  }

  function NoteOf(c: Command, a: Allocation): Record {
    Record(IdOf(a.batch), QuantityDelta(c.name, a.quantity), c.operation, Some(c.device))
  }

  function NotesOf(c: Command, plan: seq<Allocation>): seq<Record> {
    seq(|plan|, i requires 0 <= i < |plan| => NoteOf(c, plan[i]))
  }

  /** The idempotency key of a record is a digest of the texts of operation and batch, unique per family and
      device: another spelling of the same operation id is another key. */
  predicate AlreadyRecorded(records: seq<Record>, note: Record) {
    exists i ::
      0 <= i < |records| && records[i].batch == note.batch
      && records[i].operation == note.operation && records[i].device == note.device
  }

  /** Why a planned command can still fail: a batch spelled otherwise than it was locked under, a column
      that leaves INTEGER, an operation id that is no UUID, or a record that exists already. */
  function Obstacle(rows: Rows, records: seq<Record>, c: Command, plan: seq<Allocation>): Option<SqlState> {
    if exists i :: 0 <= i < |plan| && !Canonical(plan[i].batch) then Some(OtherFailure)
    else if exists i :: 0 <= i < |plan| && !Fits(rows, ShiftOf(ChangeOf(c.name, plan[i]))) then Some(InvalidData)
    else if c.operation.OperationText? && plan != [] then Some(InvalidData)
    else if exists i :: 0 <= i < |plan| && AlreadyRecorded(records, NoteOf(c, plan[i])) then Some(UniqueViolation)
    else None
  }

  predicate Canonical(batch: Ref) {
    batch.Uuid? && batch.spelling == 0
  }

  /** The result of the whole command when the database itself does not fail. */
  function Executed(rows: Rows, records: seq<Record>, c: Command, today: Day): Result<seq<Allocation>> {
    match Plan(rows, c, today)
    case Err(e) => Err(e)
    case Ok(plan) => Performed(rows, records, c, plan)
  }

  function Performed(rows: Rows, records: seq<Record>, c: Command, plan: seq<Allocation>): Result<seq<Allocation>> {
    match Obstacle(rows, records, c, plan)
    case Some(state) => Err(Raw(state))
    case None => Ok(FinishAll(c.name, plan))
  }

  lemma PlannedShifts(rows: Rows, c: Command, plan: seq<Allocation>)
    requires SoundRows(rows) && PlanHolds(rows, c.name, plan)
    requires forall i :: 0 <= i < |plan| ==> Canonical(plan[i].batch)
    requires forall i :: 0 <= i < |plan| ==> Fits(rows, ShiftOf(ChangeOf(c.name, plan[i])))
    ensures ValidShifts(rows, ShiftsOf(ChangesOf(c.name, plan)))
    ensures Booked(ShiftsOf(ChangesOf(c.name, plan)), NotesOf(c, plan))
  {
    var shifts := ShiftsOf(ChangesOf(c.name, plan));
    forall i, j | 0 <= i < j < |shifts| ensures shifts[i].batch != shifts[j].batch {
      assert plan[i].batch != plan[j].batch;
    }
    forall i | 0 <= i < |shifts|
      ensures Movable(rows, shifts[i]) && Fits(rows, shifts[i])
      ensures Available(rows[BatchKey(shifts[i].batch)].status)
      ensures shifts[i].discard ==> rows[BatchKey(shifts[i].batch)].quantity + shifts[i].delta == 0
    {
      assert AllocationHolds(rows, c.name, plan[i]);
    }
  }
}
