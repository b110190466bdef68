/** The first-expired-first-out plan, said over the stored rows alone. */
module Plans {
  import opened Types
  import opened Tables
  import opened Database
  import Fefo
  import Inventory

  /** So much of one batch. */
  datatype Part = Part(batch: Id, quantity: int)

  /** A batch of the product that can be drawn from: not deleted, active or used up, something left, and not
      past its day. */
  predicate Usable(rows: Rows, product: Id, id: Id, today: Day) {
    var key := BatchKey(id);
    && key in rows && !rows[key].deleted && rows[key].parent == Some(product)
    && (rows[key].status == Status.Active || rows[key].status == UsedUp)
    && rows[key].quantity >= 1
    && (rows[key].expiry.Some? ==> today <= rows[key].expiry.value)
  }

  /** The earlier day first, undated batches last, then by id. */
  predicate Sooner(rows: Rows, a: Id, b: Id)
    requires BatchKey(a) in rows && BatchKey(b) in rows
  {
    var x, y := rows[BatchKey(a)].expiry, rows[BatchKey(b)].expiry;
    || (x.Some? && y.None?)
    || (x.Some? && y.Some? && x.value < y.value)
    || (x == y && a < b)
  }

  function Sum(parts: seq<Part>): int {
    if parts == [] then 0 else parts[0].quantity + Sum(parts[1..])
  }

  /** The plan for a quantity: usable batches in order, each but the last emptied, the quantity in all, and no
      usable batch left out that comes before one of them. */
  ghost predicate RowPlan(rows: Rows, product: Id, quantity: int, today: Day, parts: seq<Part>) {
    && (forall i :: 0 <= i < |parts| ==> Usable(rows, product, parts[i].batch, today))
    && (forall i :: 0 <= i < |parts| ==> 1 <= parts[i].quantity <= rows[BatchKey(parts[i].batch)].quantity)
    && (forall i :: 0 <= i < |parts| - 1 ==> parts[i].quantity == rows[BatchKey(parts[i].batch)].quantity)
    && (forall i, j :: 0 <= i < j < |parts| ==> Sooner(rows, parts[i].batch, parts[j].batch))
    && Sum(parts) == quantity
    && (forall id :: Usable(rows, product, id, today) && !Drawn(parts, id) ==>
          parts != [] && Sooner(rows, parts[|parts| - 1].batch, id))
  }

  predicate Drawn(parts: seq<Part>, id: Id) {
    exists i :: 0 <= i < |parts| && parts[i].batch == id
  }

  /** The stock covers the quantity. */
  ghost predicate Coverable(rows: Rows, product: Id, quantity: int, today: Day) {
    exists parts :: RowPlan(rows, product, quantity, today, parts)
  }

  // ---- the planner's batches are these rows

  function Seen(rows: Rows, id: Id): Fefo.Batch
    requires BatchKey(id) in rows
  {
    Domain(id, rows[BatchKey(id)])
  }

  lemma UsableIs(rows: Rows, product: Id, id: Id, today: Day)
    ensures Usable(rows, product, id, today) <==>
              id in BatchesOf(rows, product) && BatchKey(id) in rows && Fefo.Eligible(Seen(rows, id), today)
  {
  }

  lemma SoonerIs(rows: Rows, a: Id, b: Id)
    requires BatchKey(a) in rows && BatchKey(b) in rows
    ensures Sooner(rows, a, b) <==> Fefo.Before(Seen(rows, a), Seen(rows, b))
  {
  }

  lemma SelectedIs(rows: Rows, product: Id, b: Fefo.Batch)
    ensures b in SelectBatches(rows, product) <==>
              b.id in BatchesOf(rows, product) && BatchKey(b.id) in rows && b == Seen(rows, b.id)
  {
    Inventory.SelectUnique(rows, product);
  }

  function PartsOf(takes: seq<Fefo.Take>): (r: seq<Part>)
    ensures |r| == |takes| && forall i :: 0 <= i < |r| ==> r[i] == Part(takes[i].id, takes[i].quantity)
  {
    seq(|takes|, i requires 0 <= i < |takes| => Part(takes[i].id, takes[i].quantity))
  }

  lemma {:induction false} SumIsTotal(takes: seq<Fefo.Take>)
    ensures Sum(PartsOf(takes)) == Fefo.Total(takes)
  {
    if takes != [] {
      SumIsTotal(takes[1..]);
      assert PartsOf(takes)[1..] == PartsOf(takes[1..]);
    }
  }

  /** The batches that the parts draw from, as the planner sees them. */
  ghost predicate Sees(rows: Rows, used: seq<Fefo.Batch>, takes: seq<Fefo.Take>) {
    && |used| == |takes|
    && forall i :: 0 <= i < |used| ==> BatchKey(takes[i].id) in rows && used[i] == Seen(rows, takes[i].id)
  }

  lemma UsedAreSeen(rows: Rows, product: Id, quantity: int, today: Day, used: seq<Fefo.Batch>, takes: seq<Fefo.Take>)
    requires Fefo.FefoPlan(used, takes, SelectBatches(rows, product), quantity, today)
    ensures Sees(rows, used, takes)
  {
    forall i | 0 <= i < |used| ensures BatchKey(takes[i].id) in rows && used[i] == Seen(rows, takes[i].id) {
      SelectedIs(rows, product, used[i]);
      assert Fefo.Fills(takes[i], used[i]);
    }
  }

  lemma FefoIsRowPlan(rows: Rows, product: Id, quantity: int, today: Day, used: seq<Fefo.Batch>, takes: seq<Fefo.Take>)
    requires Fefo.FefoPlan(used, takes, SelectBatches(rows, product), quantity, today)
    ensures RowPlan(rows, product, quantity, today, PartsOf(takes))
  {
    var parts := PartsOf(takes);
    UsedAreSeen(rows, product, quantity, today, used, takes);
    SumIsTotal(takes);
    forall i | 0 <= i < |parts|
      ensures Usable(rows, product, parts[i].batch, today)
      ensures 1 <= parts[i].quantity <= rows[BatchKey(parts[i].batch)].quantity
    {
      SelectedIs(rows, product, used[i]);
      UsableIs(rows, product, parts[i].batch, today);
      assert Fefo.Fills(takes[i], used[i]);
    }
    forall i, j | 0 <= i < j < |parts| ensures Sooner(rows, parts[i].batch, parts[j].batch) {
      SoonerIs(rows, parts[i].batch, parts[j].batch);
    }
    forall id | Usable(rows, product, id, today) && !Drawn(parts, id)
      ensures parts != [] && Sooner(rows, parts[|parts| - 1].batch, id)
    {
      UsableIs(rows, product, id, today);
      SelectedIs(rows, product, Seen(rows, id));
      forall i | 0 <= i < |used| ensures used[i] != Seen(rows, id) {
        assert parts[i].batch != id;
      }
      SoonerIs(rows, parts[|parts| - 1].batch, id);
    }
  }

  /** The planner's view of a plan over the rows. */
  function TakesOf(rows: Rows, parts: seq<Part>): (r: seq<Fefo.Take>)
    requires forall i :: 0 <= i < |parts| ==> BatchKey(parts[i].batch) in rows
    ensures |r| == |parts|
    ensures forall i :: 0 <= i < |r| ==>
              var row := rows[BatchKey(parts[i].batch)];
              r[i] == Fefo.Take(parts[i].batch, parts[i].quantity, row.quantity, row.version)
  {
    seq(|parts|, i requires 0 <= i < |parts| =>
      var row := rows[BatchKey(parts[i].batch)];
      Fefo.Take(parts[i].batch, parts[i].quantity, row.quantity, row.version))
  }

  function BatchesSeen(rows: Rows, parts: seq<Part>): (r: seq<Fefo.Batch>)
    requires forall i :: 0 <= i < |parts| ==> BatchKey(parts[i].batch) in rows
    ensures |r| == |parts| && forall i :: 0 <= i < |r| ==> r[i] == Seen(rows, parts[i].batch)
  {
    seq(|parts|, i requires 0 <= i < |parts| => Seen(rows, parts[i].batch))
  }

  lemma SkippedIsLater(rows: Rows, product: Id, quantity: int, today: Day, parts: seq<Part>, b: Fefo.Batch)
    requires RowPlan(rows, product, quantity, today, parts)
    requires b in SelectBatches(rows, product) && Fefo.Eligible(b, today) && b !in BatchesSeen(rows, parts)
    ensures parts != [] && Fefo.Before(BatchesSeen(rows, parts)[|parts| - 1], b)
  {
    SelectedIs(rows, product, b);
    UsableIs(rows, product, b.id, today);
    forall i | 0 <= i < |parts| ensures parts[i].batch != b.id {
      assert BatchesSeen(rows, parts)[i] != b;
    }
    SoonerIs(rows, parts[|parts| - 1].batch, b.id);
  }

  lemma PartIsTaken(rows: Rows, product: Id, quantity: int, today: Day, parts: seq<Part>, i: nat)
    requires RowPlan(rows, product, quantity, today, parts) && i < |parts|
    ensures var b := BatchesSeen(rows, parts)[i];
            b in SelectBatches(rows, product) && Fefo.Eligible(b, today) && Fefo.Fills(TakesOf(rows, parts)[i], b)
  {
    UsableIs(rows, product, parts[i].batch, today);
    SelectedIs(rows, product, BatchesSeen(rows, parts)[i]);
  }

  lemma RowPlanIsFefo(rows: Rows, product: Id, quantity: int, today: Day, parts: seq<Part>)
    requires RowPlan(rows, product, quantity, today, parts)
    ensures Fefo.FefoPlan(BatchesSeen(rows, parts), TakesOf(rows, parts), SelectBatches(rows, product), quantity, today)
  {
    var used, takes := BatchesSeen(rows, parts), TakesOf(rows, parts);
    SumIsTotal(takes);
    assert PartsOf(takes) == parts;
    forall i | 0 <= i < |used|
      ensures used[i] in SelectBatches(rows, product) && Fefo.Eligible(used[i], today) && Fefo.Fills(takes[i], used[i])
    {
      PartIsTaken(rows, product, quantity, today, parts, i);
    }
    forall i, j | 0 <= i < j < |used| ensures Fefo.Before(used[i], used[j]) {
      SoonerIs(rows, parts[i].batch, parts[j].batch);
    }
    forall b | b in SelectBatches(rows, product) && Fefo.Eligible(b, today) && b !in used
      ensures used != [] && Fefo.Before(used[|used| - 1], b)
    {
      SkippedIsLater(rows, product, quantity, today, parts, b);
    }
  }

  lemma TakesAreStored(rows: Rows, used: seq<Fefo.Batch>, takes: seq<Fefo.Take>)
    requires Sees(rows, used, takes) && forall i :: 0 <= i < |takes| ==> Fefo.Fills(takes[i], used[i])
    ensures takes == TakesOf(rows, PartsOf(takes))
  {
    var stored := TakesOf(rows, PartsOf(takes));
    forall i | 0 <= i < |takes| ensures takes[i] == stored[i] {
      assert Fefo.Fills(takes[i], used[i]);
    }
  }

  lemma AllocatedIsRowPlan(rows: Rows, product: Id, quantity: int, today: Day, takes: seq<Fefo.Take>)
    requires Fefo.Allocate(SelectBatches(rows, product), quantity, today) == Ok(takes)
    ensures quantity >= 1 && RowPlan(rows, product, quantity, today, PartsOf(takes))
    ensures takes == TakesOf(rows, PartsOf(takes))
  {
    var batches := SelectBatches(rows, product);
    Inventory.SelectUnique(rows, product);
    Fefo.AllocateIsTheFefoPlan(batches, quantity, today, takes);
    var used :| Fefo.FefoPlan(used, takes, batches, quantity, today);
    FefoIsRowPlan(rows, product, quantity, today, used, takes);
    UsedAreSeen(rows, product, quantity, today, used, takes);
    TakesAreStored(rows, used, takes);
  }

  lemma RowPlanIsAllocated(rows: Rows, product: Id, quantity: int, today: Day, parts: seq<Part>)
    requires quantity >= 1 && RowPlan(rows, product, quantity, today, parts)
    ensures Fefo.Allocate(SelectBatches(rows, product), quantity, today) == Ok(TakesOf(rows, parts))
  {
    Inventory.SelectUnique(rows, product);
    RowPlanIsFefo(rows, product, quantity, today, parts);
    Fefo.AllocateIsTheFefoPlan(SelectBatches(rows, product), quantity, today, TakesOf(rows, parts));
  }

  /** The planner over the locked rows answers exactly the plan over the stored rows. */
  lemma AllocateIsTheRowPlan(rows: Rows, product: Id, quantity: int, today: Day, takes: seq<Fefo.Take>)
    ensures Fefo.Allocate(SelectBatches(rows, product), quantity, today) == Ok(takes) <==>
              && quantity >= 1 && RowPlan(rows, product, quantity, today, PartsOf(takes))
              && takes == TakesOf(rows, PartsOf(takes))
  {
    if Fefo.Allocate(SelectBatches(rows, product), quantity, today) == Ok(takes) {
      AllocatedIsRowPlan(rows, product, quantity, today, takes);
    }
    if quantity >= 1 && RowPlan(rows, product, quantity, today, PartsOf(takes)) {
      RowPlanIsAllocated(rows, product, quantity, today, PartsOf(takes));
    }
  }

  /** It refuses a quantity below one, and reports insufficient stock exactly when no plan covers the quantity. */
  lemma AllocateAnswers(rows: Rows, product: Id, quantity: int, today: Day)
    ensures var r := Fefo.Allocate(SelectBatches(rows, product), quantity, today);
            && (r.Ok? <==> quantity >= 1 && Coverable(rows, product, quantity, today))
            && (r.Err? ==> r.error == Business(if quantity < 1 then ValidationFailed else InsufficientStock, 0))
  {
    var r := Fefo.Allocate(SelectBatches(rows, product), quantity, today);
    if r.Ok? {
      AllocatedIsRowPlan(rows, product, quantity, today, r.value);
    }
    if quantity >= 1 && Coverable(rows, product, quantity, today) {
      var parts :| RowPlan(rows, product, quantity, today, parts);
      RowPlanIsAllocated(rows, product, quantity, today, parts);
    }
  }

  /** There is at most one plan. */
  lemma PlanIsUnique(rows: Rows, product: Id, quantity: int, today: Day, a: seq<Part>, b: seq<Part>)
    requires quantity >= 1 && RowPlan(rows, product, quantity, today, a) && RowPlan(rows, product, quantity, today, b)
    ensures a == b
  {
    RowPlanIsAllocated(rows, product, quantity, today, a);
    RowPlanIsAllocated(rows, product, quantity, today, b);
    assert PartsOf(TakesOf(rows, a)) == a && PartsOf(TakesOf(rows, b)) == b;
  }
}
