/** The automation repository as the code runs it: queries, loops, row updates and roll-back. */
module LinkageStore {
  import opened Types
  import opened Tables
  import opened Ledger
  import opened Database
  import opened Linkage
  import Fefo
  import Inventory
  import LinkageSafety

  datatype Wanted = Wanted(quantity: int, consumable: nat)

  lemma MixedPrefix(rows: Rows, recipe: seq<Need>, i: nat, j: nat)
    requires i < j < |recipe| && recipe[i].product == recipe[j].product
    requires ActiveProduct(rows, recipe[i].product) && recipe[i].consumable != recipe[j].consumable
    ensures Mixed(rows, recipe)
  {
  }

  lemma NeededMore(front: seq<Need>, need: Need)
    ensures Needed(front + [need]) == Needed(front) + {need.product}
    ensures forall p :: Required(front + [need], p) == Required(front, p) + if p == need.product then need.quantity
            else 0
  {
    var all := front + [need];
    assert all[..|front|] == front;
    forall p ensures p in Needed(all) <==> p in Needed(front) + {need.product} {
      if p in Needed(front) {
        var i :| 0 <= i < |front| && front[i].product == p;
        assert all[i].product == p;
      }
      assert all[|front|].product == need.product;
    }
  }

  /** The rows of the inner batch loop, drawn one after the other. */
  lemma DrainPrefix(sorted: seq<Fefo.Batch>, n: nat, quantity: int)
    requires n <= |sorted| && Fefo.AllPositive(sorted)
    ensures Fefo.Drain(sorted[..n], quantity) <= Fefo.Drain(sorted, quantity)
    decreases |sorted|
  {
    if n > 0 && quantity > 0 {
      var amount := Min(sorted[0].quantity, quantity);
      assert sorted[..n][1..] == sorted[1..][..n - 1];
      DrainPrefix(sorted[1..], n - 1, quantity - amount);
    }
  }

  lemma OnHandPositive(rows: Rows, product: Id, today: Day)
    requires SoundRows(rows)
    ensures Fefo.AllPositive(OnHand(rows, product, today))
  {
    FefosAgree(rows, product, 1, today);
    SameOnHand(rows, product, today);
    var batches := OnHand(rows, product, today);
    forall i | 0 <= i < |batches| ensures batches[i].quantity > 0 {
      assert batches[i] in batches;
    }
  }

  lemma SameOnHand(rows: Rows, product: Id, today: Day)
    requires SoundRows(rows)
    ensures OnHand(rows, product, today) == Fefo.Candidates(SelectBatches(rows, product), today)
  {
    Inventory.SelectUnique(rows, product);
    SameFilter(rows, SelectBatches(rows, product), today);
  }

  lemma TotalOfStock(batches: seq<Fefo.Batch>, n: nat)
    requires n < |batches|
    ensures Fefo.Stock(batches[..n + 1]) == Fefo.Stock(batches[..n]) + batches[n].quantity
  {
    assert batches[..n + 1][..n] == batches[..n];
  }

  /** The draws of the loops so far: those of the products before, and of this one the first m batches. */
  function Progress(front: seq<Draw>, product: Id, batches: seq<Fefo.Batch>, required: int, m: nat): seq<Draw>
    requires m <= |batches|
  {
    front + DrawsOf(product, Fefo.Drain(batches[..m], required))
  }

  function AfterProduct(front: seq<Draw>, product: Id, batches: seq<Fefo.Batch>, required: int): seq<Draw> {
    front + DrawsOf(product, Fefo.Drain(batches, required))
  }

  lemma ProgressIsSound(rows: Rows, front: seq<Draw>, product: Id, batches: seq<Fefo.Batch>, required: int, m: nat)
    requires m <= |batches| && Fefo.AllPositive(batches)
    requires SoundDraws(rows, AfterProduct(front, product, batches, required))
    ensures SoundDraws(rows, Progress(front, product, batches, required, m))
  {
    DrainPrefix(batches, m, required);
    var all, some := AfterProduct(front, product, batches, required), Progress(front, product, batches, required, m);
    assert forall i :: 0 <= i < |some| ==> some[i] == all[i];
  }

  /** The loop stops when the batches are exhausted or nothing remains: either way all is drawn. */
  lemma ProgressDone(front: seq<Draw>, product: Id, batches: seq<Fefo.Batch>, required: int, m: nat)
    requires m <= |batches| && Fefo.AllPositive(batches)
    requires m == |batches| || Fefo.Total(Fefo.Drain(batches[..m], required)) == required
    ensures Progress(front, product, batches, required, m) == AfterProduct(front, product, batches, required)
  {
    if m == |batches| {
      assert batches[..m] == batches;
    } else {
      Fefo.DrainFull(batches, m, required);
    }
  }

  /** What the loop takes from a batch when `left` remains. */
  function Next(product: Id, b: Fefo.Batch, left: int): Draw {
    Draw(product, b.id, Min(b.quantity, left), b.quantity, b.version)
  }

  lemma NextProgress(front: seq<Draw>, product: Id, batches: seq<Fefo.Batch>, required: int, m: nat, left: int)
    requires m < |batches| && Fefo.AllPositive(batches)
    requires left == required - Fefo.Total(Fefo.Drain(batches[..m], required)) > 0
    ensures var d := Next(product, batches[m], left);
            && Progress(front, product, batches, required, m + 1) == Progress(front, product, batches, required, m)
                 + [d]
            && Fefo.Total(Fefo.Drain(batches[..m + 1], required)) == required - left + d.quantity
  {
    Fefo.DrainAppend(batches, m, required);
    var b := batches[m];
    var taken := Fefo.Drain(batches[..m], required);
    assert DrawsOf(product, taken + [Fefo.Take(b.id, Min(b.quantity, left), b.quantity, b.version)]) ==
        DrawsOf(product, taken) + [Next(product, b, left)];
  }

  /** A draw added to sound draws finds its batch as it was at the start. */
  lemma ShiftMore(rows: Rows, draws: seq<Draw>, d: Draw)
    requires SoundRows(rows) && SoundDraws(rows, draws + [d])
    ensures var key := BatchKey(d.batch);
            var now := ShiftAll(rows, ShiftsOf(draws));
            && SoundDraw(rows, d) && SoundRow(key, rows[key])
            && key in rows && key in now && now[key] == rows[key]
            && ShiftAll(rows, ShiftsOf(draws + [d])) == now[key := Moved(rows[key], -d.quantity, false)]
  {
    var all := draws + [d];
    assert all[|draws|] == d;
    forall i | 0 <= i < |draws| ensures draws[i].batch != d.batch && SoundDraw(rows, draws[i]) {
      assert all[i] == draws[i];
    }
    forall i, j | 0 <= i < j < |draws| ensures draws[i].batch != draws[j].batch {
      assert all[i] == draws[i] && all[j] == draws[j];
    }
    ShiftAllAt(rows, ShiftsOf(draws), BatchKey(d.batch));
    assert ShiftsOf(all)[..|draws|] == ShiftsOf(draws);
  }

  /** The allocations as the loop collects them: the locked values, and those the UPDATE returned. */
  function Collected(draws: seq<Draw>): seq<Settled> {
    seq(|draws|, i requires 0 <= i < |draws| =>
      Settled(draws[i].batch, draws[i].quantity, draws[i].before, draws[i].before - draws[i].quantity, draws[i].version,
              draws[i].version + 1))
  }

  lemma CollectedIsSettled(rows: Rows, draws: seq<Draw>)
    requires SoundDraws(rows, draws) && ValidDraws(rows, draws)
    ensures Collected(draws) == SettleAll(rows, ShiftsOf(draws))
  {
    forall i | 0 <= i < |draws| ensures Collected(draws)[i] == SettleAll(rows, ShiftsOf(draws))[i] {
      assert SoundDraw(rows, draws[i]);
    }
  }

  /** Drawing the n-th product's requirement from its batches extends the joined draws soundly. */
  ghost predicate Continues(rows: Rows, products: seq<Id>, drawn: Id -> seq<Draw>, n: nat, required: nat,
                            batches: seq<Fefo.Batch>)
    requires n < |products|
  {
    && Fefo.AllPositive(batches)
    && AfterProduct(Joined(products[..n], drawn), products[n], batches, required) == Joined(products[..n + 1], drawn)
    && SoundDraws(rows, Joined(products[..n + 1], drawn))
  }

  lemma ProductIsReady(rows: Rows, recipe: seq<Need>, products: seq<Id>, today: Day, n: nat)
    requires SoundRows(rows) && Covered(rows, recipe, today) && Rising(products) && n < |products|
    requires forall p :: p in products <==> p in Needed(recipe)
    ensures Continues(rows, products, DrawQuery(rows, recipe, today), n, Required(recipe, products[n]),
                      OnHand(rows, products[n], today))
  {
    var front := products[..n + 1];
    forall i | 0 <= i < |front| ensures front[i] in Needed(recipe) {
      assert products[i] in products;
    }
    OnHandPositive(rows, products[n], today);
    JoinedSnoc(products, n, DrawQuery(rows, recipe, today));
    DrawsAreSound(rows, recipe, front, today);
  }

  // ---- the loops of calculatePurchaseSuggestions and lockRequiredBatches

  /** The sums of the recipe's first lines: the active products among them, one unit each. */
  ghost predicate Summed(rows: Rows, sums: map<Id, Wanted>, lines: seq<Need>) {
    && (forall p :: p in sums <==> p in Needed(lines) && ActiveProduct(rows, p))
    && (forall p :: p in sums ==> sums[p].quantity == Required(lines, p))
    && (forall j :: 0 <= j < |lines| && lines[j].product in sums ==>
          sums[lines[j].product].consumable == lines[j].consumable)
  }

  function Adding(sums: map<Id, Wanted>, need: Need): map<Id, Wanted> {
    sums[need.product :=
        Wanted((if need.product in sums then sums[need.product].quantity else 0) + need.quantity, need.consumable)]
  }

  lemma SummedMore(rows: Rows, sums: map<Id, Wanted>, front: seq<Need>, need: Need)
    requires Summed(rows, sums, front)
    requires need.product in sums ==> sums[need.product].consumable == need.consumable
    ensures Summed(rows, if ActiveProduct(rows, need.product) then Adding(sums, need) else sums, front + [need])
  {
    NeededMore(front, need);
    RequiredPositive(front, need.product);
  }

  lemma SummedFrom(rows: Rows, sums: map<Id, Wanted>, recipe: seq<Need>, n: nat)
    requires n < |recipe| && Summed(rows, sums, recipe[..n]) && ActiveProduct(rows, recipe[n].product)
    requires recipe[n].product in sums && sums[recipe[n].product].consumable != recipe[n].consumable
    ensures Mixed(rows, recipe)
  {
    var front := recipe[..n];
    assert recipe[n].product in Needed(front);
    var j :| 0 <= j < |front| && front[j].product == recipe[n].product;
    MixedPrefix(rows, recipe, j, n);
  }

  lemma SummedIsUnmixed(rows: Rows, sums: map<Id, Wanted>, recipe: seq<Need>)
    requires Summed(rows, sums, recipe)
    ensures !Mixed(rows, recipe)
  {
    forall i, j | 0 <= i < j < |recipe| && recipe[i].product == recipe[j].product
        && ActiveProduct(rows, recipe[i].product)
      ensures recipe[i].consumable == recipe[j].consumable
    {
      assert recipe[i].product in Needed(recipe);
    }
  }

  /** What the recipe wants of each active product; None when one is counted in two units. */
  method WantedByProduct(rows: Rows, recipe: seq<Need>) returns (wanted: Option<map<Id, Wanted>>)
    ensures wanted.None? ==> Mixed(rows, recipe)
    ensures wanted.Some? ==> Summed(rows, wanted.value, recipe)
  {
    var sums: map<Id, Wanted> := map[];
    for i := 0 to |recipe|
      invariant Summed(rows, sums, recipe[..i])
    {
      var need := recipe[i];
      assert recipe[..i + 1] == recipe[..i] + [need];
      if ActiveProduct(rows, need.product) {
        if need.product in sums && sums[need.product].consumable != need.consumable {
          SummedFrom(rows, sums, recipe, i);
          return None;
        }
        SummedMore(rows, sums, recipe[..i], need);
        sums := Adding(sums, need);
      } else {
        SummedMore(rows, sums, recipe[..i], need);
      }
    }
    assert recipe[..|recipe|] == recipe;
    wanted := Some(sums);
  }

  /** What is missing of each wanted product; `stock` is the query for the stock of one product. */
  method Missing(wanted: map<Id, Wanted>, stock: Id -> int) returns (missing: map<Id, int>)
    ensures forall p :: p in missing <==> p in wanted && stock(p) < wanted[p].quantity
    ensures forall p :: p in missing ==> missing[p] == wanted[p].quantity - stock(p)
  {
    var ids := Ascend(wanted.Keys);
    missing := map[];
    for i := 0 to |ids|
      invariant forall p :: p in missing ==>
                  p in wanted && stock(p) < wanted[p].quantity && missing[p] == wanted[p].quantity - stock(p)
      invariant forall j :: 0 <= j < i && stock(ids[j]) < wanted[ids[j]].quantity ==> ids[j] in missing
    {
      assert ids[i] in ids;
      var available := stock(ids[i]);
      if available < wanted[ids[i]].quantity {
        missing := missing[ids[i] := wanted[ids[i]].quantity - available];
      }
    }
    assert forall p :: p in wanted ==> p in ids;
  }

  method TotalStock(batches: seq<Fefo.Batch>) returns (total: int)
    ensures total == Fefo.Stock(batches)
  {
    total := 0;
    for j := 0 to |batches|
      invariant total == Fefo.Stock(batches[..j])
    {
      TotalOfStock(batches, j);
      total := total + batches[j].quantity;
    }
    assert batches[..|batches|] == batches;
  }

  /** The locked batches of every product, or None when one is short; `onHand` is the query for the batches
      of one product. */
  method LockBatches(products: set<Id>, required: Id -> int, onHand: Id -> seq<Fefo.Batch>)
    returns (locked: Option<map<Id, seq<Fefo.Batch>>>)
    ensures locked.Some? <==> forall p :: p in products ==> Fefo.Stock(onHand(p)) >= required(p)
    ensures locked.Some? ==> locked.value.Keys == products && forall p :: p in products ==> locked.value[p] == onHand(p)
  {
    var ids := Ascend(products);
    var found: map<Id, seq<Fefo.Batch>> := map[];
    for i := 0 to |ids|
      invariant forall p :: p in found ==>
                  p in products && found[p] == onHand(p) && Fefo.Stock(onHand(p)) >= required(p)
      invariant forall j :: 0 <= j < i ==> ids[j] in found
    {
      assert ids[i] in ids;
      var batches := onHand(ids[i]);
      var total := TotalStock(batches);
      if total < required(ids[i]) {
        return None;
      }
      found := found[ids[i] := batches];
    }
    assert forall p :: p in products ==> p in ids;
    locked := Some(found);
  }

  lemma MissingIsShort(rows: Rows, recipe: seq<Need>, stock: Id -> int, wanted: map<Id, Wanted>, missing: map<Id, int>)
    requires Summed(rows, wanted, recipe)
    requires forall p :: p in missing <==> p in wanted && stock(p) < wanted[p].quantity
    requires forall p :: p in missing ==> missing[p] == wanted[p].quantity - stock(p)
    ensures missing == ShortOf(rows, recipe, stock)
  {
  }

  class HomeStore {
    const db: Database
    var runs: map<RunKey, RunStatus>
    var suggestions: map<RunKey, Suggestion>
    var deductions: seq<Deduction>

    constructor (home: Home)
      ensures fresh(db) && State() == home
    {
      db := new Database(home.db);
      runs, suggestions, deductions := home.runs, home.suggestions, home.deductions;
    }

    function State(): Home
      reads this, db
    {
      Home(db.State(), runs, suggestions, deductions)
    }

    /** ROLLBACK */
    method Restore(saved: Home)
      modifies this, db
      ensures State() == saved
    {
      db.Restore(saved.db);
      runs, suggestions, deductions := saved.runs, saved.suggestions, saved.deductions;
    }

    method CalculatePurchases(recipe: seq<Need>, today: Day) returns (r: Result<map<Id, int>>, fault: Option<SqlState>)
      ensures fault.Some? ==> r == Err(Raw(fault.value))
      ensures fault.None? ==>
                r == if Mixed(db.rows, recipe) then Err(Business(InvalidArgument, 0))
                    else Ok(Purchases(db.rows, recipe, today))
    {
      fault := Statement();
      if fault.Some? {
        return Err(Raw(fault.value)), fault;
      }
      var rows := db.rows;
      var wanted := WantedByProduct(rows, recipe);
      if wanted.None? {
        return Err(Business(InvalidArgument, 0)), None;
      }
      SummedIsUnmixed(rows, wanted.value, recipe);
      var stock := StockQuery(rows, today);
      var missing := Missing(wanted.value, stock);
      MissingIsShort(rows, recipe, stock, wanted.value, missing);
      r := Ok(missing);
    }

    /** lockRequiredBatches: the batches of every product of the recipe, or None when one is short. */
    method LockRequired(recipe: seq<Need>, today: Day) returns (locked: Option<map<Id, seq<Fefo.Batch>>>)
      ensures locked.Some? <==> Covered(db.rows, recipe, today)
      ensures locked.Some? ==> locked.value.Keys == Needed(recipe)
      ensures locked.Some? ==> forall p :: p in locked.value ==> locked.value[p] == OnHand(db.rows, p, today)
    {
      var rows := db.rows;
      locked := LockBatches(Needed(recipe), (p: Id) => Required(recipe, p), (p: Id) => OnHand(rows, p, today));
    }

    /** One UPDATE, its deduction row and its consumption record. */
    method DeductBatch(key: RunKey, operation: ChangeId, d: Draw) returns (r: Result<Settled>, fault: Option<SqlState>)
      requires SoundDraw(db.rows, d) && SoundRow(BatchKey(d.batch), db.rows[BatchKey(d.batch)])
      modifies db`rows, db`records, this`deductions
      ensures r.Err? ==> fault.Some? && r == Err(Raw(fault.value))
      ensures r.Ok? ==> fault.None? && [r.value] == Collected([d])
      ensures r.Ok? ==>
                db.rows == old(db.rows)[BatchKey(d.batch) := Moved(old(db.rows)[BatchKey(d.batch)], -d.quantity, false)]
      ensures r.Ok? ==>
                db.records == old(db.records) + [Record(d.batch, -d.quantity, OperationUuid(operation, 0), None)]
      ensures r.Ok? ==> deductions == old(deductions) + [Deduction(key, d, operation)]
    {
      fault := Statement();
      if fault.Some? {
        return Err(Raw(fault.value)), fault;
      }
      var batch := BatchKey(d.batch);
      var row := db.rows[batch];
      SameUpdate(batch, row, d.quantity);
      db.rows := db.rows[batch := row.(quantity := row.quantity - d.quantity,
                                       status := if row.quantity - d.quantity == 0 then UsedUp else Status.Active,
                                       version := row.version + 1)];
      deductions := deductions + [Deduction(key, d, operation)];
      db.records := db.records + [Record(d.batch, -d.quantity, OperationUuid(operation, 0), None)];
      r := Ok(Settled(d.batch, d.quantity, d.before, db.rows[batch].quantity, d.version, db.rows[batch].version));
    }

    ghost predicate Deducting(before: Home, key: RunKey, operation: ChangeId, draws: seq<Draw>,
                              allocations: seq<Settled>)
      reads this, db
    {
      && db.rows == ShiftAll(before.db.rows, ShiftsOf(draws))
      && db.records == before.db.records + NotesOf(draws, operation)
      && deductions == before.deductions + DeductionsOf(key, draws, operation)
      && allocations == Collected(draws)
    }

    /** One pass of the inner loop. */
    method DeductNext(key: RunKey, operation: ChangeId, d: Draw, ghost before: Home, ghost draws: seq<Draw>,
                      allocations: seq<Settled>)
      returns (r: Result<seq<Settled>>, fault: Option<SqlState>)
      requires SoundRows(before.db.rows) && SoundDraws(before.db.rows, draws + [d])
      requires Deducting(before, key, operation, draws, allocations)
      modifies db`rows, db`records, this`deductions
      ensures r.Err? ==> fault.Some? && r == Err(Raw(fault.value))
      ensures r.Ok? ==> fault.None? && Deducting(before, key, operation, draws + [d], r.value)
    {
      ShiftMore(before.db.rows, draws, d);
      ghost var all := draws + [d];
      assert NotesOf(all, operation) == NotesOf(draws, operation)
          + [Record(d.batch, -d.quantity, OperationUuid(operation, 0), None)];
      assert DeductionsOf(key, all, operation) == DeductionsOf(key, draws, operation) + [Deduction(key, d, operation)];
      assert Collected(all) == Collected(draws) + Collected([d]);
      assert SoundDraw(db.rows, d);
      var done;
      done, fault := DeductBatch(key, operation, d);
      r := if done.Err? then Err(done.error) else Ok(allocations + [done.value]);
    }

    /** The inner loop: first expired first, until nothing remains to be taken. */
    method DeductProduct(key: RunKey, operation: ChangeId, product: Id, required: nat, batches: seq<Fefo.Batch>,
                         collected: seq<Settled>,
                         ghost before: Home, ghost front: seq<Draw>)
      returns (r: Result<seq<Settled>>, fault: Option<SqlState>)
      requires SoundRows(before.db.rows) && Fefo.AllPositive(batches)
      requires SoundDraws(before.db.rows, AfterProduct(front, product, batches, required))
      requires Deducting(before, key, operation, front, collected)
      modifies db`rows, db`records, this`deductions
      ensures r.Err? ==> fault.Some? && r == Err(Raw(fault.value))
      ensures r.Ok? ==>
                fault.None? && Deducting(before, key, operation, AfterProduct(front, product, batches, required),
                                         r.value)
    {
      var remaining: int := required;
      var j := 0;
      ghost var draws := Progress(front, product, batches, required, 0);
      assert draws == front;
      var allocations := collected;
      while j < |batches| && remaining != 0
        invariant 0 <= j <= |batches|
        invariant remaining == required - Fefo.Total(Fefo.Drain(batches[..j], required)) >= 0
        invariant draws == Progress(front, product, batches, required, j)
        invariant Deducting(before, key, operation, draws, allocations)
      {
        var take := batches[j].quantity;
        if take > remaining {
          take := remaining;
        }
        var d := Draw(product, batches[j].id, take, batches[j].quantity, batches[j].version);
        NextProgress(front, product, batches, required, j, remaining);
        ProgressIsSound(before.db.rows, front, product, batches, required, j + 1);
        r, fault := DeductNext(key, operation, d, before, draws, allocations);
        if r.Err? {
          return;
        }
        draws := draws + [d];
        allocations := r.value;
        remaining := remaining - take;
        j := j + 1;
      }
      ProgressDone(front, product, batches, required, j);
      r, fault := Ok(allocations), None;
    }

    /** The outer loop, over the products in order. */
    method DeductAll(key: RunKey, operation: ChangeId, products: seq<Id>, required: map<Id, nat>,
                     locked: map<Id, seq<Fefo.Batch>>,
                     ghost before: Home, ghost drawn: Id -> seq<Draw>)
      returns (r: Result<seq<Settled>>, fault: Option<SqlState>)
      requires SoundRows(before.db.rows) && State() == before
      requires forall i :: 0 <= i < |products| ==> products[i] in required && products[i] in locked
      requires forall i :: 0 <= i < |products| ==>
                 Continues(before.db.rows, products, drawn, i, required[products[i]], locked[products[i]])
      modifies db`rows, db`records, this`deductions
      ensures r.Err? ==> fault.Some? && r == Err(Raw(fault.value))
      ensures r.Ok? ==> fault.None? && Deducting(before, key, operation, Joined(products, drawn), r.value)
    {
      var allocations: seq<Settled> := [];
      for i := 0 to |products|
        invariant Deducting(before, key, operation, Joined(products[..i], drawn), allocations)
      {
        assert Continues(before.db.rows, products, drawn, i, required[products[i]], locked[products[i]]);
        r, fault := DeductProduct(key, operation, products[i], required[products[i]], locked[products[i]], allocations,
                                  before, Joined(products[..i], drawn));
        if r.Err? {
          return;
        }
        allocations := r.value;
      }
      assert products[..|products|] == products;
      r, fault := Ok(allocations), None;
    }

    method Deduct(key: RunKey, operation: ChangeId, recipe: seq<Need>, today: Day, locked: map<Id, seq<Fefo.Batch>>)
      returns (r: Result<seq<Settled>>, fault: Option<SqlState>)
      requires SoundRows(db.rows) && Covered(db.rows, recipe, today)
      requires locked.Keys == Needed(recipe) && forall p :: p in locked ==> locked[p] == OnHand(db.rows, p, today)
      modifies db`rows, db`records, this`deductions
      ensures r.Err? ==> fault.Some? && r == Err(Raw(fault.value))
      ensures r.Ok? ==>
                fault.None? && Deducting(old(State()), key, operation, AllDraws(old(db.rows), recipe, today), r.value)
    {
      var products := Ascend(locked.Keys);
      var required: map<Id, nat> := map p | p in locked.Keys :: Required(recipe, p);
      ghost var drawn := DrawQuery(db.rows, recipe, today);
      forall i | 0 <= i < |products|
        ensures products[i] in locked
                && Continues(db.rows, products, drawn, i, Required(recipe, products[i]), locked[products[i]])
      {
        assert products[i] in products;
        ProductIsReady(db.rows, recipe, products, today, i);
      }
      r, fault := DeductAll(key, operation, products, required, locked, State(), drawn);
    }

    method MarkInsufficient(key: RunKey, purchases: map<Id, int>) returns (r: Result<()>, fault: Option<SqlState>)
      modifies this`suggestions
      ensures fault.Some? ==> r == Err(Raw(fault.value))
      ensures fault.None? ==> r == Ok(()) && suggestions == old(suggestions)[key := Suggestion(Insufficient, purchases)]
    {
      fault := Statement();
      if fault.Some? {
        return Err(Raw(fault.value)), fault;
      }
      suggestions := suggestions[key := Suggestion(Insufficient, purchases)];
      r := Ok(());
    }

    /** The log entry and the settled suggestion. */
    method PublishDeduction(key: RunKey, operation: ChangeId, allocations: seq<Settled>, ghost before: Home,
                            ghost draws: seq<Draw>)
      returns (r: Result<()>, fault: Option<SqlState>)
      requires ValidDraws(before.db.rows, draws) && Collected(draws) == SettleAll(before.db.rows, ShiftsOf(draws))
      requires Deducting(before, key, operation, draws, allocations)
      requires State() == before.(db := before.db.(rows := db.rows, records := db.records), deductions := deductions)
      modifies this, db
      ensures fault.Some? ==> r == Err(Raw(fault.value))
      ensures fault.None? ==>
                if draws == [] then r == Err(Business(InvalidArgument, 0))
                else if Logged(before.db.log, operation) then r == Err(Raw(UniqueViolation))
                else r == Ok(()) && State() == AfterDeduction(before, key, draws, operation)
    {
      if |allocations| == 0 {
        return Err(Business(InvalidArgument, 0)), None;
      }
      fault := Statement();
      if fault.Some? {
        return Err(Raw(fault.value)), fault;
      }
      if Logged(db.log, operation) {
        return Err(Raw(UniqueViolation)), None;
      }
      db.sequence := db.sequence + 1;
      db.log := db.log + [StockEntry(db.sequence, operation, allocations)];
      suggestions := suggestions[key := Suggestion(Deducted, map[])];
      r := Ok(());
    }

    ghost predicate Matches(spec: Result<Home>, r: Result<()>)
      reads this, db
    {
      match spec
      case Ok(after) => r == Ok(()) && State() == after
      case Err(e) => r == Err(e)
    }

    /** The stock has become short since the first check: list anew what is missing. */
    method Refresh(key: RunKey, recipe: seq<Need>, today: Day) returns (r: Result<()>, fault: Option<SqlState>)
      requires !Mixed(db.rows, recipe)
      modifies this`suggestions
      ensures fault.Some? ==> r == Err(Raw(fault.value))
      ensures fault.None? ==>
                r == Ok(()) && suggestions ==
                    old(suggestions)[key := Suggestion(Insufficient, Purchases(db.rows, recipe, today))]
    {
      var purchases;
      purchases, fault := CalculatePurchases(recipe, today);
      if purchases.Err? {
        return Err(purchases.error), fault;
      }
      r, fault := MarkInsufficient(key, purchases.value);
    }

    /** The confirming part of ResolveLinkageSuggestion. */
    method Confirm(key: RunKey, recipe: seq<Need>, today: Day, operation: ChangeId)
      returns (r: Result<()>, fault: Option<SqlState>)
      requires SoundRows(db.rows)
      modifies this, db
      ensures fault.Some? ==> r == Err(Raw(fault.value))
      ensures fault.None? ==> Matches(Confirmed(old(State()), key, recipe, today, operation), r)
    {
      var purchases;
      purchases, fault := CalculatePurchases(recipe, today);
      if purchases.Err? {
        return Err(purchases.error), fault;
      }
      if purchases.value != map[] {
        r, fault := MarkInsufficient(key, purchases.value);
        return;
      }
      var locked := LockRequired(recipe, today);
      if locked.None? {
        r, fault := Refresh(key, recipe, today);
        return;
      }
      r, fault := ConfirmCovered(key, recipe, today, operation, locked.value);
    }

    /** The locked batches cover the recipe: they are drawn from, and the deduction is published. */
    method ConfirmCovered(key: RunKey, recipe: seq<Need>, today: Day, operation: ChangeId,
                          locked: map<Id, seq<Fefo.Batch>>)
      returns (r: Result<()>, fault: Option<SqlState>)
      requires SoundRows(db.rows) && Covered(db.rows, recipe, today) && !Mixed(db.rows, recipe)
      requires Purchases(db.rows, recipe, today) == map[]
      requires locked.Keys == Needed(recipe) && forall p :: p in locked ==> locked[p] == OnHand(db.rows, p, today)
      modifies this, db
      ensures fault.Some? ==> r == Err(Raw(fault.value))
      ensures fault.None? ==> Matches(Confirmed(old(State()), key, recipe, today, operation), r)
    {
      ghost var draws := AllDraws(db.rows, recipe, today);
      AllDrawsAreExact(db.rows, recipe, today, operation);
      SoundDrawsExist(db.rows, draws);
      CollectedIsSettled(db.rows, draws);
      ghost var before := State();
      var deducted;
      deducted, fault := Deduct(key, operation, recipe, today, locked);
      if deducted.Err? {
        return Err(deducted.error), fault;
      }
      r, fault := PublishDeduction(key, operation, deducted.value, before, draws);
    }

    /** What a call must leave behind: its specification's state, or on any error the state it found. */
    ghost predicate Concluded(before: Home, spec: Result<Home>, fault: Option<SqlState>, r: Result<()>)
      reads this, db
    {
      && (r.Err? ==> State() == before)
      && (fault.Some? ==> r == Err(Raw(fault.value)))
      && (fault.None? ==> Matches(spec, r))
    }

    method ResolveLinkageSuggestion(key: RunKey, confirm: bool, recipe: seq<Need>, today: Day, operation: ChangeId)
      returns (r: Result<()>, fault: Option<SqlState>)
      requires LinkageSafety.HomeInv(State())
      modifies this, db
      ensures Concluded(old(State()), Resolved(old(State()), key, confirm, recipe, today, operation), fault, r)
      ensures LinkageSafety.HomeInv(State()) && LinkageSafety.Persists(old(State()), State())
    {
      var begun := State();
      LinkageSafety.SameHome(begun);
      if Resolved(begun, key, confirm, recipe, today, operation).Ok? {
        LinkageSafety.DecisionKeeps(begun, key, confirm, recipe, today, operation);
      }
      if key !in suggestions {
        return Err(Business(NotFound, 0)), None;
      }
      var status := suggestions[key].status;
      if !confirm {
        if status != Pending && status != Insufficient {
          return Err(Business(InvalidArgument, 0)), None;
        }
        fault := Statement();
        if fault.Some? {
          return Err(Raw(fault.value)), fault;
        }
        suggestions := suggestions[key := suggestions[key].(status := Ignored)];
        return Ok(()), None;
      }
      if status == Deducted {
        return Ok(()), None;
      }
      if status == Ignored {
        return Err(Business(InvalidArgument, 0)), None;
      }
      r, fault := Confirm(key, recipe, today, operation);
      if r.Err? {
        Restore(begun);
      }
    }

    /** createSuggestion */
    method CreateSuggestion(key: RunKey, recipe: seq<Need>, today: Day) returns (r: Result<()>, fault: Option<SqlState>)
      modifies this`suggestions
      ensures fault.Some? ==> r == Err(Raw(fault.value))
      ensures fault.None? ==> Matches(Suggested(old(State()), key, recipe, today), r)
    {
      if key in suggestions {
        return Ok(()), None;
      }
      var purchases;
      purchases, fault := CalculatePurchases(recipe, today);
      if purchases.Err? {
        return Err(purchases.error), fault;
      }
      suggestions := suggestions[key :=
          Suggestion(if purchases.value == map[] then Pending else Insufficient, purchases.value)];
      r := Ok(());
    }

    /** ProcessEvent; `rule` is what the query for an enabled rule found. */
    method ProcessEvent(rule: Option<Rule>, run: string, state: string, recipe: seq<Need>, today: Day)
      returns (r: Result<()>, fault: Option<SqlState>)
      requires LinkageSafety.HomeInv(State())
      modifies this, db
      ensures Concluded(old(State()), Processed(old(State()), rule, run, state, recipe, today), fault, r)
      ensures LinkageSafety.HomeInv(State()) && LinkageSafety.Persists(old(State()), State())
    {
      var begun := State();
      LinkageSafety.SameHome(begun);
      if Processed(begun, rule, run, state, recipe, today).Ok? {
        LinkageSafety.EventKeeps(begun, rule, run, state, recipe, today);
      }
      fault := Statement();
      if fault.Some? {
        return Err(Raw(fault.value)), fault;
      }
      if rule.None? {
        return Err(Business(NotFound, 0)), None;
      }
      if state != rule.value.start && state != rule.value.complete {
        return Ok(()), None;
      }
      var key := RunKey(rule.value.id, run);
      if state == rule.value.start {
        if key !in runs {
          runs := runs[key := Running];
        }
        return Ok(()), None;
      }
      if key !in runs {
        return Err(Business(InvalidArgument, 0)), None;
      }
      if runs[key] != Running {
        return Ok(()), None;
      }
      runs := runs[key := Completed];
      r, fault := CreateSuggestion(key, recipe, today);
      if r.Err? {
        Restore(begun);
      }
    }
  }
}
