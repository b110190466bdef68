/** Appliance runs, their suggestions, and the stock deduction a confirmation makes: the specification. */
module Linkage {
  import opened Types
  import opened Tables
  import opened Ledger
  import opened Database
  import Fefo
  import Inventory

  /** Quantities of group items and recipe groups are positive columns, and so are their products. */
  type Positive = n: int | n >= 1 witness 1

  /** One line of a recipe: a product, the quantity one run consumes, and the unit it is counted in. */
  datatype Need = Need(product: Id, quantity: Positive, consumable: nat)

  function Required(recipe: seq<Need>, product: Id): nat {
    if recipe == [] then 0
    else
      var last := recipe[|recipe| - 1];
      Required(recipe[..|recipe| - 1], product) + if last.product == product then last.quantity else 0
  }

  function Needed(recipe: seq<Need>): set<Id> {
    set i | 0 <= i < |recipe| :: recipe[i].product
  }

  lemma {:induction false} RequiredPositive(recipe: seq<Need>, product: Id)
    ensures product in Needed(recipe) <==> Required(recipe, product) >= 1
  {
    if recipe != [] {
      var front := recipe[..|recipe| - 1];
      RequiredPositive(front, product);
      assert forall i :: 0 <= i < |front| ==> front[i] == recipe[i];
    }
  }

  // ---- the second FEFO implementation

  /** The WHERE clause of the linkage queries: status active, not expired, something left. */
  predicate InStock(rows: Rows, b: Fefo.Batch, today: Day) {
    && BatchKey(b.id) in rows && rows[BatchKey(b.id)].status == Status.Active
    && b.quantity > 0
    && (b.expiry.None? || b.expiry.value >= today)
  }

  function InStockOnly(rows: Rows, batches: seq<Fefo.Batch>, today: Day): seq<Fefo.Batch> {
    if batches == [] then []
    else
      var rest := InStockOnly(rows, batches[..|batches| - 1], today);
      var last := batches[|batches| - 1];
      if InStock(rows, last, today) then rest + [last] else rest
  }

  /** The rows of the linkage query, in its order (expiry, undated last, id). */
  function OnHand(rows: Rows, product: Id, today: Day): seq<Fefo.Batch> {
    InStockOnly(rows, SelectBatches(rows, product), today)
  }

  function StockOf(rows: Rows, product: Id, today: Day): int {
    Fefo.Stock(OnHand(rows, product, today))
  }

  lemma {:induction false} SameFilter(rows: Rows, batches: seq<Fefo.Batch>, today: Day)
    requires SoundRows(rows)
    requires forall b :: b in batches ==> BatchKey(b.id) in rows && b == Domain(b.id, rows[BatchKey(b.id)])
    ensures InStockOnly(rows, batches, today) == Fefo.Candidates(batches, today)
  {
    if batches != [] {
      SameFilter(rows, batches[..|batches| - 1], today);
      var last := batches[|batches| - 1];
      assert SoundRow(BatchKey(last.id), rows[BatchKey(last.id)]);
    }
  }

  lemma {:induction false} InsertLast(b: Fefo.Batch, sorted: seq<Fefo.Batch>)
    requires forall i :: 0 <= i < |sorted| ==> Fefo.Before(sorted[i], b)
    ensures Fefo.Insert(b, sorted) == sorted + [b]
  {
    if sorted != [] {
      var tail := sorted[1..];
      assert Fefo.Before(sorted[0], b) && !Fefo.Before(b, sorted[0]);
      assert forall i :: 0 <= i < |tail| ==> tail[i] == sorted[i + 1];
      InsertLast(b, tail);
      assert [sorted[0]] + (tail + [b]) == sorted + [b];
    }
  }

  lemma {:induction false} SortOfSorted(batches: seq<Fefo.Batch>)
    requires Fefo.Ascending(batches)
    ensures Fefo.Sort(batches) == batches
  {
    if batches != [] {
      var front := batches[..|batches| - 1];
      SortOfSorted(front);
      InsertLast(batches[|batches| - 1], front);
    }
  }

  lemma {:induction false} CandidatesAscending(batches: seq<Fefo.Batch>, today: Day)
    requires Fefo.Ascending(batches)
    ensures Fefo.Ascending(Fefo.Candidates(batches, today))
  {
    if batches != [] {
      var front, last := batches[..|batches| - 1], batches[|batches| - 1];
      CandidatesAscending(front, today);
      var rest := Fefo.Candidates(front, today);
      forall i | 0 <= i < |rest| ensures Fefo.Before(rest[i], last) {
        assert rest[i] in rest;
        var j :| 0 <= j < |front| && front[j] == rest[i];
        assert batches[j] == front[j];
      }
    }
  }

  /** The two FEFO implementations agree: whenever used_up means empty, the deduction loop over active
      batches draws exactly what the inventory planner allocates, and it is short exactly when the
      planner reports insufficient stock. */
  lemma FefosAgree(rows: Rows, product: Id, quantity: int, today: Day)
    requires SoundRows(rows) && quantity >= 1
    ensures Fefo.Allocate(SelectBatches(rows, product), quantity, today) ==
              if StockOf(rows, product, today) < quantity then Err(Business(InsufficientStock, 0))
              else Ok(Fefo.Drain(OnHand(rows, product, today), quantity))
  {
    var batches := SelectBatches(rows, product);
    Inventory.SelectUnique(rows, product);
    SameFilter(rows, batches, today);
    Fefo.SortAscending(Listed(rows, product));
    CandidatesAscending(batches, today);
    SortOfSorted(Fefo.Candidates(batches, today));
  }

  // ---- what a confirmation draws

  datatype Draw = Draw(product: Id, batch: Id, quantity: int, before: int, version: int)

  function DrawsOf(product: Id, takes: seq<Fefo.Take>): seq<Draw> {
    seq(|takes|, i requires 0 <= i < |takes| =>
        Draw(product, takes[i].id, takes[i].quantity, takes[i].before, takes[i].version))
  }

  /** The query, and what it draws, for one product. */
  function DrawQuery(rows: Rows, recipe: seq<Need>, today: Day): Id -> seq<Draw> {
    (product: Id) => DrawsOf(product, Fefo.Drain(OnHand(rows, product, today), Required(recipe, product)))
  }

  function Joined(products: seq<Id>, drawn: Id -> seq<Draw>): seq<Draw> {
    if products == [] then [] else Joined(products[..|products| - 1], drawn) + drawn(products[|products| - 1])
  }

  function Draws(rows: Rows, recipe: seq<Need>, products: seq<Id>, today: Day): seq<Draw> {
    Joined(products, DrawQuery(rows, recipe, today))
  }

  function AllDraws(rows: Rows, recipe: seq<Need>, today: Day): seq<Draw> {
    Draws(rows, recipe, Ascend(Needed(recipe)), today)
  }

  function ShiftsOf(draws: seq<Draw>): seq<Shift> {
    seq(|draws|, i requires 0 <= i < |draws| => Shift(draws[i].batch, -draws[i].quantity, false))
  }

  function NotesOf(draws: seq<Draw>, operation: ChangeId): seq<Record> {
    seq(|draws|, i requires 0 <= i < |draws| =>
        Record(draws[i].batch, -draws[i].quantity, OperationUuid(operation, 0), None))
  }

  ghost predicate Covered(rows: Rows, recipe: seq<Need>, today: Day) {
    forall product :: product in Needed(recipe) ==> StockOf(rows, product, today) >= Required(recipe, product)
  }

  /** A draw takes a positive amount that is there from a live active batch of its product. */
  predicate SoundDraw(rows: Rows, d: Draw) {
    && d.batch in BatchesOf(rows, d.product)
    && rows[BatchKey(d.batch)].status == Status.Active
    && d.before == rows[BatchKey(d.batch)].quantity && d.version == rows[BatchKey(d.batch)].version
    && 1 <= d.quantity <= d.before
  }

  ghost predicate SoundDraws(rows: Rows, draws: seq<Draw>) {
    && (forall i :: 0 <= i < |draws| ==> SoundDraw(rows, draws[i]))
    && (forall i, j :: 0 <= i < j < |draws| ==> draws[i].batch != draws[j].batch)
  }

  lemma ProductDraws(rows: Rows, recipe: seq<Need>, product: Id, today: Day)
    requires SoundRows(rows) && Required(recipe, product) >= 1
    requires StockOf(rows, product, today) >= Required(recipe, product)
    ensures var takes := Fefo.Drain(OnHand(rows, product, today), Required(recipe, product));
            && takes != [] && SoundDraws(rows, DrawsOf(product, takes))
            && Fefo.Total(takes) == Required(recipe, product)
  {
    var batches := SelectBatches(rows, product);
    var quantity := Required(recipe, product);
    FefosAgree(rows, product, quantity, today);
    Inventory.SelectUnique(rows, product);
    var takes := Fefo.Drain(OnHand(rows, product, today), quantity);
    Fefo.TakesNameBatches(batches, quantity, today);
    Fefo.AllocateIsTheFefoPlan(batches, quantity, today, takes);
    forall i | 0 <= i < |takes| ensures SoundDraw(rows, DrawsOf(product, takes)[i]) {
      assert Fefo.Named(takes[i], batches, today);
      var b :| b in batches && Fefo.Eligible(b, today) && Fefo.Fills(takes[i], b);
      assert b in Listed(rows, product);
      assert SoundRow(BatchKey(b.id), rows[BatchKey(b.id)]);
    }
  }

  function Drawn(draws: seq<Draw>, product: Id): int {
    if draws == [] then 0
    else
      var last := draws[|draws| - 1];
      Drawn(draws[..|draws| - 1], product) + if last.product == product then last.quantity else 0
  }

  lemma {:induction false} DrawnAppend(a: seq<Draw>, b: seq<Draw>, product: Id)
    ensures Drawn(a + b, product) == Drawn(a, product) + Drawn(b, product)
  {
    if b == [] {
      assert a + b == a;
    } else {
      assert (a + b)[..|a + b| - 1] == a + b[..|b| - 1];
      DrawnAppend(a, b[..|b| - 1], product);
    }
  }

  lemma {:induction false} DrawnOf(product: Id, takes: seq<Fefo.Take>, p: Id)
    ensures Drawn(DrawsOf(product, takes), p) == if p == product then Fefo.Total(takes) else 0
  {
    if takes != [] {
      var first := DrawsOf(product, takes)[..1];
      assert DrawsOf(product, takes) == first + DrawsOf(product, takes[1..]);
      DrawnAppend(first, DrawsOf(product, takes[1..]), p);
      assert first[..0] == [];
      assert Drawn([], p) == 0;
      DrawnOf(product, takes[1..], p);
    }
  }

  ghost predicate Listable(recipe: seq<Need>, products: seq<Id>) {
    && (forall i :: 0 <= i < |products| ==> products[i] in Needed(recipe))
    && Rising(products)
  }

  ghost predicate DrawnFrom(draws: seq<Draw>, products: seq<Id>) {
    forall i :: 0 <= i < |draws| ==> draws[i].product in products
  }

  lemma JoinedSnoc(products: seq<Id>, n: nat, drawn: Id -> seq<Draw>)
    requires n < |products|
    ensures Joined(products[..n + 1], drawn) == Joined(products[..n], drawn) + drawn(products[n])
  {
    assert products[..n + 1][..n] == products[..n];
  }

  ghost predicate Rising(products: seq<Id>) {
    forall i, j :: 0 <= i < j < |products| ==> products[i] < products[j]
  }

  predicate AllOf(draws: seq<Draw>, product: Id) {
    forall i :: 0 <= i < |draws| ==> draws[i].product == product
  }

  lemma {:induction false} JoinedIsSound(rows: Rows, products: seq<Id>, drawn: Id -> seq<Draw>)
    requires Rising(products)
    requires forall i :: 0 <= i < |products| ==>
               SoundDraws(rows, drawn(products[i])) && drawn(products[i]) != []
                   && AllOf(drawn(products[i]), products[i])
    ensures SoundDraws(rows, Joined(products, drawn)) && DrawnFrom(Joined(products, drawn), products)
    ensures |Joined(products, drawn)| >= |products|
    decreases |products|
  {
    if products != [] {
      var front, last := products[..|products| - 1], products[|products| - 1];
      assert forall i :: 0 <= i < |front| ==> front[i] == products[i];
      JoinedIsSound(rows, front, drawn);
      var before := Joined(front, drawn);
      forall i | 0 <= i < |before| ensures before[i].product != last && before[i].product in products {
        assert before[i].product in front;
      }
      JoinDraws(rows, before, drawn(last), last);
    }
  }

  lemma {:induction false} JoinedTotal(products: seq<Id>, drawn: Id -> seq<Draw>, p: Id, total: int)
    requires Rising(products)
    requires forall i :: 0 <= i < |products| ==> Drawn(drawn(products[i]), p) == if products[i] == p then total else 0
    ensures Drawn(Joined(products, drawn), p) == if p in products then total else 0
    decreases |products|
  {
    if products != [] {
      var front, last := products[..|products| - 1], products[|products| - 1];
      assert forall i :: 0 <= i < |front| ==> front[i] == products[i];
      assert products == front + [last];
      JoinedTotal(front, drawn, p, total);
      DrawnAppend(Joined(front, drawn), drawn(last), p);
    }
  }

  lemma DrawsAreSound(rows: Rows, recipe: seq<Need>, products: seq<Id>, today: Day)
    requires SoundRows(rows) && Covered(rows, recipe, today) && Listable(recipe, products)
    ensures var draws := Draws(rows, recipe, products, today);
            SoundDraws(rows, draws) && DrawnFrom(draws, products) && |draws| >= |products|
  {
    var drawn := DrawQuery(rows, recipe, today);
    forall i | 0 <= i < |products|
      ensures SoundDraws(rows, drawn(products[i])) && drawn(products[i]) != [] && AllOf(drawn(products[i]), products[i])
    {
      RequiredPositive(recipe, products[i]);
      ProductDraws(rows, recipe, products[i], today);
    }
    JoinedIsSound(rows, products, drawn);
  }

  /** The draws for several products amount to exactly the required quantity of each. */
  lemma DrawsAreExact(rows: Rows, recipe: seq<Need>, products: seq<Id>, today: Day, p: Id)
    requires SoundRows(rows) && Covered(rows, recipe, today) && Listable(recipe, products)
    ensures Drawn(Draws(rows, recipe, products, today), p) == if p in products then Required(recipe, p) else 0
  {
    var drawn := DrawQuery(rows, recipe, today);
    forall i | 0 <= i < |products|
      ensures Drawn(drawn(products[i]), p) == if products[i] == p then Required(recipe, p) else 0 {
      RequiredPositive(recipe, products[i]);
      ProductDraws(rows, recipe, products[i], today);
      DrawnOf(products[i], Fefo.Drain(OnHand(rows, products[i], today), Required(recipe, products[i])), p);
    }
    JoinedTotal(products, drawn, p, Required(recipe, p));
  }

  lemma JoinDraws(rows: Rows, a: seq<Draw>, b: seq<Draw>, product: Id)
    requires SoundDraws(rows, a) && SoundDraws(rows, b)
    requires forall i :: 0 <= i < |a| ==> a[i].product != product
    requires forall i :: 0 <= i < |b| ==> b[i].product == product
    ensures SoundDraws(rows, a + b)
  {
    var all := a + b;
    forall i, j | 0 <= i < j < |all| ensures all[i].batch != all[j].batch {
      if i < |a| <= j {
        assert SoundDraw(rows, a[i]) && SoundDraw(rows, b[j - |a|]);
        assert rows[BatchKey(a[i].batch)].parent == Some(a[i].product);
        assert rows[BatchKey(b[j - |a|].batch)].parent == Some(product);
      }
    }
  }

  /** All the draws of a covered recipe: a sound stock movement of exactly the required quantities. */
  lemma AllDrawsAreExact(rows: Rows, recipe: seq<Need>, today: Day, operation: ChangeId)
    requires SoundRows(rows) && Covered(rows, recipe, today)
    ensures var draws := AllDraws(rows, recipe, today);
            && SoundDraws(rows, draws)
            && (forall p :: Drawn(draws, p) == Required(recipe, p))
            && (draws == [] <==> recipe == [])
            && ValidShifts(rows, ShiftsOf(draws)) && Booked(ShiftsOf(draws), NotesOf(draws, operation))
  {
    var products := Ascend(Needed(recipe));
    var draws := AllDraws(rows, recipe, today);
    DrawsAreSound(rows, recipe, products, today);
    forall p ensures Drawn(draws, p) == Required(recipe, p) {
      DrawsAreExact(rows, recipe, products, today, p);
      RequiredPositive(recipe, p);
    }
    NothingDrawn(recipe, products);
    SoundDrawsShift(rows, draws);
  }

  lemma NothingDrawn(recipe: seq<Need>, products: seq<Id>)
    requires forall p :: p in products <==> p in Needed(recipe)
    ensures products == [] <==> recipe == []
  {
    if recipe != [] {
      assert recipe[0].product in Needed(recipe);
    }
    if products != [] {
      assert products[0] in products;
    }
  }

  lemma SoundDrawsShift(rows: Rows, draws: seq<Draw>)
    requires SoundRows(rows) && SoundDraws(rows, draws)
    ensures ValidShifts(rows, ShiftsOf(draws))
  {
    forall i | 0 <= i < |draws| ensures Movable(rows, ShiftsOf(draws)[i]) && Fits(rows, ShiftsOf(draws)[i])
                                && Available(rows[BatchKey(draws[i].batch)].status) {
      assert SoundDraw(rows, draws[i]);
      assert SoundRow(BatchKey(draws[i].batch), rows[BatchKey(draws[i].batch)]);
    }
  }

  lemma SoundDrawsExist(rows: Rows, draws: seq<Draw>)
    requires SoundDraws(rows, draws)
    ensures forall i :: 0 <= i < |draws| ==> BatchKey(draws[i].batch) in rows
  {
    forall i | 0 <= i < |draws| ensures BatchKey(draws[i].batch) in rows {
      assert SoundDraw(rows, draws[i]);
    }
  }

  /** The deduction's own UPDATE leaves initial_quantity alone; on sound rows that is what the inventory
      UPDATE does to a consumption. */
  lemma SameUpdate(key: Key, row: Row, take: int)
    requires SoundRow(key, row) && 0 <= take <= row.quantity
    ensures Moved(row, -take, false) ==
              row.(quantity := row.quantity - take,
                   status := if row.quantity - take == 0 then UsedUp else Status.Active,
                   version := row.version + 1)
  {
  }

  // ---- runs and suggestions

  datatype RunKey = RunKey(rule: Id, run: string)

  datatype RunStatus = Running | Completed

  datatype SuggestionStatus = Pending | Insufficient | Deducted | Ignored

  /** `purchases` is the suggestion's purchase list: product to missing quantity. */
  datatype Suggestion = Suggestion(status: SuggestionStatus, purchases: map<Id, int>)

  datatype Deduction = Deduction(suggestion: RunKey, draw: Draw, operation: ChangeId)

  /** One family's tables with the linkage tables. The unique keys make (rule, run) identify both the run
      and its suggestion. */
  datatype Home = Home(
    db: Db,
    runs: map<RunKey, RunStatus>,
    suggestions: map<RunKey, Suggestion>,
    deductions: seq<Deduction>)

  datatype Rule = Rule(id: Id, start: string, complete: string)

  predicate ActiveProduct(rows: Rows, product: Id) {
    Key(Kind.Products, product) in rows && !rows[Key(Kind.Products, product)].deleted
  }

  predicate Short(rows: Rows, recipe: seq<Need>, today: Day, product: Id) {
    StockOf(rows, product, today) < Required(recipe, product)
  }

  /** The query for the stock of one product. */
  function StockQuery(rows: Rows, today: Day): Id -> int {
    (product: Id) => StockOf(rows, product, today)
  }

  function ShortOf(rows: Rows, recipe: seq<Need>, stock: Id -> int): map<Id, int> {
    map product | product in Needed(recipe) && ActiveProduct(rows, product)
        && stock(product) < Required(recipe, product) ::
      Required(recipe, product) - stock(product)
  }

  /** calculatePurchaseSuggestions, its list: the active products that are short, with what is missing. */
  function Purchases(rows: Rows, recipe: seq<Need>, today: Day): map<Id, int> {
    ShortOf(rows, recipe, StockQuery(rows, today))
  }

  /** calculatePurchaseSuggestions, its error: one active product counted in two units. */
  predicate Mixed(rows: Rows, recipe: seq<Need>) {
    exists i, j :: 0 <= i < j < |recipe| && recipe[i].product == recipe[j].product
                   && ActiveProduct(rows, recipe[i].product) && recipe[i].consumable != recipe[j].consumable
  }

  function WithSuggestion(home: Home, key: RunKey, s: Suggestion): Home {
    home.(suggestions := home.suggestions[key := s])
  }

  function DeductionsOf(key: RunKey, draws: seq<Draw>, operation: ChangeId): seq<Deduction> {
    seq(|draws|, i requires 0 <= i < |draws| => Deduction(key, draws[i], operation))
  }

  function AfterDeduction(home: Home, key: RunKey, draws: seq<Draw>, operation: ChangeId): Home
    requires ValidDraws(home.db.rows, draws)
  {
    WithSuggestion(home, key, Suggestion(Deducted, map[])).(
      db := PublishStock(home.db, ShiftsOf(draws), NotesOf(draws, operation), operation),
      deductions := home.deductions + DeductionsOf(key, draws, operation))
  }

  predicate ValidDraws(rows: Rows, draws: seq<Draw>) {
    forall i :: 0 <= i < |draws| ==> BatchKey(draws[i].batch) in rows
  }

  /** A confirmation of a pending or insufficient suggestion. */
  ghost function Confirmed(home: Home, key: RunKey, recipe: seq<Need>, today: Day, operation: ChangeId): Result<Home>
    requires SoundRows(home.db.rows)
  {
    var rows := home.db.rows;
    if Mixed(rows, recipe) then Err(Business(InvalidArgument, 0))
    else if Purchases(rows, recipe, today) != map[] || !Covered(rows, recipe, today)
    then Ok(WithSuggestion(home, key, Suggestion(Insufficient, Purchases(rows, recipe, today))))
    else if recipe == [] then Err(Business(InvalidArgument, 0))
    else if Logged(home.db.log, operation) then Err(Raw(UniqueViolation))
    else
      var draws := AllDraws(rows, recipe, today);
      AllDrawsAreExact(rows, recipe, today, operation);
      SoundDrawsExist(rows, draws);
      Ok(AfterDeduction(home, key, draws, operation))
  }

  /** ResolveLinkageSuggestion; an error means that the transaction is rolled back. */
  ghost function Resolved(home: Home, key: RunKey, confirm: bool, recipe: seq<Need>, today: Day, operation: ChangeId)
    : Result<Home>
    requires SoundRows(home.db.rows)
  {
    if key !in home.suggestions then Err(Business(NotFound, 0))
    else match home.suggestions[key].status
      case Deducted => if confirm then Ok(home) else Err(Business(InvalidArgument, 0))
      case Ignored => Err(Business(InvalidArgument, 0))
      case _ =>
        if confirm then Confirmed(home, key, recipe, today, operation)
        else Ok(WithSuggestion(home, key, home.suggestions[key].(status := Ignored)))
  }

  /** createSuggestion */
  function Suggested(home: Home, key: RunKey, recipe: seq<Need>, today: Day): Result<Home> {
    if key in home.suggestions then Ok(home)
    else if Mixed(home.db.rows, recipe) then Err(Business(InvalidArgument, 0))
    else
      var purchases := Purchases(home.db.rows, recipe, today);
      Ok(WithSuggestion(home, key, Suggestion(if purchases == map[] then Pending else Insufficient, purchases)))
  }

  /** ProcessEvent, for the enabled rule of the event's entity. */
  function Processed(home: Home, rule: Option<Rule>, run: string, state: string, recipe: seq<Need>, today: Day)
    : Result<Home> {
    if rule.None? then Err(Business(NotFound, 0))
    else
      var key := RunKey(rule.value.id, run);
      if state == rule.value.start then
        Ok(if key in home.runs then home else home.(runs := home.runs[key := Running]))
      else if state == rule.value.complete then
        if key !in home.runs then Err(Business(InvalidArgument, 0))
        else if home.runs[key] != Running then Ok(home)
        else Suggested(home.(runs := home.runs[key := Completed]), key, recipe, today)
      else Ok(home)
  }
}
