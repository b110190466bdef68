/** What any sequence of appliance events and decisions keeps, and what each decision means. */
module LinkageSafety {
  import opened Types
  import opened Tables
  import opened Ledger
  import opened Database
  import opened Linkage
  import Fefo
  import History
  import Runs

  // ---- what a decision means

  /** What a deduction did: the recipe's exact quantities, drawn first-expired-first-out as the inventory
      planner would, from active batches, each reduced by its draw; nothing else in the tables moved. */
  ghost predicate DeductedExactly(home: Home, home': Home, key: RunKey, recipe: seq<Need>, today: Day,
                                  operation: ChangeId, draws: seq<Draw>) {
    && home'.deductions == home.deductions + DeductionsOf(key, draws, operation)
    && SoundDraws(home.db.rows, draws)
    && (forall p :: Drawn(draws, p) == Required(recipe, p))
    && (forall i :: 0 <= i < |draws| ==> Reduced(home.db.rows, home'.db.rows, draws[i]))
    && (forall k :: k in home.db.rows && !DrawsFrom(draws, k) ==>
          k in home'.db.rows && home'.db.rows[k] == home.db.rows[k])
    && home'.db.records == home.db.records + NotesOf(draws, operation)
    && |home'.db.log| == |home.db.log| + 1
    && home'.db.log[|home.db.log|] ==
         StockEntry(home.db.sequence + 1, operation, SettleAll(home.db.rows, ShiftsOf(draws)))
  }

  predicate DrawsFrom(draws: seq<Draw>, key: Key) {
    exists i :: 0 <= i < |draws| && BatchKey(draws[i].batch) == key
  }

  ghost predicate Reduced(rows: Rows, rows': Rows, d: Draw) {
    var key := BatchKey(d.batch);
    && key in rows && key in rows'
    && rows'[key] == rows[key].(quantity := rows[key].quantity - d.quantity,
                                status := if rows[key].quantity == d.quantity then UsedUp else Status.Active,
                                version := rows[key].version + 1)
  }

  lemma DrawnRows(rows: Rows, draws: seq<Draw>, key: Key)
    requires SoundRows(rows) && SoundDraws(rows, draws) && ValidShifts(rows, ShiftsOf(draws)) && key in rows
    ensures key in ShiftAll(rows, ShiftsOf(draws))
    ensures !DrawsFrom(draws, key) ==> ShiftAll(rows, ShiftsOf(draws))[key] == rows[key]
    ensures forall i :: 0 <= i < |draws| && BatchKey(draws[i].batch) == key ==>
              Reduced(rows, ShiftAll(rows, ShiftsOf(draws)), draws[i])
  {
    var shifts := ShiftsOf(draws);
    ShiftAllAt(rows, shifts, key);
    assert forall i :: 0 <= i < |draws| ==> shifts[i].batch == draws[i].batch;
    forall i | 0 <= i < |draws| && BatchKey(draws[i].batch) == key
      ensures Reduced(rows, ShiftAll(rows, shifts), draws[i]) {
      FindShiftAt(shifts, i);
      assert SoundDraw(rows, draws[i]);
      SameUpdate(key, rows[key], draws[i].quantity);
    }
  }

  lemma MovedExactly(rows: Rows, draws: seq<Draw>)
    requires SoundRows(rows) && SoundDraws(rows, draws) && ValidShifts(rows, ShiftsOf(draws))
    ensures forall i :: 0 <= i < |draws| ==> Reduced(rows, ShiftAll(rows, ShiftsOf(draws)), draws[i])
    ensures forall k :: k in rows && !DrawsFrom(draws, k) ==>
              k in ShiftAll(rows, ShiftsOf(draws)) && ShiftAll(rows, ShiftsOf(draws))[k] == rows[k]
  {
    forall i | 0 <= i < |draws| ensures Reduced(rows, ShiftAll(rows, ShiftsOf(draws)), draws[i]) {
      assert SoundDraw(rows, draws[i]);
      DrawnRows(rows, draws, BatchKey(draws[i].batch));
    }
    forall k | k in rows && !DrawsFrom(draws, k)
      ensures k in ShiftAll(rows, ShiftsOf(draws)) && ShiftAll(rows, ShiftsOf(draws))[k] == rows[k]
    {
      DrawnRows(rows, draws, k);
    }
  }

  /** When the stock covers the recipe, a confirmation deducts exactly what the recipe requires. */
  lemma CoveredIsDeducted(home: Home, key: RunKey, recipe: seq<Need>, today: Day, operation: ChangeId)
    requires SoundRows(home.db.rows) && Confirmed(home, key, recipe, today, operation).Ok?
    requires Covered(home.db.rows, recipe, today)
    ensures var home' := Confirmed(home, key, recipe, today, operation).value;
            && home' == WithSuggestion(home, key, Suggestion(Deducted, map[])).(db := home'.db,
                 deductions := home'.deductions)
            && recipe != []
            && exists draws :: DeductedExactly(home, home', key, recipe, today, operation, draws)
  {
    var rows := home.db.rows;
    var draws := AllDraws(rows, recipe, today);
    NothingToBuy(rows, recipe, today);
    AllDrawsAreExact(rows, recipe, today, operation);
    SoundDrawsExist(rows, draws);
    DeductionIsExact(home, key, recipe, today, operation, draws);
  }

  lemma DeductionIsExact(home: Home, key: RunKey, recipe: seq<Need>, today: Day, operation: ChangeId, draws: seq<Draw>)
    requires ValidDraws(home.db.rows, draws) && SoundDraws(home.db.rows, draws)
    requires SoundRows(home.db.rows) && ValidShifts(home.db.rows, ShiftsOf(draws))
    requires forall p :: Drawn(draws, p) == Required(recipe, p)
    ensures DeductedExactly(home, AfterDeduction(home, key, draws, operation), key, recipe, today, operation, draws)
  {
    MovedExactly(home.db.rows, draws);
  }

  /** When it does not, the suggestion is marked insufficient and nothing else changes. */
  lemma UncoveredIsInsufficient(home: Home, key: RunKey, recipe: seq<Need>, today: Day, operation: ChangeId)
    requires SoundRows(home.db.rows) && Confirmed(home, key, recipe, today, operation).Ok?
    requires !Covered(home.db.rows, recipe, today)
    ensures var home' := Confirmed(home, key, recipe, today, operation).value;
            && home' == WithSuggestion(home, key, home'.suggestions[key])
            && home'.suggestions[key].status == Insufficient
  {
  }

  lemma NothingToBuy(rows: Rows, recipe: seq<Need>, today: Day)
    requires Covered(rows, recipe, today)
    ensures Purchases(rows, recipe, today) == map[]
  {
    forall p ensures p !in Purchases(rows, recipe, today) {
    }
  }

  /** Every product of a deduction is drawn as the inventory planner allocates the same quantity. */
  lemma DrawsFollowThePlanner(rows: Rows, recipe: seq<Need>, products: seq<Id>, today: Day, n: nat)
    requires SoundRows(rows) && Covered(rows, recipe, today)
    requires n < |products| && products[n] in Needed(recipe)
    ensures var planned := Fefo.Allocate(SelectBatches(rows, products[n]), Required(recipe, products[n]), today);
            && planned.Ok?
            && Draws(rows, recipe, products[..n + 1], today) ==
                 Draws(rows, recipe, products[..n], today) + DrawsOf(products[n], planned.value)
  {
    RequiredPositive(recipe, products[n]);
    FefosAgree(rows, products[n], Required(recipe, products[n]), today);
    JoinedSnoc(products, n, DrawQuery(rows, recipe, today));
  }

  /** An insufficient outcome lists, for every product that is short and not deleted, exactly what is missing. */
  lemma InsufficientListsTheMissing(home: Home, key: RunKey, recipe: seq<Need>, today: Day, operation: ChangeId)
    requires SoundRows(home.db.rows) && Confirmed(home, key, recipe, today, operation).Ok?
    requires !Covered(home.db.rows, recipe, today)
    ensures var list := Confirmed(home, key, recipe, today, operation).value.suggestions[key].purchases;
            && (forall p :: p in list <==>
                  p in Needed(recipe) && ActiveProduct(home.db.rows, p) && Short(home.db.rows, recipe, today, p))
            && (forall p :: p in list ==>
                  list[p] == Required(recipe, p) - StockOf(home.db.rows, p, today) && list[p] > 0)
  {
  }

  /** It lists every short product exactly when no deleted product of the recipe is short. */
  lemma InsufficientListsAllIff(rows: Rows, recipe: seq<Need>, today: Day)
    ensures (forall p :: p in Needed(recipe) && Short(rows, recipe, today, p) ==> p in Purchases(rows, recipe, today))
            <==> (forall p :: p in Needed(recipe) && !ActiveProduct(rows, p) ==> !Short(rows, recipe, today, p))
  {
    if forall p :: p in Needed(recipe) && Short(rows, recipe, today, p) ==> p in Purchases(rows, recipe, today) {
      forall p | p in Needed(recipe) && !ActiveProduct(rows, p) ensures !Short(rows, recipe, today, p) {
        assert p !in Purchases(rows, recipe, today);
      }
    }
  }

  /** A recipe over a deleted product: the confirmation reports insufficient stock and lists nothing to buy. */
  lemma DeletedProductListsNothing(home: Home, key: RunKey, product: Id, today: Day, operation: ChangeId)
    requires SoundRows(home.db.rows) && !ActiveProduct(home.db.rows, product)
    requires StockOf(home.db.rows, product, today) == 0
    ensures Confirmed(home, key, [Need(product, 1, 0)], today, operation)
            == Ok(WithSuggestion(home, key, Suggestion(Insufficient, map[])))
  {
    var recipe := [Need(product, 1, 0)];
    assert Required(recipe, product) == 1 by {
      assert recipe[..0] == [];
      assert Required([], product) == 0;
    }
    assert recipe[0].product in Needed(recipe);
    assert Short(home.db.rows, recipe, today, product);
    assert Purchases(home.db.rows, recipe, today) == map[] by {
      forall p ensures p !in Purchases(home.db.rows, recipe, today) {
      }
    }
  }

  // ---- runs

  ghost predicate RunsComplete(home: Home) {
    forall key :: key in home.suggestions ==> key in home.runs && home.runs[key] == Completed
  }

  /** Deductions belong to deducted suggestions, under one operation each, and no operation serves two. */
  ghost predicate SoundDeductions(home: Home) {
    && (forall i :: 0 <= i < |home.deductions| ==>
          var d := home.deductions[i];
          d.suggestion in home.suggestions && home.suggestions[d.suggestion].status == Deducted
              && Logged(home.db.log, d.operation))
    && (forall i, j :: 0 <= i < |home.deductions| && 0 <= j < |home.deductions| ==>
          (home.deductions[i].suggestion == home.deductions[j].suggestion <==>
              home.deductions[i].operation == home.deductions[j].operation))
  }

  ghost predicate HomeInv(home: Home) {
    Inv(home.db) && RunsComplete(home) && SoundDeductions(home)
  }

  function OfSuggestion(deductions: seq<Deduction>, key: RunKey): seq<Deduction> {
    if deductions == [] then []
    else
      var last := deductions[|deductions| - 1];
      OfSuggestion(deductions[..|deductions| - 1], key) + if last.suggestion == key then [last] else []
  }

  predicate Final(status: SuggestionStatus) {
    status == Deducted || status == Ignored
  }

  /** Over any stretch: runs and suggestions stay, completed stays completed, and a deducted or ignored
      suggestion keeps its status and its deductions for good. */
  ghost predicate Persists(home: Home, home': Home) {
    && Evolves(home.db, home'.db)
    && (forall key :: key in home.runs ==>
          key in home'.runs && (home.runs[key] == Completed ==> home'.runs[key] == Completed))
    && (forall key :: key in home.suggestions ==> key in home'.suggestions)
    && (forall key :: key in home.suggestions && Final(home.suggestions[key].status) ==>
          && home'.suggestions[key] == home.suggestions[key]
          && OfSuggestion(home'.deductions, key) == OfSuggestion(home.deductions, key))
  }

  datatype Action =
    | Event(rule: Option<Rule>, run: string, state: string, recipe: seq<Need>, today: Day)
    | Decide(key: RunKey, confirm: bool, recipe: seq<Need>, today: Day, operation: ChangeId)
    | Elsewhere(db: Db)   // any other writer

  /** A failed transaction leaves the tables as they were. */
  ghost function Exec(home: Home, a: Action): Home {
    if SoundRows(home.db.rows) then Act(home, a) else home
  }

  ghost function Act(home: Home, a: Action): Home
    requires SoundRows(home.db.rows)
  {
    match a
    case Event(rule, run, state, recipe, today) =>
      (match Processed(home, rule, run, state, recipe, today) case Ok(after) => after case Err(_) => home)
    case Decide(key, confirm, recipe, today, operation) =>
      (match Resolved(home, key, confirm, recipe, today, operation) case Ok(after) => after case Err(_) => home)
    case Elsewhere(db) => if Inv(db) && Evolves(home.db, db) then home.(db := db) else home
  }

  lemma SameHome(home: Home)
    ensures Persists(home, home)
  {
    History.MetadataEvolves(home.db, home.db);
  }

  lemma {:induction false} OthersKept(a: seq<Deduction>, key: RunKey, draws: seq<Draw>, operation: ChangeId,
                                      other: RunKey)
    requires other != key
    ensures OfSuggestion(a + DeductionsOf(key, draws, operation), other) == OfSuggestion(a, other)
  {
    var b := DeductionsOf(key, draws, operation);
    if draws == [] {
      assert a + b == a;
    } else {
      var front := draws[..|draws| - 1];
      OthersKept(a, key, front, operation, other);
      assert (a + b)[..|a + b| - 1] == a + DeductionsOf(key, front, operation);
    }
  }

  lemma DeductionsStaySound(home: Home, home': Home, key: RunKey, draws: seq<Draw>, operation: ChangeId)
    requires SoundDeductions(home) && home.db.log <= home'.db.log
    requires !Logged(home.db.log, operation) && Logged(home'.db.log, operation)
    requires key in home.suggestions && home.suggestions[key].status != Deducted
    requires home'.suggestions == home.suggestions[key := Suggestion(Deducted, map[])]
    requires home'.deductions == home.deductions + DeductionsOf(key, draws, operation)
    ensures SoundDeductions(home')
  {
    forall i | 0 <= i < |home.deductions| ensures Logged(home'.db.log, home.deductions[i].operation)
                                          && home.deductions[i].operation != operation
                                               && home.deductions[i].suggestion != key {
      LoggedGrows(home.db.log, home'.db.log, home.deductions[i].operation);
    }
  }

  lemma DeductionLogged(db: Db, draws: seq<Draw>, operation: ChangeId)
    requires ValidDraws(db.rows, draws)
    ensures Logged(PublishStock(db, ShiftsOf(draws), NotesOf(draws, operation), operation).log, operation)
    ensures db.log <= PublishStock(db, ShiftsOf(draws), NotesOf(draws, operation), operation).log
  {
    assert PublishStock(db, ShiftsOf(draws), NotesOf(draws, operation), operation).log[|db.log|].change == operation;
  }

  lemma DeductionInv(home: Home, key: RunKey, draws: seq<Draw>, operation: ChangeId)
    requires HomeInv(home) && key in home.suggestions && !Final(home.suggestions[key].status)
    requires ValidDraws(home.db.rows, draws) && ValidShifts(home.db.rows, ShiftsOf(draws))
    requires !Logged(home.db.log, operation)
    ensures HomeInv(AfterDeduction(home, key, draws, operation))
  {
    PublishStockInv(home.db, ShiftsOf(draws), NotesOf(draws, operation), operation);
    DeductionLogged(home.db, draws, operation);
    DeductionsStaySound(home, AfterDeduction(home, key, draws, operation), key, draws, operation);
  }

  lemma DeductionPersists(home: Home, key: RunKey, draws: seq<Draw>, operation: ChangeId)
    requires HomeInv(home) && key in home.suggestions && !Final(home.suggestions[key].status)
    requires ValidDraws(home.db.rows, draws) && ValidShifts(home.db.rows, ShiftsOf(draws))
    ensures Persists(home, AfterDeduction(home, key, draws, operation))
  {
    History.PublishStockEvolves(home.db, ShiftsOf(draws), NotesOf(draws, operation), operation);
    forall other | other in home.suggestions && Final(home.suggestions[other].status)
      ensures OfSuggestion(AfterDeduction(home, key, draws, operation).deductions, other) ==
              OfSuggestion(home.deductions, other)
    {
      OthersKept(home.deductions, key, draws, operation, other);
    }
  }

  lemma DeductionKeeps(home: Home, key: RunKey, recipe: seq<Need>, today: Day, operation: ChangeId)
    requires HomeInv(home) && key in home.suggestions && !Final(home.suggestions[key].status)
    requires Covered(home.db.rows, recipe, today)
    requires Confirmed(home, key, recipe, today, operation).Ok?
    ensures var home' := Confirmed(home, key, recipe, today, operation).value; HomeInv(home') && Persists(home, home')
  {
    var draws := AllDraws(home.db.rows, recipe, today);
    NothingToBuy(home.db.rows, recipe, today);
    AllDrawsAreExact(home.db.rows, recipe, today, operation);
    SoundDrawsExist(home.db.rows, draws);
    DeductionInv(home, key, draws, operation);
    DeductionPersists(home, key, draws, operation);
  }

  lemma StatusKeeps(home: Home, key: RunKey, s: Suggestion)
    requires HomeInv(home) && key in home.runs && home.runs[key] == Completed && s.status != Deducted
    requires key in home.suggestions ==> !Final(home.suggestions[key].status)
    ensures HomeInv(WithSuggestion(home, key, s)) && Persists(home, WithSuggestion(home, key, s))
  {
    History.MetadataEvolves(home.db, home.db);
  }

  lemma DecisionKeeps(home: Home, key: RunKey, confirm: bool, recipe: seq<Need>, today: Day, operation: ChangeId)
    requires HomeInv(home) && Resolved(home, key, confirm, recipe, today, operation).Ok?
    ensures var home' := Resolved(home, key, confirm, recipe, today, operation).value;
            HomeInv(home') && Persists(home, home')
  {
    SameHome(home);
    if !Final(home.suggestions[key].status) {
      if !confirm {
        StatusKeeps(home, key, home.suggestions[key].(status := Ignored));
      } else if Covered(home.db.rows, recipe, today) {
        DeductionKeeps(home, key, recipe, today, operation);
      } else {
        StatusKeeps(home, key, Suggestion(Insufficient, Purchases(home.db.rows, recipe, today)));
      }
    }
  }

  lemma EventKeeps(home: Home, rule: Option<Rule>, run: string, state: string, recipe: seq<Need>, today: Day)
    requires HomeInv(home) && Processed(home, rule, run, state, recipe, today).Ok?
    ensures var home' := Processed(home, rule, run, state, recipe, today).value; HomeInv(home') && Persists(home, home')
  {
    SameHome(home);
    var key := RunKey(rule.value.id, run);
    var home' := Processed(home, rule, run, state, recipe, today).value;
    if home' != home && state != rule.value.start && key !in home.suggestions {
      var completed := home.(runs := home.runs[key := Completed]);
      var purchases := Purchases(home.db.rows, recipe, today);
      StatusKeeps(completed, key, Suggestion(if purchases == map[] then Pending else Insufficient, purchases));
    }
  }

  lemma StepKeeps(home: Home, a: Action)
    requires HomeInv(home)
    ensures HomeInv(Exec(home, a)) && Persists(home, Exec(home, a))
  {
    SameHome(home);
    match a
    case Event(rule, run, state, recipe, today) =>
      if Processed(home, rule, run, state, recipe, today).Ok? {
        EventKeeps(home, rule, run, state, recipe, today);
      }
    case Decide(key, confirm, recipe, today, operation) =>
      if Resolved(home, key, confirm, recipe, today, operation).Ok? {
        DecisionKeeps(home, key, confirm, recipe, today, operation);
      }
    case Elsewhere(db) =>
      if Inv(db) && Evolves(home.db, db) {
        forall i | 0 <= i < |home.deductions| ensures Logged(db.log, home.deductions[i].operation) {
          LoggedGrows(home.db.log, db.log, home.deductions[i].operation);
        }
      }
  }

  lemma KeepsReceipts(home: Home, a: Action)
    requires !a.Elsewhere?
    ensures Exec(home, a).db.receipts == home.db.receipts
  {
  }

  lemma PersistsTransitive(a: Home, b: Home, c: Home)
    requires Persists(a, b) && Persists(b, c)
    ensures Persists(a, c)
  {
    History.EvolvesTransitive(a.db, b.db, c.db);
  }

  /** Over any sequence of duplicate or reordered events and decisions, mixed with any other writer: the
      invariant holds, a run has at most one suggestion, a suggestion is deducted at most once, and
      deducted and ignored are final. */
  ghost function Run(home: Home, actions: seq<Action>): (r: Home)
    requires HomeInv(home)
    ensures HomeInv(r) && Persists(home, r)
  {
    StepsKeep();
    Runs.RunKeeps(Exec, HomeInv, Persists, home, actions);
    Runs.Run(Exec, home, actions)
  }

  lemma StepsKeep()
    ensures Runs.Keeping(Exec, HomeInv, Persists)
  {
    forall home, a | HomeInv(home) ensures HomeInv(Exec(home, a)) && Persists(home, Exec(home, a)) {
      StepKeeps(home, a);
    }
    forall home ensures Persists(home, home) {
      SameHome(home);
    }
    forall a, b, c | Persists(a, b) && Persists(b, c) ensures Persists(a, c) {
      PersistsTransitive(a, b, c);
    }
  }

  /** Once deducted, confirming again answers the settled suggestion and changes nothing, whatever the
      recipe, day or stock have become; ignoring it is an error; an ignored one can never be deducted. */
  lemma FinalIsFinal(home: Home, actions: seq<Action>, key: RunKey, confirm: bool, recipe: seq<Need>, today: Day,
                     operation: ChangeId)
    requires HomeInv(home) && key in home.suggestions && Final(home.suggestions[key].status)
    ensures var later := Run(home, actions);
            && OfSuggestion(later.deductions, key) == OfSuggestion(home.deductions, key)
            && Resolved(later, key, confirm, recipe, today, operation) ==
              if home.suggestions[key].status == Deducted && confirm then Ok(later)
              else Err(Business(InvalidArgument, 0))
  {
  }

  /** A duplicate event, in whatever order it arrives, changes nothing. */
  lemma DuplicateEventsChangeNothing(home: Home, actions: seq<Action>, rule: Rule, run: string, state: string,
                                     recipe: seq<Need>, today: Day)
    requires HomeInv(home)
    requires RunKey(rule.id, run) in home.runs
    requires state == rule.start || home.runs[RunKey(rule.id, run)] == Completed
    ensures Processed(Run(home, actions), Some(rule), run, state, recipe, today) == Ok(Run(home, actions))
  {
  }
}
