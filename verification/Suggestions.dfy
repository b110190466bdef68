/** Which suggestion an appliance run gets and what each event and decision answers, said over recipe and stock. */
module Suggestions {
  import opened Types
  import opened Tables
  import opened Ledger
  import opened Database
  import opened Linkage
  import LinkageSafety
  import Plans
  import Fefo

  // ---- recipe and stock

  /** What a recipe requires of a product is the sum over its lines. */
  lemma {:induction false} RequiredIsTheSum(a: seq<Need>, b: seq<Need>, need: Need, product: Id)
    ensures Required(a + b, product) == Required(a, product) + Required(b, product)
    ensures Required([need], product) == if need.product == product then need.quantity else 0
    decreases |b|
  {
    assert [need][..0] == [];
    assert Required([], product) == 0;
    if b == [] {
      assert a + b == a;
    } else {
      assert (a + b)[..|a + b| - 1] == a + b[..|b| - 1];
      RequiredIsTheSum(a, b[..|b| - 1], need, product);
    }
  }

  lemma {:induction false} StockNotNegative(rows: Rows, batches: seq<Fefo.Batch>, today: Day)
    ensures Fefo.Stock(InStockOnly(rows, batches, today)) >= 0
  {
    if batches != [] {
      StockNotNegative(rows, batches[..|batches| - 1], today);
      var rest, last := InStockOnly(rows, batches[..|batches| - 1], today), batches[|batches| - 1];
      assert (rest + [last])[..|rest|] == rest;
    }
  }

  /** The stock of the linkage queries covers a quantity exactly when a first-expired-first-out plan over the
      stored rows does. */
  lemma StockIsCoverable(rows: Rows, product: Id, quantity: int, today: Day)
    requires SoundRows(rows) && quantity >= 1
    ensures StockOf(rows, product, today) >= 0
    ensures StockOf(rows, product, today) >= quantity <==> Plans.Coverable(rows, product, quantity, today)
  {
    StockNotNegative(rows, SelectBatches(rows, product), today);
    FefosAgree(rows, product, quantity, today);
    Plans.AllocateAnswers(rows, product, quantity, today);
  }

  /** An active product of the recipe of which there is too little. */
  predicate Lacking(rows: Rows, recipe: seq<Need>, today: Day, product: Id) {
    && (exists i :: 0 <= i < |recipe| && recipe[i].product == product)
    && Key(Products, product) in rows && !rows[Key(Products, product)].deleted
    && StockOf(rows, product, today) < Required(recipe, product)
  }

  /** Two lines count one active product in different units. */
  predicate UnitsClash(rows: Rows, recipe: seq<Need>) {
    exists i, j :: 0 <= i < j < |recipe| && recipe[i].product == recipe[j].product
                   && Key(Products, recipe[i].product) in rows && !rows[Key(Products, recipe[i].product)].deleted
                   && recipe[i].consumable != recipe[j].consumable
  }

  /** The list names exactly the lacking products, each with what is missing. */
  ghost predicate ListsLacking(rows: Rows, recipe: seq<Need>, today: Day, list: map<Id, int>) {
    && (forall p :: p in list <==> Lacking(rows, recipe, today, p))
    && (forall p :: p in list ==> list[p] == Required(recipe, p) - StockOf(rows, p, today))
  }

  ghost predicate Enough(rows: Rows, recipe: seq<Need>, today: Day) {
    forall i :: 0 <= i < |recipe| ==> StockOf(rows, recipe[i].product, today) >= Required(recipe, recipe[i].product)
  }

  lemma PurchasesAreLacking(rows: Rows, recipe: seq<Need>, today: Day)
    ensures ListsLacking(rows, recipe, today, Purchases(rows, recipe, today))
    ensures Mixed(rows, recipe) <==> UnitsClash(rows, recipe)
    ensures Covered(rows, recipe, today) <==> Enough(rows, recipe, today)
    ensures Purchases(rows, recipe, today) == map[] <==> forall p :: !Lacking(rows, recipe, today, p)
  {
    var list := Purchases(rows, recipe, today);
    forall p ensures p in list <==> Lacking(rows, recipe, today, p) {
    }
    if Covered(rows, recipe, today) {
      forall i | 0 <= i < |recipe|
        ensures StockOf(rows, recipe[i].product, today) >= Required(recipe, recipe[i].product)
      {
        assert recipe[i].product in Needed(recipe);
      }
    }
    if forall p :: !Lacking(rows, recipe, today, p) {
      assert list == map[];
    }
  }

  // ---- events

  /** The completion of a running run completes it and, unless its recipe mixes units, suggests the deduction:
      pending with nothing to buy when no active product is lacking, and otherwise insufficient, with exactly
      what is missing. Nothing else changes. */
  lemma CompletionSuggests(home: Home, rule: Rule, run: string, recipe: seq<Need>, today: Day)
    requires LinkageSafety.HomeInv(home) && rule.start != rule.complete
    requires RunKey(rule.id, run) in home.runs && home.runs[RunKey(rule.id, run)] == Running
    ensures var key, r := RunKey(rule.id, run), Processed(home, Some(rule), run, rule.complete, recipe, today);
            if UnitsClash(home.db.rows, recipe) then r == Err(Business(InvalidArgument, 0))
            else
              && r.Ok? && key !in home.suggestions && key in r.value.suggestions
              && var s := r.value.suggestions[key];
              && r.value == home.(runs := home.runs[key := Completed], suggestions := home.suggestions[key := s])
              && ListsLacking(home.db.rows, recipe, today, s.purchases)
              && s.status == if exists p :: Lacking(home.db.rows, recipe, today, p) then Insufficient else Pending
  {
    var key := RunKey(rule.id, run);
    var list := Purchases(home.db.rows, recipe, today);
    PurchasesAreLacking(home.db.rows, recipe, today);
    assert key !in home.suggestions;
    var s := Suggestion(if list == map[] then Pending else Insufficient, list);
    assert !Mixed(home.db.rows, recipe) ==>
        Processed(home, Some(rule), run, rule.complete, recipe, today) ==
        Ok(home.(runs := home.runs[key := Completed], suggestions := home.suggestions[key := s]));
  }

  /** Every other event: an unknown rule is refused; a first start creates a running run; a completion without a
      start is refused; everything else changes nothing. */
  lemma OtherEvents(home: Home, rule: Option<Rule>, run: string, state: string, recipe: seq<Need>, today: Day)
    ensures var r := Processed(home, rule, run, state, recipe, today);
            if rule.None? then r == Err(Business(NotFound, 0))
            else
              var key := RunKey(rule.value.id, run);
              && (state == rule.value.start && key !in home.runs ==>
                    r == Ok(home.(runs := home.runs[key := Running])))
              && (state == rule.value.start && key in home.runs ==> r == Ok(home))
              && (state == rule.value.complete && state != rule.value.start && key !in home.runs ==>
                    r == Err(Business(InvalidArgument, 0)))
              && (state == rule.value.complete && key in home.runs && home.runs[key] == Completed ==> r == Ok(home))
              && (state != rule.value.start && state != rule.value.complete ==> r == Ok(home))
  {
  }

  // ---- decisions

  /** Confirming an open suggestion, as the stock allows: a recipe that mixes units or is empty is refused; without
      enough of every product the suggestion becomes insufficient, with what is missing; otherwise it is deducted,
      unless the generated operation id is in use. */
  ghost predicate Confirms(home: Home, key: RunKey, recipe: seq<Need>, today: Day, operation: ChangeId,
                           r: Result<Home>) {
    if UnitsClash(home.db.rows, recipe) then r == Err(Business(InvalidArgument, 0))
    else if !Enough(home.db.rows, recipe, today) then
      && r.Ok? && key in r.value.suggestions
      && r.value == home.(suggestions := home.suggestions[key := r.value.suggestions[key]])
      && r.value.suggestions[key].status == Insufficient
      && ListsLacking(home.db.rows, recipe, today, r.value.suggestions[key].purchases)
    else if recipe == [] then r == Err(Business(InvalidArgument, 0))
    else if Logged(home.db.log, operation) then r == Err(Raw(UniqueViolation))
    else
      && r.Ok? && r.value.runs == home.runs
      && r.value.suggestions == home.suggestions[key := Suggestion(Deducted, map[])]
  }

  lemma EnoughIsConfirmed(home: Home, key: RunKey, recipe: seq<Need>, today: Day, operation: ChangeId)
    requires SoundRows(home.db.rows) && Enough(home.db.rows, recipe, today)
    ensures Confirms(home, key, recipe, today, operation, Confirmed(home, key, recipe, today, operation))
  {
    PurchasesAreLacking(home.db.rows, recipe, today);
    LinkageSafety.NothingToBuy(home.db.rows, recipe, today);
    assert Covered(home.db.rows, recipe, today) && Purchases(home.db.rows, recipe, today) == map[];
  }

  lemma ShortIsInsufficient(home: Home, key: RunKey, recipe: seq<Need>, today: Day, operation: ChangeId)
    requires SoundRows(home.db.rows) && !Enough(home.db.rows, recipe, today)
    ensures Confirms(home, key, recipe, today, operation, Confirmed(home, key, recipe, today, operation))
  {
    PurchasesAreLacking(home.db.rows, recipe, today);
    assert !Covered(home.db.rows, recipe, today);
  }

  /** Every decision, case by case: an unknown suggestion is not found; ignoring settles an open suggestion and is
      refused for a settled one; confirming a deducted one answers it again and an ignored one is refused; an open
      one is confirmed as the stock allows. */
  lemma DecisionTable(home: Home, key: RunKey, confirm: bool, recipe: seq<Need>, today: Day, operation: ChangeId)
    requires SoundRows(home.db.rows)
    ensures var r := Resolved(home, key, confirm, recipe, today, operation);
            if key !in home.suggestions then r == Err(Business(NotFound, 0))
            else
              var s := home.suggestions[key];
              if s.status == Ignored || (s.status == Deducted && !confirm) then r == Err(Business(InvalidArgument, 0))
              else if s.status == Deducted then r == Ok(home)
              else if confirm then Confirms(home, key, recipe, today, operation, r)
              else r == Ok(home.(suggestions := home.suggestions[key := Suggestion(Ignored, s.purchases)]))
  {
    if Enough(home.db.rows, recipe, today) {
      EnoughIsConfirmed(home, key, recipe, today, operation);
    } else {
      ShortIsInsufficient(home, key, recipe, today, operation);
    }
  }

  // ---- the deduction

  /** The part that a deduction takes of one product, in the order of the draws. */
  function PartsOf(draws: seq<Draw>, product: Id): seq<Plans.Part> {
    if draws == [] then []
    else
      var last := draws[|draws| - 1];
      PartsOf(draws[..|draws| - 1], product) + if last.product == product then [Plans.Part(last.batch, last.quantity)]
          else []
  }

  lemma {:induction false} PartsAppend(a: seq<Draw>, b: seq<Draw>, product: Id)
    ensures PartsOf(a + b, product) == PartsOf(a, product) + PartsOf(b, product)
    decreases |b|
  {
    if b == [] {
      assert a + b == a;
    } else {
      assert (a + b)[..|a + b| - 1] == a + b[..|b| - 1];
      PartsAppend(a, b[..|b| - 1], product);
    }
  }

  lemma {:induction false} PartsOfTakes(product: Id, takes: seq<Fefo.Take>, p: Id)
    ensures PartsOf(DrawsOf(product, takes), p) == if p == product then Plans.PartsOf(takes) else []
    decreases |takes|
  {
    if takes != [] {
      var front := takes[..|takes| - 1];
      PartsOfTakes(product, front, p);
      assert DrawsOf(product, takes)[..|takes| - 1] == DrawsOf(product, front);
      assert Plans.PartsOf(takes) == Plans.PartsOf(front)
          + [Plans.Part(takes[|takes| - 1].id, takes[|takes| - 1].quantity)];
    }
  }

  lemma ProductPlan(rows: Rows, recipe: seq<Need>, product: Id, today: Day, p: Id)
    requires SoundRows(rows) && Covered(rows, recipe, today) && product in Needed(recipe)
    ensures var parts := PartsOf(DrawQuery(rows, recipe, today)(product), p);
            if p == product then Plans.RowPlan(rows, product, Required(recipe, product), today, parts) else parts == []
  {
    var takes := Fefo.Drain(OnHand(rows, product, today), Required(recipe, product));
    RequiredPositive(recipe, product);
    FefosAgree(rows, product, Required(recipe, product), today);
    Plans.AllocatedIsRowPlan(rows, product, Required(recipe, product), today, takes);
    PartsOfTakes(product, takes, p);
  }

  lemma LastParts(products: seq<Id>, drawn: Id -> seq<Draw>, p: Id)
    requires products != []
    ensures PartsOf(Joined(products, drawn), p) ==
              PartsOf(Joined(products[..|products| - 1], drawn), p) + PartsOf(drawn(products[|products| - 1]), p)
  {
    PartsAppend(Joined(products[..|products| - 1], drawn), drawn(products[|products| - 1]), p);
  }

  /** Products without parts contribute nothing. */
  lemma {:induction false} NoParts(products: seq<Id>, drawn: Id -> seq<Draw>, p: Id)
    requires forall i :: 0 <= i < |products| ==> PartsOf(drawn(products[i]), p) == []
    ensures PartsOf(Joined(products, drawn), p) == []
    decreases |products|
  {
    if products != [] {
      LastParts(products, drawn, p);
      NoParts(products[..|products| - 1], drawn, p);
    }
  }

  /** Of distinct products, the n-th contributes its own parts, and no other does. */
  lemma {:induction false} PartsOfOne(products: seq<Id>, drawn: Id -> seq<Draw>, n: nat)
    requires Rising(products) && n < |products|
    requires forall i :: 0 <= i < |products| && i != n ==> PartsOf(drawn(products[i]), products[n]) == []
    ensures PartsOf(Joined(products, drawn), products[n]) == PartsOf(drawn(products[n]), products[n])
    decreases |products|
  {
    var front, p := products[..|products| - 1], products[n];
    LastParts(products, drawn, p);
    if n == |front| {
      NoParts(front, drawn, p);
    } else {
      PartsOfOne(front, drawn, n);
    }
  }

  /** Each product of the recipe is drawn by the one first-expired-first-out plan for what it requires. */
  lemma DrawsArePlans(rows: Rows, recipe: seq<Need>, products: seq<Id>, today: Day, p: Id)
    requires SoundRows(rows) && Covered(rows, recipe, today)
    requires Listable(recipe, products)
    ensures var parts := PartsOf(Draws(rows, recipe, products, today), p);
            if p in products then Plans.RowPlan(rows, p, Required(recipe, p), today, parts) else parts == []
  {
    var drawn := DrawQuery(rows, recipe, today);
    forall i | 0 <= i < |products| && products[i] != p ensures PartsOf(drawn(products[i]), p) == [] {
      ProductPlan(rows, recipe, products[i], today, p);
    }
    if n: nat :| n < |products| && products[n] == p {
      PartsOfOne(products, drawn, n);
      ProductPlan(rows, recipe, p, today, p);
    } else {
      NoParts(products, drawn, p);
    }
  }

  /** A confirmed deduction draws every product of the recipe by its plan over the stored rows, and no other. */
  lemma DeductionFollowsThePlans(home: Home, key: RunKey, recipe: seq<Need>, today: Day, operation: ChangeId, p: Id)
    requires SoundRows(home.db.rows) && Enough(home.db.rows, recipe, today)
    requires Confirmed(home, key, recipe, today, operation).Ok?
    ensures var home' := Confirmed(home, key, recipe, today, operation).value;
            var draws := AllDraws(home.db.rows, recipe, today);
            && home'.deductions == home.deductions + DeductionsOf(key, draws, operation)
            && (if p in Needed(recipe)
                 then Plans.RowPlan(home.db.rows, p, Required(recipe, p), today, PartsOf(draws, p))
                else PartsOf(draws, p) == [])
  {
    var rows := home.db.rows;
    PurchasesAreLacking(rows, recipe, today);
    LinkageSafety.NothingToBuy(rows, recipe, today);
    AllDrawsAreExact(rows, recipe, today, operation);
    DrawsArePlans(rows, recipe, Ascend(Needed(recipe)), today, p);
  }
}
