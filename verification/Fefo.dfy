/** First-expired-first-out allocation: the planner's loop and what a FEFO plan is. */
module Fefo {
  import opened Types

  /** One locked batch as the planner sees it; `available` is false for the domain status "discarded". */
  datatype Batch = Batch(id: Id, expiry: Option<Day>, quantity: int, version: int, available: bool)

  datatype Take = Take(id: Id, quantity: int, before: int, version: int)

  /** Earlier expiry first, undated batches last, ids break ties. */
  predicate Before(a: Batch, b: Batch) {
    match (a.expiry, b.expiry)
    case (None, Some(_)) => false
    case (Some(_), None) => true
    case (Some(x), Some(y)) => x < y || (x == y && a.id < b.id)
    case (None, None) => a.id < b.id
  }

  predicate Eligible(b: Batch, today: Day) {
    b.available && b.quantity > 0 && !(b.expiry.Some? && b.expiry.value < today)
  }

  function Candidates(batches: seq<Batch>, today: Day): (r: seq<Batch>)
    ensures forall b :: b in r <==> b in batches && Eligible(b, today)
  {
    if batches == [] then []
    else
      var rest := Candidates(batches[..|batches| - 1], today);
      var last := batches[|batches| - 1];
      if Eligible(last, today) then rest + [last] else rest
  }

  function Stock(batches: seq<Batch>): int {
    if batches == [] then 0 else Stock(batches[..|batches| - 1]) + batches[|batches| - 1].quantity
  }

  // ---- sort.SliceStable

  function Insert(b: Batch, sorted: seq<Batch>): (r: seq<Batch>)
    ensures multiset(r) == multiset(sorted) + multiset{b}
  {
    if sorted == [] || Before(b, sorted[0]) then [b] + sorted
    else
      assert sorted == [sorted[0]] + sorted[1..];
      [sorted[0]] + Insert(b, sorted[1..])
  }

  /** A stable sort; library code in the source. */
  function Sort(batches: seq<Batch>): (r: seq<Batch>)
    ensures multiset(r) == multiset(batches)
  {
    if batches == [] then []
    else
      assert batches == batches[..|batches| - 1] + [batches[|batches| - 1]];
      Insert(batches[|batches| - 1], Sort(batches[..|batches| - 1]))
  }

  ghost predicate UniqueIds(batches: seq<Batch>) {
    forall i, j :: 0 <= i < j < |batches| ==> batches[i].id != batches[j].id
  }

  ghost predicate Ascending(batches: seq<Batch>) {
    forall i, j :: 0 <= i < j < |batches| ==> Before(batches[i], batches[j])
  }

  // ---- the planner

  function Drain(sorted: seq<Batch>, quantity: int): seq<Take> {
    if sorted == [] || quantity <= 0 then []
    else
      var amount := Min(sorted[0].quantity, quantity);
      [Take(sorted[0].id, amount, sorted[0].quantity, sorted[0].version)] + Drain(sorted[1..], quantity - amount)
  }

  function Allocate(batches: seq<Batch>, quantity: int, today: Day): Result<seq<Take>> {
    if quantity < 1 then Err(Business(ValidationFailed, 0))
    else if Stock(Candidates(batches, today)) < quantity then Err(Business(InsufficientStock, 0))
    else Ok(Drain(Sort(Candidates(batches, today)), quantity))
  }

  function Total(plan: seq<Take>): int {
    if plan == [] then 0 else plan[0].quantity + Total(plan[1..])
  }

  function TakeOf(b: Batch, quantity: int): Take {
    Take(b.id, Min(b.quantity, quantity), b.quantity, b.version)
  }

  lemma DrainHead(sorted: seq<Batch>, quantity: int)
    requires sorted != [] && quantity > 0
    ensures Drain(sorted, quantity) == [TakeOf(sorted[0], quantity)]
            + Drain(sorted[1..], quantity - Min(sorted[0].quantity, quantity))
    ensures Total(Drain(sorted, quantity)) ==
              Min(sorted[0].quantity, quantity)
                  + Total(Drain(sorted[1..], quantity - Min(sorted[0].quantity, quantity)))
  {
    var rest := Drain(sorted[1..], quantity - Min(sorted[0].quantity, quantity));
    assert ([TakeOf(sorted[0], quantity)] + rest)[1..] == rest;
  }

  lemma {:induction false} DrainAppend(sorted: seq<Batch>, n: nat, quantity: int)
    requires n < |sorted|
    requires AllPositive(sorted)
    requires Total(Drain(sorted[..n], quantity)) < quantity
    ensures var left := quantity - Total(Drain(sorted[..n], quantity));
            && Drain(sorted[..n + 1], quantity) == Drain(sorted[..n], quantity) + [TakeOf(sorted[n], left)]
            && Total(Drain(sorted[..n + 1], quantity)) == Total(Drain(sorted[..n], quantity))
                 + Min(sorted[n].quantity, left)
  {
    if n == 0 {
      NothingDrained(sorted, quantity);
    } else {
      var tail, left := sorted[1..], quantity - Min(sorted[0].quantity, quantity);
      DrainTail(sorted, n, quantity);
      DrainTail(sorted, n + 1, quantity);
      DrainAppend(tail, n - 1, left);
      Associate([TakeOf(sorted[0], quantity)], Drain(tail[..n - 1], left),
                TakeOf(sorted[n], left - Total(Drain(tail[..n - 1], left))));
    }
  }

  lemma Associate<T>(x: seq<T>, y: seq<T>, z: T)
    ensures (x + y) + [z] == x + (y + [z])
  {
  }

  lemma DrainTail(sorted: seq<Batch>, n: nat, quantity: int)
    requires 1 <= n <= |sorted| && quantity > 0
    ensures var rest := Drain(sorted[1..][..n - 1], quantity - Min(sorted[0].quantity, quantity));
            && Drain(sorted[..n], quantity) == [TakeOf(sorted[0], quantity)] + rest
            && Total(Drain(sorted[..n], quantity)) == Min(sorted[0].quantity, quantity) + Total(rest)
  {
    DrainHead(sorted[..n], quantity);
    assert sorted[..n][1..] == sorted[1..][..n - 1];
  }

  lemma NothingDrained(sorted: seq<Batch>, quantity: int)
    requires sorted != []
    ensures Drain(sorted[..0], quantity) == []
    ensures quantity > 0 ==> Drain(sorted[..1], quantity) == [TakeOf(sorted[0], quantity)]
    ensures quantity > 0 ==> Total(Drain(sorted[..1], quantity)) == Min(sorted[0].quantity, quantity)
  {
    if quantity > 0 {
      DrainHead(sorted[..1], quantity);
      assert sorted[..1][1..] == [];
    }
  }

  lemma {:induction false} DrainFull(sorted: seq<Batch>, n: nat, quantity: int)
    requires n <= |sorted|
    requires AllPositive(sorted)
    requires Total(Drain(sorted[..n], quantity)) == quantity
    ensures Drain(sorted, quantity) == Drain(sorted[..n], quantity)
  {
    if n > 0 && quantity > 0 {
      var amount := Min(sorted[0].quantity, quantity);
      var first := Take(sorted[0].id, amount, sorted[0].quantity, sorted[0].version);
      assert sorted[..n][1..] == sorted[1..][..n - 1];
      assert Drain(sorted[..n], quantity) == [first] + Drain(sorted[1..][..n - 1], quantity - amount);
      assert Drain(sorted[..n], quantity)[1..] == Drain(sorted[1..][..n - 1], quantity - amount);
      DrainFull(sorted[1..], n - 1, quantity - amount);
    } else if n == 0 {
      assert Drain(sorted[..0], quantity) == [];
    }
  }

  lemma {:induction false} StockPermutation(a: seq<Batch>, b: seq<Batch>)
    requires multiset(a) == multiset(b)
    ensures Stock(a) == Stock(b)
  {
    if a == [] {
      assert |multiset(b)| == 0;
    } else {
      var last := a[|a| - 1];
      assert a == a[..|a| - 1] + [last];
      assert last in multiset(b);
      var i :| 0 <= i < |b| && b[i] == last;
      var rest := b[..i] + b[i + 1..];
      assert b == b[..i] + [last] + b[i + 1..];
      assert multiset(rest) == multiset(b) - multiset{last};
      StockPermutation(a[..|a| - 1], rest);
      StockRemove(b, i);
    }
  }

  lemma {:induction false} StockRemove(b: seq<Batch>, i: nat)
    requires i < |b|
    ensures Stock(b) == Stock(b[..i] + b[i + 1..]) + b[i].quantity
  {
    if i == |b| - 1 {
      assert b[..i] + b[i + 1..] == b[..|b| - 1];
    } else {
      var rest := b[..i] + b[i + 1..];
      assert b[..|b| - 1][..i] == b[..i];
      assert rest[..|rest| - 1] == b[..|b| - 1][..i] + b[..|b| - 1][i + 1..];
      StockRemove(b[..|b| - 1], i);
    }
  }

  lemma StockHead(batches: seq<Batch>)
    requires batches != []
    ensures Stock(batches) == batches[0].quantity + Stock(batches[1..])
  {
    StockRemove(batches, 0);
    assert batches[..0] + batches[1..] == batches[1..];
  }

  lemma {:induction false} TotalDrain(sorted: seq<Batch>, quantity: int)
    requires AllPositive(sorted)
    requires quantity >= 0
    ensures Total(Drain(sorted, quantity)) == Min(quantity, Stock(sorted))
    ensures Stock(sorted) >= 0
  {
    if sorted != [] {
      StockHead(sorted);
      TotalDrain(sorted[1..], quantity - Min(sorted[0].quantity, quantity));
      if quantity > 0 {
        DrainHead(sorted, quantity);
      }
    }
  }

  lemma CandidatesStep(batches: seq<Batch>, n: nat, today: Day)
    requires n < |batches|
    ensures Candidates(batches[..n + 1], today) ==
              if Eligible(batches[n], today) then Candidates(batches[..n], today) + [batches[n]]
              else Candidates(batches[..n], today)
  {
    assert batches[..n + 1][..n] == batches[..n];
  }

  lemma StockSnoc(batches: seq<Batch>, b: Batch)
    ensures Stock(batches + [b]) == Stock(batches) + b.quantity
  {
    assert (batches + [b])[..|batches|] == batches;
  }

  /** The planner's first loop: filter and add up. */
  method SelectCandidates(batches: seq<Batch>, today: Day) returns (candidates: seq<Batch>, available: int)
    ensures candidates == Candidates(batches, today)
    ensures available == Stock(candidates)
  {
    candidates, available := [], 0;
    for i := 0 to |batches|
      invariant candidates == Candidates(batches[..i], today)
      invariant available == Stock(candidates)
    {
      var batch := batches[i];
      CandidatesStep(batches, i, today);
      if !batch.available || batch.quantity <= 0 {
        continue;
      }
      if batch.expiry.Some? && batch.expiry.value < today {
        continue;
      }
      StockSnoc(candidates, batch);
      available := available + batch.quantity;
      candidates := candidates + [batch];
    }
    assert batches[..|batches|] == batches;
  }

  /** Its second loop: take from the front until nothing remains. */
  method TakeInOrder(sorted: seq<Batch>, quantity: int) returns (plan: seq<Take>)
    requires AllPositive(sorted) && 1 <= quantity <= Stock(sorted)
    ensures plan == Drain(sorted, quantity)
  {
    TotalDrain(sorted, quantity);
    assert sorted[..|sorted|] == sorted;
    var remaining := quantity;
    plan := [];
    for i := 0 to |sorted|
      invariant plan == Drain(sorted[..i], quantity)
      invariant remaining == quantity - Total(plan) > 0
    {
      var amount := sorted[i].quantity;
      if amount > remaining {
        amount := remaining;
      }
      DrainAppend(sorted, i, quantity);
      plan := plan + [Take(sorted[i].id, amount, sorted[i].quantity, sorted[i].version)];
      remaining := remaining - amount;
      if remaining == 0 {
        DrainFull(sorted, i + 1, quantity);
        return;
      }
    }
    assert false;
  }

  lemma SortedPositive(batches: seq<Batch>, today: Day)
    ensures AllPositive(Sort(Candidates(batches, today)))
    ensures Stock(Sort(Candidates(batches, today))) == Stock(Candidates(batches, today))
  {
    var candidates := Candidates(batches, today);
    var sorted := Sort(candidates);
    forall i | 0 <= i < |sorted| ensures sorted[i].quantity > 0 {
      assert sorted[i] in multiset(sorted);
      assert sorted[i] in multiset(candidates);
      assert sorted[i] in candidates;
    }
    StockPermutation(sorted, candidates);
  }

  method AllocateFEFO(batches: seq<Batch>, quantity: int, today: Day) returns (r: Result<seq<Take>>)
    ensures r == Allocate(batches, quantity, today)
  {
    if quantity < 1 {
      return Err(Business(ValidationFailed, 0));
    }
    var candidates, available := SelectCandidates(batches, today);
    if available < quantity {
      return Err(Business(InsufficientStock, 0));
    }
    SortedPositive(batches, today);
    var plan := TakeInOrder(Sort(candidates), quantity);
    r := Ok(plan);
  }

  // ---- what a FEFO plan is, without saying how it is computed

  /** `plan` takes from the batches `used`, in order: eligible batches only, positive amounts that fit,
      the quantity in all, every batch but the last drained, nothing eligible skipped before a used batch. */
  ghost predicate FefoPlan(used: seq<Batch>, plan: seq<Take>, batches: seq<Batch>, quantity: int, today: Day) {
    && |used| == |plan|
    && (forall i :: 0 <= i < |used| ==> used[i] in batches && Eligible(used[i], today))
    && (forall i :: 0 <= i < |used| ==> Fills(plan[i], used[i]))
    && (forall i :: 0 <= i < |used| - 1 ==> plan[i].quantity == used[i].quantity)
    && Ascending(used)
    && Total(plan) == quantity
    && (forall b :: b in batches && Eligible(b, today) && b !in used ==> used != [] && Before(used[|used| - 1], b))
  }

  ghost predicate Fills(t: Take, b: Batch) {
    t.id == b.id && t.before == b.quantity && t.version == b.version && 0 < t.quantity <= b.quantity
  }

  lemma {:induction false} InsertAscending(b: Batch, sorted: seq<Batch>)
    requires Ascending(sorted)
    requires forall c :: c in sorted ==> c.id != b.id
    ensures Ascending(Insert(b, sorted))
  {
    if sorted == [] || Before(b, sorted[0]) {
    } else {
      InsertAscending(b, sorted[1..]);
      var tail := Insert(b, sorted[1..]);
      forall c | c in tail ensures Before(sorted[0], c) {
        assert c in multiset(tail);
      }
    }
  }

  lemma {:induction false} SortAscending(batches: seq<Batch>)
    requires UniqueIds(batches)
    ensures Ascending(Sort(batches))
  {
    if batches != [] {
      var front := batches[..|batches| - 1];
      SortAscending(front);
      forall c | c in Sort(front) ensures c.id != batches[|batches| - 1].id {
        assert c in multiset(Sort(front));
      }
      InsertAscending(batches[|batches| - 1], Sort(front));
    }
  }

  lemma {:induction false} CandidatesUnique(batches: seq<Batch>, today: Day)
    requires UniqueIds(batches)
    ensures UniqueIds(Candidates(batches, today))
  {
    if batches != [] {
      var rest := Candidates(batches[..|batches| - 1], today);
      CandidatesUnique(batches[..|batches| - 1], today);
      forall i | 0 <= i < |rest| ensures rest[i].id != batches[|batches| - 1].id {
        assert rest[i] in batches[..|batches| - 1];
      }
    }
  }

  lemma {:induction false} SortedMembers(batches: seq<Batch>, today: Day)
    ensures forall b :: b in Sort(Candidates(batches, today)) <==> b in batches && Eligible(b, today)
  {
    var c := Candidates(batches, today);
    forall b ensures b in Sort(c) <==> b in c {
      assert b in multiset(Sort(c)) <==> b in multiset(c);
    }
  }

  lemma DrainStep(sorted: seq<Batch>, quantity: int)
    requires sorted != [] && quantity > 0
    ensures var amount := Min(sorted[0].quantity, quantity);
            var rest := Drain(sorted[1..], quantity - amount);
            && Drain(sorted, quantity) == [TakeOf(sorted[0], quantity)] + rest
            && Drain(sorted, quantity)[1..] == rest
            && Total(Drain(sorted, quantity)) == amount + Total(rest)
    ensures Stock(sorted) == sorted[0].quantity + Stock(sorted[1..])
  {
    StockHead(sorted);
    DrainHead(sorted, quantity);
  }

  ghost predicate AllPositive(batches: seq<Batch>) {
    forall i :: 0 <= i < |batches| ==> batches[i].quantity > 0
  }

  /** A prefix of the sorted candidates, drained: the plan the loop builds. */
  lemma {:induction false} DrainIsPlan(sorted: seq<Batch>, quantity: int)
    requires AllPositive(sorted)
    requires 1 <= quantity <= Stock(sorted)
    ensures var plan := Drain(sorted, quantity);
            && 1 <= |plan| <= |sorted|
            && Total(plan) == quantity
            && (forall i :: 0 <= i < |plan| ==> Fills(plan[i], sorted[i]))
            && (forall i :: 0 <= i < |plan| - 1 ==> plan[i].quantity == sorted[i].quantity)
  {
    DrainStep(sorted, quantity);
    var amount := Min(sorted[0].quantity, quantity);
    var tail := sorted[1..];
    var rest := Drain(tail, quantity - amount);
    var plan := Drain(sorted, quantity);
    if quantity - amount > 0 {
      DrainIsPlan(tail, quantity - amount);
      forall i | 1 <= i < |plan|
        ensures Fills(plan[i], sorted[i]) && (i < |plan| - 1 ==> plan[i].quantity == sorted[i].quantity) {
        assert plan[i] == rest[i - 1] && sorted[i] == tail[i - 1];
      }
    } else {
      assert rest == [];
    }
  }

  /** The conditions of a plan over an already sorted list of candidates. */
  ghost predicate Covers(sorted: seq<Batch>, used: seq<Batch>, plan: seq<Take>) {
    && |used| == |plan| >= 1
    && (forall i :: 0 <= i < |used| ==> used[i] in sorted)
    && (forall i :: 0 <= i < |used| ==> Fills(plan[i], used[i]))
    && (forall i :: 0 <= i < |used| - 1 ==> plan[i].quantity == used[i].quantity)
    && (forall b :: b in sorted && b !in used ==> Before(used[|used| - 1], b))
  }

  lemma HeadFirst(sorted: seq<Batch>, x: Batch)
    requires Ascending(sorted) && x in sorted
    ensures x == sorted[0] || Before(sorted[0], x)
  {
    var k :| 0 <= k < |sorted| && sorted[k] == x;
    if k > 0 {
      assert Before(sorted[0], sorted[k]);
    }
  }

  lemma HeadOrTail<T>(s: seq<T>, x: T)
    requires s != []
    ensures x in s <==> x == s[0] || x in s[1..]
  {
    assert s == [s[0]] + s[1..];
  }

  lemma FirstUsedIsHead(sorted: seq<Batch>, used: seq<Batch>, plan: seq<Take>)
    requires Ascending(sorted) && Ascending(used)
    requires Covers(sorted, used, plan)
    ensures sorted != [] && used[0] == sorted[0]
  {
    assert used[0] in sorted;
    HeadFirst(sorted, used[0]);
    HeadFirst(sorted, used[|used| - 1]);
    assert sorted[0] in sorted;
    if sorted[0] in used {
      HeadFirst(used, sorted[0]);
    }
  }

  lemma CoversTail(sorted: seq<Batch>, used: seq<Batch>, plan: seq<Take>)
    requires Ascending(sorted) && Ascending(used)
    requires Covers(sorted, used, plan) && |used| > 1
    requires sorted != [] && used[0] == sorted[0]
    ensures Covers(sorted[1..], used[1..], plan[1..])
    ensures Ascending(sorted[1..]) && Ascending(used[1..])
  {
    var tail, rest := sorted[1..], used[1..];
    forall i | 0 <= i < |rest| ensures rest[i] in tail {
      assert rest[i] == used[i + 1];
      assert Before(used[0], used[i + 1]);
      HeadOrTail(sorted, used[i + 1]);
    }
    forall b | b in tail && b !in rest ensures Before(rest[|rest| - 1], b) {
      var k :| 0 <= k < |tail| && tail[k] == b;
      assert Before(sorted[0], sorted[k + 1]);
      HeadOrTail(sorted, b);
      HeadOrTail(used, b);
    }
  }

  lemma DrainFrom(sorted: seq<Batch>, plan: seq<Take>, quantity: int)
    requires sorted != [] && plan != []
    requires Fills(plan[0], sorted[0]) && plan[0].quantity == Min(sorted[0].quantity, quantity)
    requires plan[1..] == Drain(sorted[1..], quantity - plan[0].quantity)
    ensures plan == Drain(sorted, quantity)
  {
    assert plan == [plan[0]] + plan[1..];
  }

  /** The first batch is drained, unless it is the last one used. */
  lemma FirstTake(used: seq<Batch>, plan: seq<Take>)
    requires |used| == |plan| >= 1 && forall i :: 0 <= i < |plan| ==> Fills(plan[i], used[i])
    requires |plan| > 1 ==> plan[0].quantity == used[0].quantity
    ensures plan[0].quantity == Min(used[0].quantity, Total(plan))
    ensures Total(plan) == plan[0].quantity + Total(plan[1..])
  {
    TotalPositive(plan[1..], used[1..]);
  }

  lemma {:induction false} DrainUnique(sorted: seq<Batch>, used: seq<Batch>, plan: seq<Take>, quantity: int)
    requires Ascending(sorted) && Ascending(used)
    requires Covers(sorted, used, plan)
    requires Total(plan) == quantity
    ensures plan == Drain(sorted, quantity)
    decreases |used|
  {
    FirstUsedIsHead(sorted, used, plan);
    FirstTake(used, plan);
    if |used| > 1 {
      CoversTail(sorted, used, plan);
      DrainUnique(sorted[1..], used[1..], plan[1..], quantity - plan[0].quantity);
    } else {
      assert Drain(sorted[1..], 0) == [];
    }
    DrainFrom(sorted, plan, quantity);
  }

  lemma {:induction false} TotalPositive(plan: seq<Take>, used: seq<Batch>)
    requires |plan| == |used| && forall i :: 0 <= i < |plan| ==> Fills(plan[i], used[i])
    ensures Total(plan) >= |plan|
  {
    if plan != [] {
      TotalPositive(plan[1..], used[1..]);
    }
  }

  /** What is not among the first n comes after the n-th. */
  lemma SkippedIsLater(sorted: seq<Batch>, n: nat, b: Batch)
    requires Ascending(sorted) && 1 <= n <= |sorted|
    requires b in sorted && b !in sorted[..n]
    ensures Before(sorted[n - 1], b)
  {
    assert sorted == sorted[..n] + sorted[n..];
    var k :| 0 <= k < |sorted[n..]| && sorted[n..][k] == b;
    assert sorted[n + k] == b;
  }

  lemma PlanFromDrain(sorted: seq<Batch>, batches: seq<Batch>, quantity: int, today: Day)
    requires Ascending(sorted) && AllPositive(sorted)
    requires forall b :: b in sorted <==> b in batches && Eligible(b, today)
    requires 1 <= quantity <= Stock(sorted)
    ensures exists used :: FefoPlan(used, Drain(sorted, quantity), batches, quantity, today)
  {
    DrainIsPlan(sorted, quantity);
    var plan := Drain(sorted, quantity);
    var used := sorted[..|plan|];
    forall b | b in batches && Eligible(b, today) && b !in used ensures Before(used[|used| - 1], b) {
      SkippedIsLater(sorted, |plan|, b);
    }
    forall i | 0 <= i < |used| ensures used[i] in batches && Eligible(used[i], today) {
      assert sorted[i] in sorted;
    }
    UsedIsPlan(used, plan, sorted);
    assert FefoPlan(used, plan, batches, quantity, today);
  }

  lemma UsedIsPlan(used: seq<Batch>, plan: seq<Take>, sorted: seq<Batch>)
    requires Ascending(sorted) && |plan| <= |sorted| && used == sorted[..|plan|]
    requires forall i :: 0 <= i < |plan| ==> Fills(plan[i], sorted[i])
    requires forall i :: 0 <= i < |plan| - 1 ==> plan[i].quantity == sorted[i].quantity
    ensures Ascending(used)
    ensures forall i :: 0 <= i < |used| ==> Fills(plan[i], used[i])
    ensures forall i :: 0 <= i < |used| - 1 ==> plan[i].quantity == used[i].quantity
  {
  }

  /** The planner answers a FEFO plan, and it is the only one: for distinct ids and a positive quantity
      the loop's result is `Ok(plan)` exactly when `plan` is the FEFO plan. */
  lemma AllocateIsTheFefoPlan(batches: seq<Batch>, quantity: int, today: Day, plan: seq<Take>)
    requires UniqueIds(batches)
    ensures Allocate(batches, quantity, today) == Ok(plan) <==>
              quantity >= 1 && exists used :: FefoPlan(used, plan, batches, quantity, today)
  {
    var sorted := Sort(Candidates(batches, today));
    CandidatesUnique(batches, today);
    SortAscending(Candidates(batches, today));
    SortedMembers(batches, today);
    StockPermutation(sorted, Candidates(batches, today));
    assert AllPositive(sorted) by {
      forall i | 0 <= i < |sorted| ensures sorted[i].quantity > 0 {
        assert sorted[i] in sorted;
      }
    }
    if Allocate(batches, quantity, today) == Ok(plan) {
      PlanFromDrain(sorted, batches, quantity, today);
    }
    if quantity >= 1 && exists used :: FefoPlan(used, plan, batches, quantity, today) {
      var used :| FefoPlan(used, plan, batches, quantity, today);
      DrainOfPlan(sorted, used, plan, batches, quantity, today);
    }
  }

  lemma DrainOfPlan(sorted: seq<Batch>, used: seq<Batch>, plan: seq<Take>, batches: seq<Batch>, quantity: int,
                    today: Day)
    requires Ascending(sorted) && AllPositive(sorted)
    requires forall b :: b in sorted <==> b in batches && Eligible(b, today)
    requires FefoPlan(used, plan, batches, quantity, today) && quantity >= 1
    ensures plan == Drain(sorted, quantity) && quantity <= Stock(sorted)
  {
    assert |plan| >= 1;
    assert Covers(sorted, used, plan);
    DrainUnique(sorted, used, plan, quantity);
    TotalDrain(sorted, quantity);
  }

  /** It succeeds exactly when the unexpired, undiscarded stock covers the quantity. */
  lemma AllocateSucceedsIffCovered(batches: seq<Batch>, quantity: int, today: Day)
    ensures Allocate(batches, quantity, today).Ok? <==> 1 <= quantity <= Stock(Candidates(batches, today))
    ensures Allocate(batches, quantity, today).Err? && quantity >= 1 ==>
              Allocate(batches, quantity, today).error == Business(InsufficientStock, 0)
  {
  }

  /** The result does not depend on the order in which the rows arrive. */
  lemma AllocateIgnoresOrder(a: seq<Batch>, b: seq<Batch>, quantity: int, today: Day)
    requires UniqueIds(a) && UniqueIds(b)
    requires forall x :: x in a <==> x in b
    ensures Allocate(a, quantity, today) == Allocate(b, quantity, today)
  {
    if Allocate(a, quantity, today).Ok? {
      SamePlan(a, b, quantity, today);
    } else if Allocate(b, quantity, today).Ok? {
      SamePlan(b, a, quantity, today);
    }
  }

  lemma SamePlan(a: seq<Batch>, b: seq<Batch>, quantity: int, today: Day)
    requires UniqueIds(a) && UniqueIds(b)
    requires forall x :: x in a <==> x in b
    requires Allocate(a, quantity, today).Ok?
    ensures Allocate(a, quantity, today) == Allocate(b, quantity, today)
  {
    var plan := Allocate(a, quantity, today).value;
    AllocateIsTheFefoPlan(a, quantity, today, plan);
    var used :| FefoPlan(used, plan, a, quantity, today);
    assert FefoPlan(used, plan, b, quantity, today);
    AllocateIsTheFefoPlan(b, quantity, today, plan);
  }

  /** Each allocation names an eligible batch with its stored quantity and version, and no batch twice. */
  lemma TakesNameBatches(batches: seq<Batch>, quantity: int, today: Day)
    requires UniqueIds(batches) && Allocate(batches, quantity, today).Ok?
    ensures var takes := Allocate(batches, quantity, today).value;
            && takes != []
            && (forall i :: 0 <= i < |takes| ==> Named(takes[i], batches, today))
            && (forall i, j :: 0 <= i < j < |takes| ==> takes[i].id != takes[j].id)
  {
    var takes := Allocate(batches, quantity, today).value;
    AllocateIsTheFefoPlan(batches, quantity, today, takes);
    var used :| FefoPlan(used, takes, batches, quantity, today);
    forall i | 0 <= i < |takes| ensures Named(takes[i], batches, today) {
      assert Fills(takes[i], used[i]) && used[i] in batches;
    }
    forall i, j | 0 <= i < j < |takes| ensures takes[i].id != takes[j].id {
      assert Fills(takes[i], used[i]) && Fills(takes[j], used[j]);
      assert Before(used[i], used[j]);
      var m :| 0 <= m < |batches| && batches[m] == used[i];
      var n :| 0 <= n < |batches| && batches[n] == used[j];
      assert m != n;
    }
  }

  ghost predicate Named(t: Take, batches: seq<Batch>, today: Day) {
    exists b :: b in batches && Eligible(b, today) && Fills(t, b)
  }
}
