/** The import repository as the code runs it: validation loops, target checks, row inserts, roll-back. */
module ImportStore {
  import opened Types
  import opened Tables
  import opened Database
  import opened Import
  import opened ImportProtocol
  import SyncSpec
  import opened Texts

  // ---- ValidateImport

  /** `valid` is validateImportRow for the kind; the loop adds that no id repeats. */
  method ValidateEach(drafts: seq<Draft>, valid: Draft -> bool) returns (ok: bool)
    ensures ok <==>
              && (forall i :: 0 <= i < |drafts| ==> valid(drafts[i]))
              && (forall i, j :: 0 <= i < j < |drafts| ==> drafts[i].id != drafts[j].id)
  {
    var ids: set<Id> := {};
    for i := 0 to |drafts|
      invariant forall j :: 0 <= j < i ==> valid(drafts[j])
      invariant forall j, k :: 0 <= j < k < i ==> drafts[j].id != drafts[k].id
      invariant forall id :: id in ids <==> exists j :: 0 <= j < i && drafts[j].id == id
    {
      if drafts[i].id in ids || !valid(drafts[i]) {
        return false;
      }
      ids := ids + {drafts[i].id};
    }
    ok := true;
  }

  method ValidateRows(kind: Kind, drafts: seq<Draft>) returns (ok: bool)
    ensures ok <==> ValidDrafts(kind, drafts)
  {
    ok := ValidateEach(drafts, (d: Draft) => ValidDraft(kind, d));
  }

  method ValidateHistory(history: seq<Past>) returns (ok: bool)
    ensures ok <==> ValidHistory(history)
  {
    var ids: set<Id> := {};
    for i := 0 to |history|
      invariant ValidHistory(history[..i])
      invariant forall id :: id in ids <==> exists j :: 0 <= j < i && history[j].id == id
    {
      if history[i].id in ids || !ValidPast(history[i]) {
        return false;
      }
      ids := ids + {history[i].id};
    }
    assert history[..|history|] == history;
    ok := true;
  }

  /** The entity kinds in bootstrap order; OtherEntity marks the end. */
  function KindAt(k: nat): Kind {
    match k
    case 0 => Categories
    case 1 => Products
    case 2 => ProductBatches
    case 3 => ShoppingItems
    case 4 => ReminderSettings
    case _ => OtherEntity
  }

  /** The loop over the entity kinds, with the count of their rows. */
  method ValidateKinds(m: Manifest) returns (ok: bool, count: nat)
    ensures ok <==> forall k :: 0 <= k < 5 ==> ValidDrafts(KindAt(k), DraftsOf(m, KindAt(k)))
    ensures ok ==> count == |Items(m)|
  {
    count := 0;
    for k := 0 to 5
      invariant count == Start(m, KindAt(k))
      invariant forall j :: 0 <= j < k ==> ValidDrafts(KindAt(j), DraftsOf(m, KindAt(j)))
    {
      var valid := ValidateRows(KindAt(k), DraftsOf(m, KindAt(k)));
      if !valid {
        return false, count;
      }
      count := count + |DraftsOf(m, KindAt(k))|;
    }
    ok := true;
  }

  lemma KindsAreRows(m: Manifest)
    ensures ValidRows(m) <==> ValidHistory(m.history) && forall k :: 0 <= k < 5 ==>
              ValidDrafts(KindAt(k), DraftsOf(m, KindAt(k)))
  {
    assert KindAt(0) == Categories && KindAt(1) == Products && KindAt(2) == ProductBatches
           && KindAt(3) == ShoppingItems && KindAt(4) == ReminderSettings;
  }

  method ValidateImport(m: Manifest, outbox: int) returns (complaint: Option<Code>)
    ensures complaint == Complaint(m, outbox)
  {
    if m.format != 1 {
      return Some(ImportUnsupportedFormat);
    }
    if Trim(m.workspace) == "" || Bytes(m.workspace) > 255 || outbox < 0 {
      return Some(ValidationFailed);
    }
    KindsAreRows(m);
    var valid, count := ValidateKinds(m);
    var history := ValidateHistory(m.history);
    if !valid || !history {
      return Some(ValidationFailed);
    }
    if count + |m.history| > MAX_IMPORT_RECORDS || m.bytes > MAX_IMPORT_BYTES {
      return Some(ImportLimitExceeded);
    }
    complaint := None;
  }

  // ---- validateImportTargets

  /** The blockers that the first loop finds at the n-th row. */
  predicate RowBlocks(db: Db, items: seq<Item>, n: nat, b: Blocker)
    requires n < |items|
  {
    && b.place == Row_(n)
    && match b.code
       case CategoryReuseMismatch => ReuseMismatch(db, items, n)
       case UuidOverlap => Overlapping(db, items, n)
       case CategoryNameOverlap =>
           items[n].key.kind == Categories && !items[n].reuse && NameTaken(db.rows, NameOf(items[n].row.columns))
       case MissingDependency => !items[n].reuse && Dangling(db, items, n)
       case _ => false
  }

  /** A category name that an earlier category of the manifest bears. */
  predicate RepeatedName(items: seq<Item>, n: nat)
    requires n < |items|
  {
    && items[n].key.kind == Categories
    && exists j ::
         0 <= j < n && items[j].key.kind == Categories
         && Lower(NameOf(items[j].row.columns)) == Lower(NameOf(items[n].row.columns))
  }

  /** The blockers that the last two loops find at the n-th row. */
  predicate NameBlocks(db: Db, items: seq<Item>, n: nat, b: Blocker)
    requires n < |items|
  {
    || (b.code == CategoryNameOverlap && RepeatedName(items, n))
    || (b.code == ReminderScopeOverlap && ScopeOverlap(db, items, n))
  }

  predicate RequestBlocks(db: Db, around: Circumstances, b: Blocker) {
    && b.place == Request
    && match b.code
       case UnsettledLocalOutbox => around.outbox != 0
       case BootstrapNotConfirmed => !around.bootstrapped
       case UnsettledRemoteSync => OpenConflict(db)
       case _ => false
  }

  ghost predicate Within(b: Blocker, n: nat) {
    b.place.Row_? && b.place.n < n
  }

  method CheckRequest(db: Database, around: Circumstances) returns (blockers: seq<Blocker>)
    ensures forall b :: b in blockers <==> RequestBlocks(db.State(), around, b)
  {
    blockers := [];
    if around.outbox != 0 {
      blockers := blockers + [Blocker(UnsettledLocalOutbox, Request)];
    }
    if !around.bootstrapped {
      blockers := blockers + [Blocker(BootstrapNotConfirmed, Request)];
    }
    if OpenConflict(db.State()) {
      blockers := blockers + [Blocker(UnsettledRemoteSync, Request)];
    }
  }

  method CheckRow(db: Database, items: seq<Item>, n: nat) returns (blockers: seq<Blocker>)
    requires n < |items|
    ensures forall b :: b in blockers <==> RowBlocks(db.State(), items, n, b)
  {
    var item := items[n];
    blockers := [];
    if item.reuse {
      if !SyncSpec.Active(db.rows, item.key) || NameOf(db.rows[item.key].columns) != NameOf(item.row.columns) {
        blockers := [Blocker(CategoryReuseMismatch, Row_(n))];
      }
      return;
    }
    if item.key in db.rows || item.key in db.foreign {
      blockers := blockers + [Blocker(UuidOverlap, Row_(n))];
    }
    if item.key.kind == Categories && NameTaken(db.rows, NameOf(item.row.columns)) {
      blockers := blockers + [Blocker(CategoryNameOverlap, Row_(n))];
    }
    if item.row.parent.Some? {
      var parent := ParentOf(item.key, item.row).value;
      if !InPlan(items, parent) && !SyncSpec.Active(db.rows, parent) {
        blockers := blockers + [Blocker(MissingDependency, Row_(n))];
      }
    }
  }

  /** The first loop, over the entity rows. */
  method CheckRows(db: Database, items: seq<Item>) returns (blockers: seq<Blocker>)
    ensures forall b :: b in blockers <==> Within(b, |items|) && RowBlocks(db.State(), items, b.place.n, b)
  {
    blockers := [];
    for i := 0 to |items|
      invariant forall b :: b in blockers <==> Within(b, i) && RowBlocks(db.State(), items, b.place.n, b)
    {
      var found := CheckRow(db, items, i);
      blockers := blockers + found;
    }
  }

  /** The loops over category names and reminder scopes, with the names and scopes seen so far. */
  method CheckNames(db: Database, items: seq<Item>) returns (blockers: seq<Blocker>)
    ensures forall b :: b in blockers <==> Within(b, |items|) && NameBlocks(db.State(), items, b.place.n, b)
  {
    blockers := [];
    var names: set<string> := {};
    var scopes: set<Option<Id>> := {};
    for i := 0 to |items|
      invariant forall x :: x in names <==>
                  exists j :: 0 <= j < i && items[j].key.kind == Categories && Lower(NameOf(items[j].row.columns)) == x
      invariant forall x :: x in scopes <==>
                  exists j :: 0 <= j < i && items[j].key.kind == ReminderSettings && items[j].row.parent == x
      invariant forall b :: b in blockers <==> Within(b, i) && NameBlocks(db.State(), items, b.place.n, b)
    {
      var item := items[i];
      if item.key.kind == Categories {
        var name := Lower(NameOf(item.row.columns));
        if name in names {
          blockers := blockers + [Blocker(CategoryNameOverlap, Row_(i))];
        }
        names := names + {name};
      }
      if item.key.kind == ReminderSettings {
        var scope := item.row.parent;
        if ScopeTaken(db.rows, scope) || scope in scopes {
          blockers := blockers + [Blocker(ReminderScopeOverlap, Row_(i))];
        }
        scopes := scopes + {scope};
      }
    }
  }

  method CheckHistory(archive: seq<Past>, history: seq<Past>) returns (blockers: seq<Blocker>)
    ensures forall b :: b in blockers <==>
              b.code == UuidOverlap && b.place.Record_? && b.place.n < |history|
                  && Archived(archive, history[b.place.n].id)
  {
    blockers := [];
    for i := 0 to |history|
      invariant forall b :: b in blockers <==>
                  b.code == UuidOverlap && b.place.Record_? && b.place.n < i && Archived(archive, history[b.place.n].id)
    {
      if Archived(archive, history[i].id) {
        blockers := blockers + [Blocker(UuidOverlap, Record_(i))];
      }
    }
  }

  class ImportRepository {
    const db: Database
    var plans: map<Id, Plan>
    var archive: seq<Past>

    constructor (desk: Desk)
      ensures fresh(db) && State() == desk
    {
      db := new Database(desk.db);
      plans, archive := desk.plans, desk.archive;
    }

    function State(): Desk
      reads this, db
    {
      Desk(db.State(), plans, archive)
    }

    /** ROLLBACK */
    method Restore(saved: Desk)
      modifies this, db
      ensures State() == saved
    {
      db.Restore(saved.db);
      plans, archive := saved.plans, saved.archive;
    }

    /** The blockers are exactly those that the tables and the manifest call for. */
    method ValidateTargets(m: Manifest, around: Circumstances) returns (blockers: seq<Blocker>)
      ensures forall b :: b in blockers <==> Blocks(db.State(), archive, m, around, b)
    {
      var request := CheckRequest(db, around);
      var rows := CheckRows(db, Items(m));
      var records := CheckHistory(archive, m.history);
      var names := CheckNames(db, Items(m));
      blockers := request + rows + records + names;
      forall b ensures b in blockers <==> Blocks(db.State(), archive, m, around, b) {
        assert b in blockers <==> b in request || b in rows || b in records || b in names;
      }
    }

    method PreflightImport(user: Id, m: Manifest, around: Circumstances, generated: nat)
      returns (r: Result<ImportReceipt>, fault: Option<SqlState>)
      requires DeskInv(State())
      modifies this
      ensures fault.Some? ==> r == Err(Raw(fault.value)) && State() == old(State())
      ensures fault.None? ==>
                match Preflighted(old(State()), user, m, around, generated)
                case Ok(done) => r == Ok(done.1) && State() == done.0
                case Err(e) => r == Err(e) && State() == old(State())
      ensures DeskInv(State()) && Lasts(old(State()), State())
    {
      ghost var begun := State();
      SameDesk(begun);
      if Preflighted(begun, user, m, around, generated).Ok? {
        PreflightKeeps(begun, user, m, around, generated);
      }
      var complaint := ValidateImport(m, around.outbox);
      if complaint.Some? {
        return Err(Business(complaint.value, 0)), None;
      }
      fault := Statement();
      if fault.Some? {
        return Err(Raw(fault.value)), fault;
      }
      var found := m.id in plans;
      if found {
        var previous := plans[m.id];
        if previous.user != user {
          return Err(Business(Forbidden, 0)), None;
        }
        if previous.manifest != m {
          return Err(Business(ImportIdReused, 0)), None;
        }
        if previous.completed {
          return Ok(Completed), None;
        }
      }
      var blockers := ValidateTargets(m, around);
      if |blockers| != 0 {
        assert blockers[0] in blockers;
        plans := plans - {m.id};
        return Ok(Blocked), None;
      }
      assert Clear(db.State(), archive, m, around);
      var checkpoint := if found then plans[m.id].checkpoint else generated;
      plans := plans[m.id := Plan(user, if found then plans[m.id].manifest else m, checkpoint, false)];
      r := Ok(Ready(checkpoint));
    }

    /** INSERT of one row and its log entry. */
    method InsertEntity(plan: Id, item: Item) returns (r: Result<()>, fault: Option<SqlState>)
      modifies db
      ensures fault.Some? ==> r.Err?
      ensures fault.None? ==>
                match Write(old(db.State()), plan, item)
                case Ok(after) => r == Ok(()) && db.State() == after
                case Err(e) => r == Err(e)
    {
      if item.reuse {
        return Ok(()), None;
      }
      fault := Statement();
      if fault.Some? {
        return Err(if fault.value == OtherFailure then Raw(OtherFailure) else Business(ImportBlocked, 0)), fault;
      }
      if !item.castable {
        return Err(Raw(InvalidData)), None;
      }
      if !item.checked || Taken(db.rows, item.key, item.row) || item.key in db.rows || item.key in db.foreign {
        return Err(Business(ImportBlocked, 0)), None;
      }
      if item.row.parent.Some? && ParentOf(item.key, item.row).value !in db.rows {
        return Err(Business(ImportBlocked, 0)), None;
      }
      var change := Derived(plan, item.key);
      if Logged(db.log, change) {
        return Err(Raw(UniqueViolation)), None;
      }
      db.rows := db.rows[item.key := item.row];
      db.sequence := db.sequence + 1;
      db.log := db.log + [RowEntry(db.sequence, change, item.key, item.row)];
      r := Ok(());
    }

    /** The loops over the manifest's rows, parents first. */
    method InsertAll(plan: Id, items: seq<Item>) returns (r: Result<()>, fault: Option<SqlState>)
      modifies db
      ensures fault.Some? ==> r.Err?
      ensures fault.None? ==>
                match WriteAll(old(db.State()), plan, items)
                case Ok(after) => r == Ok(()) && db.State() == after
                case Err(e) => r == Err(e)
    {
      ghost var begun := db.State();
      for i := 0 to |items|
        invariant WriteAll(begun, plan, items[..i]) == Ok(db.State())
      {
        assert items[..i + 1][..i] == items[..i];
        r, fault := InsertEntity(plan, items[i]);
        if r.Err? {
          if fault.None? {
            FirstWriteError(begun, plan, items, i + 1);
          }
          return;
        }
      }
      assert items[..|items|] == items;
      r, fault := Ok(()), None;
    }

    /** The loop over the history records. */
    method FileHistory(history: seq<Past>) returns (r: Result<()>, fault: Option<SqlState>)
      modifies this`archive
      ensures fault.Some? ==> r.Err?
      ensures fault.None? ==>
                match Filed(old(archive), history)
                case Ok(after) => r == Ok(()) && archive == after
                case Err(e) => r == Err(e)
    {
      ghost var begun := archive;
      for i := 0 to |history|
        invariant Filed(begun, history[..i]) == Ok(archive)
      {
        assert history[..i + 1][..i] == history[..i];
        fault := Statement();
        if fault.Some? {
          return Err(Raw(fault.value)), fault;
        }
        if !history[i].castable {
          FirstFilingError(begun, history, i + 1);
          return Err(Raw(InvalidData)), None;
        }
        if !CheckedPast(history[i]) || Archived(archive, history[i].id) {
          FirstFilingError(begun, history, i + 1);
          return Err(Business(ImportBlocked, 0)), None;
        }
        archive := archive + [history[i]];
      }
      assert history[..|history|] == history;
      r, fault := Ok(()), None;
    }

    method ConfirmImport(user: Id, id: Id, checkpoint: nat, fingerprint: Manifest, around: Circumstances)
      returns (r: Result<()>, fault: Option<SqlState>)
      requires DeskInv(State())
      modifies this, db
      ensures r.Err? ==> State() == old(State())
      ensures fault.Some? ==> r.Err?
      ensures fault.None? ==>
                match Confirmed(old(State()), user, id, checkpoint, fingerprint, around)
                case Ok(after) => r == Ok(()) && State() == after
                case Err(e) => r == Err(e)
      ensures DeskInv(State()) && Lasts(old(State()), State())
    {
      var begun := State();
      SameDesk(begun);
      if Confirmed(begun, user, id, checkpoint, fingerprint, around).Ok? {
        ConfirmKeeps(begun, user, id, checkpoint, fingerprint, around);
      }
      if id !in plans {
        return Err(Business(NotFound, 0)), None;
      }
      var plan := plans[id];
      if plan.user != user {
        return Err(Business(Forbidden, 0)), None;
      }
      if plan.checkpoint != checkpoint || plan.manifest != fingerprint {
        return Err(Business(ImportCheckpointStale, 0)), None;
      }
      // the manifest was validated by the preflight that froze it
      if plan.completed {
        return Ok(()), None;
      }
      fault := Statement();
      if fault.Some? {
        return Err(Raw(fault.value)), fault;
      }
      var blockers := ValidateTargets(plan.manifest, around);
      if |blockers| != 0 {
        assert blockers[0] in blockers;
        return Err(Business(ImportBlocked, 0)), None;
      }
      assert Clear(db.State(), archive, plan.manifest, around);
      r, fault := InsertAll(id, Items(plan.manifest));
      if r.Err? {
        Restore(begun);
        return;
      }
      r, fault := FileHistory(plan.manifest.history);
      if r.Err? {
        Restore(begun);
        return;
      }
      plans := plans[id := plan.(completed := true)];
    }
  }

  lemma {:induction false} FirstFilingError(archive: seq<Past>, history: seq<Past>, n: nat)
    requires n <= |history| && Filed(archive, history[..n]).Err?
    ensures Filed(archive, history) == Filed(archive, history[..n])
  {
    if n == |history| {
      assert history[..n] == history;
    } else {
      assert history[..|history| - 1][..n] == history[..n];
      FirstFilingError(archive, history[..|history| - 1], n);
    }
  }

  lemma {:induction false} FirstWriteError(db: Db, plan: Id, items: seq<Item>, n: nat)
    requires n <= |items| && WriteAll(db, plan, items[..n]).Err?
    ensures WriteAll(db, plan, items) == WriteAll(db, plan, items[..n])
  {
    if n == |items| {
      assert items[..n] == items;
    } else {
      assert items[..|items| - 1][..n] == items[..n];
      FirstWriteError(db, plan, items[..|items| - 1], n);
    }
  }
}
