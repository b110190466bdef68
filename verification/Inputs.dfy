/** Concrete inputs, in states that runs from the founding reach, for the places where the code does less
    than its callers may expect. */
module Inputs {
  import opened Types
  import opened Texts
  import opened Tables
  import opened Receipts
  import opened Ledger
  import opened Inventory
  import opened SyncSpec
  import SyncSafety
  import Conflicts
  import Import
  import ImportProtocol
  import World
  import Replies
  import Paging
  import Runs

  const FOUNDED: World.Family := World.Founded(0, {})

  const NEW_DB: Db := Db(map[], [], [], map[], [], 0, {})

  const FIRST_KEY: string := "key-number-one-1"
  const SECOND_KEY: string := "key-number-two-2"

  lemma Keys()
    ensures ValidKey(FIRST_KEY) && ValidKey(SECOND_KEY) && FIRST_KEY != SECOND_KEY
    ensures StorableKey(FIRST_KEY) && StorableKey(SECOND_KEY)
  {
    BytesOf(FIRST_KEY, 1);
    BytesOf(SECOND_KEY, 1);
    assert FIRST_KEY[11] != SECOND_KEY[11];
  }

  /** One change pushed by a device, without any failure. */
  function PushOf(device: Id, ch: Change): World.Action {
    World.Push(device, 0, ch, 0, NoFault)
  }

  /** The tables that a run from the founding reaches. */
  ghost predicate Reached(actions: seq<World.Action>, db: Db) {
    World.FamilyInv(FOUNDED) && World.Run(FOUNDED, actions).home.db == db
  }

  lemma PushesTo(f: World.Family, device: Id, ch: Change)
    requires World.FamilyInv(f)
    ensures World.Exec(f, PushOf(device, ch)) == World.OnDb(f, Process(f.home.db, device, 0, ch, 0, NoFault).0)
  {
  }

  lemma OnePush(device: Id, ch: Change)
    ensures Reached([PushOf(device, ch)], Process(NEW_DB, device, 0, ch, 0, NoFault).0)
  {
    World.FoundedInv(0, {});
    PushesTo(FOUNDED, device, ch);
    Runs.RunShort(World.Exec, FOUNDED, PushOf(device, ch), PushOf(device, ch));
  }

  lemma TwoPushes(a: Id, first: Change, b: Id, second: Change, between: Db)
    requires Process(NEW_DB, a, 0, first, 0, NoFault).0 == between
    ensures Reached([PushOf(a, first), PushOf(b, second)], Process(between, b, 0, second, 0, NoFault).0)
  {
    World.FoundedInv(0, {});
    PushesTo(FOUNDED, a, first);
    World.StepKeeps(FOUNDED, PushOf(a, first));
    PushesTo(World.OnDb(FOUNDED, between), b, second);
    Runs.RunShort(World.Exec, FOUNDED, PushOf(a, first), PushOf(b, second));
  }

  // ---- categories

  function CategoryPatch(name: string): Patch {
    Patch(Keep, Keep, map["name" := name], NoStockField, true, true, true)
  }

  /** A device sends a category, on the version it believes to be current. */
  function CategoryChange(change: nat, key: string, id: Id, base: int, name: string): Change {
    Change(Given(change), key, Upsert(Key(Categories, id), base, CategoryPatch(name)), true, "")
  }

  function CategoryRow(name: string): Row {
    Row(1, false, None, None, map["name" := name], 0, 0, Status.Active)
  }

  function Filed(db: Db, device: Id, ch: Change, outcome: Outcome): Db {
    db.(receipts := db.receipts[ReceiptKey(device, ch.key) := Receipt(device, OfTables(ch), outcome)])
  }

  lemma Unpadded(name: string)
    requires name != "" && !Space(name[0])
    ensures Trim(name) != ""
  {
    assert TrimLeft(name) == name;
    StaysNonempty(name);
  }

  lemma {:induction false} StaysNonempty(s: string)
    requires s != "" && !Space(s[0])
    ensures TrimRight(s) != ""
    decreases |s|
  {
    if |s| > 1 && Space(s[|s| - 1]) {
      assert s[..|s| - 1][0] == s[0];
      StaysNonempty(s[..|s| - 1]);
    }
  }

  const MILK_DB: Db :=
    Filed(Db(map[Key(Categories, 1) := CategoryRow("Milk")], [],
             [RowEntry(1, Given(1), Key(Categories, 1), CategoryRow("Milk"))], map[], [], 1, {}),
          1, CategoryChange(1, FIRST_KEY, 1, 0, "Milk"), Accepted(1, 1))

  lemma MilkIsStored()
    ensures Process(NEW_DB, 1, 0, CategoryChange(1, FIRST_KEY, 1, 0, "Milk"), 0, NoFault).0 == MILK_DB
  {
    Keys();
    Unpadded("Milk");
    var ch := CategoryChange(1, FIRST_KEY, 1, 0, "Milk");
    assert UpsertRow(NEW_DB, Key(Categories, 1), 0, CategoryPatch("Milk")) == Ok(CategoryRow("Milk")) by {
      assert map[] + map["name" := "Milk"] == map["name" := "Milk"];
    }
    assert !Logged(NEW_DB.log, Given(1));
  }

  lemma MilkIsReached()
    ensures Reached([PushOf(1, CategoryChange(1, FIRST_KEY, 1, 0, "Milk"))], MILK_DB)
  {
    MilkIsStored();
    OnePush(1, CategoryChange(1, FIRST_KEY, 1, 0, "Milk"));
  }

  lemma MilkClashes()
    ensures Replies.Clashes(MILK_DB, Key(Categories, 2), CategoryPatch("milk"))
  {
    var row := Inserted(Key(Categories, 2), CategoryPatch("milk"));
    assert map[] + map["name" := "milk"] == map["name" := "milk"];
    assert Lower("milk") == Lower("Milk");
    assert Clash(Categories, row, MILK_DB.rows[Key(Categories, 1)]);
  }

  /** A second active category of the same name, whatever its case: the change guard makes it a conflict of
      version 0, although nothing stands at its id. */
  lemma SecondMilkConflicts()
    ensures Reached([PushOf(1, CategoryChange(1, FIRST_KEY, 1, 0, "Milk"))], MILK_DB)
    ensures Process(MILK_DB, 2, 0, CategoryChange(2, SECOND_KEY, 2, 0, "milk"), 0, NoFault).1 ==
            Answer(Conflicted(VersionConflict, 0, 1))
  {
    MilkIsReached();
    SecondMilk();
  }

  lemma SecondMilk()
    ensures Process(MILK_DB, 2, 0, CategoryChange(2, SECOND_KEY, 2, 0, "milk"), 0, NoFault).1 ==
            Answer(Conflicted(VersionConflict, 0, 1))
  {
    Keys();
    Unpadded("milk");
    MilkClashes();
    MilkInv();
    Replies.FailedStatementReply(MILK_DB, 2, 0, CategoryChange(2, SECOND_KEY, 2, 0, "milk"), 0);
  }

  lemma MilkInv()
    ensures Inv(MILK_DB)
  {
    assert MILK_DB.log[0].change == Given(1);
  }

  // ---- a conflict without a version

  /** Device 1 edits a category that the server does not have. */
  function Stale(key: string): Change {
    CategoryChange(1, key, 5, 3, "Tea")
  }

  const STALE_DB: Db :=
    Filed(NEW_DB.(conflicts := [Conflict(1, Given(1), Stale(FIRST_KEY).operation, VersionConflict, 0, true)]),
          1, Stale(FIRST_KEY), Conflicted(VersionConflict, 0, 0))

  lemma StaleIsRecorded()
    ensures Process(NEW_DB, 1, 0, Stale(FIRST_KEY), 0, NoFault).0 == STALE_DB
  {
    Keys();
    Replies.StaleChangeReply(NEW_DB, 1, 0, Stale(FIRST_KEY), 0);
    assert [] + [Conflict(1, Given(1), Stale(FIRST_KEY).operation, VersionConflict, 0, true)] == STALE_DB.conflicts;
  }

  /** The device presents the same change once more under another key: the whole push fails. */
  lemma SecondConflictFailsThePush()
    ensures Reached([PushOf(1, Stale(FIRST_KEY))], STALE_DB)
    ensures Process(STALE_DB, 1, 0, Stale(SECOND_KEY), 0, NoFault) == (STALE_DB, Aborted)
  {
    StaleIsRecorded();
    OnePush(1, Stale(FIRST_KEY));
    SecondConflict();
  }

  lemma SecondConflict()
    ensures Process(STALE_DB, 1, 0, Stale(SECOND_KEY), 0, NoFault) == (STALE_DB, Aborted)
  {
    Keys();
    assert HasConflict(STALE_DB.conflicts, 1, Given(1)) by {
      assert STALE_DB.conflicts[0].change == Given(1);
    }
    Replies.StaleChangeReply(STALE_DB, 1, 0, Stale(SECOND_KEY), 0);
  }

  const TEA: Change := CategoryChange(2, SECOND_KEY, 5, 0, "Tea")

  const TEA_DB: Db :=
    Filed(STALE_DB.(rows := map[Key(Categories, 5) := CategoryRow("Tea")],
                    log := [RowEntry(1, Given(2), Key(Categories, 5), CategoryRow("Tea"))],
                    sequence := 1),
          2, TEA, Accepted(1, 1))

  lemma TeaIsStored()
    ensures Process(STALE_DB, 2, 0, TEA, 0, NoFault).0 == TEA_DB
  {
    Keys();
    Unpadded("Tea");
    assert UpsertRow(STALE_DB, Key(Categories, 5), 0, CategoryPatch("Tea")) == Ok(CategoryRow("Tea")) by {
      assert !Taken(STALE_DB.rows, Key(Categories, 5), CategoryRow("Tea"));
    }
    assert !Logged(STALE_DB.log, Given(2));
  }

  lemma TeaIsOverwritten()
    ensures Conflicts.Resolve(TEA_DB, 0, Conflicts.KeepLocal, 0, Given(9)).Ok?
  {
    var key := Key(Categories, 5);
    var row := Updated(key, CategoryRow("Tea"), CategoryPatch("Tea"));
    assert !Taken(TEA_DB.rows, key, row);
    assert UpsertRow(TEA_DB, key, 1, CategoryPatch("Tea")) == Ok(row);
    assert !Logged(TEA_DB.log, Given(9));
  }

  /** After the conflict was recorded another device creates the category. Resolving the conflict with the
      client's side overwrites that version, which the conflict has never seen. */
  lemma UnrecordedVersionIsOverwritten()
    ensures Reached([PushOf(1, Stale(FIRST_KEY)), PushOf(2, TEA)], TEA_DB)
    ensures TEA_DB.conflicts == [Conflict(1, Given(1), Stale(FIRST_KEY).operation, VersionConflict, 0, true)]
    ensures VersionOf(TEA_DB.rows, Stale(FIRST_KEY).operation.key) == 1
    ensures Conflicts.Resolve(TEA_DB, 0, Conflicts.KeepLocal, 0, Given(9)).Ok?
  {
    StaleIsRecorded();
    TeaIsStored();
    TwoPushes(1, Stale(FIRST_KEY), 2, TEA, STALE_DB);
    TeaIsOverwritten();
  }

  // ---- keys

  /** The first push of a new family: an invalid change under a short key fails the push. */
  lemma ShortKeyFailsThePush()
    ensures var ch := CategoryChange(1, "too short", 1, 0, "Milk");
            Process(NEW_DB, 1, 0, ch, 0, NoFault) == (NEW_DB, Aborted) && FOUNDED.home.db == NEW_DB
  {
    BytesOf("too short", 1);
    Replies.InvalidChangeReply(NEW_DB, 1, 0, CategoryChange(1, "too short", 1, 0, "Milk"), 0);
  }

  /** `n` times the euro sign, which takes three bytes in UTF-8. */
  function Euros(n: nat): string {
    seq(n, _ => '\U{20ac}')
  }

  /** Between 6 and 15 such characters make a key that is long enough for the service, which counts bytes, and
      too short for its column, which counts characters: a valid change under it fails the push, every time. */
  lemma WideShortKeyFailsThePush(n: nat)
    requires 6 <= n <= 15
    ensures var ch := CategoryChange(1, Euros(n), 1, 0, "Milk");
            ValidChange(ch) && Process(NEW_DB, 1, 0, ch, 0, NoFault) == (NEW_DB, Aborted)
  {
    BytesOf(Euros(n), 3);
    Replies.UnstorableKeyReply(NEW_DB, 1, 0, CategoryChange(1, Euros(n), 1, 0, "Milk"), 0);
  }

  /** Between 86 and 255 of them fit the column and are too long for the service. */
  lemma WideLongKeyIsRejected(n: nat)
    requires 86 <= n <= 255
    ensures var ch := CategoryChange(1, Euros(n), 1, 0, "Milk");
            Process(NEW_DB, 1, 0, ch, 0, NoFault).1 == Answer(Rejected(ValidationFailed, 0))
  {
    BytesOf(Euros(n), 3);
    Replies.InvalidChangeReply(NEW_DB, 1, 0, CategoryChange(1, Euros(n), 1, 0, "Milk"), 0);
  }

  /** A key with U+0000 is valid for the service, and PostgreSQL cannot even look it up. */
  lemma NulKeyFailsThePush()
    ensures var ch := CategoryChange(1, "key-number-one-\0", 1, 0, "Milk");
            ValidChange(ch) && Process(NEW_DB, 1, 0, ch, 0, NoFault) == (NEW_DB, Aborted)
  {
    BytesOf("key-number-one-\0", 1);
    assert "key-number-one-\0"[15] == '\0';
    Replies.UnstorableKeyReply(NEW_DB, 1, 0, CategoryChange(1, "key-number-one-\0", 1, 0, "Milk"), 0);
  }

  // ---- imports

  function ProductDraft(id: Id, name: string): Import.Draft {
    Import.Draft(id, None, None, map["name" := name], 0, 0, Status.Active, false, true, true)
  }

  function BatchDraft(id: Id, product: Id, quantity: int, columns: map<string, string>): Import.Draft {
    Import.Draft(id, Some(product), None, columns, quantity, quantity, Status.Active, false, true, true)
  }

  /** A manifest of one product and one batch of five. */
  function OneBatch(columns: map<string, string>): Import.Manifest {
    Import.Manifest(1, 8, "workspace", 400, [], [ProductDraft(1, "Tea")], [BatchDraft(2, 1, 5, columns)], [], [], [])
  }

  const READY: Import.Circumstances := Import.Circumstances(0, true)

  const PRODUCT_ROW: Row := Row(1, false, None, None, map["name" := "Tea"], 0, 0, Status.Active)

  function BatchRow(columns: map<string, string>): Row {
    Row(1, false, Some(1), None, columns, 5, 5, Status.Active)
  }

  /** The texts of the batch that the validation lets pass: a source is missing, empty or known. */
  predicate Passes(columns: map<string, string>) {
    && (Import.TextOf(columns, "date_source") != "" ==> Import.TextOf(columns, "date_source") in Import.DATE_SOURCES)
    && "date_precision" !in columns
  }

  lemma ManifestItems(columns: map<string, string>)
    ensures Import.Items(OneBatch(columns)) ==
              [Import.Item(Key(Products, 1), PRODUCT_ROW, false, true, true),
               Import.Item(BatchKey(2), BatchRow(columns), false, true,
                           "date_source" in columns && "date_precision" !in columns ==>
                               columns["date_source"] in Import.DATE_SOURCES)]
    requires "date_precision" !in columns
  {
    assert |"Tea"| == 3;
  }

  lemma ManifestIsValid(columns: map<string, string>)
    requires Passes(columns)
    ensures Import.ValidManifest(OneBatch(columns))
  {
    Unpadded("Tea");
    Unpadded("workspace");
    BytesOf("workspace", 1);
    TrimShortens("Tea");
    ManifestItems(columns);
    var m := OneBatch(columns);
    assert Import.ValidDraft(Products, m.products[0]);
    assert Import.ValidDraft(ProductBatches, m.batches[0]);
  }

  lemma {:induction false} TrimShortens(s: string)
    ensures |Trim(s)| <= |s|
  {
    LeftShortens(s);
    RightShortens(TrimLeft(s));
  }

  lemma {:induction false} LeftShortens(s: string)
    ensures |TrimLeft(s)| <= |s|
    decreases |s|
  {
    if s != "" && Space(s[0]) {
      LeftShortens(s[1..]);
    }
  }

  lemma {:induction false} RightShortens(s: string)
    ensures |TrimRight(s)| <= |s|
    decreases |s|
  {
    if s != "" && Space(s[|s| - 1]) {
      RightShortens(s[..|s| - 1]);
    }
  }

  lemma ManifestIsClear(columns: map<string, string>)
    requires Passes(columns)
    ensures Import.Clear(NEW_DB, [], OneBatch(columns), READY)
  {
    ManifestItems(columns);
    var m := OneBatch(columns);
    var items := Import.Items(m);
    assert Import.InPlan(items, Key(Products, 1)) by {
      assert items[0].key == Key(Products, 1);
    }
    forall b ensures !Import.Blocks(NEW_DB, [], m, READY, b) {
      if b.place.Row_? && b.place.n < |items| {
        assert b.place.n == 0 || b.place.n == 1;
      }
    }
  }

  const PRODUCT_DB: Db :=
    Db(map[Key(Products, 1) := PRODUCT_ROW], [],
       [RowEntry(1, Derived(8, Key(Products, 1)), Key(Products, 1), PRODUCT_ROW)], map[], [], 1, {})

  lemma FirstItem(columns: map<string, string>)
    requires "date_precision" !in columns
    ensures var items := Import.Items(OneBatch(columns));
            |items| == 2 && Import.WriteAll(NEW_DB, 8, items[..1]) == Ok(PRODUCT_DB)
  {
    ManifestItems(columns);
    var items := Import.Items(OneBatch(columns));
    assert items[..1] == [items[0]] && items[..1][..0] == [];
    assert Import.WriteAll(NEW_DB, 8, []) == Ok(NEW_DB);
    assert !Logged(NEW_DB.log, Derived(8, Key(Products, 1)));
    assert !Taken(NEW_DB.rows, Key(Products, 1), PRODUCT_ROW);
    assert Publish(NEW_DB, Key(Products, 1), PRODUCT_ROW, Derived(8, Key(Products, 1))) == PRODUCT_DB;
    assert Import.Write(NEW_DB, 8, items[0]) == Ok(PRODUCT_DB);
  }

  const USER: Id := 4
  const CHECKPOINT: nat := 6

  /** The founded family once the manifest is prepared. */
  function Prepared(m: Import.Manifest): World.Family {
    FOUNDED.(plans := map[m.id := ImportProtocol.Plan(USER, m, CHECKPOINT, false)])
  }

  lemma PreflightIsReady(columns: map<string, string>)
    requires Passes(columns)
    ensures var m := OneBatch(columns);
            && ImportProtocol.Preflighted(World.DeskOf(FOUNDED), USER, m, READY, CHECKPOINT)
               == Ok((World.DeskOf(Prepared(m)), ImportProtocol.Ready(CHECKPOINT)))
            && World.FamilyInv(FOUNDED)
            && World.Exec(FOUNDED, World.Preflight(USER, m, READY, CHECKPOINT)) == Prepared(m)
  {
    World.FoundedInv(0, {});
    ManifestIsValid(columns);
    ManifestIsClear(columns);
  }

  const EMPTY_SOURCE: map<string, string> := map["date_source" := ""]

  lemma EmptySourceIsBlocked()
    ensures Import.WriteAll(NEW_DB, 8, Import.Items(OneBatch(EMPTY_SOURCE))) == Err(Business(ImportBlocked, 0))
  {
    FirstItem(EMPTY_SOURCE);
    ManifestItems(EMPTY_SOURCE);
    var items := Import.Items(OneBatch(EMPTY_SOURCE));
    assert "" !in Import.DATE_SOURCES;
    assert Import.Write(PRODUCT_DB, 8, items[1]) == Err(Business(ImportBlocked, 0));
  }

  /** A batch with an empty date source: the validation accepts it, the preflight says ready, and every
      confirmation is blocked. */
  lemma EmptyDateSourceIsNeverConfirmed()
    ensures var m := OneBatch(EMPTY_SOURCE);
            && World.FamilyInv(FOUNDED)
            && World.Run(FOUNDED, [World.Preflight(USER, m, READY, CHECKPOINT)]) == Prepared(m)
            && ImportProtocol.Confirmed(World.DeskOf(Prepared(m)), USER, 8, CHECKPOINT, m, READY) ==
                 Err(Business(ImportBlocked, 0))
  {
    var action := World.Preflight(USER, OneBatch(EMPTY_SOURCE), READY, CHECKPOINT);
    PreflightIsReady(EMPTY_SOURCE);
    Runs.RunShort(World.Exec, FOUNDED, action, action);
    EmptySourceBlocksConfirmation();
  }

  lemma EmptySourceBlocksConfirmation()
    ensures var m := OneBatch(EMPTY_SOURCE);
            ImportProtocol.Confirmed(World.DeskOf(Prepared(m)), USER, 8, CHECKPOINT, m, READY) ==
                Err(Business(ImportBlocked, 0))
  {
    ManifestIsValid(EMPTY_SOURCE);
    ManifestIsClear(EMPTY_SOURCE);
    EmptySourceIsBlocked();
  }

  // ---- spelling

  /** The tables after the import of one product and one batch of five. */
  const STOCKED_DB: Db :=
    Db(map[Key(Products, 1) := PRODUCT_ROW, BatchKey(2) := BatchRow(map[])], [],
       [RowEntry(1, Derived(8, Key(Products, 1)), Key(Products, 1), PRODUCT_ROW),
        RowEntry(2, Derived(8, BatchKey(2)), BatchKey(2), BatchRow(map[]))],
       map[], [], 2, {})

  lemma StockIsImported()
    ensures Import.WriteAll(NEW_DB, 8, Import.Items(OneBatch(map[]))) == Ok(STOCKED_DB)
  {
    FirstItem(map[]);
    ManifestItems(map[]);
    var items := Import.Items(OneBatch(map[]));
    assert !Logged(PRODUCT_DB.log, Derived(8, BatchKey(2)));
    assert !Taken(PRODUCT_DB.rows, BatchKey(2), BatchRow(map[]));
    assert Publish(PRODUCT_DB, BatchKey(2), BatchRow(map[]), Derived(8, BatchKey(2))) == STOCKED_DB;
    assert Import.Write(PRODUCT_DB, 8, items[1]) == Ok(STOCKED_DB);
  }

  const IMPORTS: seq<World.Action> :=
    [World.Preflight(USER, OneBatch(map[]), READY, CHECKPOINT),
     World.Confirm(USER, 8, CHECKPOINT, OneBatch(map[]), READY)]

  lemma StockIsConfirmed()
    ensures var done :=
            ImportProtocol.Confirmed(World.DeskOf(Prepared(OneBatch(map[]))), USER, 8, CHECKPOINT, OneBatch(map[]),
                                     READY);
            done.Ok? && done.value.db == STOCKED_DB
  {
    ManifestIsValid(map[]);
    ManifestIsClear(map[]);
    StockIsImported();
  }

  lemma ConfirmsTo(f: World.Family, m: Import.Manifest, db: Db)
    requires World.FamilyInv(f)
    requires var done := ImportProtocol.Confirmed(World.DeskOf(f), USER, 8, CHECKPOINT, m, READY);
             done.Ok? && done.value.db == db
    ensures World.Exec(f, World.Confirm(USER, 8, CHECKPOINT, m, READY)).home.db == db
  {
  }

  lemma StockIsReached()
    ensures Reached(IMPORTS, STOCKED_DB)
  {
    PreflightIsReady(map[]);
    World.StepKeeps(FOUNDED, IMPORTS[0]);
    StockIsConfirmed();
    ConfirmsTo(Prepared(OneBatch(map[])), OneBatch(map[]), STOCKED_DB);
    Runs.RunShort(World.Exec, FOUNDED, IMPORTS[0], IMPORTS[1]);
  }

  function Consume(spelling: nat): Change {
    var lines := [Line(Uuid(2, spelling), 1)];
    var operation := Inventory(ConsumeAllocated, Malformed, 0, lines, OperationUuid(Given(7), 0), Some(2));
    Change(Given(7), FIRST_KEY, operation, true, "")
  }

  lemma ConsumePlan(spelling: nat)
    ensures Replies.Plannable(STOCKED_DB, 3, Consume(spelling), 0)
    ensures Plan(STOCKED_DB.rows, ToCommand(3, Consume(spelling)), 0) ==
            Ok([Allocation(Uuid(2, spelling), 1, 5, 0, 1, 0)])
  {
    var lines := [Line(Uuid(2, spelling), 1)];
    assert lines[..0] == [];
    assert BatchesError(STOCKED_DB.rows, []) == None;
    assert BatchesError(STOCKED_DB.rows, lines) == None;
    assert CheckLines(STOCKED_DB.rows, [], 0) == Ok([]);
    assert CheckLines(STOCKED_DB.rows, lines, 0) == Ok([] + [Allocation(Uuid(2, spelling), 1, 5, 0, 1, 0)]);
    assert [] + [Allocation(Uuid(2, spelling), 1, 5, 0, 1, 0)] == [Allocation(Uuid(2, spelling), 1, 5, 0, 1, 0)];
  }

  /** After an import of one batch of five, the same command is accepted with the canonical spelling of the
      batch id and fails the whole push with any other, although the batch is found and sufficient. */
  lemma SpellingDecides(spelling: nat)
    ensures Reached(IMPORTS, STOCKED_DB)
    ensures var done := Process(STOCKED_DB, 3, 0, Consume(spelling), 0, NoFault);
            if spelling == 0 then SyncSafety.Accepts(done.1) else done == (STOCKED_DB, Aborted)
  {
    StockIsReached();
    SpellingReply(spelling);
  }

  lemma SpellingReply(spelling: nat)
    ensures var done := Process(STOCKED_DB, 3, 0, Consume(spelling), 0, NoFault);
            if spelling == 0 then SyncSafety.Accepts(done.1) else done == (STOCKED_DB, Aborted)
  {
    ConsumePlan(spelling);
    Keys();
    var ch := Consume(spelling);
    var plan := [Allocation(Uuid(2, spelling), 1, 5, 0, 1, 0)];
    assert ValidLine(ConsumeAllocated, ch.operation.lines[0]);
    if spelling != 0 {
      assert !Canonical(plan[0].batch);
    }
    assert !Logged(STOCKED_DB.log, Given(7));
    Replies.PlannedCommandReply(STOCKED_DB, 3, 0, ch, 0);
  }

  // ---- history pages

  function Itself(n: nat): nat {
    n
  }

  /** One record, at cursor 5; a first page asked from 7 answers 5. */
  lemma PageMovesBack()
    ensures Paging.HistoryPage<nat>([5], Itself, 7, 0, 10).next == 5
  {
    var records: seq<nat> := [5];
    assert records[..0] == [];
    assert Paging.Window<nat>([], Itself, 7, 5) == [];
    assert Paging.Window(records, Itself, 7, 5) == [];
  }
}
