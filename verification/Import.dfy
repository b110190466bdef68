/** The initial import: what a manifest must be, what blocks it, and what confirming it does. */
module Import {
  import opened Types
  import opened Texts
  import opened Tables
  import opened Ledger
  import SyncSpec
  import History

  // ---- manifests

  /** One row of a manifest. `parent` is the category or product it names; `columns` holds the text of every
      other field that is present and not null. `wellFormed` stands for the checks on fields that no other
      part of the model reads (field names, types, instants, calendar dates, numbers, prices), `castable`
      for what PostgreSQL demands of the same texts. */
  datatype Draft = Draft(
    id: Id,
    parent: Option<Id>,
    expiry: Option<Day>,
    columns: map<string, string>,
    initial: int,
    quantity: int,
    status: Status,
    reuse: bool,
    wellFormed: bool,
    castable: bool)

  datatype PastKind = Intake | Restocked | Consumed | DiscardedAway | Adjusted

  /** A record of the history archive; the two flags are those of a draft. */
  datatype Past = Past(id: Id, kind: PastKind, quantity: int, wellFormed: bool, castable: bool)

  /** `bytes` is the length of the encoded request. */
  datatype Manifest = Manifest(
    format: int,
    id: Id,
    workspace: string,
    bytes: nat,
    categories: seq<Draft>,
    products: seq<Draft>,
    batches: seq<Draft>,
    shopping: seq<Draft>,
    reminders: seq<Draft>,
    history: seq<Past>)

  const MAX_IMPORT_RECORDS := 1000
  const MAX_IMPORT_BYTES := 0x10_0000

  /** A row as it is written; `castable` and `checked` say whether its texts can be cast and satisfy the
      CHECK constraints of its table. */
  datatype Item = Item(key: Key, row: Row, reuse: bool, castable: bool, checked: bool)

  function Imported(kind: Kind, d: Draft): Row {
    var parent := if SyncSpec.HasParent(kind) then d.parent else None;
    if kind == ProductBatches
    then Row(1, false, parent, d.expiry, d.columns, d.quantity, d.initial, d.status)
    else Row(1, false, parent, None, d.columns, 0, 0, Active)
  }

  function Tagged(kind: Kind, drafts: seq<Draft>): seq<Item> {
    seq(|drafts|, i requires 0 <= i < |drafts| =>
      Item(Key(kind, drafts[i].id), Imported(kind, drafts[i]), kind == Categories && drafts[i].reuse,
           drafts[i].castable, Checked(kind, drafts[i])))
  }

  /** The rows in the order in which they are checked and written: parents before children. */
  function Items(m: Manifest): seq<Item> {
    Tagged(Categories, m.categories) + Tagged(Products, m.products) + Tagged(ProductBatches, m.batches)
    + Tagged(ShoppingItems, m.shopping) + Tagged(ReminderSettings, m.reminders)
  }

  function Rank(kind: Kind): nat {
    match kind
    case Categories => 0
    case Products => 1
    case ProductBatches => 2
    case ShoppingItems => 3
    case ReminderSettings => 4
    case OtherEntity => 5
  }

  function TextOf(columns: map<string, string>, field: string): string {
    if field in columns then columns[field] else ""
  }

  const DATE_SOURCES: set<string> := {"manual", "barcode", "ocr", "ai_draft", "import", "sync"}
  const DATE_PRECISIONS: set<string> := {"day", "month", "year", "unknown"}

  /** validateImportRow */
  predicate ValidDraft(kind: Kind, d: Draft) {
    && d.wellFormed
    && (SyncSpec.HasParent(kind) || d.parent.None?)
    && (SyncSpec.NameLimit(kind) > 0 ==> 1 <= |Trim(NameOf(d.columns))| <= SyncSpec.NameLimit(kind))
    && (kind == Categories && d.reuse ==> "color" !in d.columns && TextOf(d.columns, "sort_order") in {"", "0"})
    && (kind == ProductBatches ==>
          && d.parent.Some?
          && 0 <= d.quantity <= d.initial <= MAX_INTEGER
          && (d.status == Active ==> d.quantity > 0)
          && (d.status == UsedUp || d.status == Discarded ==> d.quantity == 0)
          && (TextOf(d.columns, "date_source") != "" ==> TextOf(d.columns, "date_source") in DATE_SOURCES)
          && (TextOf(d.columns, "date_precision") != "" ==> TextOf(d.columns, "date_precision") in DATE_PRECISIONS))
  }

  /** The CHECK constraints that the row's texts meet: the untrimmed length of a name, and the lists of date
      sources and precisions, in which "" is not. */
  predicate Checked(kind: Kind, d: Draft) {
    && (SyncSpec.NameLimit(kind) > 0 ==> 1 <= |NameOf(d.columns)| <= SyncSpec.NameLimit(kind))
    && (kind == ProductBatches ==>
          && ("date_source" in d.columns ==> d.columns["date_source"] in DATE_SOURCES)
          && ("date_precision" in d.columns ==> d.columns["date_precision"] in DATE_PRECISIONS))
  }

  /** validateImportRow, for a history record */
  predicate ValidPast(p: Past) {
    && p.wellFormed
    && -MAX_INTEGER - 1 <= p.quantity <= MAX_INTEGER
    && (p.quantity == 0 ==> p.kind == DiscardedAway)
    && (p.kind == Intake || p.kind == Restocked ==> p.quantity >= 0)
    && (p.kind == Consumed || p.kind == DiscardedAway ==> p.quantity <= 0)
  }

  /** The CHECK constraint of the archive. */
  predicate CheckedPast(p: Past) {
    match p.kind
    case Intake => p.quantity > 0
    case Restocked => p.quantity > 0
    case Consumed => p.quantity < 0
    case DiscardedAway => p.quantity <= 0
    case Adjusted => p.quantity != 0
  }

  predicate ValidDrafts(kind: Kind, drafts: seq<Draft>) {
    && (forall i :: 0 <= i < |drafts| ==> ValidDraft(kind, drafts[i]))
    && (forall i, j :: 0 <= i < j < |drafts| ==> drafts[i].id != drafts[j].id)
  }

  predicate DistinctPasts(history: seq<Past>) {
    forall i, j :: 0 <= i < j < |history| ==> history[i].id != history[j].id
  }

  predicate ValidHistory(history: seq<Past>) {
    (forall i :: 0 <= i < |history| ==> ValidPast(history[i])) && DistinctPasts(history)
  }

  predicate ValidRows(m: Manifest) {
    && ValidDrafts(Categories, m.categories)
    && ValidDrafts(Products, m.products)
    && ValidDrafts(ProductBatches, m.batches)
    && ValidDrafts(ShoppingItems, m.shopping)
    && ValidDrafts(ReminderSettings, m.reminders)
    && ValidHistory(m.history)
  }

  /** ValidateImport: the first complaint, if any. */
  function Complaint(m: Manifest, outbox: int): Option<Code> {
    if m.format != 1 then Some(ImportUnsupportedFormat)
    else if Trim(m.workspace) == "" || Bytes(m.workspace) > 255 || outbox < 0 then Some(ValidationFailed)
    else if !ValidRows(m) then Some(ValidationFailed)
    else if |Items(m)| + |m.history| > MAX_IMPORT_RECORDS then Some(ImportLimitExceeded)
    else if m.bytes > MAX_IMPORT_BYTES then Some(ImportLimitExceeded)
    else None
  }

  predicate ValidManifest(m: Manifest) {
    Complaint(m, 0) == None
  }

  predicate Archived(archive: seq<Past>, id: Id) {
    exists i :: 0 <= i < |archive| && archive[i].id == id
  }

  // ---- what blocks an import

  datatype BlockCode =
    | UnsettledLocalOutbox | BootstrapNotConfirmed | UnsettledRemoteSync
    | CategoryReuseMismatch | UuidOverlap | CategoryNameOverlap | MissingDependency | ReminderScopeOverlap

  /** Where a blocker lies: the request as a whole, the n-th row, or the n-th history record. */
  datatype Where = Request | Row_(n: nat) | Record_(n: nat)

  datatype Blocker = Blocker(code: BlockCode, place: Where)

  predicate NameTaken(rows: Rows, name: string) {
    exists key ::
      key in rows && key.kind == Categories && !rows[key].deleted && Lower(NameOf(rows[key].columns)) == Lower(name)
  }

  predicate ScopeTaken(rows: Rows, product: Option<Id>) {
    exists key :: key in rows && key.kind == ReminderSettings && !rows[key].deleted && rows[key].parent == product
  }

  predicate InPlan(items: seq<Item>, key: Key) {
    exists i :: 0 <= i < |items| && items[i].key == key
  }

  predicate Overlapping(db: Db, items: seq<Item>, i: nat)
    requires i < |items|
  {
    !items[i].reuse && (items[i].key in db.rows || items[i].key in db.foreign)
  }

  predicate ReuseMismatch(db: Db, items: seq<Item>, i: nat)
    requires i < |items|
  {
    var key := items[i].key;
    items[i].reuse && !(SyncSpec.Active(db.rows, key) && NameOf(db.rows[key].columns) == NameOf(items[i].row.columns))
  }

  predicate NameOverlap(db: Db, items: seq<Item>, i: nat)
    requires i < |items|
  {
    && items[i].key.kind == Categories
    && ((!items[i].reuse && NameTaken(db.rows, NameOf(items[i].row.columns)))
        || exists j ::
             0 <= j < i && items[j].key.kind == Categories
             && Lower(NameOf(items[j].row.columns)) == Lower(NameOf(items[i].row.columns)))
  }

  predicate Dangling(db: Db, items: seq<Item>, i: nat)
    requires i < |items|
  {
    && items[i].row.parent.Some?
    && var parent := ParentOf(items[i].key, items[i].row).value;
       !InPlan(items, parent) && !SyncSpec.Active(db.rows, parent)
  }

  predicate ScopeOverlap(db: Db, items: seq<Item>, i: nat)
    requires i < |items|
  {
    && items[i].key.kind == ReminderSettings
    && (ScopeTaken(db.rows, items[i].row.parent)
        || exists j ::
             0 <= j < i && items[j].key.kind == ReminderSettings
             && items[j].row.parent == items[i].row.parent)
  }

  predicate OpenConflict(db: Db) {
    exists i :: 0 <= i < |db.conflicts| && db.conflicts[i].open
  }

  /** Everything validateImportTargets looks at besides the tables. */
  datatype Circumstances = Circumstances(outbox: int, bootstrapped: bool)

  /** Which blockers there are. */
  predicate Blocks(db: Db, archive: seq<Past>, m: Manifest, around: Circumstances, b: Blocker) {
    var items := Items(m);
    match b.code
    case UnsettledLocalOutbox => b.place == Request && around.outbox != 0
    case BootstrapNotConfirmed => b.place == Request && !around.bootstrapped
    case UnsettledRemoteSync => b.place == Request && OpenConflict(db)
    case CategoryReuseMismatch => b.place.Row_? && b.place.n < |items| && ReuseMismatch(db, items, b.place.n)
    case UuidOverlap =>
      || (b.place.Row_? && b.place.n < |items| && Overlapping(db, items, b.place.n))
      || (b.place.Record_? && b.place.n < |m.history| && Archived(archive, m.history[b.place.n].id))
    case CategoryNameOverlap => b.place.Row_? && b.place.n < |items| && NameOverlap(db, items, b.place.n)
    case MissingDependency =>
        b.place.Row_? && b.place.n < |items| && !items[b.place.n].reuse && Dangling(db, items, b.place.n)
    case ReminderScopeOverlap => b.place.Row_? && b.place.n < |items| && ScopeOverlap(db, items, b.place.n)
  }

  ghost predicate Clear(db: Db, archive: seq<Past>, m: Manifest, around: Circumstances) {
    forall b :: !Blocks(db, archive, m, around, b)
  }

  // ---- writing the rows

  /** INSERT, and the log entry with its derived change id. Constraint violations end the import. */
  function Write(db: Db, plan: Id, item: Item): Result<Db> {
    if item.reuse then Ok(db)
    else if !item.castable then Err(Raw(InvalidData))
    else if !item.checked || Taken(db.rows, item.key, item.row) then Err(Business(ImportBlocked, 0))
    else if item.key in db.rows || item.key in db.foreign then Err(Business(ImportBlocked, 0))
    else if item.row.parent.Some? && ParentOf(item.key, item.row).value !in db.rows then Err(Business(ImportBlocked, 0))
    else if Logged(db.log, Derived(plan, item.key)) then Err(Raw(UniqueViolation))
    else Ok(Publish(db, item.key, item.row, Derived(plan, item.key)))
  }

  function WriteAll(db: Db, plan: Id, items: seq<Item>): Result<Db> {
    if items == [] then Ok(db)
    else
      match WriteAll(db, plan, items[..|items| - 1])
      case Err(e) => Err(e)
      case Ok(before) => Write(before, plan, items[|items| - 1])
  }

  /** The archive after the history records. */
  function Filed(archive: seq<Past>, history: seq<Past>): Result<seq<Past>> {
    if history == [] then Ok(archive)
    else
      var last := history[|history| - 1];
      match Filed(archive, history[..|history| - 1])
      case Err(e) => Err(e)
      case Ok(before) =>
        if !last.castable then Err(Raw(InvalidData))
        else if !CheckedPast(last) || Archived(before, last.id) then Err(Business(ImportBlocked, 0))
        else Ok(before + [last])
  }

  /** Whether PostgreSQL can store what the manifest brings. */
  predicate StorableItem(item: Item) {
    item.reuse || (item.castable && item.checked)
  }

  predicate StorableItems(items: seq<Item>) {
    forall i :: 0 <= i < |items| ==> StorableItem(items[i])
  }

  predicate StorableHistory(history: seq<Past>) {
    forall i :: 0 <= i < |history| ==> history[i].castable
  }

  /** The log entries an import must leave: one for each row that is not reused, in dependency order. */
  function EntriesOf(items: seq<Item>, plan: Id, sequence: nat): seq<Entry> {
    if items == [] then []
    else
      var before := EntriesOf(items[..|items| - 1], plan, sequence);
      var last := items[|items| - 1];
      if last.reuse then before
      else before + [RowEntry(sequence + |before| + 1, Derived(plan, last.key), last.key, last.row)]
  }

  // ---- an unblocked import succeeds

  /** What the checks establish for each row, in terms of the rows before it. */
  ghost predicate Prepared(db: Db, items: seq<Item>, i: nat)
    requires i < |items|
  {
    var item := items[i];
    && item.row.version == 1 && SoundRow(item.key, item.row)
    && (if item.reuse then item.key in db.rows else item.key !in db.rows && item.key !in db.foreign)
    && (!item.reuse && item.row.parent.Some? ==>
          var parent := ParentOf(item.key, item.row).value;
          parent in db.rows || InPlan(items[..i], parent))
    && (!item.reuse ==> !Taken(db.rows, item.key, item.row) && NoClash(items, i))
    && (forall j :: 0 <= j < i ==> items[j].key != item.key)
  }

  /** No earlier row of the manifest has the same name or scope. */
  ghost predicate NoClash(items: seq<Item>, i: nat)
    requires i < |items|
  {
    forall j :: 0 <= j < i && items[j].key.kind == items[i].key.kind ==>
        !Clash(items[i].key.kind, items[i].row, items[j].row)
  }

  ghost predicate AllPrepared(db: Db, items: seq<Item>) {
    forall i :: 0 <= i < |items| ==> Prepared(db, items, i)
  }

  ghost predicate Unlogged(db: Db, plan: Id, items: seq<Item>) {
    forall i :: 0 <= i < |items| && !items[i].reuse ==> !Logged(db.log, Derived(plan, items[i].key))
  }

  /** The tables after the rows of `items` were written. */
  ghost predicate Written(db: Db, db': Db, plan: Id, items: seq<Item>) {
    Inv(db') && Evolves(db, db') && Inserted(db, db', plan, items)
  }

  ghost predicate Inserted(db: Db, db': Db, plan: Id, items: seq<Item>) {
    && (forall key :: key in db'.rows <==> key in db.rows || InPlan(items, key))
    && (forall key :: key in db.rows ==> db'.rows[key] == db.rows[key])
    && (forall i :: 0 <= i < |items| && !items[i].reuse ==>
          items[i].key in db'.rows && db'.rows[items[i].key] == items[i].row)
    && db'.log == db.log + EntriesOf(items, plan, db.sequence)
    && db'.sequence == db.sequence + |EntriesOf(items, plan, db.sequence)|
    && db'.records == db.records && db'.receipts == db.receipts
    && db'.conflicts == db.conflicts && db'.foreign == db.foreign
  }

  lemma {:induction false} EntryChanges(items: seq<Item>, plan: Id, sequence: nat, k: nat)
    requires k < |EntriesOf(items, plan, sequence)|
    ensures exists i ::
            0 <= i < |items| && !items[i].reuse
            && EntriesOf(items, plan, sequence)[k].change == Derived(plan, items[i].key)
  {
    var before := EntriesOf(items[..|items| - 1], plan, sequence);
    if k < |before| {
      EntryChanges(items[..|items| - 1], plan, sequence, k);
      var i :| 0 <= i < |items| - 1 && !items[i].reuse && before[k].change == Derived(plan, items[i].key);
    } else {
      assert !items[|items| - 1].reuse;
    }
  }

  lemma StillUnlogged(db: Db, db': Db, plan: Id, front: seq<Item>, item: Item)
    requires db'.log == db.log + EntriesOf(front, plan, db.sequence)
    requires !Logged(db.log, Derived(plan, item.key))
    requires forall j :: 0 <= j < |front| ==> front[j].key != item.key
    ensures !Logged(db'.log, Derived(plan, item.key))
  {
    forall k | 0 <= k < |db'.log| ensures db'.log[k].change != Derived(plan, item.key) {
      if k >= |db.log| {
        EntryChanges(front, plan, db.sequence, k - |db.log|);
      }
    }
  }

  lemma FrontPrepared(db: Db, items: seq<Item>)
    requires items != [] && AllPrepared(db, items)
    ensures AllPrepared(db, items[..|items| - 1])
  {
    var front := items[..|items| - 1];
    forall i | 0 <= i < |front| ensures Prepared(db, front, i) {
      assert Prepared(db, items, i);
      assert front[..i] == items[..i];
    }
  }

  lemma InPlanSnoc(front: seq<Item>, last: Item, key: Key)
    ensures InPlan(front + [last], key) <==> InPlan(front, key) || last.key == key
  {
    var all := front + [last];
    if InPlan(front, key) {
      var i :| 0 <= i < |front| && front[i].key == key;
      assert all[i].key == key;
    }
    assert all[|front|].key == last.key;
  }

  lemma StillFree(db: Db, before: Db, plan: Id, items: seq<Item>)
    requires items != [] && Inserted(db, before, plan, items[..|items| - 1])
    requires Prepared(db, items, |items| - 1) && !items[|items| - 1].reuse
    requires forall j :: 0 <= j < |items| - 1 && items[j].reuse ==> items[j].key in db.rows
    ensures !Taken(before.rows, items[|items| - 1].key, items[|items| - 1].row)
  {
    var front, item := items[..|items| - 1], items[|items| - 1];
    forall k | !item.row.deleted && k in before.rows && k != item.key && k.kind == item.key.kind
        && !before.rows[k].deleted
      ensures !Clash(item.key.kind, item.row, before.rows[k])
    {
      if k !in db.rows {
        var j :| 0 <= j < |front| && front[j].key == k;
        assert items[j] == front[j] && !front[j].reuse;
        assert NoClash(items, |items| - 1);
      }
    }
  }

  lemma PublishWritten(db: Db, before: Db, plan: Id, front: seq<Item>, item: Item)
    requires Written(db, before, plan, front) && !item.reuse
    requires ValidWrite(before, item.key, item.row) && !Logged(before.log, Derived(plan, item.key))
    requires item.key !in before.rows && item.row.version == 1
    ensures Written(db, Publish(before, item.key, item.row, Derived(plan, item.key)), plan, front + [item])
  {
    var change := Derived(plan, item.key);
    var after := Publish(before, item.key, item.row, change);
    PublishInv(before, item.key, item.row, change);
    History.PublishEvolves(before, item.key, item.row, change);
    History.EvolvesTransitive(db, before, after);
    PublishInserted(db, before, plan, front, item);
  }

  lemma PublishInserted(db: Db, before: Db, plan: Id, front: seq<Item>, item: Item)
    requires Inserted(db, before, plan, front) && !item.reuse && item.key !in before.rows
    ensures Inserted(db, Publish(before, item.key, item.row, Derived(plan, item.key)), plan, front + [item])
  {
    var all := front + [item];
    assert all[..|all| - 1] == front;
    forall key ensures InPlan(all, key) <==> InPlan(front, key) || item.key == key {
      InPlanSnoc(front, item, key);
    }
  }

  lemma ReuseWritten(db: Db, before: Db, plan: Id, front: seq<Item>, item: Item)
    requires Written(db, before, plan, front) && item.reuse && item.key in db.rows
    ensures Written(db, before, plan, front + [item])
  {
    var all := front + [item];
    assert all[..|all| - 1] == front;
    forall key ensures InPlan(all, key) <==> InPlan(front, key) || item.key == key {
      InPlanSnoc(front, item, key);
    }
  }

  lemma {:induction false} PreparedIsWritten(db: Db, plan: Id, items: seq<Item>)
    requires Inv(db) && AllPrepared(db, items) && Unlogged(db, plan, items) && StorableItems(items)
    ensures WriteAll(db, plan, items).Ok? && Written(db, WriteAll(db, plan, items).value, plan, items)
    decreases |items|
  {
    if items == [] {
      History.MetadataEvolves(db, db);
    } else {
      var front := items[..|items| - 1];
      FrontPrepared(db, items);
      PreparedIsWritten(db, plan, front);
      NextWritten(db, WriteAll(db, plan, front).value, plan, items);
    }
  }

  lemma NextWritten(db: Db, before: Db, plan: Id, items: seq<Item>)
    requires items != [] && Written(db, before, plan, items[..|items| - 1])
    requires Inv(db) && AllPrepared(db, items) && Unlogged(db, plan, items) && StorableItems(items)
    ensures var r := Write(before, plan, items[|items| - 1]); r.Ok? && Written(db, r.value, plan, items)
  {
    var front, item := items[..|items| - 1], items[|items| - 1];
    assert items == front + [item];
    assert Prepared(db, items, |items| - 1) && StorableItem(item);
    forall j | 0 <= j < |front| ensures front[j].key != item.key {
      assert items[j].key != item.key;
    }
    if item.reuse {
      ReuseWritten(db, before, plan, front, item);
    } else {
      assert !InPlan(front, item.key);
      forall j | 0 <= j < |front| && items[j].reuse ensures items[j].key in db.rows {
        assert Prepared(db, items, j);
      }
      StillFree(db, before, plan, items);
      StillUnlogged(db, before, plan, front, item);
      PublishWritten(db, before, plan, front, item);
    }
  }

  // ---- the checks prepare every row

  lemma TaggedSorted(m: Manifest, i: nat)
    requires i < |Items(m)|
    ensures Items(m)[i].key.kind != OtherEntity
    ensures forall j :: 0 <= j < i ==> Rank(Items(m)[j].key.kind) <= Rank(Items(m)[i].key.kind)
    ensures forall j :: i < j < |Items(m)| ==> Rank(Items(m)[i].key.kind) <= Rank(Items(m)[j].key.kind)
  {
  }

  function DraftsOf(m: Manifest, kind: Kind): seq<Draft> {
    match kind
    case Categories => m.categories
    case Products => m.products
    case ProductBatches => m.batches
    case ShoppingItems => m.shopping
    case ReminderSettings => m.reminders
    case OtherEntity => []
  }

  /** Where the rows of one kind start. */
  function Start(m: Manifest, kind: Kind): nat {
    match kind
    case Categories => 0
    case Products => |m.categories|
    case ProductBatches => |m.categories| + |m.products|
    case ShoppingItems => |m.categories| + |m.products| + |m.batches|
    case ReminderSettings => |m.categories| + |m.products| + |m.batches| + |m.shopping|
    case OtherEntity => |m.categories| + |m.products| + |m.batches| + |m.shopping| + |m.reminders|
  }

  /** Every row comes from a draft of its kind, at its place. */
  lemma ItemIsDraft(m: Manifest, i: nat)
    requires i < |Items(m)|
    ensures var kind := Items(m)[i].key.kind;
            && Start(m, kind) <= i < Start(m, kind) + |DraftsOf(m, kind)|
            && Items(m)[i] == Tagged(kind, DraftsOf(m, kind))[i - Start(m, kind)]
  {
  }

  lemma ItemsDistinct(m: Manifest, i: nat, j: nat)
    requires ValidManifest(m) && i < j < |Items(m)|
    ensures Items(m)[i].key != Items(m)[j].key
  {
    ItemIsDraft(m, i);
    ItemIsDraft(m, j);
  }

  /** Imported rows satisfy the invariant of stock rows. */
  lemma ImportedIsSound(m: Manifest, i: nat)
    requires ValidManifest(m) && i < |Items(m)|
    ensures Items(m)[i].row.version == 1 && SoundRow(Items(m)[i].key, Items(m)[i].row)
  {
    ItemIsDraft(m, i);
    var kind := Items(m)[i].key.kind;
    var d := DraftsOf(m, kind)[i - Start(m, kind)];
    assert ValidDraft(kind, d);
  }

  lemma ClearIsFree(db: Db, archive: seq<Past>, m: Manifest, around: Circumstances, i: nat)
    requires Clear(db, archive, m, around) && i < |Items(m)|
    ensures !Items(m)[i].reuse ==> !Taken(db.rows, Items(m)[i].key, Items(m)[i].row) && NoClash(Items(m), i)
  {
    assert !Blocks(db, archive, m, around, Blocker(CategoryNameOverlap, Row_(i)));
    assert !Blocks(db, archive, m, around, Blocker(ReminderScopeOverlap, Row_(i)));
  }

  lemma ClearPrepares(db: Db, archive: seq<Past>, m: Manifest, around: Circumstances, i: nat)
    requires ValidManifest(m) && Clear(db, archive, m, around) && i < |Items(m)|
    ensures Prepared(db, Items(m), i)
  {
    var items := Items(m);
    var item := items[i];
    ImportedIsSound(m, i);
    assert !Blocks(db, archive, m, around, Blocker(UuidOverlap, Row_(i)));
    assert !Blocks(db, archive, m, around, Blocker(CategoryReuseMismatch, Row_(i)));
    assert !Blocks(db, archive, m, around, Blocker(MissingDependency, Row_(i)));
    ClearIsFree(db, archive, m, around, i);
    forall j | 0 <= j < i ensures items[j].key != item.key {
      ItemsDistinct(m, j, i);
    }
    if !item.reuse && item.row.parent.Some? {
      var parent := ParentOf(item.key, item.row).value;
      if InPlan(items, parent) {
        ParentIsEarlier(m, i, parent);
      }
    }
  }

  lemma ParentIsEarlier(m: Manifest, i: nat, parent: Key)
    requires i < |Items(m)| && Items(m)[i].row.parent.Some?
    requires parent == ParentOf(Items(m)[i].key, Items(m)[i].row).value
    requires InPlan(Items(m), parent)
    ensures InPlan(Items(m)[..i], parent)
  {
    var items := Items(m);
    var j :| 0 <= j < |items| && items[j].key == parent;
    ItemIsDraft(m, i);
    assert Rank(parent.kind) < Rank(items[i].key.kind);
    TaggedSorted(m, i);
    assert items[..i][j].key == parent;
  }

  /** An import that nothing blocks and the tables can store is written as a whole: every row of the manifest is
      there as given, no existing row has changed, and the log has one entry for each row that was not reused. */
  lemma ClearIsWritten(db: Db, archive: seq<Past>, m: Manifest, around: Circumstances)
    requires Inv(db) && ValidManifest(m) && Clear(db, archive, m, around) && Unlogged(db, m.id, Items(m))
    requires StorableItems(Items(m))
    ensures WriteAll(db, m.id, Items(m)).Ok? && Written(db, WriteAll(db, m.id, Items(m)).value, m.id, Items(m))
  {
    forall i | 0 <= i < |Items(m)| ensures Prepared(db, Items(m), i) {
      ClearPrepares(db, archive, m, around, i);
    }
    PreparedIsWritten(db, m.id, Items(m));
  }

  /** The history of a valid manifest meets the archive's CHECK constraint; only a text that PostgreSQL cannot
      cast keeps it from being filed. */
  lemma {:induction false} HistoryIsFiled(archive: seq<Past>, history: seq<Past>)
    requires ValidHistory(history) && forall i :: 0 <= i < |history| ==> !Archived(archive, history[i].id)
    ensures Filed(archive, history).Ok? <==> StorableHistory(history)
    ensures Filed(archive, history).Ok? ==> Filed(archive, history).value == archive + history
  {
    if history == [] {
      assert archive + history == archive;
    } else {
      var front, last := history[..|history| - 1], history[|history| - 1];
      HistoryIsFiled(archive, front);
      assert history == front + [last] && ValidPast(last);
      if Filed(archive, front).Ok? {
        NotArchived(archive, front, last.id);
        assert archive + history == (archive + front) + [last];
      }
    }
  }

  lemma NotArchived(archive: seq<Past>, front: seq<Past>, id: Id)
    requires !Archived(archive, id) && forall i :: 0 <= i < |front| ==> front[i].id != id
    ensures !Archived(archive + front, id)
  {
  }

  /** Exactly one entry for each row that was not reused, and none for the others. */
  lemma {:induction false} OneEntryEach(items: seq<Item>, plan: Id, sequence: nat, i: nat)
    requires i < |items| && forall j, k :: 0 <= j < k < |items| ==> items[j].key != items[k].key
    ensures LoggedOnce(EntriesOf(items, plan, sequence), items[i])
  {
    var front, last := items[..|items| - 1], items[|items| - 1];
    var before := EntriesOf(front, plan, sequence);
    if i < |front| {
      assert front[i] == items[i] && last.key != items[i].key;
      OneEntryEach(front, plan, sequence, i);
      if !last.reuse {
        LoggedOnceMore(before, items[i],
                       RowEntry(sequence + |before| + 1, Derived(plan, last.key), last.key, last.row));
      }
    } else {
      forall k | 0 <= k < |before| ensures !Writes(before[k], last.key) {
        EntryKeys(front, plan, sequence, k);
        var j :| 0 <= j < |front| && front[j].key == before[k].key;
        assert items[j].key != last.key;
      }
      if !last.reuse {
        assert OnlyEntry(before + [RowEntry(sequence + |before| + 1, Derived(plan, last.key), last.key, last.row)],
                         |before|, last);
      }
    }
  }

  lemma LoggedOnceMore(before: seq<Entry>, item: Item, e: Entry)
    requires LoggedOnce(before, item) && !Writes(e, item.key)
    ensures LoggedOnce(before + [e], item)
  {
    if !item.reuse {
      var k :| 0 <= k < |before| && OnlyEntry(before, k, item);
      assert OnlyEntry(before + [e], k, item);
    }
  }

  ghost predicate LoggedOnce(entries: seq<Entry>, item: Item) {
    if item.reuse then forall k :: 0 <= k < |entries| ==> !Writes(entries[k], item.key)
    else exists k :: 0 <= k < |entries| && OnlyEntry(entries, k, item)
  }

  predicate Writes(e: Entry, key: Key) {
    e.RowEntry? && e.key == key
  }

  /** The k-th entry carries the item's row, and no other entry writes its key. */
  ghost predicate OnlyEntry(entries: seq<Entry>, k: nat, item: Item)
    requires k < |entries|
  {
    && Writes(entries[k], item.key) && entries[k].row == item.row
    && forall l :: 0 <= l < |entries| && l != k ==> !Writes(entries[l], item.key)
  }

  lemma {:induction false} EntryKeys(items: seq<Item>, plan: Id, sequence: nat, k: nat)
    requires k < |EntriesOf(items, plan, sequence)|
    ensures EntriesOf(items, plan, sequence)[k].RowEntry?
    ensures InPlan(items, EntriesOf(items, plan, sequence)[k].key)
  {
    var front, last := items[..|items| - 1], items[|items| - 1];
    assert items == front + [last];
    if k < |EntriesOf(front, plan, sequence)| {
      EntryKeys(front, plan, sequence, k);
    }
    InPlanSnoc(front, last, EntriesOf(items, plan, sequence)[k].key);
  }
}
