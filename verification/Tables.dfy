/** The tables of one family, as values. */
module Tables {
  import opened Types
  import opened Texts

  // ---- entities

  /** A row of one of the five synchronised tables. `parent` is `category_id` of a product and
      `product_id` of the other kinds; `quantity`, `initial` and `status` are used by batches only. */
  datatype Row = Row(
    version: int,
    deleted: bool,
    parent: Option<Id>,
    expiry: Option<Day>,
    columns: map<string, string>,
    quantity: int,
    initial: int,
    status: Status)

  type Rows = map<Key, Row>

  function ParentKind(kind: Kind): Kind {
    match kind
    case Products => Categories
    case ProductBatches => Products
    case ShoppingItems => Products
    case ReminderSettings => Products
    case _ => OtherEntity
  }

  function ParentOf(key: Key, row: Row): Option<Key> {
    if row.parent.Some? then Some(Key(ParentKind(key.kind), row.parent.value)) else None
  }

  function VersionOf(rows: Rows, key: Key): int {
    if key in rows then rows[key].version else 0
  }

  function NameOf(columns: map<string, string>): string {
    if "name" in columns then columns["name"] else ""
  }

  /** The unique indexes over active rows: category names without regard to case, and one reminder setting
      for each product and one without product. */
  predicate Clash(kind: Kind, a: Row, b: Row) {
    match kind
    case Categories => Lower(NameOf(a.columns)) == Lower(NameOf(b.columns))
    case ReminderSettings => a.parent == b.parent
    case _ => false
  }

  predicate Taken(rows: Rows, key: Key, row: Row) {
    && !row.deleted
    && exists k :: k in rows && k != key && k.kind == key.kind && !rows[k].deleted && Clash(key.kind, row, rows[k])
  }

  // ---- changes pushed by clients

  /** The identity of a change: a UUID somebody generated, or the one an import derives. */
  datatype ChangeId = Given(number: nat) | Derived(plan: Id, key: Key)

  datatype Edit<T> = Keep | Replace(value: T)

  datatype ParentText = NoParent | Parent(ref: Ref)

  datatype StockFields = NoStockField | QuantityField | InitialOrStatusField

  /** The payload of an upsert. `columns` holds the text of each named column ("" for null). `validDates`
      says whether the calendar dates are well formed; `insertable` and `updatable` say whether every
      named column but the name can be cast and satisfies the constraints of its column when an INSERT
      (with its defaults) or an UPDATE writes it. */
  datatype Patch = Patch(
    parent: Edit<ParentText>,
    expiry: Edit<Option<Day>>,
    columns: map<string, string>,
    stockFields: StockFields,
    validDates: bool,
    insertable: bool,
    updatable: bool)

  datatype CommandName = ConsumeFefo | ConsumeAllocated | Restock | Discard

  datatype Line = Line(batch: Ref, quantity: int)

  /** An operation id as the client spells it: a UUID, or a text that is none. */
  datatype OperationRef = OperationUuid(id: ChangeId, spelling: nat) | OperationText(text: string)

  /** `operation` is the client's operation id or, when that is blank, the id of the change. */
  datatype Operation =
    | Upsert(key: Key, baseVersion: int, patch: Patch)
    | Delete(key: Key, baseVersion: int)
    | Inventory(name: CommandName, product: Ref, quantity: int, lines: seq<Line>,
                operation: OperationRef, entity: Option<Id>)

  /** `wellFormed` stands for the checks of validateChange on the text alone (UUID syntax, RFC 3339 time).
      `rest` is what else the fingerprint digests: the client's time, other payload fields, spellings. */
  datatype Change = Change(id: ChangeId, key: string, operation: Operation, wellFormed: bool, rest: string)

  /** A Home Assistant command: the columns of its audit row, and in `details` what else it says.
      `wellFormed` and `rest` are as in a change. */
  datatype HomeChange = HomeChange(
    request: Id,
    key: string,
    integration: Id,
    entity: string,
    command: string,
    summary: string,
    details: string,
    wellFormed: bool,
    rest: string)

  /** What a client pushes: a change of the family's tables, or a command to an appliance. */
  datatype Pushed = OfTables(change: Change) | OfHome(command: HomeChange)

  // ---- history, log, receipts

  datatype Record = Record(batch: Id, change: int, operation: OperationRef, device: Option<Id>)

  datatype Settled = Settled(batch: Id, quantity: int, before: int, final: int, beforeVersion: int, afterVersion: int)

  /** A change_log row. A row entry carries the row it wrote; a stock entry carries every allocation. */
  datatype Entry =
    | RowEntry(cursor: nat, change: ChangeId, key: Key, row: Row)
    | StockEntry(cursor: nat, change: ChangeId, allocations: seq<Settled>)

  datatype Outcome =
    | Accepted(version: int, cursor: nat)
    | Conflicted(reason: Code, serverVersion: int, cursor: nat)
    | Rejected(code: Code, cursor: nat)

  datatype ReceiptKey = ReceiptKey(device: Id, key: string)

  /** The stored fingerprint is an injective digest of (device, change), so the pair stands for it. */
  datatype Receipt = Receipt(device: Id, pushed: Pushed, outcome: Outcome)

  datatype Conflict = Conflict(device: Id, change: ChangeId, operation: Operation, reason: Code, serverVersion: int,
                               open: bool)

  /** `sequence` is the identity sequence behind change_log.cursor, shared by all families;
      `foreign` holds the ids that rows of other families occupy. */
  datatype Db = Db(
    rows: Rows,
    records: seq<Record>,
    log: seq<Entry>,
    receipts: map<ReceiptKey, Receipt>,
    conflicts: seq<Conflict>,
    sequence: nat,
    foreign: set<Key>)

  function Cursor(db: Db): nat {
    if db.log == [] then 0 else db.log[|db.log| - 1].cursor
  }

  predicate Logged(log: seq<Entry>, change: ChangeId) {
    exists i :: 0 <= i < |log| && log[i].change == change
  }
}
