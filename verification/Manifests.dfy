/** What preflight and confirmation of a manifest answer and write, said over its drafts. */
module Manifests {
  import opened Types
  import opened Texts
  import opened Tables
  import opened Ledger
  import opened Import
  import opened ImportProtocol

  // ---- what the checks demand of a draft

  predicate Named(kind: Kind) {
    kind == Categories || kind == Products || kind == ShoppingItems
  }

  function NameText(d: Draft): string {
    if "name" in d.columns then d.columns["name"] else ""
  }

  function LongestName(kind: Kind): nat {
    if kind == Categories then 120 else 255
  }

  /** A text that is given and not empty is one of a list. */
  predicate GivenIn(d: Draft, field: string, choices: set<string>) {
    field in d.columns && d.columns[field] != "" ==> d.columns[field] in choices
  }

  /** The checks of one row: trimmed names of 1 to 120 or 255 characters; a reused category brings neither color nor
      order; a batch has a product, stock within INTEGER that suits its status, and known date texts. */
  predicate WellMade(kind: Kind, d: Draft) {
    && d.wellFormed
    && (kind == Categories ==> d.parent.None?)
    && (Named(kind) ==> 1 <= |Trim(NameText(d))| <= LongestName(kind))
    && (kind == Categories && d.reuse ==> "color" !in d.columns && GivenIn(d, "sort_order", {"0"}))
    && (kind == ProductBatches ==>
          && d.parent.Some?
          && 0 <= d.quantity <= d.initial <= 0x7fff_ffff
          && (d.status == Active ==> d.quantity >= 1)
          && (d.status == UsedUp || d.status == Discarded ==> d.quantity == 0)
          && GivenIn(d, "date_source", {"manual", "barcode", "ocr", "ai_draft", "import", "sync"})
          && GivenIn(d, "date_precision", {"day", "month", "year", "unknown"}))
  }

  /** A history record: within INTEGER, not zero unless discarded, and with the sign of its kind. */
  predicate WellKept(p: Past) {
    && p.wellFormed && -0x8000_0000 <= p.quantity <= 0x7fff_ffff
    && match p.kind
       case Intake => p.quantity > 0
       case Restocked => p.quantity > 0
       case Consumed => p.quantity < 0
       case DiscardedAway => p.quantity <= 0
       case Adjusted => p.quantity != 0
  }

  predicate RealKind(kind: Kind) {
    kind != OtherEntity
  }

  /** All rows and records pass their checks, and no list repeats an id. */
  ghost predicate AllMade(m: Manifest) {
    && (forall kind, i :: RealKind(kind) && 0 <= i < |DraftsOf(m, kind)| ==> WellMade(kind, DraftsOf(m, kind)[i]))
    && (forall kind, i, j :: RealKind(kind) && 0 <= i < j < |DraftsOf(m, kind)| ==>
          DraftsOf(m, kind)[i].id != DraftsOf(m, kind)[j].id)
    && (forall i :: 0 <= i < |m.history| ==> WellKept(m.history[i]))
    && (forall i, j :: 0 <= i < j < |m.history| ==> m.history[i].id != m.history[j].id)
  }

  function Size(m: Manifest): nat {
    |m.categories| + |m.products| + |m.batches| + |m.shopping| + |m.reminders| + |m.history|
  }

  lemma DraftsMade(m: Manifest, kind: Kind)
    requires AllMade(m) && RealKind(kind)
    ensures ValidDrafts(kind, DraftsOf(m, kind))
  {
    forall i | 0 <= i < |DraftsOf(m, kind)| ensures ValidDraft(kind, DraftsOf(m, kind)[i]) {
      assert WellMade(kind, DraftsOf(m, kind)[i]);
    }
  }

  lemma KindMade(m: Manifest, kind: Kind, i: nat)
    requires ValidRows(m) && RealKind(kind) && i < |DraftsOf(m, kind)|
    ensures WellMade(kind, DraftsOf(m, kind)[i])
  {
    assert ValidDraft(kind, DraftsOf(m, kind)[i]);
  }

  lemma KeptIs(p: Past)
    ensures ValidPast(p) <==> WellKept(p)
  {
  }

  lemma RowsMade(m: Manifest)
    ensures ValidRows(m) <==> AllMade(m)
  {
    forall i | 0 <= i < |m.history| ensures ValidPast(m.history[i]) <==> WellKept(m.history[i]) {
      KeptIs(m.history[i]);
    }
    if AllMade(m) {
      DraftsMade(m, Categories);
      DraftsMade(m, Products);
      DraftsMade(m, ProductBatches);
      DraftsMade(m, ShoppingItems);
      DraftsMade(m, ReminderSettings);
    }
    if ValidRows(m) {
      forall kind, i | RealKind(kind) && 0 <= i < |DraftsOf(m, kind)| ensures WellMade(kind, DraftsOf(m, kind)[i]) {
        KindMade(m, kind, i);
      }
    }
  }

  // ---- the n-th draft of a kind, among the rows

  /** The row of a draft: new, not deleted, with the draft's parent and columns; a batch with its day, quantities and
      status, every other kind with none of them. */
  predicate Stands(row: Row, kind: Kind, d: Draft) {
    && row.version == 1 && !row.deleted && row.columns == d.columns && row.parent == d.parent
    && if kind == ProductBatches
       then row.expiry == d.expiry && row.quantity == d.quantity && row.initial == d.initial && row.status == d.status
       else row.expiry == None && row.quantity == 0 && row.initial == 0
  }

  predicate Reuses(kind: Kind, d: Draft) {
    kind == Categories && d.reuse
  }

  lemma DraftIsItem(m: Manifest, kind: Kind, i: nat)
    requires RealKind(kind) && i < |DraftsOf(m, kind)|
    ensures var n := Start(m, kind) + i;
            && n < |Items(m)|
            && Items(m)[n] == Tagged(kind, DraftsOf(m, kind))[i]
  {
  }

  lemma ItemStands(m: Manifest, kind: Kind, i: nat)
    requires AllMade(m) && RealKind(kind) && i < |DraftsOf(m, kind)|
    ensures var n, d := Start(m, kind) + i, DraftsOf(m, kind)[i];
            && n < |Items(m)| && Items(m)[n].key == Key(kind, d.id)
            && Items(m)[n].reuse == Reuses(kind, d) && Stands(Items(m)[n].row, kind, d)
  {
    DraftIsItem(m, kind, i);
    assert WellMade(kind, DraftsOf(m, kind)[i]);
  }

  // ---- what blocks

  predicate Live(rows: Rows, key: Key) {
    key in rows && !rows[key].deleted
  }

  function NameOn(rows: Rows, key: Key): string
    requires key in rows
  {
    if "name" in rows[key].columns then rows[key].columns["name"] else ""
  }

  /** A live category has the name, whatever its case. */
  predicate CategoryNamed(rows: Rows, name: string) {
    exists k :: k in rows && k.kind == Categories && !rows[k].deleted && Lower(NameOn(rows, k)) == Lower(name)
  }

  predicate ReminderScoped(rows: Rows, product: Option<Id>) {
    exists k :: k in rows && k.kind == ReminderSettings && !rows[k].deleted && rows[k].parent == product
  }

  function ParentKey(kind: Kind, parent: Id): Key {
    Key(if kind == Products then Categories else Products, parent)
  }

  predicate Brings(m: Manifest, kind: Kind, id: Id) {
    exists i :: 0 <= i < |DraftsOf(m, kind)| && DraftsOf(m, kind)[i].id == id
  }

  /** One draft, whatever stands beside it: a reused category is live under exactly its name; any other id is free;
      and its parent is in the manifest or live. */
  predicate Placeable(db: Db, m: Manifest, kind: Kind, d: Draft) {
    var key := Key(kind, d.id);
    && (if Reuses(kind, d) then Live(db.rows, key) && NameOn(db.rows, key) == NameText(d)
        else key !in db.rows && key !in db.foreign)
    && (d.parent.Some? ==>
          var parent := ParentKey(kind, d.parent.value);
          Brings(m, parent.kind, parent.id) || Live(db.rows, parent))
  }

  /** Nothing blocks the import: nothing is unsettled on either side; every draft can be placed; category names are
      free and distinct, and so are the scopes of reminders; no record is archived already. */
  ghost predicate Unblocked(db: Db, archive: seq<Past>, m: Manifest, around: Circumstances) {
    && around.outbox == 0 && around.bootstrapped
    && (forall i :: 0 <= i < |db.conflicts| ==> !db.conflicts[i].open)
    && (forall kind, i :: RealKind(kind) && 0 <= i < |DraftsOf(m, kind)| ==>
          Placeable(db, m, kind, DraftsOf(m, kind)[i]))
    && (forall i :: 0 <= i < |m.categories| && !m.categories[i].reuse ==>
          !CategoryNamed(db.rows, NameText(m.categories[i])))
    && (forall i, j :: 0 <= i < j < |m.categories| ==>
          Lower(NameText(m.categories[i])) != Lower(NameText(m.categories[j])))
    && (forall i :: 0 <= i < |m.reminders| ==> !ReminderScoped(db.rows, m.reminders[i].parent))
    && (forall i, j :: 0 <= i < j < |m.reminders| ==> m.reminders[i].parent != m.reminders[j].parent)
    && (forall i, j :: 0 <= i < |m.history| && 0 <= j < |archive| ==> m.history[i].id != archive[j].id)
  }

  lemma PlannedIsBrought(m: Manifest, key: Key, n: nat)
    requires n < |Items(m)| && Items(m)[n].key == key
    ensures Brings(m, key.kind, key.id)
  {
    ItemIsDraft(m, n);
    assert DraftsOf(m, key.kind)[n - Start(m, key.kind)].id == key.id;
  }

  lemma BroughtIsPlanned(m: Manifest, key: Key, i: nat)
    requires RealKind(key.kind) && i < |DraftsOf(m, key.kind)| && DraftsOf(m, key.kind)[i].id == key.id
    ensures InPlan(Items(m), key)
  {
    DraftIsItem(m, key.kind, i);
    assert Items(m)[Start(m, key.kind) + i].key == key;
  }

  lemma InPlanIs(m: Manifest, key: Key)
    requires RealKind(key.kind)
    ensures InPlan(Items(m), key) <==> Brings(m, key.kind, key.id)
  {
    if n: nat :| n < |Items(m)| && Items(m)[n].key == key {
      PlannedIsBrought(m, key, n);
    }
    if i: nat :| i < |DraftsOf(m, key.kind)| && DraftsOf(m, key.kind)[i].id == key.id {
      BroughtIsPlanned(m, key, i);
    }
  }

  /** The blockers of one row by itself. */
  ghost predicate RowFree(db: Db, m: Manifest, n: nat)
    requires n < |Items(m)|
  {
    && !ReuseMismatch(db, Items(m), n) && !Overlapping(db, Items(m), n)
    && (!Items(m)[n].reuse ==> !Dangling(db, Items(m), n))
  }

  lemma PlaceableIs(db: Db, m: Manifest, kind: Kind, i: nat)
    requires AllMade(m) && RealKind(kind) && i < |DraftsOf(m, kind)| && Start(m, kind) + i < |Items(m)|
    ensures RowFree(db, m, Start(m, kind) + i) <==> Placeable(db, m, kind, DraftsOf(m, kind)[i])
  {
    ItemStands(m, kind, i);
    var d := DraftsOf(m, kind)[i];
    assert WellMade(kind, d);
    if d.parent.Some? {
      InPlanIs(m, ParentKey(kind, d.parent.value));
    }
  }

  lemma RowsFreeIs(db: Db, m: Manifest)
    requires AllMade(m)
    ensures (forall n :: 0 <= n < |Items(m)| ==> RowFree(db, m, n)) <==>
              (forall kind, i :: RealKind(kind) && 0 <= i < |DraftsOf(m, kind)| ==>
                 Placeable(db, m, kind, DraftsOf(m, kind)[i]))
  {
    if forall n :: 0 <= n < |Items(m)| ==> RowFree(db, m, n) {
      forall kind, i | RealKind(kind) && 0 <= i < |DraftsOf(m, kind)|
        ensures Placeable(db, m, kind, DraftsOf(m, kind)[i])
      {
        DraftIsItem(m, kind, i);
        PlaceableIs(db, m, kind, i);
      }
    }
    if forall kind, i :: RealKind(kind) && 0 <= i < |DraftsOf(m, kind)| ==>
         Placeable(db, m, kind, DraftsOf(m, kind)[i]) {
      forall n | 0 <= n < |Items(m)| ensures RowFree(db, m, n) {
        ItemIsDraft(m, n);
        TaggedSorted(m, n);
        PlaceableIs(db, m, Items(m)[n].key.kind, n - Start(m, Items(m)[n].key.kind));
      }
    }
  }

  // ---- names, scopes, records

  ghost predicate NamesFree(db: Db, m: Manifest) {
    && (forall i :: 0 <= i < |m.categories| && !m.categories[i].reuse ==>
          !CategoryNamed(db.rows, NameText(m.categories[i])))
    && (forall i, j :: 0 <= i < j < |m.categories| ==>
          Lower(NameText(m.categories[i])) != Lower(NameText(m.categories[j])))
  }

  ghost predicate ScopesFree(db: Db, m: Manifest) {
    && (forall i :: 0 <= i < |m.reminders| ==> !ReminderScoped(db.rows, m.reminders[i].parent))
    && (forall i, j :: 0 <= i < j < |m.reminders| ==> m.reminders[i].parent != m.reminders[j].parent)
  }

  lemma CategoryItem(m: Manifest, n: nat)
    requires AllMade(m) && n < |Items(m)|
    ensures Items(m)[n].key.kind == Categories <==> n < |m.categories|
    ensures n < |m.categories| ==>
              NameOf(Items(m)[n].row.columns) == NameText(m.categories[n]) && Items(m)[n].reuse == m.categories[n].reuse
  {
    ItemIsDraft(m, n);
    if n < |m.categories| {
      ItemStands(m, Categories, n);
    }
  }

  lemma NameTakenIs(rows: Rows, name: string)
    ensures NameTaken(rows, name) <==> CategoryNamed(rows, name)
  {
  }

  lemma NamesFreeIs(db: Db, m: Manifest)
    requires AllMade(m)
    ensures (forall n :: 0 <= n < |Items(m)| ==> !NameOverlap(db, Items(m), n)) <==> NamesFree(db, m)
  {
    var items := Items(m);
    assert |m.categories| <= |items|;
    forall n | 0 <= n < |items|
      ensures items[n].key.kind == Categories <==> n < |m.categories|
      ensures n < |m.categories| ==>
                NameOf(items[n].row.columns) == NameText(m.categories[n]) && items[n].reuse == m.categories[n].reuse
    {
      CategoryItem(m, n);
    }
    forall n | 0 <= n < |m.categories|
      ensures NameTaken(db.rows, NameText(m.categories[n])) <==> CategoryNamed(db.rows, NameText(m.categories[n]))
    {
      NameTakenIs(db.rows, NameText(m.categories[n]));
    }
    if forall n :: 0 <= n < |items| ==> !NameOverlap(db, items, n) {
      forall i, j | 0 <= i < j < |m.categories|
        ensures Lower(NameText(m.categories[i])) != Lower(NameText(m.categories[j]))
      {
        assert !NameOverlap(db, items, j) && items[i].key.kind == Categories;
      }
      forall i | 0 <= i < |m.categories| && !m.categories[i].reuse
        ensures !CategoryNamed(db.rows, NameText(m.categories[i]))
      {
        assert !NameOverlap(db, items, i);
      }
    }
  }

  lemma ReminderItem(m: Manifest, n: nat)
    requires AllMade(m) && n < |Items(m)|
    ensures Items(m)[n].key.kind == ReminderSettings <==> n >= Start(m, ReminderSettings)
    ensures n >= Start(m, ReminderSettings) ==>
              && n - Start(m, ReminderSettings) < |m.reminders|
              && Items(m)[n].row.parent == m.reminders[n - Start(m, ReminderSettings)].parent
  {
    ItemIsDraft(m, n);
    TaggedSorted(m, n);
    if n >= Start(m, ReminderSettings) {
      ItemStands(m, ReminderSettings, n - Start(m, ReminderSettings));
    }
  }

  lemma ScopesFreeIs(db: Db, m: Manifest)
    requires AllMade(m)
    ensures (forall n :: 0 <= n < |Items(m)| ==> !ScopeOverlap(db, Items(m), n)) <==> ScopesFree(db, m)
  {
    var items, start := Items(m), Start(m, ReminderSettings);
    assert start + |m.reminders| == |items|;
    forall n | 0 <= n < |items|
      ensures items[n].key.kind == ReminderSettings <==> n >= start
      ensures n >= start ==> items[n].row.parent == m.reminders[n - start].parent
    {
      ReminderItem(m, n);
    }
    if forall n :: 0 <= n < |items| ==> !ScopeOverlap(db, items, n) {
      forall i, j | 0 <= i < j < |m.reminders| ensures m.reminders[i].parent != m.reminders[j].parent {
        assert !ScopeOverlap(db, items, start + j) && items[start + i].key.kind == ReminderSettings;
      }
      forall i | 0 <= i < |m.reminders| ensures !ReminderScoped(db.rows, m.reminders[i].parent) {
        assert !ScopeOverlap(db, items, start + i);
      }
    }
    if ScopesFree(db, m) {
      forall n | 0 <= n < |items| ensures !ScopeOverlap(db, items, n) {
        if n >= start {
          assert !ReminderScoped(db.rows, m.reminders[n - start].parent);
        }
      }
    }
  }

  /** What no blocker at a row means. */
  ghost predicate RowUnblocked(db: Db, m: Manifest, n: nat)
    requires n < |Items(m)|
  {
    RowFree(db, m, n) && !NameOverlap(db, Items(m), n) && !ScopeOverlap(db, Items(m), n)
  }

  lemma ClearRow(db: Db, archive: seq<Past>, m: Manifest, around: Circumstances, n: nat)
    requires n < |Items(m)| && Clear(db, archive, m, around)
    ensures RowUnblocked(db, m, n)
  {
    assert !Blocks(db, archive, m, around, Blocker(CategoryReuseMismatch, Row_(n)));
    assert !Blocks(db, archive, m, around, Blocker(UuidOverlap, Row_(n)));
    assert !Blocks(db, archive, m, around, Blocker(MissingDependency, Row_(n)));
    assert !Blocks(db, archive, m, around, Blocker(CategoryNameOverlap, Row_(n)));
    assert !Blocks(db, archive, m, around, Blocker(ReminderScopeOverlap, Row_(n)));
  }

  ghost predicate RequestFree(db: Db, archive: seq<Past>, m: Manifest, around: Circumstances) {
    && around.outbox == 0 && around.bootstrapped
    && (forall i :: 0 <= i < |db.conflicts| ==> !db.conflicts[i].open)
    && (forall i, j :: 0 <= i < |m.history| && 0 <= j < |archive| ==> m.history[i].id != archive[j].id)
  }

  lemma ClearRequest(db: Db, archive: seq<Past>, m: Manifest, around: Circumstances)
    requires Clear(db, archive, m, around)
    ensures RequestFree(db, archive, m, around)
  {
    assert !Blocks(db, archive, m, around, Blocker(UnsettledLocalOutbox, Request));
    assert !Blocks(db, archive, m, around, Blocker(BootstrapNotConfirmed, Request));
    assert !Blocks(db, archive, m, around, Blocker(UnsettledRemoteSync, Request));
    forall i, j | 0 <= i < |m.history| && 0 <= j < |archive| ensures m.history[i].id != archive[j].id {
      assert !Blocks(db, archive, m, around, Blocker(UuidOverlap, Record_(i)));
    }
  }

  lemma FreeIsClear(db: Db, archive: seq<Past>, m: Manifest, around: Circumstances)
    requires RequestFree(db, archive, m, around) && forall n :: 0 <= n < |Items(m)| ==> RowUnblocked(db, m, n)
    ensures Clear(db, archive, m, around)
  {
    forall b ensures !Blocks(db, archive, m, around, b) {
      if b.place.Row_? && b.place.n < |Items(m)| {
        assert RowUnblocked(db, m, b.place.n);
      }
    }
  }

  /** The checks of the targets find no blocker exactly when the manifest is unblocked. */
  lemma ClearIsUnblocked(db: Db, archive: seq<Past>, m: Manifest, around: Circumstances)
    requires AllMade(m)
    ensures Clear(db, archive, m, around) <==> Unblocked(db, archive, m, around)
  {
    RowsFreeIs(db, m);
    NamesFreeIs(db, m);
    ScopesFreeIs(db, m);
    if Clear(db, archive, m, around) {
      ClearRequest(db, archive, m, around);
      forall n | 0 <= n < |Items(m)|
        ensures RowFree(db, m, n) && !NameOverlap(db, Items(m), n) && !ScopeOverlap(db, Items(m), n)
      {
        ClearRow(db, archive, m, around, n);
      }
    }
    if Unblocked(db, archive, m, around) {
      assert NamesFree(db, m) && ScopesFree(db, m);
      FreeIsClear(db, archive, m, around);
    }
  }

  // ---- preflight

  /** Every preflight, case by case: format, form and size of the manifest; then who has used its id, and for what;
      then whether it is completed, blocked (which revokes a prepared plan), or ready under the checkpoint that was
      told first. Nothing but the plans changes. */
  lemma PreflightAnswer(desk: Desk, user: Id, m: Manifest, around: Circumstances, generated: nat)
    ensures var r := Preflighted(desk, user, m, around, generated);
            var known := m.id in desk.plans;
            if m.format != 1 then r == Err(Business(ImportUnsupportedFormat, 0))
            else if Trim(m.workspace) == "" || Bytes(m.workspace) > 255 || around.outbox < 0 || !AllMade(m)
            then r == Err(Business(ValidationFailed, 0))
            else if Size(m) > 1000 || m.bytes > 1048576 then r == Err(Business(ImportLimitExceeded, 0))
            else if known && desk.plans[m.id].user != user then r == Err(Business(Forbidden, 0))
            else if known && desk.plans[m.id].manifest != m then r == Err(Business(ImportIdReused, 0))
            else if known && desk.plans[m.id].completed then r == Ok((desk, ImportReceipt.Completed))
            else if !Unblocked(desk.db, desk.archive, m, around)
                then r == Ok((desk.(plans := desk.plans - {m.id}), Blocked))
            else
              var checkpoint := if known then desk.plans[m.id].checkpoint else generated;
              r == Ok((desk.(plans := desk.plans[m.id := Plan(user, m, checkpoint, false)]), Ready(checkpoint)))
  {
    RowsMade(m);
    if AllMade(m) {
      ClearIsUnblocked(desk.db, desk.archive, m, around);
    }
  }

  // ---- confirmation

  /** What the columns take of a draft: its name untrimmed, date texts of the lists where given, and texts that can be
      cast. A reused category is not written. */
  predicate Fits(kind: Kind, d: Draft) {
    Reuses(kind, d) ||
    (&& d.castable
     && (Named(kind) ==> 1 <= |NameText(d)| <= LongestName(kind))
     && (kind == ProductBatches ==>
           && ("date_source" in d.columns ==>
                 d.columns["date_source"] in {"manual", "barcode", "ocr", "ai_draft", "import", "sync"})
           && ("date_precision" in d.columns ==> d.columns["date_precision"] in {"day", "month", "year", "unknown"})))
  }

  ghost predicate AllFit(m: Manifest) {
    && (forall kind, i :: RealKind(kind) && 0 <= i < |DraftsOf(m, kind)| ==> Fits(kind, DraftsOf(m, kind)[i]))
    && (forall i :: 0 <= i < |m.history| ==> m.history[i].castable)
  }

  /** The change id that the server derives for a row has not been used. */
  ghost predicate AllUnused(log: seq<Entry>, m: Manifest) {
    forall kind, i, k ::
      RealKind(kind) && 0 <= i < |DraftsOf(m, kind)| && !Reuses(kind, DraftsOf(m, kind)[i]) && 0 <= k < |log| ==>
        log[k].change != Derived(m.id, Key(kind, DraftsOf(m, kind)[i].id))
  }

  lemma FitsIs(m: Manifest, kind: Kind, i: nat)
    requires RealKind(kind) && i < |DraftsOf(m, kind)| && Start(m, kind) + i < |Items(m)|
    ensures StorableItem(Items(m)[Start(m, kind) + i]) <==> Fits(kind, DraftsOf(m, kind)[i])
  {
    DraftIsItem(m, kind, i);
  }

  lemma AllFitIs(m: Manifest)
    ensures StorableItems(Items(m)) && StorableHistory(m.history) <==> AllFit(m)
  {
    if StorableItems(Items(m)) {
      forall kind, i | RealKind(kind) && 0 <= i < |DraftsOf(m, kind)| ensures Fits(kind, DraftsOf(m, kind)[i]) {
        DraftIsItem(m, kind, i);
        FitsIs(m, kind, i);
        assert StorableItem(Items(m)[Start(m, kind) + i]);
      }
    }
    if AllFit(m) {
      forall n | 0 <= n < |Items(m)| ensures StorableItem(Items(m)[n]) {
        ItemIsDraft(m, n);
        TaggedSorted(m, n);
        var kind := Items(m)[n].key.kind;
        FitsIs(m, kind, n - Start(m, kind));
        assert Fits(kind, DraftsOf(m, kind)[n - Start(m, kind)]);
      }
    }
  }

  lemma AllUnusedIs(db: Db, m: Manifest)
    requires AllMade(m)
    ensures Unlogged(db, m.id, Items(m)) <==> AllUnused(db.log, m)
  {
    if Unlogged(db, m.id, Items(m)) {
      forall kind, i, k | RealKind(kind) && 0 <= i < |DraftsOf(m, kind)| && !Reuses(kind, DraftsOf(m, kind)[i])
          && 0 <= k < |db.log|
        ensures db.log[k].change != Derived(m.id, Key(kind, DraftsOf(m, kind)[i].id))
      {
        ItemStands(m, kind, i);
        assert !Logged(db.log, Derived(m.id, Items(m)[Start(m, kind) + i].key));
      }
    }
    if AllUnused(db.log, m) {
      forall n | 0 <= n < |Items(m)| && !Items(m)[n].reuse ensures !Logged(db.log, Derived(m.id, Items(m)[n].key)) {
        ItemIsDraft(m, n);
        TaggedSorted(m, n);
        var kind := Items(m)[n].key.kind;
        ItemStands(m, kind, n - Start(m, kind));
      }
    }
  }

  /** Every confirmation, case by case. One that is neither refused nor answered already succeeds exactly when the
      manifest is unblocked, its columns take it, and its derived change ids are unused. */
  lemma ConfirmAnswer(desk: Desk, user: Id, id: Id, checkpoint: nat, fingerprint: Manifest, around: Circumstances)
    requires DeskInv(desk)
    ensures var r := Confirmed(desk, user, id, checkpoint, fingerprint, around);
            if id !in desk.plans then r == Err(Business(NotFound, 0))
            else
              var plan := desk.plans[id];
              if plan.user != user then r == Err(Business(Forbidden, 0))
              else if plan.checkpoint != checkpoint || plan.manifest != fingerprint
              then r == Err(Business(ImportCheckpointStale, 0))
              else if plan.completed then r == Ok(desk)
              else if !Unblocked(desk.db, desk.archive, plan.manifest, around) then r == Err(Business(ImportBlocked, 0))
              else r.Ok? <==> AllFit(plan.manifest) && AllUnused(desk.db.log, plan.manifest)
  {
    if id in desk.plans {
      var m := desk.plans[id].manifest;
      assert ValidManifest(m);
      RowsMade(m);
      ClearIsUnblocked(desk.db, desk.archive, m, around);
      if !desk.plans[id].completed && Clear(desk.db, desk.archive, m, around) {
        ClearIsConfirmed(desk, id, around);
        AllFitIs(m);
        AllUnusedIs(desk.db, m);
      }
    }
  }

  /** The entries that an import appends for one key: none, or exactly one with the row. */
  ghost predicate EnteredOnce(log: seq<Entry>, from: nat, plan: Id, key: Key, row: Row) {
    exists k :: from <= k < |log| && log[k].RowEntry? && log[k].change == Derived(plan, key) && log[k].key == key
                && log[k].row == row
                && forall l :: from <= l < |log| && l != k ==> !Writes(log[l], key)
  }

  lemma {:induction false} EntryAt(items: seq<Item>, plan: Id, sequence: nat, i: nat)
    requires i < |items| && !items[i].reuse
    requires forall j, k :: 0 <= j < k < |items| ==> items[j].key != items[k].key
    ensures EnteredOnce(EntriesOf(items, plan, sequence), 0, plan, items[i].key, items[i].row)
  {
    OneEntryEach(items, plan, sequence, i);
    var entries := EntriesOf(items, plan, sequence);
    var k :| 0 <= k < |entries| && OnlyEntry(entries, k, items[i]);
    EntryIsOwn(items, plan, sequence, k);
    assert entries[k].RowEntry? && entries[k].change == Derived(plan, items[i].key);
  }

  lemma {:induction false} EntryIsOwn(items: seq<Item>, plan: Id, sequence: nat, k: nat)
    requires k < |EntriesOf(items, plan, sequence)|
    ensures var e := EntriesOf(items, plan, sequence)[k]; e.RowEntry? && e.change == Derived(plan, e.key)
  {
    if k < |EntriesOf(items[..|items| - 1], plan, sequence)| {
      EntryIsOwn(items[..|items| - 1], plan, sequence, k);
    }
  }

  lemma EnteredAfter(before: seq<Entry>, entries: seq<Entry>, plan: Id, key: Key, row: Row)
    requires EnteredOnce(entries, 0, plan, key, row)
    ensures EnteredOnce(before + entries, |before|, plan, key, row)
  {
    var k :| 0 <= k < |entries| && entries[k].RowEntry? && entries[k].change == Derived(plan, key)
             && entries[k].key == key && entries[k].row == row
             && forall l :: 0 <= l < |entries| && l != k ==> !Writes(entries[l], key);
    var all := before + entries;
    assert all[|before| + k] == entries[k];
    forall l | |before| <= l < |all| && l != |before| + k ensures !Writes(all[l], key) {
      assert all[l] == entries[l - |before|];
    }
  }

  /** A confirmation that completes the import writes every draft that is not a reused category: its row was not
      there and stands as given, and one entry of the log publishes exactly that row. Every row that was there is
      as it was, and the history is archived in order. */
  lemma ConfirmedDraftsStand(desk: Desk, user: Id, id: Id, checkpoint: nat, fingerprint: Manifest,
                             around: Circumstances, kind: Kind, i: nat)
    requires DeskInv(desk) && Confirmed(desk, user, id, checkpoint, fingerprint, around).Ok?
    requires !desk.plans[id].completed && RealKind(kind) && i < |DraftsOf(desk.plans[id].manifest, kind)|
    ensures var desk', m := Confirmed(desk, user, id, checkpoint, fingerprint, around).value, desk.plans[id].manifest;
            var d := DraftsOf(m, kind)[i];
            var key := Key(kind, d.id);
            && (forall k :: k in desk.db.rows ==> k in desk'.db.rows && desk'.db.rows[k] == desk.db.rows[k])
            && desk'.archive == desk.archive + m.history
            && (!Reuses(kind, d) ==>
                  && key !in desk.db.rows && key in desk'.db.rows && Stands(desk'.db.rows[key], kind, d)
                  && EnteredOnce(desk'.db.log, |desk.db.log|, id, key, desk'.db.rows[key]))
            && (Reuses(kind, d) ==>
                  forall l :: |desk.db.log| <= l < |desk'.db.log| ==> !Writes(desk'.db.log[l], key))
  {
    var desk', m := Confirmed(desk, user, id, checkpoint, fingerprint, around).value, desk.plans[id].manifest;
    ConfirmationCompletes(desk, user, id, checkpoint, fingerprint, around);
    DraftWritten(desk, desk', around, id, kind, i);
  }

  lemma DraftWritten(desk: Desk, desk': Desk, around: Circumstances, id: Id, kind: Kind, i: nat)
    requires DeskInv(desk) && Completes(desk, desk', id)
             && Clear(desk.db, desk.archive, desk.plans[id].manifest, around)
    requires RealKind(kind) && i < |DraftsOf(desk.plans[id].manifest, kind)|
    ensures var d := DraftsOf(desk.plans[id].manifest, kind)[i];
            var key := Key(kind, d.id);
            && (!Reuses(kind, d) ==>
                  && key !in desk.db.rows && key in desk'.db.rows && Stands(desk'.db.rows[key], kind, d)
                  && EnteredOnce(desk'.db.log, |desk.db.log|, id, key, desk'.db.rows[key]))
            && (Reuses(kind, d) ==>
                  forall l :: |desk.db.log| <= l < |desk'.db.log| ==> !Writes(desk'.db.log[l], key))
  {
    var m := desk.plans[id].manifest;
    assert ValidManifest(m);
    RowsMade(m);
    ItemStands(m, kind, i);
    forall j, k | 0 <= j < k < |Items(m)| ensures Items(m)[j].key != Items(m)[k].key {
      ItemsDistinct(m, j, k);
    }
    WrittenDraft(desk, desk', around, id, Start(m, kind) + i);
  }

  lemma WrittenDraft(desk: Desk, desk': Desk, around: Circumstances, id: Id, n: nat)
    requires DeskInv(desk) && Completes(desk, desk', id)
             && Clear(desk.db, desk.archive, desk.plans[id].manifest, around)
    requires n < |Items(desk.plans[id].manifest)|
    requires forall j, k :: 0 <= j < k < |Items(desk.plans[id].manifest)| ==>
               Items(desk.plans[id].manifest)[j].key != Items(desk.plans[id].manifest)[k].key
    ensures var m, item := desk.plans[id].manifest, Items(desk.plans[id].manifest)[n];
            if item.reuse then forall l :: |desk.db.log| <= l < |desk'.db.log| ==> !Writes(desk'.db.log[l], item.key)
            else
              && item.key !in desk.db.rows && item.key in desk'.db.rows && desk'.db.rows[item.key] == item.row
              && EnteredOnce(desk'.db.log, |desk.db.log|, id, item.key, item.row)
  {
    var m := desk.plans[id].manifest;
    var items, item := Items(m), Items(m)[n];
    var entries := EntriesOf(items, m.id, desk.db.sequence);
    assert desk'.db.log == desk.db.log + entries;
    if item.reuse {
      OneEntryEach(items, m.id, desk.db.sequence, n);
      forall l | |desk.db.log| <= l < |desk'.db.log| ensures !Writes(desk'.db.log[l], item.key) {
        assert desk'.db.log[l] == entries[l - |desk.db.log|];
      }
    } else {
      ClearRow(desk.db, desk.archive, m, around, n);
      assert !Overlapping(desk.db, items, n);
      EntryAt(items, m.id, desk.db.sequence, n);
      EnteredAfter(desk.db.log, entries, id, item.key, item.row);
    }
  }
}
