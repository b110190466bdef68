/** All writers of one family together: what every run of them keeps. */
module World {
  import opened Types
  import opened Tables
  import opened Receipts
  import opened Ledger
  import Texts
  import SyncSpec
  import SyncSafety
  import Conflicts
  import Linkage
  import LinkageSafety
  import Import
  import ImportProtocol
  import History
  import Runs

  /** One family's tables, with the linkage and import tables and the receipts of conflict resolutions. */
  datatype Family = Family(
    home: Linkage.Home,
    plans: map<Id, ImportProtocol.Plan>,
    archive: seq<Import.Past>,
    answers: map<ReceiptKey, Conflicts.Answered>)

  function DeskOf(f: Family): ImportProtocol.Desk {
    ImportProtocol.Desk(f.home.db, f.plans, f.archive)
  }

  function BenchOf(f: Family): Conflicts.Bench {
    Conflicts.Bench(f.home.db, f.answers)
  }

  function OnDb(f: Family, db: Db): Family {
    f.(home := f.home.(db := db))
  }

  datatype Action =
    | Push(device: Id, base: int, ch: Change, today: Day, fault: SyncSpec.Fault)   // one change of a push
    | Resolve(device: Id, user: Id, request: Conflicts.Request, change: ChangeId)
    | ApplianceEvent(rule: Option<Linkage.Rule>, run: string, state: string, recipe: seq<Linkage.Need>, today: Day)
    | Decide(key: Linkage.RunKey, confirm: bool, recipe: seq<Linkage.Need>, today: Day, operation: ChangeId)
    | Preflight(user: Id, manifest: Import.Manifest, circumstances: Import.Circumstances, generated: nat)
    | Confirm(user: Id, id: Id, checkpoint: nat, fingerprint: Import.Manifest, circumstances: Import.Circumstances)
    | Abroad(ticks: nat, taken: set<Key>)   // other families draw cursors and take ids

  ghost predicate FamilyInv(f: Family) {
    LinkageSafety.HomeInv(f.home) && ImportProtocol.DeskInv(DeskOf(f)) && Filed(f.home.db.receipts)
  }

  /** What any stretch of history keeps for every part of the family's tables. */
  ghost predicate Develops(f: Family, f': Family) {
    && LinkageSafety.Persists(f.home, f'.home)
    && ImportProtocol.Lasts(DeskOf(f), DeskOf(f'))
    && Conflicts.KeepsAnswers(f.answers, f'.answers)
  }

  function Elsewhere(db: Db, ticks: nat, taken: set<Key>): Db {
    db.(sequence := db.sequence + ticks, foreign := db.foreign + (taken - db.rows.Keys))
  }

  /** One action; a transaction that fails leaves the tables as they were. */
  ghost function Exec(f: Family, a: Action): Family {
    if FamilyInv(f) then Act(f, a) else f
  }

  ghost function Act(f: Family, a: Action): Family
    requires FamilyInv(f)
  {
    var db := f.home.db;
    match a
    case Push(device, base, ch, today, fault) => OnDb(f, SyncSpec.Process(db, device, base, ch, today, fault).0)
    case Resolve(device, user, request, change) =>
      (match Conflicts.Answering(BenchOf(f), device, user, request, change)
       case Ok(done) => OnDb(f, done.0.db).(answers := done.0.answers)
       case Err(_) => f)
    case ApplianceEvent(rule, run, state, recipe, today) =>
      f.(home := LinkageSafety.Exec(f.home, LinkageSafety.Event(rule, run, state, recipe, today)))
    case Decide(key, confirm, recipe, today, operation) =>
      f.(home := LinkageSafety.Exec(f.home, LinkageSafety.Decide(key, confirm, recipe, today, operation)))
    case Preflight(user, manifest, circumstances, generated) =>
      (match ImportProtocol.Preflighted(DeskOf(f), user, manifest, circumstances, generated)
       case Ok(done) => f.(plans := done.0.plans)
       case Err(_) => f)
    case Confirm(user, id, checkpoint, fingerprint, circumstances) =>
      (match ImportProtocol.Confirmed(DeskOf(f), user, id, checkpoint, fingerprint, circumstances)
       case Ok(desk) => OnDb(f, desk.db).(plans := desk.plans, archive := desk.archive)
       case Err(_) => f)
    case Abroad(ticks, taken) => OnDb(f, Elsewhere(db, ticks, taken))
  }

  // ---- each action keeps the family's invariant

  lemma SameFamily(f: Family)
    ensures Develops(f, f)
  {
    LinkageSafety.SameHome(f.home);
    ImportProtocol.SameDesk(DeskOf(f));
  }

  /** A writer that only touches the sync tables. */
  lemma DbStepKeeps(f: Family, db: Db)
    requires FamilyInv(f) && Inv(db) && Evolves(f.home.db, db) && Filed(db.receipts)
    ensures FamilyInv(OnDb(f, db)) && Develops(f, OnDb(f, db))
  {
    LinkageSafety.StepKeeps(f.home, LinkageSafety.Elsewhere(db));
    DeskKeeps(DeskOf(f), DeskOf(OnDb(f, db)));
  }

  /** Later tables keep the import desk. */
  lemma DeskKeeps(desk: ImportProtocol.Desk, desk': ImportProtocol.Desk)
    requires ImportProtocol.DeskInv(desk) && Inv(desk'.db) && Evolves(desk.db, desk'.db)
    requires desk'.plans == desk.plans && desk'.archive == desk.archive
    ensures ImportProtocol.DeskInv(desk') && ImportProtocol.Lasts(desk, desk')
  {
    forall id | id in desk.plans && desk.plans[id].completed
      ensures ImportProtocol.IsThere(desk', desk.plans[id].manifest) {
      ImportProtocol.StaysThere(desk, desk', desk.plans[id].manifest);
    }
  }

  lemma HomeStepKeeps(f: Family, a: LinkageSafety.Action)
    requires FamilyInv(f) && !a.Elsewhere?
    ensures var f' := f.(home := LinkageSafety.Exec(f.home, a)); FamilyInv(f') && Develops(f, f')
  {
    LinkageSafety.StepKeeps(f.home, a);
    LinkageSafety.KeepsReceipts(f.home, a);
    var f' := f.(home := LinkageSafety.Exec(f.home, a));
    forall id | id in f.plans && f.plans[id].completed
      ensures ImportProtocol.IsThere(DeskOf(f'), f.plans[id].manifest) {
      ImportProtocol.StaysThere(DeskOf(f), DeskOf(f'), f.plans[id].manifest);
    }
  }

  lemma DeskStepKeeps(f: Family, desk: ImportProtocol.Desk)
    requires FamilyInv(f) && ImportProtocol.DeskInv(desk) && ImportProtocol.Lasts(DeskOf(f), desk)
    requires desk.db.receipts == f.home.db.receipts
    ensures var f' := OnDb(f, desk.db).(plans := desk.plans, archive := desk.archive); FamilyInv(f') && Develops(f, f')
  {
    LinkageSafety.StepKeeps(f.home, LinkageSafety.Elsewhere(desk.db));
  }

  lemma ElsewhereKeeps(db: Db, ticks: nat, taken: set<Key>)
    requires Inv(db)
    ensures Inv(Elsewhere(db, ticks, taken)) && Evolves(db, Elsewhere(db, ticks, taken))
  {
    History.MetadataEvolves(db, Elsewhere(db, ticks, taken));
  }

  lemma AnsweringKeepsReceipts(bench: Conflicts.Bench, device: Id, user: Id, request: Conflicts.Request,
                               change: ChangeId)
    requires Conflicts.Answering(bench, device, user, request, change).Ok?
    ensures Conflicts.Answering(bench, device, user, request, change).value.0.db.receipts == bench.db.receipts
  {
  }

  lemma ResolveStepKeeps(f: Family, device: Id, user: Id, request: Conflicts.Request, change: ChangeId)
    requires FamilyInv(f) && Conflicts.Answering(BenchOf(f), device, user, request, change).Ok?
    ensures var bench := Conflicts.Answering(BenchOf(f), device, user, request, change).value.0;
            var f' := OnDb(f, bench.db).(answers := bench.answers);
            FamilyInv(f') && Develops(f, f')
  {
    var bench := Conflicts.Answering(BenchOf(f), device, user, request, change).value.0;
    Conflicts.AnsweringKeeps(BenchOf(f), device, user, request, change);
    AnsweringKeepsReceipts(BenchOf(f), device, user, request, change);
    DbStepKeeps(f, bench.db);
    OtherAnswers(f, OnDb(f, bench.db), bench.answers);
  }

  lemma OtherAnswers(f: Family, after: Family, answers: map<ReceiptKey, Conflicts.Answered>)
    requires FamilyInv(after) && Develops(f, after) && Conflicts.KeepsAnswers(f.answers, answers)
    ensures FamilyInv(after.(answers := answers)) && Develops(f, after.(answers := answers))
  {
  }

  lemma PushStepKeeps(f: Family, device: Id, base: int, ch: Change, today: Day, fault: SyncSpec.Fault)
    requires FamilyInv(f)
    ensures var f' := OnDb(f, SyncSpec.Process(f.home.db, device, base, ch, today, fault).0);
            FamilyInv(f') && Develops(f, f')
  {
    SyncSafety.ProcessKeeps(f.home.db, device, base, ch, today, fault);
    SyncSafety.ProcessSettles(f.home.db, device, base, ch, today, fault);
    DbStepKeeps(f, SyncSpec.Process(f.home.db, device, base, ch, today, fault).0);
  }

  lemma StepKeeps(f: Family, a: Action)
    requires FamilyInv(f)
    ensures FamilyInv(Exec(f, a)) && Develops(f, Exec(f, a))
  {
    var db := f.home.db;
    SameFamily(f);
    match a
    case Push(device, base, ch, today, fault) =>
      PushStepKeeps(f, device, base, ch, today, fault);
    case Resolve(device, user, request, change) =>
      if Conflicts.Answering(BenchOf(f), device, user, request, change).Ok? {
        ResolveStepKeeps(f, device, user, request, change);
      }
    case ApplianceEvent(rule, run, state, recipe, today) =>
      HomeStepKeeps(f, LinkageSafety.Event(rule, run, state, recipe, today));
    case Decide(key, confirm, recipe, today, operation) =>
      HomeStepKeeps(f, LinkageSafety.Decide(key, confirm, recipe, today, operation));
    case Preflight(user, manifest, circumstances, generated) =>
      if ImportProtocol.Preflighted(DeskOf(f), user, manifest, circumstances, generated).Ok? {
        ImportProtocol.PreflightKeeps(DeskOf(f), user, manifest, circumstances, generated);
        DeskStepKeeps(f, ImportProtocol.Preflighted(DeskOf(f), user, manifest, circumstances, generated).value.0);
      }
    case Confirm(user, id, checkpoint, fingerprint, circumstances) =>
      if ImportProtocol.Confirmed(DeskOf(f), user, id, checkpoint, fingerprint, circumstances).Ok? {
        ImportProtocol.ConfirmKeeps(DeskOf(f), user, id, checkpoint, fingerprint, circumstances);
        ImportProtocol.ConfirmationCompletes(DeskOf(f), user, id, checkpoint, fingerprint, circumstances);
        DeskStepKeeps(f, ImportProtocol.Confirmed(DeskOf(f), user, id, checkpoint, fingerprint, circumstances).value);
      }
    case Abroad(ticks, taken) =>
      ElsewhereKeeps(db, ticks, taken);
      DbStepKeeps(f, Elsewhere(db, ticks, taken));
  }

  /** None of these writers files a receipt for a command. */
  lemma OnlyTableReceipts(f: Family, a: Action, k: ReceiptKey)
    requires FamilyInv(f) && k in Exec(f, a).home.db.receipts && k !in f.home.db.receipts
    ensures Exec(f, a).home.db.receipts[k].pushed.OfTables?
  {
    match a
    case Push(device, base, ch, today, fault) =>
      SyncSafety.OnlyReceiptsAdded(f.home.db, device, base, ch, today, fault);
    case Resolve(device, user, request, change) =>
      if Conflicts.Answering(BenchOf(f), device, user, request, change).Ok? {
        AnsweringKeepsReceipts(BenchOf(f), device, user, request, change);
      }
    case ApplianceEvent(rule, run, state, recipe, today) =>
      LinkageSafety.KeepsReceipts(f.home, LinkageSafety.Event(rule, run, state, recipe, today));
    case Decide(key, confirm, recipe, today, operation) =>
      LinkageSafety.KeepsReceipts(f.home, LinkageSafety.Decide(key, confirm, recipe, today, operation));
    case Preflight(user, manifest, circumstances, generated) =>
    case Confirm(user, id, checkpoint, fingerprint, circumstances) =>
      if ImportProtocol.Confirmed(DeskOf(f), user, id, checkpoint, fingerprint, circumstances).Ok? {
        ImportProtocol.ConfirmationCompletes(DeskOf(f), user, id, checkpoint, fingerprint, circumstances);
      }
    case Abroad(ticks, taken) =>
  }

  lemma DevelopsTransitive(a: Family, b: Family, c: Family)
    requires Develops(a, b) && Develops(b, c)
    ensures Develops(a, c)
  {
    LinkageSafety.PersistsTransitive(a.home, b.home, c.home);
    ImportProtocol.LastsTransitive(DeskOf(a), DeskOf(b), DeskOf(c));
  }

  lemma StepsKeep()
    ensures Runs.Keeping(Exec, FamilyInv, Develops)
  {
    forall f, a | FamilyInv(f) ensures FamilyInv(Exec(f, a)) && Develops(f, Exec(f, a)) {
      StepKeeps(f, a);
    }
    forall f ensures Develops(f, f) {
      SameFamily(f);
    }
    forall a, b, c | Develops(a, b) && Develops(b, c) ensures Develops(a, c) {
      DevelopsTransitive(a, b, c);
    }
  }

  /** Any run of any writers, in any order, with any failures. */
  ghost function Run(f: Family, actions: seq<Action>): (r: Family)
    requires FamilyInv(f)
    ensures FamilyInv(r) && Develops(f, r)
  {
    StepsKeep();
    Runs.RunKeeps(Exec, FamilyInv, Develops, f, actions);
    Runs.Run(Exec, f, actions)
  }

  lemma RunSplits(f: Family, first: seq<Action>, second: seq<Action>)
    requires FamilyInv(f)
    ensures Run(f, first + second) == Run(Run(f, first), second)
  {
    Runs.RunSplits(Exec, f, first, second);
  }

  /** The family as it is founded: no rows, no history. */
  function Founded(sequence: nat, foreign: set<Key>): Family {
    Family(Linkage.Home(Db(map[], [], [], map[], [], sequence, foreign), map[], map[], []), map[], [], map[])
  }

  lemma FoundedInv(sequence: nat, foreign: set<Key>)
    ensures FamilyInv(Founded(sequence, foreign))
  {
  }

  // ---- the headline statements

  /** Conservation: in every reachable state, each batch holds the quantity its first log entry created it
      with plus the sum of all its records; stock stays between 0 and the initial quantity, and used-up or
      discarded batches are empty. */
  lemma StockIsConserved(sequence: nat, foreign: set<Key>, actions: seq<Action>, id: Id)
    ensures FamilyInv(Founded(sequence, foreign))
    ensures var db := Run(Founded(sequence, foreign), actions).home.db;
            BatchKey(id) in db.rows ==>
              var row := db.rows[BatchKey(id)];
              && FirstRow(db.log, BatchKey(id)).Some?
              && row.quantity == FirstRow(db.log, BatchKey(id)).value.quantity + Recorded(db.records, id)
              && 0 <= row.quantity <= row.initial
              && (row.status == UsedUp || row.status == Discarded ==> row.quantity == 0)
  {
    FoundedInv(sequence, foreign);
    var start := Founded(sequence, foreign);
    var db := Run(start, actions).home.db;
    assert db.log[0..] == db.log && db.records[0..] == db.records;
    if BatchKey(id) in db.rows {
      assert Balanced(start.home.db, db, id);
      assert SoundRow(BatchKey(id), db.rows[BatchKey(id)]);
    }
  }

  /** No lost update: over every run from the founding, the log publishes versions 1, 2, 3, ... of each
      entity, each exactly once, up to the stored version. */
  lemma VersionsRiseByOne(sequence: nat, foreign: set<Key>, actions: seq<Action>, key: Key)
    ensures FamilyInv(Founded(sequence, foreign))
    ensures var db := Run(Founded(sequence, foreign), actions).home.db;
            PublishedAll(db.log, key) == Steps(0, VersionOf(db.rows, key))
  {
    FoundedInv(sequence, foreign);
    var start := Founded(sequence, foreign);
    var db := Run(start, actions).home.db;
    assert db.log[0..] == db.log;
    assert Chained(start.home.db, db, key);
  }

  /** Discarded (or expired) is the end of a batch's stock: whatever follows, no stock entry moves it. */
  lemma DiscardedStaysPut(f: Family, first: seq<Action>, second: seq<Action>, id: Id)
    requires FamilyInv(f)
    ensures var mid, end, key := Run(f, first).home.db, Run(f, first + second).home.db, BatchKey(id);
            key in mid.rows && !Available(mid.rows[key].status) ==>
              && key in end.rows && mid.log <= end.log
              && end.rows[key].quantity == mid.rows[key].quantity && end.rows[key].status == mid.rows[key].status
              && !MovedBy(end.log[|mid.log|..], id)
  {
    RunSplits(f, first, second);
  }

  /** Dependencies: every entry of the whole log, imports and ordinary upserts together, refers only to
      entities that an earlier entry introduced. */
  lemma LogIsGrounded(sequence: nat, foreign: set<Key>, actions: seq<Action>, n: nat)
    ensures FamilyInv(Founded(sequence, foreign))
    ensures var log := Run(Founded(sequence, foreign), actions).home.db.log;
            n < |log| ==> References(log[n]) <= Introduced(log[..n])
  {
    FoundedInv(sequence, foreign);
    var start := Founded(sequence, foreign);
    var log := Run(start, actions).home.db.log;
    assert log[0..] == log;
    if n < |log| {
      assert Grounded({}, log);
    }
  }

  /** A conflict that was closed stays closed through any run. */
  lemma ClosedThroughAnyRun(f: Family, n: nat, action: Conflicts.Action, expected: int, change: ChangeId,
                            between: seq<Action>,
                            again: Conflicts.Action, expected': int, change': ChangeId)
    requires FamilyInv(f) && n < |f.home.db.conflicts| && !f.home.db.conflicts[n].open
    ensures Conflicts.Resolve(Run(f, between).home.db, n, again, expected', change') ==
            Err(Business(ConflictAlreadyResolved, 0))
  {
    assert Remembers(f.home.db, Run(f, between).home.db);
  }

  /** A resolution that was answered under a key is answered the same through any run, and writes nothing more. */
  lemma AnsweredThroughAnyRun(f: Family, device: Id, user: Id, request: Conflicts.Request, change: ChangeId,
                              between: seq<Action>,
                              user': Id, request': Conflicts.Request, change': ChangeId)
    requires FamilyInv(f) && request.key != "" && request'.key == request.key && Conflicts.ValidRequest(request')
    requires Conflicts.Answering(BenchOf(f), device, user, request, change).Ok?
    ensures FamilyInv(Exec(f, Resolve(device, user, request, change)))
    ensures var later := Run(Exec(f, Resolve(device, user, request, change)), between);
            Conflicts.Answering(BenchOf(later), device, user', request', change') ==
              if user' == user && request' == request
              then Ok((BenchOf(later), Conflicts.Answering(BenchOf(f), device, user, request, change).value.1))
              else Err(Business(IdempotencyKeyReuse, 0))
  {
    StepKeeps(f, Resolve(device, user, request, change));
    var later := Run(Exec(f, Resolve(device, user, request, change)), between);
    Conflicts.AnsweredForGood(BenchOf(f), BenchOf(later), device, user, request, change, user', request', change');
  }

  /** In every reachable state active categories have different names, and active reminder settings
      different scopes. */
  lemma NamesAndScopesAreUnique(sequence: nat, foreign: set<Key>, actions: seq<Action>, a: Key, b: Key)
    ensures FamilyInv(Founded(sequence, foreign))
    ensures var rows := Run(Founded(sequence, foreign), actions).home.db.rows;
            a in rows && b in rows && a != b && a.kind == b.kind && !rows[a].deleted && !rows[b].deleted ==>
              && (a.kind == Categories && "name" in rows[a].columns && "name" in rows[b].columns ==>
                    Texts.Lower(rows[a].columns["name"]) != Texts.Lower(rows[b].columns["name"]))
              && (a.kind == ReminderSettings ==> rows[a].parent != rows[b].parent)
  {
    FoundedInv(sequence, foreign);
    DistinctlyNamed(Run(Founded(sequence, foreign), actions).home.db.rows, a, b);
  }

  lemma DistinctlyNamed(rows: Rows, a: Key, b: Key)
    requires UniqueRows(rows)
    ensures a in rows && b in rows && a != b && a.kind == b.kind && !rows[a].deleted && !rows[b].deleted ==>
              && (a.kind == Categories && "name" in rows[a].columns && "name" in rows[b].columns ==>
                    Texts.Lower(rows[a].columns["name"]) != Texts.Lower(rows[b].columns["name"]))
              && (a.kind == ReminderSettings ==> rows[a].parent != rows[b].parent)
  {
    if a in rows && b in rows && a != b && a.kind == b.kind && !rows[a].deleted && !rows[b].deleted {
      assert !Taken(rows, a, rows[a]);
      assert !Clash(a.kind, rows[a], rows[b]);
    }
  }
}
