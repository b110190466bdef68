/** Resolving a recorded conflict: by whom it may be closed, how often, and what it may overwrite. */
module Conflicts {
  import opened Types
  import opened Tables
  import opened Receipts
  import opened Ledger
  import opened Database
  import opened SyncSpec
  import SyncStore
  import SyncSafety
  import History

  datatype Action = Defer | KeepRemote | KeepLocal | ManualMerge(merged: Patch)

  predicate Writes(action: Action) {
    action.KeepLocal? || action.ManualMerge?
  }

  /** The row that keep_local and manual_merge write, over the version they find. */
  function ResolvedRow(db: Db, op: Operation, action: Action): Result<Row>
    requires !op.Inventory? && Writes(action)
  {
    var current := VersionOf(db.rows, op.key);
    if op.Delete? then DeleteRow(db, op.key, current)
    else UpsertRow(db, op.key, current, if action.ManualMerge? then action.merged else op.patch)
  }

  function Closed(db: Db, n: nat): Db
    requires n < |db.conflicts|
  {
    db.(conflicts := db.conflicts[n := db.conflicts[n].(open := false)])
  }

  /** ResolveConflict on the n-th conflict record; an error means that the transaction is rolled back. */
  function Resolve(db: Db, n: nat, action: Action, expected: int, change: ChangeId): Result<Db> {
    if n >= |db.conflicts| then Err(Business(NotFound, 0))
    else
      var c := db.conflicts[n];
      if !c.open then Err(Business(ConflictAlreadyResolved, 0))
      else if action.Defer? then Ok(db)
      else if expected > 0 && expected != c.serverVersion then Err(Business(VersionConflict, c.serverVersion))
      else if action.KeepRemote? then Ok(Closed(db, n))
      else if c.operation.Inventory? then Err(Business(ConflictActionUnsupported, 0))
      else Overwrite(db, n, action, change)
  }

  function Overwrite(db: Db, n: nat, action: Action, change: ChangeId): Result<Db>
    requires n < |db.conflicts| && !db.conflicts[n].operation.Inventory? && Writes(action)
  {
    var c := db.conflicts[n];
    var key := c.operation.key;
    if key.kind == OtherEntity || key !in db.rows then Err(Business(NotFound, 0))
    else if c.serverVersion > 0 && db.rows[key].version != c.serverVersion
        then Err(Business(VersionConflict, db.rows[key].version))
    else match ResolvedRow(db, c.operation, action)
      case Err(e) => Err(e)
      case Ok(row) =>
        if Logged(db.log, change) then Err(Raw(UniqueViolation))
        else Ok(Closed(Publish(db, key, row, change), n))
  }

  // ---- receipts of resolutions

  /** A request as its fingerprint digests it; `key` is "" when the client sends none. */
  datatype Request = Request(conflict: nat, action: Action, expected: int, key: string)

  datatype Response = Deferred | Kept(version: int) | Overwritten(version: int, cursor: nat)

  datatype Answered = Answered(user: Id, request: Request, response: Response)

  /** One family's tables with sync_conflict_resolution_receipts. */
  datatype Bench = Bench(db: Db, answers: map<ReceiptKey, Answered>)

  /** validateConflictResolve */
  predicate ValidRequest(request: Request) {
    request.expected >= 0 && (request.key == "" || ValidKey(request.key))
  }

  function ResponseOf(before: Db, after: Db, request: Request): Response
    requires request.conflict < |before.conflicts|
  {
    var c := before.conflicts[request.conflict];
    match request.action
    case Defer => Deferred
    case KeepRemote => Kept(c.serverVersion)
    case _ => Overwritten(if c.operation.Inventory? then 0 else VersionOf(after.rows, c.operation.key), after.sequence)
  }

  function Answering(bench: Bench, device: Id, user: Id, request: Request, change: ChangeId)
    : Result<(Bench, Response)> {
    var k := ReceiptKey(device, request.key);
    if !ValidRequest(request) then Err(Business(ValidationFailed, 0))
    else if !Readable(request.key) then Err(Raw(OtherFailure))
    else if request.key != "" && k in bench.answers then
      if bench.answers[k].user != user || bench.answers[k].request != request then Err(Business(IdempotencyKeyReuse, 0))
      else Ok((bench, bench.answers[k].response))
    else match Resolve(bench.db, request.conflict, request.action, request.expected, change)
      case Err(e) => Err(e)
      case Ok(db) =>
        var response := ResponseOf(bench.db, db, request);
        if request.key != "" && !StorableKey(request.key) then Err(Raw(InvalidData))
        else
          var filed := bench.answers[k := Answered(user, request, response)];
          Ok((Bench(db, if request.key == "" then bench.answers else filed), response))
  }

  // ---- the code

  method OverwriteEntity(tr: SyncStore.Transaction, n: nat, action: Action, change: ChangeId)
    returns (r: Result<()>, fault: Option<SqlState>)
    requires n < |tr.db.conflicts| && !tr.db.conflicts[n].operation.Inventory? && Writes(action)
    modifies tr.db
    ensures fault.Some? ==> r == Err(Raw(fault.value))
    ensures fault.None? ==>
              match Overwrite(old(tr.db.State()), n, action, change)
              case Ok(after) => r == Ok(()) && tr.db.State() == after
              case Err(e) => r == Err(e)
  {
    var db := tr.db;
    var c := db.conflicts[n];
    var key := c.operation.key;
    if key.kind == OtherEntity || key !in db.rows {
      return Err(Business(NotFound, 0)), None;
    }
    var current := db.rows[key].version;
    if c.serverVersion > 0 && current != c.serverVersion {
      return Err(Business(VersionConflict, current)), None;
    }
    var updated;
    if c.operation.Delete? {
      updated, fault := tr.DeleteEntity(key, current);
    } else {
      updated, fault := tr.UpsertEntity(key, current, if action.ManualMerge? then action.merged else c.operation.patch);
    }
    if updated.Err? {
      return Err(updated.error), fault;
    }
    var appended;
    appended, fault := tr.AppendChange(RowEntry(0, change, key, updated.value));
    if appended.Err? {
      return Err(appended.error), fault;
    }
    fault := Statement();
    if fault.Some? {
      return Err(Raw(fault.value)), fault;
    }
    db.conflicts := db.conflicts[n := db.conflicts[n].(open := false)];
    r := Ok(());
  }

  class ConflictRepository {
    const db: Database
    var answers: map<ReceiptKey, Answered>

    constructor (bench: Bench)
      ensures fresh(db) && State() == bench
    {
      db := new Database(bench.db);
      answers := bench.answers;
    }

    function State(): Bench
      reads this, db
    {
      Bench(db.State(), answers)
    }

    /** The part between the look-up of the receipt and its insertion. */
    method Apply(device: Id, request: Request, change: ChangeId) returns (r: Result<Response>, fault: Option<SqlState>)
      modifies db
      ensures fault.Some? ==> r == Err(Raw(fault.value))
      ensures fault.None? ==>
                match Resolve(old(db.State()), request.conflict, request.action, request.expected, change)
                case Ok(after) => r == Ok(ResponseOf(old(db.State()), after, request)) && db.State() == after
                case Err(e) => r == Err(e)
    {
      var n := request.conflict;
      if n >= |db.conflicts| {
        return Err(Business(NotFound, 0)), None;
      }
      var c := db.conflicts[n];
      if !c.open {
        return Err(Business(ConflictAlreadyResolved, 0)), None;
      }
      if request.action.Defer? {
        return Ok(Deferred), None;
      }
      if request.expected > 0 && request.expected != c.serverVersion {
        return Err(Business(VersionConflict, c.serverVersion)), None;
      }
      if request.action.KeepRemote? {
        db.conflicts := db.conflicts[n := c.(open := false)];
        return Ok(Kept(c.serverVersion)), None;
      }
      if c.operation.Inventory? {
        return Err(Business(ConflictActionUnsupported, 0)), None;
      }
      var tr := new SyncStore.Transaction(db, device, 0);
      var done;
      done, fault := OverwriteEntity(tr, n, request.action, change);
      r := if done.Err? then Err(done.error) else Ok(Overwritten(VersionOf(db.rows, c.operation.key), db.sequence));
    }

    /** `change` is the UUID the server generates for the log entry. */
    method ResolveConflict(device: Id, user: Id, request: Request, change: ChangeId)
      returns (r: Result<Response>, ghost fault: Option<SqlState>)
      modifies this, db
      ensures r.Err? ==> State() == old(State())
      ensures fault.Some? ==> r == Err(Raw(fault.value))
      ensures fault.None? ==>
                match Answering(old(State()), device, user, request, change)
                case Ok(done) => r == Ok(done.1) && State() == done.0
                case Err(e) => r == Err(e)
    {
      if !ValidRequest(request) {
        return Err(Business(ValidationFailed, 0)), None;
      }
      var lost := Statement();
      if lost.Some? {
        return Err(Raw(lost.value)), lost;
      }
      if !Readable(request.key) {
        return Err(Raw(OtherFailure)), None;
      }
      var k := ReceiptKey(device, request.key);
      if request.key != "" && k in answers {
        if answers[k].user != user || answers[k].request != request {
          return Err(Business(IdempotencyKeyReuse, 0)), None;
        }
        return Ok(answers[k].response), None;
      }
      var begun := db.State();
      r, lost := Apply(device, request, change);
      if r.Ok? {
        lost := Statement();
        if lost.Some? {
          r := Err(Raw(lost.value));
        } else if request.key != "" && !StorableKey(request.key) {
          r := Err(Raw(InvalidData));
        }
      }
      fault := lost;
      if r.Err? {
        db.Restore(begun);
      } else if request.key != "" {
        answers := answers[k := Answered(user, request, r.value)];
      }
    }
  }

  // ---- what resolutions keep

  lemma OverwriteIsSound(db: Db, n: nat, action: Action, change: ChangeId)
    requires Inv(db)
    requires n < |db.conflicts| && !db.conflicts[n].operation.Inventory? && Writes(action)
    requires Overwrite(db, n, action, change).Ok?
    ensures var key := db.conflicts[n].operation.key;
            var row := ResolvedRow(db, db.conflicts[n].operation, action);
            && row.Ok? && ValidWrite(db, key, row.value) && !Logged(db.log, change)
            && Overwrite(db, n, action, change).value == Closed(Publish(db, key, row.value, change), n)
  {
    var op := db.conflicts[n].operation;
    if op.Delete? {
      SyncSafety.DeleteIsSound(db, op.key, VersionOf(db.rows, op.key));
    } else {
      SyncSafety.UpsertIsSound(db, op.key, VersionOf(db.rows, op.key),
                               if action.ManualMerge? then action.merged else op.patch);
    }
  }

  lemma ClosingKeeps(db: Db, n: nat)
    requires Inv(db) && n < |db.conflicts|
    ensures Inv(Closed(db, n)) && Evolves(db, Closed(db, n))
  {
    History.MetadataEvolves(db, Closed(db, n));
  }

  lemma ResolveKeeps(db: Db, n: nat, action: Action, expected: int, change: ChangeId)
    requires Inv(db) && Resolve(db, n, action, expected, change).Ok?
    ensures var db' := Resolve(db, n, action, expected, change).value; Inv(db') && Evolves(db, db')
  {
    var db' := Resolve(db, n, action, expected, change).value;
    if action.Defer? {
      History.MetadataEvolves(db, db);
    } else if action.KeepRemote? {
      ClosingKeeps(db, n);
    } else {
      var key := db.conflicts[n].operation.key;
      OverwriteIsSound(db, n, action, change);
      var row := ResolvedRow(db, db.conflicts[n].operation, action).value;
      var written := Publish(db, key, row, change);
      PublishInv(db, key, row, change);
      History.PublishEvolves(db, key, row, change);
      ClosingKeeps(written, n);
      History.EvolvesTransitive(db, written, db');
    }
  }

  /** A conflict is closed at most once: after any later history, no action finds it open again. */
  lemma ClosedForGood(db: Db, later: Db, n: nat, action: Action, expected: int, change: ChangeId,
                      again: Action, expected': int, change': ChangeId)
    requires !action.Defer? && Resolve(db, n, action, expected, change).Ok?
    requires Remembers(Resolve(db, n, action, expected, change).value, later)
    ensures Resolve(later, n, again, expected', change') == Err(Business(ConflictAlreadyResolved, 0))
  {
    var db' := Resolve(db, n, action, expected, change).value;
    assert !db'.conflicts[n].open;
  }

  /** A resolution that overwrites finds the version the conflict recorded exactly when the conflict recorded
      a positive one. A conflict that records none (the entity was missing, it belongs to another family, or
      the change guard caught a constraint violation) lets a merge overwrite whatever is there. */
  lemma OverwritesOnlyTheRecordedVersion(db: Db, n: nat, action: Action, expected: int, change: ChangeId)
    requires Inv(db) && Writes(action) && Resolve(db, n, action, expected, change).Ok?
    ensures VersionOf(db.rows, db.conflicts[n].operation.key) == db.conflicts[n].serverVersion
            <==> db.conflicts[n].serverVersion > 0
  {
    var key := db.conflicts[n].operation.key;
    assert SoundRow(key, db.rows[key]);
  }

  /** Answers are never altered. */
  predicate KeepsAnswers(answers: map<ReceiptKey, Answered>, later: map<ReceiptKey, Answered>) {
    forall k :: k in answers ==> k in later && later[k] == answers[k]
  }

  lemma AnsweringKeeps(bench: Bench, device: Id, user: Id, request: Request, change: ChangeId)
    requires Inv(bench.db) && Answering(bench, device, user, request, change).Ok?
    ensures var after := Answering(bench, device, user, request, change).value.0;
            Inv(after.db) && Evolves(bench.db, after.db) && KeepsAnswers(bench.answers, after.answers)
  {
    var k := ReceiptKey(device, request.key);
    if request.key == "" || k !in bench.answers {
      ResolveKeeps(bench.db, request.conflict, request.action, request.expected, change);
    } else {
      History.MetadataEvolves(bench.db, bench.db);
    }
  }

  /** A resolution under a key is settled for good: after any later history the same request by the same user
      gets the same response, any other request under the key is refused, and neither writes anything. */
  lemma AnsweredForGood(bench: Bench, later: Bench, device: Id, user: Id, request: Request, change: ChangeId,
                        user': Id, request': Request, change': ChangeId)
    requires request.key != "" && request'.key == request.key && ValidRequest(request')
    requires Answering(bench, device, user, request, change).Ok?
    requires KeepsAnswers(Answering(bench, device, user, request, change).value.0.answers, later.answers)
    ensures Answering(later, device, user', request', change') ==
              if user' == user && request' == request
              then Ok((later, Answering(bench, device, user, request, change).value.1))
              else Err(Business(IdempotencyKeyReuse, 0))
  {
    var after := Answering(bench, device, user, request, change).value.0;
    assert ReceiptKey(device, request.key) in after.answers;
  }

  /** An overwriting resolution continues the version chain: it raises the version it found by one and
      logs the row it wrote; deferring and keeping the remote side write no row. */
  lemma ResolutionWrites(db: Db, n: nat, action: Action, expected: int, change: ChangeId)
    requires Inv(db) && Resolve(db, n, action, expected, change).Ok?
    ensures var db' := Resolve(db, n, action, expected, change).value;
            if Writes(action) then
              var key := db.conflicts[n].operation.key;
              && key in db'.rows && db'.rows[key].version == VersionOf(db.rows, key) + 1
              && db'.rows == db.rows[key := db'.rows[key]]
              && db'.log == db.log + [RowEntry(db.sequence + 1, change, key, db'.rows[key])]
              && db'.records == db.records && !db'.conflicts[n].open
            else SyncSafety.Quiet(db, db') && db'.conflicts[n].open == action.Defer?
  {
    if Writes(action) {
      OverwriteIsSound(db, n, action, change);
    }
  }
}
