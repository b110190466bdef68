/** What resolving a conflict writes and answers, said over the stored rows and the payloads alone. */
module Resolutions {
  import opened Types
  import opened Tables
  import opened Ledger
  import opened Conflicts
  import Texts
  import Meanings
  import Answers

  /** The payload of the resolution: the merged one, or the client's own of the conflict. */
  function PayloadOf(op: Operation, action: Action): Patch
    requires op.Upsert? && Writes(action)
  {
    match action
    case ManualMerge(merged) => merged
    case _ => op.patch
  }

  /** The row after an overwriting resolution: a conflicting deletion deletes it; otherwise the payload's columns
      take its values, all others stay, and the row is not deleted. The version rises by one and the stock
      stays as it is in either case. */
  lemma ResolutionMeans(db: Db, n: nat, action: Action, expected: int, change: ChangeId)
    requires Inv(db) && Writes(action) && Resolve(db, n, action, expected, change).Ok?
    ensures var db', op := Resolve(db, n, action, expected, change).value, db.conflicts[n].operation;
            var key := op.key;
            && key in db.rows && key in db'.rows
            && var before, after := db.rows[key], db'.rows[key];
            && after.version == before.version + 1
            && after.quantity == before.quantity && after.initial == before.initial && after.status == before.status
            && (op.Delete? ==> after == before.(version := before.version + 1, deleted := true))
            && (op.Upsert? ==> !after.deleted && Meanings.Patched(key, Some(before), after, PayloadOf(op, action)))
            && db'.log == db.log + [RowEntry(db.sequence + 1, change, key, after)]
  {
    var op := db.conflicts[n].operation;
    OverwriteIsSound(db, n, action, change);
    if op.Upsert? {
      Meanings.UpsertPatches(db, op.key, VersionOf(db.rows, op.key), PayloadOf(op, action));
    }
  }

  /** Why a resolution is refused. */
  function Refusal(db: Db, n: nat, action: Action, expected: int, change: ChangeId): Option<Failure> {
    if n >= |db.conflicts| then Some(Business(NotFound, 0))
    else
      var c := db.conflicts[n];
      if !c.open then Some(Business(ConflictAlreadyResolved, 0))
      else if action.Defer? then None
      else if expected > 0 && expected != c.serverVersion then Some(Business(VersionConflict, c.serverVersion))
      else if action.KeepRemote? then None
      else if c.operation.Inventory? then Some(Business(ConflictActionUnsupported, 0))
      else WriteRefusal(db, c, action, change)
  }

  /** Why the client's side, or a merge, cannot be written: no such row, another version than the one recorded,
      whatever refuses the upsert, or a change id that is in use. */
  function WriteRefusal(db: Db, c: Conflict, action: Action, change: ChangeId): Option<Failure>
    requires !c.operation.Inventory? && Writes(action)
  {
    var key := c.operation.key;
    if key.kind == OtherEntity || key !in db.rows then Some(Business(NotFound, 0))
    else
      var version := db.rows[key].version;
      if c.serverVersion > 0 && version != c.serverVersion then Some(Business(VersionConflict, version))
      else if c.operation.Upsert? && Answers.UpsertRefusal(db, key, version, PayloadOf(c.operation, action)).Some?
      then Answers.UpsertRefusal(db, key, version, PayloadOf(c.operation, action))
      else if Answers.Used(db.log, change) then Some(Raw(UniqueViolation))
      else None
  }

  lemma WriteRefusalIs(db: Db, n: nat, action: Action, change: ChangeId)
    requires Inv(db) && n < |db.conflicts| && !db.conflicts[n].operation.Inventory? && Writes(action)
    ensures WriteRefusal(db, db.conflicts[n], action, change) ==
              match Overwrite(db, n, action, change) case Ok(_) => None case Err(f) => Some(f)
  {
    var op := db.conflicts[n].operation;
    if op.key.kind != OtherEntity && op.key in db.rows && op.Upsert? {
      Answers.UpsertRefusalIs(db, op.key, db.rows[op.key].version, PayloadOf(op, action));
    }
  }

  /** A resolution is refused exactly as the table says; otherwise it is answered with the version kept or
      written, and the cursor of the entry that publishes it. Deferring leaves the conflict open, and every
      other resolution closes it and no other. */
  lemma ResolutionAnswer(bench: Bench, device: Id, user: Id, request: Request, change: ChangeId)
    requires Inv(bench.db) && request.key == "" && request.expected >= 0
    ensures var r := Answering(bench, device, user, request, change);
            var refusal := Refusal(bench.db, request.conflict, request.action, request.expected, change);
            && (refusal.Some? ==> r == Err(refusal.value))
            && (refusal.None? ==>
                  && r.Ok? && r.value.0.answers == bench.answers
                  && var c, after := bench.db.conflicts[request.conflict], r.value.0.db;
                  && after.conflicts == bench.db.conflicts[request.conflict := c.(open := request.action.Defer?)]
                  && r.value.1 == match request.action
                                  case Defer => Deferred
                                  case KeepRemote => Kept(c.serverVersion)
                                  case _ => Overwritten(VersionOf(bench.db.rows, c.operation.key) + 1, Cursor(after)))
  {
    var db, n := bench.db, request.conflict;
    if n < |db.conflicts| && db.conflicts[n].open && Writes(request.action) && !db.conflicts[n].operation.Inventory? {
      WriteRefusalIs(db, n, request.action, change);
      if Resolve(db, n, request.action, request.expected, change).Ok? {
        ResolutionMeans(db, n, request.action, request.expected, change);
      }
    }
  }

  /** Under a key the same resolution is answered and stored; the key must have 16 to 255 bytes, and fit its
      column in characters. */
  lemma KeyedResolutionAnswer(bench: Bench, device: Id, user: Id, request: Request, change: ChangeId)
    requires Inv(bench.db) && request.key != "" && request.expected >= 0
    requires ReceiptKey(device, request.key) !in bench.answers
    ensures var keyed, plain := Answering(bench, device, user, request, change),
                                Answering(bench, device, user, request.(key := ""), change);
            if !(16 <= Texts.Bytes(request.key) <= 255) then keyed == Err(Business(ValidationFailed, 0))
            else if '\0' in request.key then keyed == Err(Raw(OtherFailure))
            else if plain.Err? then keyed == plain
            else if !(16 <= |request.key| <= 255) then keyed == Err(Raw(InvalidData))
            else
              && keyed.Ok? && keyed.value.1 == plain.value.1 && keyed.value.0.db == plain.value.0.db
              && keyed.value.0.answers ==
                   bench.answers[ReceiptKey(device, request.key) := Answered(user, request, plain.value.1)]
  {
  }
}
