/** Preflight and confirmation as transactions over the import plans, and what any sequence of them keeps. */
module ImportProtocol {
  import opened Types
  import opened Tables
  import opened Ledger
  import opened Import
  import History

  /** A row of sync_import_plans. The fingerprint is an injective digest of the manifest, so the manifest
      stands for it. */
  datatype Plan = Plan(user: Id, manifest: Manifest, checkpoint: nat, completed: bool)

  /** One family's tables with its import plans and the archive of imported history. */
  datatype Desk = Desk(db: Db, plans: map<Id, Plan>, archive: seq<Past>)

  datatype ImportReceipt = Completed | Blocked | Ready(checkpoint: nat)

  ghost function Preflighted(desk: Desk, user: Id, m: Manifest, around: Circumstances, generated: nat)
    : Result<(Desk, ImportReceipt)> {
    var complaint := Complaint(m, around.outbox);
    if complaint.Some? then Err(Business(complaint.value, 0))
    else if m.id in desk.plans && desk.plans[m.id].user != user then Err(Business(Forbidden, 0))
    else if m.id in desk.plans && desk.plans[m.id].manifest != m then Err(Business(ImportIdReused, 0))
    else if m.id in desk.plans && desk.plans[m.id].completed then Ok((desk, Completed))
    else if !Clear(desk.db, desk.archive, m, around) then Ok((desk.(plans := desk.plans - {m.id}), Blocked))
    else
      var checkpoint := if m.id in desk.plans then desk.plans[m.id].checkpoint else generated;
      Ok((desk.(plans := desk.plans[m.id := Plan(user, m, checkpoint, false)]), Ready(checkpoint)))
  }

  ghost function Confirmed(desk: Desk, user: Id, id: Id, checkpoint: nat, fingerprint: Manifest, around: Circumstances)
    : Result<Desk> {
    if id !in desk.plans then Err(Business(NotFound, 0))
    else
      var plan := desk.plans[id];
      if plan.user != user then Err(Business(Forbidden, 0))
      else if plan.checkpoint != checkpoint || plan.manifest != fingerprint then Err(Business(ImportCheckpointStale, 0))
      else if !ValidManifest(plan.manifest) then Err(Raw(OtherFailure))
      else if plan.completed then Ok(desk)
      else if !Clear(desk.db, desk.archive, plan.manifest, around) then Err(Business(ImportBlocked, 0))
      else match WriteAll(desk.db, id, Items(plan.manifest))
        case Err(e) => Err(e)
        case Ok(db) =>
          match Filed(desk.archive, plan.manifest.history)
          case Err(e) => Err(e)
          case Ok(archive) => Ok(Desk(db, desk.plans[id := plan.(completed := true)], archive))
  }

  // ---- the invariant

  /** A completed import is there: its rows have a version, its entries are logged, its history is archived. */
  ghost predicate IsThere(desk: Desk, m: Manifest) {
    && (forall i :: 0 <= i < |Items(m)| ==> Items(m)[i].key in desk.db.rows)
    && (forall i :: 0 <= i < |Items(m)| && !Items(m)[i].reuse ==> Logged(desk.db.log, Derived(m.id, Items(m)[i].key)))
    && (forall i :: 0 <= i < |m.history| ==> m.history[i] in desk.archive)
  }

  ghost predicate SoundPlans(desk: Desk) {
    forall id :: id in desk.plans ==>
      && desk.plans[id].manifest.id == id && ValidManifest(desk.plans[id].manifest)
      && (desk.plans[id].completed ==> IsThere(desk, desk.plans[id].manifest))
  }

  ghost predicate DeskInv(desk: Desk) {
    Inv(desk.db) && SoundPlans(desk) && DistinctPasts(desk.archive)
  }

  /** Over any stretch: completed imports stay completed with their manifest, and the archive only grows. */
  ghost predicate Lasts(desk: Desk, desk': Desk) {
    && Evolves(desk.db, desk'.db)
    && desk.archive <= desk'.archive
    && (forall id :: id in desk.plans && desk.plans[id].completed ==>
          id in desk'.plans && desk'.plans[id] == desk.plans[id])
  }

  lemma SameDesk(desk: Desk)
    ensures Lasts(desk, desk)
  {
    History.MetadataEvolves(desk.db, desk.db);
  }

  lemma LastsTransitive(a: Desk, b: Desk, c: Desk)
    requires Lasts(a, b) && Lasts(b, c)
    ensures Lasts(a, c)
  {
    History.EvolvesTransitive(a.db, b.db, c.db);
  }

  lemma StaysThere(desk: Desk, desk': Desk, m: Manifest)
    requires IsThere(desk, m) && Extends(desk.db, desk'.db) && desk.archive <= desk'.archive
    ensures IsThere(desk', m)
  {
    forall i | 0 <= i < |Items(m)| && !Items(m)[i].reuse ensures Logged(desk'.db.log, Derived(m.id, Items(m)[i].key)) {
      LoggedGrows(desk.db.log, desk'.db.log, Derived(m.id, Items(m)[i].key));
    }
  }

  /** Only prepared plans come or go. */
  lemma PlansOnly(desk: Desk, desk': Desk)
    requires DeskInv(desk) && desk'.db == desk.db && desk'.archive == desk.archive
    requires forall id :: id in desk'.plans ==>
               (id in desk.plans && desk'.plans[id] == desk.plans[id])
               || (desk'.plans[id].manifest.id == id && ValidManifest(desk'.plans[id].manifest)
                     && !desk'.plans[id].completed)
    requires forall id :: id in desk.plans && desk.plans[id].completed ==>
               id in desk'.plans && desk'.plans[id] == desk.plans[id]
    ensures DeskInv(desk') && Lasts(desk, desk')
  {
    SameDesk(desk);
    forall id | id in desk'.plans && desk'.plans[id].completed ensures IsThere(desk', desk'.plans[id].manifest) {
      SameThere(desk, desk', desk'.plans[id].manifest);
    }
  }

  lemma SameThere(desk: Desk, desk': Desk, m: Manifest)
    requires IsThere(desk, m) && desk'.db == desk.db && desk'.archive == desk.archive
    ensures IsThere(desk', m)
  {
  }

  lemma PreflightKeeps(desk: Desk, user: Id, m: Manifest, around: Circumstances, generated: nat)
    requires DeskInv(desk) && Preflighted(desk, user, m, around, generated).Ok?
    ensures var desk' := Preflighted(desk, user, m, around, generated).value.0;
            DeskInv(desk') && Lasts(desk, desk') && desk'.db == desk.db && desk'.archive == desk.archive
  {
    PlansOnly(desk, Preflighted(desk, user, m, around, generated).value.0);
  }

  // ---- confirmation

  /** Whether a row's derived id is taken, and whether the tables can store it, the checks do not see. */
  lemma {:induction false} WriteAllUnlogged(db: Db, plan: Id, items: seq<Item>)
    requires WriteAll(db, plan, items).Ok?
    ensures db.log <= WriteAll(db, plan, items).value.log
    ensures Unlogged(db, plan, items) && StorableItems(items)
  {
    if items != [] {
      var front, last := items[..|items| - 1], items[|items| - 1];
      WriteAllUnlogged(db, plan, front);
      var before := WriteAll(db, plan, front).value;
      forall i | 0 <= i < |items| && !items[i].reuse ensures !Logged(db.log, Derived(plan, items[i].key)) {
        if i == |items| - 1 {
          NotLoggedBefore(db.log, before.log, Derived(plan, last.key));
        } else {
          assert front[i] == items[i];
        }
      }
      forall i | 0 <= i < |items| ensures StorableItem(items[i]) {
        assert i < |front| ==> front[i] == items[i];
      }
    }
  }

  lemma NotLoggedBefore(log: seq<Entry>, more: seq<Entry>, change: ChangeId)
    requires log <= more && !Logged(more, change)
    ensures !Logged(log, change)
  {
    forall i | 0 <= i < |log| ensures log[i].change != change {
      assert more[i] == log[i];
    }
  }

  lemma {:induction false} EntriesLog(items: seq<Item>, plan: Id, sequence: nat, i: nat)
    requires i < |items| && !items[i].reuse
    ensures Logged(EntriesOf(items, plan, sequence), Derived(plan, items[i].key))
  {
    var front, last := items[..|items| - 1], items[|items| - 1];
    var before := EntriesOf(front, plan, sequence);
    if i < |front| {
      EntriesLog(front, plan, sequence, i);
      LoggedGrows(before, EntriesOf(items, plan, sequence), Derived(plan, items[i].key));
    } else {
      assert EntriesOf(items, plan, sequence)[|before|].change == Derived(plan, last.key);
    }
  }

  /** The effect of a confirmation that completes a plan: all of the manifest, once, and nothing else. */
  ghost predicate Completes(desk: Desk, desk': Desk, id: Id) {
    && id in desk.plans && !desk.plans[id].completed
    && var m := desk.plans[id].manifest;
    && desk'.plans == desk.plans[id := desk.plans[id].(completed := true)]
    && desk'.archive == desk.archive + m.history
    && Written(desk.db, desk'.db, m.id, Items(m))
    && m.id == id
  }

  lemma ArchiveGrows(desk: Desk, m: Manifest, around: Circumstances)
    requires DistinctPasts(desk.archive) && ValidHistory(m.history) && Clear(desk.db, desk.archive, m, around)
    ensures DistinctPasts(desk.archive + m.history)
    ensures Filed(desk.archive, m.history).Ok? <==> StorableHistory(m.history)
    ensures Filed(desk.archive, m.history).Ok? ==> Filed(desk.archive, m.history).value == desk.archive + m.history
  {
    forall i | 0 <= i < |m.history| ensures !Archived(desk.archive, m.history[i].id) {
      assert !Blocks(desk.db, desk.archive, m, around, Blocker(UuidOverlap, Record_(i)));
    }
    HistoryIsFiled(desk.archive, m.history);
    forall i | 0 <= i < |desk.archive| ensures Archived(desk.archive, desk.archive[i].id) {
    }
  }

  /** Confirming answers the completed import unchanged, or writes the frozen manifest as a whole. */
  lemma ConfirmationCompletes(desk: Desk, user: Id, id: Id, checkpoint: nat, fingerprint: Manifest,
                              around: Circumstances)
    requires DeskInv(desk) && Confirmed(desk, user, id, checkpoint, fingerprint, around).Ok?
    ensures var desk' := Confirmed(desk, user, id, checkpoint, fingerprint, around).value;
            if desk.plans[id].completed then desk' == desk else Completes(desk, desk', id)
  {
    var m := desk.plans[id].manifest;
    if !desk.plans[id].completed {
      WriteAllUnlogged(desk.db, id, Items(m));
      ClearIsWritten(desk.db, desk.archive, m, around);
      ArchiveGrows(desk, m, around);
    }
  }

  lemma CompletionIsThere(desk: Desk, desk': Desk, id: Id)
    requires DeskInv(desk) && Completes(desk, desk', id)
    ensures IsThere(desk', desk.plans[id].manifest)
  {
    var m := desk.plans[id].manifest;
    forall i | 0 <= i < |Items(m)| && !Items(m)[i].reuse ensures Logged(desk'.db.log, Derived(m.id, Items(m)[i].key)) {
      EntriesLog(Items(m), m.id, desk.db.sequence, i);
      LoggedAfter(desk.db.log, EntriesOf(Items(m), m.id, desk.db.sequence), Derived(m.id, Items(m)[i].key));
    }
    forall i | 0 <= i < |Items(m)| ensures Items(m)[i].key in desk'.db.rows {
      assert InPlan(Items(m), Items(m)[i].key);
    }
  }

  lemma LoggedAfter(log: seq<Entry>, more: seq<Entry>, change: ChangeId)
    requires Logged(more, change)
    ensures Logged(log + more, change)
  {
    var i :| 0 <= i < |more| && more[i].change == change;
    assert (log + more)[|log| + i] == more[i];
  }

  lemma ConfirmKeeps(desk: Desk, user: Id, id: Id, checkpoint: nat, fingerprint: Manifest, around: Circumstances)
    requires DeskInv(desk) && Confirmed(desk, user, id, checkpoint, fingerprint, around).Ok?
    ensures var desk' := Confirmed(desk, user, id, checkpoint, fingerprint, around).value;
            DeskInv(desk') && Lasts(desk, desk')
  {
    var desk' := Confirmed(desk, user, id, checkpoint, fingerprint, around).value;
    SameDesk(desk);
    ConfirmationCompletes(desk, user, id, checkpoint, fingerprint, around);
    if !desk.plans[id].completed {
      CompletionIsThere(desk, desk', id);
      ArchiveGrows(desk, desk.plans[id].manifest, around);
      forall other | other in desk'.plans && desk'.plans[other].completed
        ensures IsThere(desk', desk'.plans[other].manifest) {
        if other != id {
          StaysThere(desk, desk', desk.plans[other].manifest);
        }
      }
    }
  }

  /** At most once: after an import is completed, and whatever happened since, confirming it again answers
      the receipt and preflighting it answers "completed"; neither writes anything. */
  lemma CompletedForGood(desk: Desk, later: Desk, user: Id, id: Id, around: Circumstances, generated: nat)
    requires DeskInv(desk) && DeskInv(later) && Lasts(desk, later)
    requires id in desk.plans && desk.plans[id].completed && desk.plans[id].user == user
    ensures Confirmed(later, user, id, desk.plans[id].checkpoint, desk.plans[id].manifest, around) == Ok(later)
    ensures Preflighted(later, user, desk.plans[id].manifest, around, generated) ==
              if around.outbox < 0 then Err(Business(ValidationFailed, 0)) else Ok((later, Completed))
  {
  }

  /** An unblocked, prepared import is confirmed exactly when its derived change ids are unused and the
      tables can store it: every name fits untrimmed, no date source or precision is "" where one is given,
      and every text can be cast. The validation and the preflight see none of this. */
  lemma ClearIsConfirmed(desk: Desk, id: Id, around: Circumstances)
    requires DeskInv(desk) && id in desk.plans
    requires !desk.plans[id].completed && Clear(desk.db, desk.archive, desk.plans[id].manifest, around)
    ensures Confirmed(desk, desk.plans[id].user, id, desk.plans[id].checkpoint, desk.plans[id].manifest,
                      around).Ok? <==>
              && Unlogged(desk.db, id, Items(desk.plans[id].manifest))
              && StorableItems(Items(desk.plans[id].manifest)) && StorableHistory(desk.plans[id].manifest.history)
  {
    var m := desk.plans[id].manifest;
    ArchiveGrows(desk, m, around);
    if Unlogged(desk.db, id, Items(m)) && StorableItems(Items(m)) {
      ClearIsWritten(desk.db, desk.archive, m, around);
    }
    if WriteAll(desk.db, id, Items(m)).Ok? {
      WriteAllUnlogged(desk.db, id, Items(m));
    }
  }
}
